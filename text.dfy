/**
 * The string operations of the Python and JavaScript runtimes that the modelled code
 * calls: `str.strip`, `str.split()`, `str.splitlines`, `str.upper`/`str.lower`,
 * `str.replace` of one character, `"sep".join`, and `str(int)`.
 *
 * Whitespace and line boundaries follow Python's `str.isspace` and `str.splitlines`.
 * Case mapping covers ASCII letters only.
 */
module Text {

  /** Python's `str.isspace`: the characters `strip()` and `split()` treat as whitespace. */
  predicate IsSpace(c: char)
  {
    c == ' ' || ('\t' <= c <= '\r') || ('\U{1C}' <= c <= '\U{1F}') || c == '\U{85}' ||
    c == '\U{A0}' || c == '\U{1680}' || ('\U{2000}' <= c <= '\U{200A}') ||
    c == '\U{2028}' || c == '\U{2029}' || c == '\U{202F}' || c == '\U{205F}' || c == '\U{3000}'
  }

  /** The line boundaries of Python's `str.splitlines` ("\r\n" counts as one). */
  predicate IsLineBreak(c: char)
  {
    c == '\n' || c == '\r' || c == '\U{0B}' || c == '\U{0C}' || ('\U{1C}' <= c <= '\U{1E}') ||
    c == '\U{85}' || c == '\U{2028}' || c == '\U{2029}'
  }

  /** Every line boundary is whitespace, so `strip()` removes a trailing one. */
  lemma LineBreakIsSpace(c: char)
    requires IsLineBreak(c)
    ensures IsSpace(c)
  {
  }

  predicate NoSpace(s: string)
  {
    forall i | 0 <= i < |s| :: !IsSpace(s[i])
  }

  /** `s` with its leading whitespace removed. */
  function TrimLeft(s: string): string
    decreases |s|
  {
    if s != [] && IsSpace(s[0]) then TrimLeft(s[1..]) else s
  }

  /** `TrimLeft` drops exactly a leading run of whitespace: what is left is a suffix not starting with any. */
  lemma {:induction false} TrimLeftDropsSpace(s: string)
    ensures var r := TrimLeft(s);
      |r| <= |s| && r == s[|s| - |r|..] &&
      (forall i | 0 <= i < |s| - |r| :: IsSpace(s[i])) &&
      (r == [] || !IsSpace(r[0]))
    decreases |s|
  {
    if s != [] && IsSpace(s[0]) {
      TrimLeftDropsSpace(s[1..]);
      var r := TrimLeft(s[1..]);
      assert s[1..][|s| - 1 - |r|..] == s[|s| - |r|..];
      assert forall i | 1 <= i < |s| - |r| :: s[i] == s[1..][i - 1];
    }
  }

  /** `s` with its trailing whitespace removed. */
  function TrimRight(s: string): string
    decreases |s|
  {
    if s != [] && IsSpace(s[|s| - 1]) then TrimRight(s[..|s| - 1]) else s
  }

  /** `TrimRight` drops exactly a trailing run of whitespace: what is left is a prefix not ending with any. */
  lemma {:induction false} TrimRightDropsSpace(s: string)
    ensures var r := TrimRight(s);
      |r| <= |s| && r == s[..|r|] &&
      (forall i | |r| <= i < |s| :: IsSpace(s[i])) &&
      (r == [] || !IsSpace(r[|r| - 1]))
    decreases |s|
  {
    if s != [] && IsSpace(s[|s| - 1]) {
      var front := s[..|s| - 1];
      TrimRightDropsSpace(front);
      var r := TrimRight(front);
      assert front[..|r|] == s[..|r|];
      assert forall i | |r| <= i < |s| - 1 :: s[i] == front[i];
    }
  }

  /** Python's `s.strip()`. */
  function Strip(s: string): string
  {
    TrimRight(TrimLeft(s))
  }

  /** What `strip()` leaves neither starts nor ends with whitespace, and is no longer than `s`. */
  lemma StripEnds(s: string)
    ensures var r := Strip(s); |r| <= |s| && (r == [] || (!IsSpace(r[0]) && !IsSpace(r[|r| - 1])))
  {
    var left := TrimLeft(s);
    var r := TrimRight(left);
    TrimLeftDropsSpace(s);
    TrimRightDropsSpace(left);
    if r != [] {
      assert r[0] == left[0];
    }
  }

  /** The length of the run of non-whitespace characters at the start of `s`. */
  function TokenLength(s: string): (n: nat)
    ensures n <= |s|
    ensures forall i | 0 <= i < n :: !IsSpace(s[i])
    ensures n == |s| || IsSpace(s[n])
    decreases |s|
  {
    if s == [] || IsSpace(s[0]) then 0 else 1 + TokenLength(s[1..])
  }

  /** Python's `s.split()`: the maximal runs of non-whitespace characters, in order. */
  function Split(s: string): (tokens: seq<string>)
    ensures forall t | t in tokens :: t != [] && NoSpace(t)
    ensures s != [] && !IsSpace(s[0]) ==> tokens != [] && tokens[0] == s[..TokenLength(s)]
    ensures NoSpace(s) && s != [] ==> tokens == [s]
    decreases |s|
  {
    if s == [] then []
    else if IsSpace(s[0]) then Split(s[1..])
    else
      var n := TokenLength(s);
      if n == |s| then [s] else [s[..n]] + Split(s[n..])
  }

  /** The index of the first line boundary in `s`, or `|s|` when there is none. */
  function FirstBreak(s: string): (i: nat)
    ensures i <= |s|
    ensures i < |s| ==> IsLineBreak(s[i])
    ensures forall j | 0 <= j < i :: !IsLineBreak(s[j])
    decreases |s|
  {
    if s == [] || IsLineBreak(s[0]) then 0 else 1 + FirstBreak(s[1..])
  }

  /** Python's `s.splitlines()`: the lines of `s` without their boundaries. */
  function SplitLines(s: string): (lines: seq<string>)
    ensures forall l | l in lines :: forall j | 0 <= j < |l| :: !IsLineBreak(l[j])
    ensures s == [] <==> lines == []
    decreases |s|
  {
    if s == [] then []
    else
      var i := FirstBreak(s);
      if i == |s| then [s]
      else
        var next := if s[i] == '\r' && i + 1 < |s| && s[i + 1] == '\n' then i + 2 else i + 1;
        [s[..i]] + SplitLines(s[next..])
  }

  predicate AllSpace(s: string)
  {
    forall i | 0 <= i < |s| :: IsSpace(s[i])
  }

  /** `gaps[0] + tokens[0] + gaps[1] + ... + tokens[n - 1] + gaps[n]`. */
  function Weave(gaps: seq<string>, tokens: seq<string>): string
    requires |gaps| == |tokens| + 1
    decreases |tokens|
  {
    if tokens == [] then gaps[0] else gaps[0] + tokens[0] + Weave(gaps[1..], tokens[1..])
  }

  /** `s` is `tokens` woven with whitespace gaps, none of them empty between two tokens. */
  predicate WovenFrom(s: string, tokens: seq<string>, gaps: seq<string>)
  {
    |gaps| == |tokens| + 1 &&
    (forall k | 0 <= k < |gaps| :: AllSpace(gaps[k])) &&
    (forall k | 0 < k < |tokens| :: gaps[k] != []) &&
    Weave(gaps, tokens) == s
  }

  /**
   * `split()` drops only whitespace: `s` is its tokens woven with whitespace gaps,
   * and the gap between two neighbouring tokens is never empty. As tokens are
   * non-empty and hold no whitespace, they are the maximal runs of `s`, in order.
   */
  lemma {:induction false} SplitRebuilds(s: string) returns (gaps: seq<string>)
    ensures |gaps| == |Split(s)| + 1
    ensures forall k | 0 <= k < |gaps| :: AllSpace(gaps[k])
    ensures forall k | 0 < k < |Split(s)| :: gaps[k] != []
    ensures Weave(gaps, Split(s)) == s
    decreases |s|
  {
    gaps := SplitWoven(s);
  }

  lemma {:induction false} SplitWoven(s: string) returns (gaps: seq<string>)
    ensures WovenFrom(s, Split(s), gaps)
    decreases |s|, 1
  {
    if s == [] {
      gaps := [[]];
    } else if IsSpace(s[0]) {
      gaps := SplitWovenAtSpace(s);
    } else {
      gaps := SplitWovenAtToken(s);
    }
  }

  lemma {:induction false} SplitWovenAtSpace(s: string) returns (gaps: seq<string>)
    requires s != [] && IsSpace(s[0])
    ensures WovenFrom(s, Split(s), gaps)
    decreases |s|, 0
  {
    assert Split(s) == Split(s[1..]);
    var rest := SplitWoven(s[1..]);
    gaps := WovenAfterSpace(s[0], s[1..], Split(s[1..]), rest);
    assert s == [s[0]] + s[1..];
  }

  lemma {:induction false} SplitWovenAtToken(s: string) returns (gaps: seq<string>)
    requires s != [] && !IsSpace(s[0])
    ensures WovenFrom(s, Split(s), gaps)
    decreases |s|, 0
  {
    var n := TokenLength(s);
    if n == |s| {
      assert Split(s) == [s];
      gaps := [[], []];
      assert Weave(gaps[1..], []) == [];
    } else {
      assert Split(s) == [s[..n]] + Split(s[n..]);
      var rest := SplitWoven(s[n..]);
      gaps := WovenAfterToken(s[..n], s[n..], Split(s[n..]), rest);
      assert s == s[..n] + s[n..];
    }
  }

  /** A leading whitespace character joins the first gap. */
  lemma WovenAfterSpace(c: char, tail: string, tokens: seq<string>, gaps: seq<string>)
    returns (wider: seq<string>)
    requires IsSpace(c) && WovenFrom(tail, tokens, gaps)
    ensures WovenFrom([c] + tail, tokens, wider)
  {
    wider := [[c] + gaps[0]] + gaps[1..];
    if tokens != [] {
      assert wider[1..] == gaps[1..];
    }
  }

  /** A token followed by text that starts with whitespace leads the tokens of that text. */
  lemma WovenAfterToken(token: string, tail: string, tokens: seq<string>, gaps: seq<string>)
    returns (joined: seq<string>)
    requires token != [] && NoSpace(token)
    requires tail != [] && IsSpace(tail[0])
    requires forall t | t in tokens :: t != [] && NoSpace(t)
    requires WovenFrom(tail, tokens, gaps)
    ensures WovenFrom(token + tail, [token] + tokens, joined)
  {
    joined := [[]] + gaps;
    assert joined[1..] == gaps && ([token] + tokens)[1..] == tokens;
    WovenSpaceLeads(tail, tokens, gaps);
  }

  /** Woven text that starts with whitespace has a non-empty first gap. */
  lemma WovenSpaceLeads(s: string, tokens: seq<string>, gaps: seq<string>)
    requires forall t | t in tokens :: t != [] && NoSpace(t)
    requires WovenFrom(s, tokens, gaps) && s != [] && IsSpace(s[0])
    ensures gaps[0] != []
  {
    if tokens != [] {
      assert tokens[0] in tokens;
      assert Weave(gaps, tokens) == gaps[0] + tokens[0] + Weave(gaps[1..], tokens[1..]);
    }
  }

  /** One line boundary of `splitlines`: a single boundary character, or "\r\n". */
  predicate IsBoundary(b: string)
  {
    (|b| == 1 && IsLineBreak(b[0])) || b == "\r\n"
  }

  /** `lines[0] + ends[0] + lines[1] + ends[1] + ...`. */
  function Terminated(lines: seq<string>, ends: seq<string>): string
    requires |lines| == |ends|
    decreases |lines|
  {
    if lines == [] then [] else lines[0] + ends[0] + Terminated(lines[1..], ends[1..])
  }

  /**
   * `s` is `lines`, each followed by its end: a boundary for all but the last, which
   * ends at a boundary or is a non-empty remainder; a lone "\r" is never followed by
   * an empty line ended by "\n".
   */
  predicate LinesOf(s: string, lines: seq<string>, ends: seq<string>)
  {
    |ends| == |lines| &&
    Terminated(lines, ends) == s &&
    (forall k | 0 <= k < |ends| - 1 :: IsBoundary(ends[k])) &&
    (ends != [] ==> IsBoundary(ends[|ends| - 1]) || (ends[|ends| - 1] == [] && lines[|ends| - 1] != [])) &&
    (forall k | 0 <= k < |ends| - 1 :: ends[k] == "\r" ==> !(lines[k + 1] == [] && ends[k + 1] == "\n"))
  }

  /**
   * `splitlines()` drops only the boundaries: each line followed by the boundary that
   * ended it gives `s` back. Every line but the last ends at a boundary, and the last
   * one ends at a boundary or is a non-empty remainder; "\r" followed by "\n" is one
   * boundary, never a "\r" and then an empty line.
   */
  lemma {:induction false} SplitLinesRebuilds(s: string) returns (ends: seq<string>)
    ensures |ends| == |SplitLines(s)|
    ensures Terminated(SplitLines(s), ends) == s
    ensures forall k | 0 <= k < |ends| - 1 :: IsBoundary(ends[k])
    ensures ends != [] ==>
      IsBoundary(ends[|ends| - 1]) || (ends[|ends| - 1] == [] && SplitLines(s)[|ends| - 1] != [])
    ensures forall k | 0 <= k < |ends| - 1 ::
      ends[k] == "\r" ==> !(SplitLines(s)[k + 1] == [] && ends[k + 1] == "\n")
  {
    ends := SplitLinesTerminated(s);
  }

  lemma {:induction false} SplitLinesTerminated(s: string) returns (ends: seq<string>)
    ensures LinesOf(s, SplitLines(s), ends)
    decreases |s|, 1
  {
    if s == [] {
      ends := [];
    } else if FirstBreak(s) == |s| {
      assert SplitLines(s) == [s];
      ends := [[]];
      assert Terminated(SplitLines(s)[1..], ends[1..]) == [];
    } else {
      ends := SplitLinesAtBreak(s);
    }
  }

  lemma {:induction false} SplitLinesAtBreak(s: string) returns (ends: seq<string>)
    requires FirstBreak(s) < |s|
    ensures LinesOf(s, SplitLines(s), ends)
    decreases |s|, 0
  {
    var i := FirstBreak(s);
    var next := NextAfterBreak(s, i);
    var rest := SplitLinesTerminated(s[next..]);
    ends := LinesAtBreak(s, i, next, rest);
  }

  /** The lines of `s` are its first line, then the lines after the first boundary. */
  lemma LinesAtBreak(s: string, i: nat, next: nat, rest: seq<string>) returns (ends: seq<string>)
    requires i == FirstBreak(s) < |s| && next == NextAfterBreak(s, i)
    requires LinesOf(s[next..], SplitLines(s[next..]), rest)
    ensures LinesOf(s, SplitLines(s), ends)
  {
    SplitLinesUnfold(s, i, next);
    BoundaryAt(s, i, next);
    ends := LinesAfterBreak(s, i, next, SplitLines(s[next..]), rest);
  }

  /** `LinesAfterBoundary` for the boundary `s[i..next]` of `s`. */
  lemma LinesAfterBreak(s: string, i: nat, next: nat, lines: seq<string>, ends: seq<string>)
    returns (joined: seq<string>)
    requires i < next <= |s| && IsBoundary(s[i..next])
    requires s[i..next] == "\r" ==> next == |s| || s[next] != '\n'
    requires LinesOf(s[next..], lines, ends)
    ensures LinesOf(s, [s[..i]] + lines, joined)
  {
    assert s == s[..i] + s[i..next] + s[next..];
    joined := LinesAfterBoundary(s, s[..i], s[i..next], s[next..], lines, ends);
  }

  /** Where the text after the boundary at break character `s[i]` starts. */
  function NextAfterBreak(s: string, i: nat): (next: nat)
    requires i < |s|
    ensures i < next <= |s|
  {
    if s[i] == '\r' && i + 1 < |s| && s[i + 1] == '\n' then i + 2 else i + 1
  }

  /** One step of `splitlines`: the first line, then the lines after its boundary. */
  lemma SplitLinesUnfold(s: string, i: nat, next: nat)
    requires i == FirstBreak(s) < |s| && next == NextAfterBreak(s, i)
    ensures SplitLines(s) == [s[..i]] + SplitLines(s[next..])
  {
  }

  /** The boundary `splitlines` takes at a break character: "\r\n" when it can, else the character. */
  lemma BoundaryAt(s: string, i: nat, next: nat)
    requires i < |s| && IsLineBreak(s[i]) && next == NextAfterBreak(s, i)
    ensures IsBoundary(s[i..next])
    ensures s[i..next] == "\r" ==> next == |s| || s[next] != '\n'
  {
    if next == i + 2 {
      assert s[i..next] == "\r\n";
    } else {
      assert s[i..next] == [s[i]];
    }
  }

  /** A line and its boundary, followed by text split into lines, lead those lines. */
  lemma LinesAfterBoundary(s: string, line: string, boundary: string, tail: string, lines: seq<string>,
                           ends: seq<string>) returns (joined: seq<string>)
    requires s == line + boundary + tail
    requires IsBoundary(boundary)
    requires boundary == "\r" ==> tail == [] || tail[0] != '\n'
    requires LinesOf(tail, lines, ends)
    ensures LinesOf(s, [line] + lines, joined)
  {
    joined := [boundary] + ends;
    assert joined[1..] == ends && ([line] + lines)[1..] == lines;
    if lines != [] {
      assert Terminated(lines, ends) == lines[0] + ends[0] + Terminated(lines[1..], ends[1..]);
    }
  }

  function ToUpper(c: char): char
  {
    if 'a' <= c <= 'z' then (c as int - 32) as char else c
  }

  function ToLower(c: char): char
  {
    if 'A' <= c <= 'Z' then (c as int + 32) as char else c
  }

  /** `s.upper()`, for ASCII letters. */
  function Upper(s: string): (r: string)
    ensures |r| == |s|
    ensures forall i | 0 <= i < |s| :: r[i] == ToUpper(s[i])
  {
    seq(|s|, i requires 0 <= i < |s| => ToUpper(s[i]))
  }

  /** `s.lower()`, for ASCII letters. */
  function Lower(s: string): (r: string)
    ensures |r| == |s|
    ensures forall i | 0 <= i < |s| :: r[i] == ToLower(s[i])
  {
    seq(|s|, i requires 0 <= i < |s| => ToLower(s[i]))
  }

  /** Upper-casing twice changes nothing more. */
  lemma UpperIdempotent(s: string)
    ensures Upper(Upper(s)) == Upper(s)
  {
  }

  /** `s.replace(from, to)` for single characters. */
  function ReplaceChar(s: string, from: char, to: char): (r: string)
    ensures |r| == |s|
    ensures forall i | 0 <= i < |s| :: r[i] == (if s[i] == from then to else s[i])
  {
    seq(|s|, i requires 0 <= i < |s| => if s[i] == from then to else s[i])
  }

  /** `sep.join(parts)`. */
  function Join(parts: seq<string>, sep: string): string
    decreases |parts|
  {
    if parts == [] then []
    else if |parts| == 1 then parts[0]
    else parts[0] + sep + Join(parts[1..], sep)
  }

  function DigitChar(d: nat): char
    requires d < 10
  {
    ('0' as int + d) as char
  }

  /** `str(n)` for a natural number: its decimal digits, most significant first. */
  function NatToString(n: nat): (r: string)
    ensures r != []
    ensures forall i | 0 <= i < |r| :: '0' <= r[i] <= '9'
    decreases n
  {
    if n < 10 then [DigitChar(n)] else NatToString(n / 10) + [DigitChar(n % 10)]
  }

  /** `str(i)` for any integer. */
  function IntToString(i: int): string
  {
    if i < 0 then "-" + NatToString(-i) else NatToString(i)
  }

  /** `s.strip().lower()`: the key under which names are looked up case-insensitively. */
  function StripLower(s: string): (r: string)
    ensures |r| <= |s|
    ensures r == [] || (!IsSpace(r[0]) && !IsSpace(r[|r| - 1]))
  {
    StripEnds(s);
    Lower(Strip(s))
  }

  /** Normalising a normalised name changes nothing. */
  lemma StripLowerIdempotent(s: string)
    ensures StripLower(StripLower(s)) == StripLower(s)
  {
    var r := StripLower(s);
    assert Strip(r) == r;
    assert Lower(r) == r;
  }

  /** Lower-case ASCII words separated by single spaces, as registered names are written. */
  predicate LowerWords(s: string)
  {
    (forall i | 0 <= i < |s| :: 'a' <= s[i] <= 'z' || s[i] == ' ') &&
    (s == [] || (s[0] != ' ' && s[|s| - 1] != ' '))
  }

  lemma LowerWordsAreNormal(s: string)
    requires LowerWords(s)
    ensures StripLower(s) == s && Lower(s) == s
  {
    LowerFixes(s);
    StripLowerFixes(s);
  }

  /** Lower-casing what has no capitals changes nothing. */
  lemma LowerFixes(s: string)
    requires forall i | 0 <= i < |s| :: !('A' <= s[i] <= 'Z')
    ensures Lower(s) == s
  {
    assert forall i | 0 <= i < |s| :: Lower(s)[i] == s[i];
  }

  /** A name without surrounding whitespace or capitals is its own normal form. */
  lemma StripLowerFixes(s: string)
    requires s == [] || (!IsSpace(s[0]) && !IsSpace(s[|s| - 1]))
    requires forall i | 0 <= i < |s| :: !('A' <= s[i] <= 'Z')
    ensures StripLower(s) == s
  {
    assert TrimLeft(s) == s;
    assert TrimRight(s) == s;
    assert forall i | 0 <= i < |s| :: Lower(s)[i] == s[i];
  }

  /** Without surrounding whitespace, normalising only lower-cases. */
  lemma StripLowerOfTrimmed(s: string)
    requires s == [] || (!IsSpace(s[0]) && !IsSpace(s[|s| - 1]))
    ensures StripLower(s) == Lower(s)
  {
    assert TrimLeft(s) == s;
    assert TrimRight(s) == s;
  }

  /** `s.startswith(p)` / `s.endswith(p)`. */
  predicate StartsWith(s: string, p: string)
  {
    |p| <= |s| && s[..|p|] == p
  }

  predicate EndsWith(s: string, p: string)
  {
    |p| <= |s| && s[|s| - |p|..] == p
  }

  /** A concatenation starts with its first part and ends with its last. */
  lemma AffixesOfConcat(a: string, b: string)
    ensures StartsWith(a + b, a) && EndsWith(a + b, b)
  {
    assert (a + b)[..|a|] == a;
    assert (a + b)[|a + b| - |b|..] == b;
  }

  /** Whatever `a` starts with, `a + b` starts with too. */
  lemma StartsWithExtended(a: string, b: string, p: string)
    requires StartsWith(a, p)
    ensures StartsWith(a + b, p)
  {
    assert (a + b)[..|p|] == a[..|p|];
  }

  /** `p in s`: `p` occurs as a contiguous piece of `s`. */
  predicate ContainsPiece(s: string, p: string)
    decreases |s|
  {
    StartsWith(s, p) || (s != [] && ContainsPiece(s[1..], p))
  }

  /** `p` sits in `s` at offset `i`. */
  predicate PieceAt(s: string, p: string, i: int)
  {
    0 <= i && i + |p| <= |s| && s[i..i + |p|] == p
  }

  /** The scan finds the piece exactly when it sits at some offset. */
  lemma {:induction false} ContainsPieceExactly(s: string, p: string)
    ensures ContainsPiece(s, p) <==> exists i :: PieceAt(s, p, i)
    decreases |s|
  {
    if s != [] {
      ContainsPieceExactly(s[1..], p);
      forall i | PieceAt(s[1..], p, i)
        ensures PieceAt(s, p, i + 1)
      {
        assert s[i + 1..i + 1 + |p|] == s[1..][i..i + |p|];
      }
      forall i | PieceAt(s, p, i) && i > 0
        ensures PieceAt(s[1..], p, i - 1)
      {
        assert s[i..i + |p|] == s[1..][i - 1..i - 1 + |p|];
      }
    }
    if StartsWith(s, p) {
      assert PieceAt(s, p, 0);
    }
    if PieceAt(s, p, 0) {
      assert StartsWith(s, p);
    }
  }
}
