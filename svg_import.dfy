/**
 * Importing a stitch path from SVG (`_strip_namespace`, `_parse_points_attribute`,
 * `_points_from_svg`, `_pattern_from_svg`): the first polyline or polygon with
 * points becomes one `MOVE x y` line per point, shifted so that no coordinate is
 * zero or below.
 *
 * The XML document is given as its elements in document order, each a tag and
 * the value of its `points` attribute if it has one.
 */
module SvgImport {
  import opened Wrappers
  import opened Numbers
  import opened Text
  import opened PatternCli

  datatype SvgError =
    | OddCoordinateCount
    | InvalidNumber
    | NoShapeWithPoints
    | NoCoordinates

  /** The ValueError message of each failure. */
  function SvgMessage(e: SvgError): string
  {
    match e
    case OddCoordinateCount => "SVG points attribute must contain coordinate pairs"
    case InvalidNumber => "Invalid numeric value in SVG points attribute"
    case NoShapeWithPoints => "SVG file does not contain a polyline or polygon with points"
    case NoCoordinates => "SVG source did not provide any coordinates"
  }

  // ---------------------------------------------------------------------------
  // Element names
  // ---------------------------------------------------------------------------

  /** The position of the first `c` in `s`, or `|s|` when there is none. */
  function IndexOf(s: string, c: char): (i: nat)
    ensures i <= |s| && c !in s[..i]
    ensures i < |s| ==> s[i] == c
    decreases |s|
  {
    if s == [] then 0 else if s[0] == c then 0 else 1 + IndexOf(s[1..], c)
  }

  /** `_strip_namespace`: the text after the first `}`, or the whole tag when there is none. */
  function StripNamespace(tag: string): (local: string)
    ensures '}' !in tag ==> local == tag
    ensures '}' in tag ==> exists i | 0 <= i < |tag| :: tag[i] == '}' && '}' !in tag[..i] && local == tag[i + 1..]
  {
    var i := IndexOf(tag, '}');
    if i == |tag| then tag else tag[i + 1..]
  }

  /** ElementTree's qualified name `{uri}local` loses exactly its namespace part. */
  lemma StripQualifiedName(uri: string, local: string)
    requires '}' !in uri
    ensures StripNamespace("{" + uri + "}" + local) == local
  {
    var tag := "{" + uri + "}" + local;
    assert tag[|uri| + 1] == '}';
    assert tag[..|uri| + 1] == "{" + uri;
    assert tag[|uri| + 2..] == local;
  }

  // ---------------------------------------------------------------------------
  // The points attribute
  // ---------------------------------------------------------------------------

  /** The whitespace-separated tokens of a points attribute, commas counting as spaces. */
  function PointTokens(raw: string): seq<string>
  {
    Split(ReplaceChar(raw, ',', ' '))
  }

  /** The first `k` coordinate pairs of `tokens`, parsed with `float()`. */
  function PairsPrefix(rt: Runtime, tokens: seq<string>, k: nat): Result<seq<(Float, Float)>, SvgError>
    requires 2 * k <= |tokens|
  {
    if k == 0 then Success([])
    else
      var rest :- PairsPrefix(rt, tokens, k - 1);
      var x := rt.parseFloat(tokens[2 * k - 2]);
      var y := rt.parseFloat(tokens[2 * k - 1]);
      if x.None? || y.None? then Failure(InvalidNumber) else Success(rest + [(x.value, y.value)])
  }

  /** What `_parse_points_attribute(raw)` returns or raises. */
  function ParsedPoints(rt: Runtime, raw: string): Result<seq<(Float, Float)>, SvgError>
  {
    var tokens := PointTokens(raw);
    if |tokens| % 2 != 0 then Failure(OddCoordinateCount) else PairsPrefix(rt, tokens, |tokens| / 2)
  }

  /** `_parse_points_attribute`: parse each pair in turn, stopping at the first bad number. */
  method ParsePointsAttribute(rt: Runtime, raw: string) returns (r: Result<seq<(Float, Float)>, SvgError>)
    ensures r == ParsedPoints(rt, raw)
  {
    var tokens := Split(ReplaceChar(raw, ',', ' '));
    if |tokens| % 2 != 0 {
      return Failure(OddCoordinateCount);
    }
    var points: seq<(Float, Float)> := [];
    var index := 0;
    while index < |tokens|
      invariant index % 2 == 0 && index <= |tokens|
      invariant PairsPrefix(rt, tokens, index / 2) == Success(points)
    {
      var xValue := rt.parseFloat(tokens[index]);
      var yValue := rt.parseFloat(tokens[index + 1]);
      if xValue.None? || yValue.None? {
        assert PairsPrefix(rt, tokens, index / 2 + 1) == Failure(InvalidNumber);
        PairsFailureStays(rt, tokens, index / 2 + 1, |tokens| / 2);
        return Failure(InvalidNumber);
      }
      points := points + [(xValue.value, yValue.value)];
      index := index + 2;
    }
    r := Success(points);
  }

  /** Once a prefix of pairs fails to parse, every longer one fails the same way. */
  lemma {:induction false} PairsFailureStays(rt: Runtime, tokens: seq<string>, k: nat, n: nat)
    requires k <= n && 2 * n <= |tokens| && PairsPrefix(rt, tokens, k).Failure?
    ensures PairsPrefix(rt, tokens, n) == PairsPrefix(rt, tokens, k)
    decreases n - k
  {
    if k < n {
      PairsFailureStays(rt, tokens, k, n - 1);
    }
  }

  /** The pairs parse exactly when every token does, and then pair `i` is tokens `2i` and `2i+1`. */
  lemma {:induction false} PairsPrefixExactly(rt: Runtime, tokens: seq<string>, k: nat)
    requires 2 * k <= |tokens|
    ensures PairsPrefix(rt, tokens, k).Success? <==> forall j | 0 <= j < 2 * k :: rt.parseFloat(tokens[j]).Some?
    ensures PairsPrefix(rt, tokens, k).Success? ==>
      |PairsPrefix(rt, tokens, k).value| == k &&
      forall i | 0 <= i < k :: PairsPrefix(rt, tokens, k).value[i] ==
        (rt.parseFloat(tokens[2 * i]).value, rt.parseFloat(tokens[2 * i + 1]).value)
  {
    if k > 0 {
      PairsPrefixExactly(rt, tokens, k - 1);
      if PairsPrefix(rt, tokens, k - 1).Failure? {
        var j :| 0 <= j < 2 * (k - 1) && rt.parseFloat(tokens[j]).None?;
      }
    }
  }

  /** An odd number of tokens is rejected; an even one yields half as many points, in order. */
  lemma ParsedPointsCount(rt: Runtime, raw: string)
    ensures |PointTokens(raw)| % 2 != 0 ==> ParsedPoints(rt, raw) == Failure(OddCoordinateCount)
    ensures ParsedPoints(rt, raw).Success? ==> |ParsedPoints(rt, raw).value| == |PointTokens(raw)| / 2
  {
    if |PointTokens(raw)| % 2 == 0 {
      PairsPrefixExactly(rt, PointTokens(raw), |PointTokens(raw)| / 2);
    }
  }

  /** Commas and spaces are interchangeable separators. */
  lemma CommasAreSpaces(rt: Runtime, raw: string)
    ensures ParsedPoints(rt, ReplaceChar(raw, ',', ' ')) == ParsedPoints(rt, raw)
  {
    assert ReplaceChar(ReplaceChar(raw, ',', ' '), ',', ' ') == ReplaceChar(raw, ',', ' ');
  }

  // ---------------------------------------------------------------------------
  // Finding the shape
  // ---------------------------------------------------------------------------

  /** An element of the document: its tag and its `points` attribute, if any. */
  datatype Element = Element(tag: string, points: Option<string>)

  /** Python's `==` on floats: NaN equals nothing, not even itself. */
  predicate SameFloat(a: Float, b: Float)
  {
    (a.Finite? && b.Finite? && a.value == b.value) || (a.PosInf? && b.PosInf?) || (a.NegInf? && b.NegInf?)
  }

  predicate IsShape(e: Element)
  {
    StripNamespace(e.tag) == "polyline" || StripNamespace(e.tag) == "polygon"
  }

  /** A polygon whose last point repeats its first is closed; the repeat is dropped. */
  function Unclosed(e: Element, points: seq<(Float, Float)>): (r: seq<(Float, Float)>)
  {
    if StripNamespace(e.tag) == "polygon" && |points| > 1 &&
       SameFloat(points[0].0, points[|points| - 1].0) && SameFloat(points[0].1, points[|points| - 1].1)
    then points[..|points| - 1]
    else points
  }

  /** The elements the search parses: shapes with a non-empty `points` attribute. */
  predicate HasPoints(e: Element)
  {
    IsShape(e) && e.points.Some? && e.points.value != ""
  }

  /** The points element `e` contributes, if it is a shape with a non-empty attribute. */
  function ShapePoints(rt: Runtime, e: Element): Result<seq<(Float, Float)>, SvgError>
    requires HasPoints(e)
  {
    var points :- ParsedPoints(rt, e.points.value);
    Success(Unclosed(e, points))
  }

  /** What `_points_from_svg` returns or raises for the elements in document order. */
  function FirstShape(rt: Runtime, elements: seq<Element>): Result<seq<(Float, Float)>, SvgError>
  {
    if elements == [] then Failure(NoShapeWithPoints)
    else if !HasPoints(elements[0]) then FirstShape(rt, elements[1..])
    else
      var points :- ShapePoints(rt, elements[0]);
      if points != [] then Success(points) else FirstShape(rt, elements[1..])
  }

  /** `_points_from_svg`: walk the elements and return the first shape that has points. */
  method PointsFromSvg(rt: Runtime, elements: seq<Element>) returns (r: Result<seq<(Float, Float)>, SvgError>)
    ensures r == FirstShape(rt, elements)
  {
    var i := 0;
    while i < |elements|
      invariant i <= |elements|
      invariant FirstShape(rt, elements[i..]) == FirstShape(rt, elements)
    {
      assert elements[i..][1..] == elements[i + 1..];
      var element := elements[i];
      if !IsShape(element) {
        i := i + 1;
        continue;
      }
      var pointsAttr := element.points;
      if pointsAttr.None? || pointsAttr.value == "" {
        i := i + 1;
        continue;
      }
      var parsed := ParsePointsAttribute(rt, pointsAttr.value);
      if parsed.Failure? {
        return Failure(parsed.error);
      }
      var points := parsed.value;
      if StripNamespace(element.tag) == "polygon" && |points| > 1 {
        var firstPoint := points[0];
        var lastPoint := points[|points| - 1];
        if SameFloat(firstPoint.0, lastPoint.0) && SameFloat(firstPoint.1, lastPoint.1) {
          points := points[..|points| - 1];
        }
      }
      if points != [] {
        return Success(points);
      }
      i := i + 1;
    }
    r := Failure(NoShapeWithPoints);
  }

  /** Element `i` is a shape whose points are `found`, and every shape before it parsed to no points. */
  predicate FoundAt(rt: Runtime, elements: seq<Element>, i: nat, found: Result<seq<(Float, Float)>, SvgError>)
    requires i < |elements|
  {
    HasPoints(elements[i]) && ShapePoints(rt, elements[i]) == found &&
    forall j | 0 <= j < i && HasPoints(elements[j]) :: ShapePoints(rt, elements[j]) == Success([])
  }

  /**
   * A successful search returns the non-empty points of some shape `i`; every shape
   * before it parsed to no points at all.
   */
  lemma {:induction false} FirstShapeIsFirst(rt: Runtime, elements: seq<Element>)
    ensures FirstShape(rt, elements).Success? ==>
      FirstShape(rt, elements).value != [] &&
      exists i | 0 <= i < |elements| :: FoundAt(rt, elements, i, FirstShape(rt, elements))
    decreases |elements|, 1
  {
    if elements != [] && FirstShape(rt, elements).Success? {
      if !HasPoints(elements[0]) || ShapePoints(rt, elements[0]) == Success([]) {
        FirstShapeIsLater(rt, elements);
      } else {
        assert FoundAt(rt, elements, 0, FirstShape(rt, elements));
      }
    }
  }

  /** When the first element contributes no points, the shape found is the one found after it. */
  lemma {:induction false} FirstShapeIsLater(rt: Runtime, elements: seq<Element>)
    requires elements != [] && FirstShape(rt, elements).Success?
    requires !HasPoints(elements[0]) || ShapePoints(rt, elements[0]) == Success([])
    ensures FirstShape(rt, elements).value != []
    ensures exists i | 0 <= i < |elements| :: FoundAt(rt, elements, i, FirstShape(rt, elements))
    decreases |elements|, 0
  {
    var rest := elements[1..];
    assert FirstShape(rt, elements) == FirstShape(rt, rest);
    FirstShapeIsFirst(rt, rest);
    var i :| 0 <= i < |rest| && FoundAt(rt, rest, i, FirstShape(rt, rest));
    assert elements[i + 1] == rest[i];
    assert forall j | 1 <= j < i + 1 :: elements[j] == rest[j - 1];
    assert FoundAt(rt, elements, i + 1, FirstShape(rt, elements));
  }

  /** A document without polylines or polygons carrying points has no shape to import. */
  lemma {:induction false} NoShapeFails(rt: Runtime, elements: seq<Element>)
    requires forall i | 0 <= i < |elements| :: !HasPoints(elements[i])
    ensures FirstShape(rt, elements) == Failure(NoShapeWithPoints)
  {
    if elements != [] {
      NoShapeFails(rt, elements[1..]);
    }
  }

  /** A closed polygon's repeated last point is dropped; a polyline keeps all its points. */
  lemma ClosedPolygonDropsRepeat(e: Element, points: seq<(Float, Float)>)
    ensures (StripNamespace(e.tag) == "polygon" && |points| > 1 && points[0] == points[|points| - 1] &&
             points[0].0.Finite? && points[0].1.Finite?) ==> Unclosed(e, points) == points[..|points| - 1]
    ensures StripNamespace(e.tag) != "polygon" ==> Unclosed(e, points) == points
  {
  }

  // ---------------------------------------------------------------------------
  // From points to MOVE commands
  // ---------------------------------------------------------------------------

  /** `v * scale + offset`: a coordinate mapped into millimetres. */
  function Affine(v: real, scale: real, offset: real): real
  {
    v * scale + offset
  }

  function Xs(points: seq<(real, real)>): (xs: seq<real>)
    ensures |xs| == |points| && forall i | 0 <= i < |points| :: xs[i] == points[i].0
  {
    seq(|points|, i requires 0 <= i < |points| => points[i].0)
  }

  function Ys(points: seq<(real, real)>): (ys: seq<real>)
    ensures |ys| == |points| && forall i | 0 <= i < |points| :: ys[i] == points[i].1
  {
    seq(|points|, i requires 0 <= i < |points| => points[i].1)
  }

  /** The shift of an axis whose least coordinate is `m`: up to 1e-3 when `m <= 0`, none otherwise. */
  function ShiftFor(m: real): real
  {
    if m <= 0.0 then MIN_MOVE_COORD_MM - m else 0.0
  }

  /** Each point scaled and offset into millimetres. */
  function Scaled(points: seq<(real, real)>, scale: real, offsetX: real, offsetY: real): (scaled: seq<(real, real)>)
    ensures |scaled| == |points|
    ensures forall i | 0 <= i < |points| ::
      scaled[i] == (Affine(points[i].0, scale, offsetX), Affine(points[i].1, scale, offsetY))
  {
    seq(|points|, i requires 0 <= i < |points| =>
      (Affine(points[i].0, scale, offsetX), Affine(points[i].1, scale, offsetY)))
  }

  /** Every point moved by `(dx, dy)`. */
  function ShiftedBy(points: seq<(real, real)>, dx: real, dy: real): (shifted: seq<(real, real)>)
    ensures |shifted| == |points|
    ensures forall i | 0 <= i < |points| :: shifted[i] == (points[i].0 + dx, points[i].1 + dy)
  {
    seq(|points|, i requires 0 <= i < |points| => (points[i].0 + dx, points[i].1 + dy))
  }

  /** Each axis moved by the shift its least coordinate calls for. */
  function Shifted(scaled: seq<(real, real)>): seq<(real, real)>
    requires scaled != []
  {
    ShiftedBy(scaled, ShiftFor(SeqMin(Xs(scaled))), ShiftFor(SeqMin(Ys(scaled))))
  }

  /** The points after scaling, offsetting and shifting. */
  function Adjusted(points: seq<(real, real)>, scale: real, offsetX: real, offsetY: real): (adjusted: seq<(real, real)>)
    requires points != []
    ensures |adjusted| == |points|
  {
    Shifted(Scaled(points, scale, offsetX, offsetY))
  }

  /** `f"MOVE {x:.3f} {y:.3f}"`. */
  function MoveLine(rt: Runtime, p: (real, real)): string
  {
    "MOVE " + rt.fixed3(p.0) + " " + rt.fixed3(p.1)
  }

  /** One MOVE line per point, in order. */
  function MoveLines(rt: Runtime, adjusted: seq<(real, real)>): (lines: seq<string>)
    ensures |lines| == |adjusted|
    ensures forall k | 0 <= k < |adjusted| :: lines[k] == MoveLine(rt, adjusted[k])
  {
    seq(|adjusted|, k requires 0 <= k < |adjusted| => MoveLine(rt, adjusted[k]))
  }

  /** What `_pattern_from_svg` returns or raises for the imported points. */
  function SvgPattern(rt: Runtime, points: seq<(real, real)>, scale: real, offsetX: real, offsetY: real)
    : Result<string, SvgError>
  {
    if points == [] then Failure(NoCoordinates)
    else
      Success(Join(MoveLines(rt, Adjusted(points, scale, offsetX, offsetY)), "\n"))
  }

  /** The first loop of `_pattern_from_svg`: every point scaled and offset. */
  method ScalePoints(points: seq<(real, real)>, scale: real, offsetX: real, offsetY: real)
    returns (scaledPoints: seq<(real, real)>)
    ensures scaledPoints == Scaled(points, scale, offsetX, offsetY)
  {
    ghost var scaled := Scaled(points, scale, offsetX, offsetY);
    scaledPoints := [];
    var i := 0;
    while i < |points|
      invariant i <= |points| && |scaledPoints| == i
      invariant forall k | 0 <= k < i :: scaledPoints[k] == scaled[k]
    {
      var xMm := points[i].0 * scale + offsetX;
      var yMm := points[i].1 * scale + offsetY;
      assert (xMm, yMm) == scaled[i];
      scaledPoints := scaledPoints + [(xMm, yMm)];
      i := i + 1;
    }
  }

  /** The last loop of `_pattern_from_svg`: one MOVE line per point, after the shifts. */
  method MoveCommands(rt: Runtime, scaledPoints: seq<(real, real)>, shiftX: real, shiftY: real)
    returns (commands: seq<string>)
    ensures commands == MoveLines(rt, ShiftedBy(scaledPoints, shiftX, shiftY))
  {
    commands := [];
    var i := 0;
    while i < |scaledPoints|
      invariant i <= |scaledPoints| && |commands| == i
      invariant forall k | 0 <= k < i ::
        commands[k] == MoveLine(rt, (scaledPoints[k].0 + shiftX, scaledPoints[k].1 + shiftY))
    {
      var adjustedX := scaledPoints[i].0 + shiftX;
      var adjustedY := scaledPoints[i].1 + shiftY;
      commands := commands + [MoveLine(rt, (adjustedX, adjustedY))];
      i := i + 1;
    }
    assert commands == MoveLines(rt, ShiftedBy(scaledPoints, shiftX, shiftY));
  }

  /** `_pattern_from_svg`: scale and offset each point, shift each axis clear of zero, write MOVEs. */
  method PatternFromSvg(rt: Runtime, points: seq<(real, real)>, scale: real, offsetX: real, offsetY: real)
    returns (r: Result<string, SvgError>)
    ensures r == SvgPattern(rt, points, scale, offsetX, offsetY)
  {
    if points == [] {
      return Failure(NoCoordinates);
    }
    var scaledPoints := ScalePoints(points, scale, offsetX, offsetY);
    var minX := SeqMin(Xs(scaledPoints));
    var minY := SeqMin(Ys(scaledPoints));
    var shiftX := ShiftFor(minX);
    var shiftY := ShiftFor(minY);
    var commands := MoveCommands(rt, scaledPoints, shiftX, shiftY);
    r := Success(Join(commands, "\n"));
  }

  /** The least element of a series is the one no element is below. */
  lemma SeqMinIs(xs: seq<real>, m: real)
    requires m in xs && forall x | x in xs :: m <= x
    ensures SeqMin(xs) == m
  {
  }

  /** Shifting every element of a series shifts its least element by the same amount. */
  lemma SeqMinShifted(xs: seq<real>, ys: seq<real>, d: real)
    requires |xs| == |ys| > 0 && forall i | 0 <= i < |xs| :: ys[i] == xs[i] + d
    ensures SeqMin(ys) == SeqMin(xs) + d
  {
    var m := SeqMin(xs);
    var k :| 0 <= k < |xs| && xs[k] == m;
    assert ys[k] == m + d;
    forall y | y in ys
      ensures m + d <= y
    {
      var j :| 0 <= j < |ys| && ys[j] == y;
      assert xs[j] in xs;
    }
    SeqMinIs(ys, m + d);
  }

  /**
   * After the shift each axis's least coordinate is 1e-3 if it was at or below zero,
   * and unchanged otherwise; either way every coordinate is positive, as MOVE demands.
   */
  lemma AdjustedClearsZero(points: seq<(real, real)>, scale: real, offsetX: real, offsetY: real)
    requires points != []
    ensures var adjusted := Adjusted(points, scale, offsetX, offsetY);
      var scaled := Scaled(points, scale, offsetX, offsetY);
      SeqMin(Xs(adjusted)) == (if SeqMin(Xs(scaled)) <= 0.0 then MIN_MOVE_COORD_MM else SeqMin(Xs(scaled))) &&
      SeqMin(Ys(adjusted)) == (if SeqMin(Ys(scaled)) <= 0.0 then MIN_MOVE_COORD_MM else SeqMin(Ys(scaled))) &&
      forall i | 0 <= i < |adjusted| :: adjusted[i].0 > 0.0 && adjusted[i].1 > 0.0
  {
    var adjusted := Adjusted(points, scale, offsetX, offsetY);
    var scaled := Scaled(points, scale, offsetX, offsetY);
    SeqMinShifted(Xs(scaled), Xs(adjusted), ShiftFor(SeqMin(Xs(scaled))));
    SeqMinShifted(Ys(scaled), Ys(adjusted), ShiftFor(SeqMin(Ys(scaled))));
    forall i | 0 <= i < |adjusted|
      ensures adjusted[i].0 > 0.0 && adjusted[i].1 > 0.0
    {
      assert adjusted[i].0 in Xs(adjusted) && adjusted[i].1 in Ys(adjusted);
    }
  }

  /** The shift moves whole axes: the offsets between any two points are kept. */
  lemma AdjustedKeepsShape(points: seq<(real, real)>, scale: real, offsetX: real, offsetY: real, i: nat, j: nat)
    requires i < |points| && j < |points|
    ensures var adjusted := Adjusted(points, scale, offsetX, offsetY);
      adjusted[i].0 - adjusted[j].0 == Affine(points[i].0, scale, offsetX) - Affine(points[j].0, scale, offsetX) &&
      adjusted[i].1 - adjusted[j].1 == Affine(points[i].1, scale, offsetY) - Affine(points[j].1, scale, offsetY)
  {
  }

  /** An empty point list is rejected; otherwise there is one MOVE line per point. */
  lemma SvgPatternLines(rt: Runtime, points: seq<(real, real)>, scale: real, offsetX: real, offsetY: real)
    ensures points == [] <==> SvgPattern(rt, points, scale, offsetX, offsetY) == Failure(NoCoordinates)
    ensures points != [] ==> exists lines: seq<string> | |lines| == |points| ::
      SvgPattern(rt, points, scale, offsetX, offsetY) == Success(Join(lines, "\n")) &&
      forall i | 0 <= i < |lines| :: StartsWith(lines[i], "MOVE ")
  {
    if points != [] {
      var lines := MoveLines(rt, Adjusted(points, scale, offsetX, offsetY));
      forall i | 0 <= i < |lines|
        ensures StartsWith(lines[i], "MOVE ")
      {
        assert lines[i][..5] == "MOVE ";
      }
    }
  }
}
