/**
 * The yarn tension catalogue: seven documented yarn weights, each with its
 * wraps-per-inch range and the target tensioner force, a case-insensitive lookup,
 * the catalogue ordered by wraps per inch, and a piecewise-linear estimate of the
 * force for an arbitrary wraps-per-inch figure.
 */
module Tension {
  import opened Wrappers
  import opened Numbers
  import opened Text

  datatype TensionProfile = TensionProfile(
    weight: string,
    wpiLow: int,
    wpiHigh: int,
    targetForceGrams: real,
    feedRateMmS: real,
    pullVariationPercent: real)

  /** The wraps-per-inch value the estimate interpolates between. */
  function MidpointWpi(p: TensionProfile): (m: real)
    ensures p.wpiLow <= p.wpiHigh ==> p.wpiLow as real <= m <= p.wpiHigh as real
    ensures m - p.wpiLow as real == p.wpiHigh as real - m
  {
    (p.wpiLow + p.wpiHigh) as real / 2.0
  }

  /** Entry `i` of the catalogue, in the order its dictionary lists the weights. */
  function Entry(i: nat): TensionProfile
    requires i < 7
  {
    if i == 0 then TensionProfile("lace", 28, 32, 20.0, 45.0, 6.0)
    else if i == 1 then TensionProfile("fingering", 18, 22, 35.0, 40.0, 4.5)
    else if i == 2 then TensionProfile("sport", 15, 18, 45.0, 38.0, 4.0)
    else if i == 3 then TensionProfile("dk", 12, 15, 55.0, 35.0, 3.5)
    else if i == 4 then TensionProfile("worsted", 9, 12, 65.0, 33.0, 3.0)
    else if i == 5 then TensionProfile("bulky", 7, 9, 80.0, 30.0, 2.5)
    else TensionProfile("super bulky", 5, 7, 95.0, 28.0, 2.0)
  }

  const CATALOGUE: seq<TensionProfile> := [Entry(0), Entry(1), Entry(2), Entry(3), Entry(4), Entry(5), Entry(6)]

  /** The catalogue keyed by weight name. */
  const TENSION_PROFILES: map<string, TensionProfile> :=
    map[
      "lace" := CATALOGUE[0], "fingering" := CATALOGUE[1], "sport" := CATALOGUE[2],
      "dk" := CATALOGUE[3], "worsted" := CATALOGUE[4], "bulky" := CATALOGUE[5],
      "super bulky" := CATALOGUE[6]]

  /** Each entry is filed under its own weight name, and the catalogue holds nothing else. */
  lemma CatalogueIsKeyedByWeight()
    ensures forall i | 0 <= i < |CATALOGUE| ::
      CATALOGUE[i].weight in TENSION_PROFILES && TENSION_PROFILES[CATALOGUE[i].weight] == CATALOGUE[i]
    ensures forall k | k in TENSION_PROFILES :: TENSION_PROFILES[k].weight == k && TENSION_PROFILES[k] in CATALOGUE
  {
  }

  // ---------------------------------------------------------------------------
  // Python's stable `sorted` by midpoint, descending and ascending
  // ---------------------------------------------------------------------------

  predicate NonIncreasing(xs: seq<TensionProfile>)
  {
    forall i | 0 <= i < |xs| - 1 :: MidpointWpi(xs[i + 1]) <= MidpointWpi(xs[i])
  }

  predicate NonDecreasing(xs: seq<TensionProfile>)
  {
    forall i | 0 <= i < |xs| - 1 :: MidpointWpi(xs[i]) <= MidpointWpi(xs[i + 1])
  }

  predicate StrictlyDecreasing(xs: seq<TensionProfile>)
  {
    forall i | 0 <= i < |xs| - 1 :: MidpointWpi(xs[i + 1]) < MidpointWpi(xs[i])
  }

  predicate StrictlyIncreasing(xs: seq<TensionProfile>)
  {
    forall i | 0 <= i < |xs| - 1 :: MidpointWpi(xs[i]) < MidpointWpi(xs[i + 1])
  }

  /** Places `p` before the first element whose midpoint is not above its own. */
  function InsertDescending(p: TensionProfile, xs: seq<TensionProfile>): seq<TensionProfile>
  {
    if xs == [] then [p]
    else if MidpointWpi(xs[0]) <= MidpointWpi(p) then [p] + xs
    else [xs[0]] + InsertDescending(p, xs[1..])
  }

  /** `sorted(xs, key=midpoint, reverse=True)`: a stable insertion sort. */
  function SortDescending(xs: seq<TensionProfile>): seq<TensionProfile>
  {
    if xs == [] then [] else InsertDescending(xs[0], SortDescending(xs[1..]))
  }

  /** Places `p` before the first element whose midpoint is not below its own. */
  function InsertAscending(p: TensionProfile, xs: seq<TensionProfile>): seq<TensionProfile>
  {
    if xs == [] then [p]
    else if MidpointWpi(p) <= MidpointWpi(xs[0]) then [p] + xs
    else [xs[0]] + InsertAscending(p, xs[1..])
  }

  /** `sorted(xs, key=midpoint)`: a stable insertion sort. */
  function SortAscending(xs: seq<TensionProfile>): seq<TensionProfile>
  {
    if xs == [] then [] else InsertAscending(xs[0], SortAscending(xs[1..]))
  }

  /** Inserting adds `p` and keeps every other element. */
  lemma {:induction false} InsertDescendingPermutes(p: TensionProfile, xs: seq<TensionProfile>)
    ensures multiset(InsertDescending(p, xs)) == multiset(xs) + multiset{p}
  {
    if xs != [] && MidpointWpi(p) < MidpointWpi(xs[0]) {
      InsertDescendingPermutes(p, xs[1..]);
      assert xs == [xs[0]] + xs[1..];
    }
  }

  /** The insertion starts with `p` or with the old head. */
  lemma InsertDescendingHead(p: TensionProfile, xs: seq<TensionProfile>)
    ensures var r := InsertDescending(p, xs);
      r != [] && (r[0] == p || (xs != [] && r[0] == xs[0]))
  {
  }

  lemma {:induction false} InsertDescendingSorts(p: TensionProfile, xs: seq<TensionProfile>)
    requires NonIncreasing(xs)
    ensures NonIncreasing(InsertDescending(p, xs))
  {
    if xs != [] && MidpointWpi(p) < MidpointWpi(xs[0]) {
      var tail := xs[1..];
      assert NonIncreasing(tail) by {
        forall i | 0 <= i < |tail| - 1
          ensures MidpointWpi(tail[i + 1]) <= MidpointWpi(tail[i])
        {
          assert tail[i] == xs[i + 1] && tail[i + 1] == xs[i + 2];
        }
      }
      InsertDescendingSorts(p, tail);
      InsertDescendingHead(p, tail);
      var rest := InsertDescending(p, tail);
      assert tail != [] ==> MidpointWpi(tail[0]) <= MidpointWpi(xs[0]);
      ConsNonIncreasing(xs[0], rest);
    } else {
      ConsNonIncreasing(p, xs);
    }
  }

  /** Putting an element at least as large as the head in front keeps the order. */
  lemma ConsNonIncreasing(x: TensionProfile, ys: seq<TensionProfile>)
    requires NonIncreasing(ys)
    requires ys != [] ==> MidpointWpi(ys[0]) <= MidpointWpi(x)
    ensures NonIncreasing([x] + ys)
  {
    var r := [x] + ys;
    forall i | 0 <= i < |r| - 1
      ensures MidpointWpi(r[i + 1]) <= MidpointWpi(r[i])
    {
      if 0 < i {
        assert r[i] == ys[i - 1] && r[i + 1] == ys[i];
      }
    }
  }

  /** The descending sort is a permutation in non-increasing midpoint order. */
  lemma {:induction false} SortDescendingSorts(xs: seq<TensionProfile>)
    ensures multiset(SortDescending(xs)) == multiset(xs)
    ensures NonIncreasing(SortDescending(xs))
  {
    if xs != [] {
      assert xs == [xs[0]] + xs[1..];
      SortDescendingSorts(xs[1..]);
      InsertDescendingPermutes(xs[0], SortDescending(xs[1..]));
      InsertDescendingSorts(xs[0], SortDescending(xs[1..]));
    }
  }

  /** Inserting adds `p` and keeps every other element. */
  lemma {:induction false} InsertAscendingPermutes(p: TensionProfile, xs: seq<TensionProfile>)
    ensures multiset(InsertAscending(p, xs)) == multiset(xs) + multiset{p}
  {
    if xs != [] && MidpointWpi(xs[0]) < MidpointWpi(p) {
      InsertAscendingPermutes(p, xs[1..]);
      assert xs == [xs[0]] + xs[1..];
    }
  }

  /** The insertion starts with `p` or with the old head. */
  lemma InsertAscendingHead(p: TensionProfile, xs: seq<TensionProfile>)
    ensures var r := InsertAscending(p, xs);
      r != [] && (r[0] == p || (xs != [] && r[0] == xs[0]))
  {
  }

  lemma {:induction false} InsertAscendingSorts(p: TensionProfile, xs: seq<TensionProfile>)
    requires NonDecreasing(xs)
    ensures NonDecreasing(InsertAscending(p, xs))
  {
    if xs != [] && MidpointWpi(xs[0]) < MidpointWpi(p) {
      var tail := xs[1..];
      assert NonDecreasing(tail) by {
        forall i | 0 <= i < |tail| - 1
          ensures MidpointWpi(tail[i]) <= MidpointWpi(tail[i + 1])
        {
          assert tail[i] == xs[i + 1] && tail[i + 1] == xs[i + 2];
        }
      }
      InsertAscendingSorts(p, tail);
      InsertAscendingHead(p, tail);
      var rest := InsertAscending(p, tail);
      assert tail != [] ==> MidpointWpi(xs[0]) <= MidpointWpi(tail[0]);
      ConsNonDecreasing(xs[0], rest);
    } else {
      ConsNonDecreasing(p, xs);
    }
  }

  /** Putting an element at most as large as the head in front keeps the order. */
  lemma ConsNonDecreasing(x: TensionProfile, ys: seq<TensionProfile>)
    requires NonDecreasing(ys)
    requires ys != [] ==> MidpointWpi(x) <= MidpointWpi(ys[0])
    ensures NonDecreasing([x] + ys)
  {
    var r := [x] + ys;
    forall i | 0 <= i < |r| - 1
      ensures MidpointWpi(r[i]) <= MidpointWpi(r[i + 1])
    {
      if 0 < i {
        assert r[i] == ys[i - 1] && r[i + 1] == ys[i];
      }
    }
  }

  /** The ascending sort is a permutation in non-decreasing midpoint order. */
  lemma {:induction false} SortAscendingSorts(xs: seq<TensionProfile>)
    ensures multiset(SortAscending(xs)) == multiset(xs)
    ensures NonDecreasing(SortAscending(xs))
  {
    if xs != [] {
      assert xs == [xs[0]] + xs[1..];
      SortAscendingSorts(xs[1..]);
      InsertAscendingPermutes(xs[0], SortAscending(xs[1..]));
      InsertAscendingSorts(xs[0], SortAscending(xs[1..]));
    }
  }

  function Reverse<T>(xs: seq<T>): (r: seq<T>)
    ensures |r| == |xs|
    ensures forall i | 0 <= i < |xs| :: r[i] == xs[|xs| - 1 - i]
  {
    if xs == [] then [] else Reverse(xs[1..]) + [xs[0]]
  }

  lemma StrictlyDecreasingFromFirst(xs: seq<TensionProfile>)
    requires StrictlyDecreasing(xs)
    ensures forall i | 0 < i < |xs| :: MidpointWpi(xs[i]) < MidpointWpi(xs[0])
  {
    forall i | 0 < i < |xs|
      ensures MidpointWpi(xs[i]) < MidpointWpi(xs[0])
    {
      StrictlyDecreasingSpan(xs, 0, i);
    }
  }

  lemma {:induction false} StrictlyDecreasingSpan(xs: seq<TensionProfile>, i: int, j: int)
    requires StrictlyDecreasing(xs)
    requires 0 <= i < j < |xs|
    ensures MidpointWpi(xs[j]) < MidpointWpi(xs[i])
    decreases j - i
  {
    if i + 1 < j {
      StrictlyDecreasingSpan(xs, i + 1, j);
    }
  }

  /** Sorting what is already in strictly decreasing order leaves it unchanged. */
  lemma {:induction false} SortDescendingKeepsOrdered(xs: seq<TensionProfile>)
    requires StrictlyDecreasing(xs)
    ensures SortDescending(xs) == xs
  {
    if xs != [] {
      SortDescendingKeepsOrdered(xs[1..]);
      assert xs == [xs[0]] + xs[1..];
    }
  }

  /** Inserting an element above every other one puts it last. */
  lemma {:induction false} InsertAscendingGreatest(p: TensionProfile, xs: seq<TensionProfile>)
    requires forall i | 0 <= i < |xs| :: MidpointWpi(xs[i]) < MidpointWpi(p)
    ensures InsertAscending(p, xs) == xs + [p]
  {
    if xs != [] {
      InsertAscendingGreatest(p, xs[1..]);
      assert xs == [xs[0]] + xs[1..];
    }
  }

  /** Sorting a strictly decreasing sequence ascending reverses it. */
  lemma {:induction false} SortAscendingReverses(xs: seq<TensionProfile>)
    requires StrictlyDecreasing(xs)
    ensures SortAscending(xs) == Reverse(xs)
  {
    if xs != [] {
      SortAscendingReverses(xs[1..]);
      StrictlyDecreasingFromFirst(xs);
      var rest := Reverse(xs[1..]);
      assert forall i | 0 <= i < |rest| :: rest[i] == xs[|xs| - 1 - i];
      InsertAscendingGreatest(xs[0], rest);
    }
  }

  lemma CatalogueStrictlyDecreasing()
    ensures StrictlyDecreasing(CATALOGUE)
  {
  }

  // ---------------------------------------------------------------------------
  // The operations
  // ---------------------------------------------------------------------------

  datatype TensionError = UnknownYarnWeight(weight: string) | WpiNotPositive

  function TensionMessage(e: TensionError): string
  {
    match e
    case UnknownYarnWeight(w) => "Unknown yarn weight '" + w + "'"
    case WpiNotPositive => "wraps_per_inch must be positive"
  }

  /** The catalogue ordered from the lightest weight (most wraps per inch) to the heaviest. */
  function ListTensionProfiles(): (r: seq<TensionProfile>)
  {
    SortDescending(CATALOGUE)
  }

  /** The listing holds every catalogue entry once, by strictly decreasing midpoint. */
  lemma ListIsLightestFirst()
    ensures ListTensionProfiles() == CATALOGUE
    ensures |ListTensionProfiles()| == 7
    ensures StrictlyDecreasing(ListTensionProfiles())
    ensures ListTensionProfiles()[0].weight == "lace"
    ensures ListTensionProfiles()[6].weight == "super bulky"
  {
    CatalogueStrictlyDecreasing();
    SortDescendingKeepsOrdered(CATALOGUE);
  }

  /** `_normalize_weight`: the name with no surrounding whitespace and no upper-case letter, a fixed point. */
  function NormalizeWeight(weight: string): (r: string)
    ensures r == [] || (!IsSpace(r[0]) && !IsSpace(r[|r| - 1]))
    ensures forall i | 0 <= i < |r| :: !('A' <= r[i] <= 'Z')
    ensures StripLower(r) == r
  {
    StripLowerIdempotent(weight);
    StripLower(weight)
  }

  /** The profile for `weight`, ignoring surrounding whitespace and letter case. */
  function GetTensionProfile(weight: string): (r: Result<TensionProfile, TensionError>)
    ensures r.Success? <==> NormalizeWeight(weight) in TENSION_PROFILES
    ensures r.Success? ==> r.value in CATALOGUE && r.value.weight == NormalizeWeight(weight)
    ensures r.Failure? ==> r.error == UnknownYarnWeight(weight)
  {
    var key := NormalizeWeight(weight);
    CatalogueIsKeyedByWeight();
    if key in TENSION_PROFILES then Success(TENSION_PROFILES[key])
    else Failure(UnknownYarnWeight(weight))
  }

  /** Looking up an already normalised name finds the same profile. */
  lemma GetTensionProfileNormalizes(weight: string)
    ensures GetTensionProfile(weight).Success? ==>
      GetTensionProfile(NormalizeWeight(weight)) == GetTensionProfile(weight)
  {
    StripLowerIdempotent(weight);
  }

  /** Every catalogue weight, looked up by its own name, gives its own profile. */
  lemma GetTensionProfileFindsCatalogue(i: int)
    requires 0 <= i < |CATALOGUE|
    ensures GetTensionProfile(CATALOGUE[i].weight) == Success(CATALOGUE[i])
  {
    StripLowerFixes(CATALOGUE[i].weight);
    CatalogueIsKeyedByWeight();
  }

  /** Python's `x <= r` and `x >= r` for a float `x`; NaN compares false. */
  predicate AtMost(x: Float, r: real)
  {
    x.NegInf? || (x.Finite? && x.value <= r)
  }

  predicate AtLeast(x: Float, r: real)
  {
    x.PosInf? || (x.Finite? && x.value >= r)
  }

  /** The linear interpolation between two neighbouring profiles. */
  function Interpolate(lower: TensionProfile, upper: TensionProfile, wpi: real): real
  {
    var span := MidpointWpi(upper) - MidpointWpi(lower);
    if span == 0.0 then lower.targetForceGrams
    else
      var ratio := (wpi - MidpointWpi(lower)) / span;
      lower.targetForceGrams + ratio * (upper.targetForceGrams - lower.targetForceGrams)
  }

  /**
   * The loop over adjacent pairs from pair `i` on: the first pair whose midpoints
   * bracket `wpi` gives the answer, and the last profile's force is used when none does.
   */
  function SearchPairs(ordered: seq<TensionProfile>, i: nat, wpi: real): real
    requires |ordered| > 0
    decreases |ordered| - i
  {
    if i + 1 >= |ordered| then ordered[|ordered| - 1].targetForceGrams
    else if MidpointWpi(ordered[i]) <= wpi <= MidpointWpi(ordered[i + 1]) then
      Interpolate(ordered[i], ordered[i + 1], wpi)
    else SearchPairs(ordered, i + 1, wpi)
  }

  /** The catalogue by ascending midpoint, the order the estimate works in. */
  function Ascending(): (r: seq<TensionProfile>)
    ensures |r| == 7
  {
    var r := SortAscending(ListTensionProfiles());
    SortAscendingSorts(ListTensionProfiles());
    assert |multiset(r)| == |multiset(ListTensionProfiles())|;
    ListIsLightestFirst();
    r
  }

  /**
   * The estimate over profiles in ascending midpoint order: clamp below the first
   * midpoint and above the last, otherwise search the adjacent pairs.
   */
  function EstimateFrom(ordered: seq<TensionProfile>, wpi: Float): (r: Result<real, TensionError>)
    requires |ordered| > 0
    ensures r.Failure? <==> AtMost(wpi, 0.0)
    ensures r.Failure? ==> r.error == WpiNotPositive
  {
    var last := |ordered| - 1;
    if AtMost(wpi, 0.0) then Failure(WpiNotPositive)
    else if AtMost(wpi, MidpointWpi(ordered[0])) then Success(ordered[0].targetForceGrams)
    else if AtLeast(wpi, MidpointWpi(ordered[last])) then Success(ordered[last].targetForceGrams)
    else match wpi
      case Finite(w) => Success(SearchPairs(ordered, 0, w))
      // NaN compares false with every midpoint, so no pair brackets it.
      case _ => Success(ordered[last].targetForceGrams)
  }

  /** The target force for `wpi` wraps per inch; only a figure that is not positive is refused. */
  function EstimateTensionForWpi(wpi: Float): (r: Result<real, TensionError>)
    ensures r.Failure? <==> AtMost(wpi, 0.0)
    ensures r.Failure? ==> r.error == WpiNotPositive
  {
    EstimateFrom(Ascending(), wpi)
  }

  // ---------------------------------------------------------------------------
  // Properties of the estimate
  // ---------------------------------------------------------------------------

  lemma {:induction false} StrictlyIncreasingSpan(xs: seq<TensionProfile>, i: int, j: int)
    requires StrictlyIncreasing(xs)
    requires 0 <= i < j < |xs|
    ensures MidpointWpi(xs[i]) < MidpointWpi(xs[j])
    decreases j - i
  {
    if i + 1 < j {
      StrictlyIncreasingSpan(xs, i + 1, j);
    }
  }

  /** Interpolating between two profiles stays between their forces and meets them at the ends. */
  lemma InterpolateBetween(lower: TensionProfile, upper: TensionProfile, wpi: real)
    requires MidpointWpi(lower) < MidpointWpi(upper)
    requires MidpointWpi(lower) <= wpi <= MidpointWpi(upper)
    ensures var r := Interpolate(lower, upper, wpi);
      Min(lower.targetForceGrams, upper.targetForceGrams) <= r <=
      Max(lower.targetForceGrams, upper.targetForceGrams)
    ensures wpi == MidpointWpi(lower) ==> Interpolate(lower, upper, wpi) == lower.targetForceGrams
    ensures wpi == MidpointWpi(upper) ==> Interpolate(lower, upper, wpi) == upper.targetForceGrams
  {
    var span := MidpointWpi(upper) - MidpointWpi(lower);
    var ratio := (wpi - MidpointWpi(lower)) / span;
    UnitRatio(wpi - MidpointWpi(lower), span);
    var d := upper.targetForceGrams - lower.targetForceGrams;
    PartOfDifference(ratio, d);
    assert Interpolate(lower, upper, wpi) == lower.targetForceGrams + ratio * d;
  }

  lemma UnitRatio(part: real, whole: real)
    requires whole > 0.0 && 0.0 <= part <= whole
    ensures 0.0 <= part / whole <= 1.0
    ensures part == 0.0 ==> part / whole == 0.0
    ensures part == whole ==> part / whole == 1.0
  {
  }

  lemma PartOfDifference(ratio: real, d: real)
    requires 0.0 <= ratio <= 1.0
    ensures d >= 0.0 ==> 0.0 <= ratio * d <= d
    ensures d < 0.0 ==> d <= ratio * d <= 0.0
  {
  }

  /** The pair search finds the pair whose midpoints bracket `wpi` from above. */
  lemma {:induction false} SearchFindsBracket(ordered: seq<TensionProfile>, i: nat, j: nat, wpi: real)
    requires StrictlyIncreasing(ordered)
    requires i <= j < |ordered| - 1
    requires MidpointWpi(ordered[j]) < wpi <= MidpointWpi(ordered[j + 1])
    ensures SearchPairs(ordered, i, wpi) == Interpolate(ordered[j], ordered[j + 1], wpi)
    decreases j - i
  {
    if i < j {
      if i + 1 < j {
        StrictlyIncreasingSpan(ordered, i + 1, j);
      }
      SearchFindsBracket(ordered, i + 1, j, wpi);
    }
  }

  /**
   * Over any strictly increasing order: a figure strictly between two adjacent
   * midpoints, or at the upper one, gets their linear interpolation, which lies
   * between the two forces.
   */
  lemma EstimateFromInterpolates(ordered: seq<TensionProfile>, wpi: real, j: nat)
    requires StrictlyIncreasing(ordered)
    requires j < |ordered| - 1
    requires 0.0 < MidpointWpi(ordered[j]) < wpi <= MidpointWpi(ordered[j + 1])
    ensures EstimateFrom(ordered, Finite(wpi)) ==
      Success(Interpolate(ordered[j], ordered[j + 1], wpi))
    ensures var f := Interpolate(ordered[j], ordered[j + 1], wpi);
      Min(ordered[j].targetForceGrams, ordered[j + 1].targetForceGrams) <= f <=
      Max(ordered[j].targetForceGrams, ordered[j + 1].targetForceGrams)
  {
    var last := |ordered| - 1;
    InterpolateBetween(ordered[j], ordered[j + 1], wpi);
    if 0 < j {
      StrictlyIncreasingSpan(ordered, 0, j);
    }
    if j + 1 < last {
      StrictlyIncreasingSpan(ordered, j + 1, last);
    }
    if wpi < MidpointWpi(ordered[last]) {
      SearchFindsBracket(ordered, 0, j, wpi);
    }
  }

  /** Over any strictly increasing order with positive midpoints, each midpoint maps to its own force. */
  lemma EstimateFromAtMidpoint(ordered: seq<TensionProfile>, m: nat)
    requires StrictlyIncreasing(ordered)
    requires m < |ordered|
    requires 0.0 < MidpointWpi(ordered[0])
    ensures EstimateFrom(ordered, Finite(MidpointWpi(ordered[m]))) == Success(ordered[m].targetForceGrams)
  {
    if 0 < m {
      StrictlyIncreasingSpan(ordered, m - 1, m);
      if 0 < m - 1 {
        StrictlyIncreasingSpan(ordered, 0, m - 1);
      }
      EstimateFromInterpolates(ordered, MidpointWpi(ordered[m]), m - 1);
      InterpolateBetween(ordered[m - 1], ordered[m], MidpointWpi(ordered[m]));
    }
  }

  /** The working order is the catalogue reversed: super bulky (6 wpi) up to lace (30 wpi). */
  lemma AscendingIsReversedCatalogue()
    ensures Ascending() == Reverse(CATALOGUE)
  {
    ListIsLightestFirst();
    SortAscendingReverses(CATALOGUE);
  }

  /** The catalogue by ascending midpoint, written out: super bulky (6 wpi) up to lace (30 wpi). */
  const ORDERED: seq<TensionProfile> :=
    [CATALOGUE[6], CATALOGUE[5], CATALOGUE[4], CATALOGUE[3], CATALOGUE[2], CATALOGUE[1], CATALOGUE[0]]

  lemma OrderedEntry(k: nat)
    requires k < 7
    ensures ORDERED[k] == CATALOGUE[6 - k]
  {
  }

  lemma OrderedIsReversedCatalogue()
    ensures Reverse(CATALOGUE) == ORDERED
  {
    var r := Reverse(CATALOGUE);
    assert r[0] == CATALOGUE[6] && r[1] == CATALOGUE[5] && r[2] == CATALOGUE[4] && r[3] == CATALOGUE[3];
    assert r[4] == CATALOGUE[2] && r[5] == CATALOGUE[1] && r[6] == CATALOGUE[0];
  }

  lemma OrderedFacts()
    ensures StrictlyIncreasing(ORDERED)
    ensures MidpointWpi(ORDERED[0]) == 6.0 && ORDERED[0].targetForceGrams == 95.0
    ensures MidpointWpi(ORDERED[6]) == 30.0 && ORDERED[6].targetForceGrams == 20.0
  {
    assert MidpointWpi(ORDERED[0]) == 6.0 && MidpointWpi(ORDERED[1]) == 8.0;
    assert MidpointWpi(ORDERED[2]) == 10.5 && MidpointWpi(ORDERED[3]) == 13.5;
    assert MidpointWpi(ORDERED[4]) == 16.5 && MidpointWpi(ORDERED[5]) == 20.0;
    assert MidpointWpi(ORDERED[6]) == 30.0;
  }

  /** Adjacent profiles in ascending order: positive midpoints, and the force falls as the midpoint rises. */
  lemma OrderedStep(k: nat)
    requires k < 6
    ensures 0.0 < MidpointWpi(ORDERED[k])
    ensures ORDERED[k + 1].targetForceGrams < ORDERED[k].targetForceGrams
  {
    if k == 0 {
      assert ORDERED[0] == Entry(6) && ORDERED[1] == Entry(5);
    } else if k == 1 {
      assert ORDERED[1] == Entry(5) && ORDERED[2] == Entry(4);
    } else if k == 2 {
      assert ORDERED[2] == Entry(4) && ORDERED[3] == Entry(3);
    } else if k == 3 {
      assert ORDERED[3] == Entry(3) && ORDERED[4] == Entry(2);
    } else if k == 4 {
      assert ORDERED[4] == Entry(2) && ORDERED[5] == Entry(1);
    } else {
      assert ORDERED[5] == Entry(1) && ORDERED[6] == Entry(0);
    }
  }

  /** The estimate works over the catalogue by ascending midpoint. */
  lemma EstimateOverOrdered(wpi: Float)
    ensures EstimateTensionForWpi(wpi) == EstimateFrom(ORDERED, wpi)
  {
    AscendingIsReversedCatalogue();
    OrderedIsReversedCatalogue();
  }

  /** At or below the smallest midpoint (6 wpi) the estimate is super bulky's 95 g. */
  lemma EstimateClampsLow(wpi: Float)
    requires !AtMost(wpi, 0.0) && AtMost(wpi, 6.0)
    ensures EstimateTensionForWpi(wpi) == Success(95.0)
  {
    EstimateOverOrdered(wpi);
    OrderedFacts();
  }

  /** At or above the largest midpoint (30 wpi) the estimate is lace's 20 g. */
  lemma EstimateClampsHigh(wpi: Float)
    requires AtLeast(wpi, 30.0)
    ensures EstimateTensionForWpi(wpi) == Success(20.0)
  {
    EstimateOverOrdered(wpi);
    OrderedFacts();
    assert !AtMost(wpi, 0.0) && !AtMost(wpi, 6.0);
  }

  /** NaN passes every guard and brackets no pair, so it falls through to lace's force. */
  lemma EstimateOfNaN()
    ensures EstimateTensionForWpi(NaN) == Success(20.0)
  {
    EstimateOverOrdered(NaN);
    OrderedFacts();
    assert !AtMost(NaN, 0.0) && !AtMost(NaN, 6.0) && !AtLeast(NaN, 30.0);
  }

  /**
   * Between two adjacent midpoints of the catalogue the estimate is their linear
   * interpolation, and lies between the two neighbours' forces.
   */
  lemma EstimateInterpolates(wpi: real, j: nat)
    requires j < 6
    requires MidpointWpi(CATALOGUE[6 - j]) < wpi <= MidpointWpi(CATALOGUE[5 - j])
    ensures EstimateTensionForWpi(Finite(wpi)) ==
      Success(Interpolate(CATALOGUE[6 - j], CATALOGUE[5 - j], wpi))
    ensures var f := Interpolate(CATALOGUE[6 - j], CATALOGUE[5 - j], wpi);
      CATALOGUE[5 - j].targetForceGrams <= f <= CATALOGUE[6 - j].targetForceGrams
  {
    EstimateOverOrdered(Finite(wpi));
    OrderedFacts();
    OrderedEntry(j);
    OrderedEntry(j + 1);
    OrderedStep(j);
    EstimateFromInterpolates(ORDERED, wpi, j);
  }

  /** At a profile's own midpoint the estimate is exactly that profile's force. */
  lemma EstimateAtMidpoint(k: nat)
    requires k < |CATALOGUE|
    ensures EstimateTensionForWpi(Finite(MidpointWpi(CATALOGUE[k]))) ==
      Success(CATALOGUE[k].targetForceGrams)
  {
    EstimateOverOrdered(Finite(MidpointWpi(CATALOGUE[k])));
    OrderedFacts();
    OrderedEntry(6 - k);
    EstimateFromAtMidpoint(ORDERED, 6 - k);
  }
}
