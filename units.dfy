/**
 * The unit registry: five canonical length units with their sizes in metres and
 * their aliases, a case-insensitive alias table built when the registry is
 * created, and conversions between units through metres.
 */
module Units {
  import opened Wrappers
  import opened Numbers
  import opened Text
  import opened Sorting
  import opened Seqs

  /** A length unit: its canonical name, its size in metres and its other names. */
  datatype LengthUnit = LengthUnit(name: string, metersPerUnit: real, aliases: seq<string>)

  /** The units the registry is built from, in the order it registers them. */
  const LENGTH_UNITS: seq<LengthUnit> := [
    LengthUnit("millimeter", 0.001, ["mm", "millimeters"]),
    LengthUnit("centimeter", 0.01, ["cm", "centimeters"]),
    LengthUnit("meter", 1.0, ["m", "meters"]),
    LengthUnit("inch", 0.0254, ["in", "inches"]),
    LengthUnit("yard", 0.9144, ["yd", "yards"])
  ]

  // ---------------------------------------------------------------------------
  // The tables the constructor's loops build, as functions of the unit list
  // ---------------------------------------------------------------------------

  /** The (alias, canonical) assignments one unit contributes, canonical name first. */
  function UnitPairs(u: LengthUnit): seq<(string, string)>
  {
    [(u.name, u.name)] + NamePairs(u.aliases, u.name)
  }

  /** Each of `names` assigned `canonical`, in order. */
  function NamePairs(names: seq<string>, canonical: string): (ps: seq<(string, string)>)
    ensures |ps| == |names|
    ensures forall j | 0 <= j < |names| :: ps[j] == (names[j], canonical)
  {
    seq(|names|, j requires 0 <= j < |names| => (names[j], canonical))
  }

  /** Every assignment to the alias dictionary, in the order the loops make them. */
  function AliasPairs(units: seq<LengthUnit>): seq<(string, string)>
  {
    if units == [] then [] else AliasPairs(units[..|units| - 1]) + UnitPairs(units[|units| - 1])
  }

  /** A dictionary after the assignments `pairs`, made in order. */
  function AssignAll(pairs: seq<(string, string)>): map<string, string>
  {
    if pairs == [] then map[]
    else AssignAll(pairs[..|pairs| - 1])[pairs[|pairs| - 1].0 := pairs[|pairs| - 1].1]
  }

  /** The dictionary's keys in iteration order: each key where it was first assigned. */
  function FirstOccurrences(pairs: seq<(string, string)>): seq<string>
  {
    if pairs == [] then []
    else
      var keys := FirstOccurrences(pairs[..|pairs| - 1]);
      if pairs[|pairs| - 1].0 in keys then keys else keys + [pairs[|pairs| - 1].0]
  }

  /** The dictionary `{key.lower(): m[key] for key in keys}`, built in order. */
  function LowerKeys(m: map<string, string>, keys: seq<string>): map<string, string>
  {
    if keys == [] then map[]
    else
      var rest := LowerKeys(m, keys[..|keys| - 1]);
      var key := keys[|keys| - 1];
      if key in m then rest[Lower(key) := m[key]] else rest
  }

  /** The factor dictionary after registering `units` in order. */
  function FactorsOf(units: seq<LengthUnit>): map<string, real>
  {
    if units == [] then map[]
    else FactorsOf(units[..|units| - 1])[units[|units| - 1].name := units[|units| - 1].metersPerUnit]
  }

  /** The factor table: metres per canonical unit. */
  const FACTOR_TABLE: map<string, real> := map[
    "millimeter" := 0.001, "centimeter" := 0.01, "meter" := 1.0, "inch" := 0.0254, "yard" := 0.9144]

  /** The assignments the loops make, written out. */
  const ALIAS_PAIRS: seq<(string, string)> := [
    ("millimeter", "millimeter"), ("mm", "millimeter"), ("millimeters", "millimeter"),
    ("centimeter", "centimeter"), ("cm", "centimeter"), ("centimeters", "centimeter"),
    ("meter", "meter"), ("m", "meter"), ("meters", "meter"),
    ("inch", "inch"), ("in", "inch"), ("inches", "inch"),
    ("yard", "yard"), ("yd", "yard"), ("yards", "yard")]

  lemma AliasPairsSnoc(units: seq<LengthUnit>, u: LengthUnit)
    ensures AliasPairs(units + [u]) == AliasPairs(units) + UnitPairs(u)
  {
    assert (units + [u])[..|units|] == units;
  }

  lemma FactorsSnoc(units: seq<LengthUnit>, u: LengthUnit)
    ensures FactorsOf(units + [u]) == FactorsOf(units)[u.name := u.metersPerUnit]
  {
    assert (units + [u])[..|units|] == units;
  }

  lemma AliasPairsOfLengthUnits()
    ensures AliasPairs(LENGTH_UNITS) == ALIAS_PAIRS
  {
    AliasPairsUpTo(5);
    assert LENGTH_UNITS[..5] == LENGTH_UNITS;
    assert ALIAS_PAIRS[..15] == ALIAS_PAIRS;
  }

  /** The first k units make the first 3k assignments. */
  lemma {:induction false} AliasPairsUpTo(k: nat)
    requires k <= 5
    ensures AliasPairs(LENGTH_UNITS[..k]) == ALIAS_PAIRS[..3 * k]
  {
    if k == 0 {
      assert LENGTH_UNITS[..0] == [];
    } else {
      AliasPairsUpTo(k - 1);
      var front := LENGTH_UNITS[..k - 1];
      assert LENGTH_UNITS[..k] == front + [LENGTH_UNITS[k - 1]];
      AliasPairsSnoc(front, LENGTH_UNITS[k - 1]);
      ChunkOfUnit(k - 1);
      assert ALIAS_PAIRS[..3 * k] == ALIAS_PAIRS[..3 * (k - 1)] + ALIAS_PAIRS[3 * (k - 1)..3 * k];
    }
  }

  /** Unit k makes assignments 3k to 3k + 2. */
  lemma ChunkOfUnit(k: nat)
    requires k < 5
    ensures ALIAS_PAIRS[3 * k..3 * k + 3] == UnitPairs(LENGTH_UNITS[k])
  {
    UnitPairsOfTwoAliases(LENGTH_UNITS[k]);
  }

  /** A unit with two aliases contributes its own name and then both aliases. */
  lemma UnitPairsOfTwoAliases(u: LengthUnit)
    requires |u.aliases| == 2
    ensures UnitPairs(u) == [(u.name, u.name), (u.aliases[0], u.name), (u.aliases[1], u.name)]
  {
  }

  lemma FactorsOfLengthUnits()
    ensures FactorsOf(LENGTH_UNITS) == FACTOR_TABLE
  {
    var u := LENGTH_UNITS;
    FactorsSnoc([], u[0]);
    assert [] + [u[0]] == [u[0]];
    FactorsSnoc([u[0]], u[1]);
    assert [u[0]] + [u[1]] == [u[0], u[1]];
    FactorsSnoc([u[0], u[1]], u[2]);
    assert [u[0], u[1]] + [u[2]] == [u[0], u[1], u[2]];
    FactorsSnoc([u[0], u[1], u[2]], u[3]);
    assert [u[0], u[1], u[2]] + [u[3]] == [u[0], u[1], u[2], u[3]];
    FactorsSnoc([u[0], u[1], u[2], u[3]], u[4]);
    assert [u[0], u[1], u[2], u[3]] + [u[4]] == u;
  }

  predicate KeysDistinct(pairs: seq<(string, string)>)
  {
    forall i, j | 0 <= i < j < |pairs| :: pairs[i].0 != pairs[j].0
  }

  lemma AliasPairsDistinct()
    ensures KeysDistinct(ALIAS_PAIRS)
  {
  }

  lemma AliasNamesAreLowerWords()
    ensures forall i | 0 <= i < |ALIAS_PAIRS| :: LowerWords(ALIAS_PAIRS[i].0)
  {
  }

  lemma AliasTargetsAreCanonical()
    ensures forall i | 0 <= i < |ALIAS_PAIRS| :: ALIAS_PAIRS[i].1 in FACTOR_TABLE
  {
  }

  lemma AliasPairsLowerCase()
    ensures forall i | 0 <= i < |ALIAS_PAIRS| :: StripLower(ALIAS_PAIRS[i].0) == ALIAS_PAIRS[i].0
    ensures forall i | 0 <= i < |ALIAS_PAIRS| :: Lower(ALIAS_PAIRS[i].0) == ALIAS_PAIRS[i].0
  {
    AliasNamesAreLowerWords();
    forall i | 0 <= i < |ALIAS_PAIRS|
      ensures StripLower(ALIAS_PAIRS[i].0) == ALIAS_PAIRS[i].0
      ensures Lower(ALIAS_PAIRS[i].0) == ALIAS_PAIRS[i].0
    {
      LowerWordsAreNormal(ALIAS_PAIRS[i].0);
    }
  }

  // ---------------------------------------------------------------------------
  // The folds, one assignment at a time, and what they produce
  // ---------------------------------------------------------------------------

  /** The iteration order lists exactly the dictionary's keys. */
  lemma {:induction false} FirstOccurrencesAreKeys(pairs: seq<(string, string)>)
    ensures forall k :: k in FirstOccurrences(pairs) <==> k in AssignAll(pairs)
  {
    if pairs != [] {
      FirstOccurrencesAreKeys(pairs[..|pairs| - 1]);
    }
  }

  lemma AssignAllSnoc(pairs: seq<(string, string)>, p: (string, string))
    ensures AssignAll(pairs + [p]) == AssignAll(pairs)[p.0 := p.1]
    ensures FirstOccurrences(pairs + [p]) ==
      if p.0 in FirstOccurrences(pairs) then FirstOccurrences(pairs) else FirstOccurrences(pairs) + [p.0]
  {
    assert (pairs + [p])[..|pairs|] == pairs;
  }

  /** With distinct keys, every assignment survives, and the dictionary holds nothing else. */
  lemma {:induction false} AssignAllOfDistinct(pairs: seq<(string, string)>)
    requires KeysDistinct(pairs)
    ensures forall i | 0 <= i < |pairs| :: pairs[i].0 in AssignAll(pairs) && AssignAll(pairs)[pairs[i].0] == pairs[i].1
    ensures forall k | k in AssignAll(pairs) :: exists i | 0 <= i < |pairs| :: pairs[i].0 == k
  {
    if pairs != [] {
      var front := pairs[..|pairs| - 1];
      AssignAllOfDistinct(front);
      assert forall i | 0 <= i < |front| :: front[i] == pairs[i];
    }
  }

  /** Lower-casing keys that are already lower case rebuilds the same dictionary. */
  lemma {:induction false} LowerKeysOfLowerCase(m: map<string, string>, keys: seq<string>)
    requires forall k | k in keys :: k in m && Lower(k) == k
    ensures forall k :: k in LowerKeys(m, keys) <==> k in keys
    ensures forall k | k in keys :: LowerKeys(m, keys)[k] == m[k]
  {
    if keys != [] {
      LowerKeysOfLowerCase(m, keys[..|keys| - 1]);
      assert forall k | k in keys :: k in keys[..|keys| - 1] || k == keys[|keys| - 1];
    }
  }

  datatype UnitError =
    | UnknownLengthUnit(unit: string)
    | NotFinite(what: string)
    | Negative(what: string)

  /** The text of each error; `quote` is Python's `repr` of a string. */
  function UnitMessage(e: UnitError, quote: string -> string): string
  {
    match e
    case UnknownLengthUnit(u) => "Unknown length unit: " + quote(u)
    case NotFinite(what) => what + " must be a finite value"
    case Negative(what) => what + " must be non-negative"
  }

  /** `aliases` holds exactly the assignments `pairs`: each key under its value, nothing else. */
  ghost predicate HoldsExactly(aliases: map<string, string>, pairs: seq<(string, string)>)
  {
    (forall i | 0 <= i < |pairs| :: pairs[i].0 in aliases && aliases[pairs[i].0] == pairs[i].1) &&
    (forall k | k in aliases :: exists i | 0 <= i < |pairs| :: pairs[i].0 == k)
  }

  /** The alias table knows exactly the registered names, each under its canonical name. */
  ghost predicate AliasTableIsRegistered(aliases: map<string, string>)
  {
    HoldsExactly(aliases, ALIAS_PAIRS)
  }

  /** Distinct lower-case keys come through both loops unchanged. */
  lemma LowerCaseTableOfDistinct(p: seq<(string, string)>)
    requires KeysDistinct(p)
    requires forall i | 0 <= i < |p| :: Lower(p[i].0) == p[i].0
    ensures HoldsExactly(LowerKeys(AssignAll(p), FirstOccurrences(p)), p)
  {
    var m := AssignAll(p);
    var keys := FirstOccurrences(p);
    AssignAllOfDistinct(p);
    FirstOccurrencesAreKeys(p);
    forall k | k in keys
      ensures k in m && Lower(k) == k
    {
      var i :| 0 <= i < |p| && p[i].0 == k;
    }
    LowerKeysOfLowerCase(m, keys);
  }

  /** What the constructor's loops compute is the registered alias table. */
  lemma BuiltAliasTable()
    ensures var p := AliasPairs(LENGTH_UNITS);
      AliasTableIsRegistered(LowerKeys(AssignAll(p), FirstOccurrences(p)))
  {
    AliasPairsOfLengthUnits();
    AliasPairsDistinct();
    AliasPairsLowerCase();
    LowerCaseTableOfDistinct(AliasPairs(LENGTH_UNITS));
  }

  lemma LowerKeysSnoc(m: map<string, string>, keys: seq<string>, k: nat)
    requires k < |keys| && keys[k] in m
    ensures LowerKeys(m, keys[..k + 1]) == LowerKeys(m, keys[..k])[Lower(keys[k]) := m[keys[k]]]
  {
    assert keys[..k + 1][..k] == keys[..k];
  }

  /** Python's `math.isfinite(v)` and `v < 0` checks, in that order. */
  function ValidateValue(value: Float, what: string): (r: Outcome<UnitError>)
    ensures r == Fail(NotFinite(what)) <==> !value.Finite?
    ensures r == Fail(Negative(what)) <==> value.Finite? && value.value < 0.0
    ensures r.Pass? <==> value.Finite? && value.value >= 0.0
  {
    if !value.Finite? then Fail(NotFinite(what))
    else if value.value < 0.0 then Fail(Negative(what))
    else Pass
  }

  /**
   * The registry's first start-up loop: registers each unit in turn, its factor and
   * then its own name and each alias in the alias dictionary, noting the
   * dictionary's iteration order (`keyOrder`, the order in which keys were first
   * added); then rebuilds that dictionary with lower-cased keys.
   */
  method RegisterUnits(units: seq<LengthUnit>) returns (aliasMap: map<string, string>, factors: map<string, real>)
    ensures factors == FactorsOf(units)
    ensures aliasMap == LowerKeys(AssignAll(AliasPairs(units)), FirstOccurrences(AliasPairs(units)))
  {
    var aliases: map<string, string> := map[];
    factors := map[];
    var keyOrder: seq<string> := [];
    ghost var made: seq<(string, string)> := [];
    var i := 0;
    while i < |units|
      invariant 0 <= i <= |units|
      invariant made == AliasPairs(units[..i])
      invariant factors == FactorsOf(units[..i])
      invariant aliases == AssignAll(made)
      invariant keyOrder == FirstOccurrences(made)
    {
      var unit := units[i];
      PrefixSnoc(units, i);
      FactorsSnoc(units[..i], unit);
      AliasPairsSnoc(units[..i], unit);
      factors := factors[unit.name := unit.metersPerUnit];
      aliases, keyOrder := RegisterUnit(aliases, keyOrder, made, unit);
      made := made + UnitPairs(unit);
      i := i + 1;
    }
    assert units[..i] == units;
    FirstOccurrencesAreKeys(made);
    aliasMap := LowerCaseKeys(aliases, keyOrder);
  }

  /** One pass of the outer loop over the alias dictionary: the unit's own name, then its aliases. */
  method RegisterUnit(aliases: map<string, string>, keyOrder: seq<string>, ghost made: seq<(string, string)>,
                      unit: LengthUnit)
    returns (aliases': map<string, string>, keyOrder': seq<string>)
    requires aliases == AssignAll(made) && keyOrder == FirstOccurrences(made)
    ensures aliases' == AssignAll(made + UnitPairs(unit))
    ensures keyOrder' == FirstOccurrences(made + UnitPairs(unit))
  {
    var canonical := unit.name;
    AssignAllSnoc(made, (canonical, canonical));
    FirstOccurrencesAreKeys(made);
    keyOrder' := keyOrder;
    if canonical !in aliases {
      keyOrder' := keyOrder' + [canonical];
    }
    aliases' := aliases[canonical := canonical];
    aliases', keyOrder' := RegisterAliases(aliases', keyOrder', made + [(canonical, canonical)], unit.aliases, canonical);
    MadeWithUnit(made, unit);
  }

  lemma MadeWithUnit(made: seq<(string, string)>, u: LengthUnit)
    ensures made + UnitPairs(u) == made + [(u.name, u.name)] + NamePairs(u.aliases, u.name)
  {
  }

  /** The inner loop: `aliases[alias] = canonical` for each alias of one unit. */
  method RegisterAliases(aliases: map<string, string>, keyOrder: seq<string>, ghost made: seq<(string, string)>,
                         names: seq<string>, canonical: string)
    returns (aliases': map<string, string>, keyOrder': seq<string>)
    requires aliases == AssignAll(made) && keyOrder == FirstOccurrences(made)
    ensures aliases' == AssignAll(made + NamePairs(names, canonical))
    ensures keyOrder' == FirstOccurrences(made + NamePairs(names, canonical))
  {
    aliases', keyOrder' := aliases, keyOrder;
    var j := 0;
    assert made + NamePairs(names, canonical)[..0] == made;
    while j < |names|
      invariant 0 <= j <= |names|
      invariant aliases' == AssignAll(made + NamePairs(names, canonical)[..j])
      invariant keyOrder' == FirstOccurrences(made + NamePairs(names, canonical)[..j])
    {
      var alias := names[j];
      ghost var done := made + NamePairs(names, canonical)[..j];
      AssignAllSnoc(done, (alias, canonical));
      FirstOccurrencesAreKeys(done);
      PrefixSnoc(NamePairs(names, canonical), j);
      assert done + [(alias, canonical)] == made + NamePairs(names, canonical)[..j + 1];
      if alias !in aliases' {
        keyOrder' := keyOrder' + [alias];
      }
      aliases' := aliases'[alias := canonical];
      j := j + 1;
    }
    assert NamePairs(names, canonical)[..j] == NamePairs(names, canonical);
  }

  /** The second start-up loop: `{key.lower(): value for key, value in aliases.items()}`. */
  method LowerCaseKeys(aliases: map<string, string>, keyOrder: seq<string>) returns (aliasMap: map<string, string>)
    requires forall key | key in keyOrder :: key in aliases
    ensures aliasMap == LowerKeys(aliases, keyOrder)
  {
    aliasMap := map[];
    var k := 0;
    while k < |keyOrder|
      invariant 0 <= k <= |keyOrder|
      invariant aliasMap == LowerKeys(aliases, keyOrder[..k])
    {
      LowerKeysSnoc(aliases, keyOrder, k);
      aliasMap := aliasMap[Lower(keyOrder[k]) := aliases[keyOrder[k]]];
      k := k + 1;
    }
    assert keyOrder[..k] == keyOrder;
  }

  /** Every factor in the table is a positive size. */
  lemma FactorTablePositive()
    ensures forall u | u in FACTOR_TABLE :: FACTOR_TABLE[u] > 0.0
  {
  }

  lemma QuotientTimes(a: real, b: real)
    requires a > 0.0 && b > 0.0
    ensures a / b > 0.0 && (a / b) * b == a
  {
  }

  lemma QuotientsCancel(a: real, b: real, c: real)
    requires a > 0.0 && b > 0.0 && c > 0.0
    ensures (a / b) * (b / c) == a / c
  {
    QuotientTimes(a, b);
    QuotientTimes(b, c);
    QuotientTimes(a, c);
    assert (a / b) * (b / c) * c == (a / b) * b;
  }

  /** `x` and `y` are reciprocal. */
  predicate AreReciprocal(x: real, y: real)
  {
    x * y == 1.0
  }

  /** `z` is the product of `x` and `y`. */
  predicate IsProduct(z: real, x: real, y: real)
  {
    x * y == z
  }

  /** `x` units of size `b` measure the same as `v` units of size `a`. */
  predicate SameLength(x: real, b: real, v: real, a: real)
  {
    x * b == v * a
  }

  /** `x` times `y` is `l` times `d`. */
  predicate SameTotal(x: real, y: real, l: real, d: real)
  {
    x * y == l * d
  }

  lemma Reciprocal(r: real, s: real, a: real, b: real)
    requires a > 0.0 && b > 0.0 && r == a / b && s == b / a
    ensures AreReciprocal(r, s)
  {
    QuotientsCancel(a, b, a);
    assert a / a == 1.0;
  }

  lemma Chained(r: real, s: real, t: real, a: real, b: real, c: real)
    requires a > 0.0 && b > 0.0 && c > 0.0 && r == a / b && s == b / c && t == a / c
    ensures IsProduct(t, r, s)
  {
    QuotientsCancel(a, b, c);
  }

  lemma Rescaled(x: real, v: real, r: real, a: real, b: real)
    requires a > 0.0 && b > 0.0 && r == a / b && IsProduct(x, v, r)
    ensures SameLength(x, b, v, a)
  {
    QuotientTimes(a, b);
    assert (v * r) * b == v * (r * b);
  }

  lemma RoundTrip(x: real, v: real, r: real, s: real)
    requires AreReciprocal(r, s) && IsProduct(x, v, r)
    ensures IsProduct(v, x, s)
  {
    assert (v * r) * s == v * (r * s);
  }

  lemma PairedRatios(x: real, y: real, l: real, d: real, r: real, s: real)
    requires AreReciprocal(r, s) && IsProduct(x, l, r) && IsProduct(y, d, s)
    ensures SameTotal(x, y, l, d)
  {
    assert (l * r) * (d * s) == (l * d) * (r * s);
  }

  /** The registry of length units and their aliases. */
  class UnitRegistry {
    /** Lower-cased canonical names and aliases to canonical names. */
    const lengthAliases: map<string, string>
    /** Metres per unit, by canonical name. */
    const lengthFactors: map<string, real>

    /** The tables the constructor builds from the registered units. */
    ghost predicate Valid()
    {
      AliasTableIsRegistered(lengthAliases) && lengthFactors == FACTOR_TABLE
    }

    /** What the lookups rely on: every alias leads to a unit of positive size. */
    predicate Consistent()
    {
      forall k | k in lengthAliases :: lengthAliases[k] in lengthFactors && lengthFactors[lengthAliases[k]] > 0.0
    }

    lemma ValidIsConsistent()
      requires Valid()
      ensures Consistent()
    {
      AliasTargetsAreCanonical();
      FactorTablePositive();
      forall k | k in lengthAliases
        ensures lengthAliases[k] in lengthFactors && lengthFactors[lengthAliases[k]] > 0.0
      {
        var i :| 0 <= i < |ALIAS_PAIRS| && ALIAS_PAIRS[i].0 == k;
      }
    }

    /** Builds both tables from the registered units. */
    constructor()
      ensures lengthFactors == FactorsOf(LENGTH_UNITS)
      ensures lengthAliases ==
        LowerKeys(AssignAll(AliasPairs(LENGTH_UNITS)), FirstOccurrences(AliasPairs(LENGTH_UNITS)))
      ensures Valid() && Consistent()
    {
      var aliasMap, factors := RegisterUnits(LENGTH_UNITS);
      lengthAliases := aliasMap;
      lengthFactors := factors;
      new;
      BuiltAliasTable();
      FactorsOfLengthUnits();
      ValidIsConsistent();
    }

    /** The canonical name of `unit`, looked up stripped and lower-cased. */
    function NormalizeLengthUnit(unit: string): (r: Result<string, UnitError>)
      requires Consistent()
      ensures r.Success? <==> StripLower(unit) in lengthAliases
      ensures r.Success? ==> r.value == lengthAliases[StripLower(unit)] && r.value in lengthFactors
      ensures r.Failure? ==> r.error == UnknownLengthUnit(unit)
    {
      var key := StripLower(unit);
      if key in lengthAliases then Success(lengthAliases[key]) else Failure(UnknownLengthUnit(unit))
    }

    /** Metres per `unit`. */
    function LengthFactor(unit: string): (r: Result<real, UnitError>)
      requires Consistent()
      ensures r.Success? <==> NormalizeLengthUnit(unit).Success?
      ensures r.Success? ==> r.value > 0.0 && r.value == lengthFactors[NormalizeLengthUnit(unit).value]
      ensures r.Failure? ==> r.error == UnknownLengthUnit(unit)
    {
      var canonical :- NormalizeLengthUnit(unit);
      Success(lengthFactors[canonical])
    }

    /** How many `toUnit` make one `fromUnit`; the first unknown unit is reported. */
    function ConversionRatio(fromUnit: string, toUnit: string): (r: Result<real, UnitError>)
      requires Consistent()
      ensures r.Success? <==> LengthFactor(fromUnit).Success? && LengthFactor(toUnit).Success?
      ensures r.Success? ==>
        LengthFactor(fromUnit).Success? && LengthFactor(toUnit).Success? &&
        r.value > 0.0 && r.value == LengthFactor(fromUnit).value / LengthFactor(toUnit).value
      ensures LengthFactor(fromUnit).Failure? ==> r == Failure(UnknownLengthUnit(fromUnit))
      ensures LengthFactor(fromUnit).Success? && LengthFactor(toUnit).Failure? ==> r == Failure(UnknownLengthUnit(toUnit))
    {
      var fromFactor := LengthFactor(fromUnit);
      var toFactor := LengthFactor(toUnit);
      if fromFactor.Failure? then Failure(fromFactor.error)
      else if toFactor.Failure? then Failure(toFactor.error)
      else
        QuotientTimes(fromFactor.value, toFactor.value);
        Success(fromFactor.value / toFactor.value)
    }

    /** `value` in `fromUnit`, expressed in `toUnit`; the value is checked before the units. */
    function ConvertLength(value: Float, fromUnit: string, toUnit: string): (r: Result<real, UnitError>)
      requires Consistent()
      ensures ValidateValue(value, "value").Fail? ==> r == Failure(ValidateValue(value, "value").error)
      ensures ValidateValue(value, "value").Pass? ==>
        (r.Success? <==> ConversionRatio(fromUnit, toUnit).Success?) &&
        (r.Failure? ==> r.error == ConversionRatio(fromUnit, toUnit).error) &&
        (r.Success? ==> r.value >= 0.0)
    {
      match ValidateValue(value, "value")
      case Fail(e) => Failure(e)
      case Pass =>
        var ratio :- ConversionRatio(fromUnit, toUnit);
        Success(value.value * ratio)
    }

    /** A density per `fromUnit`, expressed per `toUnit`. */
    function ConvertPerLength(value: Float, fromUnit: string, toUnit: string): (r: Result<real, UnitError>)
      requires Consistent()
      ensures ValidateValue(value, "value").Fail? ==> r == Failure(ValidateValue(value, "value").error)
      ensures ValidateValue(value, "value").Pass? ==>
        (r.Success? <==> ConversionRatio(toUnit, fromUnit).Success?) &&
        (r.Failure? ==> r.error == ConversionRatio(toUnit, fromUnit).error) &&
        (r.Success? ==> r.value >= 0.0)
    {
      match ValidateValue(value, "value")
      case Fail(e) => Failure(e)
      case Pass =>
        var ratio :- ConversionRatio(toUnit, fromUnit);
        Success(value.value * ratio)
    }

    /** The canonical unit names in sorted order. */
    function LengthUnits(): (names: seq<string>)
      ensures |names| == |lengthFactors| && StrictlySorted(names)
      ensures forall n :: n in names <==> n in lengthFactors
    {
      SortedSet(lengthFactors.Keys)
    }

    /** Every registered name and alias, in any case and with surrounding blanks, is known. */
    lemma NormalizeKnownNames(unit: string)
      requires Valid()
      ensures NormalizeLengthUnit(unit).Success? <==>
        exists i | 0 <= i < |ALIAS_PAIRS| :: ALIAS_PAIRS[i].0 == StripLower(unit)
      ensures forall i | 0 <= i < |ALIAS_PAIRS| && ALIAS_PAIRS[i].0 == StripLower(unit) ::
        NormalizeLengthUnit(unit) == Success(ALIAS_PAIRS[i].1)
    {
      ValidIsConsistent();
    }

    /** Only the stripped, lower-cased spelling of a unit matters. */
    lemma NormalizeIgnoresCase(unit: string)
      requires Consistent()
      ensures NormalizeLengthUnit(StripLower(unit)) ==
        if StripLower(unit) in lengthAliases then NormalizeLengthUnit(unit) else Failure(UnknownLengthUnit(StripLower(unit)))
    {
      StripLowerIdempotent(unit);
    }

    /** A unit converts to itself one for one. */
    lemma RatioSelf(unit: string)
      requires Consistent() && LengthFactor(unit).Success?
      ensures ConversionRatio(unit, unit) == Success(1.0)
    {
      var f := LengthFactor(unit).value;
      assert f / f == 1.0;
    }

    /** The ratio between two known units, from their sizes. */
    lemma RatioOfFactors(a: string, b: string)
      requires Consistent() && LengthFactor(a).Success? && LengthFactor(b).Success?
      ensures ConversionRatio(a, b).Success?
      ensures ConversionRatio(a, b).value == LengthFactor(a).value / LengthFactor(b).value
    {
    }

    /** The ratios in the two directions are reciprocal. */
    lemma RatioInverse(a: string, b: string)
      requires Consistent() && LengthFactor(a).Success? && LengthFactor(b).Success?
      ensures AreReciprocal(ConversionRatio(a, b).value, ConversionRatio(b, a).value)
    {
      RatioOfFactors(a, b);
      RatioOfFactors(b, a);
      Reciprocal(ConversionRatio(a, b).value, ConversionRatio(b, a).value, LengthFactor(a).value, LengthFactor(b).value);
    }

    /** Converting through an intermediate unit multiplies the ratios. */
    lemma RatioChain(a: string, b: string, c: string)
      requires Consistent() && LengthFactor(a).Success? && LengthFactor(b).Success? && LengthFactor(c).Success?
      ensures IsProduct(ConversionRatio(a, c).value, ConversionRatio(a, b).value, ConversionRatio(b, c).value)
    {
      RatioOfFactors(a, b);
      RatioOfFactors(b, c);
      RatioOfFactors(a, c);
      Chained(ConversionRatio(a, b).value, ConversionRatio(b, c).value, ConversionRatio(a, c).value,
        LengthFactor(a).value, LengthFactor(b).value, LengthFactor(c).value);
    }

    /** A successful conversion scales the value by the ratio. */
    lemma ConvertScales(value: Float, fromUnit: string, toUnit: string)
      requires Consistent() && ConvertLength(value, fromUnit, toUnit).Success?
      ensures value.Finite? && ConversionRatio(fromUnit, toUnit).Success?
      ensures IsProduct(ConvertLength(value, fromUnit, toUnit).value, value.value, ConversionRatio(fromUnit, toUnit).value)
    {
    }

    /** A converted length is the same number of metres. */
    lemma ConvertPreservesMeters(value: Float, fromUnit: string, toUnit: string)
      requires Consistent() && ConvertLength(value, fromUnit, toUnit).Success?
      ensures SameLength(ConvertLength(value, fromUnit, toUnit).value, LengthFactor(toUnit).value,
        value.value, LengthFactor(fromUnit).value)
    {
      ConvertScales(value, fromUnit, toUnit);
      RatioOfFactors(fromUnit, toUnit);
      Rescaled(ConvertLength(value, fromUnit, toUnit).value, value.value, ConversionRatio(fromUnit, toUnit).value,
        LengthFactor(fromUnit).value, LengthFactor(toUnit).value);
    }

    /** Converting a length there and back returns it. */
    lemma ConvertRoundTrip(value: Float, fromUnit: string, toUnit: string)
      requires Consistent() && ConvertLength(value, fromUnit, toUnit).Success?
      ensures ConvertLength(Finite(ConvertLength(value, fromUnit, toUnit).value), toUnit, fromUnit) ==
        Success(value.value)
    {
      var there := ConvertLength(value, fromUnit, toUnit).value;
      ConvertScales(value, fromUnit, toUnit);
      RatioInverse(fromUnit, toUnit);
      RoundTrip(there, value.value, ConversionRatio(fromUnit, toUnit).value, ConversionRatio(toUnit, fromUnit).value);
      BackScales(there, toUnit, fromUnit, value.value);
    }

    lemma BackScales(x: real, fromUnit: string, toUnit: string, v: real)
      requires Consistent() && x >= 0.0 && ConversionRatio(fromUnit, toUnit).Success?
      requires IsProduct(v, x, ConversionRatio(fromUnit, toUnit).value)
      ensures ConvertLength(Finite(x), fromUnit, toUnit) == Success(v)
    {
      assert ValidateValue(Finite(x), "value") == Pass;
      var r := ConvertLength(Finite(x), fromUnit, toUnit);
      assert r.Success?;
      ConvertScales(Finite(x), fromUnit, toUnit);
      assert IsProduct(r.value, x, ConversionRatio(fromUnit, toUnit).value);
    }

    /**
     * A length and a density per length, both converted to the new unit, still
     * multiply to the same total.
     */
    lemma ConvertPerLengthKeepsTotal(length: Float, density: Float, fromUnit: string, toUnit: string)
      requires Consistent()
      requires ConvertLength(length, fromUnit, toUnit).Success? && ConvertPerLength(density, fromUnit, toUnit).Success?
      ensures SameTotal(ConvertLength(length, fromUnit, toUnit).value, ConvertPerLength(density, fromUnit, toUnit).value,
        length.value, density.value)
    {
      ConvertScales(length, fromUnit, toUnit);
      PerLengthScales(density, fromUnit, toUnit);
      RatioInverse(fromUnit, toUnit);
      PairedRatios(ConvertLength(length, fromUnit, toUnit).value, ConvertPerLength(density, fromUnit, toUnit).value,
        length.value, density.value, ConversionRatio(fromUnit, toUnit).value, ConversionRatio(toUnit, fromUnit).value);
    }

    /** A successful density conversion scales by the inverse ratio. */
    lemma PerLengthScales(value: Float, fromUnit: string, toUnit: string)
      requires Consistent() && ConvertPerLength(value, fromUnit, toUnit).Success?
      ensures value.Finite? && ConversionRatio(toUnit, fromUnit).Success?
      ensures IsProduct(ConvertPerLength(value, fromUnit, toUnit).value, value.value, ConversionRatio(toUnit, fromUnit).value)
    {
    }

    /** The registry lists its five units alphabetically. */
    lemma LengthUnitsOfRegistry()
      requires Valid()
      ensures LengthUnits() == ["centimeter", "inch", "meter", "millimeter", "yard"]
    {
      var xs := ["centimeter", "inch", "meter", "millimeter", "yard"];
      assert LexLess(xs[0], xs[1]) && LexLess(xs[1], xs[2]) && LexLess(xs[2], xs[3]) && LexLess(xs[3], xs[4]);
      AdjacentSorted(xs);
      SortedSetUnique(lengthFactors.Keys, xs);
    }

    /** A capitalised plural alias is recognised. */
    lemma NormalizeCapitalisedAlias()
      requires Valid()
      ensures NormalizeLengthUnit("Inches") == Success("inch")
    {
      StripLowerOfTrimmed("Inches");
      assert Lower("Inches") == "inches";
      NormalizeKnownNames("Inches");
      assert ALIAS_PAIRS[11] == ("inches", "inch");
    }

    /** A name that is not registered is reported as unknown. */
    lemma NormalizeUnknownName()
      requires Valid()
      ensures NormalizeLengthUnit("parsec") == Failure(UnknownLengthUnit("parsec"))
    {
      StripLowerFixes("parsec");
      NormalizeKnownNames("parsec");
    }

    /** A canonical name, registered as its own alias, has its tabulated size. */
    lemma FactorOfCanonical(unit: string, i: nat)
      requires Valid() && Consistent()
      requires unit in FACTOR_TABLE && i < |ALIAS_PAIRS| && ALIAS_PAIRS[i] == (unit, unit)
      requires StripLower(unit) == unit
      ensures LengthFactor(unit) == Success(FACTOR_TABLE[unit])
    {
      ValidIsConsistent();
      NormalizeKnownNames(unit);
      AliasTargetsAreCanonical();
    }

    lemma ConvertOfFactors(v: real, fromUnit: string, toUnit: string, a: real, b: real)
      requires Consistent() && v >= 0.0
      requires LengthFactor(fromUnit) == Success(a) && LengthFactor(toUnit) == Success(b)
      ensures ConvertLength(Finite(v), fromUnit, toUnit) == Success(v * (a / b))
      ensures ConvertPerLength(Finite(v), toUnit, fromUnit) == Success(v * (a / b))
    {
      assert ValidateValue(Finite(v), "value") == Pass;
      assert ConversionRatio(fromUnit, toUnit) == Success(a / b);
      ConvertScales(Finite(v), fromUnit, toUnit);
      var ratio := ConversionRatio(fromUnit, toUnit).value;
      var r := ConvertLength(Finite(v), fromUnit, toUnit);
      assert IsProduct(r.value, v, ratio) && ratio == a / b;
      assert r.value == v * (a / b);
    }

    /** Two inches are 5.08 centimetres. */
    lemma ConvertLengthExample()
      requires Valid()
      ensures ConvertLength(Finite(2.0), "inch", "centimeter") == Success(5.08)
    {
      ValidIsConsistent();
      StripLowerFixes("inch");
      StripLowerFixes("centimeter");
      FactorOfCanonical("inch", 9);
      FactorOfCanonical("centimeter", 3);
      ConvertOfFactors(2.0, "inch", "centimeter", 0.0254, 0.01);
    }

    /** Five per inch is 180 per yard. */
    lemma ConvertPerLengthExample()
      requires Valid()
      ensures ConvertPerLength(Finite(5.0), "inch", "yard") == Success(180.0)
    {
      ValidIsConsistent();
      StripLowerFixes("inch");
      StripLowerFixes("yard");
      FactorOfCanonical("inch", 9);
      FactorOfCanonical("yard", 12);
      ConvertOfFactors(5.0, "yard", "inch", 0.9144, 0.0254);
    }
  }
}
