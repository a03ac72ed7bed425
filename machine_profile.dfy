/**
 * Machine profiles: per-axis travel limits that the translator consults, and the
 * validation that turns a decoded JSON/YAML mapping into a profile.
 *
 * A decoded document is a `Value`; a Python dict is an ordered sequence of
 * (key, value) entries, in insertion order, with string keys. The float fields of
 * a profile are `Float`s: `float()` reads "nan" and "inf", and JSON and YAML
 * documents can hold NaN and infinities, so a loaded bound may be any double.
 */
module MachineProfiles {
  import opened Wrappers
  import opened Text
  import opened Numbers

  /** Controller parameters and inclusive travel range of one axis. */
  datatype AxisProfile = AxisProfile(
    name: string,
    microstepping: int,
    stepsPerMm: Float,
    travelMinMm: Float,
    travelMaxMm: Float)

  /** The axis definitions of a motion system, keyed by upper-case axis name. */
  datatype MachineProfile = MachineProfile(axes: map<string, AxisProfile>)

  /** Why a position was refused. */
  datatype LimitError =
    | MissingAxis(key: string)
    | OutOfRange(axis: string, positionMm: real, travelMinMm: Float, travelMaxMm: Float,
                 lineNumber: Option<nat>)

  /** Where an offending position came from: a pattern line, or a generated command. */
  function Location(lineNumber: Option<nat>): string
  {
    match lineNumber
    case None => "generated command"
    case Some(n) => "line " + NatToString(n)
  }

  /** The text of the ValueError raised for `e`; `fixed2` renders `{:.2f}`. */
  function LimitMessage(e: LimitError, fixed2: real -> string): string
  {
    match e
    case MissingAxis(key) => "Machine profile is missing axis '" + key + "'"
    case OutOfRange(axis, position, lo, hi, lineNumber) =>
      "Axis " + axis + " position " + fixed2(position) + " mm exceeds travel range " +
      FloatText(lo, fixed2) + "\U{2013}" + FloatText(hi, fixed2) + " mm" + " (" + Location(lineNumber) + ")"
  }

  /** A range violation's message starts by naming the axis. */
  lemma OutOfRangeMessageStart(axis: string, position: real, lo: Float, hi: Float,
                               lineNumber: Option<nat>, fixed2: real -> string)
    ensures StartsWith(LimitMessage(OutOfRange(axis, position, lo, hi, lineNumber), fixed2),
                       "Axis " + axis + " position ")
  {
    var head := "Axis " + axis + " position ";
    var m1 := head + fixed2(position);
    AffixesOfConcat(head, fixed2(position));
    var m2 := m1 + " mm exceeds travel range " + FloatText(lo, fixed2);
    StartsWithExtended(m1, " mm exceeds travel range " + FloatText(lo, fixed2), head);
    assert m2 == m1 + (" mm exceeds travel range " + FloatText(lo, fixed2));
    var m3 := m2 + "\U{2013}" + FloatText(hi, fixed2) + " mm";
    StartsWithExtended(m2, "\U{2013}" + FloatText(hi, fixed2) + " mm", head);
    assert m3 == m2 + ("\U{2013}" + FloatText(hi, fixed2) + " mm");
    var m4 := m3 + " (" + Location(lineNumber) + ")";
    StartsWithExtended(m3, " (" + Location(lineNumber) + ")", head);
    assert m4 == m3 + (" (" + Location(lineNumber) + ")");
  }

  /** A range violation's message ends by naming where the position came from. */
  lemma OutOfRangeMessageEnd(axis: string, position: real, lo: Float, hi: Float,
                             lineNumber: Option<nat>, fixed2: real -> string)
    ensures EndsWith(LimitMessage(OutOfRange(axis, position, lo, hi, lineNumber), fixed2),
                     "(" + Location(lineNumber) + ")")
  {
    var front := "Axis " + axis + " position " + fixed2(position) + " mm exceeds travel range " +
      FloatText(lo, fixed2) + "\U{2013}" + FloatText(hi, fixed2) + " mm" + " ";
    var tail := "(" + Location(lineNumber) + ")";
    assert LimitMessage(OutOfRange(axis, position, lo, hi, lineNumber), fixed2) == front + tail;
    AffixesOfConcat(front, tail);
  }

  /** Python's chained `lo <= position <= hi` for a finite position and any two doubles. */
  predicate WithinTravel(lo: Float, positionMm: real, hi: Float)
  {
    FloatAtMost(lo, Finite(positionMm)) && FloatAtMost(Finite(positionMm), hi)
  }

  /** `AxisProfile.ensure_within`: both ends of the travel range are inclusive. */
  function AxisEnsureWithin(axis: AxisProfile, positionMm: real, lineNumber: Option<nat>)
    : (r: Outcome<LimitError>)
    ensures r.Pass? <==> WithinTravel(axis.travelMinMm, positionMm, axis.travelMaxMm)
    ensures r.Fail? ==>
      r.error == OutOfRange(axis.name, positionMm, axis.travelMinMm, axis.travelMaxMm, lineNumber)
  {
    if WithinTravel(axis.travelMinMm, positionMm, axis.travelMaxMm) then Pass
    else Fail(OutOfRange(axis.name, positionMm, axis.travelMinMm, axis.travelMaxMm, lineNumber))
  }

  /** With finite bounds the check is the inclusive range test on the two numbers. */
  lemma FiniteTravelIsInclusive(axis: AxisProfile, positionMm: real, lineNumber: Option<nat>)
    requires axis.travelMinMm.Finite? && axis.travelMaxMm.Finite?
    ensures AxisEnsureWithin(axis, positionMm, lineNumber).Pass? <==>
      axis.travelMinMm.value <= positionMm <= axis.travelMaxMm.value
  {
  }

  /** An infinite bound never refuses on its side: "-inf" to "inf" admits every position. */
  lemma InfiniteTravelAdmitsAll(axis: AxisProfile, positionMm: real, lineNumber: Option<nat>)
    requires axis.travelMinMm == NegInf && axis.travelMaxMm == PosInf
    ensures AxisEnsureWithin(axis, positionMm, lineNumber).Pass?
  {
  }

  /** A NaN bound compares false both ways, so the axis refuses every position. */
  lemma NaNTravelRefusesAll(axis: AxisProfile, positionMm: real, lineNumber: Option<nat>)
    requires axis.travelMinMm.NaN? || axis.travelMaxMm.NaN?
    ensures AxisEnsureWithin(axis, positionMm, lineNumber).Fail?
  {
  }

  /** `MachineProfile.ensure_within`: looks the axis up by its upper-cased name. */
  function EnsureWithin(profile: MachineProfile, axis: string, positionMm: real,
                        lineNumber: Option<nat>): (r: Outcome<LimitError>)
    ensures Upper(axis) !in profile.axes ==> r == Fail(MissingAxis(Upper(axis)))
    ensures Upper(axis) in profile.axes ==>
      (r.Pass? <==> WithinTravel(profile.axes[Upper(axis)].travelMinMm, positionMm,
                                 profile.axes[Upper(axis)].travelMaxMm))
  {
    var key := Upper(axis);
    if key !in profile.axes then Fail(MissingAxis(key))
    else AxisEnsureWithin(profile.axes[key], positionMm, lineNumber)
  }

  /** The axis name is case-insensitive: "x" and "X" are checked against the same axis. */
  lemma EnsureWithinIgnoresCase(profile: MachineProfile, axis: string, positionMm: real,
                                lineNumber: Option<nat>)
    ensures EnsureWithin(profile, axis, positionMm, lineNumber) ==
            EnsureWithin(profile, Upper(axis), positionMm, lineNumber)
  {
    UpperIdempotent(axis);
  }

  // ----- Loading a profile from a decoded JSON/YAML document -----

  /** A decoded JSON/YAML value. Mappings keep their insertion order and have string keys. */
  datatype Value =
    | VNone
    | VBool(b: bool)
    | VInt(i: int)
    | VFloat(f: Float)
    | VStr(s: string)
    | VList(items: seq<Value>)
    | VMap(entries: seq<(string, Value)>)

  /** `data.get(key)`: the value stored under `key`, if any. */
  function Lookup(data: seq<(string, Value)>, key: string): (r: Option<Value>)
    ensures r.None? <==> forall i | 0 <= i < |data| :: data[i].0 != key
    ensures r.Some? ==> exists i | 0 <= i < |data| :: data[i] == (key, r.value)
    decreases |data|
  {
    if data == [] then None
    else if data[0].0 == key then Some(data[0].1)
    else
      var r := Lookup(data[1..], key);
      assert r.Some? ==> data[1..][0] in data[1..];
      r
  }

  /** `data.get(key)` is the value of the first entry holding `key`. */
  lemma {:induction false} LookupFirst(data: seq<(string, Value)>, i: nat, key: string)
    requires i < |data| && data[i].0 == key
    requires forall j | 0 <= j < i :: data[j].0 != key
    ensures Lookup(data, key) == Some(data[i].1)
    decreases i
  {
    if i > 0 {
      LookupFirst(data[1..], i - 1, key);
    }
  }

  /** Errors raised while reading a profile mapping. */
  datatype ProfileError =
    | MissingKeys(keys: seq<string>)
    | MissingKey(key: string)
    | NotNumeric(key: string)
    | NotInteger(key: string)
    | InvalidTravelRange(name: string, travelMinMm: Float, travelMaxMm: Float)
    | InfiniteInteger(key: string)
    | AxesNotMapping
    | AxisNotObject(rawName: string)
    | NoAxes

  /** The text of the exception raised for `e`; `repr` renders `str()` of a float. */
  function ProfileMessage(e: ProfileError, repr: real -> string): string
  {
    match e
    case MissingKeys(keys) => "Missing one of keys: " + Join(keys, ", ")
    case MissingKey(key) => "Missing key: " + key
    case NotNumeric(key) => "Expected a numeric value for " + key
    case NotInteger(key) => "Expected an integer value for " + key
    case InvalidTravelRange(name, lo, hi) =>
      "Axis " + name + " has invalid travel range " + FloatText(lo, repr) + " to " + FloatText(hi, repr)
    case InfiniteInteger(_) => "cannot convert float infinity to integer"
    case AxesNotMapping => "Machine profile must contain an 'axes' mapping"
    case AxisNotObject(rawName) => "Axis '" + rawName + "' must map to an object"
    case NoAxes => "Machine profile must define at least one axis"
  }

  /**
   * Python's `float(value)`; None where it raises TypeError or ValueError. Text such
   * as "nan" or "inf" is read as the matching double, not refused.
   */
  function FloatOf(rt: Runtime, v: Value): Option<Float>
  {
    match v
    case VInt(i) => Some(Finite(i as real))
    case VFloat(f) => Some(f)
    case VBool(b) => Some(Finite(if b then 1.0 else 0.0))
    case VStr(s) => rt.parseFloat(s)
    case _ => None
  }

  /**
   * Python's `int(value)` on anything but an infinite float (a float is truncated
   * towards zero); None where it raises TypeError or ValueError, as for NaN.
   */
  function IntOf(rt: Runtime, v: Value): Option<int>
  {
    match v
    case VInt(i) => Some(i)
    case VFloat(Finite(r)) => Some(if r >= 0.0 then r.Floor else -((-r).Floor))
    case VBool(b) => Some(if b then 1 else 0)
    case VStr(s) => rt.parseInt(s)
    case _ => None
  }

  /** The index of the first of `keys` that `data` holds, or `|keys|` when it holds none. */
  function FirstPresent(data: seq<(string, Value)>, keys: seq<string>): (i: nat)
    ensures i <= |keys|
    ensures forall j | 0 <= j < i :: Lookup(data, keys[j]).None?
    ensures i < |keys| ==> Lookup(data, keys[i]).Some?
    decreases |keys|
  {
    if keys == [] then 0
    else if Lookup(data, keys[0]).Some? then 0
    else 1 + FirstPresent(data, keys[1..])
  }

  /** What `_coerce_float(data, *keys)` returns or raises. */
  function CoercedFloat(rt: Runtime, data: seq<(string, Value)>, keys: seq<string>)
    : Result<Float, ProfileError>
  {
    var i := FirstPresent(data, keys);
    if i == |keys| then Failure(MissingKeys(keys))
    else
      match FloatOf(rt, Lookup(data, keys[i]).value)
      case None => Failure(NotNumeric(keys[0]))
      case Some(r) => Success(r)
  }

  /** `_coerce_float`: the for/else search for the first key present, then `float()`. */
  method CoerceFloat(rt: Runtime, data: seq<(string, Value)>, keys: seq<string>)
    returns (r: Result<Float, ProfileError>)
    ensures r == CoercedFloat(rt, data, keys)
    ensures r.Failure? && r.error.MissingKeys? <==>
      forall k | k in keys :: Lookup(data, k).None?
  {
    var i := 0;
    var found: Option<Value> := None;
    while i < |keys|
      invariant 0 <= i <= |keys|
      invariant forall j | 0 <= j < i :: Lookup(data, keys[j]).None?
      invariant found.Some? ==> i < |keys| && found == Lookup(data, keys[i])
      decreases |keys| - i, if found.None? then 1 else 0
    {
      if Lookup(data, keys[i]).Some? {
        found := Lookup(data, keys[i]);
        break;
      }
      i := i + 1;
    }
    if found.None? {
      return Failure(MissingKeys(keys));
    }
    assert keys[i] in keys;
    var value := FloatOf(rt, found.value);
    if value.None? {
      return Failure(NotNumeric(keys[0]));
    }
    return Success(value.value);
  }

  /**
   * What `_coerce_int(data, key)` returns or raises. `int()` of an infinity raises
   * OverflowError, which the function does not catch, so it escapes unchanged.
   */
  function CoercedInt(rt: Runtime, data: seq<(string, Value)>, key: string)
    : (r: Result<int, ProfileError>)
    ensures Lookup(data, key).None? ==> r == Failure(MissingKey(key))
    ensures Lookup(data, key) == Some(VFloat(PosInf)) || Lookup(data, key) == Some(VFloat(NegInf)) ==>
      r == Failure(InfiniteInteger(key))
  {
    match Lookup(data, key)
    case None => Failure(MissingKey(key))
    case Some(VFloat(PosInf)) => Failure(InfiniteInteger(key))
    case Some(VFloat(NegInf)) => Failure(InfiniteInteger(key))
    case Some(v) =>
      (match IntOf(rt, v)
       case None => Failure(NotInteger(key))
       case Some(i) => Success(i))
  }

  const TRAVEL_MIN_KEYS: seq<string> := ["travel_min_mm", "min_mm", "min"]
  const TRAVEL_MAX_KEYS: seq<string> := ["travel_max_mm", "max_mm", "max"]

  /** `_axis_from_mapping`: reads one axis and rejects an empty or inverted travel range. */
  function AxisFromMapping(rt: Runtime, name: string, payload: seq<(string, Value)>)
    : (r: Result<AxisProfile, ProfileError>)
    ensures r.Success? ==> r.value.name == name && !FloatAtMost(r.value.travelMaxMm, r.value.travelMinMm)
  {
    var microstepping :- CoercedInt(rt, payload, "microstepping");
    var stepsPerMm :- CoercedFloat(rt, payload, ["steps_per_mm"]);
    var travelMin :- CoercedFloat(rt, payload, TRAVEL_MIN_KEYS);
    var travelMax :- CoercedFloat(rt, payload, TRAVEL_MAX_KEYS);
    if FloatAtMost(travelMax, travelMin) then Failure(InvalidTravelRange(name, travelMin, travelMax))
    else Success(AxisProfile(name, microstepping, stepsPerMm, travelMin, travelMax))
  }

  /**
   * A loaded axis holds exactly the four coerced fields, and four fields that coerce
   * but leave the maximum at or below the minimum are refused with both values named.
   */
  lemma AxisFromMappingReads(rt: Runtime, name: string, payload: seq<(string, Value)>)
    ensures var r := AxisFromMapping(rt, name, payload);
      r.Success? ==>
      CoercedInt(rt, payload, "microstepping") == Success(r.value.microstepping) &&
      CoercedFloat(rt, payload, ["steps_per_mm"]) == Success(r.value.stepsPerMm) &&
      CoercedFloat(rt, payload, TRAVEL_MIN_KEYS) == Success(r.value.travelMinMm) &&
      CoercedFloat(rt, payload, TRAVEL_MAX_KEYS) == Success(r.value.travelMaxMm)
    ensures (CoercedInt(rt, payload, "microstepping").Success? &&
             CoercedFloat(rt, payload, ["steps_per_mm"]).Success? &&
             CoercedFloat(rt, payload, TRAVEL_MIN_KEYS).Success? &&
             CoercedFloat(rt, payload, TRAVEL_MAX_KEYS).Success? &&
             FloatAtMost(CoercedFloat(rt, payload, TRAVEL_MAX_KEYS).value,
                         CoercedFloat(rt, payload, TRAVEL_MIN_KEYS).value)) ==>
      AxisFromMapping(rt, name, payload) ==
      Failure(InvalidTravelRange(name, CoercedFloat(rt, payload, TRAVEL_MIN_KEYS).value,
                                 CoercedFloat(rt, payload, TRAVEL_MAX_KEYS).value))
  {
  }

  /**
   * A loaded range admits some position exactly when neither bound is NaN: the load
   * test refuses only a maximum that compares at or below the minimum.
   */
  lemma LoadedTravelAdmitsUnlessNaN(axis: AxisProfile)
    requires !FloatAtMost(axis.travelMaxMm, axis.travelMinMm)
    ensures (exists p: real :: WithinTravel(axis.travelMinMm, p, axis.travelMaxMm)) <==>
      !axis.travelMinMm.NaN? && !axis.travelMaxMm.NaN?
  {
    var lo, hi := axis.travelMinMm, axis.travelMaxMm;
    if !lo.NaN? && !hi.NaN? {
      if lo.Finite? && hi.Finite? {
        assert WithinTravel(lo, lo.value, hi);
      } else if lo.Finite? {
        assert WithinTravel(lo, lo.value, hi);
      } else if hi.Finite? {
        assert WithinTravel(lo, hi.value, hi);
      } else {
        assert WithinTravel(lo, 0.0, hi);
      }
    }
  }

  /** The four fields of a document written with the short keys `min` and `max`. */
  lemma AxisFieldsRead(rt: Runtime, payload: seq<(string, Value)>, lo: Value, hi: Value)
    requires payload == [("microstepping", VInt(16)), ("steps_per_mm", VInt(80)), ("min", lo), ("max", hi)]
    ensures CoercedInt(rt, payload, "microstepping") == Success(16)
    ensures CoercedFloat(rt, payload, ["steps_per_mm"]) == Success(Finite(80.0))
    ensures FloatOf(rt, lo).Some? ==> CoercedFloat(rt, payload, TRAVEL_MIN_KEYS) == Success(FloatOf(rt, lo).value)
    ensures FloatOf(rt, hi).Some? ==> CoercedFloat(rt, payload, TRAVEL_MAX_KEYS) == Success(FloatOf(rt, hi).value)
  {
    LookupFirst(payload, 0, "microstepping");
    LookupFirst(payload, 1, "steps_per_mm");
    ShortKeyRead(payload, TRAVEL_MIN_KEYS, 2);
    ShortKeyRead(payload, TRAVEL_MAX_KEYS, 3);
  }

  /** Entry `i` holds the last of three alias keys, and no entry holds the other two. */
  lemma ShortKeyRead(payload: seq<(string, Value)>, keys: seq<string>, i: nat)
    requires |keys| == 3 && i < |payload| && payload[i].0 == keys[2]
    requires forall j | 0 <= j < |payload| :: payload[j].0 != keys[0] && payload[j].0 != keys[1]
    requires forall j | 0 <= j < i :: payload[j].0 != keys[2]
    ensures FirstPresent(payload, keys) == 2 && Lookup(payload, keys[2]) == Some(payload[i].1)
  {
    LookupFirst(payload, i, keys[2]);
    assert keys[1..][1..][0] == keys[2];
  }

  /** Four fields that coerce, with the maximum above the minimum, make the loaded axis. */
  lemma AxisFromFields(rt: Runtime, name: string, payload: seq<(string, Value)>, axis: AxisProfile)
    requires axis.name == name && !FloatAtMost(axis.travelMaxMm, axis.travelMinMm)
    requires CoercedInt(rt, payload, "microstepping") == Success(axis.microstepping)
    requires CoercedFloat(rt, payload, ["steps_per_mm"]) == Success(axis.stepsPerMm)
    requires CoercedFloat(rt, payload, TRAVEL_MIN_KEYS) == Success(axis.travelMinMm)
    requires CoercedFloat(rt, payload, TRAVEL_MAX_KEYS) == Success(axis.travelMaxMm)
    ensures AxisFromMapping(rt, name, payload) == Success(axis)
  {
  }

  /** An axis whose maximum is the text "inf" loads, unbounded above. */
  lemma InfiniteMaxLoads(rt: Runtime, payload: seq<(string, Value)>)
    requires rt.parseFloat("inf") == Some(PosInf)
    requires payload == [("microstepping", VInt(16)), ("steps_per_mm", VInt(80)), ("min", VInt(0)), ("max", VStr("inf"))]
    ensures AxisFromMapping(rt, "X", payload) == Success(AxisProfile("X", 16, Finite(80.0), Finite(0.0), PosInf))
  {
    AxisFieldsRead(rt, payload, VInt(0), VStr("inf"));
    AxisFromFields(rt, "X", payload, AxisProfile("X", 16, Finite(80.0), Finite(0.0), PosInf));
  }

  /** An axis whose minimum is the text "nan" loads too, and then refuses every position. */
  lemma NaNMinLoads(rt: Runtime, payload: seq<(string, Value)>, positionMm: real)
    requires rt.parseFloat("nan") == Some(NaN)
    requires payload == [("microstepping", VInt(16)), ("steps_per_mm", VInt(80)), ("min", VStr("nan")), ("max", VInt(200))]
    ensures var r := AxisFromMapping(rt, "X", payload);
      r == Success(AxisProfile("X", 16, Finite(80.0), NaN, Finite(200.0))) &&
      AxisEnsureWithin(r.value, positionMm, None).Fail?
  {
    AxisFieldsRead(rt, payload, VStr("nan"), VInt(200));
    AxisFromFields(rt, "X", payload, AxisProfile("X", 16, Finite(80.0), NaN, Finite(200.0)));
  }

  /** The travel minimum is read from the first alias present: travel_min_mm, then min_mm, then min. */
  lemma TravelMinAliasOrder(rt: Runtime, data: seq<(string, Value)>)
    ensures Lookup(data, "travel_min_mm").Some? ==>
      CoercedFloat(rt, data, TRAVEL_MIN_KEYS) ==
      (match FloatOf(rt, Lookup(data, "travel_min_mm").value)
       case None => Failure(NotNumeric("travel_min_mm"))
       case Some(v) => Success(v))
    ensures Lookup(data, "travel_min_mm").None? && Lookup(data, "min_mm").Some? ==>
      CoercedFloat(rt, data, TRAVEL_MIN_KEYS) ==
      (match FloatOf(rt, Lookup(data, "min_mm").value)
       case None => Failure(NotNumeric("travel_min_mm"))
       case Some(v) => Success(v))
    ensures Lookup(data, "travel_min_mm").None? && Lookup(data, "min_mm").None? &&
            Lookup(data, "min").Some? ==>
      CoercedFloat(rt, data, TRAVEL_MIN_KEYS) ==
      (match FloatOf(rt, Lookup(data, "min").value)
       case None => Failure(NotNumeric("travel_min_mm"))
       case Some(v) => Success(v))
    ensures Lookup(data, "travel_min_mm").None? && Lookup(data, "min_mm").None? &&
            Lookup(data, "min").None? ==>
      CoercedFloat(rt, data, TRAVEL_MIN_KEYS) == Failure(MissingKeys(TRAVEL_MIN_KEYS))
  {
    var keys := TRAVEL_MIN_KEYS;
    assert keys[1..] == ["min_mm", "min"];
    assert keys[1..][1..] == ["min"];
    assert keys[1..][1..][1..] == [];
  }

  /**
   * The validated axes of a profile: upper-case names, each naming its own axis, and a
   * maximum that does not compare at or below the minimum.
   */
  ghost predicate WellFormedAxes(axes: map<string, AxisProfile>)
  {
    forall k | k in axes :: Upper(k) == k && axes[k].name == k &&
      !FloatAtMost(axes[k].travelMaxMm, axes[k].travelMinMm)
  }

  /** The loop of `_machine_profile_from_mapping` from entry 0 of `entries` on, into `axes`. */
  function AxesFrom(rt: Runtime, entries: seq<(string, Value)>, axes: map<string, AxisProfile>)
    : Result<map<string, AxisProfile>, ProfileError>
    decreases |entries|
  {
    if entries == [] then Success(axes)
    else
      var (rawName, axisData) := entries[0];
      if !axisData.VMap? then Failure(AxisNotObject(rawName))
      else
        var name := Upper(rawName);
        match AxisFromMapping(rt, name, axisData.entries)
        case Failure(e) => Failure(e)
        case Success(axis) => AxesFrom(rt, entries[1..], axes[name := axis])
  }

  /** What `_machine_profile_from_mapping(payload)` returns or raises. */
  function ProfileFromMapping(rt: Runtime, payload: seq<(string, Value)>)
    : Result<MachineProfile, ProfileError>
  {
    match Lookup(payload, "axes")
    case Some(VMap(entries)) =>
      (match AxesFrom(rt, entries, map[])
       case Failure(e) => Failure(e)
       case Success(axes) => if axes == map[] then Failure(NoAxes) else Success(MachineProfile(axes)))
    case _ => Failure(AxesNotMapping)
  }

  /** `_machine_profile_from_mapping`: fills the axes table entry by entry. */
  method MachineProfileFromMapping(rt: Runtime, payload: seq<(string, Value)>)
    returns (r: Result<MachineProfile, ProfileError>)
    ensures r == ProfileFromMapping(rt, payload)
  {
    var axesPayload := Lookup(payload, "axes");
    if !(axesPayload.Some? && axesPayload.value.VMap?) {
      return Failure(AxesNotMapping);
    }
    var entries := axesPayload.value.entries;
    var axes: map<string, AxisProfile> := map[];
    var i := 0;
    while i < |entries|
      invariant 0 <= i <= |entries|
      invariant AxesFrom(rt, entries[i..], axes) == AxesFrom(rt, entries, map[])
    {
      assert entries[i..][1..] == entries[i + 1..];
      var (rawName, axisData) := entries[i];
      if !axisData.VMap? {
        return Failure(AxisNotObject(rawName));
      }
      var name := Upper(rawName);
      var axis := AxisFromMapping(rt, name, axisData.entries);
      if axis.Failure? {
        return Failure(axis.error);
      }
      axes := axes[name := axis.value];
      i := i + 1;
    }
    if axes == map[] {
      return Failure(NoAxes);
    }
    return Success(MachineProfile(axes));
  }

  /** Every axis the loop stores is well formed, and stored under the upper-cased raw name. */
  lemma {:induction false} AxesFromWellFormed(rt: Runtime, entries: seq<(string, Value)>,
                                              axes: map<string, AxisProfile>)
    requires WellFormedAxes(axes)
    ensures var r := AxesFrom(rt, entries, axes);
      r.Success? ==> WellFormedAxes(r.value)
    decreases |entries|
  {
    if entries != [] && entries[0].1.VMap? {
      var name := Upper(entries[0].0);
      var a := AxisFromMapping(rt, name, entries[0].1.entries);
      if a.Success? {
        var next := AxesFromStep(rt, entries, axes);
        UpperIdempotent(entries[0].0);
        assert WellFormedAxes(next);
        AxesFromWellFormed(rt, entries[1..], next);
      }
    }
  }

  /** One turn of the loop over a mapping entry whose axis loads: it is stored under its upper-cased name. */
  lemma AxesFromStep(rt: Runtime, entries: seq<(string, Value)>, axes: map<string, AxisProfile>)
    returns (next: map<string, AxisProfile>)
    requires entries != [] && entries[0].1.VMap?
    requires AxisFromMapping(rt, Upper(entries[0].0), entries[0].1.entries).Success?
    ensures next == axes[Upper(entries[0].0) := AxisFromMapping(rt, Upper(entries[0].0), entries[0].1.entries).value]
    ensures AxesFrom(rt, entries, axes) == AxesFrom(rt, entries[1..], next)
  {
    next := axes[Upper(entries[0].0) := AxisFromMapping(rt, Upper(entries[0].0), entries[0].1.entries).value];
  }

  /** Every axis entry of the document ends up stored under its upper-cased name. */
  lemma {:induction false} AxesFromStoresEntry(rt: Runtime, entries: seq<(string, Value)>,
                                               axes: map<string, AxisProfile>, k: nat)
    requires k < |entries|
    ensures var r := AxesFrom(rt, entries, axes);
      r.Success? ==> Upper(entries[k].0) in r.value
    decreases |entries|, 1
  {
    if AxesFrom(rt, entries, axes).Success? {
      if k == 0 {
        AxesFromStoresFirst(rt, entries, axes);
      } else {
        AxesFromStoresLater(rt, entries, axes, k);
      }
    }
  }

  lemma AxesFromStoresFirst(rt: Runtime, entries: seq<(string, Value)>, axes: map<string, AxisProfile>)
    requires entries != [] && AxesFrom(rt, entries, axes).Success?
    ensures Upper(entries[0].0) in AxesFrom(rt, entries, axes).value
  {
    var next := AxesFromFirst(rt, entries, axes);
    AxesFromKeepsKeys(rt, entries[1..], next);
  }

  lemma {:induction false} AxesFromStoresLater(rt: Runtime, entries: seq<(string, Value)>,
                                               axes: map<string, AxisProfile>, k: nat)
    requires 0 < k < |entries| && AxesFrom(rt, entries, axes).Success?
    ensures Upper(entries[k].0) in AxesFrom(rt, entries, axes).value
    decreases |entries|, 0
  {
    var next := AxesFromFirst(rt, entries, axes);
    var tail := entries[1..];
    assert tail[k - 1].0 == entries[k].0;
    AxesFromStoresEntry(rt, tail, next, k - 1);
  }

  /**
   * A successful loop stored its first entry: the table it goes on with holds that
   * entry's axis under the upper-cased name.
   */
  lemma AxesFromFirst(rt: Runtime, entries: seq<(string, Value)>, axes: map<string, AxisProfile>)
    returns (next: map<string, AxisProfile>)
    requires entries != [] && AxesFrom(rt, entries, axes).Success?
    ensures Upper(entries[0].0) in next
    ensures AxesFrom(rt, entries, axes) == AxesFrom(rt, entries[1..], next)
  {
    next := AxesFromStep(rt, entries, axes);
  }

  /** The loop never removes an axis it has stored. */
  lemma {:induction false} AxesFromKeepsKeys(rt: Runtime, entries: seq<(string, Value)>,
                                             axes: map<string, AxisProfile>)
    ensures var r := AxesFrom(rt, entries, axes); r.Success? ==> axes.Keys <= r.value.Keys
    decreases |entries|
  {
    if entries != [] {
      var (rawName, axisData) := entries[0];
      if axisData.VMap? {
        var a := AxisFromMapping(rt, Upper(rawName), axisData.entries);
        if a.Success? {
          AxesFromKeepsKeys(rt, entries[1..], axes[Upper(rawName) := a.value]);
        }
      }
    }
  }

  /** A non-mapping axis entry makes loading fail: no entry is silently skipped. */
  lemma {:induction false} AxesFromRejectsNonMapping(rt: Runtime, entries: seq<(string, Value)>,
                                                     axes: map<string, AxisProfile>, k: nat)
    requires k < |entries| && !entries[k].1.VMap?
    ensures AxesFrom(rt, entries, axes).Failure?
    decreases |entries|, 1
  {
    if k == 0 {
      AxesFromStopsAtFirst(rt, entries, axes);
    } else {
      AxesFromRejectsLater(rt, entries, axes, k);
    }
  }

  lemma {:induction false} AxesFromRejectsLater(rt: Runtime, entries: seq<(string, Value)>,
                                                axes: map<string, AxisProfile>, k: nat)
    requires 0 < k < |entries| && !entries[k].1.VMap?
    ensures AxesFrom(rt, entries, axes).Failure?
    decreases |entries|, 0
  {
    if entries[0].1.VMap? && AxisFromMapping(rt, Upper(entries[0].0), entries[0].1.entries).Success? {
      var next := AxesFromStep(rt, entries, axes);
      var tail := entries[1..];
      assert tail[k - 1] == entries[k];
      AxesFromRejectsNonMapping(rt, tail, next, k - 1);
    } else {
      AxesFromStopsAtFirst(rt, entries, axes);
    }
  }

  /** A first entry that is not a mapping, or whose axis does not load, stops the loop. */
  lemma AxesFromStopsAtFirst(rt: Runtime, entries: seq<(string, Value)>, axes: map<string, AxisProfile>)
    requires entries != []
    requires !entries[0].1.VMap? || AxisFromMapping(rt, Upper(entries[0].0), entries[0].1.entries).Failure?
    ensures AxesFrom(rt, entries, axes).Failure?
  {
  }

  /**
   * A loaded profile has at least one axis; every axis is stored under its upper-case
   * name, names itself, and has a non-empty travel range; every axis entry of the
   * document was a mapping and is present under its upper-cased name.
   */
  lemma ProfileFromMappingValid(rt: Runtime, payload: seq<(string, Value)>)
    ensures var r := ProfileFromMapping(rt, payload);
      r.Success? ==>
        r.value.axes != map[] && WellFormedAxes(r.value.axes) &&
        Lookup(payload, "axes").Some? && Lookup(payload, "axes").value.VMap? &&
        (forall i | 0 <= i < |Lookup(payload, "axes").value.entries| ::
           Lookup(payload, "axes").value.entries[i].1.VMap? &&
           Upper(Lookup(payload, "axes").value.entries[i].0) in r.value.axes)
    ensures !(Lookup(payload, "axes").Some? && Lookup(payload, "axes").value.VMap?) ==>
      ProfileFromMapping(rt, payload) == Failure(AxesNotMapping)
    ensures Lookup(payload, "axes") == Some(VMap([])) ==>
      ProfileFromMapping(rt, payload) == Failure(NoAxes)
  {
    var axes := Lookup(payload, "axes");
    if axes.Some? && axes.value.VMap? {
      var entries := axes.value.entries;
      AxesFromWellFormed(rt, entries, map[]);
      forall i | 0 <= i < |entries|
        ensures AxesFrom(rt, entries, map[]).Success? ==> Upper(entries[i].0) in AxesFrom(rt, entries, map[]).value
      {
        AxesFromStoresEntry(rt, entries, map[], i);
      }
      forall i | 0 <= i < |entries| && !entries[i].1.VMap?
        ensures AxesFrom(rt, entries, map[]).Failure?
      {
        AxesFromRejectsNonMapping(rt, entries, map[], i);
      }
    }
  }
}
