/**
 * The viewer's envelope check: each side's axis bounds are normalised from loosely
 * shaped JSON, and the planner's travel on x, y, z and e is compared with the
 * machine's limits.
 */
module ViewerBounds {
  import opened Wrappers
  import opened Numbers
  import opened Js
  import opened Seqs

  /** A normalised axis range. */
  datatype AxisBounds = AxisBounds(min: real, max: real)

  /** The keys read for the lower end, in fallback order. */
  const MIN_KEYS: seq<string> := ["min", "min_mm", "minimum", "low"]
  /** The keys read for the upper end, in fallback order. */
  const MAX_KEYS: seq<string> := ["max", "max_mm", "maximum", "high"]

  /** `v[k0] ?? v[k1] ?? ...`, grouped from the left as JavaScript does. */
  function CoalesceKeys(v: JsValue, keys: seq<string>): JsValue
    requires |keys| > 0
  {
    if |keys| == 1 then Get(v, keys[0])
    else Coalesce(CoalesceKeys(v, keys[..|keys| - 1]), Get(v, keys[|keys| - 1]))
  }

  /** The chain yields the first key whose value is neither null nor undefined, else the last key's value. */
  lemma {:induction false} CoalesceKeysFirst(v: JsValue, keys: seq<string>, i: nat)
    requires i < |keys|
    requires forall j | 0 <= j < i :: IsNullish(Get(v, keys[j]))
    requires !IsNullish(Get(v, keys[i])) || i == |keys| - 1
    ensures CoalesceKeys(v, keys) == Get(v, keys[i])
    decreases |keys|
  {
    if |keys| > 1 {
      var front := keys[..|keys| - 1];
      if i < |keys| - 1 {
        CoalesceKeysFirst(v, front, i);
      } else {
        CoalesceKeysNullish(v, front);
      }
    }
  }

  /** With every key nullish, the chain is nullish too. */
  lemma {:induction false} CoalesceKeysNullish(v: JsValue, keys: seq<string>)
    requires |keys| > 0
    requires forall j | 0 <= j < |keys| :: IsNullish(Get(v, keys[j]))
    ensures IsNullish(CoalesceKeys(v, keys))
    decreases |keys|
  {
    if |keys| > 1 {
      CoalesceKeysNullish(v, keys[..|keys| - 1]);
    }
  }

  /**
   * `normalizeAxisBounds`: a range when the value is an object (or array) whose lower
   * and upper ends coerce to finite numbers in order; nothing otherwise.
   */
  function NormalizeAxisBounds(rt: JsRuntime, bounds: JsValue): (r: Option<AxisBounds>)
    ensures r.Some? <==>
      Truthy(bounds) && IsObjectType(bounds) &&
      ToNumber(rt, CoalesceKeys(bounds, MIN_KEYS)).Finite? &&
      ToNumber(rt, CoalesceKeys(bounds, MAX_KEYS)).Finite? &&
      ToNumber(rt, CoalesceKeys(bounds, MIN_KEYS)).value <= ToNumber(rt, CoalesceKeys(bounds, MAX_KEYS)).value
    ensures r.Some? ==>
      r.value.min <= r.value.max &&
      Finite(r.value.min) == ToNumber(rt, CoalesceKeys(bounds, MIN_KEYS)) &&
      Finite(r.value.max) == ToNumber(rt, CoalesceKeys(bounds, MAX_KEYS))
  {
    if !Truthy(bounds) || !IsObjectType(bounds) then None
    else
      var min := ToNumber(rt, CoalesceKeys(bounds, MIN_KEYS));
      var max := ToNumber(rt, CoalesceKeys(bounds, MAX_KEYS));
      if !min.Finite? || !max.Finite? || max.value < min.value then None
      else Some(AxisBounds(min.value, max.value))
  }

  /** Only objects and arrays can normalise: null, primitives and undefined never do. */
  lemma NormalizeNeedsObject(rt: JsRuntime, bounds: JsValue)
    requires NormalizeAxisBounds(rt, bounds).Some?
    ensures bounds.Obj? || bounds.Arr?
  {
  }

  /** An array has none of the keys, so it never normalises. */
  lemma NormalizeRejectsArray(rt: JsRuntime, items: seq<JsValue>)
    ensures NormalizeAxisBounds(rt, Arr(items)).None?
  {
    CoalesceKeysNullish(Arr(items), MIN_KEYS);
  }

  /** A chain of four keys, written out. */
  lemma CoalesceFourKeys(v: JsValue, keys: seq<string>)
    requires |keys| == 4
    ensures CoalesceKeys(v, keys) ==
      Coalesce(Coalesce(Coalesce(Get(v, keys[0]), Get(v, keys[1])), Get(v, keys[2])), Get(v, keys[3]))
  {
    var k3 := keys[..3];
    var k2 := k3[..2];
    var k1 := k2[..1];
    assert k1[0] == keys[0] && k2[1] == keys[1] && k3[2] == keys[2];
    assert CoalesceKeys(v, k2) == Coalesce(Get(v, keys[0]), Get(v, keys[1]));
    assert CoalesceKeys(v, k3) == Coalesce(CoalesceKeys(v, k2), Get(v, keys[2]));
  }

  /** `{min_mm: a, max_mm: b}` with finite `a <= b` normalises to `[a, b]`. */
  lemma NormalizeReadsFallbackKeys(rt: JsRuntime, a: real, b: real)
    requires a <= b
    ensures NormalizeAxisBounds(rt, Obj([("min_mm", Num(Finite(a))), ("max_mm", Num(Finite(b)))])) ==
      Some(AxisBounds(a, b))
  {
    FallbackKeyEnds(a, b);
  }

  /** Both ends of `{min_mm: a, max_mm: b}` come from the second key of each chain. */
  lemma FallbackKeyEnds(a: real, b: real)
    ensures var v := Obj([("min_mm", Num(Finite(a))), ("max_mm", Num(Finite(b)))]);
      CoalesceKeys(v, MIN_KEYS) == Num(Finite(a)) && CoalesceKeys(v, MAX_KEYS) == Num(Finite(b))
  {
    var props := [("min_mm", Num(Finite(a))), ("max_mm", Num(Finite(b)))];
    var v := Obj(props);
    assert props[1..] == [("max_mm", Num(Finite(b)))];
    assert Lookup(props, "min") == Undefined && Lookup(props, "min_mm") == Num(Finite(a));
    assert "min_mm"[1] != "max_mm"[1];
    assert Lookup(props, "max") == Undefined && Lookup(props, "max_mm") == Num(Finite(b));
    CoalesceFourKeys(v, MIN_KEYS);
    CoalesceFourKeys(v, MAX_KEYS);
  }

  /**
   * A lower end given as `null` (with no earlier key set) reads as 0, since
   * `Number(null)` is 0.
   */
  lemma NullLowReadsAsZero(rt: JsRuntime, b: real)
    requires 0.0 <= b
    ensures NormalizeAxisBounds(rt, Obj([("low", Null), ("max", Num(Finite(b)))])) == Some(AxisBounds(0.0, b))
  {
    NullLowEnds(b);
  }

  /** The lower chain of `{low: null, max: b}` ends at the null, the upper one starts at `b`. */
  lemma NullLowEnds(b: real)
    ensures var v := Obj([("low", Null), ("max", Num(Finite(b)))]);
      CoalesceKeys(v, MIN_KEYS) == Null && CoalesceKeys(v, MAX_KEYS) == Num(Finite(b))
  {
    var props := [("low", Null), ("max", Num(Finite(b)))];
    var v := Obj(props);
    assert props[1..] == [("max", Num(Finite(b)))];
    assert "low"[0] != "max"[0];
    assert Lookup(props, "low") == Null && Lookup(props, "max") == Num(Finite(b));
    assert Lookup(props, "min") == Undefined && Lookup(props, "min_mm") == Undefined;
    assert Lookup(props, "minimum") == Undefined;
    CoalesceFourKeys(v, MIN_KEYS);
    CoalesceFourKeys(v, MAX_KEYS);
  }

  // ---------------------------------------------------------------------------
  // Resolving one axis of one side
  // ---------------------------------------------------------------------------

  /** An axis to compare: its key and the keys each side is searched under (empty: the key itself). */
  datatype Axis = Axis(key: string, plannerKeys: seq<string>, machineKeys: seq<string>)

  /** The axes compared, in order; e is also found under `extrusion`. */
  const AXES: seq<Axis> := [
    Axis("x", [], []),
    Axis("y", [], []),
    Axis("z", [], []),
    Axis("e", ["e", "extrusion"], ["e", "extrusion"])
  ]

  /** The keys searched: the given list when it is non-empty, else the axis key. */
  function Candidates(keys: seq<string>, axisKey: string): (c: seq<string>)
    ensures |c| > 0
    ensures |keys| > 0 ==> c == keys
    ensures keys == [] ==> c == [axisKey]
  {
    if |keys| > 0 then keys else [axisKey]
  }

  /** The first candidate whose value normalises. */
  function FirstBounds(rt: JsRuntime, source: JsValue, candidates: seq<string>): Option<AxisBounds>
  {
    if candidates == [] then None
    else
      var first := NormalizeAxisBounds(rt, Get(source, candidates[0]));
      if first.Some? then first else FirstBounds(rt, source, candidates[1..])
  }

  /** The search finds a range exactly when some candidate normalises, and then it is the first such. */
  lemma {:induction false} FirstBoundsIsFirst(rt: JsRuntime, source: JsValue, candidates: seq<string>)
    ensures FirstBounds(rt, source, candidates).Some? <==>
      exists i | 0 <= i < |candidates| :: NormalizeAxisBounds(rt, Get(source, candidates[i])).Some?
    ensures FirstBounds(rt, source, candidates).Some? ==> exists i | 0 <= i < |candidates| ::
      FirstBounds(rt, source, candidates) == NormalizeAxisBounds(rt, Get(source, candidates[i])) &&
      forall j | 0 <= j < i :: NormalizeAxisBounds(rt, Get(source, candidates[j])).None?
  {
    if candidates != [] && NormalizeAxisBounds(rt, Get(source, candidates[0])).None? {
      var rest := candidates[1..];
      FirstBoundsIsFirst(rt, source, rest);
      assert forall i | 0 < i < |candidates| :: candidates[i] == rest[i - 1];
      if FirstBounds(rt, source, rest).Some? {
        var k :| 0 <= k < |rest| && FirstBounds(rt, source, rest) == NormalizeAxisBounds(rt, Get(source, rest[k])) &&
          forall j | 0 <= j < k :: NormalizeAxisBounds(rt, Get(source, rest[j])).None?;
        assert forall j | 0 <= j < k + 1 :: NormalizeAxisBounds(rt, Get(source, candidates[j])).None?;
      }
    }
  }

  /** `resolveAxisBounds` as a value: nothing for a non-object side, else the first candidate that normalises. */
  function Resolved(rt: JsRuntime, source: JsValue, candidates: seq<string>): Option<AxisBounds>
  {
    if !Truthy(source) || !IsObjectType(source) then None else FirstBounds(rt, source, candidates)
  }

  /**
   * `resolveAxisBounds`: tries each candidate key in turn and returns the first
   * normalised range.
   */
  method ResolveAxisBounds(rt: JsRuntime, source: JsValue, keys: seq<string>, axisKey: string)
    returns (r: Option<AxisBounds>)
    ensures r == Resolved(rt, source, Candidates(keys, axisKey))
  {
    if !Truthy(source) || !IsObjectType(source) {
      return None;
    }
    var candidates := if |keys| > 0 then keys else [axisKey];
    var index := 0;
    while index < |candidates|
      invariant 0 <= index <= |candidates|
      invariant FirstBounds(rt, source, candidates[index..]) == FirstBounds(rt, source, candidates)
    {
      var candidate := NormalizeAxisBounds(rt, Get(source, candidates[index]));
      if candidate.Some? {
        return candidate;
      }
      assert candidates[index..][1..] == candidates[index + 1..];
      index := index + 1;
    }
    return None;
  }

  /** A side's range for an axis. */
  function PlannerSide(rt: JsRuntime, planner: JsValue, axis: Axis): Option<AxisBounds>
  {
    Resolved(rt, planner, Candidates(axis.plannerKeys, axis.key))
  }

  function MachineSide(rt: JsRuntime, machine: JsValue, axis: Axis): Option<AxisBounds>
  {
    Resolved(rt, machine, Candidates(axis.machineKeys, axis.key))
  }

  // ---------------------------------------------------------------------------
  // The comparison
  // ---------------------------------------------------------------------------

  /** Both ranges of an axis and which end of the planner's range overruns the machine's. */
  datatype AxisDetail = AxisDetail(planner: AxisBounds, machine: AxisBounds, overrunLow: bool, overrunHigh: bool)

  /** The result object; `details` lists its entries in insertion order. */
  datatype Comparison = Comparison(
    missingPlanner: bool,
    missingMachine: bool,
    missingPlannerAxes: seq<string>,
    missingMachineAxes: seq<string>,
    fits: bool,
    exceedingAxes: seq<string>,
    details: seq<(string, AxisDetail)>)

  /** The keys of `axes` whose range on one side does not resolve, in axis order. */
  function MissingAxes(rt: JsRuntime, source: JsValue, axes: seq<Axis>, planner: bool): seq<string>
  {
    if axes == [] then []
    else
      var axis := axes[|axes| - 1];
      MissingAxes(rt, source, axes[..|axes| - 1], planner) + (if Side(rt, source, axis, planner).None? then [axis.key] else [])
  }

  /** The detail entry for an axis resolved on both sides. */
  function DetailOf(p: AxisBounds, m: AxisBounds): AxisDetail
  {
    AxisDetail(p, m, p.min < m.min, p.max > m.max)
  }

  /** An axis present on both sides whose planner range leaves the machine's. */
  predicate Exceeds(rt: JsRuntime, planner: JsValue, machine: JsValue, axis: Axis)
  {
    var p := PlannerSide(rt, planner, axis);
    var m := MachineSide(rt, machine, axis);
    p.Some? && m.Some? && (p.value.min < m.value.min || p.value.max > m.value.max)
  }

  /** The keys of the exceeding axes, in axis order. */
  function ExceedingAxes(rt: JsRuntime, planner: JsValue, machine: JsValue, axes: seq<Axis>): seq<string>
  {
    if axes == [] then []
    else
      var axis := axes[|axes| - 1];
      ExceedingAxes(rt, planner, machine, axes[..|axes| - 1]) +
        (if Exceeds(rt, planner, machine, axis) then [axis.key] else [])
  }

  /** The detail entries, one per axis present on both sides, in axis order. */
  function Details(rt: JsRuntime, planner: JsValue, machine: JsValue, axes: seq<Axis>): seq<(string, AxisDetail)>
  {
    if axes == [] then []
    else
      var axis := axes[|axes| - 1];
      var p := PlannerSide(rt, planner, axis);
      var m := MachineSide(rt, machine, axis);
      Details(rt, planner, machine, axes[..|axes| - 1]) +
        (if p.Some? && m.Some? then [(axis.key, DetailOf(p.value, m.value))] else [])
  }

  /** The whole comparison over `axes`, as the two passes compute it. */
  function Compared(rt: JsRuntime, planner: JsValue, machine: JsValue, axes: seq<Axis>): Comparison
  {
    var missingP := MissingAxes(rt, planner, axes, true);
    var missingM := MissingAxes(rt, machine, axes, false);
    var exceeding := ExceedingAxes(rt, planner, machine, axes);
    Comparison(|missingP| > 0, |missingM| > 0, missingP, missingM,
      |missingP| == 0 && |missingM| == 0 && |exceeding| == 0, exceeding, Details(rt, planner, machine, axes))
  }

  predicate KeysDistinct(axes: seq<Axis>)
  {
    forall i, j | 0 <= i < j < |axes| :: axes[i].key != axes[j].key
  }

  /** The second pass's lists over a prefix one longer gain at most the next axis. */
  lemma FiltersSnoc(rt: JsRuntime, planner: JsValue, machine: JsValue, axes: seq<Axis>, i: nat)
    requires i < |axes|
    ensures ExceedingAxes(rt, planner, machine, axes[..i + 1]) ==
      ExceedingAxes(rt, planner, machine, axes[..i]) + (if Exceeds(rt, planner, machine, axes[i]) then [axes[i].key] else [])
    ensures Details(rt, planner, machine, axes[..i + 1]) ==
      Details(rt, planner, machine, axes[..i]) +
        (if PlannerSide(rt, planner, axes[i]).Some? && MachineSide(rt, machine, axes[i]).Some?
         then [(axes[i].key, DetailOf(PlannerSide(rt, planner, axes[i]).value, MachineSide(rt, machine, axes[i]).value))]
         else [])
  {
    assert axes[..i + 1][..i] == axes[..i];
  }

  /** A side's range for an axis, the planner's or the machine's. */
  function Side(rt: JsRuntime, source: JsValue, axis: Axis, planner: bool): Option<AxisBounds>
  {
    if planner then PlannerSide(rt, source, axis) else MachineSide(rt, source, axis)
  }

  /** `table[key]` holds the resolved range of each of the first `n` axes. */
  predicate Tabulates(table: map<string, Option<AxisBounds>>, rt: JsRuntime, source: JsValue, axes: seq<Axis>,
                      n: nat, planner: bool)
    requires n <= |axes|
  {
    forall j | 0 <= j < n :: axes[j].key in table && table[axes[j].key] == Side(rt, source, axes[j], planner)
  }

  /** Recording the next axis keeps the earlier entries, since the keys are distinct. */
  lemma TabulatesStep(table: map<string, Option<AxisBounds>>, rt: JsRuntime, source: JsValue, axes: seq<Axis>,
                      i: nat, planner: bool)
    requires KeysDistinct(axes) && i < |axes| && Tabulates(table, rt, source, axes, i, planner)
    ensures Tabulates(table[axes[i].key := Side(rt, source, axes[i], planner)], rt, source, axes, i + 1, planner)
  {
  }

  /** One side's missing list over a prefix one longer gains at most the next axis. */
  lemma MissingSnoc(rt: JsRuntime, source: JsValue, axes: seq<Axis>, i: nat, planner: bool)
    requires i < |axes|
    ensures MissingAxes(rt, source, axes[..i + 1], planner) ==
      MissingAxes(rt, source, axes[..i], planner) + (if Side(rt, source, axes[i], planner).None? then [axes[i].key] else [])
  {
    assert axes[..i + 1][..i] == axes[..i];
  }

  /** One side of one iteration of the first pass: resolve axis `i`, record it, note it if missing. */
  method RecordAxis(rt: JsRuntime, source: JsValue, axes: seq<Axis>, i: nat, planner: bool,
                    table: map<string, Option<AxisBounds>>, missing: seq<string>)
    returns (table': map<string, Option<AxisBounds>>, missing': seq<string>)
    requires KeysDistinct(axes) && i < |axes| && Tabulates(table, rt, source, axes, i, planner)
    requires missing == MissingAxes(rt, source, axes[..i], planner)
    ensures Tabulates(table', rt, source, axes, i + 1, planner)
    ensures missing' == MissingAxes(rt, source, axes[..i + 1], planner)
  {
    var axis := axes[i];
    MissingSnoc(rt, source, axes, i, planner);
    TabulatesStep(table, rt, source, axes, i, planner);
    var bounds := ResolveAxisBounds(rt, source, if planner then axis.plannerKeys else axis.machineKeys, axis.key);
    table' := table[axis.key := bounds];
    missing' := missing;
    if bounds.None? {
      missing' := missing' + [axis.key];
    }
  }

  /**
   * The first pass of `comparePlannerToMachineBounds`: resolves both sides of every
   * axis into `normalizedPlanner`/`normalizedMachine` and collects the missing ones.
   */
  method ResolveAxes(rt: JsRuntime, plannerBounds: JsValue, machineBounds: JsValue, axes: seq<Axis>)
    returns (normalizedPlanner: map<string, Option<AxisBounds>>, normalizedMachine: map<string, Option<AxisBounds>>,
             missingPlannerAxes: seq<string>, missingMachineAxes: seq<string>)
    requires KeysDistinct(axes)
    ensures Tabulates(normalizedPlanner, rt, plannerBounds, axes, |axes|, true)
    ensures Tabulates(normalizedMachine, rt, machineBounds, axes, |axes|, false)
    ensures missingPlannerAxes == MissingAxes(rt, plannerBounds, axes, true)
    ensures missingMachineAxes == MissingAxes(rt, machineBounds, axes, false)
  {
    normalizedPlanner, normalizedMachine := map[], map[];
    missingPlannerAxes, missingMachineAxes := [], [];
    var i := 0;
    while i < |axes|
      invariant 0 <= i <= |axes|
      invariant Tabulates(normalizedPlanner, rt, plannerBounds, axes, i, true)
      invariant Tabulates(normalizedMachine, rt, machineBounds, axes, i, false)
      invariant missingPlannerAxes == MissingAxes(rt, plannerBounds, axes[..i], true)
      invariant missingMachineAxes == MissingAxes(rt, machineBounds, axes[..i], false)
    {
      normalizedPlanner, missingPlannerAxes :=
        RecordAxis(rt, plannerBounds, axes, i, true, normalizedPlanner, missingPlannerAxes);
      normalizedMachine, missingMachineAxes :=
        RecordAxis(rt, machineBounds, axes, i, false, normalizedMachine, missingMachineAxes);
      i := i + 1;
    }
    assert axes[..i] == axes;
  }

  /** The second pass: a detail entry for each axis present on both sides, and the overrunning ones. */
  method CollectOverruns(rt: JsRuntime, plannerBounds: JsValue, machineBounds: JsValue, axes: seq<Axis>,
                         normalizedPlanner: map<string, Option<AxisBounds>>,
                         normalizedMachine: map<string, Option<AxisBounds>>)
    returns (details: seq<(string, AxisDetail)>, exceedingAxes: seq<string>)
    requires Tabulates(normalizedPlanner, rt, plannerBounds, axes, |axes|, true)
    requires Tabulates(normalizedMachine, rt, machineBounds, axes, |axes|, false)
    ensures details == Details(rt, plannerBounds, machineBounds, axes)
    ensures exceedingAxes == ExceedingAxes(rt, plannerBounds, machineBounds, axes)
  {
    details, exceedingAxes := [], [];
    var i := 0;
    while i < |axes|
      invariant 0 <= i <= |axes|
      invariant details == Details(rt, plannerBounds, machineBounds, axes[..i])
      invariant exceedingAxes == ExceedingAxes(rt, plannerBounds, machineBounds, axes[..i])
    {
      var axis := axes[i];
      FiltersSnoc(rt, plannerBounds, machineBounds, axes, i);
      var planner := normalizedPlanner[axis.key];
      var machine := normalizedMachine[axis.key];
      if planner.Some? && machine.Some? {
        var overrunLow := planner.value.min < machine.value.min;
        var overrunHigh := planner.value.max > machine.value.max;
        if overrunLow || overrunHigh {
          exceedingAxes := exceedingAxes + [axis.key];
        }
        details := details + [(axis.key, AxisDetail(planner.value, machine.value, overrunLow, overrunHigh))];
      }
      i := i + 1;
    }
    assert axes[..i] == axes;
  }

  /** `comparePlannerToMachineBounds` over the given axes: the two passes, then the summary flags. */
  method CompareAxes(rt: JsRuntime, plannerBounds: JsValue, machineBounds: JsValue, axes: seq<Axis>)
    returns (c: Comparison)
    requires KeysDistinct(axes)
    ensures c == Compared(rt, plannerBounds, machineBounds, axes)
  {
    var normalizedPlanner, normalizedMachine, missingPlannerAxes, missingMachineAxes :=
      ResolveAxes(rt, plannerBounds, machineBounds, axes);
    var missingPlanner := |missingPlannerAxes| > 0;
    var missingMachine := |missingMachineAxes| > 0;
    var details, exceedingAxes := CollectOverruns(rt, plannerBounds, machineBounds, axes, normalizedPlanner, normalizedMachine);
    var fits := !missingPlanner && !missingMachine && |exceedingAxes| == 0;
    c := Comparison(missingPlanner, missingMachine, missingPlannerAxes, missingMachineAxes, fits, exceedingAxes, details);
  }

  lemma AxesKeysDistinct()
    ensures KeysDistinct(AXES)
  {
  }

  /** `comparePlannerToMachineBounds` over x, y, z and e. */
  method ComparePlannerToMachineBounds(rt: JsRuntime, plannerBounds: JsValue, machineBounds: JsValue)
    returns (c: Comparison)
    ensures c == Compared(rt, plannerBounds, machineBounds, AXES)
  {
    AxesKeysDistinct();
    c := CompareAxes(rt, plannerBounds, machineBounds, AXES);
  }

  // ---------------------------------------------------------------------------
  // What the comparison means
  // ---------------------------------------------------------------------------

  /** An axis is reported missing on a side exactly when that side's range does not resolve. */
  lemma {:induction false} MissingAxesExactly(rt: JsRuntime, source: JsValue, axes: seq<Axis>, planner: bool, i: nat)
    requires KeysDistinct(axes) && i < |axes|
    ensures axes[i].key in MissingAxes(rt, source, axes, planner) <==>
      Side(rt, source, axes[i], planner).None?
  {
    var front := axes[..|axes| - 1];
    assert forall j | 0 <= j < |front| :: front[j] == axes[j];
    MissingAxesAreKeys(rt, source, front, planner);
    if i < |front| {
      MissingAxesExactly(rt, source, front, planner, i);
    }
  }

  /** Every missing key is the key of some axis, never before the axis it names. */
  lemma {:induction false} MissingAxesAreKeys(rt: JsRuntime, source: JsValue, axes: seq<Axis>, planner: bool)
    ensures forall k | k in MissingAxes(rt, source, axes, planner) :: exists i | 0 <= i < |axes| :: axes[i].key == k
  {
    if axes != [] {
      var front := axes[..|axes| - 1];
      MissingAxesAreKeys(rt, source, front, planner);
      assert forall j | 0 <= j < |front| :: front[j] == axes[j];
    }
  }

  /** An axis is listed as exceeding exactly when it is present on both sides and overruns. */
  lemma {:induction false} ExceedingAxesExactly(rt: JsRuntime, planner: JsValue, machine: JsValue, axes: seq<Axis>, i: nat)
    requires KeysDistinct(axes) && i < |axes|
    ensures axes[i].key in ExceedingAxes(rt, planner, machine, axes) <==> Exceeds(rt, planner, machine, axes[i])
    decreases |axes|, 1
  {
    if i < |axes| - 1 {
      ExceedingEarlierAxis(rt, planner, machine, axes, i);
    } else {
      ExceedingLastAxis(rt, planner, machine, axes);
    }
  }

  lemma {:induction false} ExceedingEarlierAxis(rt: JsRuntime, planner: JsValue, machine: JsValue, axes: seq<Axis>, i: nat)
    requires KeysDistinct(axes) && i < |axes| - 1
    ensures axes[i].key in ExceedingAxes(rt, planner, machine, axes) <==> Exceeds(rt, planner, machine, axes[i])
    decreases |axes|, 0
  {
    var front := axes[..|axes| - 1];
    var last := axes[|axes| - 1];
    assert forall j | 0 <= j < |front| :: front[j] == axes[j];
    ExceedingAxesExactly(rt, planner, machine, front, i);
    assert front[i] == axes[i] && axes[i].key != last.key;
  }

  lemma ExceedingLastAxis(rt: JsRuntime, planner: JsValue, machine: JsValue, axes: seq<Axis>)
    requires KeysDistinct(axes) && axes != []
    ensures var last := axes[|axes| - 1];
      last.key in ExceedingAxes(rt, planner, machine, axes) <==> Exceeds(rt, planner, machine, last)
  {
    var front := axes[..|axes| - 1];
    var last := axes[|axes| - 1];
    ExceedingAxesAreKeys(rt, planner, machine, front);
    forall j | 0 <= j < |front|
      ensures front[j].key != last.key
    {
      assert front[j] == axes[j];
    }
    assert last.key !in ExceedingAxes(rt, planner, machine, front);
  }

  lemma {:induction false} ExceedingAxesAreKeys(rt: JsRuntime, planner: JsValue, machine: JsValue, axes: seq<Axis>)
    ensures forall k | k in ExceedingAxes(rt, planner, machine, axes) :: exists i | 0 <= i < |axes| :: axes[i].key == k
  {
    if axes != [] {
      var front := axes[..|axes| - 1];
      ExceedingAxesAreKeys(rt, planner, machine, front);
      assert forall j | 0 <= j < |front| :: front[j] == axes[j];
    }
  }

  /**
   * Each detail entry belongs to an axis present on both sides, and carries both
   * ranges and the overrun flags.
   */
  lemma {:induction false} DetailsAreBothSides(rt: JsRuntime, planner: JsValue, machine: JsValue, axes: seq<Axis>)
    ensures forall e | e in Details(rt, planner, machine, axes) :: exists i | 0 <= i < |axes| ::
      e.0 == axes[i].key && PlannerSide(rt, planner, axes[i]).Some? && MachineSide(rt, machine, axes[i]).Some? &&
      e.1 == DetailOf(PlannerSide(rt, planner, axes[i]).value, MachineSide(rt, machine, axes[i]).value)
  {
    if axes != [] {
      var front := axes[..|axes| - 1];
      DetailsAreBothSides(rt, planner, machine, front);
      assert forall j | 0 <= j < |front| :: front[j] == axes[j];
    }
  }

  /** Every axis present on both sides has a detail entry. */
  lemma {:induction false} DetailsCoverBothSides(rt: JsRuntime, planner: JsValue, machine: JsValue, axes: seq<Axis>, i: nat)
    requires i < |axes|
    requires PlannerSide(rt, planner, axes[i]).Some? && MachineSide(rt, machine, axes[i]).Some?
    ensures (axes[i].key, DetailOf(PlannerSide(rt, planner, axes[i]).value, MachineSide(rt, machine, axes[i]).value))
      in Details(rt, planner, machine, axes)
  {
    var front := axes[..|axes| - 1];
    if i < |front| {
      assert front[i] == axes[i];
      DetailsCoverBothSides(rt, planner, machine, front, i);
    }
  }

  /** The planner fits exactly when every axis resolves on both sides and lies within the machine's range. */
  lemma FitsExactly(rt: JsRuntime, planner: JsValue, machine: JsValue, axes: seq<Axis>)
    requires KeysDistinct(axes)
    ensures Compared(rt, planner, machine, axes).fits <==>
      forall i | 0 <= i < |axes| ::
        PlannerSide(rt, planner, axes[i]).Some? && MachineSide(rt, machine, axes[i]).Some? &&
        MachineSide(rt, machine, axes[i]).value.min <= PlannerSide(rt, planner, axes[i]).value.min &&
        PlannerSide(rt, planner, axes[i]).value.max <= MachineSide(rt, machine, axes[i]).value.max
  {
    var c := Compared(rt, planner, machine, axes);
    forall i | 0 <= i < |axes|
      ensures axes[i].key in c.missingPlannerAxes <==> PlannerSide(rt, planner, axes[i]).None?
      ensures axes[i].key in c.missingMachineAxes <==> MachineSide(rt, machine, axes[i]).None?
      ensures axes[i].key in c.exceedingAxes <==> Exceeds(rt, planner, machine, axes[i])
    {
      MissingAxesExactly(rt, planner, axes, true, i);
      MissingAxesExactly(rt, machine, axes, false, i);
      ExceedingAxesExactly(rt, planner, machine, axes, i);
    }
    MissingAxesAreKeys(rt, planner, axes, true);
    MissingAxesAreKeys(rt, machine, axes, false);
    ExceedingAxesAreKeys(rt, planner, machine, axes);
    if !c.fits {
      if |c.missingPlannerAxes| > 0 {
        assert c.missingPlannerAxes[0] in c.missingPlannerAxes;
      } else if |c.missingMachineAxes| > 0 {
        assert c.missingMachineAxes[0] in c.missingMachineAxes;
      } else {
        assert c.exceedingAxes[0] in c.exceedingAxes;
      }
    }
  }

  /** A side that is not an object is missing every axis, so nothing fits. */
  lemma {:induction false} NonObjectMissesEverything(rt: JsRuntime, source: JsValue, axes: seq<Axis>, planner: bool)
    requires !(source.Obj? || source.Arr?)
    ensures MissingAxes(rt, source, axes, planner) == seq(|axes|, i requires 0 <= i < |axes| => axes[i].key)
  {
    if axes != [] {
      NonObjectMissesEverything(rt, source, axes[..|axes| - 1], planner);
    }
  }
}
