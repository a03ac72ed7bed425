/**
 * The planner-friendly payload the translator's `--format planner` output is built
 * from (`_planner_payload`): one command entry per planner snapshot, the
 * per-axis envelope of those snapshots, the preview defaults, and, when a machine
 * profile is given, its axes in sorted name order.
 */
module PlannerPayload {
  import opened Wrappers
  import opened Numbers
  import opened Sorting
  import opened MachineProfiles
  import opened PatternCli
  import opened PatternCliProperties

  /** The four coordinates a snapshot records. */
  datatype Axis = XAxis | YAxis | ZAxis | ExtrusionAxis

  /** The `state` object of one command entry. */
  datatype Snapshot = Snapshot(xMm: real, yMm: real, zMm: real, extrusionMm: real)

  /** One element of `commands`; `comment` is present exactly when the event's comment is not None. */
  datatype CommandEntry = CommandEntry(index: nat, command: string, state: Snapshot, comment: Option<string>)

  /** A `{"min": ..., "max": ...}` object. */
  datatype Bounds = Bounds(min: real, max: real)

  /** The `bounds` object: one envelope per recorded coordinate. */
  datatype Envelope = Envelope(xMm: Bounds, yMm: Bounds, zMm: Bounds, extrusionMm: Bounds)

  /** The `metadata` object. */
  datatype Metadata = Metadata(durationSeconds: real, source: string)

  /** The `defaults` object. */
  datatype Defaults = Defaults(
    safeZMm: real,
    fabricPlaneZMm: real,
    travelFeedRateMmMin: nat,
    plungeFeedRateMmMin: nat,
    yarnFeedRateMmMin: nat,
    defaultRowHeightMm: real,
    requireHome: bool,
    homeState: string)

  /** One axis of the `machine_profile.axes` object. */
  datatype AxisEntry = AxisEntry(microstepping: int, stepsPerMm: Float, travelMinMm: Float, travelMaxMm: Float)

  /** The whole payload; `machineAxes` lists the profile's axes in key order, when a profile is given. */
  datatype Payload = Payload(
    version: nat,
    units: string,
    metadata: Metadata,
    defaults: Defaults,
    bounds: Envelope,
    commands: seq<CommandEntry>,
    machineAxes: Option<seq<(string, AxisEntry)>>)

  /** The coordinate of `event` on `axis`. */
  function Coordinate(event: PlannerEvent, axis: Axis): real
  {
    match axis
    case XAxis => event.xMm
    case YAxis => event.yMm
    case ZAxis => event.zMm
    case ExtrusionAxis => event.extrusionMm
  }

  /** The series `bounds` is given for one axis: that coordinate of every event, in order. */
  function Series(events: seq<PlannerEvent>, axis: Axis): (values: seq<real>)
    ensures |values| == |events|
    ensures forall i | 0 <= i < |events| :: values[i] == Coordinate(events[i], axis)
  {
    seq(|events|, i requires 0 <= i < |events| => Coordinate(events[i], axis))
  }

  /** `bounds(values)`: the least and greatest value of a non-empty series. */
  function AxisBounds(events: seq<PlannerEvent>, axis: Axis): Bounds
    requires events != []
  {
    Bounds(SeqMin(Series(events, axis)), SeqMax(Series(events, axis)))
  }

  /** The `bounds` object of a non-empty event list. */
  function EnvelopeOf(events: seq<PlannerEvent>): Envelope
    requires events != []
  {
    Envelope(AxisBounds(events, XAxis), AxisBounds(events, YAxis),
             AxisBounds(events, ZAxis), AxisBounds(events, ExtrusionAxis))
  }

  /** The entry for the event at position `index`. */
  function EntryOf(index: nat, event: PlannerEvent): CommandEntry
  {
    CommandEntry(index, event.command,
                 Snapshot(event.xMm, event.yMm, event.zMm, event.extrusionMm), event.comment)
  }

  /** `commands` for `events`: each event's entry appended in order, numbered from zero. */
  function Entries(events: seq<PlannerEvent>): (entries: seq<CommandEntry>)
    ensures |entries| == |events|
  {
    if events == [] then []
    else Entries(events[..|events| - 1]) + [EntryOf(|events| - 1, events[|events| - 1])]
  }

  /** The `defaults` object for the given homing options. */
  function DefaultsOf(requireHome: bool, homeState: string): Defaults
  {
    Defaults(SAFE_Z_MM, FABRIC_PLANE_Z_MM, TRAVEL_FEED_RATE, PLUNGE_FEED_RATE, YARN_FEED_RATE,
             DEFAULT_ROW_HEIGHT, requireHome, homeState)
  }

  /** The `machine_profile.axes` entry of one axis. */
  function AxisEntryOf(axis: AxisProfile): AxisEntry
  {
    AxisEntry(axis.microstepping, axis.stepsPerMm, axis.travelMinMm, axis.travelMaxMm)
  }

  /** The axes of a profile, each with its entry, in `sorted` name order. */
  function ProfileAxes(profile: MachineProfile): seq<(string, AxisEntry)>
  {
    var names := SortedSet(profile.axes.Keys);
    seq(|names|, k requires 0 <= k < |names| => (names[k], AxisEntryOf(profile.axes[names[k]])))
  }

  /**
   * What `_planner_payload(events, machine_profile=..., require_home=..., home_state=...)`
   * returns; None where it raises, which is when there are no events (`min` of an
   * empty series).
   */
  function PayloadOf(events: seq<PlannerEvent>, machineProfile: Option<MachineProfile>,
                     requireHome: bool, homeState: string): Option<Payload>
  {
    if events == [] then None
    else
      Some(Payload(1, "millimeters", Metadata(PLANNER_LOOP_SECONDS, PLANNER_METADATA_SOURCE),
                   DefaultsOf(requireHome, homeState), EnvelopeOf(events), Entries(events),
                   if machineProfile.Some? then Some(ProfileAxes(machineProfile.value)) else None))
  }

  /** `_planner_payload`: the commands loop, the bounds, then the sorted machine axes. */
  method BuildPlannerPayload(events: seq<PlannerEvent>, machineProfile: Option<MachineProfile>,
                             requireHome: bool, homeState: string)
    returns (payload: Option<Payload>)
    ensures payload == PayloadOf(events, machineProfile, requireHome, homeState)
  {
    var commands: seq<CommandEntry> := [];
    for index := 0 to |events|
      invariant commands == Entries(events[..index])
    {
      var event := events[index];
      var entry := CommandEntry(index, event.command,
                                Snapshot(event.xMm, event.yMm, event.zMm, event.extrusionMm), None);
      if event.comment.Some? {
        entry := entry.(comment := event.comment);
      }
      assert events[..index + 1][..index] == events[..index];
      commands := commands + [entry];
    }
    assert events[..|events|] == events;
    if events == [] {
      return None;
    }
    var bounds := EnvelopeOf(events);
    var machineAxes: Option<seq<(string, AxisEntry)>> := None;
    if machineProfile.Some? {
      var axesPayload := MachineAxes(machineProfile.value);
      machineAxes := Some(axesPayload);
    }
    payload := Some(Payload(1, "millimeters", Metadata(PLANNER_LOOP_SECONDS, PLANNER_METADATA_SOURCE),
                            DefaultsOf(requireHome, homeState), bounds, commands, machineAxes));
  }

  /** The loop over `sorted(machine_profile.axes)` filling `axes_payload`. */
  method MachineAxes(profile: MachineProfile) returns (axesPayload: seq<(string, AxisEntry)>)
    ensures axesPayload == ProfileAxes(profile)
  {
    var names := SortedSet(profile.axes.Keys);
    axesPayload := [];
    for k := 0 to |names|
      invariant |axesPayload| == k
      invariant forall j | 0 <= j < k :: axesPayload[j] == (names[j], AxisEntryOf(profile.axes[names[j]]))
    {
      var name := names[k];
      var axis := profile.axes[name];
      axesPayload := axesPayload + [(name, AxisEntry(axis.microstepping, axis.stepsPerMm,
                                                     axis.travelMinMm, axis.travelMaxMm))];
    }
  }

  // ---------------------------------------------------------------------------
  // What the payload says
  // ---------------------------------------------------------------------------

  /** Entry `i` has index `i`, the command and comment of event `i`, and its snapshot as its state. */
  lemma {:induction false} EntriesMirrorEvents(events: seq<PlannerEvent>)
    ensures |Entries(events)| == |events|
    ensures forall i | 0 <= i < |events| ::
      Entries(events)[i].index == i &&
      Entries(events)[i].command == events[i].command &&
      Entries(events)[i].comment == events[i].comment &&
      Entries(events)[i].state == Snapshot(events[i].xMm, events[i].yMm, events[i].zMm, events[i].extrusionMm)
  {
    if events != [] {
      var front := events[..|events| - 1];
      EntriesMirrorEvents(front);
      assert forall i | 0 <= i < |front| :: front[i] == events[i];
    }
  }

  /** Each axis's bounds are attained by some snapshot and enclose every snapshot, so min <= max. */
  lemma EnvelopeEncloses(events: seq<PlannerEvent>, axis: Axis)
    requires events != []
    ensures AxisBounds(events, axis).min <= AxisBounds(events, axis).max
    ensures forall i | 0 <= i < |events| ::
      AxisBounds(events, axis).min <= Coordinate(events[i], axis) <= AxisBounds(events, axis).max
    ensures exists i | 0 <= i < |events| :: Coordinate(events[i], axis) == AxisBounds(events, axis).min
    ensures exists i | 0 <= i < |events| :: Coordinate(events[i], axis) == AxisBounds(events, axis).max
  {
    var values := Series(events, axis);
    assert values[0] in values;
    forall i | 0 <= i < |events|
      ensures AxisBounds(events, axis).min <= Coordinate(events[i], axis) <= AxisBounds(events, axis).max
    {
      assert values[i] in values;
    }
    var lo :| lo in values && lo == SeqMin(values);
    var hi :| hi in values && hi == SeqMax(values);
    var i :| 0 <= i < |values| && values[i] == lo;
    var j :| 0 <= j < |values| && values[j] == hi;
    assert Coordinate(events[i], axis) == AxisBounds(events, axis).min;
    assert Coordinate(events[j], axis) == AxisBounds(events, axis).max;
  }

  /** There is a payload exactly when there is at least one event. */
  lemma PayloadNeedsEvents(events: seq<PlannerEvent>, machineProfile: Option<MachineProfile>,
                           requireHome: bool, homeState: string)
    ensures PayloadOf(events, machineProfile, requireHome, homeState).Some? <==> events != []
  {
  }

  /** The machine axes are the profile's axis names, each once, strictly sorted, each with its own entry. */
  lemma ProfileAxesSorted(profile: MachineProfile)
    ensures |ProfileAxes(profile)| == |profile.axes|
    ensures forall name :: (exists k | 0 <= k < |ProfileAxes(profile)| :: ProfileAxes(profile)[k].0 == name) <==>
      name in profile.axes
    ensures forall j, k | 0 <= j < k < |ProfileAxes(profile)| ::
      LexLess(ProfileAxes(profile)[j].0, ProfileAxes(profile)[k].0)
    ensures forall k | 0 <= k < |ProfileAxes(profile)| ::
      ProfileAxes(profile)[k].0 in profile.axes &&
      ProfileAxes(profile)[k].1 == AxisEntryOf(profile.axes[ProfileAxes(profile)[k].0])
  {
    ProfileAxesListNames(profile);
    assert |profile.axes.Keys| == |profile.axes|;
    ListedAxes(profile.axes, SortedSet(profile.axes.Keys), ProfileAxes(profile));
  }

  /** A listing of strictly sorted names that covers the map, each with its entry, lists each axis once. */
  lemma ListedAxes(axes: map<string, AxisProfile>, names: seq<string>, listed: seq<(string, AxisEntry)>)
    requires |names| == |axes| && StrictlySorted(names)
    requires forall x :: x in names <==> x in axes
    requires |listed| == |names|
    requires forall k | 0 <= k < |names| :: names[k] in axes && listed[k] == (names[k], AxisEntryOf(axes[names[k]]))
    ensures |listed| == |axes|
    ensures forall name :: (exists k | 0 <= k < |listed| :: listed[k].0 == name) <==> name in axes
    ensures forall j, k | 0 <= j < k < |listed| :: LexLess(listed[j].0, listed[k].0)
    ensures forall k | 0 <= k < |listed| :: listed[k].0 in axes && listed[k].1 == AxisEntryOf(axes[listed[k].0])
  {
    forall name
      ensures (exists k | 0 <= k < |listed| :: listed[k].0 == name) <==> name in axes
    {
      if name in axes {
        assert name in names;
        var k :| 0 <= k < |names| && names[k] == name;
        assert listed[k].0 == name;
      }
    }
  }

  /** Entry k is the k-th name in sorted order, with that axis's entry. */
  lemma ProfileAxesListNames(profile: MachineProfile)
    ensures var names := SortedSet(profile.axes.Keys);
      |ProfileAxes(profile)| == |names| &&
      forall k | 0 <= k < |names| :: names[k] in profile.axes &&
        ProfileAxes(profile)[k] == (names[k], AxisEntryOf(profile.axes[names[k]]))
  {
    var names := SortedSet(profile.axes.Keys);
    forall k | 0 <= k < |names|
      ensures names[k] in profile.axes
    {
      assert names[k] in names;
    }
  }

  /**
   * A comment that is present but empty is kept by the payload entry, while the
   * line's `as_dict` drops it: the two serialisers test the comment differently.
   */
  lemma EmptyCommentKeptByPayload(events: seq<PlannerEvent>, i: nat)
    requires i < |events| && events[i].comment == Some("")
    ensures Entries(events)[i].comment == events[i].comment
    ensures |AsDict(GCodeLine(events[i].command, events[i].comment))| == 1
  {
    EntriesMirrorEvents(events);
  }

  /**
   * The payload of any translation: there is one (the preamble guarantees events),
   * one entry per emitted line, Z ranges up to the safe height and no further,
   * extrusion starts from 0 and its maximum is the last snapshot's, and the origin
   * lies inside the X and Y bounds.
   */
  lemma TranslationPayload(ctx: Context, source: string, requireHome: bool, homeState: string)
    ensures var r := TranslateStep(ctx, source).state;
      var p := PayloadOf(r.events, ctx.profile, requireHome, homeState);
      p.Some? && |p.value.commands| == |r.lines| && PreviewEnvelope(r.events, p.value.bounds)
  {
    TranslationPreambled(ctx, source);
    PreambleEnvelope(TranslateStep(ctx, source).state.events);
  }

  /** A translation's snapshots, one per line, start with the preamble and keep Z allowed and extrusion rising. */
  lemma TranslationPreambled(ctx: Context, source: string)
    ensures var r := TranslateStep(ctx, source).state; |r.lines| == |r.events| && Preambled(r.events)
  {
    TranslateInvariants(ctx, source);
    var r := TranslateStep(ctx, source).state;
    assert r.events[0].xMm == 0.0 && r.events[0].yMm == 0.0;
    assert r.events[0].zMm == SAFE_Z_MM && r.events[0].extrusionMm == 0.0;
  }

  /**
   * The envelope of a translation's snapshots: Z tops out at the safe height and
   * bottoms out at an allowed height, extrusion runs from 0 to the last snapshot's,
   * and the origin lies inside the X and Y bounds.
   */
  predicate PreviewEnvelope(events: seq<PlannerEvent>, bounds: Envelope)
  {
    events != [] &&
    bounds.zMm.max == SAFE_Z_MM && ZAllowed(bounds.zMm.min) &&
    bounds.extrusionMm.min == 0.0 && bounds.extrusionMm.max == events[|events| - 1].extrusionMm &&
    bounds.xMm.min <= 0.0 <= bounds.xMm.max &&
    bounds.yMm.min <= 0.0 <= bounds.yMm.max
  }

  /** Snapshots that start at the origin at the safe height, with allowed Z and non-decreasing extrusion. */
  predicate Preambled(events: seq<PlannerEvent>)
  {
    events != [] &&
    events[0].xMm == 0.0 && events[0].yMm == 0.0 &&
    events[0].zMm == SAFE_Z_MM && events[0].extrusionMm == 0.0 &&
    (forall i | 0 <= i < |events| :: ZAllowed(events[i].zMm)) &&
    (forall i, j | 0 <= i < j < |events| :: events[i].extrusionMm <= events[j].extrusionMm)
  }

  /** The envelope of preambled snapshots is a preview envelope. */
  lemma PreambleEnvelope(events: seq<PlannerEvent>)
    requires Preambled(events)
    ensures PreviewEnvelope(events, EnvelopeOf(events))
  {
    EnvelopeEncloses(events, XAxis);
    EnvelopeEncloses(events, YAxis);
    ExtrusionEnvelope(events);
    ZEnvelope(events);
    assert Coordinate(events[0], XAxis) == 0.0 && Coordinate(events[0], YAxis) == 0.0;
  }

  /** With extrusion never decreasing, its envelope runs from the first snapshot to the last. */
  lemma ExtrusionEnvelope(events: seq<PlannerEvent>)
    requires events != []
    requires forall i, j | 0 <= i < j < |events| :: events[i].extrusionMm <= events[j].extrusionMm
    ensures AxisBounds(events, ExtrusionAxis).min == events[0].extrusionMm
    ensures AxisBounds(events, ExtrusionAxis).max == events[|events| - 1].extrusionMm
  {
    EnvelopeEncloses(events, ExtrusionAxis);
    var b := AxisBounds(events, ExtrusionAxis);
    var i :| 0 <= i < |events| && Coordinate(events[i], ExtrusionAxis) == b.min;
    var j :| 0 <= j < |events| && Coordinate(events[j], ExtrusionAxis) == b.max;
    assert Coordinate(events[0], ExtrusionAxis) <= Coordinate(events[i], ExtrusionAxis);
    assert Coordinate(events[j], ExtrusionAxis) <= Coordinate(events[|events| - 1], ExtrusionAxis);
  }

  /** With every Z the safe height or a plunge height, and the safe height among them, Z tops out at the safe height. */
  lemma ZEnvelope(events: seq<PlannerEvent>)
    requires events != [] && events[0].zMm == SAFE_Z_MM
    requires forall i | 0 <= i < |events| :: ZAllowed(events[i].zMm)
    ensures AxisBounds(events, ZAxis).max == SAFE_Z_MM
    ensures ZAllowed(AxisBounds(events, ZAxis).min)
  {
    EnvelopeEncloses(events, ZAxis);
    var b := AxisBounds(events, ZAxis);
    var i :| 0 <= i < |events| && Coordinate(events[i], ZAxis) == b.min;
    var j :| 0 <= j < |events| && Coordinate(events[j], ZAxis) == b.max;
    assert Coordinate(events[0], ZAxis) <= b.max;
    assert ZAllowed(events[j].zMm);
  }
}
