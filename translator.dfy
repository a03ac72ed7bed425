/**
 * The pattern translator: turns a crochet pattern (one command per line) into
 * G-code-like motion lines and planner events, checking every target position
 * against an optional machine profile.
 *
 * The functions ending in `Step` are the specification: each maps the translator
 * state before an operation to the state after it together with the error raised,
 * if any (the state at that moment is kept, since Python leaves a partially updated
 * translator behind when it raises). The class `PatternTranslator` is the
 * imperative translator, and each of its methods is proved to agree with its step.
 */
module PatternCli {
  import opened Wrappers
  import opened Text
  import opened Numbers
  import opened MachineProfiles

  const SAFE_Z_MM: real := 4.0
  const FABRIC_PLANE_Z_MM: real := 0.0
  const TRAVEL_FEED_RATE: nat := 1200
  const PLUNGE_FEED_RATE: nat := 600
  const YARN_FEED_RATE: nat := 300
  const DEFAULT_ROW_HEIGHT: real := 6.0
  const MIN_MOVE_COORD_MM: real := 0.001
  const PLANNER_LOOP_SECONDS: real := 14.0
  const PLANNER_METADATA_SOURCE: string := "pattern_cli preview"

  /** One G-code-like instruction with an optional trailing comment. */
  datatype GCodeLine = GCodeLine(command: string, comment: Option<string>)

  /** The translator state captured right after a command was emitted. */
  datatype PlannerEvent = PlannerEvent(
    command: string,
    comment: Option<string>,
    xMm: real,
    yMm: real,
    zMm: real,
    extrusionMm: real)

  /** How one kind of stitch is rendered. */
  datatype StitchProfile = StitchProfile(
    name: string,
    spacingMm: real,
    plungeDepthMm: real,
    yarnFeedMm: real)

  const STITCH_PROFILES: map<string, StitchProfile> := map[
    "SLIP" := StitchProfile("SLIP", 3.5, 1.0, 0.3),
    "CHAIN" := StitchProfile("CHAIN", 5.0, 1.5, 0.5),
    "SINGLE" := StitchProfile("SINGLE", 4.5, 2.0, 0.6),
    "DOUBLE" := StitchProfile("DOUBLE", 5.5, 2.5, 0.7)
  ]

  /** A comment is written only when it is present and not empty. */
  predicate HasComment(line: GCodeLine)
  {
    line.comment.Some? && line.comment.value != []
  }

  /** `GCodeLine.as_text`. */
  function AsText(line: GCodeLine): (text: string)
    ensures StartsWith(text, line.command)
    ensures HasComment(line) ==> text == line.command + " ; " + line.comment.value
    ensures !HasComment(line) ==> text == line.command
  {
    AffixesOfConcat(line.command, " ; " + (if HasComment(line) then line.comment.value else []));
    if HasComment(line) then line.command + " ; " + line.comment.value else line.command
  }

  /** `GCodeLine.as_dict`: a mapping with "command", and "comment" when there is one. */
  function AsDict(line: GCodeLine): (data: seq<(string, string)>)
    ensures |data| == 1 || |data| == 2
    ensures data[0] == ("command", line.command)
    ensures |data| == 2 <==> HasComment(line)
    ensures |data| == 2 ==> data[1] == ("comment", line.comment.value)
  {
    [("command", line.command)] + (if HasComment(line) then [("comment", line.comment.value)] else [])
  }

  /** Every error the translator raises. */
  datatype TranslateError =
    | UnknownCommand(command: string, lineNumber: nat)
    | MissingCount(command: string, lineNumber: nat)
    | NonIntegerCount(command: string, lineNumber: nat)
    | NonPositiveCount(command: string, lineNumber: nat)
    | NonNumericValue(command: string, lineNumber: nat)
    | NonFiniteValue(command: string, lineNumber: nat)
    | MissingCoordinates(lineNumber: nat)
    | NonPositiveCoordinates(lineNumber: nat)
    | PauseArity(lineNumber: nat)
    | NonPositiveDuration(lineNumber: nat)
    | TurnArity(lineNumber: nat)
    | NonPositiveRowHeight(lineNumber: nat)
    | Limit(limit: LimitError)

  /** The text of the ValueError raised for `e`. */
  function ErrorMessage(e: TranslateError, fixed2: real -> string): string
  {
    match e
    case UnknownCommand(c, n) => "Unknown command '" + c + "' on line " + NatToString(n)
    case MissingCount(c, n) => c + " on line " + NatToString(n) + " requires a count"
    case NonIntegerCount(c, n) => c + " on line " + NatToString(n) + " requires an integer count"
    case NonPositiveCount(c, n) => c + " on line " + NatToString(n) + " requires a positive count"
    case NonNumericValue(c, n) => c + " on line " + NatToString(n) + " expects numeric values"
    case NonFiniteValue(c, n) => c + " on line " + NatToString(n) + " expects finite values"
    case MissingCoordinates(n) => "MOVE on line " + NatToString(n) + " requires X and Y values"
    case NonPositiveCoordinates(n) => "MOVE on line " + NatToString(n) + " requires positive coordinates"
    case PauseArity(n) => "PAUSE on line " + NatToString(n) + " requires exactly one value"
    case NonPositiveDuration(n) => "PAUSE on line " + NatToString(n) + " requires a positive duration"
    case TurnArity(n) => "TURN on line " + NatToString(n) + " accepts at most one value"
    case NonPositiveRowHeight(n) => "TURN on line " + NatToString(n) + " requires a positive row height"
    case Limit(l) => LimitMessage(l, fixed2)
  }

  /** What a translation depends on besides its input: the runtime and the machine profile. */
  datatype Context = Context(rt: Runtime, profile: Option<MachineProfile>)

  /** The fields of a translator. */
  datatype TranslatorState = TranslatorState(
    xMm: real,
    yMm: real,
    zMm: real,
    extrusionMm: real,
    lines: seq<GCodeLine>,
    events: seq<PlannerEvent>)

  /** The state after an operation, and the error it raised (None when it returned). */
  datatype Step = Step(state: TranslatorState, error: Option<TranslateError>)

  /** `translate`'s result: the emitted lines, or the error it raised. */
  function ResultOf(st: Step): Result<seq<GCodeLine>, TranslateError>
  {
    if st.error.Some? then Failure(st.error.value) else Success(st.state.lines)
  }

  const INITIAL_STATE: TranslatorState := TranslatorState(0.0, 0.0, SAFE_Z_MM, 0.0, [], [])

  /** `_emit`: appends the line and a snapshot of the current position. */
  function Emitted(s: TranslatorState, command: string, comment: Option<string>): (t: TranslatorState)
    ensures t.lines == s.lines + [GCodeLine(command, comment)]
    ensures t.events == s.events + [PlannerEvent(command, comment, s.xMm, s.yMm, s.zMm, s.extrusionMm)]
    ensures t.xMm == s.xMm && t.yMm == s.yMm && t.zMm == s.zMm && t.extrusionMm == s.extrusionMm
  {
    s.(lines := s.lines + [GCodeLine(command, comment)],
       events := s.events + [PlannerEvent(command, comment, s.xMm, s.yMm, s.zMm, s.extrusionMm)])
  }

  /** `_ensure_within_limits`: no profile means no limits. */
  function LimitCheck(profile: Option<MachineProfile>, axis: string, positionMm: real,
                      lineNumber: Option<nat>): (r: Option<TranslateError>)
    ensures profile.None? ==> r.None?
    ensures profile.Some? ==>
      (r.None? <==> EnsureWithin(profile.value, axis, positionMm, lineNumber).Pass?)
    ensures r.Some? ==> r.value.Limit?
  {
    match profile
    case None => None
    case Some(p) =>
      (match EnsureWithin(p, axis, positionMm, lineNumber)
       case Pass => None
       case Fail(e) => Some(Limit(e)))
  }

  /** The three preamble lines `_reset_state` emits. */
  function ZeroAxesCommand(rt: Runtime): string
  {
    "G92 X" + rt.fixed2(0.0) + " Y" + rt.fixed2(0.0) + " Z" + rt.fixed2(SAFE_Z_MM) + " E0"
  }

  /** `_reset_state`: the initial position followed by the preamble. */
  function AfterReset(rt: Runtime): (s: TranslatorState)
    ensures s.lines == [GCodeLine("G21", Some("use millimeters")),
                        GCodeLine("G90", Some("absolute positioning")),
                        GCodeLine(ZeroAxesCommand(rt), Some("zero axes"))]
    ensures s.xMm == 0.0 && s.yMm == 0.0 && s.zMm == SAFE_Z_MM && s.extrusionMm == 0.0
    ensures |s.events| == 3 && forall i | 0 <= i < 3 ::
      s.events[i] == PlannerEvent(s.lines[i].command, s.lines[i].comment, 0.0, 0.0, SAFE_Z_MM, 0.0)
  {
    var s1 := Emitted(INITIAL_STATE, "G21", Some("use millimeters"));
    var s2 := Emitted(s1, "G90", Some("absolute positioning"));
    Emitted(s2, ZeroAxesCommand(rt), Some("zero axes"))
  }

  /** `_parse_positive_int`: the first argument as a count of at least one; extra ones are ignored. */
  function ParsePositiveInt(rt: Runtime, arguments: seq<string>, lineNumber: nat, command: string)
    : (r: Result<int, TranslateError>)
    ensures arguments == [] <==> r == Failure(MissingCount(command, lineNumber))
    ensures r.Success? <==>
      arguments != [] && rt.parseInt(arguments[0]).Some? && rt.parseInt(arguments[0]).value > 0
    ensures r.Success? ==> r.value == rt.parseInt(arguments[0]).value
  {
    if arguments == [] then Failure(MissingCount(command, lineNumber))
    else
      match rt.parseInt(arguments[0])
      case None => Failure(NonIntegerCount(command, lineNumber))
      case Some(count) =>
        if count <= 0 then Failure(NonPositiveCount(command, lineNumber)) else Success(count)
  }

  /** `_parse_float`: a number that is neither NaN nor infinite. */
  function ParseFloat(rt: Runtime, value: string, lineNumber: nat, command: string)
    : (r: Result<real, TranslateError>)
    ensures r.Success? <==> rt.parseFloat(value).Some? && rt.parseFloat(value).value.Finite?
    ensures r.Success? ==> r.value == rt.parseFloat(value).value.value
    ensures rt.parseFloat(value).None? ==> r == Failure(NonNumericValue(command, lineNumber))
    ensures rt.parseFloat(value).Some? && !rt.parseFloat(value).value.Finite? ==>
      r == Failure(NonFiniteValue(command, lineNumber))
  {
    match rt.parseFloat(value)
    case None => Failure(NonNumericValue(command, lineNumber))
    case Some(Finite(number)) => Success(number)
    case Some(_) => Failure(NonFiniteValue(command, lineNumber))
  }

  function RaiseCommand(rt: Runtime): string
  {
    "G1 Z" + rt.fixed2(SAFE_Z_MM) + " F" + NatToString(PLUNGE_FEED_RATE)
  }

  function TravelCommand(rt: Runtime, xMm: real, yMm: real): string
  {
    "G0 X" + rt.fixed2(xMm) + " Y" + rt.fixed2(yMm) + " F" + NatToString(TRAVEL_FEED_RATE)
  }

  /** `_ensure_safe_height`: raises the needle to the safe height unless it is already there. */
  function SafeHeightStep(ctx: Context, s: TranslatorState): Step
  {
    if s.zMm == SAFE_Z_MM then Step(s, None)
    else
      var err := LimitCheck(ctx.profile, "Z", SAFE_Z_MM, None);
      if err.Some? then Step(s, err)
      else Step(Emitted(s.(zMm := SAFE_Z_MM), RaiseCommand(ctx.rt), Some("raise to safe height")), None)
  }

  /** The comment prefix of stitch `index` of `count`. */
  function StitchLabel(profile: StitchProfile, index: int, count: int): string
  {
    Lower(profile.name) + " stitch " + IntToString(index) + " of " + IntToString(count)
  }

  /** The three strokes of a stitch: plunge below the fabric plane, feed yarn, raise again. */
  function StitchStrokes(rt: Runtime, s: TranslatorState, profile: StitchProfile, tag: string)
    : TranslatorState
  {
    var plungeZ := FABRIC_PLANE_Z_MM - profile.plungeDepthMm;
    var plunged := Emitted(s.(zMm := plungeZ),
      "G1 Z" + rt.fixed2(plungeZ) + " F" + NatToString(PLUNGE_FEED_RATE), Some(tag + ": plunge"));
    var extrusion := plunged.extrusionMm + profile.yarnFeedMm;
    var fed := Emitted(plunged.(extrusionMm := extrusion),
      "G1 E" + rt.fixed2(extrusion) + " F" + NatToString(YARN_FEED_RATE), Some(tag + ": feed yarn"));
    Emitted(fed.(zMm := SAFE_Z_MM), RaiseCommand(rt), Some(tag + ": raise"))
  }

  /** The rest of a stitch after its strokes: the checks at the safe height, then the advance. */
  function AdvanceStep(ctx: Context, raised: TranslatorState, profile: StitchProfile, tag: string,
                       lineNumber: nat): Step
  {
    var raiseErr := LimitCheck(ctx.profile, "Z", SAFE_Z_MM, Some(lineNumber));
    if raiseErr.Some? then Step(raised, raiseErr)
    else
      var newX := raised.xMm + profile.spacingMm;
      var advanceErr := LimitCheck(ctx.profile, "X", newX, Some(lineNumber));
      if advanceErr.Some? then Step(raised, advanceErr)
      else
        Step(Emitted(raised.(xMm := newX), TravelCommand(ctx.rt, newX, raised.yMm),
                     Some(tag + ": advance")), None)
  }

  /** One iteration of `_emit_stitches`: plunge, feed yarn, raise, advance along X. */
  function StitchAt(ctx: Context, s: TranslatorState, profile: StitchProfile, index: int,
                    count: int, lineNumber: nat): Step
  {
    var tag := StitchLabel(profile, index, count);
    var plungeErr := LimitCheck(ctx.profile, "Z", FABRIC_PLANE_Z_MM - profile.plungeDepthMm, Some(lineNumber));
    if plungeErr.Some? then Step(s, plungeErr)
    else AdvanceStep(ctx, StitchStrokes(ctx.rt, s, profile, tag), profile, tag, lineNumber)
  }

  /** `_emit_stitches` from stitch `index` to stitch `count`. */
  function StitchesFrom(ctx: Context, s: TranslatorState, profile: StitchProfile, index: int,
                        count: int, lineNumber: nat): Step
    decreases count + 1 - index
  {
    if index > count then Step(s, None)
    else
      var st := StitchAt(ctx, s, profile, index, count, lineNumber);
      if st.error.Some? then st
      else StitchesFrom(ctx, st.state, profile, index + 1, count, lineNumber)
  }

  /** `_handle_move`: an absolute travel move to two positive coordinates. */
  function MoveStep(ctx: Context, s: TranslatorState, arguments: seq<string>, lineNumber: nat): Step
  {
    if |arguments| < 2 then Step(s, Some(MissingCoordinates(lineNumber)))
    else
      var raised := SafeHeightStep(ctx, s);
      if raised.error.Some? then raised
      else
        var t := raised.state;
        match ParseFloat(ctx.rt, arguments[0], lineNumber, "MOVE")
        case Failure(e) => Step(t, Some(e))
        case Success(x) =>
          match ParseFloat(ctx.rt, arguments[1], lineNumber, "MOVE")
          case Failure(e) => Step(t, Some(e))
          case Success(y) =>
            if x <= 0.0 || y <= 0.0 then Step(t, Some(NonPositiveCoordinates(lineNumber)))
            else
              var xErr := LimitCheck(ctx.profile, "X", x, Some(lineNumber));
              if xErr.Some? then Step(t, xErr)
              else
                var yErr := LimitCheck(ctx.profile, "Y", y, Some(lineNumber));
                if yErr.Some? then Step(t, yErr)
                else Step(Emitted(t.(xMm := x, yMm := y), TravelCommand(ctx.rt, x, y), Some("reposition")), None)
  }

  /** `_handle_pause`: a dwell of the given number of seconds, in whole milliseconds. */
  function PauseStep(ctx: Context, s: TranslatorState, arguments: seq<string>, lineNumber: nat): Step
  {
    if |arguments| != 1 then Step(s, Some(PauseArity(lineNumber)))
    else
      match ParseFloat(ctx.rt, arguments[0], lineNumber, "PAUSE")
      case Failure(e) => Step(s, Some(e))
      case Success(seconds) =>
        if seconds <= 0.0 then Step(s, Some(NonPositiveDuration(lineNumber)))
        else
          var milliseconds := RoundHalfEven(seconds * 1000.0);
          Step(Emitted(s, "G4 P" + IntToString(milliseconds),
                       Some("pause for " + ctx.rt.fixed3(seconds) + " s")), None)
  }

  /** `_handle_turn`: back to X 0 and one row height (6 mm by default) further in Y. */
  function TurnStep(ctx: Context, s: TranslatorState, arguments: seq<string>, lineNumber: nat): Step
  {
    if |arguments| > 1 then Step(s, Some(TurnArity(lineNumber)))
    else
      var raised := SafeHeightStep(ctx, s);
      if raised.error.Some? then raised
      else
        var t := raised.state;
        var step := if arguments == [] then Success(DEFAULT_ROW_HEIGHT)
                    else ParseFloat(ctx.rt, arguments[0], lineNumber, "TURN");
        match step
        case Failure(e) => Step(t, Some(e))
        case Success(height) =>
          if height <= 0.0 then Step(t, Some(NonPositiveRowHeight(lineNumber)))
          else
            var xErr := LimitCheck(ctx.profile, "X", 0.0, Some(lineNumber));
            if xErr.Some? then Step(t, xErr)
            else
              var atRowStart := t.(xMm := 0.0);
              var newY := atRowStart.yMm + height;
              var yErr := LimitCheck(ctx.profile, "Y", newY, Some(lineNumber));
              if yErr.Some? then Step(atRowStart, yErr)
              else Step(Emitted(atRowStart.(yMm := newY), TravelCommand(ctx.rt, 0.0, newY),
                                Some("turn to next row")), None)
  }

  /** A blank line or a `#` comment line is skipped. */
  predicate IsSkipped(rawLine: string)
  {
    var stripped := Strip(rawLine);
    stripped == [] || StartsWith(stripped, "#")
  }

  /** The upper-cased keyword of a line that is not skipped. */
  function Keyword(rawLine: string): string
    requires !IsSkipped(rawLine)
  {
    StripEnds(rawLine);
    Upper(Split(Strip(rawLine))[0])
  }

  /** The whitespace-separated arguments after the keyword. */
  function Arguments(rawLine: string): seq<string>
    requires !IsSkipped(rawLine)
  {
    StripEnds(rawLine);
    Split(Strip(rawLine))[1..]
  }

  /** One iteration of `translate`'s loop: skip, or dispatch on the keyword. */
  function LineStep(ctx: Context, s: TranslatorState, rawLine: string, lineNumber: nat): Step
  {
    if IsSkipped(rawLine) then Step(s, None)
    else CommandStep(ctx, s, Keyword(rawLine), Arguments(rawLine), lineNumber)
  }

  /** The dispatch on an upper-cased keyword and its arguments. */
  function CommandStep(ctx: Context, s: TranslatorState, command: string, arguments: seq<string>,
                       lineNumber: nat): Step
  {
    if command in STITCH_PROFILES then
      match ParsePositiveInt(ctx.rt, arguments, lineNumber, command)
      case Failure(e) => Step(s, Some(e))
      case Success(count) => StitchesFrom(ctx, s, STITCH_PROFILES[command], 1, count, lineNumber)
    else if command == "MOVE" then MoveStep(ctx, s, arguments, lineNumber)
    else if command == "PAUSE" then PauseStep(ctx, s, arguments, lineNumber)
    else if command == "TURN" then TurnStep(ctx, s, arguments, lineNumber)
    else Step(s, Some(UnknownCommand(command, lineNumber)))
  }

  /** `translate`'s loop from the line numbered `lineNumber` on; the first error stops it. */
  function LinesFrom(ctx: Context, s: TranslatorState, rawLines: seq<string>, lineNumber: nat): Step
    decreases |rawLines|
  {
    if rawLines == [] then Step(s, None)
    else
      var st := LineStep(ctx, s, rawLines[0], lineNumber);
      if st.error.Some? then st
      else LinesFrom(ctx, st.state, rawLines[1..], lineNumber + 1)
  }

  /** Unfolds `LinesFrom` once. */
  lemma LinesFromFirst(ctx: Context, s: TranslatorState, rawLines: seq<string>, lineNumber: nat)
    requires rawLines != []
    ensures var st := LineStep(ctx, s, rawLines[0], lineNumber);
      LinesFrom(ctx, s, rawLines, lineNumber) ==
      (if st.error.Some? then st else LinesFrom(ctx, st.state, rawLines[1..], lineNumber + 1))
  {
  }

  /** `translate(source)`: reset, then every line of `source`, numbered from 1. */
  function TranslateStep(ctx: Context, source: string): Step
  {
    LinesFrom(ctx, AfterReset(ctx.rt), SplitLines(source), 1)
  }

  /** The translator object. */
  class PatternTranslator {
    var lines: seq<GCodeLine>
    var xMm: real
    var yMm: real
    var zMm: real
    var extrusionMm: real
    var plannerEvents: seq<PlannerEvent>
    const machineProfile: Option<MachineProfile>
    const rt: Runtime

    function State(): TranslatorState
      reads this
    {
      TranslatorState(xMm, yMm, zMm, extrusionMm, lines, plannerEvents)
    }

    function Ctx(): Context
    {
      Context(rt, machineProfile)
    }

    constructor(machineProfile: Option<MachineProfile>, rt: Runtime)
      ensures State() == INITIAL_STATE
      ensures this.machineProfile == machineProfile && this.rt == rt
    {
      lines := [];
      xMm := 0.0;
      yMm := 0.0;
      zMm := SAFE_Z_MM;
      extrusionMm := 0.0;
      this.machineProfile := machineProfile;
      plannerEvents := [];
      this.rt := rt;
    }

    /** `planner_events`: the snapshots of the last translation, one per emitted line. */
    function PlannerEvents(): (r: seq<PlannerEvent>)
      reads this
      ensures r == State().events
    {
      plannerEvents
    }

    method Translate(source: string) returns (r: Result<seq<GCodeLine>, TranslateError>)
      modifies this
      ensures State() == TranslateStep(Ctx(), source).state
      ensures r == ResultOf(TranslateStep(Ctx(), source))
    {
      ResetState();
      var rawLines := SplitLines(source);
      ghost var spec := LinesFrom(Ctx(), State(), rawLines, 1);
      assert spec == TranslateStep(Ctx(), source);
      assert rawLines[0..] == rawLines;
      var i := 0;
      while i < |rawLines|
        invariant 0 <= i <= |rawLines|
        invariant LinesFrom(Ctx(), State(), rawLines[i..], i + 1) == spec
      {
        ghost var before := State();
        var err := TranslateLine(rawLines[i], i + 1);
        LinesFromFirst(Ctx(), before, rawLines[i..], i + 1);
        assert rawLines[i..][0] == rawLines[i];
        assert rawLines[i..][1..] == rawLines[i + 1..];
        if err.Some? {
          return Failure(err.value);
        }
        i := i + 1;
      }
      return Success(lines);
    }

    /** The body of `translate`'s loop: skip the line, or dispatch on its keyword. */
    method TranslateLine(rawLine: string, lineNumber: nat) returns (err: Option<TranslateError>)
      modifies this
      ensures Step(State(), err) == LineStep(Ctx(), old(State()), rawLine, lineNumber)
    {
      var stripped := Strip(rawLine);
      if stripped == [] || StartsWith(stripped, "#") {
        return None;
      }
      StripEnds(rawLine);
      var tokens := Split(stripped);
      var command := Upper(tokens[0]);
      var arguments := tokens[1..];
      if command in STITCH_PROFILES {
        var count := ParsePositiveInt(rt, arguments, lineNumber, command);
        if count.Failure? {
          return Some(count.error);
        }
        err := EmitStitches(STITCH_PROFILES[command], count.value, lineNumber);
      } else if command == "MOVE" {
        err := HandleMove(arguments, lineNumber);
      } else if command == "PAUSE" {
        err := HandlePause(arguments, lineNumber);
      } else if command == "TURN" {
        err := HandleTurn(arguments, lineNumber);
      } else {
        err := Some(UnknownCommand(command, lineNumber));
      }
    }

    method ResetState()
      modifies this
      ensures State() == AfterReset(rt)
    {
      lines := [];
      plannerEvents := [];
      xMm := 0.0;
      yMm := 0.0;
      zMm := SAFE_Z_MM;
      extrusionMm := 0.0;
      Emit("G21", Some("use millimeters"));
      Emit("G90", Some("absolute positioning"));
      Emit(ZeroAxesCommand(rt), Some("zero axes"));
    }

    method Emit(command: string, comment: Option<string>)
      modifies this
      ensures State() == Emitted(old(State()), command, comment)
    {
      lines := lines + [GCodeLine(command, comment)];
      plannerEvents := plannerEvents + [PlannerEvent(command, comment, xMm, yMm, zMm, extrusionMm)];
    }

    method EnsureWithinLimits(axis: string, positionMm: real, lineNumber: Option<nat>)
      returns (err: Option<TranslateError>)
      ensures err == LimitCheck(machineProfile, axis, positionMm, lineNumber)
    {
      if machineProfile.None? {
        return None;
      }
      var outcome := EnsureWithin(machineProfile.value, axis, positionMm, lineNumber);
      if outcome.Fail? {
        return Some(Limit(outcome.error));
      }
      return None;
    }

    method EnsureSafeHeight() returns (err: Option<TranslateError>)
      modifies this
      ensures Step(State(), err) == SafeHeightStep(Ctx(), old(State()))
    {
      if zMm != SAFE_Z_MM {
        err := EnsureWithinLimits("Z", SAFE_Z_MM, None);
        if err.Some? {
          return;
        }
        zMm := SAFE_Z_MM;
        Emit(RaiseCommand(rt), Some("raise to safe height"));
      }
      return None;
    }

    method EmitStitches(profile: StitchProfile, count: int, lineNumber: nat)
      returns (err: Option<TranslateError>)
      modifies this
      ensures Step(State(), err) == StitchesFrom(Ctx(), old(State()), profile, 1, count, lineNumber)
    {
      var index := 1;
      while index <= count
        invariant count >= 0 ==> 1 <= index <= count + 1
        invariant StitchesFrom(Ctx(), State(), profile, index, count, lineNumber) ==
                  StitchesFrom(Ctx(), old(State()), profile, 1, count, lineNumber)
        decreases count + 1 - index
      {
        err := EmitStitch(profile, index, count, lineNumber);
        if err.Some? {
          return;
        }
        index := index + 1;
      }
      return None;
    }

    /** One stitch of `_emit_stitches`: plunge, feed yarn, raise, advance. */
    method EmitStitch(profile: StitchProfile, index: int, count: int, lineNumber: nat)
      returns (err: Option<TranslateError>)
      modifies this
      ensures Step(State(), err) == StitchAt(Ctx(), old(State()), profile, index, count, lineNumber)
    {
      var tag := StitchLabel(profile, index, count);
      var plungeZ := FABRIC_PLANE_Z_MM - profile.plungeDepthMm;
      err := EnsureWithinLimits("Z", plungeZ, Some(lineNumber));
      if err.Some? {
        return;
      }
      StitchStroke(profile, tag);
      err := StitchAdvance(profile, tag, lineNumber);
    }

    /** The end of one stitch: the checks at the safe height, then the advance along X. */
    method StitchAdvance(profile: StitchProfile, tag: string, lineNumber: nat)
      returns (err: Option<TranslateError>)
      modifies this
      ensures Step(State(), err) == AdvanceStep(Ctx(), old(State()), profile, tag, lineNumber)
    {
      err := EnsureWithinLimits("Z", SAFE_Z_MM, Some(lineNumber));
      if err.Some? {
        return;
      }
      var newX := xMm + profile.spacingMm;
      err := EnsureWithinLimits("X", newX, Some(lineNumber));
      if err.Some? {
        return;
      }
      xMm := newX;
      Emit(TravelCommand(rt, xMm, yMm), Some(tag + ": advance"));
      return None;
    }

    /** The plunge, feed and raise strokes of one stitch. */
    method StitchStroke(profile: StitchProfile, tag: string)
      modifies this
      ensures State() == StitchStrokes(rt, old(State()), profile, tag)
    {
      var plungeZ := FABRIC_PLANE_Z_MM - profile.plungeDepthMm;
      zMm := plungeZ;
      Emit("G1 Z" + rt.fixed2(plungeZ) + " F" + NatToString(PLUNGE_FEED_RATE), Some(tag + ": plunge"));
      extrusionMm := extrusionMm + profile.yarnFeedMm;
      Emit("G1 E" + rt.fixed2(extrusionMm) + " F" + NatToString(YARN_FEED_RATE), Some(tag + ": feed yarn"));
      zMm := SAFE_Z_MM;
      Emit(RaiseCommand(rt), Some(tag + ": raise"));
    }

    method HandleMove(arguments: seq<string>, lineNumber: nat) returns (err: Option<TranslateError>)
      modifies this
      ensures Step(State(), err) == MoveStep(Ctx(), old(State()), arguments, lineNumber)
    {
      if |arguments| < 2 {
        return Some(MissingCoordinates(lineNumber));
      }
      err := EnsureSafeHeight();
      if err.Some? {
        return;
      }
      var xValue := ParseFloat(rt, arguments[0], lineNumber, "MOVE");
      if xValue.Failure? {
        return Some(xValue.error);
      }
      var yValue := ParseFloat(rt, arguments[1], lineNumber, "MOVE");
      if yValue.Failure? {
        return Some(yValue.error);
      }
      if xValue.value <= 0.0 || yValue.value <= 0.0 {
        return Some(NonPositiveCoordinates(lineNumber));
      }
      err := EnsureWithinLimits("X", xValue.value, Some(lineNumber));
      if err.Some? {
        return;
      }
      err := EnsureWithinLimits("Y", yValue.value, Some(lineNumber));
      if err.Some? {
        return;
      }
      xMm := xValue.value;
      yMm := yValue.value;
      Emit(TravelCommand(rt, xMm, yMm), Some("reposition"));
      return None;
    }

    method HandlePause(arguments: seq<string>, lineNumber: nat) returns (err: Option<TranslateError>)
      modifies this
      ensures Step(State(), err) == PauseStep(Ctx(), old(State()), arguments, lineNumber)
    {
      if |arguments| != 1 {
        return Some(PauseArity(lineNumber));
      }
      var seconds := ParseFloat(rt, arguments[0], lineNumber, "PAUSE");
      if seconds.Failure? {
        return Some(seconds.error);
      }
      if seconds.value <= 0.0 {
        return Some(NonPositiveDuration(lineNumber));
      }
      var milliseconds := RoundHalfEven(seconds.value * 1000.0);
      var comment := "pause for " + rt.fixed3(seconds.value) + " s";
      Emit("G4 P" + IntToString(milliseconds), Some(comment));
      return None;
    }

    method HandleTurn(arguments: seq<string>, lineNumber: nat) returns (err: Option<TranslateError>)
      modifies this
      ensures Step(State(), err) == TurnStep(Ctx(), old(State()), arguments, lineNumber)
    {
      if |arguments| > 1 {
        return Some(TurnArity(lineNumber));
      }
      err := EnsureSafeHeight();
      if err.Some? {
        return;
      }
      var step: real;
      if arguments != [] {
        var parsed := ParseFloat(rt, arguments[0], lineNumber, "TURN");
        if parsed.Failure? {
          return Some(parsed.error);
        }
        step := parsed.value;
      } else {
        step := DEFAULT_ROW_HEIGHT;
      }
      if step <= 0.0 {
        return Some(NonPositiveRowHeight(lineNumber));
      }
      err := EnsureWithinLimits("X", 0.0, Some(lineNumber));
      if err.Some? {
        return;
      }
      xMm := 0.0;
      var newY := yMm + step;
      err := EnsureWithinLimits("Y", newY, Some(lineNumber));
      if err.Some? {
        return;
      }
      yMm := newY;
      Emit(TravelCommand(rt, xMm, yMm), Some("turn to next row"));
      return None;
    }
  }

  /** `translate_pattern`: a fresh translator's translation of `source`. */
  method TranslatePattern(source: string, machineProfile: Option<MachineProfile>, rt: Runtime)
    returns (r: Result<seq<GCodeLine>, TranslateError>)
    ensures r == ResultOf(TranslateStep(Context(rt, machineProfile), source))
  {
    var translator := new PatternTranslator(machineProfile, rt);
    r := translator.Translate(source);
  }
}
