/**
 * Properties of the pattern translator, stated over its step functions: the buffer
 * and position invariants every operation keeps, the exact effect of each command,
 * the dispatcher's rules, and where an error stops a translation.
 */
module PatternCliProperties {
  import opened Wrappers
  import opened Text
  import opened Numbers
  import opened MachineProfiles
  import opened PatternCli

  /** The heights below the fabric plane that the stitch table plunges to. */
  const PLUNGE_HEIGHTS: set<real> := {-1.0, -1.5, -2.0, -2.5}

  /** The heights the needle can be at: the safe height or one of the plunge heights. */
  predicate ZAllowed(z: real)
  {
    z == SAFE_Z_MM || z in PLUNGE_HEIGHTS
  }

  /** The plunge heights are exactly the stitch table's FABRIC_PLANE_Z_MM - plunge_depth_mm. */
  lemma PlungeHeightsAreTheTable()
    ensures forall name | name in STITCH_PROFILES ::
      FABRIC_PLANE_Z_MM - STITCH_PROFILES[name].plungeDepthMm in PLUNGE_HEIGHTS
    ensures forall z | z in PLUNGE_HEIGHTS ::
      exists name | name in STITCH_PROFILES :: z == FABRIC_PLANE_Z_MM - STITCH_PROFILES[name].plungeDepthMm
  {
    assert FABRIC_PLANE_Z_MM - STITCH_PROFILES["SLIP"].plungeDepthMm == -1.0;
    assert FABRIC_PLANE_Z_MM - STITCH_PROFILES["CHAIN"].plungeDepthMm == -1.5;
    assert FABRIC_PLANE_Z_MM - STITCH_PROFILES["SINGLE"].plungeDepthMm == -2.0;
    assert FABRIC_PLANE_Z_MM - STITCH_PROFILES["DOUBLE"].plungeDepthMm == -2.5;
  }

  /** The two buffers have one entry per emitted command, with the same command and comment. */
  ghost predicate Aligned(s: TranslatorState)
  {
    |s.lines| == |s.events| &&
    forall i | 0 <= i < |s.lines| ::
      s.lines[i].command == s.events[i].command && s.lines[i].comment == s.events[i].comment
  }

  /** The invariant that holds at every moment, in the middle of a stitch too. */
  ghost predicate Consistent(s: TranslatorState)
  {
    Aligned(s) &&
    ZAllowed(s.zMm) &&
    (forall i | 0 <= i < |s.events| :: ZAllowed(s.events[i].zMm)) &&
    (forall i | 0 <= i < |s.events| :: s.events[i].extrusionMm <= s.extrusionMm) &&
    (forall i, j | 0 <= i < j < |s.events| :: s.events[i].extrusionMm <= s.events[j].extrusionMm)
  }

  /** The invariant between two pattern lines: consistent, with the needle at the safe height. */
  ghost predicate Inv(s: TranslatorState)
  {
    Consistent(s) && s.zMm == SAFE_Z_MM
  }

  /** `t` only appended to the buffers of `s`. */
  ghost predicate Extends(s: TranslatorState, t: TranslatorState)
  {
    |s.lines| <= |t.lines| && t.lines[..|s.lines|] == s.lines &&
    |s.events| <= |t.events| && t.events[..|s.events|] == s.events
  }

  lemma ExtendsTransitive(s: TranslatorState, t: TranslatorState, u: TranslatorState)
    requires Extends(s, t) && Extends(t, u)
    ensures Extends(s, u)
  {
    assert u.lines[..|s.lines|] == u.lines[..|t.lines|][..|s.lines|];
    assert u.events[..|s.events|] == u.events[..|t.events|][..|s.events|];
  }

  lemma EmittedKeepsConsistent(s: TranslatorState, command: string, comment: Option<string>)
    requires Consistent(s)
    ensures Consistent(Emitted(s, command, comment)) && Extends(s, Emitted(s, command, comment))
  {
    var t := Emitted(s, command, comment);
    assert t.lines[..|s.lines|] == s.lines;
    assert t.events[..|s.events|] == s.events;
  }

  /** Moving the head to an allowed height, or feeding yarn, keeps the state consistent. */
  lemma UpdateKeepsConsistent(s: TranslatorState, t: TranslatorState)
    requires Consistent(s)
    requires t.lines == s.lines && t.events == s.events
    requires ZAllowed(t.zMm) && t.extrusionMm >= s.extrusionMm
    ensures Consistent(t) && Extends(s, t)
  {
  }

  /** What the invariant needs of a stitch profile: an allowed plunge depth and positive feed. */
  ghost predicate Catalogued(profile: StitchProfile)
  {
    ZAllowed(FABRIC_PLANE_Z_MM - profile.plungeDepthMm) && profile.yarnFeedMm > 0.0
  }

  /** Every profile of the stitch table plunges to an allowed depth and feeds yarn. */
  lemma CatalogueProfiles(name: string)
    requires name in STITCH_PROFILES
    ensures Catalogued(STITCH_PROFILES[name])
  {
    assert name in {"SLIP", "CHAIN", "SINGLE", "DOUBLE"};
    if name == "SLIP" {
      assert STITCH_PROFILES[name] == StitchProfile("SLIP", 3.5, 1.0, 0.3);
    } else if name == "CHAIN" {
      assert STITCH_PROFILES[name] == StitchProfile("CHAIN", 5.0, 1.5, 0.5);
    } else if name == "SINGLE" {
      assert STITCH_PROFILES[name] == StitchProfile("SINGLE", 4.5, 2.0, 0.6);
    } else {
      assert STITCH_PROFILES[name] == StitchProfile("DOUBLE", 5.5, 2.5, 0.7);
    }
  }

  /** Moving or feeding and then emitting keeps the state consistent and only appends. */
  lemma MoveThenEmit(s: TranslatorState, t: TranslatorState, command: string, comment: Option<string>)
    requires Consistent(s)
    requires t.lines == s.lines && t.events == s.events
    requires ZAllowed(t.zMm) && t.extrusionMm >= s.extrusionMm
    ensures Consistent(Emitted(t, command, comment)) && Extends(s, Emitted(t, command, comment))
    ensures |Emitted(t, command, comment).lines| == |s.lines| + 1
  {
    UpdateKeepsConsistent(s, t);
    EmittedKeepsConsistent(t, command, comment);
  }

  lemma StitchStrokesKeepInv(rt: Runtime, s: TranslatorState, profile: StitchProfile, tag: string)
    requires Inv(s) && Catalogued(profile)
    ensures var t := StitchStrokes(rt, s, profile, tag);
      Inv(t) && Extends(s, t) && |t.lines| == |s.lines| + 3 &&
      t.xMm == s.xMm && t.yMm == s.yMm && t.extrusionMm == s.extrusionMm + profile.yarnFeedMm
  {
    var plungeZ := FABRIC_PLANE_Z_MM - profile.plungeDepthMm;
    var plungeCommand := "G1 Z" + rt.fixed2(plungeZ) + " F" + NatToString(PLUNGE_FEED_RATE);
    var plunged := Emitted(s.(zMm := plungeZ), plungeCommand, Some(tag + ": plunge"));
    MoveThenEmit(s, s.(zMm := plungeZ), plungeCommand, Some(tag + ": plunge"));
    var extrusion := plunged.extrusionMm + profile.yarnFeedMm;
    var feedCommand := "G1 E" + rt.fixed2(extrusion) + " F" + NatToString(YARN_FEED_RATE);
    var fed := Emitted(plunged.(extrusionMm := extrusion), feedCommand, Some(tag + ": feed yarn"));
    MoveThenEmit(plunged, plunged.(extrusionMm := extrusion), feedCommand, Some(tag + ": feed yarn"));
    var t := Emitted(fed.(zMm := SAFE_Z_MM), RaiseCommand(rt), Some(tag + ": raise"));
    MoveThenEmit(fed, fed.(zMm := SAFE_Z_MM), RaiseCommand(rt), Some(tag + ": raise"));
    ExtendsTransitive(s, plunged, fed);
    ExtendsTransitive(s, fed, t);
    StitchStrokesAre(rt, s, profile, tag, plunged, fed, t);
  }

  /** The three strokes, state by state. */
  lemma StitchStrokesAre(rt: Runtime, s: TranslatorState, profile: StitchProfile, tag: string,
                         plunged: TranslatorState, fed: TranslatorState, t: TranslatorState)
    requires plunged == Emitted(s.(zMm := FABRIC_PLANE_Z_MM - profile.plungeDepthMm),
      "G1 Z" + rt.fixed2(FABRIC_PLANE_Z_MM - profile.plungeDepthMm) + " F" + NatToString(PLUNGE_FEED_RATE),
      Some(tag + ": plunge"))
    requires fed == Emitted(plunged.(extrusionMm := plunged.extrusionMm + profile.yarnFeedMm),
      "G1 E" + rt.fixed2(plunged.extrusionMm + profile.yarnFeedMm) + " F" + NatToString(YARN_FEED_RATE),
      Some(tag + ": feed yarn"))
    requires t == Emitted(fed.(zMm := SAFE_Z_MM), RaiseCommand(rt), Some(tag + ": raise"))
    ensures t == StitchStrokes(rt, s, profile, tag)
  {
  }

  /** One stitch keeps the invariant and only appends, whether or not it raises. */
  lemma StitchAtKeepsInv(ctx: Context, s: TranslatorState, profile: StitchProfile, index: int,
                         count: int, lineNumber: nat)
    requires Inv(s) && Catalogued(profile)
    ensures var r := StitchAt(ctx, s, profile, index, count, lineNumber);
      Inv(r.state) && Extends(s, r.state)
  {
    var tag := StitchLabel(profile, index, count);
    var raised, advanced := StitchAtShape(ctx, s, profile, index, count, lineNumber);
    StitchStrokesKeepInv(ctx.rt, s, profile, tag);
    var newX := raised.xMm + profile.spacingMm;
    MoveThenEmit(raised, raised.(xMm := newX), TravelCommand(ctx.rt, newX, raised.yMm), Some(tag + ": advance"));
    ExtendsTransitive(s, raised, advanced);
    OneOfKeepsInv(s, raised, advanced, StitchAt(ctx, s, profile, index, count, lineNumber).state);
  }

  /** A state that is `s` itself or one of two successors that keep the invariant keeps it too. */
  lemma OneOfKeepsInv(s: TranslatorState, t: TranslatorState, u: TranslatorState, r: TranslatorState)
    requires Inv(s) && Inv(t) && Extends(s, t) && Inv(u) && Extends(s, u)
    requires r == s || r == t || r == u
    ensures Inv(r) && Extends(s, r)
  {
    assert s.lines[..|s.lines|] == s.lines && s.events[..|s.events|] == s.events;
  }

  /** A stitch leaves the state alone, stops after its strokes, or completes the advance. */
  lemma StitchAtShape(ctx: Context, s: TranslatorState, profile: StitchProfile, index: int,
                      count: int, lineNumber: nat)
    returns (raised: TranslatorState, advanced: TranslatorState)
    ensures raised == StitchStrokes(ctx.rt, s, profile, StitchLabel(profile, index, count))
    ensures advanced == Emitted(raised.(xMm := raised.xMm + profile.spacingMm),
      TravelCommand(ctx.rt, raised.xMm + profile.spacingMm, raised.yMm),
      Some(StitchLabel(profile, index, count) + ": advance"))
    ensures var r := StitchAt(ctx, s, profile, index, count, lineNumber);
      r.state == s || r.state == raised || r.state == advanced
  {
    var tag := StitchLabel(profile, index, count);
    raised := StitchStrokes(ctx.rt, s, profile, tag);
    advanced := Emitted(raised.(xMm := raised.xMm + profile.spacingMm),
      TravelCommand(ctx.rt, raised.xMm + profile.spacingMm, raised.yMm), Some(tag + ": advance"));
  }

  /**
   * A successful stitch appends exactly four commands, advances X by the profile's
   * spacing, feeds the profile's yarn length and leaves Y alone; without a machine
   * profile it cannot fail.
   */
  lemma StitchAtEffect(ctx: Context, s: TranslatorState, profile: StitchProfile, index: int,
                       count: int, lineNumber: nat)
    ensures var r := StitchAt(ctx, s, profile, index, count, lineNumber);
      (r.error.None? ==>
        |r.state.lines| == |s.lines| + 4 &&
        r.state.xMm == s.xMm + profile.spacingMm && r.state.yMm == s.yMm &&
        r.state.extrusionMm == s.extrusionMm + profile.yarnFeedMm) &&
      (ctx.profile.None? ==> r.error.None?)
  {
  }

  /** The number of stitches `_emit_stitches` still has to emit from stitch `index` on. */
  function Remaining(index: int, count: int): nat
  {
    if index > count then 0 else count - index + 1
  }

  /** The stitches of a line keep the invariant and only append, whether or not one raises. */
  lemma {:induction false} StitchesFromKeepInv(ctx: Context, s: TranslatorState, profile: StitchProfile,
                                               index: int, count: int, lineNumber: nat)
    requires Inv(s) && Catalogued(profile)
    ensures var r := StitchesFrom(ctx, s, profile, index, count, lineNumber);
      Inv(r.state) && Extends(s, r.state)
    decreases count + 1 - index
  {
    if index <= count {
      StitchAtKeepsInv(ctx, s, profile, index, count, lineNumber);
      var st := StitchAt(ctx, s, profile, index, count, lineNumber);
      if st.error.None? {
        StitchesFromKeepInv(ctx, st.state, profile, index + 1, count, lineNumber);
        ExtendsTransitive(s, st.state, StitchesFrom(ctx, st.state, profile, index + 1, count, lineNumber).state);
      }
    }
  }

  /** The distance covered by n steps of length `step`, added up one step at a time. */
  function Steps(n: nat, step: real): real
  {
    if n == 0 then 0.0 else Steps(n - 1, step) + step
  }

  lemma {:induction false} StepsIsProduct(n: nat, step: real)
    ensures Steps(n, step) == n as real * step
  {
    if n > 0 {
      StepsIsProduct(n - 1, step);
      assert n as real * step == (n - 1) as real * step + step;
    }
  }

  /**
   * A successful run of the stitch loop from `index` appends four commands per stitch
   * left, advances X by a spacing and feeds a yarn length per stitch, and leaves Y alone;
   * without a machine profile it cannot fail.
   */
  lemma {:induction false} StitchesFromSteps(ctx: Context, s: TranslatorState, profile: StitchProfile,
                                             index: int, count: int, lineNumber: nat)
    ensures var r := StitchesFrom(ctx, s, profile, index, count, lineNumber);
      (r.error.None? ==>
        |r.state.lines| == |s.lines| + 4 * Remaining(index, count) &&
        r.state.xMm == s.xMm + Steps(Remaining(index, count), profile.spacingMm) &&
        r.state.yMm == s.yMm &&
        r.state.extrusionMm == s.extrusionMm + Steps(Remaining(index, count), profile.yarnFeedMm)) &&
      (ctx.profile.None? ==> r.error.None?)
    decreases count + 1 - index
  {
    if index <= count {
      StitchAtEffect(ctx, s, profile, index, count, lineNumber);
      var st := StitchAt(ctx, s, profile, index, count, lineNumber);
      if st.error.None? {
        var rest := StitchesFrom(ctx, st.state, profile, index + 1, count, lineNumber);
        StitchesFromSteps(ctx, st.state, profile, index + 1, count, lineNumber);
        StitchesFromContinues(ctx, s, profile, index, count, lineNumber);
        if rest.error.None? {
          StepsCompose(s, st.state, rest.state, Remaining(index + 1, count), Remaining(index, count), profile);
        }
      }
    }
  }

  /** After a stitch that succeeds the loop goes on from the next stitch. */
  lemma StitchesFromContinues(ctx: Context, s: TranslatorState, profile: StitchProfile, index: int,
                              count: int, lineNumber: nat)
    requires index <= count && StitchAt(ctx, s, profile, index, count, lineNumber).error.None?
    ensures StitchesFrom(ctx, s, profile, index, count, lineNumber) ==
      StitchesFrom(ctx, StitchAt(ctx, s, profile, index, count, lineNumber).state, profile, index + 1, count, lineNumber)
  {
  }

  /** One stitch followed by n more is n + 1 stitches. */
  lemma StepsCompose(s: TranslatorState, mid: TranslatorState, t: TranslatorState, n: nat, m: nat,
                     profile: StitchProfile)
    requires m == n + 1
    requires |mid.lines| == |s.lines| + 4 && mid.yMm == s.yMm
    requires mid.xMm == s.xMm + profile.spacingMm && mid.extrusionMm == s.extrusionMm + profile.yarnFeedMm
    requires |t.lines| == |mid.lines| + 4 * n && t.yMm == mid.yMm
    requires t.xMm == mid.xMm + Steps(n, profile.spacingMm)
    requires t.extrusionMm == mid.extrusionMm + Steps(n, profile.yarnFeedMm)
    ensures |t.lines| == |s.lines| + 4 * m && t.yMm == s.yMm
    ensures t.xMm == s.xMm + Steps(m, profile.spacingMm)
    ensures t.extrusionMm == s.extrusionMm + Steps(m, profile.yarnFeedMm)
  {
  }

  /**
   * `t` is `s` after n stitches of `profile`: 4n more commands, X advanced by n
   * spacings, n yarn lengths fed, Y unchanged.
   */
  ghost predicate StitchedBy(s: TranslatorState, t: TranslatorState, n: nat, profile: StitchProfile)
  {
    |t.lines| == |s.lines| + 4 * n &&
    t.xMm == s.xMm + n as real * profile.spacingMm &&
    t.yMm == s.yMm &&
    t.extrusionMm == s.extrusionMm + n as real * profile.yarnFeedMm
  }

  lemma StepsAreStitches(s: TranslatorState, t: TranslatorState, n: nat, profile: StitchProfile)
    requires |t.lines| == |s.lines| + 4 * n && t.yMm == s.yMm
    requires t.xMm == s.xMm + Steps(n, profile.spacingMm)
    requires t.extrusionMm == s.extrusionMm + Steps(n, profile.yarnFeedMm)
    ensures StitchedBy(s, t, n, profile)
  {
    StepsIsProduct(n, profile.spacingMm);
    StepsIsProduct(n, profile.yarnFeedMm);
  }

  /**
   * A successful stitch line of count n is n stitches (none when n is not positive);
   * without a machine profile it cannot fail.
   */
  lemma StitchLineEffect(ctx: Context, s: TranslatorState, profile: StitchProfile, count: int,
                         lineNumber: nat)
    ensures var r := StitchesFrom(ctx, s, profile, 1, count, lineNumber);
      (r.error.None? ==> StitchedBy(s, r.state, if count < 1 then 0 else count, profile)) &&
      (ctx.profile.None? ==> r.error.None?)
  {
    StitchesFromSteps(ctx, s, profile, 1, count, lineNumber);
    var r := StitchesFrom(ctx, s, profile, 1, count, lineNumber);
    if r.error.None? {
      StepsAreStitches(s, r.state, Remaining(1, count), profile);
    }
  }

  /** Between lines the needle is already at the safe height, so the raise emits nothing. */
  lemma SafeHeightIdle(ctx: Context, s: TranslatorState)
    requires s.zMm == SAFE_Z_MM
    ensures SafeHeightStep(ctx, s) == Step(s, None)
  {
  }

  /** Off the safe height, and without a profile to object, the raise is one Z move. */
  lemma SafeHeightRaises(ctx: Context, s: TranslatorState)
    requires s.zMm != SAFE_Z_MM && ctx.profile.None?
    ensures SafeHeightStep(ctx, s) ==
      Step(Emitted(s.(zMm := SAFE_Z_MM), RaiseCommand(ctx.rt), Some("raise to safe height")), None)
  {
  }

  /**
   * MOVE: an argument count below two is refused before anything else; otherwise the
   * line succeeds exactly when both values are finite, positive and within the limits,
   * and then moves to them with one travel command. More than two arguments are accepted.
   */
  lemma MoveEffect(ctx: Context, s: TranslatorState, arguments: seq<string>, lineNumber: nat)
    requires Inv(s)
    ensures |arguments| < 2 ==> MoveStep(ctx, s, arguments, lineNumber) == Step(s, Some(MissingCoordinates(lineNumber)))
    ensures |arguments| >= 2 ==>
      var r := MoveStep(ctx, s, arguments, lineNumber);
      var x := ParseFloat(ctx.rt, arguments[0], lineNumber, "MOVE");
      var y := ParseFloat(ctx.rt, arguments[1], lineNumber, "MOVE");
      (r.error.None? <==>
        x.Success? && y.Success? && x.value > 0.0 && y.value > 0.0 &&
        LimitCheck(ctx.profile, "X", x.value, Some(lineNumber)).None? &&
        LimitCheck(ctx.profile, "Y", y.value, Some(lineNumber)).None?) &&
      (r.error.None? ==>
        r.state == Emitted(s.(xMm := x.value, yMm := y.value), TravelCommand(ctx.rt, x.value, y.value),
                           Some("reposition"))) &&
      (r.error.Some? ==> r.state == s)
  {
  }

  /**
   * PAUSE: exactly one finite positive value; the only effect is one dwell command of
   * that many seconds rounded half-to-even to milliseconds.
   */
  lemma PauseEffect(ctx: Context, s: TranslatorState, arguments: seq<string>, lineNumber: nat)
    ensures var r := PauseStep(ctx, s, arguments, lineNumber);
      (r.error.None? <==>
        |arguments| == 1 && ParseFloat(ctx.rt, arguments[0], lineNumber, "PAUSE").Success? &&
        ParseFloat(ctx.rt, arguments[0], lineNumber, "PAUSE").value > 0.0) &&
      (r.error.None? ==>
        var seconds := ParseFloat(ctx.rt, arguments[0], lineNumber, "PAUSE").value;
        r.state == Emitted(s, "G4 P" + IntToString(RoundHalfEven(seconds * 1000.0)),
                           Some("pause for " + ctx.rt.fixed3(seconds) + " s")) &&
        -0.5 <= seconds * 1000.0 - RoundHalfEven(seconds * 1000.0) as real <= 0.5) &&
      (r.error.Some? ==> r.state == s)
  {
  }

  /**
   * TURN: at most one value (6 mm when omitted), finite and positive; it returns X to 0
   * and advances Y by the step, emitting one travel command.
   */
  lemma TurnEffect(ctx: Context, s: TranslatorState, arguments: seq<string>, lineNumber: nat)
    requires Inv(s)
    ensures var r := TurnStep(ctx, s, arguments, lineNumber);
      var step := if arguments == [] then Success(DEFAULT_ROW_HEIGHT)
                  else ParseFloat(ctx.rt, arguments[0], lineNumber, "TURN");
      (|arguments| > 1 ==> r == Step(s, Some(TurnArity(lineNumber)))) &&
      (|arguments| <= 1 ==>
        (r.error.None? <==>
          step.Success? && step.value > 0.0 &&
          LimitCheck(ctx.profile, "X", 0.0, Some(lineNumber)).None? &&
          LimitCheck(ctx.profile, "Y", s.yMm + step.value, Some(lineNumber)).None?) &&
        (r.error.None? ==>
          r.state == Emitted(s.(xMm := 0.0, yMm := s.yMm + step.value),
                             TravelCommand(ctx.rt, 0.0, s.yMm + step.value), Some("turn to next row"))))
  {
  }

  lemma SafeHeightKeepsInv(ctx: Context, s: TranslatorState)
    requires Inv(s)
    ensures SafeHeightStep(ctx, s) == Step(s, None)
  {
  }

  lemma MoveKeepsInv(ctx: Context, s: TranslatorState, arguments: seq<string>, lineNumber: nat)
    requires Inv(s)
    ensures var r := MoveStep(ctx, s, arguments, lineNumber); Inv(r.state) && Extends(s, r.state)
  {
    MoveEffect(ctx, s, arguments, lineNumber);
    if |arguments| >= 2 {
      var x := ParseFloat(ctx.rt, arguments[0], lineNumber, "MOVE");
      var y := ParseFloat(ctx.rt, arguments[1], lineNumber, "MOVE");
      if x.Success? && y.Success? {
        var t := s.(xMm := x.value, yMm := y.value);
        UpdateKeepsConsistent(s, t);
        EmittedKeepsConsistent(t, TravelCommand(ctx.rt, x.value, y.value), Some("reposition"));
      }
    }
  }

  lemma PauseKeepsInv(ctx: Context, s: TranslatorState, arguments: seq<string>, lineNumber: nat)
    requires Inv(s)
    ensures var r := PauseStep(ctx, s, arguments, lineNumber); Inv(r.state) && Extends(s, r.state)
  {
    if |arguments| == 1 {
      var seconds := ParseFloat(ctx.rt, arguments[0], lineNumber, "PAUSE");
      if seconds.Success? {
        EmittedKeepsConsistent(s, "G4 P" + IntToString(RoundHalfEven(seconds.value * 1000.0)),
                               Some("pause for " + ctx.rt.fixed3(seconds.value) + " s"));
      }
    }
  }

  lemma TurnKeepsInv(ctx: Context, s: TranslatorState, arguments: seq<string>, lineNumber: nat)
    requires Inv(s)
    ensures var r := TurnStep(ctx, s, arguments, lineNumber); Inv(r.state) && Extends(s, r.state)
  {
    var height := TurnStepShape(ctx, s, arguments, lineNumber);
    var atRowStart := s.(xMm := 0.0);
    UpdateKeepsConsistent(s, atRowStart);
    var newY := s.yMm + height;
    MoveThenEmit(s, atRowStart.(yMm := newY), TravelCommand(ctx.rt, 0.0, newY), Some("turn to next row"));
  }

  /** From the safe height a turn leaves the state alone, only returns X to 0, or completes the travel move. */
  lemma TurnStepShape(ctx: Context, s: TranslatorState, arguments: seq<string>, lineNumber: nat)
    returns (height: real)
    requires s.zMm == SAFE_Z_MM
    ensures var r := TurnStep(ctx, s, arguments, lineNumber);
      r.state == s || r.state == s.(xMm := 0.0) ||
      r.state == Emitted(s.(xMm := 0.0, yMm := s.yMm + height), TravelCommand(ctx.rt, 0.0, s.yMm + height),
                         Some("turn to next row"))
  {
    SafeHeightIdle(ctx, s);
    height := 0.0;
    if |arguments| <= 1 {
      var step := if arguments == [] then Success(DEFAULT_ROW_HEIGHT)
                  else ParseFloat(ctx.rt, arguments[0], lineNumber, "TURN");
      if step.Success? {
        height := step.value;
      }
    }
  }

  /** Every pattern line keeps the invariant and only appends, whether or not it raises. */
  lemma LineKeepsInv(ctx: Context, s: TranslatorState, rawLine: string, lineNumber: nat)
    requires Inv(s)
    ensures var r := LineStep(ctx, s, rawLine, lineNumber); Inv(r.state) && Extends(s, r.state)
  {
    if !IsSkipped(rawLine) {
      var command := Keyword(rawLine);
      var arguments := Arguments(rawLine);
      if command in STITCH_PROFILES {
        var count := ParsePositiveInt(ctx.rt, arguments, lineNumber, command);
        if count.Success? {
          CatalogueProfiles(command);
          StitchesFromKeepInv(ctx, s, STITCH_PROFILES[command], 1, count.value, lineNumber);
        }
      } else if command == "MOVE" {
        MoveKeepsInv(ctx, s, arguments, lineNumber);
      } else if command == "PAUSE" {
        PauseKeepsInv(ctx, s, arguments, lineNumber);
      } else if command == "TURN" {
        TurnKeepsInv(ctx, s, arguments, lineNumber);
      }
    }
  }

  lemma {:induction false} LinesKeepInv(ctx: Context, s: TranslatorState, rawLines: seq<string>,
                                        lineNumber: nat)
    requires Inv(s)
    ensures var r := LinesFrom(ctx, s, rawLines, lineNumber); Inv(r.state) && Extends(s, r.state)
    decreases |rawLines|
  {
    if rawLines != [] {
      LineKeepsInv(ctx, s, rawLines[0], lineNumber);
      var st := LineStep(ctx, s, rawLines[0], lineNumber);
      if st.error.None? {
        LinesKeepInv(ctx, st.state, rawLines[1..], lineNumber + 1);
        ExtendsTransitive(s, st.state, LinesFrom(ctx, st.state, rawLines[1..], lineNumber + 1).state);
      }
    }
  }

  lemma ResetEstablishesInv(rt: Runtime)
    ensures Inv(AfterReset(rt))
  {
    var s1 := Emitted(INITIAL_STATE, "G21", Some("use millimeters"));
    var s2 := Emitted(s1, "G90", Some("absolute positioning"));
    EmittedKeepsConsistent(INITIAL_STATE, "G21", Some("use millimeters"));
    EmittedKeepsConsistent(s1, "G90", Some("absolute positioning"));
    EmittedKeepsConsistent(s2, ZeroAxesCommand(rt), Some("zero axes"));
  }

  /** What the invariant says about a translation's final state `r`, spelled out. */
  lemma ExtendedResetInvariants(rt: Runtime, r: TranslatorState)
    requires Inv(r) && Extends(AfterReset(rt), r)
    ensures |r.lines| == |r.events| && |r.lines| >= 3 &&
      r.lines[..3] == AfterReset(rt).lines &&
      r.events[..3] == AfterReset(rt).events &&
      (forall i | 0 <= i < 3 :: r.events[i].xMm == 0.0 && r.events[i].yMm == 0.0 &&
                                r.events[i].zMm == SAFE_Z_MM && r.events[i].extrusionMm == 0.0) &&
      (forall i | 0 <= i < |r.lines| ::
        r.lines[i].command == r.events[i].command && r.lines[i].comment == r.events[i].comment) &&
      (forall i | 0 <= i < |r.events| :: ZAllowed(r.events[i].zMm)) &&
      (forall i, j | 0 <= i < j < |r.events| :: r.events[i].extrusionMm <= r.events[j].extrusionMm) &&
      r.zMm == SAFE_Z_MM
  {
    var s0 := AfterReset(rt);
    forall i | 0 <= i < 3
      ensures r.events[i].xMm == 0.0 && r.events[i].yMm == 0.0 &&
              r.events[i].zMm == SAFE_Z_MM && r.events[i].extrusionMm == 0.0
    {
      assert r.events[i] == r.events[..3][i] == s0.events[i];
    }
  }

  /**
   * After any translation, successful or not: the buffers are aligned, so there are as
   * many planner events as lines; the first three entries are the G21/G90/G92 preamble
   * at (0, 0, SAFE_Z_MM, 0), whatever the translator held before; every snapshot's Z is
   * the safe height or a profile's plunge depth; extrusion never decreases; and the
   * needle ends at the safe height.
   */
  lemma TranslateInvariants(ctx: Context, source: string)
    ensures var r := TranslateStep(ctx, source).state;
      |r.lines| == |r.events| && |r.lines| >= 3 &&
      r.lines[..3] == AfterReset(ctx.rt).lines &&
      r.events[..3] == AfterReset(ctx.rt).events &&
      (forall i | 0 <= i < 3 :: r.events[i].xMm == 0.0 && r.events[i].yMm == 0.0 &&
                                r.events[i].zMm == SAFE_Z_MM && r.events[i].extrusionMm == 0.0) &&
      (forall i | 0 <= i < |r.lines| ::
        r.lines[i].command == r.events[i].command && r.lines[i].comment == r.events[i].comment) &&
      (forall i | 0 <= i < |r.events| :: ZAllowed(r.events[i].zMm)) &&
      (forall i, j | 0 <= i < j < |r.events| :: r.events[i].extrusionMm <= r.events[j].extrusionMm) &&
      r.zMm == SAFE_Z_MM
  {
    var s0 := AfterReset(ctx.rt);
    ResetEstablishesInv(ctx.rt);
    LinesKeepInv(ctx, s0, SplitLines(source), 1);
    var r := LinesFrom(ctx, s0, SplitLines(source), 1);
    assert TranslateStep(ctx, source) == r;
    ExtendedResetInvariants(ctx.rt, r.state);
  }

  /**
   * After `translate`, `planner_events` holds one snapshot per returned line, each
   * with that line's command and comment, starting from the three preamble snapshots.
   */
  lemma PlannerEventsAfterTranslate(t: PatternTranslator, source: string)
    requires t.State() == TranslateStep(t.Ctx(), source).state
    ensures |t.PlannerEvents()| == |t.lines| >= 3
    ensures forall i | 0 <= i < |t.lines| ::
      t.PlannerEvents()[i].command == t.lines[i].command && t.PlannerEvents()[i].comment == t.lines[i].comment
    ensures t.PlannerEvents()[..3] == AfterReset(t.rt).events
  {
    TranslateInvariants(t.Ctx(), source);
  }

  /** A line that is blank or starts with `#` (after stripping) emits nothing and cannot fail. */
  lemma SkippedLineIsIdle(ctx: Context, s: TranslatorState, rawLine: string, lineNumber: nat)
    requires IsSkipped(rawLine)
    ensures LineStep(ctx, s, rawLine, lineNumber) == Step(s, None)
  {
  }

  /** Lines that agree on their upper-cased keyword and their arguments are translated alike. */
  lemma KeywordIgnoresCase(ctx: Context, s: TranslatorState, line1: string, line2: string,
                           lineNumber: nat)
    requires !IsSkipped(line1) && !IsSkipped(line2)
    requires Keyword(line1) == Keyword(line2) && Arguments(line1) == Arguments(line2)
    ensures LineStep(ctx, s, line1, lineNumber) == LineStep(ctx, s, line2, lineNumber)
  {
  }

  /** A keyword outside the seven commands raises "Unknown command" with its line number. */
  lemma UnknownKeywordFails(ctx: Context, s: TranslatorState, rawLine: string, lineNumber: nat)
    requires !IsSkipped(rawLine)
    requires Keyword(rawLine) !in STITCH_PROFILES
    requires Keyword(rawLine) != "MOVE" && Keyword(rawLine) != "PAUSE" && Keyword(rawLine) != "TURN"
    ensures LineStep(ctx, s, rawLine, lineNumber) ==
      Step(s, Some(UnknownCommand(Keyword(rawLine), lineNumber)))
  {
  }

  /**
   * A stitch line fails when its count is missing, not an integer or not positive,
   * and then emits nothing.
   */
  lemma StitchCountErrors(ctx: Context, s: TranslatorState, rawLine: string, lineNumber: nat)
    requires !IsSkipped(rawLine) && Keyword(rawLine) in STITCH_PROFILES
    ensures var args := Arguments(rawLine);
      var r := LineStep(ctx, s, rawLine, lineNumber);
      (args == [] ==> r == Step(s, Some(MissingCount(Keyword(rawLine), lineNumber)))) &&
      (args != [] && ctx.rt.parseInt(args[0]).None? ==>
        r == Step(s, Some(NonIntegerCount(Keyword(rawLine), lineNumber)))) &&
      (args != [] && ctx.rt.parseInt(args[0]).Some? && ctx.rt.parseInt(args[0]).value <= 0 ==>
        r == Step(s, Some(NonPositiveCount(Keyword(rawLine), lineNumber))))
  {
  }

  /** The line number an error message names, if any. */
  function ErrorLine(e: TranslateError): Option<nat>
  {
    match e
    case Limit(MissingAxis(_)) => None
    case Limit(OutOfRange(_, _, _, _, lineNumber)) => lineNumber
    case _ => Some(e.lineNumber)
  }

  /** `e` names line `n`, or no line at all. */
  predicate NamesLine(e: TranslateError, n: nat)
  {
    ErrorLine(e).None? || ErrorLine(e) == Some(n)
  }

  lemma LimitCheckNamesLine(profile: Option<MachineProfile>, axis: string, positionMm: real,
                            lineNumber: Option<nat>)
    ensures var r := LimitCheck(profile, axis, positionMm, lineNumber);
      r.Some? ==> ErrorLine(r.value).None? || ErrorLine(r.value) == lineNumber
  {
  }

  lemma {:induction false} StitchesErrorLine(ctx: Context, s: TranslatorState, profile: StitchProfile,
                                             index: int, count: int, lineNumber: nat)
    ensures var r := StitchesFrom(ctx, s, profile, index, count, lineNumber);
      r.error.Some? ==> NamesLine(r.error.value, lineNumber)
    decreases count + 1 - index
  {
    if index <= count {
      LimitCheckNamesLine(ctx.profile, "Z", FABRIC_PLANE_Z_MM - profile.plungeDepthMm, Some(lineNumber));
      LimitCheckNamesLine(ctx.profile, "Z", SAFE_Z_MM, Some(lineNumber));
      var tag := StitchLabel(profile, index, count);
      var raised := StitchStrokes(ctx.rt, s, profile, tag);
      LimitCheckNamesLine(ctx.profile, "X", raised.xMm + profile.spacingMm, Some(lineNumber));
      var st := StitchAt(ctx, s, profile, index, count, lineNumber);
      if st.error.None? {
        StitchesErrorLine(ctx, st.state, profile, index + 1, count, lineNumber);
      }
    }
  }

  lemma MoveErrorLine(ctx: Context, s: TranslatorState, arguments: seq<string>, lineNumber: nat)
    ensures var r := MoveStep(ctx, s, arguments, lineNumber);
      r.error.Some? ==> NamesLine(r.error.value, lineNumber)
  {
    LimitCheckNamesLine(ctx.profile, "Z", SAFE_Z_MM, None);
    if |arguments| >= 2 {
      var x := ParseFloat(ctx.rt, arguments[0], lineNumber, "MOVE");
      var y := ParseFloat(ctx.rt, arguments[1], lineNumber, "MOVE");
      if x.Success? && y.Success? {
        LimitCheckNamesLine(ctx.profile, "X", x.value, Some(lineNumber));
        LimitCheckNamesLine(ctx.profile, "Y", y.value, Some(lineNumber));
      }
    }
  }

  lemma TurnErrorLine(ctx: Context, s: TranslatorState, arguments: seq<string>, lineNumber: nat)
    ensures var r := TurnStep(ctx, s, arguments, lineNumber);
      r.error.Some? ==> NamesLine(r.error.value, lineNumber)
  {
    LimitCheckNamesLine(ctx.profile, "Z", SAFE_Z_MM, None);
    if |arguments| <= 1 {
      var t := SafeHeightStep(ctx, s).state;
      var step := if arguments == [] then Success(DEFAULT_ROW_HEIGHT)
                  else ParseFloat(ctx.rt, arguments[0], lineNumber, "TURN");
      LimitCheckNamesLine(ctx.profile, "X", 0.0, Some(lineNumber));
      if step.Success? {
        LimitCheckNamesLine(ctx.profile, "Y", t.yMm + step.value, Some(lineNumber));
      }
    }
  }

  lemma PauseErrorLine(ctx: Context, s: TranslatorState, arguments: seq<string>, lineNumber: nat)
    ensures var r := PauseStep(ctx, s, arguments, lineNumber);
      r.error.Some? ==> NamesLine(r.error.value, lineNumber)
  {
  }

  lemma CountErrorLine(rt: Runtime, arguments: seq<string>, lineNumber: nat, command: string)
    ensures var r := ParsePositiveInt(rt, arguments, lineNumber, command);
      r.Failure? ==> NamesLine(r.error, lineNumber)
  {
  }

  /**
   * An error raised by a line names that line's number, or no line at all (the safe
   * height check between commands, and an axis the profile lacks, name none).
   */
  lemma LineErrorNamesLine(ctx: Context, s: TranslatorState, rawLine: string, lineNumber: nat)
    ensures var r := LineStep(ctx, s, rawLine, lineNumber);
      r.error.Some? ==> NamesLine(r.error.value, lineNumber)
  {
    if !IsSkipped(rawLine) {
      var command := Keyword(rawLine);
      var arguments := Arguments(rawLine);
      if command in STITCH_PROFILES {
        var count := ParsePositiveInt(ctx.rt, arguments, lineNumber, command);
        CountErrorLine(ctx.rt, arguments, lineNumber, command);
        if count.Success? {
          StitchesErrorLine(ctx, s, STITCH_PROFILES[command], 1, count.value, lineNumber);
        }
      } else if command == "MOVE" {
        MoveErrorLine(ctx, s, arguments, lineNumber);
      } else if command == "PAUSE" {
        PauseErrorLine(ctx, s, arguments, lineNumber);
      } else if command == "TURN" {
        TurnErrorLine(ctx, s, arguments, lineNumber);
      }
    }
  }

  /** The index of the first line that raises, or the number of lines when none does. */
  function FailureIndex(ctx: Context, s: TranslatorState, rawLines: seq<string>, lineNumber: nat): (k: nat)
    ensures k <= |rawLines|
    decreases |rawLines|
  {
    if rawLines == [] then 0
    else
      var st := LineStep(ctx, s, rawLines[0], lineNumber);
      if st.error.Some? then 0 else 1 + FailureIndex(ctx, st.state, rawLines[1..], lineNumber + 1)
  }

  /**
   * The first failing line stops the translation: the k lines before it all succeed;
   * the result is line k's step, run on the state those lines left behind, with
   * `lineNumber` + k as its number (skipped lines are counted too); and when no line
   * fails the loop returns normally.
   */
  lemma {:induction false} FirstErrorStops(ctx: Context, s: TranslatorState, rawLines: seq<string>,
                                           lineNumber: nat)
    ensures var r := LinesFrom(ctx, s, rawLines, lineNumber);
      var k := FailureIndex(ctx, s, rawLines, lineNumber);
      var before := LinesFrom(ctx, s, rawLines[..k], lineNumber);
      before.error.None? &&
      (k < |rawLines| ==>
        r == LineStep(ctx, before.state, rawLines[k], lineNumber + k) && r.error.Some?) &&
      (k == |rawLines| ==> r == before)
    decreases |rawLines|, 1
  {
    if rawLines == [] {
      assert rawLines[..0] == [];
    } else if LineStep(ctx, s, rawLines[0], lineNumber).error.Some? {
      FirstLineFails(ctx, s, rawLines, lineNumber);
    } else {
      FirstLineSucceeds(ctx, s, rawLines, lineNumber);
    }
  }

  /** When the first line raises, nothing runs before it and its step is the result. */
  lemma FirstLineFails(ctx: Context, s: TranslatorState, rawLines: seq<string>, lineNumber: nat)
    requires rawLines != [] && LineStep(ctx, s, rawLines[0], lineNumber).error.Some?
    ensures FailureIndex(ctx, s, rawLines, lineNumber) == 0
    ensures LinesFrom(ctx, s, rawLines[..0], lineNumber) == Step(s, None)
    ensures LinesFrom(ctx, s, rawLines, lineNumber) == LineStep(ctx, s, rawLines[0], lineNumber)
  {
    assert rawLines[..0] == [];
    LinesFromFirst(ctx, s, rawLines, lineNumber);
  }

  /** When the first line succeeds, the first failure is the one of the remaining lines, one further on. */
  lemma {:induction false} FirstLineSucceeds(ctx: Context, s: TranslatorState, rawLines: seq<string>,
                                             lineNumber: nat)
    requires rawLines != [] && LineStep(ctx, s, rawLines[0], lineNumber).error.None?
    ensures var r := LinesFrom(ctx, s, rawLines, lineNumber);
      var k := FailureIndex(ctx, s, rawLines, lineNumber);
      var before := LinesFrom(ctx, s, rawLines[..k], lineNumber);
      before.error.None? &&
      (k < |rawLines| ==>
        r == LineStep(ctx, before.state, rawLines[k], lineNumber + k) && r.error.Some?) &&
      (k == |rawLines| ==> r == before)
    decreases |rawLines|, 0
  {
    var st := LineStep(ctx, s, rawLines[0], lineNumber);
    LinesFromFirst(ctx, s, rawLines, lineNumber);
    var rest := rawLines[1..];
    FirstErrorStops(ctx, st.state, rest, lineNumber + 1);
    var k := FailureIndex(ctx, st.state, rest, lineNumber + 1);
    PrefixAfterFirst(ctx, s, rawLines, lineNumber, k);
    var before := LinesFrom(ctx, st.state, rest[..k], lineNumber + 1);
    if k < |rest| {
      FailureShifts(ctx, s, rawLines, lineNumber, k, before);
    } else {
      assert rawLines[..k + 1] == rawLines;
    }
  }

  /** After a first line that succeeds, the lines up to k + 1 run as the remaining lines up to k. */
  lemma PrefixAfterFirst(ctx: Context, s: TranslatorState, rawLines: seq<string>, lineNumber: nat, k: nat)
    requires rawLines != [] && LineStep(ctx, s, rawLines[0], lineNumber).error.None?
    requires k < |rawLines|
    ensures FailureIndex(ctx, s, rawLines, lineNumber) ==
      1 + FailureIndex(ctx, LineStep(ctx, s, rawLines[0], lineNumber).state, rawLines[1..], lineNumber + 1)
    ensures LinesFrom(ctx, s, rawLines[..k + 1], lineNumber) ==
      LinesFrom(ctx, LineStep(ctx, s, rawLines[0], lineNumber).state, rawLines[1..][..k], lineNumber + 1)
  {
    var prefix := rawLines[..k + 1];
    assert prefix[0] == rawLines[0] && prefix[1..] == rawLines[1..][..k];
    LinesFromFirst(ctx, s, prefix, lineNumber);
  }

  /** The failing line, seen from the line after the first, is the same step on the same state. */
  lemma FailureShifts(ctx: Context, s: TranslatorState, rawLines: seq<string>, lineNumber: nat,
                      k: nat, before: Step)
    requires rawLines != [] && LineStep(ctx, s, rawLines[0], lineNumber).error.None?
    requires k + 1 < |rawLines|
    requires before == LinesFrom(ctx, s, rawLines[..k + 1], lineNumber)
    requires LinesFrom(ctx, LineStep(ctx, s, rawLines[0], lineNumber).state, rawLines[1..], lineNumber + 1) ==
      LineStep(ctx, before.state, rawLines[1..][k], lineNumber + 1 + k)
    ensures LinesFrom(ctx, s, rawLines, lineNumber) == LineStep(ctx, before.state, rawLines[k + 1], lineNumber + (k + 1))
  {
    LinesFromFirst(ctx, s, rawLines, lineNumber);
    assert rawLines[1..][k] == rawLines[k + 1];
  }
}
