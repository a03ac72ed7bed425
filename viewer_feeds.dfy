/**
 * The viewer's yarn-feed detection (`computeYarnFeedIndices`): given the planner's
 * events in order, the indices of the events that feed yarn, either because their
 * comment mentions a feed or because their extrusion rises by more than 0.01 mm
 * over the last finite extrusion seen.
 */
module ViewerFeeds {
  import opened Wrappers
  import opened Numbers
  import opened Js
  import opened Text
  import opened Seqs

  /** The smallest rise in extrusion that counts as a feed. */
  const FEED_DELTA_TOLERANCE: real := 0.01

  /** An event the scan looks at: a truthy value whose `typeof` is `'object'`. */
  predicate IsEvent(event: JsValue)
  {
    Truthy(event) && IsObjectType(event)
  }

  /** `event.comment` when it is a string, otherwise the empty string. */
  function CommentOf(event: JsValue): string
  {
    var c := Get(event, "comment");
    if c.Str? then c.s else ""
  }

  /** A non-empty comment that `/feed/i` matches: "feed" in any ASCII letter case. */
  predicate MentionsFeed(comment: string)
  {
    comment != "" && ContainsPiece(Lower(comment), "feed")
  }

  /** `Number(event.extrusion)` when it is finite. */
  function ExtrusionOf(rt: JsRuntime, event: JsValue): Option<real>
  {
    var x := ToNumber(rt, Get(event, "extrusion"));
    if x.Finite? then Some(x.value) else None
  }

  /** The starting `previousExtrusion`: the baseline when it is a finite number. */
  function Baseline(baselineExtrusion: JsValue): Option<real>
  {
    if IsFiniteNumber(baselineExtrusion) then Some(baselineExtrusion.n.value) else None
  }

  /** Whether the scan flags `event` when the last finite extrusion seen is `previous`. */
  predicate Flagged(rt: JsRuntime, event: JsValue, previous: Option<real>)
  {
    IsEvent(event) &&
    (MentionsFeed(CommentOf(event)) ||
     (ExtrusionOf(rt, event).Some? && previous.Some? &&
      ExtrusionOf(rt, event).value - previous.value > FEED_DELTA_TOLERANCE))
  }

  /** `previousExtrusion` after the scan has visited `events`. */
  function Previous(rt: JsRuntime, events: seq<JsValue>, baseline: Option<real>): Option<real>
  {
    if events == [] then baseline
    else
      var event := events[|events| - 1];
      var before := Previous(rt, events[..|events| - 1], baseline);
      if SetsExtrusion(rt, event) then ExtrusionOf(rt, event) else before
  }

  /** The indices the scan flags among `events`, in visit order. */
  function Feeds(rt: JsRuntime, events: seq<JsValue>, baseline: Option<real>): seq<nat>
  {
    if events == [] then []
    else
      var front := events[..|events| - 1];
      Feeds(rt, front, baseline) +
        (if Flagged(rt, events[|events| - 1], Previous(rt, front, baseline)) then [|events| - 1] else [])
  }

  /** What `computeYarnFeedIndices(events, baselineExtrusion)` returns. */
  function FeedIndices(rt: JsRuntime, events: JsValue, baselineExtrusion: JsValue): seq<nat>
  {
    if events.Arr? then Feeds(rt, events.items, Baseline(baselineExtrusion)) else []
  }

  /** An event the scan can read a finite extrusion from. */
  predicate SetsExtrusion(rt: JsRuntime, event: JsValue)
  {
    IsEvent(event) && ExtrusionOf(rt, event).Some?
  }

  /** Visiting one more event: its index joins if flagged, and its extrusion becomes the previous one. */
  lemma ScanSnoc(rt: JsRuntime, events: seq<JsValue>, baseline: Option<real>, i: nat)
    requires i < |events|
    ensures Feeds(rt, events[..i + 1], baseline) == Feeds(rt, events[..i], baseline) +
      (if Flagged(rt, events[i], Previous(rt, events[..i], baseline)) then [i] else [])
    ensures Previous(rt, events[..i + 1], baseline) ==
      if SetsExtrusion(rt, events[i]) then ExtrusionOf(rt, events[i]) else Previous(rt, events[..i], baseline)
  {
    assert events[..i + 1][..i] == events[..i];
  }

  /** `computeYarnFeedIndices`: one pass over the events, adding flagged indices to a set. */
  method ComputeYarnFeedIndices(rt: JsRuntime, events: JsValue, baselineExtrusion: JsValue)
    returns (indices: seq<nat>)
    ensures indices == FeedIndices(rt, events, baselineExtrusion)
  {
    if !events.Arr? || |events.items| == 0 {
      return [];
    }
    var items := events.items;
    ghost var baseline := Baseline(baselineExtrusion);
    var feedIndices: seq<nat> := [];
    var previousExtrusion := Baseline(baselineExtrusion);
    var index := 0;
    while index < |items|
      invariant 0 <= index <= |items|
      invariant feedIndices == Feeds(rt, items[..index], baseline)
      invariant previousExtrusion == Previous(rt, items[..index], baseline)
      invariant forall k | 0 <= k < |feedIndices| :: feedIndices[k] < index
    {
      var event := items[index];
      ScanSnoc(rt, items, baseline, index);
      if IsEvent(event) {
        var byComment := MentionsFeed(CommentOf(event));
        if byComment {
          feedIndices := feedIndices + [index];
        }
        var extrusion := ExtrusionOf(rt, event);
        if extrusion.Some? {
          if previousExtrusion.Some? {
            var delta := extrusion.value - previousExtrusion.value;
            if delta > FEED_DELTA_TOLERANCE && index !in feedIndices {
              feedIndices := feedIndices + [index];
            }
          }
          previousExtrusion := extrusion;
        }
      }
      index := index + 1;
    }
    assert items[..index] == items;
    indices := feedIndices;
  }

  // ---------------------------------------------------------------------------
  // What the scan computes
  // ---------------------------------------------------------------------------

  /** The flagged indices are valid positions, strictly ascending, hence distinct. */
  lemma {:induction false} FeedsAscending(rt: JsRuntime, events: seq<JsValue>, baseline: Option<real>)
    ensures forall k | 0 <= k < |Feeds(rt, events, baseline)| :: Feeds(rt, events, baseline)[k] < |events|
    ensures forall j, k | 0 <= j < k < |Feeds(rt, events, baseline)| ::
      Feeds(rt, events, baseline)[j] < Feeds(rt, events, baseline)[k]
  {
    if events != [] {
      FeedsAscending(rt, events[..|events| - 1], baseline);
    }
  }

  /** Index `i` is flagged exactly when event `i` is, given the extrusion seen before it. */
  lemma {:induction false} FeedsExactly(rt: JsRuntime, events: seq<JsValue>, baseline: Option<real>, i: nat)
    requires i < |events|
    ensures i in Feeds(rt, events, baseline) <==> Flagged(rt, events[i], Previous(rt, events[..i], baseline))
  {
    var front := events[..|events| - 1];
    FeedsAscending(rt, front, baseline);
    if i < |front| {
      FeedsExactly(rt, front, baseline, i);
      assert front[..i] == events[..i];
      assert front[i] == events[i];
    } else {
      assert events[..i] == front;
    }
  }

  /** With no event carrying a finite extrusion, `previousExtrusion` stays the baseline. */
  lemma {:induction false} PreviousWithoutExtrusion(rt: JsRuntime, events: seq<JsValue>, baseline: Option<real>)
    requires forall j | 0 <= j < |events| :: !SetsExtrusion(rt, events[j])
    ensures Previous(rt, events, baseline) == baseline
  {
    if events != [] {
      var front := events[..|events| - 1];
      assert forall j | 0 <= j < |front| :: front[j] == events[j];
      PreviousWithoutExtrusion(rt, front, baseline);
    }
  }

  /**
   * `previousExtrusion` is the extrusion of the last event that has a finite one:
   * later skipped events and non-finite extrusions leave it alone.
   */
  lemma {:induction false} PreviousIsLatest(rt: JsRuntime, events: seq<JsValue>, baseline: Option<real>, j: nat)
    requires j < |events| && SetsExtrusion(rt, events[j])
    requires forall k | j < k < |events| :: !SetsExtrusion(rt, events[k])
    ensures Previous(rt, events, baseline) == ExtrusionOf(rt, events[j])
  {
    if j < |events| - 1 {
      var front := events[..|events| - 1];
      assert forall k | 0 <= k < |front| :: front[k] == events[k];
      PreviousIsLatest(rt, front, baseline, j);
    }
  }

  /** A value that is not an array, or an empty array, has no feeds. */
  lemma NoEventsNoFeeds(rt: JsRuntime, events: JsValue, baselineExtrusion: JsValue)
    requires !events.Arr? || events.items == []
    ensures FeedIndices(rt, events, baselineExtrusion) == []
  {
  }

  /** A fall in extrusion, or a rise of at most 0.01, flags nothing without a feed comment. */
  lemma SmallRiseNotFlagged(rt: JsRuntime, event: JsValue, previous: Option<real>)
    requires !MentionsFeed(CommentOf(event))
    requires previous.Some? && ExtrusionOf(rt, event).Some?
    requires ExtrusionOf(rt, event).value <= previous.value + FEED_DELTA_TOLERANCE
    ensures !Flagged(rt, event, previous)
  {
  }

  /** A comment mentions a feed exactly when "feed", in any letter case, sits somewhere in it. */
  lemma MentionsFeedExactly(comment: string)
    ensures MentionsFeed(comment) <==> exists i :: PieceAt(Lower(comment), "feed", i)
  {
    ContainsPieceExactly(Lower(comment), "feed");
  }

  /** The first event never rises over anything unless there is a finite baseline. */
  lemma FirstRiseNeedsBaseline(rt: JsRuntime, events: seq<JsValue>, baselineExtrusion: JsValue)
    requires |events| > 0 && !IsFiniteNumber(baselineExtrusion) && !MentionsFeed(CommentOf(events[0]))
    ensures 0 !in FeedIndices(rt, Arr(events), baselineExtrusion)
  {
    FeedsExactly(rt, events, Baseline(baselineExtrusion), 0);
    assert events[..0] == [];
  }
}
