/**
 The gesture streams of one canvas element, as sequences of callbacks. The
 pan and the pinch recognizer of an element run at the same time; here their
 callbacks arrive one after another in any interleaving. An update callback
 writes a live value computed from the element's CURRENT initial props; an
 end callback commits the whole live triple (x, y, scale) to the registry.
 A commit makes the screen re-render the element with the committed values
 as its new initial props: the live values survive a re-render, the props the
 next update reads do not.
 */
module Gestures {
  import opened Elements

  datatype GestureEvent =
    | PanMove(translationX: real, translationY: real)  // pan `onUpdate`, translation since the pan began
    | PanStop                                           // pan `onEnd`
    | PinchMove(factor: real)                           // pinch `onUpdate`, factor since the pinch began
    | PinchStop                                         // pinch `onEnd`
    | PositionProps(x: real, y: real)                   // a re-render passes new `initialX`/`initialY`
    | ScaleProps(scale: real)                           // a re-render passes a new `initialScale`

  datatype Offset = Offset(x: real, y: real)

  datatype Transform = Transform(x: real, y: real, scale: real)

  /** The pan side of a controller: the position props in force and the live offset. */
  datatype PanState = PanState(initialX: real, initialY: real, offset: Offset)

  /** The pinch side of a controller: the scale prop in force and the live scale. */
  datatype PinchState = PinchState(initialScale: real, scale: real)

  /** One callback on the pan side: an update recomputes the offset from the current props. */
  function PanStep(s: PanState, e: GestureEvent): (r: PanState) {
    match e
    case PanMove(tx, ty) => s.(offset := Offset(tx + s.initialX, ty + s.initialY))
    case PositionProps(x, y) => s.(initialX := x, initialY := y)
    case _ => s
  }

  /** One callback on the pinch side: an update recomputes the scale from the current prop. */
  function PinchStep(s: PinchState, e: GestureEvent): (r: PinchState) {
    match e
    case PinchMove(f) => s.(scale := f * s.initialScale)
    case ScaleProps(sc) => s.(initialScale := sc)
    case _ => s
  }

  /** The pan side after the callbacks in `events`, for a controller built at (startX, startY). */
  function PanReplay(startX: real, startY: real, events: seq<GestureEvent>): (r: PanState)
    decreases |events|
  {
    if events == [] then PanState(startX, startY, Offset(startX, startY))
    else PanStep(PanReplay(startX, startY, events[..|events| - 1]), events[|events| - 1])
  }

  /** The pinch side after the callbacks in `events`, for a controller built with `startScale`. */
  function PinchReplay(startScale: real, events: seq<GestureEvent>): (r: PinchState)
    decreases |events|
  {
    if events == [] then PinchState(startScale, startScale)
    else PinchStep(PinchReplay(startScale, events[..|events| - 1]), events[|events| - 1])
  }

  /** The live (x, y, scale) of an element after the callbacks in `events`. */
  function LiveAfter(start: Transform, events: seq<GestureEvent>): (r: Transform) {
    var o := PanReplay(start.x, start.y, events).offset;
    Transform(o.x, o.y, PinchReplay(start.scale, events).scale)
  }

  /** The triples committed to the registry: one per end callback, in order. */
  function Commits(start: Transform, events: seq<GestureEvent>): (r: seq<Transform>)
    decreases |events|
  {
    if events == [] then []
    else
      var before := events[..|events| - 1];
      var e := events[|events| - 1];
      if e.PanStop? || e.PinchStop? then Commits(start, before) + [LiveAfter(start, before)]
      else Commits(start, before)
  }

  /**
   Without a re-render the position props are still the start position, and
   without a pan update the live offset is still the start position.
   */
  lemma {:induction false} PanReplayUntouched(startX: real, startY: real, events: seq<GestureEvent>)
    ensures (forall i :: 0 <= i < |events| ==> !events[i].PositionProps?) ==>
      PanReplay(startX, startY, events).initialX == startX && PanReplay(startX, startY, events).initialY == startY
    ensures (forall i :: 0 <= i < |events| ==> !events[i].PanMove?) ==>
      PanReplay(startX, startY, events).offset == Offset(startX, startY)
    decreases |events|
  {
    if events != [] {
      PanReplayUntouched(startX, startY, events[..|events| - 1]);
    }
  }

  /**
   Without a re-render the scale prop is still the start scale, and without a
   pinch update the live scale is still the start scale.
   */
  lemma {:induction false} PinchReplayUntouched(startScale: real, events: seq<GestureEvent>)
    ensures (forall i :: 0 <= i < |events| ==> !events[i].ScaleProps?) ==>
      PinchReplay(startScale, events).initialScale == startScale
    ensures (forall i :: 0 <= i < |events| ==> !events[i].PinchMove?) ==>
      PinchReplay(startScale, events).scale == startScale
    decreases |events|
  {
    if events != [] {
      PinchReplayUntouched(startScale, events[..|events| - 1]);
    }
  }

  /** There is exactly one commit per end callback of either gesture. */
  lemma {:induction false} CommitsOnePerEnd(start: Transform, events: seq<GestureEvent>)
    ensures |Commits(start, events)| == multiset(events)[PanStop] + multiset(events)[PinchStop]
    decreases |events|
  {
    if events != [] {
      var before := events[..|events| - 1];
      assert events == before + [events[|events| - 1]];
      CommitsOnePerEnd(start, before);
    }
  }

  /** `events[k]` is the last pan update in `events`. */
  ghost predicate LatestPanAt(events: seq<GestureEvent>, k: int) {
    0 <= k < |events| && events[k].PanMove?
    && forall j :: k < j < |events| ==> !events[j].PanMove?
  }

  /** `events[k]` is the last pinch update in `events`. */
  ghost predicate LatestPinchAt(events: seq<GestureEvent>, k: int) {
    0 <= k < |events| && events[k].PinchMove?
    && forall j :: k < j < |events| ==> !events[j].PinchMove?
  }

  /** No callback in `events` is a re-render. */
  ghost predicate NoRerender(events: seq<GestureEvent>) {
    forall i :: 0 <= i < |events| ==> !events[i].PositionProps? && !events[i].ScaleProps?
  }

  /**
   The live offset is the latest translation added to the position props in
   force when that update ran; earlier updates, pinch callbacks and later
   re-renders leave no trace.
   */
  lemma {:induction false} PanUsesLatestUpdate(startX: real, startY: real, events: seq<GestureEvent>, k: int)
    requires LatestPanAt(events, k)
    ensures var p := PanReplay(startX, startY, events[..k]);
      PanReplay(startX, startY, events).offset
        == Offset(events[k].translationX + p.initialX, events[k].translationY + p.initialY)
  {
    var before := events[..|events| - 1];
    if k == |events| - 1 {
      assert before == events[..k];
    } else {
      assert LatestPanAt(before, k);
      assert before[..k] == events[..k];
      PanUsesLatestUpdate(startX, startY, before, k);
    }
  }

  /** The live scale is the latest factor times the scale prop in force when that update ran. */
  lemma {:induction false} PinchUsesLatestUpdate(startScale: real, events: seq<GestureEvent>, k: int)
    requires LatestPinchAt(events, k)
    ensures PinchReplay(startScale, events).scale
         == events[k].factor * PinchReplay(startScale, events[..k]).initialScale
  {
    var before := events[..|events| - 1];
    if k == |events| - 1 {
      assert before == events[..k];
    } else {
      assert LatestPinchAt(before, k);
      assert before[..k] == events[..k];
      PinchUsesLatestUpdate(startScale, before, k);
    }
  }

  /** Within one render, the live offset is the start position plus the latest translation. */
  lemma PanWithinOneRender(startX: real, startY: real, events: seq<GestureEvent>, k: int)
    requires LatestPanAt(events, k) && NoRerender(events)
    ensures PanReplay(startX, startY, events).offset
         == Offset(events[k].translationX + startX, events[k].translationY + startY)
  {
    PanUsesLatestUpdate(startX, startY, events, k);
    assert forall i :: 0 <= i < |events[..k]| ==> events[..k][i] == events[i];
    PanReplayUntouched(startX, startY, events[..k]);
  }

  /** Within one render, the live scale is the latest factor times the start scale. */
  lemma PinchWithinOneRender(startScale: real, events: seq<GestureEvent>, k: int)
    requires LatestPinchAt(events, k) && NoRerender(events)
    ensures PinchReplay(startScale, events).scale == events[k].factor * startScale
  {
    PinchUsesLatestUpdate(startScale, events, k);
    assert forall i :: 0 <= i < |events[..k]| ==> events[..k][i] == events[i];
    PinchReplayUntouched(startScale, events[..k]);
  }

  /** After any interleaving, the live triple combines the latest update of each stream. */
  lemma LiveIsLatestOfBoth(start: Transform, events: seq<GestureEvent>, k: int, m: int)
    requires LatestPanAt(events, k) && LatestPinchAt(events, m)
    ensures var p := PanReplay(start.x, start.y, events[..k]);
      LiveAfter(start, events)
        == Transform(events[k].translationX + p.initialX, events[k].translationY + p.initialY,
                     events[m].factor * PinchReplay(start.scale, events[..m]).initialScale)
  {
    PanUsesLatestUpdate(start.x, start.y, events, k);
    PinchUsesLatestUpdate(start.scale, events, m);
  }

  /** An end callback commits the live triple as it stands. */
  lemma EndCommitsLive(start: Transform, events: seq<GestureEvent>, e: GestureEvent)
    requires e.PanStop? || e.PinchStop?
    ensures Commits(start, events + [e]) == Commits(start, events) + [LiveAfter(start, events)]
  {
    var s := events + [e];
    assert s[..|s| - 1] == events;
  }

  /** Replaying one more callback is one more step on each side. */
  lemma ReplayAppend(start: Transform, events: seq<GestureEvent>, e: GestureEvent)
    ensures PanReplay(start.x, start.y, events + [e]) == PanStep(PanReplay(start.x, start.y, events), e)
    ensures PinchReplay(start.scale, events + [e]) == PinchStep(PinchReplay(start.scale, events), e)
  {
    var s := events + [e];
    assert s[..|s| - 1] == events;
  }

  /**
   Within one render, whichever gesture ends, its commit carries the newest
   position AND the newest scale: the latest translation added to the start
   position and the latest factor times the start scale.
   */
  lemma {:induction false} EndCommitsBothStreams(start: Transform, events: seq<GestureEvent>, e: GestureEvent, k: int, m: int)
    requires e.PanStop? || e.PinchStop?
    requires LatestPanAt(events, k) && LatestPinchAt(events, m) && NoRerender(events)
    ensures Commits(start, events + [e]) == Commits(start, events)
      + [Transform(events[k].translationX + start.x, events[k].translationY + start.y,
                   events[m].factor * start.scale)]
  {
    var o := PanReplay(start.x, start.y, events).offset;
    assert o == Offset(events[k].translationX + start.x, events[k].translationY + start.y) by {
      PanWithinOneRender(start.x, start.y, events, k);
    }
    var sc := PinchReplay(start.scale, events).scale;
    assert sc == events[m].factor * start.scale by {
      PinchWithinOneRender(start.scale, events, m);
    }
    assert LiveAfter(start, events) == Transform(o.x, o.y, sc);
    EndCommitsLive(start, events, e);
  }

  /** Update callbacks and re-renders commit nothing. */
  lemma OnlyEndsCommit(start: Transform, events: seq<GestureEvent>, e: GestureEvent)
    requires !e.PanStop? && !e.PinchStop?
    ensures Commits(start, events + [e]) == Commits(start, events)
  {
    var s := events + [e];
    assert s[..|s| - 1] == events;
  }

  /** A re-render moves nothing on screen: the live triple is kept. */
  lemma RerenderKeepsLive(start: Transform, events: seq<GestureEvent>, x: real, y: real, scale: real)
    ensures LiveAfter(start, events + [PositionProps(x, y), ScaleProps(scale)]) == LiveAfter(start, events)
  {
    ReplayAppend(start, events, PositionProps(x, y));
    ReplayAppend(start, events + [PositionProps(x, y)], ScaleProps(scale));
    assert events + [PositionProps(x, y)] + [ScaleProps(scale)] == events + [PositionProps(x, y), ScaleProps(scale)];
  }

  // ----------------------------------------- gestures anchored at their start

  /**
   The evidently intended rule: a gesture takes its base from the props in
   force when it begins (its first update) and keeps that base until it ends.
   `panBase`/`pinchBase` are present exactly while that gesture runs.
   */
  datatype AnchoredState = AnchoredState(props: Transform, panBase: Option<Offset>, pinchBase: Option<real>, live: Transform)

  function AnchoredStart(start: Transform): (r: AnchoredState) {
    AnchoredState(start, None, None, start)
  }

  function AnchoredStep(s: AnchoredState, e: GestureEvent): (r: AnchoredState) {
    match e
    case PanMove(tx, ty) =>
      var b := if s.panBase.Some? then s.panBase.value else Offset(s.props.x, s.props.y);
      s.(panBase := Some(b), live := s.live.(x := tx + b.x, y := ty + b.y))
    case PanStop => s.(panBase := None)
    case PinchMove(f) =>
      var b := if s.pinchBase.Some? then s.pinchBase.value else s.props.scale;
      s.(pinchBase := Some(b), live := s.live.(scale := f * b))
    case PinchStop => s.(pinchBase := None)
    case PositionProps(x, y) => s.(props := s.props.(x := x, y := y))
    case ScaleProps(sc) => s.(props := s.props.(scale := sc))
  }

  function AnchoredRun(s: AnchoredState, events: seq<GestureEvent>): (r: AnchoredState)
    decreases |events|
  {
    if events == [] then s
    else AnchoredStep(AnchoredRun(s, events[..|events| - 1]), events[|events| - 1])
  }

  /** The state after one more callback under the anchored rule. */
  lemma AnchoredRunAppend(s: AnchoredState, events: seq<GestureEvent>, e: GestureEvent)
    ensures AnchoredRun(s, events + [e]) == AnchoredStep(AnchoredRun(s, events), e)
  {
    var all := events + [e];
    assert all[..|all| - 1] == events;
  }

  lemma {:induction false} AnchoredRunKeepsPanBase(s: AnchoredState, mid: seq<GestureEvent>)
    requires s.panBase.Some?
    requires forall j :: 0 <= j < |mid| ==> !mid[j].PanStop?
    ensures AnchoredRun(s, mid).panBase == s.panBase
  {
    if mid != [] {
      AnchoredRunKeepsPanBase(s, mid[..|mid| - 1]);
    }
  }

  lemma {:induction false} AnchoredRunKeepsPinchBase(s: AnchoredState, mid: seq<GestureEvent>)
    requires s.pinchBase.Some?
    requires forall j :: 0 <= j < |mid| ==> !mid[j].PinchStop?
    ensures AnchoredRun(s, mid).pinchBase == s.pinchBase
  {
    if mid != [] {
      AnchoredRunKeepsPinchBase(s, mid[..|mid| - 1]);
    }
  }

  /**
   While a pan runs, no re-render and no pinch callback changes what its next
   update computes: the offset is always the base taken at the pan's start
   plus the latest translation.
   */
  lemma {:induction false} AnchoredPanKeepsBase(s: AnchoredState, mid: seq<GestureEvent>, tx: real, ty: real)
    requires s.panBase.Some?
    requires forall j :: 0 <= j < |mid| ==> !mid[j].PanStop?
    ensures AnchoredRun(s, mid + [PanMove(tx, ty)]).live.x == tx + s.panBase.value.x
    ensures AnchoredRun(s, mid + [PanMove(tx, ty)]).live.y == ty + s.panBase.value.y
  {
    var r := AnchoredRun(s, mid);
    assert r.panBase == s.panBase by {
      AnchoredRunKeepsPanBase(s, mid);
    }
    AnchoredRunAppend(s, mid, PanMove(tx, ty));
  }

  /** While a pinch runs, the scale is always the base taken at its start times the latest factor. */
  lemma {:induction false} AnchoredPinchKeepsBase(s: AnchoredState, mid: seq<GestureEvent>, f: real)
    requires s.pinchBase.Some?
    requires forall j :: 0 <= j < |mid| ==> !mid[j].PinchStop?
    ensures AnchoredRun(s, mid + [PinchMove(f)]).live.scale == f * s.pinchBase.value
  {
    var r := AnchoredRun(s, mid);
    assert r.pinchBase == s.pinchBase by {
      AnchoredRunKeepsPinchBase(s, mid);
    }
    AnchoredRunAppend(s, mid, PinchMove(f));
  }

  /** Without a re-render, the anchored rule and the code compute the same live triple. */
  lemma {:induction false} AnchoredAgreesWithinOneRender(start: Transform, events: seq<GestureEvent>)
    requires NoRerender(events)
    ensures var r := AnchoredRun(AnchoredStart(start), events);
      && r.live == LiveAfter(start, events)
      && r.props == start
      && (r.panBase.Some? ==> r.panBase.value == Offset(start.x, start.y))
      && (r.pinchBase.Some? ==> r.pinchBase.value == start.scale)
  {
    if events != [] {
      var before := events[..|events| - 1];
      assert NoRerender(before);
      AnchoredAgreesWithinOneRender(start, before);
      PanReplayUntouched(start.x, start.y, before);
      PinchReplayUntouched(start.scale, before);
    }
  }

  /**
   Every re-render reaches the element between gestures of the kind it
   affects: new position props only while no pan runs, a new scale prop only
   while no pinch runs (judged under the anchored rule).
   */
  ghost predicate RerendersBetweenGestures(start: Transform, events: seq<GestureEvent>) {
    forall j :: 0 <= j < |events| ==>
      && (events[j].PositionProps? ==> AnchoredRun(AnchoredStart(start), events[..j]).panBase.None?)
      && (events[j].ScaleProps? ==> AnchoredRun(AnchoredStart(start), events[..j]).pinchBase.None?)
  }

  /**
   When every re-render lands between gestures of its kind, the anchored rule
   and the code compute the same live triple: the props a running gesture
   reads are still the ones in force at its start.
   */
  lemma {:induction false} AnchoredAgreesBetweenGestures(start: Transform, events: seq<GestureEvent>)
    requires RerendersBetweenGestures(start, events)
    ensures var r := AnchoredRun(AnchoredStart(start), events);
      var p := PanReplay(start.x, start.y, events);
      var q := PinchReplay(start.scale, events);
      && r.live == LiveAfter(start, events)
      && r.props == Transform(p.initialX, p.initialY, q.initialScale)
      && (r.panBase.Some? ==> r.panBase.value == Offset(p.initialX, p.initialY))
      && (r.pinchBase.Some? ==> r.pinchBase.value == q.initialScale)
  {
    if events != [] {
      var before := events[..|events| - 1];
      assert RerendersBetweenGestures(start, before) by {
        forall j | 0 <= j < |before|
          ensures before[j] == events[j] && before[..j] == events[..j]
        {
        }
      }
      AnchoredAgreesBetweenGestures(start, before);
    }
  }
}
