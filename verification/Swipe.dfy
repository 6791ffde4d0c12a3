/** The per-card gesture state machine: pointer-down starts a drag, pointer moves move
    the card and light one of the two indicators, and pointer-up either snaps the card
    back or commits a like or a dislike to the session. */
module Swipe {
  import opened Wrappers
  import opened Tally

  /** Horizontal distance (px) beyond which a drag is no longer a tap. */
  const TapThreshold: int := 8
  /** Horizontal distance (px) a release must exceed to commit. */
  const SwipeThreshold: int := 50
  /** Where a committed card is sent: 500 px sideways, turned 20 degrees. */
  const OffScreenDx: int := 500
  const OffScreenDeg: real := 20.0
  /** Length of the release animation, in milliseconds. */
  const ReleaseMs: nat := 250

  function Abs(x: int): nat {
    if x < 0 then -x else x
  }

  /** A pointer event as the handlers read it: a mouse event carries one coordinate, a
      touch event the coordinates of the touches still on the screen. */
  datatype PointerEvent = Mouse(clientX: int) | Touch(touches: seq<int>)

  /** The horizontal coordinate of an event: the mouse position, or the first touch;
      none for a touch event with no touch left. */
  function PointX(e: PointerEvent): (x: Option<int>)
    ensures x.None? <==> e.Touch? && e.touches == []
    ensures e.Mouse? ==> x == Some(e.clientX)
    ensures e.Touch? && x.Some? ==> x.value == e.touches[0]
  {
    match e
    case Mouse(cx) => Some(cx)
    case Touch(ts) => if ts == [] then None else Some(ts[0])
  }

  /** What a release did. */
  datatype Outcome = Ignored | Cancelled | Liked | Disliked {
    predicate Committed() {
      this == Liked || this == Disliked
    }
  }

  /** The release rule: a drag commits when it went past the tap threshold and ends more
      than SwipeThreshold away from where it started, in the direction of the drag. */
  function Decide(moved: bool, diff: int): (o: Outcome)
    ensures o != Ignored
    ensures o == Cancelled <==> !moved || Abs(diff) <= SwipeThreshold
    ensures o == Liked <==> moved && diff > SwipeThreshold
    ensures o == Disliked <==> moved && diff < -SwipeThreshold
  {
    if !moved || Abs(diff) <= SwipeThreshold then Cancelled
    else if diff > 0 then Liked
    else Disliked
  }

  /** Once every drag that went past the tap threshold is marked as moved, the mark adds
      nothing at release: only the final distance decides. */
  lemma CommitDependsOnDistanceOnly(moved: bool, diff: int)
    requires Abs(diff) > TapThreshold ==> moved
    ensures Decide(moved, diff).Committed() <==> Abs(diff) > SwipeThreshold
    ensures Decide(moved, diff) == Liked <==> diff > SwipeThreshold
  {
  }

  /** Card placement: horizontal translation (px) and rotation (degrees). */
  datatype Transform = Transform(dx: int, deg: real)

  const Rest: Transform := Transform(0, 0.0)

  /** While dragging, the card follows the pointer and turns one degree per 15 px: it
      is at rest only when the pointer is back where the drag started, and it turns
      towards the side it is dragged to. */
  function DragTransform(diff: int): (t: Transform)
    ensures t == Rest <==> diff == 0
    ensures (t.dx > 0 <==> diff > 0) && (t.dx < 0 <==> diff < 0)
    ensures (t.deg > 0.0 <==> diff > 0) && (t.deg < 0.0 <==> diff < 0)
  {
    Transform(diff, diff as real / 15.0)
  }

  /** A committed card leaves on the side it was dragged to. */
  function OffScreen(diff: int): (t: Transform)
    ensures Abs(t.dx) == OffScreenDx && (t.dx > 0 <==> diff > 0)
    ensures t.deg == if diff > 0 then OffScreenDeg else -OffScreenDeg
  {
    if diff > 0 then Transform(OffScreenDx, OffScreenDeg) else Transform(-OffScreenDx, -OffScreenDeg)
  }

  /** The card's inline CSS transition: not yet set, switched off during a drag, or a
      timed ease after a release. */
  datatype Transition = Unset | Disabled | Ease(ms: nat)

  /** Indicator strength: grows linearly with the distance dragged and saturates at
      100 px. */
  function Opacity(diff: int): (o: real)
    ensures 0.0 <= o <= 1.0
    ensures o == 0.0 <==> diff == 0
    ensures o == 1.0 <==> Abs(diff) >= 100
    ensures Abs(diff) <= 100 ==> o * 100.0 == Abs(diff) as real
  {
    var v := Abs(diff) as real / 100.0;
    if v < 1.0 then v else 1.0
  }

  /** A longer drag never shows a fainter indicator. */
  lemma OpacityMonotone(a: int, b: int)
    requires Abs(a) <= Abs(b)
    ensures Opacity(a) <= Opacity(b)
  {
  }

  /** Opacity of the like and the dislike indicators. */
  datatype Indicators = Indicators(like: real, dislike: real)

  const Dark: Indicators := Indicators(0.0, 0.0)

  predicate WellFormed(ind: Indicators) {
    0.0 <= ind.like <= 1.0 && 0.0 <= ind.dislike <= 1.0 && (ind.like == 0.0 || ind.dislike == 0.0)
  }

  /** The indicators during a drag: at most one is lit, the like one exactly when the
      card is right of where it started, and the lit one shows Opacity(diff). */
  function IndicatorsFor(diff: int): (ind: Indicators)
    ensures WellFormed(ind)
    ensures ind.like > 0.0 <==> diff > 0
    ensures ind.dislike > 0.0 <==> diff < 0
    ensures ind.like + ind.dislike == Opacity(diff)
  {
    if diff > 0 then Indicators(Opacity(diff), 0.0) else Indicators(0.0, Opacity(diff))
  }

  /** The gesture state of one card. `listening` stands for the five document listeners
      (mouse move, touch move, mouse up, touch end, touch cancel) a drag attaches;
      `pendingRemovals` counts the deferred post-commit steps scheduled for this card
      and not yet run. */
  class SwipeController {
    const imageUrl: string
    var startX: int
    var currentX: int
    var isDragging: bool
    var moved: bool
    var listening: bool
    var transform: Transform
    var transition: Transition
    var overlay: Indicators
    var pendingRemovals: nat

    /** The listeners are attached exactly while a drag is in progress; a drag that has
        gone past the tap threshold is marked as moved; at most one indicator is lit. */
    ghost predicate Valid()
      reads this
    {
      && listening == isDragging
      && (Abs(currentX - startX) > TapThreshold ==> moved)
      && WellFormed(overlay)
    }

    /** A freshly created card, idle, with no listeners beyond its own pointer-down. */
    constructor (imageUrl: string)
      ensures Valid() && this.imageUrl == imageUrl
      ensures startX == 0 && currentX == 0 && !isDragging && !moved && !listening
      ensures transform == Rest && transition == Unset && overlay == Dark && pendingRemovals == 0
    {
      this.imageUrl := imageUrl;
      startX, currentX := 0, 0;
      isDragging, moved, listening := false, false, false;
      transform := Rest;
      transition := Unset;
      overlay := Dark;
      pendingRemovals := 0;
    }

    /** Pointer-down on the card: a new drag starts at the pointer, whatever state the
        card was in, with the transition switched off and the listeners attached. */
    method StartDrag(e: PointerEvent)
      requires Valid()
      requires PointX(e).Some?
      modifies this
      ensures Valid()
      ensures startX == PointX(e).value && currentX == startX
      ensures isDragging && !moved && listening
      ensures transition == Disabled
      ensures transform == old(transform) && overlay == old(overlay)
      ensures pendingRemovals == old(pendingRemovals)
    {
      startX := PointX(e).value;
      currentX := startX;
      moved := false;
      isDragging := true;
      transition := Disabled;
      listening := true;
    }

    /** Pointer move: ignored when no drag is in progress or the event has no
        coordinate; otherwise the card follows the pointer and the indicator on the side
        of the drag lights up. `moved` is never cleared by a move. */
    method OnDrag(e: PointerEvent)
      requires Valid()
      modifies this
      ensures Valid()
      ensures !old(isDragging) || PointX(e).None? ==> unchanged(this)
      ensures old(isDragging) && PointX(e).Some? ==>
        var diff := PointX(e).value - old(startX);
        && startX == old(startX) && currentX == PointX(e).value
        && moved == (old(moved) || Abs(diff) > TapThreshold)
        && transform == DragTransform(diff)
        && overlay == IndicatorsFor(diff)
        && isDragging && listening
        && transition == old(transition) && pendingRemovals == old(pendingRemovals)
      ensures old(moved) ==> moved
    {
      if !isDragging {
        return;
      }
      var x := PointX(e);
      if x.None? {
        return;
      }
      currentX := x.value;
      var diff := currentX - startX;
      if Abs(diff) > TapThreshold {
        moved := true;
      }
      transform := DragTransform(diff);
      overlay := IndicatorsFor(diff);
    }

    /** Pointer up or touch cancel. Ignored when no drag is in progress. Otherwise the
        drag ends and the listeners are released on both exits. A short or tap-like
        drag snaps the card back and darkens both indicators, leaving the session
        alone; a long one records exactly one decision, sends the card off-screen on
        its side and schedules the deferred step. */
    method EndDrag(session: Session) returns (outcome: Outcome)
      requires Valid() && session.Valid()
      modifies this, session
      ensures Valid() && session.Valid()
      ensures startX == old(startX) && currentX == old(currentX) && moved == old(moved)
      ensures !old(isDragging) ==> outcome == Ignored && unchanged(this) && unchanged(session)
      ensures old(isDragging) ==> !isDragging && !listening
      ensures old(isDragging) ==> outcome == Decide(moved, currentX - startX)
      ensures old(isDragging) ==> (outcome.Committed() <==> Abs(currentX - startX) > SwipeThreshold)
      ensures outcome == Cancelled ==>
        && transform == Rest && transition == Ease(ReleaseMs) && overlay == Dark
        && pendingRemovals == old(pendingRemovals)
        && unchanged(session)
      ensures outcome.Committed() ==>
        && session.history == old(session.history) + [Decision(imageUrl, outcome == Liked)]
        && session.totalSwiped == old(session.totalSwiped) + 1
        && session.likedCats == (if outcome == Liked then old(session.likedCats) + [imageUrl] else old(session.likedCats))
        && session.Screen() == old(session.Screen())
        && transform == OffScreen(currentX - startX) && transition == Ease(ReleaseMs)
        && overlay == old(overlay)
        && pendingRemovals == old(pendingRemovals) + 1
    {
      if !isDragging {
        return Ignored;
      }
      isDragging := false;
      var diff := currentX - startX;
      CommitDependsOnDistanceOnly(moved, diff);
      if !moved || Abs(diff) <= SwipeThreshold {
        transition := Ease(ReleaseMs);
        transform := Rest;
        overlay := Dark;
        listening := false;
        return Cancelled;
      }
      session.RecordDecision(diff > 0, imageUrl);
      transition := Ease(ReleaseMs);
      transform := OffScreen(diff);
      pendingRemovals := pendingRemovals + 1;
      listening := false;
      outcome := if diff > 0 then Liked else Disliked;
    }

    /** The deferred step of one earlier commit of this card fires: the session's
        display is refreshed (counter, gallery, and popup once MaxCats is reached). */
    method RunDeferred(session: Session)
      requires pendingRemovals > 0
      requires session.Valid()
      modifies this, session
      ensures session.Valid()
      ensures pendingRemovals == old(pendingRemovals) - 1
      ensures startX == old(startX) && currentX == old(currentX) && isDragging == old(isDragging)
      ensures moved == old(moved) && listening == old(listening)
      ensures transform == old(transform) && transition == old(transition) && overlay == old(overlay)
      ensures session.likedCats == old(session.likedCats) && session.totalSwiped == old(session.totalSwiped)
      ensures session.history == old(session.history)
      ensures session.likeCountText ==
        if session.likedCats != [] then Presentation.NatToString(|session.likedCats|) else old(session.likeCountText)
      ensures session.gallery == Presentation.Gallery(session.likedCats)
      ensures session.popupVisible == (old(session.popupVisible) || session.totalSwiped >= MaxCats)
      ensures session.popupContent ==
        if session.totalSwiped >= MaxCats then Some(Presentation.SummaryOf(session.likedCats)) else old(session.popupContent)
    {
      pendingRemovals := pendingRemovals - 1;
      session.AfterRemoval();
    }
  }
}
