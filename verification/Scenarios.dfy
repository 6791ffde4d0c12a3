/** Whole gestures applied to a fresh session and card, each with its outcome stated. */
module Scenarios {
  import opened Tally
  import opened Swipe

  const Url: string := "https://cdn2.thecatapi.com/images/a1.jpg"

  /** A 30 px drag to the right is released short of the commit threshold: the card
      returns to rest with both indicators dark, and nothing is recorded. */
  method ShortDragSnapsBack() returns (outcome: Outcome, total: nat, liked: seq<string>, at: Transform, ind: Indicators)
    ensures outcome == Cancelled && total == 0 && liked == []
    ensures at == Rest && ind == Dark
  {
    var session := new Session();
    var card := new SwipeController(Url);
    card.StartDrag(Mouse(100));
    card.OnDrag(Mouse(130));
    outcome := card.EndDrag(session);
    total, liked, at, ind := session.totalSwiped, session.likedCats, card.transform, card.overlay;
  }

  /** An 80 px drag to the right is a like: the URL is appended, one swipe is counted,
      and the card leaves to the right. */
  method LongRightDragLikes() returns (outcome: Outcome, total: nat, liked: seq<string>, at: Transform)
    ensures outcome == Liked && total == 1 && liked == [Url]
    ensures at == Transform(500, 20.0)
  {
    var session := new Session();
    var card := new SwipeController(Url);
    card.StartDrag(Touch([200]));
    card.OnDrag(Touch([280]));
    outcome := card.EndDrag(session);
    total, liked, at := session.totalSwiped, session.likedCats, card.transform;
  }

  /** An 80 px drag to the left is a dislike: one swipe is counted, nothing is liked,
      and the card leaves to the left. */
  method LongLeftDragDislikes() returns (outcome: Outcome, total: nat, liked: seq<string>, at: Transform)
    ensures outcome == Disliked && total == 1 && liked == []
    ensures at == Transform(-500, -20.0)
  {
    var session := new Session();
    var card := new SwipeController(Url);
    card.StartDrag(Mouse(200));
    card.OnDrag(Mouse(120));
    outcome := card.EndDrag(session);
    total, liked, at := session.totalSwiped, session.likedCats, card.transform;
  }

  /** A touch move that carries no touch point has no coordinate and is ignored, so the
      drag keeps its last position and indicator. */
  method TouchWithoutPointIgnored() returns (x: int, ind: Indicators)
    ensures x == 170 && ind == Indicators(0.7, 0.0)
  {
    var card := new SwipeController(Url);
    card.StartDrag(Touch([100]));
    card.OnDrag(Touch([170]));
    card.OnDrag(Touch([]));
    x, ind := card.currentX, card.overlay;
  }

  /** A release that arrives after the drag already ended (mouse up and touch end both
      firing, say) does nothing: one drag records at most one decision. */
  method SecondReleaseIgnored() returns (first: Outcome, second: Outcome, total: nat)
    ensures first == Liked && second == Ignored && total == 1
  {
    var session := new Session();
    var card := new SwipeController(Url);
    card.StartDrag(Mouse(0));
    card.OnDrag(Mouse(60));
    first := card.EndDrag(session);
    second := card.EndDrag(session);
    total := session.totalSwiped;
  }

  /** Nothing stops a committed card from being dragged again before its removal: its
      pointer-down listener stays attached, and a second long drag records a second
      decision for the same URL. */
  method CommittedCardCanCommitAgain() returns (total: nat, liked: seq<string>, pending: nat)
    ensures total == 2 && liked == [Url, Url] && pending == 2
  {
    var session := new Session();
    var card := new SwipeController(Url);
    card.StartDrag(Mouse(0));
    card.OnDrag(Mouse(90));
    var first := card.EndDrag(session);
    card.StartDrag(Mouse(10));
    card.OnDrag(Mouse(100));
    var second := card.EndDrag(session);
    total, liked, pending := session.totalSwiped, session.likedCats, card.pendingRemovals;
  }

  /** A drag that wandered past the tap threshold and came back within it is still a
      cancel: the final distance decides. */
  method DragBackWithinThresholdCancels() returns (outcome: Outcome, moved: bool)
    ensures outcome == Cancelled && moved
  {
    var session := new Session();
    var card := new SwipeController(Url);
    card.StartDrag(Mouse(300));
    card.OnDrag(Mouse(390));
    card.OnDrag(Mouse(305));
    outcome := card.EndDrag(session);
    moved := card.moved;
  }
}
