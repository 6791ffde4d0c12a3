/** The session state shared by all cards: the ordered list of liked image URLs and the
    number of committed swipes, together with what the page currently shows about them
    (like counter, gallery, popup). */
module Tally {
  import opened Wrappers
  import opened Presentation

  /** Number of committed swipes after which the summary popup is shown. */
  const MaxCats: nat := 20

  /** One committed swipe: the card's image URL and whether it was a like. */
  datatype Decision = Decision(url: string, liked: bool)

  /** The URLs of the liked decisions, in commit order. */
  function LikedUrls(history: seq<Decision>): (liked: seq<string>)
    ensures |liked| <= |history|
    ensures forall i :: 0 <= i < |liked| ==> Decision(liked[i], true) in history
  {
    if history == [] then []
    else
      var last := history[|history| - 1];
      var earlier := LikedUrls(history[..|history| - 1]);
      if last.liked then earlier + [last.url] else earlier
  }

  /** Committing one more decision appends its URL to the liked list exactly when it
      is a like. */
  lemma LikedUrlsAppend(history: seq<Decision>, d: Decision)
    ensures LikedUrls(history + [d]) == if d.liked then LikedUrls(history) + [d.url] else LikedUrls(history)
  {
  }

  class Session {
    var likedCats: seq<string>
    var totalSwiped: nat
    /** Every decision committed since the last reset, in commit order. */
    ghost var history: seq<Decision>

    /** What the page shows: the like counter's text, the gallery, and the popup. */
    var likeCountText: string
    var gallery: seq<Img>
    var popupVisible: bool
    var popupContent: Option<Summary>

    ghost predicate Valid()
      reads this
    {
      likedCats == LikedUrls(history) && totalSwiped == |history|
    }

    /** The page's display state, so that contracts can say it is left alone. */
    ghost function Screen(): (string, seq<Img>, bool, Option<Summary>)
      reads this
    {
      (likeCountText, gallery, popupVisible, popupContent)
    }

    /** Loading the script: the globals are declared and the session is initialised. */
    constructor ()
      ensures Valid() && history == []
      ensures likedCats == [] && totalSwiped == 0
      ensures likeCountText == "" && gallery == [] && !popupVisible && popupContent == None
    {
      likedCats := [];
      totalSwiped := 0;
      history := [];
      likeCountText := "";
      gallery := [];
      popupVisible := false;
      popupContent := None;
    }

    /** Session reset: empty tally, blank counter, empty gallery, popup hidden. The popup's
        content element is hidden but not cleared. */
    method Reset()
      modifies this
      ensures Valid() && history == []
      ensures likedCats == [] && totalSwiped == 0
      ensures likeCountText == "" && gallery == [] && !popupVisible
      ensures popupContent == old(popupContent)
    {
      likedCats := [];
      totalSwiped := 0;
      history := [];
      likeCountText := "";
      gallery := [];
      popupVisible := false;
    }

    /** Records one committed swipe: a like appends the card's URL, and every commit
        counts once. The display is not touched until the deferred step. */
    method RecordDecision(liked: bool, url: string)
      requires Valid()
      modifies this
      ensures Valid()
      ensures history == old(history) + [Decision(url, liked)]
      ensures totalSwiped == old(totalSwiped) + 1
      ensures likedCats == if liked then old(likedCats) + [url] else old(likedCats)
      ensures |likedCats| <= totalSwiped
      ensures Screen() == old(Screen())
    {
      LikedUrlsAppend(history, Decision(url, liked));
      if liked {
        likedCats := likedCats + [url];
      }
      totalSwiped := totalSwiped + 1;
      history := history + [Decision(url, liked)];
    }

    /** The step run 200 ms after a commit, once the card has left the stack: refresh
        the like counter when something was liked, rebuild the gallery, and show the
        summary once the session has reached MaxCats commits. The check is repeated on
        every call, so the popup is shown again by every later callback. */
    method AfterRemoval()
      requires Valid()
      modifies this
      ensures Valid()
      ensures likedCats == old(likedCats) && totalSwiped == old(totalSwiped) && history == old(history)
      ensures likeCountText == if likedCats != [] then NatToString(|likedCats|) else old(likeCountText)
      ensures gallery == Gallery(likedCats)
      ensures popupVisible == (old(popupVisible) || totalSwiped >= MaxCats)
      ensures popupContent == if totalSwiped >= MaxCats then Some(SummaryOf(likedCats)) else old(popupContent)
    {
      if |likedCats| > 0 {
        likeCountText := NatToString(|likedCats|);
      }
      gallery := Gallery(likedCats);
      if totalSwiped >= MaxCats {
        popupVisible := true;
        popupContent := Some(SummaryOf(likedCats));
      }
    }
  }
}
