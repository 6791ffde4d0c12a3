/** Loading a session's cards: the number of image requests, their URLs, the
    all-or-nothing join of their responses, and one idle card per image. The responses
    themselves come from the network and are parameters here. */
module Loader {
  import opened Wrappers
  import opened Presentation
  import Tally
  import Swipe

  /** Most images one request asks for. */
  const BatchSize: nat := 10
  const SearchEndpoint: string := "https://api.thecatapi.com/v1/images/search?limit="

  /** Integer ceiling of a / b: the fewest requests of b images that cover a images. */
  function CeilDiv(a: nat, b: nat): (q: nat)
    requires b > 0
    ensures q * b >= a
    ensures q > 0 ==> (q - 1) * b < a
  {
    var q := (a + b - 1) / b;
    assert (a + b - 1) == q * b + (a + b - 1) % b;
    q
  }

  function SearchUrl(limit: nat): string {
    SearchEndpoint + NatToString(limit)
  }

  /** The requests issued for one session: ceil(MaxCats / BatchSize) of them, each
      asking for BatchSize images. */
  method RequestUrls() returns (urls: seq<string>)
    ensures |urls| == CeilDiv(Tally.MaxCats, BatchSize) == 2
    ensures forall i :: 0 <= i < |urls| ==> urls[i] == SearchUrl(BatchSize)
  {
    var times := CeilDiv(Tally.MaxCats, BatchSize);
    urls := [];
    for i := 0 to times
      invariant |urls| == i
      invariant forall k :: 0 <= k < i ==> urls[k] == SearchUrl(BatchSize)
    {
      urls := urls + [SearchUrl(BatchSize)];
    }
  }

  /** The images of successful responses joined head first, in request order; a failed
      response contributes nothing. The reference definition of flattening the batches. */
  function Concat(responses: seq<Option<seq<string>>>): seq<string> {
    if responses == [] then []
    else (if responses[0].Some? then responses[0].value else []) + Concat(responses[1..])
  }

  /** Flattening one more successful batch appends its images. */
  lemma {:induction false} ConcatAppend(responses: seq<Option<seq<string>>>, batch: seq<string>)
    ensures Concat(responses + [Some(batch)]) == Concat(responses) + batch
    decreases |responses|
  {
    if responses == [] {
      assert [Some(batch)][1..] == [];
    } else {
      assert (responses + [Some(batch)])[1..] == responses[1..] + [Some(batch)];
      ConcatAppend(responses[1..], batch);
    }
  }

  /** Waits for every response and concatenates their images in request order; a
      single failed request fails the whole load. */
  function JoinAll(responses: seq<Option<seq<string>>>): (r: Option<seq<string>>)
    ensures r.None? <==> exists i :: 0 <= i < |responses| && responses[i].None?
    ensures r.Some? ==> r.value == Concat(responses)
  {
    if responses == [] then Some([])
    else
      match JoinAll(responses[..|responses| - 1])
      case None => None
      case Some(earlier) =>
        match responses[|responses| - 1]
        case None => None
        case Some(last) =>
          assert responses == responses[..|responses| - 1] + [Some(last)];
          ConcatAppend(responses[..|responses| - 1], last);
          Some(earlier + last)
  }

  /** The two requests of a default session, both successful, give their images back to
      back. */
  lemma JoinTwo(first: seq<string>, second: seq<string>)
    ensures JoinAll([Some(first), Some(second)]) == Some(first + second)
  {
    var rs := [Some(first), Some(second)];
    assert rs[..1] == [Some(first)];
    assert [Some(first)][..0] == [];
    assert JoinAll([]) == Some([]);
    assert JoinAll([Some(first)]) == Some([] + first);
    assert [] + first == first;
  }

  /** One idle card per image, in arrival order; none at all when the load failed. */
  method LoadCards(responses: seq<Option<seq<string>>>) returns (cards: seq<Swipe.SwipeController>)
    ensures JoinAll(responses).None? ==> cards == []
    ensures JoinAll(responses).Some? ==> |cards| == |JoinAll(responses).value|
    ensures forall j, k :: 0 <= j < k < |cards| ==> cards[j] != cards[k]
    ensures forall k :: 0 <= k < |cards| ==>
      && fresh(cards[k]) && cards[k].Valid()
      && cards[k].imageUrl == JoinAll(responses).value[k]
      && !cards[k].isDragging && cards[k].pendingRemovals == 0
  {
    cards := [];
    var joined := JoinAll(responses);
    if joined.None? {
      return;
    }
    var urls := joined.value;
    for i := 0 to |urls|
      invariant |cards| == i
      invariant forall j, k :: 0 <= j < k < i ==> cards[j] != cards[k]
      invariant forall k :: 0 <= k < i ==>
        && fresh(cards[k]) && cards[k].Valid()
        && cards[k].imageUrl == urls[k]
        && !cards[k].isDragging && cards[k].pendingRemovals == 0
    {
      var card := new Swipe.SwipeController(urls[i]);
      cards := cards + [card];
    }
  }
}
