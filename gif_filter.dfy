/**
 * The image finder `find_pics` (main.py lines 66-89): one search request,
 * then a HEAD probe of every GIF candidate. The HTTP calls are oracles: the
 * search response is an input, and every hit carries the outcome its probe
 * would have.
 */
module GifFilter {
  import opened Wrappers

  /** The only MIME type accepted. */
  const GifMime: string := "image/gif"

  /** The largest probe status that still accepts a link. */
  const LastAcceptedStatus: int := 299

  /** Outcome of the HEAD request on one link (timeout of 1 second). */
  datatype Probe =
    | Status(code: int)  // a response with this status code
    | Timeout            // ReadTimeout or ConnectTimeout
    | ProbeFailed        // any other exception

  /** One entry of the response's `items`: its `link`, its `mime`, and what probing the link yields. */
  datatype Hit = Hit(link: string, mime: string, probe: Probe)

  /** The answer to the search GET request. */
  datatype SearchResponse =
    | Response(status: int, items: Option<seq<Hit>>)  // `items` is None when the JSON has no "items" key
    | Unreachable                                     // the request itself raised

  /** Why `find_pics` raised. */
  datatype SearchError =
    | HttpStatus(code: int)  // `raise_for_status` raised `HTTPError`
    | Transport              // the request raised something else

  /** A hit is kept when its MIME type is GIF and its probe answered with a status of at most 299. */
  predicate Accepts(h: Hit)
  {
    h.mime == GifMime && h.probe.Status? && h.probe.code <= LastAcceptedStatus
  }

  /** The links `find_pics` keeps from a list of hits, in response order. */
  function AcceptedLinks(hits: seq<Hit>): (links: seq<string>)
    ensures |links| <= |hits|
  {
    if hits == [] then []
    else
      var last := hits[|hits| - 1];
      AcceptedLinks(hits[..|hits| - 1]) + (if Accepts(last) then [last.link] else [])
  }

  /** `response.raise_for_status()` raises for client (4xx) and server (5xx) errors. */
  predicate RaisesForStatus(status: int)
  {
    400 <= status < 600
  }

  /** What `find_pics` returns or raises for a given response. */
  function SearchOutcome(resp: SearchResponse): Result<seq<string>, SearchError>
  {
    match resp
    case Unreachable => Failure(Transport)
    case Response(status, items) =>
      if RaisesForStatus(status) then Failure(HttpStatus(status))
      else if items.None? then Success([])
      else Success(AcceptedLinks(items.value))
  }

  /** The loop of `find_pics`: checks every item and appends the accepted links to `ret`. */
  method FindPics(resp: SearchResponse) returns (r: Result<seq<string>, SearchError>)
    ensures r == SearchOutcome(resp)
  {
    if resp.Unreachable? {
      return Failure(Transport);
    }
    if RaisesForStatus(resp.status) {
      return Failure(HttpStatus(resp.status));
    }
    var ret: seq<string> := [];
    if resp.items.Some? {
      var items := resp.items.value;
      for i := 0 to |items|
        invariant ret == AcceptedLinks(items[..i])
      {
        var item := items[i];
        assert items[..i + 1][..i] == items[..i];
        if item.mime == GifMime {
          match item.probe
          case Status(code) =>
            if code <= LastAcceptedStatus {
              ret := ret + [item.link];
            }
          case Timeout =>
          case ProbeFailed =>
        }
      }
      assert items[..|items|] == items;
    }
    return Success(ret);
  }

  /** Filtering distributes over concatenation: each hit is judged on its own. */
  lemma {:induction false} AcceptedLinksConcat(a: seq<Hit>, b: seq<Hit>)
    ensures AcceptedLinks(a + b) == AcceptedLinks(a) + AcceptedLinks(b)
  {
    if b != [] {
      var ab := a + b;
      assert ab[..|ab| - 1] == a + b[..|b| - 1];
      assert ab[|ab| - 1] == b[|b| - 1];
      AcceptedLinksConcat(a, b[..|b| - 1]);
    } else {
      assert a + b == a;
    }
  }

  /**
   * A rejected hit (wrong MIME type, status above 299, timeout, other probe
   * error) removes only its own link: the hits around it are kept as before.
   */
  lemma RejectedHitDropsOnlyItself(before: seq<Hit>, h: Hit, after: seq<Hit>)
    requires !Accepts(h)
    ensures AcceptedLinks(before + [h] + after) == AcceptedLinks(before) + AcceptedLinks(after)
  {
    AcceptedLinksConcat(before + [h], after);
    AcceptedLinksConcat(before, [h]);
    SingleHit(h);
  }

  /** An accepted hit contributes its link exactly at its position. */
  lemma AcceptedHitKeptInPlace(before: seq<Hit>, h: Hit, after: seq<Hit>)
    requires Accepts(h)
    ensures AcceptedLinks(before + [h] + after) == AcceptedLinks(before) + [h.link] + AcceptedLinks(after)
  {
    AcceptedLinksConcat(before + [h], after);
    AcceptedLinksConcat(before, [h]);
    SingleHit(h);
  }

  lemma SingleHit(h: Hit)
    ensures AcceptedLinks([h]) == if Accepts(h) then [h.link] else []
  {
    assert [h][..0] == [];
  }

  /** Every returned link comes from an accepted hit. */
  lemma {:induction false} AcceptedLinksSound(hits: seq<Hit>, k: nat)
    requires k < |AcceptedLinks(hits)|
    ensures exists i :: 0 <= i < |hits| && Accepts(hits[i]) && hits[i].link == AcceptedLinks(hits)[k]
  {
    var init := hits[..|hits| - 1];
    var last := hits[|hits| - 1];
    if k < |AcceptedLinks(init)| {
      AcceptedLinksSound(init, k);
      var i :| 0 <= i < |init| && Accepts(init[i]) && init[i].link == AcceptedLinks(init)[k];
      assert hits[i] == init[i];
    } else {
      assert Accepts(last) && AcceptedLinks(hits)[k] == last.link;
    }
  }

  /** Every accepted hit's link is returned. */
  lemma {:induction false} AcceptedLinksComplete(hits: seq<Hit>, i: nat)
    requires i < |hits| && Accepts(hits[i])
    ensures hits[i].link in AcceptedLinks(hits)
  {
    var init := hits[..|hits| - 1];
    if i < |hits| - 1 {
      assert init[i] == hits[i];
      AcceptedLinksComplete(init, i);
    }
  }

  /** A response without "items" yields no links, whatever its (non-error) status. */
  lemma MissingItemsYieldNothing(status: int)
    requires !RaisesForStatus(status)
    ensures SearchOutcome(Response(status, None)) == Success([])
  {
  }
}
