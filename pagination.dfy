/**
 * The page-filling loop of `find` (main.py lines 137-167), as a function of
 * the search oracle: which batches of links one invocation delivers and why
 * it stops. The class method `Bot.Chat.Find` runs the loop itself and is
 * proved to follow this function.
 */
module Pagination {
  import opened Wrappers
  import opened GifFilter

  /** The loop keeps searching while fewer than this many links were found. */
  const PageSize: nat := 10

  /** The search offset advances by this much after each non-empty batch. */
  const OffsetStep: int := 10

  /** The search oracle: the response to a search for a query at an offset. */
  type Search = (string, int) -> SearchResponse

  /** What `find_pics` returns or raises for a query at an offset. */
  type Pages = (string, int) -> Result<seq<string>, SearchError>

  /** `find_pics` over the search oracle: the page of GIF links, or the error, at every query and offset. */
  function Outcomes(search: Search): Pages
  {
    (query: string, offset: int) => SearchOutcome(search(query, offset))
  }

  /** Why the loop ended. */
  datatype Stop =
    | Filled                     // `total_sent` reached 10
    | Exhausted                  // a search found nothing: "nothing found" and `break`
    | Aborted(error: SearchError)  // `find_pics` raised; the exception leaves `find`

  /** The non-empty batches delivered, in order, and why the loop stopped. */
  datatype Run = Run(batches: seq<seq<string>>, stop: Stop)

  /** Number of links in the batches: what `total_sent` accumulates. */
  function Total(batches: seq<seq<string>>): nat
  {
    if batches == [] then 0 else |batches[0]| + Total(batches[1..])
  }

  /** All links of the batches, in delivery order. */
  function Sent(batches: seq<seq<string>>): seq<string>
  {
    if batches == [] then [] else batches[0] + Sent(batches[1..])
  }

  /**
   * The loop from the state (`start_from` = offset, `total_sent` = total) on:
   * search at the offset; stop on an error or an empty batch; otherwise
   * count the batch, move the offset by 10 and go on while below 10 links.
   */
  function Paginate(query: string, offset: int, total: nat, pages: Pages): Run
    decreases PageSize - total
  {
    if total >= PageSize then Run([], Filled)
    else match pages(query, offset)
      case Failure(e) => Run([], Aborted(e))
      case Success(urls) =>
        if urls == [] then Run([], Exhausted)
        else
          var rest := Paginate(query, offset + OffsetStep, total + |urls|, pages);
          Run([urls] + rest.batches, rest.stop)
  }

  /**
   * The same loop told from a state part-way through it, as the loop itself
   * runs: `done` holds the batches delivered so far, and each non-empty
   * batch is appended to it before the next search.
   */
  function Resume(query: string, offset: int, total: nat, pages: Pages, done: seq<seq<string>>): Run
    decreases PageSize - total
  {
    if total >= PageSize then Run(done, Filled)
    else match pages(query, offset)
      case Failure(e) => Run(done, Aborted(e))
      case Success(urls) =>
        if urls == [] then Run(done, Exhausted)
        else Resume(query, offset + OffsetStep, total + |urls|, pages, done + [urls])
  }

  /** The "more" button is shown and the session written: the loop was left normally after finding something. */
  predicate Shown(run: Run)
  {
    !run.stop.Aborted? && Total(run.batches) > 0
  }

  /** The `start_from` stored in the session: 10 past the offset of every non-empty batch. */
  function NextOffset(startFrom: int, run: Run): int
  {
    startFrom + OffsetStep * |run.batches|
  }

  lemma {:induction false} TotalAppend(batches: seq<seq<string>>, b: seq<string>)
    ensures Total(batches + [b]) == Total(batches) + |b|
  {
    if batches == [] {
      assert [] + [b] == [b];
      assert [b][1..] == [];
    } else {
      assert (batches + [b])[1..] == batches[1..] + [b];
      TotalAppend(batches[1..], b);
    }
  }

  lemma {:induction false} SentAppend(batches: seq<seq<string>>, b: seq<string>)
    ensures Sent(batches + [b]) == Sent(batches) + b
  {
    if batches == [] {
      assert [] + [b] == [b];
      assert [b][1..] == [];
    } else {
      assert (batches + [b])[1..] == batches[1..] + [b];
      SentAppend(batches[1..], b);
    }
  }

  /** `total_sent` counts every link found: it is the length of everything sent. */
  lemma {:induction false} TotalIsSentLength(batches: seq<seq<string>>)
    ensures Total(batches) == |Sent(batches)|
  {
    if batches != [] {
      TotalIsSentLength(batches[1..]);
    }
  }

  /**
   * Termination and the exit condition. Every batch is non-empty, so the loop
   * runs at most 10 - total times; the loop ends Filled exactly when the
   * count reached 10 (possibly more), and every batch was fetched while the
   * count was still below 10.
   */
  lemma {:induction false} PaginateShape(query: string, offset: int, total: nat, pages: Pages)
    ensures var run := Paginate(query, offset, total, pages);
      && (forall i :: 0 <= i < |run.batches| ==> run.batches[i] != [])
      && |run.batches| <= (if total < PageSize then PageSize - total else 0)
      && (run.stop.Filled? <==> total + Total(run.batches) >= PageSize)
      && (forall k :: 0 <= k < |run.batches| ==> total + Total(run.batches[..k]) < PageSize)
    decreases PageSize - total
  {
    var run := Paginate(query, offset, total, pages);
    if total < PageSize {
      var outcome := pages(query, offset);
      if outcome.Success? && outcome.value != [] {
        var urls := outcome.value;
        var rest := Paginate(query, offset + OffsetStep, total + |urls|, pages);
        PaginateShape(query, offset + OffsetStep, total + |urls|, pages);
        assert run.batches == [urls] + rest.batches;
        assert run.batches[1..] == rest.batches;
        forall k | 0 <= k < |run.batches|
          ensures total + Total(run.batches[..k]) < PageSize
        {
          if k > 0 {
            assert run.batches[..k][1..] == rest.batches[..k - 1];
          }
        }
      }
    }
  }

  /**
   * The offsets queried: the i-th batch is what the search returned at
   * offset + 10 * i, and the search after the last batch (if the loop did not
   * stop Filled) returned nothing or raised, at offset + 10 * |batches|.
   */
  lemma {:induction false} PaginateOffsets(query: string, offset: int, total: nat, pages: Pages)
    ensures var run := Paginate(query, offset, total, pages);
      && (forall i :: 0 <= i < |run.batches| ==>
            pages(query, offset + OffsetStep * i) == Success(run.batches[i]))
      && (run.stop.Exhausted? ==>
            pages(query, NextOffset(offset, run)) == Success([]))
      && (run.stop.Aborted? ==>
            pages(query, NextOffset(offset, run)) == Failure(run.stop.error))
    decreases PageSize - total
  {
    var run := Paginate(query, offset, total, pages);
    if total < PageSize {
      var outcome := pages(query, offset);
      if outcome.Success? && outcome.value != [] {
        var urls := outcome.value;
        var rest := Paginate(query, offset + OffsetStep, total + |urls|, pages);
        PaginateOffsets(query, offset + OffsetStep, total + |urls|, pages);
        assert run.batches == [urls] + rest.batches;
        forall i | 0 <= i < |run.batches|
          ensures pages(query, offset + OffsetStep * i) == Success(run.batches[i])
        {
          if i > 0 {
            assert run.batches[i] == rest.batches[i - 1];
            assert offset + OffsetStep * i == offset + OffsetStep + OffsetStep * (i - 1);
          }
        }
        assert NextOffset(offset, run) == NextOffset(offset + OffsetStep, rest);
      }
    }
  }

  /** Resuming after `done` delivers `done` and then exactly the batches `Paginate` would from that state. */
  lemma {:induction false} ResumeAfter(query: string, offset: int, total: nat, pages: Pages, done: seq<seq<string>>)
    ensures var rest := Paginate(query, offset, total, pages);
      Resume(query, offset, total, pages, done) == Run(done + rest.batches, rest.stop)
    decreases PageSize - total
  {
    if total < PageSize && pages(query, offset).Success? && pages(query, offset).value != [] {
      var urls := pages(query, offset).value;
      var rest := Paginate(query, offset + OffsetStep, total + |urls|, pages);
      ResumeAfter(query, offset + OffsetStep, total + |urls|, pages, done + [urls]);
      assert (done + [urls]) + rest.batches == done + ([urls] + rest.batches);
    } else {
      assert done + [] == done;
    }
  }

  /** The resumed loop ends right here on a full page, an error, or an empty batch. */
  lemma ResumeStop(query: string, offset: int, total: nat, pages: Pages, done: seq<seq<string>>)
    ensures total >= PageSize ==> Resume(query, offset, total, pages, done) == Run(done, Filled)
    ensures total < PageSize && pages(query, offset).Failure? ==>
      Resume(query, offset, total, pages, done) == Run(done, Aborted(pages(query, offset).error))
    ensures total < PageSize && pages(query, offset) == Success([]) ==>
      Resume(query, offset, total, pages, done) == Run(done, Exhausted)
  {
  }

  /** Resuming before any batch is the whole loop. */
  lemma PaginateFromStart(query: string, offset: int, pages: Pages)
    ensures Resume(query, offset, 0, pages, []) == Paginate(query, offset, 0, pages)
  {
    ResumeAfter(query, offset, 0, pages, []);
    assert [] + Paginate(query, offset, 0, pages).batches == Paginate(query, offset, 0, pages).batches;
  }

  /** The stored offset never falls behind the starting one and stays on its 10-step grid. */
  lemma NextOffsetAdvances(query: string, offset: int, pages: Pages)
    ensures var run := Paginate(query, offset, 0, pages);
      && NextOffset(offset, run) >= offset
      && (NextOffset(offset, run) - offset) % OffsetStep == 0
      && (Shown(run) ==> NextOffset(offset, run) > offset)
  {
    var run := Paginate(query, offset, 0, pages);
    if Shown(run) {
      assert run.batches != [];
    }
  }

  /** One search that already yields 10 or more links fills the page in a single batch. */
  lemma FullFirstBatch(query: string, offset: int, pages: Pages, urls: seq<string>)
    requires pages(query, offset) == Success(urls)
    requires |urls| >= PageSize
    ensures Paginate(query, offset, 0, pages) == Run([urls], Filled)
  {
    assert Paginate(query, offset + OffsetStep, |urls|, pages) == Run([], Filled);
  }

  /** A short batch followed by an empty search ends Exhausted after that one batch. */
  lemma ShortBatchThenNothing(query: string, offset: int, pages: Pages, urls: seq<string>)
    requires pages(query, offset) == Success(urls)
    requires 0 < |urls| < PageSize
    requires pages(query, offset + OffsetStep) == Success([])
    ensures Paginate(query, offset, 0, pages) == Run([urls], Exhausted)
  {
    assert Paginate(query, offset + OffsetStep, |urls|, pages) == Run([], Exhausted);
  }
}
