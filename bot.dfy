/**
 * The chat-facing handlers: `find` (main.py lines 137-167), `new_search`
 * (lines 127-134), `start` (lines 121-124), the `/more` branch of
 * `callback_query_handler` (lines 176-188), all behind the `restricted`
 * guard (lines 45-55). Every chat reply is appended to a log; the
 * per-user `context.user_data` is the session.
 */
module Bot {
  import opened Wrappers
  import opened AccessGuard
  import opened GifFilter
  import opened Translation
  import opened Pagination

  /** Callback payload of the "more" button, and the only payload handled. */
  const MoreCommand: string := "/more"

  /** `new_search` starts every search at this offset. */
  const FirstOffset: int := 1

  /** The search API's "too many requests" status. */
  const TooManyRequests: int := 429

  /** A message the bot sends into the chat. */
  datatype Reply =
    | Denied                           // "you may not use this bot"
    | Greeting                         // the welcome text of /start
    | Animation(url: string)           // `reply_animation` of one GIF link (a BadRequest is caught and logged)
    | NothingFound                     // "found nothing"
    | TooManySearches                  // "too many searches"
    | MorePrompt(callbackData: string) // "search more?" with one inline button carrying this payload
    | WhatDidYouWant                   // "what did you want to find?"

  /** The keys `start_from` and `query` of `context.user_data`. */
  datatype Session = Session(startFrom: Option<int>, query: Option<string>)

  /** The kinds of update the dispatcher routes to the handlers. */
  datatype Update =
    | StartCommand            // the /start command
    | Message(text: string)   // any text message: a new search
    | CallbackQuery(data: string)  // a press on an inline button

  /** Why a handler raised. */
  datatype HandlerError =
    | SearchFailed(search: SearchError)
    | TranslationFailed(translation: TranslateError)
    | NoMessageToReply  // `update.message` is None, so `update.message.reply_text` raises

  /** How a handler ended: normally, or by an exception left to the framework's error handler. */
  datatype Outcome = Done | Raised(error: HandlerError)

  /** What a handler does: the replies it appends, the session it leaves, how it ends. */
  datatype Effect = Effect(sent: seq<Reply>, session: Session, outcome: Outcome)

  function Animations(urls: seq<string>): seq<Reply>
  {
    seq(|urls|, k requires 0 <= k < |urls| => Animation(urls[k]))
  }

  /** The replies of one run of `find`: its animations, then the closing notice, then the "more" button. */
  function FindReplies(run: Run): seq<Reply>
  {
    LoopReplies(run) + (if Shown(run) then [MorePrompt(MoreCommand)] else [])
  }

  /** The replies sent inside the loop: one animation per link found, then the closing notice. */
  function LoopReplies(run: Run): seq<Reply>
  {
    Animations(Sent(run.batches)) + Notice(run.stop)
  }

  /** The text reply that closes the loop: the rate-limit notice on a 429, "nothing found" on an empty search. */
  function Notice(stop: Stop): seq<Reply>
  {
    match stop
    case Aborted(e) => if e == HttpStatus(TooManyRequests) then [TooManySearches] else []
    case Exhausted => [NothingFound]
    case Filled => []
  }

  /** The replies of one pass of the loop body, given what `find_pics` did. */
  function RoundReplies(found: Result<seq<string>, SearchError>): seq<Reply>
  {
    match found
    case Failure(e) => Notice(Aborted(e))
    case Success(urls) => if urls == [] then Notice(Exhausted) else Animations(urls)
  }

  /** The effect of `find(update, context, startFrom, query)` on a chat whose session is `session`. */
  function FindEffect(session: Session, startFrom: int, query: string, search: Search): Effect
  {
    RunEffect(session, startFrom, query, Paginate(query, startFrom, 0, Outcomes(search)))
  }

  /** The effect of a run of the loop started at `startFrom`: the replies, the session written iff shown, the exception. */
  function RunEffect(session: Session, startFrom: int, query: string, run: Run): Effect
  {
    Effect(
      FindReplies(run),
      if Shown(run) then Session(Some(NextOffset(startFrom, run)), Some(query)) else session,
      if run.stop.Aborted? then Raised(SearchFailed(run.stop.error)) else Done)
  }

  /** The effect of `new_search` once the query went through `translate_query`. */
  function SearchEffect(session: Session, translated: Result<string, TranslateError>, search: Search): Effect
  {
    match translated
    case Failure(e) => Effect([], session, Raised(TranslationFailed(e)))
    case Success(query) => FindEffect(session, FirstOffset, query, search)
  }

  /** The effect of `callback_query_handler` for the payload `data`. */
  function CallbackEffect(session: Session, data: string, search: Search): Effect
  {
    if data != MoreCommand then Effect([], session, Done)
    else if session.startFrom.Some? && session.query.Some? then
      FindEffect(session, session.startFrom.value, session.query.value, search)
    else Effect([WhatDidYouWant], session, Done)
  }

  /**
   * The refusal of `restricted` as written: it replies through
   * `update.message`, which a callback-query update does not carry, so for a
   * button press the reply itself raises and nothing is sent.
   */
  function DenialAsWritten(session: Session, update: Update): Effect
  {
    if update.CallbackQuery? then Effect([], session, Raised(NoMessageToReply))
    else Effect([Denied], session, Done)
  }

  /** The refusal as intended: one denial reply to the message the update belongs to, whatever its kind. */
  function Denial(session: Session, update: Update): Effect
  {
    Effect([Denied], session, Done)
  }

  /** One chat as the handlers see it: the replies sent so far and `context.user_data`. */
  class Chat {
    var replies: seq<Reply>
    var session: Session

    constructor ()
      ensures replies == [] && session == Session(None, None)
    {
      replies := [];
      session := Session(None, None);
    }

    /** `start`: the greeting. */
    method Start()
      modifies this
      ensures replies == old(replies) + [Greeting] && session == old(session)
    {
      replies := replies + [Greeting];
    }

    /**
     * `find`: search page after page until 10 links were found, then offer
     * more. `run` names the run of the loop, which is `Paginate`'s.
     */
    method Find(startFrom: int, query: string, search: Search) returns (outcome: Outcome, ghost run: Run)
      modifies this
      ensures run == Paginate(query, startFrom, 0, Outcomes(search))
      ensures replies == old(replies) + FindReplies(run)
      ensures session == if Shown(run) then Session(Some(NextOffset(startFrom, run)), Some(query)) else old(session)
      ensures outcome == if run.stop.Aborted? then Raised(SearchFailed(run.stop.error)) else Done
    {
      var offset, totalSent, failure, done, stop := SearchLoop(startFrom, query, search);
      run := Run(done, stop);
      if failure.Some? {
        assert !Shown(run) && FindReplies(run) == LoopReplies(run) + [];
        return Raised(SearchFailed(failure.value)), run;
      }
      if totalSent > 0 {
        assert Shown(run) && NextOffset(startFrom, run) == offset;
        session := Session(Some(offset), Some(query));
        replies := replies + [MorePrompt(MoreCommand)];
      } else {
        assert !Shown(run) && FindReplies(run) == LoopReplies(run) + [];
      }
      outcome := Done;
    }

    /**
     * The `while total_sent < 10` loop of `find`, up to the `break` or the
     * re-raised search error; `done` and `stop` name the run it performed.
     */
    method SearchLoop(startFrom: int, query: string, search: Search)
      returns (offset: int, totalSent: nat, failure: Option<SearchError>,
               ghost done: seq<seq<string>>, ghost stop: Stop)
      modifies `replies
      ensures Paginate(query, startFrom, 0, Outcomes(search)) == Run(done, stop)
      ensures offset == startFrom + OffsetStep * |done| && totalSent == Total(done)
      ensures failure == if stop.Aborted? then Some(stop.error) else None
      ensures replies == old(replies) + LoopReplies(Run(done, stop))
    {
      totalSent := 0;
      offset := startFrom;
      failure := None;
      done := [];
      stop := Filled;
      ghost var pages := Outcomes(search);
      while totalSent < PageSize
        invariant offset == startFrom + OffsetStep * |done|
        invariant totalSent == Total(done)
        invariant Resume(query, offset, totalSent, pages, done) == Resume(query, startFrom, 0, pages, [])
        invariant replies == old(replies) + Animations(Sent(done))
        invariant stop == Filled && failure == None
        decreases PageSize - totalSent
      {
        var found := Round(query, offset, search);
        if found.Failure? {
          failure := Some(found.error);
          stop := Aborted(found.error);
          break;
        }
        var urls := found.value;
        if urls == [] {
          stop := Exhausted;
          break;
        }
        totalSent := totalSent + |urls|;
        offset := offset + OffsetStep;
        TotalAppend(done, urls);
        DeliveredAppend(old(replies), done, urls);
        done := done + [urls];
      }
      ResumeStop(query, offset, totalSent, pages, done);
      PaginateFromStart(query, startFrom, pages);
      AppendAssoc(old(replies), Animations(Sent(done)), Notice(stop));
    }

    /**
     * One pass of the loop body up to the decision to go on: the search with
     * its 429 notice, then either one animation per link or "nothing found".
     */
    method Round(query: string, offset: int, search: Search) returns (found: Result<seq<string>, SearchError>)
      modifies `replies
      ensures found == SearchOutcome(search(query, offset))
      ensures replies == old(replies) + RoundReplies(found)
    {
      found := SearchOnce(query, offset, search);
      if found.Success? {
        if found.value != [] {
          Deliver(found.value);
        } else {
          replies := replies + [NothingFound];
        }
      }
    }

    /** The `try` around `find_pics`: a 429 is announced in the chat before the error is passed on. */
    method SearchOnce(query: string, offset: int, search: Search) returns (found: Result<seq<string>, SearchError>)
      modifies `replies
      ensures found == SearchOutcome(search(query, offset))
      ensures replies == old(replies) + if found.Failure? then Notice(Aborted(found.error)) else []
    {
      found := FindPics(search(query, offset));
      if found.Failure? && found.error == HttpStatus(TooManyRequests) {
        replies := replies + [TooManySearches];
      }
    }

    /** The `for url in urls` loop of `find`: one animation reply per link, in order. */
    method Deliver(urls: seq<string>)
      modifies `replies
      ensures replies == old(replies) + Animations(urls)
    {
      for j := 0 to |urls|
        invariant replies == old(replies) + Animations(urls[..j])
      {
        assert Animations(urls[..j + 1]) == Animations(urls[..j]) + [Animation(urls[j])];
        replies := replies + [Animation(urls[j])];
      }
      assert urls[..|urls|] == urls;
    }

    /** `new_search`: translate the text, then search from the first offset. */
    method NewSearch(text: string, translator: Translator, secretName: Option<string>,
                     fetch: SecretFetch, call: TranslateCall, search: Search)
      returns (outcome: Outcome)
      modifies this, translator
      ensures translator.credentials == CacheAfter(secretName, old(translator.credentials), fetch)
      ensures var e := SearchEffect(old(session), Translate(secretName, old(translator.credentials), fetch, call, text), search);
        replies == old(replies) + e.sent && session == e.session && outcome == e.outcome
    {
      var _, translated := translator.TranslateQuery(secretName, text, fetch, call);
      if translated.Failure? {
        return Raised(TranslationFailed(translated.error));
      }
      ghost var run;
      outcome, run := Find(FirstOffset, translated.value, search);
    }

    /** `callback_query_handler`: `/more` resumes the stored search, or asks what to look for. */
    method OnCallback(data: string, search: Search) returns (outcome: Outcome)
      modifies this
      ensures var e := CallbackEffect(old(session), data, search);
        replies == old(replies) + e.sent && session == e.session && outcome == e.outcome
    {
      outcome := Done;
      if data == MoreCommand {
        if session.startFrom.Some? && session.query.Some? {
          ghost var run;
          outcome, run := Find(session.startFrom.value, session.query.value, search);
        } else {
          replies := replies + [WhatDidYouWant];
        }
      }
    }

    /**
     * One update through `restricted` and the dispatcher. `ran` tells whether
     * the wrapped handler was invoked. A refused update is answered as the
     * guard is written: a button press raises instead of being answered.
     */
    method Handle(allowed: seq<int>, user: int, update: Update, translator: Translator,
                  secretName: Option<string>, fetch: SecretFetch, call: TranslateCall, search: Search)
      returns (ran: bool, outcome: Outcome)
      modifies this, translator
      ensures ran == Admits(allowed, user)
      ensures !ran ==> var e := DenialAsWritten(old(session), update);
        replies == old(replies) + e.sent && session == e.session && outcome == e.outcome
      ensures ran && update.StartCommand? ==>
        replies == old(replies) + [Greeting] && session == old(session) && outcome == Done
      ensures ran && update.Message? ==>
        && translator.credentials == CacheAfter(secretName, old(translator.credentials), fetch)
        && var e := SearchEffect(old(session), Translate(secretName, old(translator.credentials), fetch, call, update.text), search);
          replies == old(replies) + e.sent && session == e.session && outcome == e.outcome
      ensures ran && update.CallbackQuery? ==> var e := CallbackEffect(old(session), update.data, search);
        replies == old(replies) + e.sent && session == e.session && outcome == e.outcome
      ensures !(ran && update.Message?) ==> translator.credentials == old(translator.credentials)
    {
      ran := Admits(allowed, user);
      if !ran {
        if update.CallbackQuery? {
          return ran, Raised(NoMessageToReply);
        }
        replies := replies + [Denied];
        return ran, Done;
      }
      match update
      case StartCommand =>
        Start();
        outcome := Done;
      case Message(text) =>
        outcome := NewSearch(text, translator, secretName, fetch, call, search);
      case CallbackQuery(data) =>
        outcome := OnCallback(data, search);
    }
  }

  /** Delivering one more batch extends the animations by that batch's links. */
  lemma DeliveredAppend(before: seq<Reply>, done: seq<seq<string>>, urls: seq<string>)
    ensures before + Animations(Sent(done)) + Animations(urls) == before + Animations(Sent(done + [urls]))
  {
    SentAppend(done, urls);
    AnimationsConcat(Sent(done), urls);
  }

  lemma AppendAssoc<T>(a: seq<T>, b: seq<T>, c: seq<T>)
    ensures (a + b) + c == a + (b + c)
  {
  }

  lemma AnimationsConcat(a: seq<string>, b: seq<string>)
    ensures Animations(a + b) == Animations(a) + Animations(b)
  {
  }

  lemma NoPromptAmongAnimations(urls: seq<string>)
    ensures MorePrompt(MoreCommand) !in Animations(urls)
    ensures NothingFound !in Animations(urls)
  {
    assert forall r :: r in Animations(urls) ==> r.Animation?;
  }

  /** The animations of one `find` are exactly the links found, in order, and come first. */
  lemma AnimationsFirst(run: Run)
    ensures |FindReplies(run)| >= |Sent(run.batches)|
    ensures FindReplies(run)[..|Sent(run.batches)|] == Animations(Sent(run.batches))
  {
    var links := Animations(Sent(run.batches));
    assert FindReplies(run) == links + (Notice(run.stop) + (if Shown(run) then [MorePrompt(MoreCommand)] else []));
  }

  /** The "more" button is sent once when something was found and the loop was left normally, never otherwise. */
  lemma PromptOnceIffShown(run: Run)
    ensures multiset(FindReplies(run))[MorePrompt(MoreCommand)] == if Shown(run) then 1 else 0
  {
    var prompt := MorePrompt(MoreCommand);
    NoPromptAmongAnimations(Sent(run.batches));
    assert multiset(Animations(Sent(run.batches)))[prompt] == 0;
    assert multiset(Notice(run.stop))[prompt] == 0;
  }

  /** "Nothing found" is sent once exactly when a search came back empty. */
  lemma NothingFoundOnceIffExhausted(run: Run)
    ensures multiset(FindReplies(run))[NothingFound] == if run.stop.Exhausted? then 1 else 0
  {
    NoPromptAmongAnimations(Sent(run.batches));
    assert multiset(Animations(Sent(run.batches)))[NothingFound] == 0;
  }

  /**
   * Whatever run the loop makes, the session is written, with the query and
   * the offset 10 past the last non-empty batch, exactly when the "more"
   * button is sent; otherwise it is left as it was. A search error never
   * touches it.
   */
  lemma FindSessionWrittenIffPrompt(session: Session, startFrom: int, query: string, run: Run)
    ensures var e := RunEffect(session, startFrom, query, run);
      && e.session == (if MorePrompt(MoreCommand) in e.sent
                       then Session(Some(startFrom + OffsetStep * |run.batches|), Some(query))
                       else session)
      && (e.outcome.Raised? ==> e.session == session)
  {
    NoPromptAmongAnimations(Sent(run.batches));
    assert MorePrompt(MoreCommand) !in LoopReplies(run);
  }

  /** Ten or more links on the first search: ten animations, the session points 10 further, one "more" button. */
  lemma FullFirstPage(session: Session, startFrom: int, query: string, search: Search, urls: seq<string>)
    requires SearchOutcome(search(query, startFrom)) == Success(urls)
    requires |urls| >= PageSize
    ensures FindEffect(session, startFrom, query, search)
         == Effect(Animations(urls) + [MorePrompt(MoreCommand)], Session(Some(startFrom + OffsetStep), Some(query)), Done)
  {
    FullFirstBatch(query, startFrom, Outcomes(search), urls);
    assert Sent([urls]) == urls;
    assert Total([urls]) == |urls|;
  }

  /**
   * A few links, then an empty search: the animations, "nothing found", and
   * still the "more" button with the session 10 further.
   */
  lemma ShortPageThenNothing(session: Session, startFrom: int, query: string, search: Search, urls: seq<string>)
    requires SearchOutcome(search(query, startFrom)) == Success(urls)
    requires 0 < |urls| < PageSize
    requires SearchOutcome(search(query, startFrom + OffsetStep)) == Success([])
    ensures FindEffect(session, startFrom, query, search)
         == Effect(Animations(urls) + [NothingFound, MorePrompt(MoreCommand)],
                   Session(Some(startFrom + OffsetStep), Some(query)), Done)
  {
    ShortBatchThenNothing(query, startFrom, Outcomes(search), urls);
    assert Sent([urls]) == urls;
    assert Total([urls]) == |urls|;
  }

  /** A 429 on the first search: only the rate-limit notice, the session untouched, the error re-raised. */
  lemma RateLimitedFirstSearch(session: Session, startFrom: int, query: string, search: Search)
    requires search(query, startFrom).Response? && search(query, startFrom).status == TooManyRequests
    ensures FindEffect(session, startFrom, query, search)
         == Effect([TooManySearches], session, Raised(SearchFailed(HttpStatus(TooManyRequests))))
  {
    assert Paginate(query, startFrom, 0, Outcomes(search)) == Run([], Aborted(HttpStatus(TooManyRequests)));
    assert Sent([]) == [];
  }

  /** Any other HTTP error on the first search: no reply at all, the session untouched, the error re-raised. */
  lemma OtherHttpErrorFirstSearch(session: Session, startFrom: int, query: string, search: Search)
    requires search(query, startFrom).Response?
    requires RaisesForStatus(search(query, startFrom).status) && search(query, startFrom).status != TooManyRequests
    ensures FindEffect(session, startFrom, query, search)
         == Effect([], session, Raised(SearchFailed(HttpStatus(search(query, startFrom).status))))
  {
    assert Sent([]) == [];
  }

  /** `/more` without a stored search only asks what to find, whatever the search would answer. */
  lemma MoreWithoutSessionDoesNotSearch(session: Session, search: Search)
    requires session.startFrom.None? || session.query.None?
    ensures CallbackEffect(session, MoreCommand, search) == Effect([WhatDidYouWant], session, Done)
  {
  }

  /** `/more` with a stored search resumes it at the stored offset. */
  lemma MoreResumesStoredSearch(startFrom: int, query: string, search: Search)
    ensures var session := Session(Some(startFrom), Some(query));
      CallbackEffect(session, MoreCommand, search) == FindEffect(session, startFrom, query, search)
  {
  }

  /** A press on a button with any other payload does nothing. */
  lemma OtherCallbackIgnored(session: Session, data: string, search: Search)
    requires data != MoreCommand
    ensures CallbackEffect(session, data, search) == Effect([], session, Done)
  {
  }

  /** As written, refusing a button press sends no denial and raises instead. */
  lemma DenialAsWrittenFailsOnButton(session: Session)
    ensures DenialAsWritten(session, CallbackQuery(MoreCommand)) == Effect([], session, Raised(NoMessageToReply))
  {
  }

  /** As intended, a refused user gets exactly one denial, nothing else, on every kind of update. */
  lemma DenialRepliesOnce(session: Session, update: Update)
    ensures var e := Denial(session, update);
      e.sent == [Denied] && e.session == session && e.outcome == Done
  {
  }
}
