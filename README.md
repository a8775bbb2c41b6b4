# gifobot: the decision layer, in Dafny

gifobot is a Telegram bot that answers a text message with animated GIFs. It
translates the text to English and asks an image search API for animated
images, page after page. It keeps the links whose MIME type is `image/gif` and
whose HEAD probe succeeds, until ten were found. It then offers a "more"
button that resumes the search where it stopped. A `restricted` decorator lets
only the users on an allow-list talk to it.

This project models that decision layer of `main.py`. Every call to the
outside world is replaced by an oracle input:

- the search request: `Search`, a function from (query, offset) to a response;
- each HEAD probe: the `probe` field of every hit in that response;
- the secret store and the translation client: one outcome per call.

Every chat reply is appended to a log. The files are:

- `wrappers.dfy`: `Option` and `Result`.
- `access_guard.dfy` (module `AccessGuard`): the `ALLOWED_USERS` parsing of
  line 38 and the membership test of `restricted`. These are pure functions.
- `gif_filter.dfy` (module `GifFilter`): `find_pics`. `SearchOutcome` says
  what it returns or raises for a response. The method `FindPics` runs the
  `for item in result["items"]` loop and is proved to compute that.
- `translation.dfy` (module `Translation`): `translate_query`. The
  process-wide `GOOGLE_CREDENTIALS` is the field of class `Translator`, and
  `CacheAfter` and `Translate` specify one call.
- `pagination.dfy` (module `Pagination`): the run of the `while total_sent <
  10` loop of `find` as a recursive function. `Paginate` gives the non-empty
  batches found and why the loop stopped. `Resume` is the same loop seen
  part-way through, which is the form the loop invariant uses.
- `bot.dfy` (module `Bot`): class `Chat` holds the reply log and
  `context.user_data`, and its methods are the handlers.
  - `Find` and its loop `SearchLoop` are proved to follow `Paginate`.
  - The effect functions (`FindEffect`, `CallbackEffect`, `SearchEffect`,
    `Denial`) state what each handler sends, stores and raises.
  - The lemmas state the properties of those effects.

## Model

| member | source | states |
|---|---|---|
| AccessGuard.Split | main.py:38 | `split(",")` yields at least one piece, and no piece contains a comma |
| AccessGuard.JoinSplit | main.py:38 | splitting loses only the separators: joining the pieces with commas gives the string back |
| AccessGuard.NonEmpty | main.py:38 | `filter(None, …)` keeps at most as many pieces, and every kept piece is non-empty |
| AccessGuard.NonEmptyMembership | main.py:38 | a string survives the filter iff it is one of the pieces and is not empty |
| AccessGuard.SplitNothingKeptIff | main.py:38 | no piece survives iff the string consists of commas only (the empty string included) |
| AccessGuard.AllowList | main.py:38 | the allow-list has one id per non-empty piece |
| AccessGuard.AllowListEmptyIff | main.py:38 | the allow-list is empty iff `ALLOWED_USERS` is unset or holds only commas |
| AccessGuard.AdmitsFromEnv | main.py:38-49 | a user passes the guard iff the configured string names nobody, or one of its non-empty pieces parses to that user's id (both directions) |
| AccessGuard.UnsetAdmitsEveryone | main.py:38-49 | with `ALLOWED_USERS` unset every user passes |
| GifFilter.AcceptedLinks | main.py:72-89 | at most one link per hit |
| GifFilter.FindPics | main.py:66-89 | the loop over the items returns exactly `SearchOutcome`. A failed request raises, a 4xx/5xx status raises with its code, a body without "items" gives `[]`, and otherwise the result is the accepted links in response order |
| GifFilter.AcceptedLinksConcat | main.py:74-87 | every hit is judged on its own: filtering distributes over concatenation |
| GifFilter.RejectedHitDropsOnlyItself | main.py:76-87 | a hit with a wrong MIME type, a status above 299, a timeout or another probe error removes only its own link |
| GifFilter.AcceptedHitKeptInPlace | main.py:76-81 | an accepted hit contributes its link exactly at its position |
| GifFilter.AcceptedLinksSound | main.py:74-81 | every returned link is the link of an accepted hit |
| GifFilter.AcceptedLinksComplete | main.py:74-81 | the link of every accepted hit is returned |
| GifFilter.MissingItemsYieldNothing | main.py:70-73 | a non-error response without "items" yields the empty list |
| Translation.Translator.TranslateQuery | main.py:95-118 | one call fetches the secret iff a secret name is set and the cache is falsy. It leaves the cache as `CacheAfter` says (a fetch that finds no secret stores None; a fetch that raises changes nothing) and returns or raises what `Translate` says |
| Translation.TranslateResult | main.py:97-118 | the call raises iff the secret fetch raised or building the client raised. With credentials and a non-empty answer the result is the first translation; a result that differs from the query is always that first translation, and with no credentials the query comes back unchanged |
| Translation.FilledCacheNeverRefetched | main.py:97-98 | once the cache holds credentials, no later call asks the secret store or changes the cache |
| Translation.EmptyFetchRetried | main.py:62-98 | a fetch that finds no secret is not remembered: every later call asks again |
| Translation.UnconfiguredNeverFetches | main.py:97 | without a secret name the store is never asked and the cache never changes |
| Pagination.TotalAppend | main.py:149-150 | each non-empty batch adds its length to `total_sent` |
| Pagination.TotalIsSentLength | main.py:150-156 | `total_sent` counts the links found, which is the number of animations attempted |
| Pagination.PaginateShape | main.py:140-160 | every batch is non-empty and at most `10 - total` batches run (termination). The loop ends on a full page exactly when the count reached 10 or more, and every batch was fetched while the count was below 10 |
| Pagination.PaginateOffsets | main.py:143-151 | the i-th batch is what the search returned at `start + 10·i`. An empty or failed search that ends the loop happened at `start + 10·(number of batches)` |
| Pagination.ResumeAfter | main.py:140-160 | resuming the loop after the batches `done` delivers `done` and then exactly what `Paginate` delivers from that state |
| Pagination.ResumeStop | main.py:140-160 | the resumed loop ends at once on a full count, a search error or an empty batch |
| Pagination.PaginateFromStart | main.py:137-140 | resuming before any batch is the whole loop |
| Pagination.NextOffsetAdvances | main.py:151-163 | the stored `start_from` never falls behind the starting offset, stays on its 10-step grid, and is strictly ahead whenever the button is shown |
| Pagination.FullFirstBatch | main.py:140-151 | one search with 10 or more links fills the page in a single batch |
| Pagination.ShortBatchThenNothing | main.py:149-160 | a short batch followed by an empty search ends the loop after that batch |
| Bot.Chat.Find | main.py:137-167 | the run is `Paginate`'s. The log grows by its animations, the closing notice and the button. The session is written with the next offset and the query iff the button is shown, and a search error is re-raised |
| Bot.Chat.SearchLoop | main.py:140-160 | the loop performs `Paginate`'s run. `start_from` is the start plus 10 per batch and `total_sent` is the links counted. The log grows by the animations and the closing notice, and the session is untouched |
| Bot.Chat.Round | main.py:141-160 | one pass of the body appends the 429 notice, the batch's animations or "nothing found", according to `find_pics`'s outcome |
| Bot.Chat.SearchOnce | main.py:142-147 | `find_pics`'s outcome, with exactly one rate-limit notice on a 429 and none on any other error |
| Bot.Chat.Deliver | main.py:152-156 | one animation reply per link, in order |
| Bot.Chat.Start | main.py:121-124 | `/start` sends the greeting and changes nothing else |
| Bot.Chat.NewSearch | main.py:127-134 | a text message translates the text and then searches from offset 1. A translation error is raised before any reply |
| Bot.Chat.OnCallback | main.py:176-188 | the `/more` dispatch behaves as `CallbackEffect` |
| Bot.Chat.Handle | main.py:45-55 | the wrapped handler runs iff the user passes the guard. A refused user is answered as `DenialAsWritten` says: one denial for a command or a text message, while a refused button press sends nothing and raises; the session is unchanged either way. An admitted user gets the handler's effect |
| Bot.AnimationsFirst | main.py:149-156 | the first replies of `find` are exactly the links found, in order |
| Bot.PromptOnceIffShown | main.py:162-166 | the "more" button is sent exactly once when the loop found something and ended normally, and never otherwise |
| Bot.NothingFoundOnceIffExhausted | main.py:157-160 | "nothing found" is sent exactly once when a search came back empty, and never otherwise |
| Bot.FindSessionWrittenIffPrompt | main.py:162-166 | for every run and every session, the session is written iff the button is sent, with the query and the start plus 10 per non-empty batch. A raised search error leaves it untouched |
| Bot.FullFirstPage | main.py:137-166 | 10 or more links on the first search: those animations, the button, and the session 10 further |
| Bot.ShortPageThenNothing | main.py:137-166 | a short first batch and then an empty search: the animations, "nothing found", and still the button with the session 10 further |
| Bot.RateLimitedFirstSearch | main.py:142-147 | a 429 on the first search: only the rate-limit notice, the session untouched, the error re-raised |
| Bot.OtherHttpErrorFirstSearch | main.py:142-147 | any other HTTP error status on the first search: no reply, the session untouched, the error re-raised |
| Bot.MoreWithoutSessionDoesNotSearch | main.py:181-188 | `/more` without a stored offset and query sends only the "what did you want" prompt, whatever the search would answer |
| Bot.MoreResumesStoredSearch | main.py:181-186 | `/more` with a stored offset and query runs `find` from them |
| Bot.OtherCallbackIgnored | main.py:181 | any other payload does nothing |
| Bot.DenialAsWrittenFailsOnButton | main.py:49-52 | as written, refusing a button press sends nothing and raises |
| Bot.DenialRepliesOnce | main.py:49-52 | as intended, a refused user gets exactly one denial on every kind of update, and nothing else changes |

Two behaviours of `main.py` worth noting, both modelled as the code has them:

- a partial page that ends on an empty search still shows the "more" button,
  because the button depends only on `total_sent > 0` (main.py:162);
- a secret fetch that returns no `SecretString` stores None, which is falsy,
  so the next call fetches again (main.py:62-63, main.py:97).

## Left out

- HTTP: URL building, `quote_plus`, the search GET, `raise_for_status` and the HEAD probes are oracle inputs. Each `Hit` carries the outcome its probe would have, and only status codes 400-599 raise.
- JSON decoding of the search body and missing `link`/`mime` keys in an item: every item is assumed to carry both.
- Telegram API: `send_chat_action`, the dispatcher wiring and `main` are left out; `reply_text` and `reply_animation` become entries of the reply log.
- Bot.Chat.Deliver: records one animation reply per link whether or not Telegram accepts it. A `BadRequest` is only logged by the source and does not stop the loop, so the log records delivery attempts.
- `int()` parsing of an allow-list piece is the parameter `parse`; Python's whitespace and sign rules are library behaviour.
- The secret store (boto3) and the translation client are oracles. Credentials are modelled as a string map, so a secret whose JSON is not an object is not modelled.
- Logging, `print`, `handle_error` and the SIGTERM handler have no behaviour to state.
- `int(context.user_data["start_from"])` at line 184: the session stores an integer, so the conversion is the identity.
- Concurrency between updates: each handler runs to completion on one chat's state.

## Findings

| source | as written | input that shows it | evidently intended | confidence | as-written member | corrected member |
|---|---|---|---|---|---|---|
| main.py:51 | `restricted` sends its refusal with `update.message.reply_text`, but a callback-query update carries no `message`, so the refusal raises and nothing is sent | a user who is not on a non-empty allow-list presses the "more" button (for instance in a group chat) | reply on the message the update belongs to, as `find` does at line 139 | medium; not executed | Bot.DenialAsWrittenFailsOnButton | Bot.DenialRepliesOnce |

`Bot.Chat.Handle` keeps the behaviour as written (`DenialAsWritten`); `Denial`
is the corrected refusal that the row above proves.
