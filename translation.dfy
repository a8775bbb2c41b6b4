/**
 * The query translator `translate_query` (main.py lines 92-118) and its
 * process-wide credentials cache `GOOGLE_CREDENTIALS`. Fetching the secret
 * and calling the translation service are oracles: each call receives the
 * outcome they would have.
 */
module Translation {
  import opened Wrappers

  /** The service-account JSON object stored in the secret store. */
  type Credentials = map<string, string>

  /** `GOOGLE_CREDENTIALS`: `{}` at start, afterwards whatever `get_secret` returned (a dict, or None). */
  type Cache = Option<Credentials>

  /** The value of the cache when the process starts. */
  const InitialCache: Cache := Some(map[])

  /** Python truthiness of the cache: None and the empty dict are both falsy. */
  predicate Falsy(cache: Cache)
  {
    cache.None? || cache.value == map[]
  }

  /** `GOOGLE_CREDENTIALS_SECRET_NAME` is set to a non-empty string. */
  predicate Configured(secretName: Option<string>)
  {
    secretName.Some? && secretName.value != []
  }

  /** What `get_secret` does on one call. */
  datatype SecretFetch =
    | SecretString(json: Credentials)  // the response carries a "SecretString": its parsed JSON is returned
    | NoSecretString                   // no "SecretString": the function falls off its end and returns None
    | FetchRaised                      // the secret store call raised

  /** What the translation client does on one call. */
  datatype TranslateCall =
    | Translations(texts: seq<string>)  // `translate_text` answered with these translations
    | CallRaised                        // `translate_text` raised (caught, logged)
    | ClientRaised                      // building the client from the credentials raised (not caught)

  /** Why `translate_query` raised. */
  datatype TranslateError = SecretStoreFailed | ClientFailed

  /** The guard of line 97: a fetch is attempted only when a secret name is set and the cache is falsy. */
  predicate ShouldFetch(secretName: Option<string>, cache: Cache)
  {
    Configured(secretName) && Falsy(cache)
  }

  /** The cache after one call. A fetch that raises leaves it as it was. */
  function CacheAfter(secretName: Option<string>, cache: Cache, fetch: SecretFetch): Cache
  {
    if !ShouldFetch(secretName, cache) then cache
    else match fetch
      case SecretString(json) => Some(json)
      case NoSecretString => None
      case FetchRaised => cache
  }

  /** What one call of `translate_query` returns or raises. */
  function Translate(secretName: Option<string>, cache: Cache, fetch: SecretFetch, call: TranslateCall, query: string)
    : Result<string, TranslateError>
  {
    if ShouldFetch(secretName, cache) && fetch.FetchRaised? then Failure(SecretStoreFailed)
    else if Falsy(CacheAfter(secretName, cache, fetch)) then Success(query)
    else match call
      case ClientRaised => Failure(ClientFailed)
      case CallRaised => Success(query)
      case Translations(texts) => Success(if texts == [] then query else texts[0])
  }

  /** The module-level cache together with the function that uses it. */
  class Translator {
    var credentials: Cache

    constructor ()
      ensures credentials == InitialCache
    {
      credentials := InitialCache;
    }

    /** One call of `translate_query`; `fetched` tells whether the secret store was asked. */
    method TranslateQuery(secretName: Option<string>, query: string, fetch: SecretFetch, call: TranslateCall)
      returns (fetched: bool, r: Result<string, TranslateError>)
      modifies this
      ensures fetched == ShouldFetch(secretName, old(credentials))
      ensures credentials == CacheAfter(secretName, old(credentials), fetch)
      ensures r == Translate(secretName, old(credentials), fetch, call, query)
    {
      fetched := false;
      if Configured(secretName) && Falsy(credentials) {
        fetched := true;
        match fetch
        case FetchRaised =>
          return fetched, Failure(SecretStoreFailed);
        case SecretString(json) =>
          credentials := Some(json);
        case NoSecretString =>
          credentials := None;
      }
      if Falsy(credentials) {
        return fetched, Success(query);
      }
      match call
      case ClientRaised =>
        r := Failure(ClientFailed);
      case CallRaised =>
        r := Success(query);
      case Translations(texts) =>
        if texts != [] {
          return fetched, Success(texts[0]);
        }
        r := Success(query);
    }
  }

  /**
   * Translation never stands in the way of the search except by raising: the
   * result is the first translation when the service gave one, and the
   * original query in every other non-raising case.
   */
  lemma TranslateResult(secretName: Option<string>, cache: Cache, fetch: SecretFetch, call: TranslateCall, query: string)
    ensures var r := Translate(secretName, cache, fetch, call, query);
      && (r.Failure? <==>
           (ShouldFetch(secretName, cache) && fetch.FetchRaised?)
           || (!Falsy(CacheAfter(secretName, cache, fetch)) && call.ClientRaised?))
      && (r.Success? && r.value != query ==> call.Translations? && call.texts != [] && r.value == call.texts[0])
      && (Falsy(CacheAfter(secretName, cache, fetch)) && r.Success? ==> r.value == query)
      && ((!(ShouldFetch(secretName, cache) && fetch.FetchRaised?) && !Falsy(CacheAfter(secretName, cache, fetch))
           && call.Translations? && call.texts != [])
          ==> r == Success(call.texts[0]))
  {
  }

  /**
   * The effect of successive calls on the cache: the final cache and how many
   * times the secret store was asked, one fetch outcome per call.
   */
  function Replay(secretName: Option<string>, cache: Cache, fetches: seq<SecretFetch>): (Cache, nat)
    decreases |fetches|
  {
    if fetches == [] then (cache, 0)
    else
      var (final, attempts) := Replay(secretName, CacheAfter(secretName, cache, fetches[0]), fetches[1..]);
      (final, attempts + if ShouldFetch(secretName, cache) then 1 else 0)
  }

  /** Once the cache holds credentials, no later call asks the secret store again or changes the cache. */
  lemma {:induction false} FilledCacheNeverRefetched(secretName: Option<string>, cache: Cache, fetches: seq<SecretFetch>)
    requires !Falsy(cache)
    ensures Replay(secretName, cache, fetches) == (cache, 0)
  {
    if fetches != [] {
      FilledCacheNeverRefetched(secretName, cache, fetches[1..]);
    }
  }

  /** A fetch that finds no secret is not remembered: every call asks the secret store again. */
  lemma {:induction false} EmptyFetchRetried(secretName: Option<string>, cache: Cache, fetches: seq<SecretFetch>)
    requires Configured(secretName) && Falsy(cache)
    requires forall k :: 0 <= k < |fetches| ==> fetches[k] == NoSecretString
    ensures Replay(secretName, cache, fetches).1 == |fetches|
    decreases |fetches|
  {
    if fetches != [] {
      EmptyFetchRetried(secretName, None, fetches[1..]);
    }
  }

  /** Without a secret name the store is never asked and the cache never changes. */
  lemma {:induction false} UnconfiguredNeverFetches(secretName: Option<string>, cache: Cache, fetches: seq<SecretFetch>)
    requires !Configured(secretName)
    ensures Replay(secretName, cache, fetches) == (cache, 0)
  {
    if fetches != [] {
      UnconfiguredNeverFetches(secretName, cache, fetches[1..]);
    }
  }
}
