/**
 * The client's cached access token as a value, and what one call of
 * `get_access_token` does to it. The clock and the provider's answer are
 * inputs: nothing here reads a clock or talks to the network.
 */
module TokenCache {
  import opened Wrappers

  /** Seconds taken off the provider's token lifetime, as a safety margin. */
  const ExpiryMargin: int := 60

  /** The two cache fields; both start absent. Times are in seconds. */
  datatype Cache = Cache(token: Option<string>, expiry: Option<int>)

  const Empty: Cache := Cache(None, None)

  /** The parsed answer to a token request: `access_token` may be missing. */
  datatype FetchResult = FetchResult(accessToken: Option<string>, expiresIn: int)

  /**
   * What the environment answers during one call: the clock before the cache
   * check, the provider's answer should a fetch happen, and the clock when the
   * new expiry is computed.
   */
  datatype TokenEnv = TokenEnv(now: int, fetch: FetchResult, later: int)

  /** The exception raised when the provider's answer has no token. */
  datatype Failure = TokenUnavailable

  /** One call's outcome: what it returns or raises, whether it fetched, the cache after. */
  datatype Step = Step(result: Result<string, Failure>, fetched: bool, cache: Cache)

  /**
   * The cached token may be returned as is: both fields are set, the token is
   * non-empty (an empty string is false in the source's test), and the
   * expiry is strictly in the future.
   */
  predicate Usable(c: Cache, now: int)
  {
    c.expiry.Some? && c.token.Some? && c.token.value != "" && now < c.expiry.value
  }

  /** One call of `get_access_token` on cache `c`. */
  function Acquire(c: Cache, env: TokenEnv): (s: Step)
    ensures s.fetched <==> !Usable(c, env.now)
    ensures s.result.Success? ==> s.cache.token == Some(s.result.value)
    ensures s.result.Failure? <==> s.fetched && env.fetch.accessToken.None?
  {
    if Usable(c, env.now) then Step(Success(c.token.value), false, c)
    else match env.fetch.accessToken
      case None => Step(Failure(TokenUnavailable), true, c)
      case Some(t) => Step(Success(t), true, Cache(Some(t), Some(env.later + env.fetch.expiresIn - ExpiryMargin)))
  }

  /** A usable cache is returned without a fetch and left as it is. */
  lemma CacheHit(c: Cache, env: TokenEnv)
    requires Usable(c, env.now)
    ensures Acquire(c, env) == Step(Success(c.token.value), false, c)
  {
  }

  /** The expiry test is strict: at or after the expiry instant a fetch happens. */
  lemma ExpiredFetches(c: Cache, env: TokenEnv)
    requires c.expiry.None? || c.token.None? || env.now >= c.expiry.value
    ensures Acquire(c, env).fetched
  {
  }

  /** A fetch without a token raises and changes neither cache field. */
  lemma FetchFailureKeepsCache(c: Cache, env: TokenEnv)
    requires !Usable(c, env.now) && env.fetch.accessToken.None?
    ensures Acquire(c, env) == Step(Failure(TokenUnavailable), true, c)
  {
  }

  /**
   * A successful fetch stores the new token, sets the expiry to the provider's
   * lifetime less the margin from the clock reading after the fetch, and
   * returns the stored token.
   */
  lemma RefreshStores(c: Cache, env: TokenEnv, t: string)
    requires !Usable(c, env.now) && env.fetch.accessToken == Some(t)
    ensures var s := Acquire(c, env);
      && s.result == Success(t)
      && s.cache.token == Some(t)
      && s.cache.expiry == Some(env.later + env.fetch.expiresIn - ExpiryMargin)
  {
  }

  /** The cache changes only by a successful fetch. */
  lemma CacheChangesOnlyOnRefresh(c: Cache, env: TokenEnv)
    ensures Acquire(c, env).cache != c ==> Acquire(c, env).fetched && Acquire(c, env).result.Success?
  {
  }

  /**
   * After a refresh that obtained a non-empty token with lifetime E at clock
   * reading T, a later call fetches again exactly when its clock reads at
   * least T + E - 60; before that it returns the same token and changes nothing.
   */
  lemma RefreshWindow(c: Cache, first: TokenEnv, second: TokenEnv, t: string)
    requires !Usable(c, first.now) && first.fetch.accessToken == Some(t) && t != ""
    ensures var s1 := Acquire(c, first);
      var s2 := Acquire(s1.cache, second);
      && (s2.fetched <==> second.now >= first.later + first.fetch.expiresIn - ExpiryMargin)
      && (!s2.fetched ==> s2.result == Success(t) && s2.cache == s1.cache)
  {
  }

  /** An empty token is stored but never reused: the next call always fetches. */
  lemma EmptyTokenNeverReused(c: Cache, first: TokenEnv, second: TokenEnv)
    requires !Usable(c, first.now) && first.fetch.accessToken == Some("")
    ensures Acquire(Acquire(c, first).cache, second).fetched
  {
  }

  /** On a fresh client the first call always fetches. */
  lemma FirstCallFetches(env: TokenEnv)
    ensures Acquire(Empty, env).fetched
  {
  }

  /** Two calls with the clock before the expiry return the same token and keep the cache. */
  lemma CachedCallsAgree(c: Cache, first: TokenEnv, second: TokenEnv)
    requires Usable(c, first.now) && Usable(c, second.now)
    ensures Acquire(c, first) == Acquire(c, second)
  {
  }
}
