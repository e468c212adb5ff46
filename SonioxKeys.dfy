/** The client's cache of the short-lived Soniox streaming key: a key is
    reused until five minutes before it expires, then a new one is asked
    of the server. */
module SonioxKeys {
  import opened Common

  type Instant = int

  const RefreshMarginMs := 5 * 60 * 1000

  /** The server's answer to `POST /soniox/temp-key`; an absent key is "". */
  datatype KeyResponse = KeyResponse(success: bool, key: string, expiresInSeconds: int, error: string)

  function FailureMessage(r: KeyResponse): string {
    "Failed to get Soniox temp key: " + (if r.error == "" then "Unknown error" else r.error)
  }

  /** The cache: the key (if any) and when it expires, in ms. */
  datatype Cache = Cache(key: Option<string>, expiresAt: int)

  const Empty := Cache(None, 0)

  /** The cached key may still be handed out at time `now`. */
  predicate Usable(c: Cache, now: int) {
    c.key.Some? && c.key.value != "" && now < c.expiresAt - RefreshMarginMs
  }

  /** What one `getKey()` call returns, whether it asked the server, and
      the cache it leaves. */
  datatype Step = Step(result: Result<string, string>, fetched: bool, cache: Cache)

  /** `getKey()` at time `now`, `response` being what the server would
      answer if asked. */
  function GetKeyStep(c: Cache, now: int, response: KeyResponse): (s: Step)
    ensures s.fetched <==> !Usable(c, now)
    ensures !s.fetched ==> s.result == Ok(c.key.value) && s.cache == c
    ensures s.fetched && (!response.success || response.key == "") ==>
      s.result == Err(FailureMessage(response)) && s.cache == c
    ensures s.fetched && response.success && response.key != "" ==>
      s.result == Ok(response.key) && s.cache == Cache(Some(response.key), now + response.expiresInSeconds * 1000)
  {
    if Usable(c, now) then Step(Ok(c.key.value), false, c)
    else if !response.success || response.key == "" then Step(Err(FailureMessage(response)), true, c)
    else Step(Ok(response.key), true, Cache(Some(response.key), now + response.expiresInSeconds * 1000))
  }

  /** A key fetched at t is handed out again, with no request, to every
      call made before five minutes ahead of its expiry. */
  lemma ReusedUntilMargin(c: Cache, t: Instant, first: KeyResponse, t2: Instant, second: KeyResponse)
    requires !Usable(c, t) && first.success && first.key != ""
    requires t2 < t + first.expiresInSeconds * 1000 - RefreshMarginMs
    ensures var s1 := GetKeyStep(c, t, first);
            var s2 := GetKeyStep(s1.cache, t2, second);
            !s2.fetched && s2.result == Ok(first.key) && s2.cache == s1.cache
  {
  }

  /** From the margin on, the next call asks the server again. */
  lemma RefetchedFromMargin(key: string, expiresAt: int, now: int, response: KeyResponse)
    requires now >= expiresAt - RefreshMarginMs
    ensures GetKeyStep(Cache(Some(key), expiresAt), now, response).fetched
  {
  }

  /** After a failed request the next call asks again. */
  lemma FailureRetried(c: Cache, t: Instant, bad: KeyResponse, t2: Instant, next: KeyResponse)
    requires !Usable(c, t) && !bad.success && t <= t2
    ensures GetKeyStep(GetKeyStep(c, t, bad).cache, t2, next).fetched
  {
  }

  class TempKeyManager {
    var cachedKey: Option<string>
    var keyExpiresAt: int

    function State(): Cache
      reads this
    {
      Cache(cachedKey, keyExpiresAt)
    }

    constructor()
      ensures State() == Empty
    {
      cachedKey := None;
      keyExpiresAt := 0;
    }

    /** `getKey()`. */
    method GetKey(now: Instant, response: KeyResponse) returns (r: Result<string, string>, fetched: bool)
      modifies this
      ensures Step(r, fetched, State()) == GetKeyStep(old(State()), now, response)
    {
      if cachedKey.Some? && cachedKey.value != "" && now < keyExpiresAt - RefreshMarginMs {
        return Ok(cachedKey.value), false;
      }
      fetched := true;
      if !response.success || response.key == "" {
        return Err(FailureMessage(response)), fetched;
      }
      cachedKey := Some(response.key);
      keyExpiresAt := now + response.expiresInSeconds * 1000;
      r := Ok(response.key);
    }

    /** `invalidate()`: drops the key, so the next `getKey` asks again. */
    method Invalidate()
      modifies this
      ensures State() == Empty
      ensures forall now :: !Usable(State(), now)
    {
      cachedKey := None;
      keyExpiresAt := 0;
    }
  }
}
