/** The main process's session bookkeeping: token expiry checks, the
    start-up validation of stored tokens, and login/logout writes to the
    key-value store. Token decoding, the clock, the gRPC client, the sync
    service and the window are parameters or recorded effects. */
module AuthEvents {
  import opened Common
  import opened KvStore

  const AuthKey := "auth"
  const UserProfileKey := "userProfile"
  const IdTokenKey := "idToken"
  const AccessTokenKey := "accessToken"

  /** A session key is a top-level key of its own; only that fact of
      `PlainKey` is passed on. */
  lemma SessionKeyPlain(k: string)
    requires k == AuthKey || k == UserProfileKey || k == IdTokenKey || k == AccessTokenKey
    ensures k != "" && '.' !in k && TopKey(k) == k
  {
    PlainKey(k);
  }

  /** `jwtDecode`: None when the token does not decode; otherwise its `exp`
      claim in seconds, when present. */
  type Decoder = string -> Option<Option<int>>

  /** `isTokenExpired`: a token that does not decode, or has no (or a zero)
      `exp`, counts as expired; otherwise it is expired once the current
      whole second is past `exp`. */
  function IsTokenExpired(token: string, decode: Decoder, nowMs: int): (r: bool)
    ensures decode(token).None? ==> r
    ensures decode(token).Some? && (decode(token).value.None? || decode(token).value.value == 0) ==> r
    ensures decode(token).Some? && decode(token).value.Some? && decode(token).value.value != 0 ==>
      (r <==> (decode(token).value.value + 1) * 1000 <= nowMs)
  {
    var currentTime := nowMs / 1000;
    match decode(token)
    case None => true
    case Some(exp) => if exp.Some? && exp.value != 0 then exp.value < currentTime else true
  }

  const FiveMinutesMs := 5 * 60 * 1000

  /** `shouldRefreshToken`: due from five minutes before `expiresAt` on. */
  function ShouldRefreshToken(expiresAt: real, nowMs: int): (r: bool)
    ensures r <==> expiresAt - nowMs as real <= FiveMinutesMs as real
  {
    nowMs as real >= expiresAt - FiveMinutesMs as real
  }

  /** Once a refresh is due it stays due. */
  lemma RefreshStaysDue(expiresAt: real, now: int, later: int)
    requires now <= later && ShouldRefreshToken(expiresAt, now)
    ensures ShouldRefreshToken(expiresAt, later)
  {
  }

  /** What the session code does outside the store. */
  datatype AuthEffect =
    | SetGrpcToken(token: Option<string>)
    | StartSync
    | StopSync
    | NotifyTokenExpired

  /** `v?.[k]` */
  function OptMember(v: Value, k: string): Value {
    if Nullish(v) then Undef else Member(v, k)
  }

  // ---------------------------------------------------------------------
  // ensureValidTokens
  // ---------------------------------------------------------------------

  datatype TokenCheck = TokensOk(tokens: Value) | TokensFailed(error: string)

  /** `ensureValidTokens` over the stored `auth` value: no access token, or
      a numeric `expires_at` whose refresh is due, is a failure (the
      latter also tells an open window); otherwise the stored tokens. */
  function EnsureValidTokens(auth: Value, nowMs: int, windowOpen: bool): (r: (TokenCheck, seq<AuthEffect>))
    ensures !Truthy(OptMember(auth, "tokens")) || !Truthy(Member(OptMember(auth, "tokens"), "access_token")) ==>
      r == (TokensFailed("No access token available"), [])
    ensures r.0.TokensOk? ==>
      && r.0.tokens == OptMember(auth, "tokens")
      && Truthy(Member(r.0.tokens, "access_token"))
      && r.1 == []
    ensures r.0.TokensFailed? && r.0.error != "No access token available" ==>
      var e := Member(OptMember(auth, "tokens"), "expires_at");
      e.Num? && e.n != 0.0 && ShouldRefreshToken(e.n, nowMs) && (NotifyTokenExpired in r.1 <==> windowOpen)
    ensures var e := Member(OptMember(auth, "tokens"), "expires_at");
      (Truthy(OptMember(auth, "tokens")) && Truthy(Member(OptMember(auth, "tokens"), "access_token")) &&
       !(e.Num? && e.n != 0.0 && ShouldRefreshToken(e.n, nowMs))) ==> r.0.TokensOk?
  {
    var tokens := OptMember(auth, "tokens");
    if !Truthy(tokens) || !Truthy(Member(tokens, "access_token")) then
      (TokensFailed("No access token available"), [])
    else
      var expiresAt := Member(tokens, "expires_at");
      if expiresAt.Num? && Truthy(expiresAt) && ShouldRefreshToken(expiresAt.n, nowMs) then
        (TokensFailed("Token expired, requires re-authentication"), if windowOpen then [NotifyTokenExpired] else [])
      else (TokensOk(tokens), [])
  }

  // ---------------------------------------------------------------------
  // validateStoredTokens
  // ---------------------------------------------------------------------

  /** `storedAuth?.tokens?.access_token`. */
  function StoredAccess(cache: map<string, Value>): Value {
    OptMember(OptMember(At(cache, AuthKey), "tokens"), "access_token")
  }

  /** A present copy of the token is expired; a value that is not a string
      cannot be decoded and counts as expired. */
  predicate CopyExpired(v: Value, decode: Decoder, nowMs: int) {
    Truthy(v) && (!v.Str? || IsTokenExpired(v.s, decode, nowMs))
  }

  /** `{...v}` for an object, null or undefined. */
  function Spread(v: Value): seq<(string, Value)> {
    if v.Obj? then v.fields else []
  }

  /** The store after a call, with its table writes, the returned flag and
      the effects outside the store. */
  datatype Outcome = Outcome(cache: map<string, Value>, log: seq<KvOp>, result: bool, effects: seq<AuthEffect>)

  /** The profile and both tokens dropped. */
  function DropSession(cache: map<string, Value>): map<string, Value> {
    cache - {UserProfileKey, IdTokenKey, AccessTokenKey}
  }

  /** Deleting the three keys one after the other. */
  lemma DropSessionInSteps(cache: map<string, Value>, log: seq<KvOp>)
    ensures DropSession(cache) == ((cache - {UserProfileKey}) - {IdTokenKey}) - {AccessTokenKey}
    ensures log + DropSessionOps == log + [Remove(UserProfileKey)] + [Remove(IdTokenKey)] + [Remove(AccessTokenKey)]
  {
    var a := DropSession(cache);
    var b := ((cache - {UserProfileKey}) - {IdTokenKey}) - {AccessTokenKey};
    assert a.Keys == b.Keys;
  }

  const DropSessionOps := [Remove(UserProfileKey), Remove(IdTokenKey), Remove(AccessTokenKey)]

  /** `{...storedAuth, tokens: null}` */
  function WithoutTokens(auth: Value): Value {
    Obj(SetField(Spread(auth), "tokens", Null))
  }

  /** `{...storedAuth, tokens: {...storedAuth.tokens, access_token: token}}` */
  function WithAccessToken(auth: Value, token: Value): Value {
    Obj(SetField(Spread(auth), "tokens", Obj(SetField(Spread(OptMember(auth, "tokens")), "access_token", token))))
  }

  /** The expiry branch: `auth` keeps its record with null tokens, the
      profile and both tokens are deleted. */
  function EndSession(cache: map<string, Value>, log: seq<KvOp>, windowOpen: bool): Outcome {
    var storedAuth := At(cache, AuthKey);
    var c1 := if Truthy(storedAuth) then cache[AuthKey := WithoutTokens(storedAuth)] else cache;
    var l1 := if Truthy(storedAuth) then log + [Put(AuthKey)] else log;
    Outcome(DropSession(c1), l1 + DropSessionOps, false,
            [SetGrpcToken(None), StopSync] + (if windowOpen then [NotifyTokenExpired] else []))
  }

  /** What `validateStoredTokens` does to the store. */
  function ValidateStoredTokensSpec(cache: map<string, Value>, log: seq<KvOp>, decode: Decoder, nowMs: int, windowOpen: bool): Outcome {
    var storedAuth := At(cache, AuthKey);
    var access := StoredAccess(cache);
    var storeAccess := At(cache, AccessTokenKey);
    if !Truthy(access) && !Truthy(storeAccess) then Outcome(cache, log, true, [])
    else if CopyExpired(access, decode, nowMs) || CopyExpired(storeAccess, decode, nowMs) then
      EndSession(cache, log, windowOpen)
    else if Truthy(access) && !Truthy(storeAccess) then
      Outcome(cache[AccessTokenKey := access], log + [Put(AccessTokenKey)], true, [])
    else if Truthy(storeAccess) && !Truthy(access) && Truthy(storedAuth) then
      Outcome(cache[AuthKey := WithAccessToken(storedAuth, storeAccess)], log + [Put(AuthKey)], true, [])
    else Outcome(cache, log, true, [])
  }

  /** With no token stored anywhere the store is left alone and the check
      passes. */
  lemma ValidateWithoutTokens(cache: map<string, Value>, log: seq<KvOp>, decode: Decoder, nowMs: int, w: bool)
    requires !Truthy(StoredAccess(cache)) && !Truthy(At(cache, AccessTokenKey))
    ensures ValidateStoredTokensSpec(cache, log, decode, nowMs, w) == Outcome(cache, log, true, [])
  {
  }

  /** An expired copy ends the session: the check fails, the `auth` tokens
      become null, the profile and both tokens are gone, gRPC loses its
      token and syncing stops; nothing else in the store changes. */
  lemma ValidateExpiredClearsSession(cache: map<string, Value>, log: seq<KvOp>, decode: Decoder, nowMs: int, w: bool)
    requires CopyExpired(StoredAccess(cache), decode, nowMs) || CopyExpired(At(cache, AccessTokenKey), decode, nowMs)
    ensures var out := ValidateStoredTokensSpec(cache, log, decode, nowMs, w);
      && !out.result
      && At(out.cache, UserProfileKey) == Undef && At(out.cache, IdTokenKey) == Undef && At(out.cache, AccessTokenKey) == Undef
      && (Truthy(At(cache, AuthKey)) ==> OptMember(At(out.cache, AuthKey), "tokens") == Null && StoredAccess(out.cache) == Undef)
      && SetGrpcToken(None) in out.effects && StopSync in out.effects
      && (forall k :: k !in {AuthKey, UserProfileKey, IdTokenKey, AccessTokenKey} ==> At(out.cache, k) == At(cache, k))
  {
    var storedAuth := At(cache, AuthKey);
    if Truthy(storedAuth) {
      LookupSetSame(Spread(storedAuth), "tokens", Null);
    }
  }

  /** A valid token ends up in both places: after a passing check that
      found a token, the access-token key holds one, and so does `auth`
      whenever there is an `auth` record. */
  lemma ValidateMirrorsToken(cache: map<string, Value>, log: seq<KvOp>, decode: Decoder, nowMs: int, w: bool)
    requires Truthy(StoredAccess(cache)) || Truthy(At(cache, AccessTokenKey))
    ensures var out := ValidateStoredTokensSpec(cache, log, decode, nowMs, w);
      out.result ==>
        && Truthy(At(out.cache, AccessTokenKey))
        && (Truthy(At(cache, AuthKey)) ==> Truthy(StoredAccess(out.cache)))
        && (Truthy(StoredAccess(cache)) ==> StoredAccess(out.cache) == StoredAccess(cache))
        && (Truthy(At(cache, AccessTokenKey)) ==> At(out.cache, AccessTokenKey) == At(cache, AccessTokenKey))
  {
    var storedAuth := At(cache, AuthKey);
    var access := StoredAccess(cache);
    var storeAccess := At(cache, AccessTokenKey);
    if Truthy(storeAccess) && !Truthy(access) && Truthy(storedAuth) {
      var tokens := Obj(SetField(Spread(OptMember(storedAuth, "tokens")), "access_token", storeAccess));
      LookupSetSame(Spread(storedAuth), "tokens", tokens);
      LookupSetSame(Spread(OptMember(storedAuth, "tokens")), "access_token", storeAccess);
      var out := ValidateStoredTokensSpec(cache, log, decode, nowMs, w);
      if out.result {
        assert At(out.cache, AuthKey) == Obj(SetField(Spread(storedAuth), "tokens", tokens));
        assert OptMember(At(out.cache, AuthKey), "tokens") == tokens;
        assert StoredAccess(out.cache) == storeAccess;
      }
    }
  }

  /** A second check right after a passing one writes nothing. */
  lemma ValidateTwice(cache: map<string, Value>, log: seq<KvOp>, decode: Decoder, nowMs: int, w: bool)
    requires ValidateStoredTokensSpec(cache, log, decode, nowMs, w).result
    requires Truthy(StoredAccess(cache)) || Truthy(At(cache, AccessTokenKey))
    requires Truthy(At(cache, AuthKey)) || Truthy(StoredAccess(cache))
    ensures var out := ValidateStoredTokensSpec(cache, log, decode, nowMs, w);
      ValidateStoredTokensSpec(out.cache, out.log, decode, nowMs, w) == Outcome(out.cache, out.log, true, [])
  {
    ValidateMirrorsToken(cache, log, decode, nowMs, w);
    var storedAuth := At(cache, AuthKey);
    var access := StoredAccess(cache);
    var storeAccess := At(cache, AccessTokenKey);
    if Truthy(storeAccess) && !Truthy(access) && Truthy(storedAuth) {
      var tokens := Obj(SetField(Spread(OptMember(storedAuth, "tokens")), "access_token", storeAccess));
      LookupSetSame(Spread(storedAuth), "tokens", tokens);
      LookupSetSame(Spread(OptMember(storedAuth, "tokens")), "access_token", storeAccess);
    }
  }

  /** `validateStoredTokens` on the store. */
  method ValidateStoredTokens(s: Store, decode: Decoder, nowMs: int, windowOpen: bool) returns (ok: bool, effects: seq<AuthEffect>)
    modifies s
    ensures Outcome(s.cache, s.kvLog, ok, effects) == ValidateStoredTokensSpec(old(s.cache), old(s.kvLog), decode, nowMs, windowOpen)
  {
    SessionKeyPlain(AuthKey);
    SessionKeyPlain(AccessTokenKey);
    var storedAuth := s.Get(AuthKey);
    var storedTokens := OptMember(storedAuth, "tokens");
    var storeAccessToken := s.Get(AccessTokenKey);
    var access := OptMember(storedTokens, "access_token");
    if !(Truthy(access) || Truthy(storeAccessToken)) {
      return true, [];
    }
    var authStoreTokenExpired := CopyExpired(access, decode, nowMs);
    var storeTokenExpired := CopyExpired(storeAccessToken, decode, nowMs);
    if authStoreTokenExpired || storeTokenExpired {
      effects := EndStoredSession(s, windowOpen);
      return false, effects;
    }
    if Truthy(access) && !Truthy(storeAccessToken) {
      s.Set(AccessTokenKey, access);
    } else if Truthy(storeAccessToken) && !Truthy(access) {
      if Truthy(storedAuth) {
        s.Set(AuthKey, WithAccessToken(storedAuth, storeAccessToken));
      }
    }
    return true, [];
  }

  /** The expiry branch of `validateStoredTokens` on the store. */
  method EndStoredSession(s: Store, windowOpen: bool) returns (effects: seq<AuthEffect>)
    modifies s
    ensures var out := EndSession(old(s.cache), old(s.kvLog), windowOpen);
      s.cache == out.cache && s.kvLog == out.log && effects == out.effects
  {
    SessionKeyPlain(AuthKey);
    ghost var c0, l0 := s.cache, s.kvLog;
    var storedAuth := s.Get(AuthKey);
    if Truthy(storedAuth) {
      s.Set(AuthKey, WithoutTokens(storedAuth));
    }
    ghost var c1, l1 := s.cache, s.kvLog;
    assert c1 == if Truthy(At(c0, AuthKey)) then c0[AuthKey := WithoutTokens(At(c0, AuthKey))] else c0;
    assert l1 == if Truthy(At(c0, AuthKey)) then l0 + [Put(AuthKey)] else l0;
    effects := [SetGrpcToken(None), StopSync];
    DropSessionInSteps(c1, l1);
    s.Delete(UserProfileKey);
    s.Delete(IdTokenKey);
    s.Delete(AccessTokenKey);
    assert s.cache == DropSession(c1) && s.kvLog == l1 + DropSessionOps;
    if windowOpen {
      effects := effects + [NotifyTokenExpired];
    }
  }

  // ---------------------------------------------------------------------
  // handleLogin / handleLogout
  // ---------------------------------------------------------------------

  /** A `string | null` argument that JavaScript treats as true. */
  predicate Given(t: Option<string>) {
    t.Some? && t.value != ""
  }

  /** What `handleLogin` does: the profile is always stored; each token only
      when given, and a given access token also goes to gRPC and starts
      syncing. */
  function LoginSpec(cache: map<string, Value>, log: seq<KvOp>, profile: Value, idToken: Option<string>, accessToken: Option<string>): Outcome {
    var c1 := cache[UserProfileKey := profile];
    var c2 := if Given(idToken) then c1[IdTokenKey := Str(idToken.value)] else c1;
    var c3 := if Given(accessToken) then c2[AccessTokenKey := Str(accessToken.value)] else c2;
    var l1 := log + [Put(UserProfileKey)];
    var l2 := if Given(idToken) then l1 + [Put(IdTokenKey)] else l1;
    var l := if Given(accessToken) then l2 + [Put(AccessTokenKey)] else l2;
    Outcome(c3, l, true, if Given(accessToken) then [SetGrpcToken(accessToken), StartSync] else [])
  }

  /** What `handleLogout` does: the profile and both tokens are deleted,
      gRPC loses its token and syncing stops. */
  function LogoutSpec(cache: map<string, Value>, log: seq<KvOp>): Outcome {
    Outcome(DropSession(cache), log + DropSessionOps, true, [SetGrpcToken(None), StopSync])
  }

  /** Login stores exactly what it was given, and nothing else changes. */
  lemma LoginStoresGivenTokens(cache: map<string, Value>, log: seq<KvOp>, profile: Value, idToken: Option<string>, accessToken: Option<string>)
    ensures var out := LoginSpec(cache, log, profile, idToken, accessToken);
      && At(out.cache, UserProfileKey) == profile
      && At(out.cache, IdTokenKey) == (if Given(idToken) then Str(idToken.value) else At(cache, IdTokenKey))
      && At(out.cache, AccessTokenKey) == (if Given(accessToken) then Str(accessToken.value) else At(cache, AccessTokenKey))
      && (StartSync in out.effects <==> Given(accessToken))
      && (forall k :: k !in {UserProfileKey, IdTokenKey, AccessTokenKey} ==> At(out.cache, k) == At(cache, k))
  {
  }

  /** Logout after any login leaves no profile and no token, and every
      other key as it was before the login. */
  lemma LogoutUndoesLogin(cache: map<string, Value>, log: seq<KvOp>, profile: Value, idToken: Option<string>, accessToken: Option<string>)
    ensures var inn := LoginSpec(cache, log, profile, idToken, accessToken);
      var out := LogoutSpec(inn.cache, inn.log);
      && At(out.cache, UserProfileKey) == Undef && At(out.cache, IdTokenKey) == Undef && At(out.cache, AccessTokenKey) == Undef
      && out.cache == DropSession(cache)
  {
    var inn := LoginSpec(cache, log, profile, idToken, accessToken);
    assert DropSession(inn.cache) == DropSession(cache);
  }

  method HandleLogin(s: Store, profile: Value, idToken: Option<string>, accessToken: Option<string>) returns (effects: seq<AuthEffect>)
    modifies s
    ensures Outcome(s.cache, s.kvLog, true, effects) == LoginSpec(old(s.cache), old(s.kvLog), profile, idToken, accessToken)
  {
    SessionKeyPlain(UserProfileKey);
    SessionKeyPlain(IdTokenKey);
    SessionKeyPlain(AccessTokenKey);
    ghost var spec := LoginSpec(s.cache, s.kvLog, profile, idToken, accessToken);
    TopWrite(s.cache, UserProfileKey, profile);
    s.Set(UserProfileKey, profile);
    if Given(idToken) {
      TopWrite(s.cache, IdTokenKey, Str(idToken.value));
      s.Set(IdTokenKey, Str(idToken.value));
    }
    effects := [];
    if Given(accessToken) {
      TopWrite(s.cache, AccessTokenKey, Str(accessToken.value));
      s.Set(AccessTokenKey, Str(accessToken.value));
      effects := [SetGrpcToken(accessToken), StartSync];
    }
    assert s.cache == spec.cache && s.kvLog == spec.log;
  }

  method HandleLogout(s: Store) returns (effects: seq<AuthEffect>)
    modifies s
    ensures Outcome(s.cache, s.kvLog, true, effects) == LogoutSpec(old(s.cache), old(s.kvLog))
  {
    DropSessionInSteps(s.cache, s.kvLog);
    s.Delete(UserProfileKey);
    s.Delete(IdTokenKey);
    s.Delete(AccessTokenKey);
    effects := [SetGrpcToken(None), StopSync];
  }
}
