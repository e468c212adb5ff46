/** The renderer's auth store: whether the user is signed in, the user,
    the OAuth tokens, the PKCE state and the self-hosted flag, mirrored into
    the `auth` entry of the persisted key-value store. Absent and `null`
    values are both `None`; the clock (`now`, in milliseconds, and its ISO
    text) is a parameter. */
module AuthStore {
  import opened Common

  datatype AuthUser = AuthUser(id: string, email: Option<string>, name: Option<string>, picture: Option<string>,
                               provider: Option<string>, lastSignInAt: Option<string>)

  datatype AuthTokens = AuthTokens(accessToken: Option<string>, refreshToken: Option<string>, idToken: Option<string>,
                                   tokenType: Option<string>, expiresIn: Option<int>, expiresAt: Option<int>)

  /** The PKCE login state. */
  datatype AuthState = AuthState(id: string, codeVerifier: string, codeChallenge: string, state: string)

  /** The persisted `auth` entry; a missing `isSelfHosted` is false. */
  datatype StoredAuth = StoredAuth(user: Option<AuthUser>, tokens: Option<AuthTokens>, state: Option<AuthState>,
                                   isSelfHosted: bool)

  const EmptyStored := StoredAuth(None, None, None, false)

  /** The keys `syncToStore` is given: `None` for a key that is not in its
      argument, `Some(v)` for one that is (with `v` possibly `None`). */
  datatype AuthUpdate = AuthUpdate(user: Option<Option<AuthUser>>, tokens: Option<Option<AuthTokens>>,
                                   state: Option<Option<AuthState>>, isSelfHosted: Option<bool>)

  /** `syncToStore`: the keys present in the update overwrite the stored
      entry's, the others are kept. */
  function Synced(current: StoredAuth, u: AuthUpdate): (r: StoredAuth)
    ensures r.user == (if u.user.Some? then u.user.value else current.user)
    ensures r.tokens == (if u.tokens.Some? then u.tokens.value else current.tokens)
    ensures r.state == (if u.state.Some? then u.state.value else current.state)
    ensures r.isSelfHosted == (if u.isSelfHosted.Some? then u.isSelfHosted.value else current.isSelfHosted)
  {
    StoredAuth(u.user.GetOr(current.user), u.tokens.GetOr(current.tokens), u.state.GetOr(current.state),
               u.isSelfHosted.GetOr(current.isSelfHosted))
  }

  /** JavaScript truthiness of an optional string and number. */
  predicate TruthyText(s: Option<string>) {
    s.Some? && s.value != ""
  }

  predicate TruthyNumber(n: Option<int>) {
    n.Some? && n.value != 0
  }

  /** Whether a stored entry starts the app signed in. */
  predicate StartsAuthenticated(stored: StoredAuth) {
    (stored.tokens.Some? && TruthyText(stored.tokens.value.accessToken)) || stored.isSelfHosted
  }

  /** The expiry `setAuthData` records: the given `expires_at`, else now
      plus `expires_in` seconds, else none. */
  function ExpiresAt(t: AuthTokens, now: int): (r: Option<int>)
    ensures TruthyNumber(t.expiresAt) ==> r == t.expiresAt
    ensures !TruthyNumber(t.expiresAt) && TruthyNumber(t.expiresIn) ==> r == Some(now + t.expiresIn.value * 1000)
    ensures !TruthyNumber(t.expiresAt) && !TruthyNumber(t.expiresIn) ==> r.None?
  {
    if TruthyNumber(t.expiresAt) then t.expiresAt
    else if TruthyNumber(t.expiresIn) then Some(now + t.expiresIn.value * 1000)
    else None
  }

  /** The user record of the self-hosted mode. */
  function SelfHostedUser(nowIso: string): (u: AuthUser)
    ensures u.id == "self-hosted" && u.provider == Some("self-hosted") && u.lastSignInAt == Some(nowIso)
  {
    AuthUser("self-hosted", None, None, None, Some("self-hosted"), Some(nowIso))
  }

  /** Fields given to `updateUser`; a `Some` replaces the user's value.
      A patch may carry an id as well. */
  datatype UserPatch = UserPatch(id: Option<string>, email: Option<string>, name: Option<string>,
                                 picture: Option<string>, provider: Option<string>, lastSignInAt: Option<string>)

  const EmptyUserPatch := UserPatch(None, None, None, None, None, None)

  function PatchedUser(u: AuthUser, p: UserPatch): (r: AuthUser)
    ensures r.id == p.id.GetOr(u.id)
    ensures p.email.Some? ==> r.email == p.email
    ensures p.email.None? ==> r.email == u.email
    ensures p.name.Some? ==> r.name == p.name
    ensures p.name.None? ==> r.name == u.name
    ensures p.picture.Some? ==> r.picture == p.picture
    ensures p.picture.None? ==> r.picture == u.picture
    ensures p.provider.Some? ==> r.provider == p.provider
    ensures p.provider.None? ==> r.provider == u.provider
    ensures p.lastSignInAt.Some? ==> r.lastSignInAt == p.lastSignInAt
    ensures p.lastSignInAt.None? ==> r.lastSignInAt == u.lastSignInAt
  {
    AuthUser(p.id.GetOr(u.id),
             if p.email.Some? then p.email else u.email,
             if p.name.Some? then p.name else u.name,
             if p.picture.Some? then p.picture else u.picture,
             if p.provider.Some? then p.provider else u.provider,
             if p.lastSignInAt.Some? then p.lastSignInAt else u.lastSignInAt)
  }

  /** Spreading the same patch twice is spreading it once, and an empty
      patch leaves the user as it was. */
  lemma PatchUserIdempotent(u: AuthUser, p: UserPatch)
    ensures PatchedUser(PatchedUser(u, p), p) == PatchedUser(u, p)
    ensures PatchedUser(u, EmptyUserPatch) == u
  {
  }

  /** Fields given to `updateState`. */
  datatype StatePatch = StatePatch(id: Option<string>, codeVerifier: Option<string>, codeChallenge: Option<string>,
                                   state: Option<string>)

  function PatchedState(s: AuthState, p: StatePatch): (r: AuthState)
    ensures r.id == p.id.GetOr(s.id) && r.codeVerifier == p.codeVerifier.GetOr(s.codeVerifier)
    ensures r.codeChallenge == p.codeChallenge.GetOr(s.codeChallenge) && r.state == p.state.GetOr(s.state)
  {
    AuthState(p.id.GetOr(s.id), p.codeVerifier.GetOr(s.codeVerifier), p.codeChallenge.GetOr(s.codeChallenge),
              p.state.GetOr(s.state))
  }

  class AuthSession {
    var isAuthenticated: bool
    var user: Option<AuthUser>
    var tokens: Option<AuthTokens>
    var state: Option<AuthState>
    var isLoading: bool
    var error: Option<string>
    var isSelfHosted: bool
    /** The persisted `auth` entry. */
    var persisted: StoredAuth

    /** The store mirrors the persisted user, PKCE state and self-hosted
        flag; the tokens too, except that entering self-hosted mode clears
        them only in memory. A self-hosted session is signed in. */
    ghost predicate Valid()
      reads this
    {
      && (isSelfHosted ==> isAuthenticated)
      && persisted.user == user
      && persisted.state == state
      && persisted.isSelfHosted == isSelfHosted
      && (persisted.tokens == tokens || (isSelfHosted && tokens.None?))
    }

    /** `getInitialState`, from the stored entry (`None` when there is
        none). */
    constructor(stored: Option<StoredAuth>)
      ensures Valid()
      ensures persisted == stored.GetOr(EmptyStored)
      ensures isAuthenticated == StartsAuthenticated(persisted)
      ensures user == persisted.user && tokens == persisted.tokens && state == persisted.state
      ensures isSelfHosted == persisted.isSelfHosted && !isLoading && error.None?
    {
      var s := stored.GetOr(EmptyStored);
      persisted := s;
      isAuthenticated := StartsAuthenticated(s);
      user, tokens, state := s.user, s.tokens, s.state;
      isLoading, error := false, None;
      isSelfHosted := s.isSelfHosted;
    }

    method Sync(u: AuthUpdate)
      modifies this`persisted
      ensures persisted == Synced(old(persisted), u)
    {
      persisted := Synced(persisted, u);
    }

    /** `setAuthData`: signed in with the tokens (their expiry filled in)
        and the user (stamped with the provider and the sign-in time); the
        PKCE state and the self-hosted flag are kept. */
    method SetAuthData(t: AuthTokens, u: AuthUser, provider: Option<string>, now: int, nowIso: string)
      requires Valid()
      modifies this
      ensures Valid()
      ensures isAuthenticated && error.None?
      ensures tokens == Some(t.(expiresAt := ExpiresAt(t, now)))
      ensures user == Some(u.(provider := provider, lastSignInAt := Some(nowIso)))
      ensures state == old(state) && isSelfHosted == old(isSelfHosted) && isLoading == old(isLoading)
      ensures persisted == Synced(old(persisted), AuthUpdate(Some(user), Some(tokens), None, None))
    {
      var newTokens := t.(expiresAt := ExpiresAt(t, now));
      var newUser := u.(provider := provider, lastSignInAt := Some(nowIso));
      Sync(AuthUpdate(Some(Some(newUser)), Some(Some(newTokens)), None, None));
      isAuthenticated := true;
      tokens := Some(newTokens);
      user := Some(newUser);
      error := None;
    }

    /** `clearAuth(preserveUser)`: signed out, not self-hosted, tokens and
        state gone; the user is kept only when asked. */
    method ClearAuth(preserveUser: bool)
      requires Valid()
      modifies this
      ensures Valid()
      ensures !isAuthenticated && !isSelfHosted && tokens.None? && state.None? && error.None?
      ensures user == (if preserveUser then old(user) else None)
      ensures isLoading == old(isLoading)
      ensures persisted == Synced(old(persisted), AuthUpdate(Some(user), Some(None), Some(None), Some(false)))
    {
      var kept := if preserveUser then user else None;
      Sync(AuthUpdate(Some(kept), Some(None), Some(None), Some(false)));
      isAuthenticated, user, tokens, state, error, isSelfHosted := false, kept, None, None, None, false;
    }

    method SetLoading(loading: bool)
      modifies this`isLoading
      ensures isLoading == loading
    {
      isLoading := loading;
    }

    method SetError(e: Option<string>)
      modifies this`error
      ensures error == e
    {
      error := e;
    }

    /** `updateUser`: the given fields replace the user's; without a user
        nothing happens. */
    method UpdateUser(p: UserPatch)
      requires Valid()
      modifies this
      ensures Valid()
      ensures old(user).None? ==> user.None? && persisted == old(persisted)
      ensures old(user).Some? ==> user == Some(PatchedUser(old(user).value, p))
      ensures persisted == Synced(old(persisted), AuthUpdate(if old(user).Some? then Some(user) else None, None, None, None))
      ensures isAuthenticated == old(isAuthenticated) && tokens == old(tokens) && state == old(state)
      ensures isSelfHosted == old(isSelfHosted)
    {
      if user.None? {
        assert Synced(persisted, AuthUpdate(None, None, None, None)) == persisted;
        return;
      }
      var updated := PatchedUser(user.value, p);
      Sync(AuthUpdate(Some(Some(updated)), None, None, None));
      user := Some(updated);
    }

    /** `setName`: `updateUser` with only the name. */
    method SetName(name: string)
      requires Valid()
      modifies this
      ensures Valid()
      ensures old(user).None? ==> user.None? && persisted == old(persisted)
      ensures old(user).Some? ==> user == Some(old(user).value.(name := Some(name)))
      ensures isAuthenticated == old(isAuthenticated) && tokens == old(tokens) && state == old(state)
      ensures isSelfHosted == old(isSelfHosted)
    {
      UpdateUser(UserPatch(None, None, Some(name), None, None, None));
    }

    /** `updateState`: the given fields replace the PKCE state's; without
        a state nothing happens. */
    method UpdateState(p: StatePatch)
      requires Valid()
      modifies this
      ensures Valid()
      ensures old(state).None? ==> state.None? && persisted == old(persisted)
      ensures old(state).Some? ==> state == Some(PatchedState(old(state).value, p))
      ensures old(state).Some? ==> persisted == Synced(old(persisted), AuthUpdate(None, None, Some(state), None))
      ensures isAuthenticated == old(isAuthenticated) && tokens == old(tokens) && user == old(user)
      ensures isSelfHosted == old(isSelfHosted)
    {
      if state.None? {
        return;
      }
      var updated := PatchedState(state.value, p);
      Sync(AuthUpdate(None, None, Some(Some(updated)), None));
      state := Some(updated);
    }

    /** `setSelfHostedMode`: signed in as the self-hosted user with no
        tokens. Only the user and the flag are persisted. */
    method SetSelfHostedMode(nowIso: string)
      requires Valid()
      modifies this
      ensures Valid()
      ensures isAuthenticated && isSelfHosted && tokens.None? && error.None?
      ensures user == Some(SelfHostedUser(nowIso))
      ensures state == old(state) && isLoading == old(isLoading)
      ensures persisted == Synced(old(persisted), AuthUpdate(Some(user), None, None, Some(true)))
    {
      var u := SelfHostedUser(nowIso);
      Sync(AuthUpdate(Some(Some(u)), None, None, Some(true)));
      isAuthenticated, isSelfHosted, user, tokens, error := true, true, Some(u), None, None;
    }
  }

  /** After signing out, the next start is signed out, with the user kept
      exactly when asked. */
  lemma RestartAfterClear(s: StoredAuth, u: Option<AuthUser>)
    ensures var r := Synced(s, AuthUpdate(Some(u), Some(None), Some(None), Some(false)));
      !StartsAuthenticated(r) && r.user == u && r.state.None?
  {
  }

  /** After signing in with an access token, the next start is signed in
      with the same user and tokens. */
  lemma RestartAfterSignIn(s: StoredAuth, u: AuthUser, t: AuthTokens)
    requires TruthyText(t.accessToken)
    ensures var r := Synced(s, AuthUpdate(Some(Some(u)), Some(Some(t)), None, None));
      StartsAuthenticated(r) && r.user == Some(u) && r.tokens == Some(t) && r.state == s.state
  {
  }

  /** After entering self-hosted mode the next start is signed in and
      self-hosted, whatever tokens are still stored. */
  lemma RestartAfterSelfHosted(s: StoredAuth, nowIso: string)
    ensures var r := Synced(s, AuthUpdate(Some(Some(SelfHostedUser(nowIso))), None, None, Some(true)));
      StartsAuthenticated(r) && r.isSelfHosted && r.tokens == s.tokens
  {
  }

  /** A sync with no keys changes nothing. */
  lemma EmptySyncKeeps(s: StoredAuth)
    ensures Synced(s, AuthUpdate(None, None, None, None)) == s
  {
  }
}
