/** Reading the signed-in user from a Supabase access token: the bearer
    header, the user id and the e-mail/name fallbacks. Signature checking
    against the remote key set is a parameter. */
module SupabaseJwt {
  import opened Common

  /** The optional name fields of `user_metadata`. */
  datatype UserMetadata = UserMetadata(fullName: Option<string>, name: Option<string>)

  /** The claims the server reads from a verified token. */
  datatype JwtPayload = JwtPayload(
    sub: string,
    email: Option<string>,
    userMetadata: Option<UserMetadata>,
    aud: string,
    exp: int,
    iat: int)

  /** A JavaScript string value is truthy when it is present and non-empty. */
  predicate Truthy(s: Option<string>) {
    s.Some? && s.value != ""
  }

  /** `a || b` over optional strings. */
  function OrElse(a: Option<string>, b: Option<string>): (r: Option<string>)
    ensures Truthy(a) ==> r == a
    ensures !Truthy(a) ==> r == b
  {
    if Truthy(a) then a else b
  }

  const BearerPrefix := "Bearer "

  /** `getUserFromRequest`: a header without the `Bearer ` prefix, or a token
      that fails verification, yields no user; the token is what follows the
      first seven characters. */
  function GetUserFromRequest(authorization: Option<string>, verify: string -> Option<JwtPayload>): (r: Option<JwtPayload>)
    ensures authorization.None? || !StartsWith(authorization.value, BearerPrefix) ==> r.None?
    ensures authorization.Some? && StartsWith(authorization.value, BearerPrefix) ==> r == verify(authorization.value[7..])
  {
    if authorization.None? || !StartsWith(authorization.value, BearerPrefix) then None
    else verify(authorization.value[7..])
  }

  /** A token sent as `Bearer <token>` reaches the verifier unchanged. */
  lemma BearerTokenRoundTrip(token: string, verify: string -> Option<JwtPayload>)
    ensures GetUserFromRequest(Some(BearerPrefix + token), verify) == verify(token)
  {
    assert (BearerPrefix + token)[..7] == BearerPrefix;
    assert (BearerPrefix + token)[7..] == token;
  }

  /** The scheme is case-sensitive: `bearer <token>` is refused. */
  lemma LowerCaseSchemeRefused(token: string, verify: string -> Option<JwtPayload>)
    ensures GetUserFromRequest(Some("bearer " + token), verify).None?
  {
    assert ("bearer " + token)[0] == 'b';
  }

  /** `getUserIdFromRequest`: the `sub` claim of the attached user, or no id
      when there is no user or the claim is empty. */
  function GetUserIdFromRequest(user: Option<JwtPayload>): (r: Option<string>)
    ensures r.Some? <==> user.Some? && user.value.sub != ""
    ensures r.Some? ==> r.value == user.value.sub
  {
    if user.Some? && user.value.sub != "" then Some(user.value.sub) else None
  }

  /** The e-mail and display name handed to billing. */
  datatype UserInfo = UserInfo(email: string, name: string)

  /** `getUserInfoFromJwt`: the e-mail or `""`; the name is the first
      non-empty of `full_name`, `name` and the e-mail, else `""`. */
  function GetUserInfoFromJwt(user: JwtPayload): (r: UserInfo)
    ensures r.email == user.email.GetOr("")
    ensures Truthy(MetaFullName(user)) ==> r.name == MetaFullName(user).value
    ensures !Truthy(MetaFullName(user)) && Truthy(MetaName(user)) ==> r.name == MetaName(user).value
    ensures !Truthy(MetaFullName(user)) && !Truthy(MetaName(user)) ==> r.name == r.email
  {
    var email := if user.email.Some? then user.email.value else "";
    var name := OrElse(OrElse(MetaFullName(user), MetaName(user)), user.email);
    UserInfo(email, name.GetOr(""))
  }

  /** `user_metadata?.full_name`. */
  function MetaFullName(user: JwtPayload): Option<string> {
    if user.userMetadata.Some? then user.userMetadata.value.fullName else None
  }

  /** `user_metadata?.name`. */
  function MetaName(user: JwtPayload): Option<string> {
    if user.userMetadata.Some? then user.userMetadata.value.name else None
  }

  /** The name is empty only when every source of it is missing or empty. */
  lemma EmptyNameOnlyWithoutSources(user: JwtPayload)
    ensures GetUserInfoFromJwt(user).name == "" <==>
      !Truthy(MetaFullName(user)) && !Truthy(MetaName(user)) && !Truthy(user.email)
  {
  }
}
