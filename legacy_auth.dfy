/** The older admin sessions (src/modules/auth/auth.service.ts): the same
    register / login / refresh / logout flows as AdminAuth and the same
    checks, but with no session keys: the only state is the refresh-token
    hash on the admin row. Its tokens carry the role ADMIN, and the access
    token lasts 15 minutes while the refresh token lasts seven days.

    The service imports its admin table from src/modules/auth/users, which
    is not part of this model; the table of Users, which that copy
    mirrors, stands in for it. */
module LegacyAuth {
  import opened Wrappers
  import opened Text
  import opened Errors
  import opened Crypto
  import opened Jwt
  import opened Users
  import AdminAuth

  const LEGACY_ROLE := "ADMIN"
  const ACCESS_TTL: nat := 15 * MINUTE
  const REFRESH_TTL: nat := 7 * DAY

  type Tokens = AdminAuth.Tokens

  function LegacyClaims(a: Admin): Claims { Claims(a.id, a.email, LEGACY_ROLE) }

  /** The pair `generateAndStoreTokens` signs at time now. */
  function Issue(a: Admin, accessSecret: string, refreshSecret: string, now: nat): Tokens {
    AdminAuth.Tokens(Sign(LegacyClaims(a), accessSecret, ACCESS_TTL, now),
                     Sign(LegacyClaims(a), refreshSecret, REFRESH_TTL, now))
  }

  /** Both tokens carry {sub, email, role: 'ADMIN'}; between 15 minutes and
      seven days after issue the access token is refused while the refresh
      token still verifies. */
  lemma AccessExpiresFirst(a: Admin, accessSecret: string, refreshSecret: string, iat: nat, now: nat)
    ensures iat <= now < iat + ACCESS_TTL ==>
      Verify(Issue(a, accessSecret, refreshSecret, iat).accessToken, accessSecret, now, false)
        == Some(Payload(LegacyClaims(a), iat, iat + ACCESS_TTL))
    ensures iat + ACCESS_TTL <= now ==>
      Verify(Issue(a, accessSecret, refreshSecret, iat).accessToken, accessSecret, now, false).None?
    ensures iat <= now < iat + REFRESH_TTL ==>
      Verify(Issue(a, accessSecret, refreshSecret, iat).refreshToken, refreshSecret, now, false)
        == Some(Payload(LegacyClaims(a), iat, iat + REFRESH_TTL))
  {
    if iat <= now < iat + ACCESS_TTL {
      VerifySigned(LegacyClaims(a), accessSecret, ACCESS_TTL, iat, now);
    }
    if iat + ACCESS_TTL <= now {
      VerifyRejectsExpired(LegacyClaims(a), accessSecret, ACCESS_TTL, iat, now);
    }
    if iat <= now < iat + REFRESH_TTL {
      VerifySigned(LegacyClaims(a), refreshSecret, REFRESH_TTL, iat, now);
    }
  }

  /** After logout (hash cleared) every refresh token is refused; after an
      issue a refresh token is accepted exactly when its first 72
      characters are those of the issued refresh token. */
  lemma RefreshAfterLogoutOrIssue(t: seq<Admin>, i: nat, tokens: Tokens, token: string)
    requires Users.WellFormed(t) && i < |t|
    ensures AdminAuth.RefreshCheck(ById(WithToken(t, i, None), t[i].id), token).Err?
    ensures AdminAuth.RefreshCheck(ById(WithToken(t, i, Some(Hash(tokens.refreshToken))), t[i].id), token).Ok?
            <==> Read72(token) == Read72(tokens.refreshToken)
  {
    WithTokenWellFormed(t, i, None);
    IdFindsRow(WithToken(t, i, None), i);
    WithTokenWellFormed(t, i, Some(Hash(tokens.refreshToken)));
    IdFindsRow(WithToken(t, i, Some(Hash(tokens.refreshToken))), i);
    MatchesIffSamePrefix(token, tokens.refreshToken);
  }

  /** As written, a refresh does not revoke the token it replaces: with an
      id and an email of 29 characters together (a uuid id alone has 36),
      the earlier refresh token and both access tokens agree with the new
      refresh token on the 72 characters bcrypt reads. */
  lemma PreviousTokenAccepted(t: seq<Admin>, i: nat, accessSecret: string, refreshSecret: string, earlier: nat, now: nat)
    requires Users.WellFormed(t) && i < |t| && |t[i].id| + |t[i].email| >= 29
    ensures var previous := Issue(t[i], accessSecret, refreshSecret, earlier);
            var next := Issue(t[i], accessSecret, refreshSecret, now);
            var found := ById(WithToken(t, i, Some(Hash(next.refreshToken))), t[i].id);
            && (earlier != now ==> previous.refreshToken != next.refreshToken)
            && AdminAuth.RefreshCheck(found, previous.refreshToken).Ok?
            && AdminAuth.RefreshCheck(found, previous.accessToken).Ok?
            && AdminAuth.RefreshCheck(found, next.accessToken).Ok?
  {
    var c := LegacyClaims(t[i]);
    var next := Issue(t[i], accessSecret, refreshSecret, now);
    HeadLength(c);
    WithTokenWellFormed(t, i, Some(Hash(next.refreshToken)));
    IdFindsRow(WithToken(t, i, Some(Hash(next.refreshToken))), i);
    SameClaimsShareHash(c, refreshSecret, REFRESH_TTL, earlier, refreshSecret, REFRESH_TTL, now);
    SameClaimsShareHash(c, accessSecret, ACCESS_TTL, earlier, refreshSecret, REFRESH_TTL, now);
    SameClaimsShareHash(c, accessSecret, ACCESS_TTL, now, refreshSecret, REFRESH_TTL, now);
    if earlier != now {
      SignsDiffer(c, refreshSecret, REFRESH_TTL, earlier, now);
    }
  }

  /** Refresh as evidently intended: the stored hash covers the whole
      token, so the check compares every character of it. */
  function RefreshCheckWhole(found: Option<Admin>, token: string): (r: Result<Admin, Failure>)
    ensures r.Ok? <==> found.Some? && found.value.refreshToken.Some?
                       && MatchesWhole(token, found.value.refreshToken.value)
    ensures r.Ok? ==> r.value == found.value
    ensures r.Err? ==> r.error == Unauthorized("Access denied")
  {
    if found.None? || found.value.refreshToken.None? || found.value.refreshToken.value == "" then
      Err(Unauthorized("Access denied"))
    else if !MatchesWhole(token, found.value.refreshToken.value) then Err(Unauthorized("Access denied"))
    else Ok(found.value)
  }

  /** With the whole-token hash stored at issue, exactly the issued refresh
      token is accepted: the one it replaced is refused. */
  lemma WholeHashRefusesRotated(t: seq<Admin>, i: nat, tokens: Tokens, token: string)
    requires Users.WellFormed(t) && i < |t|
    ensures RefreshCheckWhole(ById(WithToken(t, i, Some(HashWhole(tokens.refreshToken))), t[i].id), token).Ok?
            <==> token == tokens.refreshToken
  {
    WithTokenWellFormed(t, i, Some(HashWhole(tokens.refreshToken)));
    IdFindsRow(WithToken(t, i, Some(HashWhole(tokens.refreshToken))), i);
    MatchesWholeIffEqual(token, tokens.refreshToken);
  }

  class LegacyAuthService {
    const users: UsersService
    const accessSecret: string
    const refreshSecret: string

    constructor (users: UsersService, accessSecret: string, refreshSecret: string)
      ensures this.users == users && this.accessSecret == accessSecret && this.refreshSecret == refreshSecret
    {
      this.users := users;
      this.accessSecret := accessSecret;
      this.refreshSecret := refreshSecret;
    }

    /** `generateAndStoreTokens(admin)`: signs the pair and stores the hash
        of the refresh token on the admin. */
    method GenerateAndStoreTokens(admin: Admin, now: nat) returns (r: Result<Tokens, Failure>)
      requires users.Valid()
      modifies users
      ensures users.Valid()
      ensures match IndexOfId(old(users.admins), admin.id)
        case None => r == Err(Internal(RECORD_NOT_FOUND)) && users.admins == old(users.admins)
        case Some(i) =>
          var t := Issue(admin, accessSecret, refreshSecret, now);
          r == Ok(t) && users.admins == WithToken(old(users.admins), i, Some(Hash(t.refreshToken)))
    {
      var t := Issue(admin, accessSecret, refreshSecret, now);
      var updated := users.UpdateRefreshToken(admin.id, Some(Hash(t.refreshToken)));
      if updated.Err? {
        return Err(updated.error);
      }
      r := Ok(t);
    }

    /** `register(dto)`. */
    method Register(dto: NewAdmin, id: string, now: nat) returns (r: Result<Tokens, Failure>)
      requires users.Valid() && !HasId(users.admins, id)
      modifies users
      ensures users.Valid()
      ensures HasEmail(old(users.admins), Lower(dto.email)) ==>
        r == Err(Internal("Email already registered")) && users.admins == old(users.admins)
      ensures !HasEmail(old(users.admins), Lower(dto.email)) ==>
        var a := NewRow(dto, id, now);
        var t := Issue(a, accessSecret, refreshSecret, now);
        r == Ok(t) && users.admins == old(users.admins) + [a.(refreshToken := Some(Hash(t.refreshToken)))]
    {
      var created := users.Create(dto, id, now);
      if created.Err? {
        return Err(created.error);
      }
      IdFindsRow(users.admins, |users.admins| - 1);
      r := GenerateAndStoreTokens(created.value, now);
    }

    /** `login(dto)`: unknown email and wrong password are refused alike,
        with no change. */
    method Login(email: string, password: string, now: nat) returns (r: Result<Tokens, Failure>)
      requires users.Valid()
      modifies users
      ensures users.Valid()
      ensures match AdminAuth.LoginCheck(ByEmail(old(users.admins), email), password)
        case Err(e) => r == Err(e) && users.admins == old(users.admins)
        case Ok(a) =>
          var t := Issue(a, accessSecret, refreshSecret, now);
          exists i :: 0 <= i < |old(users.admins)| && old(users.admins)[i] == a
            && r == Ok(t) && users.admins == WithToken(old(users.admins), i, Some(Hash(t.refreshToken)))
    {
      var found := users.FindByEmail(email);
      var checked := AdminAuth.LoginCheck(found, password);
      if checked.Err? {
        return Err(checked.error);
      }
      var a := checked.value;
      var i :| 0 <= i < |users.admins| && users.admins[i] == a;
      IdFindsRow(users.admins, i);
      r := GenerateAndStoreTokens(a, now);
    }

    /** `refreshTokens(adminId, refreshToken)`. */
    method RefreshTokens(adminId: string, token: string, now: nat) returns (r: Result<Tokens, Failure>)
      requires users.Valid()
      modifies users
      ensures users.Valid()
      ensures match AdminAuth.RefreshCheck(ById(old(users.admins), adminId), token)
        case Err(e) => r == Err(e) && users.admins == old(users.admins)
        case Ok(a) =>
          var t := Issue(a, accessSecret, refreshSecret, now);
          exists i :: 0 <= i < |old(users.admins)| && old(users.admins)[i] == a
            && r == Ok(t) && users.admins == WithToken(old(users.admins), i, Some(Hash(t.refreshToken)))
    {
      var found := users.FindById(adminId);
      var checked := AdminAuth.RefreshCheck(found, token);
      if checked.Err? {
        return Err(checked.error);
      }
      var a := checked.value;
      var i :| 0 <= i < |users.admins| && users.admins[i] == a;
      IdFindsRow(users.admins, i);
      r := GenerateAndStoreTokens(a, now);
    }

    /** `logout(adminId)`: clears only the stored hash. */
    method Logout(adminId: string) returns (r: Result<string, Failure>)
      requires users.Valid()
      modifies users
      ensures users.Valid()
      ensures match IndexOfId(old(users.admins), adminId)
        case None => r == Err(Internal(RECORD_NOT_FOUND)) && users.admins == old(users.admins)
        case Some(i) => r == Ok("Logged out") && users.admins == WithToken(old(users.admins), i, None)
    {
      var updated := users.UpdateRefreshToken(adminId, None);
      if updated.Err? {
        return Err(updated.error);
      }
      r := Ok("Logged out");
    }
  }
}
