/** Admin sessions (src/modules/iam/auth/auth.service.ts): register, login,
    refresh and logout over the admin table and two session keys per admin
    in the key-value service, `auth:<id>:access` and `auth:<id>:refresh`.

    Every successful register, login or refresh issues a fresh pair of
    tokens, keeps only the hash of the refresh token on the admin, and
    stores both tokens under the session keys for seven days. Logout clears
    the stored hash and deletes both keys, so no earlier refresh token is
    accepted afterwards. */
module AdminAuth {
  import opened Wrappers
  import opened Text
  import opened Json
  import opened Errors
  import opened Crypto
  import opened Jwt
  import opened Redis
  import opened Users
  import TenancySalons

  /** Lifetime of both tokens and of both session keys, in seconds. */
  const SESSION_TTL: nat := 60 * 60 * 24 * 7

  const ADMIN_ROLE := "SUPER_ADMIN"

  datatype Tokens = Tokens(accessToken: string, refreshToken: string)

  function AccessKey(id: string): string { "auth:" + id + ":access" }
  function RefreshKey(id: string): string { "auth:" + id + ":refresh" }

  /** The two session keys of an admin never coincide with each other or
      with another admin's, and none of them is a salon listing key. */
  lemma SessionKeysDistinct(a: string, b: string)
    ensures AccessKey(a) != RefreshKey(b)
    ensures AccessKey(a) == AccessKey(b) ==> a == b
    ensures RefreshKey(a) == RefreshKey(b) ==> a == b
    ensures !StartsWith(AccessKey(a), TenancySalons.SALON_CACHE_PREFIX)
    ensures !StartsWith(RefreshKey(a), TenancySalons.SALON_CACHE_PREFIX)
  {
    var ka, kb := AccessKey(a), RefreshKey(b);
    assert ka[|ka| - 1] == 's' && kb[|kb| - 1] == 'h';
    if AccessKey(a) == AccessKey(b) {
      assert a == AccessKey(a)[5..|AccessKey(a)| - 7];
      assert b == AccessKey(b)[5..|AccessKey(b)| - 7];
    }
    if RefreshKey(a) == RefreshKey(b) {
      assert a == RefreshKey(a)[5..|RefreshKey(a)| - 8];
      assert b == RefreshKey(b)[5..|RefreshKey(b)| - 8];
    }
    assert AccessKey(a)[0] == 'a' && RefreshKey(a)[0] == 'a';
  }

  // ---------------------------------------------------------------------------
  // The checks before tokens are issued
  // ---------------------------------------------------------------------------

  /** `login`: an unknown email and a wrong password are refused alike. */
  function LoginCheck(found: Option<Admin>, password: string): (r: Result<Admin, Failure>)
    ensures r.Ok? <==> found.Some? && Matches(password, found.value.password)
    ensures r.Ok? ==> r.value == found.value
    ensures r.Err? ==> r.error == Unauthorized("Invalid credentials")
  {
    if found.None? then Err(Unauthorized("Invalid credentials"))
    else if !Matches(password, found.value.password) then Err(Unauthorized("Invalid credentials"))
    else Ok(found.value)
  }

  /** `refreshTokens`: refused when the admin is missing, holds no token
      hash, or the token does not match the hash. */
  function RefreshCheck(found: Option<Admin>, token: string): (r: Result<Admin, Failure>)
    ensures r.Ok? <==> found.Some? && found.value.refreshToken.Some?
                       && found.value.refreshToken.value != ""
                       && Matches(token, found.value.refreshToken.value)
    ensures r.Ok? ==> r.value == found.value
    ensures r.Err? ==> r.error == Unauthorized("Access denied")
  {
    if found.None? || found.value.refreshToken.None? || found.value.refreshToken.value == "" then
      Err(Unauthorized("Access denied"))
    else if !Matches(token, found.value.refreshToken.value) then Err(Unauthorized("Access denied"))
    else Ok(found.value)
  }

  // ---------------------------------------------------------------------------
  // The state transitions
  // ---------------------------------------------------------------------------

  /** The admin table and the key-value store together. */
  datatype State = State(admins: seq<Admin>, store: Store)

  function AdminClaims(a: Admin): Claims { Claims(a.id, a.email, ADMIN_ROLE) }

  /** The pair `generateAndStoreTokens` signs at time now: one payload,
      two secrets, seven days each. */
  function Issue(a: Admin, accessSecret: string, refreshSecret: string, now: nat): Tokens {
    Tokens(Sign(AdminClaims(a), accessSecret, SESSION_TTL, now),
           Sign(AdminClaims(a), refreshSecret, SESSION_TTL, now))
  }

  /** Both tokens carry the same claims, each verifies under its own
      secret for seven days, and both expire at the same moment. */
  lemma IssuedTokensVerify(a: Admin, accessSecret: string, refreshSecret: string, iat: nat, now: nat)
    requires iat <= now < iat + SESSION_TTL
    ensures var t := Issue(a, accessSecret, refreshSecret, iat);
            && Verify(t.accessToken, accessSecret, now, false) == Some(Payload(AdminClaims(a), iat, iat + SESSION_TTL))
            && Verify(t.refreshToken, refreshSecret, now, false) == Some(Payload(AdminClaims(a), iat, iat + SESSION_TTL))
  {
    VerifySigned(AdminClaims(a), accessSecret, SESSION_TTL, iat, now);
    VerifySigned(AdminClaims(a), refreshSecret, SESSION_TTL, iat, now);
  }

  /** The state after tokens t are issued to the admin at position i: its
      refresh-token hash replaced, both session keys set for seven days. */
  function AfterIssue(s: State, i: nat, t: Tokens, now: nat): State
    requires i < |s.admins|
  {
    var id := s.admins[i].id;
    State(WithToken(s.admins, i, Some(Hash(t.refreshToken))),
          Stored(Stored(s.store, AccessKey(id), JStr(t.accessToken), SESSION_TTL, now),
                 RefreshKey(id), JStr(t.refreshToken), SESSION_TTL, now))
  }

  /** The state after logout of the admin at position i: no hash kept,
      both session keys gone. */
  function AfterLogout(s: State, i: nat): State
    requires i < |s.admins|
  {
    var id := s.admins[i].id;
    State(WithToken(s.admins, i, None), s.store - {AccessKey(id)} - {RefreshKey(id)})
  }

  /** Right after issue, the session keys hold the tokens until they
      expire. */
  lemma SessionKeysHoldTokens(s: State, i: nat, t: Tokens, setAt: nat, now: int)
    requires i < |s.admins| && setAt <= now < setAt + SESSION_TTL
    ensures var s' := AfterIssue(s, i, t, setAt);
            && Lookup(s'.store, AccessKey(s.admins[i].id), now) == Some(JStr(t.accessToken))
            && Lookup(s'.store, RefreshKey(s.admins[i].id), now) == Some(JStr(t.refreshToken))
  {
    var id := s.admins[i].id;
    var s1 := Stored(s.store, AccessKey(id), JStr(t.accessToken), SESSION_TTL, setAt);
    SessionKeysDistinct(id, id);
    GetAfterSet(s.store, AccessKey(id), JStr(t.accessToken), SESSION_TTL, setAt, now);
    SetKeepsOtherKeys(s1, RefreshKey(id), JStr(t.refreshToken), SESSION_TTL, setAt, AccessKey(id), now);
    GetAfterSet(s1, RefreshKey(id), JStr(t.refreshToken), SESSION_TTL, setAt, now);
  }

  /** The refresh token just issued is accepted by the next refresh. */
  lemma IssuedRefreshTokenAccepted(s: State, i: nat, t: Tokens, now: nat)
    requires Users.WellFormed(s.admins) && i < |s.admins|
    ensures var s' := AfterIssue(s, i, t, now);
            RefreshCheck(ById(s'.admins, s.admins[i].id), t.refreshToken) == Ok(s'.admins[i])
  {
    var s' := AfterIssue(s, i, t, now);
    WithTokenWellFormed(s.admins, i, Some(Hash(t.refreshToken)));
    IdFindsRow(s'.admins, i);
  }

  /** After a new pair is issued, a refresh token is accepted exactly when
      its first 72 characters are those of the issued refresh token:
      bcrypt.compare reads no further. */
  lemma RefreshAfterIssue(s: State, i: nat, t: Tokens, now: nat, token: string)
    requires Users.WellFormed(s.admins) && i < |s.admins|
    ensures RefreshCheck(ById(AfterIssue(s, i, t, now).admins, s.admins[i].id), token).Ok?
            <==> Read72(token) == Read72(t.refreshToken)
  {
    var s' := AfterIssue(s, i, t, now);
    WithTokenWellFormed(s.admins, i, Some(Hash(t.refreshToken)));
    IdFindsRow(s'.admins, i);
    MatchesIffSamePrefix(token, t.refreshToken);
  }

  /** The rotation as written does not revoke: with an id and an email of
      23 characters together (a uuid id alone has 36), every token signed
      for the admin agrees with the new refresh token on the 72 characters
      bcrypt reads. So the refresh token the rotation replaced, a different
      string, is still accepted, and so is an access token. */
  lemma PreviousTokenAccepted(s: State, i: nat, accessSecret: string, refreshSecret: string, earlier: nat, now: nat)
    requires Users.WellFormed(s.admins) && i < |s.admins|
    requires |s.admins[i].id| + |s.admins[i].email| >= 23
    ensures var a := s.admins[i];
            var previous := Issue(a, accessSecret, refreshSecret, earlier);
            var t := Issue(a, accessSecret, refreshSecret, now);
            var found := ById(AfterIssue(s, i, t, now).admins, a.id);
            && (earlier != now ==> previous.refreshToken != t.refreshToken)
            && RefreshCheck(found, previous.refreshToken).Ok?
            && RefreshCheck(found, previous.accessToken).Ok?
            && RefreshCheck(found, t.accessToken).Ok?
  {
    var a := s.admins[i];
    var c := AdminClaims(a);
    var t := Issue(a, accessSecret, refreshSecret, now);
    var previous := Issue(a, accessSecret, refreshSecret, earlier);
    HeadLength(c);
    var found := ById(AfterIssue(s, i, t, now).admins, a.id);
    HashedOnRow(s, i, t, now);
    SameClaimsShareHash(c, refreshSecret, SESSION_TTL, earlier, refreshSecret, SESSION_TTL, now);
    AcceptedByHash(found, previous.refreshToken, t.refreshToken);
    SameClaimsShareHash(c, accessSecret, SESSION_TTL, earlier, refreshSecret, SESSION_TTL, now);
    AcceptedByHash(found, previous.accessToken, t.refreshToken);
    SameClaimsShareHash(c, accessSecret, SESSION_TTL, now, refreshSecret, SESSION_TTL, now);
    AcceptedByHash(found, t.accessToken, t.refreshToken);
    if earlier != now {
      SignsDiffer(c, refreshSecret, SESSION_TTL, earlier, now);
    }
  }

  /** After issue, the id lookup finds the admin carrying the new hash. */
  lemma HashedOnRow(s: State, i: nat, t: Tokens, now: nat)
    requires Users.WellFormed(s.admins) && i < |s.admins|
    ensures var found := ById(AfterIssue(s, i, t, now).admins, s.admins[i].id);
            found.Some? && found.value.refreshToken == Some(Hash(t.refreshToken))
  {
    var s' := AfterIssue(s, i, t, now);
    WithTokenWellFormed(s.admins, i, Some(Hash(t.refreshToken)));
    IdFindsRow(s'.admins, i);
  }

  lemma AcceptedByHash(found: Option<Admin>, token: string, issued: string)
    requires found.Some? && found.value.refreshToken == Some(Hash(issued)) && Matches(token, Hash(issued))
    ensures RefreshCheck(found, token).Ok?
  {
  }

  /** Refresh as evidently intended: besides the hash on the admin, the
      token must be the one the session key `auth:<id>:refresh` holds, so
      only the latest refresh token passes. */
  function RefreshCheckLatest(found: Option<Admin>, stored: Option<Json>, token: string): (r: Result<Admin, Failure>)
    ensures r.Ok? <==> RefreshCheck(found, token).Ok? && stored == Some(JStr(token))
    ensures r.Ok? ==> r.value == found.value
    ensures r.Err? ==> r.error == Unauthorized("Access denied")
  {
    if stored != Some(JStr(token)) then Err(Unauthorized("Access denied"))
    else RefreshCheck(found, token)
  }

  /** With that check, after a new pair is issued and while its session
      key lives, the issued refresh token is the only one accepted. */
  lemma LatestRefusesRotated(s: State, i: nat, t: Tokens, issuedAt: nat, now: nat, token: string)
    requires Users.WellFormed(s.admins) && i < |s.admins| && issuedAt <= now < issuedAt + SESSION_TTL
    ensures var s' := AfterIssue(s, i, t, issuedAt);
            var id := s.admins[i].id;
            RefreshCheckLatest(ById(s'.admins, id), Lookup(s'.store, RefreshKey(id), now), token).Ok?
            <==> token == t.refreshToken
  {
    SessionKeysHoldTokens(s, i, t, issuedAt, now);
    IssuedRefreshTokenAccepted(s, i, t, issuedAt);
  }

  /** After logout every refresh token is refused and both session keys
      are gone. */
  lemma RefreshAfterLogoutRefused(s: State, i: nat, token: string, now: int)
    requires Users.WellFormed(s.admins) && i < |s.admins|
    ensures var s' := AfterLogout(s, i);
            && RefreshCheck(ById(s'.admins, s.admins[i].id), token).Err?
            && Lookup(s'.store, AccessKey(s.admins[i].id), now).None?
            && Lookup(s'.store, RefreshKey(s.admins[i].id), now).None?
  {
    var s' := AfterLogout(s, i);
    WithTokenWellFormed(s.admins, i, None);
    IdFindsRow(s'.admins, i);
  }

  /** Logging out twice is logging out once. */
  lemma LogoutIdempotent(s: State, i: nat)
    requires i < |s.admins|
    ensures AfterLogout(AfterLogout(s, i), i) == AfterLogout(s, i)
  {
  }

  /** Logout leaves every other admin's record and session keys as they
      were. */
  lemma LogoutKeepsOthers(s: State, i: nat, j: nat, now: int)
    requires Users.WellFormed(s.admins) && i < |s.admins| && j < |s.admins| && j != i
    ensures var s' := AfterLogout(s, i);
            var other := s.admins[j].id;
            && s'.admins[j] == s.admins[j]
            && Lookup(s'.store, AccessKey(other), now) == Lookup(s.store, AccessKey(other), now)
            && Lookup(s'.store, RefreshKey(other), now) == Lookup(s.store, RefreshKey(other), now)
  {
    var me, other := s.admins[i].id, s.admins[j].id;
    SessionKeysDistinct(other, me);
    SessionKeysDistinct(me, other);
  }

  // ---------------------------------------------------------------------------
  // The service
  // ---------------------------------------------------------------------------

  class AuthService {
    const users: UsersService
    const redis: RedisService
    /** JWT_ACCESS_SECRET and JWT_REFRESH_SECRET. */
    const accessSecret: string
    const refreshSecret: string

    ghost predicate Valid()
      reads this, users, redis
    {
      users.Valid() && redis.Valid()
    }

    ghost function Current(): State
      reads this, users, redis
    {
      State(users.admins, redis.store)
    }

    constructor (users: UsersService, redis: RedisService, accessSecret: string, refreshSecret: string)
      requires users.Valid() && redis.Valid()
      ensures Valid() && this.users == users && this.redis == redis
      ensures this.accessSecret == accessSecret && this.refreshSecret == refreshSecret
    {
      this.users := users;
      this.redis := redis;
      this.accessSecret := accessSecret;
      this.refreshSecret := refreshSecret;
    }

    /** `generateAndStoreTokens(admin)`: signs the pair, stores the hash of
        the refresh token on the admin, then sets both session keys. */
    method GenerateAndStoreTokens(admin: Admin, now: nat) returns (r: Result<Tokens, Failure>)
      requires Valid()
      modifies users, redis
      ensures Valid()
      ensures match IndexOfId(old(users.admins), admin.id)
        case None => r == Err(Internal(RECORD_NOT_FOUND)) && Current() == old(Current())
        case Some(i) =>
          var t := Issue(admin, accessSecret, refreshSecret, now);
          r == Ok(t) && Current() == AfterIssue(old(Current()), i, t, now)
    {
      var t := Issue(admin, accessSecret, refreshSecret, now);
      var updated := users.UpdateRefreshToken(admin.id, Some(Hash(t.refreshToken)));
      if updated.Err? {
        return Err(updated.error);
      }
      redis.Set(AccessKey(admin.id), JStr(t.accessToken), SESSION_TTL, now);
      redis.Set(RefreshKey(admin.id), JStr(t.refreshToken), SESSION_TTL, now);
      r := Ok(t);
    }

    /** `register(dto)`: creates the admin, then issues its first pair. */
    method Register(dto: NewAdmin, id: string, now: nat) returns (r: Result<Tokens, Failure>)
      requires Valid() && !HasId(users.admins, id)
      modifies users, redis
      ensures Valid()
      ensures HasEmail(old(users.admins), Lower(dto.email)) ==>
        r == Err(Internal("Email already registered")) && Current() == old(Current())
      ensures !HasEmail(old(users.admins), Lower(dto.email)) ==>
        var a := NewRow(dto, id, now);
        var t := Issue(a, accessSecret, refreshSecret, now);
        r == Ok(t) && Current() == AfterIssue(State(old(users.admins) + [a], old(redis.store)), |old(users.admins)|, t, now)
    {
      var created := users.Create(dto, id, now);
      if created.Err? {
        return Err(created.error);
      }
      IdFindsRow(users.admins, |users.admins| - 1);
      r := GenerateAndStoreTokens(created.value, now);
    }

    /** `login(dto)`. */
    method Login(email: string, password: string, now: nat) returns (r: Result<Tokens, Failure>)
      requires Valid()
      modifies users, redis
      ensures Valid()
      ensures match LoginCheck(ByEmail(old(users.admins), email), password)
        case Err(e) => r == Err(e) && Current() == old(Current())
        case Ok(a) =>
          var t := Issue(a, accessSecret, refreshSecret, now);
          exists i :: 0 <= i < |old(users.admins)| && old(users.admins)[i] == a
            && r == Ok(t) && Current() == AfterIssue(old(Current()), i, t, now)
    {
      var found := users.FindByEmail(email);
      var checked := LoginCheck(found, password);
      if checked.Err? {
        return Err(checked.error);
      }
      var a := checked.value;
      var i :| 0 <= i < |users.admins| && users.admins[i] == a;
      IdFindsRow(users.admins, i);
      r := GenerateAndStoreTokens(a, now);
    }

    /** `refreshTokens(adminId, refreshToken)`. */
    method RefreshTokens(adminId: string, token: string, now: nat) returns (r: Result<Tokens, Failure>)
      requires Valid()
      modifies users, redis
      ensures Valid()
      ensures match RefreshCheck(ById(old(users.admins), adminId), token)
        case Err(e) => r == Err(e) && Current() == old(Current())
        case Ok(a) =>
          var t := Issue(a, accessSecret, refreshSecret, now);
          exists i :: 0 <= i < |old(users.admins)| && old(users.admins)[i] == a
            && r == Ok(t) && Current() == AfterIssue(old(Current()), i, t, now)
    {
      var found := users.FindById(adminId);
      var checked := RefreshCheck(found, token);
      if checked.Err? {
        return Err(checked.error);
      }
      var a := checked.value;
      var i :| 0 <= i < |users.admins| && users.admins[i] == a;
      IdFindsRow(users.admins, i);
      r := GenerateAndStoreTokens(a, now);
    }

    /** `logout(adminId)`: clears the stored hash, then deletes both session
        keys; an unknown id makes the first step fail and nothing changes. */
    method Logout(adminId: string) returns (r: Result<string, Failure>)
      requires Valid()
      modifies users, redis
      ensures Valid()
      ensures match IndexOfId(old(users.admins), adminId)
        case None => r == Err(Internal(RECORD_NOT_FOUND)) && Current() == old(Current())
        case Some(i) => r == Ok("Logged out") && Current() == AfterLogout(old(Current()), i)
    {
      var updated := users.UpdateRefreshToken(adminId, None);
      if updated.Err? {
        return Err(updated.error);
      }
      redis.Delete(AccessKey(adminId));
      redis.Delete(RefreshKey(adminId));
      r := Ok("Logged out");
    }
  }
}
