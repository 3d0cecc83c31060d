/** Salon-owner login (src/modules/iam/auth/salon-owners/salonOwner-auth.service.ts):
    a ladder of checks with distinct outcomes, then the user is marked
    active and receives a pair of tokens; logout marks the user inactive.

    The email is looked up exactly as given (no case folding) and no
    refresh-token hash is kept. */
module OwnerAuth {
  import opened Wrappers
  import opened Errors
  import opened Crypto
  import opened Jwt
  import opened Table

  const OWNER_ROLE := "SALON_OWNER"
  const ACCESS_TTL: nat := 50 * MINUTE
  const REFRESH_TTL: nat := 7 * DAY

  /** A user row; `password` is a bcrypt hash, null, or empty for an owner
      who was invited but has not set one. */
  datatype User = User(id: string, email: string, password: Option<string>, role: string, isActive: bool)

  /** The part of the user returned with the tokens. */
  datatype UserView = UserView(id: string, email: string, role: string)

  datatype OwnerSession = OwnerSession(accessToken: string, refreshToken: string, user: UserView)

  ghost predicate WellKeyed(t: seq<User>) {
    forall i, j :: 0 <= i < j < |t| ==> t[i].id != t[j].id && t[i].email != t[j].email
  }

  /** `findUnique({ where: { email } })`: the email exactly as given. */
  function ByEmail(t: seq<User>, email: string): (r: Option<nat>)
    ensures r.Some? ==> r.value < |t| && t[r.value].email == email
    ensures r.None? <==> forall i :: 0 <= i < |t| ==> t[i].email != email
  {
    FindFirst(t, (u: User) => u.email == email)
  }

  function IndexOfId(t: seq<User>, id: string): (r: Option<nat>)
    ensures r.Some? ==> r.value < |t| && t[r.value].id == id
    ensures r.None? <==> forall i :: 0 <= i < |t| ==> t[i].id != id
  {
    FindFirst(t, (u: User) => u.id == id)
  }

  /** A password is set: present and not empty. */
  predicate HasPassword(u: User) { u.password.Some? && u.password.value != "" }

  /** The failure checks of `login`, in their order: no such user or not
      an owner, then no password set, then a wrong password. */
  function CheckOwnerLogin(found: Option<User>, password: string): (r: Result<User, Failure>)
    ensures found.None? || found.value.role != OWNER_ROLE ==>
      r == Err(Unauthorized("Invalid credentials"))
    ensures found.Some? && found.value.role == OWNER_ROLE && !HasPassword(found.value) ==>
      r == Err(Unauthorized("Password not set. Check invitation email."))
    ensures found.Some? && found.value.role == OWNER_ROLE && HasPassword(found.value)
            && !Matches(password, found.value.password.value) ==>
      r == Err(Unauthorized("Invalid credentials"))
    ensures r.Ok? <==> found.Some? && found.value.role == OWNER_ROLE && HasPassword(found.value)
                       && Matches(password, found.value.password.value)
    ensures r.Ok? ==> r.value == found.value
  {
    if found.None? || found.value.role != OWNER_ROLE then Err(Unauthorized("Invalid credentials"))
    else if !HasPassword(found.value) then Err(Unauthorized("Password not set. Check invitation email."))
    else if !Matches(password, found.value.password.value) then Err(Unauthorized("Invalid credentials"))
    else Ok(found.value)
  }

  /** An owner invited by the salon directory, whose password is the empty
      string, cannot log in whatever password is tried; a user who is not an
      owner never learns whether a password is set. */
  lemma InvitedOwnerCannotLogIn(u: User, password: string)
    ensures u.role == OWNER_ROLE && u.password == Some("") ==>
      CheckOwnerLogin(Some(u), password) == Err(Unauthorized("Password not set. Check invitation email."))
    ensures u.role != OWNER_ROLE ==>
      CheckOwnerLogin(Some(u), password) == CheckOwnerLogin(None, password)
  {
  }

  /** The session `login` returns for user u at time now. */
  function Session(u: User, accessSecret: string, refreshSecret: string, now: nat): OwnerSession {
    var c := Claims(u.id, u.email, u.role);
    OwnerSession(Sign(c, accessSecret, ACCESS_TTL, now), Sign(c, refreshSecret, REFRESH_TTL, now),
                 UserView(u.id, u.email, u.role))
  }

  /** Both tokens carry the user's {sub, email, role}: the access token for
      50 minutes, the refresh token for seven days. */
  lemma SessionTokensVerify(u: User, accessSecret: string, refreshSecret: string, iat: nat, now: nat)
    ensures var s := Session(u, accessSecret, refreshSecret, iat);
            var c := Claims(u.id, u.email, u.role);
            && (iat <= now < iat + ACCESS_TTL ==>
                  Verify(s.accessToken, accessSecret, now, false) == Some(Payload(c, iat, iat + ACCESS_TTL)))
            && (iat + ACCESS_TTL <= now ==> Verify(s.accessToken, accessSecret, now, false).None?)
            && (iat <= now < iat + REFRESH_TTL ==>
                  Verify(s.refreshToken, refreshSecret, now, false) == Some(Payload(c, iat, iat + REFRESH_TTL)))
  {
    var c := Claims(u.id, u.email, u.role);
    if iat <= now < iat + ACCESS_TTL {
      VerifySigned(c, accessSecret, ACCESS_TTL, iat, now);
    }
    if iat + ACCESS_TTL <= now {
      VerifyRejectsExpired(c, accessSecret, ACCESS_TTL, iat, now);
    }
    if iat <= now < iat + REFRESH_TTL {
      VerifySigned(c, refreshSecret, REFRESH_TTL, iat, now);
    }
  }

  /** The table with the user at position i marked active or inactive. */
  function WithActive(t: seq<User>, i: nat, active: bool): (r: seq<User>)
    requires i < |t|
    ensures |r| == |t| && r[i] == t[i].(isActive := active)
    ensures forall j :: 0 <= j < |t| && j != i ==> r[j] == t[j]
  {
    t[i := t[i].(isActive := active)]
  }

  /** Logging out twice is logging out once. */
  lemma LogoutIdempotent(t: seq<User>, i: nat)
    requires i < |t|
    ensures WithActive(WithActive(t, i, false), i, false) == WithActive(t, i, false)
  {
  }

  class OwnerAuthService {
    var users: seq<User>
    const accessSecret: string
    const refreshSecret: string

    ghost predicate Valid()
      reads this
    {
      WellKeyed(users)
    }

    constructor (users: seq<User>, accessSecret: string, refreshSecret: string)
      requires WellKeyed(users)
      ensures Valid() && this.users == users
      ensures this.accessSecret == accessSecret && this.refreshSecret == refreshSecret
    {
      this.users := users;
      this.accessSecret := accessSecret;
      this.refreshSecret := refreshSecret;
    }

    /** `login(email, password)`: every failure leaves the table as it was;
        success marks the user active and returns the session. */
    method Login(email: string, password: string, now: nat) returns (r: Result<OwnerSession, Failure>)
      requires Valid()
      modifies this
      ensures Valid()
      ensures var found := ByEmail(old(users), email);
              var user := if found.Some? then Some(old(users)[found.value]) else None;
              match CheckOwnerLogin(user, password)
              case Err(e) => r == Err(e) && users == old(users)
              case Ok(u) =>
                r == Ok(Session(u, accessSecret, refreshSecret, now))
                && users == WithActive(old(users), found.value, true)
    {
      var found := ByEmail(users, email);
      var user := if found.Some? then Some(users[found.value]) else None;
      var checked := CheckOwnerLogin(user, password);
      if checked.Err? {
        return Err(checked.error);
      }
      var i := found.value;
      var u := checked.value;
      users := WithActive(users, i, true);
      r := Ok(Session(u, accessSecret, refreshSecret, now));
    }

    /** `logout(userId)`: marks only that user inactive; the store refuses
        an id that does not exist. */
    method Logout(userId: string) returns (r: Result<string, Failure>)
      requires Valid()
      modifies this
      ensures Valid()
      ensures match IndexOfId(old(users), userId)
        case None => r == Err(Internal(RECORD_NOT_FOUND)) && users == old(users)
        case Some(i) => r == Ok("Logged out successfully") && users == WithActive(old(users), i, false)
    {
      var found := IndexOfId(users, userId);
      if found.None? {
        return Err(Internal(RECORD_NOT_FOUND));
      }
      users := WithActive(users, found.value, false);
      r := Ok("Logged out successfully");
    }
  }
}
