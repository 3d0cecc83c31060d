/** The admin table (src/modules/iam/auth/users/users.service.ts): admins
    are registered under their lower-cased email, which must be unique,
    with a hashed password and no refresh token; the auth services look
    admins up by email or id and overwrite their refresh-token hash. */
module Users {
  import opened Wrappers
  import opened Text
  import opened Errors
  import opened Crypto
  import opened Table

  /** An admin row; `refreshToken` holds the hash of the refresh token last
      issued, or null. */
  datatype Admin = Admin(id: string, name: string, email: string, password: string,
                         refreshToken: Option<string>, createdAt: nat)

  /** The body of a create request. */
  datatype NewAdmin = NewAdmin(name: string, email: string, password: string)

  function CreatedAt(a: Admin): nat { a.createdAt }

  /** Stored emails are lower case, and ids and emails are unique. */
  ghost predicate WellFormed(t: seq<Admin>) {
    && (forall i :: 0 <= i < |t| ==> IsLowerCase(t[i].email))
    && (forall i, j :: 0 <= i < j < |t| ==> t[i].id != t[j].id && t[i].email != t[j].email)
  }

  predicate HasId(t: seq<Admin>, id: string) {
    exists i :: 0 <= i < |t| && t[i].id == id
  }

  predicate HasEmail(t: seq<Admin>, email: string) {
    exists i :: 0 <= i < |t| && t[i].email == email
  }

  /** `findUnique({ where: { email: email.toLowerCase() } })`. */
  function ByEmail(t: seq<Admin>, email: string): (r: Option<Admin>)
    ensures r.Some? ==> r.value in t && r.value.email == Lower(email)
    ensures r.None? <==> !HasEmail(t, Lower(email))
  {
    match FindFirst(t, (a: Admin) => a.email == Lower(email))
    case Some(i) => Some(t[i])
    case None => None
  }

  /** `findUnique({ where: { id } })`. */
  function ById(t: seq<Admin>, id: string): (r: Option<Admin>)
    ensures r.Some? ==> r.value in t && r.value.id == id
    ensures r.None? <==> !HasId(t, id)
  {
    match FindFirst(t, (a: Admin) => a.id == id)
    case Some(i) => Some(t[i])
    case None => None
  }

  /** The position of the admin with this id. */
  function IndexOfId(t: seq<Admin>, id: string): (r: Option<nat>)
    ensures r.Some? ==> r.value < |t| && t[r.value].id == id
    ensures r.None? <==> !HasId(t, id)
  {
    FindFirst(t, (a: Admin) => a.id == id)
  }

  /** In a well-formed table, a row is the one its id finds. */
  lemma IdFindsRow(t: seq<Admin>, i: nat)
    requires WellFormed(t) && i < |t|
    ensures IndexOfId(t, t[i].id) == Some(i) && ById(t, t[i].id) == Some(t[i])
  {
  }

  /** The row `create` inserts. */
  function NewRow(dto: NewAdmin, id: string, now: nat): (a: Admin)
    ensures a.email == Lower(dto.email) && IsLowerCase(a.email)
    ensures Matches(dto.password, a.password)
    ensures a.refreshToken.None? && a.id == id && a.createdAt == now
  {
    LowerIsLowerCase(dto.email);
    Admin(id, dto.name, Lower(dto.email), Hash(dto.password), None, now)
  }

  /** The table after `updateRefreshToken(id, token)`, for an id present at
      position i: only that row's refreshToken changes. */
  function WithToken(t: seq<Admin>, i: nat, token: Option<string>): (r: seq<Admin>)
    requires i < |t|
    ensures |r| == |t| && r[i] == t[i].(refreshToken := token)
    ensures forall j :: 0 <= j < |t| && j != i ==> r[j] == t[j]
  {
    t[i := t[i].(refreshToken := token)]
  }

  lemma WithTokenWellFormed(t: seq<Admin>, i: nat, token: Option<string>)
    requires WellFormed(t) && i < |t|
    ensures WellFormed(WithToken(t, i, token))
  {
  }

  /** An admin registered under some casing of an email is found by every
      casing of it. */
  lemma CreatedFoundByAnyCasing(t: seq<Admin>, dto: NewAdmin, id: string, now: nat, email: string)
    requires WellFormed(t) && !HasEmail(t, Lower(dto.email))
    requires Lower(email) == Lower(dto.email)
    ensures ByEmail(t + [NewRow(dto, id, now)], email) == Some(NewRow(dto, id, now))
  {
    var t' := t + [NewRow(dto, id, now)];
    assert t'[|t|].email == Lower(email);
    assert forall j :: 0 <= j < |t| ==> t'[j].email != Lower(email);
  }

  class UsersService {
    var admins: seq<Admin>

    ghost predicate Valid()
      reads this
    {
      WellFormed(admins)
    }

    constructor ()
      ensures Valid() && admins == []
    {
      admins := [];
    }

    /** `create(dto)`: refused with 'Email already registered' when the
        lower-cased email is taken; otherwise inserts the new admin. */
    method Create(dto: NewAdmin, id: string, now: nat) returns (r: Result<Admin, Failure>)
      requires Valid() && !HasId(admins, id)
      modifies this
      ensures Valid()
      ensures HasEmail(old(admins), Lower(dto.email)) ==>
        r == Err(Internal("Email already registered")) && admins == old(admins)
      ensures !HasEmail(old(admins), Lower(dto.email)) ==>
        r == Ok(NewRow(dto, id, now)) && admins == old(admins) + [NewRow(dto, id, now)]
    {
      var email := Lower(dto.email);
      var existing := ByEmail(admins, email);
      LowerFixesLowerCase(dto.email);
      if existing.Some? {
        return Err(Internal("Email already registered"));
      }
      var admin := NewRow(dto, id, now);
      admins := admins + [admin];
      r := Ok(admin);
    }

    /** `findByEmail(email)`: the admin whose stored email is the given one
        lower-cased. */
    method FindByEmail(email: string) returns (r: Option<Admin>)
      requires Valid()
      ensures r == ByEmail(admins, email)
      ensures r.Some? ==> r.value in admins && r.value.email == Lower(email)
      ensures r.None? ==> forall a :: a in admins ==> a.email != Lower(email)
    {
      r := ByEmail(admins, email);
    }

    /** `findById(id)`. */
    method FindById(id: string) returns (r: Option<Admin>)
      requires Valid()
      ensures r == ById(admins, id)
      ensures r.Some? ==> r.value in admins && r.value.id == id
      ensures r.None? ==> forall a :: a in admins ==> a.id != id
    {
      r := ById(admins, id);
    }

    /** `updateRefreshToken(id, token)`: sets that admin's refreshToken and
        nothing else; the store refuses an id that does not exist. */
    method UpdateRefreshToken(id: string, token: Option<string>) returns (r: Result<Admin, Failure>)
      requires Valid()
      modifies this
      ensures Valid()
      ensures match IndexOfId(old(admins), id)
        case None => r == Err(Internal(RECORD_NOT_FOUND)) && admins == old(admins)
        case Some(i) => admins == WithToken(old(admins), i, token) && r == Ok(admins[i])
    {
      var found := IndexOfId(admins, id);
      if found.None? {
        return Err(Internal(RECORD_NOT_FOUND));
      }
      var i := found.value;
      WithTokenWellFormed(admins, i, token);
      admins := WithToken(admins, i, token);
      r := Ok(admins[i]);
    }

    /** `findAll()`: every admin, newest first. */
    method FindAll() returns (r: seq<Admin>)
      requires Valid()
      ensures SortedDesc(r, CreatedAt)
      ensures multiset(r) == multiset(admins)
    {
      r := SortDesc(admins, CreatedAt);
    }
  }
}
