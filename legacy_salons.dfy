/** The older salon table (src/modules/salons/salons.service.ts): create
    with a conflict check, a paginated listing searched by name prefix,
    and find / update / delete by id with a not-found check. There is no
    cache, no soft delete and no clamp on the page size. */
module LegacySalons {
  import opened Wrappers
  import opened Text
  import opened Errors
  import opened Table

  /** A salon row; `ownerIds` are the owners linked to it. */
  datatype Salon = Salon(
    id: string,
    name: string,
    businessType: string,
    vtaNumber: string,
    employeeCount: string,
    email: string,
    phoneNumber: string,
    country: string,
    city: string,
    province: string,
    zipCode: string,
    trialPeriod: string,
    initialPlan: string,
    createdAt: nat,
    ownerIds: seq<string>)

  /** An owner given with a create request. */
  datatype NewOwner = NewOwner(firstName: string, lastName: string, invitationSent: bool)

  datatype NewSalonRequest = NewSalonRequest(
    name: string,
    businessType: string,
    vtaNumber: string,
    employeeCount: string,
    email: string,
    phoneNumber: string,
    country: string,
    city: string,
    province: string,
    zipCode: string,
    trialPeriod: string,
    initialPlan: string,
    owners: seq<NewOwner>)

  /** The fields an update may set, and the owners to link, by id. */
  datatype Patch = Patch(
    name: Option<string>,
    businessType: Option<string>,
    vtaNumber: Option<string>,
    employeeCount: Option<string>,
    email: Option<string>,
    phoneNumber: Option<string>,
    country: Option<string>,
    city: Option<string>,
    province: Option<string>,
    zipCode: Option<string>,
    trialPeriod: Option<string>,
    initialPlan: Option<string>,
    owners: Option<seq<string>>)

  /** The listing: `{ data, total, page, lastPage }`. */
  datatype PageResult = PageResult(data: seq<Salon>, total: nat, page: nat, lastPage: nat)

  function CreatedAt(s: Salon): nat { s.createdAt }

  ghost predicate UniqueIds(t: seq<Salon>) {
    forall i, j :: 0 <= i < j < |t| ==> t[i].id != t[j].id
  }

  /** Ids are keys, and VTA numbers and emails are unique columns: the
      conflict check in `create` guards the last two. */
  ghost predicate WellKeyed(t: seq<Salon>) {
    forall i, j :: 0 <= i < j < |t| ==>
      t[i].id != t[j].id && t[i].vtaNumber != t[j].vtaNumber && t[i].email != t[j].email
  }

  /** Some salon has the VTA number or the email. */
  predicate Taken(t: seq<Salon>, vtaNumber: string, email: string) {
    exists i :: 0 <= i < |t| && (t[i].vtaNumber == vtaNumber || t[i].email == email)
  }

  /** Some salon other than `id` has the VTA number or the email. */
  predicate TakenByOther(t: seq<Salon>, id: string, vtaNumber: string, email: string) {
    exists i :: 0 <= i < |t| && t[i].id != id && (t[i].vtaNumber == vtaNumber || t[i].email == email)
  }

  predicate HasId(t: seq<Salon>, id: string) {
    exists i :: 0 <= i < |t| && t[i].id == id
  }

  function IndexOfId(t: seq<Salon>, id: string): (r: Option<nat>)
    ensures r.Some? ==> r.value < |t| && t[r.value].id == id
    ensures r.None? <==> !HasId(t, id)
  {
    FindFirst(t, (s: Salon) => s.id == id)
  }

  /** The row `create` inserts: the request's fields as given; the new
      owners get the given ids, and none are linked when the request has
      none. */
  function NewRow(req: NewSalonRequest, id: string, ownerIds: seq<string>, now: nat): (s: Salon)
    requires |ownerIds| == |req.owners|
    ensures s.id == id && s.createdAt == now
    ensures s.name == req.name && s.businessType == req.businessType
    ensures s.vtaNumber == req.vtaNumber && s.employeeCount == req.employeeCount
    ensures s.email == req.email && s.phoneNumber == req.phoneNumber
    ensures s.country == req.country && s.city == req.city && s.province == req.province
    ensures s.zipCode == req.zipCode && s.trialPeriod == req.trialPeriod && s.initialPlan == req.initialPlan
    ensures |req.owners| > 0 ==> s.ownerIds == ownerIds
    ensures |req.owners| == 0 ==> s.ownerIds == []
  {
    Salon(id, req.name, req.businessType, req.vtaNumber, req.employeeCount, req.email,
      req.phoneNumber, req.country, req.city, req.province, req.zipCode, req.trialPeriod,
      req.initialPlan, now, if |req.owners| > 0 then ownerIds else [])
  }

  /** The row after an update: each field the patch sets replaced, and the
      owner links replaced only by a non-empty list. */
  function Patched(s: Salon, p: Patch): (r: Salon)
    ensures r.id == s.id && r.createdAt == s.createdAt
    ensures r.name == p.name.GetOr(s.name) && r.businessType == p.businessType.GetOr(s.businessType)
    ensures r.vtaNumber == p.vtaNumber.GetOr(s.vtaNumber) && r.employeeCount == p.employeeCount.GetOr(s.employeeCount)
    ensures r.email == p.email.GetOr(s.email) && r.phoneNumber == p.phoneNumber.GetOr(s.phoneNumber)
    ensures r.country == p.country.GetOr(s.country) && r.city == p.city.GetOr(s.city)
    ensures r.province == p.province.GetOr(s.province) && r.zipCode == p.zipCode.GetOr(s.zipCode)
    ensures r.trialPeriod == p.trialPeriod.GetOr(s.trialPeriod) && r.initialPlan == p.initialPlan.GetOr(s.initialPlan)
    ensures p.owners.Some? && |p.owners.value| > 0 ==> r.ownerIds == p.owners.value
    ensures p.owners.None? || |p.owners.value| == 0 ==> r.ownerIds == s.ownerIds
  {
    s.(name := p.name.GetOr(s.name),
       businessType := p.businessType.GetOr(s.businessType),
       vtaNumber := p.vtaNumber.GetOr(s.vtaNumber),
       employeeCount := p.employeeCount.GetOr(s.employeeCount),
       email := p.email.GetOr(s.email),
       phoneNumber := p.phoneNumber.GetOr(s.phoneNumber),
       country := p.country.GetOr(s.country),
       city := p.city.GetOr(s.city),
       province := p.province.GetOr(s.province),
       zipCode := p.zipCode.GetOr(s.zipCode),
       trialPeriod := p.trialPeriod.GetOr(s.trialPeriod),
       initialPlan := p.initialPlan.GetOr(s.initialPlan),
       ownerIds := if p.owners.Some? && |p.owners.value| > 0 then p.owners.value else s.ownerIds)
  }

  /** The listing's `where`: every row, or the rows whose name starts with
      the search term ignoring case. */
  datatype NameWhere = AnyName | NameStartsWith(prefix: string)

  predicate NameMatches(s: Salon, w: NameWhere) {
    match w
    case AnyName => true
    case NameStartsWith(prefix) => StartsWith(Lower(s.name), Lower(prefix))
  }

  /** With no search term every row matches, so the total is the table
      size. */
  lemma NoSearchMatchesAll(t: seq<Salon>)
    ensures Filter(t, (s: Salon) => NameMatches(s, AnyName)) == t
  {
    if t != [] {
      NoSearchMatchesAll(t[1..]);
      assert t == [t[0]] + t[1..];
    }
  }

  lemma AppendWellKeyed(t: seq<Salon>, s: Salon)
    requires WellKeyed(t) && !HasId(t, s.id) && !Taken(t, s.vtaNumber, s.email)
    ensures WellKeyed(t + [s])
  {
  }

  lemma ReplaceWellKeyed(t: seq<Salon>, i: nat, s: Salon)
    requires WellKeyed(t) && i < |t| && s.id == t[i].id && !TakenByOther(t, s.id, s.vtaNumber, s.email)
    ensures WellKeyed(t[i := s])
  {
  }

  /** Removing row i keeps every other row, in order. */
  lemma RemoveKeepsOthers(t: seq<Salon>, i: nat)
    requires UniqueIds(t) && i < |t|
    ensures multiset(t[..i] + t[i + 1..]) + multiset{t[i]} == multiset(t)
    ensures !HasId(t[..i] + t[i + 1..], t[i].id)
  {
    assert t == t[..i] + [t[i]] + t[i + 1..];
    var r := t[..i] + t[i + 1..];
    forall k | 0 <= k < |r| ensures r[k].id != t[i].id {
      if k < i { assert r[k] == t[k]; } else { assert r[k] == t[k + 1]; }
    }
  }

  class SalonsService {
    var salons: seq<Salon>

    ghost predicate Valid()
      reads this
    {
      WellKeyed(salons)
    }

    constructor ()
      ensures Valid() && salons == []
    {
      salons := [];
    }

    /** `create(dto)`: a salon with the same VTA number or email is a
        conflict and nothing is inserted. */
    method Create(req: NewSalonRequest, id: string, ownerIds: seq<string>, now: nat) returns (r: Result<Salon, Failure>)
      requires Valid() && !HasId(salons, id) && |ownerIds| == |req.owners|
      modifies this
      ensures Valid()
      ensures Taken(old(salons), req.vtaNumber, req.email) ==>
        r == Err(Conflict("VTA or Email already exists")) && salons == old(salons)
      ensures !Taken(old(salons), req.vtaNumber, req.email) ==>
        r == Ok(NewRow(req, id, ownerIds, now)) && salons == old(salons) + [NewRow(req, id, ownerIds, now)]
    {
      var existing := FindFirst(salons, (s: Salon) => s.vtaNumber == req.vtaNumber || s.email == req.email);
      if existing.Some? {
        return Err(Conflict("VTA or Email already exists"));
      }
      var salon := NewRow(req, id, ownerIds, now);
      AppendWellKeyed(salons, salon);
      salons := salons + [salon];
      r := Ok(salon);
    }

    /** `findAll(page, limit, search)`: the rows whose name starts with the
        search term (all rows with no term), newest first, `limit` rows
        from `(page - 1) * limit`. */
    method FindAll(page: nat, limit: nat, search: Option<string>) returns (r: PageResult)
      requires page >= 1 && limit >= 1
      ensures var w := if search.Some? && search.value != "" then NameStartsWith(search.value) else AnyName;
              var rows := SortDesc(Filter(salons, (s: Salon) => NameMatches(s, w)), CreatedAt);
              && r.data == Window(rows, (page - 1) * limit, limit)
              && r.total == |rows|
      ensures search.Some? && search.value != "" ==>
        forall i :: 0 <= i < |r.data| ==> StartsWith(Lower(r.data[i].name), Lower(search.value))
      ensures forall i :: 0 <= i < |r.data| ==> r.data[i] in salons
      ensures SortedDesc(r.data, CreatedAt) && |r.data| <= limit
      ensures r.page == page && r.lastPage == LastPage(r.total, limit)
    {
      var skip := Skip(page, limit);
      var where := AnyName;
      if search.Some? && search.value != "" {
        where := NameStartsWith(search.value);
      }
      var matching := Filter(salons, (s: Salon) => NameMatches(s, where));
      var total := |matching|;
      var rows := SortDesc(matching, CreatedAt);
      var data := Window(rows, skip, limit);
      WindowOfSorted(rows, skip, limit, CreatedAt);
      forall x | x in rows ensures x in salons && NameMatches(x, where) {
        assert x in multiset(matching);
      }
      r := PageResult(data, total, page, LastPage(total, limit));
    }

    /** `findOne(id)`. */
    method FindOne(id: string) returns (r: Result<Salon, Failure>)
      ensures r.Ok? ==> r.value in salons && r.value.id == id
      ensures r.Err? <==> !HasId(salons, id)
      ensures r.Err? ==> r.error == NotFound("Salon not found")
    {
      var found := IndexOfId(salons, id);
      if found.None? {
        return Err(NotFound("Salon not found"));
      }
      r := Ok(salons[found.value]);
    }

    /** `update(id, dto)`: a missing id is not found and nothing changes; a
        patch that gives the row another salon's VTA number or email is
        refused by the store's unique columns, and nothing changes. */
    method Update(id: string, p: Patch) returns (r: Result<Salon, Failure>)
      requires Valid()
      modifies this
      ensures Valid()
      ensures match IndexOfId(old(salons), id)
        case None => r == Err(NotFound("Salon not found")) && salons == old(salons)
        case Some(i) =>
          var s := Patched(old(salons)[i], p);
          if TakenByOther(old(salons), id, s.vtaNumber, s.email) then
            r == Err(Internal(UNIQUE_CONSTRAINT_FAILED)) && salons == old(salons)
          else
            r == Ok(s) && salons == old(salons)[i := s]
    {
      var found := IndexOfId(salons, id);
      if found.None? {
        return Err(NotFound("Salon not found"));
      }
      var i := found.value;
      var s := Patched(salons[i], p);
      var clash := FindFirst(salons, (t: Salon) => t.id != id && (t.vtaNumber == s.vtaNumber || t.email == s.email));
      if clash.Some? {
        return Err(Internal(UNIQUE_CONSTRAINT_FAILED));
      }
      ReplaceWellKeyed(salons, i, s);
      salons := salons[i := s];
      r := Ok(s);
    }

    /** `remove(id)`: a missing id is not found; otherwise that row alone
        is deleted. */
    method Remove(id: string) returns (r: Result<string, Failure>)
      requires Valid()
      modifies this
      ensures Valid()
      ensures match IndexOfId(old(salons), id)
        case None => r == Err(NotFound("Salon not found")) && salons == old(salons)
        case Some(i) => r == Ok("Salon deleted successfully") && salons == old(salons)[..i] + old(salons)[i + 1..]
    {
      var found := IndexOfId(salons, id);
      if found.None? {
        return Err(NotFound("Salon not found"));
      }
      var i := found.value;
      assert salons == salons[..i] + [salons[i]] + salons[i + 1..];
      salons := salons[..i] + salons[i + 1..];
      r := Ok("Salon deleted successfully");
    }
  }
}
