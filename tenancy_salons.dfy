/** The super-admin salon directory (src/modules/tenancy/salons/salons.service.ts):
    a salon table read through a cache held in the key-value service.

    `findAll` answers a filter from the cache when the key built from the
    filter holds a live entry, and otherwise queries the table and stores
    the answer for 60 seconds. `create`, `update` and `softDelete` write the
    table and then flush every key under the salon prefix, so a listing
    that follows a completed write is always computed from the table. */
module TenancySalons {
  import opened Wrappers
  import opened Text
  import opened Json
  import opened Errors
  import opened Table
  import opened Redis

  /** The namespace of the salon listing keys. Its value is defined in
      redis.constants.ts, which is not part of this model; any literal
      without glob metacharacters behaves the same here. */
  const SALON_CACHE_PREFIX := "salons"

  /** Lifetime of a cached listing, in seconds. */
  const LISTING_TTL: nat := 60

  /** The largest page size a listing serves. */
  const MAX_LIMIT: nat := 100

  // ---------------------------------------------------------------------------
  // Records
  // ---------------------------------------------------------------------------

  /** An owner attached to a salon when it is created. */
  datatype OwnerLink = OwnerLink(email: string, firstName: string, lastName: string, invitationSent: bool)

  /** A salon row. Dates are seconds; a soft-deleted salon has `deletedAt`. */
  datatype Salon = Salon(
    id: string,
    name: string,
    businessType: string,
    vtaNumber: string,
    employeeCount: nat,
    email: string,
    phoneNumber: string,
    country: string,
    province: string,
    city: string,
    zipCode: string,
    status: string,
    plan: string,
    trialEndsAt: Option<string>,
    createdBy: Option<string>,
    updatedBy: Option<string>,
    createdAt: nat,
    deletedAt: Option<nat>,
    owners: seq<OwnerLink>)

  /** The body of a create request. */
  datatype NewSalonRequest = NewSalonRequest(
    name: string,
    businessType: string,
    vtaNumber: string,
    employeeCount: nat,
    email: string,
    phoneNumber: string,
    country: string,
    province: string,
    city: string,
    zipCode: string,
    trialPeriod: string,
    createdBy: Option<string>,
    updatedBy: Option<string>,
    owners: seq<OwnerLink>)

  /** The fields an update may set; an absent field is left as it is. */
  datatype Patch = Patch(
    name: Option<string>,
    businessType: Option<string>,
    vtaNumber: Option<string>,
    employeeCount: Option<nat>,
    email: Option<string>,
    phoneNumber: Option<string>,
    country: Option<string>,
    province: Option<string>,
    city: Option<string>,
    zipCode: Option<string>,
    status: Option<string>,
    plan: Option<string>,
    updatedBy: Option<string>)

  /** The listing filter. Absent fields are `None`; `ranges` holds the
      min/max employee, revenue and support bounds, which the listing
      accepts but never uses. */
  datatype Filters = Filters(
    page: Option<nat>,
    limit: Option<nat>,
    search: Option<string>,
    status: Option<string>,
    plan: Option<string>,
    country: Option<string>,
    province: Option<string>,
    city: Option<string>,
    refresh: Option<string>,
    ranges: map<string, nat>)

  function PageOf(f: Filters): nat { f.page.GetOr(1) }
  function LimitOf(f: Filters): nat { f.limit.GetOr(10) }

  /** The filter can be served: a page from 1 and a page size from 1. */
  predicate Servable(f: Filters) { PageOf(f) >= 1 && LimitOf(f) >= 1 }

  // ---------------------------------------------------------------------------
  // The cache key
  // ---------------------------------------------------------------------------

  /** `buildCacheKey`: every filter field in a fixed order, absent fields
      replaced by their defaults (page 1, limit 10, the empty string). */
  function BuildCacheKey(f: Filters): (key: string)
    ensures StartsWith(key, SALON_CACHE_PREFIX + ":")
  {
    KeyWith(f, FieldsPart(f))
  }

  /** A listing key: the prefix, the page, the limit, then `fields`. */
  function KeyWith(f: Filters, fields: string): (key: string)
    ensures StartsWith(key, SALON_CACHE_PREFIX + ":")
  {
    var head := SALON_CACHE_PREFIX + ":page:";
    assert (head + PagePart(f, fields))[..|SALON_CACHE_PREFIX| + 1] == SALON_CACHE_PREFIX + ":";
    head + PagePart(f, fields)
  }

  /** The key after `<prefix>:page:`. */
  function PagePart(f: Filters, fields: string): string {
    NatToDecimal(PageOf(f)) + ":" + LimitPart(f, fields)
  }

  /** The key from `limit:` on. */
  function LimitPart(f: Filters, fields: string): string {
    "limit:" + NatToDecimal(LimitOf(f)) + ":" + fields
  }

  /** The key from `s:` on: the string fields, each after its tag. */
  function FieldsPart(f: Filters): string {
    "s:" + f.search.GetOr("") + ":st:" + f.status.GetOr("") + ":p:" + f.plan.GetOr("")
    + ":c:" + f.country.GetOr("") + ":pr:" + f.province.GetOr("") + ":ct:" + f.city.GetOr("")
  }

  lemma CacheKeyDefaults(f: Filters, refresh: Option<string>, ranges: map<string, nat>)
    ensures BuildCacheKey(f.(page := None)) == BuildCacheKey(f.(page := Some(1)))
    ensures BuildCacheKey(f.(limit := None)) == BuildCacheKey(f.(limit := Some(10)))
    ensures BuildCacheKey(f.(search := None)) == BuildCacheKey(f.(search := Some("")))
    ensures BuildCacheKey(f.(status := None)) == BuildCacheKey(f.(status := Some("")))
    ensures BuildCacheKey(f.(plan := None)) == BuildCacheKey(f.(plan := Some("")))
    ensures BuildCacheKey(f.(country := None)) == BuildCacheKey(f.(country := Some("")))
    ensures BuildCacheKey(f.(province := None)) == BuildCacheKey(f.(province := Some("")))
    ensures BuildCacheKey(f.(city := None)) == BuildCacheKey(f.(city := Some("")))
    ensures BuildCacheKey(f.(refresh := refresh, ranges := ranges)) == BuildCacheKey(f)
  {
  }

  predicate NoColon(s: string) {
    forall i :: 0 <= i < |s| ==> s[i] != ':'
  }

  /** The position of the first colon in s, or |s|. */
  function FirstColon(s: string): (n: nat)
    ensures n <= |s|
  {
    if s == [] || s[0] == ':' then 0 else 1 + FirstColon(s[1..])
  }

  lemma {:induction false} FirstColonAfter(x: string, y: string)
    requires NoColon(x)
    ensures FirstColon(x + ":" + y) == |x|
  {
    if x != [] {
      assert (x + ":" + y)[1..] == x[1..] + ":" + y;
      FirstColonAfter(x[1..], y);
    }
  }

  /** A colon-free head followed by a colon is recovered from the whole. */
  lemma SplitAtColon(x: string, y: string, x': string, y': string)
    requires NoColon(x) && NoColon(x')
    requires x + ":" + y == x' + ":" + y'
    ensures x == x' && y == y'
  {
    FirstColonAfter(x, y);
    FirstColonAfter(x', y');
    var s := x + ":" + y;
    assert x == s[..|x|];
    assert y == s[|x| + 1..];
  }

  lemma DigitsHaveNoColon(n: nat)
    ensures NoColon(NatToDecimal(n))
  {
    var d := NatToDecimal(n);
    assert forall i :: 0 <= i < |d| ==> IsDigit(d[i]);
  }

  /** Equal keys mean equal page and equal raw limit: the key is built from
      the limit as given, before it is clamped to 100, so limits 100 and
      500 share a response but not a key. */
  lemma CacheKeyDeterminesPage(f: Filters, g: Filters)
    requires BuildCacheKey(f) == BuildCacheKey(g)
    ensures PageOf(f) == PageOf(g) && LimitOf(f) == LimitOf(g)
  {
    KeyParts(f, g, FieldsPart(f), FieldsPart(g));
  }

  /** A key gives back its page, its limit and its fields part. */
  lemma KeyParts(f: Filters, g: Filters, x: string, y: string)
    requires KeyWith(f, x) == KeyWith(g, y)
    ensures PageOf(f) == PageOf(g) && LimitOf(f) == LimitOf(g) && x == y
  {
    PagePartOfKey(f, x);
    PagePartOfKey(g, y);
    DigitsHaveNoColon(PageOf(f));
    DigitsHaveNoColon(PageOf(g));
    SplitAtColon(NatToDecimal(PageOf(f)), LimitPart(f, x), NatToDecimal(PageOf(g)), LimitPart(g, y));
    DecimalInjective(PageOf(f), PageOf(g));
    LimitPartTail(f, x);
    LimitPartTail(g, y);
    DigitsHaveNoColon(LimitOf(f));
    DigitsHaveNoColon(LimitOf(g));
    SplitAtColon(NatToDecimal(LimitOf(f)), x, NatToDecimal(LimitOf(g)), y);
    DecimalInjective(LimitOf(f), LimitOf(g));
  }

  lemma PagePartOfKey(f: Filters, fields: string)
    ensures PagePart(f, fields) == KeyWith(f, fields)[|SALON_CACHE_PREFIX + ":page:"|..]
  {
  }

  lemma LimitPartTail(f: Filters, fields: string)
    ensures LimitPart(f, fields)[6..] == NatToDecimal(LimitOf(f)) + ":" + fields
  {
  }

  /** The string fields are joined without escaping, so different filters
      can share a key: searching for `x:st:A` with no status gives the key
      of searching for `x` with status `A:st:`. The two select different
      salons, so the second request is answered with the first one's
      cached page. */
  lemma CacheKeyCollision()
    ensures var f := Filters(None, None, Some("x:st:A"), None, None, None, None, None, None, map[]);
            var g := Filters(None, None, Some("x"), Some("A:st:"), None, None, None, None, None, map[]);
            var s := Salon("1", "x:st:A", "", "v", 0, "e", "", "", "", "", "", "TRIAL", "BASIC",
                           None, None, None, 0, None, []);
            BuildCacheKey(f) == BuildCacheKey(g) && Selected(s, f) && !Selected(s, g)
  {
    var f := Filters(None, None, Some("x:st:A"), None, None, None, None, None, None, map[]);
    var g := Filters(None, None, Some("x"), Some("A:st:"), None, None, None, None, None, map[]);
    assert FieldsPart(f) == FieldsPart(g);
    var s := Salon("1", "x:st:A", "", "v", 0, "e", "", "", "", "", "", "TRIAL", "BASIC",
                   None, None, None, 0, None, []);
    WitnessSelected(s, f);
    WitnessNotSelected(s, g);
  }

  lemma WitnessSelected(s: Salon, f: Filters)
    requires s.name == "x:st:A" && s.deletedAt.None?
    requires f == Filters(None, None, Some("x:st:A"), None, None, None, None, None, None, map[])
    ensures Selected(s, f)
  {
    assert Lower(s.name) == "x:st:a";
    assert OccursAt(Lower(s.name), Lower("x:st:A"), 0);
  }

  lemma WitnessNotSelected(s: Salon, g: Filters)
    requires s.status == "TRIAL"
    requires g == Filters(None, None, Some("x"), Some("A:st:"), None, None, None, None, None, map[])
    ensures !Selected(s, g)
  {
    assert Upper("A:st:") == "A:ST:";
  }

  /** The string fields as a JSON array of strings: each field quoted and
      escaped, so the text gives every field back. */
  function EscapedFields(f: Filters): string {
    Stringify(JArr([JStr(f.search.GetOr("")), JStr(f.status.GetOr("")), JStr(f.plan.GetOr("")),
                    JStr(f.country.GetOr("")), JStr(f.province.GetOr("")), JStr(f.city.GetOr(""))]))
  }

  /** A listing key that keeps the string fields apart. */
  function EscapedCacheKey(f: Filters): (key: string)
    ensures StartsWith(key, SALON_CACHE_PREFIX + ":")
  {
    KeyWith(f, EscapedFields(f))
  }

  /** With escaped fields, two filters that share a key select the same
      salons and get the same page, so a cached answer is the right one. */
  lemma EscapedKeyDeterminesAnswer(table: seq<Salon>, f: Filters, g: Filters)
    requires EscapedCacheKey(f) == EscapedCacheKey(g) && Servable(f)
    ensures Servable(g)
    ensures forall s :: Selected(s, f) <==> Selected(s, g)
    ensures Answer(table, f) == Answer(table, g)
  {
    KeyParts(f, g, EscapedFields(f), EscapedFields(g));
    EscapedFieldsApart(f, g);
    SameFieldsSameWhere(f, g);
    assert Matching(table, f) == Matching(table, g);
  }

  /** Equal escaped fields are equal field by field. */
  lemma EscapedFieldsApart(f: Filters, g: Filters)
    requires EscapedFields(f) == EscapedFields(g)
    ensures SameFields(f, g)
  {
    StringifyInjective(
      JArr([JStr(f.search.GetOr("")), JStr(f.status.GetOr("")), JStr(f.plan.GetOr("")),
            JStr(f.country.GetOr("")), JStr(f.province.GetOr("")), JStr(f.city.GetOr(""))]),
      JArr([JStr(g.search.GetOr("")), JStr(g.status.GetOr("")), JStr(g.plan.GetOr("")),
            JStr(g.country.GetOr("")), JStr(g.province.GetOr("")), JStr(g.city.GetOr(""))]));
  }

  /** The two filters agree on every string field, an absent field
      counting as empty. */
  predicate SameFields(f: Filters, g: Filters) {
    && f.search.GetOr("") == g.search.GetOr("")
    && f.status.GetOr("") == g.status.GetOr("")
    && f.plan.GetOr("") == g.plan.GetOr("")
    && f.country.GetOr("") == g.country.GetOr("")
    && f.province.GetOr("") == g.province.GetOr("")
    && f.city.GetOr("") == g.city.GetOr("")
  }

  lemma SameFieldsSameWhere(f: Filters, g: Filters)
    requires SameFields(f, g)
    ensures BuildWhere(f) == BuildWhere(g)
  {
    FieldAgrees(f.search, g.search);
    FieldAgrees(f.status, g.status);
    FieldAgrees(f.plan, g.plan);
    FieldAgrees(f.country, g.country);
    FieldAgrees(f.province, g.province);
    FieldAgrees(f.city, g.city);
  }

  lemma FieldAgrees(o: Option<string>, p: Option<string>)
    requires o.GetOr("") == p.GetOr("")
    ensures Given(o) <==> Given(p)
    ensures Given(o) ==> o == p
    ensures Restricts(o) <==> Restricts(p)
  {
  }

  // ---------------------------------------------------------------------------
  // The record predicate
  // ---------------------------------------------------------------------------

  /** The `where` object: `deletedAt: null` always, plus one condition per
      filter field that is set. */
  datatype Where = Where(
    search: Option<string>,
    status: Option<string>,
    plan: Option<string>,
    country: Option<string>,
    province: Option<string>,
    city: Option<string>)

  /** A string filter field is set: present and not empty (truthy). */
  predicate Given(o: Option<string>) { o.Some? && o.value != "" }

  /** A filter field that restricts: set and not the 'ALL' wildcard. */
  predicate Restricts(o: Option<string>) { Given(o) && o.value != "ALL" }

  /** The `where` object built field by field, as `findAll` does. */
  function BuildWhere(f: Filters): (w: Where)
    ensures forall s :: Satisfies(s, w) <==> Selected(s, f)
  {
    var w0 := Where(None, None, None, None, None, None);
    var w1 := if Given(f.search) then w0.(search := f.search) else w0;
    var w2 := if Restricts(f.status) then w1.(status := Some(Upper(f.status.value))) else w1;
    var w3 := if Restricts(f.plan) then w2.(plan := Some(Upper(f.plan.value))) else w2;
    var w4 := if Restricts(f.country) then w3.(country := f.country) else w3;
    var w5 := if Restricts(f.province) then w4.(province := f.province) else w4;
    var w := if Restricts(f.city) then w5.(city := f.city) else w5;
    assert w.search == (if Given(f.search) then f.search else None);
    assert w.status == (if Restricts(f.status) then Some(Upper(f.status.value)) else None);
    assert w.plan == (if Restricts(f.plan) then Some(Upper(f.plan.value)) else None);
    assert w.country == (if Restricts(f.country) then f.country else None);
    assert w.province == (if Restricts(f.province) then f.province else None);
    assert w.city == (if Restricts(f.city) then f.city else None);
    assert forall s :: Satisfies(s, w) <==> Selected(s, f) by {
      forall s ensures Satisfies(s, w) <==> Selected(s, f) {
        WhereSelects(s, f, w);
      }
    }
    w
  }

  /** A where-object whose fields were built from f selects a salon exactly
      when f does. */
  lemma WhereSelects(s: Salon, f: Filters, w: Where)
    requires w.search == (if Given(f.search) then f.search else None)
    requires w.status == (if Restricts(f.status) then Some(Upper(f.status.value)) else None)
    requires w.plan == (if Restricts(f.plan) then Some(Upper(f.plan.value)) else None)
    requires w.country == (if Restricts(f.country) then f.country else None)
    requires w.province == (if Restricts(f.province) then f.province else None)
    requires w.city == (if Restricts(f.city) then f.city else None)
    ensures Satisfies(s, w) <==> Selected(s, f)
  {
    if Given(f.search) {
      var q := f.search.value;
      ContainsAtSomeOffset(Lower(s.name), Lower(q));
      ContainsAtSomeOffset(Lower(s.email), Lower(q));
      ContainsAtSomeOffset(Lower(s.vtaNumber), Lower(q));
    }
  }

  predicate ContainsIgnoreCase(s: string, sub: string) {
    Contains(Lower(s), Lower(sub))
  }

  /** How the database evaluates a `where` object on a row. */
  predicate Satisfies(s: Salon, w: Where) {
    && s.deletedAt.None?
    && (w.search.Some? ==>
          ContainsIgnoreCase(s.name, w.search.value)
          || ContainsIgnoreCase(s.email, w.search.value)
          || ContainsIgnoreCase(s.vtaNumber, w.search.value))
    && (w.status.Some? ==> s.status == w.status.value)
    && (w.plan.Some? ==> s.plan == w.plan.value)
    && (w.country.Some? ==> EqualsIgnoreCase(s.country, w.country.value))
    && (w.province.Some? ==> EqualsIgnoreCase(s.province, w.province.value))
    && (w.city.Some? ==> EqualsIgnoreCase(s.city, w.city.value))
  }

  /** Which salons a filter lists, field by field: never a soft-deleted
      one; a search term must occur, ignoring case, in the name, the email
      or the VTA number; status and plan must equal the filter upper-cased
      unless it is 'ALL'; country, province and city must equal the filter
      ignoring case unless it is 'ALL'. Unset fields do not restrict. */
  ghost predicate Selected(s: Salon, f: Filters) {
    && s.deletedAt == None
    && (Given(f.search) ==>
          OccursIgnoringCase(s.name, f.search.value)
          || OccursIgnoringCase(s.email, f.search.value)
          || OccursIgnoringCase(s.vtaNumber, f.search.value))
    && (Restricts(f.status) ==> s.status == Upper(f.status.value))
    && (Restricts(f.plan) ==> s.plan == Upper(f.plan.value))
    && (Restricts(f.country) ==> Lower(s.country) == Lower(f.country.value))
    && (Restricts(f.province) ==> Lower(s.province) == Lower(f.province.value))
    && (Restricts(f.city) ==> Lower(s.city) == Lower(f.city.value))
  }

  /** sub occurs in s at some offset, ignoring case. */
  ghost predicate OccursIgnoringCase(s: string, sub: string) {
    exists i :: OccursAt(Lower(s), Lower(sub), i)
  }

  /** The database's case-insensitive `contains` finds exactly the
      occurrences `Selected` speaks of. */
  lemma ContainsMeansOccurs()
    ensures forall s, sub :: ContainsIgnoreCase(s, sub) <==> OccursIgnoringCase(s, sub)
  {
    forall s, sub ensures ContainsIgnoreCase(s, sub) <==> OccursIgnoringCase(s, sub) {
      ContainsAtSomeOffset(Lower(s), Lower(sub));
    }
  }

  /** 'ALL' is the same as no filter, for every field that accepts it. */
  lemma AllIsWildcard(f: Filters, s: Salon)
    ensures Selected(s, f.(status := Some("ALL"))) <==> Selected(s, f.(status := None))
    ensures Selected(s, f.(plan := Some("ALL"))) <==> Selected(s, f.(plan := None))
    ensures Selected(s, f.(country := Some("ALL"))) <==> Selected(s, f.(country := None))
    ensures Selected(s, f.(province := Some("ALL"))) <==> Selected(s, f.(province := None))
    ensures Selected(s, f.(city := Some("ALL"))) <==> Selected(s, f.(city := None))
  {
  }

  /** Status and plan filters ignore the case they are written in. */
  lemma StatusFilterIgnoresCase(f: Filters, s: Salon, st: string)
    requires st != "" && Upper(st) != "ALL" && st != "ALL"
    ensures Selected(s, f.(status := Some(st))) <==> Selected(s, f.(status := Some(Upper(st))))
  {
    UpperIdempotent(st);
  }

  /** The wildcard test is case-sensitive and runs before upper-casing:
      'all' in any other casing is upper-cased to 'ALL' and then selects
      only salons whose status (or plan) is literally 'ALL'. */
  lemma OnlyExactAllIsWildcard(f: Filters, s: Salon, all: string)
    requires all != "ALL" && Upper(all) == "ALL"
    requires Selected(s, f.(status := None)) && s.status != "ALL"
    requires Selected(s, f.(plan := None)) && s.plan != "ALL"
    ensures Selected(s, f.(status := Some("ALL"))) && !Selected(s, f.(status := Some(all)))
    ensures Selected(s, f.(plan := Some("ALL"))) && !Selected(s, f.(plan := Some(all)))
  {
    assert all != "";
  }

  lemma UpperIdempotent(s: string)
    ensures Upper(Upper(s)) == Upper(s)
  {
    assert forall i :: 0 <= i < |s| ==> Upper(Upper(s))[i] == Upper(s)[i];
  }

  // ---------------------------------------------------------------------------
  // The listing
  // ---------------------------------------------------------------------------

  datatype Meta = Meta(total: nat, page: nat, limit: nat, lastPage: nat)
  datatype Listing = Listing(data: seq<Salon>, meta: Meta)

  /** `Math.min(limit, 100)`. */
  function SafeLimit(limit: nat): (r: nat)
    ensures r <= MAX_LIMIT
    ensures limit <= MAX_LIMIT ==> r == limit
    ensures limit >= MAX_LIMIT ==> r == MAX_LIMIT
  {
    if limit < MAX_LIMIT then limit else MAX_LIMIT
  }

  function CreatedAt(s: Salon): nat { s.createdAt }

  /** The salons the filter selects, in table order (`count` and the
      `findMany` before ordering and paging). */
  function Matching(table: seq<Salon>, f: Filters): (r: seq<Salon>)
    ensures forall i :: 0 <= i < |r| ==> r[i] in table && Selected(r[i], f)
    ensures forall i :: 0 <= i < |table| && Selected(table[i], f) ==> table[i] in r
  {
    var w := BuildWhere(f);
    Filter(table, (s: Salon) => Satisfies(s, w))
  }

  /** What `findAll` computes from the table on a cache miss: the selected
      salons newest first, the page window of `safeLimit` rows, and the
      page metadata. */
  function Answer(table: seq<Salon>, f: Filters): (r: Listing)
    requires Servable(f)
    ensures r.meta.total == |Matching(table, f)|
    ensures r.meta.page == PageOf(f) && r.meta.limit == SafeLimit(LimitOf(f))
    ensures r.meta.lastPage == LastPage(r.meta.total, r.meta.limit)
    ensures |r.data| <= r.meta.limit
    ensures SortedDesc(r.data, CreatedAt)
    ensures forall i :: 0 <= i < |r.data| ==> r.data[i] in table && Selected(r.data[i], f)
  {
    var rows := SortDesc(Matching(table, f), CreatedAt);
    var limit := SafeLimit(LimitOf(f));
    var skip := Skip(PageOf(f), limit);
    var page := Window(rows, skip, limit);
    WindowOfSorted(rows, skip, limit, CreatedAt);
    SortedRowsMatch(table, f, rows);
    Listing(page, Meta(|rows|, PageOf(f), limit, LastPage(|rows|, limit)))
  }

  lemma SortedRowsMatch(table: seq<Salon>, f: Filters, rows: seq<Salon>)
    requires rows == SortDesc(Matching(table, f), CreatedAt)
    ensures forall x :: x in rows ==> x in table && Selected(x, f)
  {
    forall x | x in rows ensures x in table && Selected(x, f) {
      assert x in multiset(Matching(table, f));
    }
  }

  /** The page is the window [skip, skip + safeLimit) of the selected
      salons ordered newest first. */
  lemma AnswerIsWindow(table: seq<Salon>, f: Filters)
    requires Servable(f)
    ensures var rows := SortDesc(Matching(table, f), CreatedAt);
            var limit := SafeLimit(LimitOf(f));
            var skip := Skip(PageOf(f), limit);
            Answer(table, f).data == if skip >= |rows| then [] else rows[skip..Min(skip + limit, |rows|)]
  {
    var rows := SortDesc(Matching(table, f), CreatedAt);
    var limit := SafeLimit(LimitOf(f));
    var skip := Skip(PageOf(f), limit);
    assert Answer(table, f).data == Window(rows, skip, limit);
    WindowIsSlice(rows, skip, limit);
  }

  function Min(a: nat, b: nat): nat { if a <= b then a else b }

  /** A soft-deleted salon is never listed. */
  lemma SoftDeletedNeverListed(table: seq<Salon>, f: Filters, s: Salon)
    requires Servable(f) && s.deletedAt.Some?
    ensures s !in Answer(table, f).data
  {
  }

  // ---------------------------------------------------------------------------
  // The cached form of a listing
  // ---------------------------------------------------------------------------

  function StringOrNull(o: Option<string>): Json {
    match o
    case None => JNull
    case Some(t) => JStr(t)
  }

  function NumberOrNull(o: Option<nat>): Json {
    match o
    case None => JNull
    case Some(n) => JNum(n)
  }

  /** A salon row as JSON (the owners are a relation, not part of the row). */
  function SalonJson(s: Salon): Json {
    JObj([
      Member("id", JStr(s.id)), Member("name", JStr(s.name)),
      Member("businessType", JStr(s.businessType)), Member("vtaNumber", JStr(s.vtaNumber)),
      Member("employeeCount", JNum(s.employeeCount)), Member("email", JStr(s.email)),
      Member("phoneNumber", JStr(s.phoneNumber)), Member("country", JStr(s.country)),
      Member("province", JStr(s.province)), Member("city", JStr(s.city)),
      Member("zipCode", JStr(s.zipCode)), Member("status", JStr(s.status)),
      Member("plan", JStr(s.plan)), Member("trialEndsAt", StringOrNull(s.trialEndsAt)),
      Member("createdBy", StringOrNull(s.createdBy)), Member("updatedBy", StringOrNull(s.updatedBy)),
      Member("createdAt", JNum(s.createdAt)), Member("deletedAt", NumberOrNull(s.deletedAt))])
  }

  /** The listing as JSON: `{ data, meta: { total, page, limit, lastPage } }`. */
  function ListingJson(l: Listing): Json {
    JObj([
      Member("data", JArr(seq(|l.data|, i requires 0 <= i < |l.data| => SalonJson(l.data[i])))),
      Member("meta", JObj([
        Member("total", JNum(l.meta.total)), Member("page", JNum(l.meta.page)),
        Member("limit", JNum(l.meta.limit)), Member("lastPage", JNum(l.meta.lastPage))]))])
  }

  /** What `findAll` hands to `set`: the listing already turned into JSON
      text, which `set` encodes once more. */
  function CachedValue(l: Listing): Json {
    JStr(Stringify(ListingJson(l)))
  }

  /** The value `get` returned counts as a hit (`if (cached)`). */
  predicate IsHit(cached: Option<Json>) {
    cached.Some? && Truthy(cached.value)
  }

  /** `JSON.parse(cached)` of a value `get` already decoded once: a string
      is parsed; a number or boolean reads back as itself; anything else
      does not parse. */
  function ParseCached(v: Json): (r: Result<Json, Failure>)
    ensures v.JStr? ==> (r.Ok? <==> Parse(v.s).Some?)
  {
    match v
    case JStr(t) => (match Parse(t) case Some(j) => Ok(j) case None => Err(Internal("Unexpected token in JSON")))
    case JNum(_) => Ok(v)
    case JBool(_) => Ok(v)
    case _ => Err(Internal("Unexpected token in JSON"))
  }

  /** A hit within the lifetime of a stored listing returns that listing's
      JSON exactly: both encodings are undone. */
  lemma CacheHitReplaysListing(store: Store, f: Filters, l: Listing, setAt: int, now: int)
    requires setAt <= now < setAt + LISTING_TTL
    ensures var after := Stored(store, BuildCacheKey(f), CachedValue(l), LISTING_TTL, setAt);
            IsHit(Lookup(after, BuildCacheKey(f), now))
            && ParseCached(Lookup(after, BuildCacheKey(f), now).value) == Ok(ListingJson(l))
  {
    GetAfterSet(store, BuildCacheKey(f), CachedValue(l), LISTING_TTL, setAt, now);
    ParseStringify(ListingJson(l));
  }

  /** The store `findAll` consults: flushed first when `refresh` is 'true'. */
  function AfterRefresh(store: Store, f: Filters): Store {
    if f.refresh == Some("true") then WithoutPrefix(store, SALON_CACHE_PREFIX) else store
  }

  /** After a flush of the salon prefix, every listing key misses. */
  lemma FlushedListingMisses(store: Store, f: Filters, now: int)
    ensures !IsHit(Lookup(WithoutPrefix(store, SALON_CACHE_PREFIX), BuildCacheKey(f), now))
  {
    assert StartsWith(BuildCacheKey(f), SALON_CACHE_PREFIX) by {
      var k := BuildCacheKey(f);
      assert k[..|SALON_CACHE_PREFIX|] == (k[..|SALON_CACHE_PREFIX| + 1])[..|SALON_CACHE_PREFIX|];
    }
    FlushedKeyMisses(store, SALON_CACHE_PREFIX, BuildCacheKey(f), now);
  }

  /** `refresh === 'true'` makes the call a miss, answered from the table. */
  lemma RefreshAlwaysMisses(store: Store, f: Filters, now: int)
    requires f.refresh == Some("true")
    ensures !IsHit(Lookup(AfterRefresh(store, f), BuildCacheKey(f), now))
  {
    FlushedListingMisses(store, f, now);
  }

  // ---------------------------------------------------------------------------
  // Writes
  // ---------------------------------------------------------------------------

  /** The row `create` inserts: the request's fields, status TRIAL, plan
      BASIC, a trial end only when a trial period is given, and empty
      creator fields stored as null. */
  function NewSalon(req: NewSalonRequest, id: string, now: nat): (s: Salon)
    ensures s.id == id && s.status == "TRIAL" && s.plan == "BASIC"
    ensures s.createdAt == now && s.deletedAt.None?
    ensures s.name == req.name && s.businessType == req.businessType
    ensures s.vtaNumber == req.vtaNumber && s.employeeCount == req.employeeCount
    ensures s.email == req.email && s.phoneNumber == req.phoneNumber
    ensures s.country == req.country && s.province == req.province && s.city == req.city
    ensures s.zipCode == req.zipCode && s.owners == req.owners
    ensures s.trialEndsAt == if req.trialPeriod != "" then Some(req.trialPeriod) else None
    ensures s.createdBy == if Given(req.createdBy) then req.createdBy else None
    ensures s.updatedBy == if Given(req.updatedBy) then req.updatedBy else None
  {
    Salon(id, req.name, req.businessType, req.vtaNumber, req.employeeCount, req.email,
      req.phoneNumber, req.country, req.province, req.city, req.zipCode, "TRIAL", "BASIC",
      if req.trialPeriod != "" then Some(req.trialPeriod) else None,
      if Given(req.createdBy) then req.createdBy else None,
      if Given(req.updatedBy) then req.updatedBy else None,
      now, None, req.owners)
  }

  /** The row after an update: each field the patch sets replaced. */
  function Patched(s: Salon, p: Patch): (r: Salon)
    ensures r.id == s.id && r.createdAt == s.createdAt && r.deletedAt == s.deletedAt && r.owners == s.owners
    ensures r.trialEndsAt == s.trialEndsAt && r.createdBy == s.createdBy
    ensures r.name == p.name.GetOr(s.name) && r.businessType == p.businessType.GetOr(s.businessType)
    ensures r.vtaNumber == p.vtaNumber.GetOr(s.vtaNumber) && r.employeeCount == p.employeeCount.GetOr(s.employeeCount)
    ensures r.email == p.email.GetOr(s.email) && r.phoneNumber == p.phoneNumber.GetOr(s.phoneNumber)
    ensures r.country == p.country.GetOr(s.country) && r.province == p.province.GetOr(s.province)
    ensures r.city == p.city.GetOr(s.city) && r.zipCode == p.zipCode.GetOr(s.zipCode)
    ensures r.status == p.status.GetOr(s.status) && r.plan == p.plan.GetOr(s.plan)
    ensures p.updatedBy.Some? ==> r.updatedBy == p.updatedBy
    ensures p.updatedBy.None? ==> r.updatedBy == s.updatedBy
    ensures p == Patch(None, None, None, None, None, None, None, None, None, None, None, None, None) ==> r == s
  {
    s.(name := p.name.GetOr(s.name),
       businessType := p.businessType.GetOr(s.businessType),
       vtaNumber := p.vtaNumber.GetOr(s.vtaNumber),
       employeeCount := p.employeeCount.GetOr(s.employeeCount),
       email := p.email.GetOr(s.email),
       phoneNumber := p.phoneNumber.GetOr(s.phoneNumber),
       country := p.country.GetOr(s.country),
       province := p.province.GetOr(s.province),
       city := p.city.GetOr(s.city),
       zipCode := p.zipCode.GetOr(s.zipCode),
       status := p.status.GetOr(s.status),
       plan := p.plan.GetOr(s.plan),
       updatedBy := if p.updatedBy.Some? then p.updatedBy else s.updatedBy)
  }

  /** Ids are keys; VTA numbers and emails are unique across the table,
      soft-deleted rows included. */
  ghost predicate WellKeyed(t: seq<Salon>) {
    forall i, j :: 0 <= i < j < |t| ==>
      t[i].id != t[j].id && t[i].vtaNumber != t[j].vtaNumber && t[i].email != t[j].email
  }

  /** Some salon, deleted or not, already has the VTA number or the email
      (the `findFirst` with `OR` at the start of `create`). */
  predicate Taken(t: seq<Salon>, vtaNumber: string, email: string) {
    exists i :: 0 <= i < |t| && (t[i].vtaNumber == vtaNumber || t[i].email == email)
  }

  /** Some salon other than `id` has the VTA number or the email. */
  predicate TakenByOther(t: seq<Salon>, id: string, vtaNumber: string, email: string) {
    exists i :: 0 <= i < |t| && t[i].id != id && (t[i].vtaNumber == vtaNumber || t[i].email == email)
  }

  predicate HasId(t: seq<Salon>, id: string) {
    exists i :: 0 <= i < |t| && t[i].id == id
  }

  lemma AppendWellKeyed(t: seq<Salon>, s: Salon)
    requires WellKeyed(t) && !HasId(t, s.id) && !Taken(t, s.vtaNumber, s.email)
    ensures WellKeyed(t + [s])
  {
  }

  lemma ReplaceWellKeyed(t: seq<Salon>, i: nat, s: Salon)
    requires WellKeyed(t) && i < |t| && s.id == t[i].id && !TakenByOther(t, s.id, s.vtaNumber, s.email)
    ensures WellKeyed(t[i := s])
  {
  }

  /** The position of the salon with this id. */
  function IndexOfId(t: seq<Salon>, id: string): (r: Option<nat>)
    ensures r.Some? ==> r.value < |t| && t[r.value].id == id
    ensures r.None? <==> !HasId(t, id)
  {
    FindFirst(t, (s: Salon) => s.id == id)
  }

  // ---------------------------------------------------------------------------
  // The service
  // ---------------------------------------------------------------------------

  class SalonsService {
    var salons: seq<Salon>
    const redis: RedisService

    ghost predicate Valid()
      reads this, redis
    {
      redis.Valid() && WellKeyed(salons)
    }

    constructor (redis: RedisService)
      requires redis.Valid()
      ensures Valid() && this.redis == redis && salons == [] && redis.store == old(redis.store)
    {
      this.redis := redis;
      salons := [];
    }

    /** `findAll(filters)`: answered from the cache on a hit, otherwise
        from the table, whose answer is then cached for 60 seconds. */
    method FindAll(f: Filters, now: int) returns (r: Result<Json, Failure>)
      requires Valid() && Servable(f)
      modifies redis
      ensures Valid() && salons == old(salons)
      ensures var store := AfterRefresh(old(redis.store), f);
              var cached := Lookup(store, BuildCacheKey(f), now);
              if IsHit(cached) then
                r == ParseCached(cached.value) && redis.store == store
              else
                r == Ok(ListingJson(Answer(salons, f)))
                && redis.store == Stored(store, BuildCacheKey(f), CachedValue(Answer(salons, f)), LISTING_TTL, now)
    {
      if f.refresh == Some("true") {
        redis.FlushByPrefix(SALON_CACHE_PREFIX);
      }
      var key := BuildCacheKey(f);
      var cached := redis.Get(key, now);
      if cached.Some? && Truthy(cached.value) {
        r := ParseCached(cached.value);
        return;
      }
      var listing := Answer(salons, f);
      redis.Set(key, CachedValue(listing), LISTING_TTL, now);
      r := Ok(ListingJson(listing));
    }

    /** `create(dto)`: refused when the VTA number or the email is taken;
        otherwise the salon is inserted and the listings are flushed. */
    method Create(req: NewSalonRequest, id: string, now: nat) returns (r: Result<Salon, Failure>)
      requires Valid() && !HasId(salons, id)
      modifies this, redis
      ensures Valid()
      ensures Taken(old(salons), req.vtaNumber, req.email) ==>
        r == Err(BadRequest("Failed to create salon"))
        && salons == old(salons) && redis.store == old(redis.store)
      ensures !Taken(old(salons), req.vtaNumber, req.email) ==>
        r == Ok(NewSalon(req, id, now))
        && salons == old(salons) + [NewSalon(req, id, now)]
        && redis.store == WithoutPrefix(old(redis.store), SALON_CACHE_PREFIX)
    {
      var existing := FindFirst(salons, (s: Salon) => s.vtaNumber == req.vtaNumber || s.email == req.email);
      if existing.Some? {
        return Err(BadRequest("Failed to create salon"));
      }
      var salon := NewSalon(req, id, now);
      AppendWellKeyed(salons, salon);
      salons := salons + [salon];
      redis.FlushByPrefix(SALON_CACHE_PREFIX);
      r := Ok(salon);
    }

    /** `update(id, data)`: fails on a missing id, or when the new VTA
        number or email belongs to another salon; otherwise the row is
        patched and the listings are flushed. */
    method Update(id: string, p: Patch) returns (r: Result<Salon, Failure>)
      requires Valid()
      modifies this, redis
      ensures Valid()
      ensures match IndexOfId(old(salons), id)
        case None =>
          r == Err(BadRequest("Failed to update salon"))
          && salons == old(salons) && redis.store == old(redis.store)
        case Some(i) =>
          var s := Patched(old(salons)[i], p);
          if TakenByOther(old(salons), id, s.vtaNumber, s.email) then
            r == Err(BadRequest("Failed to update salon"))
            && salons == old(salons) && redis.store == old(redis.store)
          else
            r == Ok(s) && salons == old(salons)[i := s]
            && redis.store == WithoutPrefix(old(redis.store), SALON_CACHE_PREFIX)
    {
      var found := IndexOfId(salons, id);
      if found.None? {
        return Err(BadRequest("Failed to update salon"));
      }
      var i := found.value;
      var s := Patched(salons[i], p);
      var clash := FindFirst(salons, (t: Salon) => t.id != id && (t.vtaNumber == s.vtaNumber || t.email == s.email));
      if clash.Some? {
        return Err(BadRequest("Failed to update salon"));
      }
      ReplaceWellKeyed(salons, i, s);
      salons := salons[i := s];
      redis.FlushByPrefix(SALON_CACHE_PREFIX);
      r := Ok(s);
    }

    /** `softDelete(id)`: fails on a missing id; otherwise stamps
        `deletedAt` and flushes the listings. */
    method SoftDelete(id: string, now: nat) returns (r: Result<Salon, Failure>)
      requires Valid()
      modifies this, redis
      ensures Valid()
      ensures match IndexOfId(old(salons), id)
        case None =>
          r == Err(BadRequest("Failed to delete salon"))
          && salons == old(salons) && redis.store == old(redis.store)
        case Some(i) =>
          var s := old(salons)[i].(deletedAt := Some(now));
          r == Ok(s) && salons == old(salons)[i := s]
          && redis.store == WithoutPrefix(old(redis.store), SALON_CACHE_PREFIX)
    {
      var found := IndexOfId(salons, id);
      if found.None? {
        return Err(BadRequest("Failed to delete salon"));
      }
      var i := found.value;
      var s := salons[i].(deletedAt := Some(now));
      assert !TakenByOther(salons, id, s.vtaNumber, s.email);
      ReplaceWellKeyed(salons, i, s);
      salons := salons[i := s];
      redis.FlushByPrefix(SALON_CACHE_PREFIX);
      r := Ok(s);
    }

    /** No stale read after a completed write: a listing that follows a
        successful create is computed from the table that holds the new
        salon, whatever the cache held before. */
    method CreateThenList(req: NewSalonRequest, id: string, now: nat, f: Filters) returns (c: Result<Salon, Failure>, r: Result<Json, Failure>)
      requires Valid() && Servable(f) && !HasId(salons, id)
      modifies this, redis
      ensures Valid()
      ensures c.Ok? ==> r == Ok(ListingJson(Answer(salons, f))) && c.value in salons
    {
      c := Create(req, id, now);
      if c.Ok? {
        FlushedListingMisses(old(redis.store), f, now);
        FlushedListingMisses(redis.store, f, now);
      }
      r := FindAll(f, now);
    }

    /** Likewise after a successful update: the listing is computed from
        the updated table. */
    method UpdateThenList(id: string, p: Patch, f: Filters, now: int) returns (u: Result<Salon, Failure>, r: Result<Json, Failure>)
      requires Valid() && Servable(f)
      modifies this, redis
      ensures Valid()
      ensures u.Ok? ==> r == Ok(ListingJson(Answer(salons, f)))
    {
      u := Update(id, p);
      if u.Ok? {
        FlushedListingMisses(old(redis.store), f, now);
        FlushedListingMisses(redis.store, f, now);
      }
      r := FindAll(f, now);
    }

    /** Likewise after a soft delete: the deleted salon is not listed. */
    method SoftDeleteThenList(id: string, f: Filters, now: nat) returns (d: Result<Salon, Failure>, r: Result<Json, Failure>)
      requires Valid() && Servable(f)
      modifies this, redis
      ensures Valid()
      ensures d.Ok? ==> r == Ok(ListingJson(Answer(salons, f))) && d.value !in Answer(salons, f).data
    {
      d := SoftDelete(id, now);
      if d.Ok? {
        FlushedListingMisses(old(redis.store), f, now);
        FlushedListingMisses(redis.store, f, now);
      }
      r := FindAll(f, now);
    }
  }
}
