/** What the database does with a lookup by a unique field, and
    what it does with a `findMany` / `count` query over a table
    snapshot: keep the rows a `where` accepts, order them by a timestamp
    descending (`orderBy: { createdAt: 'desc' }`), and cut out the page
    window `skip` / `take`; plus the page arithmetic the services do around
    it (`skip = (page - 1) * limit`, `lastPage = Math.ceil(total / limit)`). */
module Table {
  import opened Wrappers

  // ---------------------------------------------------------------------------
  // Lookup by a unique field (`findUnique`, `findFirst`)
  // ---------------------------------------------------------------------------

  /** The position of the first row p accepts, if any. */
  function FindFirst<T>(s: seq<T>, p: T -> bool): (r: Option<nat>)
    ensures r.Some? ==> r.value < |s| && p(s[r.value])
    ensures r.Some? ==> forall j :: 0 <= j < r.value ==> !p(s[j])
    ensures r.None? <==> forall j :: 0 <= j < |s| ==> !p(s[j])
  {
    if s == [] then None
    else if p(s[0]) then Some(0)
    else match FindFirst(s[1..], p)
      case None => None
      case Some(k) => Some(k + 1)
  }

  // ---------------------------------------------------------------------------
  // Filtering
  // ---------------------------------------------------------------------------

  /** The rows of s that p accepts, in table order. */
  function Filter<T(==)>(s: seq<T>, p: T -> bool): (r: seq<T>)
    ensures |r| <= |s|
    ensures forall i :: 0 <= i < |r| ==> r[i] in s && p(r[i])
    ensures forall i :: 0 <= i < |s| && p(s[i]) ==> s[i] in r
    ensures multiset(r) <= multiset(s)
  {
    if s == [] then []
    else
      assert s == [s[0]] + s[1..];
      if p(s[0]) then [s[0]] + Filter(s[1..], p) else Filter(s[1..], p)
  }

  /** Filtering keeps every accepted occurrence: the multiplicity of an
      accepted row is unchanged, that of a rejected row drops to zero. */
  lemma {:induction false} FilterCounts<T>(s: seq<T>, p: T -> bool, x: T)
    ensures multiset(Filter(s, p))[x] == if p(x) then multiset(s)[x] else 0
  {
    if s != [] {
      FilterCounts(s[1..], p, x);
      HeadTail(s);
      var rest := Filter(s[1..], p);
      if p(s[0]) {
        assert Filter(s, p) == [s[0]] + rest;
        MultisetCons(s[0], rest);
      } else {
        assert Filter(s, p) == rest;
      }
    }
  }

  // ---------------------------------------------------------------------------
  // Ordering by a timestamp, newest first
  // ---------------------------------------------------------------------------

  predicate SortedDesc<T>(s: seq<T>, key: T -> nat) {
    forall i, j :: 0 <= i < j < |s| ==> key(s[i]) >= key(s[j])
  }

  /** x inserted in front of the first row that is not newer than it. */
  function Insert<T>(x: T, s: seq<T>, key: T -> nat): seq<T>
  {
    if s == [] then [x]
    else if key(x) >= key(s[0]) then [x] + s
    else [s[0]] + Insert(x, s[1..], key)
  }

  /** Inserting into a newest-first sequence keeps it newest first and
      puts x or the old head in front. */
  lemma {:induction false} InsertSorted<T>(x: T, s: seq<T>, key: T -> nat)
    requires SortedDesc(s, key)
    ensures SortedDesc(Insert(x, s, key), key)
    ensures Insert(x, s, key)[0] == x || (s != [] && Insert(x, s, key)[0] == s[0])
  {
    if s == [] {
    } else if key(x) >= key(s[0]) {
      ConsSorted(x, s, key);
    } else {
      SortedTail(s, key);
      InsertSorted(x, s[1..], key);
      var t := Insert(x, s[1..], key);
      assert key(s[0]) >= key(t[0]) by {
        if t[0] != x { assert t[0] == s[1]; }
      }
      ConsSorted(s[0], t, key);
      assert Insert(x, s, key) == [s[0]] + t;
    }
  }

  /** Inserting adds exactly x and nothing else. */
  lemma {:induction false} InsertCounts<T>(x: T, s: seq<T>, key: T -> nat)
    ensures multiset(Insert(x, s, key)) == multiset(s) + multiset{x}
    ensures |Insert(x, s, key)| == |s| + 1
  {
    if s == [] {
    } else if key(x) >= key(s[0]) {
      MultisetCons(x, s);
    } else {
      InsertCounts(x, s[1..], key);
      HeadTail(s);
      MultisetCons(s[0], Insert(x, s[1..], key));
    }
  }

  lemma SortedTail<T>(s: seq<T>, key: T -> nat)
    requires s != [] && SortedDesc(s, key)
    ensures SortedDesc(s[1..], key)
    ensures |s| > 1 ==> key(s[0]) >= key(s[1])
  {
    forall i, j | 0 <= i < j < |s| - 1 ensures key(s[1..][i]) >= key(s[1..][j]) {
      assert s[1..][i] == s[i + 1] && s[1..][j] == s[j + 1];
    }
  }

  lemma MultisetCons<T>(a: T, t: seq<T>)
    ensures multiset([a] + t) == multiset{a} + multiset(t)
  {
  }

  lemma HeadTail<T>(s: seq<T>)
    requires s != []
    ensures s == [s[0]] + s[1..]
    ensures multiset(s) == multiset{s[0]} + multiset(s[1..])
  {
    MultisetCons(s[0], s[1..]);
  }

  /** A row no older than the head of a sorted sequence can go in front of
      it. */
  lemma ConsSorted<T>(y: T, t: seq<T>, key: T -> nat)
    requires SortedDesc(t, key) && (t == [] || key(y) >= key(t[0]))
    ensures SortedDesc([y] + t, key)
  {
    var r := [y] + t;
    forall i, j | 0 <= i < j < |r| ensures key(r[i]) >= key(r[j]) {
      assert r[j] == t[j - 1];
      if i == 0 {
        assert key(t[0]) >= key(t[j - 1]);
      } else {
        assert r[i] == t[i - 1];
      }
    }
  }

  /** The rows of s newest first; rows with equal keys keep their table
      order. */
  function SortDesc<T>(s: seq<T>, key: T -> nat): (r: seq<T>)
    ensures SortedDesc(r, key)
    ensures multiset(r) == multiset(s)
    ensures |r| == |s|
  {
    if s == [] then []
    else
      var t := SortDesc(s[1..], key);
      InsertSorted(s[0], t, key);
      InsertCounts(s[0], t, key);
      HeadTail(s);
      Insert(s[0], t, key)
  }

  // ---------------------------------------------------------------------------
  // The page window
  // ---------------------------------------------------------------------------

  /** `skip` rows dropped, then at most `take` rows kept. */
  function Window<T>(s: seq<T>, skip: nat, take: nat): (r: seq<T>)
    ensures skip >= |s| ==> r == []
    ensures skip < |s| ==> |r| == if skip + take <= |s| then take else |s| - skip
    ensures forall i :: 0 <= i < |r| ==> skip + i < |s| && r[i] == s[skip + i]
  {
    if skip >= |s| then []
    else if skip + take <= |s| then s[skip..skip + take]
    else s[skip..]
  }

  /** A window that starts inside the rows is the slice up to the end of
      the page or of the rows. */
  lemma WindowIsSlice<T>(s: seq<T>, skip: nat, take: nat)
    ensures skip < |s| ==> Window(s, skip, take) == s[skip..if skip + take <= |s| then skip + take else |s|]
  {
  }

  /** A window of rows ordered newest first is ordered newest first, and
      holds only rows of the whole. */
  lemma WindowOfSorted<T>(s: seq<T>, skip: nat, take: nat, key: T -> nat)
    requires SortedDesc(s, key)
    ensures SortedDesc(Window(s, skip, take), key)
    ensures forall i :: 0 <= i < |Window(s, skip, take)| ==> Window(s, skip, take)[i] in s
  {
  }

  /** The first row of page `page` (counting from 1). */
  function Skip(page: nat, limit: nat): (r: nat)
    requires page >= 1
    ensures page == 1 ==> r == 0
    ensures r + limit == page * limit
  {
    (page - 1) * limit
  }

  /** Math.ceil(total / limit) on integers. */
  function LastPage(total: nat, limit: nat): (r: nat)
    requires limit >= 1
  {
    (total + limit - 1) / limit
  }

  /** The last page is the least number of pages of `limit` rows that holds
      `total` rows. */
  lemma LastPageIsLeast(total: nat, limit: nat)
    requires limit >= 1
    ensures LastPage(total, limit) * limit >= total
    ensures LastPage(total, limit) == 0 || (LastPage(total, limit) - 1) * limit < total
  {
    var n := LastPage(total, limit);
    var q := total + limit - 1;
    assert q == n * limit + q % limit;
    assert q % limit < limit;
  }
}
