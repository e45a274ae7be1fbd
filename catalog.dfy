/**
 * The course page's catalog (app/course/page.tsx): the fixed course list, the
 * filter predicates, the keyed stable sort, and the filter effect that runs
 * them one after the other.
 */
module CourseCatalog {
  import opened Wrappers
  import opened Text

  /**
   * A catalog record. Only the English name, description and level take part
   * in filtering, so the Chinese and Korean translations are not kept.
   * `ratingTenths` is the rating times ten (4.8 is 48).
   */
  datatype Course = Course(
    id: nat, name: string, description: string, price: nat, level: string,
    duration: string, students: nat, ratingTenths: nat, courseType: string, likes: nat)

  const AllCourses: seq<Course> := [
    Course(1, "Blockchain Fundamentals", "Learn the core concepts of blockchain technology and how it works.",
           199, "Beginner", "4 weeks", 1245, 48, "blockchain", 342),
    Course(2, "Smart Contract Development", "Master Solidity and build secure smart contracts for Ethereum.",
           299, "Intermediate", "6 weeks", 876, 47, "development", 256),
    Course(3, "DApp Development", "Create full-stack decentralized applications with React and Web3.js.",
           349, "Advanced", "8 weeks", 654, 49, "development", 189),
    Course(4, "NFT Marketplace Creation", "Build your own NFT marketplace from scratch with ERC-721 and ERC-1155.",
           399, "Advanced", "10 weeks", 432, 46, "nft", 278),
    Course(5, "DeFi Protocol Development", "Learn to build decentralized finance protocols and applications.",
           449, "Advanced", "12 weeks", 321, 48, "defi", 156),
    Course(6, "Web3 Security & Auditing", "Master the techniques to secure and audit smart contracts and DApps.",
           399, "Advanced", "8 weeks", 287, 49, "security", 201),
    Course(7, "Blockchain for Business", "Understand how blockchain can transform business operations and models.",
           249, "Intermediate", "5 weeks", 543, 45, "business", 132),
    Course(8, "Crypto Trading Fundamentals", "Learn the basics of cryptocurrency trading and investment strategies.",
           199, "Beginner", "4 weeks", 876, 44, "trading", 245)
  ]

  /** The page's filter state: search text, type, level, inclusive price range and sort option. */
  datatype Filters = Filters(query: string, courseType: string, level: string,
                             minPrice: int, maxPrice: int, sortOption: string)

  const DefaultFilters := Filters("", "all", "all", 0, 500, "newest")

  // ----- the filter predicates -----

  /** An empty query imposes nothing; otherwise the lowercased query occurs in the lowercased English name or description. */
  predicate MatchesQuery(c: Course, query: string) {
    query == "" || Contains(ToLower(c.name), ToLower(query)) || Contains(ToLower(c.description), ToLower(query))
  }

  predicate MatchesType(c: Course, courseType: string) {
    courseType == "all" || c.courseType == courseType
  }

  predicate MatchesLevel(c: Course, level: string) {
    level == "all" || c.level == level
  }

  predicate InPriceRange(c: Course, minPrice: int, maxPrice: int) {
    minPrice <= c.price <= maxPrice
  }

  /** All active predicates at once. */
  predicate Matches(c: Course, f: Filters) {
    MatchesQuery(c, f.query) && MatchesType(c, f.courseType) && MatchesLevel(c, f.level)
    && InPriceRange(c, f.minPrice, f.maxPrice)
  }

  /** `Array.prototype.filter`: the elements satisfying `p`, in their order. */
  function Keep<T>(s: seq<T>, p: T -> bool): seq<T>
  {
    if s == [] then [] else (if p(s[0]) then [s[0]] else []) + Keep(s[1..], p)
  }

  /** The catalog courses that satisfy every active predicate, in catalog order. */
  function Select(catalog: seq<Course>, f: Filters): seq<Course> {
    Keep(catalog, c => Matches(c, f))
  }

  lemma {:induction false} KeepAll<T>(s: seq<T>, p: T -> bool)
    requires forall x :: p(x)
    ensures Keep(s, p) == s
  {
    if s != [] {
      KeepAll(s[1..], p);
    }
  }

  lemma {:induction false} KeepFuse<T>(s: seq<T>, p: T -> bool, q: T -> bool, pq: T -> bool)
    requires forall x :: pq(x) == (p(x) && q(x))
    ensures Keep(Keep(s, p), q) == Keep(s, pq)
  {
    if s != [] {
      var t := s[1..];
      KeepFuse(t, p, q, pq);
      if p(s[0]) {
        var kp := Keep(s, p);
        assert kp == [s[0]] + Keep(t, p);
        assert kp[0] == s[0] && kp[1..] == Keep(t, p);
        assert Keep(kp, q) == (if q(s[0]) then [s[0]] else []) + Keep(Keep(t, p), q);
      } else {
        assert Keep(s, p) == Keep(t, p);
      }
    }
  }

  /** Filtering keeps each satisfying element exactly as often as it occurs, and drops the rest. */
  lemma {:induction false} KeepCount<T>(s: seq<T>, p: T -> bool, x: T)
    ensures multiset(Keep(s, p))[x] == if p(x) then multiset(s)[x] else 0
  {
    if s != [] {
      KeepCount(s[1..], p, x);
      assert s == [s[0]] + s[1..];
    }
  }

  // ----- the sort -----

  datatype SortKey = Newest | Popular | PriceLow | PriceHigh | Rating

  /** The sort options the effect's `switch` knows; any other option leaves the order alone. */
  function SortKeyOf(option: string): Option<SortKey> {
    if option == "newest" then Some(Newest)
    else if option == "popular" then Some(Popular)
    else if option == "price-low" then Some(PriceLow)
    else if option == "price-high" then Some(PriceHigh)
    else if option == "rating" then Some(Rating)
    else None
  }

  /**
   * The comparator `cmp(a, b)` of each case equals `Rank(a) - Rank(b)`
   * (`b.id - a.id` for "newest", `a.price - b.price` for "price-low", ...),
   * so the sort orders by ascending rank.
   */
  function Rank(c: Course, k: SortKey): int {
    match k
    case Newest => -(c.id as int)
    case Popular => -(c.students as int)
    case PriceLow => c.price
    case PriceHigh => -(c.price as int)
    case Rating => -(c.ratingTenths as int)
  }

  predicate SortedBy(s: seq<Course>, k: SortKey) {
    forall i, j :: 0 <= i < j < |s| ==> Rank(s[i], k) <= Rank(s[j], k)
  }

  /** Inserts `x` after every element of `t` whose rank is at most its own, scanning from the back. */
  function InsertBack(t: seq<Course>, x: Course, k: SortKey): seq<Course>
    decreases |t|
  {
    if t == [] then [x]
    else if Rank(t[|t| - 1], k) <= Rank(x, k) then t + [x]
    else InsertBack(t[..|t| - 1], x, k) + [t[|t| - 1]]
  }

  /** The stable sort by rank: insertion of each element in turn, as the in-place sort below does. */
  function SortBy(s: seq<Course>, k: SortKey): seq<Course>
    decreases |s|
  {
    if s == [] then [] else InsertBack(SortBy(s[..|s| - 1], k), s[|s| - 1], k)
  }

  /** The elements of rank `v`, in order (the "ties" of one rank). */
  function Ties(s: seq<Course>, k: SortKey, v: int): seq<Course>
    decreases |s|
  {
    if s == [] then []
    else Ties(s[..|s| - 1], k, v) + (if Rank(s[|s| - 1], k) == v then [s[|s| - 1]] else [])
  }

  lemma {:induction false} InsertBackPerm(t: seq<Course>, x: Course, k: SortKey)
    ensures multiset(InsertBack(t, x, k)) == multiset(t) + multiset{x}
    decreases |t|
  {
    if t != [] && Rank(t[|t| - 1], k) > Rank(x, k) {
      InsertBackPerm(t[..|t| - 1], x, k);
      assert t == t[..|t| - 1] + [t[|t| - 1]];
    }
  }

  lemma {:induction false} InsertBackSorted(t: seq<Course>, x: Course, k: SortKey)
    requires SortedBy(t, k)
    ensures SortedBy(InsertBack(t, x, k), k)
    ensures |InsertBack(t, x, k)| == |t| + 1
    ensures forall y :: y in InsertBack(t, x, k) ==> y == x || y in t
    decreases |t|
  {
    if t != [] && Rank(t[|t| - 1], k) > Rank(x, k) {
      var init, last := t[..|t| - 1], t[|t| - 1];
      InsertBackSorted(init, x, k);
      var r := InsertBack(init, x, k);
      forall y | y in r ensures Rank(y, k) <= Rank(last, k) {
        if y != x {
          assert y in init;
          var i :| 0 <= i < |init| && init[i] == y;
          assert t[i] == y;
        }
      }
    }
  }

  /** Appending one course extends the ties of its rank by it. */
  lemma TiesSnoc(s: seq<Course>, c: Course, k: SortKey, v: int)
    ensures Ties(s + [c], k, v) == Ties(s, k, v) + (if Rank(c, k) == v then [c] else [])
  {
    assert (s + [c])[..|s|] == s;
  }

  /** Inserting `x` adds it after the ties of its rank and leaves every other rank's ties alone. */
  lemma {:induction false} InsertBackTies(t: seq<Course>, x: Course, k: SortKey, v: int)
    requires SortedBy(t, k)
    ensures Ties(InsertBack(t, x, k), k, v) == Ties(t, k, v) + (if Rank(x, k) == v then [x] else [])
    decreases |t|
  {
    if t == [] {
      TiesSnoc([], x, k, v);
    } else if Rank(t[|t| - 1], k) <= Rank(x, k) {
      TiesSnoc(t, x, k, v);
    } else {
      var init, last := t[..|t| - 1], t[|t| - 1];
      assert t == init + [last];
      assert SortedBy(init, k);
      var r := InsertBack(init, x, k);
      assert InsertBack(t, x, k) == r + [last];
      InsertBackTies(init, x, k, v);
      TiesSnoc(r, last, k, v);
      TiesSnoc(init, last, k, v);
      // `last` outranks `x`, so at most one of them has rank `v`
      if Rank(x, k) == v {
        assert Ties(r + [last], k, v) == Ties(init, k, v) + [x];
        assert Ties(t, k, v) == Ties(init, k, v);
      } else {
        assert Ties(r, k, v) == Ties(init, k, v);
      }
    }
  }

  /** The sort is a permutation, sorted by rank, and stable: each rank's ties keep their input order. */
  lemma {:induction false} SortByCorrect(s: seq<Course>, k: SortKey)
    ensures multiset(SortBy(s, k)) == multiset(s)
    ensures SortedBy(SortBy(s, k), k)
    ensures forall v :: Ties(SortBy(s, k), k, v) == Ties(s, k, v)
    decreases |s|
  {
    if s != [] {
      var init, last := s[..|s| - 1], s[|s| - 1];
      SortByCorrect(init, k);
      InsertBackPerm(SortBy(init, k), last, k);
      InsertBackSorted(SortBy(init, k), last, k);
      forall v ensures Ties(SortBy(s, k), k, v) == Ties(s, k, v) {
        InsertBackTies(SortBy(init, k), last, k, v);
      }
      assert s == init + [last];
    }
  }

  /** What the effect leaves in `filteredCourses`: the selected courses, sorted when the option is known. */
  function Browse(catalog: seq<Course>, f: Filters): seq<Course> {
    match SortKeyOf(f.sortOption)
    case None => Select(catalog, f)
    case Some(k) => SortBy(Select(catalog, f), k)
  }

  // ----- the effect -----

  /**
   * Sorts `a` in place by rank with the stable insertion sort; the element being
   * placed moves left past every element of strictly greater rank.
   */
  method SortInPlace(a: array<Course>, k: SortKey)
    modifies a
    ensures a[..] == SortBy(old(a[..]), k)
  {
    ghost var s := a[..];
    var i := 0;
    while i < a.Length
      invariant 0 <= i <= a.Length
      invariant a[..i] == SortBy(s[..i], k)
      invariant a[i..] == s[i..]
    {
      ghost var before := a[..];
      assert before[i] == s[i];
      InsertInPlace(a, i, k);
      SortByStep(s, i, k);
      assert a[i + 1..] == before[i + 1..];
      i := i + 1;
    }
    assert a[..] == a[..a.Length];
    assert s == s[..a.Length];
  }

  /** The sort of a prefix one longer is the insertion of its last element into the sort of the shorter one. */
  lemma SortByStep(s: seq<Course>, i: nat, k: SortKey)
    requires i < |s|
    ensures SortBy(s[..i + 1], k) == InsertBack(SortBy(s[..i], k), s[i], k)
  {
    assert s[..i + 1][..i] == s[..i];
  }

  /** One step of the insertion sort: moves `a[i]` left into the ordered prefix `a[..i]`. */
  method InsertInPlace(a: array<Course>, i: nat, k: SortKey)
    requires i < a.Length
    modifies a
    ensures a[..i + 1] == InsertBack(old(a[..i]), old(a[i]), k)
    ensures a[i + 1..] == old(a[i + 1..])
  {
    var x := a[i];
    ghost var t := a[..i];
    var j := ShiftGreater(a, i, k);
    a[j] := x;
    InsertBackAt(t, x, k, j);
    assert forall m :: 0 <= m <= i ==> a[m] == (t[..j] + [x] + t[j..])[m];
    assert a[..i + 1] == t[..j] + [x] + t[j..];
  }

  /**
   * Shifts right, by one place, the elements just left of `a[i]` whose rank is
   * greater than `a[i]`'s, and returns the index of the gap this leaves.
   */
  method ShiftGreater(a: array<Course>, i: nat, k: SortKey) returns (j: nat)
    requires i < a.Length
    modifies a
    ensures j <= i
    ensures forall m :: 0 <= m < j ==> a[m] == old(a[m])
    ensures forall m :: j < m <= i ==> a[m] == old(a[m - 1])
    ensures forall m :: i < m < a.Length ==> a[m] == old(a[m])
    ensures j == 0 || Rank(old(a[j - 1]), k) <= Rank(old(a[i]), k)
    ensures forall m :: j <= m < i ==> Rank(old(a[m]), k) > Rank(old(a[i]), k)
  {
    var x := a[i];
    j := i;
    while j > 0 && Rank(a[j - 1], k) > Rank(x, k)
      invariant 0 <= j <= i
      invariant forall m :: 0 <= m < j ==> a[m] == old(a[m])
      invariant forall m :: j < m <= i ==> a[m] == old(a[m - 1])
      invariant forall m :: i < m < a.Length ==> a[m] == old(a[m])
      invariant forall m :: j <= m < i ==> Rank(old(a[m]), k) > Rank(x, k)
    {
      a[j] := a[j - 1];
      j := j - 1;
    }
  }

  /** `x` lands right after the last element of rank at most its own, when all later ones rank higher. */
  lemma {:induction false} InsertBackAt(t: seq<Course>, x: Course, k: SortKey, j: nat)
    requires j <= |t|
    requires j == 0 || Rank(t[j - 1], k) <= Rank(x, k)
    requires forall m :: j <= m < |t| ==> Rank(t[m], k) > Rank(x, k)
    ensures InsertBack(t, x, k) == t[..j] + [x] + t[j..]
    decreases |t|
  {
    if j == |t| {
      if t != [] {
        assert t[..j] == t;
      }
    } else {
      var init := t[..|t| - 1];
      InsertBackAt(init, x, k, j);
      assert init[..j] == t[..j];
      assert t[j..] == init[j..] + [t[|t| - 1]];
    }
  }

  /**
   * The filter effect: copy the catalog, narrow it by each active filter in turn,
   * then sort it in place by the chosen option.
   */
  method ApplyFilters(catalog: seq<Course>, f: Filters) returns (result: seq<Course>)
    ensures result == Browse(catalog, f)
  {
    result := catalog;
    ghost var acc: Course -> bool := c => true;
    KeepAll(catalog, acc);
    if f.query != "" {
      var query := ToLower(f.query);
      var p := (c: Course) => Contains(ToLower(c.name), query) || Contains(ToLower(c.description), query);
      KeepFuse(catalog, acc, p, p);
      result := Keep(result, p);
      acc := p;
    }
    ghost var acc1: Course -> bool := c => MatchesQuery(c, f.query);
    KeepExt(catalog, acc, acc1);
    if f.courseType != "all" {
      var p := (c: Course) => c.courseType == f.courseType;
      ghost var pq := (c: Course) => acc1(c) && p(c);
      KeepFuse(catalog, acc1, p, pq);
      result := Keep(result, p);
      acc1 := pq;
    }
    ghost var acc2: Course -> bool := c => MatchesQuery(c, f.query) && MatchesType(c, f.courseType);
    KeepExt(catalog, acc1, acc2);
    if f.level != "all" {
      var p := (c: Course) => c.level == f.level;
      ghost var pq := (c: Course) => acc2(c) && p(c);
      KeepFuse(catalog, acc2, p, pq);
      result := Keep(result, p);
      acc2 := pq;
    }
    var inRange := (c: Course) => c.price >= f.minPrice && c.price <= f.maxPrice;
    KeepFuse(catalog, acc2, inRange, c => Matches(c, f));
    result := Keep(result, inRange);
    assert result == Select(catalog, f);
    var key := SortKeyOf(f.sortOption);
    if key.Some? {
      var a := new Course[|result|](i requires 0 <= i < |result| => result[i]);
      assert a[..] == result;
      SortInPlace(a, key.value);
      result := a[..];
    }
  }

  lemma {:induction false} KeepExt<T>(s: seq<T>, p: T -> bool, q: T -> bool)
    requires forall x :: p(x) == q(x)
    ensures Keep(s, p) == Keep(s, q)
  {
    if s != [] {
      KeepExt(s[1..], p, q);
    }
  }

  // ----- what the effect promises -----

  lemma {:induction false} KeepSound<T>(s: seq<T>, p: T -> bool)
    ensures forall x :: x in Keep(s, p) ==> x in s && p(x)
  {
    if s != [] {
      KeepSound(s[1..], p);
    }
  }

  /** Every course shown is a catalog course that satisfies all active predicates at once. */
  lemma BrowseSound(catalog: seq<Course>, f: Filters)
    ensures forall c :: c in Browse(catalog, f) ==> c in catalog && Matches(c, f)
  {
    KeepSound(catalog, c => Matches(c, f));
    var sel := Select(catalog, f);
    if SortKeyOf(f.sortOption).Some? {
      SortByCorrect(sel, SortKeyOf(f.sortOption).value);
      forall c | c in Browse(catalog, f) ensures c in sel {
        assert multiset(Browse(catalog, f))[c] > 0;
      }
    }
  }

  /**
   * Completeness and soundness together: a course is shown exactly as often as
   * the catalog holds it when it satisfies the filters, and never otherwise.
   */
  lemma BrowseCount(catalog: seq<Course>, f: Filters, c: Course)
    ensures multiset(Browse(catalog, f))[c] == if Matches(c, f) then multiset(catalog)[c] else 0
  {
    KeepCount(catalog, c => Matches(c, f), c);
    if SortKeyOf(f.sortOption).Some? {
      SortByCorrect(Select(catalog, f), SortKeyOf(f.sortOption).value);
    }
  }

  /**
   * A known sort option orders the shown courses by its key, and ties keep
   * their catalog order; an unknown option shows them in catalog order.
   */
  lemma BrowseOrder(catalog: seq<Course>, f: Filters)
    ensures SortKeyOf(f.sortOption).Some? ==>
      var k := SortKeyOf(f.sortOption).value;
      SortedBy(Browse(catalog, f), k)
      && forall v :: Ties(Browse(catalog, f), k, v) == Ties(Select(catalog, f), k, v)
    ensures SortKeyOf(f.sortOption).None? ==> Browse(catalog, f) == Select(catalog, f)
  {
    if SortKeyOf(f.sortOption).Some? {
      SortByCorrect(Select(catalog, f), SortKeyOf(f.sortOption).value);
    }
  }

  /** "newest" lists higher ids first, "price-low" cheaper courses first. */
  lemma SortDirections(s: seq<Course>)
    ensures SortedBy(s, Newest) ==> forall i, j :: 0 <= i < j < |s| ==> s[i].id >= s[j].id
    ensures SortedBy(s, Popular) ==> forall i, j :: 0 <= i < j < |s| ==> s[i].students >= s[j].students
    ensures SortedBy(s, PriceLow) ==> forall i, j :: 0 <= i < j < |s| ==> s[i].price <= s[j].price
    ensures SortedBy(s, PriceHigh) ==> forall i, j :: 0 <= i < j < |s| ==> s[i].price >= s[j].price
    ensures SortedBy(s, Rating) ==> forall i, j :: 0 <= i < j < |s| ==> s[i].ratingTenths >= s[j].ratingTenths
  {
    if SortedBy(s, Newest) {
      forall i, j | 0 <= i < j < |s| ensures s[i].id >= s[j].id {
        assert Rank(s[i], Newest) <= Rank(s[j], Newest);
      }
    }
    if SortedBy(s, Popular) {
      forall i, j | 0 <= i < j < |s| ensures s[i].students >= s[j].students {
        assert Rank(s[i], Popular) <= Rank(s[j], Popular);
      }
    }
    if SortedBy(s, PriceLow) {
      forall i, j | 0 <= i < j < |s| ensures s[i].price <= s[j].price {
        assert Rank(s[i], PriceLow) <= Rank(s[j], PriceLow);
      }
    }
    if SortedBy(s, PriceHigh) {
      forall i, j | 0 <= i < j < |s| ensures s[i].price >= s[j].price {
        assert Rank(s[i], PriceHigh) <= Rank(s[j], PriceHigh);
      }
    }
    if SortedBy(s, Rating) {
      forall i, j | 0 <= i < j < |s| ensures s[i].ratingTenths >= s[j].ratingTenths {
        assert Rank(s[i], Rating) <= Rank(s[j], Rating);
      }
    }
  }

  /** Catalog ids are 1 to 8 in order, so no course is listed twice. */
  lemma CatalogIds()
    ensures |AllCourses| == 8
    ensures forall i :: 0 <= i < |AllCourses| ==> AllCourses[i].id == i + 1
  {
  }

  lemma {:induction false} DistinctIdsCountOnce(s: seq<Course>, c: Course)
    requires forall i, j :: 0 <= i < j < |s| ==> s[i].id != s[j].id
    requires c in s
    ensures multiset(s)[c] == 1
  {
    var t := s[1..];
    assert s == [s[0]] + t;
    if c == s[0] {
      assert forall j :: 0 <= j < |t| ==> t[j].id != s[0].id by {
        forall j | 0 <= j < |t| ensures t[j].id != s[0].id {
          assert t[j] == s[j + 1];
        }
      }
    } else {
      DistinctIdsCountOnce(t, c);
    }
  }

  /** Every catalog course that satisfies the filters is shown exactly once. */
  lemma CatalogComplete(f: Filters, c: Course)
    requires c in AllCourses && Matches(c, f)
    ensures multiset(Browse(AllCourses, f))[c] == 1
  {
    CatalogIds();
    DistinctIdsCountOnce(AllCourses, c);
    BrowseCount(AllCourses, f, c);
  }

  function Ids(s: seq<Course>): seq<nat> {
    seq(|s|, i requires 0 <= i < |s| => s[i].id)
  }

  const DevelopmentFilters := Filters("", "development", "all", 0, 500, "newest")

  /** Of the eight courses, only 2 and 3 have type "development" (and both cost at most 500). */
  lemma DevelopmentSelect()
    ensures Select(AllCourses, DevelopmentFilters) == [AllCourses[1], AllCourses[2]]
  {
    var f, c := DevelopmentFilters, AllCourses;
    var p := (x: Course) => Matches(x, f);
    assert !p(c[0]) && p(c[1]) && p(c[2]) && !p(c[3]) && !p(c[4]) && !p(c[5]) && !p(c[6]) && !p(c[7]);
    assert Keep(c[8..], p) == [];
    assert Keep(c[4..], p) == [] by {
      assert Keep(c[7..], p) == [];
      assert Keep(c[6..], p) == [];
      assert Keep(c[5..], p) == [];
    }
    assert Keep(c[3..], p) == [];
    assert Keep(c[2..], p) == [c[2]];
    assert Keep(c[1..], p) == [c[1], c[2]];
  }

  /** Type "development", any level, price 0 to 500, newest first: courses 3 then 2. */
  lemma DevelopmentNewest()
    ensures Ids(Browse(AllCourses, DevelopmentFilters)) == [3, 2]
  {
    DevelopmentSelect();
    assert SortKeyOf(DevelopmentFilters.sortOption) == Some(Newest);
    NewestPair(AllCourses[1], AllCourses[2]);
  }

  /** Two courses listed in ascending id order come out in descending id order under "newest". */
  lemma NewestPair(older: Course, newer: Course)
    requires older.id < newer.id
    ensures SortBy([older, newer], Newest) == [newer, older]
  {
    assert [older, newer][..1] == [older];
    assert SortBy([older], Newest) == [older];
    assert InsertBack([older], newer, Newest) == InsertBack([], newer, Newest) + [older];
  }
}
