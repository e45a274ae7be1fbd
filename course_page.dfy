/**
 * The course page's state (app/course/page.tsx): liked ids, cart ids, the
 * filter settings and the list they produce, and what the page keeps in
 * local storage under "likedCourses" and "cartItems".
 */
module CoursePage {
  import opened Wrappers
  import opened CourseCatalog

  /** `ids.filter(id => id !== x)`. */
  function Without(s: seq<nat>, x: nat): seq<nat> {
    if s == [] then [] else (if s[0] == x then [] else [s[0]]) + Without(s[1..], x)
  }

  /** The liked list after `toggleLike(x)`: drop every `x` if present, else append it. */
  function Toggled(s: seq<nat>, x: nat): seq<nat> {
    if x in s then Without(s, x) else s + [x]
  }

  predicate NoDuplicates(s: seq<nat>) {
    forall i, j :: 0 <= i < j < |s| ==> s[i] != s[j]
  }

  /** `x` occurs nowhere in the result; every other id occurs as often as before. */
  lemma {:induction false} WithoutCounts(s: seq<nat>, x: nat)
    ensures x !in Without(s, x)
    ensures forall y :: y != x ==> multiset(Without(s, x))[y] == multiset(s)[y]
    ensures |Without(s, x)| == |s| - multiset(s)[x]
  {
    if s != [] {
      WithoutCounts(s[1..], x);
      assert s == [s[0]] + s[1..];
    }
  }

  /** Removal works piecewise, so the remaining ids keep their order. */
  lemma {:induction false} WithoutConcat(a: seq<nat>, b: seq<nat>, x: nat)
    ensures Without(a + b, x) == Without(a, x) + Without(b, x)
  {
    if a != [] {
      WithoutConcat(a[1..], b, x);
      assert (a + b)[1..] == a[1..] + b;
    } else {
      assert a + b == b;
    }
  }

  /** Removing an absent id changes nothing; hence removing twice is removing once. */
  lemma {:induction false} WithoutAbsent(s: seq<nat>, x: nat)
    requires x !in s
    ensures Without(s, x) == s
  {
    if s != [] {
      WithoutAbsent(s[1..], x);
      assert s == [s[0]] + s[1..];
    }
  }

  lemma WithoutIdempotent(s: seq<nat>, x: nat)
    ensures Without(Without(s, x), x) == Without(s, x)
  {
    WithoutCounts(s, x);
    WithoutAbsent(Without(s, x), x);
  }

  /** Every id left after removal was in the list before. */
  lemma {:induction false} WithoutSubset(s: seq<nat>, x: nat)
    ensures forall y :: y in Without(s, x) ==> y in s
  {
    if s != [] {
      WithoutSubset(s[1..], x);
    }
  }

  /** Removal keeps a duplicate-free list duplicate-free. */
  lemma {:induction false} WithoutNoDuplicates(s: seq<nat>, x: nat)
    requires NoDuplicates(s)
    ensures NoDuplicates(Without(s, x))
  {
    if s != [] {
      var rest := s[1..];
      assert NoDuplicates(rest) by {
        forall i, j | 0 <= i < j < |rest| ensures rest[i] != rest[j] {
          assert rest[i] == s[i + 1] && rest[j] == s[j + 1];
        }
      }
      WithoutNoDuplicates(rest, x);
      if s[0] != x {
        WithoutSubset(rest, x);
        assert s[0] !in rest by {
          forall k | 0 <= k < |rest| ensures rest[k] != s[0] {
            assert rest[k] == s[k + 1];
          }
        }
        var r := Without(s, x);
        assert r == [s[0]] + Without(rest, x);
        forall i, j | 0 <= i < j < |r| ensures r[i] != r[j] {
          if i > 0 {
            assert r[i] == Without(rest, x)[i - 1] && r[j] == Without(rest, x)[j - 1];
          } else {
            assert r[j] == Without(rest, x)[j - 1];
            assert r[j] in rest;
          }
        }
      }
    }
  }

  /** Toggling twice restores the liked ids as a set; exactly the same list when the id was not liked. */
  lemma ToggleTwice(s: seq<nat>, x: nat)
    ensures forall y :: y in Toggled(Toggled(s, x), x) <==> y in s
    ensures x !in s ==> Toggled(Toggled(s, x), x) == s
  {
    WithoutCounts(s, x);
    if x in s {
      assert Toggled(Toggled(s, x), x) == Without(s, x) + [x];
      forall y ensures y in Without(s, x) <==> (y in s && y != x) {
        if y != x {
          assert multiset(Without(s, x))[y] == multiset(s)[y];
        }
      }
    } else {
      WithoutAbsent(s, x);
      WithoutConcat(s, [x], x);
    }
  }

  /** Adding an id that is not yet in a duplicate-free cart keeps it duplicate-free. */
  lemma AppendNoDuplicates(s: seq<nat>, x: nat)
    requires NoDuplicates(s) && x !in s
    ensures NoDuplicates(s + [x])
  {
  }

  // ----- cart total -----

  /** `allCourses.find(c => c.id === id)?.price || 0`: the first catalog course with that id, else 0. */
  function PriceOf(catalog: seq<Course>, id: nat): nat {
    if catalog == [] then 0
    else if catalog[0].id == id then catalog[0].price
    else PriceOf(catalog[1..], id)
  }

  /** `cartItems.reduce((total, id) => total + price(id), 0)`. */
  function CartTotal(cart: seq<nat>, catalog: seq<Course>): nat {
    if cart == [] then 0 else CartTotal(cart[..|cart| - 1], catalog) + PriceOf(catalog, cart[|cart| - 1])
  }

  /** An id that no catalog course carries contributes 0; a known one contributes its price. */
  lemma {:induction false} PriceOfLookup(catalog: seq<Course>, id: nat)
    ensures (forall c :: c in catalog ==> c.id != id) ==> PriceOf(catalog, id) == 0
    ensures forall i :: (0 <= i < |catalog| && catalog[i].id == id
               && (forall j :: 0 <= j < i ==> catalog[j].id != id)) ==> PriceOf(catalog, id) == catalog[i].price
  {
    if catalog != [] {
      PriceOfLookup(catalog[1..], id);
      forall i | 0 <= i < |catalog| && catalog[i].id == id && (forall j :: 0 <= j < i ==> catalog[j].id != id)
        ensures PriceOf(catalog, id) == catalog[i].price
      {
        if i > 0 {
          assert catalog[1..][i - 1] == catalog[i];
          assert forall j :: 0 <= j < i - 1 ==> catalog[1..][j].id != id by {
            forall j | 0 <= j < i - 1 ensures catalog[1..][j].id != id {
              assert catalog[1..][j] == catalog[j + 1];
            }
          }
        }
      }
    }
  }

  /** The total is additive over concatenation of carts. */
  lemma {:induction false} CartTotalConcat(a: seq<nat>, b: seq<nat>, catalog: seq<Course>)
    ensures CartTotal(a + b, catalog) == CartTotal(a, catalog) + CartTotal(b, catalog)
    decreases |b|
  {
    if b == [] {
      assert a + b == a;
    } else {
      var b' := b[..|b| - 1];
      CartTotalConcat(a, b', catalog);
      assert (a + b)[..|a + b| - 1] == a + b';
    }
  }

  /** The total of a cart read from its first id. */
  lemma CartTotalCons(h: nat, rest: seq<nat>, catalog: seq<Course>)
    ensures CartTotal([h] + rest, catalog) == PriceOf(catalog, h) + CartTotal(rest, catalog)
  {
    CartTotalConcat([h], rest, catalog);
    assert [h][..0] == [];
  }

  lemma Distribute(n: nat, p: nat)
    ensures (n + 1) * p == n * p + p
  {
  }

  /** Removing every copy of an id lowers the total by that id's price once per copy. */
  lemma {:induction false} CartTotalWithout(cart: seq<nat>, x: nat, catalog: seq<Course>)
    ensures CartTotal(Without(cart, x), catalog) + multiset(cart)[x] * PriceOf(catalog, x) == CartTotal(cart, catalog)
  {
    if cart != [] {
      var rest := cart[1..];
      var p := PriceOf(catalog, x);
      CartTotalWithout(rest, x, catalog);
      assert cart == [cart[0]] + rest;
      CartTotalCons(cart[0], rest, catalog);
      var whole: multiset<nat>, head: multiset<nat>, tail: multiset<nat> := multiset(cart), multiset([cart[0]]), multiset(rest);
      assert whole == head + tail;
      var n := tail[x];
      if cart[0] == x {
        assert Without(cart, x) == Without(rest, x);
        assert whole[x] == n + 1;
        Distribute(n, p);
      } else {
        assert Without(cart, x) == [cart[0]] + Without(rest, x);
        CartTotalCons(cart[0], Without(rest, x), catalog);
        assert whole[x] == n;
      }
    }
  }

  /** Whether `addToCart` added the id or answered "alreadyInCart". */
  datatype AddSignal = AddedToCart | AlreadyInCart

  const LikesKey := "likedCourses"
  const CartKey := "cartItems"

  class CoursePageState {
    var mounted: bool
    var filters: Filters
    var liked: seq<nat>
    var cart: seq<nat>
    /** `filteredCourses`, what the page lists. */
    var shown: seq<Course>
    /** The lists kept in local storage; `None` when the key is absent. */
    var storedLikes: Option<seq<nat>>
    var storedCart: Option<seq<nat>>

    /** The first render: default filters, the whole catalog, empty lists; storage is as the browser has it. */
    constructor (storedLikes: Option<seq<nat>>, storedCart: Option<seq<nat>>)
      ensures !mounted && filters == DefaultFilters && shown == AllCourses
      ensures liked == [] && cart == []
      ensures this.storedLikes == storedLikes && this.storedCart == storedCart
    {
      mounted := false;
      filters := DefaultFilters;
      shown := AllCourses;
      liked, cart := [], [];
      this.storedLikes, this.storedCart := storedLikes, storedCart;
    }

    /** The mount effect: the stored lists, when present, replace the empty ones. */
    method Mount()
      modifies this
      ensures mounted
      ensures liked == (if old(storedLikes).Some? then old(storedLikes).value else old(liked))
      ensures cart == (if old(storedCart).Some? then old(storedCart).value else old(cart))
      ensures filters == old(filters) && shown == old(shown)
      ensures storedLikes == old(storedLikes) && storedCart == old(storedCart)
    {
      mounted := true;
      if storedLikes.Some? {
        liked := storedLikes.value;
      }
      if storedCart.Some? {
        cart := storedCart.value;
      }
    }

    /** The filter effect, which does nothing before the page is mounted. */
    method Refresh()
      modifies this
      ensures shown == if mounted then Browse(AllCourses, filters) else old(shown)
      ensures mounted == old(mounted) && filters == old(filters)
      ensures liked == old(liked) && cart == old(cart)
      ensures storedLikes == old(storedLikes) && storedCart == old(storedCart)
    {
      if !mounted {
        return;
      }
      shown := ApplyFilters(AllCourses, filters);
    }

    /** The search box, the selects and the slider change the filter settings. */
    method SetFilters(f: Filters)
      modifies this`filters
      ensures filters == f
    {
      filters := f;
    }

    /** The "reset filters" button: type and level "all", price 0 to 500, no search text; the sort stays. */
    method ResetFilters()
      modifies this`filters
      ensures filters == Filters("", "all", "all", 0, 500, old(filters).sortOption)
    {
      filters := filters.(courseType := "all", level := "all", minPrice := 0, maxPrice := 500, query := "");
    }

    /** Toggles `id` in the liked list and stores the new list; `nowLiked` picks the toast. */
    method ToggleLike(id: nat) returns (nowLiked: bool)
      modifies this`liked, this`storedLikes
      ensures nowLiked == (id !in old(liked))
      ensures liked == Toggled(old(liked), id)
      ensures storedLikes == Some(liked)
    {
      nowLiked := id !in liked;
      liked := if nowLiked then liked + [id] else Without(liked, id);
      storedLikes := Some(liked);
    }

    /** Appends `id` and stores the cart, unless it is already there. */
    method AddToCart(id: nat) returns (signal: AddSignal)
      modifies this`cart, this`storedCart
      ensures signal == (if id in old(cart) then AlreadyInCart else AddedToCart)
      ensures id in old(cart) ==> cart == old(cart) && storedCart == old(storedCart)
      ensures id !in old(cart) ==> cart == old(cart) + [id] && storedCart == Some(cart)
      ensures NoDuplicates(old(cart)) ==> NoDuplicates(cart)
    {
      if id in cart {
        return AlreadyInCart;
      }
      if NoDuplicates(cart) {
        AppendNoDuplicates(cart, id);
      }
      cart := cart + [id];
      storedCart := Some(cart);
      signal := AddedToCart;
    }

    /** Drops every copy of `id` and stores the cart. */
    method RemoveFromCart(id: nat)
      modifies this`cart, this`storedCart
      ensures cart == Without(old(cart), id)
      ensures storedCart == Some(cart)
      ensures NoDuplicates(old(cart)) ==> NoDuplicates(cart)
    {
      if NoDuplicates(cart) {
        WithoutNoDuplicates(cart, id);
      }
      cart := Without(cart, id);
      storedCart := Some(cart);
    }

    /** Empties the cart and removes the stored key. */
    method Checkout()
      modifies this`cart, this`storedCart
      ensures cart == [] && storedCart == None
    {
      cart := [];
      storedCart := None;
    }

    /** `cartTotal` as the page computes it. */
    function Total(): nat
      reads this
    {
      CartTotal(cart, AllCourses)
    }
  }
}
