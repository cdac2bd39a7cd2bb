/** The cart store of the storefront (App.tsx:60, 79-104).

    The source keeps the cart in a JavaScript `Map<number, CartItem>` keyed by
    product id and renders `Array.from(cart.values())`, which follows the
    map's insertion order. The cart is modelled as the sequence of its
    (key, item) pairs in that order: `Map.set` on a present key overwrites the
    pair where it stands, on an absent key it appends, and `Map.delete` takes
    the pair out. Every updater is a pure function from the old cart to the
    new one, as the source's `setCart(prev => ...)` callbacks are. */
module CartStore {
  import opened Types

  /** One key/value pair of the cart map. */
  datatype Entry = Entry(id: int, item: CartItem)

  /** The cart's pairs, in insertion order. */
  type Cart = seq<Entry>

  /** The invariant every cart reachable from the empty one keeps: keys are
      unique, each item is stored under its own product's id, and no quantity
      is below one. */
  ghost predicate WellFormed(c: Cart)
  {
    && (forall i, j :: 0 <= i < j < |c| ==> c[i].id != c[j].id)
    && (forall i :: 0 <= i < |c| ==> c[i].id == c[i].item.product.id && c[i].item.quantity >= 1)
  }

  // ---------------------------------------------------------------------------
  // The map primitives the updaters use: get, set, delete
  // ---------------------------------------------------------------------------

  /** Where the pair stored under `id` stands, if there is one: the first
      position holding that key. */
  function IndexOf(c: Cart, id: int): (r: Option<nat>)
    ensures r.Some? ==> r.value < |c| && c[r.value].id == id
    ensures r.Some? ==> forall j :: 0 <= j < r.value ==> c[j].id != id
    ensures r.None? <==> forall j :: 0 <= j < |c| ==> c[j].id != id
  {
    if c == [] then None
    else if c[0].id == id then Some(0)
    else match IndexOf(c[1..], id)
      case None => None
      case Some(i) => Some(i + 1)
  }

  /** `Map.get`: the item stored under `id`, if any. */
  function Get(c: Cart, id: int): Option<CartItem>
  {
    match IndexOf(c, id)
    case None => None
    case Some(i) => Some(c[i].item)
  }

  /** `Map.set`: overwrite the pair where it stands, or append a new one. */
  function Set(c: Cart, id: int, item: CartItem): Cart
  {
    match IndexOf(c, id)
    case Some(i) => c[i := Entry(id, item)]
    case None => c + [Entry(id, item)]
  }

  // ---------------------------------------------------------------------------
  // The cart updaters and the derived values
  // ---------------------------------------------------------------------------

  /** `handleAddToCart`'s updater: one more of an item already in the cart
      (keeping the product record stored with it), or a new line with
      quantity one. */
  function AddToCart(c: Cart, p: Product): Cart
  {
    match Get(c, p.id)
    case Some(existing) => Set(c, p.id, existing.(quantity := existing.quantity + 1))
    case None => Set(c, p.id, CartItem(p, 1))
  }

  /** `handleRemoveFromCart`'s updater: `Map.delete`. No pair with key `id`
      survives, and what survives was in the cart before. */
  function RemoveFromCart(c: Cart, id: int): (r: Cart)
    ensures forall j :: 0 <= j < |r| ==> r[j].id != id
    ensures forall e :: e in r ==> e in c
    ensures |r| <= |c|
  {
    if c == [] then []
    else if c[0].id == id then RemoveFromCart(c[1..], id)
    else [c[0]] + RemoveFromCart(c[1..], id)
  }

  /** The cart's items, one per pair, in the map's insertion order. */
  function Items(c: Cart): (r: seq<CartItem>)
    ensures |r| == |c|
    ensures forall i :: 0 <= i < |c| ==> r[i] == c[i].item
  {
    seq(|c|, i requires 0 <= i < |c| => c[i].item)
  }

  /** The item count: the sum of the quantities, accumulated left to right
      from zero. */
  function Count(items: seq<CartItem>): int
  {
    if items == [] then 0
    else Count(items[..|items| - 1]) + items[|items| - 1].quantity
  }

  /** The cart total in cents: the sum over the items of the stored price
      times the quantity, accumulated left to right from zero. */
  function Total(items: seq<CartItem>): int
  {
    if items == [] then 0
    else Total(items[..|items| - 1]) + items[|items| - 1].product.price * items[|items| - 1].quantity
  }

  /** The unit price an add is charged at: the one captured when the product
      first entered the cart, else the product's own. */
  function StoredPrice(c: Cart, p: Product): nat
  {
    match Get(c, p.id)
    case Some(existing) => existing.product.price
    case None => p.price
  }

  // ---------------------------------------------------------------------------
  // Lemmas about the map primitives
  // ---------------------------------------------------------------------------

  /** Two carts whose keys agree position by position find every key at the
      same place. */
  lemma {:induction false} IndexOfSameIds(a: Cart, b: Cart, id: int)
    requires |a| == |b|
    requires forall j :: 0 <= j < |a| ==> a[j].id == b[j].id
    ensures IndexOf(a, id) == IndexOf(b, id)
  {
    if a != [] && a[0].id != id {
      IndexOfSameIds(a[1..], b[1..], id);
    }
  }

  /** Appending a pair with another key does not move the pair of `id`. */
  lemma {:induction false} IndexOfAppend(c: Cart, e: Entry, id: int)
    requires e.id != id
    ensures IndexOf(c + [e], id) == IndexOf(c, id)
  {
    if c != [] && c[0].id != id {
      assert (c + [e])[1..] == c[1..] + [e];
      IndexOfAppend(c[1..], e, id);
    }
  }

  /** On a well-formed cart the pair of a key stands at the one position
      holding that key. */
  lemma IndexOfUnique(c: Cart, i: nat)
    requires WellFormed(c) && i < |c|
    ensures IndexOf(c, c[i].id) == Some(i)
  {
  }

  /** `Map.set` stores the item under its key and leaves every other key's
      item alone. */
  lemma SetFrame(c: Cart, id: int, item: CartItem)
    ensures Get(Set(c, id, item), id) == Some(item)
    ensures forall k :: k != id ==> Get(Set(c, id, item), k) == Get(c, k)
  {
    var r := Set(c, id, item);
    match IndexOf(c, id)
    case Some(i) =>
      forall k | k != id ensures Get(r, k) == Get(c, k) {
        IndexOfSameIds(r, c, k);
      }
      IndexOfSameIds(r, c, id);
    case None =>
      assert r[|c|].id == id;
      assert IndexOf(r, id) == Some(|c|);
      forall k | k != id ensures Get(r, k) == Get(c, k) {
        IndexOfAppend(c, Entry(id, item), k);
      }
  }

  /** A pair under another key at the front does not change what `id` holds. */
  lemma GetTail(c: Cart, id: int)
    requires c != [] && c[0].id != id
    ensures Get(c, id) == Get(c[1..], id)
  {
  }

  /** Deleting a key that is absent changes nothing. */
  lemma {:induction false} RemoveAbsent(c: Cart, id: int)
    requires forall j :: 0 <= j < |c| ==> c[j].id != id
    ensures RemoveFromCart(c, id) == c
  {
    if c != [] {
      RemoveAbsent(c[1..], id);
      assert [c[0]] + c[1..] == c;
    }
  }

  /** Deleting distributes over concatenation. */
  lemma {:induction false} RemoveConcat(a: Cart, b: Cart, id: int)
    ensures RemoveFromCart(a + b, id) == RemoveFromCart(a, id) + RemoveFromCart(b, id)
  {
    if a != [] {
      assert (a + b)[0] == a[0];
      assert (a + b)[1..] == a[1..] + b;
      RemoveConcat(a[1..], b, id);
    } else {
      assert a + b == b;
    }
  }

  /** On a well-formed cart, deleting a present key takes out exactly the
      pair at its position and keeps the order of the rest. */
  lemma RemoveAt(c: Cart, i: nat)
    requires WellFormed(c) && i < |c|
    ensures RemoveFromCart(c, c[i].id) == c[..i] + c[i + 1..]
  {
    var id := c[i].id;
    var pre, rest, post := c[..i], c[i..], c[i + 1..];
    assert c == pre + rest;
    assert rest[1..] == post;
    forall j | 0 <= j < |pre| ensures pre[j].id != id {
      assert pre[j] == c[j];
    }
    forall j | 0 <= j < |post| ensures post[j].id != id {
      assert post[j] == c[i + 1 + j];
    }
    RemoveConcat(pre, rest, id);
    RemoveAbsent(pre, id);
    RemoveAbsent(post, id);
  }

  // ---------------------------------------------------------------------------
  // Lemmas about the updaters
  // ---------------------------------------------------------------------------

  /** The item list shows exactly the values of the map: on a well-formed
      cart an item is listed exactly when it is what the map holds under its
      product's id. */
  lemma ItemsAreStoredValues(c: Cart, x: CartItem)
    requires WellFormed(c)
    ensures x in Items(c) <==> Get(c, x.product.id) == Some(x)
  {
    if x in Items(c) {
      var i :| 0 <= i < |c| && Items(c)[i] == x;
      IndexOfUnique(c, i);
    }
    if Get(c, x.product.id) == Some(x) {
      var i := IndexOf(c, x.product.id).value;
      assert Items(c)[i] == x;
    }
  }

  /** Adding a product that is not in the cart appends one line holding that
      product with quantity one; every existing line is unchanged. */
  lemma AddAbsent(c: Cart, p: Product)
    requires forall j :: 0 <= j < |c| ==> c[j].id != p.id
    ensures AddToCart(c, p) == c + [Entry(p.id, CartItem(p, 1))]
  {
  }

  /** Adding a product already in the cart raises that line's quantity by one
      and keeps the product record stored with it (so its captured price),
      at the same position; every other line is unchanged. */
  lemma AddPresent(c: Cart, p: Product, i: nat)
    requires WellFormed(c) && i < |c| && c[i].id == p.id
    ensures |AddToCart(c, p)| == |c|
    ensures AddToCart(c, p)[i] == Entry(p.id, CartItem(c[i].item.product, c[i].item.quantity + 1))
    ensures forall j :: 0 <= j < |c| && j != i ==> AddToCart(c, p)[j] == c[j]
  {
    IndexOfUnique(c, i);
  }

  /** Seen as a map: after an add, the product's key holds one more of the
      item stored before (or a fresh item of quantity one), and every other
      key holds what it held. */
  lemma AddFrame(c: Cart, p: Product)
    ensures Get(AddToCart(c, p), p.id) ==
      match Get(c, p.id)
      case Some(existing) => Some(existing.(quantity := existing.quantity + 1))
      case None => Some(CartItem(p, 1))
    ensures forall k :: k != p.id ==> Get(AddToCart(c, p), k) == Get(c, k)
  {
    match Get(c, p.id)
    case Some(existing) => SetFrame(c, p.id, existing.(quantity := existing.quantity + 1));
    case None => SetFrame(c, p.id, CartItem(p, 1));
  }

  /** Seen as a map: removing `id` deletes that key only; every other key
      holds what it held. */
  lemma {:induction false} RemoveFrame(c: Cart, id: int)
    ensures Get(RemoveFromCart(c, id), id) == None
    ensures forall k :: k != id ==> Get(RemoveFromCart(c, id), k) == Get(c, k)
  {
    if c != [] {
      RemoveFrame(c[1..], id);
      var rest := RemoveFromCart(c[1..], id);
      if c[0].id != id {
        var r := [c[0]] + rest;
        assert r[1..] == rest;
        forall k | k != id && k != c[0].id ensures Get(r, k) == Get(c, k) {
          GetTail(r, k);
          GetTail(c, k);
        }
      } else {
        forall k | k != id ensures Get(rest, k) == Get(c, k) {
          GetTail(c, k);
        }
      }
    }
  }

  /** Removing the same id twice is removing it once. */
  lemma RemoveIdempotent(c: Cart, id: int)
    ensures RemoveFromCart(RemoveFromCart(c, id), id) == RemoveFromCart(c, id)
  {
    RemoveAbsent(RemoveFromCart(c, id), id);
  }

  /** Adding a product that was not in the cart and then removing it gives
      back the cart exactly; on the empty cart this gives the empty cart. */
  lemma RemoveUndoesAdd(c: Cart, p: Product)
    requires forall j :: 0 <= j < |c| ==> c[j].id != p.id
    ensures RemoveFromCart(AddToCart(c, p), p.id) == c
  {
    AddAbsent(c, p);
    RemoveConcat(c, [Entry(p.id, CartItem(p, 1))], p.id);
    RemoveAbsent(c, p.id);
    assert RemoveFromCart([Entry(p.id, CartItem(p, 1))], p.id) == [];
  }

  /** The cart a session starts with is well formed. */
  lemma EmptyWellFormed()
    ensures WellFormed([])
  {
  }

  /** Adding keeps the cart well formed. */
  lemma AddPreservesWellFormed(c: Cart, p: Product)
    requires WellFormed(c)
    ensures WellFormed(AddToCart(c, p))
  {
    match IndexOf(c, p.id)
    case Some(i) => AddPresent(c, p, i);
    case None => AddAbsent(c, p);
  }

  /** Removing keeps the cart well formed. */
  lemma {:induction false} RemovePreservesWellFormed(c: Cart, id: int)
    requires WellFormed(c)
    ensures WellFormed(RemoveFromCart(c, id))
  {
    if c != [] {
      RemovePreservesWellFormed(c[1..], id);
      var rest := RemoveFromCart(c[1..], id);
      if c[0].id != id {
        var r := [c[0]] + rest;
        forall j | 0 < j < |r| ensures r[j].id != c[0].id {
          assert r[j] == rest[j - 1];
          assert rest[j - 1] in c[1..];
        }
      }
    }
  }

  // ---------------------------------------------------------------------------
  // Lemmas about the derived count and total
  // ---------------------------------------------------------------------------

  /** Replacing one item changes each sum by the difference that item makes. */
  lemma {:induction false} SumsUpdate(s: seq<CartItem>, i: nat, x: CartItem)
    requires i < |s|
    ensures Count(s[i := x]) == Count(s) - s[i].quantity + x.quantity
    ensures Total(s[i := x]) == Total(s) - s[i].product.price * s[i].quantity + x.product.price * x.quantity
  {
    var n := |s|;
    if i < n - 1 {
      assert s[i := x][..n - 1] == s[..n - 1][i := x];
      SumsUpdate(s[..n - 1], i, x);
    } else {
      assert s[i := x][..n - 1] == s[..n - 1];
    }
  }

  /** Taking out one item lowers each sum by exactly what that item added. */
  lemma {:induction false} SumsRemoveAt(s: seq<CartItem>, i: nat)
    requires i < |s|
    ensures Count(s[..i] + s[i + 1..]) == Count(s) - s[i].quantity
    ensures Total(s[..i] + s[i + 1..]) == Total(s) - s[i].product.price * s[i].quantity
  {
    var n := |s|;
    if i == n - 1 {
      assert s[..i] + s[i + 1..] == s[..n - 1];
    } else {
      var t := s[..n - 1];
      var u := s[..i] + s[i + 1..];
      assert u == (t[..i] + t[i + 1..]) + [s[n - 1]];
      assert u[..|u| - 1] == t[..i] + t[i + 1..];
      SumsRemoveAt(t, i);
    }
  }

  /** Items of a cart with one pair replaced. */
  lemma ItemsUpdate(c: Cart, i: nat, e: Entry)
    requires i < |c|
    ensures Items(c[i := e]) == Items(c)[i := e.item]
  {
  }

  /** Items of a cart with one pair taken out. */
  lemma ItemsRemoveAt(c: Cart, i: nat)
    requires i < |c|
    ensures Items(c[..i] + c[i + 1..]) == Items(c)[..i] + Items(c)[i + 1..]
  {
  }

  /** An add on a present key: the sums change by one more of the stored item. */
  lemma AddSumsPresent(c: Cart, p: Product, i: nat)
    requires IndexOf(c, p.id) == Some(i)
    ensures Count(Items(AddToCart(c, p))) == Count(Items(c)) + 1
    ensures Total(Items(AddToCart(c, p))) == Total(Items(c)) + StoredPrice(c, p)
  {
    var e := Entry(p.id, c[i].item.(quantity := c[i].item.quantity + 1));
    var r := c[i := e];
    assert AddToCart(c, p) == r;
    ItemsUpdate(c, i, e);
    SumsUpdate(Items(c), i, e.item);
  }

  /** An add on an absent key: the sums grow by one of the new product. */
  lemma AddSumsAbsent(c: Cart, p: Product)
    requires IndexOf(c, p.id) == None
    ensures Count(Items(AddToCart(c, p))) == Count(Items(c)) + 1
    ensures Total(Items(AddToCart(c, p))) == Total(Items(c)) + StoredPrice(c, p)
  {
    var e := Entry(p.id, CartItem(p, 1));
    assert AddToCart(c, p) == c + [e];
    var s := Items(c + [e]);
    assert s[..|s| - 1] == Items(c);
  }

  /** An add raises the item count by exactly one and the total by the price
      stored for that product. */
  lemma AddSums(c: Cart, p: Product)
    ensures Count(Items(AddToCart(c, p))) == Count(Items(c)) + 1
    ensures Total(Items(AddToCart(c, p))) == Total(Items(c)) + StoredPrice(c, p)
  {
    match IndexOf(c, p.id)
    case Some(i) => AddSumsPresent(c, p, i);
    case None => AddSumsAbsent(c, p);
  }

  /** A remove lowers the count by the removed line's quantity and the total
      by what that line cost; removing an absent id changes neither. */
  lemma RemoveSums(c: Cart, id: int)
    requires WellFormed(c)
    ensures Count(Items(RemoveFromCart(c, id))) == Count(Items(c)) -
      (match Get(c, id) case Some(it) => it.quantity case None => 0)
    ensures Total(Items(RemoveFromCart(c, id))) == Total(Items(c)) -
      (match Get(c, id) case Some(it) => it.product.price * it.quantity case None => 0)
  {
    match IndexOf(c, id)
    case Some(i) =>
      RemoveAt(c, i);
      ItemsRemoveAt(c, i);
      SumsRemoveAt(Items(c), i);
    case None =>
      RemoveAbsent(c, id);
  }

  /** With every quantity at least one, the count is at least the number of
      lines and the total is never negative. */
  lemma {:induction false} SumsBounds(s: seq<CartItem>)
    requires forall i :: 0 <= i < |s| ==> s[i].quantity >= 1
    ensures Count(s) >= |s|
    ensures Total(s) >= 0
  {
    if s != [] {
      SumsBounds(s[..|s| - 1]);
    }
  }

  /** On a well-formed cart the count is zero exactly when the cart is empty. */
  lemma CountZeroIffEmpty(c: Cart)
    requires WellFormed(c)
    ensures Count(Items(c)) == 0 <==> c == []
    ensures Total(Items(c)) >= 0
  {
    SumsBounds(Items(c));
  }

  /** Two of a 10.00 product and one of a 5.00 product: three items, 25.00. */
  lemma TwoProductCart(a: Product, b: Product)
    requires a.id != b.id && a.price == 1000 && b.price == 500
    ensures var c := AddToCart(AddToCart(AddToCart([], a), a), b);
      Count(Items(c)) == 3 && Total(Items(c)) == 2500 && WellFormed(c)
  {
    var c1 := AddToCart([], a);
    var c2 := AddToCart(c1, a);
    AddSums([], a);
    AddSums(c1, a);
    AddSums(c2, b);
    EmptyWellFormed();
    AddPreservesWellFormed([], a);
    AddPreservesWellFormed(c1, a);
    AddPreservesWellFormed(c2, b);
  }
}
