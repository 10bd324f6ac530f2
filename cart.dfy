/** The pure cart transforms of App.tsx: the lookup, merge-or-append and
    filter that `addToCart` and `removeFromCart` hand to the state setter,
    and the two folds `cartCount` and `cartTotal`. */
module Cart {
  import opened Types
  import opened Sequences

  /** Some entry of the cart has the given product id: exactly when the
      lookup by id in `addToCart` finds an entry. */
  predicate InCart(cart: seq<CartItem>, id: int)
  {
    exists i :: 0 <= i < |cart| && cart[i].Id() == id
  }

  /** No two entries share a product id. */
  predicate UniqueIds(cart: seq<CartItem>)
  {
    forall i, j :: 0 <= i < j < |cart| ==> cart[i].Id() != cart[j].Id()
  }

  /** Every entry holds at least one unit. */
  predicate PositiveQuantities(cart: seq<CartItem>)
  {
    forall i :: 0 <= i < |cart| ==> cart[i].quantity >= 1
  }

  /** The shape of every cart the storefront builds. */
  predicate WellFormed(cart: seq<CartItem>)
  {
    UniqueIds(cart) && PositiveQuantities(cart)
  }

  /** An id is in a non-empty cart iff it is the head's or in the tail. */
  lemma {:induction false} InCartTail(cart: seq<CartItem>, id: int)
    requires cart != []
    ensures InCart(cart, id) <==> cart[0].Id() == id || InCart(cart[1..], id)
  {
    assert forall i :: 1 <= i < |cart| ==> cart[i] == cart[1..][i - 1];
    if InCart(cart[1..], id) {
      var k :| 0 <= k < |cart| - 1 && cart[1..][k].Id() == id;
      assert cart[k + 1].Id() == id;
    }
  }

  /** One entry after the merge: an entry with the id gains `q` units and
      keeps its product data; any other entry is left as it is. */
  function Bump(item: CartItem, id: int, q: int): CartItem
  {
    if item.Id() == id then item.(quantity := item.quantity + q) else item
  }

  /** The merge step of `addToCart`: every entry bumped, in place. */
  function MergeQuantity(cart: seq<CartItem>, id: int, q: int): (r: seq<CartItem>)
    ensures |r| == |cart|
    ensures forall i :: 0 <= i < |cart| ==> r[i] == Bump(cart[i], id, q)
  {
    if cart == [] then [] else [Bump(cart[0], id, q)] + MergeQuantity(cart[1..], id, q)
  }

  /** The cart `addToCart(p, q)` computes from the previous cart: an entry
      with the same id has its quantity raised by `q`, otherwise a new entry
      holding `q` units of `p` is appended. */
  function AddItem(cart: seq<CartItem>, p: Product, q: int): seq<CartItem>
  {
    if InCart(cart, p.id) then MergeQuantity(cart, p.id, q) else cart + [CartItem(p, q)]
  }

  /** `removeFromCart`: the entries whose id differs, in their order. */
  function RemoveId(cart: seq<CartItem>, id: int): (r: seq<CartItem>)
    ensures forall x :: x in r <==> x in cart && x.Id() != id
    ensures !InCart(r, id)
    ensures |r| <= |cart|
  {
    if cart == [] then []
    else
      assert cart == [cart[0]] + cart[1..];
      var rest := RemoveId(cart[1..], id);
      if cart[0].Id() != id then [cart[0]] + rest else rest
  }

  /** `cartCount`: the sum of the quantities. */
  function Count(cart: seq<CartItem>): int
  {
    if cart == [] then 0 else cart[0].quantity + Count(cart[1..])
  }

  /** `cartTotal`: the sum of unit price times quantity, in cents. */
  function Total(cart: seq<CartItem>): int
  {
    if cart == [] then 0 else cart[0].product.price * cart[0].quantity + Total(cart[1..])
  }

  /** How many units of product `id` the cart holds, over all its entries. */
  function QuantityOf(cart: seq<CartItem>, id: int): int
  {
    if cart == [] then 0
    else (if cart[0].Id() == id then cart[0].quantity else 0) + QuantityOf(cart[1..], id)
  }

  /** How many entries carry product id `id`. */
  function Occurrences(cart: seq<CartItem>, id: int): nat
  {
    if cart == [] then 0
    else (if cart[0].Id() == id then 1 else 0) + Occurrences(cart[1..], id)
  }

  /** Sum of the unit prices of the entries with product id `id`. */
  function PriceOf(cart: seq<CartItem>, id: int): int
  {
    if cart == [] then 0
    else (if cart[0].Id() == id then cart[0].product.price else 0) + PriceOf(cart[1..], id)
  }

  // ---- addToCart ----------------------------------------------------------

  /** Adding an id already in the cart raises only that entry's quantity by
      `q`; its product data are the entry's own, and every other entry is
      unchanged. */
  lemma {:induction false} AddExisting(cart: seq<CartItem>, p: Product, q: int, i: nat)
    requires UniqueIds(cart) && i < |cart| && cart[i].Id() == p.id
    ensures |AddItem(cart, p, q)| == |cart|
    ensures AddItem(cart, p, q)[i] == CartItem(cart[i].product, cart[i].quantity + q)
    ensures forall j :: 0 <= j < |cart| && j != i ==> AddItem(cart, p, q)[j] == cart[j]
  {
    assert InCart(cart, p.id);
  }

  /** Adding a new id appends one entry at the end, keeping the rest in order. */
  lemma {:induction false} AddNew(cart: seq<CartItem>, p: Product, q: int)
    requires !InCart(cart, p.id)
    ensures AddItem(cart, p, q) == cart + [CartItem(p, q)]
  {
  }

  lemma {:induction false} AddKeepsIdsUnique(cart: seq<CartItem>, p: Product, q: int)
    requires UniqueIds(cart)
    ensures UniqueIds(AddItem(cart, p, q))
  {
    var r := AddItem(cart, p, q);
    if InCart(cart, p.id) {
      assert forall i :: 0 <= i < |r| ==> r[i].Id() == cart[i].Id();
    } else {
      assert forall i :: 0 <= i < |cart| ==> r[i] == cart[i];
    }
  }

  lemma {:induction false} AddKeepsQuantitiesPositive(cart: seq<CartItem>, p: Product, q: int)
    requires PositiveQuantities(cart) && q >= 1
    ensures PositiveQuantities(AddItem(cart, p, q))
  {
    var r := AddItem(cart, p, q);
    if !InCart(cart, p.id) {
      assert forall i :: 0 <= i < |cart| ==> r[i] == cart[i];
    }
  }

  /** The cart invariant survives every add of at least one unit. */
  lemma {:induction false} AddKeepsWellFormed(cart: seq<CartItem>, p: Product, q: int)
    requires WellFormed(cart) && q >= 1
    ensures WellFormed(AddItem(cart, p, q))
  {
    AddKeepsIdsUnique(cart, p, q);
    AddKeepsQuantitiesPositive(cart, p, q);
  }

  lemma {:induction false} CountAppend(cart: seq<CartItem>, x: CartItem)
    ensures Count(cart + [x]) == Count(cart) + x.quantity
  {
    if cart != [] {
      assert (cart + [x])[1..] == cart[1..] + [x];
      CountAppend(cart[1..], x);
    }
  }

  lemma {:induction false} TotalAppend(cart: seq<CartItem>, x: CartItem)
    ensures Total(cart + [x]) == Total(cart) + x.product.price * x.quantity
  {
    if cart != [] {
      assert (cart + [x])[1..] == cart[1..] + [x];
      TotalAppend(cart[1..], x);
    }
  }

  lemma {:induction false} CountMerge(cart: seq<CartItem>, id: int, q: int)
    ensures Count(MergeQuantity(cart, id, q)) == Count(cart) + q * Occurrences(cart, id)
  {
    if cart != [] {
      CountMerge(cart[1..], id, q);
      assert MergeQuantity(cart, id, q)[1..] == MergeQuantity(cart[1..], id, q);
    }
  }

  lemma {:induction false} TotalMerge(cart: seq<CartItem>, id: int, q: int)
    ensures Total(MergeQuantity(cart, id, q)) == Total(cart) + q * PriceOf(cart, id)
  {
    if cart != [] {
      TotalMerge(cart[1..], id, q);
      assert MergeQuantity(cart, id, q)[1..] == MergeQuantity(cart[1..], id, q);
      var c := cart[0];
      if c.Id() == id {
        assert c.product.price * (c.quantity + q) == c.product.price * c.quantity + q * c.product.price;
      }
    }
  }

  lemma {:induction false} HeadNotInTail(cart: seq<CartItem>)
    requires UniqueIds(cart) && cart != []
    ensures !InCart(cart[1..], cart[0].Id())
  {
    assert forall k :: 0 <= k < |cart| - 1 ==> cart[1..][k] == cart[k + 1];
  }

  /** With unique ids, the entry at `i` is the only one with its id. */
  lemma {:induction false} SingleOccurrence(cart: seq<CartItem>, i: nat)
    requires UniqueIds(cart) && i < |cart|
    ensures Occurrences(cart, cart[i].Id()) == 1
    ensures PriceOf(cart, cart[i].Id()) == cart[i].product.price
    ensures QuantityOf(cart, cart[i].Id()) == cart[i].quantity
  {
    if i == 0 {
      HeadNotInTail(cart);
      Absent(cart[1..], cart[0].Id());
    } else {
      SingleOccurrence(cart[1..], i - 1);
    }
  }

  lemma {:induction false} Absent(cart: seq<CartItem>, id: int)
    requires !InCart(cart, id)
    ensures Occurrences(cart, id) == 0 && PriceOf(cart, id) == 0 && QuantityOf(cart, id) == 0
  {
    if cart != [] {
      assert cart[0].Id() != id;
      InCartTail(cart, id);
      Absent(cart[1..], id);
    }
  }

  /** A logged-in `addToCart(p, q)` raises `cartCount` by exactly `q`. */
  lemma {:induction false} AddRaisesCount(cart: seq<CartItem>, p: Product, q: int)
    requires UniqueIds(cart)
    ensures Count(AddItem(cart, p, q)) == Count(cart) + q
  {
    if InCart(cart, p.id) {
      var i :| 0 <= i < |cart| && cart[i].Id() == p.id;
      CountMerge(cart, p.id, q);
      SingleOccurrence(cart, i);
    } else {
      CountAppend(cart, CartItem(p, q));
    }
  }

  /** `cartTotal` grows by `q` times the unit price of the entry that
      absorbed the add: the existing entry's price on a merge, the added
      product's price on an append. */
  lemma {:induction false} AddRaisesTotal(cart: seq<CartItem>, p: Product, q: int)
    requires UniqueIds(cart)
    ensures !InCart(cart, p.id) ==> Total(AddItem(cart, p, q)) == Total(cart) + p.price * q
    ensures forall i :: 0 <= i < |cart| && cart[i].Id() == p.id ==>
              Total(AddItem(cart, p, q)) == Total(cart) + cart[i].product.price * q
  {
    if InCart(cart, p.id) {
      var i :| 0 <= i < |cart| && cart[i].Id() == p.id;
      TotalMerge(cart, p.id, q);
      SingleOccurrence(cart, i);
      forall j | 0 <= j < |cart| && cart[j].Id() == p.id
        ensures Total(AddItem(cart, p, q)) == Total(cart) + cart[j].product.price * q
      {
        assert j == i;
      }
    } else {
      TotalAppend(cart, CartItem(p, q));
    }
  }

  /** Repeated adds of one product, in order. */
  function AddAll(cart: seq<CartItem>, p: Product, qs: seq<int>): seq<CartItem>
    decreases |qs|
  {
    if qs == [] then cart else AddAll(AddItem(cart, p, qs[0]), p, qs[1..])
  }

  function Sum(qs: seq<int>): int
  {
    if qs == [] then 0 else qs[0] + Sum(qs[1..])
  }

  lemma {:induction false} AddAllOnLast(cart: seq<CartItem>, p: Product, k: int, qs: seq<int>)
    requires !InCart(cart, p.id)
    ensures AddAll(cart + [CartItem(p, k)], p, qs) == cart + [CartItem(p, k + Sum(qs))]
    decreases |qs|
  {
    if qs != [] {
      AddAllStep(cart, p, k, qs);
      AddAllOnLast(cart, p, k + qs[0], qs[1..]);
    }
  }

  lemma {:induction false} AddAllStep(cart: seq<CartItem>, p: Product, k: int, qs: seq<int>)
    requires !InCart(cart, p.id) && qs != []
    ensures AddAll(cart + [CartItem(p, k)], p, qs) == AddAll(cart + [CartItem(p, k + qs[0])], p, qs[1..])
  {
    MergeOnLast(cart, p, k, qs[0]);
  }

  /** Adding to a product that sits only in the last entry bumps that entry. */
  lemma {:induction false} MergeOnLast(cart: seq<CartItem>, p: Product, k: int, q: int)
    requires !InCart(cart, p.id)
    ensures AddItem(cart + [CartItem(p, k)], p, q) == cart + [CartItem(p, k + q)]
  {
    var c := cart + [CartItem(p, k)];
    assert c[|cart|].Id() == p.id;
    assert InCart(c, p.id);
    var m := MergeQuantity(c, p.id, q);
    assert AddItem(c, p, q) == m;
    forall i | 0 <= i < |cart| ensures m[i] == cart[i] {
      assert c[i] == cart[i];
      assert cart[i].Id() != p.id;
    }
    assert m[|cart|] == CartItem(p, k + q);
    assert m == cart + [CartItem(p, k + q)];
  }

  /** A run of adds of one product that was not yet in the cart yields
      exactly one new entry, at the end, whose quantity is the sum of the
      requested quantities. */
  lemma {:induction false} RepeatedAddsMerge(cart: seq<CartItem>, p: Product, qs: seq<int>)
    requires !InCart(cart, p.id) && qs != []
    ensures AddAll(cart, p, qs) == cart + [CartItem(p, Sum(qs))]
  {
    AddNew(cart, p, qs[0]);
    assert AddAll(cart, p, qs) == AddAll(cart + [CartItem(p, qs[0])], p, qs[1..]);
    AddAllOnLast(cart, p, qs[0], qs[1..]);
  }

  // ---- removeFromCart -----------------------------------------------------

  lemma {:induction false} RemoveIsSubsequence(cart: seq<CartItem>, id: int)
    ensures IsSubsequence(RemoveId(cart, id), cart)
  {
    if cart != [] {
      RemoveIsSubsequence(cart[1..], id);
      if cart[0].Id() == id {
        SkipHead(RemoveId(cart[1..], id), cart);
      }
    }
  }

  /** Removing an id that is not in the cart leaves the cart as it was. */
  lemma {:induction false} RemoveAbsent(cart: seq<CartItem>, id: int)
    requires !InCart(cart, id)
    ensures RemoveId(cart, id) == cart
  {
    if cart != [] {
      assert cart[0].Id() != id;
      InCartTail(cart, id);
      RemoveAbsent(cart[1..], id);
    }
  }

  /** With unique ids, removing the id of entry `i` deletes exactly that
      entry and keeps the others in order. */
  lemma {:induction false} RemoveUnique(cart: seq<CartItem>, i: nat)
    requires UniqueIds(cart) && i < |cart|
    ensures RemoveId(cart, cart[i].Id()) == cart[..i] + cart[i + 1..]
  {
    var id := cart[i].Id();
    if i == 0 {
      HeadNotInTail(cart);
      RemoveAbsent(cart[1..], id);
    } else {
      RemoveUnique(cart[1..], i - 1);
      assert cart[1..][i - 1] == cart[i];
      assert cart[..i] + cart[i + 1..] == [cart[0]] + (cart[1..][..i - 1] + cart[1..][i..]);
    }
  }

  lemma {:induction false} RemoveKeepsIdsUnique(cart: seq<CartItem>, id: int)
    requires UniqueIds(cart)
    ensures UniqueIds(RemoveId(cart, id))
  {
    if cart != [] {
      var t := cart[1..];
      assert UniqueIds(t) by {
        assert forall i :: 0 <= i < |t| ==> t[i] == cart[i + 1];
      }
      RemoveKeepsIdsUnique(t, id);
      if cart[0].Id() != id {
        var rest := RemoveId(t, id);
        HeadNotInTail(cart);
        ConsUnique(cart[0], rest, t);
      }
    }
  }

  /** Putting an entry whose id the tail lacks in front keeps ids unique. */
  lemma ConsUnique(x: CartItem, rest: seq<CartItem>, t: seq<CartItem>)
    requires UniqueIds(rest) && !InCart(t, x.Id())
    requires forall y :: y in rest ==> y in t
    ensures UniqueIds([x] + rest)
  {
    var r := [x] + rest;
    forall a, b | 0 <= a < b < |r| ensures r[a].Id() != r[b].Id() {
      assert r[b] == rest[b - 1];
      if a == 0 {
        assert r[b] in t;
      } else {
        assert r[a] == rest[a - 1];
      }
    }
  }

  lemma RemoveKeepsQuantitiesPositive(cart: seq<CartItem>, id: int)
    requires PositiveQuantities(cart)
    ensures PositiveQuantities(RemoveId(cart, id))
  {
    var r := RemoveId(cart, id);
    forall i | 0 <= i < |r| ensures r[i].quantity >= 1 {
      assert r[i] in cart;
    }
  }

  /** The cart invariant survives every removal. */
  lemma RemoveKeepsWellFormed(cart: seq<CartItem>, id: int)
    requires WellFormed(cart)
    ensures WellFormed(RemoveId(cart, id))
  {
    RemoveKeepsIdsUnique(cart, id);
    RemoveKeepsQuantitiesPositive(cart, id);
  }

  /** `cartCount` drops by the removed entries' units. */
  lemma {:induction false} RemoveLowersCount(cart: seq<CartItem>, id: int)
    ensures Count(RemoveId(cart, id)) == Count(cart) - QuantityOf(cart, id)
  {
    if cart != [] {
      RemoveLowersCount(cart[1..], id);
    }
  }
}
