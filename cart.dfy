/** js/cart.js: the full cart page. It keeps no cart in memory: every action
    loads the cart from `localStorage`, edits it, and saves it back. */
module Cart {
  import opened Basics
  import opened Storage
  import opened CartLines

  const CartKey: string := "grimhide_cart_v1"

  /** `loadCart()`: the stored array, or `[]` when the key is missing, when the
      parsed value is not an array, or when parsing throws. */
  function LoadCart(storage: map<string, StoredText<Line>>): (r: seq<Line>)
    ensures r == [] || (CartKey in storage && storage[CartKey] == Stringify(r))
  {
    match ParseOrEmptyArray(GetItem(storage, CartKey))
    case Some(JArray(items)) => items
    case _ => []
  }

  /** `saveCart(cart)`. */
  function SaveCart(storage: map<string, StoredText<Line>>, cart: seq<Line>): (s: map<string, StoredText<Line>>)
    ensures CartKey in s && s[CartKey] == Stringify(cart)
    ensures s.Keys == storage.Keys + {CartKey}
    ensures forall k :: k in storage && k != CartKey ==> s[k] == storage[k]
  {
    storage[CartKey := Stringify(cart)]
  }

  /** Loading never fails: each bad stored value reads as the empty cart. */
  lemma LoadCartFailsSafe(storage: map<string, StoredText<Line>>)
    ensures CartKey !in storage ==> LoadCart(storage) == []
    ensures CartKey in storage && storage[CartKey] in {Malformed, Blank} ==> LoadCart(storage) == []
    ensures CartKey in storage && storage[CartKey].Parses? && storage[CartKey].value.JNonArray? ==> LoadCart(storage) == []
    ensures CartKey in storage && storage[CartKey].Parses? && storage[CartKey].value.JArray? ==>
              LoadCart(storage) == storage[CartKey].value.items
  {
  }

  /** `saveCart` followed by `loadCart` gives back the same array, whatever the
      storage held before. */
  lemma SaveThenLoad(storage: map<string, StoredText<Line>>, cart: seq<Line>)
    ensures LoadCart(SaveCart(storage, cart)) == cart
  {
  }

  /** Persisting what was loaded and loading again yields the same lines. */
  lemma LoadSaveLoad(storage: map<string, StoredText<Line>>)
    ensures LoadCart(SaveCart(storage, LoadCart(storage))) == LoadCart(storage)
  {
    SaveThenLoad(storage, LoadCart(storage));
  }

  /** What `updateQuantity(id, change)` leaves in storage, as a cart: the first
      line with that id takes `qty + change`, or, when that is zero or less,
      every line with that id is filtered out (the removal path reloads the
      stored cart and filters it). An unknown id changes nothing. */
  function Adjusted(cart: seq<Line>, id: string, change: int): seq<Line> {
    var i := FindIndex(cart, Id, id);
    if i < 0 then cart
    else if cart[i].qty + change <= 0 then RemoveId(cart, id)
    else cart[i := cart[i].(qty := cart[i].qty + change)]
  }

  /** The removal rule: no edit ever stores a quantity at or below zero, and ids
      stay unique. */
  lemma AdjustedKeepsInvariants(cart: seq<Line>, id: string, change: int)
    ensures QtyPositive(cart) ==> QtyPositive(Adjusted(cart, id, change))
    ensures IdsUnique(cart) ==> IdsUnique(Adjusted(cart, id, change))
  {
    var i := FindIndex(cart, Id, id);
    if i >= 0 {
      if cart[i].qty + change <= 0 {
        RemoveIdFacts(cart, id);
      } else if IdsUnique(cart) {
        UniqueAfterUpdate(cart, i, cart[i].(qty := cart[i].qty + change), Id);
      }
    }
  }

  /** With the id present, the line's quantity becomes `old + change` (its
      other fields and the other lines unchanged, count moved by `change`), or,
      when that is zero or less, the id is filtered out and, with unique ids,
      exactly that line leaves and the rest keep their order; with the id
      absent, nothing changes. */
  lemma AdjustedEffect(cart: seq<Line>, id: string, change: int, i: int)
    requires i == FindIndex(cart, Id, id)
    ensures i < 0 ==> Adjusted(cart, id, change) == cart
    ensures i >= 0 && cart[i].qty + change > 0 ==>
              var r := Adjusted(cart, id, change);
              && |r| == |cart| && r[i] == cart[i].(qty := cart[i].qty + change)
              && (forall j :: 0 <= j < |cart| && j != i ==> r[j] == cart[j])
              && ItemCount(r) == ItemCount(cart) + change
    ensures i >= 0 && cart[i].qty + change <= 0 ==>
              var r := Adjusted(cart, id, change);
              && r == RemoveId(cart, id) && !HasKey(r, Id, id)
              && (IdsUnique(cart) ==> r == cart[..i] + cart[i + 1..] && ItemCount(r) == ItemCount(cart) - cart[i].qty)
  {
    if i >= 0 {
      if cart[i].qty + change <= 0 {
        assert Adjusted(cart, id, change) == RemoveId(cart, id);
        RemoveIdFacts(cart, id);
      } else {
        var x := cart[i].(qty := cart[i].qty + change);
        assert Adjusted(cart, id, change) == cart[i := x];
        SumUpdate(cart, i, x, Qty);
      }
    }
  }

  /** The 8% tax on a subtotal, in cents. */
  function Tax(subtotal: int): (t: real)
    ensures subtotal >= 0 ==> t >= 0.0
    ensures t * 25.0 == (subtotal as real) * 2.0
  {
    (subtotal as real) * 0.08
  }

  /** Subtotal plus tax; there is no shipping charge. */
  function Total(subtotal: int): (t: real)
    ensures t == (subtotal as real) + Tax(subtotal)
    ensures t * 25.0 == (subtotal as real) * 27.0
  {
    (subtotal as real) + Tax(subtotal)
  }

  /** The order summary for an empty cart shows zero everywhere. */
  lemma EmptySummary()
    ensures ItemCount([]) == 0 && Subtotal([]) == 0 && Tax(0) == 0.0 && Total(0) == 0.0
  {
  }

  class CartPage {
    var storage: map<string, StoredText<Line>>

    constructor (stored: map<string, StoredText<Line>>)
      ensures storage == stored
    {
      storage := stored;
    }

    method Save(cart: seq<Line>)
      modifies this
      ensures storage == SaveCart(old(storage), cart)
    {
      storage := storage[CartKey := Stringify(cart)];
    }

    /** `removeFromCart(id)`: load, filter out the id, save. */
    method RemoveFromCart(id: string)
      modifies this
      ensures storage == SaveCart(old(storage), RemoveId(LoadCart(old(storage)), id))
      ensures LoadCart(storage) == RemoveId(LoadCart(old(storage)), id)
    {
      var cart := LoadCart(storage);
      cart := RemoveId(cart, id);
      Save(cart);
    }

    /** `updateQuantity(id, change)`. The edited item is not saved on the removal
        path: `removeFromCart` reloads the stored cart and filters it. */
    method UpdateQuantity(id: string, change: int)
      modifies this
      ensures FindIndex(LoadCart(old(storage)), Id, id) < 0 ==> storage == old(storage)
      ensures FindIndex(LoadCart(old(storage)), Id, id) >= 0 ==>
                storage == SaveCart(old(storage), Adjusted(LoadCart(old(storage)), id, change))
      ensures LoadCart(storage) == Adjusted(LoadCart(old(storage)), id, change)
    {
      var cart := LoadCart(storage);
      var i := FindIndex(cart, Id, id);
      if i >= 0 {
        var item := cart[i].(qty := cart[i].qty + change);
        cart := cart[i := item];
        if item.qty <= 0 {
          RemoveFromCart(id);
          return;
        }
        Save(cart);
      }
    }

    /** The figures `renderCartItems` shows: item count, subtotal, tax and
        total (cents). An empty cart shows zero for all four. */
    method Summary() returns (itemCount: int, subtotal: int, tax: real, total: real)
      ensures itemCount == ItemCount(LoadCart(storage))
      ensures subtotal == Subtotal(LoadCart(storage))
      ensures tax == Tax(subtotal) && total == Total(subtotal)
    {
      var cart := LoadCart(storage);
      itemCount := ItemCount(cart);
      if |cart| == 0 {
        return 0, 0, 0.0, 0.0;
      }
      subtotal := 0;
      var i := 0;
      while i < |cart|
        invariant 0 <= i <= |cart|
        invariant subtotal == Subtotal(cart[..i])
      {
        SumSnoc(cart[..i], cart[i], LineTotal);
        assert cart[..i + 1] == cart[..i] + [cart[i]];
        subtotal := subtotal + cart[i].price * cart[i].qty;
        i := i + 1;
      }
      assert cart[..i] == cart;
      tax := (subtotal as real) * 0.08;
      total := (subtotal as real) + tax;
    }

    /** The checkout button proceeds only when the stored cart is non-empty. */
    method Checkout() returns (proceed: bool)
      ensures proceed <==> LoadCart(storage) != []
    {
      var cart := LoadCart(storage);
      proceed := |cart| > 0;
    }
  }
}
