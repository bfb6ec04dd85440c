/** js/products.js: the product listing page — category chips, live search,
    price/name sort, and its own copy of the cart drawer. */
module Products {
  import opened Basics
  import opened Text
  import opened Sorting
  import opened Storage
  import opened CartLines
  import Cart

  const CartKey: string := "grimhide_cart_v1"

  /** A product card as the handlers read it: `data-name`, `data-cat`, and the
      price as `parseInt(data-price) || 0` (whole currency units). */
  datatype Card = Card(name: string, cat: string, price: int)

  // ---------------------------------------------------------------------------
  // Category chips and search

  /** A chip click: each card is shown iff the chip is 'all' or names the card's
      category. */
  method FilterByCategory(cards: seq<Card>, category: string) returns (shown: seq<bool>)
    ensures |shown| == |cards|
    ensures forall i :: 0 <= i < |cards| ==> (shown[i] <==> category == "all" || cards[i].cat == category)
  {
    shown := [];
    var i := 0;
    while i < |cards|
      invariant 0 <= i <= |cards|
      invariant |shown| == i
      invariant forall k :: 0 <= k < i ==> (shown[k] <==> category == "all" || cards[k].cat == category)
    {
      shown := shown + [category == "all" || cards[i].cat == category];
      i := i + 1;
    }
  }

  /** Search input: each card is shown iff its lower-cased name contains the
      lower-cased term. The active chip is ignored. */
  method Search(cards: seq<Card>, term: string) returns (shown: seq<bool>)
    ensures |shown| == |cards|
    ensures forall i :: 0 <= i < |cards| ==> (shown[i] <==> exists k :: Occurs(Lower(cards[i].name), Lower(term), k))
  {
    var searchTerm := Lower(term);
    shown := [];
    var i := 0;
    while i < |cards|
      invariant 0 <= i <= |cards|
      invariant |shown| == i
      invariant forall k :: 0 <= k < i ==> (shown[k] <==> Includes(Lower(cards[k].name), searchTerm))
    {
      shown := shown + [Includes(Lower(cards[i].name), searchTerm)];
      i := i + 1;
    }
    forall k | 0 <= k < |cards| ensures shown[k] <==> exists j :: Occurs(Lower(cards[k].name), Lower(term), j) {
      IncludesIff(Lower(cards[k].name), searchTerm);
    }
  }

  /** The empty search term shows every card. */
  lemma EmptySearchShowsAll(name: string)
    ensures Includes(Lower(name), Lower(""))
  {
    assert Lower("") == "";
    EmptyAtFront(Lower(name));
  }

  // ---------------------------------------------------------------------------
  // Sort

  /** The comparator for `sortBy`: 0 for any unknown value. */
  function Comparator(sortBy: string, a: Card, b: Card): int {
    if sortBy == "lh" then a.price - b.price
    else if sortBy == "hl" then b.price - a.price
    else if sortBy == "az" then Compare(Lower(a.name), Lower(b.name))
    else if sortBy == "za" then Compare(Lower(b.name), Lower(a.name))
    else 0
  }

  function Before(sortBy: string): (Card, Card) -> bool {
    (a: Card, b: Card) => Comparator(sortBy, a, b) <= 0
  }

  lemma BeforeIsPreorder(sortBy: string)
    ensures Total(Before(sortBy)) && Transitive(Before(sortBy))
  {
    if sortBy == "az" || sortBy == "za" {
      forall a: Card, b: Card ensures Before(sortBy)(a, b) || Before(sortBy)(b, a) {
        CompareFlip(Lower(a.name), Lower(b.name));
      }
      forall a: Card, b: Card, c: Card | Before(sortBy)(a, b) && Before(sortBy)(b, c)
        ensures Before(sortBy)(a, c)
      {
        if sortBy == "az" {
          CompareTrans(Lower(a.name), Lower(b.name), Lower(c.name));
        } else {
          CompareTrans(Lower(c.name), Lower(b.name), Lower(a.name));
        }
      }
    }
  }

  predicate KnownSort(sortBy: string) {
    sortBy in {"lh", "hl", "az", "za"}
  }

  /** The sort-select handler: `Array.from(cards)` (always document order) is
      sorted in place; the result is the order the grid is rebuilt in. */
  method SortCards(cards: seq<Card>, sortBy: string) returns (order: seq<Card>)
    ensures order == Sort(cards, Before(sortBy))
    ensures multiset(order) == multiset(cards)
    ensures Sorted(order, Before(sortBy))
    ensures sortBy == "lh" ==> forall i, j :: 0 <= i < j < |order| ==> order[i].price <= order[j].price
    ensures sortBy == "hl" ==> forall i, j :: 0 <= i < j < |order| ==> order[i].price >= order[j].price
    ensures !KnownSort(sortBy) ==> order == cards
  {
    var a := new Card[|cards|](i requires 0 <= i < |cards| => cards[i]);
    assert a[..] == cards;
    SortInPlace(a, Before(sortBy));
    order := a[..];
    BeforeIsPreorder(sortBy);
    SortSorted(cards, Before(sortBy));
    if !KnownSort(sortBy) {
      SortAllTied(cards, Before(sortBy));
    }
    forall i, j | 0 <= i < j < |order| ensures Comparator(sortBy, order[i], order[j]) <= 0 {
      assert Before(sortBy)(order[i], order[j]);
    }
  }

  // ---------------------------------------------------------------------------
  // Cart edits by id

  /** The '+' button: `cart.find(item => item.id === id)`, then `qty += 1`. */
  function IncId(cart: seq<Line>, id: string): seq<Line> {
    var i := FindIndex(cart, Id, id);
    if i < 0 then cart else IncAt(cart, i)
  }

  /** The '−' button: `qty = Math.max(1, qty - 1)` on the first line with the id. */
  function DecId(cart: seq<Line>, id: string): seq<Line> {
    var i := FindIndex(cart, Id, id);
    if i < 0 then cart else DecAt(cart, i)
  }

  /** The '+' button, with `i` the first index of the id (or -1): an unknown
      id changes nothing; otherwise that line gains one unit, keeping its id,
      name, price and image, and no other line changes. */
  lemma IncIdFacts(cart: seq<Line>, id: string, i: int)
    requires i == FindIndex(cart, Id, id)
    ensures i < 0 ==> IncId(cart, id) == cart
    ensures |IncId(cart, id)| == |cart|
    ensures forall j :: 0 <= j < |cart| && j != i ==> IncId(cart, id)[j] == cart[j]
    ensures i >= 0 ==>
              && IncId(cart, id)[i] == cart[i].(qty := cart[i].qty + 1)
              && ItemCount(IncId(cart, id)) == ItemCount(cart) + 1
              && Subtotal(IncId(cart, id)) == Subtotal(cart) + cart[i].price
    ensures QtyPositive(cart) ==> QtyPositive(IncId(cart, id))
    ensures IdsUnique(cart) ==> IdsUnique(IncId(cart, id))
  {
    if i >= 0 {
      assert IncId(cart, id) == IncAt(cart, i);
      IncAtSums(cart, i);
    }
  }

  /** The '−' button, with `i` the first index of the id (or -1): an unknown
      id changes nothing; otherwise that line takes `max(1, qty - 1)`, keeping
      its other fields, is never removed, and no other line changes. */
  lemma DecIdFacts(cart: seq<Line>, id: string, i: int)
    requires i == FindIndex(cart, Id, id)
    ensures i < 0 ==> DecId(cart, id) == cart
    ensures |DecId(cart, id)| == |cart|
    ensures forall j :: 0 <= j < |cart| && j != i ==> DecId(cart, id)[j] == cart[j]
    ensures i >= 0 ==>
              && DecId(cart, id)[i] == cart[i].(qty := Max(1, cart[i].qty - 1))
              && (QtyPositive(cart) ==>
                    ItemCount(DecId(cart, id)) == ItemCount(cart) - (if cart[i].qty > 1 then 1 else 0))
    ensures QtyPositive(cart) ==> QtyPositive(DecId(cart, id))
    ensures IdsUnique(cart) ==> IdsUnique(DecId(cart, id))
  {
    if i >= 0 {
      assert DecId(cart, id) == DecAt(cart, i);
      DecAtClamps(cart, i);
    }
  }

  class ProductsPage {
    var cart: seq<Line>
    var storage: map<string, StoredText<Line>>

    /** The cart page would load exactly the in-memory cart. */
    ghost predicate Agrees()
      reads this
    {
      Cart.LoadCart(storage) == cart
    }

    /** Start-up: load the cart (products.js:135); nothing is saved yet. */
    constructor (stored: map<string, StoredText<Line>>)
      requires StartupCart(GetItem(stored, CartKey)).Some?
      ensures cart == StartupCart(GetItem(stored, CartKey)).value
      ensures storage == stored
      ensures Agrees()
    {
      cart := StartupCart(GetItem(stored, CartKey)).value;
      storage := stored;
    }

    /** `saveCart()`: persist (the count and drawer redraw are not modelled). */
    method SaveCart()
      modifies this
      ensures cart == old(cart)
      ensures storage == old(storage)[CartKey := Stringify(cart)]
      ensures Agrees()
    {
      storage := storage[CartKey := Stringify(cart)];
    }

    /** An add button on a card. */
    method AddToCart(id: string, name: string, price: int, img: string)
      modifies this
      ensures cart == AddOne(old(cart), id, name, price, img)
      ensures storage == old(storage)[CartKey := Stringify(cart)]
      ensures Agrees()
    {
      var i := FindIndex(cart, Id, id);
      if i >= 0 {
        cart := cart[i := cart[i].(qty := cart[i].qty + 1)];
      } else {
        cart := cart + [Line(id, name, price, img, 1)];
      }
      SaveCart();
    }

    /** The drawer's 'Remove' button: filter out the id and save. */
    method Remove(id: string)
      modifies this
      ensures cart == RemoveId(old(cart), id)
      ensures storage == old(storage)[CartKey := Stringify(cart)]
      ensures Agrees()
    {
      cart := RemoveId(cart, id);
      SaveCart();
    }

    /** The drawer's '+' button; an unknown id neither edits nor saves. */
    method Increment(id: string)
      modifies this
      ensures cart == IncId(old(cart), id)
      ensures HasKey(old(cart), Id, id) ==> storage == old(storage)[CartKey := Stringify(cart)]
      ensures !HasKey(old(cart), Id, id) ==> storage == old(storage)
    {
      var i := FindIndex(cart, Id, id);
      if i >= 0 {
        cart := cart[i := cart[i].(qty := cart[i].qty + 1)];
        SaveCart();
      }
    }

    /** The drawer's '−' button; an unknown id neither edits nor saves. */
    method Decrement(id: string)
      modifies this
      ensures cart == DecId(old(cart), id)
      ensures HasKey(old(cart), Id, id) ==> storage == old(storage)[CartKey := Stringify(cart)]
      ensures !HasKey(old(cart), Id, id) ==> storage == old(storage)
    {
      var i := FindIndex(cart, Id, id);
      if i >= 0 {
        cart := cart[i := cart[i].(qty := Max(1, cart[i].qty - 1))];
        SaveCart();
      }
    }

    /** `updateCartCount()` and the drawer subtotal of `updateCartUI()`. */
    method CartTotals() returns (count: int, subtotal: int)
      ensures count == ItemCount(cart)
      ensures subtotal == Subtotal(cart)
    {
      count := ItemCount(cart);
      subtotal := 0;
      if |cart| == 0 {
        return;
      }
      var i := 0;
      while i < |cart|
        invariant 0 <= i <= |cart|
        invariant subtotal == Subtotal(cart[..i])
      {
        SumSnoc(cart[..i], cart[i], LineTotal);
        assert cart[..i + 1] == cart[..i] + [cart[i]];
        subtotal := subtotal + cart[i].price * cart[i].qty;
        i := i + 1;
      }
      assert cart[..i] == cart;
    }
  }
}
