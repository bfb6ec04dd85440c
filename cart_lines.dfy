/** The cart line stored under `grimhide_cart_v1`, the shape main.js,
    products.js and cart.js all read and write: `{id, name, price, img, qty}`,
    with `price` in integer cents. Also the edits main.js and products.js make
    in the same way. */
module CartLines {
  import opened Basics
  import opened Storage

  datatype Line = Line(id: string, name: string, price: int, img: string, qty: int)

  function Id(l: Line): string { l.id }
  function Qty(l: Line): int { l.qty }
  function LineTotal(l: Line): int { l.price * l.qty }

  /** `cart.reduce((s, i) => s + i.qty, 0)`. */
  function ItemCount(cart: seq<Line>): int { SumOf(cart, Qty) }

  /** The sum of `price * qty` over the lines. */
  function Subtotal(cart: seq<Line>): int { SumOf(cart, LineTotal) }

  predicate QtyPositive(cart: seq<Line>) { AllAtLeast(cart, Qty, 1) }

  predicate IdsUnique(cart: seq<Line>) { UniqueKeys(cart, Id) }

  /** The add-button edit: bump the first line with this id by one, or append
      `{id, name, price, img, qty: 1}`. */
  function AddOne(cart: seq<Line>, id: string, name: string, price: int, img: string): seq<Line> {
    var i := FindIndex(cart, Id, id);
    if i >= 0 then cart[i := cart[i].(qty := cart[i].qty + 1)]
    else cart + [Line(id, name, price, img, 1)]
  }

  /** `item.qty++` on one rendered line. */
  function IncAt(cart: seq<Line>, i: nat): seq<Line>
    requires i < |cart|
  {
    cart[i := cart[i].(qty := cart[i].qty + 1)]
  }

  /** `item.qty = Math.max(1, item.qty - 1)`: the clamp rule, never removing. */
  function DecAt(cart: seq<Line>, i: nat): seq<Line>
    requires i < |cart|
  {
    cart[i := cart[i].(qty := Max(1, cart[i].qty - 1))]
  }

  /** `cart.filter(item => item.id !== id)`. */
  function RemoveId(cart: seq<Line>, id: string): seq<Line> {
    WithoutKey(cart, Id, id)
  }

  /** `cart = JSON.parse(localStorage.getItem(CART_KEY) || '[]')` at page
      start-up, as main.js and products.js write it: `None` when the page
      script fails (parsing throws, or the value is not an array and the first
      `cart.reduce` throws). */
  function StartupCart(stored: Option<StoredText<Line>>): (r: Option<seq<Line>>)
    ensures stored.None? ==> r == Some([])
    ensures stored == Some(Blank) ==> r == Some([])
    ensures stored == Some(Malformed) ==> r.None?
    ensures forall c :: stored == Some(Stringify(c)) ==> r == Some(c)
    ensures forall t :: stored == Some(Parses(JNonArray(t))) ==> r.None?
    ensures r.Some? && r.value != [] ==> stored == Some(Stringify(r.value))
  {
    match ParseOrEmptyArray(stored)
    case Some(JArray(items)) => Some(items)
    case _ => None
  }

  // ---------------------------------------------------------------------------

  /** Adding touches one line: the existing line with that id gains exactly one
      unit and keeps its price and name, or one new line is appended; every
      other line stays where and as it was. */
  lemma AddOneShape(cart: seq<Line>, id: string, name: string, price: int, img: string)
    ensures var r := AddOne(cart, id, name, price, img);
            var i := FindIndex(cart, Id, id);
            && (i >= 0 ==> |r| == |cart| && r[i] == cart[i].(qty := cart[i].qty + 1)
                           && forall j :: 0 <= j < |cart| && j != i ==> r[j] == cart[j])
            && (i < 0 ==> r == cart + [Line(id, name, price, img, 1)])
  {
  }

  /** Adding raises the item count by one and the subtotal by the unit price of
      the line that received the unit. */
  lemma AddOneSums(cart: seq<Line>, id: string, name: string, price: int, img: string)
    ensures var r := AddOne(cart, id, name, price, img);
            var i := FindIndex(cart, Id, id);
            && ItemCount(r) == ItemCount(cart) + 1
            && Subtotal(r) == Subtotal(cart) + (if i >= 0 then cart[i].price else price)
  {
    var i := FindIndex(cart, Id, id);
    if i >= 0 {
      var x := cart[i].(qty := cart[i].qty + 1);
      SumUpdate(cart, i, x, Qty);
      SumUpdate(cart, i, x, LineTotal);
    } else {
      var x := Line(id, name, price, img, 1);
      SumSnoc(cart, x, Qty);
      SumSnoc(cart, x, LineTotal);
    }
  }

  /** Adding keeps ids unique and quantities at least one, and afterwards a line
      with that id exists. */
  lemma AddOneKeepsInvariants(cart: seq<Line>, id: string, name: string, price: int, img: string)
    ensures var r := AddOne(cart, id, name, price, img);
            && HasKey(r, Id, id)
            && (IdsUnique(cart) ==> IdsUnique(r))
            && (QtyPositive(cart) ==> QtyPositive(r))
  {
    var r := AddOne(cart, id, name, price, img);
    var i := FindIndex(cart, Id, id);
    if i >= 0 {
      assert Id(r[i]) == id;
      if IdsUnique(cart) {
        UniqueAfterUpdate(cart, i, cart[i].(qty := cart[i].qty + 1), Id);
      }
    } else {
      assert Id(r[|cart|]) == id;
      if IdsUnique(cart) {
        UniqueAfterAppend(cart, Line(id, name, price, img, 1), Id);
      }
    }
  }

  /** The clamp rule: decrementing never removes a line and leaves its quantity
      at least one; the count drops by one unless the line was already at one. */
  lemma DecAtClamps(cart: seq<Line>, i: nat)
    requires i < |cart|
    ensures var r := DecAt(cart, i);
            && |r| == |cart| && r[i] == cart[i].(qty := Max(1, cart[i].qty - 1)) && r[i].qty >= 1
            && (forall j :: 0 <= j < |cart| && j != i ==> r[j] == cart[j])
            && (QtyPositive(cart) ==> QtyPositive(r))
            && (IdsUnique(cart) ==> IdsUnique(r))
            && (QtyPositive(cart) ==> ItemCount(r) == ItemCount(cart) - (if cart[i].qty > 1 then 1 else 0))
  {
    var x := cart[i].(qty := Max(1, cart[i].qty - 1));
    SumUpdate(cart, i, x, Qty);
    if IdsUnique(cart) {
      UniqueAfterUpdate(cart, i, x, Id);
    }
  }

  /** Incrementing adds one unit to that line only. */
  lemma IncAtSums(cart: seq<Line>, i: nat)
    requires i < |cart|
    ensures var r := IncAt(cart, i);
            && |r| == |cart| && r[i] == cart[i].(qty := cart[i].qty + 1)
            && (forall j :: 0 <= j < |cart| && j != i ==> r[j] == cart[j])
            && ItemCount(r) == ItemCount(cart) + 1
            && Subtotal(r) == Subtotal(cart) + cart[i].price
            && (QtyPositive(cart) ==> QtyPositive(r))
            && (IdsUnique(cart) ==> IdsUnique(r))
  {
    var x := cart[i].(qty := cart[i].qty + 1);
    SumUpdate(cart, i, x, Qty);
    SumUpdate(cart, i, x, LineTotal);
    if IdsUnique(cart) {
      UniqueAfterUpdate(cart, i, x, Id);
    }
  }

  /** Removing by id leaves no line with that id, and keeps the invariants; with
      unique ids it takes out exactly the one line, and its units and value leave
      the sums. */
  lemma RemoveIdFacts(cart: seq<Line>, id: string)
    ensures var r := RemoveId(cart, id);
            && !HasKey(r, Id, id)
            && (QtyPositive(cart) ==> QtyPositive(r))
            && (IdsUnique(cart) ==> IdsUnique(r))
            && (!HasKey(cart, Id, id) ==> r == cart)
            && (IdsUnique(cart) && HasKey(cart, Id, id) ==>
                  var i := FindIndex(cart, Id, id);
                  && r == cart[..i] + cart[i + 1..]
                  && ItemCount(r) == ItemCount(cart) - cart[i].qty
                  && Subtotal(r) == Subtotal(cart) - cart[i].price * cart[i].qty)
  {
    var r := RemoveId(cart, id);
    WithoutKeyMembers(cart, Id, id);
    if QtyPositive(cart) {
      forall j | 0 <= j < |r| ensures Qty(r[j]) >= 1 {
        assert r[j] in cart;
      }
    }
    if IdsUnique(cart) {
      WithoutKeyUnique(cart, Id, id);
    }
    if !HasKey(cart, Id, id) {
      WithoutAbsentKey(cart, Id, id);
    }
    if IdsUnique(cart) && HasKey(cart, Id, id) {
      var i := FindIndex(cart, Id, id);
      WithoutUniqueKey(cart, Id, id);
      SumRemoveAt(cart, i, Qty);
      SumRemoveAt(cart, i, LineTotal);
    }
  }
}
