/** js/product-detail.js: the single-product page. It keeps its own cart, under
    its own key `grimhide_cart` and in its own line shape, with one line per
    (product, colour, size) variant. */
module ProductDetail {
  import opened Basics
  import opened Text
  import opened Storage

  const DetailKey: string := "grimhide_cart"

  /** The fields of a catalogue entry the cart reads; `basePrice` in cents. The
      catalogue itself is a parameter. */
  datatype Product = Product(name: string, basePrice: int, image: string)

  datatype Item = Item(cartItemID: string, productId: string, name: string, price: int,
                       image: string, color: string, size: string, quantity: int)

  function ItemID(it: Item): string { it.cartItemID }
  function Quantity(it: Item): int { it.quantity }
  function ItemTotal(it: Item): int { it.price * it.quantity }

  /** The header badge: `cart.reduce((sum, item) => sum + item.quantity, 0)`. */
  function CartCount(cart: seq<Item>): int { SumOf(cart, Quantity) }

  /** The drawer total: the sum of `price * quantity`. */
  function CartTotal(cart: seq<Item>): int { SumOf(cart, ItemTotal) }

  // ---------------------------------------------------------------------------
  // Variant key and selection

  /** `generateCartItemID`: `${productId}-${color}-${size}`. */
  function CartItemID(productId: string, color: string, size: string): string {
    productId + "-" + color + "-" + size
  }

  /** The variant key tells variants apart as long as product ids and colour
      names hold no dash (true of every id and colour in the catalogue). */
  lemma CartItemIDInjective(p1: string, c1: string, s1: string, p2: string, c2: string, s2: string)
    requires '-' !in p1 && '-' !in c1 && '-' !in p2 && '-' !in c2
    requires CartItemID(p1, c1, s1) == CartItemID(p2, c2, s2)
    ensures p1 == p2 && c1 == c2 && s1 == s2
  {
    var id := CartItemID(p1, c1, s1);
    assert id == p1 + "-" + (c1 + "-" + s1) == p2 + "-" + (c2 + "-" + s2);
    BeforeFirstStops(p1, '-', c1 + "-" + s1);
    BeforeFirstStops(p2, '-', c2 + "-" + s2);
    var tail := id[|p1| + 1..];
    assert tail == c1 + "-" + s1 == c2 + "-" + s2;
    BeforeFirstStops(c1, '-', s1);
    BeforeFirstStops(c2, '-', s2);
    assert s1 == tail[|c1| + 1..] == s2;
  }

  /** `document.querySelector(...:checked)?.value || fallback`: no checked
      input, or an empty value, gives the fallback. */
  function Selected(checked: Option<string>, fallback: string): (r: string)
    ensures checked.None? ==> r == fallback
    ensures checked.Some? ==> r == (if checked.value == "" then fallback else checked.value)
    ensures fallback != "" ==> r != ""
  {
    if checked.Some? && checked.value != "" then checked.value else fallback
  }

  // ---------------------------------------------------------------------------
  // Cart edits

  /** The line `addToCart` and `buyNow` push for a new variant. */
  function NewItem(productId: string, p: Product, color: string, size: string, quantity: int): Item {
    Item(CartItemID(productId, color, size), productId, p.name, p.basePrice, p.image, color, size, quantity)
  }

  /** `addToCart` once the product is found: merge into the line of the same
      variant, or push a new line. */
  function Merge(cart: seq<Item>, productId: string, p: Product, color: string, size: string, quantity: int): seq<Item> {
    var i := FindIndex(cart, ItemID, CartItemID(productId, color, size));
    if i > -1 then cart[i := cart[i].(quantity := cart[i].quantity + quantity)]
    else cart + [NewItem(productId, p, color, size, quantity)]
  }

  /** `updateCartItemQuantity`: apply `change` to the line, splice it out when
      the quantity drops to zero or below, do nothing for an unknown id. */
  function ChangeQuantity(cart: seq<Item>, id: string, change: int): seq<Item> {
    var i := FindIndex(cart, ItemID, id);
    if i < 0 then cart
    else if cart[i].quantity + change <= 0 then cart[..i] + cart[i + 1..]
    else cart[i := cart[i].(quantity := cart[i].quantity + change)]
  }

  /** `removeFromCart`: `cart.filter(item => item.cartItemID !== id)`. */
  function RemoveItem(cart: seq<Item>, id: string): seq<Item> {
    WithoutKey(cart, ItemID, id)
  }

  lemma Distribute(price: int, quantity: int, change: int)
    ensures price * (quantity + change) == price * quantity + price * change
  {
  }

  /** Merging into an existing variant adds exactly `quantity` to that line and
      leaves its price, name and every other line alone; a new variant appends
      one line keyed `productId-color-size` at the base price. Nothing is ever
      removed, so a non-positive `quantity` is kept as written. */
  lemma MergeShape(cart: seq<Item>, productId: string, p: Product, color: string, size: string, quantity: int)
    ensures var r := Merge(cart, productId, p, color, size, quantity);
            var id := productId + "-" + color + "-" + size;
            var i := FindIndex(cart, ItemID, id);
            && |r| >= |cart|
            && (i >= 0 ==> |r| == |cart| && r[i] == cart[i].(quantity := cart[i].quantity + quantity)
                           && forall j :: 0 <= j < |cart| && j != i ==> r[j] == cart[j])
            && (i < 0 ==> |r| == |cart| + 1 && r[..|cart|] == cart
                          && r[|cart|].cartItemID == id && r[|cart|].productId == productId
                          && r[|cart|].name == p.name && r[|cart|].price == p.basePrice
                          && r[|cart|].color == color && r[|cart|].size == size
                          && r[|cart|].quantity == quantity)
  {
  }

  /** Merging adds `quantity` units to the count and `quantity` times the unit
      price of the receiving line to the total. */
  lemma MergeSums(cart: seq<Item>, productId: string, p: Product, color: string, size: string, quantity: int)
    ensures var r := Merge(cart, productId, p, color, size, quantity);
            var i := FindIndex(cart, ItemID, CartItemID(productId, color, size));
            && CartCount(r) == CartCount(cart) + quantity
            && CartTotal(r) == CartTotal(cart) + (if i >= 0 then cart[i].price else p.basePrice) * quantity
  {
    var i := FindIndex(cart, ItemID, CartItemID(productId, color, size));
    if i >= 0 {
      var x := cart[i].(quantity := cart[i].quantity + quantity);
      SumUpdate(cart, i, x, Quantity);
      SumUpdate(cart, i, x, ItemTotal);
      Distribute(cart[i].price, cart[i].quantity, quantity);
    } else {
      var x := NewItem(productId, p, color, size, quantity);
      SumSnoc(cart, x, Quantity);
      SumSnoc(cart, x, ItemTotal);
    }
  }

  /** Merging keeps variant keys unique, leaves a line for the variant, and
      keeps quantities positive when a positive amount is added. */
  lemma MergeKeepsInvariants(cart: seq<Item>, productId: string, p: Product, color: string, size: string, quantity: int)
    ensures var r := Merge(cart, productId, p, color, size, quantity);
            && HasKey(r, ItemID, CartItemID(productId, color, size))
            && (UniqueKeys(cart, ItemID) ==> UniqueKeys(r, ItemID))
            && (quantity >= 1 && AllAtLeast(cart, Quantity, 1) ==> AllAtLeast(r, Quantity, 1))
  {
    var id := CartItemID(productId, color, size);
    var r := Merge(cart, productId, p, color, size, quantity);
    var i := FindIndex(cart, ItemID, id);
    if i >= 0 {
      assert ItemID(r[i]) == id;
      if UniqueKeys(cart, ItemID) {
        UniqueAfterUpdate(cart, i, cart[i].(quantity := cart[i].quantity + quantity), ItemID);
      }
    } else {
      assert ItemID(r[|cart|]) == id;
      if UniqueKeys(cart, ItemID) {
        UniqueAfterAppend(cart, NewItem(productId, p, color, size, quantity), ItemID);
      }
    }
  }

  /** A quantity that would reach zero or below takes that one line out, the
      rest in order, and its units and value leave the sums; with unique keys
      no line of the id is left. */
  lemma ChangeQuantityRemoves(cart: seq<Item>, id: string, change: int)
    requires FindIndex(cart, ItemID, id) >= 0
    requires cart[FindIndex(cart, ItemID, id)].quantity + change <= 0
    ensures var r := ChangeQuantity(cart, id, change);
            var i := FindIndex(cart, ItemID, id);
            && r == cart[..i] + cart[i + 1..]
            && CartCount(r) == CartCount(cart) - cart[i].quantity
            && CartTotal(r) == CartTotal(cart) - cart[i].price * cart[i].quantity
            && (UniqueKeys(cart, ItemID) ==> !HasKey(r, ItemID, id))
  {
    var r := ChangeQuantity(cart, id, change);
    var i := FindIndex(cart, ItemID, id);
    SumRemoveAt(cart, i, Quantity);
    SumRemoveAt(cart, i, ItemTotal);
    if UniqueKeys(cart, ItemID) {
      forall j | 0 <= j < |r| ensures ItemID(r[j]) != id {
        if j < i {
          assert r[j] == cart[j];
        } else {
          assert r[j] == cart[j + 1];
        }
      }
    }
  }

  /** Otherwise only that line's quantity moves, by exactly `change`, and the
      sums move with it. */
  lemma ChangeQuantityUpdates(cart: seq<Item>, id: string, change: int)
    requires FindIndex(cart, ItemID, id) >= 0
    requires cart[FindIndex(cart, ItemID, id)].quantity + change > 0
    ensures var r := ChangeQuantity(cart, id, change);
            var i := FindIndex(cart, ItemID, id);
            && |r| == |cart| && r[i] == cart[i].(quantity := cart[i].quantity + change)
            && (forall j :: 0 <= j < |cart| && j != i ==> r[j] == cart[j])
            && CartCount(r) == CartCount(cart) + change
            && CartTotal(r) == CartTotal(cart) + cart[i].price * change
  {
    var i := FindIndex(cart, ItemID, id);
    var x := cart[i].(quantity := cart[i].quantity + change);
    assert ChangeQuantity(cart, id, change) == cart[i := x];
    SumUpdate(cart, i, x, Quantity);
    SumUpdate(cart, i, x, ItemTotal);
    Distribute(cart[i].price, cart[i].quantity, change);
  }

  /** An unknown id changes nothing, and no change breaks unique keys or lets a
      positive quantity fall below one. */
  lemma ChangeQuantityKeepsInvariants(cart: seq<Item>, id: string, change: int)
    ensures !HasKey(cart, ItemID, id) ==> ChangeQuantity(cart, id, change) == cart
    ensures UniqueKeys(cart, ItemID) ==> UniqueKeys(ChangeQuantity(cart, id, change), ItemID)
    ensures AllAtLeast(cart, Quantity, 1) ==> AllAtLeast(ChangeQuantity(cart, id, change), Quantity, 1)
  {
    var r := ChangeQuantity(cart, id, change);
    var i := FindIndex(cart, ItemID, id);
    if i >= 0 {
      if cart[i].quantity + change <= 0 {
        if UniqueKeys(cart, ItemID) {
          UniqueAfterRemoveAt(cart, i, ItemID);
        }
        if AllAtLeast(cart, Quantity, 1) {
          forall j | 0 <= j < |r| ensures Quantity(r[j]) >= 1 {
            if j < i {
              assert r[j] == cart[j];
            } else {
              assert r[j] == cart[j + 1];
            }
          }
        }
      } else if UniqueKeys(cart, ItemID) {
        UniqueAfterUpdate(cart, i, cart[i].(quantity := cart[i].quantity + change), ItemID);
      }
    }
  }

  /** Removing leaves no line with that key, keeps the invariants, and with
      unique keys takes out exactly the one line, the rest in order. */
  lemma RemoveItemFacts(cart: seq<Item>, id: string)
    ensures var r := RemoveItem(cart, id);
            && !HasKey(r, ItemID, id)
            && (!HasKey(cart, ItemID, id) ==> r == cart)
            && (UniqueKeys(cart, ItemID) ==> UniqueKeys(r, ItemID))
            && (AllAtLeast(cart, Quantity, 1) ==> AllAtLeast(r, Quantity, 1))
            && (UniqueKeys(cart, ItemID) && HasKey(cart, ItemID, id) ==>
                  var i := FindIndex(cart, ItemID, id);
                  && r == cart[..i] + cart[i + 1..]
                  && CartCount(r) == CartCount(cart) - cart[i].quantity
                  && CartTotal(r) == CartTotal(cart) - cart[i].price * cart[i].quantity)
  {
    var r := RemoveItem(cart, id);
    WithoutKeyMembers(cart, ItemID, id);
    if AllAtLeast(cart, Quantity, 1) {
      forall j | 0 <= j < |r| ensures Quantity(r[j]) >= 1 {
        assert r[j] in cart;
      }
    }
    if UniqueKeys(cart, ItemID) {
      WithoutKeyUnique(cart, ItemID, id);
    }
    if !HasKey(cart, ItemID, id) {
      WithoutAbsentKey(cart, ItemID, id);
    }
    if UniqueKeys(cart, ItemID) && HasKey(cart, ItemID, id) {
      var i := FindIndex(cart, ItemID, id);
      WithoutUniqueKey(cart, ItemID, id);
      SumRemoveAt(cart, i, Quantity);
      SumRemoveAt(cart, i, ItemTotal);
    }
  }

  // ---------------------------------------------------------------------------
  // Start-up load

  /** `JSON.parse(localStorage.getItem('grimhide_cart')) || []`. A missing key
      parses `null`, which is falsy, and so does any other falsy JSON value; an
      empty or malformed text makes `JSON.parse` throw, and a truthy non-array
      value makes the first `cart.reduce` throw — `None` for both. */
  function StartupCart(stored: Option<StoredText<Item>>): (r: Option<seq<Item>>)
    ensures stored.None? ==> r == Some([])
    ensures stored == Some(Blank) || stored == Some(Malformed) ==> r.None?
    ensures forall c :: stored == Some(Stringify(c)) ==> r == Some(c)
    ensures r.Some? && r.value != [] ==> stored == Some(Stringify(r.value))
  {
    match stored
    case None => Some([])
    case Some(Blank) => None
    case Some(Malformed) => None
    case Some(Parses(JArray(items))) => Some(items)
    case Some(Parses(JNonArray(truthy))) => if truthy then None else Some([])
  }

  // ---------------------------------------------------------------------------
  // Quantity selector and gallery

  /** `parseInt(qtyInput.value) || 1`, with `None` for `NaN`. */
  function QtyOrOne(parsed: Option<int>): (r: int)
    ensures r != 0
    ensures parsed.Some? && parsed.value != 0 ==> r == parsed.value
    ensures parsed.None? || parsed == Some(0) ==> r == 1
  {
    if parsed.Some? && parsed.value != 0 then parsed.value else 1
  }

  /** The '−' button: write `current - 1` when `current > 1`, else leave the
      field as it is. */
  function QtyDecrease(field: Option<int>): Option<int> {
    var current := QtyOrOne(field);
    if current > 1 then Some(current - 1) else field
  }

  /** The '+' button: write `current + 1` when `current < 10`. */
  function QtyIncrease(field: Option<int>): Option<int> {
    var current := QtyOrOne(field);
    if current < 10 then Some(current + 1) else field
  }

  predicate QtyInRange(field: Option<int>) {
    field.Some? && 1 <= field.value <= 10
  }

  /** Both buttons keep a value in [1, 10] within [1, 10]; they stop at the ends
      and undo each other inside the range; an unreadable field steps up to 2. */
  lemma QtySelectorBounds(field: Option<int>)
    ensures QtyInRange(field) ==> QtyInRange(QtyDecrease(field)) && QtyInRange(QtyIncrease(field))
    ensures field == Some(1) ==> QtyDecrease(field) == field
    ensures field == Some(10) ==> QtyIncrease(field) == field
    ensures QtyInRange(field) && field.value < 10 ==> QtyDecrease(QtyIncrease(field)) == field
    ensures QtyInRange(field) && field.value > 1 ==> QtyIncrease(QtyDecrease(field)) == field
    ensures field.None? ==> QtyIncrease(field) == Some(2) && QtyDecrease(field) == field
  {
  }

  /** `Array.from(thumbs).findIndex(t => t.classList.contains('active'))`. */
  function FirstActive(thumbs: seq<bool>): (r: int)
    ensures -1 <= r < |thumbs|
    ensures r >= 0 ==> thumbs[r]
    ensures forall j :: 0 <= j < |thumbs| && (r == -1 || j < r) ==> !thumbs[j]
    decreases |thumbs|
  {
    if |thumbs| == 0 then -1
    else if thumbs[0] then 0
    else
      var r := FirstActive(thumbs[1..]);
      if r == -1 then -1 else r + 1
  }

  /** The index the gallery's prev/next arrow clicks; `None` when there are no
      thumbnails and the click does nothing. */
  function GalleryTarget(thumbs: seq<bool>, prev: bool): (r: Option<int>)
    ensures r.None? <==> |thumbs| == 0
    ensures r.Some? ==> 0 <= r.value < |thumbs|
  {
    if |thumbs| == 0 then None
    else
      var currentIndex := FirstActive(thumbs);
      if prev then Some(if currentIndex > 0 then currentIndex - 1 else |thumbs| - 1)
      else Some(if currentIndex < |thumbs| - 1 then currentIndex + 1 else 0)
  }

  /** The thumbnails after clicking thumb `k`: only it is active (`k == -1` for
      none). */
  function OnlyActive(n: nat, k: int): (r: seq<bool>)
    ensures |r| == n
    ensures forall i :: 0 <= i < n ==> (r[i] <==> i == k)
  {
    seq(n, i => i == k)
  }

  lemma FirstActiveOnly(n: nat, k: int)
    requires -1 <= k < n
    ensures FirstActive(OnlyActive(n, k)) == k
  {
    var t := OnlyActive(n, k);
    var r := FirstActive(t);
    if k >= 0 {
      assert t[k];
    }
    if r >= 0 {
      assert t[r];
    }
  }

  /** With no thumb active, prev lands on the last and next on the first; after
      a next, a prev brings the gallery back, and the other way round. */
  lemma GalleryRoundTrip(n: nat, i: int)
    requires n > 0 && 0 <= i < n
    ensures GalleryTarget(OnlyActive(n, -1), true) == Some(n - 1)
    ensures GalleryTarget(OnlyActive(n, -1), false) == Some(0)
    ensures GalleryTarget(OnlyActive(n, GalleryTarget(OnlyActive(n, i), false).value), true) == Some(i)
    ensures GalleryTarget(OnlyActive(n, GalleryTarget(OnlyActive(n, i), true).value), false) == Some(i)
  {
    FirstActiveOnly(n, -1);
    FirstActiveOnly(n, i);
    var nx := GalleryTarget(OnlyActive(n, i), false).value;
    var pv := GalleryTarget(OnlyActive(n, i), true).value;
    FirstActiveOnly(n, nx);
    FirstActiveOnly(n, pv);
  }

  // ---------------------------------------------------------------------------

  /** The page's module-level `cart` and the storage it writes. */
  class DetailPage {
    var cart: seq<Item>
    var storage: map<string, StoredText<Item>>

    /** Reloading the page would read back exactly this cart. */
    ghost predicate Persisted()
      reads this
    {
      StartupCart(GetItem(storage, DetailKey)) == Some(cart)
    }

    /** Script start: the load at js/product-detail.js:141; nothing is saved. */
    constructor (stored: map<string, StoredText<Item>>)
      requires StartupCart(GetItem(stored, DetailKey)).Some?
      ensures cart == StartupCart(GetItem(stored, DetailKey)).value
      ensures storage == stored
      ensures Persisted()
    {
      cart := StartupCart(GetItem(stored, DetailKey)).value;
      storage := stored;
    }

    /** `saveCart()`. */
    method SaveCart()
      modifies this
      ensures cart == old(cart)
      ensures storage == old(storage)[DetailKey := Stringify(cart)]
      ensures Persisted()
    {
      storage := storage[DetailKey := Stringify(cart)];
    }

    /** `addToCart(productId, quantity)` with the checked colour and size
        inputs; an unknown product changes nothing. */
    method AddToCart(catalog: map<string, Product>, productId: string, quantity: int,
                     colorChecked: Option<string>, sizeChecked: Option<string>)
      modifies this
      ensures productId !in catalog ==> cart == old(cart) && storage == old(storage)
      ensures productId in catalog ==>
                && cart == Merge(old(cart), productId, catalog[productId],
                                 Selected(colorChecked, "Black"), Selected(sizeChecked, "M"), quantity)
                && storage == old(storage)[DetailKey := Stringify(cart)]
                && Persisted()
    {
      if productId !in catalog {
        return;
      }
      var product := catalog[productId];
      var color := Selected(colorChecked, "Black");
      var size := Selected(sizeChecked, "M");
      var cartItemID := CartItemID(productId, color, size);
      var existingItemIndex := FindIndex(cart, ItemID, cartItemID);
      if existingItemIndex > -1 {
        cart := cart[existingItemIndex := cart[existingItemIndex].(quantity := cart[existingItemIndex].quantity + quantity)];
      } else {
        cart := cart + [Item(cartItemID, productId, product.name, product.basePrice, product.image, color, size, quantity)];
      }
      SaveCart();
    }

    /** `buyNow(productId, quantity)`: the cart becomes this one line, whatever
        it held; an unknown product changes nothing. */
    method BuyNow(catalog: map<string, Product>, productId: string, quantity: int,
                  colorChecked: Option<string>, sizeChecked: Option<string>)
      modifies this
      ensures productId !in catalog ==> cart == old(cart) && storage == old(storage)
      ensures productId in catalog ==>
                var color := Selected(colorChecked, "Black");
                var size := Selected(sizeChecked, "M");
                && cart == [NewItem(productId, catalog[productId], color, size, quantity)]
                && |cart| == 1
                && cart[0].cartItemID == CartItemID(productId, color, size)
                && cart[0].productId == productId
                && cart[0].price == catalog[productId].basePrice
                && cart[0].quantity == quantity
                && CartCount(cart) == quantity
                && storage == old(storage)[DetailKey := Stringify(cart)]
                && Persisted()
    {
      if productId !in catalog {
        return;
      }
      var product := catalog[productId];
      var color := Selected(colorChecked, "Black");
      var size := Selected(sizeChecked, "M");
      cart := [];
      cart := cart + [NewItem(productId, product, color, size, quantity)];
      SumSnoc([], cart[0], Quantity);
      SaveCart();
    }

    /** `removeFromCart(cartItemID)`. */
    method RemoveFromCart(id: string)
      modifies this
      ensures cart == RemoveItem(old(cart), id)
      ensures storage == old(storage)[DetailKey := Stringify(cart)]
      ensures Persisted()
    {
      cart := RemoveItem(cart, id);
      SaveCart();
    }

    /** `updateCartItemQuantity(cartItemID, change)`: an unknown id neither
        edits nor saves. */
    method UpdateCartItemQuantity(id: string, change: int)
      modifies this
      ensures cart == ChangeQuantity(old(cart), id, change)
      ensures HasKey(old(cart), ItemID, id) ==> storage == old(storage)[DetailKey := Stringify(cart)]
      ensures !HasKey(old(cart), ItemID, id) ==> storage == old(storage)
    {
      var itemIndex := FindIndex(cart, ItemID, id);
      if itemIndex > -1 {
        cart := cart[itemIndex := cart[itemIndex].(quantity := cart[itemIndex].quantity + change)];
        if cart[itemIndex].quantity <= 0 {
          cart := cart[..itemIndex] + cart[itemIndex + 1..];
        }
        SaveCart();
      }
    }

    /** `updateCartUI()` and `updateCartDrawer()`: the badge count, whether the
        badge shows, and the drawer total (zero for an empty cart). */
    method CartUI() returns (count: int, badgeShown: bool, total: int)
      ensures count == CartCount(cart)
      ensures badgeShown <==> CartCount(cart) > 0
      ensures total == CartTotal(cart)
    {
      count := CartCount(cart);
      badgeShown := count > 0;
      total := 0;
      if |cart| == 0 {
        return;
      }
      var i := 0;
      while i < |cart|
        invariant 0 <= i <= |cart|
        invariant total == CartTotal(cart[..i])
      {
        SumSnoc(cart[..i], cart[i], ItemTotal);
        assert cart[..i + 1] == cart[..i] + [cart[i]];
        total := total + cart[i].price * cart[i].quantity;
        i := i + 1;
      }
      assert cart[..i] == cart;
    }

    /** `proceedToCheckout()`: go to checkout only with a non-empty cart. */
    method ProceedToCheckout() returns (redirect: bool)
      ensures redirect <==> |cart| > 0
    {
      if |cart| == 0 {
        return false;
      }
      return true;
    }
  }
}
