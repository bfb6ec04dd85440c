/** js/main.js: the storefront page script — the header cart drawer, the
    lightbox, and search, category filter and sort over the product grid. */
module Storefront {
  import opened Basics
  import opened Text
  import opened Sorting
  import opened Storage
  import opened CartLines
  import Cart

  const CartKey: string := "grimhide_cart_v1"

  /** `clamp(v, a, b) = Math.max(a, Math.min(b, v))`. */
  function Clamp(v: real, a: real, b: real): (r: real)
    ensures a <= b ==> a <= r <= b
    ensures a <= v <= b ==> r == v
    ensures v < a ==> r == a
    ensures a <= b < v ==> r == b
  {
    var m := if b <= v then b else v;
    if a >= m then a else m
  }

  // ---------------------------------------------------------------------------
  // Lightbox

  /** JavaScript's `%`: the remainder takes the sign of the dividend. */
  function JsRem(a: int, n: int): int
    requires n > 0
  {
    if a >= 0 then a % n else -((-a) % n)
  }

  /** The lightbox's `prev`: `idx = (idx - 1 + images.length) % images.length`. */
  function LightboxPrev(idx: int, n: int): (r: int)
    requires n >= 1
    ensures 0 <= idx < n ==> 0 <= r < n
    ensures 0 < idx < n ==> r == idx - 1
    ensures idx == 0 ==> r == n - 1
  {
    JsRem(idx - 1 + n, n)
  }

  /** The lightbox's `next`: `idx = (idx + 1) % images.length`. */
  function LightboxNext(idx: int, n: int): (r: int)
    requires n >= 1
    ensures 0 <= idx < n ==> 0 <= r < n
    ensures 0 <= idx < n - 1 ==> r == idx + 1
    ensures idx == n - 1 ==> r == 0
  {
    JsRem(idx + 1, n)
  }

  /** `next` then `prev` (and `prev` then `next`) come back to the same image. */
  lemma LightboxRoundTrip(idx: int, n: int)
    requires n >= 1 && 0 <= idx < n
    ensures LightboxPrev(LightboxNext(idx, n), n) == idx
    ensures LightboxNext(LightboxPrev(idx, n), n) == idx
  {
  }

  // ---------------------------------------------------------------------------
  // Search index, score and visibility

  /** One entry of the search index built from a product card. `score` is
      unset (`None`) until `performSearch` has scored the entry; `shown` is
      the card's display state. */
  datatype Entry = Entry(name: string, price: int, cat: string, score: Option<int>, shown: bool)

  /** `buildIndex` for one card: the name is the lower-cased `data-name` (or
      the heading text when that is empty), the price is the parsed
      `data-price` or 0, the category is `data-cat` or 'all'. */
  function BuildEntry(dataName: string, heading: string, parsedPrice: Option<int>, dataCat: string, shown: bool): (e: Entry)
    ensures e.name == Lower(if dataName != "" then dataName else heading)
    ensures e.price == (if parsedPrice.Some? then parsedPrice.value else 0)
    ensures e.cat == (if dataCat != "" then dataCat else "all") && e.cat != ""
    ensures e.score.None? && e.shown == shown
  {
    Entry(Lower(if dataName != "" then dataName else heading),
          if parsedPrice.Some? then parsedPrice.value else 0,
          if dataCat != "" then dataCat else "all",
          None, shown)
  }

  /** `$('.chip.active')?.dataset.cat || 'all'`. */
  function ActiveCategory(chip: Option<string>): string {
    if chip.Some? && chip.value != "" then chip.value else "all"
  }

  /** The search score of a name for a term. */
  function Score(name: string, term: string): int {
    if Includes(name, term) then 100 - IndexOf(name, term)
    else if term == "" then 50 else 0
  }

  predicate MatchesCategory(e: Entry, active: string) {
    active == "all" || e.cat == active
  }

  /** Whether `performSearch` shows the card. */
  predicate Shown(e: Entry, term: string, active: string) {
    MatchesCategory(e, active) && Score(e.name, term) > 0
  }

  /** The score is 100 minus the first position of the term in the name, or 0
      when the name does not contain it; the empty term scores 100 (the 50
      branch is never reached). */
  lemma ScoreFacts(name: string, term: string)
    ensures Score(name, term) <= 100
    ensures Includes(name, term) ==> Score(name, term) == 100 - IndexOf(name, term)
    ensures !Includes(name, term) ==> Score(name, term) == 0
    ensures term == "" ==> Score(name, term) == 100
  {
    EmptyAtFront(name);
  }

  /** A card is shown exactly when its category matches and the term occurs in
      its name at a position below 100. */
  lemma ShownIff(e: Entry, term: string, active: string)
    ensures Shown(e, term, active) <==>
              MatchesCategory(e, active) && Includes(e.name, term) && IndexOf(e.name, term) < 100
    ensures term == "" ==> (Shown(e, term, active) <==> MatchesCategory(e, active))
  {
    ScoreFacts(e.name, term);
  }

  /** `index.filter(i => i.el.style.display !== 'none')`. */
  function VisibleEntries(index: seq<Entry>): (r: seq<Entry>)
    ensures forall i :: 0 <= i < |r| ==> r[i].shown && r[i] in index
    ensures forall i :: 0 <= i < |index| && index[i].shown ==> index[i] in r
    decreases |index|
  {
    if |index| == 0 then []
    else (if index[0].shown then [index[0]] else []) + VisibleEntries(index[1..])
  }

  /** The filter keeps index order: the visible entries of two runs of cards
      are those of the first run followed by those of the second. */
  lemma {:induction false} VisibleEntriesAppend(a: seq<Entry>, b: seq<Entry>)
    ensures VisibleEntries(a + b) == VisibleEntries(a) + VisibleEntries(b)
    decreases |a|
  {
    if |a| == 0 {
      assert a + b == b;
    } else {
      assert (a + b)[0] == a[0];
      assert (a + b)[1..] == a[1..] + b;
      VisibleEntriesAppend(a[1..], b);
    }
  }

  /** With every card shown, the visible entries are the index itself, in
      order; with none shown, there are none. */
  lemma {:induction false} VisibleEntriesExtremes(index: seq<Entry>)
    ensures (forall i :: 0 <= i < |index| ==> index[i].shown) ==> VisibleEntries(index) == index
    ensures (forall i :: 0 <= i < |index| ==> !index[i].shown) ==> VisibleEntries(index) == []
    decreases |index|
  {
    if |index| > 0 {
      VisibleEntriesExtremes(index[1..]);
      assert [index[0]] + index[1..] == index;
    }
  }

  // ---------------------------------------------------------------------------
  // Sort

  datatype SortMode = Popular | LowHigh | HighLow | NameAZ | NameZA

  /** `sorters[val] || sorters.pop`. */
  function ModeOf(val: string): SortMode {
    if val == "lh" then LowHigh
    else if val == "hl" then HighLow
    else if val == "az" then NameAZ
    else if val == "za" then NameZA
    else Popular
  }

  /** An unscored entry's score is `undefined`; the comparison then gives NaN,
      which `sort` treats as a tie. An index is scored all at once, so every
      entry of one sort is scored or none is; 0 for unscored ties them alike. */
  function ScoreKey(e: Entry): int {
    if e.score.Some? then e.score.value else 0
  }

  /** The value of the chosen comparator for `(a, b)`. */
  function Comparator(mode: SortMode, a: Entry, b: Entry): int {
    match mode
    case Popular => ScoreKey(b) - ScoreKey(a)
    case LowHigh => a.price - b.price
    case HighLow => b.price - a.price
    case NameAZ => Compare(a.name, b.name)
    case NameZA => Compare(b.name, a.name)
  }

  /** `a` may stay ahead of `b` under the comparator. */
  function Before(mode: SortMode): (Entry, Entry) -> bool {
    (a: Entry, b: Entry) => Comparator(mode, a, b) <= 0
  }

  /** Every comparator is a total preorder, so the sort is well defined. */
  lemma BeforeIsPreorder(mode: SortMode)
    ensures Total(Before(mode)) && Transitive(Before(mode))
  {
    if mode == NameAZ || mode == NameZA {
      forall a: Entry, b: Entry ensures Before(mode)(a, b) || Before(mode)(b, a) {
        CompareFlip(a.name, b.name);
      }
      forall a: Entry, b: Entry, c: Entry | Before(mode)(a, b) && Before(mode)(b, c)
        ensures Before(mode)(a, c)
      {
        if mode == NameAZ {
          CompareTrans(a.name, b.name, c.name);
        } else {
          CompareTrans(c.name, b.name, a.name);
        }
      }
    }
  }

  /** What "sorted" means for each mode. */
  lemma SortedMeans(s: seq<Entry>, mode: SortMode)
    requires Sorted(s, Before(mode))
    ensures mode == LowHigh ==> forall i, j :: 0 <= i < j < |s| ==> s[i].price <= s[j].price
    ensures mode == HighLow ==> forall i, j :: 0 <= i < j < |s| ==> s[i].price >= s[j].price
    ensures mode == Popular ==> forall i, j :: 0 <= i < j < |s| ==> ScoreKey(s[i]) >= ScoreKey(s[j])
    ensures mode == NameAZ ==> forall i, j :: 0 <= i < j < |s| ==> Compare(s[i].name, s[j].name) <= 0
    ensures mode == NameZA ==> forall i, j :: 0 <= i < j < |s| ==> Compare(s[j].name, s[i].name) <= 0
  {
    forall i, j | 0 <= i < j < |s| ensures Comparator(mode, s[i], s[j]) <= 0 {
      assert Before(mode)(s[i], s[j]);
    }
  }

  /** `applySort()`: the visible entries, sorted in place by the chosen
      comparator; the result is the order in which the cards are re-appended. */
  method ApplySort(index: seq<Entry>, val: string) returns (order: seq<Entry>)
    ensures order == Sort(VisibleEntries(index), Before(ModeOf(val)))
    ensures multiset(order) == multiset(VisibleEntries(index))
    ensures Sorted(order, Before(ModeOf(val)))
  {
    var visible := VisibleEntries(index);
    var a := new Entry[|visible|](i requires 0 <= i < |visible| => visible[i]);
    assert a[..] == visible;
    SortInPlace(a, Before(ModeOf(val)));
    order := a[..];
    BeforeIsPreorder(ModeOf(val));
    SortSorted(visible, Before(ModeOf(val)));
  }

  /** `performSearch()`: the term is the lower-cased query (an absent box reads
      as the empty query) and the category is the active chip's, or 'all'; it
      scores every entry, sets its display state, then applies the sort, and
      returns the scored index and the display order. */
  method PerformSearch(index: seq<Entry>, query: string, chip: Option<string>, val: string)
    returns (scored: seq<Entry>, order: seq<Entry>)
    ensures |scored| == |index|
    ensures forall i :: 0 <= i < |index| ==>
              scored[i] == index[i].(score := Some(Score(index[i].name, Lower(query))),
                                     shown := Shown(index[i], Lower(query), ActiveCategory(chip)))
    ensures order == Sort(VisibleEntries(scored), Before(ModeOf(val)))
    ensures multiset(order) == multiset(VisibleEntries(scored))
    ensures Sorted(order, Before(ModeOf(val)))
  {
    var term := Lower(query);
    var active := ActiveCategory(chip);
    scored := [];
    var i := 0;
    while i < |index|
      invariant 0 <= i <= |index|
      invariant |scored| == i
      invariant forall k :: 0 <= k < i ==>
                  scored[k] == index[k].(score := Some(Score(index[k].name, term)),
                                         shown := Shown(index[k], term, active))
    {
      var item := index[i];
      var matchesCat := active == "all" || item.cat == active;
      var score := if Includes(item.name, term) then 100 - IndexOf(item.name, term)
                   else if term == "" then 50 else 0;
      scored := scored + [item.(score := Some(score), shown := matchesCat && score > 0)];
      i := i + 1;
    }
    order := ApplySort(scored, val);
  }

  // ---------------------------------------------------------------------------
  // Cart drawer

  /** The cart the page starts with (main.js:59); `None` when the script fails. */
  function InitialCart(storage: map<string, StoredText<Line>>): (r: Option<seq<Line>>)
    ensures CartKey !in storage ==> r == Some([])
    ensures CartKey in storage && storage[CartKey] == Blank ==> r == Some([])
    ensures CartKey in storage && storage[CartKey] == Malformed ==> r.None?
    ensures forall c :: CartKey in storage && storage[CartKey] == Stringify(c) ==> r == Some(c)
    ensures forall t :: CartKey in storage && storage[CartKey] == Parses(JNonArray(t)) ==> r.None?
    ensures r.Some? ==> r.value == Cart.LoadCart(storage)
  {
    StartupCart(GetItem(storage, CartKey))
  }

  class StorefrontPage {
    var cart: seq<Line>
    var storage: map<string, StoredText<Line>>

    /** The stored cart is the in-memory one, so the cart page reads it back. */
    ghost predicate Synced()
      reads this
    {
      CartKey in storage && storage[CartKey] == Stringify(cart) && Cart.LoadCart(storage) == cart
    }

    /** Start-up: load the cart, then `refreshCart()` saves it. */
    constructor (stored: map<string, StoredText<Line>>)
      requires InitialCart(stored).Some?
      ensures cart == InitialCart(stored).value
      ensures storage == stored[CartKey := Stringify(cart)]
      ensures Synced()
    {
      cart := InitialCart(stored).value;
      storage := stored[CartKey := Stringify(InitialCart(stored).value)];
    }

    /** `refreshCart()`: save under the page's key (the redraw is not modelled). */
    method RefreshCart()
      modifies this
      ensures cart == old(cart)
      ensures storage == old(storage)[CartKey := Stringify(cart)]
      ensures Synced()
    {
      storage := storage[CartKey := Stringify(cart)];
    }

    /** An add button: bump the line with this id or append one with qty 1. */
    method AddToCart(id: string, name: string, price: int, img: string)
      modifies this
      ensures cart == AddOne(old(cart), id, name, price, img)
      ensures storage == old(storage)[CartKey := Stringify(cart)]
      ensures Synced()
    {
      var i := FindIndex(cart, Id, id);
      if i >= 0 {
        cart := cart[i := cart[i].(qty := cart[i].qty + 1)];
      } else {
        cart := cart + [Line(id, name, price, img, 1)];
      }
      RefreshCart();
    }

    /** The '+' button of the rendered row `row`. */
    method Increment(row: nat)
      requires row < |cart|
      modifies this
      ensures cart == IncAt(old(cart), row)
      ensures storage == old(storage)[CartKey := Stringify(cart)]
      ensures Synced()
    {
      cart := cart[row := cart[row].(qty := cart[row].qty + 1)];
      RefreshCart();
    }

    /** The '−' button of row `row`: clamp at one, never remove. */
    method Decrement(row: nat)
      requires row < |cart|
      modifies this
      ensures cart == DecAt(old(cart), row)
      ensures storage == old(storage)[CartKey := Stringify(cart)]
      ensures Synced()
    {
      cart := cart[row := cart[row].(qty := Max(1, cart[row].qty - 1))];
      RefreshCart();
    }

    /** The 'Remove' button of row `row`: every line with that row's id goes. */
    method Remove(row: nat)
      requires row < |cart|
      modifies this
      ensures cart == RemoveId(old(cart), old(cart)[row].id)
      ensures storage == old(storage)[CartKey := Stringify(cart)]
      ensures Synced()
    {
      cart := RemoveId(cart, cart[row].id);
      RefreshCart();
    }

    /** The header count and drawer subtotal `updateCartUI` shows; an empty
        cart shows a subtotal of 0. */
    method CartTotals() returns (count: int, sub: int)
      ensures count == ItemCount(cart)
      ensures sub == Subtotal(cart)
    {
      count := ItemCount(cart);
      sub := 0;
      if |cart| == 0 {
        return;
      }
      var i := 0;
      while i < |cart|
        invariant 0 <= i <= |cart|
        invariant sub == Subtotal(cart[..i])
      {
        SumSnoc(cart[..i], cart[i], LineTotal);
        assert cart[..i + 1] == cart[..i] + [cart[i]];
        sub := sub + cart[i].price * cart[i].qty;
        i := i + 1;
      }
      assert cart[..i] == cart;
    }
  }
}
