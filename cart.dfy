/**
 * The cart (components/cart-provider.tsx): `sanitizeCartItems`, the updaters
 * that `addToCart`, `removeFromCart`, `updateQuantity` and `clearCart` pass to
 * `setItems`, the derived `itemCount` and `subtotal`, and the provider's
 * `items` state cell.
 */
module Cart {
  import opened Wrappers
  import opened Js
  import opened Catalog

  datatype CartItem = CartItem(headphone: Headphone, quantity: int)

  /** `Math.max(1, Math.floor(q))` for a finite q. */
  function ClampQuantity(q: real): (r: int)
    ensures r >= 1 && (q >= 1.0 ==> r as real <= q < r as real + 1.0)
    ensures q < 1.0 ==> r == 1
  {
    if q.Floor < 1 then 1 else q.Floor
  }

  /** Reading a property of the entry throws. */
  predicate Throws(entry: JsValue) {
    entry.Undefined? || entry.Null?
  }

  /** The first half of the map callback: `Number(entry.headphoneId)` and `Number(entry.quantity)`. */
  function ReadEntry(entry: JsValue): (Num, Num)
    requires !Throws(entry)
  {
    (ToNumber(OptionalProperty(entry, "headphoneId")), ToNumber(OptionalProperty(entry, "quantity")))
  }

  /** The entries' numbers, in order; None when reading some entry throws. */
  function ReadEntries(entries: seq<JsValue>): (r: Option<seq<(Num, Num)>>)
    ensures r.None? <==> exists i :: 0 <= i < |entries| && Throws(entries[i])
    ensures r.Some? ==> |r.value| == |entries| && forall i :: 0 <= i < |entries| ==> r.value[i] == ReadEntry(entries[i])
  {
    if entries == [] then Some([])
    else if Throws(entries[0]) then None
    else match ReadEntries(entries[1..])
      case None => None
      case Some(rest) => Some([ReadEntry(entries[0])] + rest)
  }

  /**
   * The second half of the map callback: an entry survives exactly when its id
   * and quantity are finite and the id is in the catalog, and then as that
   * catalog item with the clamped quantity.
   */
  function KeepEntry(id: Num, quantity: Num): (r: Option<CartItem>)
    ensures r.Some? <==> id.Finite? && quantity.Finite? && Find(id.value).Some?
    ensures r.Some? ==> r.value == CartItem(Find(id.value).value, ClampQuantity(quantity.value))
  {
    if !id.Finite? || !quantity.Finite? then None
    else match Find(id.value)
      case None => None
      case Some(h) => Some(CartItem(h, ClampQuantity(quantity.value)))
  }

  /** Every item is a catalog entry with a quantity of at least 1. */
  predicate Sane(items: seq<CartItem>) {
    forall i :: 0 <= i < |items| ==> Listed(items[i].headphone) && items[i].quantity >= 1
  }

  /** The map callback over every entry: `CartItem | null` for each, in order. */
  function KeepEntries(es: seq<(Num, Num)>): (r: seq<Option<CartItem>>)
    ensures |r| == |es| && forall i :: 0 <= i < |es| ==> r[i] == KeepEntry(es[i].0, es[i].1)
  {
    if es == [] then [] else [KeepEntry(es[0].0, es[0].1)] + KeepEntries(es[1..])
  }

  /** Every present item is a catalog entry with a quantity of at least 1. */
  predicate SaneOptions(opts: seq<Option<CartItem>>) {
    forall i :: 0 <= i < |opts| && opts[i].Some? ==> Listed(opts[i].value.headphone) && opts[i].value.quantity >= 1
  }

  lemma KeepEntriesSane(es: seq<(Num, Num)>)
    ensures SaneOptions(KeepEntries(es))
  {
    var r := KeepEntries(es);
    forall i | 0 <= i < |r| && r[i].Some? ensures Listed(r[i].value.headphone) && r[i].value.quantity >= 1 {
      var h := Find(es[i].0.value).value;
      assert r[i].value.headphone == h;
    }
  }

  /** `.filter((item) => item !== null)`. */
  function Present(opts: seq<Option<CartItem>>): (r: seq<CartItem>)
    ensures |r| <= |opts|
  {
    if opts == [] then []
    else (if opts[0].Some? then [opts[0].value] else []) + Present(opts[1..])
  }

  /** Filtering keeps exactly the present items. */
  lemma {:induction false} PresentSane(opts: seq<Option<CartItem>>)
    requires SaneOptions(opts)
    ensures Sane(Present(opts))
    decreases |opts|
  {
    if opts != [] {
      assert SaneOptions(opts[1..]) by {
        forall i | 0 <= i < |opts| - 1 ensures opts[1..][i] == opts[i + 1] { }
      }
      PresentSane(opts[1..]);
    }
  }

  /**
   * `sanitizeCartItems`: a non-array gives the empty cart; an array keeps its
   * valid entries in order; a null or undefined entry makes the read of a
   * property throw (None), which the loading effect turns into the empty cart.
   */
  function SanitizeCartItems(raw: JsValue): (r: Option<seq<CartItem>>)
    ensures !raw.Array? ==> r == Some([])
    ensures raw.Array? ==> (r.None? <==> exists i :: 0 <= i < |raw.elems| && Throws(raw.elems[i]))
    ensures r.Some? ==> Sane(r.value) && (raw.Array? ==> |r.value| <= |raw.elems|)
  {
    if !raw.Array? then Some([])
    else match ReadEntries(raw.elems)
      case None => None
      case Some(es) =>
        KeepEntriesSane(es);
        PresentSane(KeepEntries(es));
        Some(Present(KeepEntries(es)))
  }

  /** Filtering keeps the input order: it distributes over concatenation. */
  lemma {:induction false} PresentAppend(a: seq<Option<CartItem>>, b: seq<Option<CartItem>>)
    ensures Present(a + b) == Present(a) + Present(b)
    decreases |a|
  {
    if a == [] {
      assert a + b == b;
    } else {
      assert (a + b)[0] == a[0] && (a + b)[1..] == a[1..] + b;
      PresentAppend(a[1..], b);
    }
  }

  /** Reading the entries distributes over concatenation. */
  lemma ReadEntriesAppend(a: seq<JsValue>, b: seq<JsValue>)
    requires ReadEntries(a).Some? && ReadEntries(b).Some?
    ensures ReadEntries(a + b) == Some(ReadEntries(a).value + ReadEntries(b).value)
  {
    NoneThrows(a, b);
    var l, r := ReadEntries(a + b).value, ReadEntries(a).value + ReadEntries(b).value;
    var ra, rb := ReadEntries(a).value, ReadEntries(b).value;
    assert |l| == |r|;
    forall i | 0 <= i < |l| ensures l[i] == r[i] {
      assert l[i] == ReadEntry((a + b)[i]);
      if i < |a| {
        assert (a + b)[i] == a[i] && r[i] == ra[i];
      } else {
        assert (a + b)[i] == b[i - |a|] && r[i] == rb[i - |a|];
      }
    }
    assert l == r;
  }

  /** No entry of either part throws, so none of the whole does. */
  lemma NoneThrows(a: seq<JsValue>, b: seq<JsValue>)
    requires ReadEntries(a).Some? && ReadEntries(b).Some?
    ensures ReadEntries(a + b).Some?
  {
    forall i | 0 <= i < |a + b| ensures !Throws((a + b)[i]) {
      if i < |a| { assert (a + b)[i] == a[i]; } else { assert (a + b)[i] == b[i - |a|]; }
    }
  }

  /** An array none of whose entries throws: its cart is the present kept entries. */
  lemma SanitizeRead(a: seq<JsValue>)
    requires ReadEntries(a).Some?
    ensures SanitizeCartItems(Array(a)) == Some(Present(KeepEntries(ReadEntries(a).value)))
  {
  }

  /** The map callback distributes over concatenation. */
  lemma KeepEntriesAppend(a: seq<(Num, Num)>, b: seq<(Num, Num)>)
    ensures KeepEntries(a + b) == KeepEntries(a) + KeepEntries(b)
  {
    var l, r := KeepEntries(a + b), KeepEntries(a) + KeepEntries(b);
    forall i | 0 <= i < |l| ensures l[i] == r[i] {
      if i < |a| { assert (a + b)[i] == a[i]; } else { assert (a + b)[i] == b[i - |a|]; }
    }
  }

  /**
   * The sanitizer works entry by entry: the cart restored from two stored
   * lists is the cart of the first followed by the cart of the second.
   */
  lemma SanitizeAppend(a: seq<JsValue>, b: seq<JsValue>)
    requires SanitizeCartItems(Array(a)).Some? && SanitizeCartItems(Array(b)).Some?
    ensures SanitizeCartItems(Array(a + b)) == Some(SanitizeCartItems(Array(a)).value + SanitizeCartItems(Array(b)).value)
  {
    assert ReadEntries(a).Some? && ReadEntries(b).Some?;
    var ra, rb := ReadEntries(a).value, ReadEntries(b).value;
    ReadEntriesAppend(a, b);
    SanitizeRead(a);
    SanitizeRead(b);
    SanitizeRead(a + b);
    KeepEntriesAppend(ra, rb);
    PresentAppend(KeepEntries(ra), KeepEntries(rb));
  }

  /**
   * One stored entry: null or undefined throws; otherwise it survives exactly
   * when its numbers are finite and its id is in the catalog, as that catalog
   * item with the clamped quantity.
   */
  lemma SanitizeSingle(e: JsValue)
    ensures Throws(e) ==> SanitizeCartItems(Array([e])).None?
    ensures !Throws(e) ==>
      var k := KeepEntry(ReadEntry(e).0, ReadEntry(e).1);
      SanitizeCartItems(Array([e])) == Some(if k.Some? then [k.value] else [])
  {
    if Throws(e) {
      assert Throws([e][0]);
    } else {
      var x := ReadEntry(e);
      ReadOne(e);
      SanitizeRead([e]);
      KeepOne(x);
      PresentOne(KeepEntry(x.0, x.1));
    }
  }

  lemma ReadOne(e: JsValue)
    requires !Throws(e)
    ensures ReadEntries([e]) == Some([ReadEntry(e)])
  {
    assert [e][0] == e && [e][1..] == [];
    assert [ReadEntry(e)] + [] == [ReadEntry(e)];
  }

  lemma KeepOne(x: (Num, Num))
    ensures KeepEntries([x]) == [KeepEntry(x.0, x.1)]
  {
    assert [x][0] == x && [x][1..] == [];
  }

  lemma PresentOne(k: Option<CartItem>)
    ensures Present([k]) == if k.Some? then [k.value] else []
  {
    assert [k][0] == k && [k][1..] == [];
  }

  /** When every entry is present, each survives, in place. */
  lemma {:induction false} PresentAll(opts: seq<Option<CartItem>>)
    requires forall i :: 0 <= i < |opts| ==> opts[i].Some?
    ensures |Present(opts)| == |opts|
    ensures forall i :: 0 <= i < |opts| ==> Present(opts)[i] == opts[i].value
    decreases |opts|
  {
    if opts != [] {
      PresentAll(opts[1..]);
      forall i | 1 <= i < |opts| ensures Present(opts)[i] == opts[i].value {
        assert opts[i] == opts[1..][i - 1];
      }
    }
  }

  /** Entries that are all null leave nothing. */
  lemma {:induction false} PresentNone(opts: seq<Option<CartItem>>)
    requires forall i :: 0 <= i < |opts| ==> opts[i].None?
    ensures Present(opts) == []
    decreases |opts|
  {
    if opts != [] {
      PresentNone(opts[1..]);
    }
  }

  /** The id test of the updaters: `item.headphone.id === headphoneId`. */
  predicate Matches(item: CartItem, id: int) {
    item.headphone.id == id
  }

  predicate HasId(items: seq<CartItem>, id: int) {
    exists i :: 0 <= i < |items| && Matches(items[i], id)
  }

  /** No id occurs twice. */
  predicate DistinctIds(items: seq<CartItem>) {
    forall i, j :: 0 <= i < j < |items| ==> items[i].headphone.id != items[j].headphone.id
  }

  /** The invariant of the provider's cart. */
  predicate WellFormed(items: seq<CartItem>) {
    Sane(items) && DistinctIds(items)
  }

  /** The map callback of the add and update updaters: the matching item gets quantity q, or one more. */
  function Bumped(item: CartItem, id: int, q: Option<int>): CartItem {
    if !Matches(item, id) then item
    else item.(quantity := if q.Some? then q.value else item.quantity + 1)
  }

  /** `prev.map(...)` with that callback. */
  function SetQuantity(items: seq<CartItem>, id: int, q: Option<int>): (r: seq<CartItem>)
    ensures |r| == |items|
    ensures forall i :: 0 <= i < |items| ==> r[i] == Bumped(items[i], id, q)
  {
    if items == [] then []
    else
      assert forall i :: 1 <= i < |items| ==> items[1..][i - 1] == items[i];
      [Bumped(items[0], id, q)] + SetQuantity(items[1..], id, q)
  }

  /**
   * The `addToCart` updater: an id outside the catalog changes nothing, a new
   * one is appended with quantity 1, and an id already in the cart gets one
   * more unit while every other line stays as it was.
   */
  function AddItem(items: seq<CartItem>, id: int): (r: seq<CartItem>)
    ensures Find(id as real).None? ==> r == items
    ensures Find(id as real).Some? && !HasId(items, id) ==> r == items + [CartItem(Find(id as real).value, 1)]
    ensures Find(id as real).Some? && HasId(items, id) ==>
      |r| == |items| &&
      forall i :: 0 <= i < |items| ==>
        r[i] == if Matches(items[i], id) then items[i].(quantity := items[i].quantity + 1) else items[i]
  {
    match Find(id as real)
    case None => items
    case Some(selected) => if !HasId(items, id) then items + [CartItem(selected, 1)] else SetQuantity(items, id, None)
  }

  /** `prev.filter(item => item.headphone.id !== headphoneId)`. */
  function RemoveItem(items: seq<CartItem>, id: int): (r: seq<CartItem>)
    ensures |r| <= |items|
    ensures !HasId(r, id)
  {
    if items == [] then []
    else (if Matches(items[0], id) then [] else [items[0]]) + RemoveItem(items[1..], id)
  }

  /** Removing keeps exactly the items without the id. */
  lemma {:induction false} RemoveMembers(items: seq<CartItem>, id: int)
    ensures forall x :: x in RemoveItem(items, id) <==> x in items && !Matches(x, id)
    decreases |items|
  {
    if items != [] {
      RemoveMembers(items[1..], id);
      assert items == [items[0]] + items[1..];
    }
  }

  /**
   * The `updateQuantity` updaters: a quantity of at most 0 drops the id's
   * lines and keeps every other line; any other quantity sets the id's
   * quantity to `Math.max(1, Math.floor(q))` and leaves the other lines alone.
   */
  function UpdateItem(items: seq<CartItem>, id: int, q: real): (r: seq<CartItem>)
    ensures q <= 0.0 ==> !HasId(r, id) && forall x :: x in r <==> x in items && !Matches(x, id)
    ensures q > 0.0 ==>
      |r| == |items| &&
      forall i :: 0 <= i < |items| ==>
        r[i] == if Matches(items[i], id) then items[i].(quantity := ClampQuantity(q)) else items[i]
  {
    if q <= 0.0 then
      RemoveMembers(items, id);
      RemoveItem(items, id)
    else SetQuantity(items, id, Some(ClampQuantity(q)))
  }

  /** Updating the quantity of an id the cart does not hold changes nothing. */
  lemma SetQuantityAbsent(items: seq<CartItem>, id: int, q: Option<int>)
    requires !HasId(items, id)
    ensures SetQuantity(items, id, q) == items
  {
    assert forall i :: 0 <= i < |items| ==> !Matches(items[i], id);
  }

  lemma {:induction false} RemoveAbsent(items: seq<CartItem>, id: int)
    requires !HasId(items, id)
    ensures RemoveItem(items, id) == items
    decreases |items|
  {
    if items != [] {
      assert !Matches(items[0], id);
      assert !HasId(items[1..], id);
      RemoveAbsent(items[1..], id);
    }
  }

  /** An id the cart does not hold is left alone by every update. */
  lemma UpdateAbsent(items: seq<CartItem>, id: int, q: real)
    requires !HasId(items, id)
    ensures UpdateItem(items, id, q) == items
  {
    if q <= 0.0 { RemoveAbsent(items, id); } else { SetQuantityAbsent(items, id, Some(ClampQuantity(q))); }
  }

  /** Removing keeps the other items in their order: it distributes over concatenation. */
  lemma {:induction false} RemoveAppend(a: seq<CartItem>, b: seq<CartItem>, id: int)
    ensures RemoveItem(a + b, id) == RemoveItem(a, id) + RemoveItem(b, id)
    decreases |a|
  {
    if a == [] {
      assert a + b == b;
    } else {
      var head := if Matches(a[0], id) then [] else [a[0]];
      assert (a + b)[0] == a[0] && (a + b)[1..] == a[1..] + b;
      assert RemoveItem(a + b, id) == head + RemoveItem(a[1..] + b, id);
      RemoveAppend(a[1..], b, id);
    }
  }

  lemma SetQuantityKeeps(items: seq<CartItem>, id: int, q: Option<int>)
    requires WellFormed(items) && (q.Some? ==> q.value >= 1)
    ensures WellFormed(SetQuantity(items, id, q))
  {
    var r := SetQuantity(items, id, q);
    forall i | 0 <= i < |r| ensures r[i].headphone == items[i].headphone && r[i].quantity >= 1 {
      assert r[i] == Bumped(items[i], id, q);
    }
  }

  lemma RemoveKeeps(items: seq<CartItem>, id: int)
    requires WellFormed(items)
    ensures WellFormed(RemoveItem(items, id))
  {
    var r := RemoveItem(items, id);
    RemoveMembers(items, id);
    forall j | 0 <= j < |r| ensures Listed(r[j].headphone) && r[j].quantity >= 1 {
      assert r[j] in items;
    }
    RemoveDistinct(items, id);
  }

  lemma {:induction false} RemoveDistinct(items: seq<CartItem>, id: int)
    requires DistinctIds(items)
    ensures DistinctIds(RemoveItem(items, id))
    decreases |items|
  {
    if items != [] {
      RemoveDistinct(items[1..], id);
      var rest := RemoveItem(items[1..], id);
      var r := RemoveItem(items, id);
      if !Matches(items[0], id) {
        assert r == [items[0]] + rest;
        RemoveMembers(items[1..], id);
        forall j | 0 < j < |r| ensures r[0].headphone.id != r[j].headphone.id {
          assert r[j] in items[1..];
        }
      } else {
        assert r == rest;
      }
    }
  }

  /** Every updater keeps the cart well formed. */
  lemma AddKeeps(items: seq<CartItem>, id: int)
    requires WellFormed(items)
    ensures WellFormed(AddItem(items, id))
  {
    match Find(id as real)
    case None =>
    case Some(h) =>
      if HasId(items, id) {
        SetQuantityKeeps(items, id, None);
      } else {
        AppendKeeps(items, h);
      }
  }

  /** A catalog entry whose id the cart does not hold can be appended with quantity 1. */
  lemma AppendKeeps(items: seq<CartItem>, h: Headphone)
    requires WellFormed(items) && Listed(h) && !HasId(items, h.id)
    ensures WellFormed(items + [CartItem(h, 1)])
  {
    var r := items + [CartItem(h, 1)];
    forall i | 0 <= i < |r| ensures Listed(r[i].headphone) && r[i].quantity >= 1 {
      if i < |items| {
        assert r[i] == items[i];
      }
    }
    forall i, j | 0 <= i < j < |r| ensures r[i].headphone.id != r[j].headphone.id {
      if j == |items| {
        assert !Matches(items[i], h.id);
      } else {
        assert r[i] == items[i] && r[j] == items[j];
      }
    }
  }

  lemma UpdateKeeps(items: seq<CartItem>, id: int, q: real)
    requires WellFormed(items)
    ensures WellFormed(UpdateItem(items, id, q))
  {
    if q <= 0.0 { RemoveKeeps(items, id); } else { SetQuantityKeeps(items, id, Some(ClampQuantity(q))); }
  }

  /** `items.reduce((sum, item) => sum + item.quantity, 0)`. */
  function ItemCount(items: seq<CartItem>): (r: int)
    ensures items == [] ==> r == 0
    ensures (forall i :: 0 <= i < |items| ==> items[i].quantity >= 1) ==> r >= |items|
  {
    if items == [] then 0 else ItemCount(items[..|items| - 1]) + items[|items| - 1].quantity
  }

  /** `items.reduce((sum, item) => sum + item.headphone.price * item.quantity, 0)`. */
  function Subtotal(items: seq<CartItem>): (r: int)
    ensures items == [] ==> r == 0
    ensures (forall i :: 0 <= i < |items| ==> items[i].headphone.price > 0 && items[i].quantity >= 1) ==>
      r >= 0 && (r == 0 <==> items == [])
  {
    if items == [] then 0
    else
      var last := items[|items| - 1];
      if last.headphone.price > 0 && last.quantity >= 1 then LinePositive(last); Subtotal(items[..|items| - 1]) + LineTotal(last)
      else Subtotal(items[..|items| - 1]) + LineTotal(last)
  }

  function LineTotal(item: CartItem): int {
    item.headphone.price * item.quantity
  }

  lemma LinePositive(item: CartItem)
    requires item.headphone.price > 0 && item.quantity >= 1
    ensures LineTotal(item) >= item.headphone.price
  {
  }

  /** One more unit adds one price to the line. */
  lemma LineTotalBump(item: CartItem)
    ensures LineTotal(item.(quantity := item.quantity + 1)) == LineTotal(item) + item.headphone.price
  {
  }

  /** A non-empty sane cart has at least as many units as lines, and a positive subtotal. */
  lemma {:induction false} TotalsPositive(items: seq<CartItem>)
    requires Sane(items)
    ensures ItemCount(items) >= |items|
    ensures items != [] ==> Subtotal(items) > 0
    ensures items == [] ==> ItemCount(items) == 0 && Subtotal(items) == 0
    decreases |items|
  {
    if items != [] {
      var init := items[..|items| - 1];
      assert Sane(init) by {
        forall i | 0 <= i < |init| ensures init[i] == items[i] { }
      }
      TotalsPositive(init);
      var last := items[|items| - 1];
      ListedPositive(last.headphone);
      LinePositive(last);
    }
  }

  lemma {:induction false} TotalsAppend(items: seq<CartItem>, x: CartItem)
    ensures ItemCount(items + [x]) == ItemCount(items) + x.quantity
    ensures Subtotal(items + [x]) == Subtotal(items) + LineTotal(x)
  {
    assert (items + [x])[..|items|] == items;
  }

  /** Adding a catalog item adds one unit and its price; an unknown id adds nothing. */
  lemma {:induction false} AddTotals(items: seq<CartItem>, id: int)
    requires WellFormed(items)
    ensures Find(id as real).None? ==> AddItem(items, id) == items
    ensures Find(id as real).Some? ==>
      && ItemCount(AddItem(items, id)) == ItemCount(items) + 1
      && Subtotal(AddItem(items, id)) == Subtotal(items) + Find(id as real).value.price
  {
    if Find(id as real).Some? {
      if !HasId(items, id) {
        TotalsAppend(items, CartItem(Find(id as real).value, 1));
      } else {
        var k :| 0 <= k < |items| && Matches(items[k], id);
        IncrementTotals(items, id, k);
      }
    }
  }

  /** Incrementing the one line with the id adds one unit of its price. */
  lemma {:induction false} IncrementTotals(items: seq<CartItem>, id: int, k: nat)
    requires DistinctIds(items) && k < |items| && Matches(items[k], id)
    ensures ItemCount(SetQuantity(items, id, None)) == ItemCount(items) + 1
    ensures Subtotal(SetQuantity(items, id, None)) == Subtotal(items) + items[k].headphone.price
    decreases |items|
  {
    var n := |items| - 1;
    if k == n {
      IncrementLast(items, id);
    } else {
      var init, last := items[..n], items[n];
      assert items == init + [last];
      assert !Matches(last, id) by {
        assert items[k].headphone.id != last.headphone.id;
      }
      assert DistinctIds(init);
      IncrementTotals(init, id, k);
      SetQuantitySnoc(init, last, id, None);
      TotalsSnoc(init, SetQuantity(init, id, None), last, items[k].headphone.price);
    }
  }

  /** The updater maps the last line on its own. */
  lemma SetQuantitySnoc(init: seq<CartItem>, last: CartItem, id: int, q: Option<int>)
    ensures SetQuantity(init + [last], id, q) == SetQuantity(init, id, q) + [Bumped(last, id, q)]
  {
    var r, r' := SetQuantity(init + [last], id, q), SetQuantity(init, id, q);
    forall i | 0 <= i < |init| ensures r[i] == r'[i] {
      assert (init + [last])[i] == init[i];
    }
    assert r == r[..|init|] + [r[|init|]];
  }

  /** A difference in the totals of two carts survives appending the same line to both. */
  lemma TotalsSnoc(a: seq<CartItem>, b: seq<CartItem>, last: CartItem, price: int)
    requires ItemCount(b) == ItemCount(a) + 1 && Subtotal(b) == Subtotal(a) + price
    ensures ItemCount(b + [last]) == ItemCount(a + [last]) + 1
    ensures Subtotal(b + [last]) == Subtotal(a + [last]) + price
  {
    TotalsAppend(a, last);
    TotalsAppend(b, last);
  }

  lemma IncrementLast(items: seq<CartItem>, id: int)
    requires DistinctIds(items) && items != [] && Matches(items[|items| - 1], id)
    ensures ItemCount(SetQuantity(items, id, None)) == ItemCount(items) + 1
    ensures Subtotal(SetQuantity(items, id, None)) == Subtotal(items) + items[|items| - 1].headphone.price
  {
    var n := |items| - 1;
    BumpLast(items, id);
    assert items == items[..n] + [items[n]];
    TotalsBump(items[..n], items[n]);
  }

  /** One more unit of the last line adds one to the count and its price to the subtotal. */
  lemma TotalsBump(init: seq<CartItem>, last: CartItem)
    ensures ItemCount(init + [last.(quantity := last.quantity + 1)]) == ItemCount(init + [last]) + 1
    ensures Subtotal(init + [last.(quantity := last.quantity + 1)]) == Subtotal(init + [last]) + last.headphone.price
  {
    TotalsAppend(init, last);
    TotalsAppend(init, last.(quantity := last.quantity + 1));
    LineTotalBump(last);
  }

  /** With distinct ids, a match on the last line leaves the others as they are. */
  lemma BumpLast(items: seq<CartItem>, id: int)
    requires DistinctIds(items) && items != [] && Matches(items[|items| - 1], id)
    ensures SetQuantity(items, id, None) == items[..|items| - 1] + [items[|items| - 1].(quantity := items[|items| - 1].quantity + 1)]
  {
    var n := |items| - 1;
    var r := SetQuantity(items, id, None);
    forall i | 0 <= i < n ensures r[i] == items[i] {
      assert items[i].headphone.id != items[n].headphone.id;
    }
    assert r[..n] == items[..n];
    assert r == r[..n] + [r[n]];
  }

  /** The provider's `items` cell; each callback replaces it with its updater's result. */
  class CartProvider {
    var items: seq<CartItem>

    constructor()
      ensures items == []
    {
      items := [];
    }

    method AddToCart(headphoneId: int)
      modifies this
      ensures items == AddItem(old(items), headphoneId)
      ensures old(WellFormed(items)) ==> WellFormed(items)
    {
      if WellFormed(items) { AddKeeps(items, headphoneId); }
      items := AddItem(items, headphoneId);
    }

    method RemoveFromCart(headphoneId: int)
      modifies this
      ensures items == RemoveItem(old(items), headphoneId)
      ensures old(WellFormed(items)) ==> WellFormed(items)
    {
      if WellFormed(items) { RemoveKeeps(items, headphoneId); }
      items := RemoveItem(items, headphoneId);
    }

    method UpdateQuantity(headphoneId: int, quantity: real)
      modifies this
      ensures items == UpdateItem(old(items), headphoneId, quantity)
      ensures old(WellFormed(items)) ==> WellFormed(items)
    {
      if quantity <= 0.0 {
        if WellFormed(items) { RemoveKeeps(items, headphoneId); }
        items := RemoveItem(items, headphoneId);
        return;
      }
      var nextQuantity := ClampQuantity(quantity);
      if WellFormed(items) { SetQuantityKeeps(items, headphoneId, Some(nextQuantity)); }
      items := SetQuantity(items, headphoneId, Some(nextQuantity));
    }

    method ClearCart()
      modifies this
      ensures items == [] && ItemCount(items) == 0 && Subtotal(items) == 0
    {
      items := [];
    }

    /** The loading effect, given the parsed stored value: sanitized items, or the empty cart when sanitizing throws. */
    method Restore(parsed: JsValue)
      modifies this
      ensures SanitizeCartItems(parsed).Some? ==> items == SanitizeCartItems(parsed).value
      ensures SanitizeCartItems(parsed).None? ==> items == []
      ensures Sane(items)
    {
      var sanitized := SanitizeCartItems(parsed);
      if sanitized.None? {
        items := [];
      } else {
        items := sanitized.value;
      }
    }
  }
}
