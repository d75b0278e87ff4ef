/**
 * The order request the checkout page (app/site/checkout/page.tsx) builds
 * from the cart, and what the order route makes of it. The JSON round trip
 * between the two is the identity on these values.
 */
module Checkout {
  import opened Wrappers
  import opened Text
  import opened Js
  import opened Catalog
  import opened Cart
  import opened Orders

  /** `{ headphoneId: i.headphone.id, quantity: i.quantity }`. */
  function ItemPayload(item: CartItem): JsValue {
    Object(map["headphoneId" := Number(Finite(item.headphone.id as real)), "quantity" := Number(Finite(item.quantity as real))])
  }

  /** `items.map(...)`: one payload per line, in order. */
  function Payload(items: seq<CartItem>): (r: seq<JsValue>)
    ensures |r| == |items| && forall i :: 0 <= i < |items| ==> r[i] == ItemPayload(items[i])
  {
    if items == [] then [] else [ItemPayload(items[0])] + Payload(items[1..])
  }

  /** The request body of `handlePlaceOrder`. */
  function OrderRequest(name: string, email: string, address: string, items: seq<CartItem>): JsValue {
    Object(map[
      "name" := Str(name), "email" := Str(email), "address" := Str(address),
      "items" := Array(Payload(items)), "subtotal" := Number(Finite(Subtotal(items) as real))])
  }

  /** What the route reads back from that body. */
  lemma OrderRequestFields(name: string, email: string, address: string, items: seq<CartItem>)
    ensures OptionalProperty(OrderRequest(name, email, address, items), "name") == Str(name)
    ensures OptionalProperty(OrderRequest(name, email, address, items), "email") == Str(email)
    ensures OptionalProperty(OrderRequest(name, email, address, items), "address") == Str(address)
    ensures OptionalProperty(OrderRequest(name, email, address, items), "items") == Array(Payload(items))
    ensures OptionalProperty(OrderRequest(name, email, address, items), "subtotal") == Number(Finite(Subtotal(items) as real))
  {
  }

  /** A line with a quantity of at least 1 gives a valid order item. */
  lemma ItemPayloadValid(item: CartItem)
    requires item.quantity >= 1
    ensures IsValidItem(ItemPayload(item))
  {
    var q := item.quantity as real;
    assert q.Floor == item.quantity;
  }

  /** A non-empty sane cart's payload passes `isValidItems`; the empty one does not. */
  lemma PayloadValid(items: seq<CartItem>)
    requires Sane(items)
    ensures IsValidItems(Array(Payload(items))) <==> items != []
  {
    var p := Payload(items);
    forall i | 0 <= i < |p| ensures IsValidItem(p[i]) {
      ItemPayloadValid(items[i]);
    }
  }

  /**
   * An order placed from a non-empty sane cart with non-blank name, email and
   * address passes every guard: it is stored exactly when the insert
   * succeeds, with the cart's items and subtotal.
   */
  lemma CartOrderAccepted(name: string, email: string, address: string, items: seq<CartItem>, insert: Insert)
    requires Sane(items) && items != []
    requires Trim(name) != "" && Trim(email) != "" && Trim(address) != ""
    ensures Post(OrderRequest(name, email, address, items), insert).1.Some? <==> insert.Inserted?
    ensures insert.Inserted? ==>
      Post(OrderRequest(name, email, address, items), insert).1 ==
        Some(OrderRow(Trim(email), Trim(name), Trim(address), Array(Payload(items)), Subtotal(items) as real))
  {
    CartRequestAccepted(name, email, address, items);
  }

  lemma CartRequestAccepted(name: string, email: string, address: string, items: seq<CartItem>)
    requires Sane(items) && items != []
    requires Trim(name) != "" && Trim(email) != "" && Trim(address) != ""
    ensures Accepted(OrderRequest(name, email, address, items))
    ensures RowOf(OrderRequest(name, email, address, items)) ==
      OrderRow(Trim(email), Trim(name), Trim(address), Array(Payload(items)), Subtotal(items) as real)
  {
    OrderRequestFields(name, email, address, items);
    PayloadValid(items);
    TotalsPositive(items);
  }

  /** The page never sends an empty cart, and the route would refuse one whose fields are filled in. */
  lemma EmptyCartRefused(name: string, email: string, address: string, insert: Insert)
    requires Trim(name) != "" && Trim(email) != "" && Trim(address) != ""
    ensures Post(OrderRequest(name, email, address, []), insert) == (Response(400, ErrorBody(ItemsRequired)), None)
  {
    OrderRequestFields(name, email, address, []);
  }
}
