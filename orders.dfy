/**
 * The order route (app/api/orders/route.ts): `isValidItems` and the guard
 * chain of `POST`, with the insert into the orders table given as its outcome.
 */
module Orders {
  import opened Wrappers
  import opened Text
  import opened Js

  const FieldsRequired := "name, email, and address are required"
  const ItemsRequired := "items must be a non-empty array"
  const SubtotalRequired := "subtotal must be a positive number"
  const OrderFailed := "Failed to place order"

  /** `typeof v === "object"`: null, arrays and plain objects. */
  predicate TypeofObject(v: JsValue) {
    v.Null? || v.Array? || v.Object?
  }

  /** The `every` callback of `isValidItems`. */
  predicate IsValidItem(item: JsValue)
    ensures IsValidItem(item) ==> item.Object?
  {
    && TypeofObject(item)
    && !item.Null?
    && OptionalProperty(item, "headphoneId").Number?
    && OptionalProperty(item, "headphoneId").n.Finite?
    && OptionalProperty(item, "quantity").Number?
    && IsInteger(OptionalProperty(item, "quantity").n)
    && OptionalProperty(item, "quantity").n.value > 0.0
  }

  /** `isValidItems`: a non-empty array of valid items. */
  predicate IsValidItems(items: JsValue)
    ensures IsValidItems(items) ==> items.Array? && items.elems != [] && forall i :: 0 <= i < |items.elems| ==> items.elems[i].Object?
  {
    items.Array? && |items.elems| > 0 && forall i :: 0 <= i < |items.elems| ==> IsValidItem(items.elems[i])
  }

  /**
   * A valid item is exactly a plain object (an array has neither property)
   * whose `headphoneId` is a finite number and whose `quantity` is a positive
   * whole number.
   */
  lemma IsValidItemIff(item: JsValue)
    ensures IsValidItem(item) <==>
      && item.Object?
      && "headphoneId" in item.props && item.props["headphoneId"].Number? && item.props["headphoneId"].n.Finite?
      && "quantity" in item.props && item.props["quantity"].Number? && item.props["quantity"].n.Finite?
      && item.props["quantity"].n.value.Floor as real == item.props["quantity"].n.value
      && item.props["quantity"].n.value >= 1.0
  {
    if IsValidItem(item) {
      var q := item.props["quantity"].n.value;
      assert q.Floor >= 1 by {
        assert q.Floor as real == q && q > 0.0;
      }
    }
  }

  /** Whatever is not a non-empty array is refused, and so is an array with one invalid item. */
  lemma IsValidItemsRefuses(items: JsValue)
    ensures !items.Array? ==> !IsValidItems(items)
    ensures items.Array? && items.elems == [] ==> !IsValidItems(items)
    ensures items.Array? && (exists i :: 0 <= i < |items.elems| && !IsValidItem(items.elems[i])) ==> !IsValidItems(items)
  {
  }

  /** What the insert returns: the new row id, or what it threw (opening the database included). */
  datatype Insert = Inserted(rowId: int) | InsertThrew(err: Thrown)

  /** The values bound into the INSERT statement; `items` is what `JSON.stringify` serialises. */
  datatype OrderRow = OrderRow(email: string, name: string, address: string, items: JsValue, subtotal: real)

  datatype Body = ErrorBody(error: string) | PlacedBody(id: int, ok: bool)

  datatype Response = Response(status: nat, body: Body)

  /** The trimmed string fields of the request body, "" when absent or not a string. */
  function Field(body: JsValue, key: string): string {
    TrimmedStringOrEmpty(OptionalProperty(body, key))
  }

  predicate FieldsPresent(body: JsValue) {
    Field(body, "name") != "" && Field(body, "email") != "" && Field(body, "address") != ""
  }

  /** `Number(body?.subtotal)` is finite and positive. */
  predicate SubtotalPositive(body: JsValue) {
    ToNumber(OptionalProperty(body, "subtotal")).Finite? && ToNumber(OptionalProperty(body, "subtotal")).value > 0.0
  }

  /** All three guards pass. */
  predicate Accepted(body: JsValue) {
    FieldsPresent(body) && IsValidItems(OptionalProperty(body, "items")) && SubtotalPositive(body)
  }

  /** The row an accepted body inserts. */
  function RowOf(body: JsValue): OrderRow
    requires SubtotalPositive(body)
  {
    OrderRow(Field(body, "email"), Field(body, "name"), Field(body, "address"),
             OptionalProperty(body, "items"), ToNumber(OptionalProperty(body, "subtotal")).value)
  }

  /**
   * `POST` on a parsed request body: the response, and the row written when
   * the insert is reached and succeeds. `insert` is what running the insert
   * would give; it is consulted only once every guard has passed.
   */
  function Post(body: JsValue, insert: Insert): (r: (Response, Option<OrderRow>))
    ensures !FieldsPresent(body) ==> r == (Response(400, ErrorBody(FieldsRequired)), None)
    ensures FieldsPresent(body) && !IsValidItems(OptionalProperty(body, "items")) ==>
      r == (Response(400, ErrorBody(ItemsRequired)), None)
    ensures FieldsPresent(body) && IsValidItems(OptionalProperty(body, "items")) && !SubtotalPositive(body) ==>
      r == (Response(400, ErrorBody(SubtotalRequired)), None)
    ensures r.1.Some? <==> Accepted(body) && insert.Inserted?
    ensures r.0.status == 200 <==> r.1.Some?
    ensures r.1.Some? ==> r.1 == Some(RowOf(body)) && r.0.body == PlacedBody(insert.rowId, true)
    ensures Accepted(body) && insert.InsertThrew? ==> r.0 == Response(500, ErrorBody(ErrorMessageOr(insert.err, OrderFailed)))
  {
    var name := Field(body, "name");
    var email := Field(body, "email");
    var address := Field(body, "address");
    var subtotal := ToNumber(OptionalProperty(body, "subtotal"));
    var items := OptionalProperty(body, "items");
    if name == "" || email == "" || address == "" then
      (Response(400, ErrorBody(FieldsRequired)), None)
    else if !IsValidItems(items) then
      (Response(400, ErrorBody(ItemsRequired)), None)
    else if !subtotal.Finite? || subtotal.value <= 0.0 then
      (Response(400, ErrorBody(SubtotalRequired)), None)
    else match insert
      case Inserted(rowId) => (Response(200, PlacedBody(rowId, true)), Some(OrderRow(email, name, address, items, subtotal.value)))
      case InsertThrew(err) => (Response(500, ErrorBody(ErrorMessageOr(err, OrderFailed))), None)
  }

  /**
   * What the table can come to hold: every stored row has name, email and
   * address non-empty with no surrounding whitespace, a non-empty list of
   * valid items, and a positive subtotal.
   */
  predicate ValidRow(row: OrderRow) {
    && Clean(row.name) && Clean(row.email) && Clean(row.address)
    && IsValidItems(row.items) && row.subtotal > 0.0
  }

  predicate Clean(s: string) {
    s != [] && !IsWhitespace(s[0]) && !IsWhitespace(s[|s| - 1])
  }

  /** The result of trim, when non-empty, starts and ends with a non-whitespace character. */
  lemma TrimClean(s: string)
    requires Trim(s) != ""
    ensures Clean(Trim(s))
  {
    var t := TrimStart(s);
    var u := TrimEnd(t);
    assert u == t[..|u|];
    assert u[0] == t[0];
  }

  lemma PostStoresValidRows(body: JsValue, insert: Insert)
    ensures Post(body, insert).1.Some? ==> ValidRow(Post(body, insert).1.value)
  {
    if Post(body, insert).1.Some? {
      TrimClean(OptionalProperty(body, "name").s);
      TrimClean(OptionalProperty(body, "email").s);
      TrimClean(OptionalProperty(body, "address").s);
    }
  }

  /** Trimming is why a field of spaces is as good as a missing one. */
  lemma BlankFieldRefused(body: JsValue, insert: Insert, key: string)
    requires key in {"name", "email", "address"}
    requires OptionalProperty(body, key).Str?
    requires forall i :: 0 <= i < |OptionalProperty(body, key).s| ==> IsWhitespace(OptionalProperty(body, key).s[i])
    ensures Post(body, insert) == (Response(400, ErrorBody(FieldsRequired)), None)
  {
    TrimEmptyIff(OptionalProperty(body, key).s);
  }
}
