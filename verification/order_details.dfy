/** The order details page (`OrderDetails`): the one-shot load of an order,
    the defensive reading of its item and payment lists, the item table with
    its "No items" and totals rows, and which view the page shows. */
module OrderDetails {
  import opened JsValues
  import Api

  /** `Array.isArray(data?.orderItems) ? data.orderItems : []` */
  function Items(data: Val): (items: seq<Val>)
    ensures Field(data, "orderItems").Arr? ==> items == Field(data, "orderItems").elems
    ensures !Field(data, "orderItems").Arr? ==> items == []
  {
    ArrayOrEmpty(Field(data, "orderItems"))
  }

  /** `Array.isArray(data?.payments) ? data.payments : []`: the same guard as
      `Items` on another key; `Render` passes the result to the payments
      section. */
  function Payments(data: Val): (payments: seq<Val>)
    ensures Field(data, "payments").Arr? ==> payments == Field(data, "payments").elems
    ensures !Field(data, "payments").Arr? ==> payments == []
  {
    ArrayOrEmpty(Field(data, "payments"))
  }

  /** `it.quantity || 0`: a missing or falsy quantity counts as 0. */
  function Quantity(item: Val): (q: Val)
    ensures !q.Undefined? && !q.Null?
    ensures Truthy(Field(item, "quantity")) ==> q == Field(item, "quantity")
    ensures !Truthy(Field(item, "quantity")) ==> q == Num(0)
  {
    Or(Field(item, "quantity"), Num(0))
  }

  /** `items.reduce((sum, it) => sum + (it.quantity || 0), 0)`, with JavaScript's
      `+`: a quantity that is a string turns the running total into a string. */
  function TotalQuantity(items: seq<Val>): (total: Val)
    ensures !total.Undefined? && !total.Null?
    decreases |items|
  {
    if items == [] then Num(0)
    else Plus(TotalQuantity(items[..|items| - 1]), Quantity(items[|items| - 1]))
  }

  /** A quantity the sum treats as a number: an integer, or a falsy value. */
  predicate NumericQuantity(item: Val) {
    Field(item, "quantity").Num? || !Truthy(Field(item, "quantity"))
  }

  /** The integer an item contributes to the total. */
  function QuantityValue(item: Val): int {
    if Field(item, "quantity").Num? then Field(item, "quantity").n else 0
  }

  /** The arithmetic sum of the quantities, taken front to back. */
  function QuantitySum(items: seq<Val>): int {
    if items == [] then 0 else QuantityValue(items[0]) + QuantitySum(items[1..])
  }

  lemma {:induction false} QuantitySumSnoc(items: seq<Val>, x: Val)
    ensures QuantitySum(items + [x]) == QuantitySum(items) + QuantityValue(x)
  {
    if items != [] {
      assert (items + [x])[1..] == items[1..] + [x];
      QuantitySumSnoc(items[1..], x);
    }
  }

  /** With numeric quantities, the total is the sum of the quantities, with
      missing and falsy ones counted as 0. */
  lemma {:induction false} TotalIsSum(items: seq<Val>)
    requires forall k :: 0 <= k < |items| ==> NumericQuantity(items[k])
    ensures TotalQuantity(items) == Num(QuantitySum(items))
    decreases |items|
  {
    if items != [] {
      var init := items[..|items| - 1];
      var last := items[|items| - 1];
      TotalIsSum(init);
      QuantitySumSnoc(init, last);
      assert init + [last] == items;
    }
  }

  /** A single item whose quantity is a non-empty string turns the total into
      text: `0 + "2"` is `"02"`. */
  lemma StringQuantityConcatenates(item: Val, s: string)
    requires Field(item, "quantity") == Str(s) && s != ""
    ensures TotalQuantity([item]) == Str("0" + s)
  {
    assert [item][..0] == [];
    assert TotalQuantity([]) == Num(0);
    assert Quantity(item) == Str(s);
    assert ToJsString(Num(0)) == "0" by {
      assert NatToString(0) == [DigitChar(0)];
    }
    assert TotalQuantity([item]) == Plus(Num(0), Str(s));
  }

  /** `it.product_type === 'part' ? it.part_name : it.merchandise_name` */
  function DisplayName(item: Val): (name: Val)
    ensures Field(item, "product_type") == Str("part") ==> name == Field(item, "part_name")
    ensures Field(item, "product_type") != Str("part") ==> name == Field(item, "merchandise_name")
  {
    if Field(item, "product_type") == Str("part") then Field(item, "part_name")
    else Field(item, "merchandise_name")
  }

  /** The rows of the item table: one per item, then either the "No items" row
      or the totals row. Prices are not modelled. */
  datatype BodyRow =
    | ItemRow(name: Val, productType: Val, quantity: Val)
    | NoItemsRow
    | TotalsRow(totalQuantity: Val)

  function ItemRows(items: seq<Val>): (rows: seq<BodyRow>)
    ensures |rows| == |items|
    ensures forall k :: 0 <= k < |items| ==>
      rows[k] == ItemRow(DisplayName(items[k]), Field(items[k], "product_type"), Field(items[k], "quantity"))
  {
    if items == [] then []
    else [ItemRow(DisplayName(items[0]), Field(items[0], "product_type"), Field(items[0], "quantity"))]
         + ItemRows(items[1..])
  }

  function ItemTable(items: seq<Val>): (rows: seq<BodyRow>)
    ensures |rows| == |items| + 1
    ensures rows[..|items|] == ItemRows(items)
    ensures rows[|items|] == NoItemsRow <==> items == []
    ensures rows[|items|].TotalsRow? <==> items != []
    ensures items != [] ==> rows[|items|].totalQuantity == TotalQuantity(items)
  {
    ItemRows(items) + (if items == [] then [NoItemsRow] else [TotalsRow(TotalQuantity(items))])
  }

  /** The component state the load writes. */
  datatype Page = Page(loading: bool, data: Val)

  const Initial: Page := Page(true, Null)

  /** What the load did: whether `ordersApi.getOne` was called, the error toast
      shown (if any) and the resulting state. */
  datatype LoadResult = LoadResult(requested: bool, toast: Option<Val>, page: Page)

  /** `load()`, run on mount and again whenever the route's `id` changes, on
      the page state `p` it finds. Without an id nothing happens; a failed
      reply shows `error || "Failed to load order"` and stops loading, but
      leaves `data` as it was; otherwise the data is stored. `reply` is the
      envelope `ordersApi.getOne(id)` resolves to. */
  function Load(p: Page, id: Option<string>, reply: Api.ApiResponse): (r: LoadResult)
    ensures r.requested <==> id.Some? && id.value != ""
    ensures !r.requested ==> r.page == p && r.toast.None?
    ensures r.requested ==> !r.page.loading
    ensures r.requested && Api.Failed(reply) ==> r.page.data == p.data
    ensures r.requested && reply.Error? ==> r.toast == Some(reply.error)
    ensures r.requested && reply.Data? && !Truthy(reply.data) ==> r.toast == Some(Str("Failed to load order"))
    ensures r.requested && !Api.Failed(reply) ==> r.page.data == reply.data && r.toast.None?
  {
    if id.None? || id.value == "" then LoadResult(false, None, p)
    else if Api.Failed(reply) then
      var message := if reply.Error? then reply.error else Str("Failed to load order");
      LoadResult(true, Some(Or(message, Str("Failed to load order"))), p.(loading := false))
    else LoadResult(true, None, Page(false, reply.data))
  }

  /** What the page renders. */
  datatype View =
    | Spinner
    | NotFound
    | Details(order: Val, rows: seq<BodyRow>, payments: seq<Val>)

  function Render(p: Page): (v: View)
    ensures p.loading <==> v.Spinner?
    ensures !p.loading ==> (v.NotFound? <==> !Truthy(Field(p.data, "order")))
    ensures v.Details? ==>
      v.order == Field(p.data, "order") && v.rows == ItemTable(Items(p.data)) && v.payments == Payments(p.data)
  {
    if p.loading then Spinner
    else if !Truthy(Field(p.data, "order")) then NotFound
    else Details(Field(p.data, "order"), ItemTable(Items(p.data)), Payments(p.data))
  }

  /** Without a route id the freshly mounted page never leaves the spinner. */
  lemma MissingIdSpins(id: Option<string>, reply: Api.ApiResponse)
    requires id.None? || id.value == ""
    ensures Render(Load(Initial, id, reply).page) == Spinner
  {
  }

  /** On the first load, an error or a reply without an `order` ends on
      "Order not found". */
  lemma FailedLoadNotFound(id: string, reply: Api.ApiResponse)
    requires id != ""
    requires Api.Failed(reply) || !Truthy(Field(reply.data, "order"))
    ensures Render(Load(Initial, Some(id), reply).page) == NotFound
  {
  }

  /** A failed re-run for another id keeps the order loaded before: the page
      goes on showing it, now under the new route. */
  lemma FailedRerunKeepsOrder(p: Page, id: string, reply: Api.ApiResponse)
    requires id != "" && Api.Failed(reply)
    ensures Load(p, Some(id), reply).page == p.(loading := false)
    ensures !p.loading ==> Render(Load(p, Some(id), reply).page) == Render(p)
  {
  }

  /** A reply carrying an order shows it, with one row per item of a proper
      `orderItems` array followed by the totals row, and no rows but
      "No items" when `orderItems` is not a non-empty array. */
  lemma LoadedOrderDetails(p: Page, id: string, reply: Api.ApiResponse)
    requires id != "" && reply.Data? && Truthy(Field(reply.data, "order"))
    ensures var v := Render(Load(p, Some(id), reply).page);
            v.Details? && v.order == Field(reply.data, "order")
            && (Field(reply.data, "orderItems").Arr? && Field(reply.data, "orderItems").elems != []
                ==> v.rows[|v.rows| - 1] == TotalsRow(TotalQuantity(Field(reply.data, "orderItems").elems)))
            && (!Field(reply.data, "orderItems").Arr? || Field(reply.data, "orderItems").elems == []
                ==> v.rows == [NoItemsRow])
  {
    assert Truthy(reply.data);
  }
}
