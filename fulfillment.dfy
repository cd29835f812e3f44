/**
 * The Shopify fulfillment webhooks: a "fulfillment created" order payload
 * produces a submitted ERP delivery note per new fulfillment, its lines split
 * across warehouses by `ShopifyWarehouse.get_wh`; a "fulfillment updated"
 * payload with status "cancelled" cancels the submitted delivery note.
 *
 * The ERP is an object holding the delivery notes keyed by fulfillment id and
 * the Shopify log. What the ERP answers to queries (sales orders, item codes,
 * the warehouse priority list, stock) and whether its document engine accepts
 * a submit or a cancel are inputs, collected in `Env`.
 */
module Fulfillment {
  import opened Wrappers
  import opened ShopifyWarehouse

  /** A delivery-note line: the copy of a sales-order line that `make_delivery_note` drafts. */
  datatype DnItem = DnItem(itemCode: string, qty: int, warehouse: string, soDetail: string)

  /** A Shopify fulfillment line item; `ref` is what `get_item_code` resolves. */
  datatype LineItem = LineItem(ref: string, quantity: int)

  /** A Shopify fulfillment, as carried by both webhooks. */
  datatype ShopifyFulfillment = ShopifyFulfillment(id: string, status: string, lineItems: seq<LineItem>)

  /** A Shopify order payload with its fulfillments. */
  datatype Order = Order(id: string, fulfillments: seq<ShopifyFulfillment>)

  /** An ERP sales order; `draftItems` are the lines its delivery-note draft starts with. */
  datatype SalesOrder = SalesOrder(name: string, docstatus: int, draftItems: seq<DnItem>)

  /** The two flags of the Shopify settings document this core reads. */
  datatype Setting = Setting(syncDeliveryNote: bool, syncDeliveryCancellation: bool)

  /**
   * What the ERP answers during one event: sales orders by Shopify order id,
   * item codes by line-item reference, the warehouse priority list, stock per
   * item code, and the fulfillment ids whose submit or cancel it rejects.
   */
  datatype Env = Env(
    salesOrders: map<string, SalesOrder>,
    itemCodes: map<string, string>,
    priority: seq<string>,
    stock: map<string, map<string, int>>,
    rejectSubmit: set<string>,
    rejectCancel: set<string>)

  datatype DocStatus = Submitted | Cancelled

  datatype DeliveryNote = DeliveryNote(salesOrder: string, items: seq<DnItem>, status: DocStatus)

  /** Delivery notes by fulfillment id; an absent id has no delivery note. */
  type Notes = map<string, DeliveryNote>

  /** What can be raised while handling an event. */
  datatype Fault =
    | NoWarehouseMapping(itemCode: string, qty: int)
    | SubmitRejected(fulfillmentId: string)
    | CancelRejected(fulfillmentId: string)

  /** The status recorded by `create_shopify_log`. */
  datatype Outcome = Success | Invalid(message: string) | Error(fault: Fault)

  /** The delivery notes after one event, and the outcome logged for it. */
  datatype Step = Step(notes: Notes, outcome: Outcome)

  const SALES_ORDER_NOT_FOUND := "Sales Order not found for syncing delivery note."
  const DELIVERY_NOTE_NOT_FOUND := "Delivery Note not found for updating status."
  const CANCELLED := "cancelled"

  // ---------------------------------------------------------------------------
  // Lookups that stand for ERP queries.
  // ---------------------------------------------------------------------------

  /** `get_sales_order(order id)`. */
  function SalesOrderFor(env: Env, orderId: string): Option<SalesOrder>
  {
    if orderId in env.salesOrders then Some(env.salesOrders[orderId]) else None
  }

  /** `get_item_code(item)`. */
  function ItemCodeOf(env: Env, item: LineItem): Option<string>
  {
    if item.ref in env.itemCodes then Some(env.itemCodes[item.ref]) else None
  }

  /** The `Bin` rows of an item, as a stock snapshot. */
  function StockFor(env: Env, itemCode: string): map<string, int>
  {
    if itemCode in env.stock then env.stock[itemCode] else map[]
  }

  // ---------------------------------------------------------------------------
  // `get_fulfillment_items`.
  // ---------------------------------------------------------------------------

  /** One copy of `dn` per dictionary entry, in dictionary order. */
  function Split(dn: DnItem, alloc: seq<Share>): seq<DnItem>
  {
    if alloc == [] then []
    else
      var n := |alloc| - 1;
      Split(dn, alloc[..n]) + [dn.(qty := alloc[n].qty, warehouse := alloc[n].warehouse)]
  }

  lemma SplitSnoc(dn: DnItem, alloc: seq<Share>, k: nat)
    requires k < |alloc|
    ensures Split(dn, alloc[..k + 1]) == Split(dn, alloc[..k]) + [dn.(qty := alloc[k].qty, warehouse := alloc[k].warehouse)]
  {
    assert alloc[..k + 1][..k] == alloc[..k];
  }

  /**
   * Line splitting: one line per dictionary entry, in dictionary order, each
   * a copy of `dn` with only `qty` and `warehouse` replaced.
   */
  lemma {:induction false} SplitLines(dn: DnItem, alloc: seq<Share>)
    ensures |Split(dn, alloc)| == |alloc|
    ensures forall k :: 0 <= k < |alloc| ==>
              Split(dn, alloc)[k] == dn.(qty := alloc[k].qty, warehouse := alloc[k].warehouse)
  {
    if alloc != [] {
      SplitLines(dn, alloc[..|alloc| - 1]);
    }
  }

  /** The lines one fulfillment line item contributes for one draft line. */
  function PairLines(item: LineItem, dn: DnItem, env: Env): Result<seq<DnItem>, Fault>
  {
    if ItemCodeOf(env, item) != Some(dn.itemCode) then Ok([])
    else
      match Allocate(env.priority, StockFor(env, dn.itemCode), item.quantity)
      case None => Err(NoWarehouseMapping(dn.itemCode, item.quantity))
      case Some(alloc) =>
        if alloc == [] then Err(NoWarehouseMapping(dn.itemCode, item.quantity))
        else Ok(Split(dn, alloc))
  }

  /** The lines one fulfillment line item contributes, over the draft lines in order. */
  function ItemLines(item: LineItem, dns: seq<DnItem>, env: Env): Result<seq<DnItem>, Fault>
  {
    if dns == [] then Ok([])
    else
      var n := |dns| - 1;
      match ItemLines(item, dns[..n], env)
      case Err(e) => Err(e)
      case Ok(prev) =>
        match PairLines(item, dns[n], env)
        case Err(e) => Err(e)
        case Ok(lines) => Ok(prev + lines)
  }

  /** All lines of a fulfillment, over its line items in order; the first failure is raised. */
  function FulfillmentItems(items: seq<LineItem>, dns: seq<DnItem>, env: Env): Result<seq<DnItem>, Fault>
  {
    if items == [] then Ok([])
    else
      var n := |items| - 1;
      match FulfillmentItems(items[..n], dns, env)
      case Err(e) => Err(e)
      case Ok(prev) =>
        match ItemLines(items[n], dns, env)
        case Err(e) => Err(e)
        case Ok(lines) => Ok(prev + lines)
  }

  /** `get_fulfillment_items`: the draft lines `dnItems`, split per warehouse allocation. */
  method GetFulfillmentItems(dnItems: seq<DnItem>, fulfillmentItems: seq<LineItem>, env: Env)
    returns (r: Result<seq<DnItem>, Fault>)
    ensures r == FulfillmentItems(fulfillmentItems, dnItems, env)
  {
    var items: seq<DnItem> := [];
    var i := 0;
    while i < |fulfillmentItems|
      invariant 0 <= i <= |fulfillmentItems|
      invariant FulfillmentItems(fulfillmentItems[..i], dnItems, env) == Ok(items)
    {
      var lines := AppendItemLines(fulfillmentItems[i], dnItems, env);
      FulfillmentItemsStep(fulfillmentItems, dnItems, i, env, items);
      if lines.Err? {
        return Err(lines.error);
      }
      items := items + lines.value;
      i := i + 1;
    }
    assert fulfillmentItems[..i] == fulfillmentItems;
    return Ok(items);
  }

  /**
   * The body of the outer loop of `get_fulfillment_items`: the inner loop
   * over the draft lines for one fulfillment line item, with the copies
   * appended per warehouse.
   */
  method AppendItemLines(item: LineItem, dnItems: seq<DnItem>, env: Env) returns (r: Result<seq<DnItem>, Fault>)
    ensures r == ItemLines(item, dnItems, env)
  {
    var items: seq<DnItem> := [];
    var j := 0;
    while j < |dnItems|
      invariant 0 <= j <= |dnItems|
      invariant ItemLines(item, dnItems[..j], env) == Ok(items)
    {
      var dnItem := dnItems[j];
      ItemLinesStep(item, dnItems, j, env, items);
      if ItemCodeOf(env, item) == Some(dnItem.itemCode) {
        var itemWh := GetWh(env.priority, StockFor(env, dnItem.itemCode), item.quantity);
        PairLinesOf(item, dnItem, env, itemWh);
        if itemWh.None? || itemWh.value == [] {
          return Err(NoWarehouseMapping(dnItem.itemCode, item.quantity));
        }
        var copies := SplitCopies(dnItem, itemWh.value);
        items := items + copies;
      } else {
        assert PairLines(item, dnItem, env) == Ok([]);
        assert items + [] == items;
      }
      j := j + 1;
    }
    assert dnItems[..j] == dnItems;
    return Ok(items);
  }

  /** The innermost loop: one copy of the draft line per allocated warehouse, in dictionary order. */
  method SplitCopies(dnItem: DnItem, alloc: seq<Share>) returns (copies: seq<DnItem>)
    ensures copies == Split(dnItem, alloc)
  {
    copies := [];
    var k := 0;
    while k < |alloc|
      invariant 0 <= k <= |alloc|
      invariant copies == Split(dnItem, alloc[..k])
    {
      SplitSnoc(dnItem, alloc, k);
      copies := copies + [dnItem.(qty := alloc[k].qty, warehouse := alloc[k].warehouse)];
      k := k + 1;
    }
    assert alloc[..k] == alloc;
  }

  /** `PairLines` of a matching draft line, in terms of its allocation. */
  lemma PairLinesOf(item: LineItem, dn: DnItem, env: Env, alloc: Option<seq<Share>>)
    requires ItemCodeOf(env, item) == Some(dn.itemCode)
    requires alloc == Allocate(env.priority, StockFor(env, dn.itemCode), item.quantity)
    ensures PairLines(item, dn, env)
         == if alloc.None? || alloc.value == [] then Err(NoWarehouseMapping(dn.itemCode, item.quantity))
            else Ok(Split(dn, alloc.value))
  {
  }

  /** `ItemLines` over one more draft line: its lines are appended, or its failure is final. */
  lemma ItemLinesStep(item: LineItem, dns: seq<DnItem>, j: nat, env: Env, prev: seq<DnItem>)
    requires j < |dns| && ItemLines(item, dns[..j], env) == Ok(prev)
    ensures PairLines(item, dns[j], env).Ok? ==>
              ItemLines(item, dns[..j + 1], env) == Ok(prev + PairLines(item, dns[j], env).value)
    ensures PairLines(item, dns[j], env).Err? ==> ItemLines(item, dns, env) == PairLines(item, dns[j], env)
  {
    assert dns[..j + 1][..j] == dns[..j];
    if PairLines(item, dns[j], env).Err? {
      ItemLinesErrSticks(item, dns, j + 1, env);
    }
  }

  /** `FulfillmentItems` over one more line item: its lines are appended, or its failure is final. */
  lemma FulfillmentItemsStep(items: seq<LineItem>, dns: seq<DnItem>, i: nat, env: Env, prev: seq<DnItem>)
    requires i < |items| && FulfillmentItems(items[..i], dns, env) == Ok(prev)
    ensures ItemLines(items[i], dns, env).Ok? ==>
              FulfillmentItems(items[..i + 1], dns, env) == Ok(prev + ItemLines(items[i], dns, env).value)
    ensures ItemLines(items[i], dns, env).Err? ==> FulfillmentItems(items, dns, env) == ItemLines(items[i], dns, env)
  {
    assert items[..i + 1][..i] == items[..i];
    if ItemLines(items[i], dns, env).Err? {
      FulfillmentItemsErrSticks(items, dns, i + 1, env);
    }
  }

  /** Once a draft line fails, the whole line item fails, whatever follows. */
  lemma {:induction false} ItemLinesErrSticks(item: LineItem, dns: seq<DnItem>, j: nat, env: Env)
    requires j <= |dns|
    requires ItemLines(item, dns[..j], env).Err?
    ensures ItemLines(item, dns, env) == ItemLines(item, dns[..j], env)
    decreases |dns| - j
  {
    if j < |dns| {
      assert dns[..j + 1][..j] == dns[..j];
      ItemLinesErrSticks(item, dns, j + 1, env);
    } else {
      assert dns[..j] == dns;
    }
  }

  /** Once a line item fails, the whole fulfillment fails with that error. */
  lemma {:induction false} FulfillmentItemsErrSticks(items: seq<LineItem>, dns: seq<DnItem>, i: nat, env: Env)
    requires i <= |items|
    requires FulfillmentItems(items[..i], dns, env).Err?
    ensures FulfillmentItems(items, dns, env) == FulfillmentItems(items[..i], dns, env)
    decreases |items| - i
  {
    if i < |items| {
      assert items[..i + 1][..i] == items[..i];
      FulfillmentItemsErrSticks(items, dns, i + 1, env);
    } else {
      assert items[..i] == items;
    }
  }

  // ---------------------------------------------------------------------------
  // Properties of `get_fulfillment_items`.
  // ---------------------------------------------------------------------------

  /** Somewhere in the fulfillment, a line item and a matching draft line get no allocation. */
  predicate SomePairFails(items: seq<LineItem>, dns: seq<DnItem>, env: Env)
  {
    exists i, j :: 0 <= i < |items| && 0 <= j < |dns| && PairLines(items[i], dns[j], env).Err?
  }

  /**
   * Allocation failure: the fulfillment raises exactly when some line item
   * matches some draft line whose allocation is missing or empty.
   */
  lemma ItemsFailIff(items: seq<LineItem>, dns: seq<DnItem>, env: Env)
    ensures FulfillmentItems(items, dns, env).Err? <==> SomePairFails(items, dns, env)
  {
    if SomePairFails(items, dns, env) {
      var i, j :| 0 <= i < |items| && 0 <= j < |dns| && PairLines(items[i], dns[j], env).Err?;
      ItemsFailWhen(items, dns, env, i, j);
    }
    ItemsFailOnlyWhen(items, dns, env);
  }

  /** A failing pair makes the whole fulfillment fail. */
  lemma ItemsFailWhen(items: seq<LineItem>, dns: seq<DnItem>, env: Env, i: nat, j: nat)
    requires i < |items| && j < |dns| && PairLines(items[i], dns[j], env).Err?
    ensures FulfillmentItems(items, dns, env).Err?
  {
    assert ItemLines(items[i], dns, env).Err? by {
      assert dns[..j + 1][..j] == dns[..j];
      ItemLinesErrSticks(items[i], dns, j + 1, env);
    }
    assert items[..i + 1][..i] == items[..i];
    FulfillmentItemsErrSticks(items, dns, i + 1, env);
  }

  /** A failing fulfillment has a failing pair. */
  lemma {:induction false} ItemsFailOnlyWhen(items: seq<LineItem>, dns: seq<DnItem>, env: Env)
    ensures FulfillmentItems(items, dns, env).Err? ==> SomePairFails(items, dns, env)
  {
    if items != [] && FulfillmentItems(items, dns, env).Err? {
      var n := |items| - 1;
      if FulfillmentItems(items[..n], dns, env).Err? {
        ItemsFailOnlyWhen(items[..n], dns, env);
        var i, j :| 0 <= i < n && 0 <= j < |dns| && PairLines(items[..n][i], dns[j], env).Err?;
        assert items[..n][i] == items[i];
      } else {
        ItemLinesFailOnlyWhen(items[n], dns, env);
      }
    }
  }

  lemma {:induction false} ItemLinesFailOnlyWhen(item: LineItem, dns: seq<DnItem>, env: Env)
    ensures ItemLines(item, dns, env).Err? ==> exists j :: 0 <= j < |dns| && PairLines(item, dns[j], env).Err?
  {
    if dns != [] && ItemLines(item, dns, env).Err? {
      var n := |dns| - 1;
      if ItemLines(item, dns[..n], env).Err? {
        ItemLinesFailOnlyWhen(item, dns[..n], env);
        var j :| 0 <= j < n && PairLines(item, dns[..n][j], env).Err?;
        assert dns[..n][j] == dns[j];
      }
    }
  }

  /**
   * Every produced line is a copy of a draft line with only `qty` and
   * `warehouse` replaced, the warehouse being a listed one with stock.
   */
  predicate CopyOfDraft(l: DnItem, dns: seq<DnItem>, env: Env)
  {
    && (exists j :: 0 <= j < |dns| && l == dns[j].(qty := l.qty, warehouse := l.warehouse))
    && l.warehouse in env.priority
    && StockOf(StockFor(env, l.itemCode), l.warehouse) > 0
  }

  lemma PairLinesAreCopies(item: LineItem, dns: seq<DnItem>, j: nat, env: Env)
    requires j < |dns|
    requires PairLines(item, dns[j], env).Ok?
    ensures forall l :: l in PairLines(item, dns[j], env).value ==> CopyOfDraft(l, dns, env)
  {
    var dn := dns[j];
    if ItemCodeOf(env, item) == Some(dn.itemCode) {
      var stock := StockFor(env, dn.itemCode);
      var alloc := Allocate(env.priority, stock, item.quantity).value;
      AllocateFromStock(env.priority, stock, item.quantity);
      SplitLines(dn, alloc);
      forall l | l in Split(dn, alloc) ensures CopyOfDraft(l, dns, env) {
        var k :| 0 <= k < |alloc| && Split(dn, alloc)[k] == l;
        assert alloc[k] in alloc;
      }
    }
  }

  lemma {:induction false} ItemLinesAreCopies(item: LineItem, dns: seq<DnItem>, m: nat, env: Env)
    requires m <= |dns|
    requires ItemLines(item, dns[..m], env).Ok?
    ensures forall l :: l in ItemLines(item, dns[..m], env).value ==> CopyOfDraft(l, dns, env)
  {
    if m > 0 {
      assert dns[..m][..m - 1] == dns[..m - 1];
      ItemLinesAreCopies(item, dns, m - 1, env);
      PairLinesAreCopies(item, dns, m - 1, env);
    }
  }

  lemma {:induction false} ItemsAreCopies(items: seq<LineItem>, dns: seq<DnItem>, env: Env)
    requires FulfillmentItems(items, dns, env).Ok?
    ensures forall l :: l in FulfillmentItems(items, dns, env).value ==> CopyOfDraft(l, dns, env)
  {
    if items != [] {
      var n := |items| - 1;
      ItemsAreCopies(items[..n], dns, env);
      assert dns[..|dns|] == dns;
      ItemLinesAreCopies(items[n], dns, |dns|, env);
    }
  }

  /** Total quantity of delivery-note lines. */
  function Qty(ls: seq<DnItem>): int
  {
    if ls == [] then 0 else Qty(ls[..|ls| - 1]) + ls[|ls| - 1].qty
  }

  /** The quantity requested of one draft line by one line item: its quantity when the codes match. */
  function PairDemand(item: LineItem, dn: DnItem, env: Env): int
  {
    if ItemCodeOf(env, item) == Some(dn.itemCode) then item.quantity else 0
  }

  function ItemDemand(item: LineItem, dns: seq<DnItem>, env: Env): int
  {
    if dns == [] then 0 else ItemDemand(item, dns[..|dns| - 1], env) + PairDemand(item, dns[|dns| - 1], env)
  }

  /** What a fulfillment asks for: each line item's quantity once per matching draft line. */
  function Demand(items: seq<LineItem>, dns: seq<DnItem>, env: Env): int
  {
    if items == [] then 0 else Demand(items[..|items| - 1], dns, env) + ItemDemand(items[|items| - 1], dns, env)
  }

  lemma {:induction false} QtyAppend(a: seq<DnItem>, b: seq<DnItem>)
    ensures Qty(a + b) == Qty(a) + Qty(b)
  {
    if b != [] {
      var n := |b| - 1;
      assert (a + b)[..|a + b| - 1] == a + b[..n];
      QtyAppend(a, b[..n]);
    } else {
      assert a + b == a;
    }
  }

  lemma {:induction false} SplitQty(dn: DnItem, alloc: seq<Share>)
    ensures Qty(Split(dn, alloc)) == Sum(alloc)
  {
    if alloc != [] {
      var n := |alloc| - 1;
      SplitQty(dn, alloc[..n]);
      QtyAppend(Split(dn, alloc[..n]), [dn.(qty := alloc[n].qty, warehouse := alloc[n].warehouse)]);
      assert Qty([dn.(qty := alloc[n].qty, warehouse := alloc[n].warehouse)]) == alloc[n].qty;
      SumSnoc(alloc);
    }
  }

  /** With distinct priority warehouses, a draft line's split carries exactly the requested quantity. */
  lemma PairLinesQty(item: LineItem, dn: DnItem, env: Env)
    requires NoDup(env.priority)
    requires PairLines(item, dn, env).Ok?
    ensures Qty(PairLines(item, dn, env).value) == PairDemand(item, dn, env)
  {
    if ItemCodeOf(env, item) == Some(dn.itemCode) {
      var stock := StockFor(env, dn.itemCode);
      var alloc := Allocate(env.priority, stock, item.quantity).value;
      AllocateExactSum(env.priority, stock, item.quantity);
      SplitQty(dn, alloc);
    }
  }

  lemma {:induction false} ItemLinesQty(item: LineItem, dns: seq<DnItem>, env: Env)
    requires NoDup(env.priority)
    requires ItemLines(item, dns, env).Ok?
    ensures Qty(ItemLines(item, dns, env).value) == ItemDemand(item, dns, env)
  {
    if dns != [] {
      var n := |dns| - 1;
      ItemLinesQty(item, dns[..n], env);
      PairLinesQty(item, dns[n], env);
      QtyAppend(ItemLines(item, dns[..n], env).value, PairLines(item, dns[n], env).value);
    }
  }

  /**
   * With distinct priority warehouses, the lines of a fulfillment carry in
   * total exactly what its line items ask of the matching draft lines.
   */
  lemma {:induction false} ItemsQty(items: seq<LineItem>, dns: seq<DnItem>, env: Env)
    requires NoDup(env.priority)
    requires FulfillmentItems(items, dns, env).Ok?
    ensures Qty(FulfillmentItems(items, dns, env).value) == Demand(items, dns, env)
  {
    if items != [] {
      var n := |items| - 1;
      ItemsQty(items[..n], dns, env);
      ItemLinesQty(items[n], dns, env);
      QtyAppend(FulfillmentItems(items[..n], dns, env).value, ItemLines(items[n], dns, env).value);
    }
  }

  // ---------------------------------------------------------------------------
  // Creation flow: `create_delivery_note` and `prepare_delivery_note`.
  // ---------------------------------------------------------------------------

  /**
   * One fulfillment of `create_delivery_note`: a delivery note is drafted from
   * the sales order, its lines split, saved and submitted, unless one already
   * exists for the fulfillment id or the sales order is not submitted.
   */
  function CreateOne(notes: Notes, f: ShopifyFulfillment, so: SalesOrder, env: Env): Result<Notes, Fault>
  {
    if f.id in notes || so.docstatus != 1 then Ok(notes)
    else
      match FulfillmentItems(f.lineItems, so.draftItems, env)
      case Err(e) => Err(e)
      case Ok(items) =>
        if f.id in env.rejectSubmit then Err(SubmitRejected(f.id))
        else Ok(notes[f.id := DeliveryNote(so.name, items, Submitted)])
  }

  /** The fulfillments of an order in turn; the first failure is raised. */
  function CreateAll(notes: Notes, fs: seq<ShopifyFulfillment>, so: SalesOrder, env: Env): Result<Notes, Fault>
    decreases |fs|
  {
    if fs == [] then Ok(notes)
    else
      match CreateOne(notes, fs[0], so, env)
      case Err(e) => Err(e)
      case Ok(next) => CreateAll(next, fs[1..], so, env)
  }

  /**
   * The notes a pass has created when it stops: all of them after a success,
   * those made before the failing fulfillment after a raise.
   */
  function Reached(notes: Notes, fs: seq<ShopifyFulfillment>, so: SalesOrder, env: Env): Notes
    decreases |fs|
  {
    if fs == [] then notes
    else
      match CreateOne(notes, fs[0], so, env)
      case Err(_) => notes
      case Ok(next) => Reached(next, fs[1..], so, env)
  }

  /** `create_delivery_note`: nothing at all when delivery-note sync is off. */
  function DeliveryNotesFor(notes: Notes, order: Order, setting: Setting, so: SalesOrder, env: Env): Result<Notes, Fault>
  {
    if !setting.syncDeliveryNote then Ok(notes) else CreateAll(notes, order.fulfillments, so, env)
  }

  /**
   * `prepare_delivery_note`: Invalid without a sales order; Success with the
   * new notes; Error, with everything rolled back, when anything raised.
   */
  function CreationEvent(notes: Notes, order: Order, setting: Setting, env: Env): Step
  {
    match SalesOrderFor(env, order.id)
    case None => Step(notes, Invalid(SALES_ORDER_NOT_FOUND))
    case Some(so) =>
      match DeliveryNotesFor(notes, order, setting, so, env)
      case Ok(next) => Step(next, Success)
      case Err(e) => Step(notes, Error(e))
  }

  // ---------------------------------------------------------------------------
  // Cancellation flow: `cancel_order_fulfillment` and `update_fulfillment_status`.
  // ---------------------------------------------------------------------------

  /** A delivery note with this fulfillment id and docstatus 1 exists. */
  predicate HasSubmitted(notes: Notes, id: string)
  {
    id in notes && notes[id].status == Submitted
  }

  /** `cancel_order_fulfillment`: cancels only with cancellation sync on and status "cancelled". */
  function CancelNote(notes: Notes, f: ShopifyFulfillment, setting: Setting, env: Env): Result<Notes, Fault>
    requires f.id in notes
  {
    if !setting.syncDeliveryCancellation then Ok(notes)
    else if f.status != CANCELLED then Ok(notes)
    else if f.id in env.rejectCancel then Err(CancelRejected(f.id))
    else Ok(notes[f.id := notes[f.id].(status := Cancelled)])
  }

  /**
   * `update_fulfillment_status`: Invalid without a submitted delivery note;
   * otherwise Success, or Error with everything rolled back.
   */
  function CancellationEvent(notes: Notes, f: ShopifyFulfillment, setting: Setting, env: Env): Step
  {
    if !HasSubmitted(notes, f.id) then Step(notes, Invalid(DELIVERY_NOTE_NOT_FOUND))
    else
      match CancelNote(notes, f, setting, env)
      case Ok(next) => Step(next, Success)
      case Err(e) => Step(notes, Error(e))
  }

  // ---------------------------------------------------------------------------
  // The ERP store.
  // ---------------------------------------------------------------------------

  /** The ERP side: delivery notes by fulfillment id, and the Shopify log. */
  class Erp {
    var notes: Notes
    var log: seq<Outcome>

    constructor (initial: Notes)
      ensures notes == initial && log == []
    {
      notes := initial;
      log := [];
    }

    /** `create_delivery_note`; on a fault the notes made so far stay until the caller rolls back. */
    method CreateDeliveryNote(order: Order, setting: Setting, so: SalesOrder, env: Env) returns (fault: Option<Fault>)
      modifies this
      ensures log == old(log)
      ensures fault.None? ==> DeliveryNotesFor(old(notes), order, setting, so, env) == Ok(notes)
      ensures fault.Some? ==> DeliveryNotesFor(old(notes), order, setting, so, env) == Err(fault.value)
      ensures forall id :: id in old(notes) ==> id in notes && notes[id] == old(notes)[id]
      ensures notes == if setting.syncDeliveryNote then Reached(old(notes), order.fulfillments, so, env) else old(notes)
    {
      if !setting.syncDeliveryNote {
        return None;
      }
      var fs := order.fulfillments;
      var i := 0;
      while i < |fs|
        invariant 0 <= i <= |fs|
        invariant log == old(log)
        invariant CreateAll(old(notes), fs, so, env) == CreateAll(notes, fs[i..], so, env)
        invariant Reached(old(notes), fs, so, env) == Reached(notes, fs[i..], so, env)
        invariant forall id :: id in old(notes) ==> id in notes && notes[id] == old(notes)[id]
      {
        var f := fs[i];
        assert fs[i..][0] == f && fs[i..][1..] == fs[i + 1..];
        if f.id !in notes && so.docstatus == 1 {
          var items := GetFulfillmentItems(so.draftItems, f.lineItems, env);
          if items.Err? {
            return Some(items.error);
          }
          if f.id in env.rejectSubmit {
            return Some(SubmitRejected(f.id));
          }
          notes := notes[f.id := DeliveryNote(so.name, items.value, Submitted)];
        }
        i := i + 1;
      }
      assert fs[i..] == [];
      return None;
    }

    /** `prepare_delivery_note`: exactly one log entry; a fault rolls the notes back. */
    method PrepareDeliveryNote(order: Order, setting: Setting, env: Env)
      modifies this
      ensures notes == CreationEvent(old(notes), order, setting, env).notes
      ensures log == old(log) + [CreationEvent(old(notes), order, setting, env).outcome]
    {
      var saved := notes;
      var so := SalesOrderFor(env, order.id);
      if so.Some? {
        var fault := CreateDeliveryNote(order, setting, so.value, env);
        if fault.None? {
          log := log + [Success];
        } else {
          notes := saved;
          log := log + [Error(fault.value)];
        }
      } else {
        log := log + [Invalid(SALES_ORDER_NOT_FOUND)];
      }
    }

    /** `cancel_order_fulfillment`, given the fulfillment's submitted delivery note. */
    method CancelOrderFulfillment(f: ShopifyFulfillment, setting: Setting, env: Env) returns (fault: Option<Fault>)
      requires HasSubmitted(notes, f.id)
      modifies this
      ensures log == old(log)
      ensures fault.None? ==> CancelNote(old(notes), f, setting, env) == Ok(notes)
      ensures fault.Some? ==> CancelNote(old(notes), f, setting, env) == Err(fault.value) && notes == old(notes)
    {
      if !setting.syncDeliveryCancellation {
        return None;
      }
      if f.status == CANCELLED {
        if f.id in env.rejectCancel {
          return Some(CancelRejected(f.id));
        }
        notes := notes[f.id := notes[f.id].(status := Cancelled)];
      }
      return None;
    }

    /** `update_fulfillment_status`: exactly one log entry; a fault rolls the notes back. */
    method UpdateFulfillmentStatus(f: ShopifyFulfillment, setting: Setting, env: Env)
      modifies this
      ensures notes == CancellationEvent(old(notes), f, setting, env).notes
      ensures log == old(log) + [CancellationEvent(old(notes), f, setting, env).outcome]
    {
      var saved := notes;
      if HasSubmitted(notes, f.id) {
        var fault := CancelOrderFulfillment(f, setting, env);
        if fault.None? {
          log := log + [Success];
        } else {
          notes := saved;
          log := log + [Error(fault.value)];
        }
      } else {
        log := log + [Invalid(DELIVERY_NOTE_NOT_FOUND)];
      }
    }
  }

  // ---------------------------------------------------------------------------
  // Properties of the creation flow.
  // ---------------------------------------------------------------------------

  /** `after` keeps every delivery note of `before`, unchanged. */
  predicate Extends(before: Notes, after: Notes)
  {
    forall id :: id in before ==> id in after && after[id] == before[id]
  }

  /**
   * A note the creation flow made for fulfillment `id` of `fs`: the sales
   * order is submitted, the note is submitted against it, the ERP accepted
   * the submit, and its lines are that fulfillment's split lines.
   */
  predicate CreatedFor(id: string, note: DeliveryNote, fs: seq<ShopifyFulfillment>, so: SalesOrder, env: Env)
  {
    && so.docstatus == 1
    && note.salesOrder == so.name
    && note.status == Submitted
    && id !in env.rejectSubmit
    && exists k :: 0 <= k < |fs| && fs[k].id == id && FulfillmentItems(fs[k].lineItems, so.draftItems, env) == Ok(note.items)
  }

  /**
   * A successful pass over the fulfillments keeps every existing note, adds
   * only notes it created, and leaves no fulfillment without a note when the
   * sales order is submitted.
   */
  lemma {:induction false} CreateAllFrame(notes: Notes, fs: seq<ShopifyFulfillment>, so: SalesOrder, env: Env)
    requires CreateAll(notes, fs, so, env).Ok?
    ensures Extends(notes, CreateAll(notes, fs, so, env).value)
    ensures var m := CreateAll(notes, fs, so, env).value;
            forall id :: id in m && id !in notes ==> CreatedFor(id, m[id], fs, so, env)
    ensures so.docstatus == 1 ==> forall k :: 0 <= k < |fs| ==> fs[k].id in CreateAll(notes, fs, so, env).value
    decreases |fs|
  {
    if fs != [] {
      var next := CreateOne(notes, fs[0], so, env).value;
      CreateAllFrame(next, fs[1..], so, env);
      var m := CreateAll(notes, fs, so, env).value;
      assert m == CreateAll(next, fs[1..], so, env).value;
      forall id | id in m && id !in notes ensures CreatedFor(id, m[id], fs, so, env) {
        if id in next {
          assert id == fs[0].id;
        } else {
          var k :| 0 <= k < |fs| - 1 && fs[1..][k].id == id
                   && FulfillmentItems(fs[1..][k].lineItems, so.draftItems, env) == Ok(m[id].items);
          assert fs[k + 1] == fs[1..][k];
        }
      }
      if so.docstatus == 1 {
        forall k | 0 <= k < |fs| ensures fs[k].id in m {
          if k > 0 {
            assert fs[k] == fs[1..][k - 1];
          }
        }
      }
    }
  }

  /**
   * A pass that succeeds stops with exactly its result; one that raises
   * stops with notes that still extend the ones it started from.
   */
  lemma {:induction false} ReachedMatches(notes: Notes, fs: seq<ShopifyFulfillment>, so: SalesOrder, env: Env)
    ensures CreateAll(notes, fs, so, env).Ok? ==> Reached(notes, fs, so, env) == CreateAll(notes, fs, so, env).value
    ensures Extends(notes, Reached(notes, fs, so, env))
    decreases |fs|
  {
    if fs != [] {
      match CreateOne(notes, fs[0], so, env)
      case Err(_) =>
      case Ok(next) =>
        ReachedMatches(next, fs[1..], so, env);
    }
  }

  /** A pass over fulfillments that all have notes, or against an unsubmitted order, changes nothing. */
  lemma {:induction false} CreateAllAbsorbs(notes: Notes, fs: seq<ShopifyFulfillment>, so: SalesOrder, env: Env)
    requires so.docstatus == 1 ==> forall k :: 0 <= k < |fs| ==> fs[k].id in notes
    ensures CreateAll(notes, fs, so, env) == Ok(notes)
  {
    if fs != [] {
      assert forall k :: 0 <= k < |fs| - 1 ==> fs[1..][k] == fs[k + 1];
      CreateAllAbsorbs(notes, fs[1..], so, env);
    }
  }

  /**
   * A fulfillment without a note, not preceded by one with the same id,
   * whose lines cannot be built, makes the whole pass fail.
   */
  lemma {:induction false} CreateAllFails(notes: Notes, fs: seq<ShopifyFulfillment>, so: SalesOrder, env: Env, k: nat)
    requires so.docstatus == 1
    requires k < |fs| && fs[k].id !in notes
    requires forall j :: 0 <= j < k ==> fs[j].id != fs[k].id
    requires FulfillmentItems(fs[k].lineItems, so.draftItems, env).Err?
    ensures CreateAll(notes, fs, so, env).Err?
    decreases |fs|
  {
    if k > 0 {
      match CreateOne(notes, fs[0], so, env)
      case Err(_) =>
      case Ok(next) =>
        assert fs[1..][k - 1] == fs[k];
        assert forall j :: 0 <= j < k - 1 ==> fs[1..][j] == fs[j + 1];
        CreateAllFails(next, fs[1..], so, env, k - 1);
    }
  }

  /** Sync disabled: `create_delivery_note` leaves the notes as they are. */
  lemma SyncDisabledNoChange(notes: Notes, order: Order, setting: Setting, env: Env)
    requires !setting.syncDeliveryNote
    ensures CreationEvent(notes, order, setting, env).notes == notes
    ensures !CreationEvent(notes, order, setting, env).outcome.Error?
  {
  }

  /** No sales order: the event is Invalid and nothing is created. */
  lemma MissingSalesOrder(notes: Notes, order: Order, setting: Setting, env: Env)
    requires order.id !in env.salesOrders
    ensures CreationEvent(notes, order, setting, env) == Step(notes, Invalid(SALES_ORDER_NOT_FOUND))
  {
  }

  /**
   * Creation guard and "nothing else changes": existing notes are untouched,
   * and a note appears only for a fulfillment of the event, with sync on, a
   * submitted sales order, and the event logged Success.
   */
  lemma CreationFrame(notes: Notes, order: Order, setting: Setting, env: Env)
    ensures Extends(notes, CreationEvent(notes, order, setting, env).notes)
    ensures var r := CreationEvent(notes, order, setting, env);
            forall id :: id in r.notes && id !in notes ==>
              && setting.syncDeliveryNote
              && r.outcome == Success
              && SalesOrderFor(env, order.id).Some?
              && CreatedFor(id, r.notes[id], order.fulfillments, SalesOrderFor(env, order.id).value, env)
  {
    match SalesOrderFor(env, order.id)
    case None =>
    case Some(so) =>
      if setting.syncDeliveryNote && CreateAll(notes, order.fulfillments, so, env).Ok? {
        CreateAllFrame(notes, order.fulfillments, so, env);
      }
  }

  /** Idempotence: replaying a creation event changes nothing and logs the same outcome. */
  lemma CreationReplay(notes: Notes, order: Order, setting: Setting, env: Env)
    ensures var r := CreationEvent(notes, order, setting, env);
            CreationEvent(r.notes, order, setting, env) == r
  {
    match SalesOrderFor(env, order.id)
    case None =>
    case Some(so) =>
      if setting.syncDeliveryNote && CreateAll(notes, order.fulfillments, so, env).Ok? {
        var m := CreateAll(notes, order.fulfillments, so, env).value;
        CreateAllFrame(notes, order.fulfillments, so, env);
        CreateAllAbsorbs(m, order.fulfillments, so, env);
      }
  }

  /**
   * A replayed webhook, whatever the ERP answers by then: after a successful
   * event with sync on and a submitted sales order, every fulfillment of the
   * order has a note, so replaying the event creates and changes nothing.
   */
  lemma CreationReplayAnyEnv(notes: Notes, order: Order, setting: Setting, env: Env, env2: Env)
    requires setting.syncDeliveryNote
    requires SalesOrderFor(env, order.id).Some? && SalesOrderFor(env, order.id).value.docstatus == 1
    requires CreationEvent(notes, order, setting, env).outcome == Success
    ensures var r := CreationEvent(notes, order, setting, env);
            CreationEvent(r.notes, order, setting, env2).notes == r.notes
  {
    var so := SalesOrderFor(env, order.id).value;
    var m := CreateAll(notes, order.fulfillments, so, env).value;
    CreateAllFrame(notes, order.fulfillments, so, env);
    match SalesOrderFor(env2, order.id)
    case None =>
    case Some(so2) =>
      CreateAllAbsorbs(m, order.fulfillments, so2, env2);
  }

  /**
   * Allocation failure aborts: when a new fulfillment has a line item whose
   * matching draft line gets no warehouse allocation, the event is logged
   * Error and no delivery note is kept.
   */
  lemma AllocationFailureAborts(notes: Notes, order: Order, setting: Setting, env: Env, so: SalesOrder, k: nat)
    requires setting.syncDeliveryNote
    requires SalesOrderFor(env, order.id) == Some(so) && so.docstatus == 1
    requires k < |order.fulfillments| && order.fulfillments[k].id !in notes
    requires forall j :: 0 <= j < k ==> order.fulfillments[j].id != order.fulfillments[k].id
    requires exists i, j :: 0 <= i < |order.fulfillments[k].lineItems| && 0 <= j < |so.draftItems| &&
               PairLines(order.fulfillments[k].lineItems[i], so.draftItems[j], env).Err?
    ensures CreationEvent(notes, order, setting, env).outcome.Error?
    ensures CreationEvent(notes, order, setting, env).notes == notes
  {
    ItemsFailIff(order.fulfillments[k].lineItems, so.draftItems, env);
    CreateAllFails(notes, order.fulfillments, so, env, k);
  }

  // ---------------------------------------------------------------------------
  // Properties of the cancellation flow.
  // ---------------------------------------------------------------------------

  /**
   * Cancellation conditions: the notes change exactly when a submitted note
   * exists, cancellation sync is on, the status is "cancelled" and the ERP
   * accepts the cancel; the change is that one note's status, nothing else.
   */
  lemma CancellationEffect(notes: Notes, f: ShopifyFulfillment, setting: Setting, env: Env)
    ensures var r := CancellationEvent(notes, f, setting, env);
            r.notes != notes
            <==> HasSubmitted(notes, f.id) && setting.syncDeliveryCancellation && f.status == CANCELLED
                 && f.id !in env.rejectCancel
    ensures var r := CancellationEvent(notes, f, setting, env);
            r.notes != notes ==> f.id in notes && r.notes == notes[f.id := notes[f.id].(status := Cancelled)]
  {
    if HasSubmitted(notes, f.id) && setting.syncDeliveryCancellation && f.status == CANCELLED
       && f.id !in env.rejectCancel {
      var next := notes[f.id := notes[f.id].(status := Cancelled)];
      assert next[f.id] != notes[f.id];
    }
  }

  /**
   * The outcome of a cancellation event: Invalid exactly when no submitted
   * note exists, Error exactly when the ERP rejects a cancel it was asked
   * for, Success otherwise, even when the event changes nothing.
   */
  lemma CancellationOutcome(notes: Notes, f: ShopifyFulfillment, setting: Setting, env: Env)
    ensures var r := CancellationEvent(notes, f, setting, env);
            r.outcome.Invalid? <==> !HasSubmitted(notes, f.id)
    ensures var r := CancellationEvent(notes, f, setting, env);
            r.outcome.Error?
            <==> HasSubmitted(notes, f.id) && setting.syncDeliveryCancellation && f.status == CANCELLED
                 && f.id in env.rejectCancel
    ensures var r := CancellationEvent(notes, f, setting, env);
            r.outcome.Error? ==> r.notes == notes
  {
  }

  /** A status other than "cancelled" never alters a delivery note. */
  lemma NonCancelledStatusNoChange(notes: Notes, f: ShopifyFulfillment, setting: Setting, env: Env)
    requires f.status != CANCELLED
    ensures CancellationEvent(notes, f, setting, env).notes == notes
    ensures !CancellationEvent(notes, f, setting, env).outcome.Error?
  {
  }

  /** Replaying a cancellation changes nothing; after an actual cancel the replay is Invalid. */
  lemma CancellationReplay(notes: Notes, f: ShopifyFulfillment, setting: Setting, env: Env)
    ensures var r := CancellationEvent(notes, f, setting, env);
            CancellationEvent(r.notes, f, setting, env).notes == r.notes
    ensures var r := CancellationEvent(notes, f, setting, env);
            r.notes != notes ==> CancellationEvent(r.notes, f, setting, env).outcome == Invalid(DELIVERY_NOTE_NOT_FOUND)
  {
    CancellationEffect(notes, f, setting, env);
  }

  // ---------------------------------------------------------------------------
  // The per-fulfillment state machine.
  // ---------------------------------------------------------------------------

  /** The state of a fulfillment id: no delivery note, or its note's status. */
  function StatusOf(notes: Notes, id: string): Option<DocStatus>
  {
    if id in notes then Some(notes[id].status) else None
  }

  /** No note to submitted, submitted to cancelled, or no change; cancelled is terminal. */
  predicate Legal(before: Option<DocStatus>, after: Option<DocStatus>)
  {
    || before == after
    || (before == None && after == Some(Submitted))
    || (before == Some(Submitted) && after == Some(Cancelled))
  }

  /**
   * Either event moves every fulfillment id along a legal transition and
   * never changes the sales order or the lines of an existing note.
   */
  lemma EventsFollowStateMachine(notes: Notes, order: Order, f: ShopifyFulfillment, setting: Setting, env: Env)
    ensures var c := CreationEvent(notes, order, setting, env).notes;
            var u := CancellationEvent(notes, f, setting, env).notes;
            forall id ::
              && Legal(StatusOf(notes, id), StatusOf(c, id))
              && Legal(StatusOf(notes, id), StatusOf(u, id))
              && (id in notes ==> id in u && u[id].salesOrder == notes[id].salesOrder && u[id].items == notes[id].items)
  {
    CreationFrame(notes, order, setting, env);
    CancellationEffect(notes, f, setting, env);
  }
}
