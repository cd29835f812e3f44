# Shopify warehouse allocation and fulfillment sync, modelled in Dafny

This project models two parts of the Shopify integration of an ERPNext app.

- **The Shopify Warehouse settings document** (`shopify_warehouse.dfy`, module `ShopifyWarehouse`).
  - `get_wh` splits a requested quantity of an item over a priority-ordered list of warehouses. It walks the list in order. From every warehouse with positive stock it takes `min(stock, remaining)`. It stops once the remainder is zero or less. It returns nothing unless the remainder ends at exactly zero.
  - `GetWh` and its loop `WalkPriority` are imperative and keep the source's variables (`rem_qty`, `row_wh_map`). They are proved equal to the reference function `Allocate`, which is built on the list-level greedy walk `Greedy`.
  - The insertion-ordered Python dict is a sequence of `Share` entries. A dict assignment is `Put`: it overwrites in place and otherwise appends. `ToDict` folds `Put` over the walk's shares.
  - `validate` rejects the first priority row that names a group warehouse.
- **The fulfillment webhooks** (`fulfillment.dfy`, module `Fulfillment`).
  - The ERP is an object, `Erp`, with two fields. `notes` maps a fulfillment id to its delivery note (sales order, lines, and submitted or cancelled status). `log` is the sequence of Shopify log outcomes.
  - A "fulfillment created" event (`PrepareDeliveryNote`, `CreateDeliveryNote`) creates, for each new fulfillment of the order, a submitted delivery note. Its lines are the sales order's draft lines, split per warehouse by `get_wh`, as computed by `GetFulfillmentItems`.
  - A "fulfillment updated" event (`UpdateFulfillmentStatus`, `CancelOrderFulfillment`) cancels the submitted note when cancellation sync is on and the status is `"cancelled"`.
  - Each event appends exactly one outcome to the log: Success, Invalid or Error. On Error the notes are rolled back to their state before the event.
  - Every method is proved against a pure event function (`CreationEvent`, `CancellationEvent`). The lemmas about those functions state the guards, idempotence, "nothing else changes", and the per-fulfillment state machine (none, then submitted, then cancelled).

What the ERP answers during one event is an input record, `Env`:
- sales orders by Shopify order id (`get_sales_order`);
- item codes by line-item reference (`get_item_code`);
- the warehouse priority list (the cached Shopify Warehouse document);
- stock per item and warehouse (the `Bin` query);
- the fulfillment ids whose submit or cancel the ERP rejects.

Quantities are integers.

Where the behaviour of the code is easy to misread, the model follows the code:
- A request of zero returns `{first in-stock warehouse: 0}`, or `{}` when no listed warehouse has stock. `{}` is falsy, so `get_fulfillment_items` raises for it (`ZeroRequestKeepsFirstEntry`).
- A negative request returns the first in-stock warehouse with that negative quantity (`AllocateSucceedsIff`, `GreedyLeft`).
- A warehouse listed twice is drawn from twice. The dict keeps only its second share, so the returned quantities sum to less than the request (`DuplicateRowUndercounts`). The exact-sum and priority-order lemmas therefore assume distinct rows.
- `get_fulfillment_items` ignores its `location_id` argument.
- A line item is matched against every draft line with the same item code. The line item's whole quantity is allocated again for each such draft line (`ItemsQty`, `Demand`).
- The existence check in `create_delivery_note` matches a note of any status. A cancelled note therefore also blocks re-creation.

## Model

| member | source | states |
|---|---|---|
| ShopifyWarehouse.Put | ecommerce_integrations/shopify/doctype/shopify_warehouse/shopify_warehouse.py:34 | reference definition of the dict assignment `row_wh_map[wh] = ...`: overwrite the entry with that key, or append one |
| ShopifyWarehouse.Greedy | ecommerce_integrations/shopify/doctype/shopify_warehouse/shopify_warehouse.py:30-37 | reference definition of the loop: skip a warehouse with stock of 0 or less, take min(stock, remaining), stop once remaining is 0 or less; its properties are the `Greedy*` lemmas |
| ShopifyWarehouse.Allocate | ecommerce_integrations/shopify/doctype/shopify_warehouse/shopify_warehouse.py:15-42 | reference definition of `get_wh`: nothing for an empty list or a non-zero remainder, otherwise the walk's shares assigned in order |
| ShopifyWarehouse.GetWh | ecommerce_integrations/shopify/doctype/shopify_warehouse/shopify_warehouse.py:15-42 | the method's result equals the reference `Allocate`: nothing for an empty list, nothing unless the walk's remainder is exactly zero, otherwise the dict the walk builds |
| ShopifyWarehouse.WalkPriority | ecommerce_integrations/shopify/doctype/shopify_warehouse/shopify_warehouse.py:29-37 | the loop, with its in-place dict updates and early stop, leaves `row_wh_map` equal to the greedy walk's shares assigned in order, and `rem_qty` equal to the walk's remainder |
| ShopifyWarehouse.PutShape | ecommerce_integrations/shopify/doctype/shopify_warehouse/shopify_warehouse.py:34 | a dict assignment keeps the size when the key is present, appends the new entry when it is absent, and introduces no other entry |
| ShopifyWarehouse.PutReplaces | ecommerce_integrations/shopify/doctype/shopify_warehouse/shopify_warehouse.py:34 | assigning to a present key overwrites its first entry in place: the key then holds the new value, and every other entry keeps its value and position |
| ShopifyWarehouse.Validate | ecommerce_integrations/shopify/doctype/shopify_warehouse/shopify_warehouse.py:10-13 | accepted exactly when no row is a group warehouse; a rejection names a group row with no group row before it |
| ShopifyWarehouse.EmptyPriorityFails | ecommerce_integrations/shopify/doctype/shopify_warehouse/shopify_warehouse.py:17-19 | an empty priority list yields no allocation |
| ShopifyWarehouse.AllocateSucceedsIff | ecommerce_integrations/shopify/doctype/shopify_warehouse/shopify_warehouse.py:15-42 | a dict is returned iff the list is non-empty and either the request is positive and covered by the list's positive stock, or it is zero, or it is negative and some warehouse has stock |
| ShopifyWarehouse.AllOrNothing | ecommerce_integrations/shopify/doctype/shopify_warehouse/shopify_warehouse.py:39-40 | a request above the list's total positive stock gets nothing, not even the partial dict |
| ShopifyWarehouse.AllocateFromStock | ecommerce_integrations/shopify/doctype/shopify_warehouse/shopify_warehouse.py:30-34 | every returned entry is a listed warehouse with a positive stock row, and receives no more than that stock |
| ShopifyWarehouse.AllocateExactSum | ecommerce_integrations/shopify/doctype/shopify_warehouse/shopify_warehouse.py:29-42 | with distinct rows, a returned dict has distinct keys and its values sum exactly to the request |
| ShopifyWarehouse.AllocatePriorityOrder | ecommerce_integrations/shopify/doctype/shopify_warehouse/shopify_warehouse.py:30-37 | with distinct rows, the keys are the in-stock warehouses of a prefix of the list, in list order; each value is min(stock, request less the values before it); every entry but the last drains its warehouse |
| ShopifyWarehouse.GreedyConserves | ecommerce_integrations/shopify/doctype/shopify_warehouse/shopify_warehouse.py:34-35 | what the walk hands out plus what it leaves is the request |
| ShopifyWarehouse.GreedyFromStock | ecommerce_integrations/shopify/doctype/shopify_warehouse/shopify_warehouse.py:30-34 | the walk only draws from listed warehouses with positive stock, never more than their stock |
| ShopifyWarehouse.GreedyUnique | ecommerce_integrations/shopify/doctype/shopify_warehouse/shopify_warehouse.py:30-35 | over distinct rows, the walk draws from each warehouse at most once |
| ShopifyWarehouse.GreedyLeft | ecommerce_integrations/shopify/doctype/shopify_warehouse/shopify_warehouse.py:30-37 | closed form of the remainder: for a positive request zero when covered, else the uncovered part; otherwise zero once any warehouse has stock, else the request |
| ShopifyWarehouse.GreedyTakesMin | ecommerce_integrations/shopify/doctype/shopify_warehouse/shopify_warehouse.py:34-35 | each share is min(stock, request less the shares before it) |
| ShopifyWarehouse.GreedyInOrder | ecommerce_integrations/shopify/doctype/shopify_warehouse/shopify_warehouse.py:30-37 | the walk's warehouses are exactly the in-stock ones of some prefix of the list, in order |
| ShopifyWarehouse.GreedyPrefix | ecommerce_integrations/shopify/doctype/shopify_warehouse/shopify_warehouse.py:30-37 | names the prefix length for `GreedyInOrder` |
| ShopifyWarehouse.GreedyDrains | ecommerce_integrations/shopify/doctype/shopify_warehouse/shopify_warehouse.py:30-37 | every share but the last takes its warehouse's whole stock: the walk moves on only from a drained warehouse |
| ShopifyWarehouse.ToDictEntries | ecommerce_integrations/shopify/doctype/shopify_warehouse/shopify_warehouse.py:29-34 | every entry of the built dict is one of the assignments made |
| ShopifyWarehouse.ToDictUnique | ecommerce_integrations/shopify/doctype/shopify_warehouse/shopify_warehouse.py:29-34 | assignments to distinct keys build a dict equal to the assignments in order |
| ShopifyWarehouse.SplitAcrossTwo | ecommerce_integrations/shopify/doctype/shopify_warehouse/shopify_warehouse.py:30-42 | stock A:5, B:3 and request 6 give {A: 5, B: 1} |
| ShopifyWarehouse.InsufficientStock | ecommerce_integrations/shopify/doctype/shopify_warehouse/shopify_warehouse.py:39-40 | stock A:2 and request 6 give nothing |
| ShopifyWarehouse.EmptyWarehouseSkipped | ecommerce_integrations/shopify/doctype/shopify_warehouse/shopify_warehouse.py:31-32 | a warehouse with stock 0 is skipped: A:0, B:4 and request 4 give {B: 4} |
| ShopifyWarehouse.ZeroRequestKeepsFirstEntry | ecommerce_integrations/shopify/doctype/shopify_warehouse/shopify_warehouse.py:30-42 | a request of 0 records the first in-stock warehouse with 0, and gives {} when no warehouse has stock |
| ShopifyWarehouse.DuplicateRowUndercounts | ecommerce_integrations/shopify/doctype/shopify_warehouse/shopify_warehouse.py:34-35 | rows A, A with stock A:3 and request 5 give {A: 2} |
| Fulfillment.PairLines | ecommerce_integrations/shopify/fulfillment.py:72-82 | reference definition for one line item and one draft line: nothing unless the item codes match, a raise when the allocation is missing or empty, otherwise one copy per dict entry |
| Fulfillment.GetFulfillmentItems | ecommerce_integrations/shopify/fulfillment.py:63-83 | the nested loops return the reference `FulfillmentItems`: the split lines of every line item against every matching draft line, in order, or the first allocation failure |
| Fulfillment.AppendItemLines | ecommerce_integrations/shopify/fulfillment.py:71-82 | the loop over draft lines for one line item returns the reference `ItemLines`, raising on the first matching line without allocation |
| Fulfillment.SplitCopies | ecommerce_integrations/shopify/fulfillment.py:79-82 | the innermost loop returns the reference `Split`: one copy of the draft line per dict entry |
| Fulfillment.SplitLines | ecommerce_integrations/shopify/fulfillment.py:79-82 | one line per dict entry, in dict order, each the draft line with only `qty` and `warehouse` replaced by that entry |
| Fulfillment.ItemsFailIff | ecommerce_integrations/shopify/fulfillment.py:70-77 | the item computation raises iff some line item matches some draft line whose allocation is missing or empty |
| Fulfillment.ItemsFailWhen | ecommerce_integrations/shopify/fulfillment.py:72-77 | one failing pair makes the whole computation raise |
| Fulfillment.ItemsFailOnlyWhen | ecommerce_integrations/shopify/fulfillment.py:70-77 | a raise always comes from a failing pair |
| Fulfillment.ItemsAreCopies | ecommerce_integrations/shopify/fulfillment.py:70-83 | every produced line is a draft line with only `qty` and `warehouse` replaced, the warehouse listed and in stock |
| Fulfillment.PairLinesQty | ecommerce_integrations/shopify/fulfillment.py:72-82 | with distinct rows, the split of one matching draft line carries exactly the line item's quantity |
| Fulfillment.ItemsQty | ecommerce_integrations/shopify/fulfillment.py:70-83 | with distinct rows, the produced lines carry in total each line item's quantity once per matching draft line |
| Fulfillment.CreateOne | ecommerce_integrations/shopify/fulfillment.py:40-57 | reference definition for one fulfillment: skipped when a note with its id exists or the sales order is not submitted; otherwise a raise from the lines or the submit, or a new submitted note |
| Fulfillment.CreateAll | ecommerce_integrations/shopify/fulfillment.py:39-57 | reference definition of the loop over fulfillments: each in turn, the first raise ends the pass |
| Fulfillment.CreationEvent | ecommerce_integrations/shopify/fulfillment.py:17-32 | reference definition of the creation webhook: Invalid without a sales order, Success with the new notes, Error with the notes rolled back |
| Fulfillment.CancelNote | ecommerce_integrations/shopify/fulfillment.py:105-110 | reference definition of `cancel_order_fulfillment`: no change unless cancellation sync is on and the status is exactly "cancelled"; then a rejected cancel raises, else the note becomes cancelled |
| Fulfillment.CancellationEvent | ecommerce_integrations/shopify/fulfillment.py:86-102 | reference definition of the update webhook: Invalid without a submitted note, Success with the new notes, Error with the notes rolled back |
| Fulfillment.Erp.CreateDeliveryNote | ecommerce_integrations/shopify/fulfillment.py:35-57 | the store method's new notes, or its fault, are those of the reference `DeliveryNotesFor`; on a raise the notes are those the pass had reached (`Reached`), the notes of the fulfillments before the failing one; existing notes stay unchanged and the log is untouched |
| Fulfillment.Erp.PrepareDeliveryNote | ecommerce_integrations/shopify/fulfillment.py:17-32 | the new notes and exactly one new log entry are those of `CreationEvent`, with rollback on Error |
| Fulfillment.Erp.CancelOrderFulfillment | ecommerce_integrations/shopify/fulfillment.py:105-110 | the new notes, or the fault with the notes unchanged, are those of the reference `CancelNote` |
| Fulfillment.Erp.UpdateFulfillmentStatus | ecommerce_integrations/shopify/fulfillment.py:86-102 | the new notes and exactly one new log entry are those of `CancellationEvent`, with rollback on Error |
| Fulfillment.CreateAllFrame | ecommerce_integrations/shopify/fulfillment.py:39-57 | a successful pass keeps every existing note; each new note is submitted against a submitted sales order, for a fulfillment of the order, with that fulfillment's lines; with a submitted sales order every fulfillment ends with a note |
| Fulfillment.ReachedMatches | ecommerce_integrations/shopify/fulfillment.py:39-57 | where a pass stops: with its result after a success, and with notes extending the starting ones after a raise |
| Fulfillment.CreateAllAbsorbs | ecommerce_integrations/shopify/fulfillment.py:39-44 | when every fulfillment already has a note, or the sales order is not submitted, the pass changes nothing |
| Fulfillment.CreateAllFails | ecommerce_integrations/shopify/fulfillment.py:39-54 | a new fulfillment, first of its id, whose lines cannot be built makes the pass raise |
| Fulfillment.SyncDisabledNoChange | ecommerce_integrations/shopify/fulfillment.py:36-37 | with delivery-note sync off the notes are unchanged and the outcome is not Error |
| Fulfillment.MissingSalesOrder | ecommerce_integrations/shopify/fulfillment.py:25-30 | without a sales order the event is Invalid with the source's message, and nothing is created |
| Fulfillment.CreationFrame | ecommerce_integrations/shopify/fulfillment.py:24-57 | existing notes are untouched; a note appears only with sync on, a sales order found, the event logged Success, and the note made for one of the event's fulfillments |
| Fulfillment.CreationReplay | ecommerce_integrations/shopify/fulfillment.py:39-44 | replaying a creation event on its own result changes nothing and logs the same outcome |
| Fulfillment.CreationReplayAnyEnv | ecommerce_integrations/shopify/fulfillment.py:39-44 | after a successful event with sync on and a submitted sales order, replaying it changes no note whatever the ERP then answers (stock, sales orders, item codes) |
| Fulfillment.AllocationFailureAborts | ecommerce_integrations/shopify/fulfillment.py:74-77 | a new fulfillment with a line item whose matching draft line has no allocation makes the event Error, and with rollback no note is kept |
| Fulfillment.CancellationEffect | ecommerce_integrations/shopify/fulfillment.py:93-110 | the notes change iff a submitted note exists, cancellation sync is on, the status is "cancelled" and the ERP accepts the cancel; the change is that note's status only |
| Fulfillment.CancellationOutcome | ecommerce_integrations/shopify/fulfillment.py:92-102 | Invalid iff no submitted note exists; Error iff a requested cancel is rejected, with the notes unchanged; Success otherwise, even when nothing changes |
| Fulfillment.NonCancelledStatusNoChange | ecommerce_integrations/shopify/fulfillment.py:109-110 | a status other than "cancelled" never alters a note and never gives Error |
| Fulfillment.CancellationReplay | ecommerce_integrations/shopify/fulfillment.py:93-100 | replaying a cancellation changes nothing; after an actual cancel the replay is Invalid |
| Fulfillment.EventsFollowStateMachine | ecommerce_integrations/shopify/fulfillment.py:35-110 | each event moves every fulfillment id along none to submitted, submitted to cancelled, or no change; a cancellation never changes a note's sales order or lines |

## Left out

- Database and framework calls (`frappe.db.get_value`, `frappe.db.get_all`, `get_cached_doc`, `set_user`, `frappe.flags`): replaced by the input record `Env`, which is fixed for one event.
- The stock snapshot is the same for every line of an event. The effect of a submitted delivery note on stock within the same event is not modelled.
- Draft lines are fixed for the whole event: every fulfillment of an order is drafted from the same `draftItems` of the sales order. In the source, `make_delivery_note` reloads the sales order for each fulfillment, after earlier fulfillments of the same event have submitted their notes. The effect of an earlier submit on later drafts, such as already-delivered quantities, is not modelled.
- ERP document internals (`make_delivery_note`, `save`, `submit`, `cancel`): a sales order carries the draft lines `make_delivery_note` would produce. Whether the ERP accepts a submit or a cancel is the input sets `rejectSubmit` and `rejectCancel`.
- `create_shopify_log`: reduced to the outcome appended to `log`, with the Invalid messages as constants; request ids and exception text are not modelled.
- Order-note comments (`add_comment`), the posting date (`getdate`), the naming series, and the Shopify id and number fields set on the delivery note: thin data mapping. A note's fulfillment id is its key in `notes`.
- `get_item_code` and `get_sales_order` live in files that are not part of this model. They are input maps.
- Errors from a malformed payload, such as a missing `id` or `fulfillments` key, are not modelled; payloads are well-formed records.
- Quantities are floats in the source; the model uses integers.
- Concurrency between duplicate webhook deliveries (the check-then-create race) is not modelled.
- `shopify_warehouse.js` is form UI configuration.
- Validate: the error message text is not modelled. The source's message keeps the unfilled placeholders `{0}` and `{1}`; the model returns the position of the first group row.
- Fulfillment.GetFulfillmentItems: the inner loops are the methods `AppendItemLines` and `SplitCopies`, so that each loop is proved on its own.
- ShopifyWarehouse.GetWh: the loop is the method `WalkPriority`, whose early `return` stands for the source's `break`.
