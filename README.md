# Billing service: a verified model

This project models the billing service of a gRPC demo shop. The service
has four calls:

- `SayHello` is unary. It greets the caller by name.
- `GetItemsInStock` is server streaming. It writes the catalog to the response stream.
- `ProcessAllItems` is client streaming. It reads cart items until the client completes, then returns one "Final Bill".
- `ProcessEachItemOneByOne` is bidirectional. It writes an "Interim Bill" with the running totals after every cart item. When the client completes, it writes one "Final Bill".

Both streaming calls keep an accumulator `(totalQuantity, totalPrice)` that starts at `(0, 0)`.
For each cart item, the service looks the item's name up in its fixed catalog (Pineapple 100, Oranges 20, Banana 10; first match wins).
It adds the quantity, and the catalog's unit price times the quantity, to the accumulator.

Modules:

- `Wrappers` holds `Option` and `Result`.
- `Catalog` holds the item list `AllItems` and the first-match lookup `FindItem`, which stands for `FirstOrDefault`.
- `BillingService` holds the four calls as methods (or, for the greeting, a function).
  It also holds what they compute: the prefix sums `SumQuantities`/`SumPrices` over the first `n` cart items, in arrival order.
  Beside them is an independent reference, the left fold `Run` over the shared `Step`. `RunMatchesPrefixSums` proves the fold equal to the prefix sums.
- `BillingClient` holds the demo client's four calls. Each one is a caller whose contract states what the client receives.
  Beside them, `OrderUnknownItem` is a scenario that the demo client does not send: an order with a name missing from the catalog.
  In the demo order the client sends 10, 20 and 30 pieces of the three fruits. It gets interim bills (10, 1000), (30, 1400), (60, 1700), then a final bill (60, 1700).
  The batch call gives a single final bill (60, 1700).

How the model stands for the runtime:

- The catalog is the service's readonly `items` field, which is always `AllItems()`. It is passed to each operation as the parameter `items`.
- A request stream is the sequence of cart items the client sends before it completes.
- A response stream is the sequence the method returns.
- If a name is not in the catalog, `FirstOrDefault` returns null and the next dereference faults. The model gives the error `ItemNotFound(name)` for this.
  The batch call returns `Err`. The bidirectional call ends with status `Faulted`, and the interim bills it wrote before the fault stay in its output.
- Prices and totals are integers. The source uses `float`, but every catalog price is a whole number.

- The service does not reject negative quantities or empty names: it folds any quantity and looks up any name, and so does the model.
- An unknown name faults the call: `FirstOrDefault` gives null, and `itemInStore.Price` dereferences it (BillingServer/Services/BillingService.cs lines 61 and 96). The model does the same.

## Model

| member | source | states |
|---|---|---|
| `Catalog.AllItems` | BillingServer/Services/BillingService.cs:119-129 | the catalog has three entries, no two of them share a name, and no price is negative |
| `Catalog.FirstIndex` | BillingServer/Services/BillingService.cs:57 | the first position whose entry has the requested name (no earlier entry has it), or None exactly when no entry has it |
| `Catalog.FindItem` | BillingServer/Services/BillingService.cs:92 | the lookup returns an entry exactly when the catalog holds the name, and that entry carries the name |
| `Catalog.UnitPrice` | BillingServer/Services/BillingService.cs:61 | the price used for a name the catalog holds is non-negative when all catalog prices are |
| `Catalog.FindItemIsFirst` | BillingServer/Services/BillingService.cs:57 | the lookup returns the first entry with the name, whatever entries follow it |
| `Catalog.FindItemDistinct` | BillingServer/Services/BillingService.cs:119-129 | in a catalog with distinct names, every entry is found by its own name, at its own price |
| `Catalog.CatalogPrices` | BillingServer/Services/BillingService.cs:121-126 | the server catalog answers Pineapple 100, Oranges 20 and Banana 10, and has no entry for any other name |
| `BillingService.SayHello` | BillingServer/Services/BillingService.cs:20-28 | the reply is from "John", and its message is "Hello ", then exactly the caller's name, then ". How can I help you?" |
| `BillingService.GreetingRoundTrip` | BillingServer/Services/BillingService.cs:25 | the caller's name can be read back from the greeting, so distinct names get distinct greetings |
| `BillingService.GreetingsAreReplies` | BillingServer/Services/BillingService.cs:25 | any message that reads as a greeting is the reply to the name it carries, whatever the request message |
| `BillingService.GetItemsInStock` | BillingServer/Services/BillingService.cs:30-39 | the response stream holds exactly the catalog entries, in catalog order |
| `BillingService.FirstMissing` | BillingServer/Services/BillingService.cs:57-61 | the position of the first cart item whose name the catalog lacks: every earlier item is in stock |
| `BillingService.FirstMissingAt` | BillingServer/Services/BillingService.cs:53-61 | an unknown item that follows only known ones is the first unknown item of the cart |
| `BillingService.PrefixSumsMonotone` | BillingServer/Services/BillingService.cs:96-97 | with non-negative prices and non-negative quantities in the longer prefix, the totals of a prefix never exceed those of a longer prefix |
| `BillingService.Step` | BillingServer/Services/BillingService.cs:57-62 | one fold step succeeds exactly when the catalog holds the item's name, and otherwise fails with ItemNotFound of that name |
| `BillingService.RunFromPrefix` | BillingServer/Services/BillingService.cs:53-63 | resuming the fold after any in-stock prefix, starting from that prefix's sums, ends at the whole cart's sums or at its first unknown name |
| `BillingService.RunMatchesPrefixSums` | BillingServer/Services/BillingService.cs:48-63 | the fold from (0, 0) succeeds exactly when every item is in stock. It then yields the prefix sums of the whole cart, or else ItemNotFound of the first unknown name |
| `BillingService.CartPriceIgnored` | BillingServer/Services/BillingService.cs:57-62 | the price carried on an incoming cart item never affects the fold: only names and quantities do |
| `BillingService.ProcessAllItems` | BillingServer/Services/BillingService.cs:46-72 | exactly one bill, a "Final Bill", for any number of items (0 gives (0, 0)). Its totals are the sum of the quantities and of catalog price times quantity. It fails exactly when some name is unknown, with the first such name |
| `BillingService.RunningBillsMonotone` | BillingServer/Services/BillingService.cs:96-116 | with non-negative prices and non-negative quantities in the items processed, each bill written has totals no smaller than those of every earlier bill |
| `BillingService.ProcessEachItemOneByOne` | BillingServer/Services/BillingService.cs:80-117 | the k-th response is an "Interim Bill" holding the sums over the first k items. When all names are known there are exactly one per item plus a trailing "Final Bill" equal to the last interim one, or (0, 0) for no items. Otherwise the call faults on the first unknown name after the interim bills before it. Totals never decrease when prices and the quantities of the items actually processed are non-negative |
| `BillingClient.DemoCartInStock` | BillingClient/Program.cs:92-101 | every line of the demo order names a catalog item, priced 100, 20 and 10 by the server |
| `BillingClient.DemoPrefixTotals` | BillingClient/Program.cs:92-101 | the running totals of the demo order are (10, 1000), (30, 1400) and (60, 1700) |
| `BillingClient.Hello` | BillingClient/Program.cs:35-51 | the client named Anne receives "Hello Anne. How can I help you?" from John |
| `BillingClient.GetAllItemsAsStream` | BillingClient/Program.cs:58-78 | the client receives Pineapple 100, Oranges 20, Banana 10, in that order |
| `BillingClient.SendCartItemsAsStream` | BillingClient/Program.cs:85-123 | the batch call on the demo order returns the single final bill (60, 1700) |
| `BillingClient.ProcessItemsOneByOne` | BillingClient/Program.cs:130-177 | the interactive call on the demo order writes interim bills (10, 1000), (30, 1400), (60, 1700), then final bill (60, 1700) |
| `BillingClient.OrderUnknownItem` | BillingServer/Services/BillingService.cs:87-106 | an order whose second line names no catalog item gets one interim bill (10, 1000), then faults with ItemNotFound("Apple") |
| `BillingClient.DemoRun` | BillingClient/Program.cs:92-101 | the fold over the demo order ends at (60, 1700), whatever prices the client puts on its cart items |

## Left out

- gRPC transport and async machinery: `MoveNext`, `WriteAsync`, `ServerCallContext` and tasks are replaced by an input sequence and an output sequence. Cancellation and transport failure mid-stream are not modelled.
- Logging: the `Console.WriteLine` lines in the service are side effects only.
- Float arithmetic: `totalPrice` is a C# `float` in the source. The model uses unbounded integers, so it has no rounding. In the source, large totals would lose precision.
- Integer width: `totalQuantity` and `Quantity` are 32-bit C# `int`, which wrap on overflow in unchecked code. The model's integers are unbounded.
- Unset Item field: a cart item whose `Item` message field is null also faults in the source, when it is dereferenced. The model's `CartItem` always carries an item.
- Request messages: the text of `AllItemsRequest.Message` is only logged, and `HelloRequest.Message` is never read. Both are parameters that the model does not use.
- Demo client: console output, `Random` and `Task.Delay` pacing, channel and TLS setup, and `RpcException` printing are left out. The client's calls appear only as callers that check the demo order.
