# Restaurant ordering system: a verified model of its core

This project models the ordering flow of a small restaurant system written in TypeScript (Next.js with socket.io), in Dafny:

- **Notification hub.** `src/lib/socket.ts` and its copy in `server.ts` form the hub. Connections join the `kitchen` room or a `customer-<queueNumber>` room. The hub forwards new orders to the kitchen. A status update is sent first to the customer's room, then to the kitchen. Every new connection gets a welcome event. `server.ts` also holds two more pieces: the request filter that keeps socket traffic away from the page handler, and the process-wide hub handle.
- **Queue-number generator** (`GET /api/queue/generate`). It strips `Q-`, parses the number, adds one and pads to three digits. It answers `Q-001` when there is no order yet, and falls back to a clock-derived number when the lookup fails.
- **Order API** (`/api/orders`). `POST` checks the required fields, applies the status and payment defaults, maps the line items, stores the order, and notifies the kitchen when the hub is up. `GET` turns its `filter` value into a lower bound on the creation time.
- **Customer page** (`src/app/page.tsx`). It covers the cart (add, set quantity, total), the guards on an empty cart and a blank name, the order payload, the menu grouped by category, the status labels and notifications, and the check that a status update is for the order on screen.
- **Kitchen display** (`src/app/kds/page.tsx`). It covers the header statistics and the one-step action button per order. It also covers the active column (oldest first) and the completed column with its ten-entry history, and the rule that a status change is relayed only after the API accepted it.
- **Sales report** (`src/app/reports/page.tsx`). It computes statistics over the completed orders: count, revenue, average, distinct customers, CASH/QRIS counts, and per-category and per-hour sums. It also picks the five busiest hours and produces the CSV export.

Layout, one module per file:

| file | module | what |
|---|---|---|
| `wrappers.dfy` | `Wrappers` | `Option`, standing for `undefined`/`null` |
| `text.dfy` | `Text` | the string builtins the code uses: `startsWith`, `replace`, `padStart`, `slice(-n)`, `trim`, `join`, plus `split` as a reader of joined text |
| `decimal.dfy` | `Decimal` | `toString()` on integers and radix-10 `parseInt` |
| `domain.dfy` | `Domain` | the order record, the status vocabulary, filter by status, sum of amounts |
| `sorting.dfy` | `Sorting` | `Array.prototype.sort` with a numeric key comparator, as a stable insertion sort |
| `hub.dfy` | `Hub` | rooms, deliveries, the hub's handlers as the class `Server` |
| `server.dfy` | `HttpServer` | the request filter, the global handle as the class `Runtime`, worked runs of the hub |
| `queue.dfy` | `QueueNumber` | the queue-number generator |
| `intake.dfy` | `OrderApi` | `POST` and `GET /api/orders` |
| `cart.dfy` | `Customer` | the customer page |
| `kitchen.dfy` | `Kitchen` | the kitchen display |
| `reports.dfy` | `Reports` | the sales report |

Modelling choices:

- **Rooms.** A room is a duplicate-free sequence of connection ids in join order, so a publication fans out in that order.
- **Hub state.** `Server.outbox` is the ordered log of every `(connection, event, payload)` the hub has handed to the transport.
- **Disconnect.** The source's `disconnect` handler only logs, so `Server.OnDisconnect` changes nothing. Removing the connection from its rooms is the transport's job. The model states it as an assumption, `Server.DropConnection`, which also deletes emptied rooms.
- **Records with string keys.** The `Record<string, number>` objects of the report are association lists in key insertion order, the order `Object.entries` yields for these keys.
- **Database.** It is a parameter:
  - `POST` gets a function from the data passed to `create` to the stored order, `None` when `create` throws.
  - `GET` gets a function from the `where` clause to the fetched list.
  - The kitchen's status `PATCH` is given as its answer.
- **Times.** Each is the three things the pages read from a `Date`: milliseconds, the local hour, and the locale text.
- **Amounts.** They are whole numbers. The report average is an exact `real` quotient.

Behaviour worth knowing, as the code has it:

- **Disconnect.** The `disconnect` handler only logs. Removing the connection from its rooms is socket.io's own cleanup, modelled as `Hub.Server.DropConnection`.
- **Fallback queue number.** It is `Q-` and the last four characters of the decimal clock reading, so a reading below 1000 gives fewer than four digits. `QueueNumber.Fallback` states the 1-to-4 digit range.
- **Payment methods.** The order API passes any non-empty `paymentMethod` string on to `db.order.create` and defaults only a missing or empty one to CASH. The column is the database's `PaymentMethod` enum (CASH, QRIS), so the database refuses any other string and the route then answers 500. The model's `db` parameter stands for that behaviour; it is not itself constrained to the enum.
- **Global handle.** `HttpServer.Runtime.GetGlobalIO` stands for both `getGlobalIO()` (server.ts:116) and the `(global as any).socketIO` that the order API reads (src/app/api/orders/route.ts:6-9). Startup sets both to the same server (server.ts:96 and server.ts:100), so they behave the same.

## Model

| member | source | states |
|---|---|---|
| `Hub.CustomerRoomsDistinct` | src/lib/socket.ts:13-17 | a customer room is never the kitchen room, and two queue numbers share a room exactly when they are equal |
| `Hub.Joined` | src/lib/socket.ts:8-17 | after joining, the connection is a member of the room, listed once (appended only if new); every other room keeps its members |
| `Hub.JoinIdempotent` | src/lib/socket.ts:13-17 | joining the same room twice leaves the same membership as joining once |
| `Hub.JoinKeepsNoDup` | src/lib/socket.ts:9-15 | joining keeps every room free of duplicate members |
| `Hub.Without` | src/lib/socket.ts:41-43 | removing a connection from a member list keeps exactly the other members and no duplicates |
| `Hub.LeftAll` | src/lib/socket.ts:41-43 | after the transport's cleanup every room has exactly its old members minus the connection, and no room is left empty |
| `Hub.WithoutIdempotent` | src/lib/socket.ts:41-43 | removing a connection twice is the same as removing it once |
| `Hub.WithoutAppend` | src/lib/socket.ts:41-43 | removal distributes over concatenated member lists |
| `Hub.LeaveRemovesEverywhere` | src/lib/socket.ts:41-43 | after cleanup the connection is in no room, and a second cleanup changes nothing (disconnect is idempotent) |
| `Hub.FanoutReachesMembersOnce` | src/lib/socket.ts:22 | a publication to a room gives each current member exactly one copy and every non-member none, the sender included |
| `Hub.FanoutInMemberOrder` | src/lib/socket.ts:22 | a publication yields one identical delivery per member, in member order |
| `Hub.Fanout` | src/lib/socket.ts:22 | the deliveries of one `io.to(room).emit`; `FanoutReachesMembersOnce` and `FanoutInMemberOrder` state who gets what |
| `Hub.Deliver` | src/lib/socket.ts:29-35 | the deliveries of consecutive emits, in emit order; stated through `Server.PublishAll` |
| `Hub.NewOrderRoutes` | src/lib/socket.ts:20-24 | the single `order-received` emit to `kitchen`; `NewOrderReachesKitchenOnly` states its audience |
| `Hub.StatusRoutes` | src/lib/socket.ts:27-35 | the customer-room emit, then the kitchen emit; `StatusUpdateReachesEachAudience` states its audiences |
| `Hub.NewOrderReachesKitchenOnly` | src/lib/socket.ts:20-24 | a relayed new order reaches each kitchen member once as `order-received` with the payload unchanged, and nobody else |
| `Hub.StatusUpdateReachesEachAudience` | src/lib/socket.ts:27-38 | for every status, a customer-room member gets `status-updated` with only id and status, a kitchen member gets `order-updated` with the full update, in that order when it is in both, and any other connection gets nothing |
| `Hub.Server.constructor` | server.ts:87-93 | the hub starts with no connection, no room and nothing sent |
| `Hub.Server.Connect` | src/lib/socket.ts:45-49 | a new connection receives exactly one `connected` event with message `Connected to order system`; rooms are unchanged |
| `Hub.Server.Join` | src/lib/socket.ts:8-17 | joining updates only the rooms, as `Joined` says, and sends nothing |
| `Hub.Server.JoinKitchen` | src/lib/socket.ts:8-11 | `join-kitchen` adds the connection to `kitchen` only and sends nothing |
| `Hub.Server.JoinCustomer` | src/lib/socket.ts:13-17 | `join-customer` adds the connection to `customer-<queueNumber>` only and sends nothing |
| `Hub.Server.Publish` | src/lib/socket.ts:22 | `io.to(room).emit` appends one delivery per current member and changes no membership; an empty room adds nothing and is no error |
| `Hub.Server.PublishAll` | src/lib/socket.ts:29-35 | consecutive publications append their deliveries in publication order |
| `Hub.Server.NewOrder` | src/lib/socket.ts:20-24 | the `new-order` handler appends exactly the kitchen fan-out of `order-received` |
| `Hub.Server.OrderStatusUpdate` | src/lib/socket.ts:27-38 | the `order-status-update` handler appends the customer-room fan-out, then the kitchen fan-out |
| `Hub.Server.OnDisconnect` | src/lib/socket.ts:41-43 | the disconnect handler changes no server state |
| `Hub.Server.DropConnection` | src/lib/socket.ts:41-43 | the assumed transport cleanup removes the connection from every room and from the live set and sends nothing |
| `HttpServer.PassesToPages` | server.ts:78-84 | a request reaches the page handler exactly when it has no URL or its URL does not start with `/api/socketio` |
| `HttpServer.Runtime.constructor` | server.ts:62 | the global handle starts as `null` |
| `HttpServer.Runtime.Start` | server.ts:95-101 | startup installs the hub as the global handle |
| `HttpServer.Runtime.GetGlobalIO` | server.ts:116 | the getter returns the handle as it stands |
| `HttpServer.HandleLifecycle` | server.ts:62-116 | worked run: the handle reads `null` before startup and the started hub after it |
| `HttpServer.KitchenRelayRun` | server.ts:16-32 | with two kitchen screens and a sender outside the kitchen, a new order reaches both screens unchanged and is not echoed to the sender |
| `HttpServer.StatusRelayRun` | server.ts:21-46 | a READY update reaches the customer as id and status only, then the kitchen with the queue number, and nobody else |
| `HttpServer.JoinWindowRun` | server.ts:16-32 | an order published before a screen joins is not replayed to it; after the transport drops the screen a publication reaches nobody |
| `QueueNumber.Fallback` | src/app/api/queue/generate/route.ts:23-27 | the fallback is `Q-` and the last (up to) four decimal digits of the clock reading |
| `QueueNumber.Generate` | src/app/api/queue/generate/route.ts:13-27 | every answer starts with `Q-`; no latest order or an empty queue number gives `Q-001`; a non-empty latest queue number gives its successor; a failed lookup gives the fallback |
| `QueueNumber.GenerateAfterWellFormed` | src/app/api/queue/generate/route.ts:15-19 | after a well-formed latest queue number worth `v`, the answer is well-formed and its number part is `v + 1` |
| `QueueNumber.NumberPart` | src/app/api/queue/generate/route.ts:17 | `parseInt(queueNumber.replace('Q-', ''))`; `NumberPartOfWellFormed` states its value on `Q-<digits>` |
| `QueueNumber.Successor` | src/app/api/queue/generate/route.ts:17-19 | the next queue number starts with `Q-` and has at least three characters after it, whatever the input; they are digits only for a well-formed input (`SuccessorOfWellFormed`), not for `Q-abc` or `Q--5` |
| `QueueNumber.SuccessorOfNonNumber` | src/app/api/queue/generate/route.ts:17-19 | a latest queue number with a letter after `Q-` parses to `NaN` and is followed by `Q-NaN` |
| `QueueNumber.SuccessorOfMinus5` | src/app/api/queue/generate/route.ts:17-19 | worked example: `Q--5` is followed by `Q-0-4`, the padding going in front of the sign |
| `QueueNumber.SuccessorOfWellFormed` | src/app/api/queue/generate/route.ts:15-19 | for `Q-<digits>` with digits worth v, the next number is `Q-` and the decimal form of v + 1, zero-padded to at least three digits; it is well-formed again and its number part is exactly v + 1 |
| `QueueNumber.NumberPartOfWellFormed` | src/app/api/queue/generate/route.ts:17 | stripping `Q-` and parsing gives the value of the digits |
| `QueueNumber.PaddedValue` | src/app/api/queue/generate/route.ts:19 | padding with `0` to width 3 never truncates and keeps the value |
| `QueueNumber.SuccessorIncreases` | src/app/api/queue/generate/route.ts:17-19 | the successor's number part is strictly greater than the input's |
| `QueueNumber.SuccessorOf047` | src/app/api/queue/generate/route.ts:17-19 | `Q-047` is followed by `Q-048` |
| `QueueNumber.SuccessorOf009` | src/app/api/queue/generate/route.ts:17-19 | `Q-009` is followed by `Q-010`: the carry is padded, not lost |
| `QueueNumber.SuccessorOf999` | src/app/api/queue/generate/route.ts:17-19 | `Q-999` is followed by `Q-1000`: padding never truncates |
| `Text.StartsWithIsPrefix` | server.ts:80 | `startsWith` holds exactly when the pattern is a prefix |
| `Text.ReplaceLeadingPattern` | src/app/api/queue/generate/route.ts:17 | replacing a leading `Q-` with nothing leaves the rest |
| `Text.PadStart` | src/app/api/queue/generate/route.ts:19 | the result has length max(width, length), ends with the input, and is filled with the pad character in front |
| `Text.SliceFromEnd` | src/app/api/queue/generate/route.ts:26 | `slice(-n)` is a suffix of length min(n, length) |
| `Text.TrimEmptyIffBlank` | src/app/page.tsx:140 | a trimmed string is empty exactly when every character is ECMAScript white space or a line terminator (every Unicode space separator included) |
| `Text.Trim` | src/app/page.tsx:140 | `trim()` gives a piece of the string that neither starts nor ends with white space |
| `Text.ReplaceFirst` | src/app/api/queue/generate/route.ts:17 | `replace` with a string pattern; `ReplaceLeadingPattern` states the leading case |
| `Text.Join` | src/app/reports/page.tsx:141 | `join`; `SplitJoin` and `JoinAvoids` state what it keeps |
| `Text.Split` | src/app/reports/page.tsx:141 | a reader of joined text, used to state that the export's lines and fields can be recovered |
| `Text.SplitJoin` | src/app/reports/page.tsx:141 | splitting joined text at the separator gives the parts back when no part contains it |
| `Text.JoinAvoids` | src/app/reports/page.tsx:141 | a character in no part and not in the separator is not in the joined text |
| `Decimal.NatToString` | src/app/api/queue/generate/route.ts:19 | `toString()` of a natural number is a non-empty digit string with no leading zero (so `48` is `48`, never `048` before padding) |
| `Decimal.IntToString` | src/app/reports/page.tsx:137 | `toString()` of an integer is digits with a leading `-` exactly when it is negative, and the digits spell the magnitude |
| `Decimal.ValueOfNatToString` | src/app/api/queue/generate/route.ts:17-19 | reading back the decimal form of a number gives the number |
| `Decimal.ValueOfLeadingZeros` | src/app/api/queue/generate/route.ts:17-19 | leading zeros do not change the value of a digit string |
| `Decimal.ParseInt` | src/app/api/queue/generate/route.ts:17 | radix-10 `parseInt`: skip white space, an optional sign, the longest digit run, `NaN` without one; `ParseIntDigits` states it on digit strings |
| `Decimal.ParseIntDigits` | src/app/api/queue/generate/route.ts:17 | `parseInt` of a non-empty digit string is its value |
| `Domain.WithStatus` | src/app/kds/page.tsx:98-100 | the filter keeps exactly the orders with that status, each no more often than in the list |
| `Domain.WithStatusAppend` | src/app/kds/page.tsx:98-100 | the filter of a concatenation is the concatenation of the filters: list order and multiplicity are kept |
| `Domain.WithStatusSingle` | src/app/kds/page.tsx:98-100 | a single order is kept exactly when its status matches |
| `Domain.SumAmounts` | src/app/kds/page.tsx:101-103 | the `reduce` sum of `totalAmount`; `Kitchen.StatsOf` and `Reports.HourlySalesSumRevenue` state what it adds up |
| `Sorting.SortBy` | src/app/kds/page.tsx:180 | the sorted list is a permutation of the input in ascending key order |
| `Sorting.PrefixHoldsSmallest` | src/app/reports/page.tsx:339-341 | after sorting, a prefix holds keys no greater than any element left out |
| `OrderApi.MethodOrCash` | src/app/api/orders/route.ts:34 | a missing or empty payment method becomes CASH; any other is kept |
| `OrderApi.ItemsData` | src/app/api/orders/route.ts:37-42 | each input line becomes exactly one item with the same menu item id, quantity, price and notes |
| `OrderApi.Build` | src/app/api/orders/route.ts:28-44 | a stored order takes the queue number, name and total as given, status WAITING, payment status PENDING, method or CASH, and one item per line |
| `OrderApi.Respond` | src/app/api/orders/route.ts:14-68 | 400 `Missing required fields` exactly when the body fails the check; success only with what the database stored for the built data; every other failure is 500 `Failed to create order` |
| `OrderApi.Accepts` | src/app/api/orders/route.ts:20-25 | the required-field check: every field truthy and `items` non-empty; `FalsyFieldsRejected` and `Respond` state its consequences |
| `OrderApi.FalsyFieldsRejected` | src/app/api/orders/route.ts:20-25 | an absent or empty queue number or name, absent or empty items, or a total that is absent or 0 is answered 400 |
| `OrderApi.CompleteBodyStored` | src/app/api/orders/route.ts:20-44 | a body passing all five checks reaches the database, and what it stores starts WAITING/PENDING with one item per line |
| `OrderApi.Post` | src/app/api/orders/route.ts:54-61 | the response does not depend on the hub; `order-received` goes to the kitchen only after a successful create and only when the global handle is set |
| `OrderApi.FilterValue` | src/app/api/orders/route.ts:74 | a missing or empty filter reads as `all` |
| `OrderApi.WhereFor` | src/app/api/orders/route.ts:76-102 | `today`, `week` and `month` give start of today, seven days ago and one month ago; every other value gives no condition |
| `OrderApi.UnknownFilterAdmitsAll` | src/app/api/orders/route.ts:76-102 | any filter other than the three admits every order |
| `OrderApi.DefaultFilterIsAll` | src/app/api/orders/route.ts:74 | with no filter every order is selected |
| `OrderApi.Get` | src/app/api/orders/route.ts:71-125 | the answer is the database result for the selected clause, or 500 `Failed to fetch orders` |
| `Customer.AddToCart` | src/app/page.tsx:147-160 | an item in the cart gets one more unit on its line with the other lines untouched and the length kept; a new item is appended with quantity 1 |
| `Customer.AddToCartKeepsLinesDistinct` | src/app/page.tsx:147-160 | adding keeps item ids distinct and quantities positive, and the item is then in the cart |
| `Customer.Dropped` | src/app/page.tsx:167 | removal keeps exactly the lines of other items, and leaves a cart without the item unchanged |
| `Customer.DroppedAppend` | src/app/page.tsx:167 | removal from a concatenation is removal from each part: the cart's order is kept |
| `Customer.DroppedSingle` | src/app/page.tsx:167 | a single line survives removal exactly when it is for another item |
| `Customer.UpdateQuantity` | src/app/page.tsx:165-175 | quantity 0 removes the item's line; any other value becomes that line's quantity, every other line untouched |
| `Customer.UpdateQuantityKeepsLinesValid` | src/app/page.tsx:165-175 | a quantity of zero or more keeps ids distinct and quantities positive |
| `Customer.DroppedSubsequence` | src/app/page.tsx:167 | removal keeps distinct ids distinct and positive quantities positive |
| `Customer.TotalPrice` | src/app/page.tsx:177-179 | the `reduce` sum of price × quantity, 0 for an empty cart; the `...Total` lemmas state how each cart operation changes it |
| `Customer.DroppedTotal` | src/app/page.tsx:165-179 | removing an item takes exactly its share off the total |
| `Customer.SetQuantityTotal` | src/app/page.tsx:169-179 | setting quantity q replaces the item's share of the total by q times its price |
| `Customer.UpdateQuantityTotal` | src/app/page.tsx:165-179 | after setting a quantity q, the total is the old total minus the item's share plus q times its price |
| `Customer.AddToCartTotal` | src/app/page.tsx:147-179 | adding raises the total by the item's recorded price, or by its price when it is new |
| `Customer.BumpedTotal` | src/app/page.tsx:151-157 | one more unit on the item's line adds that line's price to the total |
| `Customer.PositiveTotal` | src/app/page.tsx:177-179 | a non-empty cart of positive prices and quantities has a positive total |
| `Customer.StartOrder` | src/app/page.tsx:139-145 | the order form opens exactly when the name has a character that `trim()` keeps |
| `Customer.SpaceSeparatorNamesRefused` | src/app/page.tsx:140-143 | a name of U+3000, or of other Unicode space separators, is refused as blank |
| `Customer.PayloadItems` | src/app/page.tsx:197-201 | each cart line becomes `{menuItemId, quantity, price}` with no notes, in cart order |
| `Customer.SubmitOrder` | src/app/page.tsx:181-204 | nothing is sent exactly when the cart is empty; otherwise the body carries queue number, name, the mapped lines, the cart total and the method |
| `Customer.SubmittedOrderAccepted` | src/app/page.tsx:181-204 | what the page submits after its guards, with a queue number and a non-zero total, passes the order API's check and is stored WAITING with one item per cart line |
| `Customer.Categories` | src/app/page.tsx:340-346 | the categories of the menu, each once, exactly those of some item |
| `Customer.InCategory` | src/app/page.tsx:340-346 | a group holds exactly the menu items of its category |
| `Customer.Grouped` | src/app/page.tsx:340-346 | one group per category in first-appearance order, each the menu filtered to that category |
| `Customer.GroupIndex` | src/app/page.tsx:341 | finds the accumulator's group for a category, or reports that none exists yet |
| `Customer.GroupedSnocExisting` | src/app/page.tsx:344 | an item of a known category is pushed onto the end of that group |
| `Customer.GroupedSnocNew` | src/app/page.tsx:341-344 | an item of a new category opens a group at the end |
| `Customer.MenuByCategory` | src/app/page.tsx:340-346 | the in-place accumulation yields exactly the grouping above |
| `Customer.EachItemInOneGroup` | src/app/page.tsx:340-346 | every menu item is in the group of its own category and in no other |
| `Customer.StatusText` | src/app/page.tsx:246-255 | the five statuses get their fixed Indonesian labels; any other status is shown unchanged |
| `Customer.StatusLabelsDistinct` | src/app/page.tsx:246-255 | the five labels are distinct and none is a raw status |
| `Customer.StatusMessage` | src/app/page.tsx:92-101 | a notification exists exactly for CONFIRMED, PREPARING, READY and COMPLETED |
| `Customer.HandleStatusUpdate` | src/app/page.tsx:88-103 | a message for the order on screen replaces only its status and may notify; any other message changes nothing |
| `Customer.StatusUpdateIdempotent` | src/app/page.tsx:88-90 | applying the same message twice leaves the order as applying it once |
| `Kitchen.StatsOf` | src/app/kds/page.tsx:96-104 | the total is the list length, each count is at most the total, and revenue is the sum over COMPLETED orders |
| `Kitchen.CountOf` | src/app/kds/page.tsx:97-100 | an independent count of exact status matches, at most the list length |
| `Kitchen.StatsCountExactMatches` | src/app/kds/page.tsx:97-103 | the counts are the numbers of exact status matches and the revenue adds completed amounts only |
| `Kitchen.ThreeCountsBounded` | src/app/kds/page.tsx:97-100 | waiting + preparing + completed never exceeds the total |
| `Kitchen.NextStatus` | src/app/kds/page.tsx:331-369 | the button leads to a status of the progression; COMPLETED and unknown statuses get none |
| `Kitchen.NextStatusIsOneStep` | src/app/kds/page.tsx:331-369 | the button moves a status exactly one position forward along the progression, and every such step has a button |
| `Kitchen.ButtonsWalkToCompleted` | src/app/kds/page.tsx:331-369 | worked example: from WAITING four presses reach COMPLETED, which offers none |
| `Kitchen.ProgressionSplit` | src/app/kds/page.tsx:178-182 | a known status is active exactly when it is not COMPLETED |
| `Kitchen.Active` | src/app/kds/page.tsx:178-179 | keeps exactly the WAITING, CONFIRMED, PREPARING and READY orders; `ActiveAppend` and `ActiveSingle` state its order and multiplicity |
| `Kitchen.ActiveAppend` | src/app/kds/page.tsx:178-179 | the active filter of a concatenation is those of the parts in turn, whatever the statuses in the list |
| `Kitchen.ActiveSingle` | src/app/kds/page.tsx:178-179 | one order is kept exactly when its status is one of the four active ones |
| `Kitchen.ActiveOrders` | src/app/kds/page.tsx:178-180 | a permutation of the active filter (so, by `ActiveAppend` and `ActiveSingle`, each active order as often as in the list, for any statuses), sorted by creation time ascending |
| `Kitchen.CompletedOrders` | src/app/kds/page.tsx:182 | exactly the COMPLETED orders |
| `Kitchen.CompletedOrdersAppend` | src/app/kds/page.tsx:182 | the completed column of a concatenation is those of the parts in turn, and one order is listed exactly when COMPLETED: list order and multiplicity are kept |
| `Kitchen.History` | src/app/kds/page.tsx:392 | a prefix of the completed column of length min(10, its length): the first ten completed orders, all when ten or fewer |
| `Kitchen.ColumnsPartitionOrders` | src/app/kds/page.tsx:178-182 | with known statuses the two columns are disjoint and together hold every order exactly as often as the list |
| `Kitchen.ActiveAndCompleted` | src/app/kds/page.tsx:178-182 | the active and completed filters together form a permutation of the list |
| `Kitchen.StatusRelay` | src/app/kds/page.tsx:111-143 | a relay exists exactly after a successful update, with the requested status and the queue number from the answer |
| `Kitchen.UpdateOrderStatus` | src/app/kds/page.tsx:122-130 | a failed update sends nothing; a successful one sends the hub's two status deliveries |
| `Reports.Bump` | src/app/reports/page.tsx:108 | adding to a record raises exactly that key's amount and the grand total by the amount |
| `Reports.BumpKeys` | src/app/reports/page.tsx:108-116 | a new key goes to the end, an existing one keeps its place, and keys stay distinct |
| `Reports.ItemsTally` | src/app/reports/page.tsx:106-109 | adding an order's lines keeps keys distinct |
| `Reports.CategoryTally` | src/app/reports/page.tsx:104-110 | the category record has distinct keys |
| `Reports.HourKeyInjective` | src/app/reports/page.tsx:114-115 | different hours get different `"<hour>:00"` keys |
| `Reports.HourlyTally` | src/app/reports/page.tsx:112-117 | the hourly record has distinct keys |
| `Reports.Average` | src/app/reports/page.tsx:94 | the average is 0 without orders and otherwise revenue divided by count |
| `Reports.MethodCount` | src/app/reports/page.tsx:97-102 | the number of orders naming a method, at most the number of orders |
| `Reports.StatsOf` | src/app/reports/page.tsx:89-128 | the statistics of the completed orders; `StatsConsistent` and `OnlyCompletedCount` state their properties |
| `Reports.CountMethods` | src/app/reports/page.tsx:97-102 | the counters are the numbers of orders naming CASH and QRIS |
| `Reports.SumByCategory` | src/app/reports/page.tsx:104-110 | the nested loops build exactly the category record |
| `Reports.SumByHour` | src/app/reports/page.tsx:112-117 | the loop builds exactly the hourly record |
| `Reports.CalculateStats` | src/app/reports/page.tsx:89-128 | the computed statistics are those of the completed orders |
| `Reports.ItemsTallyAdds` | src/app/reports/page.tsx:105-109 | adding an order's lines raises the record's total by their amount and each category by its lines' amount |
| `Reports.CategorySalesSumLines` | src/app/reports/page.tsx:104-110 | each category's figure is the price × quantity of its lines, and the figures add up to all lines' amount |
| `Reports.HourlySalesSumRevenue` | src/app/reports/page.tsx:112-117 | the figure under `"<h>:00"` is the amount of orders created in hour h, and the figures add up to the revenue |
| `Reports.MethodCountsBounded` | src/app/reports/page.tsx:97-102 | CASH + QRIS never exceeds the number of orders |
| `Reports.CustomersBounded` | src/app/reports/page.tsx:95 | distinct customers are at most the orders, and at least one when there is an order |
| `Reports.StatsConsistent` | src/app/reports/page.tsx:89-117 | hourly figures add up to revenue, category figures to the completed lines, CASH + QRIS ≤ orders, customers ≤ orders, average 0 without orders |
| `Reports.OnlyCompletedCount` | src/app/reports/page.tsx:90 | an order that is not COMPLETED changes no statistic, wherever it sits in the fetched list (`StatsOf(a + [o] + b) == StatsOf(a + b)`) |
| `Reports.PeakHours` | src/app/reports/page.tsx:339-341 | min(5, n) hourly entries taken from the record without repetition (a sub-multiset), largest amount first, none smaller than an entry left out |
| `Reports.SortedPrefix` | src/app/reports/page.tsx:339-341 | a prefix of the record sorted by descending amount is a sub-multiset of it and holds its largest amounts |
| `Reports.OrDash` | src/app/reports/page.tsx:136-138 | a missing or empty value becomes `-`, any other is kept |
| `Reports.Row` | src/app/reports/page.tsx:133-140 | a row has as many fields as the header |
| `Reports.CsvLines` | src/app/reports/page.tsx:130-141 | the fixed header line, then one line per fetched order, completed or not |
| `Reports.HeaderAvoids` | src/app/reports/page.tsx:132 | the header fields contain no comma and no line feed |
| `Reports.RowAvoids` | src/app/reports/page.tsx:133-140 | a row's fields avoid comma and line feed when its text fields do (the total never contains either) |
| `Reports.ExportReport` | src/app/reports/page.tsx:130-141 | rows joined by `,`, lines by a line feed, no quoting; `ExportLines`, `RowFields` and `CommaInDateShiftsColumns` state what a reader gets back |
| `Reports.ExportLines` | src/app/reports/page.tsx:130-141 | splitting the export at line feeds gives the header and one line per order, when no field holds a line feed |
| `Reports.RowFields` | src/app/reports/page.tsx:133-141 | splitting a row at commas gives its six fields back, when no field holds a comma |
| `Reports.CommaInDateShiftsColumns` | src/app/reports/page.tsx:133-141 | without quoting, a comma inside the date text yields seven fields under the six-field header |

## Left out

- Persistence. The database calls (`db.order.create`, `findMany`, `findFirst`) and the menu and seed routes are not modelled. Created or fetched orders are parameters.
- The transport. The socket.io path and CORS settings, reconnection, and the client wrapper `src/hooks/useSocket.ts` are not modelled. It is also not modelled that each socket starts in a room named after its own id, since no handler uses that room. Only the routing rules are modelled, and room cleanup after a drop is an assumption (`Hub.Server.DropConnection`).
- Startup, `listen` and `process.exit` are I/O.
- Rendering, colours and icons, toasts other than the status notification, the 10-second polling, the payment page and the separator component are UI.
- The kitchen page's own label switch is UI text and is not modelled. It is the same mapping as the customer page's except for CONFIRMED.
- Clocks and locales (`Date.now`, `getHours`, `toLocaleString`, ISO timestamps) are not modelled. Each is a given value: `Timestamp`, the fallback's `nowMillis`, and the welcome `timestamp` string.
- Floating point is not modelled: amounts are integers, the average is exact, and `Math.round` of the average is display.
- Decimal.ParseInt: covers decimal digits only. `parseInt` of a `0x` prefix (read as hex when no radix is given) and of very large numbers (precision loss) are not modelled. The queue-number properties are proved for well-formed `Q-<digits>` input.
- OrderApi.Respond: models JSON fields of the expected types only. A non-string queue number, a non-array `items`, or a numeric string total take JavaScript paths that are not modelled.
- Reports.CountMethods: counts CASH and QRIS only. A completed order naming another method makes the source add a `NaN` counter under that key; that key is not modelled.
- Kitchen.ActiveOrders: the sort is stable, but that orders created at the same instant keep their fetched order is not stated as a property.
- Reports.PeakHours: the sort is stable, but that hours with equal amounts keep their insertion order is not stated as a property.
- Category keys that look like array indices (such as `"1"`) are listed first by `Object.entries`; the association list keeps insertion order for every key.
- Customer.MenuByCategory: the grouping is over an association list, so a category named like an `Object.prototype` property (`constructor`, `toString`, `__proto__`) is grouped like any other; in the page (src/app/page.tsx:340-344) `acc[c]` is then the inherited member, which is truthy, and `.push` throws.
- Reports.CategoryTally, Reports.Bump: a category named `constructor` or `toString` is tallied from zero here, whereas at src/app/reports/page.tsx:108 `categorySales[c] || 0` reads the inherited function and the sum becomes a string; a category named `__proto__` is tallied here but the page's assignment sets the prototype and the key is lost.
- Customer.StatusMessage: a status string such as `toString` or `constructor` gets no message here, whereas at src/app/page.tsx:99 `statusMessages[status]` finds the inherited function and a toast is shown.
- The failure path of the report and kitchen fetches is not modelled. There, the error body replaces the order list before the statistics code throws.
- The client's queue-number fallback in `src/app/page.tsx:117-120` is the same computation as `QueueNumber.Fallback`.
- The status and payment `PATCH` routes are outside this core. The kitchen sees only their answer.
- Hub payloads are typed: `order-status-update` carries exactly `{orderId, status, queueNumber}`, whereas socket.ts:29-35 forwards `data` as it came, extra fields included, and a malformed payload is forwarded unchecked.
- Concurrency between request handlers and socket events is not modelled. Each event is one sequential step.
