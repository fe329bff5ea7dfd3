# Order engine of the marketplace: model and proofs

The marketplace sells products with a limited stock, applies promo codes with a limited number of
uses, and lets a user have one active order at a time. `OrderService` keeps several tables in step:
stock with the units held by live orders, promo counters with the orders that carry the promo,
stored amounts with the item rows, and the operation log with the clock. This project models
`Create`, `Update`, `Cancel` and the rate limit with every SQL statement they issue and the table
constraints those statements run under, and proves what the tables keep, call by call, over serial
runs of any length, and over interleaved runs under row locks.

`dafny verify dfyconfig.toml` checks everything.

## How it is built

- `Sums`, `Money`: finite sums; cents, exact discounts in millionths ("micros"), and the rounding of NUMERIC(12, 2).
- `Schema`: rows, errors, and the CHECK, range, key and reference constraints as predicates.
- `Reservation`: what the check loop and the decrement loop accept, stated through the summed demand per product.
- `OrderRules`: the outcome of each call as a function from database and request to database and result.
- `Session`: one connection as a class. Each SQL statement is a method on the working copy of a
  transaction; a statement that fails breaks the transaction; the connection can be lost at any statement.
- `OrderService`, `ProductService`: the services as classes, statement by statement and loop by loop,
  proved to have exactly the outcomes of `OrderRules`.
- `Balance`: the exchange each call makes, and that it keeps stock plus reservations and the promo counters.
- `Invariant`, `Runs`, `SupplyRuns`, `ReachableFacts`, `RateLimitRuns`: serial runs of calls, product
  edits, promo creation, payment and delivery.
- `CallFacts`: field by field, when each call succeeds, its error otherwise, and the rows it writes.
- `Equivalences`: Update against Cancel followed by Create; baskets that differ only in order or splitting.
- `Interleaving`, `LockProofs`, `NetProofs`: requests as transactions whose statements interleave.
- `Limits`: when interleaved runs keep the limits that are tested by reads without a lock.
- `SerialCommits`, `SerialOrder`: when an interleaved run comes to the serial run of its commits.
- `Solo`, `Overlaps`: an uninterrupted transaction is the serial call; what overlapping requests can break.

## Assumptions

- Storing into NUMERIC(12, 2) rounds to the nearest cent, ties away from zero; what that means is the predicate `IsNearestCent`.
- PostgreSQL refuses every statement of a transaction after one has failed, and a transaction that is not committed leaves nothing behind.
- A row that a transaction has written, or read FOR UPDATE, stays locked until the transaction ends;
  plain reads see committed rows and the transaction's own writes (READ COMMITTED).
- The application and the database read the same clock. A transaction starts after the rate limit of its request was tested, and in serial runs the clock does not run backwards; only the lemmas on the rate limit use this.
- Ids are drawn freely; an id that is already taken fails on the primary key.
- Quantities are 1 to 2147483647. The handlers admit 1 to 999 and 1 to 50 lines
  (`internal/handler/orders.go:20-26`), which none of the results needs; an empty basket is included.

## What came out

- A basket that asks for too much of a product over several lines is refused by CHECK (stock >= 0) and
  reported as a plain failure, although `api/openapi.yaml:918` promises INSUFFICIENT_STOCK; that error
  appears exactly when one line alone exceeds the stock (`OverDemandError`, `SplitShortageIsNotReported`).
- Cancel can fail only by leaving INTEGER. That never happens while every product's total supply fits,
  but a seller who overwrites the stock can bring it about (`CancelSucceedsWhen`, `StockEditCanBlockCancel`).
- Stored total plus stored discount is one cent more than the basket exactly when the discount ends on half a cent.
- `Update` and `Cancel` read the order before their transaction and never lock it. Two overlapping
  Cancels of one order return its units twice; conservation is proved when no two such requests overlap.
- The tests for an active order, for a promo's remaining uses and for the rate limit take no lock
  either. Each limit is kept by every interleaving in which no two requests that compete for it overlap
  (two Creates of one user, two Creates of one promo, two Creates or two Updates of one caller), whatever
  else overlaps, and two such Creates that do overlap can pass it.
- When requests that compete for an order, a caller's rate or a promo do not overlap, and payment does
  not move an order that is being changed, an interleaved run leaves the tables of the serial run of
  its calls in the order of their commits.

## Model

| member | source | states |
|---|---|---|
| Money.RoundToCentsIsNearest | internal/migrations/000001_init.up.sql:71-72 | the rounding of stored amounts is the one value that is nearest, ties away from zero |
| Money.DiscountBounds | internal/service/orders.go:433-449 | for every positive promo value 0 <= discount <= total, and a percentage takes at most 70% |
| Money.CapActsAsSeventyPercent | internal/service/orders.go:437-440 | all percentages from 70 up, above 100 included, give the discount of 70% |
| Money.PercentageIsLinear | internal/service/orders.go:435-441 | the percentage discount is the exact share of the total, up to the cap |
| Money.DiscountAndNetAreMonotone | internal/service/orders.go:433-449 | a larger basket has no smaller discount and no smaller price, exact and as stored |
| Money.StoredPartsAddUp | internal/migrations/000001_init.up.sql:71-72 | two independently rounded columns add up to the basket, or to one cent more exactly on a half cent, and neither leaves 0..total |
| Money.PercentageAmounts | internal/service/orders.go:435-441 | the stored discount is the nearest cent to the share of the total at the capped rate, the stored price the nearest cent to the rest |
| Money.FixedAmounts | internal/service/orders.go:442-446 | a fixed amount up to the total is taken off exactly; a larger one takes the total and leaves nothing to pay |
| Money.FixedDiscountIsWholeCents | internal/service/orders.go:442-446 | fixed discounts never end on half a cent |
| Reservation.ReserveAccepts | internal/service/orders.go:73-109 | both loops go through if and only if each product exists, is ACTIVE and has its summed demand in stock, repeated lines included |
| Reservation.ReleaseThenReserveAccepts | internal/service/orders.go:236-291 | for Update, restore loop included: both go through if and only if every product has room in INTEGER for what comes back and, with that, enough for each ACTIVE product asked for |
| Reservation.OverDemandError | internal/service/orders.go:84-107 | an over-demanded basket gets INSUFFICIENT_STOCK if and only if one line alone exceeds its stock; otherwise the decrement fails |
| Reservation.SplitShortageIsNotReported | internal/service/orders.go:84-107 | 6 + 6 units against a stock of 10 fail in the decrement, 12 in one line are reported |
| Reservation.FirstLineErrorIs | internal/service/orders.go:73-83 | the first line whose product is missing is reported as not found, the first that is not ACTIVE as inactive, whichever comes first |
| Reservation.ShortagesConcat | internal/service/orders.go:84-98 | the shortages of a basket are those of its parts, in order |
| Reservation.ShortageOfOne | internal/service/orders.go:84-90 | a line is reported exactly if it exceeds the stock alone, with product, requested and available quantity |
| Reservation.ReserveFailsWith | internal/service/orders.go:84-107 | with all products on sale: one line too large gives INSUFFICIENT_STOCK with the report, only a sum too large a plain failure |
| Reservation.ReservedRowsOk | internal/migrations/000001_init.up.sql:36-37 | an accepted reservation leaves every product row within its constraints |
| Reservation.ReleasedRowsOk | internal/migrations/000001_init.up.sql:36-37 | so does a release that fits INTEGER |
| Reservation.DemandOfOne | internal/service/orders.go:101-107 | a line demands its quantity of its product and nothing else |
| Reservation.DemandOfPermutation | internal/service/orders.go:240-247 | the units moved per product do not depend on the order of the lines |
| Reservation.SplittingKeepsDemand | internal/service/orders.go:73-109 | nor on one line being split into two |
| Reservation.GrossIsSumOfCosts | internal/service/orders.go:100-109 | the running total of the loop is the sum over products of price times demand |
| Reservation.SameDemandSameGross | internal/service/orders.go:100-109 | baskets of the same demand have the same total |
| Session.Session.GetProductForUpdate | internal/db/queries/products.sql:9-10 | yields the row as the transaction sees it, or a broken transaction on a lost connection |
| Session.Session.IncrementStock | internal/db/queries/products.sql:29-30 | relative stock write; fails exactly outside CHECK and INTEGER or on a lost or broken session, and then writes nothing |
| Session.Session.DecrementStock | internal/db/queries/products.sql:26-27 | the same for taking units |
| Session.Session.UpdateProduct | internal/db/queries/products.sql:12-21 | absolute write of price, stock and status, under the row constraints |
| Session.Session.ArchiveProduct | internal/db/queries/products.sql:23-24 | sets ARCHIVED and nothing else |
| Session.Session.IncrementPromoUses | internal/db/queries/promo_codes.sql:12-13 | adds one use, failing only at the end of INTEGER |
| Session.Session.DecrementPromoUses | internal/db/queries/promo_codes.sql:15-16 | gives one use back, and does nothing at zero without failing |
| Session.Session.CreateOrder | internal/db/queries/orders.sql:1-4 | inserts the rounded amounts, and fails exactly on a constraint, key or reference, or on the connection |
| Session.Session.UpdateOrderAmounts | internal/db/queries/orders.sql:21-27 | replaces amounts and promo, keeping user and status |
| Session.Session.GetOrderItems | internal/db/queries/orders.sql:34-35 | yields the rows in an arbitrary order |
| Session.Session.CreateOrderItem | internal/db/queries/orders.sql:29-32 | appends one row under the item constraints and references |
| Session.Session.GetLastOperation | internal/db/queries/user_operations.sql:1-6 | yields the time of the latest entry of the user and kind |
| Session.Session.Commit | internal/service/orders.go:173-175 | publishes the working copy, or fails leaving the committed tables alone; a broken transaction never commits |
| OrderService.OrderService.CheckRateLimit | internal/service/orders.go:414-431 | unless the connection is lost, rejects if and only if some entry of the user and kind is younger than the limit |
| OrderService.OrderService.CheckLines | internal/service/orders.go:73-98 | the check loop returns the first missing or inactive product, else all lines that exceed the stock, else the rows read |
| OrderService.OrderService.TakeLines | internal/service/orders.go:100-109 | the decrement loop takes exactly the demand and adds up the total, or fails because some product is asked for more than its stock |
| OrderService.OrderService.ReserveLines | internal/service/orders.go:73-109 | both loops together compute Reserve, with the rows and the total of the basket |
| OrderService.OrderService.GiveBack | internal/service/orders.go:236-247 | the restore loop computes Release on the stored rows, in whatever order they are read |
| OrderService.OrderService.ApplyCode | internal/service/orders.go:111-140 | the promo branch of Create: each rejection exactly in its case on the fields of the promo, and otherwise promo and discount |
| OrderService.OrderService.ReviewPromo | internal/service/orders.go:293-312 | the promo branch of Update: kept and repriced exactly when active, within uses and dates and with its minimum met, else dropped and refunded; an ignored error never survives to the commit |
| OrderService.OrderService.StoreOrder | internal/service/orders.go:142-177 | order row, item rows and log entry are all committed, or nothing is |
| OrderService.OrderService.Create | internal/service/orders.go:45-178 | returns and commits exactly the outcome of the call, with the rate limit and active-order rejections exactly in their cases; every error return, from whatever statement, leaves all tables as they were; the connection is only lost if it does not survive 3n + 9 statements |
| OrderService.OrderService.Update | internal/service/orders.go:208-354 | likewise for Update, with ownership, state and rate rejections exactly in their cases; nobody but the owner or an admin gets through |
| OrderService.OrderService.Cancel | internal/service/orders.go:356-411 | likewise for Cancel, with ownership and state rejections exactly in their cases; on success it returns the rows it gave back |
| OrderService.ReleaseInAnyOrder | internal/db/queries/orders.sql:34-35 | restoring rows read in random-id order has one outcome |
| ProductService.ProductService.Update | internal/service/products.go:72-102 | writes exactly the requested price, stock and status, for the seller of the product or an admin, or fails with nothing changed |
| ProductService.ProductService.Delete | internal/service/products.go:104-121 | sets the status to ARCHIVED and keeps the rest, with the same rejections |
| OrderRules.LastOperationIsLatest | internal/db/queries/user_operations.sql:1-6 | the entry compared with is one of the user and kind, and none is later |
| OrderRules.RateLimitedWhen | internal/service/orders.go:414-431 | a call is limited if and only if the log has an entry of its user and kind younger than the limit |
| OrderRules.CreateGuards | internal/service/orders.go:46-64 | Create is rejected for its rate if and only if there is such an entry, and for an active order if and only if the user has one that is CREATED or PAYMENT_PENDING |
| OrderRules.UpdateGuards | internal/service/orders.go:209-226 | Update answers not found, ownership violation, invalid state and rate limit each exactly in its case, in this order |
| OrderRules.CancelGuards | internal/service/orders.go:357-371 | Cancel answers not found, ownership violation (not an admin and not the owner) and invalid state each exactly in its case |
| OrderRules.QuoteNewWhen | internal/service/orders.go:113-140 | a code is accepted if and only if it is known, active, has a use left, is within its dates and its minimum is met; the error otherwise, and what is taken |
| OrderRules.RequoteWhen | internal/service/orders.go:296-311 | an updated order keeps its promo if and only if it is active, not over its maximum, within its dates and its minimum is met; otherwise one use is given back |
| CallFacts.CreateSucceedsWhen | internal/service/orders.go:45-178 | Create succeeds if and only if there is no recent Create, no open order, every product is on sale with enough stock, the code is accepted, the amounts fit and the user exists |
| CallFacts.CreateStores | internal/service/orders.go:100-177 | what Create writes, field by field: order row, one item row per line at the price of now, stock, promo use, log entry; nothing else changes |
| CallFacts.CreateLineErrors | internal/service/orders.go:73-83 | the error of the first line that is not on sale |
| CallFacts.CreateStockErrors | internal/service/orders.go:84-107 | the error of a basket that asks for too much |
| CallFacts.CreateCodeErrors | internal/service/orders.go:113-131 | the error of a code that is not accepted |
| CallFacts.UpdateSucceedsWhen | internal/service/orders.go:208-354 | Update succeeds if and only if the order exists, is the caller's or the caller is an admin, is CREATED, there is no recent Update, and stock and amounts fit |
| CallFacts.UpdateStores | internal/service/orders.go:282-353 | what Update writes, field by field: amounts, promo kept or dropped, rows at the prices of now, log entry of the caller; user and status stay |
| CallFacts.UpdateMovesStock | internal/service/orders.go:240-291 | every stock changes by what the order held less what it now asks for |
| CallFacts.UpdateLineErrors | internal/service/orders.go:256-266 | the error of the first line that is not on sale |
| CallFacts.UpdateStockErrors | internal/service/orders.go:267-289 | the error of a basket that asks for too much, with the old units back in stock |
| CallFacts.CancelStores | internal/service/orders.go:381-410 | what Cancel writes, field by field: status CANCELED, units back, one promo use back; rows, amounts and log stay |
| CallFacts.EditSucceedsWhen | internal/service/products.go:72-102 | a product edit succeeds if and only if the product exists, a seller edits only their own and the row fits its constraints; the error otherwise |
| CallFacts.EditStores | internal/service/products.go:93-101 | price, stock and status become the ones asked for, the seller stays, and nothing else changes |
| CallFacts.ArchiveSucceedsWhen | internal/service/products.go:104-121 | the same for archiving, which changes the status alone |
| CallFacts.CreateAfterEdit | internal/service/orders.go:153-159 | an order placed after an edit has the new price on its rows, and needs the product to be ACTIVE with the new stock sufficing |
| CallFacts.ArchivedIsNotSold | internal/service/orders.go:81-83 | no successful Create or Update contains an archived product |
| CallFacts.AddedPromo | internal/service/promo.go:33-55 | a new promo starts active and unused if its code is new and its terms satisfy the constraints |
| Balance.CreateIsBalanced | internal/service/orders.go:73-164 | what the new order holds of stock and promo uses is exactly what products and promos lose, and nothing else moves |
| Balance.UpdateIsBalanced | internal/service/orders.go:236-340 | the difference between the old and the new rows and promo is exactly what products and promos lose or gain |
| Balance.CancelIsBalanced | internal/service/orders.go:381-404 | everything the order held goes back |
| Balance.BalancedKeepsSupply | internal/service/orders.go:101-109 | a balanced step keeps stock plus the units of all orders that are not canceled, for every product |
| Balance.BalancedKeepsPromoExact | internal/db/queries/promo_codes.sql:12-16 | a balanced step keeps every counter equal to the number of live orders carrying the promo |
| Balance.CarriedPromoIsCounted | internal/db/queries/promo_codes.sql:15-16 | a promo that a live order carries has a positive counter |
| Invariant.CreateKeepsInv | internal/service/orders.go:45-178 | a successful Create keeps the constraints, exact promo counters within their maximum, one active order per user, and amounts that match the rows |
| Invariant.UpdateKeepsInv | internal/service/orders.go:208-354 | so does a successful Update |
| Invariant.CancelKeepsInv | internal/service/orders.go:356-411 | so does a successful Cancel |
| Runs.StepKeepsInv | internal/service/products.go:72-121 | so does every other event: edits, archiving, new products, promos and users, payment and delivery |
| Runs.ReachableInv | internal/migrations/000001_init.up.sql:31-97 | all of this holds in every state reached from empty tables by any serial run |
| SupplyRuns.StepSupply | internal/service/products.go:93-101 | one event changes a product's supply by exactly what a seller adds or removes with it |
| SupplyRuns.SupplyOverRun | internal/service/orders.go:101-109 | over any run the supply moves by exactly the sum of those edits |
| SupplyRuns.CancelSucceedsWhen | internal/service/orders.go:356-411 | Cancel succeeds if and only if the order exists, the caller is its user or an admin, it is CREATED or PAYMENT_PENDING and its units fit back into INTEGER |
| SupplyRuns.UpdateReservesWhen | internal/service/orders.go:236-291 | the stock part of Update in terms of what the order holds, as an if-and-only-if; without room for what comes back the call fails with nothing changed |
| SupplyRuns.OwnerCanCancel | internal/service/orders.go:369-404 | while every supply fits INTEGER, the owner of an active order can cancel it |
| SupplyRuns.NoOverflowOnTheWay | internal/service/orders.go:385-392 | then no intermediate step of the restore loop leaves INTEGER, in any order of the rows |
| SupplyRuns.SupplyKeepsFitting | internal/service/products.go:93-101 | supplies that fit INTEGER keep fitting if and only if the event is not a stock edit that leaves too little room for the units in orders |
| SupplyRuns.SupplyKeepsFittingOverRun | internal/migrations/000001_init.up.sql:37 | so they keep fitting over any run without such an edit; price and status edits are free |
| SupplyRuns.StockEditCanBlockCancel | internal/service/products.go:93-101 | after any successful product edit, an order that could be cancelled still can if and only if the new stock leaves room for its units; otherwise Cancel fails in the restore statement |
| SupplyRuns.StockEditExample | internal/service/products.go:93-101 | an instance: an edit to the largest stock under an order of one unit |
| SupplyRuns.RoundTrip | internal/service/orders.go:45-411 | after Create and any Updates of that order, failed or not, its owner or an admin can cancel it, and that restores every product row and promo row |
| ReachableFacts.PromoCounters | internal/service/orders.go:123-139 | in every reachable state a promo's counter is the number of live orders carrying it, at most its maximum |
| ReachableFacts.CarriedPromoCounter | internal/service/orders.go:301-309 | Update keeps the promo of an order if and only if it is active, within its dates and its minimum is met: the uses test never drops it, and the refund guard never swallows a refund |
| ReachableFacts.StoredAmountIdentity | internal/service/orders.go:100-150 | stored total plus stored discount is the item sum, or one cent more exactly when the discount ends on half a cent |
| ReachableFacts.StoredAmountsByKind | internal/service/orders.go:133-150 | in every reachable state the amounts of each order: without promo the item sum, with a fixed promo less exactly its value or nothing, with a percentage the nearest cents to share and rest |
| ReachableFacts.HalfCentExample | internal/service/orders.go:433-449 | 0.05 at 50% is stored as 0.03 and 0.03 |
| ReachableFacts.PromoTermsHold | internal/service/orders.go:127-131 | an order without promo has no discount; one with a promo meets its minimum |
| ReachableFacts.AmountChecksNeverAbort | internal/migrations/000001_init.up.sql:71-72 | the amounts of a new order are within 0..item sum, so the CHECKs never fire |
| ReachableFacts.UpdatedAmountChecksNeverAbort | internal/service/orders.go:312-323 | so are the amounts of an updated order |
| ReachableFacts.AtMostOneActive | internal/service/orders.go:58-64 | in every reachable serial state a user has at most one active order |
| ReachableFacts.OrderLivesOn | internal/service/orders_test.go:15-22 | an order is never deleted, its status only moves up in rank, and its rows and amounts change only while CREATED |
| ReachableFacts.PricesAreSnapshots | internal/service/orders.go:153-164 | without an Update of it, an order keeps its rows, prices and amounts through any run, product edits and archiving included |
| ReachableFacts.NoExit | internal/service/orders_test.go:20-21 | a canceled or completed order and its rows are the same after any run |
| ReachableFacts.OnlyOwnersChange | internal/service/orders.go:216-218 | an event leaves an order and its rows as they were, unless it is a call of its user or an admin about it, payment or delivery |
| ReachableFacts.OnlyOwnersChangeOverRun | internal/service/orders.go:365-367 | likewise over any run |
| ReachableFacts.StatusTable | internal/service/orders_test.go:15-22 | a status only makes the moves of the table |
| ReachableFacts.ProgressMakesMoves | internal/service/orders_test.go:15-22 | and payment and delivery can make each of them but the cancellations |
| ReachableFacts.StatusOverRun | internal/service/orders_test.go:15-22 | over a run, status changes are bounded by the gain in rank |
| ReachableFacts.AtMostFourStatusChanges | internal/service/orders_test.go:15-22 | so an order changes its status at most four times |
| RateLimitRuns.StepLogs | internal/service/orders.go:166-171 | only successful Creates and Updates add to the log |
| RateLimitRuns.RunKeepsSpacing | internal/service/orders.go:414-431 | entries of one user and kind stay at least the limit apart |
| RateLimitRuns.SuccessesAreSpaced | internal/service/orders.go:414-431 | two successful Creates of a user, or Updates of a caller, are at least the limit apart |
| RateLimitRuns.LogCountsSuccesses | internal/service/orders.go:166-171 | the log counts exactly the successful calls, so failures use up nothing |
| RateLimitRuns.SuccessesPerWindow | internal/service/orders.go:423-428 | a window of length W holds at most floor(W / limit) + 1 of them |
| Equivalences.RequoteIsRefundAndQuote | internal/service/orders.go:301-309 | keeping or dropping a promo in Update equals refunding it and then quoting it anew in Create, although one tests <= and the other >= |
| Equivalences.UpdateIsCancelThenCreate | internal/service/orders.go:208-354 | Update has the error, stock, promo, rows and amounts of Cancel followed by Create without rate limit, in every state that keeps the invariant |
| Equivalences.CreateIgnoresBasketShape | internal/service/orders.go:73-164 | permuting or splitting the lines of a basket changes neither whether it is accepted nor stock, amounts and promo |
| Equivalences.UpdateIgnoresBasketShape | internal/service/orders.go:256-340 | the same for Update |
| LockProofs.DecrementFailsWhen | internal/service/orders.go:101-107 | under any interleaving a decrement fails if and only if the lines so far exceed the stock as read by the check loop |
| LockProofs.LockSoundness | internal/db/queries/products.sql:9-10 | for distinct products, the stock test still holds at the decrement in every interleaved run, so CHECK never aborts it |
| LockProofs.CheckedRowIsCurrent | internal/db/queries/products.sql:9-10 | until a transaction ends, the committed row of a product it has checked is the one it read |
| LockProofs.RunKeepsLockInv | internal/migrations/000001_init.up.sql:31-97 | in every interleaving the committed tables satisfy their constraints, no row is locked twice, and each transaction's copies are the committed rows plus its own changes |
| NetProofs.PublishIsBalanced | internal/service/orders.go:173-175 | every commit of an interleaved run is a balanced exchange |
| NetProofs.InterleavedConservation | internal/service/orders.go:236-291 | without overlapping Updates or Cancels of one order, committed supply moves only by what sellers add, in any interleaving |
| NetProofs.InterleavedPromoCounters | internal/db/queries/promo_codes.sql:12-16 | and every promo counter stays the number of committed live orders carrying it |
| Limits.InterleavedOneActive | internal/db/queries/orders.sql:12-16 | in any interleaving in which no two Creates of one user are past the active-order test at once, no user has two active orders; Updates, Cancels and payments may overlap freely |
| Limits.InterleavedMaximum | internal/db/queries/promo_codes.sql:6-16 | in any interleaving in which no two Creates have the same promo priced at once, no promo is used beyond its maximum |
| Limits.InterleavedRateLimit | internal/service/orders.go:414-431 | in any interleaving in which no two Creates of a user, nor two Updates of a caller, overlap from the rate test on, their log entries are the limit apart and a window holds at most W / limit + 1 |
| SerialCommits.CreateCommitsSerially | internal/service/orders.go:58-175 | a Create that commits amid others has done what Create past its guards would do at the moment of the commit |
| SerialCommits.UpdateCommitsSerially | internal/service/orders.go:236-351 | likewise for Update: release, reserve, review of the promo, rows and amounts |
| SerialCommits.CancelCommitsSerially | internal/service/orders.go:381-408 | likewise for Cancel |
| SerialOrder.InterleavedAmounts | internal/service/orders.go:100-150 | in any interleaving without overlapping Updates or Cancels of one order, stored amounts match rows and promo, with the half-cent identity |
| SerialOrder.CommitIsSerial | internal/service/orders.go:45-411 | when competing requests do not overlap, a commit has exactly the outcome of the whole call made at that moment, guards and rate limit included |
| SerialOrder.InterleavedIsSerial | internal/service/orders.go:45-411 | then an interleaved run leaves the tables of the serial run of its calls in commit order |
| SerialOrder.InterleavedInv | internal/service/orders.go:45-411 | and each of its states satisfies everything proved of serial runs: constraints, exact counters within their maximum, one active order per user, matching amounts, spaced log entries |
| Solo.StatementsRunOut | internal/service/orders.go:45-178 | every statement brings a request nearer to its end |
| Solo.CreateAlone | internal/service/orders.go:45-178 | an uninterrupted Create transaction commits exactly the serial outcome, and is rolled back exactly when the call fails |
| Solo.UpdateAlone | internal/service/orders.go:208-354 | likewise for Update |
| Solo.CancelAlone | internal/service/orders.go:356-411 | likewise for Cancel |
| Overlaps.OverlappingCancelsCreateStock | internal/service/orders.go:357-371 | the hypothesis of conservation is needed: some run with two overlapping Cancels of an active order returns its units twice |
| Overlaps.OverlappingCreatesBothCommit | internal/db/queries/orders.sql:12-16 | two overlapping Creates of one user can both commit, with log entries as close as their requests are |
| Overlaps.OverlappingCreatesOveruse | internal/db/queries/promo_codes.sql:6-13 | two overlapping Creates can take a promo one use beyond its maximum |

## Left out

- HTTP handlers, JSON, routing, authentication, tokens, error messages and status codes: only an error kind per failing branch is kept.
- `Get`, product listing and pagination: reads that add only easy members.
- Names, descriptions, categories, timestamps of rows, the `updated_at` trigger and the extra fields of error replies: no result depends on them.
- Float conversion of prices on input and output: prices and promo values are cents as already stored.
- A commit whose acknowledgement is lost: `Commit` either publishes and succeeds, or fails with nothing published.
- Deadlocks and lock timeouts: a transaction may be rolled back at any moment, which covers them.
- Key-share locks taken by foreign keys: they only add waiting.
- Payment and delivery are not in the repository's code; their moves are taken from `internal/service/orders_test.go:15-22`.
- Creation of products, promos and users is one step each in `Runs`, without a service class of its own.
- OrderService.OrderService.Create: the active-order test and the promo read are plain reads, so this contract speaks of a call that nobody interrupts; `Interleaving` splits the call into its statements.
- Overlapping Updates of one order: in the code the DELETE and the INSERTs of item rows are statements of their own, and a DELETE that has waited for another Update does not see the rows that one inserted, so both sets can stay. The model replaces the rows of an order as a whole at the commit; every result that looks at item rows excludes overlapping Updates of one order.
- NetProofs.InterleavedConservation: an order row, its item rows and the log entry are written in one step just before the commit, because nobody else can see them earlier and requests on the same order do not overlap here.
- Overlaps.OverlappingCreatesOveruse: the Create that is held up has a basket of one line, which is enough to show that the maximum can be passed.
- ReachableFacts.AtMostOneActive: speaks of serial runs; `InterleavedOneActive` is the interleaved form, with the hypothesis that `OverlappingCreatesBothCommit` shows to be needed.
- ReachableFacts.PromoCounters: speaks of serial runs; `InterleavedPromoCounters` and `InterleavedMaximum` are the interleaved forms.
- RateLimitRuns.SuccessesAreSpaced: speaks of serial runs; `InterleavedRateLimit` is the interleaved form.
- SerialOrder.InterleavedIsSerial: the order of the calls is that of their commits, and their instants are the ones of the requests, so the clock of the serial run need not be monotone.
