# Order allocation planner — a Dafny model

This project models the order allocation planner of CryptoExchangeTask. A user asks to buy or sell
some amount of crypto across several exchanges. The planner:

- gives every exchange a per-call balance cell (Euro when buying, crypto when selling);
- flattens the side's book entries (asks when buying, bids when selling) of all exchanges into one
  candidate list;
- sorts the candidates stably by price (ascending when buying, descending when selling);
- walks the sorted list once, planning at each entry as much as the entry, the outstanding request and
  the exchange's remaining balance allow.

It stops as soon as the request is met. It fails with an insufficient-balance error when the candidates
run out first, and with an argument error when the request is not positive.

Modules, in dependency order:

- `Model` (`model.dfy`): the read-only records (`Order`, `OrderBookEntry`, `OrderBook`, `AvailableFunds`,
  `Exchange`, `OrderType`, `PlannedOrder`) and `OrderPlan` with its derived `TotalPrice` and
  `TotalAmount`. C# `decimal` is exact `real`. Order ids (GUIDs) are naturals and exchange ids are strings.
- `SidePolicy` (`side_policy.dfy`): `Side = Buying | Selling`. The six hooks that `BuyOrderPlanner` and
  `SellOrderPlanner` override are functions of the side: `OrderTypeOf`, `AvailableBalance`,
  `BalanceToAmount`, `AmountToBalance`, `OrderBookEntries`, and the sort order `InOrder`.
- `CandidateList` (`candidates.dfy`): candidate construction, in exchange order then book order. It also
  holds the stable sort (`SortCandidates`, an insertion sort).
- `OrderPlanner` (`order_planner.dfy`):
  - `Scan` is the greedy loop as a function over the sorted candidates and a sequence of balance cells.
  - `PlanFor` is the whole call as a function.
  - The imperative planner follows the source's shape in three methods. `Plan` applies the argument
    guard and turns the outcome into a result. `GetPlannedOrders` builds the fresh balance cells as an
    `array<real>` and sorts the candidates. `FillFromCandidates` is the `foreach` loop: it updates the
    cells in place and buffers the orders.
  - Each method is proved equal to the function that specifies it.
- `PlanProperties` (`plan_properties.dfy`): what a planning call promises, proved about `PlanFor`.
- `PlannerExamples` (`planner_examples.dfy`): the unit tests' scenarios, evaluated on the model.
- `SnapshotFinding` (`snapshot_finding.dfy`): the loop exactly as the buy-only `OrderPlanner.cs` writes it
  (see Findings).

## Which version of the loop is modelled

`CryptoExchangeTask.Core/OrderPlanner.cs` is an older, buy-only snapshot. It reads Euro funds and asks
directly and orders by ascending price. It decrements the balance by the planned crypto amount (line 55),
has no order-type tag and no guard on the amount. `BuyOrderPlanner.cs`, `SellOrderPlanner.cs` and the unit
tests belong to the later version, in which the loop calls the six hooks.

The model plugs those hooks into the loop shape of `OrderPlanner.cs:45-74`. It charges each exchange
`AmountToBalance(amount, price)`, as `BuyOrderPlanner.cs:36` and the limited-balance tests require. It also
returns an argument error for a request of at most zero, as `BuyTests.cs:113-124` and `SellTests.cs:112-124`
assert. Where the snapshot's code and the hook-based classes disagree, the model follows the hook-based
classes and the tests.

## Model

| member | source | states |
|---|---|---|
| Model.EmptyPlanTotals | CryptoExchangeTask.Core/Model/OrderPlan.cs:11-14 | An empty plan has total amount 0 and total price 0. |
| Model.AppendTotals | CryptoExchangeTask.Core/Model/OrderPlan.cs:11-14 | Appending a planned order adds its amount to `TotalAmount` and its price × amount to `TotalPrice`. |
| Model.ConcatTotals | CryptoExchangeTask.Core/Model/OrderPlan.cs:11-14 | Both totals of a concatenation are the sums of the parts' totals. |
| SidePolicy.ConversionsAgree | CryptoExchangeTask.Core/BuyOrderPlanner.cs:33-36 | At a positive price, the balance-to-amount and amount-to-balance conversions are inverse. An amount fits in a balance exactly when its cost does. The same holds for selling (`SellOrderPlanner.cs:29-32`, identities). |
| SidePolicy.InOrderTotalPreorder | CryptoExchangeTask.Core/BuyOrderPlanner.cs:42-43 | The sort order (ascending for buy; descending for sell, `SellOrderPlanner.cs:38-39`) is reflexive, total and transitive. Its ties are exactly equal prices. |
| CandidateList.CandidatesAreBookEntries | CryptoExchangeTask.Core/OrderPlanner.cs:25-41 | A candidate is in the flattened list if and only if it is the view of an entry on the side's book of the exchange at its position, carrying that exchange's id and the entry's id, amount and price. |
| CandidateList.CandidatesReadOnlySideBook | CryptoExchangeTask.Core/BuyOrderPlanner.cs:39 | The candidate list depends only on the exchange ids and the side's book entries (asks when buying, bids when selling per `SellOrderPlanner.cs:35`). |
| CandidateList.InsertPermutes | CryptoExchangeTask.Core/BuyOrderPlanner.cs:42-43 | One insertion step adds exactly the inserted candidate to the multiset. |
| CandidateList.InsertSorted | CryptoExchangeTask.Core/BuyOrderPlanner.cs:42-43 | One insertion step into a sorted list yields a sorted list. |
| CandidateList.InsertKeepsGroups | CryptoExchangeTask.Core/BuyOrderPlanner.cs:42-43 | Inserting behind every tie puts the new candidate at the front of its price group and leaves the other groups alone. |
| CandidateList.SortIsStableSort | CryptoExchangeTask.Core/BuyOrderPlanner.cs:42-43 | The sort's output is sorted in the side's direction, is a permutation of its input, and keeps each group of equal prices in enumeration order, as LINQ's stable `OrderBy` / `OrderByDescending` do. |
| CandidateList.StableSortIsUnique | CryptoExchangeTask.Core/SellOrderPlanner.cs:38-39 | A sorted list is determined by its groups of equal prices, so every stable sort, LINQ's included, yields the same list as the model's. |
| OrderPlanner.PlanCandidatesFacts | CryptoExchangeTask.Core/OrderPlanner.cs:25-43 | The visited candidates are sorted in the side's direction and are exactly the side's book entries. |
| OrderPlanner.PlanCandidatesScannable | CryptoExchangeTask.Core/OrderPlanner.cs:28-43 | Every visited candidate has a balance cell, and when buying its price can be divided by. |
| OrderPlanner.ScanAccounting | CryptoExchangeTask.Core/OrderPlanner.cs:47-68 | Each emitted order is positive and at most what was outstanding before it, and no order follows the one that completes the request. The outstanding amount never goes negative and equals the request minus the planned total. |
| OrderPlanner.ScanDrawsFromCandidates | CryptoExchangeTask.Core/OrderPlanner.cs:57-63 | Each emitted order copies exchange id, order id and price from one candidate, carries the side's type, and takes a positive amount no larger than the candidate's. |
| OrderPlanner.ScanFollowsCandidates | CryptoExchangeTask.Core/OrderPlanner.cs:45-68 | The scan walks the candidates once and in order: the k-th order is filled from candidate f[k], and f strictly increases, so no candidate yields two orders and the orders keep the candidates' order. |
| OrderPlanner.ScanStaysBehind | CryptoExchangeTask.Core/OrderPlanner.cs:45-63 | A price bound that every candidate respects is respected by every emitted order. |
| OrderPlanner.ScanKeepsPriceOrder | CryptoExchangeTask.Core/OrderPlanner.cs:43-68 | Over sorted candidates, the emitted prices are pairwise in the side's order. |
| OrderPlanner.ScanCharges | CryptoExchangeTask.Core/BuyOrderPlanner.cs:36 | Each exchange's balance cell ends at its start value minus the converted cost of that exchange's emitted orders (ids unique). |
| OrderPlanner.ScanKeepsBalancesNonNegative | CryptoExchangeTask.Core/BuyOrderPlanner.cs:33-36 | With non-negative starting balances and positive buy prices, no balance cell goes below zero. |
| OrderPlanner.CapacityNonNegative | CryptoExchangeTask.Core/OrderPlanner.cs:45-69 | The liquidity reachable from the candidates is never negative. |
| OrderPlanner.ScanFailsIffShort | CryptoExchangeTask.Core/OrderPlanner.cs:71-74 | The scan ends with demand outstanding if and only if the reachable liquidity is less than the request. |
| OrderPlanner.ScannableAt | CryptoExchangeTask.Core/OrderPlanner.cs:45-47 | Proof step for the loop: the candidate the loop is at has a balance cell and a convertible price, and the candidates after it keep both properties. |
| OrderPlanner.SkipStep | CryptoExchangeTask.Core/OrderPlanner.cs:47-52 | Proof step for the loop: unfolds `Scan` at a candidate whose fill is at most zero, which is passed over as the `continue` does. |
| OrderPlanner.StopStep | CryptoExchangeTask.Core/OrderPlanner.cs:54-68 | Proof step for the loop: unfolds `Scan` at a candidate whose fill completes the request; it is emitted, its cell is charged and the scan ends, as the `break` does. |
| OrderPlanner.ContinueStep | CryptoExchangeTask.Core/OrderPlanner.cs:54-68 | Proof step for the loop: unfolds `Scan` at a candidate whose fill leaves demand outstanding; it is emitted, its cell is charged and the scan goes on with the reduced request. |
| OrderPlanner.ChargeCell | CryptoExchangeTask.Core/BuyOrderPlanner.cs:36 | Only the balance cell of the candidate's exchange changes, and it drops by the fill converted to the side's balance unit (`SellOrderPlanner.cs:32` when selling). |
| OrderPlanner.FillFromCandidates | CryptoExchangeTask.Core/OrderPlanner.cs:45-69 | The loop leaves exactly the orders, the outstanding amount and the balance cells that `Scan` specifies. |
| OrderPlanner.GetPlannedOrders | CryptoExchangeTask.Core/OrderPlanner.cs:23-69 | Fresh balance cells start from the side's funds. The orders and outstanding amount are those of `Scan` over the sorted candidates. |
| OrderPlanner.Plan | CryptoExchangeTask.Core/OrderPlanner.cs:15-21 | The result is `PlanFor`. It is an argument error exactly when the request is at most zero. |
| PlanProperties.PlanMeetsRequest | CryptoExchangeTask.Core/OrderPlanner.cs:54-68 | A successful plan's `TotalAmount` equals the request. Every order is positive and fits what was still outstanding, so none follows the completing order. |
| PlanProperties.PlanSucceedsIffCovered | CryptoExchangeTask.Core/OrderPlanner.cs:71-74 | For a positive request, the call succeeds if and only if the reachable liquidity covers it. It fails with insufficient balance if and only if it does not, and a failure carries no orders. |
| PlanProperties.PlanReferencesBook | CryptoExchangeTask.Core/OrderPlanner.cs:34-41 | Every planned order fills some entry of the side's book of some exchange. It has that exchange's id, the entry's id and price, the side's order type, and a positive amount within the entry's. |
| PlanProperties.PlanPricesInSideOrder | CryptoExchangeTask.Core/OrderPlanner.cs:43-45 | Planned prices are non-decreasing when buying and non-increasing when selling. |
| PlanProperties.PlanFollowsCandidates | CryptoExchangeTask.Core/OrderPlanner.cs:25-68 | The planned orders follow the sorted candidates one at a time: each candidate (book entry) yields at most one order, within its amount, and orders come in candidate order, ties between exchanges included. |
| PlanProperties.PlanCandidatesMatchExchanges | CryptoExchangeTask.Core/OrderPlanner.cs:28-41 | Each visited candidate names the id of the exchange whose cell it uses, and when buying has a positive price. |
| PlanProperties.PlanWithinFunds | CryptoExchangeTask.Core/BuyOrderPlanner.cs:33-36 | Per exchange, with unique ids: when buying, the Euro cost of its orders stays within its Euro funds; when selling (`SellOrderPlanner.cs:29-32`), their amount stays within its crypto funds. |
| PlanProperties.PlanDependsOnlyOnSideView | CryptoExchangeTask.Core/OrderPlanner.cs:25-43 | The result depends only on exchange ids, the side's balances and the side's book entries. |
| PlanProperties.BuyIgnoresCryptoAndBids | CryptoExchangeTask.Core/BuyOrderPlanner.cs:26-39 | Buying reads only the Euro funds and the asks. |
| PlanProperties.SellIgnoresEuroAndAsks | CryptoExchangeTask.Core/SellOrderPlanner.cs:26-35 | Selling reads only the crypto funds and the bids. |
| PlannerExamples.PlanForOutcome | CryptoExchangeTask.Core/OrderPlanner.cs:15-21 | Proof step for the examples: unfolds `PlanFor` for a positive request into the result read off a given scan outcome. |
| PlannerExamples.BuySingleExchangeSingleOrder | CryptoExchangeTask.Core.UnitTests/OrderPlannerTests/BuyTests.cs:16-30 | Buying 2 from an ask of 3 at 250 gives one order of 2 at 250, total 2, price 500. |
| PlannerExamples.BuySingleCandidates | CryptoExchangeTask.Core.UnitTests/OrderPlannerTests/BuyTests.cs:36-48 | The asks 250 and 500 of one exchange are visited cheapest first. |
| PlannerExamples.BuySingleScan | CryptoExchangeTask.Core.UnitTests/OrderPlannerTests/BuyTests.cs:36-48 | Scanning them for 4 fills 3 at 250 and 1 at 500. |
| PlannerExamples.BuySingleExchangeMultipleOrders | CryptoExchangeTask.Core.UnitTests/OrderPlannerTests/BuyTests.cs:36-48 | The plan is 3 at 250 then 1 at 500. |
| PlannerExamples.BuyMultiCandidates | CryptoExchangeTask.Core.UnitTests/OrderPlannerTests/BuyTests.cs:54-72 | The asks 250 and 750 of ex1 and 500 of ex2 are visited as 250, 500, 750. |
| PlannerExamples.BuyMultiScan | CryptoExchangeTask.Core.UnitTests/OrderPlannerTests/BuyTests.cs:54-72 | Scanning them for 4 fills 3 at 250 and 1 at 500. |
| PlannerExamples.BuyMultipleExchanges | CryptoExchangeTask.Core.UnitTests/OrderPlannerTests/BuyTests.cs:54-72 | The plan is 3 at 250 on ex1 then 1 at 500 on ex2. |
| PlannerExamples.BuyMultipleExchangesTotals | CryptoExchangeTask.Core.UnitTests/OrderPlannerTests/BuyTests.cs:54-72 | That plan totals 4 units for 1250 Euro. |
| PlannerExamples.BuyLimitedCandidates | CryptoExchangeTask.Core.UnitTests/OrderPlannerTests/BuyTests.cs:78-94 | The two 250 asks of ex1 keep their book order ahead of ex2's 500 ask. |
| PlannerExamples.BuyLimitedScan | CryptoExchangeTask.Core.UnitTests/OrderPlannerTests/BuyTests.cs:78-94 | With 375 Euro on ex1 the fills are 1, 0.5, 2.5, and ex1's balance ends at 0. |
| PlannerExamples.BuyMultipleExchangesLimitedBalance | CryptoExchangeTask.Core.UnitTests/OrderPlannerTests/BuyTests.cs:78-94 | The plan is 1 at 250 and 0.5 at 250 on ex1, then 2.5 at 500 on ex2. |
| PlannerExamples.BuyShortCandidates | CryptoExchangeTask.Core.UnitTests/OrderPlannerTests/BuyTests.cs:99-110 | The asks are visited as 250, 500, 750. |
| PlannerExamples.BuyShortScan | CryptoExchangeTask.Core.UnitTests/OrderPlannerTests/BuyTests.cs:99-110 | With 375 and 600 Euro, 1.3 of the 4 requested stays outstanding. |
| PlannerExamples.BuyBalanceUnavailable | CryptoExchangeTask.Core.UnitTests/OrderPlannerTests/BuyTests.cs:99-110 | That request fails with insufficient balance. |
| PlannerExamples.BuyAmountNotPositive | CryptoExchangeTask.Core.UnitTests/OrderPlannerTests/BuyTests.cs:113-124 | Requests of 0 and -1 are argument errors. |
| PlannerExamples.BuyAmountCheckedBeforeDivision | CryptoExchangeTask.Core.UnitTests/OrderPlannerTests/BuyTests.cs:113-124 | A zero request is an argument error even against an ask priced 0, which the loop could not divide by. |
| PlannerExamples.SellSingleExchangeSingleOrder | CryptoExchangeTask.Core.UnitTests/OrderPlannerTests/SellTests.cs:16-30 | Selling 2 into a bid of 3 at 250 gives one order of 2 at 250, total 2, price 500. |
| PlannerExamples.SellSingleCandidates | CryptoExchangeTask.Core.UnitTests/OrderPlannerTests/SellTests.cs:36-48 | The bids 250 and 500 of one exchange are visited highest first. |
| PlannerExamples.SellSingleScan | CryptoExchangeTask.Core.UnitTests/OrderPlannerTests/SellTests.cs:36-48 | Scanning them for 4 fills 3 at 500 and 1 at 250. |
| PlannerExamples.SellSingleExchangeMultipleOrders | CryptoExchangeTask.Core.UnitTests/OrderPlannerTests/SellTests.cs:36-48 | The plan is 3 at 500 then 1 at 250. |
| PlannerExamples.SellAmountNotPositive | CryptoExchangeTask.Core.UnitTests/OrderPlannerTests/SellTests.cs:112-124 | Requests of 0 and -1 are argument errors when selling. |
| PlannerExamples.SellMultiCandidates | CryptoExchangeTask.Core.UnitTests/OrderPlannerTests/SellTests.cs:54-72 | The bids are visited as 750, 500, 250. |
| PlannerExamples.SellMultiScan | CryptoExchangeTask.Core.UnitTests/OrderPlannerTests/SellTests.cs:54-72 | Scanning them for 4 fills 3 at 750 and 1 at 500. |
| PlannerExamples.SellMultipleExchanges | CryptoExchangeTask.Core.UnitTests/OrderPlannerTests/SellTests.cs:54-72 | The plan is 3 at 750 on ex1 then 1 at 500 on ex2. |
| PlannerExamples.SellMultipleExchangesTotals | CryptoExchangeTask.Core.UnitTests/OrderPlannerTests/SellTests.cs:54-72 | That plan totals 4 units for 2750 Euro. |
| PlannerExamples.SellLimitedCandidates | CryptoExchangeTask.Core.UnitTests/OrderPlannerTests/SellTests.cs:78-94 | The bids are visited as 750 (ex1), 500 (ex2), 150 (ex1). |
| PlannerExamples.SellLimitedScan | CryptoExchangeTask.Core.UnitTests/OrderPlannerTests/SellTests.cs:78-94 | ex2's 2 crypto cap its fill at 2, and the last unit comes from ex1's 150 bid. |
| PlannerExamples.SellMultipleExchangesLimitedBalance | CryptoExchangeTask.Core.UnitTests/OrderPlannerTests/SellTests.cs:78-94 | The plan is 1 at 750 (ex1), 2 at 500 (ex2), 1 at 150 (ex1). |
| PlannerExamples.SellShortCandidates | CryptoExchangeTask.Core.UnitTests/OrderPlannerTests/SellTests.cs:99-110 | The bids are visited as 750, 500, 250. |
| PlannerExamples.SellShortScan | CryptoExchangeTask.Core.UnitTests/OrderPlannerTests/SellTests.cs:99-110 | With 2 and 1 crypto, 1 of the 4 requested stays outstanding. |
| PlannerExamples.SellBalanceUnavailable | CryptoExchangeTask.Core.UnitTests/OrderPlannerTests/SellTests.cs:99-110 | That request fails with insufficient balance. |
| SnapshotFinding.SnapshotOverdrawsEuro | CryptoExchangeTask.Core/OrderPlanner.cs:55 | On the limited-balance buy scenario the loop as written fills 1, 1.496 and 1.504. The orders it plans on ex1 cost 624 Euro against ex1's 375 Euro, while ex1's balance cell drops only by 2.496, to 372.504. |

## Left out

- Loading exchanges from JSON files, the repository interfaces and the test repository: the exchange
  list is a plain `seq<Exchange>` parameter.
- The console and web front ends: argument parsing, printing, exit codes, HTTP routing and dependency
  injection are transport glue around `Plan`.
- Exceptions: `ArgumentException` and `InsufficientBalanceException` are the `InvalidArgument` and
  `InsufficientBalance` variants of `PlanResult`.
- The lazy `yield return` stream: `Plan` always materialises it with `ToList()`, so the model buffers
  the orders and a failure carries none.
- The finite 28-digit precision of C# `decimal`: the model uses exact reals, and `balance / price` is not
  rounded, as `BuyOrderPlanner.cs:28-33` says of the source.
- GUID generation in the test helpers: ids are given values.
- Global cost-optimality of the greedy choice (the doc comment of `BuyOrderPlanner.cs`) is not stated.
  What is proved is the price order of the visited candidates and of the planned orders.
- OrderPlanner.Plan: for a positive request it requires `PricesConvertible`, which excludes a zero ask
  price when buying. The source would throw `DivideByZeroException` in the loop then, a failure the model
  does not model. A request of at most zero is an argument error whatever the prices, since that check
  comes before any division (`BuyAmountCheckedBeforeDivision`).
- PlanProperties.PlanWithinFunds: assumes non-negative funds, positive buy prices and distinct exchange
  ids. The source keeps one balance cell per exchange object, so the model indexes cells by exchange
  position and sums charges by id.
- The entity class `ExchangePlanState` is the balance-cell array of `GetPlannedOrders`. Each cell is the
  settable `Balance` of one exchange's state, shared by that exchange's candidates.

## Findings

| source | as written | input that shows it | evidently intended | confidence | as-written member | corrected member |
|---|---|---|---|---|---|---|
| CryptoExchangeTask.Core/OrderPlanner.cs:55 | the Euro balance is decremented by the planned crypto amount | ex1 with 375 Euro and asks 1 at 250, 2 at 250; ex2 asks 3 at 500; buy 4: the second fill is 1.496, so the orders planned on ex1 cost 624 Euro against ex1's 375 Euro, while its balance cell drops only by 2.496 | decrement by `amount * price` (`BuyOrderPlanner.cs:36`), giving fills 1, 0.5, 2.5 (`BuyTests.cs:78-94`) | high; not executed | SnapshotFinding.SnapshotOverdrawsEuro | PlanProperties.PlanWithinFunds |
