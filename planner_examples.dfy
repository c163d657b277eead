/** The worked scenarios of the planner's unit tests, evaluated on the model.
    Exchange ids are "ex1" and "ex2"; order ids are small numbers. */
module PlannerExamples {
  import opened Model
  import opened SidePolicy
  import opened CandidateList
  import opened OrderPlanner

  function Entry(id: OrderId, amount: real, price: real): OrderBookEntry {
    OrderBookEntry(Order(id, amount, price))
  }

  function MakeExchange(id: string, crypto: real, euro: real, bids: seq<OrderBookEntry>, asks: seq<OrderBookEntry>): Exchange {
    Exchange(id, AvailableFunds(crypto, euro), OrderBook(bids, asks))
  }

  /** `PlanFor` read off the candidates, starting balances and scan outcome of a scenario. */
  lemma PlanForOutcome(side: Side, exs: seq<Exchange>, amount: real, cs: seq<Candidate>, bs: seq<real>, o: ScanOutcome)
    requires amount > 0.0 && PricesConvertible(side, exs)
    requires PlanCandidates(side, exs) == cs && InitialBalances(side, exs) == bs
    requires Scannable(side, cs, |bs|) && Scan(side, cs, amount, bs) == o
    ensures PlanFor(side, exs, amount) == if o.remaining > 0.0 then InsufficientBalance else Ok(OrderPlan(o.planned))
  {
  }

  /** One ask of 3 at 250 and 1000 Euro: buying 2 takes 2 of it, for 500 Euro. */
  lemma BuySingleExchangeSingleOrder()
    ensures PricesConvertible(Buying, [MakeExchange("ex1", 10.0, 1000.0, [], [Entry(1, 3.0, 250.0)])])
    ensures PlanFor(Buying, [MakeExchange("ex1", 10.0, 1000.0, [], [Entry(1, 3.0, 250.0)])], 2.0)
      == Ok(OrderPlan([PlannedOrder("ex1", 1, Buy, 2.0, 250.0)]))
    ensures OrderPlan([PlannedOrder("ex1", 1, Buy, 2.0, 250.0)]).TotalAmount() == 2.0
    ensures OrderPlan([PlannedOrder("ex1", 1, Buy, 2.0, 250.0)]).TotalPrice() == 500.0
  {
    var exs := [MakeExchange("ex1", 10.0, 1000.0, [], [Entry(1, 3.0, 250.0)])];
    assert Candidates(Buying, exs) == [Candidate(0, "ex1", 1, 3.0, 250.0)];
  }

  // One exchange with 10000 Euro asking 3 at 250 and 3 at 500.
  const BuySingle: seq<Exchange> := [MakeExchange("ex1", 10.0, 10000.0, [], [Entry(1, 3.0, 250.0), Entry(2, 3.0, 500.0)])]

  lemma BuySingleCandidates()
    ensures PlanCandidates(Buying, BuySingle) == [Candidate(0, "ex1", 1, 3.0, 250.0), Candidate(0, "ex1", 2, 3.0, 500.0)]
  {
    var a, b := Candidate(0, "ex1", 1, 3.0, 250.0), Candidate(0, "ex1", 2, 3.0, 500.0);
    assert Candidates(Buying, BuySingle) == [a, b];
    assert [a, b][1..] == [b];
    assert SortCandidates(Buying, [b]) == [b];
  }

  lemma BuySingleScan()
    ensures Scan(Buying, [Candidate(0, "ex1", 1, 3.0, 250.0), Candidate(0, "ex1", 2, 3.0, 500.0)], 4.0, [10000.0])
      == ScanOutcome([PlannedOrder("ex1", 1, Buy, 3.0, 250.0), PlannedOrder("ex1", 2, Buy, 1.0, 500.0)], 0.0, [8750.0])
  {
    var a, b := Candidate(0, "ex1", 1, 3.0, 250.0), Candidate(0, "ex1", 2, 3.0, 500.0);
    assert [a, b][1..] == [b];
    assert Fillable(Buying, a, 4.0, 10000.0) == 3.0;
    assert Fillable(Buying, b, 1.0, 9250.0) == 1.0;
    assert [10000.0][0 := 10000.0 - 3.0 * 250.0] == [9250.0];
    assert [9250.0][0 := 9250.0 - 1.0 * 500.0] == [8750.0];
    assert Scan(Buying, [b], 1.0, [9250.0]) == ScanOutcome([PlannedOrder("ex1", 2, Buy, 1.0, 500.0)], 0.0, [8750.0]);
  }

  /** The cheaper ask of one exchange is used first: 3 at 250, then 1 at 500. */
  lemma BuySingleExchangeMultipleOrders()
    ensures PricesConvertible(Buying, BuySingle)
    ensures PlanFor(Buying, BuySingle, 4.0)
      == Ok(OrderPlan([PlannedOrder("ex1", 1, Buy, 3.0, 250.0), PlannedOrder("ex1", 2, Buy, 1.0, 500.0)]))
  {
    var cs, bs := [Candidate(0, "ex1", 1, 3.0, 250.0), Candidate(0, "ex1", 2, 3.0, 500.0)], [10000.0];
    assert PricesConvertible(Buying, BuySingle);
    BuySingleCandidates();
    PlanCandidatesScannable(Buying, BuySingle);
    assert Scannable(Buying, cs, |bs|);
    assert InitialBalances(Buying, BuySingle) == bs;
    BuySingleScan();
    PlanForOutcome(Buying, BuySingle, 4.0, cs, bs,
      ScanOutcome([PlannedOrder("ex1", 1, Buy, 3.0, 250.0), PlannedOrder("ex1", 2, Buy, 1.0, 500.0)], 0.0, [8750.0]));
  }

  // Two exchanges with plenty of funds; ex1 asks 3 at 250 and 3 at 750, ex2 asks 3 at 500.
  const BuyMulti: seq<Exchange> := [MakeExchange("ex1", 10.0, 10000.0, [], [Entry(1, 3.0, 250.0), Entry(2, 3.0, 750.0)]),
                                    MakeExchange("ex2", 10.0, 10000.0, [], [Entry(3, 3.0, 500.0)])]

  lemma BuyMultiCandidates()
    ensures PlanCandidates(Buying, BuyMulti)
      == [Candidate(0, "ex1", 1, 3.0, 250.0), Candidate(1, "ex2", 3, 3.0, 500.0), Candidate(0, "ex1", 2, 3.0, 750.0)]
  {
    var a, b, c := Candidate(0, "ex1", 1, 3.0, 250.0), Candidate(0, "ex1", 2, 3.0, 750.0), Candidate(1, "ex2", 3, 3.0, 500.0);
    assert BuyMulti[..1] == [BuyMulti[0]];
    assert Candidates(Buying, [BuyMulti[0]]) == [a, b];
    assert Candidates(Buying, BuyMulti) == [a, b, c];
    assert [a, b, c][1..] == [b, c] && [b, c][1..] == [c];
    assert SortCandidates(Buying, [c]) == [c];
    assert Insert(Buying, b, [c]) == [c, b];
  }

  lemma BuyMultiScan()
    ensures Scan(Buying, [Candidate(0, "ex1", 1, 3.0, 250.0), Candidate(1, "ex2", 3, 3.0, 500.0), Candidate(0, "ex1", 2, 3.0, 750.0)],
                 4.0, [10000.0, 10000.0])
      == ScanOutcome([PlannedOrder("ex1", 1, Buy, 3.0, 250.0), PlannedOrder("ex2", 3, Buy, 1.0, 500.0)], 0.0, [9250.0, 9500.0])
  {
    var a, b, c := Candidate(0, "ex1", 1, 3.0, 250.0), Candidate(0, "ex1", 2, 3.0, 750.0), Candidate(1, "ex2", 3, 3.0, 500.0);
    assert [a, c, b][1..] == [c, b];
    assert Fillable(Buying, a, 4.0, 10000.0) == 3.0;
    assert Fillable(Buying, c, 1.0, 10000.0) == 1.0;
    assert [10000.0, 10000.0][0 := 10000.0 - 3.0 * 250.0] == [9250.0, 10000.0];
    assert [9250.0, 10000.0][1 := 10000.0 - 1.0 * 500.0] == [9250.0, 9500.0];
    assert Scan(Buying, [c, b], 1.0, [9250.0, 10000.0])
      == ScanOutcome([PlannedOrder("ex2", 3, Buy, 1.0, 500.0)], 0.0, [9250.0, 9500.0]);
  }

  /** The cheapest ask is used first even when it sits at another exchange:
      3 at 250 on ex1, then 1 at 500 on ex2. */
  lemma BuyMultipleExchanges()
    ensures PricesConvertible(Buying, BuyMulti)
    ensures PlanFor(Buying, BuyMulti, 4.0)
      == Ok(OrderPlan([PlannedOrder("ex1", 1, Buy, 3.0, 250.0), PlannedOrder("ex2", 3, Buy, 1.0, 500.0)]))
  {
    var cs, bs := [Candidate(0, "ex1", 1, 3.0, 250.0), Candidate(1, "ex2", 3, 3.0, 500.0), Candidate(0, "ex1", 2, 3.0, 750.0)], [10000.0, 10000.0];
    assert PricesConvertible(Buying, BuyMulti);
    BuyMultiCandidates();
    PlanCandidatesScannable(Buying, BuyMulti);
    assert Scannable(Buying, cs, |bs|);
    assert InitialBalances(Buying, BuyMulti) == bs;
    BuyMultiScan();
    PlanForOutcome(Buying, BuyMulti, 4.0, cs, bs,
      ScanOutcome([PlannedOrder("ex1", 1, Buy, 3.0, 250.0), PlannedOrder("ex2", 3, Buy, 1.0, 500.0)], 0.0, [9250.0, 9500.0]));
  }

  /** That plan totals 4 units for 1250 Euro. */
  lemma BuyMultipleExchangesTotals()
    ensures OrderPlan([PlannedOrder("ex1", 1, Buy, 3.0, 250.0), PlannedOrder("ex2", 3, Buy, 1.0, 500.0)]).TotalAmount() == 4.0
    ensures OrderPlan([PlannedOrder("ex1", 1, Buy, 3.0, 250.0), PlannedOrder("ex2", 3, Buy, 1.0, 500.0)]).TotalPrice() == 1250.0
  {
    var ps := [PlannedOrder("ex1", 1, Buy, 3.0, 250.0), PlannedOrder("ex2", 3, Buy, 1.0, 500.0)];
    assert ps[1..] == [ps[1]] && ps[1..][1..] == [];
  }

  // ex1 holds 375 Euro and asks 1 at 250 and 2 at 250; ex2 asks 3 at 500.
  const BuyLimited: seq<Exchange> := [MakeExchange("ex1", 10.0, 375.0, [], [Entry(1, 1.0, 250.0), Entry(2, 2.0, 250.0)]),
                                      MakeExchange("ex2", 10.0, 10000.0, [], [Entry(3, 3.0, 500.0)])]

  lemma BuyLimitedCandidates()
    ensures PlanCandidates(Buying, BuyLimited)
      == [Candidate(0, "ex1", 1, 1.0, 250.0), Candidate(0, "ex1", 2, 2.0, 250.0), Candidate(1, "ex2", 3, 3.0, 500.0)]
  {
    var a, b, c := Candidate(0, "ex1", 1, 1.0, 250.0), Candidate(0, "ex1", 2, 2.0, 250.0), Candidate(1, "ex2", 3, 3.0, 500.0);
    assert BuyLimited[..1] == [BuyLimited[0]];
    assert Candidates(Buying, [BuyLimited[0]]) == [a, b];
    assert Candidates(Buying, BuyLimited) == [a, b, c];
    assert [a, b, c][1..] == [b, c] && [b, c][1..] == [c];
    assert SortCandidates(Buying, [c]) == [c];
    assert SortCandidates(Buying, [b, c]) == [b, c];
  }

  lemma BuyLimitedScan()
    ensures Scan(Buying, [Candidate(0, "ex1", 1, 1.0, 250.0), Candidate(0, "ex1", 2, 2.0, 250.0), Candidate(1, "ex2", 3, 3.0, 500.0)],
                 4.0, [375.0, 10000.0])
      == ScanOutcome([PlannedOrder("ex1", 1, Buy, 1.0, 250.0), PlannedOrder("ex1", 2, Buy, 0.5, 250.0), PlannedOrder("ex2", 3, Buy, 2.5, 500.0)],
                     0.0, [0.0, 8750.0])
  {
    var a, b, c := Candidate(0, "ex1", 1, 1.0, 250.0), Candidate(0, "ex1", 2, 2.0, 250.0), Candidate(1, "ex2", 3, 3.0, 500.0);
    assert [a, b, c][1..] == [b, c] && [b, c][1..] == [c];
    assert Fillable(Buying, a, 4.0, 375.0) == 1.0;
    assert Fillable(Buying, b, 3.0, 125.0) == 0.5;
    assert Fillable(Buying, c, 2.5, 10000.0) == 2.5;
    assert [375.0, 10000.0][0 := 375.0 - 1.0 * 250.0] == [125.0, 10000.0];
    assert [125.0, 10000.0][0 := 125.0 - 0.5 * 250.0] == [0.0, 10000.0];
    assert [0.0, 10000.0][1 := 10000.0 - 2.5 * 500.0] == [0.0, 8750.0];
    assert Scan(Buying, [c], 2.5, [0.0, 10000.0]) == ScanOutcome([PlannedOrder("ex2", 3, Buy, 2.5, 500.0)], 0.0, [0.0, 8750.0]);
    assert Scan(Buying, [b, c], 3.0, [125.0, 10000.0])
      == ScanOutcome([PlannedOrder("ex1", 2, Buy, 0.5, 250.0), PlannedOrder("ex2", 3, Buy, 2.5, 500.0)], 0.0, [0.0, 8750.0]);
  }

  /** The Euro balance limits each exchange: 375 Euro buys 1 at 250 and then only
      0.5 more at 250 on ex1, and the rest, 2.5, is bought at 500 on ex2. */
  lemma BuyMultipleExchangesLimitedBalance()
    ensures PricesConvertible(Buying, BuyLimited)
    ensures PlanFor(Buying, BuyLimited, 4.0)
      == Ok(OrderPlan([PlannedOrder("ex1", 1, Buy, 1.0, 250.0), PlannedOrder("ex1", 2, Buy, 0.5, 250.0), PlannedOrder("ex2", 3, Buy, 2.5, 500.0)]))
  {
    var cs, bs := [Candidate(0, "ex1", 1, 1.0, 250.0), Candidate(0, "ex1", 2, 2.0, 250.0), Candidate(1, "ex2", 3, 3.0, 500.0)], [375.0, 10000.0];
    assert PricesConvertible(Buying, BuyLimited);
    BuyLimitedCandidates();
    PlanCandidatesScannable(Buying, BuyLimited);
    assert Scannable(Buying, cs, |bs|);
    assert InitialBalances(Buying, BuyLimited) == bs;
    BuyLimitedScan();
    PlanForOutcome(Buying, BuyLimited, 4.0, cs, bs,
      ScanOutcome([PlannedOrder("ex1", 1, Buy, 1.0, 250.0), PlannedOrder("ex1", 2, Buy, 0.5, 250.0), PlannedOrder("ex2", 3, Buy, 2.5, 500.0)], 0.0, [0.0, 8750.0]));
  }

  // ex1 holds 375 Euro and asks 3 at 250 and 3 at 750; ex2 holds 600 Euro and asks 3 at 500.
  const BuyShort: seq<Exchange> := [MakeExchange("ex1", 10.0, 375.0, [], [Entry(1, 3.0, 250.0), Entry(2, 3.0, 750.0)]),
                                    MakeExchange("ex2", 10.0, 600.0, [], [Entry(3, 3.0, 500.0)])]

  lemma BuyShortCandidates()
    ensures PlanCandidates(Buying, BuyShort)
      == [Candidate(0, "ex1", 1, 3.0, 250.0), Candidate(1, "ex2", 3, 3.0, 500.0), Candidate(0, "ex1", 2, 3.0, 750.0)]
  {
    var a, b, c := Candidate(0, "ex1", 1, 3.0, 250.0), Candidate(0, "ex1", 2, 3.0, 750.0), Candidate(1, "ex2", 3, 3.0, 500.0);
    assert BuyShort[..1] == [BuyShort[0]];
    assert Candidates(Buying, [BuyShort[0]]) == [a, b];
    assert Candidates(Buying, BuyShort) == [a, b, c];
    assert [a, b, c][1..] == [b, c] && [b, c][1..] == [c];
    assert SortCandidates(Buying, [c]) == [c];
    assert Insert(Buying, b, [c]) == [c, b];
  }

  lemma BuyShortScan()
    ensures Scan(Buying, [Candidate(0, "ex1", 1, 3.0, 250.0), Candidate(1, "ex2", 3, 3.0, 500.0), Candidate(0, "ex1", 2, 3.0, 750.0)],
                 4.0, [375.0, 600.0])
      == ScanOutcome([PlannedOrder("ex1", 1, Buy, 1.5, 250.0), PlannedOrder("ex2", 3, Buy, 1.2, 500.0)], 1.3, [0.0, 0.0])
  {
    var a, b, c := Candidate(0, "ex1", 1, 3.0, 250.0), Candidate(0, "ex1", 2, 3.0, 750.0), Candidate(1, "ex2", 3, 3.0, 500.0);
    assert [a, c, b][1..] == [c, b] && [c, b][1..] == [b];
    assert Fillable(Buying, a, 4.0, 375.0) == 1.5;
    assert Fillable(Buying, c, 2.5, 600.0) == 1.2;
    assert [375.0, 600.0][0 := 375.0 - 1.5 * 250.0] == [0.0, 600.0];
    assert Fillable(Buying, b, 1.3, 0.0) == 0.0;
    assert Scan(Buying, [b], 1.3, [0.0, 0.0]) == ScanOutcome([], 1.3, [0.0, 0.0]);
    assert [0.0, 600.0][1 := 600.0 - 1.2 * 500.0] == [0.0, 0.0];
    assert Scan(Buying, [c, b], 2.5, [0.0, 600.0]) == ScanOutcome([PlannedOrder("ex2", 3, Buy, 1.2, 500.0)], 1.3, [0.0, 0.0]);
  }

  /** 375 Euro on ex1 and 600 Euro on ex2 pay for only 2.7 of the 4 requested. */
  lemma BuyBalanceUnavailable()
    ensures PricesConvertible(Buying, BuyShort)
    ensures PlanFor(Buying, BuyShort, 4.0) == InsufficientBalance
  {
    var cs, bs := [Candidate(0, "ex1", 1, 3.0, 250.0), Candidate(1, "ex2", 3, 3.0, 500.0), Candidate(0, "ex1", 2, 3.0, 750.0)], [375.0, 600.0];
    assert PricesConvertible(Buying, BuyShort);
    BuyShortCandidates();
    PlanCandidatesScannable(Buying, BuyShort);
    assert Scannable(Buying, cs, |bs|);
    assert InitialBalances(Buying, BuyShort) == bs;
    BuyShortScan();
    PlanForOutcome(Buying, BuyShort, 4.0, cs, bs,
      ScanOutcome([PlannedOrder("ex1", 1, Buy, 1.5, 250.0), PlannedOrder("ex2", 3, Buy, 1.2, 500.0)], 1.3, [0.0, 0.0]));
  }

  /** A request that is zero or negative is an argument error. */
  lemma BuyAmountNotPositive()
    ensures PricesConvertible(Buying, [MakeExchange("ex1", 10.0, 375.0, [], [Entry(1, 3.0, 250.0)])])
    ensures PlanFor(Buying, [MakeExchange("ex1", 10.0, 375.0, [], [Entry(1, 3.0, 250.0)])], 0.0) == InvalidArgument
    ensures PlanFor(Buying, [MakeExchange("ex1", 10.0, 375.0, [], [Entry(1, 3.0, 250.0)])], -1.0) == InvalidArgument
  {
  }

  /** The request is checked before any price is divided by: a zero request is
      an argument error even against an ask priced 0. */
  lemma BuyAmountCheckedBeforeDivision()
    ensures !PricesConvertible(Buying, [MakeExchange("ex1", 10.0, 375.0, [], [Entry(1, 3.0, 0.0)])])
    ensures PlanFor(Buying, [MakeExchange("ex1", 10.0, 375.0, [], [Entry(1, 3.0, 0.0)])], 0.0) == InvalidArgument
  {
    var exs := [MakeExchange("ex1", 10.0, 375.0, [], [Entry(1, 3.0, 0.0)])];
    assert OrderBookEntries(Buying, exs[0].book)[0].order.price == 0.0;
  }

  /** One bid of 3 at 250 and 10 crypto: selling 2 takes 2 of it, for 500 Euro. */
  lemma SellSingleExchangeSingleOrder()
    ensures PricesConvertible(Selling, [MakeExchange("ex1", 10.0, 1000.0, [Entry(1, 3.0, 250.0)], [])])
    ensures PlanFor(Selling, [MakeExchange("ex1", 10.0, 1000.0, [Entry(1, 3.0, 250.0)], [])], 2.0)
      == Ok(OrderPlan([PlannedOrder("ex1", 1, Sell, 2.0, 250.0)]))
    ensures OrderPlan([PlannedOrder("ex1", 1, Sell, 2.0, 250.0)]).TotalAmount() == 2.0
    ensures OrderPlan([PlannedOrder("ex1", 1, Sell, 2.0, 250.0)]).TotalPrice() == 500.0
  {
    var exs := [MakeExchange("ex1", 10.0, 1000.0, [Entry(1, 3.0, 250.0)], [])];
    assert Candidates(Selling, exs) == [Candidate(0, "ex1", 1, 3.0, 250.0)];
  }

  // One exchange with 10 crypto bidding 3 at 250 and 3 at 500.
  const SellSingle: seq<Exchange> := [MakeExchange("ex1", 10.0, 10000.0, [Entry(1, 3.0, 250.0), Entry(2, 3.0, 500.0)], [])]

  lemma SellSingleCandidates()
    ensures PlanCandidates(Selling, SellSingle) == [Candidate(0, "ex1", 2, 3.0, 500.0), Candidate(0, "ex1", 1, 3.0, 250.0)]
  {
    var a, b := Candidate(0, "ex1", 1, 3.0, 250.0), Candidate(0, "ex1", 2, 3.0, 500.0);
    assert Candidates(Selling, SellSingle) == [a, b];
    assert [a, b][1..] == [b];
    assert SortCandidates(Selling, [b]) == [b];
    assert Insert(Selling, a, [b]) == [b, a];
  }

  lemma SellSingleScan()
    ensures Scan(Selling, [Candidate(0, "ex1", 2, 3.0, 500.0), Candidate(0, "ex1", 1, 3.0, 250.0)], 4.0, [10.0])
      == ScanOutcome([PlannedOrder("ex1", 2, Sell, 3.0, 500.0), PlannedOrder("ex1", 1, Sell, 1.0, 250.0)], 0.0, [6.0])
  {
    var a, b := Candidate(0, "ex1", 1, 3.0, 250.0), Candidate(0, "ex1", 2, 3.0, 500.0);
    assert [b, a][1..] == [a];
    assert Fillable(Selling, b, 4.0, 10.0) == 3.0;
    assert Fillable(Selling, a, 1.0, 7.0) == 1.0;
    assert [10.0][0 := 10.0 - 3.0] == [7.0];
    assert [7.0][0 := 7.0 - 1.0] == [6.0];
    assert Scan(Selling, [a], 1.0, [7.0]) == ScanOutcome([PlannedOrder("ex1", 1, Sell, 1.0, 250.0)], 0.0, [6.0]);
  }

  /** The higher bid of one exchange is used first: 3 at 500, then 1 at 250. */
  lemma SellSingleExchangeMultipleOrders()
    ensures PricesConvertible(Selling, SellSingle)
    ensures PlanFor(Selling, SellSingle, 4.0)
      == Ok(OrderPlan([PlannedOrder("ex1", 2, Sell, 3.0, 500.0), PlannedOrder("ex1", 1, Sell, 1.0, 250.0)]))
  {
    var cs, bs := [Candidate(0, "ex1", 2, 3.0, 500.0), Candidate(0, "ex1", 1, 3.0, 250.0)], [10.0];
    assert PricesConvertible(Selling, SellSingle);
    SellSingleCandidates();
    PlanCandidatesScannable(Selling, SellSingle);
    assert Scannable(Selling, cs, |bs|);
    assert InitialBalances(Selling, SellSingle) == bs;
    SellSingleScan();
    PlanForOutcome(Selling, SellSingle, 4.0, cs, bs,
      ScanOutcome([PlannedOrder("ex1", 2, Sell, 3.0, 500.0), PlannedOrder("ex1", 1, Sell, 1.0, 250.0)], 0.0, [6.0]));
  }

  /** A request that is zero or negative is an argument error when selling too. */
  lemma SellAmountNotPositive()
    ensures PlanFor(Selling, [MakeExchange("ex1", 10.0, 375.0, [Entry(1, 3.0, 250.0)], [])], 0.0) == InvalidArgument
    ensures PlanFor(Selling, [MakeExchange("ex1", 10.0, 375.0, [Entry(1, 3.0, 250.0)], [])], -1.0) == InvalidArgument
  {
  }

  // ex1 bids 3 at 250 and 3 at 750, ex2 bids 3 at 500, both with 10 crypto.
  const SellMulti: seq<Exchange> := [MakeExchange("ex1", 10.0, 10000.0, [Entry(1, 3.0, 250.0), Entry(2, 3.0, 750.0)], []),
                                     MakeExchange("ex2", 10.0, 10000.0, [Entry(3, 3.0, 500.0)], [])]

  lemma SellMultiCandidates()
    ensures PlanCandidates(Selling, SellMulti)
      == [Candidate(0, "ex1", 2, 3.0, 750.0), Candidate(1, "ex2", 3, 3.0, 500.0), Candidate(0, "ex1", 1, 3.0, 250.0)]
  {
    var a, b, c := Candidate(0, "ex1", 1, 3.0, 250.0), Candidate(0, "ex1", 2, 3.0, 750.0), Candidate(1, "ex2", 3, 3.0, 500.0);
    assert SellMulti[..1] == [SellMulti[0]];
    assert Candidates(Selling, [SellMulti[0]]) == [a, b];
    assert Candidates(Selling, SellMulti) == [a, b, c];
    assert [a, b, c][1..] == [b, c] && [b, c][1..] == [c];
    assert SortCandidates(Selling, [c]) == [c];
    assert SortCandidates(Selling, [b, c]) == [b, c];
    assert Insert(Selling, a, [c]) == [c, a];
  }

  lemma SellMultiScan()
    ensures Scan(Selling, [Candidate(0, "ex1", 2, 3.0, 750.0), Candidate(1, "ex2", 3, 3.0, 500.0), Candidate(0, "ex1", 1, 3.0, 250.0)],
                 4.0, [10.0, 10.0])
      == ScanOutcome([PlannedOrder("ex1", 2, Sell, 3.0, 750.0), PlannedOrder("ex2", 3, Sell, 1.0, 500.0)], 0.0, [7.0, 9.0])
  {
    var a, b, c := Candidate(0, "ex1", 1, 3.0, 250.0), Candidate(0, "ex1", 2, 3.0, 750.0), Candidate(1, "ex2", 3, 3.0, 500.0);
    assert [b, c, a][1..] == [c, a];
    assert Fillable(Selling, b, 4.0, 10.0) == 3.0;
    assert Fillable(Selling, c, 1.0, 10.0) == 1.0;
    assert [10.0, 10.0][0 := 10.0 - 3.0] == [7.0, 10.0];
    assert [7.0, 10.0][1 := 10.0 - 1.0] == [7.0, 9.0];
    assert Scan(Selling, [c, a], 1.0, [7.0, 10.0])
      == ScanOutcome([PlannedOrder("ex2", 3, Sell, 1.0, 500.0)], 0.0, [7.0, 9.0]);
  }

  /** The highest bid is used first even when it sits at another exchange:
      3 at 750 on ex1, then 1 at 500 on ex2. */
  lemma SellMultipleExchanges()
    ensures PricesConvertible(Selling, SellMulti)
    ensures PlanFor(Selling, SellMulti, 4.0)
      == Ok(OrderPlan([PlannedOrder("ex1", 2, Sell, 3.0, 750.0), PlannedOrder("ex2", 3, Sell, 1.0, 500.0)]))
  {
    var cs, bs := [Candidate(0, "ex1", 2, 3.0, 750.0), Candidate(1, "ex2", 3, 3.0, 500.0), Candidate(0, "ex1", 1, 3.0, 250.0)], [10.0, 10.0];
    assert PricesConvertible(Selling, SellMulti);
    SellMultiCandidates();
    PlanCandidatesScannable(Selling, SellMulti);
    assert Scannable(Selling, cs, |bs|);
    assert InitialBalances(Selling, SellMulti) == bs;
    SellMultiScan();
    PlanForOutcome(Selling, SellMulti, 4.0, cs, bs,
      ScanOutcome([PlannedOrder("ex1", 2, Sell, 3.0, 750.0), PlannedOrder("ex2", 3, Sell, 1.0, 500.0)], 0.0, [7.0, 9.0]));
  }

  /** That plan totals 4 units for 2750 Euro. */
  lemma SellMultipleExchangesTotals()
    ensures OrderPlan([PlannedOrder("ex1", 2, Sell, 3.0, 750.0), PlannedOrder("ex2", 3, Sell, 1.0, 500.0)]).TotalAmount() == 4.0
    ensures OrderPlan([PlannedOrder("ex1", 2, Sell, 3.0, 750.0), PlannedOrder("ex2", 3, Sell, 1.0, 500.0)]).TotalPrice() == 2750.0
  {
    var ps := [PlannedOrder("ex1", 2, Sell, 3.0, 750.0), PlannedOrder("ex2", 3, Sell, 1.0, 500.0)];
    assert ps[1..] == [ps[1]] && ps[1..][1..] == [];
  }

  // ex1 holds 10 crypto and bids 1 at 750 and 2 at 150; ex2 holds 2 crypto and bids 3 at 500.
  const SellLimited: seq<Exchange> := [MakeExchange("ex1", 10.0, 375.0, [Entry(1, 1.0, 750.0), Entry(2, 2.0, 150.0)], []),
                                       MakeExchange("ex2", 2.0, 10000.0, [Entry(3, 3.0, 500.0)], [])]

  lemma SellLimitedCandidates()
    ensures PlanCandidates(Selling, SellLimited)
      == [Candidate(0, "ex1", 1, 1.0, 750.0), Candidate(1, "ex2", 3, 3.0, 500.0), Candidate(0, "ex1", 2, 2.0, 150.0)]
  {
    var a, b, c := Candidate(0, "ex1", 1, 1.0, 750.0), Candidate(0, "ex1", 2, 2.0, 150.0), Candidate(1, "ex2", 3, 3.0, 500.0);
    assert SellLimited[..1] == [SellLimited[0]];
    assert Candidates(Selling, [SellLimited[0]]) == [a, b];
    assert Candidates(Selling, SellLimited) == [a, b, c];
    assert [a, b, c][1..] == [b, c] && [b, c][1..] == [c];
    assert SortCandidates(Selling, [c]) == [c];
    assert Insert(Selling, b, [c]) == [c, b];
    assert SortCandidates(Selling, [b, c]) == [c, b];
  }

  lemma SellLimitedScan()
    ensures Scan(Selling, [Candidate(0, "ex1", 1, 1.0, 750.0), Candidate(1, "ex2", 3, 3.0, 500.0), Candidate(0, "ex1", 2, 2.0, 150.0)],
                 4.0, [10.0, 2.0])
      == ScanOutcome([PlannedOrder("ex1", 1, Sell, 1.0, 750.0), PlannedOrder("ex2", 3, Sell, 2.0, 500.0), PlannedOrder("ex1", 2, Sell, 1.0, 150.0)],
                     0.0, [8.0, 0.0])
  {
    var a, b, c := Candidate(0, "ex1", 1, 1.0, 750.0), Candidate(0, "ex1", 2, 2.0, 150.0), Candidate(1, "ex2", 3, 3.0, 500.0);
    assert [a, c, b][1..] == [c, b] && [c, b][1..] == [b];
    assert Fillable(Selling, a, 4.0, 10.0) == 1.0;
    assert Fillable(Selling, c, 3.0, 2.0) == 2.0;
    assert Fillable(Selling, b, 1.0, 9.0) == 1.0;
    assert [10.0, 2.0][0 := 10.0 - 1.0] == [9.0, 2.0];
    assert [9.0, 2.0][1 := 2.0 - 2.0] == [9.0, 0.0];
    assert [9.0, 0.0][0 := 9.0 - 1.0] == [8.0, 0.0];
    assert Scan(Selling, [b], 1.0, [9.0, 0.0]) == ScanOutcome([PlannedOrder("ex1", 2, Sell, 1.0, 150.0)], 0.0, [8.0, 0.0]);
    assert Scan(Selling, [c, b], 3.0, [9.0, 2.0])
      == ScanOutcome([PlannedOrder("ex2", 3, Sell, 2.0, 500.0), PlannedOrder("ex1", 2, Sell, 1.0, 150.0)], 0.0, [8.0, 0.0]);
  }

  /** The crypto balance limits each exchange: ex2 can sell only 2 at 500, so the
      last unit goes to the lower bid of 150 back on ex1. */
  lemma SellMultipleExchangesLimitedBalance()
    ensures PricesConvertible(Selling, SellLimited)
    ensures PlanFor(Selling, SellLimited, 4.0)
      == Ok(OrderPlan([PlannedOrder("ex1", 1, Sell, 1.0, 750.0), PlannedOrder("ex2", 3, Sell, 2.0, 500.0), PlannedOrder("ex1", 2, Sell, 1.0, 150.0)]))
  {
    var cs, bs := [Candidate(0, "ex1", 1, 1.0, 750.0), Candidate(1, "ex2", 3, 3.0, 500.0), Candidate(0, "ex1", 2, 2.0, 150.0)], [10.0, 2.0];
    assert PricesConvertible(Selling, SellLimited);
    SellLimitedCandidates();
    PlanCandidatesScannable(Selling, SellLimited);
    assert Scannable(Selling, cs, |bs|);
    assert InitialBalances(Selling, SellLimited) == bs;
    SellLimitedScan();
    PlanForOutcome(Selling, SellLimited, 4.0, cs, bs,
      ScanOutcome([PlannedOrder("ex1", 1, Sell, 1.0, 750.0), PlannedOrder("ex2", 3, Sell, 2.0, 500.0), PlannedOrder("ex1", 2, Sell, 1.0, 150.0)], 0.0, [8.0, 0.0]));
  }

  // ex1 holds 2 crypto and bids 3 at 250 and 3 at 750; ex2 holds 1 crypto and bids 3 at 500.
  const SellShort: seq<Exchange> := [MakeExchange("ex1", 2.0, 375.0, [Entry(1, 3.0, 250.0), Entry(2, 3.0, 750.0)], []),
                                     MakeExchange("ex2", 1.0, 600.0, [Entry(3, 3.0, 500.0)], [])]

  lemma SellShortScan()
    ensures Scan(Selling, [Candidate(0, "ex1", 2, 3.0, 750.0), Candidate(1, "ex2", 3, 3.0, 500.0), Candidate(0, "ex1", 1, 3.0, 250.0)],
                 4.0, [2.0, 1.0])
      == ScanOutcome([PlannedOrder("ex1", 2, Sell, 2.0, 750.0), PlannedOrder("ex2", 3, Sell, 1.0, 500.0)], 1.0, [0.0, 0.0])
  {
    var a, b, c := Candidate(0, "ex1", 1, 3.0, 250.0), Candidate(0, "ex1", 2, 3.0, 750.0), Candidate(1, "ex2", 3, 3.0, 500.0);
    assert [b, c, a][1..] == [c, a] && [c, a][1..] == [a];
    assert Fillable(Selling, b, 4.0, 2.0) == 2.0;
    assert Fillable(Selling, c, 2.0, 1.0) == 1.0;
    assert [2.0, 1.0][0 := 2.0 - 2.0] == [0.0, 1.0];
    assert Fillable(Selling, a, 1.0, 0.0) == 0.0;
    assert Scan(Selling, [a], 1.0, [0.0, 0.0]) == ScanOutcome([], 1.0, [0.0, 0.0]);
    assert [0.0, 1.0][1 := 1.0 - 1.0] == [0.0, 0.0];
    assert Scan(Selling, [c, a], 2.0, [0.0, 1.0]) == ScanOutcome([PlannedOrder("ex2", 3, Sell, 1.0, 500.0)], 1.0, [0.0, 0.0]);
  }

  lemma SellShortCandidates()
    ensures PlanCandidates(Selling, SellShort) == [Candidate(0, "ex1", 2, 3.0, 750.0), Candidate(1, "ex2", 3, 3.0, 500.0), Candidate(0, "ex1", 1, 3.0, 250.0)]
  {
    var a, b, c := Candidate(0, "ex1", 1, 3.0, 250.0), Candidate(0, "ex1", 2, 3.0, 750.0), Candidate(1, "ex2", 3, 3.0, 500.0);
    assert SellShort[..1] == [SellShort[0]];
    assert Candidates(Selling, [SellShort[0]]) == [a, b];
    assert Candidates(Selling, SellShort) == [a, b, c];
    assert [a, b, c][1..] == [b, c] && [b, c][1..] == [c];
    assert SortCandidates(Selling, [c]) == [c];
    assert SortCandidates(Selling, [b, c]) == [b, c];
    assert Insert(Selling, a, [c]) == [c, a];
  }

  /** 2 crypto on ex1 and 1 on ex2 cover only 3 of the 4 requested. */
  lemma SellBalanceUnavailable()
    ensures PricesConvertible(Selling, SellShort)
    ensures PlanFor(Selling, SellShort, 4.0) == InsufficientBalance
  {
    var cs, bs := [Candidate(0, "ex1", 2, 3.0, 750.0), Candidate(1, "ex2", 3, 3.0, 500.0), Candidate(0, "ex1", 1, 3.0, 250.0)], [2.0, 1.0];
    assert PricesConvertible(Selling, SellShort);
    SellShortCandidates();
    PlanCandidatesScannable(Selling, SellShort);
    assert Scannable(Selling, cs, |bs|);
    assert InitialBalances(Selling, SellShort) == bs;
    SellShortScan();
    PlanForOutcome(Selling, SellShort, 4.0, cs, bs,
      ScanOutcome([PlannedOrder("ex1", 2, Sell, 2.0, 750.0), PlannedOrder("ex2", 3, Sell, 1.0, 500.0)], 1.0, [0.0, 0.0]));
  }
}
