/** What a whole planning call promises, stated about `PlanFor` (which the
    `Plan` method is proved equal to): the request is met exactly or not at
    all, every order comes from a real book entry of the right side, prices run
    in the side's direction, no exchange is charged more than its funds, and
    only the side's balance and book are read. */
module PlanProperties {
  import opened Model
  import opened SidePolicy
  import opened CandidateList
  import opened OrderPlanner

  /** The planned orders of a result; a failure carries none. */
  function PlannedOrders(r: PlanResult): seq<PlannedOrder> {
    if r.Ok? then r.plan.plannedOrders else []
  }

  /** `p` fills book entry `e` of exchange `ex`: same exchange id, order id and
      price, the side's order type, and a positive amount within the entry's. */
  ghost predicate FillsEntry(side: Side, p: PlannedOrder, ex: Exchange, e: OrderBookEntry) {
    && p.fulfilledByExchangeId == ex.id
    && p.fulfilledByOrderId == e.order.id
    && p.price == e.order.price
    && p.orderType == OrderTypeOf(side)
    && 0.0 < p.amount <= e.order.amount
  }

  /** `p` fills some entry on the side's book of one of the exchanges. */
  ghost predicate FillsSomeEntry(side: Side, p: PlannedOrder, exs: seq<Exchange>) {
    exists i, j :: 0 <= i < |exs| && 0 <= j < |OrderBookEntries(side, exs[i].book)|
                   && FillsEntry(side, p, exs[i], OrderBookEntries(side, exs[i].book)[j])
  }

  /** A successful plan totals exactly the request; every order is positive and
      fits in what was still outstanding before it, so none follows the order
      that completes the request. */
  lemma PlanMeetsRequest(side: Side, exs: seq<Exchange>, amount: real)
    requires PricesConvertible(side, exs)
    requires PlanFor(side, exs, amount).Ok?
    ensures amount > 0.0
    ensures PlanFor(side, exs, amount).plan.TotalAmount() == amount
    ensures forall k :: 0 <= k < |PlannedOrders(PlanFor(side, exs, amount))| ==>
      && SumAmounts(PlannedOrders(PlanFor(side, exs, amount))[..k]) < amount
      && 0.0 < PlannedOrders(PlanFor(side, exs, amount))[k].amount
      && PlannedOrders(PlanFor(side, exs, amount))[k].amount <= amount - SumAmounts(PlannedOrders(PlanFor(side, exs, amount))[..k])
  {
    PlanCandidatesScannable(side, exs);
    ScanAccounting(side, PlanCandidates(side, exs), amount, InitialBalances(side, exs));
  }

  /** For a positive request the call succeeds exactly when the liquidity the
      candidates offer against the starting balances covers it, and fails with
      insufficient balance (and no orders) exactly when it does not. */
  lemma PlanSucceedsIffCovered(side: Side, exs: seq<Exchange>, amount: real)
    requires PricesConvertible(side, exs)
    requires amount > 0.0
    ensures Scannable(side, PlanCandidates(side, exs), |exs|)
    ensures PlanFor(side, exs, amount).Ok? <==> amount <= Capacity(side, PlanCandidates(side, exs), InitialBalances(side, exs))
    ensures PlanFor(side, exs, amount) == InsufficientBalance
      <==> Capacity(side, PlanCandidates(side, exs), InitialBalances(side, exs)) < amount
  {
    PlanCandidatesScannable(side, exs);
    ScanFailsIffShort(side, PlanCandidates(side, exs), amount, InitialBalances(side, exs));
  }

  /** Every planned order fills an entry on the side's book (asks when buying,
      bids when selling) of one of the exchanges; nothing is invented. */
  lemma PlanReferencesBook(side: Side, exs: seq<Exchange>, amount: real)
    requires PricesConvertible(side, exs)
    ensures forall k :: 0 <= k < |PlannedOrders(PlanFor(side, exs, amount))| ==>
      FillsSomeEntry(side, PlannedOrders(PlanFor(side, exs, amount))[k], exs)
  {
    var ps := PlannedOrders(PlanFor(side, exs, amount));
    if ps != [] {
      var cs := PlanCandidates(side, exs);
      PlanCandidatesFacts(side, exs);
      assert ps == Scan(side, cs, amount, InitialBalances(side, exs)).planned;
      ScanDrawsFromCandidates(side, cs, amount, InitialBalances(side, exs));
      forall k | 0 <= k < |ps| ensures FillsSomeEntry(side, ps[k], exs) {
        assert DrawnFrom(side, ps[k], cs);
        var m :| 0 <= m < |cs| && FilledFrom(side, ps[k], cs[m]);
        var c := cs[m];
        assert c in cs;
        assert FromBook(side, exs, c);
        var entries := OrderBookEntries(side, exs[c.exchange].book);
        var j :| 0 <= j < |entries| && c == EntryCandidate(exs[c.exchange], c.exchange, entries[j]);
        assert FillsEntry(side, ps[k], exs[c.exchange], entries[j]);
      }
    }
  }

  /** The planned prices are monotone in the side's sort direction:
      non-decreasing when buying, non-increasing when selling. */
  lemma PlanPricesInSideOrder(side: Side, exs: seq<Exchange>, amount: real)
    requires PricesConvertible(side, exs)
    ensures forall i, j :: 0 <= i < j < |PlannedOrders(PlanFor(side, exs, amount))| ==>
      InOrder(side, PlannedOrders(PlanFor(side, exs, amount))[i].price, PlannedOrders(PlanFor(side, exs, amount))[j].price)
  {
    if amount > 0.0 {
      PlanCandidatesFacts(side, exs);
      ScanKeepsPriceOrder(side, PlanCandidates(side, exs), amount, InitialBalances(side, exs));
    }
  }

  /** The planned orders follow the visited candidates (the side's book entries,
      stably sorted by price in the side's direction) one candidate at a time:
      each candidate yields at most one order, within its amount, and the
      orders come in candidate order, ties between exchanges included. */
  lemma PlanFollowsCandidates(side: Side, exs: seq<Exchange>, amount: real) returns (f: seq<nat>)
    requires PricesConvertible(side, exs)
    ensures FollowsCandidates(side, PlannedOrders(PlanFor(side, exs, amount)), PlanCandidates(side, exs), f)
  {
    if amount <= 0.0 {
      f := [];
    } else {
      PlanCandidatesScannable(side, exs);
      f := ScanFollowsCandidates(side, PlanCandidates(side, exs), amount, InitialBalances(side, exs));
      if PlanFor(side, exs, amount).InsufficientBalance? {
        f := [];
      }
    }
  }

  /** Book prices are positive when buying (the balance is converted at them). */
  ghost predicate PositiveBookPrices(side: Side, exs: seq<Exchange>) {
    forall i, j :: 0 <= i < |exs| && 0 <= j < |OrderBookEntries(side, exs[i].book)| ==>
      side == Selling || OrderBookEntries(side, exs[i].book)[j].order.price > 0.0
  }

  /** The exchanges have pairwise distinct ids. */
  ghost predicate DistinctIds(exs: seq<Exchange>) {
    forall i, j :: 0 <= i < j < |exs| ==> exs[i].id != exs[j].id
  }

  function ExchangeIds(exs: seq<Exchange>): seq<string> {
    seq(|exs|, i requires 0 <= i < |exs| => exs[i].id)
  }

  /** The visited candidates carry their exchange's id and, when buying, a positive price. */
  lemma PlanCandidatesMatchExchanges(side: Side, exs: seq<Exchange>)
    requires PricesConvertible(side, exs) && PositiveBookPrices(side, exs) && DistinctIds(exs)
    ensures IdsMatch(PlanCandidates(side, exs), ExchangeIds(exs))
    ensures PositivePrices(side, PlanCandidates(side, exs))
  {
    var cs := PlanCandidates(side, exs);
    var ids := ExchangeIds(exs);
    PlanCandidatesFacts(side, exs);
    forall c | c in cs ensures c.exchange < |ids| && c.exchangeId == ids[c.exchange] && (side == Selling || c.price > 0.0) {
      assert FromBook(side, exs, c);
      var entries := OrderBookEntries(side, exs[c.exchange].book);
      var j :| 0 <= j < |entries| && c == EntryCandidate(exs[c.exchange], c.exchange, entries[j]);
    }
  }

  /** No exchange is charged more than its available balance: when buying the
      Euro cost `amount * price` of its orders stays within its Euro funds, when
      selling their crypto amount stays within its crypto funds. */
  lemma PlanWithinFunds(side: Side, exs: seq<Exchange>, amount: real)
    requires PricesConvertible(side, exs) && PositiveBookPrices(side, exs) && DistinctIds(exs)
    requires forall i :: 0 <= i < |exs| ==> AvailableBalance(side, exs[i].funds) >= 0.0
    ensures forall i :: 0 <= i < |exs| ==>
      Charged(side, PlannedOrders(PlanFor(side, exs, amount)), exs[i].id) <= AvailableBalance(side, exs[i].funds)
  {
    var ps := PlannedOrders(PlanFor(side, exs, amount));
    if ps != [] {
      var cs := PlanCandidates(side, exs);
      var init := InitialBalances(side, exs);
      var ids := ExchangeIds(exs);
      PlanCandidatesScannable(side, exs);
      PlanCandidatesMatchExchanges(side, exs);
      var o := Scan(side, cs, amount, init);
      assert ps == o.planned;
      ScanCharges(side, cs, amount, init, ids);
      ScanKeepsBalancesNonNegative(side, cs, amount, init);
      forall i | 0 <= i < |exs| ensures Charged(side, ps, exs[i].id) <= AvailableBalance(side, exs[i].funds) {
        assert o.balances[i] == init[i] - Charged(side, o.planned, ids[i]);
        assert o.balances[i] >= 0.0;
      }
    }
  }

  /** The plan is a function of the exchange ids, the side's balances and the
      side's book entries only. */
  lemma PlanDependsOnlyOnSideView(side: Side, exs: seq<Exchange>, exs': seq<Exchange>, amount: real)
    requires PricesConvertible(side, exs)
    requires |exs| == |exs'|
    requires forall i :: 0 <= i < |exs| ==> exs[i].id == exs'[i].id
    requires forall i :: 0 <= i < |exs| ==> AvailableBalance(side, exs[i].funds) == AvailableBalance(side, exs'[i].funds)
    requires forall i :: 0 <= i < |exs| ==> OrderBookEntries(side, exs[i].book) == OrderBookEntries(side, exs'[i].book)
    ensures PricesConvertible(side, exs') && PlanFor(side, exs, amount) == PlanFor(side, exs', amount)
  {
    CandidatesReadOnlySideBook(side, exs, exs');
    assert InitialBalances(side, exs) == InitialBalances(side, exs');
  }

  /** Buying reads only the Euro funds and the asks: changing crypto funds or bids changes nothing. */
  lemma BuyIgnoresCryptoAndBids(exs: seq<Exchange>, exs': seq<Exchange>, amount: real)
    requires PricesConvertible(Buying, exs)
    requires |exs| == |exs'|
    requires forall i :: 0 <= i < |exs| ==>
      exs[i].id == exs'[i].id && exs[i].funds.euro == exs'[i].funds.euro && exs[i].book.asks == exs'[i].book.asks
    ensures PricesConvertible(Buying, exs') && PlanFor(Buying, exs, amount) == PlanFor(Buying, exs', amount)
  {
    PlanDependsOnlyOnSideView(Buying, exs, exs', amount);
  }

  /** Selling reads only the crypto funds and the bids: changing Euro funds or asks changes nothing. */
  lemma SellIgnoresEuroAndAsks(exs: seq<Exchange>, exs': seq<Exchange>, amount: real)
    requires PricesConvertible(Selling, exs)
    requires |exs| == |exs'|
    requires forall i :: 0 <= i < |exs| ==>
      exs[i].id == exs'[i].id && exs[i].funds.crypto == exs'[i].funds.crypto && exs[i].book.bids == exs'[i].book.bids
    ensures PricesConvertible(Selling, exs') && PlanFor(Selling, exs, amount) == PlanFor(Selling, exs', amount)
  {
    PlanDependsOnlyOnSideView(Selling, exs, exs', amount);
  }
}
