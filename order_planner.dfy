/** The greedy planner: one fresh balance cell per exchange, one pass over the
    price-sorted candidates, each taking as much as its entry, the outstanding
    request and its exchange's balance allow, until the request is met. */
module OrderPlanner {
  import opened Model
  import opened SidePolicy
  import opened CandidateList

  /** What `Plan` returns: a complete plan, or one of the two error kinds
      (`ArgumentException`, `InsufficientBalanceException`). No partial plan
      is ever part of a failure. */
  datatype PlanResult = Ok(plan: OrderPlan) | InvalidArgument | InsufficientBalance

  function Min(a: real, b: real): real {
    if a <= b then a else b
  }

  /** Every candidate has a balance cell among `n` and a price the side can convert at. */
  ghost predicate Scannable(side: Side, cs: seq<Candidate>, n: nat) {
    forall c :: c in cs ==> c.exchange < n && Convertible(side, c.price)
  }

  /** The side's book prices can all be converted at (no zero ask price when buying). */
  ghost predicate PricesConvertible(side: Side, exs: seq<Exchange>) {
    forall i, j :: 0 <= i < |exs| && 0 <= j < |OrderBookEntries(side, exs[i].book)| ==>
      Convertible(side, OrderBookEntries(side, exs[i].book)[j].order.price)
  }

  /** How much of candidate `c` can be planned: the least of its amount, the
      outstanding request and what the exchange's balance covers at its price. */
  function Fillable(side: Side, c: Candidate, remaining: real, balance: real): real
    requires Convertible(side, c.price)
  {
    Min(Min(c.amount, remaining), BalanceToAmount(side, balance, c.price))
  }

  function PlannedOrderOf(side: Side, c: Candidate, amount: real): PlannedOrder {
    PlannedOrder(c.exchangeId, c.orderId, OrderTypeOf(side), amount, c.price)
  }

  /** The balances after charging `amount` of candidate `c` to its exchange. */
  function Charge(side: Side, balances: seq<real>, c: Candidate, amount: real): seq<real>
    requires c.exchange < |balances|
  {
    balances[c.exchange := balances[c.exchange] - AmountToBalance(side, amount, c.price)]
  }

  /** The orders a scan emits, the request still outstanding and the balances left. */
  datatype ScanOutcome = ScanOutcome(planned: seq<PlannedOrder>, remaining: real, balances: seq<real>)

  /** The loop of `GetPlannedOrders` as a function: skip a candidate that yields
      nothing, otherwise emit it, charge its exchange, and stop as soon as the
      request is met. */
  function Scan(side: Side, cs: seq<Candidate>, remaining: real, balances: seq<real>): ScanOutcome
    requires Scannable(side, cs, |balances|)
    decreases |cs|
  {
    if cs == [] then ScanOutcome([], remaining, balances)
    else
      var c := cs[0];
      assert c in cs;
      assert forall d :: d in cs[1..] ==> d in cs;
      var fill := Fillable(side, c, remaining, balances[c.exchange]);
      if fill <= 0.0 then Scan(side, cs[1..], remaining, balances)
      else
        var remaining' := remaining - fill;
        var balances' := Charge(side, balances, c, fill);
        var p := PlannedOrderOf(side, c, fill);
        if remaining' <= 0.0 then ScanOutcome([p], remaining', balances')
        else
          var rest := Scan(side, cs[1..], remaining', balances');
          ScanOutcome([p] + rest.planned, rest.remaining, rest.balances)
  }

  /** The starting balance cell of every exchange, by position. */
  function InitialBalances(side: Side, exs: seq<Exchange>): seq<real> {
    seq(|exs|, i requires 0 <= i < |exs| => AvailableBalance(side, exs[i].funds))
  }

  /** The candidates in the order the planner visits them. */
  function PlanCandidates(side: Side, exs: seq<Exchange>): seq<Candidate> {
    SortCandidates(side, Candidates(side, exs))
  }

  /** The visited candidates are sorted, come from the side's books, and can be scanned. */
  lemma PlanCandidatesFacts(side: Side, exs: seq<Exchange>)
    requires PricesConvertible(side, exs)
    ensures SortedBy(side, PlanCandidates(side, exs))
    ensures forall c :: c in PlanCandidates(side, exs) <==> FromBook(side, exs, c)
    ensures Scannable(side, PlanCandidates(side, exs), |exs|)
  {
    SortIsStableSort(side, Candidates(side, exs));
    CandidatesAreBookEntries(side, exs);
    assert forall c :: c in PlanCandidates(side, exs) <==> c in multiset(Candidates(side, exs));
  }

  lemma PlanCandidatesScannable(side: Side, exs: seq<Exchange>)
    requires PricesConvertible(side, exs)
    ensures Scannable(side, PlanCandidates(side, exs), |exs|)
  {
    PlanCandidatesFacts(side, exs);
  }

  /** What `Plan` returns for a side, an exchange list and a requested amount. */
  function PlanFor(side: Side, exs: seq<Exchange>, amount: real): PlanResult
    requires amount > 0.0 ==> PricesConvertible(side, exs)
  {
    if amount <= 0.0 then InvalidArgument
    else
      PlanCandidatesScannable(side, exs);
      var o := Scan(side, PlanCandidates(side, exs), amount, InitialBalances(side, exs));
      if o.remaining > 0.0 then InsufficientBalance else Ok(OrderPlan(o.planned))
  }

  /** Each order of `ps` is positive and fits in what `total` leaves after the orders before it. */
  ghost predicate FitsInOrder(ps: seq<PlannedOrder>, total: real) {
    forall k :: 0 <= k < |ps| ==> SumAmounts(ps[..k]) < total && 0.0 < ps[k].amount <= total - SumAmounts(ps[..k])
  }

  /** An order that fits in `total`, followed by orders that fit in what it leaves, fit in `total`. */
  lemma FitsInOrderCons(p: PlannedOrder, ps: seq<PlannedOrder>, total: real)
    requires 0.0 < p.amount <= total
    requires FitsInOrder(ps, total - p.amount)
    ensures FitsInOrder([p] + ps, total)
  {
    var qs := [p] + ps;
    forall k | 0 <= k < |qs| ensures SumAmounts(qs[..k]) < total && 0.0 < qs[k].amount <= total - SumAmounts(qs[..k]) {
      if k == 0 {
        assert qs[..0] == [];
      } else {
        assert qs[..k] == [p] + ps[..k - 1];
        assert qs[..k][1..] == ps[..k - 1];
        assert qs[k] == ps[k - 1];
      }
    }
  }

  /** The request is never overdrawn: every emitted order is positive and fits in
      what was still outstanding when it was chosen, so no order follows the one
      that completes the request, and what is left outstanding is the request
      minus the planned total. */
  lemma {:induction false} ScanAccounting(side: Side, cs: seq<Candidate>, remaining: real, balances: seq<real>)
    requires Scannable(side, cs, |balances|)
    requires remaining > 0.0
    ensures 0.0 <= Scan(side, cs, remaining, balances).remaining
    ensures Scan(side, cs, remaining, balances).remaining + SumAmounts(Scan(side, cs, remaining, balances).planned) == remaining
    ensures FitsInOrder(Scan(side, cs, remaining, balances).planned, remaining)
  {
    if cs != [] {
      var c := cs[0];
      assert c in cs;
      assert forall d :: d in cs[1..] ==> d in cs;
      var fill := Fillable(side, c, remaining, balances[c.exchange]);
      if fill <= 0.0 {
        ScanAccounting(side, cs[1..], remaining, balances);
      } else {
        var remaining' := remaining - fill;
        var balances' := Charge(side, balances, c, fill);
        var p := PlannedOrderOf(side, c, fill);
        if remaining' <= 0.0 {
          assert [p][..0] == [] && [p][1..] == [];
        } else {
          var rest := Scan(side, cs[1..], remaining', balances');
          ScanAccounting(side, cs[1..], remaining', balances');
          FitsInOrderCons(p, rest.planned, remaining);
          assert ([p] + rest.planned)[1..] == rest.planned;
        }
      }
    }
  }

  /** `p` copies exchange id, order id and price from `c`, carries the side's
      order type, and takes a positive amount no larger than `c`'s. */
  ghost predicate FilledFrom(side: Side, p: PlannedOrder, c: Candidate) {
    && p.fulfilledByExchangeId == c.exchangeId
    && p.fulfilledByOrderId == c.orderId
    && p.price == c.price
    && p.orderType == OrderTypeOf(side)
    && 0.0 < p.amount <= c.amount
  }

  /** `p` is filled from one of the candidates `cs`. */
  ghost predicate DrawnFrom(side: Side, p: PlannedOrder, cs: seq<Candidate>) {
    exists m :: 0 <= m < |cs| && FilledFrom(side, p, cs[m])
  }

  lemma DrawnFromTail(side: Side, p: PlannedOrder, cs: seq<Candidate>)
    requires cs != [] && DrawnFrom(side, p, cs[1..])
    ensures DrawnFrom(side, p, cs)
  {
    var m :| 0 <= m < |cs[1..]| && FilledFrom(side, p, cs[1..][m]);
    assert cs[1..][m] == cs[m + 1];
  }

  /** Every emitted order is drawn from one real candidate; no price is invented. */
  lemma {:induction false} ScanDrawsFromCandidates(side: Side, cs: seq<Candidate>, remaining: real, balances: seq<real>)
    requires Scannable(side, cs, |balances|)
    ensures forall k :: 0 <= k < |Scan(side, cs, remaining, balances).planned| ==>
      DrawnFrom(side, Scan(side, cs, remaining, balances).planned[k], cs)
  {
    if cs != [] {
      ScannableTail(side, cs, |balances|);
      var c := cs[0];
      var fill := Fillable(side, c, remaining, balances[c.exchange]);
      var o := Scan(side, cs, remaining, balances);
      if fill <= 0.0 {
        var o' := Scan(side, cs[1..], remaining, balances);
        ScanDrawsFromCandidates(side, cs[1..], remaining, balances);
        assert o == o';
        forall k | 0 <= k < |o.planned| ensures DrawnFrom(side, o.planned[k], cs) {
          DrawnFromTail(side, o.planned[k], cs);
        }
      } else {
        var p := PlannedOrderOf(side, c, fill);
        assert FilledFrom(side, p, cs[0]);
        assert DrawnFrom(side, p, cs);
        if remaining - fill > 0.0 {
          var rest := Scan(side, cs[1..], remaining - fill, Charge(side, balances, c, fill));
          assert o.planned == [p] + rest.planned;
          ScanDrawsFromCandidates(side, cs[1..], remaining - fill, Charge(side, balances, c, fill));
          forall k | 0 <= k < |o.planned| ensures DrawnFrom(side, o.planned[k], cs) {
            if k > 0 {
              assert o.planned[k] == rest.planned[k - 1];
              DrawnFromTail(side, o.planned[k], cs);
            }
          }
        } else {
          assert o.planned == [p];
        }
      }
    }
  }

  /** Orders `ps` are filled one by one from the candidates `cs` at the
      positions `f`, which strictly increase: each candidate yields at most one
      order, and the orders keep the candidates' order. */
  ghost predicate FollowsCandidates(side: Side, ps: seq<PlannedOrder>, cs: seq<Candidate>, f: seq<nat>) {
    && |f| == |ps|
    && (forall k :: 0 <= k < |f| ==> f[k] < |cs| && FilledFrom(side, ps[k], cs[f[k]]))
    && (forall i, j :: 0 <= i < j < |f| ==> f[i] < f[j])
  }

  /** Every position moved one candidate on. */
  function Shift(g: seq<nat>): (f: seq<nat>)
    ensures |f| == |g| && forall k :: 0 <= k < |g| ==> f[k] == g[k] + 1
  {
    seq(|g|, k requires 0 <= k < |g| => g[k] + 1)
  }

  lemma FollowsTail(side: Side, ps: seq<PlannedOrder>, cs: seq<Candidate>, g: seq<nat>)
    requires cs != [] && FollowsCandidates(side, ps, cs[1..], g)
    ensures FollowsCandidates(side, ps, cs, Shift(g))
  {
    var f := Shift(g);
    forall k | 0 <= k < |f| ensures f[k] < |cs| && FilledFrom(side, ps[k], cs[f[k]]) {
      assert cs[f[k]] == cs[1..][g[k]];
    }
  }

  lemma FollowsCons(side: Side, p: PlannedOrder, ps: seq<PlannedOrder>, cs: seq<Candidate>, g: seq<nat>)
    requires cs != [] && FilledFrom(side, p, cs[0]) && FollowsCandidates(side, ps, cs[1..], g)
    ensures FollowsCandidates(side, [p] + ps, cs, [0] + Shift(g))
  {
    FollowsTail(side, ps, cs, g);
    var f, qs := [0] + Shift(g), [p] + ps;
    forall k | 0 < k < |f| ensures f[k] == Shift(g)[k - 1] && qs[k] == ps[k - 1] {
    }
  }

  /** The scan walks the candidates once, in order, and emits at most one order
      per candidate: the `k`-th order is filled from candidate `f[k]`, and `f`
      is strictly increasing. */
  lemma {:induction false} ScanFollowsCandidates(side: Side, cs: seq<Candidate>, remaining: real, balances: seq<real>)
    returns (f: seq<nat>)
    requires Scannable(side, cs, |balances|)
    ensures FollowsCandidates(side, Scan(side, cs, remaining, balances).planned, cs, f)
  {
    if cs == [] {
      f := [];
    } else {
      ScannableTail(side, cs, |balances|);
      var c := cs[0];
      var fill := Fillable(side, c, remaining, balances[c.exchange]);
      if fill <= 0.0 {
        var g := ScanFollowsCandidates(side, cs[1..], remaining, balances);
        FollowsTail(side, Scan(side, cs, remaining, balances).planned, cs, g);
        f := Shift(g);
      } else if remaining - fill <= 0.0 {
        f := [0];
      } else {
        var balances' := Charge(side, balances, c, fill);
        var g := ScanFollowsCandidates(side, cs[1..], remaining - fill, balances');
        FollowsCons(side, PlannedOrderOf(side, c, fill), Scan(side, cs[1..], remaining - fill, balances').planned, cs, g);
        f := [0] + Shift(g);
      }
    }
  }

  /** A scan only emits prices that the side orders at or after any bound `x`
      that all its candidates respect. */
  lemma ScanStaysBehind(side: Side, cs: seq<Candidate>, remaining: real, balances: seq<real>, x: real)
    requires Scannable(side, cs, |balances|)
    requires forall m :: 0 <= m < |cs| ==> InOrder(side, x, cs[m].price)
    ensures forall k :: 0 <= k < |Scan(side, cs, remaining, balances).planned| ==>
      InOrder(side, x, Scan(side, cs, remaining, balances).planned[k].price)
  {
    var ps := Scan(side, cs, remaining, balances).planned;
    ScanDrawsFromCandidates(side, cs, remaining, balances);
    forall k | 0 <= k < |ps| ensures InOrder(side, x, ps[k].price) {
      assert DrawnFrom(side, ps[k], cs);
      var m :| 0 <= m < |cs| && FilledFrom(side, ps[k], cs[m]);
    }
  }

  /** Orders are emitted in candidate order, so over sorted candidates their
      prices run in the side's direction. */
  lemma {:induction false} ScanKeepsPriceOrder(side: Side, cs: seq<Candidate>, remaining: real, balances: seq<real>)
    requires Scannable(side, cs, |balances|)
    requires SortedBy(side, cs)
    ensures forall i, j :: 0 <= i < j < |Scan(side, cs, remaining, balances).planned| ==>
      InOrder(side, Scan(side, cs, remaining, balances).planned[i].price, Scan(side, cs, remaining, balances).planned[j].price)
  {
    if cs != [] {
      var c := cs[0];
      assert c in cs;
      assert forall d :: d in cs[1..] ==> d in cs;
      assert SortedBy(side, cs[1..]);
      var fill := Fillable(side, c, remaining, balances[c.exchange]);
      if fill <= 0.0 {
        ScanKeepsPriceOrder(side, cs[1..], remaining, balances);
      } else {
        var remaining' := remaining - fill;
        var balances' := Charge(side, balances, c, fill);
        var p := PlannedOrderOf(side, c, fill);
        if remaining' > 0.0 {
          var rest := Scan(side, cs[1..], remaining', balances').planned;
          ScanKeepsPriceOrder(side, cs[1..], remaining', balances');
          forall m | 0 <= m < |cs[1..]| ensures InOrder(side, c.price, cs[1..][m].price) {
            assert cs[1..][m] == cs[m + 1];
          }
          ScanStaysBehind(side, cs[1..], remaining', balances', c.price);
          var ps := [p] + rest;
          assert Scan(side, cs, remaining, balances).planned == ps;
          forall i, j | 0 <= i < j < |ps| ensures InOrder(side, ps[i].price, ps[j].price) {
            if i == 0 {
              assert ps[j] == rest[j - 1];
            } else {
              assert ps[i] == rest[i - 1] && ps[j] == rest[j - 1];
            }
          }
        }
      }
    }
  }

  /** The balance charged so far to the exchange with id `id`. */
  function Charged(side: Side, ps: seq<PlannedOrder>, id: string): real {
    if ps == [] then 0.0
    else (if ps[0].fulfilledByExchangeId == id then AmountToBalance(side, ps[0].amount, ps[0].price) else 0.0)
         + Charged(side, ps[1..], id)
  }

  /** Candidates name their exchange by an id that is unique to its position. */
  ghost predicate IdsMatch(cs: seq<Candidate>, ids: seq<string>) {
    && (forall c :: c in cs ==> c.exchange < |ids| && c.exchangeId == ids[c.exchange])
    && (forall i, j :: 0 <= i < j < |ids| ==> ids[i] != ids[j])
  }

  /** Each exchange's balance cell ends at its start value minus what the emitted
      orders of that exchange were charged. */
  lemma ChargedCons(side: Side, p: PlannedOrder, ps: seq<PlannedOrder>, id: string)
    ensures Charged(side, [p] + ps, id)
      == (if p.fulfilledByExchangeId == id then AmountToBalance(side, p.amount, p.price) else 0.0) + Charged(side, ps, id)
  {
    assert ([p] + ps)[1..] == ps;
  }

  lemma {:induction false} ScanCharges(side: Side, cs: seq<Candidate>, remaining: real, balances: seq<real>, ids: seq<string>)
    requires Scannable(side, cs, |balances|)
    requires |ids| == |balances| && IdsMatch(cs, ids)
    ensures |Scan(side, cs, remaining, balances).balances| == |balances|
    ensures forall i :: 0 <= i < |balances| ==>
      Scan(side, cs, remaining, balances).balances[i] == balances[i] - Charged(side, Scan(side, cs, remaining, balances).planned, ids[i])
  {
    if cs != [] {
      ScannableTail(side, cs, |balances|);
      var c := cs[0];
      assert c in cs;
      assert IdsMatch(cs[1..], ids);
      var fill := Fillable(side, c, remaining, balances[c.exchange]);
      if fill <= 0.0 {
        ScanCharges(side, cs[1..], remaining, balances, ids);
      } else {
        var balances' := Charge(side, balances, c, fill);
        var p := PlannedOrderOf(side, c, fill);
        var o := Scan(side, cs, remaining, balances);
        if remaining - fill > 0.0 {
          var rest := Scan(side, cs[1..], remaining - fill, balances');
          assert o.planned == [p] + rest.planned && o.balances == rest.balances;
          ScanCharges(side, cs[1..], remaining - fill, balances', ids);
          forall i | 0 <= i < |balances| ensures o.balances[i] == balances[i] - Charged(side, o.planned, ids[i]) {
            ChargedCons(side, p, rest.planned, ids[i]);
          }
        } else {
          assert o.planned == [p] + [] && o.balances == balances';
          forall i | 0 <= i < |balances| ensures o.balances[i] == balances[i] - Charged(side, o.planned, ids[i]) {
            ChargedCons(side, p, [], ids[i]);
          }
        }
      }
    }
  }

  /** Prices the balance lemmas rely on: positive when buying. */
  ghost predicate PositivePrices(side: Side, cs: seq<Candidate>) {
    forall c :: c in cs ==> side == Selling || c.price > 0.0
  }

  /** No balance cell is driven below zero. */
  lemma {:induction false} ScanKeepsBalancesNonNegative(side: Side, cs: seq<Candidate>, remaining: real, balances: seq<real>)
    requires Scannable(side, cs, |balances|)
    requires PositivePrices(side, cs)
    requires forall i :: 0 <= i < |balances| ==> balances[i] >= 0.0
    ensures var o := Scan(side, cs, remaining, balances);
      |o.balances| == |balances| && forall i :: 0 <= i < |balances| ==> o.balances[i] >= 0.0
  {
    if cs != [] {
      var c := cs[0];
      assert c in cs;
      assert forall d :: d in cs[1..] ==> d in cs;
      var fill := Fillable(side, c, remaining, balances[c.exchange]);
      if fill <= 0.0 {
        ScanKeepsBalancesNonNegative(side, cs[1..], remaining, balances);
      } else {
        var remaining' := remaining - fill;
        var balances' := Charge(side, balances, c, fill);
        if side == Buying {
          ConversionsAgree(side, fill, balances[c.exchange], c.price);
        }
        assert AmountToBalance(side, fill, c.price) <= balances[c.exchange];
        if remaining' > 0.0 {
          ScanKeepsBalancesNonNegative(side, cs[1..], remaining', balances');
        }
      }
    }
  }

  /** How much the candidates could supply against the balances if the request
      were unlimited: the combined liquidity the planner can reach. */
  function Capacity(side: Side, cs: seq<Candidate>, balances: seq<real>): real
    requires Scannable(side, cs, |balances|)
    decreases |cs|
  {
    if cs == [] then 0.0
    else
      var c := cs[0];
      assert c in cs;
      assert forall d :: d in cs[1..] ==> d in cs;
      var fill := Min(c.amount, BalanceToAmount(side, balances[c.exchange], c.price));
      if fill <= 0.0 then Capacity(side, cs[1..], balances)
      else fill + Capacity(side, cs[1..], Charge(side, balances, c, fill))
  }

  lemma {:induction false} CapacityNonNegative(side: Side, cs: seq<Candidate>, balances: seq<real>)
    requires Scannable(side, cs, |balances|)
    ensures Capacity(side, cs, balances) >= 0.0
  {
    if cs != [] {
      var c := cs[0];
      assert c in cs;
      assert forall d :: d in cs[1..] ==> d in cs;
      var fill := Min(c.amount, BalanceToAmount(side, balances[c.exchange], c.price));
      if fill <= 0.0 {
        CapacityNonNegative(side, cs[1..], balances);
      } else {
        CapacityNonNegative(side, cs[1..], Charge(side, balances, c, fill));
      }
    }
  }

  /** The scan ends with demand outstanding exactly when the reachable liquidity
      is less than the request. */
  lemma {:induction false} ScanFailsIffShort(side: Side, cs: seq<Candidate>, remaining: real, balances: seq<real>)
    requires Scannable(side, cs, |balances|)
    requires remaining > 0.0
    ensures Scan(side, cs, remaining, balances).remaining > 0.0 <==> Capacity(side, cs, balances) < remaining
  {
    if cs != [] {
      var c := cs[0];
      assert c in cs;
      assert forall d :: d in cs[1..] ==> d in cs;
      var b := BalanceToAmount(side, balances[c.exchange], c.price);
      var reach := Min(c.amount, b);
      var fill := Fillable(side, c, remaining, balances[c.exchange]);
      var balances' := Charge(side, balances, c, reach);
      if reach < remaining {
        assert fill == reach;
        if reach > 0.0 {
          ScanFailsIffShort(side, cs[1..], remaining - reach, balances');
        } else {
          ScanFailsIffShort(side, cs[1..], remaining, balances);
        }
      } else {
        assert fill == remaining;
        CapacityNonNegative(side, cs[1..], balances');
      }
    }
  }

  /** The orders `done` already emitted, followed by the outcome `o` of the rest of a scan. */
  function After(done: seq<PlannedOrder>, o: ScanOutcome): ScanOutcome {
    ScanOutcome(done + o.planned, o.remaining, o.balances)
  }

  lemma ScannableTail(side: Side, cs: seq<Candidate>, n: nat)
    requires cs != [] && Scannable(side, cs, n)
    ensures cs[0].exchange < n && Convertible(side, cs[0].price) && Scannable(side, cs[1..], n)
  {
    assert cs[0] in cs;
    assert forall d :: d in cs[1..] ==> d in cs;
  }

  /** The candidate at position `k` of a scannable suffix has a balance cell and
      a convertible price, and the suffix after it is scannable too. */
  lemma ScannableAt(side: Side, cs: seq<Candidate>, k: nat, n: nat)
    requires k < |cs| && Scannable(side, cs[k..], n)
    ensures cs[k].exchange < n && Convertible(side, cs[k].price) && Scannable(side, cs[k + 1..], n)
  {
    assert cs[k..][0] == cs[k] && cs[k..][1..] == cs[k + 1..];
    ScannableTail(side, cs[k..], n);
  }

  /** A candidate that yields nothing is passed over. */
  lemma SkipStep(side: Side, cs: seq<Candidate>, k: nat, remaining: real, balances: seq<real>, done: seq<PlannedOrder>)
    requires k < |cs| && Scannable(side, cs[k..], |balances|) && Scannable(side, cs[k + 1..], |balances|)
    requires cs[k].exchange < |balances| && Convertible(side, cs[k].price)
    requires Fillable(side, cs[k], remaining, balances[cs[k].exchange]) <= 0.0
    ensures After(done, Scan(side, cs[k..], remaining, balances)) == After(done, Scan(side, cs[k + 1..], remaining, balances))
  {
    assert cs[k..][0] == cs[k] && cs[k..][1..] == cs[k + 1..];
  }

  /** A candidate that completes the request is emitted and ends the scan. */
  lemma StopStep(side: Side, cs: seq<Candidate>, k: nat, remaining: real, balances: seq<real>, done: seq<PlannedOrder>, fill: real)
    requires k < |cs| && Scannable(side, cs[k..], |balances|) && Scannable(side, cs[k + 1..], |balances|)
    requires cs[k].exchange < |balances| && Convertible(side, cs[k].price)
    requires fill == Fillable(side, cs[k], remaining, balances[cs[k].exchange]) && fill > 0.0 && remaining - fill <= 0.0
    ensures After(done, Scan(side, cs[k..], remaining, balances))
      == ScanOutcome(done + [PlannedOrderOf(side, cs[k], fill)], remaining - fill, Charge(side, balances, cs[k], fill))
  {
    assert cs[k..][0] == cs[k] && cs[k..][1..] == cs[k + 1..];
  }

  /** Any other candidate is emitted, charged to its exchange, and the scan goes on. */
  lemma ContinueStep(side: Side, cs: seq<Candidate>, k: nat, remaining: real, balances: seq<real>, done: seq<PlannedOrder>, fill: real)
    requires k < |cs| && Scannable(side, cs[k..], |balances|) && Scannable(side, cs[k + 1..], |balances|)
    requires cs[k].exchange < |balances| && Convertible(side, cs[k].price)
    requires fill == Fillable(side, cs[k], remaining, balances[cs[k].exchange]) && fill > 0.0 && remaining - fill > 0.0
    ensures After(done, Scan(side, cs[k..], remaining, balances))
      == After(done + [PlannedOrderOf(side, cs[k], fill)], Scan(side, cs[k + 1..], remaining - fill, Charge(side, balances, cs[k], fill)))
  {
    assert cs[k..][0] == cs[k] && cs[k..][1..] == cs[k + 1..];
    var rest := Scan(side, cs[k + 1..], remaining - fill, Charge(side, balances, cs[k], fill));
    assert done + ([PlannedOrderOf(side, cs[k], fill)] + rest.planned) == done + [PlannedOrderOf(side, cs[k], fill)] + rest.planned;
  }

  /** `order.ExchangeState.Balance -= AmountToBalance(amount, price)`: charges one
      planned amount to the balance cell of the candidate's exchange. */
  method ChargeCell(side: Side, balances: array<real>, c: Candidate, amount: real)
    requires c.exchange < balances.Length
    modifies balances
    ensures balances[..] == Charge(side, old(balances[..]), c, amount)
  {
    balances[c.exchange] := balances[c.exchange] - AmountToBalance(side, amount, c.price);
  }

  /** The `foreach` loop over the sorted candidates. It updates the balance
      cells in place and buffers the planned orders; `remaining` is the request
      still outstanding when it stops. */
  method FillFromCandidates(side: Side, candidates: seq<Candidate>, amount: real, balances: array<real>)
    returns (planned: seq<PlannedOrder>, remaining: real)
    requires amount > 0.0 && Scannable(side, candidates, balances.Length)
    modifies balances
    ensures ScanOutcome(planned, remaining, balances[..]) == Scan(side, candidates, amount, old(balances[..]))
  {
    ghost var final := Scan(side, candidates, amount, balances[..]);
    remaining := amount;
    planned := [];
    assert candidates[0..] == candidates && [] + final.planned == final.planned;
    for k := 0 to |candidates|
      invariant remaining > 0.0
      invariant Scannable(side, candidates[k..], balances.Length)
      invariant After(planned, Scan(side, candidates[k..], remaining, balances[..])) == final
    {
      ScannableAt(side, candidates, k, balances.Length);
      var c := candidates[k];
      var fill := Fillable(side, c, remaining, balances[c.exchange]);
      if fill <= 0.0 {
        SkipStep(side, candidates, k, remaining, balances[..], planned);
        continue;
      }
      ghost var before, owed, done := balances[..], remaining, planned;
      var p := PlannedOrderOf(side, c, fill);
      remaining := remaining - fill;
      ChargeCell(side, balances, c, fill);
      planned := planned + [p];
      if remaining <= 0.0 {
        StopStep(side, candidates, k, owed, before, done, fill);
        break;
      }
      ContinueStep(side, candidates, k, owed, before, done, fill);
    }
    assert ScanOutcome(planned, remaining, balances[..]) == final;
  }

  /** `GetPlannedOrders`: fresh balance cells, the sorted candidates, the loop. */
  method GetPlannedOrders(side: Side, exchanges: seq<Exchange>, amount: real)
    returns (planned: seq<PlannedOrder>, remaining: real)
    requires amount > 0.0 && PricesConvertible(side, exchanges)
    ensures Scannable(side, PlanCandidates(side, exchanges), |exchanges|)
    ensures planned == Scan(side, PlanCandidates(side, exchanges), amount, InitialBalances(side, exchanges)).planned
    ensures remaining == Scan(side, PlanCandidates(side, exchanges), amount, InitialBalances(side, exchanges)).remaining
  {
    var candidates := PlanCandidates(side, exchanges);
    PlanCandidatesScannable(side, exchanges);
    var balances := new real[|exchanges|](i requires 0 <= i < |exchanges| => AvailableBalance(side, exchanges[i].funds));
    assert balances[..] == InitialBalances(side, exchanges);
    planned, remaining := FillFromCandidates(side, candidates, amount, balances);
  }

  /** The planner. The balance cells are a fresh array owned by this call, so
      the exchanges passed in are never changed; the orders are buffered, so a
      failing call returns no part of a plan. */
  method Plan(side: Side, exchanges: seq<Exchange>, amount: real) returns (r: PlanResult)
    requires amount > 0.0 ==> PricesConvertible(side, exchanges)
    ensures r == PlanFor(side, exchanges, amount)
    ensures r.InvalidArgument? <==> amount <= 0.0
    ensures r.Ok? ==> r.plan.TotalAmount() == amount
  {
    if amount <= 0.0 {
      return InvalidArgument;
    }
    var planned, remaining := GetPlannedOrders(side, exchanges, amount);
    if remaining > 0.0 {
      return InsufficientBalance;
    }
    r := Ok(OrderPlan(planned));
    PlanCandidatesScannable(side, exchanges);
    ScanAccounting(side, PlanCandidates(side, exchanges), amount, InitialBalances(side, exchanges));
  }
}
