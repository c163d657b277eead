/** The read-only records the planner consumes and produces: orders, order books,
    funds, exchanges, planned orders and the order plan with its derived totals.
    C# `decimal` is modelled as exact `real`; order ids (GUIDs) are opaque naturals. */
module Model {

  type OrderId = nat

  /** An order in an exchange's order book: crypto amount at a Euro unit price. */
  datatype Order = Order(id: OrderId, amount: real, price: real)

  datatype OrderBookEntry = OrderBookEntry(order: Order)

  datatype OrderBook = OrderBook(bids: seq<OrderBookEntry>, asks: seq<OrderBookEntry>)

  /** The user's holdings at one exchange. */
  datatype AvailableFunds = AvailableFunds(crypto: real, euro: real)

  datatype Exchange = Exchange(id: string, funds: AvailableFunds, book: OrderBook)

  datatype OrderType = Buy | Sell

  /** One partial fill of the user's request against one order book entry. */
  datatype PlannedOrder = PlannedOrder(
    fulfilledByExchangeId: string,
    fulfilledByOrderId: OrderId,
    orderType: OrderType,
    amount: real,
    price: real)

  /** The Euro value of one planned order. */
  function Value(p: PlannedOrder): real {
    p.price * p.amount
  }

  /** Sum of the amounts of a list of planned orders. */
  function SumAmounts(ps: seq<PlannedOrder>): real {
    if ps == [] then 0.0 else ps[0].amount + SumAmounts(ps[1..])
  }

  /** Sum of price * amount over a list of planned orders. */
  function SumValues(ps: seq<PlannedOrder>): real {
    if ps == [] then 0.0 else Value(ps[0]) + SumValues(ps[1..])
  }

  /** A plan; its totals are computed from the planned orders, never stored. */
  datatype OrderPlan = OrderPlan(plannedOrders: seq<PlannedOrder>) {

    /** The total Euro price of the planned orders. */
    function TotalPrice(): real {
      SumValues(plannedOrders)
    }

    /** The total crypto amount of the planned orders. */
    function TotalAmount(): real {
      SumAmounts(plannedOrders)
    }
  }

  /** An empty plan has both totals zero. */
  lemma EmptyPlanTotals()
    ensures OrderPlan([]).TotalAmount() == 0.0 && OrderPlan([]).TotalPrice() == 0.0
  {
  }

  /** Appending one planned order adds its amount to the total amount and its
      price * amount to the total price. */
  lemma {:induction false} AppendTotals(ps: seq<PlannedOrder>, p: PlannedOrder)
    ensures OrderPlan(ps + [p]).TotalAmount() == OrderPlan(ps).TotalAmount() + p.amount
    ensures OrderPlan(ps + [p]).TotalPrice() == OrderPlan(ps).TotalPrice() + p.price * p.amount
  {
    if ps == [] {
      assert ps + [p] == [p] && [p][1..] == [];
    } else {
      assert (ps + [p])[1..] == ps[1..] + [p];
      AppendTotals(ps[1..], p);
    }
  }

  /** The totals of a concatenation are the sums of the totals of its parts. */
  lemma {:induction false} ConcatTotals(ps: seq<PlannedOrder>, qs: seq<PlannedOrder>)
    ensures SumAmounts(ps + qs) == SumAmounts(ps) + SumAmounts(qs)
    ensures SumValues(ps + qs) == SumValues(ps) + SumValues(qs)
  {
    if ps == [] {
      assert ps + qs == qs;
    } else {
      assert (ps + qs)[1..] == ps[1..] + qs;
      ConcatTotals(ps[1..], qs);
    }
  }
}
