/** The two planners differ only in six hooks: the order type they tag, the
    balance they consume, the two conversions between that balance and a crypto
    amount, the book side they read and the direction they sort in. */
module SidePolicy {
  import opened Model

  /** Which planner is running: the buy planner or the sell planner. */
  datatype Side = Buying | Selling

  /** The tag every planned order of this side carries. */
  function OrderTypeOf(side: Side): OrderType {
    match side
    case Buying => Buy
    case Selling => Sell
  }

  /** The balance consumed at each exchange: Euro when buying, crypto when selling. */
  function AvailableBalance(side: Side, funds: AvailableFunds): real {
    match side
    case Buying => funds.euro
    case Selling => funds.crypto
  }

  /** A price the balance-to-amount conversion is defined at: buying divides by
      the price, which fails on a zero price. */
  predicate Convertible(side: Side, price: real) {
    side == Selling || price != 0.0
  }

  /** How much crypto a balance pays for (buying) or is (selling), at a price. */
  function BalanceToAmount(side: Side, balance: real, price: real): real
    requires Convertible(side, price)
  {
    match side
    case Buying => balance / price
    case Selling => balance
  }

  /** How much balance a crypto amount consumes at a price. */
  function AmountToBalance(side: Side, amount: real, price: real): real {
    match side
    case Buying => amount * price
    case Selling => amount
  }

  /** The order book side this planner fills against: asks when buying, bids when selling. */
  function OrderBookEntries(side: Side, book: OrderBook): seq<OrderBookEntry> {
    match side
    case Buying => book.asks
    case Selling => book.bids
  }

  /** The sort key order: `p` may come before `q` (ascending price when buying,
      descending when selling). */
  predicate InOrder(side: Side, p: real, q: real) {
    match side
    case Buying => p <= q
    case Selling => p >= q
  }

  /** The two conversions are inverse to each other at a positive price: an
      amount fits in a balance exactly when its cost does, and converting the
      balance's whole amount back costs the whole balance. */
  lemma ConversionsAgree(side: Side, amount: real, balance: real, price: real)
    requires price > 0.0
    ensures amount <= BalanceToAmount(side, balance, price) <==> AmountToBalance(side, amount, price) <= balance
    ensures AmountToBalance(side, BalanceToAmount(side, balance, price), price) == balance
  {
    if side == Buying {
      assert balance / price * price == balance;
      if amount <= balance / price {
        assert amount * price <= balance / price * price;
      }
      if amount * price <= balance {
        assert amount * price / price <= balance / price;
        assert amount * price / price == amount;
      }
    }
  }

  /** The sort order is a total preorder whose ties are exactly equal prices. */
  lemma InOrderTotalPreorder(side: Side, p: real, q: real, s: real)
    ensures InOrder(side, p, p)
    ensures InOrder(side, p, q) || InOrder(side, q, p)
    ensures InOrder(side, p, q) && InOrder(side, q, s) ==> InOrder(side, p, s)
    ensures InOrder(side, p, q) && InOrder(side, q, p) <==> p == q
  {
  }
}
