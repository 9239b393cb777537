/** The values that travel through the event queue (core/events.hpp). */
module Events {
  datatype Option<+T> = None | Some(value: T)

  datatype Side = Buy | Sell

  datatype OrderType = Limit | Market

  datatype Status = New | Partial | Filled | Cancelled | Rejected

  /** One market trade seen by the feed. */
  datatype Tick = Tick(price: real, quantity: real, buyerMaker: bool)

  datatype Order = Order(id: nat, strategy: nat, side: Side, kind: OrderType, price: real, quantity: real)

  datatype Report = Report(
    orderId: nat,
    strategy: nat,
    tradeId: nat,
    side: Side,
    lastPrice: real,
    lastQty: real,
    cumQty: real,
    leavesQty: real,
    status: Status)

  datatype Event =
    | MarketData(tick: Tick)
    | OrderRequest(order: Order)
    | ValidatedOrder(order: Order)
    | ExecutionReport(report: Report)
    | CancelOrder(id: nat)

  /** The quantity times `side_multiplier`, which is +1 for a buy and -1 for a sell. */
  function SignedQty(side: Side, qty: real): real {
    if side.Buy? then qty else -qty
  }

  function Abs(x: real): real {
    if x < 0.0 then -x else x
  }

  function Max(x: real, y: real): real {
    if x < y then y else x
  }

  function Min(x: real, y: real): real {
    if y < x then y else x
  }

  /** The reports that end an order's life in the order manager. */
  predicate Terminal(status: Status) {
    status.Filled? || status.Cancelled? || status.Rejected?
  }
}
