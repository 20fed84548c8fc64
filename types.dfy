/** Values exchanged with the dYdX exchange: market metadata, the order book,
    resting orders, positions, and the order actions the engine issues.
    Prices, sizes and equity are exact reals; the exchange's decimal strings
    are not modelled. */
module Types {

  datatype Option<+T> = None | Some(value: T)

  /** Order side as the exchange names it (ORDER_SIDE_BUY / ORDER_SIDE_SELL). */
  datatype Side = Buy | Sell

  /** ORDER_TYPE_LIMIT, or the literal 'MARKET' used by the stop-loss. */
  datatype OrderType = Limit | Market

  /** Time in force: the exchange default, or 'FOK' (fill-or-kill). */
  datatype TimeInForce = GoodTilTime | FillOrKill

  /** Position side strings as the exchange reports them. */
  const LONG: string := "LONG"
  const SHORT: string := "SHORT"
  /** POSITION_STATUS_OPEN. */
  const OPEN: string := "OPEN"

  /** One price level of the order book. */
  datatype Level = Level(price: real, size: real)

  /** The order book, both sides sorted best-first. */
  datatype OrderBook = OrderBook(bids: seq<Level>, asks: seq<Level>)

  /** A resting order as returned by the exchange's order query. */
  datatype Order = Order(id: string, side: Side, price: real, size: real)

  /** A position as returned by the exchange's position query. */
  datatype Position = Position(side: string, status: string, entryPrice: real, sumOpen: real)

  /** Market metadata; only the fields the engine reads. */
  datatype MarketInfo = MarketInfo(stepSize: real, tickSize: real, minOrderSize: real, indexPrice: real)

  /** The parameters of one create_order call. The expiration is kept as its
      offset from the current time in seconds (`ttl`); the position id and the
      clock are not modelled. */
  datatype OrderRequest = OrderRequest(
    market: string,
    side: Side,
    orderType: OrderType,
    postOnly: bool,
    size: real,
    price: real,
    limitFee: real,
    timeInForce: TimeInForce,
    ttl: int,
    cancelId: Option<string>)

  /** One call into the exchange's private client. */
  datatype Action = Cancel(orderId: string) | Create(request: OrderRequest)

  /** Fee limits and expirations the engine passes on every order. */
  const MakerFee: real := 0.0005
  const StopFee: real := 0.002
  const OneHour: int := 3600
  const ThirtyDays: int := 2592000

  /** The mid-market price, written as the source computes it:
      bid + (ask - bid) * .5 */
  function MidPrice(book: OrderBook): (m: real)
    requires |book.bids| > 0 && |book.asks| > 0
    ensures m == (book.bids[0].price + book.asks[0].price) / 2.0
    ensures book.bids[0].price <= book.asks[0].price ==>
              book.bids[0].price <= m <= book.asks[0].price
  {
    var bid := book.bids[0].price;
    var ask := book.asks[0].price;
    bid + (ask - bid) * 0.5
  }

  /** One Cancel per order, in the order given. */
  function Cancels(orders: seq<Order>): (r: seq<Action>)
    ensures |r| == |orders|
    ensures forall i :: 0 <= i < |orders| ==> r[i] == Cancel(orders[i].id)
  {
    if orders == [] then [] else Cancels(orders[..|orders| - 1]) + [Cancel(orders[|orders| - 1].id)]
  }

  predicate NoCancels(log: seq<Action>)
  {
    forall i :: 0 <= i < |log| ==> log[i].Create?
  }
}
