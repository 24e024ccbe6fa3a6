/**
  Records exchanged between the components of one market's worker.

  Money, volumes and prices are exact reals. Identifiers (markets, order uuids, trade uuids,
  client identifiers, candle timestamps) are opaque: only equality matters, and NO_ID stands
  for the empty string, which the program uses as "no order".
*/
module Domain {

  datatype Option<+T> = None | Some(value: T)

  type Id = int

  const NO_ID: Id := 0

  // Configuration, src/util/Config.h
  const MIN_NOTIONAL_KRW: real := 5000.0
  const RESERVE_MARGIN: real := 1.001
  const DEFAULT_TRADE_FEE_RATE: real := 0.0005
  const COIN_EPSILON: real := 0.00000001
  const KRW_DUST_THRESHOLD: real := 1.0
  const INIT_DUST_THRESHOLD_KRW: real := 5000.0
  const MAX_SEEN_TRADES: nat := 20000

  datatype Side = ASK | BID

  datatype OrderType = Market | Limit

  datatype OrderStatus = New | Open | Pending | Filled | Canceled | Rejected {
    predicate Terminal() {
      Filled? || Canceled? || Rejected?
    }
  }

  // The source's `None` is called NoEffect here.
  datatype PositionEffect = NoEffect | Opened | Reduced | Closed

  datatype OrderSize = VolumeSize(volume: real) | AmountSize(amount: real)

  datatype OrderRequest = OrderRequest(
    market: Id, side: Side, otype: OrderType, size: OrderSize, price: Option<real>, identifier: Id)

  // core::Order without the fields the settlement logic copies but never reads.
  datatype Order = Order(
    id: Id, market: Id, identifier: Option<Id>, side: Side, otype: OrderType,
    price: Option<real>, volume: Option<real>, requestedAmount: Option<real>,
    executedVolume: real, remainingVolume: real, executedFunds: real, paidFee: real,
    status: OrderStatus)

  datatype MyTrade = MyTrade(
    orderId: Id, tradeId: Id, market: Id, side: Side,
    price: real, volume: real, funds: real, fee: real, identifier: Option<Id>)

  /** What has been filled of an order so far. */
  datatype Cumulative = Cumulative(volume: real, funds: real, fee: real)

  datatype TradeKey =
    | Uuid(uuid: Id)
    | Fallback(orderId: Id, side: Side, market: Id, price: real, volume: real,
               funds: real, fee: real, identifier: Id)

  datatype EngineEvent =
    | FillEvent(identifier: Id, orderId: Id, key: TradeKey, side: Side, price: real, volume: real)
    | StatusEvent(identifier: Id, orderId: Id, status: OrderStatus, side: Side,
                  executedVolume: real, remainingVolume: real, executedFunds: real,
                  effect: PositionEffect)

  function Max(x: real, y: real): real {
    if x < y then y else x
  }

  lemma HasElement(s: set<Id>)
    ensures s == {} || exists x :: x in s
  {
    if forall x :: x !in s {
      assert s == {};
    }
  }

  /** True of an optional identifier the program would publish an event under. */
  predicate Named(identifier: Option<Id>) {
    identifier.Some? && identifier.value != NO_ID
  }

  lemma Regroup<T>(a: seq<T>, b: seq<T>, c: seq<T>)
    ensures a + (b + c) == (a + b) + c
  {
  }
}
