/** src/api/upbit/mappers/MyOrderMapper.h: one myOrder message becomes a trade, a snapshot, or both. */
module Messages {
  import opened Domain

  datatype WsState = Wait | Watch | Trade | Done | Cancel | Prevented | OtherState

  datatype WsOrderType = LimitType | BestType | PriceType | MarketType

  datatype MyOrderDto = MyOrderDto(
    uuid: Id, code: Id, isAsk: bool, orderType: WsOrderType, state: WsState,
    price: real, volume: real, tradeId: Option<Id>, tradeFee: Option<real>,
    executedVolume: real, remainingVolume: real, executedFunds: real, paidFee: real,
    identifier: Option<Id>)

  datatype OrderMessage = TradeMessage(trade: MyTrade) | SnapshotMessage(order: Order)

  function ToSide(d: MyOrderDto): Side {
    if d.isAsk then ASK else BID
  }

  function ToOrderType(d: MyOrderDto): OrderType {
    if d.orderType.LimitType? || d.orderType.BestType? then Limit else Market
  }

  function ToOrderStatus(state: WsState): OrderStatus {
    match state
    case Wait => Open
    case Watch => Pending
    case Trade => Open
    case Done => Filled
    case Cancel | Prevented => Canceled
    case OtherState => Rejected
  }

  predicate IsTrade(d: MyOrderDto) {
    d.state.Trade? && d.tradeId.Some?
  }

  function ToTrade(d: MyOrderDto): MyTrade
    requires IsTrade(d)
  {
    var funds := d.price * d.volume;
    MyTrade(d.uuid, d.tradeId.value, d.code, ToSide(d), d.price, d.volume, funds,
            if d.tradeFee.Some? then d.tradeFee.value else funds * DEFAULT_TRADE_FEE_RATE, d.identifier)
  }

  /** In the trade state price and volume describe the fill, so they stay out of the snapshot. */
  function ToSnapshot(d: MyOrderDto): Order {
    var limit, buy := ToOrderType(d).Limit?, ToSide(d).BID?;
    var quoted := !d.state.Trade?;
    Order(d.uuid, d.code, d.identifier, ToSide(d), ToOrderType(d),
          if quoted && limit then Some(d.price) else None,
          if quoted && (limit || !buy) then Some(d.volume) else None,
          if quoted && !limit && buy then Some(d.price) else None,
          d.executedVolume, d.remainingVolume, d.executedFunds, d.paidFee, ToOrderStatus(d.state))
  }

  function ToEvents(d: MyOrderDto): seq<OrderMessage> {
    (if IsTrade(d) then [TradeMessage(ToTrade(d))] else []) + [SnapshotMessage(ToSnapshot(d))]
  }

  // ---------- what a message says, by its own fields ----------

  predicate TellsFill(d: MyOrderDto) {
    d.state.Trade? && d.tradeId.Some?
  }

  predicate EndsOrder(d: MyOrderDto) {
    d.state.Done? || d.state.Cancel? || d.state.Prevented? || d.state.OtherState?
  }

  predicate OnSide(d: MyOrderDto, side: Side) {
    d.isAsk <==> side.ASK?
  }

  function MessageTotals(d: MyOrderDto): Cumulative {
    Cumulative(d.executedVolume, d.executedFunds, d.paidFee)
  }

  /** The fill's fee, or the default rate on its price times volume. */
  function FillFee(d: MyOrderDto): real {
    match d.tradeFee
    case Some(fee) => fee
    case None => 0.0005 * (d.price * d.volume)
  }

  /** What identifies the fill: its own id, or without one everything it says. */
  function FillKey(d: MyOrderDto): TradeKey
    requires TellsFill(d)
  {
    if d.tradeId != Some(NO_ID) then Uuid(d.tradeId.value)
    else Fallback(d.uuid, if d.isAsk then ASK else BID, d.code, d.price, d.volume, d.price * d.volume, FillFee(d),
                  match d.identifier case Some(id) => id case None => NO_ID)
  }

  /** The mapped trade carries the fill. */
  lemma TradeCarries(d: MyOrderDto)
    ensures IsTrade(d) <==> TellsFill(d)
    ensures TellsFill(d) ==>
              var t := ToTrade(d);
              && t.orderId == d.uuid && t.market == d.code && t.tradeId == d.tradeId.value && t.identifier == d.identifier
              && OnSide(d, t.side) && t.price == d.price && t.volume == d.volume
              && t.funds == d.price * d.volume && t.fee == FillFee(d)
  {
  }

  /** The mapped snapshot carries the totals, the side and whether the order has ended. */
  lemma SnapshotCarries(d: MyOrderDto)
    ensures
      var s := ToSnapshot(d);
      && s.id == d.uuid && s.market == d.code && s.identifier == d.identifier && OnSide(d, s.side)
      && Cumulative(s.executedVolume, s.executedFunds, s.paidFee) == MessageTotals(d)
      && s.remainingVolume == d.remainingVolume
      && (s.status.Terminal() <==> EndsOrder(d))
      && (s.status.Filled? <==> d.state.Done?) && (s.status.Rejected? <==> d.state.OtherState?)
  {
  }

  /** What it says of the request: a limit order's price and volume, a market sell's volume, a market buy's total; of a fill's, nothing. */
  lemma SnapshotQuotes(d: MyOrderDto)
    ensures
      var s := ToSnapshot(d);
      var limit := d.orderType.LimitType? || d.orderType.BestType?;
      && (s.otype.Limit? <==> limit)
      && if d.state.Trade? then s.price.None? && s.volume.None? && s.requestedAmount.None?
         else if limit then s.price == Some(d.price) && s.volume == Some(d.volume) && s.requestedAmount.None?
         else if d.isAsk then s.price.None? && s.volume == Some(d.volume) && s.requestedAmount.None?
         else s.price.None? && s.volume.None? && s.requestedAmount == Some(d.price)
  {
  }
}
