/**
  Settlement of one order. Balances move by two routes, the amounts of single trades and the
  differences of cumulative snapshots; whatever mix of the two arrives, what has been settled always
  equals the cumulative amounts the store holds, and at the end equals the terminal snapshot.
*/
module Settlement {
  import opened Domain
  import opened Account
  import opened OrderStore
  import opened TradeDedupe
  import opened Engine
  import opened Strategy
  import opened Messages
  import opened Lifecycle
  import opened Worker
  import opened Lockstep

  /** Totals of real fills: nothing negative, and whatever was filled was paid for. */
  predicate Proper(c: Cumulative) {
    c.volume >= 0.0 && c.funds >= 0.0 && c.fee >= 0.0 && (c.volume > 0.0 ==> c.funds > 0.0)
  }

  function CumulativeOf(o: Order): Cumulative {
    Cumulative(o.executedVolume, o.executedFunds, o.paidFee)
  }

  /** The KRW a buy order asks for. */
  function Notional(o: Order): real {
    if o.requestedAmount.Some? then o.requestedAmount.value
    else if o.price.Some? && o.volume.Some? then o.price.value * o.volume.value
    else 0.0
  }

  predicate HasSize(o: Order) {
    if o.side.BID? then o.requestedAmount.Some? || (o.price.Some? && o.volume.Some?) else o.volume.Some?
  }

  // ---------- what the exchange promises ----------

  /** A buy's cost, fees included, stays within its reservation; a sell's volume within what was asked for. */
  predicate WithinRequest(o: Order, c: Cumulative) {
    if o.side.BID? then c.funds + c.fee <= Notional(o) * RESERVE_MARGIN
    else o.volume.Some? && c.volume <= o.volume.value
  }

  /** A trade message carries one new fill and the totals after it, or repeats one whose totals are stored. */
  ghost predicate GoodFill(e: EngineState, o: Order, d: MyOrderDto)
    requires TellsFill(d)
  {
    var c := CumulativeOf(o);
    if FillKey(d) in e.dedupe.seen then MessageTotals(d) == c
    else
      && d.price > 0.0 && d.volume > 0.0 && FillFee(d) >= 0.0
      && (o.side.ASK? ==> FillFee(d) <= d.price * d.volume)
      && MessageTotals(d) == Cumulative(c.volume + d.volume, c.funds + d.price * d.volume, c.fee + FillFee(d))
      && WithinRequest(o, MessageTotals(d))
  }

  /**
    Looked-up or terminal totals never go back; with the volume unchanged nothing else changes;
    otherwise either the funds are not known yet, or all amounts are complete.
  */
  predicate GoodTotals(o: Order, c: Cumulative) {
    && c.volume >= o.executedVolume
    && if c.volume == o.executedVolume then c == CumulativeOf(o)
       else
         || c.funds <= o.executedFunds
         || (&& c.fee >= o.paidFee && WithinRequest(o, c)
             && (o.side.ASK? ==> c.fee - o.paidFee <= c.funds - o.executedFunds))
  }

  ghost predicate GoodMessage(e: EngineState, d: MyOrderDto) {
    && d.code == e.market
    && MessageOfOrder(e, d)
    && (d.uuid in e.orders ==>
          var o := e.orders[d.uuid];
          if TellsFill(d) then GoodFill(e, o, d)
          else if EndsOrder(d) then GoodTotals(o, MessageTotals(d))
          else MessageTotals(d) == CumulativeOf(o))
  }

  /** The mapped trade t and snapshot s bring one new fill and the totals after it, or repeat one. */
  ghost predicate GoodTrade(e: EngineState, o: Order, t: MyTrade, s: Order) {
    var c := CumulativeOf(o);
    if Key(t) in e.dedupe.seen then CumulativeOf(s) == c
    else
      && t.price > 0.0 && t.volume > 0.0 && t.fee >= 0.0 && t.funds == t.price * t.volume
      && (o.side.ASK? ==> t.fee <= t.funds)
      && CumulativeOf(s) == Cumulative(c.volume + t.volume, c.funds + t.funds, c.fee + t.fee)
      && WithinRequest(o, CumulativeOf(s))
  }

  lemma KeyOfFill(d: MyOrderDto)
    requires TellsFill(d)
    ensures IsTrade(d) && Key(ToTrade(d)) == FillKey(d)
  {
    TradeCarries(d);
  }

  /** What the mapped trade and snapshot of a good message are. */
  lemma GoodMessageMapped(e: EngineState, d: MyOrderDto)
    requires GoodMessage(e, d)
    ensures
      var s := ToSnapshot(d);
      && s.id == d.uuid && s.market == e.market && SameOrder(e, s) && CumulativeOf(s) == MessageTotals(d)
      && (s.status.Terminal() <==> EndsOrder(d)) && (IsTrade(d) <==> TellsFill(d))
      && (d.uuid in e.orders ==>
            if IsTrade(d) then GoodTrade(e, e.orders[d.uuid], ToTrade(d), s)
            else if s.status.Terminal() then GoodTotals(e.orders[d.uuid], CumulativeOf(s))
            else CumulativeOf(s) == CumulativeOf(e.orders[d.uuid]))
  {
    hide ToSnapshot, ToTrade, IsTrade, WithinRequest, Key;
    SnapshotCarries(d);
    TradeCarries(d);
    MessageNamesOrder(e, d);
    if TellsFill(d) {
      KeyOfFill(d);
    }
  }

  ghost predicate GoodReply(e: EngineState, reply: Option<Order>) {
    reply.Some? ==>
      && SameOrder(e, reply.value)
      && (reply.value.market == NO_ID || reply.value.market == e.market)
      && (reply.value.id in e.orders ==> GoodTotals(e.orders[reply.value.id], CumulativeOf(reply.value)))
  }

  ghost predicate GoodReplies(e: EngineState, buy: Option<Order>, sell: Option<Order>) {
    && (e.buyId != NO_ID ==> GoodReply(e, buy))
    && (e.sellId != NO_ID ==> GoodReply(e, sell))
  }

  /** The full contract with the exchange, on top of Routed. */
  ghost predicate Good(w: WorkerState, step: Step) {
    && Routed(w, step)
    && match step
       case OrderStep(d) => GoodMessage(w.engine, d)
       case RecoverStep(buy, sell) => GoodReplies(w.engine, buy, sell)
       case TimeoutStep(now, timeout, buy, sell) => Fires(w, now, timeout) ==> GoodReplies(w.engine, buy, sell)
       case _ => true
  }

  // ---------- settled so far ----------

  /** What the market's coin cost, by its average entry price. */
  function Basis(b: Budget): real {
    b.coin * b.avgEntry
  }

  /** Order `id` was posted when the budget was `base`; since then the books have moved by exactly `c`. */
  ghost predicate Booked(base: Budget, e: EngineState, id: Id, c: Cumulative) {
    && IsActive(e, id) && id in e.orders
    && base.coin >= 0.0 && Proper(c) && HasSize(e.orders[id])
    && if e.orders[id].side.BID? then
         && e.token == Some(Token(Notional(e.orders[id]) * RESERVE_MARGIN, c.funds + c.fee))
         && e.budget.available == base.available - Notional(e.orders[id]) * RESERVE_MARGIN
         && e.budget.coin == base.coin + c.volume
         && Basis(e.budget) == Basis(base) + c.funds
       else
         && e.budget.available == base.available + c.funds - c.fee
         && e.budget.coin == base.coin - c.volume
         && e.budget.avgEntry == base.avgEntry
  }

  /** Booked, and within what the order asked for; a sell asked for no more than was there. */
  ghost predicate SettledAt(base: Budget, e: EngineState, id: Id, c: Cumulative) {
    && Booked(base, e, id, c) && WithinRequest(e.orders[id], c)
    && (e.orders[id].side.ASK? ==> e.orders[id].volume.value <= base.coin)
  }

  ghost predicate Settled(base: Budget, e: EngineState, id: Id) {
    id in e.orders && SettledAt(base, e, id, CumulativeOf(e.orders[id]))
  }

  /**
    The order is closed: KRW and coin moved by exactly c since `base`. A sell may have swept
    a remainder below 1e-8 coin or, at the mark price if there is one, below 5000 KRW.
  */
  predicate ClosedOn(base: Budget, b: Budget, side: Side, c: Cumulative, mark: real) {
    && Proper(c) && b.reserved == 0.0 && b.coin >= 0.0
    && if side.BID? then
         && b.available == base.available - (c.funds + c.fee)
         && b.coin == base.coin + c.volume
         && Basis(b) == Basis(base) + c.funds
       else
         && b.available == base.available + (c.funds - c.fee)
         && var rest := base.coin - c.volume;
            if rest < 0.00000001 || (mark > 0.0 && rest * mark < 5000.0)
            then b.coin == 0.0 && b.avgEntry == 0.0
            else b.coin == rest && b.avgEntry == base.avgEntry
  }

  /** The totals decide the balances: two histories that close an order on the same totals leave the same books. */
  lemma ClosedIsDetermined(base: Budget, b: Budget, b': Budget, side: Side, c: Cumulative, mark: real, mark': real)
    requires ClosedOn(base, b, side, c, mark) && ClosedOn(base, b', side, c, mark')
    requires mark > 0.0 || mark' > 0.0 ==> mark' == mark
    ensures b'.available == b.available && b'.reserved == b.reserved && b'.coin == b.coin
    ensures b.coin > 0.0 ==> b'.avgEntry == b.avgEntry
  {
    if side.BID? && b.coin > 0.0 {
      SameFactor(b.coin, b.avgEntry, b'.avgEntry);
    }
  }

  lemma SameFactor(x: real, y: real, z: real)
    requires x > 0.0 && x * y == x * z
    ensures y == z
  {
    assert x * (y - z) == 0.0;
  }

  // ---------- the steps of one order ----------

  lemma SubmitStartsSettled(e: EngineState, req: OrderRequest, id: Id)
    requires Inv(e) && FreshReply(e, Some(id)) && e.budget.coin >= 0.0
    requires req.side.ASK? && req.size.VolumeSize? ==> req.size.volume <= e.budget.coin
    requires SubmitStep(e, req, Some(id)).1.Accepted?
    ensures Settled(e.budget, SubmitStep(e, req, Some(id)).0, id)
  {
  }

  /** One settled buy fill: the coin's cost basis grows by volume times price. */
  lemma BuyFillAddsCost(b: Budget, k: Token, krw: real, volume: real, price: real)
    requires 0.0 < krw <= k.Remaining() && volume > 0.0 && price > 0.0 && b.coin >= 0.0
    requires b.reserved == k.Remaining()
    ensures
      var (b', k') := BuyFilled(b, k, krw, volume, price);
      && k' == k.(consumed := k.consumed + krw)
      && b'.available == b.available && b'.coin == b.coin + volume
      && Basis(b') == Basis(b) + volume * price
  {
    var balance := b.coin + volume;
    var total := b.coin * b.avgEntry + volume * price;
    assert total / balance * balance == total;
  }

  /** Fills within the requested amount and fees up to 0.1% are within the reservation. */
  lemma FundsFitReservation(o: Order, c: Cumulative)
    requires o.side.BID? && c.funds <= Notional(o) && c.fee <= (RESERVE_MARGIN - 1.0) * c.funds
    ensures WithinRequest(o, c)
  {
  }

  /** The over-reservation clamp never fires: every fill within the request fits what is left of the reservation. */
  lemma ReservationCoversFill(base: Budget, e: EngineState, id: Id, c: Cumulative)
    requires Settled(base, e, id) && e.orders[id].side.BID? && WithinRequest(e.orders[id], c)
    ensures
      var o := e.orders[id];
      (c.funds - o.executedFunds) + (c.fee - o.paidFee) <= e.token.value.Remaining()
  {
  }

  lemma TradeSettles(base: Budget, e: EngineState, t: MyTrade, s: Order)
    requires Inv(e) && Settled(base, e, t.orderId)
    requires t.market == e.market && t.side == e.orders[t.orderId].side
    requires GoodTrade(e, e.orders[t.orderId], t, s)
    ensures SettledAt(base, TradeStep(e, t), t.orderId, CumulativeOf(s))
    ensures TradeStep(e, t).orders == e.orders && TradeStep(e, t).mark == e.mark
  {
    hide BuyFilled, Basis, Mark, Key, WithinRequest, TradeEvents, Notional;
    if Key(t) !in e.dedupe.seen && e.orders[t.orderId].side.BID? {
      ReservationCoversFill(base, e, t.orderId, CumulativeOf(s));
      assert t.funds > 0.0;
      BuyFillAddsCost(e.budget, e.token.value, t.funds + t.fee, t.volume, t.price);
    }
  }

  lemma DeltaSettles(base: Budget, e: EngineState, s: Order)
    requires Inv(e) && Settled(base, e, s.id) && SameOrder(e, s)
    requires GoodTotals(e.orders[s.id], CumulativeOf(s))
    ensures
      match SettleDelta(e, s, e.orders[s.id])
      case None => s.executedVolume > e.orders[s.id].executedVolume && s.executedFunds <= e.orders[s.id].executedFunds
      case Some(e') =>
        && SettledAt(base, e', s.id, CumulativeOf(s))
        && e' == e.(budget := e'.budget, token := e'.token)
  {
    hide BuyFilled, Basis, WithinRequest, Notional;
    var o := e.orders[s.id];
    var volume, funds, fee := s.executedVolume - o.executedVolume, s.executedFunds - o.executedFunds, s.paidFee - o.paidFee;
    if volume > 0.0 && funds > 0.0 && o.side.BID? {
      PriceTimesVolume(funds, volume);
      ReservationCoversFill(base, e, s.id, CumulativeOf(s));
      BuyFillAddsCost(e.budget, e.token.value, funds + fee, volume, funds / volume);
    }
  }

  lemma PriceTimesVolume(funds: real, volume: real)
    requires funds > 0.0 && volume > 0.0
    ensures funds / volume > 0.0 && volume * (funds / volume) == funds
  {
  }

  /** Applying a snapshot whose totals are already settled keeps the order settled, or closes it. */
  lemma SnapshotSettles(base: Budget, e: EngineState, s: Order)
    requires Inv(e) && s.id in e.orders && SettledAt(base, e, s.id, CumulativeOf(s)) && SameOrder(e, s)
    requires s.market == NO_ID || s.market == e.market
    ensures
      var e' := SnapshotStep(e, s);
      if s.status.Terminal()
      then s.id !in e'.orders && ClosedOn(base, e'.budget, s.side, CumulativeOf(s), e.mark)
      else Settled(base, e', s.id)
  {
    hide SnapshotStep, Inv, SettledAt, Settled, ClosedOn, CumulativeOf;
    if !s.status.Terminal() {
      OpenSnapshotSettles(base, e, s);
    } else if s.side.BID? {
      TerminalBuyCloses(base, e, s);
    } else {
      TerminalSellCloses(base, e, s);
    }
  }

  lemma MergedKeepsRequest(o: Order, s: Order, c: Cumulative)
    requires HasSize(o) && s.side == o.side
    ensures
      var m := Merged(o, s);
      && m.id == o.id && m.side == o.side && m.status == s.status && CumulativeOf(m) == CumulativeOf(s)
      && HasSize(m) && WithinRequest(m, c) == WithinRequest(o, c)
      && if o.side.BID? then Notional(m) == Notional(o) else m.volume == o.volume
  {
  }

  lemma OpenSnapshotSettles(base: Budget, e: EngineState, s: Order)
    requires Inv(e) && s.id in e.orders && SettledAt(base, e, s.id, CumulativeOf(s)) && SameOrder(e, s)
    requires s.market == NO_ID || s.market == e.market
    requires !s.status.Terminal()
    ensures Settled(base, SnapshotStep(e, s), s.id)
  {
    MergedKeepsRequest(e.orders[s.id], s, CumulativeOf(s));
    hide Merged, HasSize, Notional, WithinRequest, CumulativeOf, Proper, Basis;
    assert SnapshotStep(e, s) == e.(orders := e.orders[s.id := Merged(e.orders[s.id], s)]);
  }

  /** Applied to a terminal snapshot of an open order: the order leaves the store, its token or position is settled. */
  lemma TerminalSnapshotUnfolds(e: EngineState, s: Order)
    requires Inv(e) && s.id in e.orders && IsActive(e, s.id) && SameOrder(e, s) && s.status.Terminal()
    requires s.market == NO_ID || s.market == e.market
    ensures
      var e' := SnapshotStep(e, s);
      && s.id !in e'.orders
      && (s.side.BID? ==> e.token.Some? && e'.budget == OrderFinalized(e.budget, e.token.value))
      && (s.side.ASK? ==> e'.budget == SellFinalized(e.budget, MarkPrice(e)))
  {
    hide OrderFinalized, SellFinalized, StatusEvents, Consistent, ReservationBacked;
  }

  lemma TerminalBuyCloses(base: Budget, e: EngineState, s: Order)
    requires Inv(e) && s.id in e.orders && SettledAt(base, e, s.id, CumulativeOf(s)) && SameOrder(e, s)
    requires s.market == NO_ID || s.market == e.market
    requires s.status.Terminal() && s.side.BID?
    ensures
      var e' := SnapshotStep(e, s);
      s.id !in e'.orders && ClosedOn(base, e'.budget, s.side, CumulativeOf(s), e.mark)
  {
    TerminalSnapshotUnfolds(e, s);
    FinalizeReturnsRemainder(e);
    hide SnapshotStep, StoreMatchesActive, Consistent, WithinRequest, Notional, CumulativeOf, OrderFinalized, HasSize;
  }

  lemma TerminalSellCloses(base: Budget, e: EngineState, s: Order)
    requires Inv(e) && s.id in e.orders && SettledAt(base, e, s.id, CumulativeOf(s)) && SameOrder(e, s)
    requires s.market == NO_ID || s.market == e.market
    requires s.status.Terminal() && s.side.ASK?
    ensures
      var e' := SnapshotStep(e, s);
      s.id !in e'.orders && ClosedOn(base, e'.budget, s.side, CumulativeOf(s), e.mark)
  {
    TerminalSnapshotUnfolds(e, s);
    hide SnapshotStep, Consistent, Notional, CumulativeOf;
  }

  lemma ReconcileSettles(base: Budget, e: EngineState, s: Order)
    requires Inv(e) && Settled(base, e, s.id) && SameOrder(e, s)
    requires s.market == NO_ID || s.market == e.market
    requires GoodTotals(e.orders[s.id], CumulativeOf(s))
    ensures
      var (e', ok) := ReconcileStep(e, s);
      if !ok then e' == e
      else if s.status.Terminal()
      then s.id !in e'.orders && ClosedOn(base, e'.budget, s.side, CumulativeOf(s), e.mark)
      else Settled(base, e', s.id)
  {
    hide SnapshotStep, SettleDelta;
    DeltaSettles(base, e, s);
    var delta := SettleDelta(e, s, e.orders[s.id]);
    if delta.Some? {
      DeltaKeepsInv(e, s, e.orders[s.id]);
      SnapshotSettles(base, delta.value, s);
    }
  }

  lemma SettledIsActive(base: Budget, e: EngineState, id: Id)
    requires Settled(base, e, id)
    ensures IsActive(e, id) && IsPending(e)
  {
  }

  // ---------- whole worker steps ----------

  /** Replaying a snapshot changes nothing: not the books, not the store, not the events. */
  lemma ReplayChangesNothing(e: EngineState, s: Order)
    requires KeyedById(e.orders)
    ensures
      var (e', ok) := ReconcileStep(e, s);
      ReconcileStep(e', s) == (e', ok && !s.status.Terminal())
  {
    hide BuyFilled, SellFilled, OrderFinalized, SellFinalized;
    var (e', ok) := ReconcileStep(e, s);
    if ok && !s.status.Terminal() {
      assert e'.orders[s.id := Merged(e'.orders[s.id], s)] == e'.orders;
    }
  }

  /** What a message or a lookup says about an order. */
  datatype Report = Report(id: Id, totals: Cumulative, ended: bool)

  function ReportOf(s: Option<Order>): Option<Report> {
    if s.None? then None else Some(Report(s.value.id, CumulativeOf(s.value), s.value.status.Terminal()))
  }

  function MessageReport(d: MyOrderDto): Option<Report> {
    Some(Report(d.uuid, MessageTotals(d), EndsOrder(d)))
  }

  /** Settled on, or closed on exactly the totals of the report r that ends the order. */
  ghost predicate SettledOrClosed(base: Budget, e: EngineState, e': EngineState, r: Option<Report>, id: Id) {
    if id in e'.orders then Settled(base, e', id)
    else
      && r.Some? && r.value.id == id && r.value.ended && id in e.orders
      && ClosedOn(base, e'.budget, e.orders[id].side, r.value.totals, e.mark)
  }

  /** A message about an order that is not active changes nothing but the trade window. */
  lemma ForeignMessageIgnored(w: WorkerState, d: MyOrderDto)
    requires WorkerInv(w) && GoodMessage(w.engine, d) && !IsActive(w.engine, d.uuid)
    ensures
      var e' := HandleMyOrder(w, d).engine;
      e' == w.engine.(dedupe := e'.dedupe)
  {
    HandleMyOrderUnfolds(w, d);
    GoodMessageMapped(w.engine, d);
    assert d.uuid !in w.engine.orders;
  }

  lemma TradeMessageSettles(base: Budget, e: EngineState, t: MyTrade, s: Order)
    requires Inv(e) && Settled(base, e, s.id) && SameOrder(e, s) && GoodTrade(e, e.orders[s.id], t, s)
    requires t.orderId == s.id && t.market == s.market == e.market && t.side == s.side && !s.status.Terminal()
    ensures Settled(base, SnapshotStep(TradeStep(e, t), s), s.id)
  {
    hide TradeStep, SnapshotStep;
    TradeSettles(base, e, t, s);
    TradeKeepsInv(e, t);
    TradeKeepsMarket(e, t);
    SnapshotSettles(base, TradeStep(e, t), s);
  }

  lemma OrderSettles(base: Budget, w: WorkerState, d: MyOrderDto, id: Id)
    requires WorkerInv(w) && Settled(base, w.engine, id) && GoodMessage(w.engine, d)
    ensures SettledOrClosed(base, w.engine, HandleMyOrder(w, d).engine, MessageReport(d), id)
  {
    hide HandleMyOrder, TradeStep, SnapshotStep, ReconcileStep, SettledAt, ClosedOn, GoodTrade, GoodTotals;
    hide ToSnapshot, ToTrade, IsTrade, GoodMessage, CumulativeOf;
    GoodMessageMapped(w.engine, d);
    var s := ToSnapshot(d);
    if d.uuid != id {
      SettledIsActive(base, w.engine, id);
      ForeignMessageIgnored(w, d);
      SettledIgnoresWindow(base, w.engine, HandleMyOrder(w, d).engine, id);
    } else {
      HandleMyOrderUnfolds(w, d);
      if IsTrade(d) {
        TradeCarries(d);
        SnapshotCarries(d);
        TradeMessageSettles(base, w.engine, ToTrade(d), s);
      } else if s.status.Terminal() {
        ReconcileSettles(base, w.engine, s);
      } else {
        SnapshotSettles(base, w.engine, s);
      }
    }
  }

  lemma SettledIgnoresWindow(base: Budget, e: EngineState, e': EngineState, id: Id)
    requires Settled(base, e, id) && e' == e.(dedupe := e'.dedupe, mark := e'.mark, events := e'.events)
    ensures Settled(base, e', id)
  {
  }

  lemma LookupSettles(base: Budget, e: EngineState, activeId: Id, reply: Option<Order>, id: Id)
    requires Inv(e) && Settled(base, e, id) && GoodReply(e, reply)
    ensures SettledOrClosed(base, e, Reconciled(e, activeId, reply), ReportOf(reply), id)
  {
    hide SettledAt, ClosedOn, GoodTotals, SnapshotStep, SettleDelta;
    if activeId != NO_ID && reply.Some? {
      if reply.value.id == id {
        ReconcileSettles(base, e, reply.value);
      } else {
        SettledIsActive(base, e, id);
        OnlyOneActive(e, id, reply.value.id);
        assert reply.value.id !in e.orders;
      }
    }
  }

  lemma OnlyOneActive(e: EngineState, id: Id, other: Id)
    requires Inv(e) && IsActive(e, id) && other != id
    ensures other in e.orders ==> e.orders[other].market != e.market
  {
  }

  /** The reply that recovery uses: at most one order is active, so one lookup counts. */
  function UsedReply(e: EngineState, buy: Option<Order>, sell: Option<Order>): Option<Order> {
    if e.buyId != NO_ID then buy else sell
  }

  lemma RecoverySettles(base: Budget, w: WorkerState, buy: Option<Order>, sell: Option<Order>, id: Id)
    requires WorkerInv(w) && Settled(base, w.engine, id) && GoodReplies(w.engine, buy, sell)
    ensures SettledOrClosed(base, w.engine, RunRecovery(w, buy, sell).engine,
                            ReportOf(UsedReply(w.engine, buy, sell)), id)
  {
    hide SettledAt, ClosedOn, ReconcileStep;
    if w.engine.buyId != NO_ID {
      LookupSettles(base, w.engine, w.engine.buyId, buy, id);
    } else {
      SettledIsActive(base, w.engine, id);
      LookupSettles(base, w.engine, w.engine.sellId, sell, id);
    }
  }

  lemma PhaseOfPending(w: WorkerState)
    requires WorkerInv(w) && IsPending(w.engine)
    ensures w.strategy.phase.PendingEntry? || w.strategy.phase.PendingExit?
  {
  }

  lemma IndicatorsKeepPhase(s: StrategyState, c: Candle)
    ensures BuildSnapshot(s, c).0.phase == s.phase
  {
  }

  lemma PendingStrategyWaits(s: StrategyState, c: Candle, a: AccountSnapshot, cid: Id)
    requires s.phase.PendingEntry? || s.phase.PendingExit?
    ensures OnCandle(s, c, a, cid).1.None? && OnCandle(s, c, a, cid).0.phase == s.phase
  {
    hide BuildSnapshot;
    IndicatorsKeepPhase(s.(lastTs := Some(c.ts)), c);
  }

  lemma PendingConfirmMarks(w: WorkerState, c: Candle, cid: Id, reply: Option<Id>)
    requires w.strategy.phase.PendingEntry? || w.strategy.phase.PendingExit?
    ensures
      var w' := ConfirmCandle(w, c, cid, reply);
      && w'.engine == w.engine.(mark := c.close) && w'.strategy.phase == w.strategy.phase
  {
    hide OnCandle;
    var w1 := w.(engine := w.engine.(mark := c.close));
    PendingStrategyWaits(w1.strategy, c, AccountOf(w1), cid);
  }

  lemma BlockedCheckMarks(w: WorkerState, close: real, cid: Id, reply: Option<Id>)
    requires !w.strategy.phase.InPosition?
    ensures IntrabarCheck(w, close, cid, reply) == w.(engine := w.engine.(mark := close))
  {
  }

  /** While an order is pending, candles change no balance, order or token: nothing is submitted. */
  lemma CandleLeavesPendingOrder(w: WorkerState, c: Candle, o: Outside)
    requires WorkerInv(w) && IsPending(w.engine)
    ensures
      var e' := HandleMarketData(w, c, o).engine;
      e' == w.engine.(mark := e'.mark)
  {
    hide WorkerInv, ConfirmCandle, IntrabarCheck;
    PhaseOfPending(w);
    var w1 := w.(pendingCandle := Some(c));
    if w.pendingCandle.None? || w.pendingCandle.value.ts == c.ts {
      BlockedCheckMarks(w1, c.close, o.intrabarCid, o.intrabarReply);
    } else {
      PendingConfirmMarks(w1, w.pendingCandle.value, o.cid, o.reply);
      BlockedCheckMarks(ConfirmCandle(w1, w.pendingCandle.value, o.cid, o.reply), c.close, o.intrabarCid, o.intrabarReply);
    }
  }

  /** What a step says about an order. */
  function Reported(w: WorkerState, step: Step): Option<Report> {
    match step
    case OrderStep(d) => MessageReport(d)
    case RecoverStep(buy, sell) => ReportOf(UsedReply(w.engine, buy, sell))
    case TimeoutStep(now, timeout, buy, sell) =>
      if Fires(w, now, timeout) then ReportOf(UsedReply(w.engine, buy, sell)) else None
    case _ => None
  }

  lemma StepSettles(base: Budget, w: WorkerState, step: Step, id: Id)
    requires WorkerInv(w) && Settled(base, w.engine, id) && Good(w, step)
    ensures SettledOrClosed(base, w.engine, Next(w, step).engine, Reported(w, step), id)
  {
    hide HandleMyOrder, HandleMarketData, RunRecovery, SettledAt, ClosedOn;
    match step {
      case OrderStep(d) =>
        OrderSettles(base, w, d, id);
      case CandleStep(c, o) =>
        SettledIsActive(base, w.engine, id);
        CandleLeavesPendingOrder(w, c, o);
        SettledIgnoresWindow(base, w.engine, Next(w, step).engine, id);
      case RecoverStep(buy, sell) =>
        RecoverySettles(base, w.(recoveryRequested := false), buy, sell, id);
      case TimeoutStep(now, timeout, buy, sell) =>
        if Fires(w, now, timeout) {
          RecoverySettles(base, Tracked(w, now).(timeoutFired := true), buy, sell, id);
        }
      case PollStep =>
        SettledIgnoresWindow(base, w.engine, Next(w, step).engine, id);
    }
  }

  // ---------- whole runs ----------

  ghost predicate GoodRun(w: WorkerState, steps: seq<Step>) {
    steps == [] || (GoodRun(w, steps[..|steps| - 1]) && Good(Run(w, steps[..|steps| - 1]), steps[|steps| - 1]))
  }

  lemma {:induction false} GoodRunIsRouted(w: WorkerState, steps: seq<Step>)
    requires GoodRun(w, steps)
    ensures RoutedRun(w, steps)
  {
    if steps != [] {
      GoodRunIsRouted(w, steps[..|steps| - 1]);
    }
  }

  /** The order is in the store after every proper prefix of the run. */
  ghost predicate OpenThroughout(w: WorkerState, steps: seq<Step>, id: Id) {
    forall k :: 0 <= k < |steps| ==> id in Run(w, steps[..k]).engine.orders
  }

  /**
    Path independence, over every run of good steps. As long as the order is open, the balances
    are a function of the cumulative totals in the store; the step that closes it leaves the balances
    that the totals of its terminal snapshot prescribe, whatever trades, repeats, partial, refused or
    lost messages, candles and polls came before.
  */
  lemma {:induction false} RunSettlesOrder(base: Budget, w: WorkerState, steps: seq<Step>, id: Id)
    requires WorkerInv(w) && Settled(base, w.engine, id) && GoodRun(w, steps) && OpenThroughout(w, steps, id)
    ensures
      var e' := Run(w, steps).engine;
      if id in e'.orders then Settled(base, e', id)
      else
        var last := steps[|steps| - 1];
        var before := Run(w, steps[..|steps| - 1]);
        && Reported(before, last).Some? && Reported(before, last).value.ended
        && ClosedOn(base, e'.budget, before.engine.orders[id].side, Reported(before, last).value.totals,
                    before.engine.mark)
  {
    if steps != [] {
      var prefix := steps[..|steps| - 1];
      forall k | 0 <= k < |prefix|
        ensures id in Run(w, prefix[..k]).engine.orders
      {
        assert prefix[..k] == steps[..k];
      }
      RunSettlesOrder(base, w, prefix, id);
      assert id in Run(w, prefix).engine.orders;
      GoodRunIsRouted(w, prefix);
      RunKeepsInStep(w, prefix);
      StepSettles(base, Run(w, prefix), steps[|steps| - 1], id);
    }
  }
}
