/**
  What the settlement theorems ask of the exchange is needed: each condition on a message is equivalent
  to the books staying settled, and an order whose id or side goes wrong blocks its engine for good.
*/
module Hypotheses {
  import opened Domain
  import opened Account
  import opened OrderStore
  import opened TradeDedupe
  import opened Engine
  import opened Strategy
  import opened Messages
  import opened Lifecycle
  import opened Worker
  import opened Lockstep
  import opened Settlement

  /** The totals after a trade message, if it is a new fill and the next one. */
  function TotalsAfter(e: EngineState, c: Cumulative, t: MyTrade): Cumulative {
    if Key(t) in e.dedupe.seen then c else Cumulative(c.volume + t.volume, c.funds + t.funds, c.fee + t.fee)
  }

  predicate ProperTrade(t: MyTrade) {
    && t.price > 0.0 && t.volume > 0.0 && t.fee >= 0.0 && t.funds == t.price * t.volume
    && (t.side.ASK? ==> t.fee <= t.funds)
  }

  /** Totals that move the books alike: of a sell only the proceeds less the fee can be told. */
  predicate SameEffect(side: Side, c: Cumulative, c': Cumulative) {
    c'.volume == c.volume && if side.BID? then c' == c else c'.funds - c'.fee == c.funds - c.fee
  }

  /** The message's totals are the stored ones plus this fill, and stay within the request. */
  lemma TradeNeedsNextTotals(base: Budget, e: EngineState, t: MyTrade, s: Order)
    requires Inv(e) && Settled(base, e, s.id) && SameOrder(e, s) && !s.status.Terminal()
    requires t.orderId == s.id && t.market == s.market == e.market && t.side == s.side && ProperTrade(t)
    requires WithinRequest(e.orders[s.id], TotalsAfter(e, CumulativeOf(e.orders[s.id]), t))
    requires Proper(CumulativeOf(s))
    ensures Settled(base, SnapshotStep(TradeStep(e, t), s), s.id)
            <==> SameEffect(s.side, TotalsAfter(e, CumulativeOf(e.orders[s.id]), t), CumulativeOf(s))
  {
    hide SnapshotStep, TradeStep, WithinRequest;
    var next := TotalsAfter(e, CumulativeOf(e.orders[s.id]), t);
    var exact := s.(executedVolume := next.volume, executedFunds := next.funds, paidFee := next.fee);
    TradeSettles(base, e, t, exact);
    TradeKeepsInv(e, t);
    TradeKeepsFrame(e, t);
    SnapshotNeedsSettledTotals(base, TradeStep(e, t), s, next);
  }

  lemma TradeKeepsFrame(e: EngineState, t: MyTrade)
    ensures TradeStep(e, t).market == e.market && TradeStep(e, t).orders == e.orders
  {
    hide BuyFilled, SellFilled, Mark, Key;
  }

  /** A snapshot overwrites the stored totals, so it must carry the totals that are settled. */
  lemma SnapshotNeedsSettledTotals(base: Budget, e: EngineState, s: Order, c: Cumulative)
    requires Inv(e) && SettledAt(base, e, s.id, c) && SameOrder(e, s) && !s.status.Terminal()
    requires (s.market == NO_ID || s.market == e.market) && Proper(CumulativeOf(s))
    ensures Settled(base, SnapshotStep(e, s), s.id) <==> SameEffect(s.side, c, CumulativeOf(s))
  {
    assert SnapshotStep(e, s).budget == e.budget && SnapshotStep(e, s).token == e.token;
    assert SnapshotStep(e, s).orders[s.id] == Merged(e.orders[s.id], s);
  }

  /** Not below the stored volume, nothing else moved with it unmoved, fees that only grow, a sell's within its funds. */
  predicate OnlyGrows(o: Order, s: Order) {
    if s.executedVolume <= o.executedVolume then SameEffect(o.side, CumulativeOf(o), CumulativeOf(s))
    else
      && s.paidFee >= o.paidFee
      && (o.side.ASK? ==> s.paidFee - o.paidFee <= s.executedFunds - o.executedFunds)
  }

  /** The totals the delta settlement actually brings the books to. */
  function DeltaTotals(o: Order, s: Order): Cumulative {
    if s.executedVolume <= o.executedVolume then CumulativeOf(o)
    else
      var funds, fee := s.executedFunds - o.executedFunds, Max(0.0, s.paidFee - o.paidFee);
      Cumulative(s.executedVolume, s.executedFunds, o.paidFee + if o.side.ASK? && fee > funds then funds else fee)
  }

  lemma DeltaReaches(base: Budget, e: EngineState, s: Order)
    requires Inv(e) && Settled(base, e, s.id) && SameOrder(e, s) && SettleDelta(e, s, e.orders[s.id]).Some?
    requires Proper(CumulativeOf(s)) && WithinRequest(e.orders[s.id], DeltaTotals(e.orders[s.id], s))
    ensures SettledAt(base, SettleDelta(e, s, e.orders[s.id]).value, s.id, DeltaTotals(e.orders[s.id], s))
  {
    hide BuyFilled, SellFilled, Basis, WithinRequest, Notional, SettledAt;
    var o := e.orders[s.id];
    var c := DeltaTotals(o, s);
    var exact := s.(executedVolume := c.volume, executedFunds := c.funds, paidFee := c.fee);
    DeltaSettles(base, e, exact);
    assert SettleDelta(e, exact, o) == SettleDelta(e, s, o) by {
      SameDelta(e, s, o);
    }
  }

  lemma SameDelta(e: EngineState, s: Order, o: Order)
    requires SettleDelta(e, s, o).Some? && s.side == o.side
    ensures
      var c := DeltaTotals(o, s);
      SettleDelta(e, s.(executedVolume := c.volume, executedFunds := c.funds, paidFee := c.fee), o) == SettleDelta(e, s, o)
  {
  }

  /**
    A looked-up snapshot that is settled keeps the books exact if and only if its totals only grow
    (as long as what it adds fits the reservation).
  */
  lemma LookupNeedsGrowingTotals(base: Budget, e: EngineState, s: Order)
    requires Inv(e) && Settled(base, e, s.id) && SameOrder(e, s) && !s.status.Terminal()
    requires (s.market == NO_ID || s.market == e.market) && ReconcileStep(e, s).1
    requires Proper(CumulativeOf(s)) && WithinRequest(e.orders[s.id], DeltaTotals(e.orders[s.id], s))
    ensures Settled(base, ReconcileStep(e, s).0, s.id) <==> OnlyGrows(e.orders[s.id], s)
  {
    hide SnapshotStep, SettledAt;
    var o := e.orders[s.id];
    DeltaKeepsInv(e, s, o);
    DeltaReaches(base, e, s);
    SnapshotNeedsSettledTotals(base, SettleDelta(e, s, o).value, s, DeltaTotals(o, s));
  }

  // ---------- fills beyond the request ----------

  /** A buy fill that does not fit what is left of the reservation is clamped or ignored, and the books are off. */
  lemma FillNeedsRoom(b: Budget, k: Token, krw: real, volume: real, price: real)
    requires 0.0 <= k.consumed <= k.amount && krw > 0.0 && volume > 0.0 && price > 0.0
    ensures BuyFilled(b, k, krw, volume, price).1 == k.(consumed := k.consumed + krw) <==> krw <= k.Remaining()
  {
  }

  lemma BookedFillNeedsRoom(base: Budget, e: EngineState, t: MyTrade, c: Cumulative)
    requires Inv(e) && Settled(base, e, t.orderId) && t.side == e.orders[t.orderId].side
    requires t.market == e.market && Key(t) !in e.dedupe.seen
    requires t.price > 0.0 && t.volume > 0.0 && t.fee >= 0.0 && t.funds == t.price * t.volume
    requires c == TotalsAfter(e, CumulativeOf(e.orders[t.orderId]), t)
    ensures Booked(base, TradeStep(e, t), t.orderId, c)
            <==> if t.side.BID? then WithinRequest(e.orders[t.orderId], c) else t.fee <= t.funds
    ensures TradeStep(e, t).market == e.market && TradeStep(e, t).orders == e.orders
  {
    hide BuyFilled, Basis, Mark, Key, TradeEvents, Notional;
    assert t.funds > 0.0;
    if t.side.BID? {
      FillNeedsRoom(e.budget, e.token.value, t.funds + t.fee, t.volume, t.price);
      if WithinRequest(e.orders[t.orderId], c) {
        BuyFillAddsCost(e.budget, e.token.value, t.funds + t.fee, t.volume, t.price);
      }
    }
  }

  lemma SnapshotKeepsBooked(base: Budget, e: EngineState, s: Order, c: Cumulative)
    requires KeyedById(e.orders) && s.id in e.orders && e.orders[s.id].side == s.side
    requires (s.market == NO_ID || s.market == e.market) && !s.status.Terminal() && HasSize(e.orders[s.id])
    ensures Booked(base, SnapshotStep(e, s), s.id, c) <==> Booked(base, e, s.id, c)
  {
    hide Basis;
    assert SnapshotStep(e, s).orders[s.id] == Merged(e.orders[s.id], s);
  }

  /**
    The books follow a new fill, announced with the right totals, if and only if a buy's cost so far,
    fees included, is within its reservation, and a sell's fee within its funds. That is exactly when
    the over-reservation clamp, and the clamp of negative proceeds, do not act.
  */
  lemma TradeNeedsRoom(base: Budget, e: EngineState, t: MyTrade, s: Order)
    requires Inv(e) && Settled(base, e, s.id) && SameOrder(e, s) && !s.status.Terminal()
    requires t.orderId == s.id && t.market == s.market == e.market && t.side == s.side && Key(t) !in e.dedupe.seen
    requires t.price > 0.0 && t.volume > 0.0 && t.fee >= 0.0 && t.funds == t.price * t.volume
    requires CumulativeOf(s) == TotalsAfter(e, CumulativeOf(e.orders[s.id]), t)
    ensures Booked(base, SnapshotStep(TradeStep(e, t), s), s.id, CumulativeOf(s))
            <==> if s.side.BID? then WithinRequest(e.orders[s.id], CumulativeOf(s)) else t.fee <= t.funds
  {
    hide TradeStep, SnapshotStep, WithinRequest, TotalsAfter;
    BookedFillNeedsRoom(base, e, t, CumulativeOf(s));
    SnapshotKeepsBooked(base, TradeStep(e, t), s, CumulativeOf(s));
  }

  /** The same for what a looked-up snapshot adds to a buy. */
  lemma LookupNeedsRoom(base: Budget, e: EngineState, s: Order)
    requires Inv(e) && Settled(base, e, s.id) && SameOrder(e, s) && s.side.BID?
    requires s.executedVolume > e.orders[s.id].executedVolume && SettleDelta(e, s, e.orders[s.id]).Some?
    ensures
      var o := e.orders[s.id];
      Booked(base, SettleDelta(e, s, o).value, s.id, DeltaTotals(o, s)) <==> WithinRequest(o, DeltaTotals(o, s))
  {
    hide BuyFilled, Basis, Notional;
    var o := e.orders[s.id];
    var volume, funds, fee := s.executedVolume - o.executedVolume, s.executedFunds - o.executedFunds,
                              Max(0.0, s.paidFee - o.paidFee);
    PriceTimesVolume(funds, volume);
    FillNeedsRoom(e.budget, e.token.value, funds + fee, volume, funds / volume);
    if WithinRequest(o, DeltaTotals(o, s)) {
      BuyFillAddsCost(e.budget, e.token.value, funds + fee, volume, funds / volume);
    }
  }

  /** The coin balance stays non-negative if and only if a sell fills no more than was there. */
  lemma SellNeedsCoin(base: Budget, e: EngineState, t: MyTrade)
    requires Inv(e) && Settled(base, e, t.orderId) && t.market == e.market && Key(t) !in e.dedupe.seen
    requires t.side.ASK? && e.orders[t.orderId].side.ASK? && t.volume > 0.0
    ensures TradeStep(e, t).budget.coin >= 0.0 <==> e.orders[t.orderId].executedVolume + t.volume <= base.coin
  {
    hide Mark, Key, TradeEvents;
  }

  // ---------- orders that go wrong ----------

  /** An active buy, or at least its reservation, whose order the store does not know. */
  ghost predicate OrphanedBuy(e: EngineState) {
    KeyedById(e.orders) && e.token.Some? && e.buyId !in e.orders
  }

  ghost predicate OrphanedSell(e: EngineState) {
    KeyedById(e.orders) && e.sellId != NO_ID && e.sellId !in e.orders
  }

  lemma OrphanIgnoresSnapshot(e: EngineState, s: Order)
    ensures
      var e' := SnapshotStep(e, s);
      && (OrphanedBuy(e) ==> OrphanedBuy(e') && e'.token == e.token && e'.buyId == e.buyId)
      && (OrphanedSell(e) ==> OrphanedSell(e') && e'.sellId == e.sellId)
  {
    hide OrderFinalized, SellFinalized;
  }

  lemma OrphanIgnoresLookup(e: EngineState, s: Order)
    ensures
      var e' := ReconcileStep(e, s).0;
      && (OrphanedBuy(e) ==> OrphanedBuy(e') && e'.token == e.token && e'.buyId == e.buyId)
      && (OrphanedSell(e) ==> OrphanedSell(e') && e'.sellId == e.sellId)
  {
    hide BuyFilled, SellFilled, SnapshotStep;
    if s.id in e.orders && SettleDelta(e, s, e.orders[s.id]).Some? {
      OrphanIgnoresSnapshot(SettleDelta(e, s, e.orders[s.id]).value, s);
    }
  }

  lemma OrphanStays(e: EngineState, op: Op)
    ensures
      var e' := Apply(e, op);
      && (OrphanedBuy(e) ==> OrphanedBuy(e') && e'.token == e.token && e'.buyId == e.buyId)
      && (OrphanedSell(e) ==> OrphanedSell(e') && e'.sellId == e.sellId)
  {
    hide SnapshotStep, ReconcileStep, BuyFilled, SellFilled, Mark;
    match op {
      case SnapshotOp(s) => OrphanIgnoresSnapshot(e, s);
      case ReconcileOp(s) => OrphanIgnoresLookup(e, s);
      case _ =>
    }
  }

  /** Over every run: nothing ever clears it or gives the reservation back, and every later order is refused. */
  lemma {:induction false} OrphanBlocksEngine(e: EngineState, ops: seq<Op>)
    requires OrphanedBuy(e) || OrphanedSell(e)
    ensures
      var e' := RunOps(e, ops);
      && (OrphanedBuy(e) ==> OrphanedBuy(e') && e'.token == e.token && e'.buyId == e.buyId)
      && (OrphanedSell(e) ==> OrphanedSell(e') && e'.sellId == e.sellId)
      && (forall req, reply :: SubmitStep(e', req, reply).1.Refused?)
  {
    if ops != [] {
      OrphanBlocksEngine(e, ops[..|ops| - 1]);
      OrphanStays(RunOps(e, ops[..|ops| - 1]), ops[|ops| - 1]);
    }
  }

  /** A buy answered with an empty order id orphans the reservation it made. */
  lemma EmptyIdOrphansBuy(e: EngineState, req: OrderRequest)
    requires Inv(e) && req.side.BID? && SubmitStep(e, req, Some(NO_ID)).1.Accepted?
    ensures OrphanedBuy(SubmitStep(e, req, Some(NO_ID)).0)
  {
  }

  /** A terminal snapshot of the active order that names the other side orphans it. */
  lemma WrongSideOrphans(e: EngineState, s: Order)
    requires Inv(e) && IsActive(e, s.id) && s.side != e.orders[s.id].side && s.status.Terminal()
    requires s.market == NO_ID || s.market == e.market
    ensures if s.id == e.buyId then OrphanedBuy(SnapshotStep(e, s)) else OrphanedSell(SnapshotStep(e, s))
  {
  }

  // ---------- a sell without an id ----------

  /** The strategy waits for an exit, but no order is active and no event is queued. */
  ghost predicate Stranded(w: WorkerState) {
    Inv(w.engine) && !IsPending(w.engine) && w.engine.events == [] && w.strategy.phase.PendingExit?
  }

  /** A sell answered with an empty order id leaves the engine as it was, and the strategy waiting on nothing. */
  lemma EmptyIdStrandsSell(w: WorkerState, s: StrategyState, order: OrderRequest, cid: Id)
    requires WorkerInv(w) && SoundDecision(w.strategy, s, Some(order), cid) && order.side.ASK?
    requires SubmitStep(w.engine, order, Some(NO_ID)).1.Accepted?
    ensures
      var w' := SubmitDecision(w.(strategy := s), Some(order), Some(NO_ID)).0;
      w'.engine == w.engine && Stranded(w') && !WorkerInv(w')
  {
  }

  lemma StrandedCandle(w: WorkerState, c: Candle, o: Outside)
    requires Stranded(w)
    ensures Stranded(HandleMarketData(w, c, o))
  {
    hide ConfirmCandle, IntrabarCheck;
    var w1 := w.(pendingCandle := Some(c));
    if w.pendingCandle.None? || w.pendingCandle.value.ts == c.ts {
      BlockedCheckMarks(w1, c.close, o.intrabarCid, o.intrabarReply);
    } else {
      PendingConfirmMarks(w1, w.pendingCandle.value, o.cid, o.reply);
      BlockedCheckMarks(ConfirmCandle(w1, w.pendingCandle.value, o.cid, o.reply), c.close, o.intrabarCid, o.intrabarReply);
    }
  }

  lemma StrandedMessage(w: WorkerState, d: MyOrderDto)
    requires Stranded(w) && MessageOfOrder(w.engine, d)
    ensures Stranded(HandleMyOrder(w, d))
  {
    hide HandleMyOrder;
    HandleMyOrderUnfolds(w, d);
    assert d.uuid !in w.engine.orders;
    if IsTrade(d) {
      TradeKeepsInv(w.engine, ToTrade(d));
    }
  }

  /** Over every run the strategy then stays in PendingExit: no message, lookup, timeout or candle frees it. */
  lemma {:induction false} StrandedForever(w: WorkerState, steps: seq<Step>)
    requires Stranded(w) && RoutedRun(w, steps)
    ensures Stranded(Run(w, steps))
  {
    if steps != [] {
      var now, last := Run(w, steps[..|steps| - 1]), steps[|steps| - 1];
      StrandedForever(w, steps[..|steps| - 1]);
      StrandedStep(now, last);
    }
  }

  lemma StrandedStep(w: WorkerState, step: Step)
    requires Stranded(w) && Routed(w, step)
    ensures Stranded(Next(w, step))
  {
    hide HandleMyOrder, HandleMarketData, ReconcileStep;
    match step {
      case OrderStep(d) => StrandedMessage(w, d);
      case CandleStep(c, o) => StrandedCandle(w, c, o);
      case _ =>
    }
  }
}
