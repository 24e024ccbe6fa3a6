/**
  The coin balance over whole worker runs. The strategy sells what the market holds and fills stay within
  the request, so the balance never goes below zero; the report at the end of a sell says whether it is zero.
*/
module CoinSafety {
  import opened Domain
  import opened Account
  import opened OrderStore
  import opened TradeDedupe
  import opened Engine
  import opened Strategy
  import opened Messages
  import opened Lifecycle
  import opened Worker
  import opened Lockstep
  import opened Settlement

  function ActiveId(e: EngineState): Id {
    if e.buyId != NO_ID then e.buyId else e.sellId
  }

  /** The coin is not negative, and an order that is pending is settled up to its stored totals. */
  ghost predicate Accounted(e: EngineState) {
    && e.budget.coin >= 0.0
    && (IsPending(e) ==> exists base :: Settled(base, e, ActiveId(e)))
  }

  ghost predicate Sound(w: WorkerState) {
    WorkerInv(w) && Accounted(w.engine)
  }

  /** A pending sell: what it has not sold yet is still there. */
  lemma UnsoldCoinIsHeld(e: EngineState)
    requires Inv(e) && Accounted(e) && e.sellId != NO_ID
    ensures
      var o := e.orders[e.sellId];
      o.volume.Some? && 0.0 <= o.volume.value - o.executedVolume <= e.budget.coin
  {
    var base :| Settled(base, e, ActiveId(e));
  }

  // ---------- submitting ----------

  predicate SellsAtMost(order: Option<OrderRequest>, coin: real) {
    order.Some? && order.value.side.ASK? ==> order.value.size == VolumeSize(coin)
  }

  /** Every sell the strategy decides on asks for the whole coin balance it was shown. */
  lemma StrategySellsAll(s: StrategyState, c: Candle, close: real, a: AccountSnapshot, cid: Id)
    ensures SellsAtMost(OnCandle(s, c, a, cid).1, a.coin)
    ensures SellsAtMost(OnIntrabarCandle(s, close, a, cid).1, a.coin)
  {
    hide BuildSnapshot, EntryAmount, SelfHeal;
  }

  lemma SubmitAccounted(e: EngineState, order: Option<OrderRequest>, s: StrategyState, w: WorkerState,
                        reply: Option<Id>)
    requires Inv(e) && Accounted(e) && FreshReply(e, reply) && SellsAtMost(order, e.budget.coin) && w.engine == e
    requires order.Some? ==> !IsPending(e)
    ensures Accounted(SubmitDecision(w.(strategy := s), order, reply).0.engine)
  {
    hide Settled;
    if order.Some? {
      var (e', result) := SubmitStep(e, order.value, reply);
      if result.Accepted? {
        SubmitStartsSettled(e, order.value, reply.value);
        SubmitActivates(e, order.value, reply);
      } else {
        SubmitKeepsInv(e, order.value, reply);
      }
    }
  }

  lemma SubmitActivates(e: EngineState, req: OrderRequest, reply: Option<Id>)
    requires Inv(e) && !IsPending(e) && SubmitStep(e, req, reply).1.Accepted? && FreshReply(e, reply)
    ensures reply.Some? && ActiveId(SubmitStep(e, req, reply).0) == reply.value
    ensures SubmitStep(e, req, reply).0.budget.coin == e.budget.coin
  {
  }

  lemma MarkedAccounted(e: EngineState, e': EngineState)
    requires Accounted(e) && e' == e.(dedupe := e'.dedupe, mark := e'.mark, events := e'.events)
    ensures Accounted(e')
  {
    if IsPending(e) {
      var base :| Settled(base, e, ActiveId(e));
      SettledIgnoresWindow(base, e, e', ActiveId(e));
      assert Settled(base, e', ActiveId(e'));
    }
  }

  lemma IntrabarAccounted(w: WorkerState, close: real, cid: Id, reply: Option<Id>)
    requires Sound(w) && FreshReply(w.engine, reply)
    ensures Accounted(IntrabarCheck(w, close, cid, reply).engine)
  {
    hide Accounted, SubmitDecision;
    var w1 := w.(engine := w.engine.(mark := close));
    MarkedAccounted(w.engine, w1.engine);
    if !IntrabarBlocked(w1) {
      var (s, order) := OnIntrabarCandle(w1.strategy, close, AccountOf(w1), cid);
      StrategySellsAll(w1.strategy, Candle(NO_ID, NO_ID, close), close, AccountOf(w1), cid);
      CoinOf(w1);
      SubmitAccounted(w1.engine, order, s, w1, reply);
    }
  }

  lemma CoinOf(w: WorkerState)
    ensures AccountOf(w).coin == w.engine.budget.coin
  {
  }

  lemma ConfirmAccounted(w: WorkerState, c: Candle, cid: Id, reply: Option<Id>)
    requires Sound(w) && FreshReply(w.engine, reply)
    ensures Accounted(ConfirmCandle(w, c, cid, reply).engine)
  {
    hide Accounted, SubmitDecision, OnCandle;
    var w1 := w.(engine := w.engine.(mark := c.close));
    MarkedAccounted(w.engine, w1.engine);
    var (s, order) := OnCandle(w1.strategy, c, AccountOf(w1), cid);
    StrategySellsAll(w1.strategy, c, c.close, AccountOf(w1), cid);
    CoinOf(w1);
    if IsPending(w.engine) {
      PhaseOfPending(w);
      PendingStrategyWaits(w1.strategy, c, AccountOf(w1), cid);
    }
    SubmitAccounted(w1.engine, order, s, w1, reply);
  }

  lemma CandleAccounted(w: WorkerState, c: Candle, o: Outside)
    requires Sound(w) && FreshOutside(w.engine, o)
    ensures Accounted(HandleMarketData(w, c, o).engine)
  {
    hide Accounted, ConfirmCandle, IntrabarCheck, IntrabarExit;
    var w1 := w.(pendingCandle := Some(c));
    if w.pendingCandle.None? || w.pendingCandle.value.ts == c.ts {
      IntrabarAccounted(w1, c.close, o.intrabarCid, o.intrabarReply);
    } else {
      var w2 := ConfirmCandle(w1, w.pendingCandle.value, o.cid, o.reply);
      ConfirmKeepsStep(w1, w.pendingCandle.value, o.cid, o.reply);
      ConfirmAccounted(w1, w.pendingCandle.value, o.cid, o.reply);
      if w2.strategy.phase.InPosition? {
        IntrabarAccounted(w2, c.close, o.intrabarCid, o.intrabarReply);
      } else {
        BlockedCheckMarks(w2, c.close, o.intrabarCid, o.intrabarReply);
        MarkedAccounted(w2.engine, IntrabarCheck(w2, c.close, o.intrabarCid, o.intrabarReply).engine);
      }
    }
  }

  // ---------- messages and lookups ----------

  /** Outside of candles no order becomes active. */
  lemma NothingSubmitted(w: WorkerState, step: Step)
    requires !step.CandleStep?
    ensures IdsOnlyLeave(w.engine, Next(w, step).engine)
  {
    hide SnapshotStep, TradeStep, ReconcileStep, HandleMyOrder;
    match step {
      case OrderStep(d) =>
        HandleMyOrderUnfolds(w, d);
        if IsTrade(d) {
          IdsOfTrade(w.engine, ToTrade(d));
          IdsOfSnapshot(TradeStep(w.engine, ToTrade(d)), ToSnapshot(d));
        } else {
          IdsOfSnapshot(w.engine, ToSnapshot(d));
        }
      case RecoverStep(buy, sell) => IdsOfLookups(w.engine, buy, sell);
      case TimeoutStep(_, _, buy, sell) => IdsOfLookups(w.engine, buy, sell);
      case PollStep =>
    }
  }

  predicate IdsOnlyLeave(e: EngineState, e': EngineState) {
    (e'.buyId == e.buyId || e'.buyId == NO_ID) && (e'.sellId == e.sellId || e'.sellId == NO_ID)
  }

  lemma IdsOfTrade(e: EngineState, t: MyTrade)
    ensures IdsOnlyLeave(e, TradeStep(e, t))
  {
    hide BuyFilled, SellFilled, Mark, Key;
  }

  lemma IdsOfSnapshot(e: EngineState, s: Order)
    ensures IdsOnlyLeave(e, SnapshotStep(e, s)) && IdsOnlyLeave(e, ReconcileStep(e, s).0)
  {
    hide BuyFilled, SellFilled, OrderFinalized, SellFinalized;
  }

  lemma IdsOfLookups(e: EngineState, buy: Option<Order>, sell: Option<Order>)
    ensures IdsOnlyLeave(e, Reconciled(Reconciled(e, e.buyId, buy), e.sellId, sell))
  {
    hide ReconcileStep, SnapshotStep;
    if buy.Some? {
      IdsOfSnapshot(e, buy.value);
    }
    if sell.Some? {
      IdsOfSnapshot(Reconciled(e, e.buyId, buy), sell.value);
    }
  }

  lemma IdleStepKeepsBooks(w: WorkerState, step: Step)
    requires WorkerInv(w) && !IsPending(w.engine) && Good(w, step) && !step.CandleStep?
    ensures
      var e' := Next(w, step).engine;
      e' == w.engine.(dedupe := e'.dedupe, events := e'.events)
  {
    hide ReconcileStep, HandleMyOrder;
    if step.OrderStep? {
      ForeignMessageIgnored(w, step.dto);
    }
  }

  lemma SettledOrClosedAccounted(base: Budget, w: WorkerState, step: Step, id: Id)
    requires WorkerInv(w) && Settled(base, w.engine, id) && Good(w, step) && !step.CandleStep?
    requires id == ActiveId(w.engine)
    ensures Accounted(Next(w, step).engine)
  {
    hide Next, GoodMessage, GoodReply, Routed, Settled, ClosedOn, WorkerInv;
    var e' := Next(w, step).engine;
    StepSettles(base, w, step, id);
    NothingSubmitted(w, step);
    NextKeepsInv(w, step);
    OneActiveId(w, base, id);
    if id in e'.orders {
      SettledCoin(base, e', id);
      OneActiveId(Next(w, step), base, id);
    } else {
      ClosedCoin(base, e'.budget, w.engine.orders[id].side, Reported(w, step).value.totals,
                 w.engine.mark);
      NothingActive(w.engine, Next(w, step), id);
    }
  }

  lemma SettledCoin(base: Budget, e: EngineState, id: Id)
    requires Settled(base, e, id)
    ensures e.budget.coin >= 0.0
  {
  }

  lemma ClosedCoin(base: Budget, b: Budget, side: Side, c: Cumulative, mark: real)
    requires ClosedOn(base, b, side, c, mark)
    ensures b.coin >= 0.0
  {
  }

  lemma OneActiveId(w: WorkerState, base: Budget, id: Id)
    requires WorkerInv(w) && Settled(base, w.engine, id)
    ensures ActiveId(w.engine) == id && (w.engine.buyId == NO_ID || w.engine.sellId == NO_ID)
  {
  }

  lemma NothingActive(e: EngineState, w: WorkerState, id: Id)
    requires IdsOnlyLeave(e, w.engine) && WorkerInv(w) && id !in w.engine.orders
    requires id == ActiveId(e) && (e.buyId == NO_ID || e.sellId == NO_ID)
    ensures !IsPending(w.engine)
  {
  }

  lemma NextKeepsSound(w: WorkerState, step: Step)
    requires Sound(w) && Good(w, step)
    ensures Sound(Next(w, step))
  {
    hide Next, GoodMessage, GoodReply, Settled, WorkerInv;
    NextKeepsInv(w, step);
    if step.CandleStep? {
      CandleAccounted(w, step.candle, step.outside);
      assert Next(w, step) == HandleMarketData(w, step.candle, step.outside) by {
        CandleIsNext(w, step);
      }
    } else if IsPending(w.engine) {
      var base :| Settled(base, w.engine, ActiveId(w.engine));
      SettledOrClosedAccounted(base, w, step, ActiveId(w.engine));
    } else {
      IdleStepKeepsBooks(w, step);
      MarkedAccounted(w.engine, Next(w, step).engine);
    }
  }

  /** Over every run: the coin balance is never negative, and a pending sell never exceeds it. */
  lemma {:induction false} CoinNeverNegative(w: WorkerState, steps: seq<Step>)
    requires Sound(w) && GoodRun(w, steps)
    ensures
      var w' := Run(w, steps);
      && Sound(w') && w'.engine.budget.coin >= 0.0
      && (w'.engine.sellId != NO_ID ==>
            var o := w'.engine.orders[w'.engine.sellId];
            o.volume.Some? && 0.0 <= o.volume.value - o.executedVolume <= w'.engine.budget.coin)
  {
    hide Next, Good;
    if steps != [] {
      CoinNeverNegative(w, steps[..|steps| - 1]);
      NextKeepsSound(Run(w, steps[..|steps| - 1]), steps[|steps| - 1]);
    }
    if Run(w, steps).engine.sellId != NO_ID {
      UnsoldCoinIsHeld(Run(w, steps).engine);
    }
  }

  // ---------- the end of a sell ----------

  /** The last event reports the sell's end, and its effect tells whether any coin is left. */
  predicate SellReported(e: EngineState, id: Id) {
    && e.events != []
    && var ev := e.events[|e.events| - 1];
    && ev.StatusEvent? && ev.orderId == id && ev.side.ASK? && ev.status.Terminal()
    && (ev.effect.NoEffect? <==> ev.executedVolume <= 0.0)
    && (ev.executedVolume > 0.0 ==>
          && (ev.effect.Closed? <==> e.budget.coin == 0.0)
          && (ev.effect.Reduced? <==> e.budget.coin >= COIN_EPSILON))
  }

  lemma SnapshotReportsSell(e: EngineState, s: Order)
    requires Inv(e) && SameOrder(e, s) && e.sellId != NO_ID && Named(e.orders[e.sellId].identifier)
    requires SnapshotStep(e, s).sellId != e.sellId
    ensures SellReported(SnapshotStep(e, s), e.sellId)
  {
    hide OrderFinalized;
  }

  lemma ReconcileReportsSell(e: EngineState, s: Order)
    requires Inv(e) && SameOrder(e, s) && e.sellId != NO_ID && Named(e.orders[e.sellId].identifier)
    requires ReconcileStep(e, s).0.sellId != e.sellId
    ensures SellReported(ReconcileStep(e, s).0, e.sellId)
  {
    hide SnapshotStep, SellReported;
    if s.id in e.orders && SettleDelta(e, s, e.orders[s.id]).Some? {
      DeltaKeepsInv(e, s, e.orders[s.id]);
      DeltaKeepsIds(e, s, e.orders[s.id]);
      SnapshotReportsSell(SettleDelta(e, s, e.orders[s.id]).value, s);
    }
  }

  lemma DeltaKeepsIds(e: EngineState, s: Order, known: Order)
    requires SettleDelta(e, s, known).Some?
    ensures SettleDelta(e, s, known).value.sellId == e.sellId && SettleDelta(e, s, known).value.buyId == e.buyId
  {
  }

  lemma TradeKeepsIds(e: EngineState, t: MyTrade)
    ensures TradeStep(e, t).sellId == e.sellId && TradeStep(e, t).orders == e.orders
  {
    hide BuyFilled, SellFilled, Mark, Key;
  }

  lemma WaitingSellIsNamed(w: WorkerState)
    requires WorkerInv(w) && w.engine.sellId != NO_ID
    ensures w.engine.sellId in w.engine.orders && Named(w.engine.orders[w.engine.sellId].identifier)
    ensures w.engine.buyId == NO_ID && Inv(w.engine)
  {
  }

  /**
    Whichever message, lookup or timeout ends a sell, the step queues its report: with fills, Closed
    exactly when the balance is now zero.
  */
  lemma FinishedSellIsReported(w: WorkerState, step: Step)
    requires WorkerInv(w) && Good(w, step) && w.engine.sellId != NO_ID && Next(w, step).engine.sellId != w.engine.sellId
    ensures SellReported(Next(w, step).engine, w.engine.sellId)
  {
    hide WorkerInv, SellReported, HandleMyOrder, HandleMarketData, TradeStep, SnapshotStep, ReconcileStep, GoodTrade, GoodTotals;
    WaitingSellIsNamed(w);
    match step {
      case OrderStep(d) =>
        HandleMyOrderUnfolds(w, d);
        if IsTrade(d) {
          TradeKeepsIds(w.engine, ToTrade(d));
          TradeKeepsInv(w.engine, ToTrade(d));
          TradeKeepsMarket(w.engine, ToTrade(d));
          SnapshotReportsSell(TradeStep(w.engine, ToTrade(d)), ToSnapshot(d));
        } else if ToSnapshot(d).status.Terminal() {
          ReconcileReportsSell(w.engine, ToSnapshot(d));
        } else {
          SnapshotReportsSell(w.engine, ToSnapshot(d));
        }
      case CandleStep(c, o) => CandleLeavesPendingOrder(w, c, o);
      case RecoverStep(_, sell) => ReconcileReportsSell(w.engine, sell.value);
      case TimeoutStep(_, _, _, sell) => ReconcileReportsSell(w.engine, sell.value);
      case PollStep =>
    }
  }

  // ---------- startup ----------

  lemma {:induction false} AppliedCoinNonNegative(bs: map<Id, Budget>, ps: seq<Position>, m: Id)
    requires m in bs && bs[m].coin >= 0.0 && forall i :: 0 <= i < |ps| ==> ps[i].free >= 0.0
    ensures ApplyPositions(bs, ps)[m].coin >= 0.0
  {
    if ps != [] {
      AppliedCoinNonNegative(bs, ps[..|ps| - 1], m);
    }
  }

  lemma StartupIsSound(bs: map<Id, Budget>, account: ExchangeAccount, m: Id, orders: map<Id, Order>,
                       params: Params, coin: real, avgEntry: real)
    requires m in bs && m != NO_ID && account.krwFree >= 0.0
    requires forall i :: 0 <= i < |account.positions| ==> account.positions[i].free >= 0.0
    requires KeyedById(orders) && forall k :: k in orders ==> orders[k].market != m
    ensures Sound(Startup(bs, account, m, orders, params, coin, avgEntry))
  {
    ReachableStatesAreInStep(bs, account, m, orders, params, coin, avgEntry, []);
    AppliedCoinNonNegative(ClearCoins(bs), account.positions, m);
  }

  /** From startup on, over every run in which the exchange keeps its contract. */
  lemma ReachableCoinNonNegative(bs: map<Id, Budget>, account: ExchangeAccount, m: Id, orders: map<Id, Order>,
                                 params: Params, coin: real, avgEntry: real, steps: seq<Step>)
    requires m in bs && m != NO_ID && account.krwFree >= 0.0
    requires forall i :: 0 <= i < |account.positions| ==> account.positions[i].free >= 0.0
    requires KeyedById(orders) && forall k :: k in orders ==> orders[k].market != m
    requires GoodRun(Startup(bs, account, m, orders, params, coin, avgEntry), steps)
    ensures Run(Startup(bs, account, m, orders, params, coin, avgEntry), steps).engine.budget.coin >= 0.0
  {
    StartupIsSound(bs, account, m, orders, params, coin, avgEntry);
    CoinNeverNegative(Startup(bs, account, m, orders, params, coin, avgEntry), steps);
  }
}
