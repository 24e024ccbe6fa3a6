/**
  The strategy and the engine move in step through the event queue: in every reachable state the
  strategy waits for an entry (an exit) exactly when the engine holds an active buy (sell) with the
  strategy's identifier, or that order's terminal event is still queued.
*/
module Lockstep {
  import opened Domain
  import opened Account
  import opened OrderStore
  import opened TradeDedupe
  import opened Engine
  import opened Strategy
  import opened Messages
  import opened Lifecycle
  import opened Worker

  // ---------- the invariant ----------

  ghost predicate ActiveFor(e: EngineState, side: Side, cid: Id) {
    var id := if side.BID? then e.buyId else e.sellId;
    id != NO_ID && id in e.orders && e.orders[id].identifier == Some(cid)
  }

  ghost predicate AllFills(evs: seq<EngineEvent>) {
    forall i :: 0 <= i < |evs| ==> evs[i].FillEvent?
  }

  predicate EffectFits(side: Side, effect: PositionEffect) {
    effect.NoEffect? || (if side.BID? then effect.Opened? else effect.Reduced? || effect.Closed?)
  }

  predicate IsTerminalFor(ev: EngineEvent, side: Side, cid: Id) {
    ev.StatusEvent? && ev.identifier == cid && ev.side == side && ev.status.Terminal() && EffectFits(side, ev.effect)
  }

  ghost predicate TerminalQueued(evs: seq<EngineEvent>, side: Side, cid: Id) {
    evs != [] && AllFills(evs[..|evs| - 1]) && IsTerminalFor(evs[|evs| - 1], side, cid)
  }

  ghost predicate WaitsOn(e: EngineState, side: Side, cid: Id) {
    || (ActiveFor(e, side, cid) && AllFills(e.events))
    || (!IsPending(e) && TerminalQueued(e.events, side, cid))
  }

  ghost predicate InStep(e: EngineState, s: StrategyState) {
    match s.phase
    case Flat | InPosition => s.pending.None? && !IsPending(e) && e.events == []
    case PendingEntry => s.pending.Some? && s.pending.value != NO_ID && WaitsOn(e, BID, s.pending.value)
    case PendingExit => s.pending.Some? && s.pending.value != NO_ID && WaitsOn(e, ASK, s.pending.value)
  }

  ghost predicate WorkerInv(w: WorkerState) {
    Inv(w.engine) && InStep(w.engine, w.strategy)
  }

  /**
    Never stuck pending on nothing, never an order the strategy does not wait for; a queued terminal
    event is the last event and reports an effect the waiting phase expects.
  */
  lemma PendingIffOrderOrEvent(w: WorkerState)
    requires WorkerInv(w)
    ensures w.strategy.phase.PendingEntry? <==>
              exists cid :: ActiveFor(w.engine, BID, cid) || TerminalQueued(w.engine.events, BID, cid)
    ensures w.strategy.phase.PendingExit? <==>
              exists cid :: ActiveFor(w.engine, ASK, cid) || TerminalQueued(w.engine.events, ASK, cid)
    ensures forall side, cid :: ActiveFor(w.engine, side, cid) || TerminalQueued(w.engine.events, side, cid) ==>
              w.strategy.pending == Some(cid)
    ensures forall i :: 0 <= i < |w.engine.events| && w.engine.events[i].StatusEvent? ==>
              && i == |w.engine.events| - 1
              && w.strategy.pending == Some(w.engine.events[i].identifier)
              && ExpectedEffect(w.strategy.phase, w.engine.events[i].effect)
  {
    var e := w.engine;
    if w.strategy.phase.PendingEntry? {
      assert ActiveFor(e, BID, w.strategy.pending.value) || TerminalQueued(e.events, BID, w.strategy.pending.value);
    }
    if w.strategy.phase.PendingExit? {
      assert ActiveFor(e, ASK, w.strategy.pending.value) || TerminalQueued(e.events, ASK, w.strategy.pending.value);
    }
    assert forall i :: 0 <= i < |e.events| - 1 ==> e.events[..|e.events| - 1][i] == e.events[i];
  }

  // ---------- the engine's side ----------

  lemma TradeKeepsStep(e: EngineState, s: StrategyState, t: MyTrade)
    requires Inv(e) && InStep(e, s)
    requires t.orderId in e.orders ==> e.orders[t.orderId].market == e.market
    ensures InStep(TradeStep(e, t), s)
    ensures TradeStep(e, t).orders == e.orders
  {
  }

  lemma SnapshotKeepsStep(e: EngineState, s: StrategyState, o: Order)
    requires Inv(e) && InStep(e, s) && SameOrder(e, o)
    ensures InStep(SnapshotStep(e, o), s)
  {
  }

  lemma ReconcileKeepsStep(e: EngineState, s: StrategyState, o: Order)
    requires Inv(e) && InStep(e, s) && SameOrder(e, o)
    ensures InStep(ReconcileStep(e, o).0, s)
  {
    if o.id in e.orders && SettleDelta(e, o, e.orders[o.id]).Some? {
      DeltaKeepsInv(e, o, e.orders[o.id]);
      SnapshotKeepsStep(SettleDelta(e, o, e.orders[o.id]).value, s, o);
    }
  }

  // ---------- the strategy's side ----------

  /** What of the strategy the step relation looks at. */
  predicate SamePhase(s: StrategyState, s': StrategyState) {
    s'.phase == s.phase && s'.pending == s.pending
  }

  lemma {:induction false} FillsKeepPhase(s: StrategyState, evs: seq<EngineEvent>)
    requires AllFills(evs)
    ensures SamePhase(s, HandleEvents(s, evs))
  {
    if evs != [] {
      FillsKeepPhase(s, evs[..|evs| - 1]);
    }
  }

  lemma PollKeepsStep(w: WorkerState)
    requires WorkerInv(w)
    ensures WorkerInv(Poll(w))
  {
    var evs := w.engine.events;
    if AllFills(evs) {
      FillsKeepPhase(w.strategy, evs);
    } else {
      FillsKeepPhase(w.strategy, evs[..|evs| - 1]);
    }
  }

  /** A decision either does nothing to phase and pending, or starts one pending order of the matching side. */
  ghost predicate SoundDecision(s: StrategyState, s': StrategyState, order: Option<OrderRequest>, cid: Id) {
    match order
    case None => s'.pending == s.pending && s'.phase.PendingEntry? == s.phase.PendingEntry?
                 && s'.phase.PendingExit? == s.phase.PendingExit?
    case Some(req) =>
      && (s.phase.Flat? || s.phase.InPosition?)
      && s'.pending == Some(cid) && req.identifier == cid
      && s'.phase == (if req.side.BID? then PendingEntry else PendingExit)
  }

  lemma OnCandleSound(s: StrategyState, c: Candle, a: AccountSnapshot, cid: Id)
    ensures SoundDecision(s, OnCandle(s, c, a, cid).0, OnCandle(s, c, a, cid).1, cid)
  {
    hide StopPrice, TargetPrice, EntryAmount, TrendOk, VolatilityOk;
  }

  lemma SubmitKeepsStep(w: WorkerState, s: StrategyState, order: Option<OrderRequest>, cid: Id, reply: Option<Id>)
    requires WorkerInv(w) && SoundDecision(w.strategy, s, order, cid)
    requires cid != NO_ID && FreshReply(w.engine, reply)
    ensures WorkerInv(SubmitDecision(w.(strategy := s), order, reply).0)
  {
    if order.Some? {
      SubmitKeepsInv(w.engine, order.value, reply);
    }
  }

  /** The reservation for an entry is `utilization` times what is available. */
  lemma EntryIsCovered(krw: real, utilization: real)
    requires krw > 0.0 && 0.0 < utilization <= 1.0
    ensures 0.0 < EntryAmount(krw, utilization) * RESERVE_MARGIN <= krw
  {
    var share := krw / RESERVE_MARGIN;
    assert share * RESERVE_MARGIN == krw && share > 0.0;
    PartOf(share, utilization);
    assert EntryAmount(krw, utilization) == share * utilization;
  }

  lemma PartOf(x: real, part: real)
    requires x > 0.0 && 0.0 < part <= 1.0
    ensures 0.0 < x * part <= x
  {
  }

  lemma DecisionIsValid(s: StrategyState, c: Candle, close: real, a: AccountSnapshot, cid: Id)
    requires s.market != NO_ID && 0.0 < s.params.utilization <= 1.0
    ensures forall order :: Some(order) == OnCandle(s, c, a, cid).1 || Some(order) == OnIntrabarCandle(s, close, a, cid).1 ==>
              && ValidRequest(order) && order.market == s.market
              && (s.phase.Flat? || s.phase.InPosition?)
              && (order.side.BID? ==> CanReserve(Budget(a.krw, 0.0, a.coin, 0.0), ReserveAmount(order)))
  {
    hide BuildSnapshot, EntryAmount, StopPrice, TargetPrice;
    IndicatorsKeepIdentity(s.(lastTs := Some(c.ts)), c);
    if a.krw > 0.0 {
      EntryIsCovered(a.krw, s.params.utilization);
    }
  }

  lemma IndicatorsKeepIdentity(s: StrategyState, c: Candle)
    ensures
      var s' := BuildSnapshot(s, c).0;
      s'.phase == s.phase && s'.market == s.market && s'.params == s.params
  {
  }

  /**
    In every state the worker reaches, the engine accepts whatever the strategy decides: only a REST
    error of the post itself can refuse an order, never funds, an open order or the request's shape.
  */
  lemma DecisionsAreAccepted(w: WorkerState, c: Candle, close: real, cid: Id, reply: Option<Id>)
    requires WorkerInv(w) && w.strategy.market == w.engine.market && 0.0 < w.strategy.params.utilization <= 1.0
    requires reply.Some?
    ensures forall order ::
              || Some(order) == OnCandle(w.strategy, c, AccountOf(w), cid).1
              || Some(order) == OnIntrabarCandle(w.strategy, close, AccountOf(w), cid).1 ==>
              SubmitStep(w.engine, order, reply).1.Accepted?
  {
    hide OnCandle, OnIntrabarCandle, ValidRequest, ReserveAmount;
    DecisionIsValid(w.strategy, c, close, AccountOf(w), cid);
  }

  // ---------- the worker's steps ----------

  ghost predicate FreshOutside(e: EngineState, o: Outside) {
    && o.cid != NO_ID && o.intrabarCid != NO_ID
    && FreshReply(e, o.reply) && FreshReply(e, o.intrabarReply)
  }

  /** The message names a stored order with the order's own side, and that order is of this market. */
  ghost predicate MessageOfOrder(e: EngineState, d: MyOrderDto) {
    d.uuid in e.orders ==> e.orders[d.uuid].market == e.market && OnSide(d, e.orders[d.uuid].side)
  }

  lemma MessageNamesOrder(e: EngineState, d: MyOrderDto)
    ensures MessageOfOrder(e, d) <==> SameOrder(e, ToSnapshot(d))
  {
    SnapshotCarries(d);
  }

  ghost predicate SameOrderReply(e: EngineState, reply: Option<Order>) {
    reply.Some? ==> SameOrder(e, reply.value)
  }

  /** Only an active order is looked up. */
  ghost predicate SameOrderReplies(e: EngineState, buy: Option<Order>, sell: Option<Order>) {
    && (e.buyId != NO_ID ==> SameOrderReply(e, buy))
    && (e.sellId != NO_ID ==> SameOrderReply(e, sell))
  }

  /** All the lifecycle needs of the exchange: market and side of an order never change, new ids are new. */
  ghost predicate Routed(w: WorkerState, step: Step) {
    match step
    case OrderStep(d) => MessageOfOrder(w.engine, d)
    case CandleStep(_, o) => FreshOutside(w.engine, o)
    case RecoverStep(buy, sell) => SameOrderReplies(w.engine, buy, sell)
    case TimeoutStep(now, timeout, buy, sell) => Fires(w, now, timeout) ==> SameOrderReplies(w.engine, buy, sell)
    case PollStep => true
  }

  /** The messages of one order update, unfolded. */
  function OrderUpdated(w: WorkerState, d: MyOrderDto): WorkerState {
    if IsTrade(d) then w.(engine := SnapshotStep(TradeStep(w.engine, ToTrade(d)), ToSnapshot(d)))
    else ApplyMessage(w, SnapshotMessage(ToSnapshot(d)), false)
  }

  lemma HandleMyOrderUnfolds(w: WorkerState, d: MyOrderDto)
    ensures HandleMyOrder(w, d) == OrderUpdated(w, d)
  {
    hide TradeStep, SnapshotStep, ReconcileStep;
    var ms := ToEvents(d);
    if IsTrade(d) {
      assert ms[..1] == [TradeMessage(ToTrade(d))];
      assert [TradeMessage(ToTrade(d))][..0] == [];
      assert ApplyMessages(w, ms[..1], true) == w.(engine := TradeStep(w.engine, ToTrade(d)));
    } else {
      assert ms == [SnapshotMessage(ToSnapshot(d))] && ms[..0] == [];
      assert ApplyMessages(w, ms, false) == ApplyMessage(ApplyMessages(w, ms[..0], false), ms[0], false);
    }
  }

  /** A trade message carries the fill's price and volume, and never overwrites what the order asked for. */
  lemma TradeMessageKeepsRequest(o: Order, d: MyOrderDto)
    requires d.state.Trade?
    ensures
      var o' := Merged(o, ToSnapshot(d));
      o'.price == o.price && o'.volume == o.volume && o'.requestedAmount == o.requestedAmount && !o'.status.Terminal()
  {
  }

  lemma OrderKeepsStep(w: WorkerState, d: MyOrderDto)
    requires WorkerInv(w) && MessageOfOrder(w.engine, d)
    ensures WorkerInv(HandleMyOrder(w, d))
  {
    MessageNamesOrder(w.engine, d);
    hide TradeStep, SnapshotStep, ReconcileStep;
    HandleMyOrderUnfolds(w, d);
    var s := ToSnapshot(d);
    if IsTrade(d) {
      var t := ToTrade(d);
      TradeKeepsInv(w.engine, t);
      TradeKeepsStep(w.engine, w.strategy, t);
      TradeKeepsMarket(w.engine, t);
      SnapshotKeepsInv(TradeStep(w.engine, t), s);
      SnapshotKeepsStep(TradeStep(w.engine, t), w.strategy, s);
    } else {
      SnapshotKeepsInv(w.engine, s);
      SnapshotKeepsStep(w.engine, w.strategy, s);
      ReconcileKeepsInv(w.engine, s);
      ReconcileKeepsStep(w.engine, w.strategy, s);
    }
  }

  lemma TradeKeepsMarket(e: EngineState, t: MyTrade)
    ensures TradeStep(e, t).market == e.market
  {
  }

  lemma IntrabarKeepsStep(w: WorkerState, close: real, cid: Id, reply: Option<Id>)
    requires WorkerInv(w) && cid != NO_ID && FreshReply(w.engine, reply)
    ensures WorkerInv(IntrabarCheck(w, close, cid, reply))
  {
    hide SubmitDecision;
    var w1 := w.(engine := w.engine.(mark := close));
    var (s, order) := OnIntrabarCandle(w1.strategy, close, AccountOf(w1), cid);
    SubmitKeepsStep(w1, s, order, cid, reply);
  }

  lemma ConfirmKeepsStep(w: WorkerState, c: Candle, cid: Id, reply: Option<Id>)
    requires WorkerInv(w) && cid != NO_ID && FreshReply(w.engine, reply)
    ensures WorkerInv(ConfirmCandle(w, c, cid, reply))
    ensures
      var w' := ConfirmCandle(w, c, cid, reply);
      w'.engine.orders == w.engine.orders || !w'.strategy.phase.InPosition?
  {
    hide OnCandle, SubmitDecision, WorkerInv, FreshReply;
    var w1 := w.(engine := w.engine.(mark := c.close));
    var (s, order) := OnCandle(w1.strategy, c, AccountOf(w1), cid);
    OnCandleSound(w1.strategy, c, AccountOf(w1), cid);
    MarkedInStep(w, c.close, reply);
    SubmitKeepsStep(w1, s, order, cid, reply);
    SubmittedIsPending(w1, s, order, cid, reply);
  }

  lemma MarkedInStep(w: WorkerState, close: real, reply: Option<Id>)
    requires WorkerInv(w) && FreshReply(w.engine, reply)
    ensures WorkerInv(w.(engine := w.engine.(mark := close))) && FreshReply(w.engine.(mark := close), reply)
  {
  }

  lemma SubmittedIsPending(w: WorkerState, s: StrategyState, order: Option<OrderRequest>, cid: Id, reply: Option<Id>)
    requires WorkerInv(w) && SoundDecision(w.strategy, s, order, cid) && FreshReply(w.engine, reply)
    ensures
      var w' := SubmitDecision(w.(strategy := s), order, reply).0;
      w'.engine.orders == w.engine.orders || !w'.strategy.phase.InPosition?
  {
    if order.Some? {
      SubmitKeepsInv(w.engine, order.value, reply);
    }
  }

  lemma CandleKeepsStep(w: WorkerState, c: Candle, o: Outside)
    requires WorkerInv(w) && FreshOutside(w.engine, o)
    ensures WorkerInv(HandleMarketData(w, c, o))
  {
    hide ConfirmCandle, IntrabarExit;
    var w1 := w.(pendingCandle := Some(c));
    if w.pendingCandle.None? || w.pendingCandle.value.ts == c.ts {
      IntrabarKeepsStep(w1, c.close, o.intrabarCid, o.intrabarReply);
    } else {
      ConfirmKeepsStep(w1, w.pendingCandle.value, o.cid, o.reply);
      var w2 := ConfirmCandle(w1, w.pendingCandle.value, o.cid, o.reply);
      if w2.strategy.phase.InPosition? {
        IntrabarKeepsStep(w2, c.close, o.intrabarCid, o.intrabarReply);
      }
    }
  }

  lemma ReconciledKeepsStep(e: EngineState, s: StrategyState, id: Id, reply: Option<Order>)
    requires Inv(e) && InStep(e, s) && SameOrderReply(e, reply)
    ensures Inv(Reconciled(e, id, reply)) && InStep(Reconciled(e, id, reply), s)
  {
    if reply.Some? {
      ReconcileKeepsInv(e, reply.value);
      ReconcileKeepsStep(e, s, reply.value);
    }
  }

  lemma RecoveryKeepsStep(w: WorkerState, buy: Option<Order>, sell: Option<Order>)
    requires WorkerInv(w) && SameOrderReplies(w.engine, buy, sell)
    ensures WorkerInv(RunRecovery(w, buy, sell))
  {
    hide ReconcileStep;
    if w.engine.buyId != NO_ID {
      ReconciledKeepsStep(w.engine, w.strategy, w.engine.buyId, buy);
    } else if w.engine.sellId != NO_ID {
      ReconciledKeepsStep(w.engine, w.strategy, w.engine.sellId, sell);
    }
  }

  lemma NextKeepsInv(w: WorkerState, step: Step)
    requires WorkerInv(w) && Routed(w, step)
    ensures WorkerInv(Next(w, step))
  {
    hide HandleMyOrder, HandleMarketData, RunRecovery, Poll;
    match step {
      case OrderStep(d) => OrderKeepsStep(w, d);
      case CandleStep(c, o) => CandleKeepsStep(w, c, o);
      case RecoverStep(buy, sell) => RecoveryKeepsStep(w.(recoveryRequested := false), buy, sell);
      case TimeoutStep(now, timeout, buy, sell) =>
        if Fires(w, now, timeout) {
          RecoveryKeepsStep(Tracked(w, now).(timeoutFired := true), buy, sell);
        }
      case PollStep => PollKeepsStep(w);
    }
  }

  ghost predicate RoutedRun(w: WorkerState, steps: seq<Step>) {
    steps == [] || (RoutedRun(w, steps[..|steps| - 1]) && Routed(Run(w, steps[..|steps| - 1]), steps[|steps| - 1]))
  }

  /** Every reachable state is in step. */
  lemma {:induction false} RunKeepsInStep(w: WorkerState, steps: seq<Step>)
    requires WorkerInv(w) && RoutedRun(w, steps)
    ensures WorkerInv(Run(w, steps))
  {
    if steps != [] {
      RunKeepsInStep(w, steps[..|steps| - 1]);
      NextKeepsInv(Run(w, steps[..|steps| - 1]), steps[|steps| - 1]);
    }
  }

  /** What a market's worker starts from: a rebuilt budget, no order of its own in the store, a synchronised strategy. */
  function Startup(bs: map<Id, Budget>, account: ExchangeAccount, m: Id, orders: map<Id, Order>,
                   params: Params, coin: real, avgEntry: real): WorkerState
    requires m in bs
  {
    Started(EngineState(m, Rebuilt(bs, account)[m], orders, None, NO_ID, NO_ID, [], Dedupe({}, []), 0.0),
            SyncOnStart(Initial(m, params), coin, avgEntry))
  }

  /** From startup on, whatever the exchange reported about the position, every reachable state is in step. */
  lemma ReachableStatesAreInStep(bs: map<Id, Budget>, account: ExchangeAccount, m: Id, orders: map<Id, Order>,
                                 params: Params, coin: real, avgEntry: real, steps: seq<Step>)
    requires m in bs && m != NO_ID && account.krwFree >= 0.0
    requires KeyedById(orders) && forall k :: k in orders ==> orders[k].market != m
    requires RoutedRun(Startup(bs, account, m, orders, params, coin, avgEntry), steps)
    ensures WorkerInv(Run(Startup(bs, account, m, orders, params, coin, avgEntry), steps))
  {
    RebuiltBudget(bs, account, m);
    ShareIsNonNegative(account.krwFree, |FlatMarkets(Rebuilt(bs, account))|);
    RunKeepsInStep(Startup(bs, account, m, orders, params, coin, avgEntry), steps);
  }

  lemma ShareIsNonNegative(krw: real, n: nat)
    requires krw >= 0.0
    ensures n > 0 ==> krw / n as real >= 0.0
  {
  }
}
