/**
  What the strategy makes of an order's end. The engine reports the end in its last queued event; the
  poll that delivers it leaves the strategy in the position the fills and the coin balance say it has.
*/
module Outcomes {
  import opened Domain
  import opened Account
  import opened OrderStore
  import opened TradeDedupe
  import opened Engine
  import opened Rsi
  import opened Windows
  import opened Strategy
  import opened Messages
  import opened Lifecycle
  import opened Worker
  import opened Lockstep
  import opened Settlement
  import opened CoinSafety
  import opened EndToEnd

  predicate SameLevels(s: StrategyState, s': StrategyState) {
    s'.entry == s.entry && s'.stop == s.stop && s'.target == s.target
  }

  predicate SamePosition(s: StrategyState, s': StrategyState) {
    SameLevels(s, s') && s'.phase == s.phase && s'.pending == s.pending
  }

  /** Strategy s waited for an order that ended with `volume` filled and left `coin`; s' is what came of it. */
  predicate Resolved(s: StrategyState, s': StrategyState, side: Side, volume: real, coin: real) {
    && s'.pending.None? && s'.filled == s'.cost == s'.lastPrice == 0.0
    && match side
       case BID => if volume > 0.0 then s'.phase.InPosition? else s'.phase.Flat? && SameLevels(s, s')
       case ASK =>
         if volume > 0.0 && coin == 0.0
         then s'.phase.Flat? && s'.entry.None? && s'.stop.None? && s'.target.None?
         else s'.phase.InPosition? && SameLevels(s, s')
  }

  // ---------- while the order is open ----------

  lemma {:induction false} FillsKeepPosition(s: StrategyState, evs: seq<EngineEvent>)
    requires AllFills(evs)
    ensures SamePosition(s, HandleEvents(s, evs))
  {
    if evs != [] {
      FillsKeepPosition(s, evs[..|evs| - 1]);
    }
  }

  lemma PendingCandleKeepsPosition(w: WorkerState, c: Candle, o: Outside)
    requires w.strategy.phase.PendingEntry? || w.strategy.phase.PendingExit?
    ensures
      var w' := HandleMarketData(w, c, o);
      SamePosition(w.strategy, w'.strategy) && w'.engine == w.engine.(mark := w'.engine.mark)
  {
    hide ConfirmCandle, IntrabarCheck;
    var w1 := w.(pendingCandle := Some(c));
    if w.pendingCandle.None? || w.pendingCandle.value.ts == c.ts {
      BlockedCheckMarks(w1, c.close, o.intrabarCid, o.intrabarReply);
    } else {
      PendingConfirmKeepsPosition(w1, w.pendingCandle.value, o.cid, o.reply);
      BlockedCheckMarks(ConfirmCandle(w1, w.pendingCandle.value, o.cid, o.reply), c.close, o.intrabarCid, o.intrabarReply);
    }
  }

  lemma PendingConfirmKeepsPosition(w: WorkerState, c: Candle, cid: Id, reply: Option<Id>)
    requires w.strategy.phase.PendingEntry? || w.strategy.phase.PendingExit?
    ensures
      var w' := ConfirmCandle(w, c, cid, reply);
      SamePosition(w.strategy, w'.strategy) && w'.engine == w.engine.(mark := c.close)
  {
    hide StopPrice, TargetPrice, EntryAmount, TrendOk, VolatilityOk, RsiUpdate, CloseUpdate, VolUpdate;
  }

  lemma WaitingForOrder(base: Budget, w: WorkerState, id: Id)
    requires WorkerInv(w) && Settled(base, w.engine, id)
    ensures id in w.engine.orders && w.engine.orders[id].id == id && w.engine.orders[id].market == w.engine.market
    ensures w.strategy.phase == (if w.engine.orders[id].side.BID? then PendingEntry else PendingExit)
    ensures Named(w.engine.orders[id].identifier) && AllFills(w.engine.events) && Inv(w.engine) && IsActive(w.engine, id)
  {
  }

  lemma MessageKeepsStrategy(w: WorkerState, step: Step)
    requires step.OrderStep? || step.RecoverStep? || step.TimeoutStep?
    ensures Next(w, step).strategy == w.strategy
  {
    hide TradeStep, SnapshotStep, ReconcileStep, HandleMyOrder;
    if step.OrderStep? {
      HandleMyOrderUnfolds(w, step.dto);
    }
  }

  lemma OpenStepKeepsPosition(base: Budget, w: WorkerState, step: Step, id: Id)
    requires WorkerInv(w) && Settled(base, w.engine, id)
    ensures SamePosition(w.strategy, Next(w, step).strategy)
  {
    hide WorkerInv, Settled, HandleMyOrder, HandleMarketData, RunRecovery, HandleEvents;
    WaitingForOrder(base, w, id);
    match step {
      case CandleStep(c, o) => PendingCandleKeepsPosition(w, c, o);
      case PollStep => FillsKeepPosition(w.strategy, w.engine.events);
      case _ => MessageKeepsStrategy(w, step);
    }
  }

  lemma {:induction false} OpenRunKeepsPosition(base: Budget, w: WorkerState, steps: seq<Step>, id: Id)
    requires WorkerInv(w) && Settled(base, w.engine, id) && GoodRun(w, steps) && OpenThroughout(w, steps, id)
    requires id in Run(w, steps).engine.orders
    ensures
      var w' := Run(w, steps);
      WorkerInv(w') && Settled(base, w'.engine, id) && SamePosition(w.strategy, w'.strategy)
  {
    hide WorkerInv, Settled, Next, Good;
    if steps != [] {
      var earlier := steps[..|steps| - 1];
      assert forall k :: 0 <= k < |earlier| ==> earlier[..k] == steps[..k];
      OpenRunKeepsPosition(base, w, earlier, id);
      OpenStepKeepsPosition(base, Run(w, earlier), steps[|steps| - 1], id);
    }
    GoodRunIsRouted(w, steps);
    RunKeepsInStep(w, steps);
    RunSettlesOrder(base, w, steps, id);
  }

  /** Events of other orders, and reports of orders that are still open, change nothing. */
  lemma OtherEventsIgnored(s: StrategyState, ev: EngineEvent)
    requires s.pending != Some(ev.identifier) || (ev.StatusEvent? && !ev.status.Terminal())
    ensures HandleEvent(s, ev) == s
  {
  }

  // ---------- the report ----------

  /** The event says what a terminal snapshot with `volume` filled, leaving `coin`, means for the position. */
  predicate TellsEnd(ev: EngineEvent, side: Side, volume: real, coin: real) {
    && ev.StatusEvent? && ev.status.Terminal()
    && ev.effect == if volume <= 0.0 then NoEffect else if side.BID? then Opened else if coin == 0.0 then Closed else Reduced
  }

  ghost predicate EndQueued(e: EngineState, side: Side, volume: real) {
    e.events != [] && TellsEnd(e.events[|e.events| - 1], side, volume, e.budget.coin)
  }

  lemma SnapshotQueuesEnd(e: EngineState, s: Order)
    requires Inv(e) && SameOrder(e, s) && IsActive(e, s.id) && Named(e.orders[s.id].identifier)
    requires s.id !in SnapshotStep(e, s).orders
    ensures EndQueued(SnapshotStep(e, s), s.side, s.executedVolume)
  {
    hide OrderFinalized, Consistent, ReservationBacked;
  }

  lemma ReconcileQueuesEnd(e: EngineState, s: Order)
    requires Inv(e) && SameOrder(e, s) && IsActive(e, s.id) && Named(e.orders[s.id].identifier)
    requires s.id !in ReconcileStep(e, s).0.orders
    ensures EndQueued(ReconcileStep(e, s).0, s.side, s.executedVolume)
  {
    hide SnapshotStep, EndQueued;
    if s.id in e.orders && SettleDelta(e, s, e.orders[s.id]).Some? {
      DeltaKeepsInv(e, s, e.orders[s.id]);
      DeltaKeepsIds(e, s, e.orders[s.id]);
      SnapshotQueuesEnd(SettleDelta(e, s, e.orders[s.id]).value, s);
    }
  }

  lemma MessageQueuesEnd(w: WorkerState, d: MyOrderDto)
    requires Inv(w.engine) && GoodMessage(w.engine, d) && IsActive(w.engine, d.uuid)
    requires Named(w.engine.orders[d.uuid].identifier) && d.uuid !in HandleMyOrder(w, d).engine.orders
    ensures EndQueued(HandleMyOrder(w, d).engine, w.engine.orders[d.uuid].side, d.executedVolume)
  {
    hide HandleMyOrder, TradeStep, SnapshotStep, ReconcileStep, EndQueued, GoodTrade, GoodFill, GoodTotals;
    hide ToSnapshot, ToTrade, IsTrade;
    HandleMyOrderUnfolds(w, d);
    GoodMessageMapped(w.engine, d);
    SnapshotCarries(d);
    TradeCarries(d);
    if IsTrade(d) {
      OpenSnapshotEffect(TradeStep(w.engine, ToTrade(d)), ToSnapshot(d)) by {
        TradeWindow(w.engine, ToTrade(d));
      }
    } else if ToSnapshot(d).status.Terminal() {
      ReconcileQueuesEnd(w.engine, ToSnapshot(d));
    } else {
      OpenSnapshotEffect(w.engine, ToSnapshot(d));
    }
  }

  /** The lookups of a recovery that ends the order. */
  lemma LookupQueuesEnd(w: WorkerState, buy: Option<Order>, sell: Option<Order>, id: Id)
    requires WorkerInv(w) && IsActive(w.engine, id) && Named(w.engine.orders[id].identifier)
    requires GoodReplies(w.engine, buy, sell) && id !in RunRecovery(w, buy, sell).engine.orders
    ensures
      var r := UsedReply(w.engine, buy, sell);
      r.Some? && EndQueued(RunRecovery(w, buy, sell).engine, w.engine.orders[id].side, r.value.executedVolume)
  {
    hide ReconcileStep, EndQueued, GoodTotals;
    RecoveryLooksUpOne(w, id, buy, sell);
    var r := UsedReply(w.engine, buy, sell);
    if r.Some? {
      LookupRemovesOwn(w.engine, r.value, id);
      ReconcileQueuesEnd(w.engine, r.value);
    }
  }

  lemma LookupRemovesOwn(e: EngineState, s: Order, id: Id)
    requires id in e.orders && KeyedById(e.orders) && id !in ReconcileStep(e, s).0.orders
    ensures s.id == id
  {
  }

  /** Whichever step ends the order queues its report and leaves the strategy waiting for it. */
  lemma StepQueuesEnd(base: Budget, w: WorkerState, step: Step, id: Id)
    requires WorkerInv(w) && Settled(base, w.engine, id) && Good(w, step) && id !in Next(w, step).engine.orders
    ensures
      var w' := Next(w, step);
      && Reported(w, step).Some? && w'.strategy == w.strategy
      && EndQueued(w'.engine, w.engine.orders[id].side, Reported(w, step).value.totals.volume)
  {
    hide WorkerInv, Settled, HandleMyOrder, HandleMarketData, RunRecovery, EndQueued, GoodMessage, GoodReply, Routed;
    StepSettles(base, w, step, id);
    WaitingForOrder(base, w, id);
    match step {
      case OrderStep(d) =>
        MessageKeepsStrategy(w, step);
        MessageQueuesEnd(w, d);
      case RecoverStep(buy, sell) =>
        WatchDoesNotMatter(w, w.(recoveryRequested := false));
        LookupQueuesEnd(w.(recoveryRequested := false), buy, sell, id);
        MessageKeepsStrategy(w, step);
      case TimeoutStep(now, timeout, buy, sell) =>
        WatchDoesNotMatter(w, Tracked(w, now).(timeoutFired := true));
        LookupQueuesEnd(Tracked(w, now).(timeoutFired := true), buy, sell, id);
        MessageKeepsStrategy(w, step);
      case _ =>
    }
  }

  // ---------- until the poll ----------

  /** The order has ended, and the strategy does not know yet. */
  ghost predicate Untold(s: StrategyState, w: WorkerState, side: Side, volume: real) {
    && WorkerInv(w) && !IsPending(w.engine) && EndQueued(w.engine, side, volume) && SamePosition(s, w.strategy)
    && w.strategy.phase == (if side.BID? then PendingEntry else PendingExit)
  }

  lemma StaysUntold(s: StrategyState, w: WorkerState, step: Step, side: Side, volume: real)
    requires Untold(s, w, side, volume) && Good(w, step) && !step.PollStep?
    ensures Untold(s, Next(w, step), side, volume)
  {
    hide WorkerInv, TellsEnd, HandleMyOrder, HandleMarketData, GoodMessage, GoodReply;
    NextKeepsInv(w, step);
    match step {
      case CandleStep(c, o) => PendingCandleKeepsPosition(w, c, o);
      case OrderStep(d) =>
        MessageKeepsStrategy(w, step);
        ForeignMessageIgnored(w, d);
      case RecoverStep(buy, sell) => NothingToReconcile(w.engine, buy, sell);
      case TimeoutStep(_, _, buy, sell) => NothingToReconcile(w.engine, buy, sell);
    }
  }

  ghost predicate NoPolls(steps: seq<Step>) {
    forall i :: 0 <= i < |steps| ==> !steps[i].PollStep?
  }

  lemma {:induction false} RunStaysUntold(s: StrategyState, w: WorkerState, steps: seq<Step>, side: Side, volume: real)
    requires Untold(s, w, side, volume) && GoodRun(w, steps) && NoPolls(steps)
    ensures Untold(s, Run(w, steps), side, volume)
  {
    hide Untold, Next, Good;
    if steps != [] {
      RunStaysUntold(s, w, steps[..|steps| - 1], side, volume);
      StaysUntold(s, Run(w, steps[..|steps| - 1]), steps[|steps| - 1], side, volume);
    }
  }

  /** A terminal event is the last one, under the identifier the strategy waits for. */
  lemma QueueOfUntold(s: StrategyState, w: WorkerState, side: Side, volume: real)
    requires Untold(s, w, side, volume)
    ensures
      var evs := w.engine.events;
      && evs != [] && AllFills(evs[..|evs| - 1]) && evs[|evs| - 1].StatusEvent?
      && w.strategy.pending == Some(evs[|evs| - 1].identifier)
  {
  }

  lemma PollTells(s: StrategyState, w: WorkerState, side: Side, volume: real)
    requires Untold(s, w, side, volume)
    ensures Resolved(s, Poll(w).strategy, side, volume, Poll(w).engine.budget.coin)
  {
    hide WorkerInv, StopPrice, TargetPrice, FinalPrice;
    var evs := w.engine.events;
    QueueOfUntold(s, w, side, volume);
    FillsKeepPosition(w.strategy, evs[..|evs| - 1]);
    hide AllFills;
  }

  lemma NothingActiveAfter(base: Budget, w: WorkerState, step: Step, id: Id)
    requires WorkerInv(w) && Settled(base, w.engine, id) && Good(w, step) && id !in Next(w, step).engine.orders
    ensures !IsPending(Next(w, step).engine)
  {
    hide WorkerInv, Settled, Next, Good, IsPending;
    GoodIsRouted(w, step);
    NextKeepsInv(w, step);
    OneActiveId(w, base, id);
    StepNotCandle(base, w, step, id);
    NothingSubmitted(w, step);
    NothingActive(w.engine, Next(w, step), id);
  }

  lemma GoodIsRouted(w: WorkerState, step: Step)
    requires Good(w, step)
    ensures Routed(w, step)
  {
  }

  lemma StepNotCandle(base: Budget, w: WorkerState, step: Step, id: Id)
    requires WorkerInv(w) && Settled(base, w.engine, id) && id !in Next(w, step).engine.orders
    ensures !step.CandleStep?
  {
    hide WorkerInv, Settled, HandleMarketData;
    if step.CandleStep? {
      WaitingForOrder(base, w, id);
      PendingCandleKeepsPosition(w, step.candle, step.outside);
    }
  }

  /**
    Over every run of an order, whatever ends it and whatever comes before the poll: no fills leave a buy
    Flat and a sell InPosition with its levels as they were; fills leave a buy InPosition; and a sell with
    fills leaves the strategy Flat, without entry, stop and target, exactly when no coin is left.
  */
  lemma OrderResolves(base: Budget, w: WorkerState, steps: seq<Step>, last: Step, more: seq<Step>, id: Id)
    requires WorkerInv(w) && Settled(base, w.engine, id) && GoodRun(w, steps) && OpenThroughout(w, steps, id)
    requires id in Run(w, steps).engine.orders && Good(Run(w, steps), last)
    requires id !in Next(Run(w, steps), last).engine.orders
    requires GoodRun(Next(Run(w, steps), last), more) && NoPolls(more)
    ensures
      var before := Run(w, steps);
      var after := Next(Run(Next(before, last), more), PollStep);
      && Reported(before, last).Some?
      && Resolved(w.strategy, after.strategy, before.engine.orders[id].side, Reported(before, last).value.totals.volume,
                  after.engine.budget.coin)
  {
    hide WorkerInv, Settled, Good, EndQueued, Resolved, HandleMyOrder, HandleMarketData, RunRecovery, Run;
    var before := Run(w, steps);
    OpenRunKeepsPosition(base, w, steps, id);
    StepQueuesEnd(base, before, last, id);
    NothingActiveAfter(base, before, last, id);
    GoodIsRouted(before, last);
    NextKeepsInv(before, last);
    WaitingForOrder(base, before, id);
    var side, volume := before.engine.orders[id].side, Reported(before, last).value.totals.volume;
    RunStaysUntold(w.strategy, Next(before, last), more, side, volume);
    PollTells(w.strategy, Run(Next(before, last), more), side, volume);
  }

  /** So after any delivery of an order's fills to its end, what the strategy holds is told by the fills and the coin. */
  lemma FillsDecidePosition(base: Budget, w: WorkerState, o: Order, fills: seq<Fill>, steps: seq<Step>, p: Progress,
                            last: Step, more: seq<Step>)
    requires WorkerInv(w) && Settled(base, w.engine, o.id) && p.heard <= |fills| && FillsOf(o, fills)
    requires o == w.engine.orders[o.id] && Counted(w, o, fills, w, Progress(0, false)) && Brings(w, o, fills, steps, p)
    requires Ends(Run(w, steps), o, fills, last)
    requires GoodRun(Run(w, steps + [last]), more) && NoPolls(more)
    ensures
      var after := Next(Run(Run(w, steps + [last]), more), PollStep);
      Resolved(w.strategy, after.strategy, o.side, Totals(fills).volume, after.engine.budget.coin)
  {
    hide WorkerInv, Settled, Good, Resolved, Next, FillsOf, Brings, ClosedOn, Totals;
    LostSuffixCostsNothing(base, w, o, fills, steps, p, last);
    PrefixIsGood(base, w, o, fills, steps, p);
    assert (steps + [last])[..|steps|] == steps;
    OrderResolves(base, w, steps, last, more, o.id);
    SettledIsActive(base, Run(w, steps).engine, o.id);
    EndReports(Run(w, steps), o, fills, last);
    SideOf(o, Run(w, steps).engine.orders[o.id]);
  }

  lemma EndReports(before: WorkerState, o: Order, fills: seq<Fill>, last: Step)
    requires Ends(before, o, fills, last) && WorkerInv(before) && IsActive(before.engine, o.id)
    requires SameRequest(o, before.engine.orders[o.id])
    ensures Reported(before, last) == Some(Report(o.id, Totals(fills), true))
  {
    hide Totals, Tracked;
  }
}
