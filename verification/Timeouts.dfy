/**
  The watch on pending orders: when a check recovers them, and that a refused message is looked up. A
  recovery resets the watch, so the flag that should hold back a second timeout is never seen set; what keeps
  recoveries apart is the restarted clock.
*/
module Timeouts {
  import opened Domain
  import opened Engine
  import opened Strategy
  import opened Messages
  import opened Lockstep
  import opened Worker

  predicate TimesOut(w: WorkerState, step: Step) {
    step.TimeoutStep? && Fires(w, step.now, step.timeout)
  }

  /** The watch fields, which only lookups and timeout checks touch. */
  predicate SameWatch(w: WorkerState, w': WorkerState) {
    w'.tracking == w.tracking && w'.enteredAt == w.enteredAt && w'.timeoutFired == w.timeoutFired
  }

  lemma DecisionKeepsWatch(w: WorkerState, order: Option<OrderRequest>, reply: Option<Id>)
    ensures SameWatch(w, SubmitDecision(w, order, reply).0)
  {
    hide SubmitStep, OnSubmitFailed;
  }

  lemma CandlesKeepWatch(w: WorkerState, c: Candle, cid: Id, reply: Option<Id>)
    ensures SameWatch(w, ConfirmCandle(w, c, cid, reply)) && SameWatch(w, IntrabarCheck(w, c.close, cid, reply))
  {
    hide OnCandle, OnIntrabarCandle, SubmitDecision;
    var w1 := w.(engine := w.engine.(mark := c.close));
    var (s, order) := OnCandle(w1.strategy, c, AccountOf(w1), cid);
    DecisionKeepsWatch(w1.(strategy := s), order, reply);
    var (s', order') := OnIntrabarCandle(w1.strategy, c.close, AccountOf(w1), cid);
    DecisionKeepsWatch(w1.(strategy := s'), order', reply);
  }

  lemma MessagesKeepWatch(w: WorkerState, step: Step)
    requires step.OrderStep? || step.CandleStep? || step.PollStep?
    ensures SameWatch(w, Next(w, step))
  {
    hide TradeStep, SnapshotStep, ReconcileStep, ConfirmCandle, IntrabarCheck, HandleEvents, HandleMyOrder;
    match step {
      case OrderStep(d) => HandleMyOrderUnfolds(w, d);
      case CandleStep(c, o) =>
        var w1 := w.(pendingCandle := Some(c));
        CandlesKeepWatch(w1, c, o.intrabarCid, o.intrabarReply);
        if w.pendingCandle.Some? {
          CandlesKeepWatch(w1, w.pendingCandle.value, o.cid, o.reply);
          CandlesKeepWatch(ConfirmCandle(w1, w.pendingCandle.value, o.cid, o.reply), c, o.intrabarCid, o.intrabarReply);
        }
      case _ =>
    }
  }

  lemma WatchOfStep(w: WorkerState, step: Step)
    requires !w.timeoutFired
    ensures !Next(w, step).timeoutFired
    ensures TimesOut(w, step) ==> !Next(w, step).tracking
    ensures Next(w, step).tracking ==>
              || (w.tracking && Next(w, step).enteredAt == w.enteredAt)
              || (step.TimeoutStep? && Next(w, step).enteredAt == step.now)
  {
    hide HandleMyOrder, HandleMarketData, Poll, Reconciled;
    if step.OrderStep? || step.CandleStep? || step.PollStep? {
      MessagesKeepWatch(w, step);
    }
  }

  /** At no step boundary of any run is the timeout flag set: the branch that waits for it to clear is dead. */
  lemma {:induction false} TimeoutFlagNeverSeen(w: WorkerState, steps: seq<Step>)
    requires !w.timeoutFired
    ensures !Run(w, steps).timeoutFired
  {
    hide Next;
    if steps != [] {
      TimeoutFlagNeverSeen(w, steps[..|steps| - 1]);
      WatchOfStep(Run(w, steps[..|steps| - 1]), steps[|steps| - 1]);
    }
  }

  /** The clock readings of the run's timeout checks do not go back, and none is before `from`. */
  ghost predicate ClockFrom(steps: seq<Step>, from: int) {
    && (forall i :: 0 <= i < |steps| && steps[i].TimeoutStep? ==> from <= steps[i].now)
    && (forall i, j :: 0 <= i < j < |steps| && steps[i].TimeoutStep? && steps[j].TimeoutStep? ==> steps[i].now <= steps[j].now)
  }

  /** After a recovery the watch is off, or was started again later. */
  lemma {:induction false} WatchRestarts(w: WorkerState, first: Step, steps: seq<Step>)
    requires !w.timeoutFired && TimesOut(w, first) && ClockFrom(steps, first.now)
    ensures
      var w' := Run(Next(w, first), steps);
      !w'.timeoutFired && (w'.tracking ==> w'.enteredAt >= first.now)
  {
    hide Next, TimesOut;
    WatchOfStep(w, first);
    if steps != [] {
      var earlier, last := steps[..|steps| - 1], steps[|steps| - 1];
      assert forall i :: 0 <= i < |earlier| ==> earlier[i] == steps[i];
      WatchRestarts(w, first, earlier);
      WatchOfStep(Run(Next(w, first), earlier), last);
    }
  }

  /** For every run between them: two timeout recoveries are at least one timeout apart. */
  lemma TimeoutsAreApart(w: WorkerState, first: Step, steps: seq<Step>, second: Step)
    requires !w.timeoutFired && TimesOut(w, first) && ClockFrom(steps, first.now)
    requires TimesOut(Run(Next(w, first), steps), second) && second.timeout > 0
    ensures second.now - first.now >= second.timeout
  {
    hide Next, Run;
    WatchRestarts(w, first, steps);
  }

  // ---------- when a recovery is due ----------

  /** The watch on a pending order has been running since t0. */
  predicate WatchingSince(w: WorkerState, t0: int) {
    w.tracking && w.enteredAt == t0 && !w.timeoutFired
  }

  /** A step that looks nothing up, and finds the order pending if it checks. */
  ghost predicate KeepsWaiting(w: WorkerState, step: Step, t0: int) {
    !step.RecoverStep? && (step.TimeoutStep? ==> IsPending(w.engine) && step.now - t0 < step.timeout)
  }

  ghost predicate Waiting(w: WorkerState, steps: seq<Step>, t0: int) {
    steps != [] ==>
      var earlier := steps[..|steps| - 1];
      Waiting(w, earlier, t0) && KeepsWaiting(Run(w, earlier), steps[|steps| - 1], t0)
  }

  lemma StepKeepsWatching(w: WorkerState, step: Step, t0: int)
    requires WatchingSince(w, t0) && KeepsWaiting(w, step, t0)
    ensures WatchingSince(Next(w, step), t0)
  {
    hide HandleMyOrder, HandleMarketData, Poll, RunRecovery;
    if !step.TimeoutStep? {
      MessagesKeepWatch(w, step);
    }
  }

  lemma {:induction false} RunKeepsWatching(w: WorkerState, steps: seq<Step>, t0: int)
    requires WatchingSince(w, t0) && Waiting(w, steps, t0)
    ensures WatchingSince(Run(w, steps), t0)
  {
    hide Next, WatchingSince, KeepsWaiting;
    if steps != [] {
      RunKeepsWatching(w, steps[..|steps| - 1], t0);
      StepKeepsWatching(Run(w, steps[..|steps| - 1]), steps[|steps| - 1], t0);
    }
  }

  /** The first check that sees an order pending starts the watch. */
  lemma CheckStartsWatch(w: WorkerState, t0: int, timeout: int, buy: Option<Order>, sell: Option<Order>)
    requires !w.tracking && IsPending(w.engine) && timeout > 0
    ensures WatchingSince(Next(w, TimeoutStep(t0, timeout, buy, sell)), t0)
    ensures Next(w, TimeoutStep(t0, timeout, buy, sell)).engine == w.engine
  {
    hide RunRecovery;
  }

  /** What a check at time `now` does to the worker: the lookups of both active orders, or nothing. */
  predicate Checked(w: WorkerState, buy: Option<Order>, sell: Option<Order>, due: bool, w': WorkerState) {
    if due then
      && w'.engine == Reconciled(Reconciled(w.engine, w.engine.buyId, buy), w.engine.sellId, sell)
      && !w'.tracking && !w'.timeoutFired
    else w'.engine == w.engine && w'.tracking == w.tracking && w'.enteredAt == w.enteredAt
  }

  /**
    Over every run in which the order stays pending and nothing else looks it up: a check recovers it if and
    only if `timeout` has passed since the first check that saw it pending; and every check publishes
    whether an order is pending.
  */
  lemma RecoversWhenDue(w: WorkerState, t0: int, steps: seq<Step>, now: int, timeout: int,
                        buy: Option<Order>, sell: Option<Order>)
    requires WatchingSince(w, t0) && Waiting(w, steps, t0) && IsPending(Run(w, steps).engine)
    ensures
      var before := Run(w, steps);
      Checked(before, buy, sell, now - t0 >= timeout, Next(before, TimeoutStep(now, timeout, buy, sell)))
    ensures Next(Run(w, steps), TimeoutStep(now, timeout, buy, sell)).hasActivePending
  {
    hide Run, Reconciled;
    RunKeepsWatching(w, steps, t0);
  }

  /** With nothing pending a check looks nothing up, ends the watch, and says so. */
  lemma IdleCheckRests(w: WorkerState, now: int, timeout: int, buy: Option<Order>, sell: Option<Order>)
    requires !IsPending(w.engine)
    ensures
      var w' := Next(w, TimeoutStep(now, timeout, buy, sell));
      w'.engine == w.engine && !w'.tracking && !w'.timeoutFired && !w'.hasActivePending
  {
  }

  // ---------- refused messages ----------

  /** Every step but a recovery keeps the request for one. */
  lemma StepKeepsRequest(w: WorkerState, step: Step)
    requires w.recoveryRequested && !step.RecoverStep?
    ensures Next(w, step).recoveryRequested
  {
    hide TradeStep, SnapshotStep, ReconcileStep, HandleMyOrder, HandleEvents, Reconciled, ConfirmCandle, IntrabarCheck;
    match step {
      case OrderStep(d) => HandleMyOrderUnfolds(w, d);
      case CandleStep(c, o) =>
        var w1 := w.(pendingCandle := Some(c));
        CandlesKeepRequest(w1, c, o.intrabarCid, o.intrabarReply);
        if w.pendingCandle.Some? {
          CandlesKeepRequest(w1, w.pendingCandle.value, o.cid, o.reply);
          CandlesKeepRequest(ConfirmCandle(w1, w.pendingCandle.value, o.cid, o.reply), c, o.intrabarCid, o.intrabarReply);
        }
      case _ =>
    }
  }

  lemma CandlesKeepRequest(w: WorkerState, c: Candle, cid: Id, reply: Option<Id>)
    ensures ConfirmCandle(w, c, cid, reply).recoveryRequested == w.recoveryRequested
    ensures IntrabarCheck(w, c.close, cid, reply).recoveryRequested == w.recoveryRequested
  {
    hide OnCandle, OnIntrabarCandle, SubmitStep, OnSubmitFailed;
  }

  lemma {:induction false} RunKeepsRequest(w: WorkerState, steps: seq<Step>)
    requires w.recoveryRequested && forall i :: 0 <= i < |steps| ==> !steps[i].RecoverStep?
    ensures Run(w, steps).recoveryRequested
  {
    hide Next;
    if steps != [] {
      RunKeepsRequest(w, steps[..|steps| - 1]);
      StepKeepsRequest(Run(w, steps[..|steps| - 1]), steps[|steps| - 1]);
    }
  }

  /** An order message asks for a recovery exactly if it ends an order and cannot be applied: amounts unknown, or no such order. */
  lemma RefusedAsksForRecovery(w: WorkerState, d: MyOrderDto)
    requires !w.recoveryRequested
    ensures
      var w' := HandleMyOrder(w, d);
      && (w'.recoveryRequested <==> EndsOrder(d) && !ReconcileStep(w.engine, ToSnapshot(d)).1)
      && (w'.recoveryRequested ==> w'.engine == w.engine)
  {
    hide TradeStep, SnapshotStep, HandleMyOrder, ToSnapshot, ToTrade, IsTrade, SettleDelta;
    TradeCarries(d);
    SnapshotCarries(d);
    HandleMyOrderUnfolds(w, d);
  }

  /**
    A message that ends an order without its funds changes nothing but asks for a recovery; whatever comes
    before the next pass of the loop, that pass begins with the lookups, and then the request is gone.
  */
  lemma RefusedIsLookedUp(w: WorkerState, d: MyOrderDto, steps: seq<Step>, replies: Lookups)
    requires EndsOrder(d) && d.uuid in w.engine.orders && d.code == w.engine.market
    requires
      var o := w.engine.orders[d.uuid];
      d.executedVolume > o.executedVolume && d.executedFunds <= o.executedFunds
    requires forall i :: 0 <= i < |steps| ==> !steps[i].RecoverStep?
    ensures
      var before := Run(HandleMyOrder(w, d), steps);
      && HandleMyOrder(w, d).engine == w.engine
      && StartSteps(before, replies) == [RecoverStep(replies.buy, replies.sell)]
      && !Run(before, StartSteps(before, replies)).recoveryRequested
      && Run(before, StartSteps(before, replies)).engine
         == Reconciled(Reconciled(before.engine, before.engine.buyId, replies.buy), before.engine.sellId, replies.sell)
  {
    hide TradeStep, SnapshotStep, HandleMyOrder, ToSnapshot, ToTrade, IsTrade, Reconciled, Run;
    TradeCarries(d);
    SnapshotCarries(d);
    HandleMyOrderUnfolds(w, d);
    RunKeepsRequest(HandleMyOrder(w, d), steps);
    RunOne(Run(HandleMyOrder(w, d), steps), RecoverStep(replies.buy, replies.sell));
  }

  /** Each queued item is handled by one step; a request to synchronise looks up both active orders. */
  lemma ItemsAreHandled(w: WorkerState, d: MyOrderDto, c: Candle, o: Outside, replies: Lookups)
    ensures Run(w, ItemSteps(Some(MyOrderRaw(d)), replies)) == HandleMyOrder(w, d)
    ensures Run(w, ItemSteps(Some(MarketDataRaw(c, o)), replies)) == HandleMarketData(w, c, o)
    ensures Checked(w, replies.buy, replies.sell, true, Run(w, ItemSteps(Some(AccountSyncRequest), replies)))
    ensures Run(w, ItemSteps(None, replies)) == w
  {
    hide HandleMyOrder, HandleMarketData, Reconciled;
    RunOne(w, OrderStep(d));
    RunOne(w, CandleStep(c, o));
    RunOne(w, RecoverStep(replies.buy, replies.sell));
  }
}
