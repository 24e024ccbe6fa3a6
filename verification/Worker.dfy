/**
  src/app/MarketEngineManager.cpp: one market's worker, which routes exchange messages and
  candles to the engine and the strategy, carries engine events to the strategy, and recovers
  pending orders over REST. WorkerState is the value of everything one worker can see.
*/
module Worker {
  import opened Domain
  import opened Account
  import opened OrderStore
  import opened TradeDedupe
  import opened Engine
  import opened Strategy
  import opened Messages

  datatype WorkerState = WorkerState(
    engine: EngineState, strategy: StrategyState,
    pendingCandle: Option<Candle>, failTs: Option<Id>,
    tracking: bool, enteredAt: int, timeoutFired: bool, recoveryRequested: bool, hasActivePending: bool)

  function Started(engine: EngineState, strategy: StrategyState): WorkerState {
    WorkerState(engine, strategy, None, None, false, 0, false, false, false)
  }

  // ---------- exchange messages ----------

  function ApplyMessage(w: WorkerState, m: OrderMessage, hasTrade: bool): WorkerState {
    match m
    case TradeMessage(t) => w.(engine := TradeStep(w.engine, t))
    case SnapshotMessage(o) =>
      if !hasTrade && o.status.Terminal() then
        var (e, ok) := ReconcileStep(w.engine, o);
        w.(engine := e, recoveryRequested := w.recoveryRequested || !ok)
      else
        w.(engine := SnapshotStep(w.engine, o))
  }

  function ApplyMessages(w: WorkerState, ms: seq<OrderMessage>, hasTrade: bool): WorkerState {
    if ms == [] then w
    else ApplyMessage(ApplyMessages(w, ms[..|ms| - 1], hasTrade), ms[|ms| - 1], hasTrade)
  }

  function HandleMyOrder(w: WorkerState, d: MyOrderDto): WorkerState {
    ApplyMessages(w, ToEvents(d), IsTrade(d))
  }

  // ---------- candles ----------

  /** What the outside supplies while one candle is handled: fresh client ids and the replies to the posts. */
  datatype Outside = Outside(cid: Id, reply: Option<Id>, intrabarCid: Id, intrabarReply: Option<Id>)

  function AccountOf(w: WorkerState): AccountSnapshot {
    AccountSnapshot(w.engine.budget.available, w.engine.budget.coin)
  }

  /** Submits a decision if there is one and rolls the strategy back if the engine refuses it. */
  function SubmitDecision(w: WorkerState, order: Option<OrderRequest>, reply: Option<Id>): (WorkerState, bool) {
    if order.None? then (w, false)
    else
      var (e, result) := SubmitStep(w.engine, order.value, reply);
      if result.Accepted? then (w.(engine := e), false)
      else (w.(engine := e, strategy := OnSubmitFailed(w.strategy)), true)
  }

  predicate IntrabarBlocked(w: WorkerState) {
    || (w.pendingCandle.Some? && w.failTs == Some(w.pendingCandle.value.ts))
    || !w.strategy.phase.InPosition?
  }

  function IntrabarExit(w: WorkerState, close: real, cid: Id, reply: Option<Id>): WorkerState {
    var (s, order) := OnIntrabarCandle(w.strategy, close, AccountOf(w), cid);
    var (w1, failed) := SubmitDecision(w.(strategy := s), order, reply);
    if failed && w1.pendingCandle.Some? then w1.(failTs := Some(w1.pendingCandle.value.ts)) else w1
  }

  function IntrabarCheck(w: WorkerState, close: real, cid: Id, reply: Option<Id>): WorkerState {
    var w1 := w.(engine := w.engine.(mark := close));
    if IntrabarBlocked(w1) then w1 else IntrabarExit(w1, close, cid, reply)
  }

  function ConfirmCandle(w: WorkerState, candle: Candle, cid: Id, reply: Option<Id>): WorkerState {
    var w1 := w.(engine := w.engine.(mark := candle.close));
    var (s, order) := OnCandle(w1.strategy, candle, AccountOf(w1), cid);
    SubmitDecision(w1.(strategy := s), order, reply).0
  }

  function HandleMarketData(w: WorkerState, incoming: Candle, o: Outside): WorkerState {
    var w1 := w.(pendingCandle := Some(incoming));
    var w2 :=
      if w.pendingCandle.None? || w.pendingCandle.value.ts == incoming.ts then w1
      else ConfirmCandle(w1, w.pendingCandle.value, o.cid, o.reply);
    IntrabarCheck(w2, incoming.close, o.intrabarCid, o.intrabarReply)
  }

  // ---------- engine events ----------

  function Poll(w: WorkerState): WorkerState {
    w.(engine := w.engine.(events := []), strategy := HandleEvents(w.strategy, w.engine.events))
  }

  // ---------- recovery ----------

  function Reconciled(e: EngineState, id: Id, reply: Option<Order>): EngineState {
    if id == NO_ID || reply.None? then e else ReconcileStep(e, reply.value).0
  }

  /** The replies are the exchange's answers to looking up the active buy and the active sell. */
  function RunRecovery(w: WorkerState, buy: Option<Order>, sell: Option<Order>): WorkerState {
    var buyId, sellId := w.engine.buyId, w.engine.sellId;
    w.(engine := Reconciled(Reconciled(w.engine, buyId, buy), sellId, sell), tracking := false, timeoutFired := false)
  }

  lemma NothingToReconcile(e: EngineState, buy: Option<Order>, sell: Option<Order>)
    ensures Reconciled(e, NO_ID, buy) == e && Reconciled(e, NO_ID, sell) == e
  {
  }

  predicate IsPending(e: EngineState) {
    e.buyId != NO_ID || e.sellId != NO_ID
  }

  function Tracked(w: WorkerState, now: int): WorkerState {
    var w' := w.(hasActivePending := IsPending(w.engine));
    if !IsPending(w.engine) then w'.(tracking := false, timeoutFired := false)
    else if w.tracking then w'
    else w'.(tracking := true, enteredAt := now, timeoutFired := false)
  }

  /** The timeout check starts a recovery. */
  predicate Fires(w: WorkerState, now: int, timeout: int) {
    IsPending(w.engine) && !Tracked(w, now).timeoutFired && now - Tracked(w, now).enteredAt >= timeout
  }

  function CheckPendingTimeout(
    w: WorkerState, now: int, timeout: int, buy: Option<Order>, sell: Option<Order>): WorkerState
  {
    if Fires(w, now, timeout) then RunRecovery(Tracked(w, now).(timeoutFired := true), buy, sell) else Tracked(w, now)
  }

  // ---------- runs ----------

  datatype Step =
    | OrderStep(dto: MyOrderDto)
    | CandleStep(candle: Candle, outside: Outside)
    | RecoverStep(buy: Option<Order>, sell: Option<Order>)
    | TimeoutStep(now: int, timeout: int, buy: Option<Order>, sell: Option<Order>)
    | PollStep

  function Next(w: WorkerState, step: Step): WorkerState {
    match step
    case OrderStep(d) => HandleMyOrder(w, d)
    case CandleStep(c, o) => HandleMarketData(w, c, o)
    case RecoverStep(buy, sell) => RunRecovery(w.(recoveryRequested := false), buy, sell)
    case TimeoutStep(now, timeout, buy, sell) => CheckPendingTimeout(w, now, timeout, buy, sell)
    case PollStep => Poll(w)
  }

  function Run(w: WorkerState, steps: seq<Step>): WorkerState {
    if steps == [] then w else Next(Run(w, steps[..|steps| - 1]), steps[|steps| - 1])
  }

  // ---------- the worker object ----------

  method HasTrade(messages: seq<OrderMessage>) returns (hasTrade: bool)
    ensures hasTrade <==> exists k :: 0 <= k < |messages| && messages[k].TradeMessage?
  {
    hasTrade := false;
    for i := 0 to |messages|
      invariant !hasTrade && forall k :: 0 <= k < i ==> !messages[k].TradeMessage?
    {
      if messages[i].TradeMessage? {
        hasTrade := true;
        break;
      }
    }
  }

  datatype QueueItem =
    | MyOrderRaw(dto: MyOrderDto)
    | MarketDataRaw(candle: Candle, outside: Outside)
    | AccountSyncRequest

  /** The exchange's answers to order lookups made while one loop iteration runs. */
  datatype Lookups = Lookups(buy: Option<Order>, sell: Option<Order>)

  class MarketContext {
    const engine: MarketEngine
    const strategy: RsiMeanReversionStrategy
    var pendingCandle: Option<Candle>
    var failTs: Option<Id>
    var tracking: bool
    var enteredAt: int
    var timeoutFired: bool
    var recoveryRequested: bool
    var hasActivePending: bool

    ghost function Repr(): set<object>
      reads engine
    {
      {this} + engine.Repr() + strategy.Repr()
    }

    ghost predicate Valid()
      reads engine, Repr()
    {
      engine.Valid() && strategy.Valid() && engine.Repr() !! strategy.Repr()
    }

    ghost function View(): WorkerState
      reads engine, Repr()
      requires Valid()
    {
      WorkerState(engine.View(), strategy.View(), pendingCandle, failTs,
                  tracking, enteredAt, timeoutFired, recoveryRequested, hasActivePending)
    }

    constructor (engine: MarketEngine, strategy: RsiMeanReversionStrategy)
      requires engine.Valid() && strategy.Valid() && engine.Repr() !! strategy.Repr()
      ensures Valid() && this.engine == engine && this.strategy == strategy
      ensures View() == Started(engine.View(), strategy.View())
    {
      this.engine, this.strategy := engine, strategy;
      pendingCandle, failTs := None, None;
      tracking, enteredAt, timeoutFired, recoveryRequested, hasActivePending := false, 0, false, false, false;
    }

    lemma Fields()
      requires Valid()
      ensures pendingCandle == View().pendingCandle && failTs == View().failTs
      ensures tracking == View().tracking && enteredAt == View().enteredAt && timeoutFired == View().timeoutFired
      ensures recoveryRequested == View().recoveryRequested && hasActivePending == View().hasActivePending
      ensures strategy.phase == View().strategy.phase
      ensures engine.buyId == View().engine.buyId && engine.sellId == View().engine.sellId
    {
    }

    // One access to the engine, the strategy or the context's own fields each.

    method Trade(t: MyTrade)
      requires Valid()
      modifies Repr()
      ensures Valid() && fresh(Repr() - old(Repr()))
      ensures View() == old(View()).(engine := TradeStep(old(View()).engine, t))
    {
      hide TradeStep, MarketEngine.Valid, MarketEngine.View;
      engine.OnMyTrade(t);
    }

    method UpdateFromSnapshot(o: Order)
      requires Valid()
      modifies Repr()
      ensures Valid() && fresh(Repr() - old(Repr()))
      ensures View() == old(View()).(engine := SnapshotStep(old(View()).engine, o))
    {
      hide SnapshotStep, MarketEngine.Valid, MarketEngine.View;
      engine.OnOrderSnapshot(o);
    }

    method Reconcile(o: Order) returns (ok: bool)
      requires Valid()
      modifies Repr()
      ensures Valid() && fresh(Repr() - old(Repr()))
      ensures View() == old(View()).(engine := ReconcileStep(old(View()).engine, o).0)
      ensures ok == ReconcileStep(old(View()).engine, o).1
    {
      hide ReconcileStep, MarketEngine.Valid, MarketEngine.View;
      ok := engine.ReconcileFromSnapshot(o);
    }

    method SetMark(close: real)
      requires Valid()
      modifies Repr()
      ensures Valid() && Repr() == old(Repr())
      ensures View() == old(View()).(engine := old(View()).engine.(mark := close))
    {
      engine.SetMarkPrice(close);
    }

    method DecideIntrabar(close: real, account: AccountSnapshot, cid: Id) returns (order: Option<OrderRequest>)
      requires Valid()
      modifies Repr()
      ensures Valid() && Repr() == old(Repr())
      ensures var (s, o) := OnIntrabarCandle(old(View()).strategy, close, account, cid);
              View() == old(View()).(strategy := s) && order == o
    {
      hide OnIntrabarCandle, RsiMeanReversionStrategy.Valid, RsiMeanReversionStrategy.View;
      order := strategy.HandleIntrabar(close, account, cid);
    }

    method DecideConfirmed(candle: Candle, account: AccountSnapshot, cid: Id) returns (order: Option<OrderRequest>)
      requires Valid()
      modifies Repr()
      ensures Valid() && Repr() == old(Repr())
      ensures var (s, o) := OnCandle(old(View()).strategy, candle, account, cid);
              View() == old(View()).(strategy := s) && order == o
    {
      hide OnCandle, RsiMeanReversionStrategy.Valid, RsiMeanReversionStrategy.View;
      order := strategy.HandleCandle(candle, account, cid);
    }

    method SubmitToEngine(req: OrderRequest, reply: Option<Id>) returns (result: SubmitResult)
      requires Valid()
      modifies Repr()
      ensures Valid() && fresh(Repr() - old(Repr()))
      ensures var (e, r) := SubmitStep(old(View()).engine, req, reply);
              View() == old(View()).(engine := e) && result == r
    {
      hide SubmitStep, MarketEngine.Valid, MarketEngine.View;
      result := engine.Submit(req, reply);
    }

    method RollBackStrategy()
      requires Valid()
      modifies Repr()
      ensures Valid() && Repr() == old(Repr())
      ensures View() == old(View()).(strategy := OnSubmitFailed(old(View()).strategy))
    {
      strategy.SubmitFailed();
    }

    method TakeEvents() returns (out: seq<EngineEvent>)
      requires Valid()
      modifies Repr()
      ensures Valid() && Repr() == old(Repr()) && out == old(View()).engine.events
      ensures View() == old(View()).(engine := old(View()).engine.(events := []))
    {
      out := engine.PollEvents();
    }

    method TellStrategy(ev: EngineEvent)
      requires Valid()
      modifies Repr()
      ensures Valid() && Repr() == old(Repr())
      ensures View() == old(View()).(strategy := HandleEvent(old(View()).strategy, ev))
    {
      hide OnFill, OnOrderUpdate;
      match ev {
        case FillEvent(identifier, _, _, _, price, volume) =>
          strategy.HandleFill(identifier, price, volume);
        case StatusEvent(identifier, _, status, _, executedVolume, _, executedFunds, effect) =>
          strategy.HandleStatus(identifier, status, executedVolume, executedFunds, effect);
      }
    }

    method BuildAccountSnapshot() returns (a: AccountSnapshot)
      requires Valid()
      ensures a == AccountOf(View())
      ensures a == AccountSnapshot(View().engine.budget.available, View().engine.budget.coin)
    {
      var b := engine.account.budgets[engine.market];
      return AccountSnapshot(b.available, b.coin);
    }

    method SetPendingCandle(c: Candle)
      requires Valid()
      modifies Repr()
      ensures Valid() && Repr() == old(Repr()) && View() == old(View()).(pendingCandle := Some(c))
    {
      pendingCandle := Some(c);
    }

    method RememberFailure()
      requires Valid()
      modifies Repr()
      ensures Valid() && Repr() == old(Repr())
      ensures View() == old(View()).(failTs := if old(View()).pendingCandle.Some?
                                               then Some(old(View()).pendingCandle.value.ts) else old(View()).failTs)
    {
      hide MarketEngine.Valid, MarketEngine.View, RsiMeanReversionStrategy.Valid, RsiMeanReversionStrategy.View;
      if pendingCandle.Some? {
        failTs := Some(pendingCandle.value.ts);
      }
    }

    method SetRecoveryRequested(requested: bool)
      requires Valid()
      modifies Repr()
      ensures Valid() && Repr() == old(Repr()) && View() == old(View()).(recoveryRequested := requested)
    {
      recoveryRequested := requested;
    }

    method SetTracking(track: bool, at: int, fired: bool, active: bool)
      requires Valid()
      modifies Repr()
      ensures Valid() && Repr() == old(Repr())
      ensures View() == old(View()).(tracking := track, enteredAt := at, timeoutFired := fired, hasActivePending := active)
    {
      hide MarketEngine.Valid, MarketEngine.View, RsiMeanReversionStrategy.Valid, RsiMeanReversionStrategy.View;
      tracking, enteredAt, timeoutFired, hasActivePending := track, at, fired, active;
    }

    // The handlers.

    method Apply(m: OrderMessage, hasTrade: bool)
      requires Valid()
      modifies Repr()
      ensures Valid() && fresh(Repr() - old(Repr())) && View() == ApplyMessage(old(View()), m, hasTrade)
    {
      hide TradeStep, SnapshotStep, ReconcileStep;
      hide MarketContext.Valid, MarketContext.View;
      match m {
        case TradeMessage(t) =>
          Trade(t);
        case SnapshotMessage(o) =>
          if !hasTrade && o.status.Terminal() {
            var ok := Reconcile(o);
            if !ok {
              SetRecoveryRequested(true);
            }
          } else {
            UpdateFromSnapshot(o);
          }
      }
    }

    method OnMyOrder(d: MyOrderDto)
      requires Valid()
      modifies Repr()
      ensures Valid() && fresh(Repr() - old(Repr())) && View() == HandleMyOrder(old(View()), d)
    {
      hide ApplyMessage;
      hide MarketContext.Valid, MarketContext.View;
      var messages := ToEvents(d);
      var hasTrade := HasTrade(messages);
      assert hasTrade == IsTrade(d) by {
        assert IsTrade(d) ==> messages[0].TradeMessage?;
      }
      for i := 0 to |messages|
        invariant Valid() && fresh(Repr() - old(Repr()))
        invariant View() == ApplyMessages(old(View()), messages[..i], hasTrade)
      {
        assert messages[..i + 1][..i] == messages[..i];
        Apply(messages[i], hasTrade);
      }
      assert messages[..|messages|] == messages;
    }

    method Submit(order: Option<OrderRequest>, reply: Option<Id>) returns (failed: bool)
      requires Valid()
      modifies Repr()
      ensures Valid() && fresh(Repr() - old(Repr()))
      ensures (View(), failed) == SubmitDecision(old(View()), order, reply)
    {
      hide SubmitStep, OnSubmitFailed;
      hide MarketContext.Valid, MarketContext.View;
      if order.None? {
        return false;
      }
      var result := SubmitToEngine(order.value, reply);
      if result.Accepted? {
        return false;
      }
      RollBackStrategy();
      return true;
    }

    method SubmitIntrabarExit(close: real, cid: Id, reply: Option<Id>) returns (failed: bool)
      requires Valid()
      modifies Repr()
      ensures Valid() && fresh(Repr() - old(Repr()))
      ensures var (s, order) := OnIntrabarCandle(old(View()).strategy, close, AccountOf(old(View())), cid);
              (View(), failed) == SubmitDecision(old(View()).(strategy := s), order, reply)
    {
      hide OnIntrabarCandle, SubmitDecision, AccountOf;
      hide MarketContext.Valid, MarketContext.View;
      var account := BuildAccountSnapshot();
      var order := DecideIntrabar(close, account, cid);
      failed := Submit(order, reply);
    }

    method TryIntrabarExit(close: real, cid: Id, reply: Option<Id>)
      requires Valid()
      modifies Repr()
      ensures Valid() && fresh(Repr() - old(Repr()))
      ensures View() == IntrabarExit(old(View()), close, cid, reply)
    {
      hide OnIntrabarCandle, SubmitDecision, AccountOf;
      hide MarketContext.Valid, MarketContext.View;
      var failed := SubmitIntrabarExit(close, cid, reply);
      if failed {
        RememberFailure();
      }
    }

    method DoIntrabarCheck(close: real, cid: Id, reply: Option<Id>)
      requires Valid()
      modifies Repr()
      ensures Valid() && fresh(Repr() - old(Repr()))
      ensures View() == IntrabarCheck(old(View()), close, cid, reply)
    {
      hide IntrabarExit;
      hide MarketContext.Valid, MarketContext.View;
      SetMark(close);
      Fields();
      if pendingCandle.Some? && failTs.Some? && pendingCandle.value.ts == failTs.value {
        return;
      }
      if strategy.phase != InPosition {
        return;
      }
      TryIntrabarExit(close, cid, reply);
    }

    method Confirm(candle: Candle, cid: Id, reply: Option<Id>)
      requires Valid()
      modifies Repr()
      ensures Valid() && fresh(Repr() - old(Repr()))
      ensures View() == ConfirmCandle(old(View()), candle, cid, reply)
    {
      hide OnCandle, SubmitDecision;
      hide MarketContext.Valid, MarketContext.View;
      SetMark(candle.close);
      var account := BuildAccountSnapshot();
      var order := DecideConfirmed(candle, account, cid);
      var _ := Submit(order, reply);
    }

    method OnMarketData(incoming: Candle, o: Outside)
      requires Valid()
      modifies Repr()
      ensures Valid() && fresh(Repr() - old(Repr()))
      ensures View() == HandleMarketData(old(View()), incoming, o)
    {
      hide ConfirmCandle, IntrabarCheck;
      hide MarketContext.Valid, MarketContext.View;
      Fields();
      if pendingCandle.None? {
        SetPendingCandle(incoming);
        DoIntrabarCheck(incoming.close, o.intrabarCid, o.intrabarReply);
        return;
      }
      if pendingCandle.value.ts == incoming.ts {
        SetPendingCandle(incoming);
        DoIntrabarCheck(incoming.close, o.intrabarCid, o.intrabarReply);
        return;
      }
      var candle := pendingCandle.value;
      SetPendingCandle(incoming);
      Confirm(candle, o.cid, o.reply);
      DoIntrabarCheck(incoming.close, o.intrabarCid, o.intrabarReply);
    }

    method HandleEngineEvents(evs: seq<EngineEvent>)
      requires Valid()
      modifies Repr()
      ensures Valid() && Repr() == old(Repr())
      ensures View() == old(View()).(strategy := HandleEvents(old(View()).strategy, evs))
    {
      hide HandleEvent;
      hide MarketContext.Valid, MarketContext.View;
      for i := 0 to |evs|
        invariant Valid() && Repr() == old(Repr())
        invariant View() == old(View()).(strategy := HandleEvents(old(View()).strategy, evs[..i]))
      {
        assert evs[..i + 1][..i] == evs[..i];
        TellStrategy(evs[i]);
      }
      assert evs[..|evs|] == evs;
    }

    method PollEngine()
      requires Valid()
      modifies Repr()
      ensures Valid() && Repr() == old(Repr()) && View() == Poll(old(View()))
    {
      hide HandleEvents;
      hide MarketContext.Valid, MarketContext.View;
      var out := TakeEvents();
      HandleEngineEvents(out);
    }

    method ReconcileActive(id: Id, reply: Option<Order>)
      requires Valid()
      modifies Repr()
      ensures Valid() && fresh(Repr() - old(Repr()))
      ensures View() == old(View()).(engine := Reconciled(old(View()).engine, id, reply))
    {
      hide ReconcileStep;
      hide MarketContext.Valid, MarketContext.View;
      if id != NO_ID && reply.Some? {
        var _ := Reconcile(reply.value);
      }
    }

    method PendingIds() returns (buyId: Id, sellId: Id)
      requires Valid()
      ensures buyId == View().engine.buyId && sellId == View().engine.sellId
    {
      buyId, sellId := engine.ActivePendingIds();
    }

    method StopTracking()
      requires Valid()
      modifies Repr()
      ensures Valid() && Repr() == old(Repr())
      ensures View() == old(View()).(tracking := false, timeoutFired := false)
    {
      hide MarketEngine.Valid, MarketEngine.View, RsiMeanReversionStrategy.Valid, RsiMeanReversionStrategy.View;
      tracking, timeoutFired := false, false;
    }

    method Recover(buy: Option<Order>, sell: Option<Order>)
      requires Valid()
      modifies Repr()
      ensures Valid() && fresh(Repr() - old(Repr()))
      ensures View() == RunRecovery(old(View()), buy, sell)
    {
      hide MarketContext.Valid, MarketContext.View;
      NothingToReconcile(View().engine, buy, sell);
      hide Reconciled;
      var buyId, sellId := PendingIds();
      if buyId == NO_ID && sellId == NO_ID {
        StopTracking();
        return;
      }
      ReconcileActive(buyId, buy);
      ReconcileActive(sellId, sell);
      StopTracking();
    }

    method Track(now: int) returns (pending: bool)
      requires Valid()
      modifies Repr()
      ensures Valid() && Repr() == old(Repr())
      ensures pending == IsPending(old(View()).engine) && View() == Tracked(old(View()), now)
    {
      hide MarketEngine.Valid, MarketEngine.View, RsiMeanReversionStrategy.Valid, RsiMeanReversionStrategy.View;
      Fields();
      pending := engine.buyId != NO_ID || engine.sellId != NO_ID;
      hasActivePending := pending;
      if pending && !tracking {
        tracking := true;
        enteredAt := now;
        timeoutFired := false;
      }
      if !pending {
        tracking, timeoutFired := false, false;
      }
    }

    method CheckTimeout(now: int, timeout: int, buy: Option<Order>, sell: Option<Order>)
      requires Valid()
      modifies Repr()
      ensures Valid() && fresh(Repr() - old(Repr()))
      ensures View() == CheckPendingTimeout(old(View()), now, timeout, buy, sell)
    {
      hide RunRecovery, Tracked;
      hide MarketContext.Valid, MarketContext.View;
      var pending := Track(now);
      Fields();
      if !pending || timeoutFired || now - enteredAt < timeout {
        return;
      }
      SetTracking(tracking, enteredAt, true, hasActivePending);
      Recover(buy, sell);
    }

    method HandleItem(item: Option<QueueItem>, replies: Lookups)
      requires Valid() && !View().recoveryRequested
      modifies Repr()
      ensures Valid() && fresh(Repr() - old(Repr()))
      ensures View() == Run(old(View()), ItemSteps(item, replies))
    {
      hide HandleMyOrder, HandleMarketData, RunRecovery;
      hide MarketContext.Valid, MarketContext.View;
      if item.Some? {
        match item.value {
          case MyOrderRaw(d) =>
            OnMyOrder(d);
          case MarketDataRaw(c, o) =>
            OnMarketData(c, o);
          case AccountSyncRequest =>
            Recover(replies.buy, replies.sell);
        }
        RunOne(old(View()), ItemSteps(item, replies)[0]);
      }
    }

    method FinishIteration(now: int, timeout: int, replies: Lookups)
      requires Valid()
      modifies Repr()
      ensures Valid() && fresh(Repr() - old(Repr()))
      ensures View() == Run(old(View()), [PollStep, TimeoutStep(now, timeout, replies.buy, replies.sell)])
    {
      hide CheckPendingTimeout, Poll;
      hide MarketContext.Valid, MarketContext.View;
      PollEngine();
      CheckTimeout(now, timeout, replies.buy, replies.sell);
      RunTwo(old(View()), PollStep, TimeoutStep(now, timeout, replies.buy, replies.sell));
    }

    method StartIteration(replies: Lookups)
      requires Valid()
      modifies Repr()
      ensures Valid() && fresh(Repr() - old(Repr())) && !View().recoveryRequested
      ensures View() == Run(old(View()), StartSteps(old(View()), replies))
    {
      hide RunRecovery;
      hide MarketContext.Valid, MarketContext.View;
      Fields();
      if recoveryRequested {
        SetRecoveryRequested(false);
        Recover(replies.buy, replies.sell);
        RecoveryKeepsRequest(old(View()).(recoveryRequested := false), replies);
        RunOne(old(View()), StartSteps(old(View()), replies)[0]);
      }
    }

    /** One pass of the worker loop is a run of at most four steps. */
    method LoopIteration(item: Option<QueueItem>, now: int, timeout: int,
                         first: Lookups, second: Lookups, third: Lookups)
      requires Valid()
      modifies Repr()
      ensures Valid() && fresh(Repr() - old(Repr()))
      ensures View() == Run(old(View()), StartSteps(old(View()), first) + ItemSteps(item, second)
                                         + [PollStep, TimeoutStep(now, timeout, third.buy, third.sell)])
    {
      hide MarketContext.Valid, MarketContext.View, Run;
      StartIteration(first);
      HandleItem(item, second);
      FinishIteration(now, timeout, third);
      RunAppend(old(View()), StartSteps(old(View()), first), ItemSteps(item, second));
      RunAppend(old(View()), StartSteps(old(View()), first) + ItemSteps(item, second),
                [PollStep, TimeoutStep(now, timeout, third.buy, third.sell)]);
    }
  }

  function StartSteps(w: WorkerState, replies: Lookups): seq<Step> {
    if w.recoveryRequested then [RecoverStep(replies.buy, replies.sell)] else []
  }

  lemma RecoveryKeepsRequest(w: WorkerState, replies: Lookups)
    ensures RunRecovery(w, replies.buy, replies.sell).recoveryRequested == w.recoveryRequested
  {
  }

  function ItemSteps(item: Option<QueueItem>, replies: Lookups): seq<Step> {
    match item
    case None => []
    case Some(MyOrderRaw(d)) => [OrderStep(d)]
    case Some(MarketDataRaw(c, o)) => [CandleStep(c, o)]
    case Some(AccountSyncRequest) => [RecoverStep(replies.buy, replies.sell)]
  }

  lemma CandleIsNext(w: WorkerState, step: Step)
    requires step.CandleStep?
    ensures Next(w, step) == HandleMarketData(w, step.candle, step.outside)
  {
  }

  lemma RunOne(w: WorkerState, step: Step)
    ensures Run(w, [step]) == Next(w, step)
  {
    assert [step][..0] == [];
  }

  lemma RunTwo(w: WorkerState, first: Step, second: Step)
    ensures Run(w, [first, second]) == Next(Next(w, first), second)
  {
    assert [first, second][..1] == [first];
    RunOne(w, first);
  }

  lemma {:induction false} RunAppend(w: WorkerState, xs: seq<Step>, ys: seq<Step>)
    ensures Run(w, xs + ys) == Run(Run(w, xs), ys)
  {
    if ys == [] {
      assert xs + ys == xs;
    } else {
      assert (xs + ys)[..|xs + ys| - 1] == xs + ys[..|ys| - 1];
      RunAppend(w, xs, ys[..|ys| - 1]);
    }
  }
}
