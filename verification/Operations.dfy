/**
  What a worker's step does to its engine is a run of the engine's own operations. So what is proved of
  engine runs holds of worker runs and of the fleet: KRW moves by settled fills alone, whoever steps when.
*/
module Operations {
  import opened Domain
  import opened Account
  import opened TradeDedupe
  import opened Engine
  import opened Strategy
  import opened Messages
  import opened Lifecycle
  import opened Worker
  import opened Lockstep
  import opened Fleet

  // ---------- a worker step as engine operations ----------

  function OrderOps(d: MyOrderDto): seq<Op> {
    if IsTrade(d) then [TradeOp(ToTrade(d)), SnapshotOp(ToSnapshot(d))]
    else if ToSnapshot(d).status.Terminal() then [ReconcileOp(ToSnapshot(d))]
    else [SnapshotOp(ToSnapshot(d))]
  }

  function DecisionOps(order: Option<OrderRequest>, reply: Option<Id>): seq<Op> {
    if order.None? then [] else [SubmitOp(order.value, reply)]
  }

  function ConfirmOps(w: WorkerState, c: Candle, cid: Id, reply: Option<Id>): seq<Op> {
    var w1 := w.(engine := w.engine.(mark := c.close));
    [MarkOp(c.close)] + DecisionOps(OnCandle(w1.strategy, c, AccountOf(w1), cid).1, reply)
  }

  function IntrabarOps(w: WorkerState, close: real, cid: Id, reply: Option<Id>): seq<Op> {
    var w1 := w.(engine := w.engine.(mark := close));
    [MarkOp(close)]
    + if IntrabarBlocked(w1) then []
      else DecisionOps(OnIntrabarCandle(w1.strategy, close, AccountOf(w1), cid).1, reply)
  }

  function CandleOps(w: WorkerState, c: Candle, o: Outside): seq<Op> {
    var w1 := w.(pendingCandle := Some(c));
    if w.pendingCandle.None? || w.pendingCandle.value.ts == c.ts
    then IntrabarOps(w1, c.close, o.intrabarCid, o.intrabarReply)
    else
      var last := w.pendingCandle.value;
      ConfirmOps(w1, last, o.cid, o.reply)
      + IntrabarOps(ConfirmCandle(w1, last, o.cid, o.reply), c.close, o.intrabarCid, o.intrabarReply)
  }

  function LookupOps(id: Id, reply: Option<Order>): seq<Op> {
    if id == NO_ID || reply.None? then [] else [ReconcileOp(reply.value)]
  }

  function RecoveryOps(e: EngineState, buy: Option<Order>, sell: Option<Order>): seq<Op> {
    LookupOps(e.buyId, buy) + LookupOps(e.sellId, sell)
  }

  /** The engine operations a worker makes in one step, in order. */
  function OpsOf(w: WorkerState, step: Step): seq<Op> {
    match step
    case OrderStep(d) => OrderOps(d)
    case CandleStep(c, o) => CandleOps(w, c, o)
    case RecoverStep(buy, sell) => RecoveryOps(w.engine, buy, sell)
    case TimeoutStep(now, timeout, buy, sell) =>
      if Fires(w, now, timeout) then RecoveryOps(w.engine, buy, sell) else []
    case PollStep => [PollOp]
  }

  // ---------- runs of operations ----------

  /** The operations are admissible one after another, and lead to e'. */
  ghost predicate LeadsTo(e: EngineState, ops: seq<Op>, e': EngineState) {
    AdmissibleRun(e, ops) && RunOps(e, ops) == e'
  }

  lemma NoOps(e: EngineState)
    ensures LeadsTo(e, [], e)
  {
  }

  lemma OneOp(e: EngineState, op: Op)
    requires Admissible(e, op)
    ensures LeadsTo(e, [op], Apply(e, op))
  {
    assert [op][..0] == [];
  }

  lemma {:induction false} OpsAppend(e: EngineState, xs: seq<Op>, e': EngineState, ys: seq<Op>, e'': EngineState)
    requires LeadsTo(e, xs, e') && LeadsTo(e', ys, e'')
    ensures LeadsTo(e, xs + ys, e'')
  {
    hide Apply, Admissible;
    if ys == [] {
      assert xs + ys == xs;
    } else {
      var init := ys[..|ys| - 1];
      assert (xs + ys)[..|xs + ys| - 1] == xs + init;
      OpsAppend(e, xs, e', init, RunOps(e', init));
    }
  }

  lemma OrderLeads(w: WorkerState, d: MyOrderDto)
    requires WorkerInv(w) && MessageOfOrder(w.engine, d)
    ensures LeadsTo(w.engine, OrderOps(d), HandleMyOrder(w, d).engine)
  {
    hide LeadsTo, TradeStep, SnapshotStep, ReconcileStep, InStep;
    HandleMyOrderUnfolds(w, d);
    var s := ToSnapshot(d);
    if IsTrade(d) {
      var t := ToTrade(d);
      TradeKeepsStep(w.engine, w.strategy, t);
      TradeKeepsMarket(w.engine, t);
      OneOp(w.engine, TradeOp(t));
      OneOp(TradeStep(w.engine, t), SnapshotOp(s));
      OpsAppend(w.engine, [TradeOp(t)], TradeStep(w.engine, t), [SnapshotOp(s)], HandleMyOrder(w, d).engine);
      assert [TradeOp(t)] + [SnapshotOp(s)] == OrderOps(d);
    } else if s.status.Terminal() {
      OneOp(w.engine, ReconcileOp(s));
    } else {
      OneOp(w.engine, SnapshotOp(s));
    }
  }

  lemma DecisionLeads(w: WorkerState, order: Option<OrderRequest>, reply: Option<Id>)
    requires FreshReply(w.engine, reply)
    ensures LeadsTo(w.engine, DecisionOps(order, reply), SubmitDecision(w, order, reply).0.engine)
  {
    hide LeadsTo, SubmitStep;
    if order.None? {
      NoOps(w.engine);
    } else {
      OneOp(w.engine, SubmitOp(order.value, reply));
    }
  }

  lemma MarkedLeads(e: EngineState, price: real, ops: seq<Op>, e': EngineState)
    requires LeadsTo(e.(mark := price), ops, e')
    ensures LeadsTo(e, [MarkOp(price)] + ops, e')
  {
    hide LeadsTo;
    OneOp(e, MarkOp(price));
    OpsAppend(e, [MarkOp(price)], e.(mark := price), ops, e');
  }

  lemma IntrabarLeads(w: WorkerState, close: real, cid: Id, reply: Option<Id>)
    requires !w.strategy.phase.InPosition? || FreshReply(w.engine, reply)
    ensures LeadsTo(w.engine, IntrabarOps(w, close, cid, reply), IntrabarCheck(w, close, cid, reply).engine)
  {
    hide LeadsTo, SubmitDecision, OnIntrabarCandle;
    var w1 := w.(engine := w.engine.(mark := close));
    if IntrabarBlocked(w1) {
      NoOps(w1.engine);
      MarkedLeads(w.engine, close, [], w1.engine);
    } else {
      var (s, order) := OnIntrabarCandle(w1.strategy, close, AccountOf(w1), cid);
      DecisionLeads(w1.(strategy := s), order, reply);
      MarkedLeads(w.engine, close, DecisionOps(order, reply), IntrabarCheck(w, close, cid, reply).engine);
    }
  }

  lemma ConfirmLeads(w: WorkerState, c: Candle, cid: Id, reply: Option<Id>)
    requires FreshReply(w.engine, reply)
    ensures LeadsTo(w.engine, ConfirmOps(w, c, cid, reply), ConfirmCandle(w, c, cid, reply).engine)
  {
    hide LeadsTo, SubmitDecision, OnCandle;
    var w1 := w.(engine := w.engine.(mark := c.close));
    var (s, order) := OnCandle(w1.strategy, c, AccountOf(w1), cid);
    DecisionLeads(w1.(strategy := s), order, reply);
    MarkedLeads(w.engine, c.close, DecisionOps(order, reply), ConfirmCandle(w, c, cid, reply).engine);
  }

  lemma CandleLeads(w: WorkerState, c: Candle, o: Outside)
    requires WorkerInv(w) && FreshOutside(w.engine, o)
    ensures LeadsTo(w.engine, CandleOps(w, c, o), HandleMarketData(w, c, o).engine)
  {
    hide LeadsTo, ConfirmCandle, IntrabarCheck, ConfirmOps, IntrabarOps, Inv, InStep;
    var w1 := w.(pendingCandle := Some(c));
    if w.pendingCandle.None? || w.pendingCandle.value.ts == c.ts {
      IntrabarLeads(w1, c.close, o.intrabarCid, o.intrabarReply);
    } else {
      var last := w.pendingCandle.value;
      var w2 := ConfirmCandle(w1, last, o.cid, o.reply);
      ConfirmKeepsStep(w1, last, o.cid, o.reply);
      ConfirmLeads(w1, last, o.cid, o.reply);
      IntrabarLeads(w2, c.close, o.intrabarCid, o.intrabarReply);
      OpsAppend(w.engine, ConfirmOps(w1, last, o.cid, o.reply), w2.engine,
                IntrabarOps(w2, c.close, o.intrabarCid, o.intrabarReply), HandleMarketData(w, c, o).engine);
    }
  }

  lemma LookupLeads(e: EngineState, id: Id, reply: Option<Order>)
    requires id != NO_ID ==> SameOrderReply(e, reply)
    ensures LeadsTo(e, LookupOps(id, reply), Reconciled(e, id, reply))
  {
    hide LeadsTo, ReconcileStep;
    if id == NO_ID || reply.None? {
      NoOps(e);
    } else {
      OneOp(e, ReconcileOp(reply.value));
    }
  }

  lemma RecoveryLeads(w: WorkerState, buy: Option<Order>, sell: Option<Order>)
    requires WorkerInv(w) && SameOrderReplies(w.engine, buy, sell)
    ensures LeadsTo(w.engine, RecoveryOps(w.engine, buy, sell), RunRecovery(w, buy, sell).engine)
  {
    hide LeadsTo, Reconciled, LookupOps, Consistent, ReservationBacked, InStep;
    var e := w.engine;
    NothingToReconcile(e, buy, sell);
    LookupLeads(e, e.buyId, buy);
    var e1 := Reconciled(e, e.buyId, buy);
    LookupLeads(e1, e.sellId, sell);
    OpsAppend(e, LookupOps(e.buyId, buy), e1, LookupOps(e.sellId, sell), Reconciled(e1, e.sellId, sell));
  }

  /** Every step of a worker does to its engine what its operations do, one after another. */
  lemma StepIsOps(w: WorkerState, step: Step)
    requires WorkerInv(w) && Routed(w, step)
    ensures AdmissibleRun(w.engine, OpsOf(w, step)) && RunOps(w.engine, OpsOf(w, step)) == Next(w, step).engine
  {
    assert LeadsTo(w.engine, OpsOf(w, step), Next(w, step).engine) by {
      hide LeadsTo, HandleMyOrder, HandleMarketData, RunRecovery, RecoveryOps, OrderOps, CandleOps, Inv, InStep;
      match step {
        case OrderStep(d) => OrderLeads(w, d);
        case CandleStep(c, o) => CandleLeads(w, c, o);
        case RecoverStep(buy, sell) => RecoveryLeads(w.(recoveryRequested := false), buy, sell);
        case TimeoutStep(now, timeout, buy, sell) =>
          if Fires(w, now, timeout) {
            RecoveryLeads(Tracked(w, now).(timeoutFired := true), buy, sell);
          } else {
            NoOps(w.engine);
          }
        case PollStep => OneOp(w.engine, PollOp);
      }
    }
  }

  function RunOpsOf(w: WorkerState, steps: seq<Step>): seq<Op> {
    if steps == [] then []
    else
      var earlier := steps[..|steps| - 1];
      RunOpsOf(w, earlier) + OpsOf(Run(w, earlier), steps[|steps| - 1])
  }

  /** And so does every run. */
  lemma {:induction false} RunIsOps(w: WorkerState, steps: seq<Step>)
    requires WorkerInv(w) && RoutedRun(w, steps)
    ensures AdmissibleRun(w.engine, RunOpsOf(w, steps)) && RunOps(w.engine, RunOpsOf(w, steps)) == Run(w, steps).engine
  {
    hide WorkerInv, Routed, Next, OpsOf, AdmissibleRun, RunOps;
    assert LeadsTo(w.engine, [], w.engine) by {
      NoOps(w.engine);
    }
    if steps != [] {
      var earlier, last := steps[..|steps| - 1], steps[|steps| - 1];
      RunIsOps(w, earlier);
      RunKeepsInStep(w, earlier);
      StepIsOps(Run(w, earlier), last);
      OpsAppend(w.engine, RunOpsOf(w, earlier), Run(w, earlier).engine, OpsOf(Run(w, earlier), last), Run(w, steps).engine);
    }
  }

  // ---------- KRW over worker runs ----------

  /** KRW one step moves in or out of the market. */
  function StepFlow(w: WorkerState, step: Step): real {
    Flows(w.engine, OpsOf(w, step))
  }

  function RunFlow(w: WorkerState, steps: seq<Step>): real {
    if steps == [] then 0.0
    else RunFlow(w, steps[..|steps| - 1]) + StepFlow(Run(w, steps[..|steps| - 1]), steps[|steps| - 1])
  }

  lemma StepMovesFlow(w: WorkerState, step: Step)
    requires WorkerInv(w) && Routed(w, step)
    ensures Held(Next(w, step).engine.budget) == Held(w.engine.budget) + StepFlow(w, step)
  {
    hide Next, OpsOf, InStep, AdmissibleRun, RunOps;
    StepIsOps(w, step);
    RunConservesKrw(w.engine, OpsOf(w, step));
  }

  /** Polls, and candles whatever they order, move none. */
  lemma OnlyMessagesMoveKrw(w: WorkerState, step: Step)
    requires step.CandleStep? || step.PollStep?
    ensures StepFlow(w, step) == 0.0
  {
    hide IntrabarOps, ConfirmOps, ConfirmCandle;
    match step {
      case CandleStep(c, o) =>
        var w1 := w.(pendingCandle := Some(c));
        assert NoFills(CandleOps(w, c, o)) by {
          ConfirmHasNoFills(w1, w.pendingCandle, o.cid, o.reply);
          IntrabarHasNoFills(w1, c.close, o.intrabarCid, o.intrabarReply);
          if w.pendingCandle.Some? {
            IntrabarHasNoFills(ConfirmCandle(w1, w.pendingCandle.value, o.cid, o.reply), c.close,
                               o.intrabarCid, o.intrabarReply);
          }
        }
        NoFillsNoFlow(w.engine, CandleOps(w, c, o));
      case PollStep => NoFillsNoFlow(w.engine, [PollOp]);
    }
  }

  predicate NoFills(ops: seq<Op>) {
    forall i :: 0 <= i < |ops| ==> !ops[i].TradeOp? && !ops[i].ReconcileOp?
  }

  lemma ConfirmHasNoFills(w: WorkerState, c: Option<Candle>, cid: Id, reply: Option<Id>)
    ensures c.Some? ==> NoFills(ConfirmOps(w, c.value, cid, reply))
  {
    hide OnCandle;
  }

  lemma IntrabarHasNoFills(w: WorkerState, close: real, cid: Id, reply: Option<Id>)
    ensures NoFills(IntrabarOps(w, close, cid, reply))
  {
    hide OnIntrabarCandle;
  }

  lemma {:induction false} NoFillsNoFlow(e: EngineState, ops: seq<Op>)
    requires NoFills(ops)
    ensures Flows(e, ops) == 0.0
  {
    hide RunOps;
    if ops != [] {
      NoFillsNoFlow(e, ops[..|ops| - 1]);
    }
  }

  /**
    Over any worker run, candles, messages, lookups and timeouts in any order, the market's KRW changes
    by its settled fills alone, and what is reserved is the remainder of the one active token.
  */
  lemma {:induction false} WorkerConservesKrw(w: WorkerState, steps: seq<Step>)
    requires WorkerInv(w) && RoutedRun(w, steps)
    ensures
      var e := Run(w, steps).engine;
      && Held(e.budget) == Held(w.engine.budget) + RunFlow(w, steps)
      && e.budget.reserved == (if e.token.Some? then e.token.value.Remaining() else 0.0)
      && e.budget.available >= 0.0 && e.budget.reserved >= 0.0
  {
    hide Next, Routed, StepFlow, InStep;
    RunKeepsInStep(w, steps);
    if steps != [] {
      WorkerConservesKrw(w, steps[..|steps| - 1]);
      RunKeepsInStep(w, steps[..|steps| - 1]);
      StepMovesFlow(Run(w, steps[..|steps| - 1]), steps[|steps| - 1]);
    }
  }

  // ---------- KRW over the fleet ----------

  ghost function TotalHeld(markets: set<Id>, bs: map<Id, Budget>): real
    requires markets <= bs.Keys
  {
    if markets == {} then 0.0
    else
      HasElement(markets);
      var m :| m in markets;
      Held(bs[m]) + TotalHeld(markets - {m}, bs)
  }

  lemma {:induction false} TotalSplits(markets: set<Id>, bs: map<Id, Budget>, m: Id)
    requires m in markets && markets <= bs.Keys
    ensures TotalHeld(markets, bs) == Held(bs[m]) + TotalHeld(markets - {m}, bs)
  {
    HasElement(markets);
    var x :| x in markets && TotalHeld(markets, bs) == Held(bs[x]) + TotalHeld(markets - {x}, bs);
    if x != m {
      TotalSplits(markets - {x}, bs, m);
      TotalSplits(markets - {m}, bs, x);
      assert markets - {x} - {m} == markets - {m} - {x};
    }
  }

  lemma {:induction false} SameTotal(markets: set<Id>, bs: map<Id, Budget>, bs': map<Id, Budget>)
    requires markets <= bs.Keys && markets <= bs'.Keys && forall m :: m in markets ==> bs'[m] == bs[m]
    ensures TotalHeld(markets, bs') == TotalHeld(markets, bs)
  {
    if markets != {} {
      HasElement(markets);
      var m :| m in markets;
      TotalSplits(markets, bs, m);
      TotalSplits(markets, bs', m);
      SameTotal(markets - {m}, bs, bs');
    }
  }

  /** KRW one worker's move brings into the fleet or takes out of it. */
  function MoveFlow(f: Fleet, move: Move): real {
    if move.market !in f.workers || move.market !in f.budgets then 0.0
    else StepFlow(WorkerOf(f, move.market), move.step)
  }

  function FleetFlow(f: Fleet, moves: seq<Move>): real {
    if moves == [] then 0.0
    else
      FleetFlow(f, moves[..|moves| - 1]) + MoveFlow(RunFleet(f, moves[..|moves| - 1]), moves[|moves| - 1])
  }

  lemma MoveMovesFlow(f: Fleet, move: Move)
    requires FleetInv(f) && (move.market in f.workers ==> Routed(WorkerOf(f, move.market), move.step))
    ensures
      var f' := Moved(f, move);
      f'.budgets.Keys == f.budgets.Keys
      && TotalHeld(f'.budgets.Keys, f'.budgets) == TotalHeld(f.budgets.Keys, f.budgets) + MoveFlow(f, move)
  {
    hide Next, Routed, WorkerInv, StepFlow, TotalHeld, Held;
    if move.market in f.workers && move.market in f.budgets {
      var m, f', markets := move.market, Moved(f, move), f.budgets.Keys;
      StepMovesFlow(WorkerOf(f, m), move.step);
      assert f'.budgets.Keys == markets;
      TotalSplits(markets, f.budgets, m);
      TotalSplits(markets, f'.budgets, m);
      SameTotal(markets - {m}, f.budgets, f'.budgets);
    }
  }

  /** Over every interleaving the KRW of all markets together changes by the fills settled in it alone. */
  lemma {:induction false} FleetConservesKrw(f: Fleet, moves: seq<Move>)
    requires FleetInv(f) && RoutedMoves(f, moves)
    ensures
      var f' := RunFleet(f, moves);
      TotalHeld(f'.budgets.Keys, f'.budgets) == TotalHeld(f.budgets.Keys, f.budgets) + FleetFlow(f, moves)
  {
    hide FleetInv, Moved, Routed, WorkerOf, MoveFlow, TotalHeld;
    if moves != [] {
      var earlier := moves[..|moves| - 1];
      FleetConservesKrw(f, earlier);
      FleetKeepsInStep(f, earlier);
      KeysMatch(RunFleet(f, earlier));
      MoveMovesFlow(RunFleet(f, earlier), moves[|moves| - 1]);
    }
  }

  lemma {:induction false} NothingReserved(markets: set<Id>, bs: map<Id, Budget>)
    requires markets <= bs.Keys && forall m :: m in markets ==> bs[m].reserved == 0.0
    ensures TotalHeld(markets, bs) == TotalAvailable(markets, bs)
  {
    if markets != {} {
      HasElement(markets);
      var m :| m in markets && TotalAvailable(markets, bs) == bs[m].available + TotalAvailable(markets - {m}, bs);
      TotalSplits(markets, bs, m);
      NothingReserved(markets - {m}, bs);
    }
  }

  /**
    From startup on: whatever the workers do and however they interleave, the KRW of all markets is the
    account's free KRW, plus what sells brought in, less what buys cost.
  */
  lemma FleetHoldsTheAccount(f: Fleet, moves: seq<Move>, bs: map<Id, Budget>, account: ExchangeAccount)
    requires FleetInv(f) && RoutedMoves(f, moves) && f.budgets == Rebuilt(bs, account)
    requires exists m :: m in f.budgets && f.budgets[m].coin < 0.00000001
    ensures
      var f' := RunFleet(f, moves);
      TotalHeld(f'.budgets.Keys, f'.budgets) == account.krwFree + FleetFlow(f, moves)
  {
    hide FleetInv, RoutedMoves, Rebuilt;
    FleetConservesKrw(f, moves);
    KeysOfRebuilt(bs, account);
    forall m | m in f.budgets
      ensures f.budgets[m].reserved == 0.0
    {
      RebuiltBudget(bs, account, m);
    }
    RebuiltDistributesKrw(bs, account);
    NothingReserved(f.budgets.Keys, f.budgets);
  }
}
