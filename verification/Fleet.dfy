/**
  All workers together, over one set of budgets and one order store. Whole steps of the workers interleave
  in any order; each worker moves exactly as it would alone with only its own market's orders in the store,
  so every theorem about one worker's runs holds of every worker of the fleet.
*/
module Fleet {
  import opened Domain
  import opened Account
  import opened OrderStore
  import opened TradeDedupe
  import opened Engine
  import opened Strategy
  import opened Messages
  import opened Lifecycle
  import opened Worker
  import opened Lockstep

  // ---------- one market's part of the store ----------

  function OrdersOf(orders: map<Id, Order>, m: Id): map<Id, Order> {
    map k | k in orders && orders[k].market == m :: orders[k]
  }

  function Own(e: EngineState): EngineState {
    e.(orders := OrdersOf(e.orders, e.market))
  }

  function OwnWorker(w: WorkerState): WorkerState {
    w.(engine := Own(w.engine))
  }

  /** The orders of the other markets are the same. */
  ghost predicate ForeignSame(orders: map<Id, Order>, orders': map<Id, Order>, m: Id) {
    forall k ::
      && (k in orders && orders[k].market != m <==> k in orders' && orders'[k].market != m)
      && (k in orders && orders[k].market != m ==> orders'[k] == orders[k])
  }

  lemma ForeignSameKeepsOthers(orders: map<Id, Order>, orders': map<Id, Order>, m: Id, other: Id)
    requires ForeignSame(orders, orders', m) && other != m
    ensures OrdersOf(orders', other) == OrdersOf(orders, other)
  {
    var mine, mine' := OrdersOf(orders, other), OrdersOf(orders', other);
    forall k
      ensures k in mine <==> k in mine'
      ensures k in mine ==> mine[k] == mine'[k]
    {
    }
  }

  // ---------- the engine sees only its own orders ----------

  lemma SubmitIsOwn(e: EngineState, req: OrderRequest, reply: Option<Id>)
    requires FreshReply(e, reply)
    ensures
      var (e', r') := SubmitStep(Own(e), req, reply);
      var (e1, r1) := SubmitStep(e, req, reply);
      e' == Own(e1) && r' == r1 && ForeignSame(e.orders, e1.orders, e.market) && e1.market == e.market
  {
    hide Reserved, Released, CanReserve, ReserveAmount, ValidRequest;
    var e1 := SubmitStep(e, req, reply).0;
    if e1.orders != e.orders {
      var o := NewOrder(req, reply.value);
      assert OrdersOf(e.orders[o.id := o], e.market) == OrdersOf(e.orders, e.market)[o.id := o];
    }
  }

  lemma TradeIsOwn(e: EngineState, t: MyTrade)
    requires t.orderId in e.orders ==> e.orders[t.orderId].market == e.market
    ensures TradeStep(Own(e), t) == Own(TradeStep(e, t))
    ensures TradeStep(e, t).orders == e.orders && TradeStep(e, t).market == e.market
  {
    hide BuyFilled, SellFilled, Mark, Key;
    assert t.orderId in OrdersOf(e.orders, e.market) <==> t.orderId in e.orders;
  }

  lemma UpdateIsOwn(orders: map<Id, Order>, o: Order, m: Id)
    requires o.id in orders && orders[o.id].market == m && o.market == m
    ensures OrdersOf(orders[o.id := o], m) == OrdersOf(orders, m)[o.id := o]
    ensures ForeignSame(orders, orders[o.id := o], m)
  {
  }

  lemma EraseIsOwn(orders: map<Id, Order>, id: Id, m: Id)
    requires id in orders ==> orders[id].market == m
    ensures OrdersOf(orders - {id}, m) == OrdersOf(orders, m) - {id} && ForeignSame(orders, orders - {id}, m)
  {
  }

  lemma ForeignSameTwice(orders: map<Id, Order>, orders': map<Id, Order>, orders'': map<Id, Order>, m: Id)
    requires ForeignSame(orders, orders', m) && ForeignSame(orders', orders'', m)
    ensures ForeignSame(orders, orders'', m)
  {
    forall k
      ensures k in orders && orders[k].market != m <==> k in orders'' && orders''[k].market != m
      ensures k in orders && orders[k].market != m ==> orders''[k] == orders[k]
    {
      assert k in orders && orders[k].market != m <==> k in orders' && orders'[k].market != m;
    }
  }

  /** Closing an order does not look at the store. */
  lemma CloseIsOwn(e: EngineState, o: Order, orders: map<Id, Order>)
    ensures CloseOrder(e.(orders := orders), o) == CloseOrder(e, o).(orders := orders)
    ensures CloseOrder(e, o).orders == e.orders && CloseOrder(e, o).market == e.market
  {
    hide OrderFinalized, SellFinalized, StatusEvents;
  }

  lemma SnapshotIsOwn(e: EngineState, s: Order)
    requires KeyedById(e.orders) && SameOrder(e, s)
    ensures SnapshotStep(Own(e), s) == Own(SnapshotStep(e, s))
    ensures ForeignSame(e.orders, SnapshotStep(e, s).orders, e.market) && SnapshotStep(e, s).market == e.market
  {
    hide CloseOrder;
    if s.id in e.orders && (s.market == NO_ID || s.market == e.market) {
      var o := Merged(e.orders[s.id], s);
      var orders := e.orders[o.id := o];
      UpdateIsOwn(e.orders, o, e.market);
      EraseIsOwn(orders, o.id, e.market);
      ForeignSameTwice(e.orders, orders, orders - {o.id}, e.market);
      CloseIsOwn(e.(orders := orders), o, OrdersOf(orders, e.market));
    }
  }

  lemma DeltaIsOwn(e: EngineState, s: Order, known: Order)
    ensures SettleDelta(e, s, known).None? <==> SettleDelta(Own(e), s, known).None?
    ensures SettleDelta(e, s, known).Some? ==>
              && SettleDelta(Own(e), s, known).value == Own(SettleDelta(e, s, known).value)
              && SettleDelta(e, s, known).value.orders == e.orders && SettleDelta(e, s, known).value.market == e.market
  {
    hide BuyFilled, SellFilled;
  }

  lemma ReconcileIsOwn(e: EngineState, s: Order)
    requires KeyedById(e.orders) && SameOrder(e, s)
    ensures
      var (e', ok) := ReconcileStep(e, s);
      ReconcileStep(Own(e), s) == (Own(e'), ok) && ForeignSame(e.orders, e'.orders, e.market) && e'.market == e.market
  {
    hide SettleDelta, SnapshotStep;
    if s.id in e.orders {
      DeltaIsOwn(e, s, e.orders[s.id]);
      if SettleDelta(e, s, e.orders[s.id]).Some? {
        SnapshotIsOwn(SettleDelta(e, s, e.orders[s.id]).value, s);
      }
    }
  }

  // ---------- so does the worker ----------

  /** A worker step is a step of the own worker, and leaves the other markets' orders alone. */
  ghost predicate IsOwnStep(w: WorkerState, w': WorkerState, own: WorkerState) {
    && own == OwnWorker(w') && w'.engine.market == w.engine.market
    && ForeignSame(w.engine.orders, w'.engine.orders, w.engine.market)
  }

  lemma OrderIsOwn(w: WorkerState, d: MyOrderDto)
    requires Inv(w.engine) && MessageOfOrder(w.engine, d)
    ensures IsOwnStep(w, HandleMyOrder(w, d), HandleMyOrder(OwnWorker(w), d))
  {
    hide HandleMyOrder, TradeStep, SnapshotStep, ReconcileStep, Own;
    HandleMyOrderUnfolds(w, d);
    HandleMyOrderUnfolds(OwnWorker(w), d);
    var s := ToSnapshot(d);
    if IsTrade(d) {
      TradeIsOwn(w.engine, ToTrade(d));
      SnapshotIsOwn(TradeStep(w.engine, ToTrade(d)), s);
    } else {
      SnapshotIsOwn(w.engine, s);
      ReconcileIsOwn(w.engine, s);
    }
  }

  lemma OwnIsMost(e: EngineState)
    ensures Own(e) == e.(orders := Own(e).orders)
    ensures forall p :: Own(e.(mark := p)) == Own(e).(mark := p)
  {
  }

  lemma DecisionIsOwn(w: WorkerState, order: Option<OrderRequest>, reply: Option<Id>)
    requires FreshReply(w.engine, reply)
    ensures
      var (w', failed) := SubmitDecision(w, order, reply);
      && SubmitDecision(OwnWorker(w), order, reply).1 == failed
      && IsOwnStep(w, w', SubmitDecision(OwnWorker(w), order, reply).0)
  {
    hide SubmitStep, Own, OnSubmitFailed;
    if order.Some? {
      SubmitIsOwn(w.engine, order.value, reply);
    }
  }

  lemma IntrabarIsOwn(w: WorkerState, close: real, cid: Id, reply: Option<Id>)
    requires FreshReply(w.engine, reply)
    ensures IsOwnStep(w, IntrabarCheck(w, close, cid, reply), IntrabarCheck(OwnWorker(w), close, cid, reply))
  {
    hide SubmitDecision, OnIntrabarCandle, Own;
    OwnIsMost(w.engine);
    var w1 := w.(engine := w.engine.(mark := close));
    var (s, order) := OnIntrabarCandle(w1.strategy, close, AccountOf(w1), cid);
    DecisionIsOwn(w1.(strategy := s), order, reply);
  }

  lemma ConfirmIsOwn(w: WorkerState, c: Candle, cid: Id, reply: Option<Id>)
    requires FreshReply(w.engine, reply)
    ensures IsOwnStep(w, ConfirmCandle(w, c, cid, reply), ConfirmCandle(OwnWorker(w), c, cid, reply))
  {
    hide SubmitDecision, OnCandle, Own;
    OwnIsMost(w.engine);
    var w1 := w.(engine := w.engine.(mark := c.close));
    var (s, order) := OnCandle(w1.strategy, c, AccountOf(w1), cid);
    DecisionIsOwn(w1.(strategy := s), order, reply);
  }

  lemma OwnStepsCompose(w: WorkerState, w1: WorkerState, w2: WorkerState, own: WorkerState)
    requires IsOwnStep(w, w1, OwnWorker(w1)) && IsOwnStep(w1, w2, own)
    ensures IsOwnStep(w, w2, own)
  {
    hide OwnWorker;
    ForeignSameTwice(w.engine.orders, w1.engine.orders, w2.engine.orders, w.engine.market);
  }

  lemma CandleIsOwn(w: WorkerState, c: Candle, o: Outside)
    requires WorkerInv(w) && FreshOutside(w.engine, o)
    ensures IsOwnStep(w, HandleMarketData(w, c, o), HandleMarketData(OwnWorker(w), c, o))
  {
    hide WorkerInv, ConfirmCandle, IntrabarCheck, IntrabarExit, Own;
    var w1 := w.(pendingCandle := Some(c));
    if w.pendingCandle.None? || w.pendingCandle.value.ts == c.ts {
      IntrabarIsOwn(w1, c.close, o.intrabarCid, o.intrabarReply);
    } else {
      var last := w.pendingCandle.value;
      var w2 := ConfirmCandle(w1, last, o.cid, o.reply);
      ConfirmIsOwn(w1, last, o.cid, o.reply);
      SameWorker(w, w1);
      ConfirmKeepsStep(w1, last, o.cid, o.reply);
      if w2.strategy.phase.InPosition? {
        IntrabarIsOwn(w2, c.close, o.intrabarCid, o.intrabarReply);
      } else {
        BlockedIsOwn(w2, c.close, o.intrabarCid, o.intrabarReply);
      }
      OwnStepsCompose(w1, w2, IntrabarCheck(w2, c.close, o.intrabarCid, o.intrabarReply),
                      IntrabarCheck(OwnWorker(w2), c.close, o.intrabarCid, o.intrabarReply));
    }
  }

  lemma SameWorker(w: WorkerState, w': WorkerState)
    requires WorkerInv(w) && w'.engine == w.engine && w'.strategy == w.strategy
    ensures WorkerInv(w')
  {
  }

  lemma BlockedIsOwn(w: WorkerState, close: real, cid: Id, reply: Option<Id>)
    requires !w.strategy.phase.InPosition?
    ensures IsOwnStep(w, IntrabarCheck(w, close, cid, reply), IntrabarCheck(OwnWorker(w), close, cid, reply))
  {
    hide IntrabarExit;
  }

  lemma LookupIsOwn(e: EngineState, id: Id, reply: Option<Order>)
    requires KeyedById(e.orders) && (id != NO_ID ==> SameOrderReply(e, reply))
    ensures Reconciled(Own(e), id, reply) == Own(Reconciled(e, id, reply))
    ensures Reconciled(e, id, reply).market == e.market
    ensures ForeignSame(e.orders, Reconciled(e, id, reply).orders, e.market)
  {
    hide ReconcileStep;
    if reply.Some? && id != NO_ID {
      ReconcileIsOwn(e, reply.value);
    }
  }

  lemma RecoveryIsOwn(w: WorkerState, buy: Option<Order>, sell: Option<Order>)
    requires Inv(w.engine) && SameOrderReplies(w.engine, buy, sell)
    ensures IsOwnStep(w, RunRecovery(w, buy, sell), RunRecovery(OwnWorker(w), buy, sell))
  {
    hide Reconciled;
    NothingToReconcile(w.engine, buy, sell);
    NothingToReconcile(Reconciled(w.engine, w.engine.buyId, buy), buy, sell);
    NothingToReconcile(Own(w.engine), buy, sell);
    NothingToReconcile(Reconciled(Own(w.engine), w.engine.buyId, buy), buy, sell);
    LookupIsOwn(w.engine, w.engine.buyId, buy);
    LookupIsOwn(w.engine, w.engine.sellId, sell);
  }

  lemma NextIsOwn(w: WorkerState, step: Step)
    requires WorkerInv(w) && Routed(w, step)
    ensures IsOwnStep(w, Next(w, step), Next(OwnWorker(w), step))
  {
    hide HandleMyOrder, HandleMarketData, RunRecovery, WorkerInv, Own;
    InvOf(w);
    match step {
      case OrderStep(d) => OrderIsOwn(w, d);
      case CandleStep(c, o) => CandleIsOwn(w, c, o);
      case RecoverStep(buy, sell) => RecoveryIsOwn(w.(recoveryRequested := false), buy, sell);
      case TimeoutStep(now, timeout, buy, sell) =>
        OwnIsPending(w.engine);
        if Fires(w, now, timeout) {
          RecoveryIsOwn(Tracked(w, now).(timeoutFired := true), buy, sell);
        }
      case PollStep => PollIsOwn(w);
    }
  }

  lemma InvOf(w: WorkerState)
    requires WorkerInv(w)
    ensures Inv(w.engine)
  {
  }

  lemma OwnIsPending(e: EngineState)
    ensures IsPending(Own(e)) == IsPending(e) && Own(e).market == e.market
  {
  }

  lemma PollIsOwn(w: WorkerState)
    ensures IsOwnStep(w, Poll(w), Poll(OwnWorker(w)))
  {
    hide HandleEvents;
  }

  lemma OwnStore(e: EngineState)
    requires KeyedById(e.orders)
    ensures StoreMatchesActive(e) <==> StoreMatchesActive(Own(e))
    ensures StoreMatchesActive(e) ==>
              forall side, cid :: ActiveFor(Own(e), side, cid) <==> ActiveFor(e, side, cid)
  {
    var own := OrdersOf(e.orders, e.market);
    assert forall k :: k in own <==> k in e.orders && e.orders[k].market == e.market;
    assert forall k :: k in own ==> own[k] == e.orders[k];
    assert forall k :: IsActive(Own(e), k) <==> IsActive(e, k);
    if StoreMatchesActive(Own(e)) {
      forall k | IsActive(e, k)
        ensures k in e.orders && e.orders[k].market == e.market && !e.orders[k].status.Terminal()
        ensures e.orders[k].side == (if k == e.buyId then BID else ASK)
      {
        assert IsActive(Own(e), k);
      }
    }
  }

  lemma OwnInvariant(w: WorkerState)
    requires KeyedById(w.engine.orders)
    ensures WorkerInv(w) <==> WorkerInv(OwnWorker(w))
  {
    hide Consistent, StoreMatchesActive, ActiveFor, TerminalQueued, AllFills;
    OwnStore(w.engine);
    OwnIsPending(w.engine);
  }

  lemma OwnRouted(w: WorkerState, step: Step)
    requires Routed(w, step)
    ensures Routed(OwnWorker(w), step)
  {
  }

  // ---------- the fleet ----------

  /** The workers' private state; their engines' budgets and orders are those of the shared maps. */
  datatype Fleet = Fleet(budgets: map<Id, Budget>, orders: map<Id, Order>, workers: map<Id, WorkerState>)

  datatype Move = Move(market: Id, step: Step)

  function WorkerOf(f: Fleet, m: Id): WorkerState
    requires m in f.workers && m in f.budgets
  {
    f.workers[m].(engine := f.workers[m].engine.(budget := f.budgets[m], orders := f.orders))
  }

  function Moved(f: Fleet, move: Move): Fleet {
    if move.market !in f.workers || move.market !in f.budgets then f
    else
      var w := Next(WorkerOf(f, move.market), move.step);
      Fleet(f.budgets[move.market := w.engine.budget], w.engine.orders, f.workers[move.market := w])
  }

  function RunFleet(f: Fleet, moves: seq<Move>): Fleet {
    if moves == [] then f else Moved(RunFleet(f, moves[..|moves| - 1]), moves[|moves| - 1])
  }

  function StepsOf(moves: seq<Move>, m: Id): seq<Step> {
    if moves == [] then []
    else
      StepsOf(moves[..|moves| - 1], m)
      + if moves[|moves| - 1].market == m then [moves[|moves| - 1].step] else []
  }

  ghost predicate RoutedMoves(f: Fleet, moves: seq<Move>) {
    moves != [] ==>
      var f', move := RunFleet(f, moves[..|moves| - 1]), moves[|moves| - 1];
      && RoutedMoves(f, moves[..|moves| - 1])
      && (move.market in f'.workers && move.market in f'.budgets ==> Routed(WorkerOf(f', move.market), move.step))
  }

  ghost predicate FleetInv(f: Fleet) {
    && f.workers.Keys == f.budgets.Keys
    && forall m :: m in f.workers ==> WorkerOf(f, m).engine.market == m && WorkerInv(WorkerOf(f, m))
  }

  lemma MovedWorker(f: Fleet, move: Move)
    requires FleetInv(f) && move.market in f.workers && Routed(WorkerOf(f, move.market), move.step)
    ensures
      var f', m := Moved(f, move), move.market;
      && f'.workers.Keys == f.workers.Keys && f'.budgets.Keys == f.budgets.Keys
      && WorkerOf(f', m) == Next(WorkerOf(f, m), move.step)
      && OwnWorker(WorkerOf(f', m)) == Next(OwnWorker(WorkerOf(f, m)), move.step)
      && WorkerInv(WorkerOf(f', m)) && WorkerOf(f', m).engine.market == m
  {
    hide Next, WorkerInv, Routed, OwnWorker;
    NextIsOwn(WorkerOf(f, move.market), move.step);
    NextKeepsInv(WorkerOf(f, move.market), move.step);
  }

  lemma OtherWorker(f: Fleet, move: Move, other: Id)
    requires FleetInv(f) && move.market in f.workers && Routed(WorkerOf(f, move.market), move.step)
    requires other in f.workers && other != move.market
    ensures
      var f' := Moved(f, move);
      && other in f'.workers && other in f'.budgets
      && OwnWorker(WorkerOf(f', other)) == OwnWorker(WorkerOf(f, other))
      && WorkerInv(WorkerOf(f', other)) && WorkerOf(f', other).engine.market == other
  {
    hide Next, WorkerInv, Routed;
    var w := WorkerOf(f, move.market);
    NextIsOwn(w, move.step);
    NextKeepsInv(w, move.step);
    InvOf(w);
    InvOf(Next(w, move.step));
    ForeignSameKeepsOthers(f.orders, Next(w, move.step).engine.orders, move.market, other);
    OwnInvariant(WorkerOf(f, other));
    OwnInvariant(WorkerOf(Moved(f, move), other));
  }

  lemma MovedKeepsInv(f: Fleet, move: Move)
    requires FleetInv(f) && (move.market in f.workers ==> Routed(WorkerOf(f, move.market), move.step))
    ensures FleetInv(Moved(f, move))
  {
    hide Next, WorkerInv, Routed, OwnWorker;
    if move.market in f.workers {
      MovedWorker(f, move);
      forall m | m in Moved(f, move).workers
        ensures WorkerOf(Moved(f, move), m).engine.market == m && WorkerInv(WorkerOf(Moved(f, move), m))
      {
        if m != move.market {
          OtherWorker(f, move, m);
        }
      }
    }
  }

  /** Over every interleaving of the workers' steps each worker stays in step with its engine. */
  lemma {:induction false} FleetKeepsInStep(f: Fleet, moves: seq<Move>)
    requires FleetInv(f) && RoutedMoves(f, moves)
    ensures FleetInv(RunFleet(f, moves)) && RunFleet(f, moves).workers.Keys == f.workers.Keys
  {
    hide FleetInv, Next, Routed, WorkerOf;
    if moves != [] {
      FleetKeepsInStep(f, moves[..|moves| - 1]);
      KeysMatch(RunFleet(f, moves[..|moves| - 1]));
      MovedKeepsInv(RunFleet(f, moves[..|moves| - 1]), moves[|moves| - 1]);
    }
  }

  lemma KeysMatch(f: Fleet)
    requires FleetInv(f)
    ensures f.workers.Keys == f.budgets.Keys
  {
  }

  /**
    For every interleaving: what a worker, its budget and its orders have become is what its own steps
    alone would have made of them, with no other market's order in the store.
  */
  lemma {:induction false} EachWorkerRunsAlone(f: Fleet, moves: seq<Move>, m: Id)
    requires FleetInv(f) && RoutedMoves(f, moves) && m in f.workers
    ensures
      var f' := RunFleet(f, moves);
      && m in f'.workers && m in f'.budgets
      && OwnWorker(WorkerOf(f', m)) == Run(OwnWorker(WorkerOf(f, m)), StepsOf(moves, m))
  {
    hide Next, Routed, OwnWorker, WorkerOf, WorkerInv;
    FleetKeepsInStep(f, moves);
    KeysMatch(RunFleet(f, moves));
    KeysMatch(f);
    if moves != [] {
      var earlier, move := moves[..|moves| - 1], moves[|moves| - 1];
      var now, steps := RunFleet(f, earlier), StepsOf(earlier, m);
      EachWorkerRunsAlone(f, earlier, m);
      FleetKeepsInStep(f, earlier);
      KeysMatch(now);
      if move.market == m {
        MovedWorker(now, move);
        assert (steps + [move.step])[..|steps|] == steps;
      } else {
        assert StepsOf(moves, m) == steps;
        if move.market in now.workers {
          OtherWorker(now, move, m);
        }
      }
    }
  }

  /** The fleet as it starts: rebuilt budgets, an empty store, each strategy synchronised to whatever it was told. */
  lemma FleetStartsInStep(f: Fleet, bs: map<Id, Budget>, account: ExchangeAccount, params: Params,
                          coins: map<Id, real>, averages: map<Id, real>)
    requires NO_ID !in bs && account.krwFree >= 0.0 && f.budgets == Rebuilt(bs, account) && f.orders == map[]
    requires f.workers.Keys == bs.Keys == coins.Keys == averages.Keys
    requires forall m :: m in bs ==> f.workers[m] == Startup(bs, account, m, map[], params, coins[m], averages[m])
    ensures FleetInv(f)
  {
    forall m | m in bs
      ensures f.budgets.Keys == bs.Keys && WorkerOf(f, m).engine.market == m && WorkerInv(WorkerOf(f, m))
    {
      RebuiltBudget(bs, account, m);
      ReachableStatesAreInStep(bs, account, m, map[], params, coins[m], averages[m], []);
      assert WorkerOf(f, m) == f.workers[m];
    }
    KeysOfRebuilt(bs, account);
  }
}
