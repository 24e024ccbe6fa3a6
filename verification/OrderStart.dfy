/**
  The start of an order. A candle, confirmed or not, makes the strategy decide and the engine post; the
  step ends in the state from which the deliveries of EndToEnd start. So the books of an order are
  accounted for from the candle before it to the end of its fills.
*/
module OrderStart {
  import opened Domain
  import opened Account
  import opened OrderStore
  import opened TradeDedupe
  import opened Engine
  import opened Strategy
  import opened Messages
  import opened Lifecycle
  import opened Worker
  import opened Lockstep
  import opened Settlement
  import opened CoinSafety
  import opened EndToEnd

  /** Order `id` was posted since `e` and nothing of it is counted yet, or nothing was posted. */
  ghost predicate PostedOrIdle(e: EngineState, e': EngineState, id: Id) {
    && e'.market == e.market && e'.dedupe == e.dedupe
    && if IsPending(e')
       then IsActive(e', id) ==>
              Settled(e.budget, e', id) && CumulativeOf(e'.orders[id]) == Cumulative(0.0, 0.0, 0.0)
       else e' == e.(mark := e'.mark)
  }

  lemma SubmitPosts(e: EngineState, req: OrderRequest, reply: Option<Id>, id: Id)
    requires Inv(e) && !IsPending(e) && FreshReply(e, reply) && e.budget.coin >= 0.0
    requires SellsAtMost(Some(req), e.budget.coin)
    ensures PostedOrIdle(e, SubmitStep(e, req, reply).0, id)
  {
    hide Settled, Inv, IsActive, IsPending;
    var (e', result) := SubmitStep(e, req, reply);
    if result.Accepted? {
      SubmitActivates(e, req, reply);
      SubmitStartsSettled(e, req, reply.value);
      OnlyPostedIsActive(e, req, reply, id);
    } else {
      SubmitKeepsInv(e, req, reply);
    }
  }

  lemma OnlyPostedIsActive(e: EngineState, req: OrderRequest, reply: Option<Id>, id: Id)
    requires Inv(e) && !IsPending(e) && FreshReply(e, reply) && SubmitStep(e, req, reply).1.Accepted?
    ensures
      var e' := SubmitStep(e, req, reply).0;
      && IsPending(e') && e'.market == e.market && e'.dedupe == e.dedupe
      && (IsActive(e', id) ==>
            id == reply.value && id in e'.orders && CumulativeOf(e'.orders[id]) == Cumulative(0.0, 0.0, 0.0))
  {
    hide Reserved, Released, CanReserve, ReserveAmount, ValidRequest;
  }

  lemma DecisionPosts(w: WorkerState, s: StrategyState, order: Option<OrderRequest>, reply: Option<Id>, id: Id)
    requires Inv(w.engine) && !IsPending(w.engine) && FreshReply(w.engine, reply) && w.engine.budget.coin >= 0.0
    requires SellsAtMost(order, w.engine.budget.coin)
    ensures PostedOrIdle(w.engine, SubmitDecision(w.(strategy := s), order, reply).0.engine, id)
  {
    hide SubmitStep, Inv;
    if order.Some? {
      SubmitPosts(w.engine, order.value, reply, id);
    }
  }

  lemma MarkKeepsPosted(e: EngineState, e1: EngineState, e': EngineState, id: Id)
    requires PostedOrIdle(e, e1, id) && e' == e1.(mark := e'.mark)
    ensures PostedOrIdle(e, e', id)
  {
    hide Settled;
    if IsPending(e1) && IsActive(e1, id) {
      SettledIgnoresWindow(e.budget, e1, e', id);
    }
  }

  lemma IdleThenPosted(e: EngineState, e1: EngineState, e': EngineState, id: Id)
    requires e1 == e.(mark := e1.mark) && PostedOrIdle(e1, e', id)
    ensures PostedOrIdle(e, e', id)
  {
    hide Settled, IsActive;
  }

  lemma ConfirmPosts(w: WorkerState, c: Candle, cid: Id, reply: Option<Id>, id: Id)
    requires Inv(w.engine) && !IsPending(w.engine) && FreshReply(w.engine, reply) && w.engine.budget.coin >= 0.0
    ensures PostedOrIdle(w.engine, ConfirmCandle(w, c, cid, reply).engine, id)
  {
    hide SubmitDecision, OnCandle, PostedOrIdle, Consistent;
    var w1 := w.(engine := w.engine.(mark := c.close));
    var (s, order) := OnCandle(w1.strategy, c, AccountOf(w1), cid);
    StrategySellsAll(w1.strategy, c, c.close, AccountOf(w1), cid);
    CoinOf(w1);
    DecisionPosts(w1, s, order, reply, id);
    IdleThenPosted(w.engine, w1.engine, ConfirmCandle(w, c, cid, reply).engine, id);
  }

  lemma NothingPosted(e: EngineState, e': EngineState, id: Id)
    requires !IsPending(e) && e' == e.(mark := e'.mark)
    ensures PostedOrIdle(e, e', id)
  {
  }

  lemma IntrabarPosts(w: WorkerState, close: real, cid: Id, reply: Option<Id>, id: Id)
    requires Inv(w.engine) && !IsPending(w.engine) && FreshReply(w.engine, reply) && w.engine.budget.coin >= 0.0
    ensures PostedOrIdle(w.engine, IntrabarCheck(w, close, cid, reply).engine, id)
  {
    hide SubmitDecision, OnIntrabarCandle, PostedOrIdle, Consistent;
    var w1 := w.(engine := w.engine.(mark := close));
    if IntrabarBlocked(w1) {
      NothingPosted(w.engine, w1.engine, id);
    } else {
      var (s, order) := OnIntrabarCandle(w1.strategy, close, AccountOf(w1), cid);
      StrategySellsAll(w1.strategy, Candle(NO_ID, NO_ID, close), close, AccountOf(w1), cid);
      CoinOf(w1);
      DecisionPosts(w1, s, order, reply, id);
      IdleThenPosted(w.engine, w1.engine, IntrabarCheck(w, close, cid, reply).engine, id);
    }
  }

  lemma IdleFacts(e: EngineState, e': EngineState, o: Outside, id: Id)
    requires PostedOrIdle(e, e', id) && !IsPending(e') && e.budget.coin >= 0.0 && FreshOutside(e, o)
    ensures e' == e.(mark := e'.mark) && e'.budget.coin >= 0.0 && FreshOutside(e', o)
  {
  }

  lemma CandlePosts(w: WorkerState, c: Candle, o: Outside, id: Id)
    requires WorkerInv(w) && !IsPending(w.engine) && FreshOutside(w.engine, o) && w.engine.budget.coin >= 0.0
    ensures PostedOrIdle(w.engine, HandleMarketData(w, c, o).engine, id)
  {
    hide ConfirmCandle, IntrabarCheck, PostedOrIdle, IsPending, WorkerInv;
    var w1 := w.(pendingCandle := Some(c));
    WatchDoesNotMatter(w, w1);
    InvOfWorker(w);
    if w.pendingCandle.None? || w.pendingCandle.value.ts == c.ts {
      IntrabarPosts(w1, c.close, o.intrabarCid, o.intrabarReply, id);
    } else {
      var w2 := ConfirmCandle(w1, w.pendingCandle.value, o.cid, o.reply);
      ConfirmPosts(w1, w.pendingCandle.value, o.cid, o.reply, id);
      ConfirmKeepsStep(w1, w.pendingCandle.value, o.cid, o.reply);
      if IsPending(w2.engine) {
        PhaseOfPending(w2);
        BlockedCheckMarks(w2, c.close, o.intrabarCid, o.intrabarReply);
        MarkKeepsPosted(w.engine, w2.engine, HandleMarketData(w, c, o).engine, id);
      } else {
        IdleFacts(w.engine, w2.engine, o, id);
        InvOfWorker(w2);
        IntrabarPosts(w2, c.close, o.intrabarCid, o.intrabarReply, id);
        IdleThenPosted(w.engine, w2.engine, HandleMarketData(w, c, o).engine, id);
      }
    }
  }

  /** The worker has posted order `id` from budget `base`, and none of the fills is counted. */
  ghost predicate ReadyFor(base: Budget, w: WorkerState, id: Id, fills: seq<Fill>) {
    && WorkerInv(w) && Settled(base, w.engine, id)
    && Counted(w, w.engine.orders[id], fills, w, Progress(0, false))
  }

  /**
    Whichever candle step leaves an order active, an entry, an exit at a confirmed candle or a stop or
    target between candles: the order is settled at zero, and ready for the delivery of any new fills.
  */
  lemma CandleStartsOrder(w: WorkerState, c: Candle, o: Outside, id: Id, fills: seq<Fill>)
    requires WorkerInv(w) && !IsPending(w.engine) && FreshOutside(w.engine, o) && w.engine.budget.coin >= 0.0
    requires IsActive(Next(w, CandleStep(c, o)).engine, id)
    requires forall j :: 0 <= j < |fills| ==> Uuid(fills[j].uuid) !in w.engine.dedupe.seen
    ensures ReadyFor(w.engine.budget, Next(w, CandleStep(c, o)), id, fills)
  {
    var w' := HandleMarketData(w, c, o);
    assert IsActive(w'.engine, id) ==> IsPending(w'.engine);
    assert fills[..0] == [] && Totals([]) == Cumulative(0.0, 0.0, 0.0);
    hide WorkerInv, HandleMarketData, Settled, IsActive, IsPending;
    CandlePosts(w, c, o, id);
    CandleKeepsStep(w, c, o);
    SettledIsStored(w.engine.budget, w'.engine, id);
  }

  lemma SettledIsStored(base: Budget, e: EngineState, id: Id)
    requires Settled(base, e, id)
    ensures id in e.orders
  {
  }

  lemma KeyedInStore(w: WorkerState, base: Budget, id: Id)
    requires WorkerInv(w) && Settled(base, w.engine, id)
    ensures id in w.engine.orders && w.engine.orders[id].id == id
  {
  }

  /**
    From the candle to the books: the order a candle posts, whatever is delivered of its fills and however,
    moves KRW and coin from what they were before the candle by exactly the totals of all its fills.
  */
  lemma CandleToBooks(w: WorkerState, c: Candle, o: Outside, id: Id, fills: seq<Fill>, steps: seq<Step>, p: Progress,
                      last: Step)
    requires WorkerInv(w) && !IsPending(w.engine) && FreshOutside(w.engine, o) && w.engine.budget.coin >= 0.0
    requires IsActive(Next(w, CandleStep(c, o)).engine, id)
    requires forall j :: 0 <= j < |fills| ==> Uuid(fills[j].uuid) !in w.engine.dedupe.seen
    requires
      var w' := Next(w, CandleStep(c, o));
      && id in w'.engine.orders && p.heard <= |fills|
      && var order := w'.engine.orders[id];
      && FillsOf(order, fills) && Brings(w', order, fills, steps, p) && Ends(Run(w', steps), order, fills, last)
    ensures
      var w' := Next(w, CandleStep(c, o));
      var before := Run(w', steps);
      ClosedOn(w.engine.budget, Run(w', steps + [last]).engine.budget, w'.engine.orders[id].side, Totals(fills),
               before.engine.mark)
  {
    hide WorkerInv, Next, Settled, Counted, IsActive, IsPending, FillsOf, Brings, Ends, ClosedOn, Run;
    CandleStartsOrder(w, c, o, id, fills);
    var w' := Next(w, CandleStep(c, o));
    KeyedInStore(w', w.engine.budget, id);
    LostSuffixCostsNothing(w.engine.budget, w', w'.engine.orders[id], fills, steps, p, last);
  }
}
