/**
  Candle assembly in the worker: updates of one candle overwrite each other, and the arrival of the
  next timestamp confirms the last of them. The strategy is fed exactly the confirmed candles.
*/
module Candles {
  import opened Domain
  import opened Account
  import opened Rsi
  import opened Windows
  import opened Engine
  import opened Strategy
  import opened Messages
  import opened TradeDedupe
  import opened Worker
  import Lockstep

  // ---------- what should be confirmed ----------

  /** The last update of every maximal run of equal timestamps, except the run that is still going on. */
  function RunEnds(xs: seq<Candle>): seq<Candle> {
    if |xs| < 2 then []
    else (if xs[0].ts != xs[1].ts then [xs[0]] else []) + RunEnds(xs[1..])
  }

  lemma {:induction false} RunEndsOfAppend(xs: seq<Candle>, c: Candle)
    ensures RunEnds(xs + [c])
            == RunEnds(xs) + if xs != [] && xs[|xs| - 1].ts != c.ts then [xs[|xs| - 1]] else []
  {
    if |xs| < 2 {
      RunEndsOfShort(xs, c);
    } else {
      RunEndsNext(xs);
      RunEndsNext(xs + [c]);
      RunEndsOfAppend(xs[1..], c);
      hide RunEnds;
      assert (xs + [c])[1..] == xs[1..] + [c];
    }
  }

  lemma RunEndsNext(xs: seq<Candle>)
    requires |xs| >= 2
    ensures RunEnds(xs) == (if xs[0].ts != xs[1].ts then [xs[0]] else []) + RunEnds(xs[1..])
  {
  }

  lemma RunEndsOfShort(xs: seq<Candle>, c: Candle)
    requires |xs| < 2
    ensures RunEnds(xs) == [] && RunEnds(xs + [c]) == if xs != [] && xs[0].ts != c.ts then [xs[0]] else []
  {
    if xs != [] {
      assert (xs + [c])[1..] == [c];
    }
  }

  /** Neighbouring confirmed candles have different timestamps, and so have the last of them and the open one. */
  lemma {:induction false} NeighboursDiffer(xs: seq<Candle>)
    ensures forall i :: 0 <= i < |RunEnds(xs)| - 1 ==> RunEnds(xs)[i].ts != RunEnds(xs)[i + 1].ts
    ensures RunEnds(xs) != [] ==> RunEnds(xs)[|RunEnds(xs)| - 1].ts != xs[|xs| - 1].ts
  {
    if xs != [] {
      var init, last := xs[..|xs| - 1], xs[|xs| - 1];
      assert xs == init + [last];
      NeighboursDiffer(init);
      RunEndsOfAppend(init, last);
      if init != [] && init[|init| - 1].ts == last.ts {
        assert RunEnds(xs) == RunEnds(init);
      }
    }
  }

  // ---------- what the worker confirms ----------

  function CandleOf(step: Step): seq<Candle> {
    if step.CandleStep? then [step.candle] else []
  }

  function Stream(steps: seq<Step>): seq<Candle> {
    if steps == [] then [] else Stream(steps[..|steps| - 1]) + CandleOf(steps[|steps| - 1])
  }

  /** The candle a step hands to the strategy as confirmed. */
  function ConfirmedBy(w: WorkerState, step: Step): seq<Candle> {
    if step.CandleStep? && w.pendingCandle.Some? && w.pendingCandle.value.ts != step.candle.ts
    then [w.pendingCandle.value]
    else []
  }

  function Confirmed(w: WorkerState, steps: seq<Step>): seq<Candle> {
    if steps == [] then []
    else Confirmed(w, steps[..|steps| - 1]) + ConfirmedBy(Run(w, steps[..|steps| - 1]), steps[|steps| - 1])
  }

  function Closes(cs: seq<Candle>): seq<real> {
    seq(|cs|, i requires 0 <= i < |cs| => cs[i].close)
  }

  /** The strategy's indicators have seen exactly the closes of cs, each once, and cs is where its duplicate check stands. */
  ghost predicate HasSeen(s: StrategyState, cs: seq<Candle>) {
    && s.lastTs == (if cs == [] then None else Some(cs[|cs| - 1].ts))
    && TracksSeries(s.rsi, Closes(cs))
    && s.closes.window == LastOf(Closes(cs), s.closes.length + 1)
    && SeenReturns(s.vol, Closes(cs))
  }

  ghost predicate Assembled(w: WorkerState, stream: seq<Candle>) {
    && w.pendingCandle == (if stream == [] then None else Some(stream[|stream| - 1]))
    && (forall i :: 0 <= i < |stream| ==> stream[i].market == w.strategy.market)
    && HasSeen(w.strategy, RunEnds(stream))
  }

  /** The strategy fields that candles and nothing else move. */
  predicate SameIndicators(s: StrategyState, s': StrategyState) {
    s'.market == s.market && s'.lastTs == s.lastTs && s'.rsi == s.rsi && s'.closes == s.closes && s'.vol == s.vol
  }

  lemma {:induction false} EventsKeepIndicators(s: StrategyState, evs: seq<EngineEvent>)
    ensures SameIndicators(s, HandleEvents(s, evs))
  {
    hide FinalPrice, StopPrice, TargetPrice;
    if evs != [] {
      EventsKeepIndicators(s, evs[..|evs| - 1]);
    }
  }

  lemma OnCandleCounts(s: StrategyState, c: Candle, a: AccountSnapshot, cid: Id)
    requires c.market == s.market && s.lastTs != Some(c.ts)
    ensures
      var s' := OnCandle(s, c, a, cid).0;
      && s'.market == s.market && s'.lastTs == Some(c.ts)
      && s'.rsi == RsiUpdate(s.rsi, c.close).0 && s'.closes == CloseUpdate(s.closes, c.close).0
      && s'.vol == VolUpdate(s.vol, c.close).0
  {
    hide RsiUpdate, CloseUpdate, VolUpdate, StopPrice, TargetPrice, EntryAmount, TrendOk, VolatilityOk;
  }

  lemma DecisionKeepsIndicators(w: WorkerState, order: Option<OrderRequest>, reply: Option<Id>)
    ensures
      var w' := SubmitDecision(w, order, reply).0;
      w'.pendingCandle == w.pendingCandle && w'.failTs == w.failTs && SameIndicators(w.strategy, w'.strategy)
  {
    hide SubmitStep;
  }

  lemma IntrabarKeepsIndicators(w: WorkerState, close: real, cid: Id, reply: Option<Id>)
    ensures
      var w' := IntrabarCheck(w, close, cid, reply);
      w'.pendingCandle == w.pendingCandle && SameIndicators(w.strategy, w'.strategy)
  {
    hide OnIntrabarCandle, SubmitDecision;
    var w1 := w.(engine := w.engine.(mark := close));
    var (s, order) := OnIntrabarCandle(w1.strategy, close, AccountOf(w1), cid);
    IntrabarDecision(w1.strategy, close, AccountOf(w1), cid);
    DecisionKeepsIndicators(w1.(strategy := s), order, reply);
  }

  lemma IntrabarDecision(s: StrategyState, close: real, a: AccountSnapshot, cid: Id)
    ensures SameIndicators(s, OnIntrabarCandle(s, close, a, cid).0)
  {
  }

  /** A candle of another market, or one already seen, changes nothing. */
  lemma OtherCandlesIgnored(s: StrategyState, c: Candle, a: AccountSnapshot, cid: Id)
    requires c.market != s.market || s.lastTs == Some(c.ts)
    ensures OnCandle(s, c, a, cid) == (s, None)
  {
  }

  /** A confirmed candle that is no duplicate is added to everything the strategy has seen. */
  lemma ConfirmIsSeen(w: WorkerState, cs: seq<Candle>, c: Candle, cid: Id, reply: Option<Id>)
    requires HasSeen(w.strategy, cs) && c.market == w.strategy.market
    requires cs != [] ==> cs[|cs| - 1].ts != c.ts
    ensures
      var w' := ConfirmCandle(w, c, cid, reply);
      w'.pendingCandle == w.pendingCandle && w'.strategy.market == w.strategy.market && HasSeen(w'.strategy, cs + [c])
  {
    hide TracksSeries, SeenReturns, RsiUpdate, VolUpdate, OnCandle, SubmitDecision, LastOf, Closes;
    CloseTracksSeries(w.strategy.closes, Closes(cs), c.close);
    hide CloseUpdate;
    ClosesOfAppend(cs, c);
    var w1 := w.(engine := w.engine.(mark := c.close));
    var (s, order) := OnCandle(w1.strategy, c, AccountOf(w1), cid);
    OnCandleCounts(w1.strategy, c, AccountOf(w1), cid);
    DecisionKeepsIndicators(w1.(strategy := s), order, reply);
    UpdateTracksSeries(w.strategy.rsi, Closes(cs), c.close);
    UpdateSeesReturns(w.strategy.vol, Closes(cs), c.close);
  }

  lemma ClosesOfAppend(cs: seq<Candle>, c: Candle)
    ensures Closes(cs + [c]) == Closes(cs) + [c.close]
  {
  }

  lemma CandleIsAssembled(w: WorkerState, stream: seq<Candle>, c: Candle, o: Outside)
    requires Assembled(w, stream) && c.market == w.strategy.market
    ensures Assembled(HandleMarketData(w, c, o), stream + [c])
    ensures HandleMarketData(w, c, o).strategy.market == w.strategy.market
  {
    hide ConfirmCandle, IntrabarCheck, HasSeen;
    var w1 := w.(pendingCandle := Some(c));
    RunEndsOfAppend(stream, c);
    if w.pendingCandle.None? || w.pendingCandle.value.ts == c.ts {
      assert RunEnds(stream + [c]) == RunEnds(stream);
      IntrabarKeepsIndicators(w1, c.close, o.intrabarCid, o.intrabarReply);
      SeenIsIndicators(w1.strategy, IntrabarCheck(w1, c.close, o.intrabarCid, o.intrabarReply).strategy, RunEnds(stream));
    } else {
      var last := stream[|stream| - 1];
      NeighboursDiffer(stream);
      ConfirmIsSeen(w1, RunEnds(stream), last, o.cid, o.reply);
      var w2 := ConfirmCandle(w1, last, o.cid, o.reply);
      IntrabarKeepsIndicators(w2, c.close, o.intrabarCid, o.intrabarReply);
      SeenIsIndicators(w2.strategy, IntrabarCheck(w2, c.close, o.intrabarCid, o.intrabarReply).strategy, RunEnds(stream) + [last]);
    }
  }

  lemma SeenIsIndicators(s: StrategyState, s': StrategyState, cs: seq<Candle>)
    requires HasSeen(s, cs) && SameIndicators(s, s')
    ensures HasSeen(s', cs)
  {
  }

  lemma OtherStepsKeepCandles(w: WorkerState, step: Step)
    requires !step.CandleStep?
    ensures
      var w' := Next(w, step);
      && w'.pendingCandle == w.pendingCandle && w'.failTs == w.failTs && SameIndicators(w.strategy, w'.strategy)
  {
    hide TradeStep, SnapshotStep, ReconcileStep, HandleEvents, HandleMyOrder;
    match step {
      case OrderStep(d) => Lockstep.HandleMyOrderUnfolds(w, d);
      case PollStep => EventsKeepIndicators(w.strategy, w.engine.events);
      case _ =>
    }
  }

  lemma StepIsAssembled(w: WorkerState, stream: seq<Candle>, step: Step)
    requires Assembled(w, stream) && (step.CandleStep? ==> step.candle.market == w.strategy.market)
    ensures Assembled(Next(w, step), stream + CandleOf(step)) && Next(w, step).strategy.market == w.strategy.market
    ensures RunEnds(stream + CandleOf(step)) == RunEnds(stream) + ConfirmedBy(w, step)
  {
    hide Next, HandleMarketData, HasSeen, RunEnds;
    if step.CandleStep? {
      CandleIsNext(w, step);
      CandleIsAssembled(w, stream, step.candle, step.outside);
      RunEndsOfAppend(stream, step.candle);
    } else {
      assert stream + CandleOf(step) == stream;
      OtherStepsKeepCandles(w, step);
      SeenIsIndicators(w.strategy, Next(w, step).strategy, RunEnds(stream));
    }
  }

  /** Every candle of the run belongs to the market. */
  ghost predicate OfMarket(steps: seq<Step>, market: Id) {
    forall i :: 0 <= i < |steps| && steps[i].CandleStep? ==> steps[i].candle.market == market
  }

  /**
    For every run and every stream of updates: the candles confirmed are exactly the ends of the
    stream's maximal runs; the strategy has counted each of them once and none as a duplicate, and
    its RSI, delayed close and, on positive closes, volatility window are those of the confirmed closes.
  */
  lemma {:induction false} ConfirmsRunEnds(w: WorkerState, steps: seq<Step>)
    requires Assembled(w, []) && OfMarket(steps, w.strategy.market)
    ensures Confirmed(w, steps) == RunEnds(Stream(steps))
    ensures Assembled(Run(w, steps), Stream(steps)) && Run(w, steps).strategy.market == w.strategy.market
  {
    hide Next, Assembled, ConfirmedBy, CandleOf;
    if steps != [] {
      ConfirmsRunEnds(w, steps[..|steps| - 1]);
      StepIsAssembled(Run(w, steps[..|steps| - 1]), Stream(steps[..|steps| - 1]), steps[|steps| - 1]);
    }
  }

  /** A fresh worker has seen nothing. */
  lemma FreshStart(e: EngineState, market: Id, p: Params, coin: real, avgEntry: real)
    requires p.rsiLength >= 1
    ensures Assembled(Started(e, SyncOnStart(Initial(market, p), coin, avgEntry)), [])
  {
    hide WilderAverage;
    assert Closes([]) == [];
    EmptySums();
  }

  /** So it is for a worker from its startup on. */
  lemma StartupConfirmsRunEnds(bs: map<Id, Budget>, account: ExchangeAccount, m: Id, orders: map<Id, Order>,
                               params: Params, coin: real, avgEntry: real, steps: seq<Step>)
    requires m in bs && params.rsiLength >= 1 && OfMarket(steps, m)
    ensures
      var w := Lockstep.Startup(bs, account, m, orders, params, coin, avgEntry);
      && Confirmed(w, steps) == RunEnds(Stream(steps))
      && HasSeen(Run(w, steps).strategy, RunEnds(Stream(steps)))
  {
    hide Assembled, Run, Confirmed, Stream, RunEnds, Rebuilt;
    var w := Lockstep.Startup(bs, account, m, orders, params, coin, avgEntry);
    FreshStart(w.engine, m, params, coin, avgEntry);
    StartedMarket(w, m, params, coin, avgEntry);
    ConfirmsRunEnds(w, steps);
    AssembledHasSeen(Run(w, steps), Stream(steps));
  }

  lemma StartedMarket(w: WorkerState, m: Id, params: Params, coin: real, avgEntry: real)
    requires w.strategy == SyncOnStart(Initial(m, params), coin, avgEntry)
    ensures w.strategy.market == m
  {
  }

  lemma AssembledHasSeen(w: WorkerState, stream: seq<Candle>)
    requires Assembled(w, stream)
    ensures HasSeen(w.strategy, RunEnds(stream))
  {
  }

  lemma PendingIsNew(w: WorkerState, stream: seq<Candle>, step: Step)
    requires Assembled(w, stream)
    ensures forall c :: c in ConfirmedBy(w, step) ==> c.market == w.strategy.market && w.strategy.lastTs != Some(c.ts)
  {
    hide TracksSeries, RunEnds;
    NeighboursDiffer(stream);
  }

  /** The strategy's check for a repeated timestamp never refuses a confirmed candle. */
  lemma DuplicateCheckNeverActs(w: WorkerState, steps: seq<Step>, step: Step)
    requires Assembled(w, []) && OfMarket(steps, w.strategy.market)
    ensures
      var now := Run(w, steps);
      forall c :: c in ConfirmedBy(now, step) ==> c.market == now.strategy.market && now.strategy.lastTs != Some(c.ts)
  {
    hide Assembled, Run;
    ConfirmsRunEnds(w, steps);
    PendingIsNew(Run(w, steps), Stream(steps), step);
  }

  // ---------- the mark price ----------

  lemma SubmitKeepsMark(w: WorkerState, order: Option<OrderRequest>, reply: Option<Id>)
    ensures SubmitDecision(w, order, reply).0.engine.mark == w.engine.mark
  {
    hide Reserved, Released, CanReserve, ReserveAmount, ValidRequest, OnSubmitFailed;
  }

  lemma CandleMarks(w: WorkerState, c: Candle, o: Outside)
    ensures HandleMarketData(w, c, o).engine.mark == c.close
  {
    hide ConfirmCandle, OnIntrabarCandle, SubmitDecision;
    var w1 := w.(pendingCandle := Some(c));
    var w2 := if w.pendingCandle.None? || w.pendingCandle.value.ts == c.ts then w1
              else ConfirmCandle(w1, w.pendingCandle.value, o.cid, o.reply);
    var w3 := w2.(engine := w2.engine.(mark := c.close));
    var (s, order) := OnIntrabarCandle(w3.strategy, c.close, AccountOf(w3), o.intrabarCid);
    SubmitKeepsMark(w3.(strategy := s), order, o.intrabarReply);
  }

  lemma EngineKeepsMark(e: EngineState, t: MyTrade, s: Order)
    ensures TradeStep(e, t).mark == e.mark && SnapshotStep(e, s).mark == e.mark && ReconcileStep(e, s).0.mark == e.mark
  {
    hide BuyFilled, SellFilled, OrderFinalized, SellFinalized, Mark, Key, Merged;
  }

  lemma OtherStepsKeepMark(w: WorkerState, step: Step)
    requires !step.CandleStep?
    ensures Next(w, step).engine.mark == w.engine.mark
  {
    hide TradeStep, SnapshotStep, ReconcileStep, HandleMyOrder, HandleEvents;
    match step {
      case OrderStep(d) =>
        Lockstep.HandleMyOrderUnfolds(w, d);
        if IsTrade(d) {
          EngineKeepsMark(w.engine, ToTrade(d), ToSnapshot(d));
          EngineKeepsMark(TradeStep(w.engine, ToTrade(d)), ToTrade(d), ToSnapshot(d));
        } else {
          SnapshotKeepsMark(w.engine, ToSnapshot(d));
        }
      case RecoverStep(buy, sell) => LookupsKeepMark(w.engine, buy, sell);
      case TimeoutStep(_, _, buy, sell) => LookupsKeepMark(w.engine, buy, sell);
      case PollStep =>
    }
  }

  lemma SnapshotKeepsMark(e: EngineState, s: Order)
    ensures SnapshotStep(e, s).mark == e.mark && ReconcileStep(e, s).0.mark == e.mark
  {
    hide BuyFilled, SellFilled, OrderFinalized, SellFinalized, Merged;
  }

  lemma LookupsKeepMark(e: EngineState, buy: Option<Order>, sell: Option<Order>)
    ensures Reconciled(Reconciled(e, e.buyId, buy), e.sellId, sell).mark == e.mark
  {
    hide ReconcileStep, SnapshotStep;
    if buy.Some? {
      SnapshotKeepsMark(e, buy.value);
    }
    if sell.Some? {
      SnapshotKeepsMark(Reconciled(e, e.buyId, buy), sell.value);
    }
  }

  /** Over every run the price at which dust is told is the close of the last candle update. */
  lemma {:induction false} MarkIsLastClose(w: WorkerState, steps: seq<Step>)
    ensures Run(w, steps).engine.mark
            == if Stream(steps) == [] then w.engine.mark else Stream(steps)[|Stream(steps)| - 1].close
  {
    hide Next;
    if steps != [] {
      var earlier, last := steps[..|steps| - 1], steps[|steps| - 1];
      MarkIsLastClose(w, earlier);
      if last.CandleStep? {
        CandleIsNext(Run(w, earlier), last);
        CandleMarks(Run(w, earlier), last.candle, last.outside);
      } else {
        OtherStepsKeepMark(Run(w, earlier), last);
        assert Stream(steps) == Stream(earlier);
      }
    }
  }

  // ---------- failed intrabar exits ----------

  /** The state in which the step makes its intrabar check. */
  function AtIntrabar(w: WorkerState, c: Candle, o: Outside): WorkerState {
    var w1 := w.(pendingCandle := Some(c));
    var w2 := if w.pendingCandle.None? || w.pendingCandle.value.ts == c.ts then w1
              else ConfirmCandle(w1, w.pendingCandle.value, o.cid, o.reply);
    w2.(engine := w2.engine.(mark := c.close))
  }

  /** The step tried an intrabar exit and the engine refused it. */
  predicate ExitRefused(w: WorkerState, step: Step) {
    && step.CandleStep?
    && var w2 := AtIntrabar(w, step.candle, step.outside);
    && !IntrabarBlocked(w2)
    && var (s, order) := OnIntrabarCandle(w2.strategy, step.candle.close, AccountOf(w2), step.outside.intrabarCid);
    && SubmitDecision(w2.(strategy := s), order, step.outside.intrabarReply).1
  }

  function Refusals(w: WorkerState, steps: seq<Step>): nat {
    if steps == [] then 0
    else
      var earlier := steps[..|steps| - 1];
      Refusals(w, earlier) + if ExitRefused(Run(w, earlier), steps[|steps| - 1]) then 1 else 0
  }

  lemma IntrabarRemembers(w: WorkerState, close: real, cid: Id, reply: Option<Id>)
    requires w.pendingCandle.Some?
    ensures
      var w1 := w.(engine := w.engine.(mark := close));
      var (s, order) := OnIntrabarCandle(w1.strategy, close, AccountOf(w1), cid);
      var refused := !IntrabarBlocked(w1) && SubmitDecision(w1.(strategy := s), order, reply).1;
      var w' := IntrabarCheck(w, close, cid, reply);
      w'.pendingCandle == w.pendingCandle && w'.failTs == if refused then Some(w.pendingCandle.value.ts) else w.failTs
  {
    hide OnIntrabarCandle, SubmitDecision;
    var w1 := w.(engine := w.engine.(mark := close));
    var (s, order) := OnIntrabarCandle(w1.strategy, close, AccountOf(w1), cid);
    DecisionKeepsIndicators(w1.(strategy := s), order, reply);
  }

  lemma ConfirmKeepsFailure(w: WorkerState, c: Candle, cid: Id, reply: Option<Id>)
    ensures
      var w' := ConfirmCandle(w, c, cid, reply);
      w'.pendingCandle == w.pendingCandle && w'.failTs == w.failTs
  {
    hide OnCandle, SubmitDecision;
    var w1 := w.(engine := w.engine.(mark := c.close));
    var (s, order) := OnCandle(w1.strategy, c, AccountOf(w1), cid);
    DecisionKeepsIndicators(w1.(strategy := s), order, reply);
  }

  lemma RefusalIsRemembered(w: WorkerState, step: Step)
    requires step.CandleStep?
    ensures Next(w, step).pendingCandle == Some(step.candle)
    ensures Next(w, step).failTs == if ExitRefused(w, step) then Some(step.candle.ts) else w.failTs
    ensures w.failTs == Some(step.candle.ts) ==> !ExitRefused(w, step)
  {
    hide ConfirmCandle, OnIntrabarCandle, SubmitDecision, IntrabarCheck;
    var c, o := step.candle, step.outside;
    var w1 := w.(pendingCandle := Some(c));
    if w.pendingCandle.None? || w.pendingCandle.value.ts == c.ts {
      IntrabarRemembers(w1, c.close, o.intrabarCid, o.intrabarReply);
    } else {
      ConfirmKeepsFailure(w1, w.pendingCandle.value, o.cid, o.reply);
      IntrabarRemembers(ConfirmCandle(w1, w.pendingCandle.value, o.cid, o.reply), c.close, o.intrabarCid, o.intrabarReply);
    }
  }

  /** However often a candle is updated, at most one intrabar exit is refused while its timestamp lasts. */
  lemma {:induction false} OneRefusalPerCandle(w: WorkerState, steps: seq<Step>, ts: Id)
    requires forall i :: 0 <= i < |steps| && steps[i].CandleStep? ==> steps[i].candle.ts == ts
    ensures Refusals(w, steps) <= 1
    ensures Refusals(w, steps) == 1 ==> Run(w, steps).failTs == Some(ts)
  {
    hide ExitRefused, Next;
    if steps != [] {
      var earlier, last := steps[..|steps| - 1], steps[|steps| - 1];
      assert forall i :: 0 <= i < |earlier| ==> earlier[i] == steps[i];
      OneRefusalPerCandle(w, earlier, ts);
      if last.CandleStep? {
        RefusalIsRemembered(Run(w, earlier), last);
      } else {
        OtherStepsKeepCandles(Run(w, earlier), last);
        assert !ExitRefused(Run(w, earlier), last) by {
          OnlyCandlesExit(Run(w, earlier), last);
        }
      }
    }
  }

  lemma OnlyCandlesExit(w: WorkerState, step: Step)
    ensures ExitRefused(w, step) ==> step.CandleStep?
  {
  }
}
