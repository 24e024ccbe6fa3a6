/**
  Stop and target over whole runs: the levels the strategy exits at always belong to its entry price, so an
  intrabar exit happens exactly when the loss or the gain since entry has reached its percentage.
*/
module Exits {
  import opened Domain
  import opened Account
  import opened OrderStore
  import opened Engine
  import opened Strategy
  import opened Messages
  import opened Worker
  import opened Lockstep
  import opened Settlement
  import opened CoinSafety

  /** Entry, stop and target are known together; the entry is positive and the levels are its own. */
  predicate LevelsOfEntry(s: StrategyState) {
    match s.entry
    case None => s.stop.None? && s.target.None?
    case Some(price) =>
      && price > 0.0
      && s.stop == Some(StopPrice(price, s.params.stopLossPct))
      && s.target == Some(TargetPrice(price, s.params.profitTargetPct))
  }

  /** Loss since entry, in percent of the entry price; a gain is negative. */
  function LossPercent(entry: real, close: real): real
    requires entry > 0.0
  {
    (entry - close) / entry * 100.0
  }

  /** A negative percentage counts as zero. */
  function Clamped(pct: real): real {
    if pct > 0.0 then pct else 0.0
  }

  /** The loss since entry has reached the stop's percentage, or the gain the target's. */
  predicate PercentReached(p: Params, entry: real, close: real)
    requires entry > 0.0
  {
    || LossPercent(entry, close) >= Clamped(p.stopLossPct)
    || LossPercent(entry, close) <= -Clamped(p.profitTargetPct)
  }

  // ---------- the levels follow the entry ----------

  lemma OnCandleKeepsLevels(s: StrategyState, c: Candle, a: AccountSnapshot, cid: Id)
    requires LevelsOfEntry(s) && a.coin >= 0.0
    ensures LevelsOfEntry(OnCandle(s, c, a, cid).0)
  {
    hide StopPrice, TargetPrice, EntryAmount, TrendOk, VolatilityOk;
    HoldingHasPrice(a.coin, c.close);
  }

  /** Whoever holds coin worth the minimum sees a positive price: the healed entry is one. */
  lemma HoldingHasPrice(coin: real, close: real)
    requires coin >= 0.0
    ensures coin * close >= MIN_NOTIONAL_KRW ==> close > 0.0
  {
    if close <= 0.0 {
      assert coin * close <= 0.0;
    }
  }

  lemma OtherCallsKeepLevels(s: StrategyState, close: real, a: AccountSnapshot, cid: Id)
    requires LevelsOfEntry(s)
    ensures LevelsOfEntry(OnIntrabarCandle(s, close, a, cid).0) && LevelsOfEntry(OnSubmitFailed(s))
  {
    hide StopPrice, TargetPrice;
  }

  lemma EventKeepsLevels(s: StrategyState, ev: EngineEvent)
    requires LevelsOfEntry(s)
    ensures LevelsOfEntry(HandleEvent(s, ev))
  {
    hide StopPrice, TargetPrice, FinalPrice;
  }

  lemma {:induction false} EventsKeepLevels(s: StrategyState, evs: seq<EngineEvent>)
    requires LevelsOfEntry(s)
    ensures LevelsOfEntry(HandleEvents(s, evs))
  {
    hide HandleEvent, LevelsOfEntry;
    if evs != [] {
      EventsKeepLevels(s, evs[..|evs| - 1]);
      EventKeepsLevels(HandleEvents(s, evs[..|evs| - 1]), evs[|evs| - 1]);
    }
  }

  lemma DecisionKeepsLevels(w: WorkerState, order: Option<OrderRequest>, reply: Option<Id>)
    requires LevelsOfEntry(w.strategy)
    ensures LevelsOfEntry(SubmitDecision(w, order, reply).0.strategy)
  {
    hide SubmitStep, LevelsOfEntry, OnSubmitFailed;
    OtherCallsKeepLevels(w.strategy, 0.0, AccountSnapshot(0.0, 0.0), NO_ID);
  }

  lemma CheckKeepsLevels(w: WorkerState, close: real, cid: Id, reply: Option<Id>)
    requires LevelsOfEntry(w.strategy)
    ensures LevelsOfEntry(IntrabarCheck(w, close, cid, reply).strategy)
  {
    hide LevelsOfEntry, OnIntrabarCandle, SubmitDecision;
    var w1 := w.(engine := w.engine.(mark := close));
    var (s, order) := OnIntrabarCandle(w1.strategy, close, AccountOf(w1), cid);
    OtherCallsKeepLevels(w1.strategy, close, AccountOf(w1), cid);
    DecisionKeepsLevels(w1.(strategy := s), order, reply);
  }

  lemma ConfirmKeepsLevels(w: WorkerState, c: Candle, cid: Id, reply: Option<Id>)
    requires LevelsOfEntry(w.strategy) && w.engine.budget.coin >= 0.0
    ensures LevelsOfEntry(ConfirmCandle(w, c, cid, reply).strategy)
  {
    hide LevelsOfEntry, OnCandle, SubmitDecision;
    var w1 := w.(engine := w.engine.(mark := c.close));
    var (s, order) := OnCandle(w1.strategy, c, AccountOf(w1), cid);
    OnCandleKeepsLevels(w1.strategy, c, AccountOf(w1), cid);
    DecisionKeepsLevels(w1.(strategy := s), order, reply);
  }

  lemma CandleKeepsLevels(w: WorkerState, c: Candle, o: Outside)
    requires LevelsOfEntry(w.strategy) && w.engine.budget.coin >= 0.0
    ensures LevelsOfEntry(HandleMarketData(w, c, o).strategy)
  {
    hide LevelsOfEntry, ConfirmCandle, IntrabarCheck;
    var w1 := w.(pendingCandle := Some(c));
    if w.pendingCandle.None? || w.pendingCandle.value.ts == c.ts {
      CheckKeepsLevels(w1, c.close, o.intrabarCid, o.intrabarReply);
    } else {
      ConfirmKeepsLevels(w1, w.pendingCandle.value, o.cid, o.reply);
      CheckKeepsLevels(ConfirmCandle(w1, w.pendingCandle.value, o.cid, o.reply), c.close,
                       o.intrabarCid, o.intrabarReply);
    }
  }

  lemma NextKeepsLevels(w: WorkerState, step: Step)
    requires LevelsOfEntry(w.strategy) && w.engine.budget.coin >= 0.0
    ensures LevelsOfEntry(Next(w, step).strategy)
  {
    hide LevelsOfEntry, HandleMyOrder, HandleMarketData, HandleEvents, TradeStep, SnapshotStep, ReconcileStep;
    match step {
      case OrderStep(d) => HandleMyOrderUnfolds(w, d);
      case CandleStep(c, o) => CandleKeepsLevels(w, c, o);
      case PollStep => EventsKeepLevels(w.strategy, w.engine.events);
      case _ =>
    }
  }

  /** Over every run the entry is positive and the levels belong to it. */
  lemma {:induction false} RunKeepsLevels(w: WorkerState, steps: seq<Step>)
    requires Sound(w) && GoodRun(w, steps) && LevelsOfEntry(w.strategy)
    ensures LevelsOfEntry(Run(w, steps).strategy)
  {
    hide LevelsOfEntry, Next, Sound, Good;
    if steps != [] {
      RunKeepsLevels(w, steps[..|steps| - 1]);
      CoinNeverNegative(w, steps[..|steps| - 1]);
      NextKeepsLevels(Run(w, steps[..|steps| - 1]), steps[|steps| - 1]);
    }
  }

  /** Holding coin with a known price starts InPosition at that price; anything else starts Flat without one. */
  lemma SyncSetsLevels(market: Id, p: Params, coin: real, avgEntry: real)
    ensures
      var s := SyncOnStart(Initial(market, p), coin, avgEntry);
      && LevelsOfEntry(s) && s.pending.None? && s.market == market && s.params == p
      && if coin > 0.0 && avgEntry > 0.0 then s.phase.InPosition? && s.entry == Some(avgEntry)
         else s.phase.Flat? && s.entry.None?
  {
    hide StopPrice, TargetPrice;
  }

  // ---------- when the strategy exits ----------

  /** The close is at or below the stop (at or above the target) exactly when the loss (gain) reaches its percentage. */
  lemma LevelIsPercentage(entry: real, close: real, pct: real)
    requires entry > 0.0
    ensures close <= entry * (1.0 - pct / 100.0) <==> LossPercent(entry, close) >= pct
    ensures close >= entry * (1.0 + pct / 100.0) <==> LossPercent(entry, close) <= -pct
  {
    var loss := (entry - close) / entry;
    assert loss * entry == entry - close;
    assert entry * (1.0 - pct / 100.0) == entry - entry * (pct / 100.0);
    assert entry * (1.0 + pct / 100.0) == entry + entry * (pct / 100.0);
    CompareFactor(entry, loss, pct / 100.0);
    CompareFactor(entry, -loss, pct / 100.0);
  }

  lemma CompareFactor(x: real, y: real, z: real)
    requires x > 0.0
    ensures y * x >= x * z <==> y >= z
  {
    var d := y - z;
    assert y * x - x * z == d * x;
    assert d >= 0.0 ==> d * x >= 0.0;
    assert d < 0.0 ==> d * x < 0.0;
  }

  /**
    An intrabar exit is ordered exactly when the market holds a sellable amount and the price has lost
    stopLossPct, or gained profitTargetPct, since the entry; negative percentages count as zero.
  */
  predicate ExitsByPercent(s: StrategyState, close: real, a: AccountSnapshot, cid: Id)
    requires LevelsOfEntry(s)
  {
    OnIntrabarCandle(s, close, a, cid).1.Some? <==>
      && s.phase.InPosition? && s.entry.Some? && a.coin > 0.0 && a.coin * close >= 5000.0
      && PercentReached(s.params, s.entry.value, close)
  }

  lemma IntrabarExitIffPercentReached(s: StrategyState, close: real, a: AccountSnapshot, cid: Id)
    requires LevelsOfEntry(s)
    ensures ExitsByPercent(s, close, a, cid)
  {
    hide LossPercent;
    if s.entry.Some? {
      LevelsArePercentages(s, close);
    }
  }

  lemma LevelsArePercentages(s: StrategyState, close: real)
    requires LevelsOfEntry(s) && s.entry.Some?
    ensures close <= s.stop.value || close >= s.target.value <==> PercentReached(s.params, s.entry.value, close)
  {
    hide LossPercent;
    LevelIsPercentage(s.entry.value, close, Clamped(s.params.stopLossPct));
    LevelIsPercentage(s.entry.value, close, Clamped(s.params.profitTargetPct));
  }

  /** So it is in every state of a run. */
  lemma RunExitsByPercent(w: WorkerState, steps: seq<Step>, close: real, cid: Id)
    requires Sound(w) && GoodRun(w, steps) && LevelsOfEntry(w.strategy)
    ensures
      var w' := Run(w, steps);
      LevelsOfEntry(w'.strategy) && ExitsByPercent(w'.strategy, close, AccountOf(w'), cid)
  {
    hide LevelsOfEntry, ExitsByPercent, Run, Sound, GoodRun;
    RunKeepsLevels(w, steps);
    RunKeepsParams(w, steps);
    IntrabarExitIffPercentReached(Run(w, steps).strategy, close, AccountOf(Run(w, steps)), cid);
  }

  /** And a worker starts out in such a state. */
  lemma StartupHasLevels(bs: map<Id, Budget>, account: ExchangeAccount, m: Id, orders: map<Id, Order>,
                         params: Params, coin: real, avgEntry: real)
    requires m in bs && m != NO_ID && account.krwFree >= 0.0
    requires forall i :: 0 <= i < |account.positions| ==> account.positions[i].free >= 0.0
    requires KeyedById(orders) && forall k :: k in orders ==> orders[k].market != m
    ensures
      var w := Startup(bs, account, m, orders, params, coin, avgEntry);
      Sound(w) && LevelsOfEntry(w.strategy) && w.strategy.params == params
  {
    hide Sound, LevelsOfEntry, Rebuilt;
    StartupIsSound(bs, account, m, orders, params, coin, avgEntry);
    SyncSetsLevels(m, params, coin, avgEntry);
  }

  lemma {:induction false} EventsKeepParams(s: StrategyState, evs: seq<EngineEvent>)
    ensures HandleEvents(s, evs).params == s.params
  {
    hide FinalPrice, StopPrice, TargetPrice;
    if evs != [] {
      EventsKeepParams(s, evs[..|evs| - 1]);
    }
  }

  lemma DecisionKeepsParams(w: WorkerState, order: Option<OrderRequest>, reply: Option<Id>)
    ensures SubmitDecision(w, order, reply).0.strategy.params == w.strategy.params
  {
    hide SubmitStep;
  }

  lemma DecidingKeepsParams(s: StrategyState, c: Candle, a: AccountSnapshot, cid: Id)
    ensures OnCandle(s, c, a, cid).0.params == s.params && OnIntrabarCandle(s, c.close, a, cid).0.params == s.params
  {
    hide StopPrice, TargetPrice, EntryAmount, TrendOk, VolatilityOk;
  }

  lemma CandlesKeepParams(w: WorkerState, c: Candle, cid: Id, reply: Option<Id>)
    ensures ConfirmCandle(w, c, cid, reply).strategy.params == w.strategy.params
    ensures IntrabarCheck(w, c.close, cid, reply).strategy.params == w.strategy.params
  {
    hide OnCandle, OnIntrabarCandle, SubmitDecision;
    var w1 := w.(engine := w.engine.(mark := c.close));
    DecidingKeepsParams(w1.strategy, c, AccountOf(w1), cid);
    var (s, order) := OnCandle(w1.strategy, c, AccountOf(w1), cid);
    DecisionKeepsParams(w1.(strategy := s), order, reply);
    var (s', order') := OnIntrabarCandle(w1.strategy, c.close, AccountOf(w1), cid);
    DecisionKeepsParams(w1.(strategy := s'), order', reply);
  }

  lemma NextKeepsParams(w: WorkerState, step: Step)
    ensures Next(w, step).strategy.params == w.strategy.params
  {
    hide TradeStep, SnapshotStep, ReconcileStep, ConfirmCandle, IntrabarCheck, HandleEvents, HandleMyOrder;
    match step {
      case OrderStep(d) => HandleMyOrderUnfolds(w, d);
      case CandleStep(c, o) =>
        var w1 := w.(pendingCandle := Some(c));
        CandlesKeepParams(w1, c, o.intrabarCid, o.intrabarReply);
        if w.pendingCandle.Some? {
          var last := w.pendingCandle.value;
          CandlesKeepParams(w1, last, o.cid, o.reply);
          CandlesKeepParams(ConfirmCandle(w1, last, o.cid, o.reply), c, o.intrabarCid, o.intrabarReply);
        }
      case PollStep => EventsKeepParams(w.strategy, w.engine.events);
      case _ =>
    }
  }

  lemma {:induction false} RunKeepsParams(w: WorkerState, steps: seq<Step>)
    ensures Run(w, steps).strategy.params == w.strategy.params
  {
    hide Next;
    if steps != [] {
      RunKeepsParams(w, steps[..|steps| - 1]);
      NextKeepsParams(Run(w, steps[..|steps| - 1]), steps[|steps| - 1]);
    }
  }
}
