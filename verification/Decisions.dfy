/**
  When the worker orders, over whole runs and by the numbers: the RSI and the market filter of the confirmed
  closes, the account's KRW and coin, and the loss or gain since the entry.
*/
module Decisions {
  import opened Domain
  import opened Account
  import opened OrderStore
  import opened Rsi
  import opened Windows
  import opened Engine
  import opened Strategy
  import opened Messages
  import opened Lifecycle
  import opened Worker
  import opened Lockstep
  import opened Settlement
  import opened CoinSafety
  import opened Exits
  import opened Candles
  import opened Backtest
  import Operations

  predicate AtRest(w: WorkerState) {
    w.engine.buyId == NO_ID && w.engine.sellId == NO_ID && w.engine.events == []
  }

  predicate SameLevels(s: StrategyState, s': StrategyState) {
    s'.entry == s.entry && s'.stop == s.stop && s'.target == s.target
  }

  /** What the strategy holds, whatever else changes. */
  predicate SameHolding(s: StrategyState, s': StrategyState) {
    s'.phase == s.phase && s'.pending == s.pending && SameLevels(s, s')
  }

  // ---------- the confirmed candle ----------

  /** rsi is the RSI at the last of the closes, once there are enough of them. */
  ghost predicate RsiOfLast(rsi: real, closes: seq<real>, n: nat)
    requires n >= 1
  {
    |closes| > n ==> IsRsi(rsi, closes, n, |closes| - 1)
  }

  /** A flat strategy that finds coin worth trading takes the close for its entry. */
  function EntryAt(s: StrategyState, close: real): Option<real> {
    if s.phase.InPosition? then s.entry else Some(close)
  }

  function Value(coin: real, price: real): real {
    coin * price
  }

  /** What a buy spends: all of the available KRW but the margin of the reservation, times the utilization. */
  function Spend(krw: real, utilization: real): real {
    krw / 1.001 * utilization
  }

  ghost predicate CanDecide(p: Params, closes: seq<real>, rsi: real) {
    && closes != [] && Positive(closes) && p.rsiLength >= 1 && p.volatilityWindow >= 1 && 0.0 < p.utilization <= 1.0
    && RsiOfLast(rsi, closes, p.rsiLength)
  }

  ghost predicate ShouldBuy(krw: real, coin: real, p: Params, closes: seq<real>, rsi: real)
    requires CanDecide(p, closes, rsi)
  {
    && Value(coin, closes[|closes| - 1]) < 5000.0
    && Spend(krw, p.utilization) >= 5000.0
    && BatchMarketOk(p, closes) && !LiveIsBlind(p, |closes| - 1)
    && rsi <= p.oversold
  }

  ghost predicate ShouldSell(coin: real, entry: Option<real>, p: Params, closes: seq<real>, rsi: real)
    requires CanDecide(p, closes, rsi)
  {
    var close := closes[|closes| - 1];
    && Value(coin, close) >= 5000.0
    && (|| (|closes| > p.rsiLength && rsi >= p.overbought)
        || (entry.Some? && entry.value > 0.0 && PercentReached(p, entry.value, close)))
  }

  /** A strategy at rest corrected to the coin it is shown: InPosition if that is worth trading, else Flat. */
  predicate Corrected(s: StrategyState, s': StrategyState, coin: real, close: real) {
    if Value(coin, close) >= 5000.0 then
      s'.entry == EntryAt(s, close) && (s.phase.InPosition? ==> s'.stop == s.stop && s'.target == s.target)
    else if s.phase.InPosition? then s'.entry.None? && s'.stop.None? && s'.target.None?
    else SameLevels(s, s')
  }

  /** What a resting strategy shown `krw` and `coin` makes of the closes, the last of them new. */
  ghost predicate Decides(s: StrategyState, krw: real, coin: real, closes: seq<real>, rsi: real, cid: Id,
                          s': StrategyState, order: Option<OrderRequest>)
    requires CanDecide(s.params, closes, rsi)
  {
    var close := closes[|closes| - 1];
    && Corrected(s, s', coin, close) && LevelsOfEntry(s')
    && if ShouldBuy(krw, coin, s.params, closes, rsi) then
         && order == Some(OrderRequest(s.market, BID, Market, AmountSize(Spend(krw, s.params.utilization)), None, cid))
         && s'.phase.PendingEntry? && s'.pending == Some(cid)
       else if ShouldSell(coin, EntryAt(s, close), s.params, closes, rsi) then
         && order == Some(OrderRequest(s.market, ASK, Market, VolumeSize(coin), None, cid))
         && s'.phase.PendingExit? && s'.pending == Some(cid)
       else
         && order.None? && s'.pending == s.pending && s'.phase == (if Value(coin, close) >= 5000.0 then InPosition else Flat)
  }

  lemma SnapshotOfCloses(s: StrategyState, c: Candle, closes: seq<real>, rsi: real)
    requires CanDecide(s.params, closes + [c.close], rsi) && Positive(closes) && IndicatorsTrack(s, s.params, closes)
    ensures
      var (s', snap) := BuildSnapshot(s.(lastTs := Some(c.ts)), c);
      SnapshotIs(s, s', snap, closes + [c.close], rsi) && snap.close == c.close
  {
    hide RsiUpdate, CloseUpdate, VolUpdate, TrendOk, VolatilityOk, BatchMarketOk, LiveIsBlind, IndicatorsTrack, IsRsi;
    var all, n := closes + [c.close], s.params.rsiLength;
    assert all[|closes|] == c.close;
    var s0 := s.(lastTs := Some(c.ts));
    SameIndicatorsTrack(s, s0, closes);
    SnapshotAgrees(s0, s.params, closes, c.close);
    if |all| > n {
      RsiAtIsRsi(all, n, |closes|);
      RsiIsUnique(RsiAt(all, n, |closes|), rsi, all, n, |closes|);
    }
  }

  lemma SameIndicatorsTrack(s: StrategyState, s': StrategyState, closes: seq<real>)
    requires Positive(closes) && IndicatorsTrack(s, s.params, closes)
    requires s'.rsi == s.rsi && s'.closes == s.closes && s'.vol == s.vol && s'.params == s.params
    ensures IndicatorsTrack(s', s'.params, closes)
  {
  }

  lemma MarketOkIsReady(p: Params, closes: seq<real>)
    requires closes != [] && Positive(closes) && p.volatilityWindow >= 1 && p.rsiLength >= 1 && BatchMarketOk(p, closes)
    ensures |closes| > p.rsiLength
  {
  }

  lemma NothingToSpend(krw: real, utilization: real)
    requires 0.0 < utilization <= 1.0
    ensures krw <= 0.0 ==> Spend(krw, utilization) <= 0.0
  {
    if krw <= 0.0 {
      var share := krw / 1.001;
      assert share <= 0.0;
      assert share * utilization <= 0.0;
    }
  }

  lemma CoinOfWorth(coin: real, close: real)
    requires coin >= 0.0 && Value(coin, close) >= 5000.0
    ensures coin > 0.0 && close > 0.0
  {
    assert coin == 0.0 ==> coin * close == 0.0;
    assert close <= 0.0 ==> coin * close <= 0.0;
  }

  /** The whole decision of a confirmed candle. */
  lemma CandleDecides(s: StrategyState, c: Candle, a: AccountSnapshot, cid: Id, closes: seq<real>, rsi: real)
    requires CanDecide(s.params, closes + [c.close], rsi) && Positive(closes) && IndicatorsTrack(s, s.params, closes)
    requires c.market == s.market && s.lastTs != Some(c.ts) && (s.phase.Flat? || s.phase.InPosition?)
    requires LevelsOfEntry(s) && a.coin >= 0.0
    ensures
      var (s', order) := OnCandle(s, c, a, cid);
      Decides(s, a.krw, a.coin, closes + [c.close], rsi, cid, s', order)
  {
    hide *;
    var all := closes + [c.close];
    var (s1, snap) := BuildSnapshot(s.(lastTs := Some(c.ts)), c);
    SnapshotOfCloses(s, c, closes, rsi);
    OnCandleDecides(s, c, a, cid);
    if Value(a.coin, c.close) >= 5000.0 {
      HoldingDecides(s, s1, snap, a, cid, all, rsi);
    } else {
      DustDecides(s, s1, snap, a, cid, all, rsi);
    }
  }

  /** The decision on the indicators' snapshot. */
  function Decision(s: StrategyState, snap: Snapshot, a: AccountSnapshot, cid: Id): (StrategyState, Option<OrderRequest>) {
    var s' := SelfHeal(s, snap.close, a);
    if s'.phase.Flat? then MaybeEnter(s', snap, a, cid) else MaybeExit(s', snap, a, cid)
  }

  lemma OnCandleDecides(s: StrategyState, c: Candle, a: AccountSnapshot, cid: Id)
    requires c.market == s.market && s.lastTs != Some(c.ts) && (s.phase.Flat? || s.phase.InPosition?)
    ensures
      var (s1, snap) := BuildSnapshot(s.(lastTs := Some(c.ts)), c);
      OnCandle(s, c, a, cid) == Decision(s1, snap, a, cid)
  {
    hide RsiUpdate, CloseUpdate, VolUpdate, TrendOk, VolatilityOk, StopPrice, TargetPrice, MaybeEnter, MaybeExit;
  }

  /** The snapshot of the closes that s1, the strategy s after its indicators, decides on. */
  ghost predicate SnapshotIs(s: StrategyState, s1: StrategyState, snap: Snapshot, closes: seq<real>, rsi: real)
    requires CanDecide(s.params, closes, rsi)
  {
    && s1 == s.(lastTs := s1.lastTs, rsi := s1.rsi, closes := s1.closes, vol := s1.vol)
    && snap.close == closes[|closes| - 1]
    && snap.marketOk == (BatchMarketOk(s.params, closes) && !LiveIsBlind(s.params, |closes| - 1))
    && snap.rsi.ready == (|closes| > s.params.rsiLength)
    && (snap.rsi.ready ==> snap.rsi.v == rsi)
  }

  lemma DustDecides(s: StrategyState, s1: StrategyState, snap: Snapshot, a: AccountSnapshot, cid: Id,
                    closes: seq<real>, rsi: real)
    requires CanDecide(s.params, closes, rsi) && SnapshotIs(s, s1, snap, closes, rsi)
    requires (s.phase.Flat? || s.phase.InPosition?) && LevelsOfEntry(s) && Value(a.coin, snap.close) < 5000.0
    ensures Decides(s, a.krw, a.coin, closes, rsi, cid, Decision(s1, snap, a, cid).0, Decision(s1, snap, a, cid).1)
  {
    if BatchMarketOk(s.params, closes) {
      MarketOkIsReady(s.params, closes);
    }
    NothingToSpend(a.krw, s.params.utilization);
    var s2 := SelfHeal(s1, snap.close, a);
    DustIsFlat(s1, snap.close, a);
    EntersIff(s2, snap, a, cid);
    hide BatchMarketOk, LiveIsBlind, RsiOfLast, PercentReached, Positive, Value, Spend, SelfHeal, MaybeEnter, MaybeExit;
  }

  lemma DustIsFlat(s: StrategyState, close: real, a: AccountSnapshot)
    requires (s.phase.Flat? || s.phase.InPosition?) && LevelsOfEntry(s) && Value(a.coin, close) < 5000.0
    ensures
      var s' := SelfHeal(s, close, a);
      && s'.phase.Flat? && LevelsOfEntry(s') && Corrected(s, s', a.coin, close)
      && s' == s.(phase := Flat, entry := s'.entry, stop := s'.stop, target := s'.target)
  {
    hide StopPrice, TargetPrice;
  }

  lemma EntersIff(s: StrategyState, snap: Snapshot, a: AccountSnapshot, cid: Id)
    ensures
      var (s', order) := MaybeEnter(s, snap, a, cid);
      var krw := Spend(a.krw, s.params.utilization);
      if a.krw > 0.0 && snap.marketOk && snap.rsi.v <= s.params.oversold && krw >= 5000.0 then
        && order == Some(OrderRequest(s.market, BID, Market, AmountSize(krw), None, cid))
        && s'.phase.PendingEntry? && s'.pending == Some(cid) && SameLevels(s, s')
      else s' == s && order.None?
  {
    SpendIsEntry(a.krw, s.params.utilization);
    hide Spend, EntryAmount;
  }

  lemma SpendIsEntry(krw: real, utilization: real)
    ensures Spend(krw, utilization) == EntryAmount(krw, utilization)
  {
    assert krw / RESERVE_MARGIN == krw / 1.001;
  }

  lemma HoldingDecides(s: StrategyState, s1: StrategyState, snap: Snapshot, a: AccountSnapshot, cid: Id,
                       closes: seq<real>, rsi: real)
    requires CanDecide(s.params, closes, rsi) && SnapshotIs(s, s1, snap, closes, rsi) && a.coin >= 0.0
    requires (s.phase.Flat? || s.phase.InPosition?) && LevelsOfEntry(s) && Value(a.coin, snap.close) >= 5000.0
    ensures Decides(s, a.krw, a.coin, closes, rsi, cid, Decision(s1, snap, a, cid).0, Decision(s1, snap, a, cid).1)
  {
    hide BatchMarketOk, LiveIsBlind, RsiOfLast, PercentReached, StopPrice, TargetPrice, Positive;
    ExitsIff(SelfHeal(s1, snap.close, a), snap, a, cid);
    CoinOfWorth(a.coin, snap.close);
    HealedLevels(s1, snap.close, a);
    var s2 := SelfHeal(s1, snap.close, a);
    if s2.entry.Some? {
      LevelsArePercentages(s2, snap.close);
    }
    hide SelfHeal, MaybeEnter, MaybeExit, Value, Spend;
  }

  lemma ExitsIff(s: StrategyState, snap: Snapshot, a: AccountSnapshot, cid: Id)
    ensures
      var (s', order) := MaybeExit(s, snap, a, cid);
      var levels := s.entry.Some? && s.stop.Some? && s.target.Some?
                    && (snap.close <= s.stop.value || snap.close >= s.target.value);
      if a.coin > 0.0 && Value(a.coin, snap.close) >= 5000.0
         && ((snap.rsi.ready && snap.rsi.v >= s.params.overbought) || levels)
      then
        && order == Some(OrderRequest(s.market, ASK, Market, VolumeSize(a.coin), None, cid))
        && s'.phase.PendingExit? && s'.pending == Some(cid) && SameLevels(s, s')
      else s' == s && order.None?
  {
  }

  lemma HealedLevels(s: StrategyState, close: real, a: AccountSnapshot)
    requires LevelsOfEntry(s) && (s.phase.Flat? || s.phase.InPosition?) && Value(a.coin, close) >= 5000.0 && close > 0.0
    ensures
      var s' := SelfHeal(s, close, a);
      && s'.phase.InPosition? && LevelsOfEntry(s') && s'.entry == EntryAt(s, close)
      && s' == s.(phase := InPosition, entry := s'.entry, stop := s'.stop, target := s'.target)
      && (s.phase.InPosition? ==> s' == s)
  {
    hide StopPrice, TargetPrice;
  }

  // ---------- what the worker does about it ----------

  /** Order `id` is in the store as a market order of that size under the strategy's identifier. */
  predicate Posted(e: EngineState, id: Id, side: Side, volume: Option<real>, amount: Option<real>, cid: Id) {
    && id in e.orders
    && var o := e.orders[id];
    && o.market == e.market && o.side == side && o.otype.Market? && o.volume == volume && o.requestedAmount == amount
    && o.identifier == Some(cid)
  }

  /**
    What a confirmed candle makes of worker w, with `closes` up to it and the exchange's reply to a post:
    the order it should make is posted; without a reply, or with nothing to do, only the mark price moves.
  */
  ghost predicate Confirms(w: WorkerState, closes: seq<real>, rsi: real, cid: Id, reply: Option<Id>, w': WorkerState)
    requires CanDecide(w.strategy.params, closes, rsi)
  {
    var e, e', s, s', p := w.engine, w'.engine, w.strategy, w'.strategy, w.strategy.params;
    var close, krw, coin := closes[|closes| - 1], w.engine.budget.available, w.engine.budget.coin;
    if !AtRest(w) then e' == e.(mark := close) && SameHolding(s, s')
    else
      && Corrected(s, s', coin, close) && LevelsOfEntry(s')
      && if reply.Some? && ShouldBuy(krw, coin, p, closes, rsi) then
           && e'.buyId == reply.value && e'.sellId == NO_ID && s'.phase.PendingEntry? && s'.pending == Some(cid)
           && Posted(e', reply.value, BID, None, Some(Spend(krw, p.utilization)), cid)
         else if reply.Some? && ShouldSell(coin, EntryAt(s, close), p, closes, rsi) then
           && e'.sellId == reply.value && e'.buyId == NO_ID && s'.phase.PendingExit? && s'.pending == Some(cid)
           && Posted(e', reply.value, ASK, Some(coin), None, cid)
         else
           && e' == e.(mark := close) && s'.pending.None?
           && s'.phase == (if Value(coin, close) >= 5000.0 then InPosition else Flat)
  }

  /** The check between candles: a stop or target reached sells everything, unless this candle's sell was refused before. */
  predicate Checks(w: WorkerState, close: real, cid: Id, reply: Option<Id>, w': WorkerState) {
    var s, s', coin := w.strategy, w'.strategy, w.engine.budget.coin;
    if && !(w.pendingCandle.Some? && w.failTs == Some(w.pendingCandle.value.ts))
       && s.phase.InPosition? && Value(coin, close) >= 5000.0
       && s.entry.Some? && s.entry.value > 0.0 && PercentReached(s.params, s.entry.value, close)
    then
      && SameLevels(s, s') && w'.pendingCandle == w.pendingCandle
      && match reply
         case Some(id) =>
           && w'.engine.sellId == id && w'.engine.buyId == NO_ID && Posted(w'.engine, id, ASK, Some(coin), None, cid)
           && s'.phase.PendingExit? && s'.pending == Some(cid) && w'.failTs == w.failTs
         case None =>
           && w'.engine == w.engine.(mark := close) && SameHolding(s, s')
           && (w.pendingCandle.Some? ==> w'.failTs == Some(w.pendingCandle.value.ts))
    else w' == w.(engine := w.engine.(mark := close))
  }

  lemma RestIsPhase(w: WorkerState)
    requires WorkerInv(w)
    ensures AtRest(w) <==> w.strategy.phase.Flat? || w.strategy.phase.InPosition?
    ensures AtRest(w) ==> w.strategy.pending.None?
  {
  }

  lemma RestSubmits(e: EngineState, req: OrderRequest, reply: Option<Id>)
    requires Inv(e) && e.buyId == NO_ID && e.sellId == NO_ID && FreshReply(e, reply)
    requires reply.Some? ==> SubmitStep(e, req, reply).1.Accepted?
    ensures
      var (e', result) := SubmitStep(e, req, reply);
      match reply
      case None => e' == e && result.Refused?
      case Some(id) =>
        && result.Accepted? && id != NO_ID
        && e'.buyId == (if req.side.BID? then id else NO_ID) && e'.sellId == (if req.side.ASK? then id else NO_ID)
        && e'.market == e.market && e'.orders == e.orders[id := NewOrder(req, id)]
  {
    SubmitKeepsInv(e, req, reply);
    hide Reserved, Released, CanReserve, ReserveAmount, ValidRequest, NewOrder;
    NewOrderId(req, reply);
  }

  lemma NewOrderId(req: OrderRequest, reply: Option<Id>)
    ensures reply.Some? ==> NewOrder(req, reply.value).id == reply.value
  {
  }

  lemma NewOrderPosted(e: EngineState, req: OrderRequest, id: Id)
    requires id in e.orders && e.orders[id] == NewOrder(req, id) && req.market == e.market && req.otype.Market?
    requires req.identifier != NO_ID
    ensures Posted(e, id, req.side, if req.size.VolumeSize? then Some(req.size.volume) else None,
                   if req.size.AmountSize? then Some(req.size.amount) else None, req.identifier)
  {
  }

  lemma RefusedIsUndone(s: StrategyState)
    requires s.pending.Some? && (s.phase.PendingEntry? || s.phase.PendingExit?)
    ensures
      var s' := OnSubmitFailed(s);
      && s'.pending.None? && s'.phase == (if s.phase.PendingEntry? then Flat else InPosition)
      && SameLevels(s, s') && s'.params == s.params
  {
  }

  lemma PendingDecidesNothing(w: WorkerState, c: Candle, cid: Id, reply: Option<Id>)
    requires w.strategy.phase.PendingEntry? || w.strategy.phase.PendingExit?
    ensures
      var w' := ConfirmCandle(w, c, cid, reply);
      w'.engine == w.engine.(mark := c.close) && SameHolding(w.strategy, w'.strategy)
  {
    hide RsiUpdate, CloseUpdate, VolUpdate, TrendOk, VolatilityOk, StopPrice, TargetPrice, EntryAmount;
  }

  /** The state a candle finds, after the mark price has moved. */
  ghost predicate MayConfirm(w: WorkerState, c: Candle, closes: seq<real>, rsi: real, cid: Id, reply: Option<Id>) {
    && WorkerInv(w) && w.engine.budget.coin >= 0.0 && cid != NO_ID && FreshReply(w.engine, reply)
    && CanDecide(w.strategy.params, closes + [c.close], rsi) && Positive(closes)
    && IndicatorsTrack(w.strategy, w.strategy.params, closes) && LevelsOfEntry(w.strategy)
    && c.market == w.strategy.market == w.engine.market && w.strategy.lastTs != Some(c.ts)
  }

  lemma ConfirmDecides(w: WorkerState, c: Candle, closes: seq<real>, rsi: real, cid: Id, reply: Option<Id>)
    requires MayConfirm(w, c, closes, rsi, cid, reply)
    ensures Confirms(w, closes + [c.close], rsi, cid, reply, ConfirmCandle(w, c, cid, reply))
  {
    var all := closes + [c.close];
    assert all[|closes|] == c.close;
    var w1 := w.(engine := w.engine.(mark := c.close));
    assert w1.engine.budget == w.engine.budget && w1.engine.orders == w.engine.orders && w1.engine.market == w.engine.market;
    RestIsPhase(w);
    hide CanDecide, IndicatorsTrack, LevelsOfEntry, Positive;
    if AtRest(w) {
      RestConfirms(w, c, closes, rsi, cid, reply);
    } else {
      PendingDecidesNothing(w, c, cid, reply);
    }
  }

  lemma RestConfirms(w: WorkerState, c: Candle, closes: seq<real>, rsi: real, cid: Id, reply: Option<Id>)
    requires MayConfirm(w, c, closes, rsi, cid, reply) && AtRest(w)
    ensures Confirms(w, closes + [c.close], rsi, cid, reply, ConfirmCandle(w, c, cid, reply))
  {
    var all := closes + [c.close];
    assert all[|closes|] == c.close;
    var w1 := w.(engine := w.engine.(mark := c.close));
    RestIsPhase(w);
    MarkedInStep(w, c.close, reply);
    CandleDecides(w.strategy, c, AccountOf(w1), cid, closes, rsi);
    var (s, order) := OnCandle(w.strategy, c, AccountOf(w1), cid);
    hide OnCandle, Decides, CanDecide, LevelsOfEntry, IndicatorsTrack, Positive, SubmitDecision, Confirms;
    if order.Some? {
      RestAccepts(w1, c, cid, reply, order.value);
    }
    hide WorkerInv;
    DecisionConfirms(w, all, rsi, cid, reply, s, order);
  }

  /** The decision, submitted. */
  lemma DecisionConfirms(w: WorkerState, closes: seq<real>, rsi: real, cid: Id, reply: Option<Id>,
                         s: StrategyState, order: Option<OrderRequest>)
    requires CanDecide(w.strategy.params, closes, rsi) && AtRest(w) && Inv(w.engine) && w.strategy.pending.None?
    requires cid != NO_ID && FreshReply(w.engine, reply) && w.strategy.market == w.engine.market
    requires Decides(w.strategy, w.engine.budget.available, w.engine.budget.coin, closes, rsi, cid, s, order)
    requires
      var w1 := w.(engine := w.engine.(mark := closes[|closes| - 1]));
      reply.Some? && order.Some? ==> SubmitStep(w1.engine, order.value, reply).1.Accepted?
    ensures
      var w1 := w.(engine := w.engine.(mark := closes[|closes| - 1]));
      Confirms(w, closes, rsi, cid, reply, SubmitDecision(w1.(strategy := s), order, reply).0)
  {
    var w1 := w.(engine := w.engine.(mark := closes[|closes| - 1]));
    assert Inv(w1.engine) && FreshReply(w1.engine, reply);
    hide CanDecide, ShouldBuy, ShouldSell, Value, Spend, PercentReached, SubmitStep, Inv, FreshReply;
    hide Corrected, LevelsOfEntry, Posted;
    if order.Some? {
      DecisionSubmitted(w1, s, order.value, cid, reply);
      hide SubmitDecision;
      CorrectionKept(w.strategy, s, SubmitDecision(w1.(strategy := s), order, reply).0.strategy, w.engine.budget.coin,
                     closes[|closes| - 1]);
    }
  }

  lemma CorrectionKept(s: StrategyState, s1: StrategyState, s': StrategyState, coin: real, close: real)
    requires Corrected(s, s1, coin, close) && LevelsOfEntry(s1) && SameLevels(s1, s') && s'.params == s1.params
    ensures Corrected(s, s', coin, close) && LevelsOfEntry(s')
  {
    hide Value, StopPrice, TargetPrice;
  }

  lemma RestAccepts(w: WorkerState, c: Candle, cid: Id, reply: Option<Id>, order: OrderRequest)
    requires WorkerInv(w) && w.strategy.market == w.engine.market && 0.0 < w.strategy.params.utilization <= 1.0
    requires || Some(order) == OnCandle(w.strategy, c, AccountOf(w), cid).1
             || Some(order) == OnIntrabarCandle(w.strategy, c.close, AccountOf(w), cid).1
    ensures reply.Some? ==> SubmitStep(w.engine, order, reply).1.Accepted?
    ensures Inv(w.engine)
  {
    if reply.Some? {
      DecisionsAreAccepted(w, c, c.close, cid, reply);
    }
  }

  /** An accepted order is posted and the strategy waits; a refused one leaves the strategy as if it had not decided. */
  lemma DecisionSubmitted(w: WorkerState, s: StrategyState, order: OrderRequest, cid: Id, reply: Option<Id>)
    requires Inv(w.engine) && w.engine.buyId == NO_ID && w.engine.sellId == NO_ID && FreshReply(w.engine, reply)
    requires reply.Some? ==> SubmitStep(w.engine, order, reply).1.Accepted?
    requires order.market == w.engine.market && order.otype.Market? && order.identifier == cid != NO_ID
    requires s.pending == Some(cid) && s.phase == (if order.side.BID? then PendingEntry else PendingExit)
    ensures
      var w' := SubmitDecision(w.(strategy := s), Some(order), reply).0;
      match reply
      case None =>
        && w'.engine == w.engine && w'.strategy.pending.None? && SameLevels(s, w'.strategy)
        && w'.strategy.phase == (if order.side.BID? then Flat else InPosition) && w'.strategy.params == s.params
      case Some(id) =>
        && w'.strategy == s
        && w'.engine.buyId == (if order.side.BID? then id else NO_ID)
        && w'.engine.sellId == (if order.side.ASK? then id else NO_ID)
        && Posted(w'.engine, id, order.side, if order.size.VolumeSize? then Some(order.size.volume) else None,
                  if order.size.AmountSize? then Some(order.size.amount) else None, cid)
    ensures
      var (w', failed) := SubmitDecision(w.(strategy := s), Some(order), reply);
      failed == reply.None? && w'.pendingCandle == w.pendingCandle && w'.failTs == w.failTs
  {
    RestSubmits(w.engine, order, reply);
    RefusedIsUndone(s);
    hide SubmitStep, NewOrder, Inv, OnSubmitFailed, Posted;
    if reply.Some? {
      NewOrderPosted(SubmitStep(w.engine, order, reply).0, order, reply.value);
    }
  }

  // ---------- between candles ----------

  lemma IntrabarDecides(s: StrategyState, close: real, a: AccountSnapshot, cid: Id)
    requires LevelsOfEntry(s) && a.coin >= 0.0
    ensures
      var (s', order) := OnIntrabarCandle(s, close, a, cid);
      if s.phase.InPosition? && Value(a.coin, close) >= 5000.0 && s.entry.Some? && PercentReached(s.params, s.entry.value, close)
      then
        && order == Some(OrderRequest(s.market, ASK, Market, VolumeSize(a.coin), None, cid))
        && s'.phase.PendingExit? && s'.pending == Some(cid) && SameLevels(s, s')
      else s' == s && order.None?
  {
    hide StopPrice, TargetPrice, PercentReached;
    if s.entry.Some? {
      LevelsArePercentages(s, close);
    }
    if Value(a.coin, close) >= 5000.0 {
      CoinOfWorth(a.coin, close);
    }
  }

  ghost predicate MayCheck(w: WorkerState, cid: Id, reply: Option<Id>) {
    && WorkerInv(w) && w.engine.budget.coin >= 0.0 && cid != NO_ID && LevelsOfEntry(w.strategy)
    && (w.strategy.phase.InPosition? ==> FreshReply(w.engine, reply))
    && w.strategy.market == w.engine.market && 0.0 < w.strategy.params.utilization <= 1.0
  }

  lemma CheckDecides(w: WorkerState, close: real, cid: Id, reply: Option<Id>)
    requires MayCheck(w, cid, reply)
    ensures Checks(w, close, cid, reply, IntrabarCheck(w, close, cid, reply))
  {
    var w1 := w.(engine := w.engine.(mark := close));
    if !IntrabarBlocked(w1) {
      RestIsPhase(w);
      MarkedInStep(w, close, reply);
      IntrabarDecides(w.strategy, close, AccountOf(w1), cid);
      var (s, order) := OnIntrabarCandle(w.strategy, close, AccountOf(w1), cid);
      hide OnIntrabarCandle, Value, LevelsOfEntry, PercentReached, SubmitStep;
      if order.Some? {
        RestAccepts(w1, Candle(NO_ID, NO_ID, close), cid, reply, order.value);
        hide WorkerInv;
        DecisionSubmitted(w1, s, order.value, cid, reply);
      }
    }
  }

  // ---------- over runs ----------

  /** The indicators have the lengths of the settings. */
  predicate SettingsFit(s: StrategyState) {
    s.rsi.length == s.params.rsiLength && s.closes.length == s.params.trendLookWindow && s.vol.length == LiveWindow(s.params)
  }

  lemma ConfirmKeepsSettings(w: WorkerState, c: Candle, cid: Id, reply: Option<Id>)
    requires SettingsFit(w.strategy)
    ensures SettingsFit(ConfirmCandle(w, c, cid, reply).strategy)
  {
    hide OnCandle, SubmitDecision;
    var w1 := w.(engine := w.engine.(mark := c.close));
    var (s, order) := OnCandle(w1.strategy, c, AccountOf(w1), cid);
    CandleKeepsSettings(w1.strategy, c, AccountOf(w1), cid);
    DecisionKeepsIndicators(w1.(strategy := s), order, reply);
    DecisionKeepsParams(w1.(strategy := s), order, reply);
  }

  lemma CandleKeepsSettings(s: StrategyState, c: Candle, a: AccountSnapshot, cid: Id)
    requires SettingsFit(s)
    ensures SettingsFit(OnCandle(s, c, a, cid).0)
  {
    DecidingKeepsParams(s, c, a, cid);
    UpdatesKeepLengths(s, c.close);
    if c.market == s.market && s.lastTs != Some(c.ts) {
      OnCandleCounts(s, c, a, cid);
    }
    hide RsiUpdate, CloseUpdate, VolUpdate, StopPrice, TargetPrice, EntryAmount, TrendOk, VolatilityOk, LiveWindow;
  }

  lemma UpdatesKeepLengths(s: StrategyState, close: real)
    ensures RsiUpdate(s.rsi, close).0.length == s.rsi.length && CloseUpdate(s.closes, close).0.length == s.closes.length
    ensures VolUpdate(s.vol, close).0.length == s.vol.length
  {
    hide Return, Square, Variance;
  }

  lemma CheckKeepsSettings(w: WorkerState, close: real, cid: Id, reply: Option<Id>)
    requires SettingsFit(w.strategy)
    ensures SettingsFit(IntrabarCheck(w, close, cid, reply).strategy)
  {
    hide IntrabarCheck;
    IntrabarKeepsIndicators(w, close, cid, reply);
    CandlesKeepParams(w, Candle(NO_ID, NO_ID, close), cid, reply);
  }

  lemma NextKeepsSettings(w: WorkerState, step: Step)
    requires SettingsFit(w.strategy)
    ensures SettingsFit(Next(w, step).strategy)
  {
    hide ConfirmCandle, IntrabarCheck, SettingsFit;
    match step {
      case CandleStep(c, o) =>
        var w1 := w.(pendingCandle := Some(c));
        CandleIsNext(w, step);
        if w.pendingCandle.None? || w.pendingCandle.value.ts == c.ts {
          CheckKeepsSettings(w1, c.close, o.intrabarCid, o.intrabarReply);
        } else {
          ConfirmKeepsSettings(w1, w.pendingCandle.value, o.cid, o.reply);
          CheckKeepsSettings(ConfirmCandle(w1, w.pendingCandle.value, o.cid, o.reply), c.close, o.intrabarCid, o.intrabarReply);
        }
      case _ =>
        hide Next;
        OtherStepsKeepCandles(w, step);
        NextKeepsParams(w, step);
        SameSettings(w.strategy, Next(w, step).strategy);
    }
  }

  lemma SameSettings(s: StrategyState, s': StrategyState)
    requires SettingsFit(s) && SameIndicators(s, s') && s'.params == s.params
    ensures SettingsFit(s')
  {
  }

  lemma {:induction false} RunKeepsSettings(w: WorkerState, steps: seq<Step>)
    requires SettingsFit(w.strategy)
    ensures SettingsFit(Run(w, steps).strategy)
  {
    hide Next, SettingsFit;
    if steps != [] {
      RunKeepsSettings(w, steps[..|steps| - 1]);
      NextKeepsSettings(Run(w, steps[..|steps| - 1]), steps[|steps| - 1]);
    }
  }

  lemma SeenIsTracked(s: StrategyState, cs: seq<Candle>)
    requires HasSeen(s, cs) && SettingsFit(s) && Positive(Closes(cs))
    ensures IndicatorsTrack(s, s.params, Closes(cs))
  {
    hide TracksSeries, TracksReturns, LastOf;
  }

  /** A worker as it starts: nothing seen, nothing held against its levels, and sound books. */
  ghost predicate Fresh(w: WorkerState) {
    && Sound(w) && Assembled(w, []) && LevelsOfEntry(w.strategy) && SettingsFit(w.strategy)
    && w.strategy.market == w.engine.market
  }

  /** The closes confirmed when candle c arrives after the stream. */
  function ConfirmedCloses(stream: seq<Candle>, c: Candle): seq<real> {
    Closes(RunEnds(stream + [c]))
  }

  lemma EngineKeepsMarket(w: WorkerState, steps: seq<Step>)
    requires WorkerInv(w) && RoutedRun(w, steps)
    ensures Run(w, steps).engine.market == w.engine.market
  {
    Operations.RunIsOps(w, steps);
    RunKeepsOthers(w.engine, Operations.RunOpsOf(w, steps));
  }

  /** Every state of a run may confirm its pending candle. */
  lemma RunMayConfirm(w: WorkerState, steps: seq<Step>, c: Candle, rsi: real, cid: Id, reply: Option<Id>)
    requires Fresh(w) && GoodRun(w, steps) && OfMarket(steps, w.strategy.market)
    requires Stream(steps) != [] && Stream(steps)[|Stream(steps)| - 1].ts != c.ts
    requires cid != NO_ID && FreshReply(Run(w, steps).engine, reply)
    requires CanDecide(w.strategy.params, ConfirmedCloses(Stream(steps), c), rsi)
    ensures
      var now, stream := Run(w, steps), Stream(steps);
      var last := stream[|stream| - 1];
      && ConfirmedCloses(stream, c) == Closes(RunEnds(stream)) + [last.close]
      && now.pendingCandle == Some(last) && now.strategy.params == w.strategy.params
      && MayConfirm(now.(pendingCandle := Some(c)), last, Closes(RunEnds(stream)), rsi, cid, reply)
  {
    hide Sound, Run, GoodRun, LevelsOfEntry, SettingsFit, IndicatorsTrack, RunEnds, HasSeen, RsiOfLast;
    var now, stream := Run(w, steps), Stream(steps);
    var last := stream[|stream| - 1];
    ConfirmsRunEnds(w, steps);
    RunKeepsLevels(w, steps);
    RunKeepsSettings(w, steps);
    RunKeepsParams(w, steps);
    CoinNeverNegative(w, steps);
    RunEndsOfAppend(stream, c);
    ClosesOfAppend(RunEnds(stream), last);
    NeighboursDiffer(stream);
    LastSeen(now.strategy, RunEnds(stream));
    var all := ConfirmedCloses(stream, c);
    assert forall i :: 0 <= i < |Closes(RunEnds(stream))| ==> Closes(RunEnds(stream))[i] == all[i];
    SeenIsTracked(now.strategy, RunEnds(stream));
    SoundMarket(w, steps);
    WatchDoesNotMatterHere(now, c);
    SameIndicatorsTrack(now.strategy, now.strategy, Closes(RunEnds(stream)));
  }

  lemma LastSeen(s: StrategyState, cs: seq<Candle>)
    requires HasSeen(s, cs)
    ensures s.lastTs == if cs == [] then None else Some(cs[|cs| - 1].ts)
  {
  }

  lemma SoundMarket(w: WorkerState, steps: seq<Step>)
    requires Sound(w) && GoodRun(w, steps)
    ensures Run(w, steps).engine.market == w.engine.market && WorkerInv(Run(w, steps))
  {
    GoodRunIsRouted(w, steps);
    EngineKeepsMarket(w, steps);
    RunKeepsInStep(w, steps);
  }

  lemma WatchDoesNotMatterHere(w: WorkerState, c: Candle)
    requires WorkerInv(w)
    ensures WorkerInv(w.(pendingCandle := Some(c)))
  {
  }

  lemma ConfirmMayCheck(w: WorkerState, c: Candle, closes: seq<real>, rsi: real, o: Outside)
    requires MayConfirm(w, c, closes, rsi, o.cid, o.reply) && Sound(w) && FreshOutside(w.engine, o)
    ensures MayCheck(ConfirmCandle(w, c, o.cid, o.reply), o.intrabarCid, o.intrabarReply)
  {
    hide ConfirmCandle, Accounted, LevelsOfEntry, IndicatorsTrack, RsiOfLast, Positive, Inv, InStep, Confirms;
    var w' := ConfirmCandle(w, c, o.cid, o.reply);
    ConfirmKeepsStep(w, c, o.cid, o.reply);
    ConfirmAccounted(w, c, o.cid, o.reply);
    AccountedCoin(w'.engine);
    ConfirmKeepsLevels(w, c, o.cid, o.reply);
    CandlesKeepParams(w, c, o.cid, o.reply);
    ConfirmKeepsMarkets(w, c, o.cid, o.reply);
  }

  lemma AccountedCoin(e: EngineState)
    requires Accounted(e)
    ensures e.budget.coin >= 0.0
  {
  }

  lemma ConfirmKeepsMarkets(w: WorkerState, c: Candle, cid: Id, reply: Option<Id>)
    ensures
      var w' := ConfirmCandle(w, c, cid, reply);
      w'.strategy.market == w.strategy.market && w'.engine.market == w.engine.market
  {
    hide OnCandle, SubmitStep;
    var w1 := w.(engine := w.engine.(mark := c.close));
    var (s, order) := OnCandle(w1.strategy, c, AccountOf(w1), cid);
    MarketOfDecision(w1.strategy, c, AccountOf(w1), cid);
    DecisionKeepsIndicators(w1.(strategy := s), order, reply);
    if order.Some? {
      SubmitKeepsMarket(w1.engine, order.value, reply);
    }
  }

  lemma MarketOfDecision(s: StrategyState, c: Candle, a: AccountSnapshot, cid: Id)
    ensures OnCandle(s, c, a, cid).0.market == s.market
  {
    hide RsiUpdate, CloseUpdate, VolUpdate, TrendOk, VolatilityOk, StopPrice, TargetPrice, EntryAmount;
  }

  lemma SubmitKeepsMarket(e: EngineState, req: OrderRequest, reply: Option<Id>)
    ensures SubmitStep(e, req, reply).0.market == e.market
  {
    hide Reserved, Released, CanReserve, ReserveAmount, ValidRequest;
  }

  /** A run in which candle c has just arrived, another one than the last. */
  ghost predicate Arrives(w: WorkerState, steps: seq<Step>, c: Candle, o: Outside, rsi: real) {
    && Fresh(w) && GoodRun(w, steps) && OfMarket(steps, w.strategy.market)
    && Stream(steps) != [] && Stream(steps)[|Stream(steps)| - 1].ts != c.ts
    && FreshOutside(Run(w, steps).engine, o)
    && CanDecide(w.strategy.params, ConfirmedCloses(Stream(steps), c), rsi)
  }

  /**
    Over every run, by the confirmed closes: the arrival of a new candle makes the worker do with the one it
    confirms exactly what Confirms says, and then with the new price what Checks says.
  */
  lemma RunDecides(w: WorkerState, steps: seq<Step>, c: Candle, o: Outside, rsi: real)
    requires Arrives(w, steps, c, o, rsi)
    ensures
      var now, last := Run(w, steps).(pendingCandle := Some(c)), Stream(steps)[|Stream(steps)| - 1];
      var mid := ConfirmCandle(now, last, o.cid, o.reply);
      && now.strategy.params == w.strategy.params && WorkerInv(Run(w, steps))
      && Confirms(now, ConfirmedCloses(Stream(steps), c), rsi, o.cid, o.reply, mid)
      && Checks(mid, c.close, o.intrabarCid, o.intrabarReply, Next(Run(w, steps), CandleStep(c, o)))
  {
    hide Fresh, Run, GoodRun, ConfirmedCloses, ConfirmCandle, IntrabarCheck, Confirms, Checks, MayConfirm, MayCheck, Sound;
    hide RunEnds, CanDecide;
    var now := Run(w, steps).(pendingCandle := Some(c));
    var stream := Stream(steps);
    var last := stream[|stream| - 1];
    FreshParts(w);
    RunMayConfirm(w, steps, c, rsi, o.cid, o.reply);
    CoinNeverNegative(w, steps);
    SoundHere(Run(w, steps), c);
    SoundMarket(w, steps);
    ConfirmDecides(now, last, Closes(RunEnds(stream)), rsi, o.cid, o.reply);
    ConfirmMayCheck(now, last, Closes(RunEnds(stream)), rsi, o);
    CheckDecides(ConfirmCandle(now, last, o.cid, o.reply), c.close, o.intrabarCid, o.intrabarReply);
  }

  lemma FreshParts(w: WorkerState)
    requires Fresh(w)
    ensures Sound(w)
  {
  }

  lemma SoundHere(w: WorkerState, c: Candle)
    requires Sound(w)
    ensures Sound(w.(pendingCandle := Some(c)))
  {
  }

  /** Between new candles only the check acts. */
  lemma RunChecks(w: WorkerState, steps: seq<Step>, c: Candle, o: Outside)
    requires Fresh(w) && GoodRun(w, steps) && OfMarket(steps, w.strategy.market)
    requires Stream(steps) != [] ==> Stream(steps)[|Stream(steps)| - 1].ts == c.ts
    requires FreshOutside(Run(w, steps).engine, o) && 0.0 < w.strategy.params.utilization <= 1.0
    ensures Checks(Run(w, steps).(pendingCandle := Some(c)), c.close, o.intrabarCid, o.intrabarReply,
                   Next(Run(w, steps), CandleStep(c, o)))
  {
    hide Run, GoodRun, LevelsOfEntry, SettingsFit, RunEnds, HasSeen, IntrabarCheck, Checks, Inv, InStep;
    var now := Run(w, steps);
    ConfirmsRunEnds(w, steps);
    RunKeepsLevels(w, steps);
    RunKeepsParams(w, steps);
    CoinNeverNegative(w, steps);
    SoundMarket(w, steps);
    WatchDoesNotMatterHere(now, c);
    CheckDecides(now.(pendingCandle := Some(c)), c.close, o.intrabarCid, o.intrabarReply);
  }

  /** e', after the candle, holds order `id` exactly if worker w should buy or sell at the last of the closes. */
  ghost predicate OrdersRight(w: WorkerState, closes: seq<real>, rsi: real, e': EngineState, id: Id, cid: Id)
    requires CanDecide(w.strategy.params, closes, rsi)
  {
    var p, krw, coin := w.strategy.params, w.engine.budget.available, w.engine.budget.coin;
    var buys := AtRest(w) && ShouldBuy(krw, coin, p, closes, rsi);
    var sells := AtRest(w) && ShouldSell(coin, EntryAt(w.strategy, closes[|closes| - 1]), p, closes, rsi);
    && (e'.buyId == id <==> buys) && (e'.sellId == id <==> sells)
    && (buys ==> Posted(e', id, BID, None, Some(Spend(krw, p.utilization)), cid))
    && (sells ==> Posted(e', id, ASK, Some(coin), None, cid))
  }

  /**
    Over every run, the order answered at the confirmed candle: a buy of krw / 1.001 * utilization is posted if
    and only if the worker rests with coin worth less than 5000, that amount is at least 5000, the backtest's
    market filter passes where the live one is not blind, and the RSI is at or below the oversold level; a sell
    of all coin if and only if it rests with coin worth at least 5000 and the RSI is at or above the overbought
    level or the loss or gain since the entry has reached its percentage.
  */
  lemma OrderedIff(w: WorkerState, steps: seq<Step>, c: Candle, o: Outside, rsi: real)
    requires Arrives(w, steps, c, o, rsi) && o.reply.Some? && o.intrabarReply != o.reply
    ensures
      var now := Run(w, steps).(pendingCandle := Some(c));
      && now.strategy.params == w.strategy.params
      && OrdersRight(now, ConfirmedCloses(Stream(steps), c), rsi, Next(Run(w, steps), CandleStep(c, o)).engine,
                     o.reply.value, o.cid)
  {
    var now := Run(w, steps).(pendingCandle := Some(c));
    RunDecides(w, steps, c, o, rsi);
    IdIsNew(Run(w, steps), o.reply.value);
    var mid := ConfirmCandle(now, Stream(steps)[|Stream(steps)| - 1], o.cid, o.reply);
    hide *;
    ConfirmThenCheck(now, mid, Next(Run(w, steps), CandleStep(c, o)), ConfirmedCloses(Stream(steps), c), rsi, c.close, o);
  }

  lemma ConfirmThenCheck(now: WorkerState, mid: WorkerState, next: WorkerState, closes: seq<real>, rsi: real,
                         close: real, o: Outside)
    requires CanDecide(now.strategy.params, closes, rsi) && o.reply.Some? && o.intrabarReply != o.reply
    requires Confirms(now, closes, rsi, o.cid, o.reply, mid)
    requires Checks(mid, close, o.intrabarCid, o.intrabarReply, next)
    requires now.engine.buyId != o.reply.value && now.engine.sellId != o.reply.value && o.reply.value != NO_ID
    ensures OrdersRight(now, closes, rsi, next.engine, o.reply.value, o.cid)
  {
    NotBoth(now, now.strategy.params, closes, rsi);
    hide ShouldBuy, ShouldSell, Spend, Value, CanDecide, PercentReached, LevelsOfEntry, Corrected;
  }

  lemma NotBoth(now: WorkerState, p: Params, closes: seq<real>, rsi: real)
    requires CanDecide(p, closes, rsi)
    ensures ShouldBuy(now.engine.budget.available, now.engine.budget.coin, p, closes, rsi) ==>
              !ShouldSell(now.engine.budget.coin, EntryAt(now.strategy, closes[|closes| - 1]), p, closes, rsi)
  {
    hide Value, Spend, BatchMarketOk;
  }

  lemma IdIsNew(w: WorkerState, id: Id)
    requires WorkerInv(w) && FreshReply(w.engine, Some(id))
    ensures w.engine.buyId != id && w.engine.sellId != id && id != NO_ID
  {
  }

  /** A worker starts fresh, whatever position it is told. */
  lemma StartupIsFresh(bs: map<Id, Budget>, account: ExchangeAccount, m: Id, orders: map<Id, Order>,
                       params: Params, coin: real, avgEntry: real)
    requires m in bs && m != NO_ID && account.krwFree >= 0.0 && params.rsiLength >= 1
    requires forall i :: 0 <= i < |account.positions| ==> account.positions[i].free >= 0.0
    requires KeyedById(orders) && forall k :: k in orders ==> orders[k].market != m
    ensures Fresh(Startup(bs, account, m, orders, params, coin, avgEntry))
  {
    hide Rebuilt, Sound, LevelsOfEntry, Assembled;
    var w := Startup(bs, account, m, orders, params, coin, avgEntry);
    StartupHasLevels(bs, account, m, orders, params, coin, avgEntry);
    FreshStart(w.engine, m, params, coin, avgEntry);
  }
}
