/**
  Two entry prices exist for one buy: the strategy's, from the fill events it saw, and the account's
  weighted average, from everything that was settled. They agree when all fills came by one route;
  with both routes in play they agree exactly when the streamed fills had the average price of the whole.
*/
module EntryPrice {
  import opened Domain
  import opened Account
  import opened OrderStore
  import opened TradeDedupe
  import opened Engine
  import opened Strategy
  import opened Messages
  import opened Lifecycle
  import opened Worker
  import opened Lockstep
  import opened Settlement
  import opened CoinSafety

  /** The message of a fill that a step announces for order `id` over the WebSocket, if it is new. */
  function StreamedBy(e: EngineState, step: Step, id: Id): seq<MyOrderDto> {
    if step.OrderStep? && TellsFill(step.dto) && step.dto.uuid == id && FillKey(step.dto) !in e.dedupe.seen
    then [step.dto]
    else []
  }

  function Amounts(ds: seq<MyOrderDto>): Cumulative {
    if ds == [] then Cumulative(0.0, 0.0, 0.0)
    else Cumulative(ds[0].volume, ds[0].price * ds[0].volume, FillFee(ds[0]))
  }

  /** Everything a run announced for the order over the WebSocket. */
  function Streamed(w: WorkerState, steps: seq<Step>, id: Id): Cumulative {
    if steps == [] then Cumulative(0.0, 0.0, 0.0)
    else
      var earlier := steps[..|steps| - 1];
      var c, a := Streamed(w, earlier, id), Amounts(StreamedBy(Run(w, earlier).engine, steps[|steps| - 1], id));
      Cumulative(c.volume + a.volume, c.funds + a.funds, c.fee + a.fee)
  }

  /** Messages about the order carry the client's identifier or none. */
  predicate Echoes(step: Step, id: Id, cid: Id) {
    step.OrderStep? && step.dto.uuid == id ==> step.dto.identifier.None? || step.dto.identifier == Some(cid)
  }

  /** The strategy after it has seen the events that are still queued. */
  function Informed(w: WorkerState): StrategyState {
    HandleEvents(w.strategy, w.engine.events)
  }

  predicate WaitsForEntry(s: StrategyState, cid: Id, c: Cumulative) {
    s.phase.PendingEntry? && s.pending == Some(cid) && s.filled == c.volume && s.cost == c.funds
  }

  // ---------- one step of an open order ----------

  function FillEvents(ds: seq<MyOrderDto>, cid: Id): seq<EngineEvent>
    requires forall i :: 0 <= i < |ds| ==> TellsFill(ds[i])
  {
    if ds == [] then []
    else
      var d := ds[0];
      [FillEvent(cid, d.uuid, FillKey(d), if d.isAsk then ASK else BID, d.price, d.volume)]
  }

  lemma TradeAnnounces(e: EngineState, step: Step, id: Id, cid: Id)
    requires step.OrderStep? && TellsFill(step.dto) && GoodMessage(e, step.dto) && Echoes(step, id, cid)
    requires id in e.orders && e.orders[id].identifier == Some(cid) && cid != NO_ID
    requires step.dto.uuid != id ==> step.dto.uuid !in e.orders
    ensures TradeStep(e, ToTrade(step.dto)).events == e.events + FillEvents(StreamedBy(e, step, id), cid)
  {
    hide BuyFilled, SellFilled, Mark, GoodFill, Key, FillKey;
    KeyOfFill(step.dto);
  }

  lemma SnapshotSilent(e: EngineState, s: Order)
    requires KeyedById(e.orders) && (s.id in SnapshotStep(e, s).orders || s.id !in e.orders)
    ensures SnapshotStep(e, s).events == e.events
  {
  }

  lemma ReconcileSilent(e: EngineState, s: Order)
    requires KeyedById(e.orders) && (s.id in ReconcileStep(e, s).0.orders || s.id !in e.orders)
    ensures ReconcileStep(e, s).0.events == e.events
  {
    if s.id in e.orders && SettleDelta(e, s, e.orders[s.id]).Some? {
      SnapshotSilent(SettleDelta(e, s, e.orders[s.id]).value, s);
    }
  }

  lemma OpenBuy(base: Budget, w: WorkerState, id: Id)
    requires WorkerInv(w) && Settled(base, w.engine, id) && w.engine.buyId == id
    ensures w.strategy.phase.PendingEntry? && w.strategy.pending.Some? && w.strategy.pending.value != NO_ID
    ensures id != NO_ID && id in w.engine.orders && w.engine.orders[id].identifier == w.strategy.pending && AllFills(w.engine.events)
    ensures w.engine.sellId == NO_ID && Inv(w.engine)
    ensures forall k :: k in w.engine.orders && w.engine.orders[k].market == w.engine.market ==> k == id
  {
  }

  lemma OpenOrderEvents(w: WorkerState, d: MyOrderDto, id: Id, cid: Id)
    requires Inv(w.engine) && GoodMessage(w.engine, d) && Echoes(OrderStep(d), id, cid)
    requires id in w.engine.orders && w.engine.orders[id].identifier == Some(cid) && cid != NO_ID
    requires forall k :: k in w.engine.orders && w.engine.orders[k].market == w.engine.market ==> k == id
    requires id in HandleMyOrder(w, d).engine.orders
    ensures HandleMyOrder(w, d).engine.events == w.engine.events + FillEvents(StreamedBy(w.engine, OrderStep(d), id), cid)
    ensures HandleMyOrder(w, d).strategy == w.strategy
  {
    hide HandleMyOrder, TradeStep, SnapshotStep, ReconcileStep, GoodTrade, GoodFill, GoodTotals, Echoes;
    GoodMessageMapped(w.engine, d);
    HandleMyOrderUnfolds(w, d);
    var s := ToSnapshot(d);
    if IsTrade(d) {
      TradeAnnounces(w.engine, OrderStep(d), id, cid);
      TradeKeepsIds(w.engine, ToTrade(d));
      SnapshotSilent(TradeStep(w.engine, ToTrade(d)), s);
    } else if s.status.Terminal() {
      ReconcileSilent(w.engine, s);
    } else {
      SnapshotSilent(w.engine, s);
    }
  }

  lemma OpenLookupEvents(w: WorkerState, buy: Option<Order>, sell: Option<Order>, id: Id)
    requires Inv(w.engine) && GoodReply(w.engine, buy) && w.engine.buyId == id && w.engine.sellId == NO_ID
    requires id != NO_ID
    requires forall k :: k in w.engine.orders && w.engine.orders[k].market == w.engine.market ==> k == id
    requires id in RunRecovery(w, buy, sell).engine.orders
    ensures RunRecovery(w, buy, sell).engine.events == w.engine.events
    ensures RunRecovery(w, buy, sell).strategy == w.strategy
  {
    hide ReconcileStep, GoodTotals;
    if buy.Some? {
      ReconcileSilent(w.engine, buy.value);
    }
  }

  /** Only these fields matter to fill events. */
  predicate SameFills(s: StrategyState, s': StrategyState) {
    s'.phase == s.phase && s'.pending == s.pending && s'.filled == s.filled && s'.cost == s.cost
  }

  lemma {:induction false} FillsDependOnFills(s: StrategyState, s': StrategyState, evs: seq<EngineEvent>)
    requires SameFills(s, s') && AllFills(evs)
    ensures SameFills(HandleEvents(s, evs), HandleEvents(s', evs))
  {
    if evs != [] {
      FillsDependOnFills(s, s', evs[..|evs| - 1]);
    }
  }

  lemma CandleKeepsFills(w: WorkerState, c: Candle, o: Outside)
    requires w.strategy.phase.PendingEntry?
    ensures SameFills(w.strategy, HandleMarketData(w, c, o).strategy)
    ensures HandleMarketData(w, c, o).engine.events == w.engine.events
    ensures HandleMarketData(w, c, o).engine.buyId == w.engine.buyId
  {
    hide StopPrice, TargetPrice, EntryAmount, TrendOk, VolatilityOk;
  }

  lemma FillTold(s: StrategyState, evs: seq<EngineEvent>, ts: seq<MyOrderDto>, cid: Id, c: Cumulative)
    requires WaitsForEntry(HandleEvents(s, evs), cid, c) && |ts| <= 1
    requires ts != [] ==> TellsFill(ts[0]) && ts[0].volume > 0.0
    ensures
      var a := Amounts(ts);
      WaitsForEntry(HandleEvents(s, evs + FillEvents(ts, cid)), cid,
                    Cumulative(c.volume + a.volume, c.funds + a.funds, c.fee + a.fee))
  {
    if ts == [] {
      assert evs + FillEvents(ts, cid) == evs;
    } else {
      assert (evs + FillEvents(ts, cid))[..|evs|] == evs;
    }
  }

  lemma StreamedFillIsGood(e: EngineState, step: Step, id: Id)
    requires id in e.orders && step.OrderStep? && GoodMessage(e, step.dto)
    ensures
      var ts := StreamedBy(e, step, id);
      ts != [] ==> TellsFill(ts[0]) && Proper(Amounts(ts)) && ts[0].volume > 0.0
  {
    if StreamedBy(e, step, id) != [] {
      assert GoodFill(e, e.orders[id], step.dto);
      FundsPositive(step.dto.price, step.dto.volume);
    }
  }

  lemma FundsPositive(price: real, volume: real)
    requires price > 0.0 && volume > 0.0
    ensures price * volume > 0.0
  {
  }

  lemma OpenStepInforms(base: Budget, w: WorkerState, step: Step, id: Id, cid: Id, c: Cumulative)
    requires WorkerInv(w) && Settled(base, w.engine, id) && w.engine.buyId == id && Good(w, step)
    requires Echoes(step, id, cid)
    requires WaitsForEntry(Informed(w), cid, c) && w.strategy.pending == Some(cid)
    requires id in Next(w, step).engine.orders
    ensures
      var a := Amounts(StreamedBy(w.engine, step, id));
      WaitsForEntry(Informed(Next(w, step)), cid, Cumulative(c.volume + a.volume, c.funds + a.funds, c.fee + a.fee))
  {
    hide WorkerInv, Settled, HandleMyOrder, HandleMarketData, RunRecovery, GoodMessage, GoodReply, HandleEvents, StreamedBy;
    OpenBuy(base, w, id);
    match step {
      case OrderStep(d) =>
        OpenOrderEvents(w, d, id, cid);
        StreamedFillIsGood(w.engine, step, id);
        AtMostOne(w.engine, step, id);
        FillTold(w.strategy, w.engine.events, StreamedBy(w.engine, step, id), cid, c);
      case CandleStep(candle, o) =>
        AtMostOne(w.engine, step, id);
        CandleKeepsFills(w, candle, o);
        FillsDependOnFills(w.strategy, Next(w, step).strategy, w.engine.events);
      case RecoverStep(buy, sell) =>
        AtMostOne(w.engine, step, id);
        OpenLookupEvents(w.(recoveryRequested := false), buy, sell, id);
      case TimeoutStep(now, timeout, buy, sell) =>
        AtMostOne(w.engine, step, id);
        if Fires(w, now, timeout) {
          OpenLookupEvents(Tracked(w, now).(timeoutFired := true), buy, sell, id);
        }
      case PollStep =>
        AtMostOne(w.engine, step, id);
        NoEvents(Next(w, step).strategy);
    }
  }

  lemma AtMostOne(e: EngineState, step: Step, id: Id)
    ensures |StreamedBy(e, step, id)| <= 1 && (!step.OrderStep? ==> StreamedBy(e, step, id) == [])
  {
  }

  lemma NoEvents(s: StrategyState)
    ensures HandleEvents(s, []) == s
  {
  }

  // ---------- runs of an open order ----------

  ghost predicate EchoingRun(steps: seq<Step>, id: Id, cid: Id) {
    forall i :: 0 <= i < |steps| ==> Echoes(steps[i], id, cid)
  }

  lemma {:induction false} FillsReachStrategy(base: Budget, w: WorkerState, steps: seq<Step>, id: Id, cid: Id)
    requires WorkerInv(w) && Settled(base, w.engine, id) && w.engine.buyId == id && w.engine.events == []
    requires WaitsForEntry(w.strategy, cid, Cumulative(0.0, 0.0, 0.0))
    requires GoodRun(w, steps) && OpenThroughout(w, steps, id) && EchoingRun(steps, id, cid)
    requires id in Run(w, steps).engine.orders
    ensures
      var w' := Run(w, steps);
      && WorkerInv(w') && Settled(base, w'.engine, id) && w'.engine.buyId == id && w'.strategy.pending == Some(cid)
      && WaitsForEntry(Informed(w'), cid, Streamed(w, steps, id))
      && Proper(Streamed(w, steps, id))
  {
    hide WorkerInv, Settled, Next, GoodMessage, GoodReply, Routed, Echoes, StreamedBy, WaitsForEntry;
    if steps == [] {
      assert WaitsForEntry(Informed(w), cid, Cumulative(0.0, 0.0, 0.0));
      assert w.strategy.pending == Some(cid) by {
        WaitingIsPending(w.strategy, cid, Cumulative(0.0, 0.0, 0.0));
      }
    } else {
      var earlier, last := steps[..|steps| - 1], steps[|steps| - 1];
      OpenEarlier(w, steps, id);
      FillsReachStrategy(base, w, earlier, id, cid);
      var now := Run(w, earlier);
      OpenStepInforms(base, now, last, id, cid, Streamed(w, earlier, id));
      OpenStepKeeps(base, now, last, id, cid, Streamed(w, steps, id));
      StreamedIsPaid(now.engine, last, id);
    }
  }

  lemma WaitingIsPending(s: StrategyState, cid: Id, c: Cumulative)
    requires WaitsForEntry(s, cid, c)
    ensures s.pending == Some(cid)
  {
  }

  lemma OpenEarlier(w: WorkerState, steps: seq<Step>, id: Id)
    requires steps != [] && OpenThroughout(w, steps, id)
    ensures OpenThroughout(w, steps[..|steps| - 1], id) && id in Run(w, steps[..|steps| - 1]).engine.orders
  {
    var earlier := steps[..|steps| - 1];
    assert forall k :: 0 <= k < |earlier| ==> earlier[..k] == steps[..k];
  }

  lemma StreamedIsPaid(e: EngineState, step: Step, id: Id)
    requires id in e.orders && step.OrderStep? ==> GoodMessage(e, step.dto)
    ensures
      var a := Amounts(StreamedBy(e, step, id));
      id in e.orders ==> Proper(a)
  {
    if id in e.orders && step.OrderStep? {
      StreamedFillIsGood(e, step, id);
    }
  }

  lemma OpenStepKeeps(base: Budget, w: WorkerState, step: Step, id: Id, cid: Id, c: Cumulative)
    requires WorkerInv(w) && Settled(base, w.engine, id) && w.engine.buyId == id && Good(w, step)
    requires id in Next(w, step).engine.orders && WaitsForEntry(Informed(Next(w, step)), cid, c)
    ensures
      var w' := Next(w, step);
      WorkerInv(w') && Settled(base, w'.engine, id) && w'.engine.buyId == id && w'.strategy.pending == Some(cid)
  {
    hide WorkerInv, Settled, Next, GoodMessage, GoodReply, Routed;
    var w' := Next(w, step);
    StepSettles(base, w, step, id);
    NextKeepsInv(w, step);
    OpenBuy(base, w, id);
    OneActiveId(w', base, id);
    if step.CandleStep? {
      CandleIsNext(w, step);
      CandleKeepsFills(w, step.candle, step.outside);
    } else {
      NothingSubmitted(w, step);
    }
    OpenBuy(base, w', id);
    FillsKeepPhase(w'.strategy, w'.engine.events);
  }

  // ---------- the end of the buy ----------

  lemma SnapshotReportsBuy(e: EngineState, s: Order, cid: Id)
    requires Inv(e) && SameOrder(e, s) && e.buyId != NO_ID && e.buyId == s.id
    requires e.orders[s.id].identifier == Some(cid) && cid != NO_ID
    requires s.id !in SnapshotStep(e, s).orders && s.executedVolume > 0.0
    ensures SnapshotStep(e, s).events
            == e.events + [StatusEvent(cid, s.id, s.status, BID, s.executedVolume, s.remainingVolume, s.executedFunds, Opened)]
    ensures s.status.Terminal()
  {
    hide OrderFinalized;
  }

  lemma ReconcileReportsBuy(e: EngineState, s: Order, cid: Id)
    requires Inv(e) && SameOrder(e, s) && e.buyId != NO_ID && e.buyId == s.id
    requires e.orders[s.id].identifier == Some(cid) && cid != NO_ID
    requires s.id !in ReconcileStep(e, s).0.orders && s.executedVolume > 0.0
    ensures ReconcileStep(e, s).0.events
            == e.events + [StatusEvent(cid, s.id, s.status, BID, s.executedVolume, s.remainingVolume, s.executedFunds, Opened)]
    ensures s.status.Terminal()
  {
    hide SnapshotStep;
    if SettleDelta(e, s, e.orders[s.id]).Some? {
      DeltaKeepsInv(e, s, e.orders[s.id]);
      DeltaKeepsIds(e, s, e.orders[s.id]);
      DeltaKeepsEvents(e, s, e.orders[s.id]);
      SnapshotReportsBuy(SettleDelta(e, s, e.orders[s.id]).value, s, cid);
    }
  }

  lemma DeltaKeepsEvents(e: EngineState, s: Order, known: Order)
    requires SettleDelta(e, s, known).Some?
    ensures SettleDelta(e, s, known).value.events == e.events
  {
  }

  /** The terminal or partial snapshot a step delivers. */
  function Delivered(w: WorkerState, step: Step): Option<Order> {
    match step
    case OrderStep(d) => Some(ToSnapshot(d))
    case RecoverStep(buy, sell) => UsedReply(w.engine, buy, sell)
    case TimeoutStep(now, timeout, buy, sell) =>
      if Fires(w, now, timeout) then UsedReply(w.engine, buy, sell) else None
    case _ => None
  }

  lemma DeliveredIsReported(w: WorkerState, step: Step)
    ensures Reported(w, step) == ReportOf(Delivered(w, step))
  {
    hide ToSnapshot;
    if step.OrderStep? {
      SnapshotCarries(step.dto);
    }
  }

  /** The step that closes the buy queues its report and leaves the strategy as it was. */
  lemma ClosingStepReports(base: Budget, w: WorkerState, step: Step, id: Id, cid: Id)
    requires WorkerInv(w) && Settled(base, w.engine, id) && w.engine.buyId == id && Good(w, step)
    requires w.strategy.pending == Some(cid) && id !in Next(w, step).engine.orders
    requires Delivered(w, step).Some? && Delivered(w, step).value.id == id
    requires Delivered(w, step).value.executedVolume > 0.0
    ensures
      var w', s := Next(w, step), Delivered(w, step).value;
      && w'.strategy == w.strategy && s.status.Terminal()
      && w'.engine.events
         == w.engine.events + [StatusEvent(cid, id, s.status, BID, s.executedVolume, s.remainingVolume, s.executedFunds, Opened)]
  {
    hide WorkerInv, Settled, HandleMyOrder, ReconcileStep, SnapshotStep, TradeStep, GoodTrade, GoodFill, GoodTotals;
    OpenBuy(base, w, id);
    var s := Delivered(w, step).value;
    match step {
      case OrderStep(d) =>
        HandleMyOrderUnfolds(w, d);
        if IsTrade(d) {
          TradeKeepsIds(w.engine, ToTrade(d));
          TradeKeepsInv(w.engine, ToTrade(d));
          TradeKeepsMarket(w.engine, ToTrade(d));
          PartialSnapshotStays(TradeStep(w.engine, ToTrade(d)), s);
        } else if s.status.Terminal() {
          ReconcileReportsBuy(w.engine, s, cid);
        } else {
          PartialSnapshotStays(w.engine, s);
        }
      case RecoverStep(buy, _) => ReconcileReportsBuy(w.engine, s, cid);
      case TimeoutStep(_, _, buy, _) => ReconcileReportsBuy(w.engine, s, cid);
      case _ =>
    }
  }

  lemma PartialSnapshotStays(e: EngineState, s: Order)
    requires !s.status.Terminal()
    ensures SnapshotStep(e, s).orders.Keys == e.orders.Keys
  {
  }

  lemma ReportTold(s: StrategyState, evs: seq<EngineEvent>, cid: Id, o: Order, t: Cumulative)
    requires WaitsForEntry(HandleEvents(s, evs), cid, t) && o.status.Terminal()
    requires Proper(CumulativeOf(o)) && o.executedVolume > 0.0
    requires t.volume >= 0.0 && (t.volume > 0.0 ==> t.funds > 0.0)
    ensures
      var s' := HandleEvents(s, evs + [StatusEvent(cid, o.id, o.status, BID, o.executedVolume, o.remainingVolume,
                                                   o.executedFunds, Opened)]);
      && s'.phase.InPosition?
      && s'.entry == Some(if t.volume > 0.0 then t.funds / t.volume else o.executedFunds / o.executedVolume)
  {
    hide StopPrice, TargetPrice;
    var ev := StatusEvent(cid, o.id, o.status, BID, o.executedVolume, o.remainingVolume, o.executedFunds, Opened);
    assert (evs + [ev])[..|evs|] == evs;
  }

  lemma QuotientsAgree(funds: real, volume: real, cost: real, filled: real, avg: real)
    requires volume > 0.0 && filled > 0.0 && volume * avg == funds
    ensures cost / filled == avg <==> cost * volume == funds * filled
  {
    var price := cost / filled;
    assert filled * price == cost;
    assert cost * volume - funds * filled == (price - avg) * (filled * volume);
    Cancels(price - avg, filled * volume);
  }

  lemma Cancels(x: real, y: real)
    requires y > 0.0
    ensures x * y == 0.0 <==> x == 0.0
  {
    assert x > 0.0 ==> x * y > 0.0;
    assert x < 0.0 ==> x * y < 0.0;
  }

  /** InPosition with an entry price, which is the account's exactly if the fills it was told of say so. */
  predicate AgreesIffAverage(s: StrategyState, b: Budget, c: Cumulative, told: Cumulative) {
    && s.phase.InPosition? && s.entry.Some?
    && (s.entry.value == b.avgEntry <==> (told.volume == 0.0 || told.funds * c.volume == c.funds * told.volume))
  }

  lemma PricesCompared(s: StrategyState, b: Budget, c: Cumulative, told: Cumulative)
    requires c.volume > 0.0 && c.volume * b.avgEntry == c.funds && told.volume >= 0.0 && s.phase.InPosition?
    requires s.entry == Some(if told.volume > 0.0 then told.funds / told.volume else c.funds / c.volume)
    ensures AgreesIffAverage(s, b, c, told)
  {
    if told.volume > 0.0 {
      QuotientsAgree(c.funds, c.volume, told.funds, told.volume, b.avgEntry);
    } else {
      QuotientsAgree(c.funds, c.volume, c.funds, c.volume, b.avgEntry);
    }
  }

  lemma ClosedBuyPrices(base: Budget, w: WorkerState, last: Step, o: Order, id: Id, cid: Id, told: Cumulative)
    requires WorkerInv(w) && Settled(base, w.engine, id) && w.engine.buyId == id && w.strategy.pending == Some(cid)
    requires WaitsForEntry(Informed(w), cid, told) && base.coin == 0.0 && Proper(told)
    requires Good(w, last) && id !in Next(w, last).engine.orders && Delivered(w, last) == Some(o)
    requires o.executedVolume > 0.0
    ensures AgreesIffAverage(Informed(Next(w, last)), Next(w, last).engine.budget, CumulativeOf(o), told)
  {
    hide WorkerInv, Settled, Next, Good, WaitsForEntry, ClosedOn, HandleEvents, AgreesIffAverage;
    var after := Next(w, last);
    StepSettles(base, w, last, id);
    DeliveredIsReported(w, last);
    OpenBuy(base, w, id);
    SideOfBuy(w, id);
    BoughtFromZero(base, after.engine.budget, CumulativeOf(o), w.engine.mark);
    ClosingStepReports(base, w, last, id, cid);
    ReportTold(w.strategy, w.engine.events, cid, o, told);
    PricesCompared(Informed(after), after.engine.budget, CumulativeOf(o), told);
  }

  /**
    The entry price the strategy sets its stops from, against the account's average, for a buy from
    zero coin, over every run: they agree if and only if no fill was streamed, or the streamed fills
    cost as much per coin as the whole order.
  */
  lemma EntryPriceAgreement(base: Budget, w: WorkerState, steps: seq<Step>, last: Step, id: Id, cid: Id)
    requires WorkerInv(w) && Settled(base, w.engine, id) && w.engine.buyId == id && w.engine.events == []
    requires WaitsForEntry(w.strategy, cid, Cumulative(0.0, 0.0, 0.0)) && base.coin == 0.0
    requires GoodRun(w, steps) && OpenThroughout(w, steps, id) && EchoingRun(steps, id, cid)
    requires id in Run(w, steps).engine.orders && Good(Run(w, steps), last)
    requires id !in Next(Run(w, steps), last).engine.orders
    ensures
      var before, after := Run(w, steps), Next(Run(w, steps), last);
      && Reported(before, last).Some?
      && var totals := Reported(before, last).value.totals;
         totals.volume > 0.0 ==>
           AgreesIffAverage(Informed(after), after.engine.budget, totals, Streamed(w, steps, id))
  {
    hide WorkerInv, Settled, Next, Good, Streamed, WaitsForEntry, ClosedOn, AgreesIffAverage, Informed;
    var before := Run(w, steps);
    FillsReachStrategy(base, w, steps, id, cid);
    StepSettles(base, before, last, id);
    DeliveredIsReported(before, last);
    if Delivered(before, last).value.executedVolume > 0.0 {
      ClosedBuyPrices(base, before, last, Delivered(before, last).value, id, cid, Streamed(w, steps, id));
    }
  }

  lemma BoughtFromZero(base: Budget, b: Budget, c: Cumulative, mark: real)
    requires ClosedOn(base, b, BID, c, mark) && base.coin == 0.0
    ensures c.volume * b.avgEntry == c.funds && Proper(c)
  {
  }

  lemma SideOfBuy(w: WorkerState, id: Id)
    requires WorkerInv(w) && w.engine.buyId == id && id != NO_ID
    ensures w.engine.orders[id].side.BID?
  {
  }

  // ---------- any events ----------

  /** Fills with a volume count by volume and price; one without still tells a price. */
  function FillVolume(evs: seq<EngineEvent>): real
    requires forall i :: 0 <= i < |evs| ==> evs[i].FillEvent?
  {
    if evs == [] then 0.0
    else FillVolume(evs[..|evs| - 1]) + if evs[|evs| - 1].volume > 0.0 then evs[|evs| - 1].volume else 0.0
  }

  function FillCost(evs: seq<EngineEvent>): real
    requires forall i :: 0 <= i < |evs| ==> evs[i].FillEvent?
  {
    if evs == [] then 0.0
    else
      var ev := evs[|evs| - 1];
      FillCost(evs[..|evs| - 1]) + if ev.volume > 0.0 then ev.price * ev.volume else 0.0
  }

  ghost predicate FillsFor(evs: seq<EngineEvent>, cid: Id) {
    forall i :: 0 <= i < |evs| ==> evs[i].FillEvent? && evs[i].identifier == cid
  }

  lemma {:induction false} FillsAddUp(s: StrategyState, evs: seq<EngineEvent>, cid: Id)
    requires FillsFor(evs, cid) && s.pending == Some(cid) && s.filled == s.cost == s.lastPrice == 0.0
    ensures
      var s' := HandleEvents(s, evs);
      && s' == s.(filled := FillVolume(evs), cost := FillCost(evs), lastPrice := s'.lastPrice)
      && s'.lastPrice == if evs == [] then 0.0 else evs[|evs| - 1].price
  {
    if evs != [] {
      FillsAddUp(s, evs[..|evs| - 1], cid);
    }
  }

  /** price is the average of the fills; without volume, of the report; without its funds, the last price told. */
  predicate IsBooking(filled: real, cost: real, lastPrice: real, executedVolume: real, executedFunds: real, price: real) {
    if filled > 0.0 then price * filled == cost
    else if executedVolume > 0.0 && executedFunds > 0.0 then price * executedVolume == executedFunds
    else price == lastPrice
  }

  /**
    For every sequence of fill events and report of a buy: the entry is the average price of the fills that
    have a volume; without any, that of the report; without its funds, the last price told; and none of them
    positive, no entry is set.
  */
  lemma EntryIsAveragePrice(s: StrategyState, evs: seq<EngineEvent>, cid: Id, report: EngineEvent, price: real)
    requires FillsFor(evs, cid) && s.phase.PendingEntry? && s.pending == Some(cid)
    requires s.filled == s.cost == s.lastPrice == 0.0
    requires report.StatusEvent? && report.identifier == cid && report.status.Terminal() && report.effect.Opened?
    requires IsBooking(FillVolume(evs), FillCost(evs), if evs == [] then 0.0 else evs[|evs| - 1].price,
                       report.executedVolume, report.executedFunds, price)
    ensures
      var s' := HandleEvents(s, evs + [report]);
      && s'.phase.InPosition? && s'.pending.None?
      && if price > 0.0 then s'.entry == Some(price) else s'.entry == s.entry && s'.stop == s.stop && s'.target == s.target
  {
    hide IsBooking, FinalPrice, StopPrice, TargetPrice, HandleEvents, HandleEvent, FillVolume, FillCost;
    FillsAddUp(s, evs, cid);
    var told := HandleEvents(s, evs);
    PriceIs(told.filled, told.cost, told.lastPrice, report.executedVolume, report.executedFunds, price);
    ReportBooks(told, cid, report);
    LastEvent(s, evs, report);
  }

  lemma LastEvent(s: StrategyState, evs: seq<EngineEvent>, ev: EngineEvent)
    ensures HandleEvents(s, evs + [ev]) == HandleEvent(HandleEvents(s, evs), ev)
  {
    assert (evs + [ev])[..|evs|] == evs;
  }

  lemma ReportBooks(s: StrategyState, cid: Id, report: EngineEvent)
    requires s.phase.PendingEntry? && s.pending == Some(cid)
    requires report.StatusEvent? && report.identifier == cid && report.status.Terminal() && report.effect.Opened?
    ensures
      var s' := HandleEvent(s, report);
      var price := FinalPrice(s.filled, s.cost, s.lastPrice, report.executedVolume, report.executedFunds);
      && s'.phase.InPosition? && s'.pending.None?
      && if price > 0.0 then s'.entry == Some(price) else s'.entry == s.entry && s'.stop == s.stop && s'.target == s.target
  {
    hide FinalPrice, StopPrice, TargetPrice;
  }

  lemma PriceIs(filled: real, cost: real, lastPrice: real, executedVolume: real, executedFunds: real, price: real)
    requires IsBooking(filled, cost, lastPrice, executedVolume, executedFunds, price)
    ensures FinalPrice(filled, cost, lastPrice, executedVolume, executedFunds) == price
  {
    if filled > 0.0 {
      QuotientIs(cost, filled, price);
    } else if executedVolume > 0.0 && executedFunds > 0.0 {
      QuotientIs(executedFunds, executedVolume, price);
    }
  }

  lemma QuotientIs(x: real, y: real, q: real)
    requires y > 0.0 && q * y == x
    ensures x / y == q
  {
    assert x / y * y == x;
    Cancels(x / y - q, y);
  }

  // ---------- the start of the buy ----------

  lemma EntryOrder(s: StrategyState, c: Candle, a: AccountSnapshot, cid: Id)
    requires OnCandle(s, c, a, cid).0.phase.PendingEntry? && !s.phase.PendingEntry?
    ensures
      var (s', order) := OnCandle(s, c, a, cid);
      && WaitsForEntry(s', cid, Cumulative(0.0, 0.0, 0.0)) && (s.phase.Flat? || s.phase.InPosition?)
      && order.Some? && order.value.side.BID? && order.value.identifier == cid
  {
    hide StopPrice, TargetPrice, EntryAmount, TrendOk, VolatilityOk;
  }

  lemma ConfirmedEntryBegins(w: WorkerState, c: Candle, cid: Id, reply: Option<Id>)
    requires WorkerInv(w) && cid != NO_ID && FreshReply(w.engine, reply) && w.engine.budget.coin >= 0.0
    requires ConfirmCandle(w, c, cid, reply).strategy.phase.PendingEntry? && !w.strategy.phase.PendingEntry?
    ensures
      var w' := ConfirmCandle(w, c, cid, reply);
      && WorkerInv(w') && Settled(w.engine.budget, w'.engine, w'.engine.buyId) && w'.engine.events == []
      && WaitsForEntry(w'.strategy, cid, Cumulative(0.0, 0.0, 0.0))
  {
    hide OnCandle, Settled, WaitsForEntry, WorkerInv, SubmitStep;
    var w1 := w.(engine := w.engine.(mark := c.close));
    var (s, order) := OnCandle(w1.strategy, c, AccountOf(w1), cid);
    OnCandleSound(w1.strategy, c, AccountOf(w1), cid);
    ConfirmKeepsStep(w, c, cid, reply);
    DecisionNeverEnters(w1.(strategy := s), order, reply);
    EntryOrder(w1.strategy, c, AccountOf(w1), cid);
    RestingWorker(w);
    SameWorkerInv(w, w1);
    BuyAccepted(w1, s, order.value, reply);
    SubmitStartsSettled(w1.engine, order.value, reply.value);
    SubmitActivates(w1.engine, order.value, reply);
  }

  lemma RestingWorker(w: WorkerState)
    requires WorkerInv(w) && (w.strategy.phase.Flat? || w.strategy.phase.InPosition?)
    ensures Inv(w.engine) && !IsPending(w.engine) && w.engine.events == []
  {
  }

  /** Had the engine refused, the strategy would not be waiting for an entry. */
  lemma BuyAccepted(w: WorkerState, s: StrategyState, order: OrderRequest, reply: Option<Id>)
    requires SubmitDecision(w.(strategy := s), Some(order), reply).0.strategy.phase.PendingEntry?
    requires s.pending.Some? && order.side.BID? && w.engine.events == []
    ensures
      var (e, result) := SubmitStep(w.engine, order, reply);
      && result.Accepted? && reply.Some? && e.buyId == reply.value && e.events == []
      && SubmitDecision(w.(strategy := s), Some(order), reply).0 == w.(strategy := s, engine := e)
  {
    hide Reserved, Released, CanReserve, ReserveAmount;
  }

  lemma DecisionNeverEnters(w: WorkerState, order: Option<OrderRequest>, reply: Option<Id>)
    ensures SubmitDecision(w, order, reply).0.strategy.phase.PendingEntry? ==> w.strategy.phase.PendingEntry?
  {
    hide SubmitStep;
  }

  lemma IntrabarNeverEnters(w: WorkerState, close: real, cid: Id, reply: Option<Id>)
    ensures IntrabarCheck(w, close, cid, reply).strategy.phase.PendingEntry? ==> w.strategy.phase.PendingEntry?
  {
    hide SubmitDecision;
    var w1 := w.(engine := w.engine.(mark := close));
    var (s, order) := OnIntrabarCandle(w1.strategy, close, AccountOf(w1), cid);
    DecisionNeverEnters(w1.(strategy := s), order, reply);
  }

  /** The candle step that leaves the worker waiting for an entry ends in the state a run of the buy begins in. */
  lemma EntryBegins(w: WorkerState, c: Candle, o: Outside)
    requires WorkerInv(w) && FreshOutside(w.engine, o) && w.engine.budget.coin >= 0.0
    requires Next(w, CandleStep(c, o)).strategy.phase.PendingEntry? && !w.strategy.phase.PendingEntry?
    ensures
      var w' := Next(w, CandleStep(c, o));
      && WorkerInv(w') && Settled(w.engine.budget, w'.engine, w'.engine.buyId) && w'.engine.events == []
      && WaitsForEntry(w'.strategy, o.cid, Cumulative(0.0, 0.0, 0.0))
  {
    hide ConfirmCandle, IntrabarCheck, Settled, WaitsForEntry, WorkerInv;
    var w1 := w.(pendingCandle := Some(c));
    SameWorkerInv(w, w1);
    if w.pendingCandle.None? || w.pendingCandle.value.ts == c.ts {
      IntrabarNeverEnters(w1, c.close, o.intrabarCid, o.intrabarReply);
    } else {
      var w2 := ConfirmCandle(w1, w.pendingCandle.value, o.cid, o.reply);
      IntrabarNeverEnters(w2, c.close, o.intrabarCid, o.intrabarReply);
      ConfirmedEntryBegins(w1, w.pendingCandle.value, o.cid, o.reply);
      BlockedCheckMarks(w2, c.close, o.intrabarCid, o.intrabarReply);
      var w3 := IntrabarCheck(w2, c.close, o.intrabarCid, o.intrabarReply);
      SettledIgnoresWindow(w.engine.budget, w2.engine, w3.engine, w2.engine.buyId);
      SameWorkerInv(w2, w3);
    }
  }

  lemma SameWorkerInv(w: WorkerState, w': WorkerState)
    requires WorkerInv(w) && w'.engine == w.engine.(mark := w'.engine.mark) && w'.strategy == w.strategy
    ensures WorkerInv(w')
  {
  }
}
