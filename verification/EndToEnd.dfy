/**
  One order from its first fill to its end. Its trade messages arrive in order, any of them repeated
  straight after itself, among candles, polls, timeout checks, other messages and lookups that answer with
  the totals so far, late or without funds; the rest is lost; then a complete terminal snapshot comes, by
  WebSocket or by REST recovery. The books are those of the full list of fills.
*/
module EndToEnd {
  import opened Domain
  import opened Account
  import opened TradeDedupe
  import opened Engine
  import opened Messages
  import opened Lifecycle
  import opened Worker
  import opened Lockstep
  import opened Settlement

  datatype Fill = Fill(uuid: Id, price: real, volume: real, fee: real) {
    function Funds(): real {
      price * volume
    }
  }

  function Totals(fills: seq<Fill>): Cumulative {
    if fills == [] then Cumulative(0.0, 0.0, 0.0)
    else
      var c, f := Totals(fills[..|fills| - 1]), fills[|fills| - 1];
      Cumulative(c.volume + f.volume, c.funds + f.Funds(), c.fee + f.fee)
  }

  /** Proper fills of order o: distinct, within the request, a sell's fees within its funds. */
  ghost predicate FillsOf(o: Order, fills: seq<Fill>) {
    && (forall i :: 0 <= i < |fills| ==>
          var f := fills[i];
          && f.uuid != NO_ID && f.price > 0.0 && f.volume > 0.0
          && 0.0 <= f.fee && (o.side.ASK? ==> f.fee <= f.Funds()))
    && (forall i, j :: 0 <= i < j < |fills| ==> fills[i].uuid != fills[j].uuid)
    && WithinRequest(o, Totals(fills))
  }

  /** d is the trade message of the n-th fill (counting from one). */
  predicate Announces(d: MyOrderDto, market: Id, o: Order, fills: seq<Fill>, n: nat)
    requires 0 < n <= |fills|
  {
    var f := fills[n - 1];
    && d.state.Trade? && d.code == market && d.uuid == o.id && OnSide(d, o.side)
    && d.tradeId == Some(f.uuid) && d.price == f.price && d.volume == f.volume && FillFee(d) == f.fee
    && MessageTotals(d) == Totals(fills[..n])
  }

  /** How many fills are counted, and whether the last of them came as a trade message. */
  datatype Progress = Progress(heard: nat, told: bool)

  predicate About(market: Id, o: Order, s: Order) {
    s.id == o.id && s.side == o.side && (s.market == NO_ID || s.market == market)
  }

  /** More volume than is counted, but its funds are not known yet. */
  predicate FundsUnknown(c: Cumulative, now: Cumulative) {
    now.volume > c.volume && now.funds <= c.funds
  }

  /** A lookup does not answer, answers without funds, or with the totals of some of the fills, all counted ones among them. */
  predicate Answers(market: Id, o: Order, fills: seq<Fill>, reply: Option<Order>, from: Progress, to: Progress)
    requires from.heard <= |fills| && to.heard <= |fills|
  {
    match reply
    case None => to == from
    case Some(s) =>
      && About(market, o, s)
      && (|| (FundsUnknown(Totals(fills[..from.heard]), CumulativeOf(s)) && to == from)
          || (&& !s.status.Terminal() && from.heard <= to.heard && CumulativeOf(s) == Totals(fills[..to.heard])
              && to.told == (from.told && to.heard == from.heard)))
  }

  function ReplyFor(o: Order, buy: Option<Order>, sell: Option<Order>): Option<Order> {
    if o.side.BID? then buy else sell
  }

  /**
    One step of a delivery, of any kind the worker makes. A trade message brings the next fill or repeats
    the last one told; other messages of the order carry the counted totals or unknown funds; messages
    of other orders may come in between.
  */
  ghost predicate Advances(now: WorkerState, o: Order, fills: seq<Fill>, step: Step, from: Progress, to: Progress)
    requires from.heard <= |fills| && to.heard <= |fills|
  {
    var market := now.engine.market;
    match step
    case OrderStep(d) =>
      if d.uuid != o.id then
        && d.code == market && d.uuid !in now.engine.orders
        && (forall i :: 0 <= i < |fills| ==> d.tradeId != Some(fills[i].uuid))
        && to == if TellsFill(d) then from.(told := false) else from
      else if TellsFill(d) then
        && to.told && to.heard > 0 && Announces(d, market, o, fills, to.heard)
        && (from == to || from.heard == to.heard - 1)
      else
        && d.code == market && OnSide(d, o.side) && to == from
        && if EndsOrder(d) then FundsUnknown(Totals(fills[..from.heard]), MessageTotals(d))
           else MessageTotals(d) == Totals(fills[..from.heard])
    case CandleStep(_, outside) => FreshOutside(now.engine, outside) && to == from
    case RecoverStep(buy, sell) => Answers(market, o, fills, ReplyFor(o, buy, sell), from, to)
    case TimeoutStep(time, timeout, buy, sell) =>
      if Fires(now, time, timeout) then Answers(market, o, fills, ReplyFor(o, buy, sell), from, to) else to == from
    case PollStep => to == from
  }

  /** The steps bring the first fills, in order, by messages and lookups in any mix. */
  ghost predicate Brings(w: WorkerState, o: Order, fills: seq<Fill>, steps: seq<Step>, p: Progress)
    requires p.heard <= |fills|
  {
    if steps == [] then p == Progress(0, false)
    else
      var earlier := steps[..|steps| - 1];
      exists from: Progress ::
        && from.heard <= |fills| && Brings(w, o, fills, earlier, from)
        && Advances(Run(w, earlier), o, fills, steps[|steps| - 1], from, p)
  }

  lemma BringsOneMore(w: WorkerState, o: Order, fills: seq<Fill>, steps: seq<Step>, step: Step, from: Progress, to: Progress)
    requires from.heard <= |fills| && to.heard <= |fills| && Brings(w, o, fills, steps, from)
    requires Advances(Run(w, steps), o, fills, step, from, to)
    ensures Brings(w, o, fills, steps + [step], to)
  {
    hide Advances;
    assert (steps + [step])[..|steps|] == steps;
  }

  /** At most one more step after `steps`, and what it adds. */
  ghost predicate Continues(w: WorkerState, o: Order, fills: seq<Fill>, steps: seq<Step>, more: seq<Step>,
                            from: Progress, to: Progress)
    requires from.heard <= |fills| && to.heard <= |fills|
  {
    |more| <= 1 && if more == [] then to == from else Advances(Run(w, steps), o, fills, more[0], from, to)
  }

  lemma BringsContinued(w: WorkerState, o: Order, fills: seq<Fill>, steps: seq<Step>, more: seq<Step>,
                        from: Progress, to: Progress)
    requires from.heard <= |fills| && to.heard <= |fills| && Brings(w, o, fills, steps, from)
    requires Continues(w, o, fills, steps, more, from, to)
    ensures Brings(w, o, fills, steps + more, to)
  {
    hide Brings, Advances, Run;
    if more == [] {
      assert steps + more == steps;
    } else {
      assert more == [more[0]];
      BringsOneMore(w, o, fills, steps, more[0], from, to);
    }
  }

  /**
    A whole pass of the worker loop continues a delivery: the recovery it may start with, its item, its
    poll and its timeout check, each bringing what its message or its lookups carry.
  */
  lemma PassBrings(w: WorkerState, o: Order, fills: seq<Fill>, steps: seq<Step>, item: Option<QueueItem>,
                   first: Lookups, second: Lookups, third: Lookups, time: int, timeout: int,
                   p: Progress, started: Progress, handled: Progress, q: Progress)
    requires p.heard <= |fills| && started.heard <= |fills| && handled.heard <= |fills| && q.heard <= |fills|
    requires Brings(w, o, fills, steps, p)
    requires
      var start := steps + StartSteps(Run(w, steps), first);
      var polled := start + ItemSteps(item, second) + [PollStep];
      && Continues(w, o, fills, steps, StartSteps(Run(w, steps), first), p, started)
      && Continues(w, o, fills, start, ItemSteps(item, second), started, handled)
      && Advances(Run(w, polled), o, fills, TimeoutStep(time, timeout, third.buy, third.sell), handled, q)
    ensures Brings(w, o, fills, steps + StartSteps(Run(w, steps), first) + ItemSteps(item, second)
                                + [PollStep, TimeoutStep(time, timeout, third.buy, third.sell)], q)
  {
    var start := steps + StartSteps(Run(w, steps), first);
    var heard := start + ItemSteps(item, second);
    var check := TimeoutStep(time, timeout, third.buy, third.sell);
    assert Advances(Run(w, heard), o, fills, PollStep, handled, handled);
    hide *;
    BringsContinued(w, o, fills, steps, StartSteps(Run(w, steps), first), p, started);
    BringsContinued(w, o, fills, start, ItemSteps(item, second), started, handled);
    BringsOneMore(w, o, fills, heard, PollStep, handled, handled);
    BringsOneMore(w, o, fills, heard + [PollStep], check, handled, q);
    assert heard + [PollStep] + [check] == heard + [PollStep, check];
  }

  // ---------- the totals of a list of fills ----------

  lemma FundsArePositive(o: Order, fills: seq<Fill>, n: nat)
    requires n < |fills| && FillsOf(o, fills)
    ensures
      var f := fills[n];
      && f.uuid != NO_ID && f.price > 0.0 && f.volume > 0.0 && f.Funds() > 0.0
      && 0.0 <= f.fee && (o.side.ASK? ==> f.fee <= f.Funds())
  {
    assert fills[n].price > 0.0 && fills[n].volume > 0.0;
  }

  lemma TotalsNext(fills: seq<Fill>, n: nat)
    requires n < |fills|
    ensures
      var c, f := Totals(fills[..n]), fills[n];
      Totals(fills[..n + 1]) == Cumulative(c.volume + f.volume, c.funds + f.Funds(), c.fee + f.fee)
  {
    assert fills[..n + 1][..n] == fills[..n];
  }

  lemma {:induction false} LaterFillsAdd(o: Order, fills: seq<Fill>, n: nat)
    requires n <= |fills| && FillsOf(o, fills)
    ensures
      var c, all := Totals(fills[..n]), Totals(fills);
      && c.volume <= all.volume && c.funds <= all.funds && c.fee <= all.fee
      && (n < |fills| ==> c.volume < all.volume && c.funds < all.funds)
      && (o.side.ASK? ==> all.fee - c.fee <= all.funds - c.funds)
    decreases |fills| - n
  {
    hide FillsOf, Totals, Fill.Funds;
    if n == |fills| {
      assert fills[..n] == fills;
    } else {
      LaterFillsAdd(o, fills, n + 1);
      TotalsNext(fills, n);
      FundsArePositive(o, fills, n);
    }
  }

  lemma PrefixWithinRequest(o: Order, fills: seq<Fill>, n: nat)
    requires n <= |fills| && FillsOf(o, fills)
    ensures WithinRequest(o, Totals(fills[..n]))
  {
    LaterFillsAdd(o, fills, n);
  }

  // ---------- while the order is open ----------

  /** The same request, possibly with price or volume filled in from a snapshot. */
  predicate SameRequest(o: Order, o': Order) {
    && o'.id == o.id && o'.market == o.market && o'.side == o.side && o'.requestedAmount == o.requestedAmount
    && (o.price.Some? ==> o'.price == o.price) && (o.volume.Some? ==> o'.volume == o.volume)
  }

  /** Where the order stands when its fills are counted up to p. */
  ghost predicate Counted(w: WorkerState, o: Order, fills: seq<Fill>, now: WorkerState, p: Progress)
    requires p.heard <= |fills|
  {
    && now.engine.market == w.engine.market && now.engine.orders.Keys == w.engine.orders.Keys
    && o.id in now.engine.orders && SameRequest(o, now.engine.orders[o.id])
    && CumulativeOf(now.engine.orders[o.id]) == Totals(fills[..p.heard])
    && (p.told ==> p.heard > 0 && Uuid(fills[p.heard - 1].uuid) in now.engine.dedupe.seen)
    && (forall j :: p.heard <= j < |fills| ==> Uuid(fills[j].uuid) !in now.engine.dedupe.seen)
  }

  /** The n-th fill by itself, and the totals up to it. */
  lemma NthFill(o: Order, fills: seq<Fill>, n: nat)
    requires 0 < n <= |fills| && FillsOf(o, fills)
    ensures
      var f, c := fills[n - 1], Totals(fills[..n - 1]);
      && f.uuid != NO_ID && f.price > 0.0 && f.volume > 0.0 && f.fee >= 0.0
      && (o.side.ASK? ==> f.fee <= f.Funds())
      && Totals(fills[..n]) == Cumulative(c.volume + f.volume, c.funds + f.Funds(), c.fee + f.fee)
      && WithinRequest(o, Totals(fills[..n]))
  {
    hide FillsOf, Totals, WithinRequest, Fill.Funds;
    FundsArePositive(o, fills, n - 1);
    PrefixWithinRequest(o, fills, n);
    TotalsNext(fills, n - 1);
  }

  lemma RequestKept(o: Order, o': Order, s: Order, c: Cumulative)
    requires SameRequest(o, o') && HasSize(o)
    ensures WithinRequest(o', c) <==> WithinRequest(o, c)
    ensures s.side == o.side && (s.market == NO_ID || s.market == o.market) ==> SameRequest(o, Merged(o', s))
  {
  }

  lemma MessageIsGood(w: WorkerState, o: Order, fills: seq<Fill>, now: WorkerState, d: MyOrderDto,
                      from: Progress, to: Progress)
    requires from.heard <= |fills| && to.heard <= |fills| && HasSize(o) && o.market == now.engine.market
    requires FillsOf(o, fills) && Counted(w, o, fills, now, from) && d.uuid == o.id && TellsFill(d)
    requires Advances(now, o, fills, OrderStep(d), from, to)
    ensures Good(now, OrderStep(d))
  {
    hide FillsOf, Totals, WithinRequest;
    var n := to.heard;
    NthFill(o, fills, n);
    var o' := now.engine.orders[o.id];
    assert FillKey(d) == Uuid(fills[n - 1].uuid);
    assert FillKey(d) in now.engine.dedupe.seen <==> from == to;
    RequestKept(o, o', o, Totals(fills[..n]));
  }

  /** The books apart, a partial fill's message changes the stored order and the trade window. */
  lemma TradeMessageEffect(e: EngineState, t: MyTrade, s: Order)
    requires t.orderId == s.id && s.id in e.orders && e.orders[s.id].id == s.id
    requires t.market == s.market == e.market && !s.status.Terminal()
    ensures
      var e' := SnapshotStep(TradeStep(e, t), s);
      && e'.market == e.market && e'.orders == e.orders[s.id := Merged(e.orders[s.id], s)]
      && e'.dedupe == Mark(e.dedupe, Key(t), MAX_SEEN_TRADES)
  {
    hide Mark, Merged, Key;
    assert Merged(e.orders[s.id], s).status == s.status && Merged(e.orders[s.id], s).id == s.id by {
      MergedTakesStatus(e.orders[s.id], s);
    }
    TradeWindow(e, t);
  }

  lemma MergedTakesStatus(o: Order, s: Order)
    ensures Merged(o, s).status == s.status && Merged(o, s).id == o.id
  {
  }

  lemma TradeWindow(e: EngineState, t: MyTrade)
    requires t.market == e.market
    ensures
      var e' := TradeStep(e, t);
      && e'.dedupe == Mark(e.dedupe, Key(t), MAX_SEEN_TRADES)
      && e'.orders == e.orders && e'.market == e.market
  {
  }

  lemma MessageHeard(w: WorkerState, o: Order, fills: seq<Fill>, now: WorkerState, d: MyOrderDto,
                     from: Progress, to: Progress)
    requires WorkerInv(now) && from.heard <= |fills| && to.heard <= |fills| && HasSize(o)
    requires IsActive(now.engine, o.id) && FillsOf(o, fills) && Counted(w, o, fills, now, from)
    requires o.market == now.engine.market && d.uuid == o.id && TellsFill(d)
    requires Advances(now, o, fills, OrderStep(d), from, to)
    ensures Good(now, OrderStep(d)) && Counted(w, o, fills, HandleMyOrder(now, d), to)
  {
    hide WorkerInv, HandleMyOrder, Mark, TradeStep, SnapshotStep, Good, WithinRequest, SameRequest;
    hide ToTrade, ToSnapshot, IsTrade;
    TradeCarries(d);
    SnapshotCarries(d);
    var t, s := ToTrade(d), ToSnapshot(d);
    InvOfWorker(now);
    MessageIsGood(w, o, fills, now, d, from, to);
    HandleMyOrderUnfolds(now, d);
    TradeMessageEffect(now.engine, t, s);
    RequestKept(o, now.engine.orders[o.id], s, Totals([]));
    MarkKeepsConsistent(now.engine.dedupe, Key(t), MAX_SEEN_TRADES);
    assert Key(t) == Uuid(fills[to.heard - 1].uuid);
    MergedTakesTotals(now.engine.orders[o.id], s);
  }

  lemma MergedTakesTotals(o: Order, s: Order)
    ensures CumulativeOf(Merged(o, s)) == CumulativeOf(s)
  {
  }

  /** A message that is no fill, of this order or of another one. */
  lemma OtherMessageHeard(w: WorkerState, o: Order, fills: seq<Fill>, now: WorkerState, d: MyOrderDto,
                          from: Progress, to: Progress)
    requires WorkerInv(now) && from.heard <= |fills| && to.heard <= |fills| && HasSize(o)
    requires IsActive(now.engine, o.id) && Counted(w, o, fills, now, from)
    requires o.market == now.engine.market && (d.uuid != o.id || !TellsFill(d))
    requires Advances(now, o, fills, OrderStep(d), from, to)
    ensures Good(now, OrderStep(d)) && Counted(w, o, fills, HandleMyOrder(now, d), to)
  {
    hide WorkerInv, HandleMyOrder, Mark, SnapshotStep, ReconcileStep, WithinRequest, SameRequest;
    if d.uuid != o.id {
      ForeignMessageHeard(w, o, fills, now, d, from, to);
      return;
    }
    hide ToTrade, ToSnapshot, IsTrade;
    TradeCarries(d);
    SnapshotCarries(d);
    InvOfWorker(now);
    HandleMyOrderUnfolds(now, d);
    SideOf(o, now.engine.orders[o.id]);
    var s := ToSnapshot(d);
    if s.status.Terminal() {
      UnknownFundsRefused(now.engine, s);
    } else {
      OpenSnapshotEffect(now.engine, s);
      RequestKept(o, now.engine.orders[o.id], s, Totals([]));
      MergedTakesTotals(now.engine.orders[o.id], s);
    }
  }

  lemma ForeignMessageHeard(w: WorkerState, o: Order, fills: seq<Fill>, now: WorkerState, d: MyOrderDto,
                            from: Progress, to: Progress)
    requires WorkerInv(now) && from.heard <= |fills| && to.heard <= |fills|
    requires IsActive(now.engine, o.id) && Counted(w, o, fills, now, from) && d.uuid != o.id
    requires Advances(now, o, fills, OrderStep(d), from, to)
    ensures Good(now, OrderStep(d)) && Counted(w, o, fills, HandleMyOrder(now, d), to)
  {
    hide WorkerInv, HandleMyOrder, Mark, TradeStep, SnapshotStep, ReconcileStep, WithinRequest, SameRequest;
    hide ToTrade, ToSnapshot, IsTrade;
    TradeCarries(d);
    SnapshotCarries(d);
    InvOfWorker(now);
    HandleMyOrderUnfolds(now, d);
    var s := ToSnapshot(d);
    UnknownOrderIgnored(now.engine, s);
    if IsTrade(d) {
      TradeWindow(now.engine, ToTrade(d));
      MarkKeepsConsistent(now.engine.dedupe, Key(ToTrade(d)), MAX_SEEN_TRADES);
      UnknownOrderIgnored(TradeStep(now.engine, ToTrade(d)), s);
    }
  }

  lemma UnknownOrderIgnored(e: EngineState, s: Order)
    requires s.id !in e.orders
    ensures SnapshotStep(e, s) == e && ReconcileStep(e, s) == (e, false)
  {
  }

  lemma UnknownFundsRefused(e: EngineState, s: Order)
    requires s.id in e.orders && FundsUnknown(CumulativeOf(e.orders[s.id]), CumulativeOf(s))
    ensures ReconcileStep(e, s) == (e, false)
  {
  }

  lemma OpenSnapshotEffect(e: EngineState, s: Order)
    requires s.id in e.orders && e.orders[s.id].id == s.id && (s.market == NO_ID || s.market == e.market)
    requires !s.status.Terminal()
    ensures
      var e' := SnapshotStep(e, s);
      e' == e.(orders := e.orders[s.id := Merged(e.orders[s.id], s)])
  {
    hide Merged;
    MergedTakesStatus(e.orders[s.id], s);
  }

  // ---------- lookups ----------

  lemma PrefixIsFills(o: Order, fills: seq<Fill>, n: nat)
    requires n <= |fills| && FillsOf(o, fills)
    ensures FillsOf(o, fills[..n])
  {
    PrefixWithinRequest(o, fills, n);
    assert forall i :: 0 <= i < n ==> fills[..n][i] == fills[i];
  }

  lemma AnswerIsGood(w: WorkerState, o: Order, fills: seq<Fill>, now: WorkerState, s: Order, from: Progress, to: Progress)
    requires from.heard <= |fills| && to.heard <= |fills| && HasSize(o) && o.market == now.engine.market
    requires FillsOf(o, fills) && Counted(w, o, fills, now, from)
    requires Answers(now.engine.market, o, fills, Some(s), from, to)
    ensures GoodReply(now.engine, Some(s))
    ensures FundsUnknown(Totals(fills[..from.heard]), CumulativeOf(s)) ==> to == from
  {
    hide FillsOf, Totals, WithinRequest;
    var o' := now.engine.orders[o.id];
    if CumulativeOf(s) == Totals(fills[..to.heard]) && from.heard <= to.heard {
      var some := fills[..to.heard];
      PrefixIsFills(o, fills, to.heard);
      LaterFillsAdd(o, some, from.heard);
      assert some[..from.heard] == fills[..from.heard];
      PrefixWithinRequest(o, fills, to.heard);
      RequestKept(o, o', s, Totals(some));
    }
  }

  lemma DeltaMovesMoneyOnly(e: EngineState, s: Order, known: Order)
    requires SettleDelta(e, s, known).Some?
    ensures
      var e' := SettleDelta(e, s, known).value;
      e' == e.(budget := e'.budget, token := e'.token)
  {
    hide BuyFilled, SellFilled;
  }

  lemma KnownFundsSettle(e: EngineState, s: Order)
    requires Inv(e) && IsActive(e, s.id) && s.side == e.orders[s.id].side
    requires s.executedVolume > e.orders[s.id].executedVolume ==> s.executedFunds > e.orders[s.id].executedFunds
    ensures SettleDelta(e, s, e.orders[s.id]).Some?
  {
    hide BuyFilled, SellFilled;
    var o := e.orders[s.id];
    if s.executedVolume > o.executedVolume {
      PriceTimesVolume(s.executedFunds - o.executedFunds, s.executedVolume - o.executedVolume);
    }
  }

  lemma AnswerEffect(e: EngineState, s: Order)
    requires Inv(e) && IsActive(e, s.id) && s.side == e.orders[s.id].side && !s.status.Terminal()
    requires s.market == NO_ID || s.market == e.market
    requires s.executedVolume > e.orders[s.id].executedVolume ==> s.executedFunds > e.orders[s.id].executedFunds
    ensures
      var e' := ReconcileStep(e, s).0;
      && e'.market == e.market && e'.dedupe == e.dedupe
      && e'.orders == e.orders[s.id := Merged(e.orders[s.id], s)]
  {
    hide SettleDelta, SnapshotStep, Merged;
    KnownFundsSettle(e, s);
    DeltaMovesMoneyOnly(e, s, e.orders[s.id]);
    OpenSnapshotEffect(SettleDelta(e, s, e.orders[s.id]).value, s);
  }

  lemma AnswerHeard(w: WorkerState, o: Order, fills: seq<Fill>, now: WorkerState, reply: Option<Order>,
                    from: Progress, to: Progress)
    requires Inv(now.engine) && from.heard <= |fills| && to.heard <= |fills| && HasSize(o)
    requires IsActive(now.engine, o.id) && FillsOf(o, fills) && Counted(w, o, fills, now, from)
    requires o.market == now.engine.market && Answers(now.engine.market, o, fills, reply, from, to)
    ensures GoodReply(now.engine, reply)
    ensures Counted(w, o, fills, now.(engine := Reconciled(now.engine, o.id, reply)), to)
  {
    hide FillsOf, Totals, WithinRequest, SameRequest, ReconcileStep;
    if reply.Some? {
      var s, o' := reply.value, now.engine.orders[o.id];
      AnswerIsGood(w, o, fills, now, s, from, to);
      if FundsUnknown(Totals(fills[..from.heard]), CumulativeOf(s)) {
        UnknownFundsRefused(now.engine, s);
      } else {
        SideOf(o, o');
        AnswerEffect(now.engine, s);
        RequestKept(o, o', s, Totals([]));
        MergedTakesTotals(o', s);
      }
    }
  }

  lemma SideOf(o: Order, o': Order)
    requires SameRequest(o, o')
    ensures o'.side == o.side && o'.market == o.market
  {
  }

  lemma GoodRepliesAreRouted(e: EngineState, buy: Option<Order>, sell: Option<Order>)
    requires GoodReplies(e, buy, sell)
    ensures SameOrderReplies(e, buy, sell)
  {
  }

  lemma RecoveryHeard(w: WorkerState, o: Order, fills: seq<Fill>, now: WorkerState,
                      buy: Option<Order>, sell: Option<Order>, from: Progress, to: Progress)
    requires WorkerInv(now) && from.heard <= |fills| && to.heard <= |fills| && HasSize(o)
    requires IsActive(now.engine, o.id) && FillsOf(o, fills) && Counted(w, o, fills, now, from)
    requires o.market == now.engine.market && Answers(now.engine.market, o, fills, ReplyFor(o, buy, sell), from, to)
    ensures GoodReplies(now.engine, buy, sell) && SameOrderReplies(now.engine, buy, sell)
    ensures Counted(w, o, fills, RunRecovery(now, buy, sell), to)
  {
    hide Answers, ReconcileStep, FillsOf, GoodReply;
    InvOfWorker(now);
    AnswerHeard(w, o, fills, now, ReplyFor(o, buy, sell), from, to);
    RecoveryLooksUpOne(now, o.id, buy, sell);
    SideOf(o, now.engine.orders[o.id]);
    GoodRepliesAreRouted(now.engine, buy, sell);
  }

  /** Exactly one order is active, so recovery is one reconciliation. */
  lemma RecoveryLooksUpOne(w: WorkerState, id: Id, buy: Option<Order>, sell: Option<Order>)
    requires WorkerInv(w) && IsActive(w.engine, id)
    ensures
      var bid := w.engine.orders[id].side.BID?;
      && (bid ==> w.engine.buyId == id && w.engine.sellId == NO_ID)
      && (!bid ==> w.engine.sellId == id && w.engine.buyId == NO_ID)
      && RunRecovery(w, buy, sell)
         == w.(engine := Reconciled(w.engine, id, if bid then buy else sell), tracking := false, timeoutFired := false)
  {
    hide ReconcileStep;
  }

  lemma InvOfWorker(w: WorkerState)
    requires WorkerInv(w)
    ensures Inv(w.engine)
  {
  }

  lemma SettledInMarket(base: Budget, w: WorkerState, id: Id)
    requires WorkerInv(w) && Settled(base, w.engine, id)
    ensures w.engine.orders[id].market == w.engine.market
  {
  }

  lemma StepHeard(base: Budget, w: WorkerState, o: Order, fills: seq<Fill>, now: WorkerState, step: Step,
                  from: Progress, to: Progress)
    requires WorkerInv(now) && Settled(base, now.engine, o.id) && from.heard <= |fills| && to.heard <= |fills|
    requires FillsOf(o, fills) && HasSize(o) && o.market == now.engine.market
    requires Counted(w, o, fills, now, from) && Advances(now, o, fills, step, from, to)
    ensures Good(now, step) && Counted(w, o, fills, Next(now, step), to)
  {
    hide WorkerInv, Settled, FillsOf, HandleMyOrder, HandleMarketData, RunRecovery, Answers, GoodMessage, GoodReply;
    SettledIsActive(base, now.engine, o.id);
    match step {
      case OrderStep(d) =>
        if d.uuid == o.id && TellsFill(d) {
          MessageHeard(w, o, fills, now, d, from, to);
        } else {
          OtherMessageHeard(w, o, fills, now, d, from, to);
        }
      case CandleStep(c, outside) =>
        CandleLeavesPendingOrder(now, c, outside);
      case RecoverStep(buy, sell) =>
        WatchDoesNotMatter(now, now.(recoveryRequested := false));
        RecoveryHeard(w, o, fills, now.(recoveryRequested := false), buy, sell, from, to);
      case TimeoutStep(time, timeout, buy, sell) =>
        if Fires(now, time, timeout) {
          WatchDoesNotMatter(now, Tracked(now, time).(timeoutFired := true));
          RecoveryHeard(w, o, fills, Tracked(now, time).(timeoutFired := true), buy, sell, from, to);
        }
      case PollStep =>
    }
  }

  lemma WatchDoesNotMatter(w: WorkerState, w': WorkerState)
    requires WorkerInv(w) && w'.engine == w.engine && w'.strategy == w.strategy
    ensures WorkerInv(w')
  {
  }

  lemma SizeOfSettled(base: Budget, e: EngineState, id: Id)
    requires Settled(base, e, id)
    ensures HasSize(e.orders[id])
  {
  }

  /** Every such delivery keeps the contract, and the store holds exactly the totals counted so far. */
  lemma {:induction false} PrefixIsGood(base: Budget, w: WorkerState, o: Order, fills: seq<Fill>, steps: seq<Step>,
                                        p: Progress)
    requires WorkerInv(w) && Settled(base, w.engine, o.id) && p.heard <= |fills| && FillsOf(o, fills)
    requires o == w.engine.orders[o.id] && Counted(w, o, fills, w, Progress(0, false)) && Brings(w, o, fills, steps, p)
    ensures GoodRun(w, steps) && OpenThroughout(w, steps, o.id) && Counted(w, o, fills, Run(w, steps), p)
    ensures WorkerInv(Run(w, steps)) && Settled(base, Run(w, steps).engine, o.id)
  {
    hide WorkerInv, Settled, FillsOf, Next, Good, Advances;
    if steps != [] {
      var earlier, last := steps[..|steps| - 1], steps[|steps| - 1];
      var from: Progress :| && from.heard <= |fills| && Brings(w, o, fills, earlier, from)
                            && Advances(Run(w, earlier), o, fills, last, from, p);
      PrefixIsGood(base, w, o, fills, earlier, from);
      SettledInMarket(base, w, o.id);
      SizeOfSettled(base, w.engine, o.id);
      StepHeard(base, w, o, fills, Run(w, earlier), last, from, p);
      OpenSoFar(w, steps, o.id);
    }
    GoodRunIsRouted(w, steps);
    RunKeepsInStep(w, steps);
    RunSettlesOrder(base, w, steps, o.id);
  }

  lemma OpenSoFar(w: WorkerState, steps: seq<Step>, id: Id)
    requires steps != [] && OpenThroughout(w, steps[..|steps| - 1], id)
    requires id in Run(w, steps[..|steps| - 1]).engine.orders
    ensures OpenThroughout(w, steps, id)
  {
    var earlier := steps[..|steps| - 1];
    forall k | 0 <= k < |steps|
      ensures id in Run(w, steps[..k]).engine.orders
    {
      if k < |earlier| {
        assert earlier[..k] == steps[..k];
      }
    }
  }

  // ---------- the end ----------

  /** A lookup's answer that the order has ended, with complete totals. */
  predicate EndsWith(market: Id, o: Order, fills: seq<Fill>, reply: Option<Order>) {
    && reply.Some? && About(market, o, reply.value)
    && reply.value.status.Terminal() && CumulativeOf(reply.value) == Totals(fills)
  }

  /** The step says, by message or in answer to a lookup, that the order has ended, with complete totals. */
  predicate Ends(before: WorkerState, o: Order, fills: seq<Fill>, last: Step) {
    var market := before.engine.market;
    match last
    case OrderStep(d) =>
      d.uuid == o.id && d.code == market && OnSide(d, o.side) && EndsOrder(d) && MessageTotals(d) == Totals(fills)
    case RecoverStep(buy, sell) => EndsWith(market, o, fills, ReplyFor(o, buy, sell))
    case TimeoutStep(time, timeout, buy, sell) =>
      Fires(before, time, timeout) && EndsWith(market, o, fills, ReplyFor(o, buy, sell))
    case _ => false
  }

  /** The order as that step brings it. */
  function Final(before: WorkerState, o: Order, fills: seq<Fill>, last: Step): (s: Order)
    requires Ends(before, o, fills, last)
    ensures About(before.engine.market, o, s) && s.status.Terminal() && CumulativeOf(s) == Totals(fills)
  {
    match last
    case OrderStep(d) => SnapshotCarries(d); ToSnapshot(d)
    case RecoverStep(buy, sell) => ReplyFor(o, buy, sell).value
    case TimeoutStep(_, _, buy, sell) => ReplyFor(o, buy, sell).value
  }

  lemma CompleteTerminalCloses(base: Budget, e: EngineState, s: Order)
    requires Inv(e) && Settled(base, e, s.id) && SameOrder(e, s) && GoodTotals(e.orders[s.id], CumulativeOf(s))
    requires (s.market == NO_ID || s.market == e.market) && s.status.Terminal()
    requires s.executedVolume > e.orders[s.id].executedVolume ==> s.executedFunds > e.orders[s.id].executedFunds
    ensures s.id !in ReconcileStep(e, s).0.orders
    ensures ClosedOn(base, ReconcileStep(e, s).0.budget, s.side, CumulativeOf(s), e.mark)
  {
    hide SnapshotStep, SettleDelta, ClosedOn, SettledAt, Booked;
    ReconcileSettles(base, e, s);
    SettledIsActive(base, e, s.id);
    KnownFundsSettle(e, s);
  }

  lemma LastStepCloses(base: Budget, w: WorkerState, o: Order, fills: seq<Fill>, last: Step, s: Order)
    requires WorkerInv(w) && Settled(base, w.engine, s.id) && SameOrder(w.engine, s)
    requires Ends(w, o, fills, last) && s == Final(w, o, fills, last)
    requires GoodTotals(w.engine.orders[s.id], CumulativeOf(s))
    requires s.executedVolume > w.engine.orders[s.id].executedVolume ==>
               s.executedFunds > w.engine.orders[s.id].executedFunds
    ensures s.id !in Next(w, last).engine.orders
    ensures ClosedOn(base, Next(w, last).engine.budget, s.side, CumulativeOf(s), w.engine.mark)
  {
    hide WorkerInv, Settled, ReconcileStep, ClosedOn, GoodTotals, HandleMyOrder, RunRecovery, ToSnapshot, IsTrade;
    InvOfWorker(w);
    CompleteTerminalCloses(base, w.engine, s);
    SettledIsActive(base, w.engine, s.id);
    match last {
      case OrderStep(d) =>
        TradeCarries(d);
        HandleMyOrderUnfolds(w, d);
      case RecoverStep(buy, sell) =>
        WatchDoesNotMatter(w, w.(recoveryRequested := false));
        RecoveryLooksUpOne(w.(recoveryRequested := false), s.id, buy, sell);
      case TimeoutStep(time, _, buy, sell) =>
        WatchDoesNotMatter(w, Tracked(w, time).(timeoutFired := true));
        RecoveryLooksUpOne(Tracked(w, time).(timeoutFired := true), s.id, buy, sell);
    }
  }

  lemma LastIsGood(before: WorkerState, o: Order, fills: seq<Fill>, last: Step)
    requires WorkerInv(before) && IsActive(before.engine, o.id) && SameRequest(o, before.engine.orders[o.id])
    requires Ends(before, o, fills, last) && o.market == before.engine.market
    requires GoodTotals(before.engine.orders[o.id], Totals(fills))
    ensures Good(before, last)
  {
    hide GoodTotals, Totals, Tracked;
  }

  /**
    End to end: whichever fills were heard of before the end, by whichever route, KRW and coin move by
    exactly the volume, funds and fees of all of them.
  */
  lemma LostSuffixCostsNothing(base: Budget, w: WorkerState, o: Order, fills: seq<Fill>, steps: seq<Step>, p: Progress,
                               last: Step)
    requires WorkerInv(w) && Settled(base, w.engine, o.id) && p.heard <= |fills| && FillsOf(o, fills)
    requires o == w.engine.orders[o.id] && Counted(w, o, fills, w, Progress(0, false)) && Brings(w, o, fills, steps, p)
    requires Ends(Run(w, steps), o, fills, last)
    ensures
      var before, after := Run(w, steps), Run(w, steps + [last]);
      && o.id !in after.engine.orders && Good(before, last)
      && ClosedOn(base, after.engine.budget, o.side, Totals(fills), before.engine.mark)
  {
    var before := Run(w, steps);
    BeforeTheEnd(base, w, o, fills, steps, p, last);
    assert Run(w, steps + [last]) == Next(before, last) by {
      assert (steps + [last])[..|steps|] == steps;
    }
    hide *;
    LastStepCloses(base, before, o, fills, last, Final(before, o, fills, last));
    LastIsGood(before, o, fills, last);
  }

  /** The ending step meets what closing asks for. */
  lemma BeforeTheEnd(base: Budget, w: WorkerState, o: Order, fills: seq<Fill>, steps: seq<Step>, p: Progress, last: Step)
    requires WorkerInv(w) && Settled(base, w.engine, o.id) && p.heard <= |fills| && FillsOf(o, fills)
    requires o == w.engine.orders[o.id] && Counted(w, o, fills, w, Progress(0, false)) && Brings(w, o, fills, steps, p)
    requires Ends(Run(w, steps), o, fills, last)
    ensures
      var before := Run(w, steps);
      var s := Final(before, o, fills, last);
      && s.id == o.id && s.side == o.side && CumulativeOf(s) == Totals(fills)
      && WorkerInv(before) && Settled(base, before.engine, o.id) && SameOrder(before.engine, s)
      && IsActive(before.engine, o.id) && o.market == before.engine.market && o.id in before.engine.orders
      && SameRequest(o, before.engine.orders[o.id])
      && GoodTotals(before.engine.orders[o.id], Totals(fills))
      && (s.executedVolume > before.engine.orders[o.id].executedVolume ==>
            s.executedFunds > before.engine.orders[o.id].executedFunds)
  {
    hide WorkerInv, Settled, Next, FillsOf, WithinRequest, Totals, Ends;
    PrefixIsGood(base, w, o, fills, steps, p);
    LaterFillsAdd(o, fills, p.heard);
    PrefixWithinRequest(o, fills, |fills|);
    assert fills[..|fills|] == fills;
    var before := Run(w, steps);
    SizeOfSettled(base, w.engine, o.id);
    RequestKept(o, before.engine.orders[o.id], o, Totals(fills));
    SettledInMarket(base, before, o.id);
    SettledIsActive(base, before.engine, o.id);
    SideOf(o, before.engine.orders[o.id]);
    hide SameRequest, Run, Brings;
  }

  /** As if nothing was lost: two deliveries of the same fills, ended at the same mark price, leave the same balances. */
  lemma DeliveryDoesNotMatter(base: Budget, w: WorkerState, o: Order, fills: seq<Fill>,
                              steps: seq<Step>, p: Progress, last: Step,
                              steps': seq<Step>, p': Progress, last': Step)
    requires WorkerInv(w) && Settled(base, w.engine, o.id) && FillsOf(o, fills)
    requires p.heard <= |fills| && p'.heard <= |fills|
    requires o == w.engine.orders[o.id] && Counted(w, o, fills, w, Progress(0, false))
    requires Brings(w, o, fills, steps, p) && Brings(w, o, fills, steps', p')
    requires Ends(Run(w, steps), o, fills, last) && Ends(Run(w, steps'), o, fills, last')
    requires
      var mark, mark' := Run(w, steps).engine.mark, Run(w, steps').engine.mark;
      mark > 0.0 || mark' > 0.0 ==> mark' == mark
    ensures
      var b, b' := Run(w, steps + [last]).engine.budget, Run(w, steps' + [last']).engine.budget;
      && b'.available == b.available && b'.reserved == b.reserved && b'.coin == b.coin
      && (b.coin > 0.0 ==> b'.avgEntry == b.avgEntry)
  {
    hide WorkerInv, ClosedOn, Next, Settled, FillsOf, Brings, Counted, Ends;
    LostSuffixCostsNothing(base, w, o, fills, steps, p, last);
    LostSuffixCostsNothing(base, w, o, fills, steps', p', last');
    ClosedIsDetermined(base, Run(w, steps + [last]).engine.budget, Run(w, steps' + [last']).engine.budget,
                       o.side, Totals(fills), Run(w, steps).engine.mark, Run(w, steps').engine.mark);
  }
}
