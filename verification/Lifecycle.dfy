/**
  What every run of one engine keeps: the reservation ledger and the order lifecycle. Messages may
  carry arbitrary amounts, repeated or reordered; they only have to name an order's own market and
  side (SameOrder), and a post has to answer with a fresh order id (FreshReply).
*/
module Lifecycle {
  import opened Domain
  import opened Account
  import opened OrderStore
  import opened TradeDedupe
  import opened Engine

  // ---------- the invariant ----------

  /** Reserved KRW is exactly what the one active token has not spent; zero without a token. */
  ghost predicate ReservationBacked(e: EngineState) {
    && (e.token.Some? ==> 0.0 <= e.token.value.consumed <= e.token.value.amount)
    && e.budget.reserved == (if e.token.Some? then e.token.value.Remaining() else 0.0)
    && e.budget.available >= 0.0
  }

  ghost predicate IsActive(e: EngineState, id: Id) {
    id != NO_ID && (id == e.buyId || id == e.sellId)
  }

  /** The store's orders of this market are the active buy or the active sell, never both, and still open. */
  ghost predicate StoreMatchesActive(e: EngineState) {
    && KeyedById(e.orders)
    && (e.buyId == NO_ID || e.sellId == NO_ID)
    && (e.token.Some? <==> e.buyId != NO_ID)
    && (forall k :: k in e.orders && e.orders[k].market == e.market ==> IsActive(e, k))
    && (forall k :: IsActive(e, k) ==>
          && k in e.orders && e.orders[k].market == e.market && !e.orders[k].status.Terminal()
          && e.orders[k].side == (if k == e.buyId then BID else ASK))
  }

  ghost predicate Inv(e: EngineState) {
    e.market != NO_ID && ReservationBacked(e) && StoreMatchesActive(e) && Consistent(e.dedupe, MAX_SEEN_TRADES)
  }

  // ---------- runs ----------

  datatype Op =
    | SubmitOp(req: OrderRequest, reply: Option<Id>)
    | TradeOp(trade: MyTrade)
    | SnapshotOp(snapshot: Order)
    | ReconcileOp(snapshot: Order)
    | PollOp
    | MarkOp(price: real)

  function Apply(e: EngineState, op: Op): EngineState {
    match op
    case SubmitOp(req, reply) => SubmitStep(e, req, reply).0
    case TradeOp(t) => TradeStep(e, t)
    case SnapshotOp(s) => SnapshotStep(e, s)
    case ReconcileOp(s) => ReconcileStep(e, s).0
    case PollOp => e.(events := [])
    case MarkOp(p) => e.(mark := p)
  }

  ghost predicate SameOrder(e: EngineState, s: Order) {
    s.id in e.orders ==> e.orders[s.id].market == e.market && e.orders[s.id].side == s.side
  }

  ghost predicate FreshReply(e: EngineState, reply: Option<Id>) {
    reply.Some? ==> reply.value != NO_ID && reply.value !in e.orders
  }

  ghost predicate Admissible(e: EngineState, op: Op) {
    match op
    case SubmitOp(_, reply) => FreshReply(e, reply)
    case SnapshotOp(s) => SameOrder(e, s)
    case ReconcileOp(s) => SameOrder(e, s)
    case _ => true
  }

  function RunOps(e: EngineState, ops: seq<Op>): EngineState {
    if ops == [] then e else Apply(RunOps(e, ops[..|ops| - 1]), ops[|ops| - 1])
  }

  ghost predicate AdmissibleRun(e: EngineState, ops: seq<Op>) {
    ops == [] || (AdmissibleRun(e, ops[..|ops| - 1]) && Admissible(RunOps(e, ops[..|ops| - 1]), ops[|ops| - 1]))
  }

  // ---------- each entry point keeps the invariant ----------

  lemma SubmitKeepsInv(e: EngineState, req: OrderRequest, reply: Option<Id>)
    requires Inv(e) && FreshReply(e, reply)
    ensures Inv(SubmitStep(e, req, reply).0)
    ensures SubmitStep(e, req, reply).1.Refused? ==> SubmitStep(e, req, reply).0 == e
  {
  }

  lemma TradeKeepsInv(e: EngineState, t: MyTrade)
    requires Inv(e)
    ensures Inv(TradeStep(e, t))
  {
    MarkKeepsConsistent(e.dedupe, Key(t), MAX_SEEN_TRADES);
  }

  lemma SnapshotKeepsInv(e: EngineState, s: Order)
    requires Inv(e) && SameOrder(e, s)
    ensures Inv(SnapshotStep(e, s))
  {
  }

  lemma DeltaKeepsInv(e: EngineState, s: Order, known: Order)
    requires Inv(e) && SettleDelta(e, s, known).Some?
    ensures
      var e' := SettleDelta(e, s, known).value;
      Inv(e') && e'.orders == e.orders && e'.market == e.market
  {
  }

  lemma ReconcileKeepsInv(e: EngineState, s: Order)
    requires Inv(e) && SameOrder(e, s)
    ensures Inv(ReconcileStep(e, s).0)
  {
    if s.id in e.orders && SettleDelta(e, s, e.orders[s.id]).Some? {
      DeltaKeepsInv(e, s, e.orders[s.id]);
      SnapshotKeepsInv(SettleDelta(e, s, e.orders[s.id]).value, s);
    }
  }

  lemma ApplyKeepsInv(e: EngineState, op: Op)
    requires Inv(e) && Admissible(e, op)
    ensures Inv(Apply(e, op))
  {
    match op {
      case SubmitOp(req, reply) => SubmitKeepsInv(e, req, reply);
      case TradeOp(t) => TradeKeepsInv(e, t);
      case SnapshotOp(s) => SnapshotKeepsInv(e, s);
      case ReconcileOp(s) => ReconcileKeepsInv(e, s);
      case PollOp =>
      case MarkOp(p) =>
    }
  }

  lemma {:induction false} RunKeepsInv(e: EngineState, ops: seq<Op>)
    requires Inv(e) && AdmissibleRun(e, ops)
    ensures Inv(RunOps(e, ops))
  {
    if ops != [] {
      RunKeepsInv(e, ops[..|ops| - 1]);
      ApplyKeepsInv(RunOps(e, ops[..|ops| - 1]), ops[|ops| - 1]);
    }
  }

  // ---------- which answer a submit gives ----------

  /** A limit order has a price and a volume; a market buy a total; a market sell a volume; all of them positive. */
  predicate WellFormed(req: OrderRequest) {
    && req.market != NO_ID
    && match req.size
       case VolumeSize(volume) =>
         volume > 0.0 && if req.otype.Limit? then req.price.Some? && req.price.value > 0.0 else req.price.None? && req.side.ASK?
       case AmountSize(amount) => amount > 0.0 && req.otype.Market? && req.price.None? && req.side.BID?
  }

  /** What a buy reserves: its total, or price times volume, with the margin of 0.1%. */
  function Cost(req: OrderRequest): real {
    match req.size
    case AmountSize(amount) => amount * 1.001
    case VolumeSize(volume) => if req.price.Some? then req.price.value * volume * 1.001 else 0.0
  }

  /** Every answer of a submit, and when it gives it. */
  lemma SubmitAnswers(e: EngineState, req: OrderRequest, reply: Option<Id>)
    ensures
      var result := SubmitStep(e, req, reply).1;
      var free := e.token.None? && e.sellId == NO_ID;
      var covered := req.side.BID? ==> 0.0 < Cost(req) <= e.budget.available;
      var mine := WellFormed(req) && req.market == e.market;
      && (result.Accepted? <==> mine && free && covered && reply.Some?)
      && (result == Refused(InternalError) <==> mine && free && covered && reply.None?)
      && (result == Refused(InsufficientFunds) <==> mine && free && !covered)
      && (result == Refused(OrderRejected) <==> !WellFormed(req) || (mine && !free))
      && (result == Refused(MarketNotSupported) <==> WellFormed(req) && !mine)
  {
    CostIsReserved(req);
    hide Cost, ReserveAmount, Reserved, Released;
  }

  lemma CostIsReserved(req: OrderRequest)
    ensures WellFormed(req) && req.side.BID? ==> ReserveAmount(req) == Cost(req)
  {
  }

  /** What an accepted post puts into the store: the request as it was, nothing filled, waiting. */
  lemma PostedAsAsked(e: EngineState, req: OrderRequest, reply: Option<Id>)
    requires SubmitStep(e, req, reply).1.Accepted? && reply != Some(NO_ID)
    ensures
      var e' := SubmitStep(e, req, reply).0;
      && reply.Some? && reply.value in e'.orders
      && var o := e'.orders[reply.value];
      && o.id == reply.value && o.market == req.market && o.side == req.side && o.otype == req.otype && o.price == req.price
      && o.status.Pending? && o.executedVolume == o.remainingVolume == o.executedFunds == o.paidFee == 0.0
      && (o.identifier == if req.identifier != NO_ID then Some(req.identifier) else None)
      && match req.size
         case VolumeSize(volume) => o.volume == Some(volume) && o.requestedAmount.None?
         case AmountSize(amount) => o.requestedAmount == Some(amount) && o.volume.None?
  {
    hide Reserved, Released, CanReserve, ReserveAmount, ValidRequest;
  }

  /** Only the active buy gives up its reservation. */
  lemma OthersKeepToken(e: EngineState, id: Id)
    requires id != e.buyId
    ensures FinalizeBuyToken(e, id) == e
  {
  }

  // ---------- the ledger ----------

  function Held(b: Budget): real {
    b.available + b.reserved
  }

  /** KRW a buy fill takes out of the reservation: its cost, or what is left if that is less. */
  function BuyCost(k: Token, krw: real, volume: real, price: real): real {
    if krw <= 0.0 || volume <= 0.0 || price <= 0.0 then 0.0
    else if krw > k.Remaining() then k.Remaining()
    else krw
  }

  function SellProceeds(funds: real, fee: real, volume: real): real {
    if volume <= 0.0 then 0.0 else Max(0.0, funds - fee)
  }

  /** KRW an operation moves in or out of the market: the settled fills and nothing else. */
  function Flow(e: EngineState, op: Op): real {
    match op
    case TradeOp(t) =>
      if t.market != e.market || Key(t) in e.dedupe.seen || t.orderId !in e.orders then 0.0
      else if t.side.ASK? then SellProceeds(t.funds, t.fee, t.volume)
      else if e.token.Some? && e.buyId == t.orderId then -BuyCost(e.token.value, t.funds + t.fee, t.volume, t.price)
      else 0.0
    case ReconcileOp(s) =>
      if (s.market != NO_ID && s.market != e.market) || s.id !in e.orders then 0.0
      else
        var known := e.orders[s.id];
        var volume := Max(0.0, s.executedVolume - known.executedVolume);
        var funds := Max(0.0, s.executedFunds - known.executedFunds);
        var fee := Max(0.0, s.paidFee - known.paidFee);
        if SettleDelta(e, s, known).None? || volume <= 0.0 then 0.0
        else if s.side.ASK? then SellProceeds(funds, fee, volume)
        else if e.token.Some? then -BuyCost(e.token.value, funds + fee, volume, funds / volume)
        else 0.0
    case _ => 0.0
  }

  lemma BuyFillMovesCost(b: Budget, k: Token, krw: real, volume: real, price: real)
    requires 0.0 <= k.consumed <= k.amount && b.reserved == k.Remaining()
    ensures
      var (b', k') := BuyFilled(b, k, krw, volume, price);
      && b'.available == b.available
      && b'.reserved == b.reserved - BuyCost(k, krw, volume, price) == k'.Remaining() >= 0.0
  {
  }

  /** The negative clamp and the dust sweep do nothing: finalizing returns the remainder, to the won. */
  lemma FinalizeReturnsRemainder(e: EngineState)
    requires ReservationBacked(e) && e.token.Some?
    ensures OrderFinalized(e.budget, e.token.value)
            == e.budget.(available := e.budget.available + e.token.value.Remaining(), reserved := 0.0)
  {
  }

  lemma SnapshotKeepsHeld(e: EngineState, s: Order)
    requires Inv(e) && SameOrder(e, s)
    ensures Held(SnapshotStep(e, s).budget) == Held(e.budget)
  {
    if e.token.Some? {
      FinalizeReturnsRemainder(e);
    }
  }

  lemma DeltaMovesFlow(e: EngineState, s: Order)
    requires Inv(e) && s.id in e.orders && SettleDelta(e, s, e.orders[s.id]).Some?
    requires s.market == NO_ID || s.market == e.market
    ensures Held(SettleDelta(e, s, e.orders[s.id]).value.budget) == Held(e.budget) + Flow(e, ReconcileOp(s))
  {
    hide BuyFilled, BuyCost;
    var known := e.orders[s.id];
    var volume := Max(0.0, s.executedVolume - known.executedVolume);
    var funds := Max(0.0, s.executedFunds - known.executedFunds);
    var fee := Max(0.0, s.paidFee - known.paidFee);
    if e.token.Some? && volume > 0.0 {
      BuyFillMovesCost(e.budget, e.token.value, funds + fee, volume, funds / volume);
    }
  }

  lemma ApplyMovesFlow(e: EngineState, op: Op)
    requires Inv(e) && Admissible(e, op)
    ensures Held(Apply(e, op).budget) == Held(e.budget) + Flow(e, op)
  {
    match op {
      case TradeOp(t) =>
        if e.token.Some? {
          BuyFillMovesCost(e.budget, e.token.value, t.funds + t.fee, t.volume, t.price);
        }
      case SnapshotOp(s) =>
        SnapshotKeepsHeld(e, s);
      case ReconcileOp(s) =>
        if s.id in e.orders && SettleDelta(e, s, e.orders[s.id]).Some? && (s.market == NO_ID || s.market == e.market) {
          DeltaMovesFlow(e, s);
          DeltaKeepsInv(e, s, e.orders[s.id]);
          SnapshotKeepsHeld(SettleDelta(e, s, e.orders[s.id]).value, s);
        }
      case _ =>
    }
  }

  function Flows(e: EngineState, ops: seq<Op>): real {
    if ops == [] then 0.0
    else Flows(e, ops[..|ops| - 1]) + Flow(RunOps(e, ops[..|ops| - 1]), ops[|ops| - 1])
  }

  /**
    Over any run the market's KRW, available plus reserved, changes by its settled fills alone, and
    what is reserved is always the remainder of the one active token: every reservation comes back
    exactly once, less what its fills cost.
  */
  lemma {:induction false} RunConservesKrw(e: EngineState, ops: seq<Op>)
    requires Inv(e) && AdmissibleRun(e, ops)
    ensures
      var e' := RunOps(e, ops);
      && Held(e'.budget) == Held(e.budget) + Flows(e, ops)
      && e'.budget.reserved == (if e'.token.Some? then e'.token.value.Remaining() else 0.0)
      && e'.budget.available >= 0.0 && e'.budget.reserved >= 0.0
  {
    RunKeepsInv(e, ops);
    if ops != [] {
      RunConservesKrw(e, ops[..|ops| - 1]);
      RunKeepsInv(e, ops[..|ops| - 1]);
      ApplyMovesFlow(RunOps(e, ops[..|ops| - 1]), ops[|ops| - 1]);
    }
  }

  // ---------- after the end of an order ----------

  /** Budgets, token, orders, active ids and events: everything but the trade window and the mark price. */
  predicate SameBooks(e: EngineState, e': EngineState) {
    e' == e.(dedupe := e'.dedupe)
  }

  /** A repeated trade changes nothing; messages about an order the store no longer has, at most the trade window. */
  lemma LateMessagesIgnored(e: EngineState, t: MyTrade, s: Order)
    ensures Key(t) in e.dedupe.seen ==> TradeStep(e, t) == e
    ensures t.orderId !in e.orders ==> SameBooks(e, TradeStep(e, t))
    ensures s.id !in e.orders ==> SnapshotStep(e, s) == e && ReconcileStep(e, s) == (e, false)
  {
  }

  /** Trades and snapshots that name another market change nothing. */
  lemma OtherMarketsIgnored(e: EngineState, t: MyTrade, s: Order)
    ensures t.market != e.market ==> TradeStep(e, t) == e
    ensures s.market != NO_ID && s.market != e.market ==> SnapshotStep(e, s) == e && ReconcileStep(e, s) == (e, false)
  {
  }

  function OneOf(first: Option<Id>, second: Option<Id>): Option<Id> {
    match first
    case Some(_) => first
    case None => second
  }

  /** A new fill of a stored order is published once, under its own identifier or the order's; nothing else is. */
  lemma TradePublishes(e: EngineState, t: MyTrade)
    ensures
      var events := TradeStep(e, t).events;
      if t.market == e.market && Key(t) !in e.dedupe.seen && t.orderId in e.orders
         && Named(OneOf(t.identifier, e.orders[t.orderId].identifier))
      then
        events == e.events + [FillEvent(OneOf(t.identifier, e.orders[t.orderId].identifier).value, t.orderId, Key(t),
                                        t.side, t.price, t.volume)]
      else events == e.events
  {
    hide BuyFilled, SellFilled, Mark, Key;
  }

  /** What a snapshot makes of the stored order: its progress is taken over, what was asked for only filled in. */
  lemma SnapshotFillsIn(o: Order, s: Order)
    ensures
      var m := Merged(o, s);
      && m.id == o.id && m.requestedAmount == o.requestedAmount && m.side == s.side && m.otype == s.otype
      && m.executedVolume == s.executedVolume && m.remainingVolume == s.remainingVolume
      && m.executedFunds == s.executedFunds && m.paidFee == s.paidFee && m.status == s.status
      && m.market == (if s.market == NO_ID then o.market else s.market)
      && m.identifier == OneOf(o.identifier, s.identifier)
      && m.volume == (match o.volume case Some(_) => o.volume case None => s.volume)
      && m.price == (match o.price case Some(_) => o.price case None => if s.otype.Limit? then s.price else None)
  {
  }

  /** A looked-up order is applied exactly if it is stored, and what it adds has known funds and belongs to the active order. */
  lemma LookupAppliesIff(e: EngineState, s: Order)
    requires s.market == NO_ID || s.market == e.market
    ensures
      var (e', ok) := ReconcileStep(e, s);
      && (!ok ==> e' == e)
      && (ok <==>
            && s.id in e.orders
            && (s.executedVolume > e.orders[s.id].executedVolume ==>
                  && s.executedFunds > e.orders[s.id].executedFunds
                  && if s.side.BID? then e.token.Some? && e.buyId == s.id else e.sellId == s.id))
  {
    hide BuyFilled, SellFilled, SnapshotStep;
    if s.id in e.orders {
      var volume, funds := s.executedVolume - e.orders[s.id].executedVolume, s.executedFunds - e.orders[s.id].executedFunds;
      assert volume > 0.0 && funds > 0.0 ==> funds / volume > 0.0;
    }
  }

  ghost predicate NeverReposted(ops: seq<Op>, id: Id) {
    forall i :: 0 <= i < |ops| && ops[i].SubmitOp? ==> ops[i].reply != Some(id)
  }

  /** A terminal snapshot removes its order, and no later run brings it back. */
  lemma {:induction false} ClosedOrderStaysClosed(e: EngineState, s: Order, ops: seq<Op>)
    requires Inv(e) && SameOrder(e, s) && s.id in e.orders && s.status.Terminal()
    requires s.market == NO_ID || s.market == e.market
    requires NeverReposted(ops, s.id)
    ensures s.id !in RunOps(SnapshotStep(e, s), ops).orders
  {
    if ops != [] {
      var prefix := ops[..|ops| - 1];
      assert forall i :: 0 <= i < |prefix| ==> prefix[i] == ops[i];
      ClosedOrderStaysClosed(e, s, prefix);
      OrdersOnlyComeFromPosts(RunOps(SnapshotStep(e, s), prefix), ops[|ops| - 1]);
    }
  }

  lemma OrdersOnlyComeFromPosts(e: EngineState, op: Op)
    ensures forall k :: k in Apply(e, op).orders ==> k in e.orders || (op.SubmitOp? && op.reply == Some(k))
  {
  }

  // ---------- the other markets ----------

  /** The orders of the other markets are still there, as they were. */
  ghost predicate OthersKept(e: EngineState, e': EngineState) {
    && e'.market == e.market
    && (forall k :: k in e.orders && e.orders[k].market != e.market ==> k in e'.orders && e'.orders[k] == e.orders[k])
  }

  lemma ReconcileKeepsOthers(e: EngineState, s: Order)
    requires Inv(e) && SameOrder(e, s)
    ensures OthersKept(e, SnapshotStep(e, s)) && OthersKept(e, ReconcileStep(e, s).0)
  {
    if s.id in e.orders && SettleDelta(e, s, e.orders[s.id]).Some? {
      DeltaKeepsInv(e, s, e.orders[s.id]);
    }
  }

  lemma ApplyKeepsOthers(e: EngineState, op: Op)
    requires Inv(e) && Admissible(e, op)
    ensures OthersKept(e, Apply(e, op))
  {
    hide SnapshotStep, ReconcileStep, BuyFilled, SellFilled, Mark;
    match op {
      case SnapshotOp(s) => ReconcileKeepsOthers(e, s);
      case ReconcileOp(s) => ReconcileKeepsOthers(e, s);
      case _ =>
    }
  }

  /** Over every run an engine leaves the other markets' orders in the shared store alone. */
  lemma {:induction false} RunKeepsOthers(e: EngineState, ops: seq<Op>)
    requires Inv(e) && AdmissibleRun(e, ops)
    ensures OthersKept(e, RunOps(e, ops))
  {
    hide Inv, Apply, Admissible;
    if ops != [] {
      RunKeepsOthers(e, ops[..|ops| - 1]);
      RunKeepsInv(e, ops[..|ops| - 1]);
      ApplyKeepsOthers(RunOps(e, ops[..|ops| - 1]), ops[|ops| - 1]);
    }
  }
}
