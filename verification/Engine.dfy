/**
  src/engine/MarketEngine.{h,cpp}: one market's order engine. EngineState is what one engine can
  see and change: its market's budget and token, the shared order store, its active order ids,
  its event queue and its trade window. The Step functions say what each entry point does to it;
  the class MarketEngine does it in place on the shared objects.
*/
module Engine {
  import opened Domain
  import opened Account
  import opened OrderStore
  import opened TradeDedupe

  datatype EngineState = EngineState(
    market: Id, budget: Budget, orders: map<Id, Order>, token: Option<Token>,
    buyId: Id, sellId: Id, events: seq<EngineEvent>, dedupe: Dedupe, mark: real)

  datatype ErrorCode = InsufficientFunds | MarketNotSupported | OrderRejected | InternalError

  datatype SubmitResult = Accepted(order: Order) | Refused(code: ErrorCode)

  // ---------- submit ----------

  predicate ValidRequest(req: OrderRequest) {
    && req.market != NO_ID
    && (if req.otype.Limit? then req.price.Some? && req.size.VolumeSize?
        else req.price.None? && (if req.side.BID? then req.size.AmountSize? else req.size.VolumeSize?))
    && (if req.size.AmountSize? then req.size.amount > 0.0 else req.size.volume > 0.0)
    && (req.price.Some? ==> req.price.value > 0.0)
  }

  function ReserveAmount(req: OrderRequest): real {
    match req.size
    case AmountSize(amount) => amount * RESERVE_MARGIN
    case VolumeSize(volume) => (if req.price.Some? then req.price.value else 0.0) * volume * RESERVE_MARGIN
  }

  function NewOrder(req: OrderRequest, id: Id): Order {
    Order(id, req.market, if req.identifier == NO_ID then None else Some(req.identifier), req.side, req.otype,
          req.price,
          if req.size.VolumeSize? then Some(req.size.volume) else None,
          if req.size.AmountSize? then Some(req.size.amount) else None,
          0.0, 0.0, 0.0, 0.0, Pending)
  }

  function Upserted(orders: map<Id, Order>, o: Order): map<Id, Order> {
    if o.id == NO_ID then orders else orders[o.id := o]
  }

  /** `reply` is the exchange's answer to the post: the order uuid, or None for a REST error. */
  function SubmitStep(e: EngineState, req: OrderRequest, reply: Option<Id>): (EngineState, SubmitResult) {
    if !ValidRequest(req) then (e, Refused(OrderRejected))
    else if req.market != e.market then (e, Refused(MarketNotSupported))
    else if e.token.Some? || e.sellId != NO_ID then (e, Refused(OrderRejected))
    else if req.side.BID? then
      var amount := ReserveAmount(req);
      if !CanReserve(e.budget, amount) then (e, Refused(InsufficientFunds))
      else
        var b := Reserved(e.budget, amount);
        match reply
        case None => (e.(budget := Released(b, amount), buyId := NO_ID), Refused(InternalError))
        case Some(id) =>
          var o := NewOrder(req, id);
          (e.(budget := b, token := Some(Token(amount, 0.0)), buyId := id, orders := Upserted(e.orders, o)),
           Accepted(o))
    else
      match reply
      case None => (e, Refused(InternalError))
      case Some(id) =>
        var o := NewOrder(req, id);
        (e.(sellId := id, orders := Upserted(e.orders, o)), Accepted(o))
  }

  // ---------- trades ----------

  function TradeEvents(t: MyTrade, o: Order): seq<EngineEvent> {
    var identifier := if t.identifier.Some? then t.identifier else o.identifier;
    if Named(identifier)
    then [FillEvent(identifier.value, t.orderId, Key(t), t.side, t.price, t.volume)]
    else []
  }

  function SettleTrade(e: EngineState, t: MyTrade): EngineState {
    if t.side.BID? then
      if e.token.Some? && e.buyId == t.orderId then
        var (b, k) := BuyFilled(e.budget, e.token.value, t.funds + t.fee, t.volume, t.price);
        e.(budget := b, token := Some(k))
      else e
    else
      e.(budget := SellFilled(e.budget, t.volume, Max(0.0, t.funds - t.fee)))
  }

  function TradeStep(e: EngineState, t: MyTrade): EngineState {
    if t.market != e.market || Key(t) in e.dedupe.seen then e
    else
      var e' := e.(dedupe := Mark(e.dedupe, Key(t), MAX_SEEN_TRADES));
      if t.orderId !in e.orders then e'
      else SettleTrade(e'.(events := e.events + TradeEvents(t, e.orders[t.orderId])), t)
  }

  // ---------- snapshots ----------

  function Merged(o: Order, s: Order): Order {
    o.(market := if s.market != NO_ID then s.market else o.market,
       side := s.side, otype := s.otype,
       price := if o.price.None? && s.price.Some? && s.otype.Limit? then s.price else o.price,
       volume := if o.volume.None? && s.volume.Some? then s.volume else o.volume,
       executedVolume := s.executedVolume, remainingVolume := s.remainingVolume,
       executedFunds := s.executedFunds, paidFee := s.paidFee, status := s.status,
       identifier := if o.identifier.None? && s.identifier.Some? then s.identifier else o.identifier)
  }

  function Effect(o: Order, b: Budget): PositionEffect {
    if o.executedVolume <= 0.0 then NoEffect
    else if o.side.BID? then Opened
    else if b.coin >= COIN_EPSILON then Reduced
    else Closed
  }

  function FinalizeBuyToken(e: EngineState, id: Id): EngineState {
    if e.token.None? || e.buyId == NO_ID || e.buyId != id then e
    else e.(budget := OrderFinalized(e.budget, e.token.value), token := None, buyId := NO_ID)
  }

  function MarkPrice(e: EngineState): Option<real> {
    if e.mark > 0.0 then Some(e.mark) else None
  }

  function StatusEvents(o: Order, b: Budget): seq<EngineEvent> {
    if Named(o.identifier)
    then [StatusEvent(o.identifier.value, o.id, o.status, o.side,
                      o.executedVolume, o.remainingVolume, o.executedFunds, Effect(o, b))]
    else []
  }

  /** The order just reached a terminal status: settle the token or the position, publish, in that order. */
  function CloseOrder(e: EngineState, o: Order): EngineState {
    var e1 := if o.side.BID? && o.id == e.buyId then FinalizeBuyToken(e, o.id) else e;
    var e2 := if o.side.ASK? && o.id == e1.sellId
              then e1.(budget := SellFinalized(e1.budget, MarkPrice(e1)), sellId := NO_ID)
              else e1;
    e2.(events := e2.events + StatusEvents(o, e2.budget))
  }

  function SnapshotStep(e: EngineState, s: Order): EngineState {
    if s.market != NO_ID && s.market != e.market then e
    else if s.id !in e.orders then e
    else
      var known := e.orders[s.id];
      var o := Merged(known, s);
      if o.id !in e.orders then e
      else
        var e1 := e.(orders := e.orders[o.id := o]);
        if !o.status.Terminal() then e1
        else
          var e2 := if o.status != known.status then CloseOrder(e1, o) else e1;
          e2.(orders := e2.orders - {o.id})
  }

  // ---------- reconciliation ----------

  /** None: the amounts cannot be settled, and the snapshot must not be applied. */
  function SettleDelta(e: EngineState, s: Order, known: Order): Option<EngineState> {
    var volume := Max(0.0, s.executedVolume - known.executedVolume);
    var funds := Max(0.0, s.executedFunds - known.executedFunds);
    var fee := Max(0.0, s.paidFee - known.paidFee);
    if volume <= 0.0 then Some(e)
    else if funds <= 0.0 then None
    else if s.side.BID? then
      if e.token.None? || e.buyId != s.id || funds / volume <= 0.0 then None
      else
        var (b, k) := BuyFilled(e.budget, e.token.value, funds + fee, volume, funds / volume);
        Some(e.(budget := b, token := Some(k)))
    else
      if e.sellId != s.id then None
      else Some(e.(budget := SellFilled(e.budget, volume, Max(0.0, funds - fee))))
  }

  function ReconcileStep(e: EngineState, s: Order): (EngineState, bool) {
    if s.market != NO_ID && s.market != e.market then (e, false)
    else if s.id !in e.orders then (e, false)
    else
      match SettleDelta(e, s, e.orders[s.id])
      case None => (e, false)
      case Some(e') => (SnapshotStep(e', s), true)
  }

  // ---------- the engine ----------

  class MarketEngine {
    const market: Id
    const store: Store
    const account: AccountManager
    var token: ReservationToken?
    var buyId: Id
    var sellId: Id
    var events: seq<EngineEvent>
    var seen: set<TradeKey>
    var fifo: seq<TradeKey>
    var mark: real

    ghost function Repr(): set<object>
      reads this
    {
      {this, store, account} + if token == null then {} else {token}
    }

    ghost predicate Valid()
      reads this, Repr()
    {
      && store.Valid()
      && market in account.budgets
      && (token != null ==> token.active && token.manager == account && token.market == market)
    }

    ghost function View(): EngineState
      reads this, Repr()
      requires Valid()
    {
      EngineState(market, account.budgets[market], store.orders,
                  if token == null then None else Some(token.Value()),
                  buyId, sellId, events, Dedupe(seen, fifo), mark)
    }

    constructor (market: Id, store: Store, account: AccountManager)
      requires store.Valid() && market in account.budgets
      ensures Valid() && this.market == market && this.store == store && this.account == account && token == null
      ensures View() == EngineState(market, account.budgets[market], store.orders, None,
                                    NO_ID, NO_ID, [], Dedupe({}, []), 0.0)
    {
      this.market, this.store, this.account := market, store, account;
      token, buyId, sellId := null, NO_ID, NO_ID;
      events, seen, fifo, mark := [], {}, [], 0.0;
    }

    method Submit(req: OrderRequest, reply: Option<Id>) returns (result: SubmitResult)
      requires Valid()
      modifies Repr()
      ensures Valid() && fresh(Repr() - old(Repr()))
      ensures (View(), result) == SubmitStep(old(View()), req, reply)
      ensures account.budgets == old(account.budgets)[market := View().budget]
    {
      if !ValidRequest(req) {
        return Refused(OrderRejected);
      }
      if req.market != market {
        return Refused(MarketNotSupported);
      }
      if req.side.BID? {
        if token != null {
          return Refused(OrderRejected);
        }
        if sellId != NO_ID {
          return Refused(OrderRejected);
        }
        var amount := ReserveAmount(req);
        var reserved := account.Reserve(market, amount);
        if reserved == null {
          return Refused(InsufficientFunds);
        }
        token := new ReservationToken.Move(reserved);
        reserved.Destroy();
      } else {
        if sellId != NO_ID {
          return Refused(OrderRejected);
        }
        if token != null {
          return Refused(OrderRejected);
        }
      }
      if reply.None? {
        if req.side.BID? {
          account.Release(token);
          token.Destroy();
          token := null;
          buyId := NO_ID;
        }
        return Refused(InternalError);
      }
      if req.side.BID? {
        buyId := reply.value;
      }
      if req.side.ASK? {
        sellId := reply.value;
      }
      var o := NewOrder(req, reply.value);
      store.Upsert(o);
      return Accepted(o);
    }

    method MarkTradeOnce(key: TradeKey) returns (isNew: bool)
      modifies this`seen, this`fifo
      ensures isNew == (key !in old(seen))
      ensures Dedupe(seen, fifo) == Mark(old(Dedupe(seen, fifo)), key, MAX_SEEN_TRADES)
    {
      if key in seen {
        return false;
      }
      seen := seen + {key};
      fifo := fifo + [key];
      ghost var target := Trim(Dedupe(seen, fifo), MAX_SEEN_TRADES);
      while |fifo| > MAX_SEEN_TRADES
        invariant Trim(Dedupe(seen, fifo), MAX_SEEN_TRADES) == target
      {
        seen := seen - {fifo[0]};
        fifo := fifo[1..];
      }
      return true;
    }

    method OnMyTrade(t: MyTrade)
      requires Valid()
      modifies Repr()
      ensures Valid() && Repr() == old(Repr())
      ensures View() == TradeStep(old(View()), t)
      ensures account.budgets == old(account.budgets)[market := View().budget]
    {
      hide BuyFilled, SellFilled, Key;
      if t.market != market {
        return;
      }
      var isNew := MarkTradeOnce(Key(t));
      if !isNew {
        return;
      }
      var found := store.Get(t.orderId);
      if found.None? {
        return;
      }
      var identifier := t.identifier;
      if identifier.None? {
        identifier := found.value.identifier;
      }
      if identifier.Some? && identifier.value != NO_ID {
        events := events + [FillEvent(identifier.value, t.orderId, Key(t), t.side, t.price, t.volume)];
      }
      if t.side.BID? {
        if token != null && buyId == t.orderId {
          account.FinalizeFillBuy(token, t.funds + t.fee, t.volume, t.price);
        }
      } else {
        var received := Max(0.0, t.funds - t.fee);
        account.FinalizeFillSell(market, t.volume, received);
      }
    }

    method FinalizeBuy(id: Id)
      requires Valid()
      modifies Repr()
      ensures Valid() && Repr() <= old(Repr())
      ensures View() == FinalizeBuyToken(old(View()), id)
      ensures account.budgets == old(account.budgets)[market := View().budget]
    {
      if token == null {
        return;
      }
      if buyId == NO_ID || buyId != id {
        return;
      }
      account.FinalizeOrder(token);
      token.Destroy();
      token := null;
      buyId := NO_ID;
    }

    method ResolvePositionEffect(o: Order) returns (effect: PositionEffect)
      requires Valid()
      ensures effect == Effect(o, View().budget)
    {
      if o.executedVolume <= 0.0 {
        return NoEffect;
      }
      var hasCoin := account.budgets[market].coin >= COIN_EPSILON;
      if o.side.BID? {
        return Opened;
      }
      return if hasCoin then Reduced else Closed;
    }

    method MergeSnapshot(known: Order, s: Order) returns (o: Order)
      ensures o == Merged(known, s)
    {
      o := known;
      if s.market != NO_ID {
        o := o.(market := s.market);
      }
      o := o.(side := s.side, otype := s.otype);
      if o.price.None? && s.price.Some? && o.otype.Limit? {
        o := o.(price := s.price);
      }
      if o.volume.None? && s.volume.Some? {
        o := o.(volume := s.volume);
      }
      o := o.(executedVolume := s.executedVolume, remainingVolume := s.remainingVolume, paidFee := s.paidFee);
      o := o.(executedFunds := s.executedFunds);
      o := o.(status := s.status);
      if o.identifier.None? && s.identifier.Some? {
        o := o.(identifier := s.identifier);
      }
    }

    method OnOrderSnapshot(s: Order)
      requires Valid()
      modifies Repr()
      ensures Valid() && Repr() <= old(Repr())
      ensures View() == SnapshotStep(old(View()), s)
      ensures account.budgets == old(account.budgets)[market := View().budget]
    {
      if s.market != NO_ID && s.market != market {
        return;
      }
      var found := store.Get(s.id);
      if found.None? {
        return;
      }
      var oldStatus := found.value.status;
      var o := MergeSnapshot(found.value, s);
      var updated := store.Update(o);
      if !updated {
        return;
      }
      if o.status.Terminal() {
        if o.status != oldStatus {
          CloseTerminal(o);
        }
        var _ := store.Erase(o.id);
      }
    }

    method CloseTerminal(o: Order)
      requires Valid()
      modifies Repr()
      ensures Valid() && Repr() <= old(Repr())
      ensures View() == CloseOrder(old(View()), o)
      ensures account.budgets == old(account.budgets)[market := View().budget]
    {
      if o.side.BID? && o.id == buyId {
        FinalizeBuy(o.id);
      }
      if o.side.ASK? && o.id == sellId {
        var markPrice := if mark > 0.0 then Some(mark) else None;
        account.FinalizeSellOrder(market, markPrice);
        sellId := NO_ID;
      }
      if o.identifier.Some? && o.identifier.value != NO_ID {
        var effect := ResolvePositionEffect(o);
        events := events + [StatusEvent(o.identifier.value, o.id, o.status, o.side,
                                        o.executedVolume, o.remainingVolume, o.executedFunds, effect)];
      }
    }

    method ReconcileFromSnapshot(s: Order) returns (settled: bool)
      requires Valid()
      modifies Repr()
      ensures Valid() && Repr() <= old(Repr())
      ensures (View(), settled) == ReconcileStep(old(View()), s)
      ensures account.budgets == old(account.budgets)[market := View().budget]
    {
      if s.market != NO_ID && s.market != market {
        return false;
      }
      var prev := store.Get(s.id);
      if prev.None? {
        return false;
      }
      var volume := Max(0.0, s.executedVolume - prev.value.executedVolume);
      var funds := Max(0.0, s.executedFunds - prev.value.executedFunds);
      var fee := Max(0.0, s.paidFee - prev.value.paidFee);
      if volume > 0.0 {
        if funds <= 0.0 {
          return false;
        }
        if s.side.BID? {
          if token == null || buyId != s.id {
            return false;
          }
          var fillPrice := funds / volume;
          if fillPrice <= 0.0 {
            return false;
          }
          account.FinalizeFillBuy(token, funds + fee, volume, fillPrice);
        } else {
          if sellId != s.id {
            return false;
          }
          account.FinalizeFillSell(market, volume, Max(0.0, funds - fee));
        }
      }
      assert SettleDelta(old(View()), s, prev.value) == Some(View());
      OnOrderSnapshot(s);
      return true;
    }

    method PollEvents() returns (out: seq<EngineEvent>)
      requires Valid()
      modifies this`events
      ensures Valid() && out == old(events)
      ensures View() == old(View()).(events := [])
    {
      out := [];
      while events != []
        invariant out + events == old(events)
        decreases |events|
      {
        out := out + [events[0]];
        events := events[1..];
      }
    }

    method SetMarkPrice(p: real)
      requires Valid()
      modifies this`mark
      ensures Valid() && View() == old(View()).(mark := p)
    {
      mark := p;
    }

    method ActivePendingIds() returns (buy: Id, sell: Id)
      requires Valid()
      ensures buy == View().buyId && sell == View().sellId
    {
      return buyId, sellId;
    }
  }
}
