/**
  Several markets, one AccountManager and one OrderStore. Every operation is one locked section; the
  workers' operations interleave in any order, and what a worker does next may depend on all it has
  seen. Each market still ends up exactly as if it had run alone.
*/
module Markets {
  import opened Domain
  import opened Account
  import opened OrderStore

  /** The locked sections a worker calls; the token is the one its engine holds. */
  datatype Op =
    | GetBudget
    | ReserveKrw(krw: real)
    | ReleaseToken
    | FillBuy(krw: real, coin: real, price: real)
    | FillSell(coin: real, krw: real)
    | FinalizeSell(mark: Option<real>)
    | FinalizeToken
    | GetOrder(id: Id)
    | UpdateOrder(order: Order)
    | UpsertOrder(order: Order)
    | EraseOrder(id: Id)

  datatype Result = BudgetSeen(budget: Option<Budget>) | OrderSeen(order: Option<Order>) | Done(ok: bool)

  /** Shared budgets, orders and token counter; each worker's token and what it has seen so far. */
  datatype System = System(
    budgets: map<Id, Budget>, orders: map<Id, Order>, nextTokenId: nat,
    tokens: map<Id, Token>, seen: map<Id, seq<Result>>)

  /** What a worker does next, given its market and everything it has seen. */
  type Program = (Id, seq<Result>) -> Op

  function Seen(s: System, m: Id): seq<Result> {
    if m in s.seen then s.seen[m] else []
  }

  function WithBudget(s: System, m: Id, b: Budget): System {
    s.(budgets := s.budgets[m := b])
  }

  /** One locked section executed for market m. A market without a budget, or a worker without a token, is a no-op. */
  function Execute(s: System, m: Id, op: Op): (System, Result) {
    match op
    case GetBudget => (s, BudgetSeen(if m in s.budgets then Some(s.budgets[m]) else None))
    case ReserveKrw(krw) =>
      if m in s.budgets && CanReserve(s.budgets[m], krw) && m !in s.tokens then
        (WithBudget(s, m, Reserved(s.budgets[m], krw)).(nextTokenId := s.nextTokenId + 1, tokens := s.tokens[m := Token(krw, 0.0)]),
         Done(true))
      else (s, Done(false))
    case ReleaseToken =>
      if m in s.tokens then
        ((if m in s.budgets then WithBudget(s, m, Released(s.budgets[m], s.tokens[m].Remaining())) else s)
         .(tokens := s.tokens - {m}), Done(true))
      else (s, Done(false))
    case FillBuy(krw, coin, price) =>
      if m in s.budgets && m in s.tokens then
        var (b, t) := BuyFilled(s.budgets[m], s.tokens[m], krw, coin, price);
        (WithBudget(s, m, b).(tokens := s.tokens[m := t]), Done(true))
      else (s, Done(false))
    case FillSell(coin, krw) =>
      if m in s.budgets then (WithBudget(s, m, SellFilled(s.budgets[m], coin, krw)), Done(true)) else (s, Done(false))
    case FinalizeSell(mark) =>
      if m in s.budgets then (WithBudget(s, m, SellFinalized(s.budgets[m], mark)), Done(true)) else (s, Done(false))
    case FinalizeToken =>
      if m in s.tokens then
        ((if m in s.budgets then WithBudget(s, m, OrderFinalized(s.budgets[m], s.tokens[m])) else s)
         .(tokens := s.tokens - {m}), Done(true))
      else (s, Done(false))
    case GetOrder(id) => (s, OrderSeen(if id in s.orders then Some(s.orders[id]) else None))
    case UpdateOrder(o) => if o.id in s.orders then (s.(orders := s.orders[o.id := o]), Done(true)) else (s, Done(false))
    case UpsertOrder(o) => if o.id == NO_ID then (s, Done(false)) else (s.(orders := s.orders[o.id := o]), Done(true))
    case EraseOrder(id) => (s.(orders := s.orders - {id}), Done(id in s.orders))
  }

  function Turn(s: System, p: Program, m: Id): System {
    var (s', r) := Execute(s, m, p(m, Seen(s, m)));
    s'.(seen := s'.seen[m := Seen(s, m) + [r]])
  }

  /** A schedule names, turn by turn, the market whose worker takes the lock. */
  function RunSchedule(s: System, p: Program, schedule: seq<Id>): System {
    if schedule == [] then s
    else Turn(RunSchedule(s, p, schedule[..|schedule| - 1]), p, schedule[|schedule| - 1])
  }

  function Alone(schedule: seq<Id>, m: Id): seq<Id> {
    if schedule == [] then []
    else
      var rest := Alone(schedule[..|schedule| - 1], m);
      if schedule[|schedule| - 1] == m then rest + [m] else rest
  }

  // ---------- what a market can see ----------

  predicate OwnOrder(op: Op, owner: Id -> Id, m: Id) {
    match op
    case GetOrder(id) => owner(id) == m
    case UpdateOrder(o) => owner(o.id) == m
    case UpsertOrder(o) => o.id == NO_ID || owner(o.id) == m
    case EraseOrder(id) => owner(id) == m
    case _ => true
  }

  /** Order ids belong to markets, and a worker asks the store only about its own. */
  ghost predicate OwnOrders(p: Program, owner: Id -> Id) {
    forall m, h :: OwnOrder(p(m, h), owner, m)
  }

  datatype MarketView = MarketView(
    budget: Option<Budget>, token: Option<Token>, orders: map<Id, Order>, seen: seq<Result>)

  function OwnedBy(orders: map<Id, Order>, owner: Id -> Id, m: Id): map<Id, Order> {
    map k | k in orders && owner(k) == m :: orders[k]
  }

  function ViewOf(s: System, owner: Id -> Id, m: Id): MarketView {
    MarketView(if m in s.budgets then Some(s.budgets[m]) else None, if m in s.tokens then Some(s.tokens[m]) else None,
               OwnedBy(s.orders, owner, m), Seen(s, m))
  }

  predicate OnStore(op: Op) {
    op.GetOrder? || op.UpdateOrder? || op.UpsertOrder? || op.EraseOrder?
  }

  /** What a worker's own lock section leaves in its view, and answers, depends on its view alone. */
  ghost predicate SameOutcome(s: System, s': System, op: Op, owner: Id -> Id, m: Id) {
    && Execute(s, m, op).1 == Execute(s', m, op).1
    && ViewOf(Execute(s, m, op).0, owner, m) == ViewOf(Execute(s', m, op).0, owner, m)
  }

  lemma AccountOpIsLocal(s: System, s': System, op: Op, owner: Id -> Id, m: Id)
    requires !OnStore(op) && ViewOf(s, owner, m) == ViewOf(s', owner, m)
    ensures SameOutcome(s, s', op, owner, m)
  {
    hide Reserved, Released, BuyFilled, SellFilled, SellFinalized, OrderFinalized, CanReserve, OwnedBy;
  }

  ghost predicate Agree(orders: map<Id, Order>, orders': map<Id, Order>, owner: Id -> Id, m: Id) {
    forall k :: owner(k) == m ==> (k in orders <==> k in orders') && (k in orders ==> orders[k] == orders'[k])
  }

  lemma AgreeIffOwnedEqual(orders: map<Id, Order>, orders': map<Id, Order>, owner: Id -> Id, m: Id)
    ensures Agree(orders, orders', owner, m) <==> OwnedBy(orders, owner, m) == OwnedBy(orders', owner, m)
  {
    var mine, mine' := OwnedBy(orders, owner, m), OwnedBy(orders', owner, m);
    assert forall k :: owner(k) == m ==> (k in mine <==> k in orders) && (k in mine' <==> k in orders');
    assert forall k :: k in mine ==> mine[k] == orders[k] && owner(k) == m;
    assert forall k :: k in mine' ==> mine'[k] == orders'[k] && owner(k) == m;
    if Agree(orders, orders', owner, m) {
      forall k
        ensures k in mine <==> k in mine'
        ensures k in mine ==> mine[k] == mine'[k]
      {
        var _ := owner(k);
      }
    } else if mine == mine' {
      assert false;
    }
  }

  lemma StoreOpIsLocal(s: System, s': System, op: Op, owner: Id -> Id, m: Id)
    requires OnStore(op) && OwnOrder(op, owner, m) && ViewOf(s, owner, m) == ViewOf(s', owner, m)
    ensures SameOutcome(s, s', op, owner, m)
  {
    hide OwnedBy, Agree, Execute;
    AgreeIffOwnedEqual(s.orders, s'.orders, owner, m);
    StoreOpAgrees(s, s', op, owner, m);
    StoreOpKeepsRest(s, op, m);
    StoreOpKeepsRest(s', op, m);
    AgreeIffOwnedEqual(Execute(s, m, op).0.orders, Execute(s', m, op).0.orders, owner, m);
  }

  lemma StoreOpAgrees(s: System, s': System, op: Op, owner: Id -> Id, m: Id)
    requires OnStore(op) && OwnOrder(op, owner, m) && Agree(s.orders, s'.orders, owner, m)
    ensures Execute(s, m, op).1 == Execute(s', m, op).1
    ensures Agree(Execute(s, m, op).0.orders, Execute(s', m, op).0.orders, owner, m)
  {
  }

  lemma StoreOpKeepsRest(s: System, op: Op, m: Id)
    requires OnStore(op)
    ensures Execute(s, m, op).0 == s.(orders := Execute(s, m, op).0.orders)
  {
  }

  lemma OthersOpUnseen(s: System, op: Op, owner: Id -> Id, m: Id, other: Id)
    requires OwnOrder(op, owner, other) && other != m
    ensures ViewOf(Execute(s, other, op).0, owner, m) == ViewOf(s, owner, m)
  {
    hide Reserved, Released, BuyFilled, SellFilled, SellFinalized, OrderFinalized, CanReserve, OwnedBy;
    if OnStore(op) {
      AgreeIffOwnedEqual(Execute(s, other, op).0.orders, s.orders, owner, m);
    }
  }

  lemma OthersTurnUnseen(s: System, p: Program, owner: Id -> Id, m: Id, other: Id)
    requires OwnOrders(p, owner) && other != m
    ensures ViewOf(Turn(s, p, other), owner, m) == ViewOf(s, owner, m)
  {
    hide Execute, OwnedBy, OwnOrder;
    assert OwnOrder(p(other, Seen(s, other)), owner, other);
    OthersOpUnseen(s, p(other, Seen(s, other)), owner, m, other);
    SeenIsPrivate(s, other, p(other, Seen(s, other)));
  }

  lemma SeenIsPrivate(s: System, m: Id, op: Op)
    ensures Execute(s, m, op).0.seen == s.seen
  {
  }

  /** A turn depends on nothing but the market's own view: not on the token counter, not on other markets. */
  lemma OwnTurnDependsOnView(s: System, s': System, p: Program, owner: Id -> Id, m: Id)
    requires OwnOrders(p, owner) && ViewOf(s, owner, m) == ViewOf(s', owner, m)
    ensures ViewOf(Turn(s, p, m), owner, m) == ViewOf(Turn(s', p, m), owner, m)
  {
    hide Execute, OwnedBy, OwnOrder;
    var op := p(m, Seen(s, m));
    assert OwnOrder(op, owner, m);
    if OnStore(op) {
      StoreOpIsLocal(s, s', op, owner, m);
    } else {
      AccountOpIsLocal(s, s', op, owner, m);
    }
  }

  /**
    Interleaving independence, for every schedule and every program: budget, token, live orders and
    everything the worker saw are those of the market's own turns run alone.
  */
  lemma {:induction false} InterleavingIsIndependent(s: System, p: Program, owner: Id -> Id, m: Id, schedule: seq<Id>)
    requires OwnOrders(p, owner)
    ensures ViewOf(RunSchedule(s, p, schedule), owner, m) == ViewOf(RunSchedule(s, p, Alone(schedule, m)), owner, m)
  {
    hide Turn, ViewOf;
    if schedule != [] {
      var earlier, last := schedule[..|schedule| - 1], schedule[|schedule| - 1];
      InterleavingIsIndependent(s, p, owner, m, earlier);
      if last == m {
        assert (Alone(earlier, m) + [m])[..|Alone(earlier, m)|] == Alone(earlier, m);
        OwnTurnDependsOnView(RunSchedule(s, p, earlier), RunSchedule(s, p, Alone(earlier, m)), p, owner, m);
      } else {
        OthersTurnUnseen(RunSchedule(s, p, earlier), p, owner, m, last);
      }
    }
  }
}
