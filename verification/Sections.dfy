/**
  Engine operations as locked sections. Each operation takes the account's and the store's locks a few
  times, and other workers may run between any two of them. Written out section by section, whole runs of
  all workers interleave at that grain, and each market's books still end as its own run leaves them.
*/
module Sections {
  import opened Domain
  import opened Account
  import opened OrderStore
  import opened TradeDedupe
  import opened Engine
  import opened Lifecycle
  import opened Worker
  import opened Lockstep
  import opened Operations
  import Markets

  type Section = Markets.Op

  // ---------- the sections of each operation ----------

  function SubmitSections(e: EngineState, req: OrderRequest, reply: Option<Id>): seq<Section> {
    if !ValidRequest(req) || req.market != e.market || e.token.Some? || e.sellId != NO_ID then []
    else
      var amount := ReserveAmount(req);
      (if req.side.BID? then [Markets.ReserveKrw(amount)] else [])
      + if req.side.BID? && !CanReserve(e.budget, amount) then []
        else if reply.Some? then [Markets.UpsertOrder(NewOrder(req, reply.value))]
        else if req.side.BID? then [Markets.ReleaseToken]
        else []
  }

  function TradeSections(e: EngineState, t: MyTrade): seq<Section> {
    if t.market != e.market || Key(t) in e.dedupe.seen then []
    else
      [Markets.GetOrder(t.orderId)]
      + if t.orderId !in e.orders then []
        else if t.side.ASK? then [Markets.FillSell(t.volume, Max(0.0, t.funds - t.fee))]
        else if e.token.Some? && e.buyId == t.orderId then [Markets.FillBuy(t.funds + t.fee, t.volume, t.price)]
        else []
  }

  function CloseSections(e: EngineState, o: Order): seq<Section> {
    (if o.side.BID? && o.id == e.buyId && e.token.Some? && e.buyId != NO_ID then [Markets.FinalizeToken] else [])
    + (if o.side.ASK? && o.id == e.sellId then [Markets.FinalizeSell(MarkPrice(e))] else [])
    + if Named(o.identifier) && o.executedVolume > 0.0 then [Markets.GetBudget] else []
  }

  function SnapshotSections(e: EngineState, s: Order): seq<Section> {
    if s.market != NO_ID && s.market != e.market then []
    else if s.id !in e.orders then [Markets.GetOrder(s.id)]
    else
      var known := e.orders[s.id];
      var o := Merged(known, s);
      [Markets.GetOrder(s.id), Markets.UpdateOrder(o)]
      + if o.id !in e.orders || !o.status.Terminal() then []
        else (if o.status != known.status then CloseSections(e, o) else []) + [Markets.EraseOrder(o.id)]
  }

  function DeltaSections(e: EngineState, s: Order, known: Order): seq<Section> {
    var volume := Max(0.0, s.executedVolume - known.executedVolume);
    var funds := Max(0.0, s.executedFunds - known.executedFunds);
    var fee := Max(0.0, s.paidFee - known.paidFee);
    if volume <= 0.0 || SettleDelta(e, s, known).None? then []
    else if s.side.BID? then [Markets.FillBuy(funds + fee, volume, funds / volume)]
    else [Markets.FillSell(volume, Max(0.0, funds - fee))]
  }

  function ReconcileSections(e: EngineState, s: Order): seq<Section> {
    if s.market != NO_ID && s.market != e.market then []
    else if s.id !in e.orders then [Markets.GetOrder(s.id)]
    else
      match SettleDelta(e, s, e.orders[s.id])
      case None => [Markets.GetOrder(s.id)]
      case Some(e') => [Markets.GetOrder(s.id)] + DeltaSections(e, s, e.orders[s.id]) + SnapshotSections(e', s)
  }

  /** The locked sections of one operation, in order. */
  function SectionsOf(e: EngineState, op: Op): seq<Section> {
    match op
    case SubmitOp(req, reply) => SubmitSections(e, req, reply)
    case TradeOp(t) => TradeSections(e, t)
    case SnapshotOp(s) => SnapshotSections(e, s)
    case ReconcileOp(s) => ReconcileSections(e, s)
    case PollOp => []
    case MarkOp(_) => []
  }

  function Plan(e: EngineState, ops: seq<Op>): seq<Section> {
    if ops == [] then []
    else
      var earlier := ops[..|ops| - 1];
      Plan(e, earlier) + SectionsOf(RunOps(e, earlier), ops[|ops| - 1])
  }

  // ---------- what the sections do ----------

  /** What of an engine's state is behind the locks. */
  datatype Books = Books(market: Id, budget: Budget, orders: map<Id, Order>, token: Option<Token>)

  function BooksOf(e: EngineState): Books {
    Books(e.market, e.budget, e.orders, e.token)
  }

  function BooksIn(s: Markets.System, m: Id): Books
    requires m in s.budgets
  {
    Books(m, s.budgets[m], s.orders, if m in s.tokens then Some(s.tokens[m]) else None)
  }

  /** One section on the books. */
  function Done(b: Books, x: Section): Books {
    match x
    case ReserveKrw(krw) =>
      if CanReserve(b.budget, krw) && b.token.None?
      then b.(budget := Reserved(b.budget, krw), token := Some(Token(krw, 0.0)))
      else b
    case ReleaseToken =>
      if b.token.None? then b
      else b.(budget := Released(b.budget, b.token.value.Remaining()), token := None)
    case FillBuy(krw, coin, price) =>
      if b.token.None? then b
      else
        var (b', t) := BuyFilled(b.budget, b.token.value, krw, coin, price);
        b.(budget := b', token := Some(t))
    case FillSell(coin, krw) => b.(budget := SellFilled(b.budget, coin, krw))
    case FinalizeSell(mark) => b.(budget := SellFinalized(b.budget, mark))
    case FinalizeToken =>
      if b.token.None? then b else b.(budget := OrderFinalized(b.budget, b.token.value), token := None)
    case UpdateOrder(o) => if o.id in b.orders then b.(orders := b.orders[o.id := o]) else b
    case UpsertOrder(o) => b.(orders := Upserted(b.orders, o))
    case EraseOrder(id) => b.(orders := b.orders - {id})
    case GetBudget => b
    case GetOrder(_) => b
  }

  function AllDone(b: Books, xs: seq<Section>): Books
    decreases |xs|
  {
    if xs == [] then b else AllDone(Done(b, xs[0]), xs[1..])
  }

  lemma {:induction false} DoneAppend(b: Books, xs: seq<Section>, ys: seq<Section>)
    ensures AllDone(b, xs + ys) == AllDone(AllDone(b, xs), ys)
    decreases |xs|
  {
    hide Done;
    if xs == [] {
      assert xs + ys == ys;
    } else {
      assert (xs + ys)[1..] == xs[1..] + ys;
      DoneAppend(Done(b, xs[0]), xs[1..], ys);
    }
  }

  lemma OneDone(b: Books, x: Section)
    ensures AllDone(b, [x]) == Done(b, x)
  {
  }

  /** The books are all a section sees, and all it changes: nothing of other markets, no counter. */
  lemma SectionIsDone(s: Markets.System, m: Id, x: Section)
    requires m in s.budgets
    ensures
      var s' := Markets.Execute(s, m, x).0;
      && s'.budgets.Keys == s.budgets.Keys && BooksIn(s', m) == Done(BooksIn(s, m), x)
  {
    hide Reserved, Released, BuyFilled, SellFilled, SellFinalized, OrderFinalized, CanReserve;
  }

  // ---------- an operation is its sections ----------

  lemma SubmitIsSections(e: EngineState, req: OrderRequest, reply: Option<Id>)
    ensures AllDone(BooksOf(e), SubmitSections(e, req, reply)) == BooksOf(SubmitStep(e, req, reply).0)
  {
    hide ValidRequest, ReserveAmount, CanReserve, Reserved, Released, NewOrder;
    if SubmitSections(e, req, reply) != [] {
      var xs := SubmitSections(e, req, reply);
      assert xs == [xs[0]] + xs[1..];
      DoneAppend(BooksOf(e), [xs[0]], xs[1..]);
      OneDone(BooksOf(e), xs[0]);
      if |xs| == 2 {
        OneDone(Done(BooksOf(e), xs[0]), xs[1]);
      }
    }
  }

  lemma TradeIsSections(e: EngineState, t: MyTrade)
    ensures AllDone(BooksOf(e), TradeSections(e, t)) == BooksOf(TradeStep(e, t))
  {
    hide BuyFilled, SellFilled, Key, Mark, TradeEvents;
    var xs := TradeSections(e, t);
    if xs != [] {
      DoneAppend(BooksOf(e), [xs[0]], xs[1..]);
      assert xs == [xs[0]] + xs[1..];
      OneDone(BooksOf(e), xs[0]);
      if |xs| == 2 {
        OneDone(BooksOf(e), xs[1]);
      }
    }
  }

  lemma TokenOrNot(b: Books, take: bool, x: Section)
    ensures AllDone(b, if take then [x] else []) == if take then Done(b, x) else b
  {
    hide Done;
  }

  lemma CloseIsSections(e: EngineState, o: Order)
    ensures AllDone(BooksOf(e), CloseSections(e, o)) == BooksOf(CloseOrder(e, o))
  {
    hide OrderFinalized, SellFinalized, StatusEvents, AllDone;
    var token := o.side.BID? && o.id == e.buyId && e.token.Some? && e.buyId != NO_ID;
    var coin := o.side.ASK? && o.id == e.sellId;
    var report := Named(o.identifier) && o.executedVolume > 0.0;
    var xs := if token then [Markets.FinalizeToken] else [];
    var ys := if coin then [Markets.FinalizeSell(MarkPrice(e))] else [];
    var zs := if report then [Markets.GetBudget] else [];
    var b := BooksOf(e);
    assert CloseSections(e, o) == xs + ys + zs;
    DoneAppend(b, xs + ys, zs);
    DoneAppend(b, xs, ys);
    TokenOrNot(b, token, Markets.FinalizeToken);
    var b1 := AllDone(b, xs);
    TokenOrNot(b1, coin, Markets.FinalizeSell(MarkPrice(e)));
    TokenOrNot(AllDone(b1, ys), report, Markets.GetBudget);
  }

  /** Closing neither reads nor writes the store. */
  lemma CloseOnBooks(e: EngineState, o: Order, orders: map<Id, Order>)
    ensures CloseSections(e.(orders := orders), o) == CloseSections(e, o)
    ensures CloseOrder(e, o).orders == e.orders && CloseOrder(e, o).market == e.market
  {
    hide OrderFinalized, SellFinalized, StatusEvents;
  }

  lemma SnapshotIsSections(e: EngineState, s: Order)
    ensures AllDone(BooksOf(e), SnapshotSections(e, s)) == BooksOf(SnapshotStep(e, s))
  {
    hide CloseOrder, CloseSections, Merged, AllDone;
    var b := BooksOf(e);
    NothingDone(b);
    OneDone(b, Markets.GetOrder(s.id));
    if s.id in e.orders && (s.market == NO_ID || s.market == e.market) {
      var known := e.orders[s.id];
      var o := Merged(known, s);
      var read, write := [Markets.GetOrder(s.id)], [Markets.UpdateOrder(o)];
      assert read + write == [Markets.GetOrder(s.id), Markets.UpdateOrder(o)];
      DoneAppend(b, read, write);
      OneDone(b, Markets.UpdateOrder(o));
      if o.id in e.orders && o.status.Terminal() {
        var e1 := e.(orders := e.orders[o.id := o]);
        var close := if o.status != known.status then CloseSections(e, o) else [];
        DoneAppend(b, read + write, close + [Markets.EraseOrder(o.id)]);
        DoneAppend(BooksOf(e1), close, [Markets.EraseOrder(o.id)]);
        CloseOnBooks(e, o, e1.orders);
        CloseOnBooks(e1, o, e1.orders);
        CloseIsSections(e1, o);
        NothingDone(BooksOf(e1));
        OneDone(AllDone(BooksOf(e1), close), Markets.EraseOrder(o.id));
      } else {
        assert SnapshotSections(e, s) == read + write;
      }
    }
  }

  lemma NothingDone(b: Books)
    ensures AllDone(b, []) == b
  {
  }

  lemma DeltaIsSections(e: EngineState, s: Order, known: Order)
    requires SettleDelta(e, s, known).Some?
    ensures AllDone(BooksOf(e), DeltaSections(e, s, known)) == BooksOf(SettleDelta(e, s, known).value)
  {
    hide BuyFilled, SellFilled;
    var xs := DeltaSections(e, s, known);
    if xs != [] {
      assert xs == [xs[0]];
      OneDone(BooksOf(e), xs[0]);
    }
  }

  lemma ReconcileIsSections(e: EngineState, s: Order)
    ensures AllDone(BooksOf(e), ReconcileSections(e, s)) == BooksOf(ReconcileStep(e, s).0)
  {
    hide SettleDelta, DeltaSections, SnapshotSections, SnapshotStep, AllDone;
    var b, read := BooksOf(e), [Markets.GetOrder(s.id)];
    NothingDone(b);
    OneDone(b, Markets.GetOrder(s.id));
    if s.id in e.orders && (s.market == NO_ID || s.market == e.market) {
      var known := e.orders[s.id];
      if SettleDelta(e, s, known).Some? {
        var e' := SettleDelta(e, s, known).value;
        DoneAppend(b, read + DeltaSections(e, s, known), SnapshotSections(e', s));
        DoneAppend(b, read, DeltaSections(e, s, known));
        DeltaIsSections(e, s, known);
        SnapshotIsSections(e', s);
      }
    }
  }

  /** Executed one after another, an operation's sections do to the books what the operation does. */
  lemma OpIsSections(e: EngineState, op: Op)
    ensures AllDone(BooksOf(e), SectionsOf(e, op)) == BooksOf(Apply(e, op))
  {
    hide AllDone, SubmitStep, TradeStep, SnapshotStep, ReconcileStep;
    hide SubmitSections, TradeSections, SnapshotSections, ReconcileSections;
    match op {
      case SubmitOp(req, reply) => SubmitIsSections(e, req, reply);
      case TradeOp(t) => TradeIsSections(e, t);
      case SnapshotOp(s) => SnapshotIsSections(e, s);
      case ReconcileOp(s) => ReconcileIsSections(e, s);
      case PollOp => NothingDone(BooksOf(e));
      case MarkOp(_) => NothingDone(BooksOf(e));
    }
  }

  lemma {:induction false} RunIsPlan(e: EngineState, ops: seq<Op>)
    ensures AllDone(BooksOf(e), Plan(e, ops)) == BooksOf(RunOps(e, ops))
  {
    hide AllDone, SectionsOf, Apply;
    if ops == [] {
      NothingDone(BooksOf(e));
    } else {
      var earlier, last := ops[..|ops| - 1], ops[|ops| - 1];
      RunIsPlan(e, earlier);
      DoneAppend(BooksOf(e), Plan(e, earlier), SectionsOf(RunOps(e, earlier), last));
      OpIsSections(RunOps(e, earlier), last);
    }
  }

  // ---------- whose orders the sections touch ----------

  /** Every order id an operation names belongs to the market. */
  predicate NamesOwn(op: Op, owner: Id -> Id, m: Id) {
    match op
    case SubmitOp(_, reply) => reply.Some? ==> owner(reply.value) == m
    case TradeOp(t) => t.market == m ==> owner(t.orderId) == m
    case SnapshotOp(s) => s.market == NO_ID || s.market == m ==> owner(s.id) == m
    case ReconcileOp(s) => s.market == NO_ID || s.market == m ==> owner(s.id) == m
    case _ => true
  }

  ghost predicate AllOwn(xs: seq<Section>, owner: Id -> Id, m: Id) {
    forall i :: 0 <= i < |xs| ==> Markets.OwnOrder(xs[i], owner, m)
  }

  lemma SnapshotSectionsOwn(e: EngineState, s: Order, owner: Id -> Id)
    requires KeyedById(e.orders) && NamesOwn(SnapshotOp(s), owner, e.market)
    ensures AllOwn(SnapshotSections(e, s), owner, e.market)
  {
    hide MarkPrice, Named;
  }

  lemma SectionsOwn(e: EngineState, op: Op, owner: Id -> Id)
    requires KeyedById(e.orders) && NamesOwn(op, owner, e.market)
    ensures AllOwn(SectionsOf(e, op), owner, e.market)
  {
    hide SnapshotSections, SettleDelta, ValidRequest, CanReserve, ReserveAmount, Key;
    match op {
      case SnapshotOp(s) => SnapshotSectionsOwn(e, s, owner);
      case ReconcileOp(s) =>
        if s.id in e.orders && SettleDelta(e, s, e.orders[s.id]).Some? {
          DeltaKeepsStore(e, s, e.orders[s.id]);
          SnapshotSectionsOwn(SettleDelta(e, s, e.orders[s.id]).value, s, owner);
        }
      case _ =>
    }
  }

  lemma DeltaKeepsStore(e: EngineState, s: Order, known: Order)
    requires SettleDelta(e, s, known).Some?
    ensures SettleDelta(e, s, known).value.orders == e.orders && SettleDelta(e, s, known).value.market == e.market
  {
    hide BuyFilled, SellFilled;
  }

  ghost predicate AllNameOwn(ops: seq<Op>, owner: Id -> Id, m: Id) {
    forall i :: 0 <= i < |ops| ==> NamesOwn(ops[i], owner, m)
  }

  lemma KeyedInMarket(e: EngineState, ops: seq<Op>)
    requires Inv(e) && AdmissibleRun(e, ops)
    ensures KeyedById(RunOps(e, ops).orders) && RunOps(e, ops).market == e.market
  {
    RunKeepsInv(e, ops);
    RunKeepsOthers(e, ops);
  }

  lemma {:induction false} PlanOwn(e: EngineState, ops: seq<Op>, owner: Id -> Id)
    requires Inv(e) && AdmissibleRun(e, ops) && AllNameOwn(ops, owner, e.market)
    ensures AllOwn(Plan(e, ops), owner, e.market)
  {
    hide Inv, Admissible, Apply, SectionsOf, NamesOwn;
    if ops != [] {
      var earlier, last := ops[..|ops| - 1], ops[|ops| - 1];
      PlanOwn(e, earlier, owner);
      KeyedInMarket(e, earlier);
      SectionsOwn(RunOps(e, earlier), last, owner);
    }
  }

  // ---------- all markets, section by section ----------

  /** Each worker takes its planned sections one by one; when they are used up it only looks. */
  function Following(plans: map<Id, seq<Section>>): Markets.Program {
    (m, h) => if m in plans && |h| < |plans[m]| then plans[m][|h|] else Markets.GetBudget
  }

  lemma FollowingIsOwn(plans: map<Id, seq<Section>>, owner: Id -> Id)
    requires forall m :: m in plans ==> AllOwn(plans[m], owner, m)
    ensures Markets.OwnOrders(Following(plans), owner)
  {
  }

  lemma {:induction false} AloneIsOne(schedule: seq<Id>, m: Id)
    ensures forall i :: 0 <= i < |Markets.Alone(schedule, m)| ==> Markets.Alone(schedule, m)[i] == m
  {
    if schedule != [] {
      AloneIsOne(schedule[..|schedule| - 1], m);
    }
  }

  lemma TurnTakesSection(s: Markets.System, plans: map<Id, seq<Section>>, m: Id)
    requires m in plans && m in s.budgets
    ensures
      var h := |Markets.Seen(s, m)|;
      var s' := Markets.Turn(s, Following(plans), m);
      && m in s'.budgets && |Markets.Seen(s', m)| == h + 1
      && BooksIn(s', m) == if h < |plans[m]| then Done(BooksIn(s, m), plans[m][h]) else BooksIn(s, m)
  {
    hide Markets.Execute, Done;
    var h := Markets.Seen(s, m);
    var x := if |h| < |plans[m]| then plans[m][|h|] else Markets.GetBudget;
    SectionIsDone(s, m, x);
    assert Done(BooksIn(s, m), Markets.GetBudget) == BooksIn(s, m) by {
      LookingDoesNothing(BooksIn(s, m));
    }
  }

  lemma LookingDoesNothing(b: Books)
    ensures Done(b, Markets.GetBudget) == b
  {
  }

  lemma DoneNext(b: Books, xs: seq<Section>, n: nat)
    requires n < |xs|
    ensures AllDone(b, xs[..n + 1]) == Done(AllDone(b, xs[..n]), xs[n])
  {
    hide Done, AllDone;
    assert xs[..n + 1] == xs[..n] + [xs[n]];
    DoneAppend(b, xs[..n], [xs[n]]);
    OneDone(AllDone(b, xs[..n]), xs[n]);
  }

  /** n turns in a row take the first n sections of the plan. */
  lemma {:induction false} TurnsTakeSections(s: Markets.System, plans: map<Id, seq<Section>>, m: Id, turns: seq<Id>)
    requires m in plans && m in s.budgets && Markets.Seen(s, m) == []
    requires forall i :: 0 <= i < |turns| ==> turns[i] == m
    ensures
      var s', plan := Markets.RunSchedule(s, Following(plans), turns), plans[m];
      && m in s'.budgets && |Markets.Seen(s', m)| == |turns|
      && BooksIn(s', m) == AllDone(BooksIn(s, m), if |turns| < |plan| then plan[..|turns|] else plan)
  {
    hide Markets.Turn, AllDone, Done, BooksIn, Following;
    if turns == [] {
      NothingDone(BooksIn(s, m));
      assert plans[m][..0] == [];
      assert |plans[m]| == 0 ==> plans[m] == [];
    } else {
      var n := |turns| - 1;
      TurnsTakeSections(s, plans, m, turns[..n]);
      TurnTakesSection(Markets.RunSchedule(s, Following(plans), turns[..n]), plans, m);
      assert plans[m][..|plans[m]|] == plans[m];
      if n < |plans[m]| {
        DoneNext(BooksIn(s, m), plans[m], n);
      }
    }
  }

  /** Market m's budget, token and own orders in the system are those of the books. */
  ghost predicate Shows(v: Markets.MarketView, b: Books, owner: Id -> Id) {
    v.budget == Some(b.budget) && v.token == b.token && v.orders == Markets.OwnedBy(b.orders, owner, b.market)
  }

  lemma BooksShow(s: Markets.System, m: Id, owner: Id -> Id)
    requires m in s.budgets
    ensures Shows(Markets.ViewOf(s, owner, m), BooksIn(s, m), owner)
  {
  }

  /**
    However the sections of all markets interleave, once market m has taken all of its own its budget,
    its token and its orders are those its plan leaves, executed alone.
  */
  lemma PlansInterleave(s: Markets.System, plans: map<Id, seq<Section>>, owner: Id -> Id, m: Id, schedule: seq<Id>)
    requires m in plans && m in s.budgets && Markets.Seen(s, m) == []
    requires forall k :: k in plans ==> AllOwn(plans[k], owner, k)
    requires |Markets.Alone(schedule, m)| >= |plans[m]|
    ensures Shows(Markets.ViewOf(Markets.RunSchedule(s, Following(plans), schedule), owner, m),
                  AllDone(BooksIn(s, m), plans[m]), owner)
  {
    var p, turns := Following(plans), Markets.Alone(schedule, m);
    FollowingIsOwn(plans, owner);
    AloneIsOne(schedule, m);
    hide *;
    TurnsTakeSections(s, plans, m, turns);
    assert |turns| == |plans[m]| ==> plans[m][..|turns|] == plans[m];
    Markets.InterleavingIsIndependent(s, p, owner, m, schedule);
    BooksShow(Markets.RunSchedule(s, p, turns), m, owner);
  }

  // ---------- all workers, section by section ----------

  /** A worker's run, and the sections it takes. */
  datatype Job = Job(worker: WorkerState, steps: seq<Step>)

  function SectionsOfJob(j: Job): seq<Section> {
    Plan(j.worker.engine, RunOpsOf(j.worker, j.steps))
  }

  function AllSections(jobs: map<Id, Job>): map<Id, seq<Section>> {
    map m | m in jobs :: SectionsOfJob(jobs[m])
  }

  /** A routed run of market m's worker, all of whose messages and replies name orders of the market. */
  ghost predicate OwnJob(j: Job, owner: Id -> Id, m: Id) {
    && WorkerInv(j.worker) && RoutedRun(j.worker, j.steps) && j.worker.engine.market == m
    && AllNameOwn(RunOpsOf(j.worker, j.steps), owner, m)
  }

  lemma JobOwn(j: Job, owner: Id -> Id, m: Id)
    requires OwnJob(j, owner, m)
    ensures AllOwn(SectionsOfJob(j), owner, m)
    ensures AllDone(BooksOf(j.worker.engine), SectionsOfJob(j)) == BooksOf(Run(j.worker, j.steps).engine)
  {
    var e, ops := j.worker.engine, RunOpsOf(j.worker, j.steps);
    assert Inv(e);
    RunIsOps(j.worker, j.steps);
    hide Inv, AllDone, Plan, AllOwn, InStep, RoutedRun;
    PlanOwn(e, ops, owner);
    RunIsPlan(e, ops);
  }

  /**
    Whole runs of all workers, interleaved at every lock: whatever the schedule, a market that has taken
    all its sections has the budget, the token and the orders of its worker's run alone.
  */
  lemma WorkersInterleave(s: Markets.System, jobs: map<Id, Job>, owner: Id -> Id, m: Id, schedule: seq<Id>)
    requires m in jobs && m in s.budgets && Markets.Seen(s, m) == []
    requires forall k :: k in jobs ==> OwnJob(jobs[k], owner, k)
    requires BooksIn(s, m) == BooksOf(jobs[m].worker.engine)
    requires |Markets.Alone(schedule, m)| >= |SectionsOfJob(jobs[m])|
    ensures Shows(Markets.ViewOf(Markets.RunSchedule(s, Following(AllSections(jobs)), schedule), owner, m),
                  BooksOf(Run(jobs[m].worker, jobs[m].steps).engine), owner)
  {
    hide OwnJob, AllOwn, SectionsOfJob, AllDone, Shows, BooksIn, BooksOf, Run;
    forall k | k in jobs
      ensures AllOwn(AllSections(jobs)[k], owner, k)
    {
      JobOwn(jobs[k], owner, k);
    }
    JobOwn(jobs[m], owner, m);
    PlansInterleave(s, AllSections(jobs), owner, m, schedule);
  }
}
