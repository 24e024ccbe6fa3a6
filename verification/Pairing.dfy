/**
  streamlit/app.py, pair_trades: one pass over a market's buys and sells, both sorted by time, gives
  each buy the sells of its cycle.
*/
module Pairing {
  import opened Domain

  datatype Booked = Booked(ts: int, funds: real, fee: real)

  datatype Cycle = Cycle(
    openTs: int, closeTs: int, cost: real, revenue: real, pnl: real, pnlPct: real, asks: nat)

  ghost predicate Sorted(xs: seq<Booked>) {
    forall i, j :: 0 <= i < j < |xs| ==> xs[i].ts <= xs[j].ts
  }

  function Net(a: Booked): real {
    a.funds - a.fee
  }

  function Revenue(asks: seq<Booked>): real {
    if asks == [] then 0.0 else Revenue(asks[..|asks| - 1]) + Net(asks[|asks| - 1])
  }

  // ---------- the two pointers ----------

  /** The next buy's time as the loop uses it: a time of zero counts as no next buy. */
  function Bound(bids: seq<Booked>, i: nat): Option<int>
    requires i < |bids|
  {
    if i + 1 < |bids| && bids[i + 1].ts != 0 then Some(bids[i + 1].ts) else None
  }

  /** Past the sells that are not after time t. */
  function Skip(asks: seq<Booked>, t: int, k: nat): (r: nat)
    requires k <= |asks|
    ensures k <= r <= |asks|
    ensures forall j :: k <= j < r ==> asks[j].ts <= t
    ensures r < |asks| ==> asks[r].ts > t
    decreases |asks| - k
  {
    if k < |asks| && asks[k].ts <= t then Skip(asks, t, k + 1) else k
  }

  /** Past the sells before the bound. */
  function Stop(asks: seq<Booked>, bound: Option<int>, k: nat): (r: nat)
    requires k <= |asks|
    ensures k <= r <= |asks|
    ensures forall j :: k <= j < r ==> bound.Some? ==> asks[j].ts < bound.value
    ensures r < |asks| ==> bound.Some? && asks[r].ts >= bound.value
    decreases |asks| - k
  {
    if k < |asks| && (bound.None? || asks[k].ts < bound.value) then Stop(asks, bound, k + 1) else k
  }

  datatype Slice = Slice(lo: nat, hi: nat)

  /** The sells given to each buy from i on, when the first k are used up. */
  function Slices(bids: seq<Booked>, asks: seq<Booked>, i: nat, k: nat): (r: seq<Slice>)
    requires i <= |bids| && k <= |asks|
    ensures |r| == |bids| - i
    ensures forall n :: 0 <= n < |r| ==> k <= r[n].lo <= r[n].hi <= |asks|
    decreases |bids| - i
  {
    if i == |bids| then []
    else
      var lo := Skip(asks, bids[i].ts, k);
      var hi := Stop(asks, Bound(bids, i), lo);
      [Slice(lo, hi)] + Slices(bids, asks, i + 1, hi)
  }

  function CycleOf(bid: Booked, matched: seq<Booked>): Cycle
    requires matched != []
  {
    var cost, revenue := bid.funds + bid.fee, Revenue(matched);
    Cycle(bid.ts, matched[|matched| - 1].ts, cost, revenue, revenue - cost,
          if cost > 0.0 then (revenue - cost) / cost else 0.0, |matched|)
  }

  /** One row per buy, from i on, whose slice holds a sell. */
  function RowsOf(bids: seq<Booked>, asks: seq<Booked>, i: nat, slices: seq<Slice>): seq<Cycle>
    requires i + |slices| == |bids| && forall n :: 0 <= n < |slices| ==> slices[n].lo <= slices[n].hi <= |asks|
    decreases |slices|
  {
    if slices == [] then []
    else
      (if slices[0].lo < slices[0].hi then [CycleOf(bids[i], asks[slices[0].lo..slices[0].hi])] else [])
      + RowsOf(bids, asks, i + 1, slices[1..])
  }

  function Cycles(bids: seq<Booked>, asks: seq<Booked>, i: nat, k: nat): seq<Cycle>
    requires i <= |bids| && k <= |asks|
  {
    RowsOf(bids, asks, i, Slices(bids, asks, i, k))
  }

  // ---------- what each buy should get ----------

  /** A sell belongs to buy i: after it, and before the next buy if there is one. */
  predicate InWindow(bids: seq<Booked>, i: nat, a: Booked)
    requires i < |bids|
  {
    bids[i].ts < a.ts && (i + 1 < |bids| ==> a.ts < bids[i + 1].ts)
  }

  /** The sells of buy i's window. */
  function WindowAsks(bids: seq<Booked>, i: nat, asks: seq<Booked>): seq<Booked>
    requires i < |bids|
  {
    if asks == [] then []
    else
      WindowAsks(bids, i, asks[..|asks| - 1])
      + if InWindow(bids, i, asks[|asks| - 1]) then [asks[|asks| - 1]] else []
  }

  /** One row per buy, from i on, with a sell in its window. */
  function WindowRows(bids: seq<Booked>, asks: seq<Booked>, i: nat): seq<Cycle>
    requires i <= |bids|
    decreases |bids| - i
  {
    if i == |bids| then []
    else
      var matched := WindowAsks(bids, i, asks);
      (if matched != [] then [CycleOf(bids[i], matched)] else []) + WindowRows(bids, asks, i + 1)
  }

  /** Each buy's slice holds exactly the sells of its window. */
  ghost predicate Exact(bids: seq<Booked>, asks: seq<Booked>, slices: seq<Slice>)
    requires |slices| == |bids|
  {
    forall i, j :: 0 <= i < |bids| && 0 <= j < |asks| ==>
      (slices[i].lo <= j < slices[i].hi <==> InWindow(bids, i, asks[j]))
  }

  /** No sell at or after a next buy at time zero: the only inputs on which taking zero for "none" shows. */
  ghost predicate ZeroHarmless(bids: seq<Booked>, asks: seq<Booked>) {
    forall i, j :: 0 <= i < |bids| - 1 && 0 <= j < |asks| && bids[i + 1].ts == 0 && asks[j].ts > bids[i].ts ==>
      asks[j].ts < 0
  }

  // ---------- the loops ----------

  /** The inner loop: skips, takes and stops in a single pass. */
  method TakeAsks(bidTs: int, bound: Option<int>, asks: seq<Booked>, start: nat) returns (matched: seq<Booked>,
                  next: nat)
    requires Sorted(asks) && start <= |asks|
    ensures next == Stop(asks, bound, Skip(asks, bidTs, start))
    ensures matched == asks[Skip(asks, bidTs, start)..next]
  {
    hide Skip, Stop;
    matched, next := [], start;
    ghost var lo := Skip(asks, bidTs, start);
    ghost var hi := Stop(asks, bound, lo);
    while next < |asks|
      invariant start <= next <= hi
      invariant matched == if next <= lo then [] else asks[lo..next]
    {
      if asks[next].ts <= bidTs {
        next := next + 1;
        continue;
      }
      if bound.Some? && asks[next].ts >= bound.value {
        break;
      }
      matched := matched + [asks[next]];
      next := next + 1;
    }
  }

  lemma CyclesNext(bids: seq<Booked>, asks: seq<Booked>, i: nat, k: nat)
    requires i < |bids| && k <= |asks|
    ensures
      var lo := Skip(asks, bids[i].ts, k);
      var hi := Stop(asks, Bound(bids, i), lo);
      Cycles(bids, asks, i, k)
      == (if lo < hi then [CycleOf(bids[i], asks[lo..hi])] else []) + Cycles(bids, asks, i + 1, hi)
  {
  }

  method PairTrades(bids: seq<Booked>, asks: seq<Booked>) returns (cycles: seq<Cycle>)
    requires Sorted(bids) && Sorted(asks)
    ensures cycles == RowsOf(bids, asks, 0, Slices(bids, asks, 0, 0))
    ensures Exact(bids, asks, Slices(bids, asks, 0, 0)) <==> ZeroHarmless(bids, asks)
    ensures ZeroHarmless(bids, asks) ==> cycles == WindowRows(bids, asks, 0)
  {
    hide CycleOf, Skip, Stop, Slices, RowsOf, Exact, WindowRows, ZeroHarmless, Cycles, Sorted;
    PassAsPromised(bids, asks);
    cycles := [];
    var next: nat := 0;
    for i := 0 to |bids|
      invariant next <= |asks|
      invariant cycles + Cycles(bids, asks, i, next) == Cycles(bids, asks, 0, 0)
    {
      CyclesNext(bids, asks, i, next);
      var bound := if i + 1 < |bids| && bids[i + 1].ts != 0 then Some(bids[i + 1].ts) else None;
      var matched;
      matched, next := TakeAsks(bids[i].ts, bound, asks, next);
      ghost var row := if matched != [] then [CycleOf(bids[i], matched)] else [];
      Regroup(cycles, row, Cycles(bids, asks, i + 1, next));
      if matched != [] {
        cycles := cycles + [CycleOf(bids[i], matched)];
      }
    }
    EndOfCycles(bids, asks, next);
  }

  /** The rows of the whole pass, and when they are those of the windows. */
  lemma PassAsPromised(bids: seq<Booked>, asks: seq<Booked>)
    requires Sorted(bids) && Sorted(asks)
    ensures Cycles(bids, asks, 0, 0) == RowsOf(bids, asks, 0, Slices(bids, asks, 0, 0))
    ensures Exact(bids, asks, Slices(bids, asks, 0, 0)) <==> ZeroHarmless(bids, asks)
    ensures ZeroHarmless(bids, asks) ==> Cycles(bids, asks, 0, 0) == WindowRows(bids, asks, 0)
  {
    assert Cycles(bids, asks, 0, 0) == RowsOf(bids, asks, 0, Slices(bids, asks, 0, 0));
    assert Behind(bids, asks, 0, 0);
    hide *;
    PairsExactlyIff(bids, asks);
    if ZeroHarmless(bids, asks) {
      CyclesAreWindows(bids, asks, 0, 0);
    }
  }

  lemma EndOfCycles(bids: seq<Booked>, asks: seq<Booked>, k: nat)
    requires k <= |asks|
    ensures Cycles(bids, asks, |bids|, k) == []
  {
  }

  // ---------- what each buy gets ----------

  /** No sell is used twice: the slices follow each other. */
  lemma {:induction false} SlicesFollow(bids: seq<Booked>, asks: seq<Booked>, i: nat, k: nat, m: nat, n: nat)
    requires i <= |bids| && k <= |asks| && m < n < |Slices(bids, asks, i, k)|
    ensures Slices(bids, asks, i, k)[m].hi <= Slices(bids, asks, i, k)[n].lo
    decreases |bids| - i
  {
    if m > 0 {
      SlicesFollow(bids, asks, i + 1, Stop(asks, Bound(bids, i), Skip(asks, bids[i].ts, k)), m - 1, n - 1);
    }
  }

  /** The used-up sells are not in any window still to come. */
  ghost predicate Behind(bids: seq<Booked>, asks: seq<Booked>, i: nat, k: nat)
    requires i <= |bids| && k <= |asks|
  {
    i < |bids| ==> forall j :: 0 <= j < k ==> asks[j].ts <= bids[i].ts
  }

  lemma SliceIsWindow(bids: seq<Booked>, asks: seq<Booked>, i: nat, k: nat)
    requires Sorted(bids) && Sorted(asks) && i < |bids| && k <= |asks| && Behind(bids, asks, i, k)
    requires ZeroHarmless(bids, asks)
    ensures
      var lo := Skip(asks, bids[i].ts, k);
      var hi := Stop(asks, Bound(bids, i), lo);
      && (forall j :: 0 <= j < |asks| ==> (lo <= j < hi <==> InWindow(bids, i, asks[j])))
      && Behind(bids, asks, i + 1, hi)
  {
  }

  lemma WindowAsksNext(bids: seq<Booked>, i: nat, asks: seq<Booked>)
    requires i < |bids|
    ensures
      if asks == [] then WindowAsks(bids, i, asks) == []
      else
        var last := asks[|asks| - 1];
        WindowAsks(bids, i, asks)
        == WindowAsks(bids, i, asks[..|asks| - 1]) + if InWindow(bids, i, last) then [last] else []
  {
  }

  lemma {:induction false} SliceIsFilter(bids: seq<Booked>, i: nat, asks: seq<Booked>, lo: nat, hi: nat)
    requires i < |bids| && lo <= hi <= |asks|
    requires forall j :: 0 <= j < |asks| ==> (lo <= j < hi <==> InWindow(bids, i, asks[j]))
    ensures WindowAsks(bids, i, asks) == asks[lo..hi]
    decreases |asks|
  {
    hide InWindow, WindowAsks;
    WindowAsksNext(bids, i, asks);
    if asks != [] {
      var n := |asks| - 1;
      var init := asks[..n];
      var top := if hi <= n then hi else n;
      var low := if lo <= n then lo else n;
      assert forall j :: 0 <= j < n ==> init[j] == asks[j];
      SliceIsFilter(bids, i, init, low, top);
      assert lo <= n < hi <==> InWindow(bids, i, asks[n]);
      assert init[low..top] == asks[low..top];
      if lo <= n < hi {
        assert asks[lo..hi] == asks[lo..n] + [asks[n]];
      } else {
        assert asks[lo..hi] == asks[low..top];
      }
    }
  }

  /** The loop's rows are the rows of the windows. */
  lemma {:induction false} CyclesAreWindows(bids: seq<Booked>, asks: seq<Booked>, i: nat, k: nat)
    requires Sorted(bids) && Sorted(asks) && i <= |bids| && k <= |asks|
    requires Behind(bids, asks, i, k) && ZeroHarmless(bids, asks)
    ensures Cycles(bids, asks, i, k) == WindowRows(bids, asks, i)
    decreases |bids| - i
  {
    hide CycleOf, Skip, Stop, Cycles, WindowAsks, InWindow, Behind, ZeroHarmless, Sorted;
    if i == |bids| {
      EndOfCycles(bids, asks, k);
    } else {
      var lo := Skip(asks, bids[i].ts, k);
      var hi := Stop(asks, Bound(bids, i), lo);
      SliceIsWindow(bids, asks, i, k);
      SliceIsFilter(bids, i, asks, lo, hi);
      CyclesNext(bids, asks, i, k);
      CyclesAreWindows(bids, asks, i + 1, hi);
    }
  }

  lemma {:induction false} SlicesAreWindows(bids: seq<Booked>, asks: seq<Booked>, i: nat, k: nat, n: nat, j: nat)
    requires Sorted(bids) && Sorted(asks) && i <= |bids| && k <= |asks| && Behind(bids, asks, i, k)
    requires ZeroHarmless(bids, asks)
    requires n < |Slices(bids, asks, i, k)| && j < |asks|
    ensures
      var s := Slices(bids, asks, i, k)[n];
      s.lo <= j < s.hi <==> InWindow(bids, i + n, asks[j])
    decreases |bids| - i
  {
    hide InWindow, Skip, Stop, Behind, ZeroHarmless, Sorted;
    SliceIsWindow(bids, asks, i, k);
    if n > 0 {
      SlicesAreWindows(bids, asks, i + 1, Stop(asks, Bound(bids, i), Skip(asks, bids[i].ts, k)), n - 1, j);
    }
  }

  ghost predicate TakenBefore(slices: seq<Slice>, n: nat, j: nat)
    requires n <= |slices|
  {
    exists m :: 0 <= m < n && slices[m].lo <= j < slices[m].hi
  }

  /** What the pass has left behind when it reaches a buy was taken by an earlier one, or is not after it. */
  lemma {:induction false} NothingPassedOver(bids: seq<Booked>, asks: seq<Booked>, i: nat, k: nat, n: nat, j: nat)
    requires Sorted(bids) && i <= |bids| && k <= |asks| && n < |Slices(bids, asks, i, k)|
    requires k <= j < Slices(bids, asks, i, k)[n].lo
    ensures asks[j].ts <= bids[i + n].ts || TakenBefore(Slices(bids, asks, i, k), n, j)
    decreases |bids| - i
  {
    hide Skip, Stop, TakenBefore, Bound;
    var lo := Skip(asks, bids[i].ts, k);
    var hi := Stop(asks, Bound(bids, i), lo);
    var rest := Slices(bids, asks, i + 1, hi);
    assert Slices(bids, asks, i, k) == [Slice(lo, hi)] + rest;
    hide Slices;
    if j < lo {
      assert bids[i].ts <= bids[i + n].ts;
    } else if j < hi {
      TakenFirst(Slices(bids, asks, i, k), n, j);
    } else {
      hide Sorted;
      NothingPassedOver(bids, asks, i + 1, hi, n - 1, j);
      TakenLater(Slice(lo, hi), rest, n, j);
    }
  }

  lemma TakenLater(first: Slice, rest: seq<Slice>, n: nat, j: nat)
    requires 0 < n <= |rest| + 1
    ensures TakenBefore(rest, n - 1, j) ==> TakenBefore([first] + rest, n, j)
  {
    if TakenBefore(rest, n - 1, j) {
      var m :| 0 <= m < n - 1 && rest[m].lo <= j < rest[m].hi;
      assert ([first] + rest)[m + 1] == rest[m];
    }
  }

  lemma TakenFirst(slices: seq<Slice>, n: nat, j: nat)
    requires 0 < n <= |slices| && slices[0].lo <= j < slices[0].hi
    ensures TakenBefore(slices, n, j)
  {
  }

  lemma {:induction false} UnboundedTakesAll(bids: seq<Booked>, asks: seq<Booked>, i: nat, k: nat, n: nat)
    requires i <= |bids| && k <= |asks| && n < |Slices(bids, asks, i, k)| && Bound(bids, i + n).None?
    ensures Slices(bids, asks, i, k)[n].hi == |asks|
    decreases |bids| - i
  {
    if n > 0 {
      var hi := Stop(asks, Bound(bids, i), Skip(asks, bids[i].ts, k));
      UnboundedTakesAll(bids, asks, i + 1, hi, n - 1);
    }
  }

  lemma ZeroBreaksWindow(bids: seq<Booked>, asks: seq<Booked>, i: nat, j: nat)
    requires Sorted(bids) && Sorted(asks) && i < |bids| - 1 && j < |asks|
    requires bids[i + 1].ts == 0 && asks[j].ts > bids[i].ts && asks[j].ts >= 0
    ensures !Exact(bids, asks, Slices(bids, asks, 0, 0))
  {
    var r := Slices(bids, asks, 0, 0);
    UnboundedTakesAll(bids, asks, 0, 0, i);
    if j < r[i].lo {
      NothingPassedOver(bids, asks, 0, 0, i, j);
      var m :| 0 <= m < i && r[m].lo <= j < r[m].hi;
      assert !InWindow(bids, m, asks[j]);
    } else {
      assert !InWindow(bids, i, asks[j]);
    }
  }

  /**
    For every sorted input: each buy gets exactly the sells strictly between its time and the next
    buy's, if and only if no sell lies at or after a next buy at time zero.
  */
  lemma PairsExactlyIff(bids: seq<Booked>, asks: seq<Booked>)
    requires Sorted(bids) && Sorted(asks)
    ensures Exact(bids, asks, Slices(bids, asks, 0, 0)) <==> ZeroHarmless(bids, asks)
  {
    hide *;
    if ZeroHarmless(bids, asks) {
      WindowsAreExact(bids, asks);
    } else {
      var i, j := HarmfulZero(bids, asks);
      ZeroBreaksWindow(bids, asks, i, j);
    }
  }

  /** Such an input: of two buys at time zero the first gets the sell that is in the second one's window. */
  lemma ZeroTimeMispairs(first: Booked, second: Booked, ask: Booked)
    requires first.ts == second.ts == 0 && ask.ts == 5
    ensures
      var bids, asks := [first, second], [ask];
      && Sorted(bids) && Sorted(asks) && Slices(bids, asks, 0, 0) == [Slice(0, 1), Slice(1, 1)]
      && !InWindow(bids, 0, ask) && InWindow(bids, 1, ask) && !Exact(bids, asks, Slices(bids, asks, 0, 0))
  {
    var bids, asks := [first, second], [ask];
    assert Skip(asks, 0, 0) == 0 && Stop(asks, None, 0) == 1 && Skip(asks, 0, 1) == 1 && Stop(asks, None, 1) == 1;
    assert Slices(bids, asks, 2, 1) == [];
    assert Slices(bids, asks, 1, 1) == [Slice(1, 1)];
    ZeroBreaksWindow(bids, asks, 0, 0);
  }

  lemma HarmfulZero(bids: seq<Booked>, asks: seq<Booked>) returns (i: nat, j: nat)
    requires !ZeroHarmless(bids, asks)
    ensures i < |bids| - 1 && j < |asks|
    ensures bids[i + 1].ts == 0 && asks[j].ts > bids[i].ts && asks[j].ts >= 0
  {
    i, j :| 0 <= i < |bids| - 1 && 0 <= j < |asks| && bids[i + 1].ts == 0 && asks[j].ts > bids[i].ts && asks[j].ts >= 0;
  }

  lemma WindowsAreExact(bids: seq<Booked>, asks: seq<Booked>)
    requires Sorted(bids) && Sorted(asks) && ZeroHarmless(bids, asks)
    ensures Exact(bids, asks, Slices(bids, asks, 0, 0))
  {
    hide Slices;
    var r := Slices(bids, asks, 0, 0);
    forall i, j | 0 <= i < |bids| && 0 <= j < |asks|
      ensures r[i].lo <= j < r[i].hi <==> InWindow(bids, i, asks[j])
    {
      SlicesAreWindows(bids, asks, 0, 0, i, j);
    }
  }

  // ---------- what the rows say ----------

  function Funds(xs: seq<Booked>): real {
    if xs == [] then 0.0 else xs[0].funds + Funds(xs[1..])
  }

  function Fees(xs: seq<Booked>): real {
    if xs == [] then 0.0 else xs[0].fee + Fees(xs[1..])
  }

  /** Row c books buy `bid` against these sells. */
  predicate Books(c: Cycle, bid: Booked, sells: seq<Booked>) {
    && sells != [] && c.asks == |sells| && c.openTs == bid.ts && c.closeTs == sells[|sells| - 1].ts
    && c.cost == bid.funds + bid.fee && c.revenue == Funds(sells) - Fees(sells) && c.pnl == c.revenue - c.cost
    && if c.cost > 0.0 then c.pnlPct * c.cost == c.pnl else c.pnlPct == 0.0
  }

  lemma {:induction false} FundsAppend(xs: seq<Booked>, x: Booked)
    ensures Funds(xs + [x]) == Funds(xs) + x.funds && Fees(xs + [x]) == Fees(xs) + x.fee
  {
    if xs == [] {
      assert [x][1..] == [] && xs + [x] == [x];
    } else {
      assert (xs + [x])[1..] == xs[1..] + [x];
      FundsAppend(xs[1..], x);
    }
  }

  lemma {:induction false} RevenueIsNet(xs: seq<Booked>)
    ensures Revenue(xs) == Funds(xs) - Fees(xs)
  {
    if xs != [] {
      var init, x := xs[..|xs| - 1], xs[|xs| - 1];
      RevenueIsNet(init);
      FundsAppend(init, x);
      assert xs == init + [x];
    }
  }

  lemma CycleBooks(bid: Booked, sells: seq<Booked>)
    requires sells != []
    ensures Books(CycleOf(bid, sells), bid, sells)
  {
    RevenueIsNet(sells);
    hide Revenue, Funds, Fees;
    var c := CycleOf(bid, sells);
    if c.cost > 0.0 {
      assert c.pnl / c.cost * c.cost == c.pnl;
    }
  }

  ghost predicate Increasing(at: seq<nat>) {
    forall m, n :: 0 <= m < n < |at| ==> at[m] < at[n]
  }

  /** Row n books buy at[n], from i on, against the sells of its window. */
  ghost predicate RowsBook(bids: seq<Booked>, asks: seq<Booked>, i: nat, rows: seq<Cycle>, at: seq<nat>) {
    && |rows| == |at|
    && forall n :: 0 <= n < |at| ==> i <= at[n] < |bids| && Books(rows[n], bids[at[n]], WindowAsks(bids, at[n], asks))
  }

  /** The buys from i on that are not listed have no sell in their window. */
  ghost predicate OthersEmpty(bids: seq<Booked>, asks: seq<Booked>, i: nat, at: seq<nat>) {
    forall k :: i <= k < |bids| ==> k in at || WindowAsks(bids, k, asks) == []
  }

  lemma OneMoreRow(bids: seq<Booked>, asks: seq<Booked>, i: nat, row: Cycle, rows: seq<Cycle>, at: seq<nat>)
    requires i < |bids| && RowsBook(bids, asks, i + 1, rows, at) && Increasing(at)
    requires Books(row, bids[i], WindowAsks(bids, i, asks))
    ensures RowsBook(bids, asks, i, [row] + rows, [i] + at) && Increasing([i] + at)
  {
    hide Books, WindowAsks;
    var rows', at' := [row] + rows, [i] + at;
    IncreasingFrom(i, at);
    hide Increasing;
    forall n | 0 <= n < |at'|
      ensures i <= at'[n] < |bids| && Books(rows'[n], bids[at'[n]], WindowAsks(bids, at'[n], asks))
    {
      assert n > 0 ==> at'[n] == at[n - 1] && rows'[n] == rows[n - 1];
    }
  }

  lemma IncreasingFrom(first: nat, rest: seq<nat>)
    requires Increasing(rest) && forall n :: 0 <= n < |rest| ==> first < rest[n]
    ensures Increasing([first] + rest)
  {
  }

  lemma OneMoreListed(bids: seq<Booked>, asks: seq<Booked>, i: nat, at: seq<nat>)
    requires i < |bids| && OthersEmpty(bids, asks, i + 1, at)
    ensures OthersEmpty(bids, asks, i, [i] + at)
    ensures WindowAsks(bids, i, asks) == [] ==> OthersEmpty(bids, asks, i, at)
  {
    hide WindowAsks;
    assert ([i] + at)[0] == i;
    assert forall k :: k in at ==> k in [i] + at;
  }

  /** The rows of the windows, one by one: which buy each is about, and that the buys without a row have no sell. */
  lemma {:induction false} RowsBookWindows(bids: seq<Booked>, asks: seq<Booked>, i: nat) returns (at: seq<nat>)
    requires i <= |bids|
    ensures RowsBook(bids, asks, i, WindowRows(bids, asks, i), at) && Increasing(at) && OthersEmpty(bids, asks, i, at)
    decreases |bids| - i
  {
    if i == |bids| {
      at := [];
    } else {
      hide Books, WindowAsks, CycleOf, RowsBook, OthersEmpty, Increasing;
      var rest := RowsBookWindows(bids, asks, i + 1);
      var matched := WindowAsks(bids, i, asks);
      OneMoreListed(bids, asks, i, rest);
      if matched == [] {
        at := rest;
        RowsBookFrom(bids, asks, i, WindowRows(bids, asks, i + 1), rest);
      } else {
        CycleBooks(bids[i], matched);
        at := [i] + rest;
        OneMoreRow(bids, asks, i, CycleOf(bids[i], matched), WindowRows(bids, asks, i + 1), rest);
      }
    }
  }

  lemma RowsBookFrom(bids: seq<Booked>, asks: seq<Booked>, i: nat, rows: seq<Cycle>, at: seq<nat>)
    requires RowsBook(bids, asks, i + 1, rows, at)
    ensures RowsBook(bids, asks, i, rows, at)
  {
    hide Books, WindowAsks;
  }

  // ---------- revenue ----------

  ghost predicate InSomeWindow(bids: seq<Booked>, i: nat, a: Booked) {
    exists n :: i <= n < |bids| && InWindow(bids, n, a)
  }

  /** Net proceeds of the sells from k on that lie in the window of some buy from i on. */
  ghost function WindowRevenue(bids: seq<Booked>, i: nat, asks: seq<Booked>, k: nat): real
    requires k <= |asks|
    decreases |asks| - k
  {
    if k == |asks| then 0.0
    else (if InSomeWindow(bids, i, asks[k]) then asks[k].funds - asks[k].fee else 0.0) + WindowRevenue(bids, i, asks, k + 1)
  }

  function TotalRevenue(cycles: seq<Cycle>): real {
    if cycles == [] then 0.0 else cycles[0].revenue + TotalRevenue(cycles[1..])
  }

  lemma {:induction false} NoneInWindow(bids: seq<Booked>, i: nat, asks: seq<Booked>, k: nat, lo: nat)
    requires k <= lo <= |asks| && forall j :: k <= j < lo ==> !InSomeWindow(bids, i, asks[j])
    ensures WindowRevenue(bids, i, asks, k) == WindowRevenue(bids, i, asks, lo)
    decreases lo - k
  {
    if k < lo {
      NoneInWindow(bids, i, asks, k + 1, lo);
    }
  }

  lemma {:induction false} AllInWindow(bids: seq<Booked>, i: nat, asks: seq<Booked>, lo: nat, hi: nat)
    requires lo <= hi <= |asks| && forall j :: lo <= j < hi ==> InSomeWindow(bids, i, asks[j])
    ensures WindowRevenue(bids, i, asks, lo) == Revenue(asks[lo..hi]) + WindowRevenue(bids, i, asks, hi)
  {
    if lo < hi {
      AllInWindow(bids, i, asks, lo, hi - 1);
      assert asks[lo..hi][..hi - lo - 1] == asks[lo..hi - 1];
    }
  }

  lemma {:induction false} SameWindows(bids: seq<Booked>, i: nat, asks: seq<Booked>, k: nat)
    requires i < |bids| && k <= |asks| && forall j :: k <= j < |asks| ==> !InWindow(bids, i, asks[j])
    ensures WindowRevenue(bids, i, asks, k) == WindowRevenue(bids, i + 1, asks, k)
    decreases |asks| - k
  {
    if k < |asks| {
      SameWindows(bids, i, asks, k + 1);
      assert InSomeWindow(bids, i + 1, asks[k]) ==> InSomeWindow(bids, i, asks[k]);
    }
  }

  lemma NothingLeft(bids: seq<Booked>, asks: seq<Booked>, k: nat)
    requires k <= |asks|
    ensures Cycles(bids, asks, |bids|, k) == [] && WindowRevenue(bids, |bids|, asks, k) == 0.0
  {
    NoneInWindow(bids, |bids|, asks, k, |asks|);
  }

  /** Every sell in a window is counted once, and no other: the revenues of all rows add up to theirs. */
  lemma {:induction false} RevenueIsConserved(bids: seq<Booked>, asks: seq<Booked>, i: nat, k: nat)
    requires Sorted(bids) && Sorted(asks) && i <= |bids| && k <= |asks| && Behind(bids, asks, i, k)
    requires ZeroHarmless(bids, asks)
    ensures TotalRevenue(Cycles(bids, asks, i, k)) == WindowRevenue(bids, i, asks, k)
    decreases |bids| - i
  {
    hide Skip, Stop, Cycles, WindowRevenue, Revenue, RowsOf, Slices;
    if i == |bids| {
      NothingLeft(bids, asks, k);
    } else {
      var lo := Skip(asks, bids[i].ts, k);
      var hi := Stop(asks, Bound(bids, i), lo);
      CyclesNext(bids, asks, i, k);
      SliceIsWindow(bids, asks, i, k);
      RevenueIsConserved(bids, asks, i + 1, hi);
      NoneInWindow(bids, i, asks, k, lo);
      AllInWindow(bids, i, asks, lo, hi);
      SameWindows(bids, i, asks, hi);
      var rest := Cycles(bids, asks, i + 1, hi);
      if lo < hi {
        assert ([CycleOf(bids[i], asks[lo..hi])] + rest)[1..] == rest;
      } else {
        assert [] + rest == rest;
      }
    }
  }
}
