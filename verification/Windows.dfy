/**
  The two rolling indicators over a RingBuffer: the delayed close of
  src/trading/indicators/ClosePriceWindow.cpp and the return volatility of
  src/trading/indicators/ChangeVolatilityIndicator.cpp. Volatility readings carry the variance;
  the source returns its square root.
*/
module Windows {
  import opened Domain
  import opened Rsi
  import opened RingBuffer

  /** The last `cap` values of s. */
  function LastOf<T>(s: seq<T>, cap: nat): seq<T> {
    if |s| <= cap then s else s[|s| - cap..]
  }

  lemma PushKeepsLast<T>(s: seq<T>, v: T, cap: nat)
    requires cap > 0
    ensures Pushed(LastOf(s, cap), v, cap) == LastOf(s + [v], cap)
  {
  }

  // ---------- delayed close ----------

  datatype CloseState = CloseState(length: nat, window: seq<real>)

  function CloseUpdate(s: CloseState, close: real): (CloseState, Reading) {
    var window := Pushed(s.window, close, s.length + 1);
    (s.(window := window),
     if s.length < |window| then Reading(true, window[|window| - 1 - s.length]) else NOT_READY)
  }

  class ClosePriceWindow {
    var length: nat
    const window: Buffer<real>

    ghost predicate Valid()
      reads this, window
    {
      window.Valid() && window.cap == length + 1
    }

    ghost function View(): CloseState
      reads this, window, window.buf
      requires Valid()
    {
      CloseState(length, window.Contents())
    }

    constructor (length: nat)
      ensures Valid() && fresh(window) && fresh(window.buf)
      ensures View() == CloseState(length, [])
    {
      this.length := length;
      window := new Buffer(length + 1);
    }

    method Clear()
      requires Valid()
      modifies window`head, window`size
      ensures Valid() && View() == CloseState(length, [])
    {
      window.Clear();
    }

    method Update(close: real) returns (out: Reading)
      requires Valid()
      modifies window`head, window`size, window.buf
      ensures Valid() && (View(), out) == CloseUpdate(old(View()), close)
    {
      var _ := window.Push(close);
      var v := window.ValueFromBack(length);
      if v.None? {
        return NOT_READY;
      }
      return Reading(true, v.value);
    }
  }

  /** Fed a series, the window reads the close N steps back as soon as there is one. */
  lemma CloseTracksSeries(s: CloseState, closes: seq<real>, close: real)
    requires s.window == LastOf(closes, s.length + 1)
    ensures
      var (s', out) := CloseUpdate(s, close);
      && s' == s.(window := LastOf(closes + [close], s.length + 1))
      && out == (if s.length <= |closes| then Reading(true, (closes + [close])[|closes| - s.length]) else NOT_READY)
  {
    PushKeepsLast(closes, close, s.length + 1);
  }

  // ---------- volatility ----------

  datatype VolState = VolState(length: nat, window: seq<real>, sum: real, sumsq: real, prev: Option<real>)

  function ClearedVol(length: nat): VolState {
    VolState(if length < 2 then 2 else length, [], 0.0, 0.0, None)
  }

  function Variance(n: nat, sum: real, sumsq: real): real
    requires n >= 1
  {
    if n <= 2 then 0.0
    else
      var mean := sum / n as real;
      Max(0.0, sumsq / n as real - Square(mean))
  }

  function Square(x: real): real {
    x * x
  }

  function Return(prev: real, close: real): real
    requires prev != 0.0
  {
    (close - prev) / prev
  }

  function PushReturn(s: VolState, r: real): VolState {
    var full := s.length != 0 && |s.window| == s.length;
    s.(window := Pushed(s.window, r, s.length),
       sum := (if full then s.sum - s.window[0] else s.sum) + r,
       sumsq := (if full then s.sumsq - Square(s.window[0]) else s.sumsq) + Square(r))
  }

  function VolReading(s: VolState): Reading {
    if s.length != 0 && |s.window| == s.length then Reading(true, Variance(s.length, s.sum, s.sumsq)) else NOT_READY
  }

  function VolUpdate(s: VolState, close: real): (VolState, Reading) {
    if s.length == 0 then (s, NOT_READY)
    else if s.prev.None? || s.prev.value == 0.0 then (s.(prev := Some(close)), NOT_READY)
    else
      var s' := PushReturn(s, Return(s.prev.value, close)).(prev := Some(close));
      (s', VolReading(s'))
  }

  class ChangeVolatilityIndicator {
    var length: nat
    const window: Buffer<real>
    var sum: real
    var sumsq: real
    var prev: Option<real>

    ghost predicate Valid()
      reads this, window
    {
      window.Valid() && window.cap == length
    }

    ghost function View(): VolState
      reads this, window, window.buf
      requires Valid()
    {
      VolState(length, window.Contents(), sum, sumsq, prev)
    }

    constructor (length: nat)
      ensures Valid() && fresh(window) && fresh(window.buf)
      ensures View() == ClearedVol(length)
    {
      this.length := if length < 2 then 2 else length;
      window := new Buffer(if length < 2 then 2 else length);
      sum, sumsq, prev := 0.0, 0.0, None;
    }

    method Clear()
      requires Valid()
      modifies this, window`head, window`size
      ensures Valid() && View() == VolState(old(length), [], 0.0, 0.0, None)
    {
      window.Clear();
      sum, sumsq, prev := 0.0, 0.0, None;
    }

    method Update(close: real) returns (out: Reading)
      requires Valid()
      modifies this, window`head, window`size, window.buf
      ensures Valid() && (View(), out) == VolUpdate(old(View()), close)
    {
      hide Variance, Square, Return, Pushed;
      if length == 0 {
        return NOT_READY;
      }
      if prev.None? {
        prev := Some(close);
        return NOT_READY;
      }
      var before := prev.value;
      prev := Some(close);
      if before == 0.0 {
        return NOT_READY;
      }
      var r := Return(before, close);
      var overwritten := window.Push(r);
      if overwritten.Some? {
        sum := sum - overwritten.value;
        sumsq := sumsq - Square(overwritten.value);
      }
      sum := sum + r;
      sumsq := sumsq + Square(r);
      if !window.Full() {
        return NOT_READY;
      }
      return Reading(true, Variance(length, sum, sumsq));
    }
  }

  // ---------- the running sums against the window ----------

  function Sum(s: seq<real>, f: real -> real): real {
    if s == [] then 0.0 else Sum(s[..|s| - 1], f) + f(s[|s| - 1])
  }

  function Same(x: real): real {
    x
  }

  lemma {:induction false} SumSplitsFirst(s: seq<real>, f: real -> real)
    requires s != []
    ensures Sum(s, f) == f(s[0]) + Sum(s[1..], f)
  {
    if |s| > 1 {
      SumSplitsFirst(s[..|s| - 1], f);
      assert s[..|s| - 1][1..] == s[1..][..|s| - 2];
    }
  }

  lemma SumOfPush(s: seq<real>, v: real, cap: nat, f: real -> real)
    requires cap > 0 && |s| <= cap
    ensures Sum(Pushed(s, v, cap), f) == (if |s| == cap then Sum(s, f) - f(s[0]) else Sum(s, f)) + f(v)
  {
    assert (s + [v])[..|s|] == s;
    if |s| == cap {
      SumSplitsFirst(s, f);
      assert (s[1..] + [v])[..|s| - 1] == s[1..];
    }
  }

  ghost predicate Positive(closes: seq<real>) {
    forall i :: 0 <= i < |closes| ==> closes[i] > 0.0
  }

  /** The returns of a price series, one for each price but the first. */
  ghost function Returns(closes: seq<real>): (r: seq<real>)
    requires Positive(closes)
    ensures |r| == if closes == [] then 0 else |closes| - 1
  {
    if |closes| < 2 then []
    else Returns(closes[..|closes| - 1]) + [closes[|closes| - 1] / closes[|closes| - 2] - 1.0]
  }

  ghost predicate TracksReturns(s: VolState, closes: seq<real>)
    requires Positive(closes)
  {
    && s.length >= 2
    && s.prev == (if closes == [] then None else Some(closes[|closes| - 1]))
    && s.window == LastOf(Returns(closes), s.length)
    && s.sum == Sum(s.window, Same) && s.sumsq == Sum(s.window, Square)
  }

  lemma PushTracksSums(s: VolState, r: real)
    requires s.length >= 2 && |s.window| <= s.length
    requires s.sum == Sum(s.window, Same) && s.sumsq == Sum(s.window, Square)
    ensures PushReturn(s, r).sum == Sum(PushReturn(s, r).window, Same)
    ensures PushReturn(s, r).sumsq == Sum(PushReturn(s, r).window, Square)
  {
    hide Square;
    SumOfPush(s.window, r, s.length, Same);
    SumOfPush(s.window, r, s.length, Square);
  }

  lemma EmptySums()
    ensures Sum([], Same) == Sum([], Square) == 0.0
  {
  }

  lemma ReturnIsRatio(prev: real, close: real)
    requires prev != 0.0
    ensures Return(prev, close) == close / prev - 1.0
  {
    var q, r := close / prev, (close - prev) / prev;
    assert q * prev == close && r * prev == close - prev;
    SameFactor(r, q - 1.0, prev);
  }

  lemma SameFactor(x: real, y: real, z: real)
    requires z != 0.0 && x * z == y * z
    ensures x == y
  {
    var d := x - y;
    assert d * z == 0.0;
    assert d > 0.0 && z > 0.0 ==> d * z > 0.0;
    assert d > 0.0 && z < 0.0 ==> d * -z > 0.0;
    assert d < 0.0 && z > 0.0 ==> -d * z > 0.0;
    assert d < 0.0 && z < 0.0 ==> -d * -z > 0.0;
  }

  lemma UpdateTracksReturns(s: VolState, closes: seq<real>, close: real)
    requires Positive(closes)
    requires close > 0.0 && TracksReturns(s, closes)
    ensures TracksReturns(VolUpdate(s, close).0, closes + [close])
  {
    hide Return, Variance, Square, Same, Sum;
    var longer := closes + [close];
    assert longer[..|closes|] == closes;
    if closes != [] {
      var r := Return(closes[|closes| - 1], close);
      ReturnIsRatio(closes[|closes| - 1], close);
      assert Returns(longer) == Returns(closes) + [r];
      PushKeepsLast(Returns(closes), r, s.length);
      PushTracksSums(s, r);
    } else {
      EmptySums();
    }
  }

  /** On positive prices the indicator stands where the series leaves it. */
  ghost predicate SeenReturns(s: VolState, closes: seq<real>) {
    Positive(closes) ==> TracksReturns(s, closes)
  }

  lemma UpdateSeesReturns(s: VolState, closes: seq<real>, close: real)
    requires SeenReturns(s, closes)
    ensures SeenReturns(VolUpdate(s, close).0, closes + [close])
  {
    hide VolUpdate, TracksReturns;
    var all := closes + [close];
    if Positive(all) {
      assert forall i :: 0 <= i < |closes| ==> closes[i] == all[i];
      assert close == all[|closes|];
      UpdateTracksReturns(s, closes, close);
    }
  }

  // ---------- the variance ----------

  function SquaredDeviations(s: seq<real>, mean: real): real {
    if s == [] then 0.0 else SquaredDeviations(s[..|s| - 1], mean) + Square(s[|s| - 1] - mean)
  }

  /** The population variance, by definition. */
  function MeanSquaredDeviation(s: seq<real>): real
    requires s != []
  {
    SquaredDeviations(s, Sum(s, Same) / |s| as real) / |s| as real
  }

  lemma {:induction false} SquaredDeviationsExpand(s: seq<real>, mean: real)
    ensures SquaredDeviations(s, mean) == Expansion(Sum(s, Square), Sum(s, Same), |s| as real, mean)
    ensures SquaredDeviations(s, mean) >= 0.0
  {
    if s == [] {
      assert Expansion(0.0, 0.0, 0.0, mean) == 0.0;
    } else {
      hide Square, Expansion;
      var init, x := s[..|s| - 1], s[|s| - 1];
      SquaredDeviationsExpand(init, mean);
      DeviationExpands(Sum(init, Square), Sum(init, Same), |init| as real, mean, x);
      assert |s| as real == |init| as real + 1.0;
      assert Sum(s, Square) == Sum(init, Square) + Square(x) && Sum(s, Same) == Sum(init, Same) + x;
    }
  }

  /** The squared deviations of n values from `mean`, by their sum and the sum of their squares. */
  function Expansion(squares: real, total: real, n: real, mean: real): real {
    squares - 2.0 * mean * total + n * (mean * mean)
  }

  lemma DeviationExpands(squares: real, total: real, n: real, mean: real, x: real)
    ensures Expansion(squares + Square(x), total + x, n + 1.0, mean)
            == Expansion(squares, total, n, mean) + Square(x - mean)
    ensures Square(x - mean) >= 0.0
  {
    var d := x - mean;
    assert d >= 0.0 ==> d * d >= 0.0;
    assert d < 0.0 ==> d * d >= 0.0;
  }

  lemma MeanIdentity(n: real, total: real, squares: real, mean: real)
    requires n > 0.0 && mean == total / n
    ensures Expansion(squares, total, n, mean) == n * (squares / n - mean * mean)
  {
    assert total == mean * n;
  }

  /** The one-pass formula is the population variance, so its guard against negative values never acts. */
  lemma OnePassVariance(s: seq<real>)
    requires s != []
    ensures
      var n := |s| as real;
      Sum(s, Square) / n - Square(Sum(s, Same) / n) == MeanSquaredDeviation(s)
    ensures MeanSquaredDeviation(s) >= 0.0
  {
    hide SquaredDeviations, Sum, Same;
    var n, total, squares := |s| as real, Sum(s, Same), Sum(s, Square);
    var mean := total / n;
    SquaredDeviationsExpand(s, mean);
    MeanIdentity(n, total, squares, mean);
    Divided(SquaredDeviations(s, mean), n, squares / n - mean * mean);
  }

  lemma Divided(q: real, n: real, x: real)
    requires n > 0.0 && q == n * x && q >= 0.0
    ensures q / n == x && x >= 0.0
  {
  }

  /**
    After any series of positive closes an indicator reset to `window` is ready exactly when it
    has seen more than max(window, 2) closes, and then reads the population variance of the last
    returns, which is what the backtest's rolling std(ddof=0) squares to, for windows of 3 or more.
  */
  lemma VolatilityIsRollingVariance(s: VolState, closes: seq<real>)
    requires Positive(closes)
    requires TracksReturns(s, closes)
    ensures VolReading(s).ready == (|closes| > s.length)
    ensures VolReading(s).ready && s.length >= 3 ==>
              VolReading(s).v == MeanSquaredDeviation(LastOf(Returns(closes), s.length))
  {
    hide SquaredDeviations, Sum, Square;
    if |closes| > s.length {
      OnePassVariance(s.window);
    }
  }

  /** With a window of 2 the source reads 0, which is below the variance exactly when the two returns differ. */
  lemma WindowOfTwo(s: VolState, closes: seq<real>)
    requires Positive(closes)
    requires TracksReturns(s, closes) && s.length == 2 && |closes| > 2
    ensures VolReading(s).v == 0.0
    ensures VolReading(s).v < MeanSquaredDeviation(s.window) <==> s.window[0] != s.window[1]
  {
    hide Square, MeanSquaredDeviation, Sum;
    var a, b := s.window[0], s.window[1];
    assert s.window == [a, b];
    VarianceOfTwo(a, b);
    PositiveSquare(a - b);
  }

  lemma ReturnsOfThree(closes: seq<real>)
    requires closes == [1.0, 2.0, 2.0]
    ensures Returns(closes) == [1.0, 0.0]
  {
    assert closes[..2] == [1.0, 2.0] && closes[..2][..1] == [1.0];
    assert Returns(closes[..2][..1]) == [];
    assert Returns(closes[..2]) == [1.0];
  }

  /** Such returns: the closes 1, 2, 2 have the returns 1 and 0, whose variance of 1/4 reads as 0. */
  lemma WindowOfTwoMisreads(s: VolState)
    requires s.length == 2 && TracksReturns(s, [1.0, 2.0, 2.0])
    ensures VolReading(s).v == 0.0 && MeanSquaredDeviation(s.window) == 0.25
  {
    hide MeanSquaredDeviation, Sum;
    WindowOfTwo(s, [1.0, 2.0, 2.0]);
    ReturnsOfThree([1.0, 2.0, 2.0]);
    VarianceOfTwo(1.0, 0.0);
  }

  lemma VarianceOfTwo(a: real, b: real)
    ensures MeanSquaredDeviation([a, b]) == Square(a - b) / 4.0
  {
    hide Square, MeanSquaredDeviation, Sum;
    SumsOfTwo(a, b, Same);
    SumsOfTwo(a, b, Square);
    OnePassVariance([a, b]);
    TwoValueVariance(a, b);
    var s := [a, b];
    assert |s| as real == 2.0;
    assert Sum(s, Same) == a + b;
    assert Sum(s, Square) == Square(a) + Square(b);
    assert Sum(s, Same) / |s| as real == (a + b) / 2.0;
    assert Sum(s, Square) / |s| as real == (Square(a) + Square(b)) / 2.0;
  }

  lemma TwoValueVariance(a: real, b: real)
    ensures (Square(a) + Square(b)) / 2.0 - Square((a + b) / 2.0) == Square(a - b) / 4.0
  {
  }

  lemma PositiveProduct(x: real, y: real, q: real)
    requires q == x * y && x > 0.0 && y > 0.0
    ensures q > 0.0
  {
  }

  lemma PositiveSquare(d: real)
    ensures Square(d) / 4.0 > 0.0 <==> d != 0.0
  {
    if d > 0.0 {
      PositiveProduct(d, d, Square(d));
    } else if d < 0.0 {
      PositiveProduct(-d, -d, Square(d));
    } else {
      assert Square(d) == 0.0 * d;
    }
  }

  lemma SumsOfTwo(a: real, b: real, f: real -> real)
    ensures Sum([a, b], f) == f(a) + f(b)
  {
    assert [a][..0] == [];
    assert Sum([a], f) == f(a);
    assert [a, b][..1] == [a];
  }
}
