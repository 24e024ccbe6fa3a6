/**
  Wilder's RSI twice: the streaming indicator of src/trading/indicators/RsiWilder.cpp and the
  batch loop of tools/candle_rsi_backtest.py, against one definition on the whole price series.
*/
module Rsi {
  import opened Domain

  datatype Reading = Reading(ready: bool, v: real)

  const NOT_READY: Reading := Reading(false, 0.0)

  function Gain(delta: real): real {
    if delta > 0.0 then delta else 0.0
  }

  function Loss(delta: real): real {
    if delta < 0.0 then -delta else 0.0
  }

  /** The averages are never negative (TracksSeries), so the sum below is never zero. */
  function ComputeRsi(avgGain: real, avgLoss: real): real {
    if avgGain == 0.0 && avgLoss == 0.0 then 50.0
    else if avgLoss == 0.0 then 100.0
    else if avgGain == 0.0 then 0.0
    else
      var rs := avgGain / avgLoss;
      if 1.0 + rs == 0.0 then 0.0 else 100.0 - 100.0 / (1.0 + rs)
  }

  // ---------- definition on the price series ----------

  /** Total of f over the first k price changes. */
  function SumChanges(closes: seq<real>, k: nat, f: real -> real): real
    requires k < |closes| || k == 0
  {
    if k == 0 then 0.0 else SumChanges(closes, k - 1, f) + f(closes[k] - closes[k - 1])
  }

  function Mean(total: real, n: nat): real
    requires n >= 1
  {
    total / n as real
  }

  /** One smoothing step. */
  function Smooth(avg: real, x: real, n: nat): real
    requires n >= 1
  {
    (avg * (n as real - 1.0) + x) / n as real
  }

  /** Wilder's average of f at price i: the plain mean of the first `length` changes, smoothed from there on. */
  function WilderAverage(closes: seq<real>, length: nat, f: real -> real, i: nat): real
    requires 1 <= length <= i < |closes|
    decreases i
  {
    if i == length then Mean(SumChanges(closes, length, f), length)
    else Smooth(WilderAverage(closes, length, f, i - 1), f(closes[i] - closes[i - 1]), length)
  }

  lemma {:induction false} SumNonNegative(closes: seq<real>, k: nat, f: real -> real)
    requires (k < |closes| || k == 0) && forall d :: f(d) >= 0.0
    ensures SumChanges(closes, k, f) >= 0.0
  {
    if k > 0 {
      SumNonNegative(closes, k - 1, f);
    }
  }

  lemma {:induction false} AverageNonNegative(closes: seq<real>, length: nat, f: real -> real, i: nat)
    requires 1 <= length <= i < |closes| && forall d :: f(d) >= 0.0
    ensures WilderAverage(closes, length, f, i) >= 0.0
    decreases i
  {
    if i == length {
      SumNonNegative(closes, length, f);
    } else {
      AverageNonNegative(closes, length, f, i - 1);
      var weighted := WilderAverage(closes, length, f, i - 1) * (length as real - 1.0);
      assert weighted >= 0.0;
    }
  }

  function RsiAt(closes: seq<real>, length: nat, i: nat): real
    requires 1 <= length <= i < |closes|
  {
    ComputeRsi(WilderAverage(closes, length, Gain, i), WilderAverage(closes, length, Loss, i))
  }

  lemma ComputeRsiRange(avgGain: real, avgLoss: real)
    requires avgGain >= 0.0 && avgLoss >= 0.0
    ensures 0.0 <= ComputeRsi(avgGain, avgLoss) <= 100.0
  {
    if avgGain > 0.0 && avgLoss > 0.0 {
      var rs := avgGain / avgLoss;
      assert rs > 0.0;
      assert 0.0 < 100.0 / (1.0 + rs) <= 100.0;
    }
  }

  lemma RsiRange(closes: seq<real>, length: nat, i: nat)
    requires 1 <= length <= i < |closes|
    ensures 0.0 <= RsiAt(closes, length, i) <= 100.0
  {
    AverageNonNegative(closes, length, Gain, i);
    AverageNonNegative(closes, length, Loss, i);
    ComputeRsiRange(WilderAverage(closes, length, Gain, i), WilderAverage(closes, length, Loss, i));
  }

  // ---------- what the value means ----------

  /** Every price change is its rise less its fall, and only one of them. */
  ghost predicate Splits(up: real -> real, down: real -> real) {
    forall d :: up(d) >= 0.0 && down(d) >= 0.0 && up(d) - down(d) == d && (up(d) == 0.0 || down(d) == 0.0)
  }

  /** One of n equal parts of x. */
  ghost function Part(x: real, n: nat): real
    requires n >= 1
  {
    x / n as real
  }

  ghost function Scaled(x: real, weight: real): real {
    x * weight
  }

  /** The weight Wilder's average of n leaves to what lies k prices back. */
  ghost function Decay(n: nat, k: nat): real
    requires n >= 1
  {
    if k == 0 then 1.0 else Scaled(Decay(n, k - 1), 1.0 - Part(1.0, n))
  }

  /** The changes of f up to price j, each at the weight it has at price i. */
  ghost function Weighed(closes: seq<real>, n: nat, f: real -> real, i: nat, j: nat): real
    requires 1 <= n <= j <= i < |closes|
    decreases j
  {
    if j == n then Scaled(Part(SumChanges(closes, n, f), n), Decay(n, i - n))
    else Weighed(closes, n, f, i, j - 1) + Scaled(Part(f(closes[j] - closes[j - 1]), n), Decay(n, i - j))
  }

  /** The average written out: the first n changes in equal parts, later ones at 1/n, all fading by 1 - 1/n a price. */
  ghost function Average(closes: seq<real>, n: nat, f: real -> real, i: nat): real
    requires 1 <= n <= i < |closes|
  {
    Weighed(closes, n, f, i, i)
  }

  lemma {:induction false} WeighedFades(closes: seq<real>, n: nat, f: real -> real, i: nat, j: nat)
    requires 1 <= n <= j <= i && i + 1 < |closes|
    ensures Weighed(closes, n, f, i + 1, j) == Scaled(Weighed(closes, n, f, i, j), 1.0 - Part(1.0, n))
    decreases j
  {
    hide Part, SumChanges, Scaled;
    var r := 1.0 - Part(1.0, n);
    assert Decay(n, i + 1 - j) == Scaled(Decay(n, i - j), r);
    hide Decay;
    if j == n {
      ScaledTwice(Part(SumChanges(closes, n, f), n), Decay(n, i - n), r);
    } else {
      WeighedFades(closes, n, f, i, j - 1);
      ScaledTwice(Part(f(closes[j] - closes[j - 1]), n), Decay(n, i - j), r);
      ScaledSum(Weighed(closes, n, f, i, j - 1), Scaled(Part(f(closes[j] - closes[j - 1]), n), Decay(n, i - j)), r);
    }
  }

  lemma ScaledTwice(x: real, y: real, r: real)
    ensures Scaled(x, Scaled(y, r)) == Scaled(Scaled(x, y), r)
  {
  }

  lemma ScaledSum(x: real, y: real, r: real)
    ensures Scaled(x, r) + Scaled(y, r) == Scaled(x + y, r)
  {
  }

  lemma SmoothFades(avg: real, x: real, n: nat)
    requires n >= 1
    ensures Smooth(avg, x, n) == Scaled(avg, 1.0 - Part(1.0, n)) + Scaled(Part(x, n), 1.0)
  {
    var m := n as real;
    assert avg * (1.0 - 1.0 / m) == avg * ((m - 1.0) / m) == (avg * (m - 1.0)) / m;
  }

  lemma ScaledByOne(x: real)
    ensures Scaled(x, 1.0) == x
  {
  }

  lemma MeanIsPart(total: real, n: nat)
    requires n >= 1
    ensures Mean(total, n) == Part(total, n)
  {
  }

  lemma {:induction false} WilderIsAverage(closes: seq<real>, n: nat, f: real -> real, i: nat)
    requires 1 <= n <= i < |closes|
    ensures WilderAverage(closes, n, f, i) == Average(closes, n, f, i)
    decreases i
  {
    hide Smooth, Part, SumChanges, Scaled;
    if i == n {
      assert Mean(SumChanges(closes, n, f), n) == Part(SumChanges(closes, n, f), n) by {
        MeanIsPart(SumChanges(closes, n, f), n);
      }
      ScaledByOne(Part(SumChanges(closes, n, f), n));
      assert Decay(n, 0) == 1.0;
    } else {
      hide Mean;
      WilderIsAverage(closes, n, f, i - 1);
      WeighedFades(closes, n, f, i - 1, i - 1);
      SmoothFades(WilderAverage(closes, n, f, i - 1), f(closes[i] - closes[i - 1]), n);
      assert Decay(n, 0) == 1.0;
    }
  }

  lemma {:induction false} SameSums(closes: seq<real>, k: nat, f: real -> real, g: real -> real)
    requires (k < |closes| || k == 0) && forall d :: f(d) == g(d)
    ensures SumChanges(closes, k, f) == SumChanges(closes, k, g)
  {
    if k > 0 {
      SameSums(closes, k - 1, f, g);
    }
  }

  lemma {:induction false} SameWeighed(closes: seq<real>, n: nat, f: real -> real, g: real -> real, i: nat, j: nat)
    requires 1 <= n <= j <= i < |closes| && forall d :: f(d) == g(d)
    ensures Weighed(closes, n, f, i, j) == Weighed(closes, n, g, i, j)
    decreases j
  {
    hide Part, Decay, SumChanges, Scaled;
    if j == n {
      SameSums(closes, n, f, g);
    } else {
      SameWeighed(closes, n, f, g, i, j - 1);
      assert f(closes[j] - closes[j - 1]) == g(closes[j] - closes[j - 1]);
    }
  }

  /** v shares 100 as the rises share rises and falls; 50 when there are neither. */
  predicate Shares(v: real, rises: real, falls: real) {
    if rises + falls == 0.0 then v == 50.0 else v * (rises + falls) == 100.0 * rises
  }

  /** v is the RSI at price i: the share of the rises, however rise and fall are told apart. */
  ghost predicate IsRsi(v: real, closes: seq<real>, n: nat, i: nat)
    requires 1 <= n <= i < |closes|
  {
    forall up, down :: Splits(up, down) ==> Shares(v, Average(closes, n, up, i), Average(closes, n, down, i))
  }

  lemma ComputeRsiShares(avgGain: real, avgLoss: real)
    requires avgGain >= 0.0 && avgLoss >= 0.0
    ensures Shares(ComputeRsi(avgGain, avgLoss), avgGain, avgLoss)
  {
    if avgGain > 0.0 && avgLoss > 0.0 {
      var rs, total := avgGain / avgLoss, avgGain + avgLoss;
      assert rs * avgLoss == avgGain;
      assert (1.0 + rs) * avgLoss == total;
      QuotientOfSum(1.0 + rs, avgLoss, total);
    }
  }

  lemma QuotientOfSum(ratio: real, part: real, total: real)
    requires part > 0.0 && ratio > 0.0 && ratio * part == total
    ensures 100.0 / ratio * total == 100.0 * part
  {
    assert 100.0 / ratio * ratio == 100.0;
    assert 100.0 / ratio * total == 100.0 / ratio * ratio * part;
  }

  lemma GainLossSplit()
    ensures Splits(Gain, Loss)
    ensures forall up, down :: Splits(up, down) ==> forall d :: up(d) == Gain(d) && down(d) == Loss(d)
  {
  }

  lemma RsiAtIsRsi(closes: seq<real>, n: nat, i: nat)
    requires 1 <= n <= i < |closes|
    ensures IsRsi(RsiAt(closes, n, i), closes, n, i)
  {
    hide ComputeRsi, Average, Shares, WilderAverage;
    AverageNonNegative(closes, n, Gain, i);
    AverageNonNegative(closes, n, Loss, i);
    ComputeRsiShares(WilderAverage(closes, n, Gain, i), WilderAverage(closes, n, Loss, i));
    WilderIsAverage(closes, n, Gain, i);
    WilderIsAverage(closes, n, Loss, i);
    forall up, down | Splits(up, down)
      ensures Shares(RsiAt(closes, n, i), Average(closes, n, up, i), Average(closes, n, down, i))
    {
      GainLossSplit();
      SameAverage(closes, n, up, Gain, i);
      SameAverage(closes, n, down, Loss, i);
    }
  }

  lemma SameAverage(closes: seq<real>, n: nat, f: real -> real, g: real -> real, i: nat)
    requires 1 <= n <= i < |closes| && forall d :: f(d) == g(d)
    ensures Average(closes, n, f, i) == Average(closes, n, g, i)
  {
    SameWeighed(closes, n, f, g, i, i);
  }

  lemma {:induction false} NoChanges(closes: seq<real>, k: nat, f: real -> real)
    requires k < |closes| || k == 0
    requires forall j :: 0 < j <= k ==> f(closes[j] - closes[j - 1]) == 0.0
    ensures SumChanges(closes, k, f) == 0.0
  {
    if k > 0 {
      NoChanges(closes, k - 1, f);
    }
  }

  lemma {:induction false} NoAverage(closes: seq<real>, n: nat, f: real -> real, i: nat, j: nat)
    requires 1 <= n <= j <= i < |closes|
    requires forall k :: 0 < k <= j ==> f(closes[k] - closes[k - 1]) == 0.0
    ensures Weighed(closes, n, f, i, j) == 0.0
    decreases j
  {
    hide Decay, SumChanges;
    if j == n {
      NoChanges(closes, n, f);
    } else {
      NoAverage(closes, n, f, i, j - 1);
      assert f(closes[j] - closes[j - 1]) == 0.0;
    }
  }

  lemma {:induction false} DecayPositive(n: nat, k: nat)
    requires n >= 1
    ensures Decay(n, k) >= 0.0 && (n > 1 || k == 0 ==> Decay(n, k) > 0.0)
  {
    if k > 0 {
      DecayPositive(n, k - 1);
      PartOfOne(n);
      hide Part;
      var d, r := Decay(n, k - 1), 1.0 - Part(1.0, n);
      assert Decay(n, k) == d * r;
      hide Decay, Scaled;
      ProductSign(d, r);
    }
  }

  lemma PartOfOne(n: nat)
    requires n >= 1
    ensures 0.0 < Part(1.0, n) <= 1.0 && (n > 1 ==> Part(1.0, n) < 1.0)
  {
  }

  lemma ProductSign(x: real, y: real)
    requires x >= 0.0 && y >= 0.0
    ensures x * y >= 0.0 && (x > 0.0 && y > 0.0 ==> x * y > 0.0)
  {
  }

  lemma {:induction false} SumPositive(closes: seq<real>, k: nat, f: real -> real)
    requires 0 < k < |closes| && forall j :: 0 < j <= k ==> f(closes[j] - closes[j - 1]) > 0.0
    ensures SumChanges(closes, k, f) > 0.0
  {
    if k > 1 {
      SumPositive(closes, k - 1, f);
    } else {
      assert SumChanges(closes, 0, f) == 0.0;
    }
  }

  lemma {:induction false} AveragePositive(closes: seq<real>, n: nat, f: real -> real, i: nat, j: nat)
    requires 1 <= n <= j <= i < |closes| && forall k :: 0 < k <= j ==> f(closes[k] - closes[k - 1]) > 0.0
    ensures Weighed(closes, n, f, i, j) >= 0.0 && (j == i ==> Weighed(closes, n, f, i, j) > 0.0)
    decreases j
  {
    hide Decay, SumChanges, Part, Scaled;
    DecayPositive(n, i - j);
    if j == n {
      SumPositive(closes, n, f);
      ShareSign(SumChanges(closes, n, f), n, Decay(n, i - n));
    } else {
      AveragePositive(closes, n, f, i, j - 1);
      ShareSign(f(closes[j] - closes[j - 1]), n, Decay(n, i - j));
    }
    assert j == i ==> Decay(n, i - j) > 0.0;
  }

  lemma ShareSign(x: real, n: nat, y: real)
    requires n >= 1 && x > 0.0 && y >= 0.0
    ensures Scaled(Part(x, n), y) >= 0.0 && (y > 0.0 ==> Scaled(Part(x, n), y) > 0.0)
  {
    ProductSign(Part(x, n), y);
  }

  lemma RisesOnly(closes: seq<real>, n: nat, i: nat)
    requires 1 <= n <= i < |closes| && forall j :: 0 < j <= i ==> closes[j] > closes[j - 1]
    ensures Average(closes, n, Gain, i) > 0.0 && Average(closes, n, Loss, i) == 0.0
  {
    NoAverage(closes, n, Loss, i, i);
    AveragePositive(closes, n, Gain, i, i);
  }

  lemma FallsOnly(closes: seq<real>, n: nat, i: nat)
    requires 1 <= n <= i < |closes| && forall j :: 0 < j <= i ==> closes[j] < closes[j - 1]
    ensures Average(closes, n, Gain, i) == 0.0 && Average(closes, n, Loss, i) > 0.0
  {
    NoAverage(closes, n, Gain, i, i);
    AveragePositive(closes, n, Loss, i, i);
  }

  /** Only rises read 100, only falls 0. */
  lemma RsiExtremes(v: real, closes: seq<real>, n: nat, i: nat)
    requires 1 <= n <= i < |closes| && IsRsi(v, closes, n, i)
    ensures (forall j :: 0 < j <= i ==> closes[j] > closes[j - 1]) ==> v == 100.0
    ensures (forall j :: 0 < j <= i ==> closes[j] < closes[j - 1]) ==> v == 0.0
  {
    hide Average;
    GainLossSplit();
    var rises, falls := Average(closes, n, Gain, i), Average(closes, n, Loss, i);
    assert Shares(v, rises, falls);
    hide IsRsi, Splits;
    if forall j :: 0 < j <= i ==> closes[j] > closes[j - 1] {
      RisesOnly(closes, n, i);
      SameShare(v, 100.0, rises);
    } else if forall j :: 0 < j <= i ==> closes[j] < closes[j - 1] {
      FallsOnly(closes, n, i);
      SameShare(v, 0.0, falls);
    }
    assert (forall j :: 0 < j <= i ==> closes[j] > closes[j - 1]) ==> closes[1] > closes[0];
  }

  lemma SameShare(v: real, w: real, x: real)
    requires x > 0.0 && v * x == w * x
    ensures v == w
  {
    if v > w {
      ProductSign(v - w, x);
    } else if v < w {
      ProductSign(w - v, x);
    }
  }

  /** No other value has that meaning. */
  lemma RsiIsUnique(v: real, w: real, closes: seq<real>, n: nat, i: nat)
    requires 1 <= n <= i < |closes| && IsRsi(v, closes, n, i) && IsRsi(w, closes, n, i)
    ensures v == w
  {
    hide Average;
    GainLossSplit();
    var rises, falls := Average(closes, n, Gain, i), Average(closes, n, Loss, i);
    assert Shares(v, rises, falls) && Shares(w, rises, falls);
    AverageNonNegative(closes, n, Gain, i);
    AverageNonNegative(closes, n, Loss, i);
    WilderIsAverage(closes, n, Gain, i);
    WilderIsAverage(closes, n, Loss, i);
    hide IsRsi, Splits;
    if rises + falls > 0.0 {
      SameShare(v, w, rises + falls);
    }
  }

  /** It is above 50 exactly when the rises outweigh the falls. */
  lemma RsiAboveHalf(v: real, closes: seq<real>, n: nat, i: nat, up: real -> real, down: real -> real)
    requires 1 <= n <= i < |closes| && IsRsi(v, closes, n, i) && Splits(up, down)
    ensures v > 50.0 <==> Average(closes, n, up, i) > Average(closes, n, down, i)
  {
    var rises, falls := Average(closes, n, up, i), Average(closes, n, down, i);
    assert Shares(v, rises, falls);
    AverageNonNegative(closes, n, up, i);
    AverageNonNegative(closes, n, down, i);
    WilderIsAverage(closes, n, up, i);
    WilderIsAverage(closes, n, down, i);
    hide *;
    ShareAboveHalf(v, rises, falls);
  }

  lemma ShareAboveHalf(v: real, rises: real, falls: real)
    requires rises >= 0.0 && falls >= 0.0 && Shares(v, rises, falls)
    ensures v > 50.0 <==> rises > falls
  {
    if rises + falls > 0.0 {
      AboveHalf(v, rises + falls, rises);
    }
  }

  lemma AboveHalf(v: real, total: real, part: real)
    requires total > 0.0 && v * total == 100.0 * part
    ensures v > 50.0 <==> part > total - part
  {
    assert (v - 50.0) * total == v * total - 50.0 * total;
    if v > 50.0 {
      ProductSign(v - 50.0, total);
    } else {
      assert (50.0 - v) * total == 50.0 * total - v * total;
      ProductSign(50.0 - v, total);
    }
  }

  // ---------- the streaming indicator ----------

  datatype RsiState = RsiState(
    length: nat, prev: Option<real>, seedCount: nat, gainSum: real, lossSum: real,
    avgGain: real, avgLoss: real, last: Reading)

  function ClearedRsi(length: nat): RsiState {
    RsiState(length, None, 0, 0.0, 0.0, 0.0, 0.0, NOT_READY)
  }

  /** The averages after one more change: unchanged while the seed is short of `length` changes. */
  function Averaged(s: RsiState, gain: real, loss: real): RsiState
    requires s.length >= 1
  {
    if s.seedCount < s.length then
      var s' := s.(seedCount := s.seedCount + 1, gainSum := s.gainSum + gain, lossSum := s.lossSum + loss);
      if s'.seedCount < s.length then s'
      else s'.(avgGain := Mean(s'.gainSum, s.length), avgLoss := Mean(s'.lossSum, s.length))
    else
      s.(avgGain := Smooth(s.avgGain, gain, s.length), avgLoss := Smooth(s.avgLoss, loss, s.length))
  }

  function RsiUpdate(s: RsiState, close: real): (r: (RsiState, Reading))
    ensures r.0.length == s.length
  {
    if s.length == 0 then (s, NOT_READY)
    else if s.prev.None? then (s.(prev := Some(close)), NOT_READY)
    else
      var delta := close - s.prev.value;
      var s' := Averaged(s, Gain(delta), Loss(delta)).(prev := Some(close));
      if s'.seedCount < s.length then (s', NOT_READY)
      else
        var out := Reading(true, ComputeRsi(s'.avgGain, s'.avgLoss));
        (s'.(last := out), out)
  }

  class RsiWilder {
    var length: nat
    var prev: Option<real>
    var seedCount: nat
    var gainSum: real
    var lossSum: real
    var avgGain: real
    var avgLoss: real
    var last: Reading

    ghost function View(): RsiState
      reads this
    {
      RsiState(length, prev, seedCount, gainSum, lossSum, avgGain, avgLoss, last)
    }

    constructor (length: nat)
      ensures View() == ClearedRsi(length)
    {
      this.length := length;
      prev, seedCount, gainSum, lossSum, avgGain, avgLoss := None, 0, 0.0, 0.0, 0.0, 0.0;
      last := NOT_READY;
    }

    method Clear()
      modifies this
      ensures View() == ClearedRsi(old(length))
    {
      prev, seedCount, gainSum, lossSum, avgGain, avgLoss := None, 0, 0.0, 0.0, 0.0, 0.0;
      last := NOT_READY;
    }

    method Update(close: real) returns (out: Reading)
      modifies this
      ensures (View(), out) == RsiUpdate(old(View()), close)
    {
      hide Mean, Smooth, ComputeRsi;
      out := NOT_READY;
      if length == 0 {
        return;
      }
      if prev.None? {
        prev := Some(close);
        return;
      }
      var delta := close - prev.value;
      prev := Some(close);
      var gain, loss := Gain(delta), Loss(delta);
      if seedCount < length {
        gainSum := gainSum + gain;
        lossSum := lossSum + loss;
        seedCount := seedCount + 1;
        if seedCount < length {
          return;
        }
        avgGain := Mean(gainSum, length);
        avgLoss := Mean(lossSum, length);
      } else {
        avgGain := Smooth(avgGain, gain, length);
        avgLoss := Smooth(avgLoss, loss, length);
      }
      out := Reading(true, ComputeRsi(avgGain, avgLoss));
      last := out;
    }
  }

  // ---------- the streaming state tracks the series ----------

  function RsiReading(closes: seq<real>, length: nat): Reading {
    if length == 0 || |closes| <= length then NOT_READY
    else Reading(true, RsiAt(closes, length, |closes| - 1))
  }

  lemma {:induction false} SumOfPrefix(closes: seq<real>, longer: seq<real>, k: nat, f: real -> real)
    requires closes <= longer && (k < |closes| || k == 0)
    ensures SumChanges(longer, k, f) == SumChanges(closes, k, f)
  {
    if k > 0 {
      SumOfPrefix(closes, longer, k - 1, f);
    }
  }

  lemma {:induction false} AverageOfPrefix(closes: seq<real>, longer: seq<real>, length: nat, f: real -> real, i: nat)
    requires closes <= longer && 1 <= length <= i < |closes|
    ensures WilderAverage(longer, length, f, i) == WilderAverage(closes, length, f, i)
    decreases i
  {
    hide Mean, Smooth;
    if i == length {
      SumOfPrefix(closes, longer, length, f);
    } else {
      AverageOfPrefix(closes, longer, length, f, i - 1);
    }
  }

  /** What one more price does to the sums and averages. */
  lemma AppendPrice(closes: seq<real>, close: real, length: nat, f: real -> real)
    requires closes != [] && length >= 1
    ensures
      var longer, b := closes + [close], |closes|;
      && SumChanges(longer, b, f) == SumChanges(closes, b - 1, f) + f(close - closes[b - 1])
      && (b == length ==> WilderAverage(longer, length, f, b) == Mean(SumChanges(longer, b, f), length))
      && (b > length ==>
            && SumChanges(longer, length, f) == SumChanges(closes, length, f)
            && WilderAverage(longer, length, f, b)
               == Smooth(WilderAverage(closes, length, f, b - 1), f(close - closes[b - 1]), length))
  {
    hide Mean, Smooth;
    var longer, b := closes + [close], |closes|;
    SumOfPrefix(closes, longer, b - 1, f);
    if b > length {
      SumOfPrefix(closes, longer, length, f);
      AverageOfPrefix(closes, longer, length, f, b - 1);
    }
  }

  /** The fields of the streaming indicator as a function of every price it has seen. */
  ghost predicate TracksSeries(s: RsiState, closes: seq<real>) {
    && s.length >= 1
    && s.prev == (if closes == [] then None else Some(closes[|closes| - 1]))
    && s.seedCount == (if closes == [] then 0 else if |closes| - 1 < s.length then |closes| - 1 else s.length)
    && (s.seedCount < s.length ==>
          && s.gainSum == SumChanges(closes, s.seedCount, Gain)
          && s.lossSum == SumChanges(closes, s.seedCount, Loss))
    && (|closes| > s.length ==>
          && s.avgGain == WilderAverage(closes, s.length, Gain, |closes| - 1)
          && s.avgLoss == WilderAverage(closes, s.length, Loss, |closes| - 1))
    && s.last == RsiReading(closes, s.length)
  }

  lemma UpdateTracksSeries(s: RsiState, closes: seq<real>, close: real)
    requires TracksSeries(s, closes)
    ensures TracksSeries(RsiUpdate(s, close).0, closes + [close])
    ensures RsiUpdate(s, close).1 == RsiReading(closes + [close], s.length)
  {
    hide Mean, Smooth, ComputeRsi;
    if closes != [] {
      AppendPrice(closes, close, s.length, Gain);
      AppendPrice(closes, close, s.length, Loss);
      assert closes[|closes| - 1] == s.prev.value;
    }
  }

  // ---------- both programs over a whole series ----------

  /** The readings the streaming indicator gives when fed the series from a fresh start. */
  method StreamRsi(closes: seq<real>, length: nat) returns (readings: seq<Reading>)
    requires length >= 1
    ensures |readings| == |closes|
    ensures forall i :: 0 <= i < |closes| ==>
              readings[i] == if i < length then NOT_READY else Reading(true, RsiAt(closes, length, i))
    ensures forall i :: length <= i < |closes| ==> IsRsi(readings[i].v, closes, length, i)
  {
    hide RsiUpdate, IsRsi;
    var rsi := new RsiWilder(length);
    readings := [];
    for i := 0 to |closes|
      invariant TracksSeries(rsi.View(), closes[..i]) && rsi.length == length
      invariant |readings| == i
      invariant forall k :: 0 <= k < i ==>
                  readings[k] == if k < length then NOT_READY else Reading(true, RsiAt(closes, length, k))
    {
      UpdateTracksSeries(rsi.View(), closes[..i], closes[i]);
      assert closes[..i] + [closes[i]] == closes[..i + 1];
      var reading := rsi.Update(closes[i]);
      if length <= i {
        AverageOfPrefix(closes[..i + 1], closes, length, Gain, i);
        AverageOfPrefix(closes[..i + 1], closes, length, Loss, i);
      }
      readings := readings + [reading];
    }
    forall i | length <= i < |closes|
      ensures IsRsi(readings[i].v, closes, length, i)
    {
      RsiAtIsRsi(closes, length, i);
    }
  }

  /** The loop's form of one smoothing step: alpha * avg + x / length. */
  function SmoothByAlpha(avg: real, x: real, length: nat): (r: real)
    requires length >= 1
    ensures r == Smooth(avg, x, length)
  {
    var n := length as real;
    var alpha := (n - 1.0) / n;
    assert alpha * avg == (avg * (n - 1.0)) / n;
    alpha * avg + x / n
  }

  function Change(closes: seq<real>, f: real -> real, i: nat): real
    requires i + 1 < |closes|
  {
    f(closes[i + 1] - closes[i])
  }

  method Changes(closes: seq<real>, f: real -> real) returns (changes: seq<real>)
    requires closes != []
    ensures |changes| == |closes| - 1
    ensures forall i :: 0 <= i < |changes| ==> changes[i] == f(closes[i + 1] - closes[i])
  {
    var n := |closes| - 1;
    changes := seq(n, i requires 0 <= i < n => Change(closes, f, i));
  }

  /** The array of gains (or losses), and the seed: the mean of its first `length` entries. */
  method ChangesAndSeed(closes: seq<real>, length: nat, f: real -> real) returns (changes: seq<real>, avg: real)
    requires 1 <= length < |closes|
    ensures |changes| == |closes| - 1
    ensures forall i :: 0 <= i < |changes| ==> changes[i] == f(closes[i + 1] - closes[i])
    ensures avg == WilderAverage(closes, length, f, length)
  {
    hide Mean, WilderAverage, SumChanges;
    FirstAverage(closes, length, f);
    changes := Changes(closes, f);
    var total := 0.0;
    for k := 0 to length
      invariant total == SumChanges(closes, k, f)
    {
      NextSum(closes, k, f);
      total := total + changes[k];
    }
    avg := Mean(total, length);
  }

  lemma FirstAverage(closes: seq<real>, length: nat, f: real -> real)
    requires 1 <= length < |closes|
    ensures SumChanges(closes, 0, f) == 0.0
    ensures WilderAverage(closes, length, f, length) == Mean(SumChanges(closes, length, f), length)
  {
  }

  lemma NextSum(closes: seq<real>, k: nat, f: real -> real)
    requires k + 1 < |closes|
    ensures SumChanges(closes, k + 1, f) == SumChanges(closes, k, f) + f(closes[k + 1] - closes[k])
  {
  }

  lemma NextAverage(closes: seq<real>, length: nat, f: real -> real, i: nat)
    requires 1 <= length <= i < |closes| - 1
    ensures WilderAverage(closes, length, f, i + 1)
            == Smooth(WilderAverage(closes, length, f, i), f(closes[i + 1] - closes[i]), length)
  {
  }

  /** _compute_wilder_rsi; None is NaN. */
  method ComputeWilderRsi(closes: seq<real>, length: nat) returns (rsi: seq<Option<real>>, ready: seq<bool>)
    requires length >= 1
    ensures |rsi| == |ready| == |closes|
    ensures forall k :: 0 <= k < |closes| ==> ready[k] == rsi[k].Some?
    ensures forall k :: 0 <= k < |closes| ==>
              rsi[k] == if k >= length then Some(RsiAt(closes, length, k)) else None
    ensures forall k :: length <= k < |closes| ==> IsRsi(rsi[k].value, closes, length, k)
  {
    hide IsRsi, Mean, Smooth, SmoothByAlpha, ComputeRsi, WilderAverage, SumChanges;
    var n := |closes|;
    rsi := seq(n, _ => None);
    ready := seq(n, _ => false);
    if n <= length {
      return;
    }
    var gains, avgGain := ChangesAndSeed(closes, length, Gain);
    var losses, avgLoss := ChangesAndSeed(closes, length, Loss);
    rsi := rsi[length := Some(ComputeRsi(avgGain, avgLoss))];
    ready := ready[length := true];
    for i := length to n - 1
      invariant avgGain == WilderAverage(closes, length, Gain, i) && avgLoss == WilderAverage(closes, length, Loss, i)
      invariant |rsi| == |ready| == n
      invariant forall k :: 0 <= k < n ==> ready[k] == rsi[k].Some?
      invariant forall k :: 0 <= k < n ==> rsi[k] == if length <= k <= i then Some(RsiAt(closes, length, k)) else None
    {
      NextAverage(closes, length, Gain, i);
      NextAverage(closes, length, Loss, i);
      avgGain := SmoothByAlpha(avgGain, gains[i], length);
      avgLoss := SmoothByAlpha(avgLoss, losses[i], length);
      rsi := rsi[i + 1 := Some(ComputeRsi(avgGain, avgLoss))];
      ready := ready[i + 1 := true];
    }
    forall k | length <= k < |closes|
      ensures IsRsi(rsi[k].value, closes, length, k)
    {
      RsiAtIsRsi(closes, length, k);
    }
  }

  /** On every series the bot's indicator and the backtest are ready at the same prices with the same value in range. */
  method StreamingMatchesBatch(closes: seq<real>, length: nat) returns (readings: seq<Reading>, rsi: seq<Option<real>>)
    requires length >= 1
    ensures |readings| == |rsi| == |closes|
    ensures forall i :: 0 <= i < |closes| ==>
              && readings[i].ready == rsi[i].Some?
              && (rsi[i].Some? ==> readings[i].v == rsi[i].value && 0.0 <= rsi[i].value <= 100.0)
  {
    readings := StreamRsi(closes, length);
    var ready;
    rsi, ready := ComputeWilderRsi(closes, length);
    forall i | 0 <= i < |closes| && rsi[i].Some?
      ensures 0.0 <= rsi[i].value <= 100.0
    {
      RsiRange(closes, length, i);
    }
  }
}
