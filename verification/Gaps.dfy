/**
  tools/fetch_candles.py, find_gaps and calc_end_ts, and the backtest's detect_candle_gaps. Times are
  seconds of exchange-local time; a candle of `unit` minutes starts on a boundary counted from midnight.
*/
module Gaps {

  const MINUTES_PER_DAY := 1440

  function Step(unit: nat): nat {
    60 * unit
  }

  function MinuteOfDay(t: int): nat {
    (t / 60) % MINUTES_PER_DAY
  }

  predicate OnBoundary(t: int, unit: nat)
    requires unit > 0
  {
    t % 60 == 0 && MinuteOfDay(t) % unit == 0
  }

  /** The start of the range, cut to whole minutes and rounded up to a boundary. */
  function FirstBoundary(start: int, unit: nat): int
    requires unit > 0
  {
    var t, remainder := start - start % 60, MinuteOfDay(start) % unit;
    if remainder != 0 then t + 60 * (unit - remainder) else t
  }

  /** The i-th expected timestamp. */
  function Grid(first: int, unit: nat, i: nat): int {
    first + i * Step(unit)
  }

  lemma GridNext(first: int, unit: nat, i: nat)
    ensures Grid(first, unit, i + 1) == Grid(first, unit, i) + Step(unit)
  {
  }

  /** How many expected timestamps lie in the range. */
  function GridCount(first: int, unit: nat, end: int): nat
    requires unit > 0
  {
    if first > end then 0 else (end - first) / Step(unit) + 1
  }

  lemma CountIsExact(first: int, unit: nat, end: int, i: nat)
    requires unit > 0
    ensures i < GridCount(first, unit, end) <==> Grid(first, unit, i) <= end
  {
    var s := Step(unit);
    if first <= end {
      QuotientBound(end - first, i, s);
    } else {
      assert i * s >= 0;
    }
  }

  lemma QuotientBound(x: nat, i: nat, s: nat)
    requires s > 0
    ensures i <= x / s <==> i * s <= x
  {
    var q := x / s;
    assert x == q * s + x % s;
    if i <= q {
      ProductGrows(i, q, s);
    } else {
      ProductGrows(q + 1, i, s);
      assert (q + 1) * s == q * s + s;
    }
  }

  lemma ProductGrows(x: nat, y: nat, s: nat)
    requires x <= y
    ensures x * s <= y * s
  {
  }

  // ---------- missing timestamps, as indices of the grid ----------

  function Missing(stored: set<int>, first: int, unit: nat, n: nat): seq<nat> {
    if n == 0 then []
    else
      var earlier := Missing(stored, first, unit, n - 1);
      if Grid(first, unit, n - 1) in stored then earlier else earlier + [n - 1]
  }

  ghost predicate Ascending(xs: seq<nat>) {
    forall i, j :: 0 <= i < j < |xs| ==> xs[i] < xs[j]
  }

  lemma {:induction false} MissingIsExact(stored: set<int>, first: int, unit: nat, n: nat)
    ensures Ascending(Missing(stored, first, unit, n))
    ensures forall i :: i in Missing(stored, first, unit, n) <==> 0 <= i < n && Grid(first, unit, i) !in stored
  {
    hide Grid;
    if n > 0 {
      MissingIsExact(stored, first, unit, n - 1);
      var earlier := Missing(stored, first, unit, n - 1);
      assert forall k :: 0 <= k < |earlier| ==> earlier[k] in earlier;
    }
  }

  // ---------- grouping ----------

  datatype Range = Range(lo: nat, hi: nat)

  function Grouped(xs: seq<nat>): (r: seq<Range>)
    ensures |r| == 0 <==> xs == []
    ensures xs != [] ==> r[|r| - 1].hi == xs[|xs| - 1]
  {
    if xs == [] then []
    else
      var earlier, x := Grouped(xs[..|xs| - 1]), xs[|xs| - 1];
      if earlier != [] && earlier[|earlier| - 1].hi + 1 == x
      then earlier[..|earlier| - 1] + [earlier[|earlier| - 1].(hi := x)]
      else earlier + [Range(x, x)]
  }

  ghost predicate InSome(rs: seq<Range>, i: nat) {
    exists k :: 0 <= k < |rs| && rs[k].lo <= i <= rs[k].hi
  }

  /** Ordered, disjoint, and maximal: between two neighbours there is an index in neither. */
  ghost predicate Separated(rs: seq<Range>) {
    && (forall k :: 0 <= k < |rs| ==> rs[k].lo <= rs[k].hi)
    && (forall k, l :: 0 <= k < l < |rs| ==> rs[k].hi + 1 < rs[l].lo)
  }

  function Size(rs: seq<Range>): int {
    if rs == [] then 0 else Size(rs[..|rs| - 1]) + (rs[|rs| - 1].hi - rs[|rs| - 1].lo + 1)
  }

  lemma InSomeAppend(rs: seq<Range>, r: Range, i: nat)
    ensures InSome(rs + [r], i) <==> InSome(rs, i) || r.lo <= i <= r.hi
  {
    var longer := rs + [r];
    if InSome(rs, i) {
      var k :| 0 <= k < |rs| && rs[k].lo <= i <= rs[k].hi;
      assert longer[k] == rs[k];
    }
    assert longer[|rs|] == r;
  }

  lemma LastRangeGrows(rs: seq<Range>, x: nat)
    requires Separated(rs) && rs != [] && rs[|rs| - 1].hi + 1 == x
    ensures
      var grown := rs[..|rs| - 1] + [rs[|rs| - 1].(hi := x)];
      && Separated(grown) && Size(grown) == Size(rs) + 1
      && (forall i :: InSome(grown, i) <==> InSome(rs, i) || i == x)
  {
    var heads, last := rs[..|rs| - 1], rs[|rs| - 1];
    assert rs == heads + [last];
    assert (heads + [last.(hi := x)])[..|heads|] == heads;
    forall i: nat
      ensures InSome(heads + [last.(hi := x)], i) <==> InSome(rs, i) || i == x
    {
      InSomeAppend(heads, last, i);
      InSomeAppend(heads, last.(hi := x), i);
    }
  }

  lemma SeparatedAppend(rs: seq<Range>, r: Range)
    requires Separated(rs) && r.lo <= r.hi && (rs != [] ==> rs[|rs| - 1].hi + 1 < r.lo)
    ensures Separated(rs + [r])
  {
    var longer := rs + [r];
    forall k, l | 0 <= k < l < |longer|
      ensures longer[k].hi + 1 < longer[l].lo
    {
      if l == |rs| && k < |rs| - 1 {
        assert rs[k].hi + 1 < rs[|rs| - 1].lo;
      }
    }
  }

  lemma RangeAdded(rs: seq<Range>, x: nat)
    requires Separated(rs) && (rs != [] ==> rs[|rs| - 1].hi + 1 < x)
    ensures
      var longer := rs + [Range(x, x)];
      && Separated(longer) && Size(longer) == Size(rs) + 1
      && (forall i :: InSome(longer, i) <==> InSome(rs, i) || i == x)
  {
    hide Separated;
    SeparatedAppend(rs, Range(x, x));
    assert (rs + [Range(x, x)])[..|rs|] == rs;
    forall i: nat
      ensures InSome(rs + [Range(x, x)], i) <==> InSome(rs, i) || i == x
    {
      InSomeAppend(rs, Range(x, x), i);
    }
  }

  /** The ranges cover exactly the listed indices, apart from each other. */
  lemma {:induction false} GroupedIsExact(xs: seq<nat>)
    requires Ascending(xs)
    ensures Separated(Grouped(xs)) && Size(Grouped(xs)) == |xs|
    ensures forall i :: InSome(Grouped(xs), i) <==> i in xs
  {
    if xs == [] {
      assert Grouped(xs) == [];
    } else {
      var init, x := xs[..|xs| - 1], xs[|xs| - 1];
      var rs := Grouped(init);
      assert Grouped(xs) == if rs != [] && rs[|rs| - 1].hi + 1 == x then rs[..|rs| - 1] + [rs[|rs| - 1].(hi := x)]
                            else rs + [Range(x, x)];
      hide Separated, Size, InSome, Grouped;
      assert forall i :: i in xs <==> i in init || i == x;
      GroupedIsExact(init);
      if rs != [] && rs[|rs| - 1].hi + 1 == x {
        LastRangeGrows(rs, x);
      } else {
        RangeAdded(rs, x);
      }
    }
  }

  // ---------- the program ----------

  datatype Gap = Gap(from: int, to: int)

  function Located(rs: seq<Range>, first: int, unit: nat): seq<Gap> {
    if rs == [] then []
    else Located(rs[..|rs| - 1], first, unit) + [Gap(Grid(first, unit, rs[|rs| - 1].lo), Grid(first, unit, rs[|rs| - 1].hi))]
  }

  function Points(xs: seq<nat>, first: int, unit: nat): seq<int> {
    if xs == [] then [] else Points(xs[..|xs| - 1], first, unit) + [Grid(first, unit, xs[|xs| - 1])]
  }

  ghost function Existing(stored: set<int>, start: int, end: int): set<int> {
    set t | t in stored && start <= t <= end
  }

  ghost function GapRanges(stored: set<int>, unit: nat, start: int, end: int): seq<Range>
    requires unit > 0
  {
    var first := FirstBoundary(start, unit);
    Grouped(Missing(Existing(stored, start, end), first, unit, GridCount(first, unit, end)))
  }

  method CollectMissing(existing: set<int>, unit: nat, start: int, end: int) returns (missing: seq<int>)
    requires unit > 0
    ensures var first := FirstBoundary(start, unit);
            missing == Points(Missing(existing, first, unit, GridCount(first, unit, end)), first, unit)
  {
    var t := start - start % 60;
    var remainder := MinuteOfDay(start) % unit;
    if remainder != 0 {
      t := t + 60 * (unit - remainder);
    }
    missing := [];
    ghost var first, i: nat := t, 0;
    while t <= end
      invariant t == Grid(first, unit, i) && i <= GridCount(first, unit, end)
      invariant missing == Points(Missing(existing, first, unit, i), first, unit)
      decreases end - t
    {
      CountIsExact(first, unit, end, i);
      GridNext(first, unit, i);
      if t !in existing {
        ghost var xs := Missing(existing, first, unit, i);
        assert (xs + [i])[..|xs|] == xs;
        missing := missing + [t];
      }
      t := t + 60 * unit;
      i := i + 1;
    }
    CountIsExact(first, unit, end, i);
  }

  lemma {:induction false} PointsAt(xs: seq<nat>, first: int, unit: nat, k: nat)
    requires k < |xs|
    ensures |Points(xs, first, unit)| == |xs| && Points(xs, first, unit)[k] == Grid(first, unit, xs[k])
  {
    PointsLength(xs, first, unit);
    PointsLength(xs[..|xs| - 1], first, unit);
    if k < |xs| - 1 {
      PointsAt(xs[..|xs| - 1], first, unit, k);
    }
  }

  lemma {:induction false} PointsLength(xs: seq<nat>, first: int, unit: nat)
    ensures |Points(xs, first, unit)| == |xs|
  {
    if xs != [] {
      PointsLength(xs[..|xs| - 1], first, unit);
    }
  }

  lemma GridDifference(first: int, unit: nat, i: nat, j: nat)
    requires i <= j
    ensures Grid(first, unit, j) - Grid(first, unit, i) == 60 * ((j - i) * unit)
  {
    assert j * (60 * unit) - i * (60 * unit) == (j - i) * (60 * unit);
    assert (j - i) * (60 * unit) == 60 * ((j - i) * unit);
  }

  lemma OneFactor(d: nat, unit: nat)
    requires d > 0 && unit > 0
    ensures d * unit == unit <==> d == 1
    ensures d * unit > unit <==> d > 1
  {
    if d > 1 {
      assert d * unit >= 2 * unit;
    }
  }

  /** Two expected timestamps are one step apart exactly when their indices are neighbours. */
  lemma StepsApart(first: int, unit: nat, i: nat, j: nat)
    requires unit > 0 && i < j
    ensures (Grid(first, unit, j) - Grid(first, unit, i)) / 60 == unit <==> j == i + 1
  {
    hide Grid;
    GridDifference(first, unit, i, j);
    OneFactor(j - i, unit);
  }

  lemma LocatedAppend(rs: seq<Range>, r: Range, first: int, unit: nat)
    ensures Located(rs + [r], first, unit) == Located(rs, first, unit) + [Gap(Grid(first, unit, r.lo), Grid(first, unit, r.hi))]
  {
    assert (rs + [r])[..|rs|] == rs;
  }

  /** One more missing timestamp: it lengthens the last gap or starts a new one. */
  lemma GroupedStep(xs: seq<nat>, i: nat, first: int, unit: nat)
    requires 0 < i < |xs| && Ascending(xs) && unit > 0
    ensures
      var rs, rs' := Grouped(xs[..i]), Grouped(xs[..i + 1]);
      var last := rs[|rs| - 1];
      && last.hi == xs[i - 1]
      && if (Grid(first, unit, xs[i]) - Grid(first, unit, last.hi)) / 60 == unit
         then rs' == rs[..|rs| - 1] + [last.(hi := xs[i])]
         else rs' == rs + [Range(xs[i], xs[i])]
  {
    hide Grid;
    assert xs[..i + 1][..i] == xs[..i];
    StepsApart(first, unit, xs[i - 1], xs[i]);
  }

  method GroupMissing(missing: seq<int>, unit: nat, ghost xs: seq<nat>, ghost first: int) returns (gaps: seq<Gap>)
    requires unit > 0 && Ascending(xs) && missing == Points(xs, first, unit)
    ensures gaps == Located(Grouped(xs), first, unit)
  {
    hide Grid, Located, Grouped, Points;
    PointsLength(xs, first, unit);
    EmptyGroups(first, unit);
    if missing == [] {
      return [];
    }
    PointsAt(xs, first, unit, 0);
    gaps := [];
    var gapStart, gapEnd := missing[0], missing[0];
    ghost var heads, last := [], Range(xs[0], xs[0]);
    SingleGroup(xs[0]);
    assert xs[..1] == [xs[0]];
    for i := 1 to |missing|
      invariant heads + [last] == Grouped(xs[..i])
      invariant gaps == Located(heads, first, unit)
      invariant gapStart == Grid(first, unit, last.lo) && gapEnd == Grid(first, unit, last.hi)
    {
      PointsAt(xs, first, unit, i);
      GroupedStep(xs, i, first, unit);
      assert (heads + [last])[..|heads|] == heads;
      if (missing[i] - gapEnd) / 60 == unit {
        gapEnd := missing[i];
        last := last.(hi := xs[i]);
      } else {
        gaps := gaps + [Gap(gapStart, gapEnd)];
        LocatedAppend(heads, last, first, unit);
        heads := heads + [last];
        gapStart, gapEnd := missing[i], missing[i];
        last := Range(xs[i], xs[i]);
      }
    }
    gaps := gaps + [Gap(gapStart, gapEnd)];
    LocatedAppend(heads, last, first, unit);
    assert xs[..|missing|] == xs;
  }

  lemma EmptyGroups(first: int, unit: nat)
    ensures Located(Grouped([]), first, unit) == []
  {
  }

  lemma SingleGroup(x: nat)
    ensures Grouped([x]) == [Range(x, x)]
  {
    assert [x][..0] == [];
  }

  method FindGaps(stored: set<int>, unit: nat, start: int, end: int) returns (gaps: seq<Gap>)
    requires unit > 0
    ensures gaps == Located(GapRanges(stored, unit, start, end), FirstBoundary(start, unit), unit)
  {
    var existing := set t | t in stored && start <= t <= end;
    var missing := CollectMissing(existing, unit, start, end);
    ghost var first := FirstBoundary(start, unit);
    ghost var xs := Missing(existing, first, unit, GridCount(first, unit, end));
    MissingIsExact(existing, first, unit, GridCount(first, unit, end));
    if missing == [] {
      PointsLength(xs, first, unit);
      EmptyGroups(first, unit);
      return [];
    }
    gaps := GroupMissing(missing, unit, xs, first);
  }

  // ---------- what the gaps are ----------

  /** The start has seconds and lies in a boundary minute: cutting the seconds goes below the range. */
  predicate CutBelow(start: int, unit: nat)
    requires unit > 0
  {
    start % 60 != 0 && MinuteOfDay(start) % unit == 0
  }

  lemma FirstIsInRange(start: int, unit: nat)
    requires unit > 0
    ensures FirstBoundary(start, unit) >= start <==> !CutBelow(start, unit)
    ensures FirstBoundary(start, unit) + Step(unit) > start
  {
  }

  lemma GridInRange(stored: set<int>, unit: nat, start: int, end: int, i: nat)
    requires unit > 0
    ensures
      var first := FirstBoundary(start, unit);
      i < GridCount(first, unit, end) ==>
        (Grid(first, unit, i) in Existing(stored, start, end)
         <==> Grid(first, unit, i) in stored && !(CutBelow(start, unit) && i == 0))
  {
    hide FirstBoundary, CutBelow, Step;
    var first := FirstBoundary(start, unit);
    FirstIsInRange(start, unit);
    CountIsExact(first, unit, end, i);
    if i > 0 {
      GridOrder(first, unit, 1, i);
    }
    FirstTwo(first, unit);
  }

  lemma FirstTwo(first: int, unit: nat)
    ensures Grid(first, unit, 0) == first && Grid(first, unit, 1) == first + Step(unit)
  {
  }

  /** Every expected timestamp of the range lies in a gap exactly when it is not stored. */
  ghost predicate ExactGaps(stored: set<int>, unit: nat, start: int, end: int)
    requires unit > 0
  {
    var first := FirstBoundary(start, unit);
    forall i: nat :: InSome(GapRanges(stored, unit, start, end), i) <==>
                       i < GridCount(first, unit, end) && Grid(first, unit, i) !in stored
  }

  lemma GapMembers(stored: set<int>, unit: nat, start: int, end: int)
    requires unit > 0
    ensures
      var first := FirstBoundary(start, unit);
      var rs := GapRanges(stored, unit, start, end);
      && Separated(rs)
      && (forall i: nat :: InSome(rs, i) <==>
                             && i < GridCount(first, unit, end)
                             && (Grid(first, unit, i) !in stored || (CutBelow(start, unit) && i == 0)))
  {
    hide Grid, Grouped, Missing, GridCount, Existing, FirstBoundary, CutBelow;
    var first := FirstBoundary(start, unit);
    var n := GridCount(first, unit, end);
    MissingIsExact(Existing(stored, start, end), first, unit, n);
    GroupedIsExact(Missing(Existing(stored, start, end), first, unit, n));
    forall i: nat
      ensures InSome(GapRanges(stored, unit, start, end), i) <==>
                i < n && (Grid(first, unit, i) !in stored || (CutBelow(start, unit) && i == 0))
    {
      GridInRange(stored, unit, start, end, i);
    }
  }

  /**
    For every range: the gaps are ordered, disjoint and maximal. They cover exactly the missing expected
    timestamps if and only if it is not so that the start has seconds in a boundary minute, and the cut
    start lies within the end and is stored.
  */
  lemma GapsAreExact(stored: set<int>, unit: nat, start: int, end: int)
    requires unit > 0
    ensures Separated(GapRanges(stored, unit, start, end))
    ensures
      var first := FirstBoundary(start, unit);
      ExactGaps(stored, unit, start, end) <==> !(CutBelow(start, unit) && first <= end && first in stored)
  {
    hide Grid, GapRanges, GridCount, FirstBoundary, CutBelow, Separated;
    var first := FirstBoundary(start, unit);
    GapMembers(stored, unit, start, end);
    FirstTwo(first, unit);
    CountIsExact(first, unit, end, 0);
    if CutBelow(start, unit) && first <= end && first in stored {
      assert InSome(GapRanges(stored, unit, start, end), 0);
      assert !(0 < GridCount(first, unit, end) && Grid(first, unit, 0) !in stored);
    }
  }

  /** Such a range: from half a minute past midnight, the stored candle of midnight is reported missing. */
  lemma CutStartMisreports()
    ensures !ExactGaps({0}, 1, 30, 60)
  {
    GapsAreExact({0}, 1, 30, 60);
    assert FirstBoundary(30, 1) == 0 && CutBelow(30, 1);
  }

  lemma NonEmptyHasMember(rs: seq<Range>)
    requires Separated(rs)
    ensures rs == [] || InSome(rs, rs[0].lo)
  {
    assert rs == [] || rs[0].lo <= rs[0].lo <= rs[0].hi;
  }

  /** Storing every timestamp of the gaps leaves no gap, unless the cut start lies below the range. */
  lemma FillingClosesGaps(stored: set<int>, filled: set<int>, unit: nat, start: int, end: int)
    requires unit > 0 && stored <= filled
    requires forall i: nat :: InSome(GapRanges(stored, unit, start, end), i) ==>
                                Grid(FirstBoundary(start, unit), unit, i) in filled
    ensures GapRanges(filled, unit, start, end) == []
            <==> !(CutBelow(start, unit) && FirstBoundary(start, unit) <= end)
  {
    hide Grid, GapRanges, GridCount, FirstBoundary, CutBelow;
    GapMembers(stored, unit, start, end);
    GapMembers(filled, unit, start, end);
    FirstTwo(FirstBoundary(start, unit), unit);
    CountIsExact(FirstBoundary(start, unit), unit, end, 0);
    var rs, before := GapRanges(filled, unit, start, end), GapRanges(stored, unit, start, end);
    assert forall i: nat :: InSome(rs, i) ==> InSome(before, i);
    NonEmptyHasMember(rs);
    assert CutBelow(start, unit) && FirstBoundary(start, unit) <= end ==> InSome(rs, 0);
  }

  // ---------- the backtest's count ----------

  function Larger(x: int, y: int): int {
    if x < y then y else x
  }

  function MissingIn(minutes: int, unit: int): int
    requires unit > 0
  {
    Larger(minutes / unit - 1, 0)
  }

  function MissingBetween(a: int, b: int, unit: int): int
    requires unit > 0
  {
    if b - a > 60 * unit then MissingIn((b - a) / 60, unit) else 0
  }

  function MissingCount(index: seq<int>, unit: int): int
    requires unit > 0
  {
    if |index| < 2 then 0
    else MissingCount(index[..|index| - 1], unit) + MissingBetween(index[|index| - 2], index[|index| - 1], unit)
  }

  /** Counts the missing candles and finds the longest gap in minutes; the gap rows kept as samples are left out. */
  method DetectCandleGaps(index: seq<int>, unit: int) returns (gapCount: nat, missing: int, maxGapMinutes: int)
    ensures unit <= 0 ==> gapCount == 0 && missing == 0 && maxGapMinutes == 0
    ensures unit > 0 ==> missing == MissingCount(index, unit) && gapCount == GapCount(index, unit)
    ensures unit > 0 ==> forall k :: IsGap(index, k, unit) ==> (index[k] - index[k - 1]) / 60 <= maxGapMinutes
    ensures unit > 0 ==> if gapCount == 0 then maxGapMinutes == 0
                         else exists k :: IsGap(index, k, unit) && (index[k] - index[k - 1]) / 60 == maxGapMinutes
  {
    hide MissingIn, MissingCount, GapCount, Larger;
    gapCount, missing, maxGapMinutes := 0, 0, 0;
    if unit <= 0 {
      return;
    }
    ShortSeries(index, unit);
    if |index| < 2 {
      return;
    }
    assert index[..1] == [index[0]];
    ShortSeries(index[..1], unit);
    ghost var longest := 0;
    for k := 1 to |index|
      invariant missing == MissingCount(index[..k], unit) && gapCount == GapCount(index[..k], unit)
      invariant forall j :: j < k && IsGap(index, j, unit) ==> (index[j] - index[j - 1]) / 60 <= maxGapMinutes
      invariant gapCount == 0 ==> maxGapMinutes == 0
      invariant gapCount > 0 ==>
                  && longest < k && IsGap(index, longest, unit)
                  && (index[longest] - index[longest - 1]) / 60 == maxGapMinutes
    {
      CountNext(index, k, unit);
      var delta := index[k] - index[k - 1];
      var isGap := delta > 60 * unit;
      assert isGap == IsGap(index, k, unit);
      if isGap {
        var gapMinutes := delta / 60;
        assert gapMinutes > 0;
        missing := missing + MissingIn(gapMinutes, unit);
        LargerIsMax(maxGapMinutes, gapMinutes);
        longest := if gapMinutes >= maxGapMinutes then k else longest;
        maxGapMinutes := Larger(maxGapMinutes, gapMinutes);
        gapCount := gapCount + 1;
      }
    }
    assert index[..|index|] == index;
  }

  /** The number of neighbours further apart than one unit. */
  function GapCount(index: seq<int>, unit: int): nat {
    if index == [] then 0
    else GapCount(index[..|index| - 1], unit) + if IsGap(index, |index| - 1, unit) then 1 else 0
  }

  predicate IsGap(index: seq<int>, k: int, unit: int) {
    0 < k < |index| && index[k] - index[k - 1] > 60 * unit
  }

  lemma ShortSeries(index: seq<int>, unit: int)
    requires unit > 0
    ensures |index| < 2 ==>
              MissingCount(index, unit) == 0 && GapCount(index, unit) == 0 && !exists k :: IsGap(index, k, unit)
  {
  }

  lemma CountNext(index: seq<int>, k: nat, unit: int)
    requires unit > 0 && 0 < k < |index|
    ensures MissingCount(index[..k + 1], unit)
            == MissingCount(index[..k], unit) + MissingBetween(index[k - 1], index[k], unit)
    ensures GapCount(index[..k + 1], unit) == GapCount(index[..k], unit) + if IsGap(index, k, unit) then 1 else 0
  {
    assert index[..k + 1][..k] == index[..k];
  }

  lemma LargerIsMax(x: int, y: int)
    ensures Larger(x, y) >= x && Larger(x, y) >= y && (Larger(x, y) == x || Larger(x, y) == y)
  {
  }

  /** A stored series on the grid of its first timestamp; p holds the grid indices. */
  ghost predicate OnGrid(xs: seq<int>, p: seq<nat>, unit: nat) {
    && |xs| == |p| > 0 && p[0] == 0 && Ascending(p)
    && forall k :: 0 <= k < |xs| ==> xs[k] == Grid(xs[0], unit, p[k])
  }

  lemma ProductOrder(x: int, y: int, unit: nat)
    requires unit > 0
    ensures x < y ==> (x + 1) * unit <= y * unit
  {
  }

  lemma DivisionIsUnique(x: int, q: int, rem: int, unit: nat)
    requires unit > 0 && x == q * unit + rem && 0 <= rem < unit
    ensures x / unit == q && x % unit == rem
  {
    var quotient := x / unit;
    assert x == quotient * unit + x % unit;
    ProductOrder(quotient, q, unit);
    ProductOrder(q, quotient, unit);
  }

  lemma QuotientOfProduct(d: nat, unit: nat)
    requires unit > 0
    ensures d * unit / unit == d
  {
    DivisionIsUnique(d * unit, d, 0, unit);
  }

  lemma MissingBetweenNeighbours(first: int, unit: nat, i: nat, j: nat)
    requires unit > 0 && i < j
    ensures MissingBetween(Grid(first, unit, i), Grid(first, unit, j), unit) == j - i - 1
  {
    hide Grid;
    GridDifference(first, unit, i, j);
    OneFactor(j - i, unit);
    QuotientOfProduct(j - i, unit);
    assert 60 * ((j - i) * unit) / 60 == (j - i) * unit;
  }

  lemma {:induction false} CountOfSeries(xs: seq<int>, p: seq<nat>, unit: nat)
    requires unit > 0 && OnGrid(xs, p, unit)
    ensures MissingCount(xs, unit) == p[|p| - 1] + 1 - |p|
  {
    hide Grid, MissingBetween;
    if |xs| > 1 {
      CountOfSeries(xs[..|xs| - 1], p[..|p| - 1], unit);
      MissingBetweenNeighbours(xs[0], unit, p[|p| - 2], p[|p| - 1]);
    }
  }

  // ---------- as many gaps ----------

  function Run(lo: nat, hi: nat): seq<nat>
    requires lo <= hi
    decreases hi
  {
    if lo == hi then [] else Run(lo, hi - 1) + [hi - 1]
  }

  /** Neighbours of the series that are more than one step apart. */
  function Jumps(p: seq<nat>): nat {
    if |p| < 2 then 0 else Jumps(p[..|p| - 1]) + if p[|p| - 1] > p[|p| - 2] + 1 then 1 else 0
  }

  lemma {:induction false} MissingRun(stored: set<int>, first: int, unit: nat, lo: nat, hi: nat)
    requires lo <= hi && forall i: nat :: lo <= i < hi ==> Grid(first, unit, i) !in stored
    ensures Missing(stored, first, unit, hi) == Missing(stored, first, unit, lo) + Run(lo, hi)
    decreases hi
  {
    hide Grid;
    if lo < hi {
      MissingRun(stored, first, unit, lo, hi - 1);
    }
  }

  /** A run that does not touch what comes before it is one more group. */
  lemma {:induction false} RunIsOneGroup(xs: seq<nat>, lo: nat, hi: nat)
    requires lo < hi && (xs != [] ==> xs[|xs| - 1] + 1 < lo)
    ensures |Grouped(xs + Run(lo, hi))| == |Grouped(xs)| + 1
    decreases hi
  {
    hide Grouped;
    var earlier := xs + Run(lo, hi - 1);
    assert xs + Run(lo, hi) == earlier + [hi - 1];
    GroupsOfNext(earlier, hi - 1);
    if lo + 1 < hi {
      RunIsOneGroup(xs, lo, hi - 1);
      assert earlier[|earlier| - 1] == hi - 2;
    } else {
      assert earlier == xs;
    }
  }

  lemma GroupsOfNext(xs: seq<nat>, x: nat)
    ensures |Grouped(xs + [x])| == |Grouped(xs)| + if xs != [] && xs[|xs| - 1] + 1 == x then 0 else 1
  {
    assert (xs + [x])[..|xs|] == xs;
  }

  lemma {:induction false} GroupsAreJumps(stored: set<int>, first: int, unit: nat, p: seq<nat>)
    requires p != [] && p[0] == 0 && Ascending(p)
    requires forall i: nat :: i <= p[|p| - 1] ==> (Grid(first, unit, i) in stored <==> i in p)
    ensures |Grouped(Missing(stored, first, unit, p[|p| - 1] + 1))| == Jumps(p)
  {
    hide Grid, Grouped;
    var n := |p| - 1;
    assert p[n] in p;
    if n == 0 {
      assert Missing(stored, first, unit, 0) == [];
      NoGroups();
    } else {
      var init, lo, hi := p[..n], p[n - 1] + 1, p[n];
      StoredBefore(stored, first, unit, p);
      GroupsAreJumps(stored, first, unit, init);
      forall i: nat | lo <= i < hi
        ensures Grid(first, unit, i) !in stored
      {
        assert forall j :: 0 <= j < |p| ==> p[j] <= p[n - 1] || p[j] >= p[n];
      }
      MissingRun(stored, first, unit, lo, hi);
      assert Missing(stored, first, unit, hi + 1) == Missing(stored, first, unit, hi);
      var before := Missing(stored, first, unit, lo);
      MissingIsExact(stored, first, unit, lo);
      LastMissing(stored, first, unit, p[n - 1]);
      if lo < hi {
        RunIsOneGroup(before, lo, hi);
      } else {
        assert Run(lo, hi) == [] && before + [] == before;
      }
    }
  }

  lemma NoGroups()
    ensures Grouped([]) == []
  {
  }

  lemma StoredBefore(stored: set<int>, first: int, unit: nat, p: seq<nat>)
    requires |p| > 1 && p[0] == 0 && Ascending(p)
    requires forall i: nat :: i <= p[|p| - 1] ==> (Grid(first, unit, i) in stored <==> i in p)
    ensures
      var init := p[..|p| - 1];
      Ascending(init) && forall i: nat :: i <= init[|init| - 1] ==> (Grid(first, unit, i) in stored <==> i in init)
  {
    hide Grid;
    var init := p[..|p| - 1];
    forall i: nat | i <= init[|init| - 1]
      ensures i in init <==> i in p
    {
      if i in p {
        var j :| 0 <= j < |p| && p[j] == i;
        assert j < |init| && init[j] == i;
      }
    }
  }

  /** What is missing up to a stored point ends before it. */
  lemma LastMissing(stored: set<int>, first: int, unit: nat, n: nat)
    requires Grid(first, unit, n) in stored
    ensures
      var xs := Missing(stored, first, unit, n + 1);
      xs != [] ==> xs[|xs| - 1] + 1 < n + 1
  {
    hide Grid;
    var xs := Missing(stored, first, unit, n + 1);
    MissingIsExact(stored, first, unit, n + 1);
    if xs != [] {
      assert xs[|xs| - 1] in xs;
    }
  }

  lemma {:induction false} GapsAreJumps(xs: seq<int>, p: seq<nat>, unit: nat)
    requires unit > 0 && OnGrid(xs, p, unit)
    ensures GapCount(xs, unit) == Jumps(p)
  {
    hide Grid;
    var n := |xs| - 1;
    if n > 0 {
      GapsAreJumps(xs[..n], p[..n], unit);
      GridDifference(xs[0], unit, p[n - 1], p[n]);
      ManySteps(p[n] - p[n - 1], unit);
    } else {
      assert xs[..0] == [];
      assert !IsGap(xs, 0, unit);
    }
  }

  lemma ManySteps(d: int, unit: nat)
    requires unit > 0 && d > 0
    ensures d * (60 * unit) > 60 * unit <==> d > 1
    ensures 60 * (d * unit) == d * (60 * unit)
  {
    if d > 1 {
      ProductOrder(1, d, 60 * unit);
    }
  }

  lemma {:induction false} AllMissing(stored: set<int>, first: int, unit: nat, lo: nat, hi: nat)
    requires lo <= hi && forall i: nat :: lo <= i < hi ==> Grid(first, unit, i) !in stored
    ensures |Missing(stored, first, unit, hi)| == |Missing(stored, first, unit, lo)| + hi - lo
  {
    hide Grid;
    if lo < hi {
      AllMissing(stored, first, unit, lo, hi - 1);
    }
  }

  lemma {:induction false} MissingLength(stored: set<int>, first: int, unit: nat, p: seq<nat>, k: nat)
    requires k < |p| && p[0] == 0 && Ascending(p)
    requires forall i: nat :: i <= p[k] ==> (Grid(first, unit, i) in stored <==> i in p)
    ensures |Missing(stored, first, unit, p[k] + 1)| == p[k] - k
    decreases k
  {
    hide Grid, Missing;
    assert p[k] in p;
    StoredNotMissing(stored, first, unit, p[k]);
    if k > 0 {
      MissingLength(stored, first, unit, p, k - 1);
      forall i: nat | p[k - 1] + 1 <= i < p[k]
        ensures Grid(first, unit, i) !in stored
      {
        assert forall j :: 0 <= j < |p| ==> p[j] <= p[k - 1] || p[j] >= p[k];
      }
      AllMissing(stored, first, unit, p[k - 1] + 1, p[k]);
    }
  }

  lemma StoredNotMissing(stored: set<int>, first: int, unit: nat, n: nat)
    requires Grid(first, unit, n) in stored
    ensures Missing(stored, first, unit, n + 1) == Missing(stored, first, unit, n)
    ensures Missing(stored, first, unit, 0) == []
  {
  }

  lemma GridOrder(first: int, unit: nat, i: nat, j: nat)
    requires unit > 0
    ensures Grid(first, unit, i) <= Grid(first, unit, j) <==> i <= j
    ensures Grid(first, unit, i) == Grid(first, unit, j) <==> i == j
  {
    if i <= j {
      GridDifference(first, unit, i, j);
      if i < j {
        assert (j - i) * unit > 0;
      }
    } else {
      GridDifference(first, unit, j, i);
      assert (i - j) * unit > 0;
    }
  }

  lemma StoredIsSeries(stored: set<int>, xs: seq<int>, p: seq<nat>, unit: nat, i: nat)
    requires unit > 0 && OnGrid(xs, p, unit) && (forall t :: t in stored <==> t in xs) && i <= p[|p| - 1]
    ensures Grid(xs[0], unit, i) in Existing(stored, xs[0], xs[|xs| - 1]) <==> i in p
  {
    hide Grid;
    GridOrder(xs[0], unit, 0, i);
    GridOrder(xs[0], unit, i, p[|p| - 1]);
    assert forall k :: 0 <= k < |p| ==> p[k] in p;
    if i in p {
      var k :| 0 <= k < |p| && p[k] == i;
      assert xs[k] == Grid(xs[0], unit, i);
    } else if Grid(xs[0], unit, i) in stored {
      var k :| 0 <= k < |xs| && xs[k] == Grid(xs[0], unit, i);
      GridOrder(xs[0], unit, i, p[k]);
    }
  }

  /**
    Over the span of a stored series whose candles lie on boundaries, the gaps found for fetching
    are as many, and contain as many candles, as the backtest reports.
  */
  lemma BothCountsAgree(stored: set<int>, xs: seq<int>, p: seq<nat>, unit: nat)
    requires unit > 0 && OnGrid(xs, p, unit) && OnBoundary(xs[0], unit) && forall t :: t in stored <==> t in xs
    ensures Size(GapRanges(stored, unit, xs[0], xs[|xs| - 1])) == MissingCount(xs, unit)
    ensures |GapRanges(stored, unit, xs[0], xs[|xs| - 1])| == GapCount(xs, unit)
  {
    hide Grid, Missing, Grouped, GridCount, MissingBetween, Existing, Size;
    var first, end, last := xs[0], xs[|xs| - 1], p[|p| - 1];
    var existing := Existing(stored, first, end);
    assert FirstBoundary(first, unit) == first;
    CountIsExact(first, unit, end, last);
    CountIsExact(first, unit, end, last + 1);
    GridOrder(first, unit, last + 1, last);
    assert GridCount(first, unit, end) == last + 1;
    forall i: nat | i <= last
      ensures Grid(first, unit, i) in existing <==> i in p
    {
      StoredIsSeries(stored, xs, p, unit, i);
    }
    MissingLength(existing, first, unit, p, |p| - 1);
    MissingIsExact(existing, first, unit, last + 1);
    GroupedIsExact(Missing(existing, first, unit, last + 1));
    CountOfSeries(xs, p, unit);
    GroupsAreJumps(existing, first, unit, p);
    GapsAreJumps(xs, p, unit);
  }

  // ---------- the end of the range ----------

  /**
    The start of the last complete candle: its successor has begun, is on a boundary, and is not over.
    For every unit that divides the day the result is on a boundary itself.
  */
  method CalcEndTs(now: int, unit: nat) returns (end: int)
    requires unit > 0
    ensures end + Step(unit) <= now < end + 2 * Step(unit)
    ensures OnBoundary(end + Step(unit), unit)
    ensures MINUTES_PER_DAY % unit == 0 ==> OnBoundary(end, unit)
  {
    var elapsed := MinuteOfDay(now) % unit;
    var boundary := now - now % 60 - 60 * elapsed;
    end := boundary - 60 * unit;
    BoundaryOfNow(now, unit);
    if MINUTES_PER_DAY % unit == 0 {
      EarlierBoundary(now, unit);
    }
  }

  lemma WholeMinutes(x: int)
    ensures 60 * x % 60 == 0 && 60 * x / 60 == x
  {
  }

  lemma MinuteOfSameDay(m: int, r: nat)
    requires r < MINUTES_PER_DAY
    ensures MinuteOfDay(60 * (m / MINUTES_PER_DAY * MINUTES_PER_DAY + r)) == r
  {
    WholeMinutes(m / MINUTES_PER_DAY * MINUTES_PER_DAY + r);
    DivisionIsUnique(m / MINUTES_PER_DAY * MINUTES_PER_DAY + r, m / MINUTES_PER_DAY, r, MINUTES_PER_DAY);
  }

  lemma LastMultiple(m: nat, unit: nat)
    requires unit > 0
    ensures 0 <= m - m % unit <= m && (m - m % unit) % unit == 0
  {
    assert m == m / unit * unit + m % unit;
    assert m / unit * unit >= 0;
    DivisionIsUnique(m - m % unit, m / unit, 0, unit);
  }

  /** Going back to the last multiple of the unit stays within the day. */
  lemma BoundaryOfNow(now: int, unit: nat)
    requires unit > 0
    ensures
      var elapsed := MinuteOfDay(now) % unit;
      var boundary := now - now % 60 - 60 * elapsed;
      OnBoundary(boundary, unit) && boundary <= now < boundary + Step(unit)
  {
    var minutes := now / 60;
    var m := MinuteOfDay(now);
    LastMultiple(m, unit);
    MinuteOfSameDay(minutes, m - m % unit);
    WholeMinutes(minutes / MINUTES_PER_DAY * MINUTES_PER_DAY + (m - m % unit));
    assert minutes == minutes / MINUTES_PER_DAY * MINUTES_PER_DAY + m;
    assert now - now % 60 == 60 * minutes;
  }

  lemma DayDivides(m: int, q: nat, unit: nat)
    requires unit > 0 && q * unit == MINUTES_PER_DAY
    ensures m % MINUTES_PER_DAY % unit == m % unit
  {
    var d := m / MINUTES_PER_DAY;
    var r := m % MINUTES_PER_DAY;
    assert m == (d * q) * unit + r;
    ShiftByMultiple(r, d * q, unit);
  }

  lemma ShiftByMultiple(r: int, k: int, unit: nat)
    requires unit > 0
    ensures (k * unit + r) % unit == r % unit
  {
    var q := r / unit;
    assert r == q * unit + r % unit;
    DivisionIsUnique(k * unit + r, k + q, r % unit, unit);
  }

  lemma MultipleIsBoundary(x: int, unit: nat)
    requires unit > 0 && MINUTES_PER_DAY % unit == 0 && x % unit == 0
    ensures OnBoundary(60 * x, unit)
  {
    WholeMinutes(x);
    assert MINUTES_PER_DAY / unit * unit == MINUTES_PER_DAY;
    DayDivides(x, MINUTES_PER_DAY / unit, unit);
  }

  lemma EarlierBoundary(now: int, unit: nat)
    requires unit > 0 && MINUTES_PER_DAY % unit == 0
    ensures OnBoundary(now - now % 60 - 60 * (MinuteOfDay(now) % unit) - 60 * unit, unit)
  {
    var m := now / 60;
    assert now - now % 60 == 60 * m;
    assert MINUTES_PER_DAY / unit * unit == MINUTES_PER_DAY;
    DayDivides(m, MINUTES_PER_DAY / unit, unit);
    hide OnBoundary;
    DivisionIsUnique(m - m % unit - unit, m / unit - 1, 0, unit);
    MultipleIsBoundary(m - m % unit - unit, unit);
  }

  // ---------- which timestamps are expected ----------

  /** The first multiple of the unit from minute m on. */
  lemma NextMultiple(m: int, unit: nat)
    requires unit > 0
    ensures
      var c := if m % unit != 0 then m - m % unit + unit else m;
      c == (c / unit) * unit && m <= c < m + unit
  {
    var q := m / unit;
    assert m == q * unit + m % unit;
    if m % unit != 0 {
      assert m - m % unit + unit == (q + 1) * unit;
      DivisionIsUnique(m - m % unit + unit, q + 1, 0, unit);
    }
  }

  lemma BoundaryIsMultiple(k: int, unit: nat)
    requires unit > 0 && MINUTES_PER_DAY % unit == 0
    ensures OnBoundary(60 * k, unit) <==> k % unit == 0
  {
    WholeMinutes(k);
    assert MINUTES_PER_DAY / unit * unit == MINUTES_PER_DAY;
    DayDivides(k, MINUTES_PER_DAY / unit, unit);
  }

  lemma FirstIsMultiple(start: int, unit: nat)
    requires unit > 0 && MINUTES_PER_DAY % unit == 0
    ensures
      var m := start / 60;
      FirstBoundary(start, unit) == 60 * (if m % unit != 0 then m - m % unit + unit else m)
  {
    var m := start / 60;
    assert start - start % 60 == 60 * m;
    assert MINUTES_PER_DAY / unit * unit == MINUTES_PER_DAY;
    DayDivides(m, MINUTES_PER_DAY / unit, unit);
  }

  /** The grid from a whole minute c on, if c is a multiple of the unit. */
  lemma GridOfMultiple(p: int, unit: nat, i: nat)
    requires unit > 0
    ensures Grid(60 * (p * unit), unit, i) == 60 * ((p + i) * unit)
  {
    assert i * (60 * unit) == 60 * (i * unit);
    assert (p + i) * unit == p * unit + i * unit;
  }

  lemma MultipleFrom(p: int, q: int, m: int, unit: nat)
    requires unit > 0 && p * unit < m + unit && m <= q * unit
    ensures p <= q
  {
    ProductOrder(q, p, unit);
    assert (q + 1) * unit == q * unit + unit;
  }

  lemma FirstAsMultiple(start: int, unit: nat) returns (p: int)
    requires unit > 0 && MINUTES_PER_DAY % unit == 0
    ensures FirstBoundary(start, unit) == 60 * (p * unit) && start / 60 <= p * unit < start / 60 + unit
  {
    var m := start / 60;
    p := (if m % unit != 0 then m - m % unit + unit else m) / unit;
    FirstIsMultiple(start, unit);
    NextMultiple(m, unit);
  }

  lemma ExpectedIsBoundary(start: int, unit: nat, i: nat)
    requires unit > 0 && MINUTES_PER_DAY % unit == 0
    ensures
      var t := Grid(FirstBoundary(start, unit), unit, i);
      OnBoundary(t, unit) && t >= 60 * (start / 60)
  {
    hide Grid, OnBoundary, FirstBoundary;
    var p := FirstAsMultiple(start, unit);
    GridOfMultiple(p, unit, i);
    BoundaryIsMultiple((p + i) * unit, unit);
    DivisionIsUnique((p + i) * unit, p + i, 0, unit);
    LaterMultiple(p, i, unit);
  }

  lemma LaterMultiple(p: int, i: nat, unit: nat)
    ensures (p + i) * unit >= p * unit
  {
    assert (p + i) * unit == p * unit + i * unit;
  }

  lemma BoundaryIsExpected(start: int, unit: nat, t: int) returns (i: nat)
    requires unit > 0 && MINUTES_PER_DAY % unit == 0 && OnBoundary(t, unit) && t >= 60 * (start / 60)
    ensures Grid(FirstBoundary(start, unit), unit, i) == t
  {
    BoundaryIsWhole(t, unit);
    hide Grid, OnBoundary, FirstBoundary;
    var p := FirstAsMultiple(start, unit);
    var k := t / 60;
    BoundaryIsMultiple(k, unit);
    var q := k / unit;
    WholeQuotient(k, unit);
    MultipleFrom(p, q, start / 60, unit);
    i := q - p;
    GridOfMultiple(p, unit, i);
  }

  lemma WholeQuotient(k: int, unit: nat)
    requires unit > 0 && k % unit == 0
    ensures k == k / unit * unit
  {
  }

  /**
    For every unit that divides the day the expected timestamps are all boundaries from the start of the range,
    cut to a whole minute, on: none left out and nothing else.
  */
  lemma GridIsBoundaries(start: int, unit: nat, t: int)
    requires unit > 0 && MINUTES_PER_DAY % unit == 0
    ensures (exists i: nat :: Grid(FirstBoundary(start, unit), unit, i) == t)
            <==> OnBoundary(t, unit) && t >= start - start % 60
  {
    hide Grid, OnBoundary, FirstBoundary;
    assert start - start % 60 == 60 * (start / 60);
    forall i: nat | Grid(FirstBoundary(start, unit), unit, i) == t
      ensures OnBoundary(t, unit) && t >= 60 * (start / 60)
    {
      ExpectedIsBoundary(start, unit, i);
    }
    if OnBoundary(t, unit) && t >= 60 * (start / 60) {
      var i := BoundaryIsExpected(start, unit, t);
    }
  }

  lemma BoundaryIsWhole(t: int, unit: nat)
    requires unit > 0 && OnBoundary(t, unit)
    ensures t == 60 * (t / 60)
  {
  }
}
