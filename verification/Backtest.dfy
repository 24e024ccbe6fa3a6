/**
  tools/candle_rsi_backtest.py: the backtest loop. Row is one candle with its signals; the signals
  are arbitrary here, and SignalsAgree ties them to the live strategy's.
*/
module Backtest {
  import opened Domain
  import opened Rsi
  import opened Windows
  import opened Strategy

  datatype Config = Config(
    oversold: real, overbought: real, stopLossPct: real, profitTargetPct: real, feeRate: real, slippageRate: real,
    utilization: real, reserveMargin: real, minNotional: real)

  datatype Row = Row(ts: int, open: real, high: real, low: real, close: real, rsi: Reading, marketOk: bool)

  datatype Reason = StopLoss | TakeProfit | RsiExit

  datatype Trade = Trade(
    entryTs: int, exitTs: int, entryPrice: real, exitPrice: real, pnl: real, pnlPct: real, reason: Reason,
    intrabar: bool)

  datatype Book = Book(
    inPosition: bool, krw: real, coin: real, entryPrice: real, stop: real, target: real, cost: real, entryTs: int,
    trades: seq<Trade>)

  /** No rate is above one, and an entry with its fee fits the cash: the defaults 1.0 * 1.0005 <= 1.001 do. */
  predicate Sane(p: Config) {
    && 0.0 <= p.feeRate <= 1.0 && p.slippageRate <= 1.0 && p.stopLossPct <= 100.0 && p.profitTargetPct >= -100.0
    && p.utilization >= 0.0 && p.reserveMargin > 0.0 && p.utilization * (1.0 + p.feeRate) <= p.reserveMargin
  }

  function Opening(krw: real): Book {
    Book(false, krw, 0.0, 0.0, 0.0, 0.0, 0.0, 0, [])
  }

  // ---------- one candle ----------

  function EntryKrw(p: Config, krw: real): real
    requires p.reserveMargin > 0.0
  {
    krw / p.reserveMargin * p.utilization
  }

  function BuyPrice(p: Config, close: real): real {
    close * (1.0 + p.slippageRate)
  }

  function SellPrice(p: Config, level: real): real {
    level * (1.0 - p.slippageRate)
  }

  function Quotient(x: real, y: real): real
    requires y > 0.0
  {
    x / y
  }

  /** A profit relative to its cost; a positive minimum order keeps the cost from being zero. */
  function Relative(pnl: real, cost: real): real {
    if cost == 0.0 then 0.0 else pnl / cost
  }

  function Fee(p: Config, krw: real): real {
    krw * p.feeRate
  }

  function Percent(x: real, pct: real): real {
    x * (1.0 + pct / 100.0)
  }

  function Proceeds(p: Config, coin: real, price: real): real {
    coin * price - Fee(p, coin * price)
  }

  function Worth(coin: real, price: real): real {
    coin * price
  }

  predicate Enters(p: Config, b: Book, row: Row)
    requires p.reserveMargin > 0.0
  {
    row.marketOk && row.rsi.v <= p.oversold && EntryKrw(p, b.krw) >= p.minNotional
  }

  function Entered(p: Config, b: Book, row: Row): Book
    requires p.reserveMargin > 0.0 && BuyPrice(p, row.close) > 0.0
  {
    var krw, price := EntryKrw(p, b.krw), BuyPrice(p, row.close);
    var cost := krw + Fee(p, krw);
    Book(true, b.krw - cost, Quotient(krw, price), price, Percent(price, -p.stopLossPct), Percent(price, p.profitTargetPct),
         cost, row.ts, b.trades)
  }

  function Sold(p: Config, b: Book, row: Row, price: real, reason: Reason, intrabar: bool): Book {
    var net := Proceeds(p, b.coin, price);
    b.(inPosition := false, krw := b.krw + net, coin := 0.0, cost := 0.0,
       trades := b.trades + [Trade(b.entryTs, row.ts, b.entryPrice, price, net - b.cost, Relative(net - b.cost, b.cost),
                                   reason, intrabar)])
  }

  /** Which level the candle's range touches, and which of the two counts when it touches both. */
  function IntrabarExit(row: Row, stop: real, target: real): Option<Reason> {
    var hitStop, hitTarget := row.low <= stop, row.high >= target;
    if !hitStop && !hitTarget then None
    else if hitStop && hitTarget then
      Some(if row.open <= stop || row.open < target then StopLoss else TakeProfit)
    else Some(if hitStop then StopLoss else TakeProfit)
  }

  function CloseExit(p: Config, b: Book, row: Row): Option<Reason> {
    if row.close <= b.stop then Some(StopLoss)
    else if row.close >= b.target then Some(TakeProfit)
    else if row.rsi.ready && row.rsi.v >= p.overbought then Some(RsiExit)
    else None
  }

  function Level(b: Book, reason: Reason): real {
    if reason.StopLoss? then b.stop else b.target
  }

  function Exited(p: Config, b: Book, row: Row): Book {
    match IntrabarExit(row, b.stop, b.target)
    case Some(reason) => Sold(p, b, row, SellPrice(p, Level(b, reason)), reason, true)
    case None =>
      match CloseExit(p, b, row)
      case Some(reason) => Sold(p, b, row, SellPrice(p, row.close), reason, false)
      case None => b
  }

  function Stepped(p: Config, b: Book, row: Row): Book
    requires p.reserveMargin > 0.0 && BuyPrice(p, row.close) > 0.0
  {
    if !b.inPosition then (if Enters(p, b, row) then Entered(p, b, row) else b)
    else if Worth(b.coin, row.close) >= p.minNotional then Exited(p, b, row)
    else b
  }

  predicate Buyable(p: Config, rows: seq<Row>) {
    p.reserveMargin > 0.0 && forall i :: 0 <= i < |rows| ==> BuyPrice(p, rows[i].close) > 0.0
  }

  function After(p: Config, initial: real, rows: seq<Row>): Book
    requires Buyable(p, rows)
  {
    if rows == [] then Opening(initial)
    else Stepped(p, After(p, initial, rows[..|rows| - 1]), rows[|rows| - 1])
  }

  function Equity(b: Book, close: real): real {
    b.krw + if b.inPosition then Worth(b.coin, close) else 0.0
  }

  // ---------- the loop ----------

  method CheckIntrabarExit(row: Row, stop: real, target: real) returns (reason: Option<Reason>)
    ensures reason == IntrabarExit(row, stop, target)
    ensures reason.None? <==> stop < row.low && row.high < target
    ensures reason == Some(TakeProfit) <==> row.high >= target && (stop < row.low || (stop < row.open && row.open >= target))
  {
    var hitStop := row.low <= stop;
    var hitTarget := row.high >= target;
    if !hitStop && !hitTarget {
      return None;
    }
    if hitStop && hitTarget {
      var stopFirst := row.open <= stop || row.open < target;
      return Some(if stopFirst then StopLoss else TakeProfit);
    }
    return Some(if hitStop then StopLoss else TakeProfit);
  }

  lemma OpeningIsStart(p: Config, initial: real, rows: seq<Row>)
    requires Buyable(p, rows)
    ensures After(p, initial, rows[..0]) == Opening(initial)
  {
  }

  lemma AfterNext(p: Config, initial: real, rows: seq<Row>, i: nat)
    requires Buyable(p, rows) && i < |rows|
    ensures After(p, initial, rows[..i + 1]) == Stepped(p, After(p, initial, rows[..i]), rows[i])
  {
    assert rows[..i + 1][..i] == rows[..i];
  }

  method RunBacktest(p: Config, initial: real, rows: seq<Row>)
    returns (trades: seq<Trade>, equity: seq<real>, krw: real, cost: real, openPosition: bool)
    requires Buyable(p, rows)
    ensures var b := After(p, initial, rows);
            trades == b.trades && krw == b.krw && cost == b.cost && openPosition == b.inPosition
    ensures |equity| == |rows|
    ensures forall i :: 0 <= i < |rows| ==> equity[i] == Equity(After(p, initial, rows[..i + 1]), rows[i].close)
  {
    hide EntryKrw, BuyPrice, SellPrice, Quotient, Fee, Percent, Proceeds, Relative, Worth, After;
    OpeningIsStart(p, initial, rows);
    trades, equity, krw, cost, openPosition := [], [], initial, 0.0, false;
    var coin, entryPrice, stop, target, entryTs := 0.0, 0.0, 0.0, 0.0, 0;
    for i := 0 to |rows|
      invariant Book(openPosition, krw, coin, entryPrice, stop, target, cost, entryTs, trades)
                == After(p, initial, rows[..i])
      invariant |equity| == i
      invariant forall k :: 0 <= k < i ==> equity[k] == Equity(After(p, initial, rows[..k + 1]), rows[k].close)
    {
      var row := rows[i];
      AfterNext(p, initial, rows, i);
      ghost var before := Book(openPosition, krw, coin, entryPrice, stop, target, cost, entryTs, trades);
      if !openPosition {
        if row.marketOk && row.rsi.v <= p.oversold {
          var entryKrw := EntryKrw(p, krw);
          if entryKrw >= p.minNotional {
            var price := BuyPrice(p, row.close);
            coin := Quotient(entryKrw, price);
            cost := entryKrw + Fee(p, entryKrw);
            krw := krw - cost;
            entryPrice, stop, target := price, Percent(price, -p.stopLossPct), Percent(price, p.profitTargetPct);
            entryTs, openPosition := row.ts, true;
          }
        }
      } else if Worth(coin, row.close) >= p.minNotional {
        var exit := CheckIntrabarExit(row, stop, target);
        var intrabar := exit.Some?;
        var price := row.close;
        if exit.Some? {
          price := if exit.value.StopLoss? then stop else target;
        } else if row.close <= stop {
          exit := Some(StopLoss);
        } else if row.close >= target {
          exit := Some(TakeProfit);
        } else if row.rsi.ready && row.rsi.v >= p.overbought {
          exit := Some(RsiExit);
        }
        if exit.Some? {
          var net := Proceeds(p, coin, SellPrice(p, price));
          trades := trades + [Trade(entryTs, row.ts, entryPrice, SellPrice(p, price), net - cost,
                                    Relative(net - cost, cost), exit.value, intrabar)];
          krw := krw + net;
          coin, cost, openPosition := 0.0, 0.0, false;
        }
      }
      assert Book(openPosition, krw, coin, entryPrice, stop, target, cost, entryTs, trades) == Stepped(p, before, row);
      equity := equity + [krw + if openPosition then Worth(coin, row.close) else 0.0];
    }
    assert rows[..|rows|] == rows;
  }

  // ---------- cash ----------

  function TotalPnl(trades: seq<Trade>): real {
    if trades == [] then 0.0 else TotalPnl(trades[..|trades| - 1]) + trades[|trades| - 1].pnl
  }

  /** What an entry leaves of the cash, by the share of it that the margin divides out. */
  lemma EntryCost(p: Config, krw: real)
    requires p.reserveMargin > 0.0
    ensures
      var entry := EntryKrw(p, krw);
      && entry == krw / p.reserveMargin * p.utilization
      && entry + Fee(p, entry) - krw
         == krw / p.reserveMargin * (p.utilization * (1.0 + p.feeRate) - p.reserveMargin)
  {
    var share := krw / p.reserveMargin;
    assert share * p.reserveMargin == krw;
    Distributed(share, p.utilization, p.feeRate, p.reserveMargin);
  }

  lemma Distributed(share: real, utilization: real, fee: real, margin: real)
    ensures share * utilization + share * utilization * fee - share * margin
            == share * (utilization * (1.0 + fee) - margin)
  {
  }

  /** A whole entry, fee included, is paid from cash. */
  lemma EntryIsCovered(p: Config, krw: real)
    requires Sane(p) && krw >= 0.0
    ensures EntryKrw(p, krw) >= 0.0 && Fee(p, EntryKrw(p, krw)) >= 0.0
    ensures EntryKrw(p, krw) + Fee(p, EntryKrw(p, krw)) <= krw
  {
    hide EntryKrw;
    var share := krw / p.reserveMargin;
    assert share >= 0.0;
    EntryCost(p, krw);
    ScaledBelow(share, 0.0, p.utilization);
    ScaledBelow(EntryKrw(p, krw), 0.0, p.feeRate);
    hide Fee;
    ScaledBelow(share, 0.0, p.reserveMargin - p.utilization * (1.0 + p.feeRate));
  }

  lemma ScaledBelow(x: real, y: real, z: real)
    requires x >= 0.0 && 0.0 <= y <= z
    ensures 0.0 <= x * y <= x * z
  {
  }

  lemma SaleIsNotNegative(p: Config, coin: real, price: real)
    requires Sane(p) && coin >= 0.0 && price >= 0.0
    ensures Proceeds(p, coin, price) >= 0.0
  {
    ScaledBelow(coin, price, price);
    ScaledBelow(coin * price, p.feeRate, 1.0);
  }

  ghost predicate CashInv(p: Config, b: Book, initial: real) {
    && b.krw >= 0.0 && b.coin >= 0.0
    && (b.inPosition ==> b.stop >= 0.0 && b.target >= 0.0 && (p.minNotional > 0.0 ==> b.cost > 0.0))
    && (!b.inPosition ==> b.coin == 0.0 && b.cost == 0.0)
    && b.krw + b.cost == initial + TotalPnl(b.trades)
  }

  lemma LevelsNotNegative(p: Config, price: real)
    requires Sane(p) && price > 0.0
    ensures Percent(price, -p.stopLossPct) >= 0.0 && Percent(price, p.profitTargetPct) >= 0.0
  {
    ScaledBelow(price, 0.0, 1.0 - p.stopLossPct / 100.0);
    ScaledBelow(price, 0.0, 1.0 + p.profitTargetPct / 100.0);
  }

  lemma SellPriceNotNegative(p: Config, level: real)
    requires Sane(p) && level >= 0.0
    ensures SellPrice(p, level) >= 0.0
  {
    ScaledBelow(level, 0.0, 1.0 - p.slippageRate);
  }

  lemma SaleKeepsCash(p: Config, b: Book, row: Row, level: real, reason: Reason, intrabar: bool, initial: real)
    requires Sane(p) && CashInv(p, b, initial) && level >= 0.0
    ensures CashInv(p, Sold(p, b, row, SellPrice(p, level), reason, intrabar), initial)
  {
    hide Proceeds, SellPrice, Relative;
    SellPriceNotNegative(p, level);
    SaleIsNotNegative(p, b.coin, SellPrice(p, level));
    var after := Sold(p, b, row, SellPrice(p, level), reason, intrabar);
    assert after.trades[..|b.trades|] == b.trades;
  }

  lemma StepKeepsCash(p: Config, b: Book, row: Row, initial: real)
    requires Sane(p) && CashInv(p, b, initial) && BuyPrice(p, row.close) > 0.0 && row.close > 0.0
    ensures CashInv(p, Stepped(p, b, row), initial)
  {
    hide Proceeds, SellPrice, Percent, EntryKrw, Fee, Sold;
    if !b.inPosition {
      EntryIsCovered(p, b.krw);
      LevelsNotNegative(p, BuyPrice(p, row.close));
    } else {
      match IntrabarExit(row, b.stop, b.target) {
        case Some(reason) => SaleKeepsCash(p, b, row, Level(b, reason), reason, true, initial);
        case None =>
          match CloseExit(p, b, row) {
            case Some(reason) => SaleKeepsCash(p, b, row, row.close, reason, false, initial);
            case None =>
          }
      }
    }
  }

  /** For every candle series: cash is never negative, and cash plus open cost is the initial cash plus all profits. */
  lemma {:induction false} CashIdentity(p: Config, initial: real, rows: seq<Row>)
    requires Sane(p) && Buyable(p, rows) && initial >= 0.0
    requires forall i :: 0 <= i < |rows| ==> rows[i].close > 0.0
    ensures CashInv(p, After(p, initial, rows), initial)
  {
    hide Stepped;
    if rows != [] {
      CashIdentity(p, initial, rows[..|rows| - 1]);
      StepKeepsCash(p, After(p, initial, rows[..|rows| - 1]), rows[|rows| - 1], initial);
    }
  }

  /** With any positive cash: an entry is paid from it if and only if utilization and fee fit the reserve margin. */
  lemma MarginIsNeeded(p: Config, krw: real)
    requires krw > 0.0 && p.reserveMargin > 0.0
    ensures EntryKrw(p, krw) + Fee(p, EntryKrw(p, krw)) <= krw <==> p.utilization * (1.0 + p.feeRate) <= p.reserveMargin
  {
    hide EntryKrw, Fee;
    EntryCost(p, krw);
    assert krw / p.reserveMargin > 0.0;
    SignOfProduct(krw / p.reserveMargin, p.utilization * (1.0 + p.feeRate) - p.reserveMargin);
  }

  lemma SignOfProduct(x: real, y: real)
    requires x > 0.0
    ensures x * y > 0.0 <==> y > 0.0
  {
    assert y > 0.0 ==> x * y > 0.0;
    assert y <= 0.0 ==> x * y <= 0.0;
  }

  // ---------- trades ----------

  /** Closed trades follow each other, each at least one candle long, and an open position follows them all. */
  ghost predicate Ordered(b: Book) {
    && (forall i :: 0 <= i < |b.trades| ==> b.trades[i].entryTs < b.trades[i].exitTs)
    && (forall i, j :: 0 <= i < j < |b.trades| ==> b.trades[i].exitTs < b.trades[j].entryTs)
    && (b.inPosition ==> forall i :: 0 <= i < |b.trades| ==> b.trades[i].exitTs < b.entryTs)
  }

  ghost predicate Ascending(rows: seq<Row>) {
    forall i, j :: 0 <= i < j < |rows| ==> rows[i].ts < rows[j].ts
  }

  ghost predicate UpTo(b: Book, ts: int) {
    (forall i :: 0 <= i < |b.trades| ==> b.trades[i].exitTs <= ts) && (b.inPosition ==> b.entryTs <= ts)
  }

  lemma {:induction false} TradesNeverOverlap(p: Config, initial: real, rows: seq<Row>)
    requires Buyable(p, rows) && Ascending(rows)
    ensures Ordered(After(p, initial, rows))
    ensures rows != [] ==> UpTo(After(p, initial, rows), rows[|rows| - 1].ts)
  {
    hide EntryKrw, BuyPrice, SellPrice, Quotient, Fee, Percent, Proceeds, Relative, Worth;
    if rows != [] {
      TradesNeverOverlap(p, initial, rows[..|rows| - 1]);
    }
  }

  ghost predicate InRange(rows: seq<Row>) {
    forall i :: 0 <= i < |rows| ==> rows[i].low <= rows[i].close <= rows[i].high
  }

  /** On candles whose close lies within their range, only the RSI exits at the close. */
  lemma {:induction false} CloseExitsAreRsiExits(p: Config, initial: real, rows: seq<Row>)
    requires Buyable(p, rows) && InRange(rows)
    ensures forall t :: t in After(p, initial, rows).trades && !t.intrabar ==> t.reason.RsiExit?
  {
    hide EntryKrw, BuyPrice, SellPrice, Quotient, Fee, Percent, Proceeds, Relative, Worth;
    if rows != [] {
      CloseExitsAreRsiExits(p, initial, rows[..|rows| - 1]);
    }
  }

  // ---------- the signals ----------

  /** The rolling standard deviation of the last returns, compared by its square. */
  ghost predicate BatchVolatilityOk(p: Params, closes: seq<real>)
    requires closes != [] && Positive(closes) && p.volatilityWindow >= 1
  {
    var last := |closes| - 1;
    && last >= p.volatilityWindow
    && var variance := MeanSquaredDeviation(Returns(closes)[last - p.volatilityWindow..]);
    && (p.minVolatility <= 0.0 || variance >= Square(p.minVolatility))
  }

  /** The backtest's market_ok at the last of `closes`: a ready RSI, a shifted close, the rolling deviation. */
  ghost predicate BatchMarketOk(p: Params, closes: seq<real>)
    requires closes != [] && Positive(closes) && p.volatilityWindow >= 1 && p.rsiLength >= 1
  {
    var last := |closes| - 1;
    && last >= p.rsiLength
    && BatchTrendOk(p, closes)
    && BatchVolatilityOk(p, closes)
  }

  /** The live strategy after the candles `closes`, through its own indicator updates. */
  function Fed(p: Params, closes: seq<real>): StrategyState {
    if closes == [] then Initial(NO_ID, p)
    else BuildSnapshot(Fed(p, closes[..|closes| - 1]), Candle(NO_ID, NO_ID, closes[|closes| - 1])).0
  }

  /** The live indicator's window: at least 2. */
  function LiveWindow(p: Params): nat {
    if p.volatilityWindow < 2 then 2 else p.volatilityWindow
  }

  ghost predicate IndicatorsTrack(s: StrategyState, p: Params, closes: seq<real>)
    requires Positive(closes)
  {
    && s.params == p && s.rsi.length == p.rsiLength && s.closes.length == p.trendLookWindow
    && s.vol.length == LiveWindow(p) && TracksSeries(s.rsi, closes)
    && s.closes.window == LastOf(closes, p.trendLookWindow + 1) && TracksReturns(s.vol, closes)
  }

  lemma VolatilityTracks(s: VolState, closes: seq<real>, close: real)
    requires Positive(closes) && close > 0.0 && TracksReturns(s, closes)
    ensures
      var all := closes + [close];
      && TracksReturns(VolUpdate(s, close).0, all) && VolUpdate(s, close).0.length == s.length
      && VolUpdate(s, close).1.ready == (|all| > s.length)
      && (s.length == 2 && |all| > 2 ==> VolUpdate(s, close).1.v == 0.0)
      && (s.length >= 3 && |all| > s.length ==>
            VolUpdate(s, close).1.v == MeanSquaredDeviation(Returns(all)[|all| - 1 - s.length..]))
  {
    hide Return, Square, Same, Sum, MeanSquaredDeviation;
    var all := closes + [close];
    UpdateTracksReturns(s, closes, close);
    var s' := VolUpdate(s, close).0;
    VolatilityIsRollingVariance(s', all);
    assert closes != [] ==> VolUpdate(s, close).1 == VolReading(s');
  }

  lemma OneReturnHasNoVariance(r: real)
    ensures MeanSquaredDeviation([r]) == 0.0
  {
    var s := [r];
    assert s[..0] == [];
    assert Sum(s, Same) == r;
    assert Sum(s, Same) / |s| as real == r;
    assert Square(r - r) == 0.0;
    assert SquaredDeviations(s, r) == 0.0;
  }

  /** A deviation of zero passes only without a minimum. */
  lemma ZeroReadingFails(p: Params, vol: Reading)
    ensures vol.ready && vol.v == 0.0 ==> (VolatilityOk(p, vol) <==> p.minVolatility <= 0.0)
    ensures p.minVolatility > 0.0 ==> Square(p.minVolatility) > 0.0
  {
    if p.minVolatility > 0.0 {
      PositiveProduct(p.minVolatility, p.minVolatility, Square(p.minVolatility));
    }
    hide Square;
  }

  /**
    The settings on which the live filter cannot pass where the backtest's may: a window of 1, which the
    live indicator widens to 2, at the first return; a window of 2, which it reads as zero, under a
    minimum volatility.
  */
  predicate LiveIsBlind(p: Params, last: nat) {
    (p.volatilityWindow == 1 && last == 1) || (p.volatilityWindow == 2 && p.minVolatility > 0.0)
  }

  lemma VolatilityFilterAgrees(s: VolState, p: Params, closes: seq<real>, close: real)
    requires Positive(closes) && close > 0.0 && TracksReturns(s, closes) && s.length == LiveWindow(p)
    requires p.volatilityWindow >= 1
    ensures
      var all := closes + [close];
      VolatilityOk(p, VolUpdate(s, close).1) == (BatchVolatilityOk(p, all) && !LiveIsBlind(p, |all| - 1))
  {
    hide VolUpdate, MeanSquaredDeviation, Returns, Square;
    var all := closes + [close];
    VolatilityTracks(s, closes, close);
    ZeroReadingFails(p, VolUpdate(s, close).1);
    if p.volatilityWindow == 1 && |all| > 1 {
      var tail := Returns(all)[|all| - 2..];
      assert tail == [tail[0]];
      OneReturnHasNoVariance(tail[0]);
    }
  }

  ghost predicate BatchTrendOk(p: Params, closes: seq<real>)
    requires closes != [] && Positive(closes)
  {
    var last := |closes| - 1;
    && last >= p.trendLookWindow
    && -p.maxTrendStrength <= closes[last] / closes[last - p.trendLookWindow] - 1.0 <= p.maxTrendStrength
  }

  lemma TrendFilterAgrees(s: CloseState, p: Params, closes: seq<real>, close: real)
    requires Positive(closes) && close > 0.0
    requires s.length == p.trendLookWindow && s.window == LastOf(closes, s.length + 1)
    ensures
      var (s', reading) := CloseUpdate(s, close);
      && s'.length == s.length && s'.window == LastOf(closes + [close], s.length + 1)
      && TrendOk(p, close, reading) == BatchTrendOk(p, closes + [close])
  {
    CloseTracksSeries(s, closes, close);
    var all := closes + [close];
    if p.trendLookWindow <= |closes| {
      StrengthIsRatio(all[|closes| - p.trendLookWindow], close, p.maxTrendStrength);
    }
    hide Abs, LastOf;
  }

  /** The strength of a trend is how far the price ratio is from one, either way. */
  lemma StrengthIsRatio(before: real, close: real, bound: real)
    requires before > 0.0
    ensures Abs(close - before) / before <= bound <==> -bound <= close / before - 1.0 <= bound
  {
    var x := close - before;
    ReturnIsRatio(before, close);
    assert Return(before, close) == x / before;
    QuotientSign(x, before);
    NegatedQuotient(x, before);
  }

  lemma NegatedQuotient(x: real, y: real)
    requires y > 0.0
    ensures -x / y == -(x / y)
  {
    var q, r := x / y, -x / y;
    assert q * y == x && r * y == -x;
    assert -q * y == -x;
    SameFactor(r, -q, y);
  }

  lemma QuotientSign(x: real, y: real)
    requires y > 0.0
    ensures x / y >= 0.0 <==> x >= 0.0
  {
    var q := x / y;
    assert q * y == x;
    assert q >= 0.0 ==> q * y >= 0.0;
    assert q < 0.0 ==> q * y < 0.0;
  }

  lemma SnapshotAgrees(s: StrategyState, p: Params, closes: seq<real>, close: real)
    requires Positive(closes) && close > 0.0 && p.volatilityWindow >= 1 && p.rsiLength >= 1
    requires IndicatorsTrack(s, p, closes)
    ensures
      var (s', snap) := BuildSnapshot(s, Candle(NO_ID, NO_ID, close));
      && IndicatorsTrack(s', p, closes + [close])
      && snap.marketOk == (BatchMarketOk(p, closes + [close]) && !LiveIsBlind(p, |closes|))
      && snap.rsi == RsiReading(closes + [close], p.rsiLength)
  {
    hide TracksSeries, TracksReturns, RsiUpdate, CloseUpdate, VolUpdate, BatchVolatilityOk, VolatilityOk, RsiAt;
    hide LiveIsBlind, CloseUpdate, TrendOk, BatchTrendOk, LastOf;
    var all := closes + [close];
    UpdateTracksSeries(s.rsi, closes, close);
    TrendFilterAgrees(s.closes, p, closes, close);
    VolatilityTracks(s.vol, closes, close);
    VolatilityFilterAgrees(s.vol, p, closes, close);
  }

  lemma NothingFed(p: Params)
    requires p.rsiLength >= 1
    ensures IndicatorsTrack(Initial(NO_ID, p), p, [])
  {
    EmptySums();
  }

  /**
    On every series of positive closes: the live RSI is the backtest's, and the live market filter passes
    exactly when the backtest's does and the live one is not blind.
  */
  lemma {:induction false} SignalsAgree(p: Params, closes: seq<real>)
    requires Positive(closes) && p.volatilityWindow >= 1 && p.rsiLength >= 1
    ensures IndicatorsTrack(Fed(p, closes), p, closes)
    ensures closes != [] ==>
              var snap := BuildSnapshot(Fed(p, closes[..|closes| - 1]), Candle(NO_ID, NO_ID, closes[|closes| - 1])).1;
              && snap.rsi == RsiReading(closes, p.rsiLength)
              && snap.marketOk == (BatchMarketOk(p, closes) && !LiveIsBlind(p, |closes| - 1))
  {
    hide BuildSnapshot, BatchMarketOk, IndicatorsTrack, RsiReading, LiveIsBlind;
    if closes == [] {
      NothingFed(p);
    } else {
      SignalsAgree(p, closes[..|closes| - 1]);
      SnapshotAgrees(Fed(p, closes[..|closes| - 1]), p, closes[..|closes| - 1], closes[|closes| - 1]);
      assert closes[..|closes| - 1] + [closes[|closes| - 1]] == closes;
    }
  }

  /** A blind window of 2: after the closes 1, 2, 2 the backtest's filter passes and the live one does not. */
  lemma WindowOfTwoDisagrees(p: Params)
    requires p.volatilityWindow == 2 && p.minVolatility == 0.1
    requires p.rsiLength == 1 && p.trendLookWindow == 1 && p.maxTrendStrength == 1.0
    ensures BatchMarketOk(p, [1.0, 2.0, 2.0])
    ensures !BuildSnapshot(Fed(p, [1.0, 2.0]), Candle(NO_ID, NO_ID, 2.0)).1.marketOk
  {
    var closes := [1.0, 2.0, 2.0];
    assert closes[..2] == [1.0, 2.0];
    assert BatchMarketOk(p, closes) by {
      ReturnsOfThree(closes);
      VarianceOfTwo(1.0, 0.0);
      hide MeanSquaredDeviation;
    }
    hide BatchMarketOk, BuildSnapshot, Fed;
    SignalsAgree(p, closes);
  }
}
