/**
  What the backtest's trades mean, row by row and in plain arithmetic: which row each trade was entered
  and left at, why, at what prices, and that no chance to enter or leave in between was passed over.
*/
module TradeLog {
  import opened Domain
  import opened Rsi
  import opened Backtest

  datatype Span = Span(entry: nat, exit: nat)

  // ---------- one trade ----------

  function Outlay(p: Config, cash: real): real
    requires p.reserveMargin > 0.0
  {
    cash / p.reserveMargin * p.utilization
  }

  /** The signal is there and the cash is enough for an order. */
  predicate Invites(p: Config, row: Row, cash: real)
    requires p.reserveMargin > 0.0
  {
    row.marketOk && row.rsi.v <= p.oversold && Outlay(p, cash) >= p.minNotional
  }

  /** Bought with `cash` at the row: above its close by the slippage, the fee on top. */
  predicate Bought(p: Config, row: Row, cash: real, price: real, qty: real, cost: real)
    requires p.reserveMargin > 0.0
  {
    && Invites(p, row, cash)
    && price == row.close * (1.0 + p.slippageRate)
    && qty * price == Outlay(p, cash) && cost == Outlay(p, cash) * (1.0 + p.feeRate)
  }

  function StopOf(p: Config, price: real): real {
    price * (1.0 - p.stopLossPct / 100.0)
  }

  function TargetOf(p: Config, price: real): real {
    price * (1.0 + p.profitTargetPct / 100.0)
  }

  function Value(qty: real, price: real): real {
    qty * price
  }

  /** What a sale at `price` brings in. */
  function Received(p: Config, qty: real, price: real): real {
    qty * price * (1.0 - p.feeRate)
  }

  /** A sale at this level, less the slippage. */
  function SoldFor(p: Config, level: real): real {
    level * (1.0 - p.slippageRate)
  }

  /** pct is the profit's share of the cost. */
  predicate IsShare(pct: real, pnl: real, cost: real) {
    cost != 0.0 ==> pct * cost == pnl
  }

  /** The row's range touches neither level. */
  predicate Untouched(row: Row, stop: real, target: real) {
    stop < row.low && row.high < target
  }

  /** Which reason a row gives to leave a position, and whether within the candle or at its close. */
  predicate Says(p: Config, row: Row, stop: real, target: real, reason: Reason, intrabar: bool) {
    match reason
    case StopLoss =>
      if intrabar then row.low <= stop && !(row.high >= target && row.open >= target && row.open > stop)
      else Untouched(row, stop, target) && row.close <= stop
    case TakeProfit =>
      if intrabar then row.high >= target && (row.low > stop || (row.open >= target && row.open > stop))
      else Untouched(row, stop, target) && stop < row.close && row.close >= target
    case RsiExit =>
      && !intrabar && Untouched(row, stop, target) && stop < row.close < target
      && row.rsi.ready && row.rsi.v >= p.overbought
  }

  /** The row leaves a position bought at `price` alone: too small an order, or nothing reached. */
  predicate Passes(p: Config, row: Row, price: real, qty: real) {
    var stop, target := StopOf(p, price), TargetOf(p, price);
    || Value(qty, row.close) < p.minNotional
    || (Untouched(row, stop, target) && stop < row.close < target && !(row.rsi.ready && row.rsi.v >= p.overbought))
  }

  /** Sold at the row: below the level that was reached, or the close, by the slippage, the fee taken off. */
  predicate SoldAt(p: Config, row: Row, price: real, qty: real, cost: real, t: Trade) {
    var stop, target := StopOf(p, price), TargetOf(p, price);
    && Value(qty, row.close) >= p.minNotional && t.exitTs == row.ts && t.entryPrice == price
    && Says(p, row, stop, target, t.reason, t.intrabar)
    && t.exitPrice == SoldFor(p, if !t.intrabar then row.close else if t.reason.StopLoss? then stop else target)
    && t.pnl == Received(p, qty, t.exitPrice) - cost && IsShare(t.pnlPct, t.pnl, cost)
  }

  // ---------- the whole log ----------

  /** The cash the m-th trade was entered with. */
  function CashBefore(initial: real, trades: seq<Trade>, m: nat): real
    requires m <= |trades|
  {
    initial + TotalPnl(trades[..m])
  }

  /** The first row at which the m-th trade could be entered. */
  function FreeFrom(spans: seq<Span>, m: nat): nat
    requires m <= |spans|
  {
    if m == 0 then 0 else spans[m - 1].exit + 1
  }

  /** No row from lo to hi invites. */
  ghost predicate NoneInvites(p: Config, rows: seq<Row>, lo: nat, hi: nat, cash: real)
    requires p.reserveMargin > 0.0
  {
    hi <= |rows| && forall k :: lo <= k < hi ==> !Invites(p, rows[k], cash)
  }

  /** Every row after lo and before hi leaves the position alone. */
  ghost predicate AllPass(p: Config, rows: seq<Row>, lo: nat, hi: nat, price: real, qty: real) {
    hi <= |rows| && forall k :: lo < k < hi ==> Passes(p, rows[k], price, qty)
  }

  lemma PrefixPasses(p: Config, rows: seq<Row>, longer: seq<Row>, lo: nat, hi: nat, cash: real, price: real, qty: real)
    requires p.reserveMargin > 0.0 && rows <= longer
    ensures NoneInvites(p, rows, lo, hi, cash) ==> NoneInvites(p, longer, lo, hi, cash)
    ensures AllPass(p, rows, lo, hi, price, qty) ==> AllPass(p, longer, lo, hi, price, qty)
  {
    hide Invites, Passes;
  }

  /** Trade t was entered at the first inviting row from `from` on and left at the first row that said so. */
  ghost predicate Explains(p: Config, rows: seq<Row>, from: nat, s: Span, cash: real, t: Trade)
    requires p.reserveMargin > 0.0
  {
    && from <= s.entry < s.exit < |rows|
    && NoneInvites(p, rows, from, s.entry, cash)
    && t.entryTs == rows[s.entry].ts
    && exists price, qty, cost ::
         && Bought(p, rows[s.entry], cash, price, qty, cost) && SoldAt(p, rows[s.exit], price, qty, cost, t)
         && AllPass(p, rows, s.entry, s.exit, price, qty)
  }

  /** The open position, if any, was entered at row i and every row since passed; if none, no row since invited. */
  ghost predicate ExplainsOpen(p: Config, rows: seq<Row>, from: nat, i: nat, cash: real, b: Book)
    requires p.reserveMargin > 0.0
  {
    if b.inPosition then
      && from <= i < |rows| && b.entryTs == rows[i].ts && b.krw == cash - b.cost
      && NoneInvites(p, rows, from, i, cash)
      && Bought(p, rows[i], cash, b.entryPrice, b.coin, b.cost)
      && AllPass(p, rows, i, |rows|, b.entryPrice, b.coin)
    else
      b.krw == cash && NoneInvites(p, rows, from, |rows|, cash)
  }

  /** Each trade is explained, from the row after the one that ended the trade before it. */
  ghost predicate AllExplained(p: Config, initial: real, rows: seq<Row>, trades: seq<Trade>, spans: seq<Span>)
    requires p.reserveMargin > 0.0
  {
    && |spans| == |trades|
    && (forall m :: 0 <= m < |spans| ==>
          Explains(p, rows, FreeFrom(spans, m), spans[m], CashBefore(initial, trades, m), trades[m]))
    && FreeFrom(spans, |spans|) <= |rows|
  }

  ghost predicate Log(p: Config, initial: real, rows: seq<Row>, b: Book, spans: seq<Span>, open: nat)
    requires p.reserveMargin > 0.0
  {
    && AllExplained(p, initial, rows, b.trades, spans)
    && ExplainsOpen(p, rows, FreeFrom(spans, |spans|), open, CashBefore(initial, b.trades, |b.trades|), b)
    && (b.inPosition ==> b.stop == StopOf(p, b.entryPrice) && b.target == TargetOf(p, b.entryPrice))
  }

  // ---------- one row ----------

  lemma EntryIsBought(p: Config, b: Book, row: Row)
    requires p.reserveMargin > 0.0 && BuyPrice(p, row.close) > 0.0 && !b.inPosition
    ensures
      var b' := Stepped(p, b, row);
      if Invites(p, row, b.krw) then
        && b'.inPosition && Bought(p, row, b.krw, b'.entryPrice, b'.coin, b'.cost) && b'.krw == b.krw - b'.cost
        && b'.stop == StopOf(p, b'.entryPrice) && b'.target == TargetOf(p, b'.entryPrice)
        && b'.entryTs == row.ts && b'.trades == b.trades
      else b' == b
  {
    PriceFacts(p, b.krw, row.close);
    LevelFacts(p, BuyPrice(p, row.close));
    hide Outlay, EntryKrw, BuyPrice, Percent, Quotient, Fee, StopOf, TargetOf;
  }

  lemma PriceFacts(p: Config, cash: real, close: real)
    requires p.reserveMargin > 0.0 && BuyPrice(p, close) > 0.0
    ensures
      var krw, price := EntryKrw(p, cash), BuyPrice(p, close);
      && krw == Outlay(p, cash) && price == close * (1.0 + p.slippageRate)
      && Quotient(krw, price) * price == krw && krw + Fee(p, krw) == krw * (1.0 + p.feeRate)
  {
  }

  lemma LevelFacts(p: Config, price: real)
    ensures Percent(price, -p.stopLossPct) == StopOf(p, price) && Percent(price, p.profitTargetPct) == TargetOf(p, price)
  {
  }

  lemma SaleFacts(p: Config, qty: real, level: real, cost: real)
    ensures
      var price := SellPrice(p, level);
      var net := Proceeds(p, qty, price);
      && price == SoldFor(p, level) && net == Received(p, qty, price)
      && IsShare(Relative(net - cost, cost), net - cost, cost)
  {
    hide Received, Proceeds;
    NetFacts(p, qty, SellPrice(p, level));
  }

  lemma NetFacts(p: Config, qty: real, price: real)
    ensures Proceeds(p, qty, price) == Received(p, qty, price)
  {
    var gross := qty * price;
    assert Fee(p, gross) == gross * p.feeRate;
    assert gross - gross * p.feeRate == gross * (1.0 - p.feeRate);
  }

  lemma SameWorth(qty: real, price: real)
    ensures Worth(qty, price) == Value(qty, price)
  {
  }

  lemma ExitIsSold(p: Config, b: Book, row: Row)
    requires p.reserveMargin > 0.0 && BuyPrice(p, row.close) > 0.0 && b.inPosition
    requires b.stop == StopOf(p, b.entryPrice) && b.target == TargetOf(p, b.entryPrice)
    ensures
      var b' := Stepped(p, b, row);
      if Passes(p, row, b.entryPrice, b.coin) then b' == b
      else
        && !b'.inPosition && |b'.trades| == |b.trades| + 1 && b'.trades[..|b.trades|] == b.trades
        && var t := b'.trades[|b.trades|];
        && SoldAt(p, row, b.entryPrice, b.coin, b.cost, t) && t.entryTs == b.entryTs
        && b'.krw == b.krw + b.cost + t.pnl
  {
    SameWorth(b.coin, row.close);
    SaleFacts(p, b.coin, b.stop, b.cost);
    SaleFacts(p, b.coin, b.target, b.cost);
    SaleFacts(p, b.coin, row.close, b.cost);
    hide SellPrice, Proceeds, Relative, StopOf, TargetOf, Worth, Value, Received, SoldFor, IsShare;
  }

  // ---------- all rows ----------

  lemma ExplainsLonger(p: Config, rows: seq<Row>, longer: seq<Row>, from: nat, s: Span, cash: real, t: Trade)
    requires p.reserveMargin > 0.0 && rows <= longer && Explains(p, rows, from, s, cash, t)
    ensures Explains(p, longer, from, s, cash, t)
  {
    hide NoneInvites, AllPass, Bought, SoldAt;
    var price, qty, cost :|
      && Bought(p, rows[s.entry], cash, price, qty, cost) && SoldAt(p, rows[s.exit], price, qty, cost, t)
      && AllPass(p, rows, s.entry, s.exit, price, qty);
    PrefixPasses(p, rows, longer, from, s.entry, cash, price, qty);
    PrefixPasses(p, rows, longer, s.entry, s.exit, cash, price, qty);
    assert Bought(p, longer[s.entry], cash, price, qty, cost) && SoldAt(p, longer[s.exit], price, qty, cost, t);
  }

  lemma TotalOfPrefix(initial: real, trades: seq<Trade>, more: seq<Trade>, m: nat)
    requires m <= |trades| <= |more| && more[..|trades|] == trades
    ensures CashBefore(initial, more, m) == CashBefore(initial, trades, m)
  {
    assert more[..m] == trades[..m];
  }

  lemma CashAfter(initial: real, trades: seq<Trade>)
    requires trades != []
    ensures CashBefore(initial, trades, |trades|)
            == CashBefore(initial, trades, |trades| - 1) + trades[|trades| - 1].pnl
  {
    assert trades[..|trades|] == trades;
  }

  lemma AllExplainedLonger(p: Config, initial: real, rows: seq<Row>, longer: seq<Row>, trades: seq<Trade>,
                           spans: seq<Span>)
    requires p.reserveMargin > 0.0 && rows <= longer && AllExplained(p, initial, rows, trades, spans)
    ensures AllExplained(p, initial, longer, trades, spans)
  {
    hide Explains, CashBefore, FreeFrom;
    forall m | 0 <= m < |spans|
      ensures Explains(p, longer, FreeFrom(spans, m), spans[m], CashBefore(initial, trades, m), trades[m])
    {
      ExplainsLonger(p, rows, longer, FreeFrom(spans, m), spans[m], CashBefore(initial, trades, m), trades[m]);
    }
  }

  lemma OneMoreExplained(p: Config, initial: real, rows: seq<Row>, trades: seq<Trade>, spans: seq<Span>,
                         t: Trade, s: Span)
    requires p.reserveMargin > 0.0 && AllExplained(p, initial, rows, trades, spans)
    requires Explains(p, rows, FreeFrom(spans, |spans|), s, CashBefore(initial, trades, |trades|), t)
    ensures AllExplained(p, initial, rows, trades + [t], spans + [s])
  {
    var trades', spans' := trades + [t], spans + [s];
    assert trades'[..|trades|] == trades;
    assert FreeFrom(spans', |spans'|) == s.exit + 1 <= |rows|;
    hide Explains, CashBefore;
    forall m | 0 <= m < |spans'|
      ensures Explains(p, rows, FreeFrom(spans', m), spans'[m], CashBefore(initial, trades', m), trades'[m])
    {
      TotalOfPrefix(initial, trades, trades', m);
      assert FreeFrom(spans', m) == FreeFrom(spans, m);
    }
  }

  /** One more row on a log without an open position. */
  lemma FlatLog(p: Config, initial: real, rows: seq<Row>, b: Book, spans: seq<Span>, open: nat)
    requires Buyable(p, rows) && rows != [] && !b.inPosition
    requires Log(p, initial, rows[..|rows| - 1], b, spans, open)
    ensures Log(p, initial, rows, Stepped(p, b, rows[|rows| - 1]), spans, |rows| - 1)
  {
    var n := |rows| - 1;
    var b', from, cash := Stepped(p, b, rows[n]), FreeFrom(spans, |spans|), CashBefore(initial, b.trades, |b.trades|);
    EntryIsBought(p, b, rows[n]);
    AllExplainedLonger(p, initial, rows[..n], rows, b.trades, spans);
    FreeWithin(p, initial, rows[..n], b.trades, spans);
    PrefixPasses(p, rows[..n], rows, from, n, cash, 0.0, 0.0);
    OneMoreRow(p, rows, from, n, cash, b'.entryPrice, b'.coin);
    hide Stepped, Bought, Invites, AllExplained, StopOf, TargetOf, CashBefore, FreeFrom, NoneInvites, AllPass;
  }

  lemma OneMoreRow(p: Config, rows: seq<Row>, from: nat, n: nat, cash: real, price: real, qty: real)
    requires p.reserveMargin > 0.0 && n < |rows|
    ensures NoneInvites(p, rows, from, n, cash) && !Invites(p, rows[n], cash) ==> NoneInvites(p, rows, from, n + 1, cash)
    ensures AllPass(p, rows, from, n, price, qty) && Passes(p, rows[n], price, qty) ==>
              AllPass(p, rows, from, n + 1, price, qty)
    ensures AllPass(p, rows, n, n + 1, price, qty)
  {
    hide Invites, Passes;
  }

  lemma FreeWithin(p: Config, initial: real, rows: seq<Row>, trades: seq<Trade>, spans: seq<Span>)
    requires p.reserveMargin > 0.0 && AllExplained(p, initial, rows, trades, spans)
    ensures FreeFrom(spans, |spans|) <= |rows| && |spans| == |trades|
  {
  }

  /** A row that leaves the open position alone. */
  lemma HeldLog(p: Config, initial: real, rows: seq<Row>, b: Book, spans: seq<Span>, open: nat)
    requires Buyable(p, rows) && rows != [] && b.inPosition
    requires Log(p, initial, rows[..|rows| - 1], b, spans, open)
    requires Passes(p, rows[|rows| - 1], b.entryPrice, b.coin)
    ensures Log(p, initial, rows, b, spans, open)
  {
    var n := |rows| - 1;
    var from, cash := FreeFrom(spans, |spans|), CashBefore(initial, b.trades, |b.trades|);
    AllExplainedLonger(p, initial, rows[..n], rows, b.trades, spans);
    PrefixPasses(p, rows[..n], rows, from, open, cash, 0.0, 0.0);
    PrefixPasses(p, rows[..n], rows, open, n, cash, b.entryPrice, b.coin);
    OneMoreRow(p, rows, open, n, cash, b.entryPrice, b.coin);
    hide Bought, Invites, Passes, AllExplained, StopOf, TargetOf, CashBefore, FreeFrom, NoneInvites, AllPass;
  }

  /** The row that closes the open position explains its trade. */
  lemma ClosingExplains(p: Config, rows: seq<Row>, from: nat, open: nat, cash: real, b: Book, t: Trade)
    requires p.reserveMargin > 0.0 && rows != [] && b.inPosition
    requires ExplainsOpen(p, rows[..|rows| - 1], from, open, cash, b)
    requires SoldAt(p, rows[|rows| - 1], b.entryPrice, b.coin, b.cost, t) && t.entryTs == b.entryTs
    ensures Explains(p, rows, from, Span(open, |rows| - 1), cash, t)
  {
    hide Bought, SoldAt, NoneInvites, AllPass;
    var n := |rows| - 1;
    PrefixPasses(p, rows[..n], rows, from, open, cash, 0.0, 0.0);
    PrefixPasses(p, rows[..n], rows, open, n, cash, b.entryPrice, b.coin);
    assert Bought(p, rows[open], cash, b.entryPrice, b.coin, b.cost);
  }

  lemma NoRowsLeft(p: Config, rows: seq<Row>, cash: real)
    requires p.reserveMargin > 0.0
    ensures NoneInvites(p, rows, |rows|, |rows|, cash)
  {
  }

  lemma ClosedLog(p: Config, initial: real, rows: seq<Row>, b: Book, spans: seq<Span>, open: nat)
    requires Buyable(p, rows) && rows != [] && b.inPosition
    requires Log(p, initial, rows[..|rows| - 1], b, spans, open)
    requires !Passes(p, rows[|rows| - 1], b.entryPrice, b.coin)
    ensures Log(p, initial, rows, Stepped(p, b, rows[|rows| - 1]), spans + [Span(open, |rows| - 1)], open)
  {
    var b' := Stepped(p, b, rows[|rows| - 1]);
    ExitIsSold(p, b, rows[|rows| - 1]);
    var t := b'.trades[|b.trades|];
    assert b'.trades == b.trades + [t];
    hide *;
    ClosedWith(p, initial, rows, b, b', t, spans, open);
  }

  lemma ClosedWith(p: Config, initial: real, rows: seq<Row>, b: Book, b': Book, t: Trade, spans: seq<Span>, open: nat)
    requires p.reserveMargin > 0.0 && rows != [] && b.inPosition && !b'.inPosition
    requires Log(p, initial, rows[..|rows| - 1], b, spans, open)
    requires b'.trades == b.trades + [t] && t.entryTs == b.entryTs && b'.krw == b.krw + b.cost + t.pnl
    requires SoldAt(p, rows[|rows| - 1], b.entryPrice, b.coin, b.cost, t)
    ensures Log(p, initial, rows, b', spans + [Span(open, |rows| - 1)], open)
  {
    hide SoldAt, StopOf, TargetOf, CashBefore, AllExplained, NoneInvites, AllPass, Bought, Explains;
    var n := |rows| - 1;
    var from, cash := FreeFrom(spans, |spans|), CashBefore(initial, b.trades, |b.trades|);
    ClosingExplains(p, rows, from, open, cash, b, t);
    AllExplainedLonger(p, initial, rows[..n], rows, b.trades, spans);
    FreeWithin(p, initial, rows, b.trades, spans);
    OneMoreExplained(p, initial, rows, b.trades, spans, t, Span(open, n));
    CashAfter(initial, b'.trades);
    assert b'.trades[..|b.trades|] == b.trades;
    TotalOfPrefix(initial, b.trades, b'.trades, |b.trades|);
    NoRowsLeft(p, rows, CashBefore(initial, b'.trades, |b'.trades|));
  }

  /**
    For every series: each trade was entered at the first row, since the one before it was left, that invited
    with the cash at hand, and left at the first row after that which said so, with the prices, fees and
    profit of that arithmetic; and after the last one nothing was passed over either.
  */
  lemma {:induction false} TradesAreExplained(p: Config, initial: real, rows: seq<Row>)
    returns (spans: seq<Span>, open: nat)
    requires Buyable(p, rows)
    ensures Log(p, initial, rows, After(p, initial, rows), spans, open)
  {
    if rows == [] {
      spans, open := [], 0;
    } else {
      hide Log, Stepped, Passes;
      var earlier, row := rows[..|rows| - 1], rows[|rows| - 1];
      spans, open := TradesAreExplained(p, initial, earlier);
      var b := After(p, initial, earlier);
      if !b.inPosition {
        FlatLog(p, initial, rows, b, spans, open);
        open := |rows| - 1;
      } else if Passes(p, row, b.entryPrice, b.coin) {
        HeldLog(p, initial, rows, b, spans, open);
        HeldStays(p, initial, earlier, b, row, spans, open);
      } else {
        ClosedLog(p, initial, rows, b, spans, open);
        spans := spans + [Span(open, |rows| - 1)];
      }
    }
  }

  lemma HeldStays(p: Config, initial: real, rows: seq<Row>, b: Book, row: Row, spans: seq<Span>, open: nat)
    requires p.reserveMargin > 0.0 && BuyPrice(p, row.close) > 0.0 && b.inPosition
    requires Log(p, initial, rows, b, spans, open) && Passes(p, row, b.entryPrice, b.coin)
    ensures Stepped(p, b, row) == b
  {
    ExitIsSold(p, b, row);
  }

  /** The equity after every row: what was made so far, and of an open position its value instead of its cost. */
  lemma EquityIsExplained(p: Config, initial: real, rows: seq<Row>, spans: seq<Span>, open: nat)
    requires Buyable(p, rows) && rows != [] && Log(p, initial, rows, After(p, initial, rows), spans, open)
    ensures
      var b := After(p, initial, rows);
      var made := CashBefore(initial, b.trades, |b.trades|);
      Equity(b, rows[|rows| - 1].close)
      == if b.inPosition then made - b.cost + Value(b.coin, rows[|rows| - 1].close) else made
  {
    SameWorth(After(p, initial, rows).coin, rows[|rows| - 1].close);
    hide After, Worth, Value, TotalPnl, CashBefore;
  }
}
