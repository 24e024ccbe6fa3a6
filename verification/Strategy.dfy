/**
  src/trading/strategies/RsiMeanReversionStrategy.cpp: the position state machine
  Flat -> PendingEntry -> InPosition -> PendingExit -> Flat. StrategyState is its value; the
  functions give each entry point's effect; the class performs it in place.
*/
module Strategy {
  import opened Domain
  import opened Rsi
  import opened Windows

  datatype Phase = Flat | PendingEntry | InPosition | PendingExit

  datatype Params = Params(
    rsiLength: nat, oversold: real, overbought: real, trendLookWindow: nat, maxTrendStrength: real,
    volatilityWindow: nat, minVolatility: real, utilization: real, stopLossPct: real, profitTargetPct: real)

  datatype Candle = Candle(market: Id, ts: Id, close: real)

  datatype AccountSnapshot = AccountSnapshot(krw: real, coin: real)

  datatype Snapshot = Snapshot(close: real, rsi: Reading, marketOk: bool)

  datatype StrategyState = StrategyState(
    market: Id, params: Params, phase: Phase, pending: Option<Id>,
    filled: real, cost: real, lastPrice: real,
    entry: Option<real>, stop: Option<real>, target: Option<real>,
    rsi: RsiState, closes: CloseState, vol: VolState, lastTs: Option<Id>)

  function Initial(market: Id, p: Params): StrategyState {
    StrategyState(market, p, Flat, None, 0.0, 0.0, 0.0, None, None, None,
                  ClearedRsi(p.rsiLength), CloseState(p.trendLookWindow, []), ClearedVol(p.volatilityWindow), None)
  }

  function ClearPending(s: StrategyState): StrategyState {
    s.(pending := None, filled := 0.0, cost := 0.0, lastPrice := 0.0)
  }

  function StopPrice(entry: real, stopLossPct: real): real {
    entry * (1.0 - Max(0.0, stopLossPct) / 100.0)
  }

  function TargetPrice(entry: real, profitTargetPct: real): real {
    entry * (1.0 + Max(0.0, profitTargetPct) / 100.0)
  }

  function WithEntry(s: StrategyState, entry: real): StrategyState {
    s.(entry := Some(entry),
       stop := Some(StopPrice(entry, s.params.stopLossPct)),
       target := Some(TargetPrice(entry, s.params.profitTargetPct)))
  }

  function WithoutEntry(s: StrategyState): StrategyState {
    s.(entry := None, stop := None, target := None)
  }

  function SyncOnStart(s: StrategyState, coin: real, avgEntry: real): StrategyState {
    var s' := ClearPending(s);
    if coin > 0.0 && avgEntry > 0.0 then WithEntry(s'.(phase := InPosition), avgEntry)
    else WithoutEntry(s'.(phase := Flat))
  }

  // ---------- signals ----------

  function Abs(x: real): real {
    if x < 0.0 then -x else x
  }

  predicate TrendOk(p: Params, close: real, closeN: Reading) {
    closeN.ready && closeN.v != 0.0 && Abs(close - closeN.v) / closeN.v <= p.maxTrendStrength
  }

  /** Compares standard deviation with the minimum; the reading carries the variance. */
  predicate VolatilityOk(p: Params, vol: Reading) {
    vol.ready && (p.minVolatility <= 0.0 || vol.v >= Square(p.minVolatility))
  }

  function BuildSnapshot(s: StrategyState, c: Candle): (StrategyState, Snapshot) {
    var (rsi, rsiOut) := RsiUpdate(s.rsi, c.close);
    var (closes, closeOut) := CloseUpdate(s.closes, c.close);
    var (vol, volOut) := VolUpdate(s.vol, c.close);
    (s.(rsi := rsi, closes := closes, vol := vol),
     Snapshot(c.close, rsiOut, TrendOk(s.params, c.close, closeOut) && VolatilityOk(s.params, volOut) && rsiOut.ready))
  }

  // ---------- decisions ----------

  function BuyRequest(market: Id, krw: real, cid: Id): OrderRequest {
    OrderRequest(market, BID, Market, AmountSize(krw), None, cid)
  }

  function SellRequest(market: Id, volume: real, cid: Id): OrderRequest {
    OrderRequest(market, ASK, Market, VolumeSize(volume), None, cid)
  }

  function BeginPending(s: StrategyState, phase: Phase, cid: Id): StrategyState {
    s.(phase := phase, pending := Some(cid), filled := 0.0, cost := 0.0, lastPrice := 0.0)
  }

  /** Reserving this amount with the margin reserves utilization times the available KRW. */
  function EntryAmount(krw: real, utilization: real): real {
    krw / RESERVE_MARGIN * utilization
  }

  /** `cid` is the fresh client identifier the source draws when it decides to order. */
  function MaybeEnter(s: StrategyState, snap: Snapshot, a: AccountSnapshot, cid: Id): (StrategyState,
                      Option<OrderRequest>) {
    var krw := EntryAmount(a.krw, s.params.utilization);
    if a.krw <= 0.0 || !snap.marketOk || snap.rsi.v > s.params.oversold || krw < MIN_NOTIONAL_KRW then (s, None)
    else (BeginPending(s, PendingEntry, cid), Some(BuyRequest(s.market, krw, cid)))
  }

  predicate ExitSignal(s: StrategyState, snap: Snapshot) {
    || (snap.rsi.ready && snap.rsi.v >= s.params.overbought)
    || (s.entry.Some? && s.stop.Some? && s.target.Some?
        && (snap.close <= s.stop.value || snap.close >= s.target.value))
  }

  function MaybeExit(s: StrategyState, snap: Snapshot, a: AccountSnapshot, cid: Id): (StrategyState,
                     Option<OrderRequest>) {
    if a.coin <= 0.0 || !ExitSignal(s, snap) || a.coin * snap.close < MIN_NOTIONAL_KRW then (s, None)
    else (BeginPending(s, PendingExit, cid), Some(SellRequest(s.market, a.coin, cid)))
  }

  /** Flat with a tradable holding becomes InPosition; InPosition with dust becomes Flat. */
  function SelfHeal(s: StrategyState, close: real, a: AccountSnapshot): StrategyState {
    if s.phase.Flat? && a.coin * close >= MIN_NOTIONAL_KRW then WithEntry(s.(phase := InPosition), close)
    else if s.phase.InPosition? && a.coin * close < MIN_NOTIONAL_KRW then WithoutEntry(s.(phase := Flat))
    else s
  }

  function OnCandle(s: StrategyState, c: Candle, a: AccountSnapshot, cid: Id): (StrategyState, Option<OrderRequest>) {
    if c.market != s.market || s.lastTs == Some(c.ts) then (s, None)
    else
      var (s1, snap) := BuildSnapshot(s.(lastTs := Some(c.ts)), c);
      var s2 := SelfHeal(s1, c.close, a);
      match s2.phase
      case Flat => MaybeEnter(s2, snap, a, cid)
      case InPosition => MaybeExit(s2, snap, a, cid)
      case _ => (s2, None)
  }

  function OnIntrabarCandle(s: StrategyState, close: real, a: AccountSnapshot, cid: Id)
    : (StrategyState, Option<OrderRequest>)
  {
    if || !s.phase.InPosition? || a.coin <= 0.0 || s.stop.None? || s.target.None?
       || (close > s.stop.value && close < s.target.value)
       || a.coin * close < MIN_NOTIONAL_KRW
    then (s, None)
    else (BeginPending(s, PendingExit, cid), Some(SellRequest(s.market, a.coin, cid)))
  }

  // ---------- feedback from the engine ----------

  function OnFill(s: StrategyState, identifier: Id, price: real, volume: real): StrategyState {
    if s.pending != Some(identifier) then s
    else if volume > 0.0 then
      s.(lastPrice := price, filled := s.filled + volume, cost := s.cost + price * volume)
    else s.(lastPrice := price)
  }

  /** The price an order is booked at: the VWAP of its trade events, else the snapshot's average, else the last price. */
  function FinalPrice(filled: real, cost: real, lastPrice: real, executedVolume: real, executedFunds: real): real {
    if filled > 0.0 then cost / filled
    else if executedVolume > 0.0 && executedFunds > 0.0 then executedFunds / executedVolume
    else lastPrice
  }

  function Rollback(s: StrategyState): StrategyState {
    s.(phase := if s.phase.PendingEntry? then Flat else InPosition)
  }

  predicate ExpectedEffect(phase: Phase, effect: PositionEffect) {
    match effect
    case NoEffect => true
    case Opened => phase.PendingEntry?
    case Reduced | Closed => phase.PendingExit?
  }

  function OnOrderUpdate(
    s: StrategyState, identifier: Id, status: OrderStatus, executedVolume: real, executedFunds: real,
    effect: PositionEffect): StrategyState
  {
    if s.pending != Some(identifier) || !status.Terminal() then s
    else if effect.NoEffect? then ClearPending(Rollback(s))
    else
      var price := FinalPrice(s.filled, s.cost, s.lastPrice, executedVolume, executedFunds);
      var s' :=
        if s.phase.PendingEntry? && effect.Opened? then
          (if price > 0.0 then WithEntry(s, price) else s).(phase := InPosition)
        else if s.phase.PendingExit? && effect.Reduced? then s.(phase := InPosition)
        else if s.phase.PendingExit? && effect.Closed? then WithoutEntry(s.(phase := Flat))
        else Rollback(s);
      ClearPending(s')
  }

  function OnSubmitFailed(s: StrategyState): StrategyState {
    if s.pending.None? then s
    else
      ClearPending(match s.phase
                   case PendingEntry => s.(phase := Flat)
                   case PendingExit => s.(phase := InPosition)
                   case _ => s)
  }

  function HandleEvent(s: StrategyState, ev: EngineEvent): StrategyState {
    match ev
    case FillEvent(identifier, _, _, _, price, volume) => OnFill(s, identifier, price, volume)
    case StatusEvent(identifier, _, status, _, executedVolume, _, executedFunds, effect) =>
      OnOrderUpdate(s, identifier, status, executedVolume, executedFunds, effect)
  }

  function HandleEvents(s: StrategyState, evs: seq<EngineEvent>): StrategyState {
    if evs == [] then s
    else HandleEvent(HandleEvents(s, evs[..|evs| - 1]), evs[|evs| - 1])
  }

  // ---------- the strategy object ----------

  class RsiMeanReversionStrategy {
    const market: Id
    const params: Params
    var phase: Phase
    var pending: Option<Id>
    var filled: real
    var cost: real
    var lastPrice: real
    var entry: Option<real>
    var stop: Option<real>
    var target: Option<real>
    const rsi: RsiWilder
    const closes: ClosePriceWindow
    const vol: ChangeVolatilityIndicator
    var lastTs: Option<Id>

    ghost function Repr(): set<object> {
      {this, rsi, closes, closes.window, closes.window.buf, vol, vol.window, vol.window.buf}
    }

    ghost predicate Valid()
      reads Repr()
    {
      closes.Valid() && vol.Valid() && closes.window != vol.window && closes.window.buf != vol.window.buf
    }

    ghost function View(): StrategyState
      reads Repr()
      requires Valid()
    {
      StrategyState(market, params, phase, pending, filled, cost, lastPrice, entry, stop, target,
                    rsi.View(), closes.View(), vol.View(), lastTs)
    }

    constructor (market: Id, params: Params)
      ensures Valid() && fresh(Repr() - {this}) && View() == Initial(market, params)
    {
      this.market, this.params := market, params;
      phase, pending, filled, cost, lastPrice := Flat, None, 0.0, 0.0, 0.0;
      entry, stop, target, lastTs := None, None, None, None;
      rsi := new RsiWilder(params.rsiLength);
      closes := new ClosePriceWindow(params.trendLookWindow);
      vol := new ChangeVolatilityIndicator(params.volatilityWindow);
    }

    method ClearPendingState()
      requires Valid()
      modifies this
      ensures Valid() && View() == ClearPending(old(View()))
    {
      pending, filled, cost, lastPrice := None, 0.0, 0.0, 0.0;
    }

    method SetStopsFromEntry(price: real)
      requires Valid()
      modifies this
      ensures Valid() && View() == WithEntry(old(View()), price)
    {
      hide StopPrice, TargetPrice;
      entry := Some(price);
      stop := Some(StopPrice(price, params.stopLossPct));
      target := Some(TargetPrice(price, params.profitTargetPct));
    }

    method ResetEntry()
      requires Valid()
      modifies this
      ensures Valid() && View() == WithoutEntry(old(View()))
    {
      entry, stop, target := None, None, None;
    }

    method Sync(coin: real, avgEntry: real)
      requires Valid()
      modifies this
      ensures Valid() && View() == SyncOnStart(old(View()), coin, avgEntry)
    {
      ClearPendingState();
      if coin > 0.0 {
        phase := InPosition;
        if avgEntry > 0.0 {
          SetStopsFromEntry(avgEntry);
        } else {
          phase := Flat;
          ResetEntry();
        }
      } else {
        phase := Flat;
        ResetEntry();
      }
    }

    method UpdateIndicators(c: Candle) returns (snap: Snapshot)
      requires Valid()
      modifies Repr() - {this}
      ensures Valid() && (View(), snap) == BuildSnapshot(old(View()), c)
    {
      hide RsiUpdate, CloseUpdate, VolUpdate;
      var rsiOut := rsi.Update(c.close);
      var closeOut := closes.Update(c.close);
      var volOut := vol.Update(c.close);
      var marketOk := TrendOk(params, c.close, closeOut) && VolatilityOk(params, volOut) && rsiOut.ready;
      return Snapshot(c.close, rsiOut, marketOk);
    }

    method StartOrder(next: Phase, cid: Id)
      requires Valid()
      modifies this
      ensures Valid() && View() == BeginPending(old(View()), next, cid)
    {
      filled, cost, lastPrice := 0.0, 0.0, 0.0;
      phase, pending := next, Some(cid);
    }

    method Enter(snap: Snapshot, a: AccountSnapshot, cid: Id) returns (order: Option<OrderRequest>)
      requires Valid()
      modifies this
      ensures Valid() && (View(), order) == MaybeEnter(old(View()), snap, a, cid)
    {
      hide EntryAmount;
      if a.krw <= 0.0 {
        return None;
      }
      if !snap.marketOk {
        return None;
      }
      if !(snap.rsi.v <= params.oversold) {
        return None;
      }
      var krw := EntryAmount(a.krw, params.utilization);
      if krw < MIN_NOTIONAL_KRW {
        return None;
      }
      StartOrder(PendingEntry, cid);
      return Some(BuyRequest(market, krw, cid));
    }

    method Exit(snap: Snapshot, a: AccountSnapshot, cid: Id) returns (order: Option<OrderRequest>)
      requires Valid()
      modifies this
      ensures Valid() && (View(), order) == MaybeExit(old(View()), snap, a, cid)
    {
      if a.coin <= 0.0 {
        return None;
      }
      var rsiExit := snap.rsi.ready && snap.rsi.v >= params.overbought;
      if entry.None? || stop.None? || target.None? {
        if !rsiExit {
          return None;
        }
      } else {
        var hitStop := snap.close <= stop.value;
        var hitTarget := snap.close >= target.value;
        if !(hitStop || hitTarget || rsiExit) {
          return None;
        }
      }
      if a.coin * snap.close < MIN_NOTIONAL_KRW {
        return None;
      }
      StartOrder(PendingExit, cid);
      return Some(SellRequest(market, a.coin, cid));
    }

    method HandleCandle(c: Candle, a: AccountSnapshot, cid: Id) returns (order: Option<OrderRequest>)
      requires Valid()
      modifies Repr()
      ensures Valid() && (View(), order) == OnCandle(old(View()), c, a, cid)
    {
      hide BuildSnapshot, MaybeEnter, MaybeExit;
      if c.market != market {
        return None;
      }
      if lastTs == Some(c.ts) {
        return None;
      }
      lastTs := Some(c.ts);
      var snap := UpdateIndicators(c);
      Heal(c.close, a);
      match phase {
        case Flat => order := Enter(snap, a, cid);
        case PendingEntry => order := None;
        case InPosition => order := Exit(snap, a, cid);
        case PendingExit => order := None;
      }
    }

    method Heal(close: real, a: AccountSnapshot)
      requires Valid()
      modifies this
      ensures Valid() && View() == SelfHeal(old(View()), close, a)
    {
      var notional := a.coin * close;
      if phase.Flat? && notional >= MIN_NOTIONAL_KRW {
        phase := InPosition;
        SetStopsFromEntry(close);
      } else if phase.InPosition? && notional < MIN_NOTIONAL_KRW {
        phase := Flat;
        ResetEntry();
      }
    }

    method HandleIntrabar(close: real, a: AccountSnapshot, cid: Id) returns (order: Option<OrderRequest>)
      requires Valid()
      modifies this
      ensures Valid() && (View(), order) == OnIntrabarCandle(old(View()), close, a, cid)
    {
      if phase != InPosition {
        return None;
      }
      if a.coin <= 0.0 {
        return None;
      }
      if stop.None? || target.None? {
        return None;
      }
      var hitStop := close <= stop.value;
      var hitTarget := close >= target.value;
      if !hitStop && !hitTarget {
        return None;
      }
      if a.coin * close < MIN_NOTIONAL_KRW {
        return None;
      }
      StartOrder(PendingExit, cid);
      return Some(SellRequest(market, a.coin, cid));
    }

    method HandleFill(identifier: Id, price: real, volume: real)
      requires Valid()
      modifies this
      ensures Valid() && View() == OnFill(old(View()), identifier, price, volume)
    {
      if pending.None? {
        return;
      }
      if identifier != pending.value {
        return;
      }
      lastPrice := price;
      if volume > 0.0 {
        filled := filled + volume;
        cost := cost + price * volume;
      }
    }

    method HandleStatus(identifier: Id, status: OrderStatus, executedVolume: real, executedFunds: real,
                        effect: PositionEffect)
      requires Valid()
      modifies this
      ensures Valid()
      ensures View() == OnOrderUpdate(old(View()), identifier, status, executedVolume, executedFunds, effect)
    {
      hide FinalPrice, StopPrice, TargetPrice;
      if pending.None? {
        return;
      }
      if identifier != pending.value {
        return;
      }
      if !status.Terminal() {
        return;
      }
      if effect.NoEffect? {
        phase := if phase.PendingEntry? then Flat else InPosition;
        ClearPendingState();
        return;
      }
      var price := FinalPrice(filled, cost, lastPrice, executedVolume, executedFunds);
      if phase.PendingEntry? && effect.Opened? {
        if price > 0.0 {
          SetStopsFromEntry(price);
        }
        phase := InPosition;
      } else if phase.PendingExit? && effect.Reduced? {
        phase := InPosition;
      } else if phase.PendingExit? && effect.Closed? {
        phase := Flat;
        ResetEntry();
      } else {
        phase := if phase.PendingEntry? then Flat else InPosition;
      }
      ClearPendingState();
    }

    method SubmitFailed()
      requires Valid()
      modifies this
      ensures Valid() && View() == OnSubmitFailed(old(View()))
    {
      if pending.None? {
        return;
      }
      if phase.PendingEntry? {
        phase := Flat;
      } else if phase.PendingExit? {
        phase := InPosition;
      }
      ClearPendingState();
    }
  }
}
