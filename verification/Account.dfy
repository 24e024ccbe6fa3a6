/**
  src/trading/allocation/AccountManager.{h,cpp}: per-market budgets and the KRW reservation
  tokens. Budget and Token are the values; the functions on them say what each locked section
  does; the classes update them in place.
*/
module Account {
  import opened Domain

  datatype Budget = Budget(available: real, reserved: real, coin: real, avgEntry: real)

  datatype Token = Token(amount: real, consumed: real) {
    function Remaining(): real {
      amount - consumed
    }

    function Consume(krw: real): Token {
      this.(consumed := if consumed + krw > amount then amount else consumed + krw)
    }
  }

  predicate CanReserve(b: Budget, krw: real) {
    krw > 0.0 && krw <= b.available
  }

  function Reserved(b: Budget, krw: real): Budget {
    b.(available := b.available - krw, reserved := b.reserved + krw)
  }

  function Released(b: Budget, krw: real): Budget {
    b.(reserved := Max(0.0, b.reserved - krw), available := b.available + krw)
  }

  function BuyFilled(b: Budget, t: Token, krw: real, coin: real, price: real): (Budget, Token) {
    if krw <= 0.0 || coin <= 0.0 || price <= 0.0 then
      (b, t)
    else
      var paid := if krw > t.Remaining() then t.Remaining() else krw;
      if paid <= 0.0 then
        (b, t)
      else
        var balance := b.coin + coin;
        var avg := if balance > 0.0 then (b.coin * b.avgEntry + coin * price) / balance else b.avgEntry;
        (b.(reserved := Max(0.0, b.reserved - paid), coin := balance, avgEntry := avg), t.Consume(paid))
  }

  function SellFilled(b: Budget, coin: real, krw: real): Budget {
    if coin <= 0.0 || krw < 0.0 then b
    else b.(coin := b.coin - coin, available := b.available + krw)
  }

  predicate IsDust(b: Budget, mark: Option<real>) {
    || b.coin < COIN_EPSILON
    || (mark.Some? && mark.value > 0.0 && b.coin * mark.value < INIT_DUST_THRESHOLD_KRW)
  }

  function SellFinalized(b: Budget, mark: Option<real>): Budget {
    if IsDust(b, mark) then b.(coin := 0.0, avgEntry := 0.0) else b
  }

  function OrderFinalized(b: Budget, t: Token): Budget {
    var b' := if t.Remaining() > 0.0 then Released(b, t.Remaining()) else b;
    if 0.0 < b'.reserved < KRW_DUST_THRESHOLD
    then b'.(available := b'.available + b'.reserved, reserved := 0.0)
    else b'
  }

  /** A buy fill takes its cost, or what is left of the token if that is less, from token and reservation alike. */
  lemma BuyFillTakes(b: Budget, t: Token, krw: real, coin: real, price: real)
    requires 0.0 <= t.consumed <= t.amount && b.reserved >= t.Remaining() && b.coin >= 0.0
    ensures
      var (b', t') := BuyFilled(b, t, krw, coin, price);
      var paid := if krw <= 0.0 || coin <= 0.0 || price <= 0.0 then 0.0 else if krw <= t.Remaining() then krw else t.Remaining();
      && t'.amount == t.amount && t'.consumed == t.consumed + paid
      && b'.reserved == b.reserved - paid && b'.available == b.available
      && b'.coin == b.coin + (if paid > 0.0 then coin else 0.0)
  {
  }

  /** Finalizing leaves no reservation below 1 KRW, and what the reservation covers only changes places. */
  lemma FinalizedLeavesNoDust(b: Budget, t: Token)
    requires b.reserved >= 0.0
    ensures
      var b' := OrderFinalized(b, t);
      && b'.reserved >= 0.0 && !(0.0 < b'.reserved < 1.0) && b'.coin == b.coin && b'.avgEntry == b.avgEntry
      && (t.Remaining() <= b.reserved ==> b'.available + b'.reserved == b.available + b.reserved)
      && (0.0 <= t.Remaining() <= b.reserved - 1.0 ==> b'.available == b.available + t.Remaining())
  {
  }

  /** A sell fill moves coin out and KRW in, unless there is no coin in it or the KRW is negative. */
  lemma SellFillMoves(b: Budget, coin: real, krw: real)
    ensures
      var b', sold := SellFilled(b, coin, krw), coin > 0.0 && krw >= 0.0;
      && b'.coin == (if sold then b.coin - coin else b.coin)
      && b'.available == (if sold then b.available + krw else b.available)
      && b'.reserved == b.reserved && b'.avgEntry == b.avgEntry
  {
  }

  // ---------- rebuilding from the exchange account ----------

  datatype Position = Position(market: Id, free: real, avgBuyPrice: real)

  datatype ExchangeAccount = ExchangeAccount(krwFree: real, positions: seq<Position>)

  function ClearCoins(bs: map<Id, Budget>): map<Id, Budget> {
    map m | m in bs :: bs[m].(coin := 0.0, avgEntry := 0.0)
  }

  function ApplyPosition(bs: map<Id, Budget>, p: Position): map<Id, Budget> {
    if p.market !in bs then bs
    else if p.free * p.avgBuyPrice < INIT_DUST_THRESHOLD_KRW then
      bs[p.market := bs[p.market].(coin := 0.0, avgEntry := 0.0)]
    else
      bs[p.market := Budget(0.0, 0.0, p.free, p.avgBuyPrice)]
  }

  function ApplyPositions(bs: map<Id, Budget>, ps: seq<Position>): (r: map<Id, Budget>)
    ensures r.Keys == bs.Keys
  {
    if ps == [] then bs
    else ApplyPosition(ApplyPositions(bs, ps[..|ps| - 1]), ps[|ps| - 1])
  }

  function FlatMarkets(bs: map<Id, Budget>): set<Id> {
    set m | m in bs && bs[m].coin < COIN_EPSILON
  }

  function Rebuilt(bs: map<Id, Budget>, account: ExchangeAccount): map<Id, Budget> {
    var bs' := ApplyPositions(ClearCoins(bs), account.positions);
    var flat := FlatMarkets(bs');
    if flat == {} then bs'
    else
      map m | m in bs' ::
        if m in flat then bs'[m].(available := account.krwFree / |flat| as real, reserved := 0.0) else bs'[m]
  }

  ghost function TotalAvailable(markets: set<Id>, bs: map<Id, Budget>): real
    requires markets <= bs.Keys
  {
    if markets == {} then 0.0
    else
      HasElement(markets);
      var m :| m in markets;
      bs[m].available + TotalAvailable(markets - {m}, bs)
  }

  /** Cleared, or fully invested in a position worth at least 5000 KRW. */
  ghost predicate ClearedOrInvested(b: Budget) {
    || (b.coin == 0.0 && b.avgEntry == 0.0)
    || (b.available == 0.0 && b.reserved == 0.0 && b.coin * b.avgEntry >= INIT_DUST_THRESHOLD_KRW)
  }

  lemma {:induction false} AppliedPositionsSettle(bs: map<Id, Budget>, ps: seq<Position>, m: Id)
    requires m in bs && ClearedOrInvested(bs[m])
    ensures ClearedOrInvested(ApplyPositions(bs, ps)[m])
  {
    if ps != [] {
      AppliedPositionsSettle(bs, ps[..|ps| - 1], m);
    }
  }

  /** Position i is the last one the account reports for market m. */
  predicate LastPosition(ps: seq<Position>, m: Id, i: nat) {
    i < |ps| && ps[i].market == m && forall j :: i < j < |ps| ==> ps[j].market != m
  }

  /** The holding a position stands for: itself from 5000 KRW on, nothing below. */
  predicate Holds(b: Budget, p: Position) {
    if p.free * p.avgBuyPrice >= 5000.0 then b.coin == p.free && b.avgEntry == p.avgBuyPrice
    else b.coin == 0.0 && b.avgEntry == 0.0
  }

  lemma {:induction false} AppliedLast(bs: map<Id, Budget>, ps: seq<Position>, m: Id, i: nat)
    requires m in bs && LastPosition(ps, m, i)
    ensures Holds(ApplyPositions(bs, ps)[m], ps[i])
  {
    var n := |ps| - 1;
    if i < n {
      assert LastPosition(ps[..n], m, i);
      AppliedLast(bs, ps[..n], m, i);
    }
  }

  lemma {:induction false} AppliedOthers(bs: map<Id, Budget>, ps: seq<Position>, m: Id)
    requires m in bs && forall i :: 0 <= i < |ps| ==> ps[i].market != m
    ensures ApplyPositions(bs, ps)[m] == bs[m]
  {
    if ps != [] {
      AppliedOthers(bs, ps[..|ps| - 1], m);
    }
  }

  /** Coin and average price after a rebuild are those of the market's last position, or none. */
  lemma RebuiltHoldings(bs: map<Id, Budget>, account: ExchangeAccount, m: Id)
    requires m in bs
    ensures
      var b, ps := Rebuilt(bs, account)[m], account.positions;
      && (forall i: nat :: LastPosition(ps, m, i) ==> Holds(b, ps[i]))
      && ((forall i :: 0 <= i < |ps| ==> ps[i].market != m) ==> b.coin == 0.0 && b.avgEntry == 0.0)
  {
    var ps := account.positions;
    forall i: nat | LastPosition(ps, m, i)
      ensures Holds(Rebuilt(bs, account)[m], ps[i])
    {
      AppliedLast(ClearCoins(bs), ps, m, i);
    }
    if forall i :: 0 <= i < |ps| ==> ps[i].market != m {
      AppliedOthers(ClearCoins(bs), ps, m);
    }
  }

  ghost function Times(n: nat, x: real): real {
    if n == 0 then 0.0 else x + Times(n - 1, x)
  }

  lemma {:induction false} TimesIsProduct(n: nat, x: real)
    ensures Times(n, x) == n as real * x
  {
    if n > 0 {
      TimesIsProduct(n - 1, x);
    }
  }

  lemma {:induction false} TotalOfEqualShares(markets: set<Id>, flat: set<Id>, bs: map<Id, Budget>, share: real)
    requires flat <= markets <= bs.Keys
    requires forall m :: m in markets ==> bs[m].available == if m in flat then share else 0.0
    ensures TotalAvailable(markets, bs) == Times(|flat|, share)
  {
    if markets == {} {
      assert flat == {};
    } else {
      HasElement(markets);
      var m :| m in markets && TotalAvailable(markets, bs) == bs[m].available + TotalAvailable(markets - {m}, bs);
      TotalOfEqualShares(markets - {m}, flat - {m}, bs, share);
      if m in flat {
        assert |flat - {m}| == |flat| - 1;
      } else {
        assert flat - {m} == flat;
      }
    }
  }

  /**
    What the startup synchronisation leaves in each market, whatever the budgets were before:
    nothing reserved, coin only where the exchange reports a position worth 5000 KRW or more,
    and KRW only in the markets without coin, each with an equal share of the free KRW.
  */
  lemma RebuiltBudget(bs: map<Id, Budget>, account: ExchangeAccount, m: Id)
    requires m in bs
    ensures
      var r := Rebuilt(bs, account);
      && r.Keys == bs.Keys && r[m].reserved == 0.0
      && (r[m].coin == 0.0 || r[m].coin * r[m].avgEntry >= 5000.0)
      && var flat := FlatMarkets(r);
      && (forall k :: k in flat <==> k in r && r[k].coin < 0.00000001)
      && r[m].available == if m in flat then account.krwFree / |flat| as real else 0.0
  {
    AppliedPositionsSettle(ClearCoins(bs), account.positions, m);
    RebuiltFrom(bs, account, m);
    RebuiltFlat(bs, account);
    assert ClearedOrInvested(ApplyPositions(ClearCoins(bs), account.positions)[m]);
    hide Rebuilt, ApplyPositions, ClearCoins;
  }

  lemma RebuiltFrom(bs: map<Id, Budget>, account: ExchangeAccount, m: Id)
    requires m in bs
    ensures
      var bs', r := ApplyPositions(ClearCoins(bs), account.positions), Rebuilt(bs, account);
      var flat := FlatMarkets(bs');
      && r.Keys == bs.Keys
      && r[m] == if m in flat then bs'[m].(available := account.krwFree / |flat| as real, reserved := 0.0) else bs'[m]
  {
    hide ApplyPositions, ClearedOrInvested;
  }

  lemma RebuiltFlat(bs: map<Id, Budget>, account: ExchangeAccount)
    ensures FlatMarkets(Rebuilt(bs, account)) == FlatMarkets(ApplyPositions(ClearCoins(bs), account.positions))
  {
    hide ApplyPositions, ClearCoins, Rebuilt;
    KeysOfRebuilt(bs, account);
    ClearedKeys(bs);
    forall m | m in bs
      ensures Rebuilt(bs, account)[m].coin == ApplyPositions(ClearCoins(bs), account.positions)[m].coin
    {
      RebuiltFrom(bs, account, m);
    }
  }

  lemma ClearedKeys(bs: map<Id, Budget>)
    ensures ClearCoins(bs).Keys == bs.Keys
  {
  }

  lemma KeysOfRebuilt(bs: map<Id, Budget>, account: ExchangeAccount)
    ensures Rebuilt(bs, account).Keys == bs.Keys
  {
  }

  /** The free KRW of the account is handed out completely, unless every market holds coin. */
  lemma RebuiltDistributesKrw(bs: map<Id, Budget>, account: ExchangeAccount)
    ensures
      var r := Rebuilt(bs, account);
      TotalAvailable(r.Keys, r) == if exists m :: m in r && r[m].coin < 0.00000001 then account.krwFree else 0.0
  {
    var r := Rebuilt(bs, account);
    var flat := FlatMarkets(r);
    var share := if flat == {} then 0.0 else account.krwFree / |flat| as real;
    forall m | m in r
      ensures r[m].available == if m in flat then share else 0.0
    {
      RebuiltBudget(bs, account, m);
    }
    TotalOfEqualShares(r.Keys, flat, r, share);
    TimesIsProduct(|flat|, share);
    HasElement(flat);
  }

  // ---------- the token ----------

  /** Move-only RAII token: the object that still owns its reservation has `active` set. */
  class ReservationToken {
    var manager: AccountManager?
    const market: Id
    const amount: real
    var consumed: real
    const id: nat
    var active: bool

    function Value(): Token
      reads this
    {
      Token(amount, consumed)
    }

    constructor (manager: AccountManager, market: Id, amount: real, id: nat)
      ensures this.manager == manager && this.market == market && this.id == id && active
      ensures Value() == Token(amount, 0.0)
    {
      this.manager, this.market, this.amount, this.id := manager, market, amount, id;
      consumed, active := 0.0, true;
    }

    /** Move construction: the new object takes over, the source object is switched off. */
    constructor Move(other: ReservationToken)
      modifies other
      ensures manager == old(other.manager) && market == other.market && id == other.id
      ensures active == old(other.active) && Value() == old(other.Value())
      ensures !other.active && other.manager == null
    {
      manager, market, amount, id := other.manager, other.market, other.amount, other.id;
      consumed, active := other.consumed, other.active;
      new;
      other.manager, other.active := null, false;
    }

    method AddConsumed(krw: real)
      modifies this`consumed
      ensures Value() == old(Value()).Consume(krw)
    {
      consumed := consumed + krw;
      if consumed > amount {
        consumed := amount;
      }
    }

    method Deactivate()
      modifies this`active
      ensures !active
    {
      active := false;
    }

    /** The destructor: only a token that still owns its reservation gives anything back. */
    method Destroy()
      modifies manager
      ensures !active || manager == null || market !in old(manager.budgets) ==>
                manager != null ==> manager.budgets == old(manager.budgets)
      ensures active && manager != null && market in old(manager.budgets) ==>
                manager.budgets
                == old(manager.budgets)[market := Released(old(manager.budgets)[market], Value().Remaining())]
      ensures manager != null ==> manager.nextTokenId == old(manager.nextTokenId)
    {
      if active && manager != null {
        manager.ReleaseWithoutToken(market, amount - consumed);
      }
    }
  }

  // ---------- the manager ----------

  class AccountManager {
    var budgets: map<Id, Budget>
    var nextTokenId: nat

    constructor (budgets: map<Id, Budget>)
      ensures this.budgets == budgets && nextTokenId == 1
    {
      this.budgets, nextTokenId := budgets, 1;
    }

    method Reserve(market: Id, krw: real) returns (token: ReservationToken?)
      modifies this
      ensures token != null <==> market in old(budgets) && CanReserve(old(budgets)[market], krw)
      ensures token == null ==> budgets == old(budgets) && nextTokenId == old(nextTokenId)
      ensures token != null ==>
                && fresh(token) && token.active && token.manager == this && token.market == market
                && token.id == old(nextTokenId) && nextTokenId == old(nextTokenId) + 1
                && token.Value() == Token(krw, 0.0)
                && budgets == old(budgets)[market := Reserved(old(budgets)[market], krw)]
    {
      if market !in budgets || krw <= 0.0 {
        return null;
      }
      var b := budgets[market];
      if b.available < krw {
        return null;
      }
      budgets := budgets[market := b.(available := b.available - krw, reserved := b.reserved + krw)];
      var tokenId := nextTokenId;
      nextTokenId := nextTokenId + 1;
      token := new ReservationToken(this, market, krw, tokenId);
    }

    method ReleaseInternal(market: Id, remaining: real)
      modifies this`budgets
      ensures market !in old(budgets) ==> budgets == old(budgets)
      ensures market in old(budgets) ==>
                budgets == old(budgets)[market := Released(old(budgets)[market], remaining)]
    {
      if market in budgets {
        var b := budgets[market];
        b := b.(reserved := b.reserved - remaining, available := b.available + remaining);
        if b.reserved < 0.0 {
          b := b.(reserved := 0.0);
        }
        budgets := budgets[market := b];
      }
    }

    method ReleaseWithoutToken(market: Id, remaining: real)
      modifies this`budgets
      ensures market !in old(budgets) ==> budgets == old(budgets)
      ensures market in old(budgets) ==>
                budgets == old(budgets)[market := Released(old(budgets)[market], remaining)]
    {
      ReleaseInternal(market, remaining);
    }

    method Release(token: ReservationToken)
      modifies this`budgets, token`active
      ensures !token.active
      ensures !old(token.active) || token.market !in old(budgets) ==> budgets == old(budgets)
      ensures old(token.active) && token.market in old(budgets) ==>
                budgets == old(budgets)[token.market := Released(old(budgets)[token.market], token.Value().Remaining())]
    {
      if !token.active {
        return;
      }
      ReleaseWithoutToken(token.market, token.amount - token.consumed);
      token.Deactivate();
    }

    method FinalizeFillBuy(token: ReservationToken, krw: real, coin: real, price: real)
      modifies this`budgets, token`consumed
      ensures !token.active || token.market !in old(budgets) ==>
                budgets == old(budgets) && token.Value() == old(token.Value())
      ensures token.active && token.market in old(budgets) ==>
                var (b, t) := BuyFilled(old(budgets)[token.market], old(token.Value()), krw, coin, price);
                budgets == old(budgets)[token.market := b] && token.Value() == t
    {
      if !token.active {
        return;
      }
      if krw <= 0.0 || coin <= 0.0 || price <= 0.0 {
        return;
      }
      var paid := krw;
      if paid > token.amount - token.consumed {
        paid := token.amount - token.consumed;
        if paid <= 0.0 {
          return;
        }
      }
      if token.market !in budgets {
        return;
      }
      var b := budgets[token.market];
      b := b.(reserved := b.reserved - paid);
      if b.reserved < 0.0 {
        b := b.(reserved := 0.0);
      }
      var oldTotal := b.coin * b.avgEntry;
      var newTotal := coin * price;
      var balance := b.coin + coin;
      if balance > 0.0 {
        b := b.(avgEntry := (oldTotal + newTotal) / balance);
      }
      b := b.(coin := balance);
      assert b == BuyFilled(old(budgets)[token.market], old(token.Value()), krw, coin, price).0;
      budgets := budgets[token.market := b];
      assert paid == if krw > token.Value().Remaining() then token.Value().Remaining() else krw;
      token.AddConsumed(paid);
      assert token.Value() == BuyFilled(old(budgets)[token.market], old(token.Value()), krw, coin, price).1;
    }

    method FinalizeFillSell(market: Id, coin: real, krw: real)
      modifies this`budgets
      ensures market !in old(budgets) ==> budgets == old(budgets)
      ensures market in old(budgets) ==>
                budgets == old(budgets)[market := SellFilled(old(budgets)[market], coin, krw)]
    {
      if coin <= 0.0 || krw < 0.0 {
        return;
      }
      if market in budgets {
        var b := budgets[market];
        b := b.(coin := b.coin - coin);
        b := b.(available := b.available + krw);
        budgets := budgets[market := b];
      }
    }

    method FinalizeSellOrder(market: Id, mark: Option<real>)
      modifies this`budgets
      ensures market !in old(budgets) ==> budgets == old(budgets)
      ensures market in old(budgets) ==>
                budgets == old(budgets)[market := SellFinalized(old(budgets)[market], mark)]
    {
      if market !in budgets {
        return;
      }
      var b := budgets[market];
      var clear := false;
      if b.coin < COIN_EPSILON {
        clear := true;
      } else if mark.Some? && mark.value > 0.0 {
        var value := b.coin * mark.value;
        if value < INIT_DUST_THRESHOLD_KRW {
          clear := true;
        }
      }
      if !clear {
        return;
      }
      budgets := budgets[market := b.(coin := 0.0, avgEntry := 0.0)];
    }

    method FinalizeOrder(token: ReservationToken)
      modifies this`budgets, token`active
      ensures !token.active
      ensures !old(token.active) || token.market !in old(budgets) ==> budgets == old(budgets)
      ensures old(token.active) && token.market in old(budgets) ==>
                budgets == old(budgets)[token.market := OrderFinalized(old(budgets)[token.market], token.Value())]
    {
      if !token.active {
        return;
      }
      if token.market !in budgets {
        token.Deactivate();
        return;
      }
      var remaining := token.amount - token.consumed;
      if remaining > 0.0 {
        ReleaseInternal(token.market, remaining);
      }
      var b := budgets[token.market];
      if b.reserved > 0.0 && b.reserved < KRW_DUST_THRESHOLD {
        b := b.(available := b.available + b.reserved, reserved := 0.0);
        budgets := budgets[token.market := b];
      }
      token.Deactivate();
    }

    method ClearPositions()
      modifies this`budgets
      ensures budgets == ClearCoins(old(budgets))
    {
      ghost var before := budgets;
      var todo := budgets.Keys;
      while todo != {}
        invariant todo <= before.Keys && budgets.Keys == before.Keys
        invariant forall m :: m in before ==>
                    budgets[m] == if m in todo then before[m] else before[m].(coin := 0.0, avgEntry := 0.0)
      {
        HasElement(todo);
        var m :| m in todo;
        budgets := budgets[m := budgets[m].(coin := 0.0, avgEntry := 0.0)];
        todo := todo - {m};
      }
      assert forall m :: m in before ==> budgets[m] == ClearCoins(before)[m];
    }

    method DistributeKrw(flat: set<Id>, share: real)
      requires flat <= budgets.Keys
      modifies this`budgets
      ensures budgets.Keys == old(budgets).Keys
      ensures forall m :: m in budgets ==>
                budgets[m] == if m in flat then old(budgets)[m].(available := share, reserved := 0.0) else old(budgets)[m]
    {
      ghost var before := budgets;
      var todo := flat;
      while todo != {}
        invariant todo <= flat && budgets.Keys == before.Keys
        invariant forall m :: m in before ==>
                    budgets[m] == if m in flat - todo
                                  then before[m].(available := share, reserved := 0.0) else before[m]
      {
        HasElement(todo);
        var m :| m in todo;
        budgets := budgets[m := budgets[m].(available := share, reserved := 0.0)];
        todo := todo - {m};
      }
    }

    method RebuildFromAccount(account: ExchangeAccount)
      modifies this`budgets
      ensures budgets == Rebuilt(old(budgets), account)
    {
      ghost var before := budgets;
      ClearPositions();
      for i := 0 to |account.positions|
        invariant budgets == ApplyPositions(ClearCoins(before), account.positions[..i])
      {
        var p := account.positions[i];
        assert account.positions[..i + 1][..i] == account.positions[..i];
        if p.market in budgets {
          var value := p.free * p.avgBuyPrice;
          if value < INIT_DUST_THRESHOLD_KRW {
            budgets := budgets[p.market := budgets[p.market].(coin := 0.0, avgEntry := 0.0)];
          } else {
            budgets := budgets[p.market := Budget(0.0, 0.0, p.free, p.avgBuyPrice)];
          }
        }
      }
      assert account.positions[..|account.positions|] == account.positions;

      var flat := set m | m in budgets && budgets[m].coin < COIN_EPSILON;
      assert flat == FlatMarkets(budgets);
      if flat == {} {
        return;
      }
      DistributeKrw(flat, account.krwFree / |flat| as real);
      assert forall m :: m in budgets ==> budgets[m] == Rebuilt(before, account)[m];
    }
  }
}
