/**
  src/engine/MarketEngine.cpp, markTradeOnce: the set of trade keys already handled, bounded by
  a first-in first-out window.
*/
module TradeDedupe {
  import opened Domain

  datatype Dedupe = Dedupe(seen: set<TradeKey>, fifo: seq<TradeKey>)

  function Key(t: MyTrade): TradeKey {
    if t.tradeId != NO_ID then Uuid(t.tradeId)
    else Fallback(t.orderId, t.side, t.market, t.price, t.volume, t.funds, t.fee,
                  if Named(t.identifier) then t.identifier.value else NO_ID)
  }

  function IdOrNone(identifier: Option<Id>): Id {
    match identifier
    case Some(id) => id
    case None => NO_ID
  }

  /** Two trades count as the same exactly if they have the same id, or neither has one and nothing tells them apart. */
  lemma SameTradeIff(t: MyTrade, t': MyTrade)
    ensures Key(t) == Key(t') <==>
              && t.tradeId == t'.tradeId
              && (t.tradeId == NO_ID ==>
                    && t.orderId == t'.orderId && t.side == t'.side && t.market == t'.market
                    && t.price == t'.price && t.volume == t'.volume && t.funds == t'.funds && t.fee == t'.fee
                    && IdOrNone(t.identifier) == IdOrNone(t'.identifier))
  {
  }

  function Trim(d: Dedupe, limit: nat): Dedupe
    decreases |d.fifo|
  {
    if |d.fifo| <= limit then d
    else Trim(Dedupe(d.seen - {d.fifo[0]}, d.fifo[1..]), limit)
  }

  function Mark(d: Dedupe, key: TradeKey, limit: nat): Dedupe {
    if key in d.seen then d
    else Trim(Dedupe(d.seen + {key}, d.fifo + [key]), limit)
  }

  /** The set is exactly the contents of the queue, which has no repeats and fits the window. */
  ghost predicate Consistent(d: Dedupe, limit: nat) {
    && |d.fifo| <= limit
    && (forall i, j :: 0 <= i < j < |d.fifo| ==> d.fifo[i] != d.fifo[j])
    && (forall k :: k in d.seen <==> k in d.fifo)
  }

  lemma MarkKeepsConsistent(d: Dedupe, key: TradeKey, limit: nat)
    requires 0 < limit && Consistent(d, limit)
    ensures Consistent(Mark(d, key, limit), limit)
    ensures key in Mark(d, key, limit).seen
    ensures Mark(d, key, limit).seen <= d.seen + {key}
    ensures key !in d.seen ==>
              Mark(d, key, limit).fifo == (if |d.fifo| == limit then d.fifo[1..] else d.fifo) + [key]
  {
    if key !in d.seen {
      var grown := Dedupe(d.seen + {key}, d.fifo + [key]);
      if |d.fifo| == limit {
        var cut := Dedupe(grown.seen - {grown.fifo[0]}, grown.fifo[1..]);
        assert Trim(grown, limit) == cut;
        assert cut.fifo == d.fifo[1..] + [key];
        assert cut.fifo[|cut.fifo| - 1] == key;
        assert forall k :: k in cut.fifo <==> (k == key || k in d.fifo[1..]);
        assert d.fifo == [d.fifo[0]] + d.fifo[1..];
        assert forall k :: k in d.fifo <==> (k == d.fifo[0] || k in d.fifo[1..]);
      } else {
        assert grown.fifo[|d.fifo|] == key;
      }
    }
  }

  function MarkAll(d: Dedupe, keys: seq<TradeKey>, limit: nat): Dedupe {
    if keys == [] then d
    else Mark(MarkAll(d, keys[..|keys| - 1], limit), keys[|keys| - 1], limit)
  }

  /** How many of the offered keys were new when they were offered. */
  function Accepted(d: Dedupe, keys: seq<TradeKey>, limit: nat): nat {
    if keys == [] then 0
    else
      var before := MarkAll(d, keys[..|keys| - 1], limit);
      Accepted(d, keys[..|keys| - 1], limit) + if keys[|keys| - 1] in before.seen then 0 else 1
  }

  /** While fewer than `limit` newer keys were accepted, `key` sits that far from the queue's end. */
  lemma {:induction false} KeyStaysInWindow(d: Dedupe, key: TradeKey, later: seq<TradeKey>, limit: nat)
    requires 0 < limit && Consistent(d, limit) && key !in d.seen
    requires Accepted(Mark(d, key, limit), later, limit) < limit
    ensures
      var d' := MarkAll(Mark(d, key, limit), later, limit);
      var age := Accepted(Mark(d, key, limit), later, limit);
      Consistent(d', limit) && age < |d'.fifo| && d'.fifo[|d'.fifo| - 1 - age] == key
  {
    hide Consistent, Mark;
    if later == [] {
      MarkKeepsConsistent(d, key, limit);
      NewestKey(Mark(d, key, limit), d, key, limit);
    } else {
      var prefix := later[..|later| - 1];
      KeyStaysInWindow(d, key, prefix, limit);
      var start := Mark(d, key, limit);
      OneMoreKey(MarkAll(start, prefix, limit), key, Accepted(start, prefix, limit), later[|later| - 1], limit);
    }
  }

  lemma NewestKey(d': Dedupe, d: Dedupe, key: TradeKey, limit: nat)
    requires 0 < limit && Consistent(d, limit) && key !in d.seen && d' == Mark(d, key, limit)
    ensures d'.fifo != [] && d'.fifo[|d'.fifo| - 1] == key
  {
    hide Mark;
    MarkKeepsConsistent(d, key, limit);
  }

  /** Offering another key moves `key` one place on if that one is new. */
  lemma OneMoreKey(d: Dedupe, key: TradeKey, age: nat, other: TradeKey, limit: nat)
    requires 0 < limit && Consistent(d, limit) && age < |d.fifo| && d.fifo[|d.fifo| - 1 - age] == key
    requires age + (if other in d.seen then 0 else 1) < limit
    ensures
      var d' := Mark(d, other, limit);
      var age' := age + if other in d.seen then 0 else 1;
      Consistent(d', limit) && age' < |d'.fifo| && d'.fifo[|d'.fifo| - 1 - age'] == key
  {
    MarkKeepsConsistent(d, other, limit);
    var d' := Mark(d, other, limit);
    assert other in d.seen ==> d' == d;
    hide Mark, Consistent;
    assert Consistent(d', limit);
  }

  /**
    A trade key, once accepted, is refused again until at least `limit` other keys have been
    accepted after it, in whatever order keys are offered in between.
  */
  lemma AcceptedAtMostOncePerWindow(d: Dedupe, key: TradeKey, later: seq<TradeKey>, limit: nat)
    requires 0 < limit && Consistent(d, limit) && key !in d.seen
    requires Accepted(Mark(d, key, limit), later, limit) < limit
    ensures key in MarkAll(Mark(d, key, limit), later, limit).seen
  {
    KeyStaysInWindow(d, key, later, limit);
  }

  /** The bound is tight: `limit` newly accepted keys push the key out again. */
  lemma WindowIsTight(d: Dedupe, key: TradeKey, later: seq<TradeKey>, limit: nat)
    requires 0 < limit && Consistent(d, limit) && key !in d.seen && later != []
    requires Accepted(Mark(d, key, limit), later[..|later| - 1], limit) == limit - 1
    requires later[|later| - 1] !in MarkAll(Mark(d, key, limit), later[..|later| - 1], limit).seen
    ensures key !in MarkAll(Mark(d, key, limit), later, limit).seen
  {
    var prefix := later[..|later| - 1];
    KeyStaysInWindow(d, key, prefix, limit);
    var before := MarkAll(Mark(d, key, limit), prefix, limit);
    assert before.fifo[0] == key;
    MarkKeepsConsistent(before, later[|later| - 1], limit);
  }
}
