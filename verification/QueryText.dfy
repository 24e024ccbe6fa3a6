/**
  What the encoded text is to a reader: the alphabets of RFC 3986 (sections 2.1 and 2.3) and RFC 4648
  (section 5) in characters, and a query string that an ordinary parser reads back item by item.
*/
module QueryText {
  import opened Domain
  import opened Wire

  // ---------- the alphabets ----------

  const UPPER_HEX: string := "0123456789ABCDEF"
  const LOWER_HEX: string := "0123456789abcdef"

  predicate IsLetter(c: char) {
    'A' <= c <= 'Z' || 'a' <= c <= 'z'
  }

  predicate IsDigit(c: char) {
    '0' <= c <= '9'
  }

  /** RFC 3986, section 2.3. */
  predicate Plainly(c: char) {
    IsLetter(c) || IsDigit(c) || c == '-' || c == '.' || c == '_' || c == '~'
  }

  /** Every byte is sent as itself if it is unreserved, and otherwise as % and its two upper-case digits. */
  lemma EncodedByteIs(c: Byte)
    ensures EncodedByte(c) == if Plainly(c as char) then [c]
                              else ['%' as int, UPPER_HEX[c / 16] as int, UPPER_HEX[c % 16] as int]
  {
    HexDigitIs(c / 16);
    HexDigitIs(c % 16);
    hide HexDigit;
  }

  lemma HexDigitIs(n: nat)
    requires n < 16
    ensures HexDigit(n) as char == UPPER_HEX[n]
  {
  }

  /** Digits of either case are read for what they stand for; nothing else is. */
  lemma FromHexIs(c: Byte)
    ensures forall n :: 0 <= n < 16 ==> FromHex(UPPER_HEX[n] as int) == n && FromHex(LOWER_HEX[n] as int) == n
    ensures FromHex(c) >= 0 <==> IsDigit(c as char) || 'A' <= c as char <= 'F' || 'a' <= c as char <= 'f'
  {
    forall n | 0 <= n < 16
      ensures FromHex(UPPER_HEX[n] as int) == n && FromHex(LOWER_HEX[n] as int) == n
    {
      LowerHexIs(n);
      HexDigitIs(n);
    }
  }

  lemma LowerHexIs(n: nat)
    requires n < 16
    ensures LOWER_HEX[n] == if n < 10 then ('0' as int + n) as char else ('a' as int + n - 10) as char
  {
  }

  /** The sextets of base64url, RFC 4648, table 2. */
  lemma UrlLetterIs(v: nat)
    requires v < 64
    ensures
      var c := UrlSafe(Letter(v)) as char;
      if v < 26 then c as int == 'A' as int + v
      else if v < 52 then c as int == 'a' as int + v - 26
      else if v < 62 then c as int == '0' as int + v - 52
      else c == if v == 62 then '-' else '_'
  {
  }

  // ---------- reading a query string ----------

  /** Up to the first c, or all of it. */
  function Before(s: seq<Byte>, c: Byte): seq<Byte> {
    if s == [] || s[0] == c then [] else [s[0]] + Before(s[1..], c)
  }

  /** What follows the first c, or nothing. */
  function After(s: seq<Byte>, c: Byte): (r: seq<Byte>)
    ensures s != [] ==> |r| < |s|
    ensures s == [] ==> r == []
  {
    if s == [] then [] else if s[0] == c then s[1..] else After(s[1..], c)
  }

  function ReadItem(item: seq<Byte>): Param {
    Param(Before(item, '=' as int), Decoded(After(item, '=' as int)))
  }

  /** An ordinary parser: items separated by &, each a key, = and an encoded value. */
  function Read(q: seq<Byte>): seq<Param>
    decreases |q|
  {
    if q == [] then [] else [ReadItem(Before(q, '&' as int))] + Read(After(q, '&' as int))
  }

  lemma {:induction false} SplitAtFirst(a: seq<Byte>, c: Byte, rest: seq<Byte>)
    requires c !in a
    ensures Before(a + [c] + rest, c) == a && After(a + [c] + rest, c) == rest
    ensures Before(a, c) == a && After(a, c) == []
  {
    if a != [] {
      var s := a + [c] + rest;
      assert s[0] == a[0] && s[1..] == a[1..] + [c] + rest;
      SplitAtFirst(a[1..], c, rest);
      assert [a[0]] + a[1..] == a;
    } else {
      assert a + [c] + rest == [c] + rest;
    }
  }

  lemma {:induction false} SplitKept(q: seq<Byte>, c: Byte, tail: seq<Byte>)
    requires c in q
    ensures Before(q + tail, c) == Before(q, c) && After(q + tail, c) == After(q, c) + tail
  {
    if q[0] == c {
      assert (q + tail)[1..] == q[1..] + tail;
    } else {
      assert (q + tail)[1..] == q[1..] + tail;
      SplitKept(q[1..], c, tail);
    }
  }

  lemma {:induction false} ReadAppend(q: seq<Byte>, item: seq<Byte>)
    requires '&' as int !in item && item != [] && q != [] && q[|q| - 1] != '&' as int
    ensures Read(q + ['&' as int] + item) == Read(q) + [ReadItem(item)]
    decreases |q|
  {
    hide ReadItem, Before, After;
    var c: Byte := '&' as int;
    var all := q + [c] + item;
    if c in q {
      assert all == q + ([c] + item);
      SplitKept(q, c, [c] + item);
      AfterEnd(q, c);
      assert After(q, c) + ([c] + item) == After(q, c) + [c] + item;
      ReadAppend(After(q, c), item);
      var head := ReadItem(Before(q, c));
      assert [head] + (Read(After(q, c)) + [ReadItem(item)]) == [head] + Read(After(q, c)) + [ReadItem(item)];
    } else {
      SplitAtFirst(q, c, item);
      ReadOne(item);
      ReadOne(q);
    }
  }

  /** Text that does not end in c has something after its first c, ending as before. */
  lemma {:induction false} AfterEnd(q: seq<Byte>, c: Byte)
    requires c in q && q[|q| - 1] != c
    ensures After(q, c) != [] && After(q, c)[|After(q, c)| - 1] == q[|q| - 1]
  {
    if q[0] != c {
      AfterEnd(q[1..], c);
    }
  }

  lemma ReadOne(item: seq<Byte>)
    requires '&' as int !in item && item != []
    ensures Read(item) == [ReadItem(item)]
  {
    hide ReadItem;
    SplitAtFirst(item, '&' as int, []);
    assert Read([]) == [];
  }

  lemma {:induction false} NoSeparators(value: seq<Byte>)
    ensures '&' as int !in Encoded(value)
  {
    hide EncodedByte;
    if value != [] {
      NoSeparators(value[1..]);
      EncodedByteIs(value[0]);
      HexIsNoSeparator(value[0] / 16);
      HexIsNoSeparator(value[0] % 16);
    }
  }

  lemma HexIsNoSeparator(n: nat)
    requires n < 16
    ensures UPPER_HEX[n] != '&'
  {
  }

  lemma ItemReads(key: seq<Byte>, value: seq<Byte>)
    requires '&' as int !in key && '=' as int !in key
    ensures
      var item := key + ['=' as int] + Encoded(value);
      && '&' as int !in item && item != [] && ReadItem(item) == Param(key, value)
  {
    hide Encoded, Before, After;
    NoSeparators(value);
    SplitAtFirst(key, '=' as int, Encoded(value));
    PercentRoundTrip(value);
  }

  /** Text that can go before another item: something, and no separator at its end. */
  predicate Ended(q: seq<Byte>) {
    q != [] && q[|q| - 1] != '&' as int
  }

  lemma {:induction false} QueryEnds(items: seq<Param>)
    requires items != [] && forall i :: 0 <= i < |items| ==> '&' as int !in items[i].key && '=' as int !in items[i].key
    ensures Ended(Query(items))
  {
    var last := items[|items| - 1];
    ItemReads(last.key, last.value);
    JoinedIs(Query(items[..|items| - 1]), last.key, Encoded(last.value));
    hide Encoded, Query, Joined;
    EndOfItem(Query(items[..|items| - 1]), last.key + ['=' as int] + Encoded(last.value));
    QueryUnfolds(items);
  }

  lemma EndOfItem(q: seq<Byte>, item: seq<Byte>)
    requires item != [] && '&' as int !in item
    ensures Ended(q + ['&' as int] + item) && Ended(item)
  {
    assert (q + ['&' as int] + item)[|q| + 1 + |item| - 1] == item[|item| - 1];
  }

  lemma JoinedIs(q: seq<Byte>, key: seq<Byte>, value: seq<Byte>)
    ensures
      var item := key + ['=' as int] + value;
      Joined(q, key, value) == if q == [] then item else q + ['&' as int] + item
  {
    var item := key + ['=' as int] + value;
    assert q + ['&' as int] + item == q + ['&' as int] + key + ['=' as int] + value;
  }

  lemma QueryUnfolds(items: seq<Param>)
    requires items != []
    ensures
      var last := items[|items| - 1];
      Query(items) == Joined(Query(items[..|items| - 1]), last.key, Encoded(last.value))
  {
  }

  /** Keys without & and = come back with exactly the values that were put in, whatever those contain. */
  lemma {:induction false} QueryReadsBack(items: seq<Param>)
    requires forall i :: 0 <= i < |items| ==> '&' as int !in items[i].key && '=' as int !in items[i].key
    ensures Read(Query(items)) == items
  {
    hide Query, Joined, Encoded, ReadItem, Read;
    if items == [] {
      NothingReads();
    } else {
      var init, last := items[..|items| - 1], items[|items| - 1];
      var item := last.key + ['=' as int] + Encoded(last.value);
      QueryReadsBack(init);
      QueryUnfolds(items);
      ItemReads(last.key, last.value);
      JoinedIs(Query(init), last.key, Encoded(last.value));
      if init == [] {
        NothingReads();
        ReadOne(item);
      } else {
        QueryEnds(init);
        ReadAppend(Query(init), item);
      }
      assert items == init + [last];
    }
  }

  lemma NothingReads()
    ensures Query([]) == [] && Read([]) == []
  {
  }
}
