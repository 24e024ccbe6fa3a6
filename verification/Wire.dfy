/**
  The text encoders behind request signing: percent-encoding (RFC 3986, sections 2.1 and 2.3) in
  src/util/UrlCodec.h, the query strings of src/api/upbit/UpbitExchangeRestClient.cpp, and the unpadded
  base64url (RFC 4648, section 5) of src/api/auth/UpbitJwtSigner.cpp. Text is a sequence of bytes.
*/
module Wire {
  import opened Domain

  type Byte = b: int | 0 <= b < 256

  const PERCENT: Byte := 37
  const AMPERSAND: Byte := 38
  const EQUALS: Byte := 61

  // ---------- percent-encoding ----------

  predicate Unreserved(c: Byte) {
    // A-Z, a-z, 0-9, '-', '_', '.', '~'
    65 <= c <= 90 || 97 <= c <= 122 || 48 <= c <= 57 || c == 45 || c == 95 || c == 46 || c == 126
  }

  /** Upper-case hexadecimal digit. */
  function HexDigit(n: int): Byte
    requires 0 <= n < 16
  {
    if n < 10 then 48 + n else 55 + n
  }

  function FromHex(c: Byte): (r: int)
    ensures -1 <= r < 16
  {
    if 48 <= c <= 57 then c - 48
    else if 65 <= c <= 70 then 10 + (c - 65)
    else if 97 <= c <= 102 then 10 + (c - 97)
    else -1
  }

  function EncodedByte(c: Byte): seq<Byte> {
    if Unreserved(c) then [c] else [PERCENT, HexDigit(c / 16), HexDigit(c % 16)]
  }

  function Encoded(s: seq<Byte>): seq<Byte> {
    if s == [] then [] else EncodedByte(s[0]) + Encoded(s[1..])
  }

  predicate StartsEscape(s: seq<Byte>) {
    |s| > 2 && s[0] == PERCENT && FromHex(s[1]) >= 0 && FromHex(s[2]) >= 0
  }

  /** What a complete escape decodes to; everything else stands for itself. */
  function Decoded(s: seq<Byte>): (r: seq<Byte>)
    ensures |r| <= |s|
  {
    if s == [] then []
    else if StartsEscape(s) then [FromHex(s[1]) * 16 + FromHex(s[2])] + Decoded(s[3..])
    else [s[0]] + Decoded(s[1..])
  }

  lemma EncodedNext(s: seq<Byte>, i: nat)
    requires i < |s|
    ensures Encoded(s[i..]) == EncodedByte(s[i]) + Encoded(s[i + 1..])
  {
    assert s[i..][1..] == s[i + 1..];
  }

  method EncodeComponent(s: seq<Byte>) returns (out: seq<Byte>)
    ensures out == Encoded(s)
  {
    hide Encoded, HexDigit;
    out := [];
    assert s[0..] == s;
    for i := 0 to |s|
      invariant out + Encoded(s[i..]) == Encoded(s)
    {
      EncodedNext(s, i);
      ghost var before := out;
      if Unreserved(s[i]) {
        out := out + [s[i]];
      } else {
        out := out + [PERCENT, HexDigit(s[i] / 16), HexDigit(s[i] % 16)];
      }
      assert out == before + EncodedByte(s[i]);
      assert before + (EncodedByte(s[i]) + Encoded(s[i + 1..])) == out + Encoded(s[i + 1..]);
    }
    EncodedNothing(s[|s|..]);
  }

  lemma EncodedNothing(s: seq<Byte>)
    requires s == []
    ensures Encoded(s) == [] && Decoded(s) == []
  {
  }

  lemma DecodedNext(s: seq<Byte>, i: nat)
    requires i < |s|
    ensures Decoded(s[i..])
            == if i + 2 < |s| && s[i] == PERCENT && FromHex(s[i + 1]) >= 0 && FromHex(s[i + 2]) >= 0
               then [FromHex(s[i + 1]) * 16 + FromHex(s[i + 2])] + Decoded(s[i + 3..])
               else [s[i]] + Decoded(s[i + 1..])
  {
    hide FromHex;
    assert s[i..][1..] == s[i + 1..];
    if i + 2 < |s| {
      assert s[i..][3..] == s[i + 3..];
    }
  }

  method DecodePercent(s: seq<Byte>) returns (out: seq<Byte>)
    ensures out == Decoded(s)
  {
    hide Decoded, FromHex;
    out := [];
    var i := 0;
    assert s[0..] == s;
    while i < |s|
      invariant 0 <= i <= |s|
      invariant out + Decoded(s[i..]) == Decoded(s)
    {
      var c := s[i];
      DecodedNext(s, i);
      if c == PERCENT && i + 2 < |s| {
        var hi, lo := FromHex(s[i + 1]), FromHex(s[i + 2]);
        if hi >= 0 && lo >= 0 {
          Regroup(out, [hi * 16 + lo], Decoded(s[i + 3..]));
          out := out + [hi * 16 + lo];
          i := i + 3;
          continue;
        }
      }
      Regroup(out, [c], Decoded(s[i + 1..]));
      out := out + [c];
      i := i + 1;
    }
    EncodedNothing(s[|s|..]);
  }

  lemma EscapeDecodes(c: Byte, rest: seq<Byte>)
    ensures Decoded(EncodedByte(c) + rest) == [c] + Decoded(rest)
  {
    var s := EncodedByte(c) + rest;
    if Unreserved(c) {
      assert s[1..] == rest;
    } else {
      assert s[3..] == rest;
      assert FromHex(s[1]) == c / 16 && FromHex(s[2]) == c % 16;
    }
  }

  lemma {:induction false} EncodedDecodes(s: seq<Byte>, rest: seq<Byte>)
    ensures Decoded(Encoded(s) + rest) == s + Decoded(rest)
  {
    hide Decoded, EncodedByte;
    if s == [] {
      assert Encoded(s) + rest == rest;
      assert s + Decoded(rest) == Decoded(rest);
    } else {
      assert Encoded(s) + rest == EncodedByte(s[0]) + (Encoded(s[1..]) + rest);
      EscapeDecodes(s[0], Encoded(s[1..]) + rest);
      EncodedDecodes(s[1..], rest);
      assert [s[0]] + (s[1..] + Decoded(rest)) == s + Decoded(rest);
    }
  }

  /** On every byte string, decoding undoes encoding. */
  lemma PercentRoundTrip(s: seq<Byte>)
    ensures Decoded(Encoded(s)) == s
  {
    EncodedDecodes(s, []);
    assert Encoded(s) + [] == Encoded(s);
  }

  // ---------- query strings ----------

  datatype Param = Param(key: seq<Byte>, value: seq<Byte>)

  function Joined(q: seq<Byte>, key: seq<Byte>, value: seq<Byte>): seq<Byte> {
    (if q != [] then q + [AMPERSAND] else q) + key + [EQUALS] + value
  }

  /** The text sent: keys as they are, values encoded. */
  function Query(items: seq<Param>): seq<Byte> {
    if items == [] then []
    else Joined(Query(items[..|items| - 1]), items[|items| - 1].key, Encoded(items[|items| - 1].value))
  }

  /** The plain key=value&key=value text. */
  function Raw(items: seq<Param>): seq<Byte> {
    if items == [] then []
    else Joined(Raw(items[..|items| - 1]), items[|items| - 1].key, items[|items| - 1].value)
  }

  method AppendQueryParam(q: seq<Byte>, key: seq<Byte>, value: seq<Byte>) returns (r: seq<Byte>)
    ensures r == Joined(q, key, Encoded(value))
  {
    r := q;
    if r != [] {
      r := r + [AMPERSAND];
    }
    r := r + key;
    r := r + [EQUALS];
    var encoded := EncodeComponent(value);
    r := r + encoded;
  }

  method MakeQueryStrings(items: seq<Param>) returns (encoded: seq<Byte>, hash: seq<Byte>)
    ensures encoded == Query(items) && hash == Decoded(Query(items))
    ensures hash == Raw(items) <==> KeysPlain(items)
  {
    encoded := [];
    for i := 0 to |items|
      invariant encoded == Query(items[..i])
    {
      assert items[..i + 1][..i] == items[..i];
      encoded := AppendQueryParam(encoded, items[i].key, items[i].value);
    }
    assert items[..|items|] == items;
    hash := DecodePercent(encoded);
    HashIsRawIff(items);
  }

  lemma EscapeNotOpened(a: seq<Byte>, tail: seq<Byte>)
    requires a != [] && tail != [] && FromHex(tail[0]) < 0
    ensures StartsEscape(a + tail) <==> StartsEscape(a)
  {
    hide FromHex;
    var s := a + tail;
    assert |a| == 1 ==> s[1] == tail[0];
    assert |a| == 2 ==> s[2] == tail[0];
  }

  /** Text that begins with no hexadecimal digit ends whatever escape was open before it. */
  lemma {:induction false} TailSplits(a: seq<Byte>, tail: seq<Byte>)
    requires tail != [] && FromHex(tail[0]) < 0
    ensures Decoded(a + tail) == Decoded(a) + Decoded(tail)
  {
    hide FromHex, Decoded;
    if a == [] {
      assert a + tail == tail;
      EncodedNothing(a);
    } else {
      var n := if StartsEscape(a) then 3 else 1;
      EscapeNotOpened(a, tail);
      hide StartsEscape;
      DecodedHead(a);
      DecodedHead(a + tail);
      TailSplits(a[n..], tail);
      assert (a + tail)[n..] == a[n..] + tail;
    }
  }

  lemma DelimiterSplits(a: seq<Byte>, c: Byte, rest: seq<Byte>)
    requires c != PERCENT && FromHex(c) < 0
    ensures Decoded(a + [c] + rest) == Decoded(a) + [c] + Decoded(rest)
  {
    hide FromHex, Decoded;
    TailSplits(a, [c] + rest);
    assert a + [c] + rest == a + ([c] + rest);
    assert ([c] + rest)[1..] == rest;
    DecodedHead([c] + rest);
  }

  lemma DecodedHead(s: seq<Byte>)
    requires s != []
    ensures Decoded(s) == if StartsEscape(s) then [FromHex(s[1]) * 16 + FromHex(s[2])] + Decoded(s[3..])
                          else [s[0]] + Decoded(s[1..])
  {
    hide FromHex;
  }

  /** No complete escape inside. */
  ghost predicate Plain(key: seq<Byte>) {
    forall i :: 0 <= i < |key| ==> !StartsEscape(key[i..])
  }

  ghost predicate KeysPlain(items: seq<Param>) {
    forall i :: 0 <= i < |items| ==> Plain(items[i].key)
  }

  lemma {:induction false} PlainDecodesToItself(key: seq<Byte>)
    ensures Plain(key) ==> Decoded(key) == key
    ensures !Plain(key) ==> |Decoded(key)| < |key|
  {
    if key != [] {
      var rest := key[1..];
      assert key[0..] == key;
      assert forall i :: 0 <= i < |rest| ==> rest[i..] == key[i + 1..];
      if !StartsEscape(key) {
        PlainDecodesToItself(rest);
        if !Plain(key) {
          var i :| 0 <= i < |key| && StartsEscape(key[i..]);
          assert rest[i - 1..] == key[i..];
        }
      }
    }
  }

  /** The text the signature is computed over. */
  function Shown(items: seq<Param>): seq<Byte> {
    if items == [] then []
    else Joined(Shown(items[..|items| - 1]), Decoded(items[|items| - 1].key), items[|items| - 1].value)
  }

  lemma DecodeParam(key: seq<Byte>, value: seq<Byte>)
    ensures Decoded(key + [EQUALS] + Encoded(value)) == Decoded(key) + [EQUALS] + value
  {
    DelimiterSplits(key, EQUALS, Encoded(value));
    PercentRoundTrip(value);
  }

  lemma JoinedParts(q: seq<Byte>, key: seq<Byte>, value: seq<Byte>)
    ensures Joined(q, key, value)
            == if q != [] then q + [AMPERSAND] + (key + [EQUALS] + value) else key + [EQUALS] + value
  {
    assert q + [AMPERSAND] + key + [EQUALS] + value == q + [AMPERSAND] + (key + [EQUALS] + value);
  }

  lemma OnlyNothingDecodesToNothing(q: seq<Byte>)
    ensures Decoded(q) == [] <==> q == []
  {
  }

  lemma DecodeJoined(q: seq<Byte>, key: seq<Byte>, value: seq<Byte>)
    ensures Decoded(Joined(q, key, Encoded(value))) == Joined(Decoded(q), Decoded(key), value)
  {
    hide Decoded, Encoded, Joined;
    DecodeParam(key, value);
    JoinedParts(q, key, Encoded(value));
    JoinedParts(Decoded(q), Decoded(key), value);
    OnlyNothingDecodesToNothing(q);
    if q != [] {
      DelimiterSplits(q, AMPERSAND, key + [EQUALS] + Encoded(value));
    }
  }

  lemma {:induction false} HashIsShown(items: seq<Param>)
    ensures Decoded(Query(items)) == Shown(items)
  {
    hide Decoded, Encoded, Joined;
    if items == [] {
      OnlyNothingDecodesToNothing([]);
    } else {
      HashIsShown(items[..|items| - 1]);
      DecodeJoined(Query(items[..|items| - 1]), items[|items| - 1].key, items[|items| - 1].value);
    }
  }

  lemma {:induction false} ShownIsRawIff(items: seq<Param>)
    ensures KeysPlain(items) ==> Shown(items) == Raw(items)
    ensures !KeysPlain(items) ==> |Shown(items)| < |Raw(items)|
    ensures Shown(items) == [] <==> Raw(items) == []
  {
    if items != [] {
      var init, p := items[..|items| - 1], items[|items| - 1];
      ShownIsRawIff(init);
      PlainDecodesToItself(p.key);
      assert KeysPlain(items) <==> KeysPlain(init) && Plain(p.key) by {
        assert forall i :: 0 <= i < |init| ==> init[i] == items[i];
      }
    }
  }

  /**
    For every parameter list: what is hashed is the raw key=value&... text of the whole list, if and
    only if no key contains a complete escape (values may contain anything).
  */
  lemma HashIsRawIff(items: seq<Param>)
    ensures Decoded(Query(items)) == Raw(items) <==> KeysPlain(items)
  {
    HashIsShown(items);
    ShownIsRawIff(items);
  }

  /** Such a list: the key %41 with the value 1 is sent as it is and hashed as A=1. */
  lemma EscapedKeyIsDecoded()
    ensures
      var items := [Param([37, 52, 49], [49])];
      && Query(items) == Raw(items) == [37, 52, 49, 61, 49]
      && Decoded(Query(items)) == [65, 61, 49]
  {
    var items := [Param([37, 52, 49], [49])];
    assert items[..0] == [];
    assert Encoded([49]) == [49];
    assert Query(items) == [37, 52, 49, 61, 49] && Raw(items) == [37, 52, 49, 61, 49];
    assert [37, 52, 49, 61, 49][3..] == [61, 49] && [61, 49][1..] == [49] && [49][1..] == [];
    assert Decoded([61, 49]) == [61] + Decoded([49]) && Decoded([49]) == [49];
  }

  // ---------- base64url ----------

  /** The standard alphabet A-Z, a-z, 0-9, '+', '/'. */
  function Letter(v: int): Byte
    requires 0 <= v < 64
  {
    if v < 26 then 65 + v
    else if v < 52 then 97 + (v - 26)
    else if v < 62 then 48 + (v - 52)
    else if v == 62 then 43
    else 47
  }

  function Sextet(v: int, k: nat): int
    requires k <= 3 && 0 <= v
  {
    match k
    case 0 => v / 262144 % 64
    case 1 => v / 4096 % 64
    case 2 => v / 64 % 64
    case _ => v % 64
  }

  function Word(a: Byte, b: Byte, c: Byte): int {
    a * 65536 + b * 256 + c
  }

  function Group(v: int): seq<Byte>
    requires 0 <= v
  {
    [Letter(Sextet(v, 0)), Letter(Sextet(v, 1)), Letter(Sextet(v, 2)), Letter(Sextet(v, 3))]
  }

  /** Padded base64 of the whole input, three bytes at a time. */
  function Padded(data: seq<Byte>): seq<Byte> {
    if data == [] then []
    else if |data| == 1 then
      var v := Word(data[0], 0, 0);
      [Letter(Sextet(v, 0)), Letter(Sextet(v, 1)), EQUALS, EQUALS]
    else if |data| == 2 then
      var v := Word(data[0], data[1], 0);
      [Letter(Sextet(v, 0)), Letter(Sextet(v, 1)), Letter(Sextet(v, 2)), EQUALS]
    else
      Group(Word(data[0], data[1], data[2])) + Padded(data[3..])
  }

  function UrlSafe(c: Byte): Byte {
    if c == 43 then 45 else if c == 47 then 95 else c
  }

  function AllUrlSafe(s: seq<Byte>): (r: seq<Byte>)
    ensures |r| == |s|
    ensures forall i :: 0 <= i < |s| ==> r[i] == UrlSafe(s[i])
  {
    seq(|s|, i requires 0 <= i < |s| => UrlSafe(s[i]))
  }

  function Stripped(s: seq<Byte>): seq<Byte> {
    if s != [] && s[|s| - 1] == EQUALS then Stripped(s[..|s| - 1]) else s
  }

  function Base64Url(data: seq<Byte>): seq<Byte> {
    Stripped(AllUrlSafe(Padded(data)))
  }

  lemma PaddedNext(data: seq<Byte>, i: nat)
    requires i + 3 <= |data|
    ensures 0 <= Word(data[i], data[i + 1], data[i + 2])
    ensures Padded(data[i..]) == Group(Word(data[i], data[i + 1], data[i + 2])) + Padded(data[i + 3..])
  {
    hide Group;
    assert data[i..][3..] == data[i + 3..];
  }

  lemma PaddedOne(data: seq<Byte>)
    requires |data| == 1
    ensures
      var v := Word(data[0], 0, 0);
      0 <= v && Padded(data) == [Letter(Sextet(v, 0)), Letter(Sextet(v, 1)), EQUALS, EQUALS]
  {
  }

  lemma PaddedTwo(data: seq<Byte>)
    requires |data| == 2
    ensures
      var v := Word(data[0], data[1], 0);
      0 <= v && Padded(data) == [Letter(Sextet(v, 0)), Letter(Sextet(v, 1)), Letter(Sextet(v, 2)), EQUALS]
  {
  }

  method EncodeGroups(data: seq<Byte>) returns (out: seq<Byte>)
    ensures out == Padded(data)
  {
    hide Letter, Sextet, Word, Padded;
    out := [];
    var i := 0;
    assert data[0..] == data;
    while i + 3 <= |data|
      invariant 0 <= i <= |data|
      invariant out + Padded(data[i..]) == Padded(data)
    {
      var v := Word(data[i], data[i + 1], data[i + 2]);
      PaddedNext(data, i);
      LettersExist(v);
      Regroup(out, Group(v), Padded(data[i + 3..]));
      out := out + [Letter(Sextet(v, 0)), Letter(Sextet(v, 1)), Letter(Sextet(v, 2)), Letter(Sextet(v, 3))];
      i := i + 3;
    }
    ghost var rest := data[i..];
    if rest == [] {
      EmptyIsDirect();
    } else if |rest| == 1 {
      PaddedOne(rest);
    } else {
      PaddedTwo(rest);
    }
    if i < |data| {
      var b := if i + 1 < |data| then data[i + 1] else 0;
      var v := Word(data[i], b, 0);
      WordIsNat(data[i], b, 0);
      LettersExist(v);
      out := out + [Letter(Sextet(v, 0)), Letter(Sextet(v, 1))];
      if i + 1 < |data| {
        out := out + [Letter(Sextet(v, 2)), EQUALS];
      } else {
        out := out + [EQUALS, EQUALS];
      }
    }
  }

  lemma WordIsNat(a: Byte, b: Byte, c: Byte)
    ensures 0 <= Word(a, b, c) < 16777216
  {
  }

  lemma LettersExist(v: int)
    requires 0 <= v
    ensures forall k :: 0 <= k <= 3 ==> 0 <= Sextet(v, k) < 64
  {
  }

  method Base64UrlEncode(data: seq<Byte>) returns (out: seq<Byte>)
    ensures out == Base64Url(data)
  {
    out := EncodeGroups(data);
    ghost var padded := out;
    for i := 0 to |out|
      invariant |out| == |padded|
      invariant forall j :: 0 <= j < |out| ==> out[j] == if j < i then UrlSafe(padded[j]) else padded[j]
    {
      if out[i] == 43 {
        out := out[i := 45];
      } else if out[i] == 47 {
        out := out[i := 95];
      }
    }
    assert out == AllUrlSafe(padded);
    while out != [] && out[|out| - 1] == EQUALS
      invariant Stripped(out) == Base64Url(data)
    {
      out := out[..|out| - 1];
    }
  }

  // ---------- a reference decoder ----------

  /** The value of a letter of the URL-safe alphabet, RFC 4648, table 2. */
  function Value(c: Byte): Option<int> {
    if 65 <= c <= 90 then Some(c - 65)
    else if 97 <= c <= 122 then Some(c - 97 + 26)
    else if 48 <= c <= 57 then Some(c - 48 + 52)
    else if c == 45 then Some(62)
    else if c == 95 then Some(63)
    else None
  }

  function Bits(s: seq<Byte>): Option<int> {
    if s == [] then Some(0)
    else
      var high, low := Bits(s[..|s| - 1]), Value(s[|s| - 1]);
      if high.Some? && low.Some? then Some(high.value * 64 + low.value) else None
  }

  function ToByte(n: int): Byte {
    n % 256
  }

  /** Unpadded base64url: four letters are three bytes; two or three left over are one or two, with unused bits zero. */
  function Base64UrlDecode(s: seq<Byte>): Option<seq<Byte>> {
    if s == [] then Some([])
    else if |s| == 1 then None
    else if |s| < 4 then
      var bits := Bits(s);
      if bits.None? then None
      else if |s| == 2 then (if bits.value % 16 == 0 then Some([ToByte(bits.value / 16)]) else None)
      else if bits.value % 4 == 0 then Some([ToByte(bits.value / 1024), ToByte(bits.value / 4)])
      else None
    else
      var bits, rest := Bits(s[..4]), Base64UrlDecode(s[4..]);
      if bits.None? || rest.None? then None
      else Some([ToByte(bits.value / 65536), ToByte(bits.value / 256), ToByte(bits.value)] + rest.value)
  }

  // ---------- the round trip ----------

  /** Letters of the URL-safe alphabet only: no padding, no '+', no '/'. */
  ghost predicate UrlLetters(s: seq<Byte>) {
    forall i :: 0 <= i < |s| ==> Value(s[i]).Some?
  }

  lemma UrlLettersAppend(s: seq<Byte>, t: seq<Byte>)
    requires UrlLetters(s) && UrlLetters(t)
    ensures UrlLetters(s + t)
  {
    hide Value;
  }

  /** The encoding without the detour over padding and the standard alphabet. */
  function Direct(data: seq<Byte>): seq<Byte> {
    if data == [] then []
    else if |data| == 1 then Letters(Word(data[0], 0, 0), 2)
    else if |data| == 2 then Letters(Word(data[0], data[1], 0), 3)
    else Letters(Word(data[0], data[1], data[2]), 4) + Direct(data[3..])
  }

  function Letters(v: int, n: nat): (r: seq<Byte>)
    requires 2 <= n <= 4 && 0 <= v
    ensures |r| == n
  {
    var r := [UrlSafe(Letter(Sextet(v, 0))), UrlSafe(Letter(Sextet(v, 1))),
              UrlSafe(Letter(Sextet(v, 2))), UrlSafe(Letter(Sextet(v, 3)))];
    r[..n]
  }

  lemma LetterValue(v: int)
    requires 0 <= v < 64
    ensures Value(UrlSafe(Letter(v))) == Some(v)
  {
  }

  lemma NoPadding(c: Byte)
    ensures Value(c).Some? ==> c != EQUALS
  {
  }

  function Zeros(n: nat): seq<Byte> {
    if n == 0 then [] else Zeros(n - 1) + [EQUALS]
  }

  function PadCount(n: nat): nat {
    if n % 3 == 0 then 0 else 3 - n % 3
  }

  lemma SafeAppend(s: seq<Byte>, t: seq<Byte>)
    ensures AllUrlSafe(s + t) == AllUrlSafe(s) + AllUrlSafe(t)
  {
  }

  lemma LettersAreLetters(v: int, n: nat)
    requires 2 <= n <= 4 && 0 <= v
    ensures UrlLetters(Letters(v, n))
    ensures forall k :: 0 <= k < n ==> 0 <= Sextet(v, k) < 64 && Value(Letters(v, n)[k]) == Some(Sextet(v, k))
  {
    hide Letter, Value, UrlSafe, Sextet;
    LettersExist(v);
    LetterValue(Sextet(v, 0));
    LetterValue(Sextet(v, 1));
    LetterValue(Sextet(v, 2));
    LetterValue(Sextet(v, 3));
    var r := Letters(v, n);
    assert forall k :: 0 <= k < n ==> r[k] == UrlSafe(Letter(Sextet(v, k)));
  }

  lemma GroupIsLetters(v: int)
    requires 0 <= v
    ensures AllUrlSafe(Group(v)) == Letters(v, 4)
  {
    hide Letter, Sextet, UrlSafe;
    LettersExist(v);
  }

  lemma GroupUnfolds(data: seq<Byte>)
    requires |data| >= 3
    ensures
      var v := Word(data[0], data[1], data[2]);
      && 0 <= v && Padded(data) == Group(v) + Padded(data[3..]) && Direct(data) == Letters(v, 4) + Direct(data[3..])
    ensures PadCount(|data|) == PadCount(|data| - 3)
  {
    hide Group, Letters;
  }

  lemma GroupIsDirect(data: seq<Byte>)
    requires |data| >= 3
    requires UrlLetters(Direct(data[3..]))
    requires AllUrlSafe(Padded(data[3..])) == Direct(data[3..]) + Zeros(PadCount(|data| - 3))
    ensures AllUrlSafe(Padded(data)) == Direct(data) + Zeros(PadCount(|data|))
    ensures UrlLetters(Direct(data))
  {
    hide Group, Letters, UrlLetters, Word, AllUrlSafe, Zeros, Padded, Direct, PadCount;
    var v, rest := Word(data[0], data[1], data[2]), data[3..];
    GroupUnfolds(data);
    LettersAreLetters(v, 4);
    UrlLettersAppend(Letters(v, 4), Direct(rest));
    SafeAppend(Group(v), Padded(rest));
    GroupIsLetters(v);
    var zeros := Zeros(PadCount(|data|));
    assert Letters(v, 4) + (Direct(rest) + zeros) == Letters(v, 4) + Direct(rest) + zeros;
  }

  lemma {:induction false} PaddedIsDirect(data: seq<Byte>)
    ensures AllUrlSafe(Padded(data)) == Direct(data) + Zeros(PadCount(|data|))
    ensures UrlLetters(Direct(data))
  {
    if |data| < 3 {
      TailIsDirect(data);
    } else {
      hide Padded, Direct, AllUrlSafe, Zeros, UrlLetters;
      PaddedIsDirect(data[3..]);
      GroupIsDirect(data);
    }
  }

  lemma FewZeros()
    ensures Zeros(0) == [] && Zeros(1) == [EQUALS] && Zeros(2) == [EQUALS, EQUALS]
  {
    assert Zeros(2) == Zeros(1) + [EQUALS] && Zeros(1) == Zeros(0) + [EQUALS];
  }

  lemma SafeFour(a: Byte, b: Byte, c: Byte, d: Byte)
    ensures AllUrlSafe([a, b, c, d]) == [UrlSafe(a), UrlSafe(b), UrlSafe(c), UrlSafe(d)]
  {
    hide UrlSafe;
  }

  lemma LettersPrefix(v: int)
    requires 0 <= v
    ensures Letters(v, 2) == [UrlSafe(Letter(Sextet(v, 0))), UrlSafe(Letter(Sextet(v, 1)))]
    ensures Letters(v, 3) == Letters(v, 2) + [UrlSafe(Letter(Sextet(v, 2)))]
  {
    hide UrlSafe, Letter, Sextet;
    LettersExist(v);
  }

  lemma OneIsDirect(v: int)
    requires 0 <= v
    ensures AllUrlSafe([Letter(Sextet(v, 0)), Letter(Sextet(v, 1)), EQUALS, EQUALS]) == Letters(v, 2) + [EQUALS, EQUALS]
  {
    assert UrlSafe(EQUALS) == EQUALS;
    hide UrlSafe, Letter, Sextet, Letters, AllUrlSafe;
    LettersExist(v);
    SafeFour(Letter(Sextet(v, 0)), Letter(Sextet(v, 1)), EQUALS, EQUALS);
    LettersPrefix(v);
  }

  lemma TwoIsDirect(v: int)
    requires 0 <= v
    ensures AllUrlSafe([Letter(Sextet(v, 0)), Letter(Sextet(v, 1)), Letter(Sextet(v, 2)), EQUALS]) == Letters(v, 3) + [EQUALS]
  {
    assert UrlSafe(EQUALS) == EQUALS;
    hide UrlSafe, Letter, Sextet, Letters, AllUrlSafe;
    LettersExist(v);
    SafeFour(Letter(Sextet(v, 0)), Letter(Sextet(v, 1)), Letter(Sextet(v, 2)), EQUALS);
    LettersPrefix(v);
  }

  lemma TailIsDirect(data: seq<Byte>)
    requires |data| < 3
    ensures AllUrlSafe(Padded(data)) == Direct(data) + Zeros(PadCount(|data|))
    ensures UrlLetters(Direct(data))
  {
    hide Letter, Sextet, Word, Letters, UrlLetters;
    if data == [] {
      EmptyIsDirect();
    } else if |data| == 1 {
      OneByteIsDirect(data);
    } else {
      TwoBytesAreDirect(data);
    }
  }

  lemma OneByteIsDirect(data: seq<Byte>)
    requires |data| == 1
    ensures AllUrlSafe(Padded(data)) == Direct(data) + Zeros(PadCount(1))
    ensures UrlLetters(Direct(data))
  {
    var v := Word(data[0], 0, 0);
    PaddedOne(data);
    assert Direct(data) == Letters(v, 2) && PadCount(1) == 2;
    hide *;
    FewZeros();
    OneIsDirect(v);
    LettersAreLetters(v, 2);
  }

  lemma TwoBytesAreDirect(data: seq<Byte>)
    requires |data| == 2
    ensures AllUrlSafe(Padded(data)) == Direct(data) + Zeros(PadCount(2))
    ensures UrlLetters(Direct(data))
  {
    var v := Word(data[0], data[1], 0);
    PaddedTwo(data);
    assert Direct(data) == Letters(v, 3) && PadCount(2) == 1;
    hide *;
    FewZeros();
    TwoIsDirect(v);
    LettersAreLetters(v, 3);
  }

  lemma EmptyIsDirect()
    ensures Padded([]) == [] && AllUrlSafe([]) == Direct([]) + Zeros(PadCount(0)) && UrlLetters(Direct([]))
  {
  }

  lemma {:induction false} StripZeros(s: seq<Byte>, n: nat)
    requires UrlLetters(s)
    ensures Stripped(s + Zeros(n)) == s
  {
    if n == 0 {
      assert s + Zeros(0) == s;
      if s != [] {
        NoPadding(s[|s| - 1]);
      }
    } else {
      assert (s + Zeros(n))[..|s + Zeros(n)| - 1] == s + Zeros(n - 1);
      StripZeros(s, n - 1);
    }
  }

  lemma BitsOfTwo(s: seq<Byte>, x: int, y: int)
    requires |s| == 2 && Value(s[0]) == Some(x) && Value(s[1]) == Some(y)
    ensures Bits(s) == Some(x * 64 + y)
  {
    hide Value;
    assert s[..1] == [s[0]] && s[..1][..0] == [];
    assert Bits(s[..1]) == Some(x);
  }

  lemma BitsOfNext(s: seq<Byte>, high: int, low: int)
    requires s != [] && Bits(s[..|s| - 1]) == Some(high) && Value(s[|s| - 1]) == Some(low)
    ensures Bits(s) == Some(high * 64 + low)
  {
  }

  lemma SextetsCompose(v: int)
    requires 0 <= v < 16777216
    ensures Sextet(v, 0) * 64 + Sextet(v, 1) == v / 4096
    ensures v / 4096 * 64 + Sextet(v, 2) == v / 64
    ensures v / 64 * 64 + Sextet(v, 3) == v
  {
  }

  /** The letters of a 24-bit word spell its leading bits. */
  lemma BitsOfLetters(v: int, n: nat)
    requires 2 <= n <= 4 && 0 <= v < 16777216
    ensures Bits(Letters(v, n)) == Some(if n == 2 then v / 4096 else if n == 3 then v / 64 else v)
  {
    hide Value, Bits, Letters, Sextet;
    LettersAreLetters(v, n);
    SextetsCompose(v);
    var r := Letters(v, n);
    BitsOfTwo(r[..2], Sextet(v, 0), Sextet(v, 1));
    if n >= 3 {
      assert r[..3][..2] == r[..2];
      BitsOfNext(r[..3], v / 4096, Sextet(v, 2));
    }
    if n == 4 {
      assert r[..4][..3] == r[..3];
      BitsOfNext(r[..4], v / 64, Sextet(v, 3));
    }
    assert r[..n] == r;
  }

  lemma WordOfThree(a: int, b: int, c: int)
    requires 0 <= a < 256 && 0 <= b < 256 && 0 <= c < 256
    ensures
      var v := a * 65536 + b * 256 + c;
      v / 65536 == a && v / 256 == a * 256 + b && v / 256 % 256 == b && v % 256 == c
  {
  }

  lemma WordOfTwo(a: int, b: int)
    requires 0 <= a < 256 && 0 <= b < 256
    ensures
      var bits := (a * 65536 + b * 256) / 64;
      bits == a * 1024 + b * 4 && bits % 4 == 0 && bits / 1024 == a && bits / 4 == a * 256 + b && bits / 4 % 256 == b
  {
  }

  lemma WordOfOne(a: int)
    requires 0 <= a < 256
    ensures a * 65536 / 4096 == a * 16
  {
  }

  lemma OneByte(a: Byte)
    ensures Word(a, 0, 0) / 4096 % 16 == 0 && ToByte(Word(a, 0, 0) / 4096 / 16) == a
  {
    WordOfOne(a);
  }

  lemma TwoBytes(a: Byte, b: Byte)
    ensures
      var bits := Word(a, b, 0) / 64;
      bits % 4 == 0 && ToByte(bits / 1024) == a && ToByte(bits / 4) == b
  {
    WordOfTwo(a, b);
  }

  lemma ThreeBytes(a: Byte, b: Byte, c: Byte)
    ensures
      var v := Word(a, b, c);
      ToByte(v / 65536) == a && ToByte(v / 256) == b && ToByte(v) == c
  {
    WordOfThree(a, b, c);
  }

  lemma OneByteDecodes(a: Byte)
    ensures 0 <= Word(a, 0, 0) && Base64UrlDecode(Letters(Word(a, 0, 0), 2)) == Some([a])
  {
    hide Bits, Letters, Word, ToByte;
    WordIsNat(a, 0, 0);
    BitsOfLetters(Word(a, 0, 0), 2);
    OneByte(a);
  }

  lemma TwoBytesDecode(a: Byte, b: Byte)
    ensures 0 <= Word(a, b, 0) && Base64UrlDecode(Letters(Word(a, b, 0), 3)) == Some([a, b])
  {
    hide Bits, Letters, Word, ToByte;
    WordIsNat(a, b, 0);
    BitsOfLetters(Word(a, b, 0), 3);
    TwoBytes(a, b);
  }

  lemma GroupDecodes(a: Byte, b: Byte, c: Byte, rest: seq<Byte>, decoded: seq<Byte>)
    requires Base64UrlDecode(rest) == Some(decoded)
    ensures 0 <= Word(a, b, c) && Base64UrlDecode(Letters(Word(a, b, c), 4) + rest) == Some([a, b, c] + decoded)
  {
    hide Bits, Letters, Word, ToByte;
    var v := Word(a, b, c);
    WordIsNat(a, b, c);
    BitsOfLetters(v, 4);
    ThreeBytes(a, b, c);
    var s := Letters(v, 4) + rest;
    assert s[..4] == Letters(v, 4) && s[4..] == rest;
  }

  lemma {:induction false} DirectDecodes(data: seq<Byte>)
    ensures Base64UrlDecode(Direct(data)) == Some(data)
  {
    hide Letters, Word;
    if data == [] {
    } else if |data| == 1 {
      OneByteDecodes(data[0]);
      assert data == [data[0]];
    } else if |data| == 2 {
      TwoBytesDecode(data[0], data[1]);
      assert data == [data[0], data[1]];
    } else {
      hide Base64UrlDecode;
      DirectDecodes(data[3..]);
      GroupDecodes(data[0], data[1], data[2], Direct(data[3..]), data[3..]);
      assert data == [data[0], data[1], data[2]] + data[3..];
    }
  }

  /** For every length: decoding undoes encoding, and the text uses the URL-safe alphabet only. */
  lemma Base64UrlRoundTrip(data: seq<Byte>)
    ensures Base64UrlDecode(Base64Url(data)) == Some(data)
    ensures UrlLetters(Base64Url(data))
  {
    PaddedIsDirect(data);
    StripZeros(Direct(data), PadCount(|data|));
    DirectDecodes(data);
  }
}
