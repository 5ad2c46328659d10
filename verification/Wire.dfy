/**
 The wire format under the layer log codec: base-128 varints, zig-zag signed integers, big-endian byte strings, and
 length-prefixed slices, strings and maps, as the mus format defines them.
 */
module Wire {
  import opened Types

  datatype DecodeError = TooSmall | Overflow | NegativeLength | WrongFormat

  /** A decoded value and the number of bytes it took. */
  datatype Decoded<+T> = Decoded(value: T, n: nat) | Bad(error: DecodeError)

  /** Decoding this encoding gives back what was encoded, whatever follows, and takes its bytes, as many as promised. */
  ghost predicate RoundTripsAt<T>(decode: seq<byte> -> Decoded<T>, size: nat, v: T, bs: seq<byte>, rest: seq<byte>)
  {
    decode(bs + rest) == Decoded(v, |bs|) && |bs| == size
  }

  ghost predicate RoundTrips<T(!new)>(encodes: (T, seq<byte>) -> bool, decode: seq<byte> -> Decoded<T>,
                                      size: T -> nat) {
    forall v: T, bs: seq<byte>, rest: seq<byte> {:trigger RoundTripsAt(decode, size(v), v, bs, rest)} ::
      encodes(v, bs) ==> RoundTripsAt(decode, size(v), v, bs, rest)
  }

  // ------------------------------------------------------------------- varints

  function EncodeUint(v: nat): (bs: seq<byte>)
    ensures |bs| > 0
  {
    if v < 128 then [v as byte] else [(v % 128 + 128) as byte] + EncodeUint(v / 128)
  }

  /** At most max bytes are read, and the last of them must not exceed last. */
  function DecodeUint(bs: seq<byte>, max: nat, last: nat): (r: Decoded<nat>)
    requires max > 0 && last < 128
    ensures r.Decoded? ==> r.value < UintBound(max, last) && r.n <= |bs|
    decreases max
  {
    if bs == [] then Bad(TooSmall)
    else
      var b := bs[0] as nat;
      if max == 1 && b > last then Bad(Overflow)
      else if b < 128 then Decoded(b, 1)
      else
        match DecodeUint(bs[1..], max - 1, last)
        case Bad(error) => Bad(error)
        case Decoded(v, n) => Decoded(b - 128 + 128 * v, n + 1)
  }

  /** The numbers that fit in max varint bytes with this bound on the last. */
  function UintBound(max: nat, last: nat): (bound: nat)
    ensures bound > 0
  {
    if max <= 1 then last + 1 else 128 * UintBound(max - 1, last)
  }

  lemma {:induction false} UintRoundTrip(v: nat, max: nat, last: nat, rest: seq<byte>)
    requires 1 <= max && last < 128 && v < UintBound(max, last)
    ensures DecodeUint(EncodeUint(v) + rest, max, last) == Decoded(v, |EncodeUint(v)|)
    decreases v
  {
    if v >= 128 {
      var tail := EncodeUint(v / 128);
      UintRoundTrip(v / 128, max - 1, last, rest);
      assert (EncodeUint(v) + rest)[1..] == tail + rest;
    }
  }

  function SizeUint(v: nat): nat {
    if v < 128 then 1 else 1 + SizeUint(v / 128)
  }

  lemma {:induction false} UintSize(v: nat)
    ensures |EncodeUint(v)| == SizeUint(v)
  {
    if v >= 128 { UintSize(v / 128); }
  }

  function EncodeUint64(v: Uint64): seq<byte> { EncodeUint(v) }

  /** Ten bytes at most, the last of them 0 or 1. */
  function DecodeUint64(bs: seq<byte>): (r: Decoded<Uint64>)
    ensures r.Decoded? ==> r.n <= |bs|
  {
    Uint64Bound();
    match DecodeUint(bs, 10, 1)
    case Bad(error) => Bad(error)
    case Decoded(v, n) => Decoded(v, n)
  }

  lemma Uint64Bound()
    ensures UintBound(10, 1) == TWO_64
  {
    assert UintBound(4, 1) == 2 * 128 * 128 * 128;
    assert UintBound(7, 1) == 128 * 128 * 128 * UintBound(4, 1);
    assert UintBound(10, 1) == 128 * 128 * 128 * UintBound(7, 1);
  }

  lemma Uint64RoundTrip(v: Uint64, rest: seq<byte>)
    ensures DecodeUint64(EncodeUint64(v) + rest) == Decoded(v, |EncodeUint64(v)|) && |EncodeUint64(v)| == SizeUint(v)
  {
    Uint64Bound();
    UintRoundTrip(v, 10, 1, rest);
    UintSize(v);
  }

  // ----------------------------------------------------------- signed integers

  const INT64_MIN := -0x8000_0000_0000_0000

  type Int64 = i: int | INT64_MIN <= i < -INT64_MIN

  function ZigZag(i: Int64): (v: Uint64) {
    if i >= 0 then 2 * i else -2 * i - 1
  }

  function UnZigZag(v: Uint64): Int64 {
    if v % 2 == 0 then v / 2 else -(v / 2) - 1
  }

  function EncodeInt(i: Int64): seq<byte> { EncodeUint64(ZigZag(i)) }

  function DecodeInt(bs: seq<byte>): (r: Decoded<Int64>)
    ensures r.Decoded? ==> r.n <= |bs|
  {
    match DecodeUint64(bs)
    case Bad(error) => Bad(error)
    case Decoded(v, n) => Decoded(UnZigZag(v), n)
  }

  function SizeInt(i: Int64): nat { SizeUint(ZigZag(i)) }

  lemma IntSize(i: Int64)
    ensures |EncodeInt(i)| == SizeInt(i)
  {
    UintSize(ZigZag(i));
  }

  lemma IntRoundTrip(i: Int64, rest: seq<byte>)
    ensures DecodeInt(EncodeInt(i) + rest) == Decoded(i, |EncodeInt(i)|) && |EncodeInt(i)| == SizeInt(i)
  {
    Uint64RoundTrip(ZigZag(i), rest);
  }

  // ---------------------------------------------------------------- byte slices

  /** The number of elements a slice, a string or a map can have. */
  const MAX_LENGTH := 0x7fff_ffff_ffff_ffff

  function EncodeByte(b: byte): seq<byte> { EncodeUint(b as nat) }

  function DecodeByte(bs: seq<byte>): (r: Decoded<byte>)
    ensures r.Decoded? ==> r.n <= |bs|
  {
    ByteBound();
    match DecodeUint(bs, 2, 1)
    case Bad(error) => Bad(error)
    case Decoded(v, n) => Decoded(v as byte, n)
  }

  lemma ByteBound()
    ensures UintBound(2, 1) == 256
  {
  }

  lemma ByteRoundTrip(b: byte, rest: seq<byte>)
    ensures DecodeByte(EncodeByte(b) + rest) == Decoded(b, |EncodeByte(b)|)
  {
    assert UintBound(2, 1) == 256;
    UintRoundTrip(b as nat, 2, 1, rest);
  }

  function EncodeBytes(data: seq<byte>): seq<byte> {
    if data == [] then [] else EncodeByte(data[0]) + EncodeBytes(data[1..])
  }

  function DecodeBytes(count: nat, bs: seq<byte>): (r: Decoded<seq<byte>>)
    ensures r.Decoded? ==> r.n <= |bs|
    decreases count
  {
    if count == 0 then Decoded([], 0)
    else
      match DecodeByte(bs)
      case Bad(error) => Bad(error)
      case Decoded(b, n) =>
        match DecodeBytes(count - 1, bs[n..])
        case Bad(error) => Bad(error)
        case Decoded(data, m) => Decoded([b] + data, n + m)
  }

  lemma {:induction false} BytesRoundTrip(data: seq<byte>, rest: seq<byte>)
    ensures DecodeBytes(|data|, EncodeBytes(data) + rest) == Decoded(data, |EncodeBytes(data)|)
    decreases |data|
  {
    if data != [] {
      var first, tail := EncodeByte(data[0]), EncodeBytes(data[1..]);
      assert EncodeBytes(data) + rest == first + (tail + rest);
      ByteRoundTrip(data[0], tail + rest);
      assert (first + (tail + rest))[|first|..] == tail + rest;
      BytesRoundTrip(data[1..], rest);
      assert [data[0]] + data[1..] == data;
    }
  }

  predicate Fits<T>(data: seq<T>) {
    |data| <= MAX_LENGTH
  }

  /** MarshalSlice of bytes: each element is a varint, so that a byte from 128 on takes two. */
  function EncodeSlice(data: seq<byte>): seq<byte>
    requires Fits(data)
  {
    EncodeInt(|data|) + EncodeBytes(data)
  }

  function DecodeSlice(bs: seq<byte>): (r: Decoded<seq<byte>>)
    ensures r.Decoded? ==> r.n <= |bs|
  {
    match DecodeInt(bs)
    case Bad(error) => Bad(error)
    case Decoded(length, n) =>
      if length < 0 then Bad(NegativeLength)
      else
        match DecodeBytes(length, bs[n..])
        case Bad(error) => Bad(error)
        case Decoded(data, m) => Decoded(data, n + m)
  }

  function SizeBytes(data: seq<byte>): nat {
    if data == [] then 0 else (if data[0] < 128 then 1 else 2) + SizeBytes(data[1..])
  }

  function SizeSlice(data: seq<byte>): nat
    requires Fits(data)
  {
    SizeInt(|data|) + SizeBytes(data)
  }

  lemma {:induction false} BytesSize(data: seq<byte>)
    ensures |EncodeBytes(data)| == SizeBytes(data)
  {
    if data != [] { BytesSize(data[1..]); }
  }

  lemma SliceRoundTrip(data: seq<byte>, rest: seq<byte>)
    requires Fits(data)
    ensures DecodeSlice(EncodeSlice(data) + rest) == Decoded(data, |EncodeSlice(data)|)
    ensures |EncodeSlice(data)| == SizeSlice(data)
  {
    var head, body := EncodeInt(|data|), EncodeBytes(data);
    assert EncodeSlice(data) + rest == head + (body + rest);
    IntRoundTrip(|data|, body + rest);
    assert (head + (body + rest))[|head|..] == body + rest;
    BytesRoundTrip(data, rest);
    BytesSize(data);
  }

  // ------------------------------------------------------------ strings and bools

  function EncodeString(s: seq<byte>): seq<byte>
    requires Fits(s)
  {
    EncodeInt(|s|) + s
  }

  function DecodeString(bs: seq<byte>): (r: Decoded<seq<byte>>)
    ensures r.Decoded? ==> r.n <= |bs|
  {
    match DecodeInt(bs)
    case Bad(error) => Bad(error)
    case Decoded(length, n) =>
      if length < 0 then Bad(NegativeLength)
      else if |bs| < n + length then Bad(TooSmall)
      else Decoded(bs[n..n + length], n + length)
  }

  lemma StringRoundTrip(s: seq<byte>, rest: seq<byte>)
    requires Fits(s)
    ensures DecodeString(EncodeString(s) + rest) == Decoded(s, |EncodeString(s)|)
    ensures |EncodeString(s)| == SizeInt(|s|) + |s|
  {
    var head := EncodeInt(|s|);
    assert EncodeString(s) + rest == head + (s + rest);
    IntRoundTrip(|s|, s + rest);
    assert (head + (s + rest))[|head|..|head| + |s|] == s;
  }

  function EncodeBool(b: bool): seq<byte> { [if b then 1 else 0] }

  function DecodeBool(bs: seq<byte>): (r: Decoded<bool>)
    ensures r.Decoded? ==> r.n <= |bs|
  {
    if bs == [] then Bad(TooSmall) else if bs[0] > 1 then Bad(WrongFormat) else Decoded(bs[0] == 1, 1)
  }

  // -------------------------------------------------------- big-endian numbers

  function Pow256(n: nat): nat {
    if n == 0 then 1 else 256 * Pow256(n - 1)
  }

  lemma {:induction false} Pow256Add(m: nat, n: nat)
    ensures Pow256(m + n) == Pow256(m) * Pow256(n)
  {
    if m > 0 { Pow256Add(m - 1, n); }
  }

  lemma Pow256Words()
    ensures Pow256(20) == TWO_160 && Pow256(32) == TWO_256
  {
    Pow256Add(2, 2);
    Pow256Add(4, 4);
    Pow256Add(8, 8);
    Pow256Add(16, 4);
    Pow256Add(16, 16);
    assert Pow256(1) == 256;
    assert Pow256(2) == 0x1_0000;
    assert Pow256(4) == 0x1_0000_0000;
    assert Pow256(8) == TWO_64;
    assert Pow256(16) == TWO_64 * TWO_64;
  }

  function FromBytes(bs: seq<byte>): nat {
    if bs == [] then 0 else FromBytes(bs[..|bs| - 1]) * 256 + bs[|bs| - 1] as nat
  }

  /** The number in this many bytes. */
  function ToBytes(v: nat, width: nat): (bs: seq<byte>)
    ensures |bs| == width
  {
    if width == 0 then [] else ToBytes(v / 256, width - 1) + [(v % 256) as byte]
  }

  /** The number without leading zero bytes, as uint256.Bytes gives it. */
  function MinBytes(v: nat): seq<byte> {
    if v == 0 then [] else MinBytes(v / 256) + [(v % 256) as byte]
  }

  lemma {:induction false} ToBytesExact(v: nat, width: nat)
    requires v < Pow256(width)
    ensures FromBytes(ToBytes(v, width)) == v
    decreases width
  {
    if width > 0 {
      ToBytesExact(v / 256, width - 1);
      assert ToBytes(v, width)[..width - 1] == ToBytes(v / 256, width - 1);
    }
  }

  lemma {:induction false} MinBytesExact(v: nat, width: nat)
    requires v < Pow256(width)
    ensures FromBytes(MinBytes(v)) == v && |MinBytes(v)| <= width
    ensures MinBytes(v) != [] ==> MinBytes(v)[0] != 0
    decreases v
  {
    if v > 0 {
      MinBytesExact(v / 256, width - 1);
      assert MinBytes(v)[..|MinBytes(v)| - 1] == MinBytes(v / 256);
    }
  }

  lemma {:induction false} FromBytesBound(bs: seq<byte>)
    ensures FromBytes(bs) < Pow256(|bs|)
    decreases |bs|
  {
    if bs != [] { FromBytesBound(bs[..|bs| - 1]); }
  }

  lemma {:induction false} Pow256Grows(m: nat, n: nat)
    requires m <= n
    ensures Pow256(m) <= Pow256(n)
    decreases n
  {
    if m < n { Pow256Grows(m, n - 1); }
  }

  /** SetBytes keeps the last bytes of a string that is too long. */
  function LastBytes(bs: seq<byte>, width: nat): seq<byte> {
    if |bs| > width then bs[|bs| - width..] else bs
  }

  function Number(bs: seq<byte>, width: nat): (v: nat)
    ensures v < Pow256(width)
  {
    FromBytesBound(LastBytes(bs, width));
    Pow256Grows(|LastBytes(bs, width)|, width);
    FromBytes(LastBytes(bs, width))
  }

  // ---------------------------------------------------------------------- maps

  /** bs holds the entries of m one after another, in some order. */
  ghost predicate EncodesEntries<K(!new), V(!new)>(encodesKey: (K, seq<byte>) -> bool,
                                                   encodesValue: (V, seq<byte>) -> bool, m: map<K, V>, bs: seq<byte>)
    decreases |m|
  {
    if m == map[] then bs == []
    else exists k: K, key: seq<byte>, value: seq<byte>, tail: seq<byte> ::
      FirstEntry(encodesKey, encodesValue, m, bs, k, key, value, tail) &&
        EncodesEntries(encodesKey, encodesValue, m - {k}, tail)
  }

  predicate FirstEntry<K(!new), V(!new)>(encodesKey: (K, seq<byte>) -> bool, encodesValue: (V, seq<byte>) -> bool,
                                         m: map<K, V>, bs: seq<byte>, k: K, key: seq<byte>, value: seq<byte>,
                                         tail: seq<byte>) {
    k in m && encodesKey(k, key) && encodesValue(m[k], value) && bs == key + value + tail
  }

  ghost predicate EncodesMap<K(!new), V(!new)>(encodesKey: (K, seq<byte>) -> bool, encodesValue: (V, seq<byte>) -> bool,
                                               m: map<K, V>, bs: seq<byte>) {
    |m| <= MAX_LENGTH &&
    exists body: seq<byte> :: bs == EncodeInt(|m|) + body && EncodesEntries(encodesKey, encodesValue, m, body)
  }

  /** The decoder never claims more bytes than there are. */
  ghost predicate Bounded<T>(decode: seq<byte> -> Decoded<T>) {
    forall bs: seq<byte> :: decode(bs).Decoded? ==> decode(bs).n <= |bs|
  }

  function DecodeEntries<K(==), V>(decodeKey: seq<byte> -> Decoded<K>, decodeValue: seq<byte> -> Decoded<V>,
                                   count: nat, bs: seq<byte>, acc: map<K, V>): (r: Decoded<map<K, V>>)
    requires Bounded(decodeKey) && Bounded(decodeValue)
    ensures r.Decoded? ==> r.n <= |bs|
    decreases count
  {
    if count == 0 then Decoded(acc, 0)
    else
      match decodeKey(bs)
      case Bad(error) => Bad(error)
      case Decoded(k, n) =>
        match decodeValue(bs[n..])
        case Bad(error) => Bad(error)
        case Decoded(v, m) =>
          match DecodeEntries(decodeKey, decodeValue, count - 1, bs[n + m..], acc[k := v])
          case Bad(error) => Bad(error)
          case Decoded(all, l) => Decoded(all, n + m + l)
  }

  function DecodeMap<K(==), V>(decodeKey: seq<byte> -> Decoded<K>, decodeValue: seq<byte> -> Decoded<V>, bs: seq<byte>)
    : (r: Decoded<map<K, V>>)
    requires Bounded(decodeKey) && Bounded(decodeValue)
    ensures r.Decoded? ==> r.n <= |bs|
  {
    match DecodeInt(bs)
    case Bad(error) => Bad(error)
    case Decoded(length, n) =>
      if length < 0 then Bad(NegativeLength)
      else
        match DecodeEntries(decodeKey, decodeValue, length, bs[n..], map[])
        case Bad(error) => Bad(error)
        case Decoded(m, l) => Decoded(m, n + l)
  }

  ghost function SizeEntries<K(!new), V(!new)>(sizeKey: K -> nat, sizeValue: V -> nat, m: map<K, V>): nat
    decreases |m|
  {
    if m == map[] then 0
    else
      var k :| k in m;
      sizeKey(k) + sizeValue(m[k]) + SizeEntries(sizeKey, sizeValue, m - {k})
  }

  /** The sum does not depend on the order in which the entries are visited. */
  lemma {:induction false} SizeEntriesOf<K(!new), V(!new)>(sizeKey: K -> nat, sizeValue: V -> nat, m: map<K, V>, k: K)
    requires k in m
    ensures SizeEntries(sizeKey, sizeValue, m) ==
            sizeKey(k) + sizeValue(m[k]) + SizeEntries(sizeKey, sizeValue, m - {k})
    decreases |m|
  {
    var j :| j in m &&
      SizeEntries(sizeKey, sizeValue, m) == sizeKey(j) + sizeValue(m[j]) + SizeEntries(sizeKey, sizeValue, m - {j});
    if j != k {
      assert |m - {j}| < |m| by { assert (m - {j}).Keys == m.Keys - {j}; }
      SizeEntriesOf(sizeKey, sizeValue, m - {j}, k);
      assert |m - {k}| < |m| by { assert (m - {k}).Keys == m.Keys - {k}; }
      SizeEntriesOf(sizeKey, sizeValue, m - {k}, j);
      assert m - {j} - {k} == m - {k} - {j};
    }
  }

  ghost function SizeMap<K(!new), V(!new)>(sizeKey: K -> nat, sizeValue: V -> nat, m: map<K, V>): nat
    requires |m| <= MAX_LENGTH
  {
    SizeInt(|m|) + SizeEntries(sizeKey, sizeValue, m)
  }

  lemma LessOneEntry<K(!new), V(!new)>(m: map<K, V>, k: K)
    requires k in m
    ensures |m - {k}| == |m| - 1
  {
    assert (m - {k}).Keys == m.Keys - {k};
    assert |m.Keys - {k}| == |m.Keys| - 1;
  }

  lemma DecodeOneEntry<K, V>(decodeKey: seq<byte> -> Decoded<K>, decodeValue: seq<byte> -> Decoded<V>, count: nat,
                             key: seq<byte>, k: K, value: seq<byte>, v: V, tail: seq<byte>, acc: map<K, V>,
                             all: map<K, V>, l: nat)
    requires Bounded(decodeKey) && Bounded(decodeValue)
    requires decodeKey(key + (value + tail)) == Decoded(k, |key|)
    requires decodeValue(value + tail) == Decoded(v, |value|)
    requires DecodeEntries(decodeKey, decodeValue, count, tail, acc[k := v]) == Decoded(all, l)
    ensures DecodeEntries(decodeKey, decodeValue, count + 1, key + (value + tail), acc) ==
            Decoded(all, |key| + |value| + l)
  {
    var bs := key + (value + tail);
    assert bs[|key|..] == value + tail;
    assert bs[|key| + |value|..] == tail;
  }

  lemma MapUnion<K, V>(acc: map<K, V>, m: map<K, V>, k: K)
    requires k in m && m.Keys !! acc.Keys
    ensures acc[k := m[k]] + (m - {k}) == acc + m
    ensures (m - {k}).Keys !! acc[k := m[k]].Keys
  {
  }

  lemma Regroup(key: seq<byte>, value: seq<byte>, tail: seq<byte>, rest: seq<byte>)
    ensures key + value + tail + rest == key + (value + (tail + rest))
  {
  }

  lemma EntryDecodes<K, V>(decodeKey: seq<byte> -> Decoded<K>, decodeValue: seq<byte> -> Decoded<V>, count: nat,
                           key: seq<byte>, k: K, value: seq<byte>, v: V, tail: seq<byte>, rest: seq<byte>,
                           acc: map<K, V>, all: map<K, V>, sizeKey: nat, sizeValue: nat)
    requires Bounded(decodeKey) && Bounded(decodeValue)
    requires RoundTripsAt(decodeKey, sizeKey, k, key, value + (tail + rest))
    requires RoundTripsAt(decodeValue, sizeValue, v, value, tail + rest)
    requires DecodeEntries(decodeKey, decodeValue, count, tail + rest, acc[k := v]) == Decoded(all, |tail|)
    ensures DecodeEntries(decodeKey, decodeValue, count + 1, key + value + tail + rest, acc) ==
            Decoded(all, |key + value + tail|)
    ensures |key + value + tail| == sizeKey + sizeValue + |tail|
  {
    Regroup(key, value, tail, rest);
    DecodeOneEntry(decodeKey, decodeValue, count, key, k, value, v, tail + rest, acc, all, |tail|);
  }

  lemma OneOf<T(!new)>(encodes: (T, seq<byte>) -> bool, decode: seq<byte> -> Decoded<T>, size: T -> nat, v: T,
                       bs: seq<byte>, rest: seq<byte>)
    requires RoundTrips(encodes, decode, size) && encodes(v, bs)
    ensures RoundTripsAt(decode, size(v), v, bs, rest)
  {
  }

  /** Whatever the order of the entries, decoding them gives the map. */
  lemma {:induction false} EntriesRoundTrip<K(!new), V(!new)>(
    encodesKey: (K, seq<byte>) -> bool, decodeKey: seq<byte> -> Decoded<K>, sizeKey: K -> nat,
    encodesValue: (V, seq<byte>) -> bool, decodeValue: seq<byte> -> Decoded<V>, sizeValue: V -> nat,
    m: map<K, V>, bs: seq<byte>, rest: seq<byte>, acc: map<K, V>)
    requires Bounded(decodeKey) && Bounded(decodeValue)
    requires RoundTrips(encodesKey, decodeKey, sizeKey) && RoundTrips(encodesValue, decodeValue, sizeValue)
    requires EncodesEntries(encodesKey, encodesValue, m, bs) && m.Keys !! acc.Keys
    ensures DecodeEntries(decodeKey, decodeValue, |m|, bs + rest, acc) == Decoded(acc + m, |bs|)
    ensures |bs| == SizeEntries(sizeKey, sizeValue, m)
    decreases |m|
  {
    if m == map[] {
      assert acc + m == acc;
    } else {
      var k: K, key: seq<byte>, value: seq<byte>, tail: seq<byte> :|
        FirstEntry(encodesKey, encodesValue, m, bs, k, key, value, tail) &&
          EncodesEntries(encodesKey, encodesValue, m - {k}, tail);
      var v := m[k];
      LessOneEntry(m, k);
      SizeEntriesOf(sizeKey, sizeValue, m, k);
      MapUnion(acc, m, k);
      EntriesRoundTrip(encodesKey, decodeKey, sizeKey, encodesValue, decodeValue, sizeValue, m - {k}, tail, rest,
                       acc[k := v]);
      OneOf(encodesKey, decodeKey, sizeKey, k, key, value + (tail + rest));
      OneOf(encodesValue, decodeValue, sizeValue, v, value, tail + rest);
      EntryDecodes(decodeKey, decodeValue, |m| - 1, key, k, value, v, tail, rest, acc, acc + m, sizeKey(k),
                   sizeValue(v));
    }
  }

  /** A map of things that round-trip round-trips, in whatever order its entries are written. */
  lemma MapRoundTrips<K(!new), V(!new)>(
    encodesKey: (K, seq<byte>) -> bool, decodeKey: seq<byte> -> Decoded<K>, sizeKey: K -> nat,
    encodesValue: (V, seq<byte>) -> bool, decodeValue: seq<byte> -> Decoded<V>, sizeValue: V -> nat,
    m: map<K, V>, bs: seq<byte>, rest: seq<byte>)
    requires Bounded(decodeKey) && Bounded(decodeValue)
    requires RoundTrips(encodesKey, decodeKey, sizeKey) && RoundTrips(encodesValue, decodeValue, sizeValue)
    requires EncodesMap(encodesKey, encodesValue, m, bs)
    ensures DecodeMap(decodeKey, decodeValue, bs + rest) == Decoded(m, |bs|)
    ensures |bs| == SizeMap(sizeKey, sizeValue, m)
  {
    var body: seq<byte> :| bs == EncodeInt(|m|) + body && EncodesEntries(encodesKey, encodesValue, m, body);
    EntriesRoundTrip(encodesKey, decodeKey, sizeKey, encodesValue, decodeValue, sizeValue, m, body, rest, map[]);
    assert map[] + m == m;
    CountedEntries(decodeKey, decodeValue, m, EncodeInt(|m|), body, rest);
  }

  lemma CountedEntries<K, V>(decodeKey: seq<byte> -> Decoded<K>, decodeValue: seq<byte> -> Decoded<V>, m: map<K, V>,
                             head: seq<byte>, body: seq<byte>, rest: seq<byte>)
    requires Bounded(decodeKey) && Bounded(decodeValue)
    requires |m| <= MAX_LENGTH && head == EncodeInt(|m|)
    requires DecodeEntries(decodeKey, decodeValue, |m|, body + rest, map[]) == Decoded(m, |body|)
    ensures DecodeMap(decodeKey, decodeValue, head + body + rest) == Decoded(m, |head + body|)
    ensures |head + body| == SizeInt(|m|) + |body|
  {
    Associate(head, body, rest);
    CountThenEntries(decodeKey, decodeValue, m, head, body + rest, |body|);
    IntSize(|m|);
  }

  lemma Associate(head: seq<byte>, body: seq<byte>, rest: seq<byte>)
    ensures head + body + rest == head + (body + rest)
  {
  }

  lemma CountThenEntries<K, V>(decodeKey: seq<byte> -> Decoded<K>, decodeValue: seq<byte> -> Decoded<V>, m: map<K, V>,
                               head: seq<byte>, entries: seq<byte>, l: nat)
    requires Bounded(decodeKey) && Bounded(decodeValue)
    requires |m| <= MAX_LENGTH && head == EncodeInt(|m|)
    requires DecodeEntries(decodeKey, decodeValue, |m|, entries, map[]) == Decoded(m, l)
    ensures DecodeMap(decodeKey, decodeValue, head + entries) == Decoded(m, |head| + l)
  {
    IntRoundTrip(|m|, entries);
    assert (head + entries)[|head|..] == entries;
  }
}
