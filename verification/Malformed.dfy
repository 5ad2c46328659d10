/** What is no encoding of a log: one cut off anywhere, a negative length, a number too long, a flag neither 0 nor 1. */
module Malformed {
  import opened Types
  import opened Wire
  import opened Codec

  // ------------------------------------------------------------------ negative lengths

  lemma NegativeLengths<K, V>(decodeKey: seq<byte> -> Decoded<K>, decodeValue: seq<byte> -> Decoded<V>, i: Int64,
                                  rest: seq<byte>)
    requires Bounded(decodeKey) && Bounded(decodeValue) && i < 0
    ensures DecodeSlice(EncodeInt(i) + rest) == Bad(NegativeLength)
    ensures DecodeString(EncodeInt(i) + rest) == Bad(NegativeLength)
    ensures DecodeMap(decodeKey, decodeValue, EncodeInt(i) + rest) == Bad(NegativeLength)
  {
    IntRoundTrip(i, rest);
  }

  /** A number whose bytes all say that more follow overflows, and no byte beyond the last it may take is looked at. */
  lemma {:induction false} TooLong(bs: seq<byte>, max: nat, last: nat)
    requires 0 < max <= |bs| && last < 128 && forall i :: 0 <= i < max ==> bs[i] >= 128
    ensures DecodeUint(bs, max, last) == Bad(Overflow)
    decreases max
  {
    if max > 1 { TooLong(bs[1..], max - 1, last); }
  }

  lemma OtherFlags(b: byte, rest: seq<byte>)
    requires b > 1
    ensures DecodeBool([b] + rest) == Bad(WrongFormat)
  {
  }

  // ------------------------------------------------------------------------ truncation

  /** What has been decoded does not depend on the bytes that follow. */
  ghost predicate StableAt<T>(decode: seq<byte> -> Decoded<T>, bs: seq<byte>, rest: seq<byte>) {
    decode(bs).Decoded? ==> decode(bs + rest) == decode(bs)
  }

  ghost predicate Stable<T>(decode: seq<byte> -> Decoded<T>) {
    forall bs: seq<byte>, rest: seq<byte> {:trigger StableAt(decode, bs, rest)} :: StableAt(decode, bs, rest)
  }

  lemma CutFront(bs: seq<byte>, rest: seq<byte>, n: nat)
    requires n <= |bs|
    ensures (bs + rest)[n..] == bs[n..] + rest
  {
  }

  lemma {:induction false} UintStable(bs: seq<byte>, rest: seq<byte>, max: nat, last: nat)
    requires max > 0 && last < 128 && DecodeUint(bs, max, last).Decoded?
    ensures DecodeUint(bs + rest, max, last) == DecodeUint(bs, max, last)
    decreases max
  {
    if bs[0] >= 128 {
      CutFront(bs, rest, 1);
      UintStable(bs[1..], rest, max - 1, last);
    }
  }

  lemma IntStable(bs: seq<byte>, rest: seq<byte>)
    ensures StableAt(DecodeUint64, bs, rest) && StableAt(DecodeInt, bs, rest)
  {
    if DecodeUint(bs, 10, 1).Decoded? { UintStable(bs, rest, 10, 1); }
  }

  lemma {:induction false} BytesStable(count: nat, bs: seq<byte>, rest: seq<byte>)
    requires DecodeBytes(count, bs).Decoded?
    ensures DecodeBytes(count, bs + rest) == DecodeBytes(count, bs)
    decreases count
  {
    if count > 0 {
      var n := DecodeByte(bs).n;
      UintStable(bs, rest, 2, 1);
      CutFront(bs, rest, n);
      BytesStable(count - 1, bs[n..], rest);
    }
  }

  lemma SliceStable(bs: seq<byte>, rest: seq<byte>)
    ensures StableAt(DecodeSlice, bs, rest)
  {
    IntStable(bs, rest);
    if DecodeSlice(bs).Decoded? {
      var r := DecodeInt(bs);
      CutFront(bs, rest, r.n);
      BytesStable(r.value, bs[r.n..], rest);
    }
  }

  lemma StringStable(bs: seq<byte>, rest: seq<byte>)
    ensures StableAt(DecodeString, bs, rest)
  {
    IntStable(bs, rest);
    if DecodeString(bs).Decoded? {
      var r := DecodeInt(bs);
      assert (bs + rest)[r.n..r.n + r.value] == bs[r.n..r.n + r.value];
    }
  }

  lemma LeavesStable()
    ensures Stable(DecodeUint64) && Stable(DecodeInt) && Stable(DecodeBool) && Stable(DecodeHash)
    ensures Stable(DecodeAddress) && Stable(DecodeUint256) && Stable(DecodeSlice) && Stable(DecodeString)
  {
    forall bs: seq<byte>, rest: seq<byte>
      ensures StableAt(DecodeUint64, bs, rest) && StableAt(DecodeInt, bs, rest) && StableAt(DecodeBool, bs, rest)
      ensures StableAt(DecodeHash, bs, rest) && StableAt(DecodeAddress, bs, rest) && StableAt(DecodeUint256, bs, rest)
      ensures StableAt(DecodeSlice, bs, rest) && StableAt(DecodeString, bs, rest)
    {
      IntStable(bs, rest);
      SliceStable(bs, rest);
      StringStable(bs, rest);
    }
  }

  lemma PairStable<A(!new), B(!new)>(decodeA: seq<byte> -> Decoded<A>, decodeB: seq<byte> -> Decoded<B>,
                                     decode: seq<byte> -> Decoded<(A, B)>)
    requires Bounded(decodeA) && Bounded(decodeB) && Stable(decodeA) && Stable(decodeB)
    requires forall bs: seq<byte> :: decode(bs) == DecodePair(decodeA, decodeB, bs)
    ensures Stable(decode)
  {
    forall bs: seq<byte>, rest: seq<byte> ensures StableAt(decode, bs, rest) {
      if decode(bs).Decoded? {
        var n := decodeA(bs).n;
        assert StableAt(decodeA, bs, rest);
        CutFront(bs, rest, n);
        assert StableAt(decodeB, bs[n..], rest);
      }
    }
  }

  lemma {:induction false} EntriesStable<K, V>(decodeKey: seq<byte> -> Decoded<K>,
                                                   decodeValue: seq<byte> -> Decoded<V>, count: nat, bs: seq<byte>,
                                                   acc: map<K, V>, rest: seq<byte>)
    requires Bounded(decodeKey) && Bounded(decodeValue) && Stable(decodeKey) && Stable(decodeValue)
    requires DecodeEntries(decodeKey, decodeValue, count, bs, acc).Decoded?
    ensures DecodeEntries(decodeKey, decodeValue, count, bs + rest, acc) ==
            DecodeEntries(decodeKey, decodeValue, count, bs, acc)
    decreases count
  {
    if count > 0 {
      var k := decodeKey(bs);
      var v := decodeValue(bs[k.n..]);
      assert StableAt(decodeKey, bs, rest);
      CutFront(bs, rest, k.n);
      assert StableAt(decodeValue, bs[k.n..], rest);
      CutFront(bs, rest, k.n + v.n);
      EntriesStable(decodeKey, decodeValue, count - 1, bs[k.n + v.n..], acc[k.value := v.value], rest);
    }
  }

  lemma MapStableAt<K, V>(decodeKey: seq<byte> -> Decoded<K>, decodeValue: seq<byte> -> Decoded<V>, bs: seq<byte>,
                          rest: seq<byte>)
    requires Bounded(decodeKey) && Bounded(decodeValue) && Stable(decodeKey) && Stable(decodeValue)
    requires DecodeMap(decodeKey, decodeValue, bs).Decoded?
    ensures DecodeMap(decodeKey, decodeValue, bs + rest) == DecodeMap(decodeKey, decodeValue, bs)
  {
    var r := DecodeInt(bs);
    IntStable(bs, rest);
    CutFront(bs, rest, r.n);
    EntriesStable(decodeKey, decodeValue, r.value, bs[r.n..], map[], rest);
  }

  lemma MapStable<K, V>(decodeKey: seq<byte> -> Decoded<K>, decodeValue: seq<byte> -> Decoded<V>,
                        decode: seq<byte> -> Decoded<map<K, V>>)
    requires Bounded(decodeKey) && Bounded(decodeValue) && Stable(decodeKey) && Stable(decodeValue)
    requires forall bs: seq<byte> :: decode(bs) == DecodeMap(decodeKey, decodeValue, bs)
    ensures Stable(decode)
  {
    forall bs: seq<byte>, rest: seq<byte> ensures StableAt(decode, bs, rest) {
      if decode(bs).Decoded? { MapStableAt(decodeKey, decodeValue, bs, rest); }
    }
  }

  lemma AccountStable()
    ensures Stable(DecodeAccountValue)
  {
    LeavesStable();
    PairStable(DecodeBool, DecodeUint64, DecodeAccountTail);
    PairStable(DecodeHash, DecodeAccountTail, DecodeAccountRest);
    PairStable(DecodeUint256, DecodeAccountRest, DecodeAccountBody);
    PairStable(DecodeUint64, DecodeAccountBody, DecodeAccountTuple);
    forall bs: seq<byte>, rest: seq<byte> ensures StableAt(DecodeAccountValue, bs, rest) {
      assert StableAt(DecodeAccountTuple, bs, rest);
    }
  }

  lemma PartsStable()
    ensures Stable(DecodeAccounts) && Stable(DecodeCounts) && Stable(DecodePreimages) && Stable(DecodeStorage)
  {
    LeavesStable();
    AccountStable();
    MapStable(DecodeAddress, DecodeAccountValue, DecodeAccounts);
    MapStable(DecodeHash, DecodeInt, DecodeCounts);
    MapStable(DecodeHash, DecodeSlice, DecodePreimages);
    MapStable(DecodeHash, DecodeHash, DecodeSlots);
    MapStable(DecodeString, DecodeSlots, DecodeStorage);
  }

  lemma LogStable(bs: seq<byte>, rest: seq<byte>)
    ensures StableAt(DecodeLayerLog, bs, rest)
  {
    LeavesStable();
    PartsStable();
    PairStable(DecodePreimages, DecodeStorage, DecodeLogTail);
    PairStable(DecodeCounts, DecodeLogTail, DecodeLogRest);
    PairStable(DecodeAccounts, DecodeLogRest, DecodeLogBody);
    PairStable(DecodeHash, DecodeLogBody, DecodeLogKeyed);
    PairStable(DecodeUint64, DecodeLogKeyed, DecodeLogTuple);
    assert StableAt(DecodeLogTuple, bs, rest);
  }

  /** A log that has been cut off anywhere is refused. */
  lemma TruncatedIsRefused(v: WireLog, bs: seq<byte>, cut: nat)
    requires IsLayerLog(v, bs) && cut < |bs|
    ensures DecodeLayerLog(bs[..cut]).Bad?
  {
    LogStable(bs[..cut], bs[cut..]);
    assert bs[..cut] + bs[cut..] == bs;
    WholeLogDecodes(v, bs);
  }
}
