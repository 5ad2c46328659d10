/**
 The stored format itself, byte by byte: a round trip alone would hold of any two functions that agree with each other.
 A log that is stored by one version of the node is read by the next.
 */
module Layout {
  import opened Types
  import opened Wire
  import opened Codec
  import opened StorageKeys

  /** v without its lowest digits, count of them. */
  function Shifted(v: int, base: int, count: nat): int
    requires base > 0
    decreases count
  {
    if count == 0 then v else Shifted(v / base, base, count - 1)
  }

  /** A varint holds seven bits a byte, the lowest first; the high bit says that more follow, and no byte is wasted. */
  lemma {:induction false} VarintBytes(v: nat, i: nat)
    requires i < |EncodeUint(v)|
    ensures var bs := EncodeUint(v);
            && bs[i] as nat == Shifted(v, 128, i) % 128 + (if i + 1 < |bs| then 128 else 0)
            && (i + 1 == |bs| <==> Shifted(v, 128, i) < 128)
            && (i + 1 == |bs| > 1 ==> bs[i] != 0)
    decreases v
  {
    if i > 0 { VarintBytes(v / 128, i - 1); }
    if v >= 128 && v / 128 < 128 { assert EncodeUint(v / 128) == [(v / 128) as byte]; }
  }

  /** Signs alternate: 0, -1, 1, -2, 2 and so on are written as 0, 1, 2, 3, 4. */
  lemma SignedBytes(i: Int64)
    ensures EncodeInt(i) == EncodeUint(if i < 0 then -2 * (i as int) - 1 else 2 * (i as int))
  {
  }

  /** Hashes and addresses are big-endian. */
  lemma {:induction false} BigEndian(v: nat, width: nat, i: nat)
    requires i < width
    ensures ToBytes(v, width)[i] as nat == Shifted(v, 256, width - 1 - i) % 256
    decreases width
  {
    if i < width - 1 { BigEndian(v / 256, width - 1, i); }
  }

  /** The bytes of a slice are varints, too: one byte below 128, else the byte itself and a 1. */
  lemma ByteBytes(b: byte)
    ensures EncodeByte(b) == if b < 128 then [b] else [b, 1]
  {
    if b >= 128 {
      assert b as nat / 128 == 1 && EncodeUint(1) == [1];
    }
  }

  /** A slice is its length, as a signed integer, and then its bytes in order. */
  lemma SliceBytes(data: seq<byte>, b: byte)
    requires Fits(data + [b])
    ensures EncodeSlice(data + [b]) == EncodeInt(|data| + 1) + (EncodeBytes(data) + EncodeByte(b))
  {
    BytesInOrder(data, [b]);
    OneByte(b);
    assert |data + [b]| == |data| + 1;
  }

  lemma OneByte(b: byte)
    ensures EncodeBytes([b]) == EncodeByte(b)
  {
    assert [b][1..] == [] && EncodeBytes([]) == [];
    assert EncodeByte(b) + [] == EncodeByte(b);
  }

  lemma {:induction false} BytesInOrder(data: seq<byte>, more: seq<byte>)
    ensures EncodeBytes(data + more) == EncodeBytes(data) + EncodeBytes(more)
    decreases |data|
  {
    if data == [] {
      assert data + more == more;
    } else {
      assert (data + more)[1..] == data[1..] + more;
      BytesInOrder(data[1..], more);
    }
  }

  lemma PairBytes<A(!new), B(!new)>(encodesA: (A, seq<byte>) -> bool, encodesB: (B, seq<byte>) -> bool, v: (A, B),
                                    x: seq<byte>, y: seq<byte>)
    requires encodesA(v.0, x) && encodesB(v.1, y)
    ensures EncodesPair(encodesA, encodesB, v, x + y)
  {
  }

  /** The fields of an account: nonce, balance without leading zeros, code hash, storage flag, version. */
  lemma AccountLayout(v: AccountValue)
    requires v.version < TWO_64
    ensures IsAccount(v, EncodeUint(v.nonce) + (EncodeUint256(v.balance) + (EncodeHash(v.codeHash) +
                         (EncodeBool(v.dirtyStorage) + EncodeUint(v.version)))))
  {
    var t := AccountTupleOf(v);
    var tail := EncodeBool(v.dirtyStorage) + EncodeUint64(v.version);
    PairBytes(IsBool, IsUint64, t.1.1.1, EncodeBool(v.dirtyStorage), EncodeUint64(v.version));
    var rest := EncodeHash(v.codeHash) + tail;
    PairBytes(IsHash, IsAccountTail, t.1.1, EncodeHash(v.codeHash), tail);
    var body := EncodeUint256(v.balance) + rest;
    PairBytes(IsUint256, IsAccountRest, t.1, EncodeUint256(v.balance), rest);
    PairBytes(IsUint64, IsAccountBody, t, EncodeUint64(v.nonce), body);
  }

  /** The fields of a log: block number, root hash, accounts, code counts, code preimages, storage. */
  lemma LogLayout(v: WireLog, accounts: seq<byte>, counts: seq<byte>, preimages: seq<byte>, storage: seq<byte>)
    requires IsAccounts(v.accounts, accounts) && IsCounts(v.counts, counts)
    requires IsPreimages(v.preimages, preimages) && IsStorage(v.storage, storage)
    ensures IsLayerLog(v, EncodeUint(v.blockNumber) + (EncodeHash(v.rootHash) +
                          (accounts + (counts + (preimages + storage)))))
  {
    var t := LogTupleOf(v);
    PairBytes(IsPreimages, IsStorage, t.1.1.1.1, preimages, storage);
    PairBytes(IsCounts, IsLogTail, t.1.1.1, counts, preimages + storage);
    PairBytes(IsAccounts, IsLogRest, t.1.1, accounts, counts + (preimages + storage));
    PairBytes(IsHash, IsLogBody, t.1, EncodeHash(v.rootHash), accounts + (counts + (preimages + storage)));
    PairBytes(IsUint64, IsLogKeyed, t, EncodeUint64(v.blockNumber),
              EncodeHash(v.rootHash) + (accounts + (counts + (preimages + storage))));
  }

  /** A map of one entry: its length, the key, the value. */
  lemma MapLayout<K(!new), V(!new)>(encodesKey: (K, seq<byte>) -> bool, encodesValue: (V, seq<byte>) -> bool, k: K,
                                    v: V, key: seq<byte>, value: seq<byte>)
    requires encodesKey(k, key) && encodesValue(v, value)
    ensures EncodesMap(encodesKey, encodesValue, map[k := v], [2] + (key + value))
  {
    var m := map[k := v];
    assert m - {k} == map[] && EncodesEntries(encodesKey, encodesValue, m - {k}, []);
    assert FirstEntry(encodesKey, encodesValue, m, key + value, k, key, value, []);
    assert m[k] == v && m != map[];
    assert EncodesEntries(encodesKey, encodesValue, m, key + value);
    assert |m| == 1 && EncodeInt(1) == [2];
  }

  /** The letters of a storage key: digits are 0 to 9, a to f or A to F; a version is written in decimal digits. */
  lemma KeyCharacters(d: nat, upper: bool)
    requires d < 16
    ensures HexDigit(d, upper) as char == if upper then "0123456789ABCDEF"[d] else "0123456789abcdef"[d]
  {
  }

  lemma {:induction false} HexDigitAt(casing: Casing, a: Address, rest: nat, count: nat, i: nat)
    requires i < count
    ensures HexDigits(casing, a, rest, count)[i] ==
            HexDigit(Shifted(rest, 16, count - 1 - i) % 16, casing(a, i + 1))
    decreases count
  {
    if i < count - 1 { HexDigitAt(casing, a, rest / 16, count - 1, i); }
  }

  lemma {:induction false} DecimalDigitAt(v: nat, i: nat)
    requires i < |Decimal(v)|
    ensures Decimal(v)[i] as char == "0123456789"[Shifted(v, 10, |Decimal(v)| - 1 - i) % 10]
    ensures |Decimal(v)| > 1 ==> Decimal(v)[0] as char != '0'
    decreases v
  {
    if v >= 10 {
      DecimalDigitAt(v / 10, if i < |Decimal(v)| - 1 then i else 0);
      if v / 10 < 10 { assert Decimal(v / 10) == [(48 + v / 10) as byte]; }
    }
  }

  /** A storage key: 0x, the address in forty hexadecimal digits, a dash, the version. */
  lemma KeyLayout(casing: Casing, a: Address, v: nat)
    ensures var key := StorageKey(casing, a, v);
            && |key| == 43 + |Decimal(v)|
            && key[0] as char == '0' && key[1] as char == 'x' && key[42] as char == '-'
            && key[2..42] == HexDigits(casing, a, a, 40) && key[43..] == Decimal(v)
  {
  }
}
