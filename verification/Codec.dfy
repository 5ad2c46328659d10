/**
 The codec of the layer log and its parts (types/utils.go): what is marshalled is unmarshalled again, in any map order.
 */
module Codec {
  import opened Types
  import opened Wire

  // --------------------------------------------------------- hashes and numbers

  function EncodeHash(h: Hash): seq<byte> { EncodeSlice(ToBytes(h, 32)) }

  function EncodeAddress(a: Address): seq<byte> { EncodeSlice(ToBytes(a, 20)) }

  /** Leading zero bytes are not written. */
  function EncodeUint256(v: Uint256): seq<byte> {
    Pow256Words();
    MinBytesExact(v, 32);
    EncodeSlice(MinBytes(v))
  }

  function DecodeHash(bs: seq<byte>): (r: Decoded<Hash>)
    ensures r.Decoded? ==> r.n <= |bs|
  {
    Pow256Words();
    match DecodeSlice(bs)
    case Bad(error) => Bad(error)
    case Decoded(sl, n) => Decoded(Number(sl, 32), n)
  }

  function DecodeAddress(bs: seq<byte>): (r: Decoded<Address>)
    ensures r.Decoded? ==> r.n <= |bs|
  {
    Pow256Words();
    match DecodeSlice(bs)
    case Bad(error) => Bad(error)
    case Decoded(sl, n) => Decoded(Number(sl, 20), n)
  }

  function DecodeUint256(bs: seq<byte>): (r: Decoded<Uint256>)
    ensures r.Decoded? ==> r.n <= |bs|
  {
    DecodeHash(bs)
  }

  lemma HashRoundTrip(h: Hash, rest: seq<byte>)
    ensures DecodeHash(EncodeHash(h) + rest) == Decoded(h, |EncodeHash(h)|)
    ensures |EncodeHash(h)| == SizeSlice(ToBytes(h, 32))
  {
    Pow256Words();
    ToBytesExact(h, 32);
    SliceRoundTrip(ToBytes(h, 32), rest);
  }

  lemma AddressRoundTrip(a: Address, rest: seq<byte>)
    ensures DecodeAddress(EncodeAddress(a) + rest) == Decoded(a, |EncodeAddress(a)|)
    ensures |EncodeAddress(a)| == SizeSlice(ToBytes(a, 20))
  {
    Pow256Words();
    ToBytesExact(a, 20);
    SliceRoundTrip(ToBytes(a, 20), rest);
  }

  lemma Uint256RoundTrip(v: Uint256, rest: seq<byte>)
    ensures DecodeUint256(EncodeUint256(v) + rest) == Decoded(v, |EncodeUint256(v)|)
    ensures Fits(MinBytes(v)) && |EncodeUint256(v)| == SizeSlice(MinBytes(v))
  {
    Pow256Words();
    MinBytesExact(v, 32);
    SliceRoundTrip(MinBytes(v), rest);
  }

  // --------------------------------------------------- one thing after another

  ghost predicate EncodesPair<A(!new), B(!new)>(encodesA: (A, seq<byte>) -> bool, encodesB: (B, seq<byte>) -> bool,
                                                v: (A, B), bs: seq<byte>) {
    exists x: seq<byte>, y: seq<byte> :: bs == x + y && encodesA(v.0, x) && encodesB(v.1, y)
  }

  function DecodePair<A, B>(decodeA: seq<byte> -> Decoded<A>, decodeB: seq<byte> -> Decoded<B>,
                            bs: seq<byte>): (r: Decoded<(A, B)>)
    requires Bounded(decodeA) && Bounded(decodeB)
    ensures r.Decoded? ==> r.n <= |bs|
  {
    match decodeA(bs)
    case Bad(error) => Bad(error)
    case Decoded(a, n) =>
      match decodeB(bs[n..])
      case Bad(error) => Bad(error)
      case Decoded(b, m) => Decoded((a, b), n + m)
  }

  lemma PairRoundTrip<A(!new), B(!new)>(
    encodesA: (A, seq<byte>) -> bool, decodeA: seq<byte> -> Decoded<A>, sizeA: A -> nat,
    encodesB: (B, seq<byte>) -> bool, decodeB: seq<byte> -> Decoded<B>, sizeB: B -> nat,
    v: (A, B), bs: seq<byte>, rest: seq<byte>)
    requires Bounded(decodeA) && Bounded(decodeB)
    requires RoundTrips(encodesA, decodeA, sizeA) && RoundTrips(encodesB, decodeB, sizeB)
    requires EncodesPair(encodesA, encodesB, v, bs)
    ensures DecodePair(decodeA, decodeB, bs + rest) == Decoded(v, |bs|) && |bs| == sizeA(v.0) + sizeB(v.1)
  {
    var x: seq<byte>, y: seq<byte> :| bs == x + y && encodesA(v.0, x) && encodesB(v.1, y);
    OneOf(encodesA, decodeA, sizeA, v.0, x, y + rest);
    OneOf(encodesB, decodeB, sizeB, v.1, y, rest);
    Associate(x, y, rest);
    assert (x + (y + rest))[|x|..] == y + rest;
  }

  // ------------------------------------------------------------------- leaves

  predicate IsUint64(v: Uint64, bs: seq<byte>) { bs == EncodeUint64(v) }

  predicate IsInt64(v: Int64, bs: seq<byte>) { bs == EncodeInt(v) }

  predicate IsBool(v: bool, bs: seq<byte>) { bs == EncodeBool(v) }

  predicate IsHash(v: Hash, bs: seq<byte>) { bs == EncodeHash(v) }

  predicate IsAddress(v: Address, bs: seq<byte>) { bs == EncodeAddress(v) }

  predicate IsUint256(v: Uint256, bs: seq<byte>) { bs == EncodeUint256(v) }

  predicate IsSlice(v: seq<byte>, bs: seq<byte>) { Fits(v) && bs == EncodeSlice(v) }

  predicate IsString(v: seq<byte>, bs: seq<byte>) { Fits(v) && bs == EncodeString(v) }

  function SizeUint64(v: Uint64): nat { SizeUint(v) }

  function SizeBool(v: bool): nat { 1 }

  function SizeHash(v: Hash): nat { SizeSlice(ToBytes(v, 32)) }

  function SizeAddress(v: Address): nat { SizeSlice(ToBytes(v, 20)) }

  function SizeUint256(v: Uint256): nat { if Fits(MinBytes(v)) then SizeSlice(MinBytes(v)) else 0 }

  function SizeOfSlice(v: seq<byte>): nat { if Fits(v) then SizeSlice(v) else 0 }

  function SizeOfString(v: seq<byte>): nat { if Fits(v) then SizeInt(|v|) + |v| else 0 }

  lemma LeavesRoundTrip()
    ensures RoundTrips(IsUint64, DecodeUint64, SizeUint64)
    ensures RoundTrips(IsInt64, DecodeInt, SizeInt)
    ensures RoundTrips(IsBool, DecodeBool, SizeBool)
    ensures RoundTrips(IsHash, DecodeHash, SizeHash)
    ensures RoundTrips(IsAddress, DecodeAddress, SizeAddress)
    ensures RoundTrips(IsUint256, DecodeUint256, SizeUint256)
    ensures RoundTrips(IsSlice, DecodeSlice, SizeOfSlice)
    ensures RoundTrips(IsString, DecodeString, SizeOfString)
  {
    forall v: Uint64, bs: seq<byte>, rest: seq<byte> | IsUint64(v, bs)
      ensures RoundTripsAt(DecodeUint64, SizeUint64(v), v, bs, rest)
    {
      Uint64RoundTrip(v, rest);
    }
    forall v: Int64, bs: seq<byte>, rest: seq<byte> | IsInt64(v, bs)
      ensures RoundTripsAt(DecodeInt, SizeInt(v), v, bs, rest)
    {
      IntRoundTrip(v, rest);
    }
    forall v: Hash, bs: seq<byte>, rest: seq<byte> | IsHash(v, bs)
      ensures RoundTripsAt(DecodeHash, SizeHash(v), v, bs, rest)
    {
      HashRoundTrip(v, rest);
    }
    forall v: Address, bs: seq<byte>, rest: seq<byte> | IsAddress(v, bs)
      ensures RoundTripsAt(DecodeAddress, SizeAddress(v), v, bs, rest)
    {
      AddressRoundTrip(v, rest);
    }
    forall v: Uint256, bs: seq<byte>, rest: seq<byte> | IsUint256(v, bs)
      ensures RoundTripsAt(DecodeUint256, SizeUint256(v), v, bs, rest)
    {
      Uint256RoundTrip(v, rest);
    }
    forall v: seq<byte>, bs: seq<byte>, rest: seq<byte> | IsSlice(v, bs)
      ensures RoundTripsAt(DecodeSlice, SizeOfSlice(v), v, bs, rest)
    {
      SliceRoundTrip(v, rest);
    }
    forall v: seq<byte>, bs: seq<byte>, rest: seq<byte> | IsString(v, bs)
      ensures RoundTripsAt(DecodeString, SizeOfString(v), v, bs, rest)
    {
      StringRoundTrip(v, rest);
    }
  }

  // ------------------------------------------------------------------- accounts

  type AccountTail = (bool, Uint64)
  type AccountRest = (Hash, AccountTail)
  type AccountBody = (Uint256, AccountRest)
  type AccountTuple = (Uint64, AccountBody)

  ghost predicate IsAccountTail(v: AccountTail, bs: seq<byte>) { EncodesPair(IsBool, IsUint64, v, bs) }
  ghost predicate IsAccountRest(v: AccountRest, bs: seq<byte>) { EncodesPair(IsHash, IsAccountTail, v, bs) }
  ghost predicate IsAccountBody(v: AccountBody, bs: seq<byte>) { EncodesPair(IsUint256, IsAccountRest, v, bs) }
  ghost predicate IsAccountTuple(v: AccountTuple, bs: seq<byte>) { EncodesPair(IsUint64, IsAccountBody, v, bs) }

  function DecodeAccountTail(bs: seq<byte>): (r: Decoded<AccountTail>)
    ensures r.Decoded? ==> r.n <= |bs|
  {
    DecodePair(DecodeBool, DecodeUint64, bs)
  }

  function DecodeAccountRest(bs: seq<byte>): (r: Decoded<AccountRest>)
    ensures r.Decoded? ==> r.n <= |bs|
  {
    DecodePair(DecodeHash, DecodeAccountTail, bs)
  }

  function DecodeAccountBody(bs: seq<byte>): (r: Decoded<AccountBody>)
    ensures r.Decoded? ==> r.n <= |bs|
  {
    DecodePair(DecodeUint256, DecodeAccountRest, bs)
  }

  function DecodeAccountTuple(bs: seq<byte>): (r: Decoded<AccountTuple>)
    ensures r.Decoded? ==> r.n <= |bs|
  {
    DecodePair(DecodeUint64, DecodeAccountBody, bs)
  }

  function SizeAccountTail(v: AccountTail): nat { SizeBool(v.0) + SizeUint64(v.1) }
  function SizeAccountRest(v: AccountRest): nat { SizeHash(v.0) + SizeAccountTail(v.1) }
  function SizeAccountBody(v: AccountBody): nat { SizeUint256(v.0) + SizeAccountRest(v.1) }
  function SizeAccountTuple(v: AccountTuple): nat { SizeUint64(v.0) + SizeAccountBody(v.1) }

  lemma PairsRoundTrip<A(!new), B(!new)>(
    encodesA: (A, seq<byte>) -> bool, decodeA: seq<byte> -> Decoded<A>, sizeA: A -> nat,
    encodesB: (B, seq<byte>) -> bool, decodeB: seq<byte> -> Decoded<B>, sizeB: B -> nat,
    encodes: ((A, B), seq<byte>) -> bool, decode: seq<byte> -> Decoded<(A, B)>, size: ((A, B)) -> nat)
    requires Bounded(decodeA) && Bounded(decodeB)
    requires RoundTrips(encodesA, decodeA, sizeA) && RoundTrips(encodesB, decodeB, sizeB)
    requires forall v: (A, B), bs: seq<byte> :: encodes(v, bs) ==> EncodesPair(encodesA, encodesB, v, bs)
    requires forall bs: seq<byte> :: decode(bs) == DecodePair(decodeA, decodeB, bs)
    requires forall v: (A, B) :: size(v) == sizeA(v.0) + sizeB(v.1)
    ensures RoundTrips(encodes, decode, size)
  {
    forall v: (A, B), bs: seq<byte>, rest: seq<byte> | encodes(v, bs)
      ensures RoundTripsAt(decode, size(v), v, bs, rest)
    {
      PairRoundTrip(encodesA, decodeA, sizeA, encodesB, decodeB, sizeB, v, bs, rest);
    }
  }

  lemma AccountTuplesRoundTrip()
    ensures RoundTrips(IsAccountTuple, DecodeAccountTuple, SizeAccountTuple)
  {
    LeavesRoundTrip();
    PairsRoundTrip(IsBool, DecodeBool, SizeBool, IsUint64, DecodeUint64, SizeUint64, IsAccountTail, DecodeAccountTail,
                   SizeAccountTail);
    PairsRoundTrip(IsHash, DecodeHash, SizeHash, IsAccountTail, DecodeAccountTail, SizeAccountTail, IsAccountRest,
                   DecodeAccountRest, SizeAccountRest);
    PairsRoundTrip(IsUint256, DecodeUint256, SizeUint256, IsAccountRest, DecodeAccountRest, SizeAccountRest,
                   IsAccountBody, DecodeAccountBody, SizeAccountBody);
    PairsRoundTrip(IsUint64, DecodeUint64, SizeUint64, IsAccountBody, DecodeAccountBody, SizeAccountBody,
                   IsAccountTuple, DecodeAccountTuple, SizeAccountTuple);
  }

  function AccountTupleOf(v: AccountValue): AccountTuple
    requires v.version < TWO_64
  {
    (v.nonce, (v.balance, (v.codeHash, (v.dirtyStorage, v.version))))
  }

  function AccountOfTuple(t: AccountTuple): AccountValue {
    AccountValue(t.0, t.1.0, t.1.1.0, t.1.1.1.0, t.1.1.1.1)
  }

  ghost predicate IsAccount(v: AccountValue, bs: seq<byte>) {
    v.version < TWO_64 && IsAccountTuple(AccountTupleOf(v), bs)
  }

  function DecodeAccountValue(bs: seq<byte>): (r: Decoded<AccountValue>)
    ensures r.Decoded? ==> r.n <= |bs|
  {
    match DecodeAccountTuple(bs)
    case Bad(error) => Bad(error)
    case Decoded(t, n) => Decoded(AccountOfTuple(t), n)
  }

  function SizeAccountValue(v: AccountValue): nat {
    if v.version < TWO_64 then SizeAccountTuple(AccountTupleOf(v)) else 0
  }

  lemma AccountsRoundTrip()
    ensures RoundTrips(IsAccount, DecodeAccountValue, SizeAccountValue)
  {
    AccountTuplesRoundTrip();
    forall v: AccountValue, bs: seq<byte>, rest: seq<byte> | IsAccount(v, bs)
      ensures RoundTripsAt(DecodeAccountValue, SizeAccountValue(v), v, bs, rest)
    {
      OneOf(IsAccountTuple, DecodeAccountTuple, SizeAccountTuple, AccountTupleOf(v), bs, rest);
    }
  }

  // --------------------------------------------------------------- the layer log

  type Accounts = map<Address, AccountValue>
  type Counts = map<Hash, Int64>
  type Preimages = map<Hash, Code>
  type Slots = map<Hash, Hash>
  type Storage = map<seq<byte>, Slots>

  /** The layer log as it is stored: storage keys are strings. */
  datatype WireLog = WireLog(blockNumber: Uint64, rootHash: Hash, accounts: Accounts, counts: Counts,
                             preimages: Preimages, storage: Storage)

  ghost predicate IsAccounts(m: Accounts, bs: seq<byte>) { EncodesMap(IsAddress, IsAccount, m, bs) }
  ghost predicate IsCounts(m: Counts, bs: seq<byte>) { EncodesMap(IsHash, IsInt64, m, bs) }
  ghost predicate IsPreimages(m: Preimages, bs: seq<byte>) { EncodesMap(IsHash, IsSlice, m, bs) }
  ghost predicate IsSlots(m: Slots, bs: seq<byte>) { EncodesMap(IsHash, IsHash, m, bs) }
  ghost predicate IsStorage(m: Storage, bs: seq<byte>) { EncodesMap(IsString, IsSlots, m, bs) }

  function DecodeAccounts(bs: seq<byte>): (r: Decoded<Accounts>)
    ensures r.Decoded? ==> r.n <= |bs|
  {
    DecodeMap(DecodeAddress, DecodeAccountValue, bs)
  }

  function DecodeCounts(bs: seq<byte>): (r: Decoded<Counts>)
    ensures r.Decoded? ==> r.n <= |bs|
  {
    DecodeMap(DecodeHash, DecodeInt, bs)
  }

  function DecodePreimages(bs: seq<byte>): (r: Decoded<Preimages>)
    ensures r.Decoded? ==> r.n <= |bs|
  {
    DecodeMap(DecodeHash, DecodeSlice, bs)
  }

  function DecodeSlots(bs: seq<byte>): (r: Decoded<Slots>)
    ensures r.Decoded? ==> r.n <= |bs|
  {
    DecodeMap(DecodeHash, DecodeHash, bs)
  }

  function DecodeStorage(bs: seq<byte>): (r: Decoded<Storage>)
    ensures r.Decoded? ==> r.n <= |bs|
  {
    DecodeMap(DecodeString, DecodeSlots, bs)
  }

  ghost function SizeOfMap<K(!new), V(!new)>(sizeKey: K -> nat, sizeValue: V -> nat, m: map<K, V>): nat {
    if |m| <= MAX_LENGTH then SizeMap(sizeKey, sizeValue, m) else 0
  }

  ghost function SizeAccounts(m: Accounts): nat { SizeOfMap(SizeAddress, SizeAccountValue, m) }
  ghost function SizeCounts(m: Counts): nat { SizeOfMap(SizeHash, SizeInt, m) }
  ghost function SizePreimages(m: Preimages): nat { SizeOfMap(SizeHash, SizeOfSlice, m) }
  ghost function SizeSlots(m: Slots): nat { SizeOfMap(SizeHash, SizeHash, m) }
  ghost function SizeStorage(m: Storage): nat { SizeOfMap(SizeOfString, SizeSlots, m) }

  lemma MapsRoundTrip<K(!new), V(!new)>(
    encodesKey: (K, seq<byte>) -> bool, decodeKey: seq<byte> -> Decoded<K>, sizeKey: K -> nat,
    encodesValue: (V, seq<byte>) -> bool, decodeValue: seq<byte> -> Decoded<V>, sizeValue: V -> nat,
    encodes: (map<K, V>, seq<byte>) -> bool, decode: seq<byte> -> Decoded<map<K, V>>, size: map<K, V> -> nat)
    requires Bounded(decodeKey) && Bounded(decodeValue)
    requires RoundTrips(encodesKey, decodeKey, sizeKey) && RoundTrips(encodesValue, decodeValue, sizeValue)
    requires forall m: map<K, V>, bs: seq<byte> :: encodes(m, bs) ==> EncodesMap(encodesKey, encodesValue, m, bs)
    requires forall bs: seq<byte> :: decode(bs) == DecodeMap(decodeKey, decodeValue, bs)
    requires forall m: map<K, V> :: size(m) == SizeOfMap(sizeKey, sizeValue, m)
    ensures RoundTrips(encodes, decode, size)
  {
    forall m: map<K, V>, bs: seq<byte>, rest: seq<byte> | encodes(m, bs)
      ensures RoundTripsAt(decode, size(m), m, bs, rest)
    {
      MapRoundTrips(encodesKey, decodeKey, sizeKey, encodesValue, decodeValue, sizeValue, m, bs, rest);
    }
  }

  lemma PartsRoundTrip()
    ensures RoundTrips(IsAccounts, DecodeAccounts, SizeAccounts)
    ensures RoundTrips(IsCounts, DecodeCounts, SizeCounts)
    ensures RoundTrips(IsPreimages, DecodePreimages, SizePreimages)
    ensures RoundTrips(IsStorage, DecodeStorage, SizeStorage)
  {
    LeavesRoundTrip();
    AccountsRoundTrip();
    MapsRoundTrip(IsAddress, DecodeAddress, SizeAddress, IsAccount, DecodeAccountValue, SizeAccountValue, IsAccounts,
                  DecodeAccounts, SizeAccounts);
    MapsRoundTrip(IsHash, DecodeHash, SizeHash, IsInt64, DecodeInt, SizeInt, IsCounts, DecodeCounts, SizeCounts);
    MapsRoundTrip(IsHash, DecodeHash, SizeHash, IsSlice, DecodeSlice, SizeOfSlice, IsPreimages, DecodePreimages,
                  SizePreimages);
    MapsRoundTrip(IsHash, DecodeHash, SizeHash, IsHash, DecodeHash, SizeHash, IsSlots, DecodeSlots, SizeSlots);
    MapsRoundTrip(IsString, DecodeString, SizeOfString, IsSlots, DecodeSlots, SizeSlots, IsStorage, DecodeStorage,
                  SizeStorage);
  }

  type LogTail = (Preimages, Storage)
  type LogRest = (Counts, LogTail)
  type LogBody = (Accounts, LogRest)
  type LogKeyed = (Hash, LogBody)
  type LogTuple = (Uint64, LogKeyed)

  ghost predicate IsLogTail(v: LogTail, bs: seq<byte>) { EncodesPair(IsPreimages, IsStorage, v, bs) }
  ghost predicate IsLogRest(v: LogRest, bs: seq<byte>) { EncodesPair(IsCounts, IsLogTail, v, bs) }
  ghost predicate IsLogBody(v: LogBody, bs: seq<byte>) { EncodesPair(IsAccounts, IsLogRest, v, bs) }
  ghost predicate IsLogKeyed(v: LogKeyed, bs: seq<byte>) { EncodesPair(IsHash, IsLogBody, v, bs) }
  ghost predicate IsLogTuple(v: LogTuple, bs: seq<byte>) { EncodesPair(IsUint64, IsLogKeyed, v, bs) }

  function DecodeLogTail(bs: seq<byte>): (r: Decoded<LogTail>)
    ensures r.Decoded? ==> r.n <= |bs|
  {
    DecodePair(DecodePreimages, DecodeStorage, bs)
  }

  function DecodeLogRest(bs: seq<byte>): (r: Decoded<LogRest>)
    ensures r.Decoded? ==> r.n <= |bs|
  {
    DecodePair(DecodeCounts, DecodeLogTail, bs)
  }

  function DecodeLogBody(bs: seq<byte>): (r: Decoded<LogBody>)
    ensures r.Decoded? ==> r.n <= |bs|
  {
    DecodePair(DecodeAccounts, DecodeLogRest, bs)
  }

  function DecodeLogKeyed(bs: seq<byte>): (r: Decoded<LogKeyed>)
    ensures r.Decoded? ==> r.n <= |bs|
  {
    DecodePair(DecodeHash, DecodeLogBody, bs)
  }

  function DecodeLogTuple(bs: seq<byte>): (r: Decoded<LogTuple>)
    ensures r.Decoded? ==> r.n <= |bs|
  {
    DecodePair(DecodeUint64, DecodeLogKeyed, bs)
  }

  ghost function SizeLogTail(v: LogTail): nat { SizePreimages(v.0) + SizeStorage(v.1) }
  ghost function SizeLogRest(v: LogRest): nat { SizeCounts(v.0) + SizeLogTail(v.1) }
  ghost function SizeLogBody(v: LogBody): nat { SizeAccounts(v.0) + SizeLogRest(v.1) }
  ghost function SizeLogKeyed(v: LogKeyed): nat { SizeHash(v.0) + SizeLogBody(v.1) }
  ghost function SizeLogTuple(v: LogTuple): nat { SizeUint64(v.0) + SizeLogKeyed(v.1) }

  lemma LogTuplesRoundTrip()
    ensures RoundTrips(IsLogTuple, DecodeLogTuple, SizeLogTuple)
  {
    LeavesRoundTrip();
    PartsRoundTrip();
    PairsRoundTrip(IsPreimages, DecodePreimages, SizePreimages, IsStorage, DecodeStorage, SizeStorage, IsLogTail,
                   DecodeLogTail, SizeLogTail);
    PairsRoundTrip(IsCounts, DecodeCounts, SizeCounts, IsLogTail, DecodeLogTail, SizeLogTail, IsLogRest, DecodeLogRest,
                   SizeLogRest);
    PairsRoundTrip(IsAccounts, DecodeAccounts, SizeAccounts, IsLogRest, DecodeLogRest, SizeLogRest, IsLogBody,
                   DecodeLogBody, SizeLogBody);
    PairsRoundTrip(IsHash, DecodeHash, SizeHash, IsLogBody, DecodeLogBody, SizeLogBody, IsLogKeyed, DecodeLogKeyed,
                   SizeLogKeyed);
    PairsRoundTrip(IsUint64, DecodeUint64, SizeUint64, IsLogKeyed, DecodeLogKeyed, SizeLogKeyed, IsLogTuple,
                   DecodeLogTuple, SizeLogTuple);
  }

  function LogTupleOf(v: WireLog): LogTuple {
    (v.blockNumber, (v.rootHash, (v.accounts, (v.counts, (v.preimages, v.storage)))))
  }

  function LogOfTuple(t: LogTuple): WireLog {
    WireLog(t.0, t.1.0, t.1.1.0, t.1.1.1.0, t.1.1.1.1.0, t.1.1.1.1.1)
  }

  /** bs is an encoding of the log, its maps written in any order. */
  ghost predicate IsLayerLog(v: WireLog, bs: seq<byte>) { IsLogTuple(LogTupleOf(v), bs) }

  function DecodeLayerLog(bs: seq<byte>): (r: Decoded<WireLog>)
    ensures r.Decoded? ==> r.n <= |bs|
  {
    match DecodeLogTuple(bs)
    case Bad(error) => Bad(error)
    case Decoded(t, n) => Decoded(LogOfTuple(t), n)
  }

  ghost function SizeLayerLog(v: WireLog): nat { SizeLogTuple(LogTupleOf(v)) }

  /**
   The round trip: whatever order the maps of a log were marshalled in, and whatever follows, unmarshalling gives the
   log back and reports exactly the bytes that Size announced.
   */
  lemma LayerLogRoundTrip(v: WireLog, bs: seq<byte>, rest: seq<byte>)
    requires IsLayerLog(v, bs)
    ensures DecodeLayerLog(bs + rest) == Decoded(v, |bs|) && |bs| == SizeLayerLog(v)
  {
    LogTuplesRoundTrip();
    OneOf(IsLogTuple, DecodeLogTuple, SizeLogTuple, LogTupleOf(v), bs, rest);
  }

  lemma WholeLogDecodes(v: WireLog, bs: seq<byte>)
    requires IsLayerLog(v, bs)
    ensures DecodeLayerLog(bs) == Decoded(v, |bs|)
  {
    LayerLogRoundTrip(v, bs, []);
    AppendNothing(bs);
  }

  lemma AppendNothing(bs: seq<byte>)
    ensures bs + [] == bs
  {
  }

  /** No encoding belongs to two logs, and none is the beginning of another log's encoding. */
  lemma LayerLogUnambiguous(v: WireLog, w: WireLog, bs: seq<byte>, more: seq<byte>)
    requires IsLayerLog(v, bs) && IsLayerLog(w, bs + more)
    ensures v == w && more == []
  {
    WholeLogDecodes(w, bs + more);
    LayerLogRoundTrip(v, bs, more);
    assert |bs + more| == |bs| + |more|;
  }
}
