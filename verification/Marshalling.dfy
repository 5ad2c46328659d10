/**
 The Marshal functions of types/utils.go as they run, writing into a buffer at a running offset, and the loop that
 unmarshals a map.
 */
module Marshalling {
  import opened Types
  import opened Wire
  import opened Codec

  /** From this offset on the buffer holds data. */
  predicate Holds(bs: array<byte>, at: nat, data: seq<byte>)
    reads bs
  {
    at + |data| <= bs.Length && forall i :: 0 <= i < |data| ==> bs[at + i] == data[i]
  }

  /** The buffer is as it was outside these offsets. */
  twostate predicate Outside(bs: array<byte>, from: nat, to: nat)
    reads bs
  {
    forall i :: 0 <= i < bs.Length && !(from <= i < to) ==> bs[i] == old(bs[i])
  }

  /** Writes data after the bytes written so far. */
  method Put(data: seq<byte>, bs: array<byte>, at: nat, ghost done: seq<byte>, start: nat) returns (n: nat)
    requires start + |done| == at && at + |data| <= bs.Length && Holds(bs, start, done)
    modifies bs
    ensures n == |data| && Holds(bs, start, done + data) && Outside(bs, at, at + n)
  {
    n := 0;
    while n < |data|
      invariant n <= |data|
      invariant forall i :: 0 <= i < n ==> bs[at + i] == data[i]
      invariant Outside(bs, at, at + n)
    {
      bs[at + n] := data[n];
      n := n + 1;
    }
  }

  // -------------------------------------------------------------- account values

  function EncodeAccountValue(v: AccountValue): seq<byte>
    requires v.version < TWO_64
  {
    EncodeUint64(v.nonce) + EncodeUint256(v.balance) + EncodeHash(v.codeHash) + EncodeBool(v.dirtyStorage) +
      EncodeUint64(v.version)
  }

  lemma EncodedAccount(v: AccountValue)
    requires v.version < TWO_64
    ensures IsAccount(v, EncodeAccountValue(v)) && |EncodeAccountValue(v)| == SizeAccountValue(v)
  {
    var a, b, c, d, e := EncodeUint64(v.nonce), EncodeUint256(v.balance), EncodeHash(v.codeHash),
                         EncodeBool(v.dirtyStorage), EncodeUint64(v.version);
    var t := AccountTupleOf(v);
    assert IsAccountTail(t.1.1.1, d + e);
    assert IsAccountRest(t.1.1, c + (d + e));
    assert IsAccountBody(t.1, b + (c + (d + e)));
    assert IsAccountTuple(t, a + (b + (c + (d + e))));
    FiveParts(a, b, c, d, e);
    AccountsRoundTrip();
    OneOf(IsAccount, DecodeAccountValue, SizeAccountValue, v, EncodeAccountValue(v), []);
  }

  lemma FiveParts(a: seq<byte>, b: seq<byte>, c: seq<byte>, d: seq<byte>, e: seq<byte>)
    ensures a + b + c + d + e == a + (b + (c + (d + e)))
  {
  }

  method MarshalAccountValue(v: AccountValue, bs: array<byte>, at: nat, ghost done: seq<byte>, start: nat)
    returns (n: nat)
    requires v.version < TWO_64 && start + |done| == at
    requires at + SizeAccountValue(v) <= bs.Length && Holds(bs, start, done)
    modifies bs
    ensures n == SizeAccountValue(v) && Outside(bs, at, at + n)
    ensures Holds(bs, start, done + EncodeAccountValue(v)) && IsAccount(v, EncodeAccountValue(v))
  {
    EncodedAccount(v);
    n := PutFive(EncodeUint64(v.nonce), EncodeUint256(v.balance), EncodeHash(v.codeHash), EncodeBool(v.dirtyStorage),
                 EncodeUint64(v.version),
                 bs, at, done, start);
  }

  /** Five fields, one after another, at a running offset. */
  method PutFive(a: seq<byte>, b: seq<byte>, c: seq<byte>, d: seq<byte>, e: seq<byte>, bs: array<byte>, at: nat,
                 ghost done: seq<byte>, start: nat)
    returns (n: nat)
    requires start + |done| == at && at + |a + b + c + d + e| <= bs.Length && Holds(bs, start, done)
    modifies bs
    ensures n == |a + b + c + d + e| && Outside(bs, at, at + n)
    ensures Holds(bs, start, done + (a + b + c + d + e))
  {
    n := Put(a, bs, at, done, start);
    var n1 := Put(b, bs, at + n, done + a, start);
    n := n + n1;
    n1 := Put(c, bs, at + n, done + a + b, start);
    n := n + n1;
    n1 := Put(d, bs, at + n, done + a + b + c, start);
    n := n + n1;
    n1 := Put(e, bs, at + n, done + a + b + c + d, start);
    n := n + n1;
    assert done + a + b + c + d + e == done + (a + b + c + d + e);
  }

  // ------------------------------------------------------------------------ maps

  /** body holds some entries of m; whatever encodes the others completes it. */
  ghost predicate Begins<K(!new), V(!new)>(isKey: (K, seq<byte>) -> bool, isValue: (V, seq<byte>) -> bool,
                                           m: map<K, V>, todo: map<K, V>, body: seq<byte>) {
    forall tail: seq<byte> {:trigger EncodesEntries(isKey, isValue, todo, tail)} ::
      EncodesEntries(isKey, isValue, todo, tail) ==> EncodesEntries(isKey, isValue, m, body + tail)
  }

  lemma BeginsStep<K(!new), V(!new)>(isKey: (K, seq<byte>) -> bool, isValue: (V, seq<byte>) -> bool, m: map<K, V>,
                                     todo: map<K, V>, body: seq<byte>, k: K, key: seq<byte>, value: seq<byte>)
    requires Begins(isKey, isValue, m, todo, body) && k in todo && isKey(k, key) && isValue(todo[k], value)
    ensures Begins(isKey, isValue, m, todo - {k}, body + key + value)
  {
    forall tail: seq<byte> | EncodesEntries(isKey, isValue, todo - {k}, tail)
      ensures EncodesEntries(isKey, isValue, m, body + key + value + tail)
    {
      assert FirstEntry(isKey, isValue, todo, key + value + tail, k, key, value, tail);
      assert EncodesEntries(isKey, isValue, todo, key + value + tail);
      assert body + key + value + tail == body + (key + value + tail);
    }
  }

  lemma BeginsStart<K(!new), V(!new)>(isKey: (K, seq<byte>) -> bool, isValue: (V, seq<byte>) -> bool, m: map<K, V>)
    ensures Begins(isKey, isValue, m, m, [])
  {
    forall tail: seq<byte> | EncodesEntries(isKey, isValue, m, tail)
      ensures EncodesEntries(isKey, isValue, m, [] + tail)
    {
      assert [] + tail == tail;
    }
  }

  lemma BeginsEnd<K(!new), V(!new)>(isKey: (K, seq<byte>) -> bool, isValue: (V, seq<byte>) -> bool, m: map<K, V>,
                                    body: seq<byte>)
    requires Begins(isKey, isValue, m, map[], body) && |m| <= MAX_LENGTH
    ensures EncodesMap(isKey, isValue, m, EncodeInt(|m|) + body)
  {
    assert EncodesEntries(isKey, isValue, map[], []);
    assert body + [] == body;
  }

  /** How the entries of a map are encoded, and how long each is. */
  ghost predicate Encoders<K(!new), V(!new)>(isKey: (K, seq<byte>) -> bool, isValue: (V, seq<byte>) -> bool,
                                             sizeKey: K -> nat, sizeValue: V -> nat, m: map<K, V>,
                                             encodeKey: K -> seq<byte>, encodeValue: V -> seq<byte>) {
    forall k :: k in m ==>
      isKey(k, encodeKey(k)) && |encodeKey(k)| == sizeKey(k) && isValue(m[k], encodeValue(m[k])) &&
        |encodeValue(m[k])| == sizeValue(m[k])
  }

  method PutEntry(key: seq<byte>, value: seq<byte>, bs: array<byte>, at: nat, ghost done: seq<byte>,
                  ghost body: seq<byte>, start: nat)
    returns (n: nat)
    requires start + |done| + |body| == at && at + |key| + |value| <= bs.Length && Holds(bs, start, done + body)
    modifies bs
    ensures n == |key| + |value| && Outside(bs, at, at + n) && Holds(bs, start, done + (body + key + value))
  {
    n := Put(key, bs, at, done + body, start);
    var n1 := Put(value, bs, at + n, done + body + key, start);
    n := n + n1;
    Grouped(done, body, key, value);
  }

  /** MarshalMap of keys and values that are encoded in one way only. */
  method MarshalMap<K(==, !new), V(!new)>(m: map<K, V>, encodeKey: K -> seq<byte>, encodeValue: V -> seq<byte>,
                                          ghost isKey: (K, seq<byte>) -> bool, ghost isValue: (V, seq<byte>) -> bool,
                                          ghost sizeKey: K -> nat, ghost sizeValue: V -> nat, bs: array<byte>, at: nat,
                                          ghost done: seq<byte>, start: nat)
    returns (n: nat, ghost data: seq<byte>)
    requires |m| <= MAX_LENGTH && Encoders(isKey, isValue, sizeKey, sizeValue, m, encodeKey, encodeValue)
    requires start + |done| == at && at + SizeOfMap(sizeKey, sizeValue, m) <= bs.Length && Holds(bs, start, done)
    modifies bs
    ensures n == |data| == SizeOfMap(sizeKey, sizeValue, m) && Outside(bs, at, at + n)
    ensures Holds(bs, start, done + data) && EncodesMap(isKey, isValue, m, data)
  {
    IntSize(|m|);
    n := Put(EncodeInt(|m|), bs, at, done, start);
    ghost var head, body := EncodeInt(|m|), [];
    var todo := m;
    BeginsStart(isKey, isValue, m);
    assert done + head + [] == done + head;
    while todo != map[]
      invariant forall k :: k in todo ==> k in m && todo[k] == m[k]
      invariant n == |head| + |body| && n + SizeEntries(sizeKey, sizeValue, todo) == SizeOfMap(sizeKey, sizeValue, m)
      invariant Begins(isKey, isValue, m, todo, body)
      invariant Holds(bs, start, done + head + body) && Outside(bs, at, at + n)
      decreases |todo|
    {
      var k: K :| k in todo;
      SizeEntriesOf(sizeKey, sizeValue, todo, k);
      LessOneEntry(todo, k);
      BeginsStep(isKey, isValue, m, todo, body, k, encodeKey(k), encodeValue(todo[k]));
      var n1 := PutEntry(encodeKey(k), encodeValue(todo[k]), bs, at + n, done + head, body, start);
      n := n + n1;
      body := body + encodeKey(k) + encodeValue(todo[k]);
      todo := todo - {k};
    }
    BeginsEnd(isKey, isValue, m, body);
    data := head + body;
    Associate(done, head, body);
  }

  lemma Grouped(done: seq<byte>, body: seq<byte>, key: seq<byte>, value: seq<byte>)
    ensures done + body + key + value == done + (body + key + value)
  {
  }

  // --------------------------------------------------------------- the layer log

  predicate AccountsFit(m: Accounts) {
    |m| <= MAX_LENGTH && forall a :: a in m ==> m[a].version < TWO_64
  }

  predicate TailFits(t: LogTail) {
    && |t.0| <= MAX_LENGTH && (forall h :: h in t.0 ==> Fits(t.0[h]))
    && |t.1| <= MAX_LENGTH && (forall key :: key in t.1 ==> Fits(key) && |t.1[key]| <= MAX_LENGTH)
  }

  /** What Go's types guarantee of a log: lengths are ints and versions are uint64. */
  predicate Encodable(v: WireLog) {
    AccountsFit(v.accounts) && |v.counts| <= MAX_LENGTH && TailFits((v.preimages, v.storage))
  }

  function SliceBytes(data: seq<byte>): seq<byte> { if Fits(data) then EncodeSlice(data) else [] }

  function AccountBytes(v: AccountValue): seq<byte> { if v.version < TWO_64 then EncodeAccountValue(v) else [] }

  lemma Length<T(!new)>(encodes: (T, seq<byte>) -> bool, decode: seq<byte> -> Decoded<T>, size: T -> nat, v: T,
                        bs: seq<byte>)
    requires RoundTrips(encodes, decode, size) && encodes(v, bs)
    ensures |bs| == size(v)
  {
    OneOf(encodes, decode, size, v, bs, []);
  }

  lemma HashEncoders(m: Slots)
    ensures Encoders(IsHash, IsHash, SizeHash, SizeHash, m, EncodeHash, EncodeHash)
  {
    LeavesRoundTrip();
    forall h: Hash ensures |EncodeHash(h)| == SizeHash(h) { Length(IsHash, DecodeHash, SizeHash, h, EncodeHash(h)); }
  }

  lemma AccountEncoders(m: Accounts)
    requires forall a :: a in m ==> m[a].version < TWO_64
    ensures Encoders(IsAddress, IsAccount, SizeAddress, SizeAccountValue, m, EncodeAddress, AccountBytes)
  {
    LeavesRoundTrip();
    forall a | a in m
      ensures IsAccount(m[a], AccountBytes(m[a])) && |AccountBytes(m[a])| == SizeAccountValue(m[a])
      ensures |EncodeAddress(a)| == SizeAddress(a)
    {
      EncodedAccount(m[a]);
      Length(IsAddress, DecodeAddress, SizeAddress, a, EncodeAddress(a));
    }
  }

  lemma CodeEncoders(counts: Counts, preimages: Preimages)
    requires forall h :: h in preimages ==> Fits(preimages[h])
    ensures Encoders(IsHash, IsInt64, SizeHash, SizeInt, counts, EncodeHash, EncodeInt)
    ensures Encoders(IsHash, IsSlice, SizeHash, SizeOfSlice, preimages, EncodeHash, SliceBytes)
  {
    LeavesRoundTrip();
    forall h: Hash ensures |EncodeHash(h)| == SizeHash(h) { Length(IsHash, DecodeHash, SizeHash, h, EncodeHash(h)); }
    forall i: Int64 ensures |EncodeInt(i)| == SizeInt(i) { IntSize(i); }
    forall h | h in preimages ensures |SliceBytes(preimages[h])| == SizeOfSlice(preimages[h]) {
      Length(IsSlice, DecodeSlice, SizeOfSlice, preimages[h], EncodeSlice(preimages[h]));
    }
  }

  /** MarshalMap of the nested storage maps. */
  method MarshalStorage(m: Storage, bs: array<byte>, at: nat, ghost done: seq<byte>, start: nat)
    returns (n: nat, ghost data: seq<byte>)
    requires |m| <= MAX_LENGTH && forall key :: key in m ==> Fits(key) && |m[key]| <= MAX_LENGTH
    requires start + |done| == at && at + SizeStorage(m) <= bs.Length && Holds(bs, start, done)
    modifies bs
    ensures n == |data| == SizeStorage(m) && Outside(bs, at, at + n)
    ensures Holds(bs, start, done + data) && IsStorage(m, data)
  {
    IntSize(|m|);
    n := Put(EncodeInt(|m|), bs, at, done, start);
    ghost var head, body := EncodeInt(|m|), [];
    var todo := m;
    BeginsStart(IsString, IsSlots, m);
    assert done + head + [] == done + head;
    while todo != map[]
      invariant forall key :: key in todo ==> key in m && todo[key] == m[key]
      invariant n == |head| + |body| && n + SizeEntries(SizeOfString, SizeSlots, todo) == SizeStorage(m)
      invariant Begins(IsString, IsSlots, m, todo, body)
      invariant Holds(bs, start, done + head + body) && Outside(bs, at, at + n)
      decreases |todo|
    {
      var key: seq<byte> :| key in todo;
      SizeEntriesOf(SizeOfString, SizeSlots, todo, key);
      LessOneEntry(todo, key);
      ghost var slots;
      var n1;
      n1, slots := MarshalSlots(key, todo[key], bs, at + n, done + head, body, start);
      BeginsStep(IsString, IsSlots, m, todo, body, key, EncodeString(key), slots);
      n := n + n1;
      body := body + EncodeString(key) + slots;
      todo := todo - {key};
    }
    BeginsEnd(IsString, IsSlots, m, body);
    data := head + body;
    Associate(done, head, body);
  }

  /** One entry of the storage map: its key and its slots. */
  method MarshalSlots(key: seq<byte>, m: Slots, bs: array<byte>, at: nat, ghost done: seq<byte>, ghost body: seq<byte>,
                      start: nat)
    returns (n: nat, ghost slots: seq<byte>)
    requires Fits(key) && |m| <= MAX_LENGTH
    requires start + |done| + |body| == at && at + SizeOfString(key) + SizeSlots(m) <= bs.Length
    requires Holds(bs, start, done + body)
    modifies bs
    ensures n == SizeOfString(key) + SizeSlots(m) && n == |EncodeString(key)| + |slots| && Outside(bs, at, at + n)
    ensures IsSlots(m, slots) && Holds(bs, start, done + (body + EncodeString(key) + slots))
  {
    StringRoundTrip(key, []);
    HashEncoders(m);
    n := Put(EncodeString(key), bs, at, done + body, start);
    var n1;
    n1, slots := MarshalMap(m, EncodeHash, EncodeHash, IsHash, IsHash, SizeHash, SizeHash, bs, at + n,
                            done + body + EncodeString(key), start);
    n := n + n1;
    Grouped(done, body, EncodeString(key), slots);
  }

  lemma PairOf<A(!new), B(!new)>(encodesA: (A, seq<byte>) -> bool, encodesB: (B, seq<byte>) -> bool, v: (A, B),
                                 x: seq<byte>, y: seq<byte>)
    requires encodesA(v.0, x) && encodesB(v.1, y)
    ensures EncodesPair(encodesA, encodesB, v, x + y)
  {
  }

  lemma TailOf(v: LogTail, first: seq<byte>, rest: seq<byte>)
    requires IsPreimages(v.0, first) && IsStorage(v.1, rest)
    ensures IsLogTail(v, first + rest)
  {
    PairOf(IsPreimages, IsStorage, v, first, rest);
  }

  lemma KeyedOf(v: LogKeyed, first: seq<byte>, rest: seq<byte>)
    requires IsHash(v.0, first) && IsLogBody(v.1, rest)
    ensures IsLogKeyed(v, first + rest)
  {
    PairOf(IsHash, IsLogBody, v, first, rest);
  }

  method MarshalAccounts(m: Accounts, bs: array<byte>, at: nat, ghost done: seq<byte>)
    returns (n: nat, ghost data: seq<byte>)
    requires AccountsFit(m) && |done| == at && at + SizeAccounts(m) <= bs.Length && Holds(bs, 0, done)
    modifies bs
    ensures n == |data| == SizeAccounts(m) && Outside(bs, at, at + n)
    ensures Holds(bs, 0, done + data) && IsAccounts(m, data)
  {
    AccountEncoders(m);
    n, data := MarshalMap(m, EncodeAddress, AccountBytes, IsAddress, IsAccount, SizeAddress, SizeAccountValue, bs, at,
                          done, 0);
  }

  method MarshalCounts(m: Counts, bs: array<byte>, at: nat, ghost done: seq<byte>)
    returns (n: nat, ghost data: seq<byte>)
    requires |m| <= MAX_LENGTH && |done| == at && at + SizeCounts(m) <= bs.Length && Holds(bs, 0, done)
    modifies bs
    ensures n == |data| == SizeCounts(m) && Outside(bs, at, at + n)
    ensures Holds(bs, 0, done + data) && IsCounts(m, data)
  {
    CodeEncoders(m, map[]);
    n, data := MarshalMap(m, EncodeHash, EncodeInt, IsHash, IsInt64, SizeHash, SizeInt, bs, at, done, 0);
  }

  /** The log goes into the buffer as one of its encodings, and takes the bytes that Size announced. */
  method MarshalLayerLog(v: WireLog, bs: array<byte>) returns (n: nat, ghost data: seq<byte>)
    requires Encodable(v) && SizeLayerLog(v) <= bs.Length
    modifies bs
    ensures n == |data| == SizeLayerLog(v) && IsLayerLog(v, data)
    ensures Holds(bs, 0, data) && Outside(bs, 0, n)
  {
    var t := LogTupleOf(v);
    Uint64RoundTrip(v.blockNumber, []);
    n := Put(EncodeUint64(v.blockNumber), bs, 0, [], 0);
    ghost var number, rest := EncodeUint64(v.blockNumber), [];
    assert [] + number == number;
    var n1;
    n1, rest := MarshalFromRoot(v, bs, n, number);
    n := n + n1;
    data := number + rest;
    PairOf(IsUint64, IsLogKeyed, t, number, rest);
  }

  /** The root hash and what follows it. */
  method MarshalFromRoot(v: WireLog, bs: array<byte>, at: nat, ghost done: seq<byte>)
    returns (n: nat, ghost data: seq<byte>)
    requires Encodable(v) && |done| == at && Holds(bs, 0, done) && at + SizeLogKeyed(LogTupleOf(v).1) <= bs.Length
    modifies bs
    ensures n == |data| == SizeLogKeyed(LogTupleOf(v).1) && IsLogKeyed(LogTupleOf(v).1, data)
    ensures Holds(bs, 0, done + data) && Outside(bs, at, at + n)
  {
    HashRoundTrip(v.rootHash, []);
    n := Put(EncodeHash(v.rootHash), bs, at, done, 0);
    ghost var root, rest := EncodeHash(v.rootHash), [];
    assert |done + root| == at + n;
    var n1;
    n1, rest := MarshalBody(LogTupleOf(v).1.1, bs, at + n, done + root);
    n := n + n1;
    data := root + rest;
    Associate(done, root, rest);
    KeyedOf(LogTupleOf(v).1, root, rest);
  }

  /** The accounts and what follows them. */
  method MarshalBody(v: LogBody, bs: array<byte>, at: nat, ghost done: seq<byte>)
    returns (n: nat, ghost data: seq<byte>)
    requires AccountsFit(v.0) && |v.1.0| <= MAX_LENGTH && TailFits(v.1.1)
    requires |done| == at && Holds(bs, 0, done) && at + SizeLogBody(v) <= bs.Length
    modifies bs
    ensures n == |data| == SizeLogBody(v) && IsLogBody(v, data)
    ensures Holds(bs, 0, done + data) && Outside(bs, at, at + n)
  {
    ghost var first, rest := [], [];
    var n1;
    n, first := MarshalAccounts(v.0, bs, at, done);
    n1, rest := MarshalRest(v.1, bs, at + n, done + first);
    n := n + n1;
    data := first + rest;
    Associate(done, first, rest);
  }

  /** The code counts and what follows them. */
  method MarshalRest(v: LogRest, bs: array<byte>, at: nat, ghost done: seq<byte>)
    returns (n: nat, ghost data: seq<byte>)
    requires |v.0| <= MAX_LENGTH && TailFits(v.1)
    requires |done| == at && Holds(bs, 0, done) && at + SizeLogRest(v) <= bs.Length
    modifies bs
    ensures n == |data| == SizeLogRest(v) && IsLogRest(v, data)
    ensures Holds(bs, 0, done + data) && Outside(bs, at, at + n)
  {
    ghost var first, rest := [], [];
    var n1;
    n, first := MarshalCounts(v.0, bs, at, done);
    n1, rest := MarshalTail(v.1, bs, at + n, done + first);
    n := n + n1;
    data := first + rest;
    Associate(done, first, rest);
  }

  /** The code preimages and the storage. */
  method MarshalTail(v: LogTail, bs: array<byte>, at: nat, ghost done: seq<byte>)
    returns (n: nat, ghost data: seq<byte>)
    requires TailFits(v) && |done| == at && Holds(bs, 0, done) && at + SizeLogTail(v) <= bs.Length
    modifies bs
    ensures n == |data| == SizeLogTail(v) && IsLogTail(v, data)
    ensures Holds(bs, 0, done + data) && Outside(bs, at, at + n)
  {
    CodeEncoders(map[], v.0);
    ghost var first, rest := [], [];
    var n1;
    n, first := MarshalMap(v.0, EncodeHash, SliceBytes, IsHash, IsSlice, SizeHash, SizeOfSlice, bs, at, done, 0);
    n1, rest := MarshalStorage(v.1, bs, at + n, done + first, 0);
    n := n + n1;
    data := first + rest;
    Associate(done, first, rest);
    TailOf(v, first, rest);
  }

  // ----------------------------------------------------------------- unmarshalling

  /** The result of the rest of the input, n bytes further on. */
  function Later<T>(r: Decoded<T>, n: nat): Decoded<T> {
    match r case Bad(error) => Bad(error) case Decoded(v, m) => Decoded(v, n + m)
  }

  method UnmarshalEntries<K(==), V>(decodeKey: seq<byte> -> Decoded<K>, decodeValue: seq<byte> -> Decoded<V>,
                                    count: nat, bs: seq<byte>)
    returns (r: Decoded<map<K, V>>)
    requires Bounded(decodeKey) && Bounded(decodeValue)
    ensures r == DecodeEntries(decodeKey, decodeValue, count, bs, map[])
  {
    var m: map<K, V> := map[];
    var n: nat := 0;
    var rest := bs;
    for i := 0 to count
      invariant DecodeEntries(decodeKey, decodeValue, count, bs, map[]) ==
                Later(DecodeEntries(decodeKey, decodeValue, count - i, rest, m), n)
    {
      var key := decodeKey(rest);
      if key.Bad? {
        return Bad(key.error);
      }
      var value := decodeValue(rest[key.n..]);
      if value.Bad? {
        return Bad(value.error);
      }
      rest := rest[key.n + value.n..];
      m := m[key.value := value.value];
      n := n + key.n + value.n;
    }
    r := Decoded(m, n);
  }

  method UnmarshalMap<K(==), V>(decodeKey: seq<byte> -> Decoded<K>, decodeValue: seq<byte> -> Decoded<V>, bs: seq<byte>)
    returns (r: Decoded<map<K, V>>)
    requires Bounded(decodeKey) && Bounded(decodeValue)
    ensures r == DecodeMap(decodeKey, decodeValue, bs)
  {
    var length := DecodeInt(bs);
    if length.Bad? {
      return Bad(length.error);
    }
    if length.value < 0 {
      return Bad(NegativeLength);
    }
    var n := length.n;
    var entries := UnmarshalEntries(decodeKey, decodeValue, length.value, bs[n..]);
    r := Later(entries, n);
  }
}
