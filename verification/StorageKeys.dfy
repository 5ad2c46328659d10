/**
 The string keys of a layer log's storage: the checksummed hex address, a dash, and the decimal version
 (types/utils.go), as ASCII bytes. Because they can be taken apart again, a key is as good as the pair it stands for.
 */
module StorageKeys {
  import opened Types
  import opened Wire
  import opened Codec

  /** Which hex digits of an address EIP-55 writes in upper case: decided by a hash, of which nothing is assumed. */
  type Casing = (Address, nat) -> bool

  const DASH: byte := 45

  // ------------------------------------------------------------------------ hex

  function HexDigit(d: nat, upper: bool): byte
    requires d < 16
  {
    if d < 10 then (48 + d) as byte else if upper then (55 + d) as byte else (87 + d) as byte
  }

  function HexValue(c: byte): nat {
    var n := c as nat;
    if 48 <= n < 58 then n - 48 else if 65 <= n < 71 then n - 55 else if 97 <= n < 103 then n - 87 else 0
  }

  /** The last digits of the address, count of them. */
  function HexDigits(casing: Casing, a: Address, rest: nat, count: nat): (s: seq<byte>)
    ensures |s| == count && DASH !in s
    decreases count
  {
    if count == 0 then [] else HexDigits(casing, a, rest / 16, count - 1) + [HexDigit(rest % 16, casing(a, count))]
  }

  function HexNumber(s: seq<byte>): nat {
    if s == [] then 0 else HexNumber(s[..|s| - 1]) * 16 + HexValue(s[|s| - 1])
  }

  function Pow16(n: nat): nat {
    if n == 0 then 1 else 16 * Pow16(n - 1)
  }

  lemma {:induction false} HexExact(casing: Casing, a: Address, rest: nat, count: nat)
    requires rest < Pow16(count)
    ensures HexNumber(HexDigits(casing, a, rest, count)) == rest
    decreases count
  {
    if count > 0 {
      HexExact(casing, a, rest / 16, count - 1);
      assert HexDigits(casing, a, rest, count)[..count - 1] == HexDigits(casing, a, rest / 16, count - 1);
    }
  }

  lemma {:induction false} Pow16Is256(n: nat)
    ensures Pow16(2 * n) == Pow256(n)
  {
    if n > 0 {
      Pow16Is256(n - 1);
      assert Pow16(2 * n) == 16 * (16 * Pow16(2 * n - 2));
    }
  }

  // -------------------------------------------------------------------- decimal

  function Decimal(v: nat): (s: seq<byte>)
    ensures s != [] && DASH !in s
  {
    if v < 10 then [(48 + v) as byte] else Decimal(v / 10) + [(48 + v % 10) as byte]
  }

  function DecimalNumber(s: seq<byte>): nat {
    if s == [] then 0 else DecimalNumber(s[..|s| - 1]) * 10 + HexValue(s[|s| - 1])
  }

  lemma {:induction false} DecimalExact(v: nat)
    ensures DecimalNumber(Decimal(v)) == v
  {
    if v >= 10 {
      DecimalExact(v / 10);
      assert Decimal(v)[..|Decimal(v)| - 1] == Decimal(v / 10);
    } else {
      assert Decimal(v)[..0] == [];
    }
  }

  // ------------------------------------------------------------------------ keys

  /** GetAccountStorageKey: "0x", forty digits, a dash, the version. */
  function StorageKey(casing: Casing, a: Address, v: nat): seq<byte> {
    [48, 120] + HexDigits(casing, a, a, 40) + [DASH] + Decimal(v)
  }

  /** The position of the first dash; the length when there is none. */
  function DashAt(s: seq<byte>): (i: nat)
    ensures i <= |s|
  {
    if s == [] || s[0] == DASH then 0 else 1 + DashAt(s[1..])
  }

  /** SplitAccountStorageKey, meant for valid keys only. */
  function SplitKey(key: seq<byte>): (Address, nat) {
    var dash := DashAt(key);
    var hex := key[..dash];
    var version := if dash < |key| then key[dash + 1..] else [];
    (HexAddress(if |hex| >= 2 then hex[2..] else hex), DecimalNumber(version))
  }

  function HexAddress(s: seq<byte>): Address {
    HexNumber(s) % TWO_160
  }

  lemma {:induction false} DashFound(head: seq<byte>, tail: seq<byte>)
    requires DASH !in head
    ensures DashAt(head + [DASH] + tail) == |head|
    decreases |head|
  {
    if head != [] {
      DashFound(head[1..], tail);
      assert (head + [DASH] + tail)[1..] == head[1..] + [DASH] + tail;
    }
  }

  lemma CutAtDash(head: seq<byte>, tail: seq<byte>)
    requires DASH !in head
    ensures var key := head + [DASH] + tail; DashAt(key) == |head| && key[..|head|] == head && key[|head| + 1..] == tail
  {
    DashFound(head, tail);
  }

  lemma FortyDigits(a: Address)
    ensures a < Pow16(40)
  {
    Pow256Words();
    Pow16Is256(20);
  }

  lemma HexOf(casing: Casing, a: Address, count: nat)
    requires a < Pow16(count)
    ensures var hex := [48, 120] + HexDigits(casing, a, a, count);
            |hex| == count + 2 && DASH !in hex && HexAddress(hex[2..]) == a
  {
    var digits := HexDigits(casing, a, a, count);
    HexExact(casing, a, a, count);
    assert ([48, 120] + digits)[2..] == digits;
  }

  lemma HexPart(casing: Casing, a: Address)
    ensures var hex := [48, 120] + HexDigits(casing, a, a, 40);
            |hex| == 42 && DASH !in hex && HexAddress(hex[2..]) == a
  {
    FortyDigits(a);
    HexOf(casing, a, 40);
  }

  /** A key comes apart into the address and the version it was made of, however its digits are cased. */
  lemma KeySplits(casing: Casing, a: Address, v: nat)
    ensures SplitKey(StorageKey(casing, a, v)) == (a, v)
  {
    HexPart(casing, a);
    CutAtDash([48, 120] + HexDigits(casing, a, a, 40), Decimal(v));
    DecimalExact(v);
  }

  // ----------------------------------------------------- logs with keys and with pairs

  /** What Go's types guarantee of a log. */
  predicate Storable(log: LayerLog) {
    && log.blockNumber < TWO_64
    && (forall h :: h in log.updatedCodeCount ==> INT64_MIN <= log.updatedCodeCount[h] < -INT64_MIN)
  }

  function KeyOfPair(casing: Casing, av: (Address, nat)): seq<byte> {
    StorageKey(casing, av.0, av.1)
  }

  /** The log with its storage keyed by strings. */
  function Wired(casing: Casing, log: LayerLog): WireLog
    requires Storable(log)
  {
    WireLog(log.blockNumber, log.rootHash, log.updatedAccounts,
            map h | h in log.updatedCodeCount :: log.updatedCodeCount[h],
            log.codePreimage,
            map key |
              key in (set av | av in log.updatedStorage :: KeyOfPair(casing, av)) && SplitKey(key) in log.updatedStorage
              :: log.updatedStorage[SplitKey(key)])
  }

  /** w is the log with its storage keyed by strings. */
  ghost predicate Represents(casing: Casing, w: WireLog, log: LayerLog) {
    && w.blockNumber == log.blockNumber && w.rootHash == log.rootHash && w.accounts == log.updatedAccounts
    && w.counts.Keys == log.updatedCodeCount.Keys
    && (forall h :: h in w.counts ==> w.counts[h] == log.updatedCodeCount[h])
    && w.preimages == log.codePreimage
    && (forall a: Address, v: nat :: (a, v) in log.updatedStorage <==> StorageKey(casing, a, v) in w.storage)
    && (forall a: Address, v: nat :: (a, v) in log.updatedStorage ==>
          w.storage[StorageKey(casing, a, v)] == log.updatedStorage[(a, v)])
  }

  lemma WiredRepresents(casing: Casing, log: LayerLog)
    requires Storable(log)
    ensures Represents(casing, Wired(casing, log), log)
  {
    var w := Wired(casing, log);
    forall a: Address, v: nat
      ensures (a, v) in log.updatedStorage <==> StorageKey(casing, a, v) in w.storage
      ensures (a, v) in log.updatedStorage ==> w.storage[StorageKey(casing, a, v)] == log.updatedStorage[(a, v)]
    {
      KeySplits(casing, a, v);
      if (a, v) in log.updatedStorage { assert KeyOfPair(casing, (a, v)) == StorageKey(casing, a, v); }
    }
  }

  /** String keys lose nothing: a log with strings stands for one log with pairs only. */
  lemma RepresentsOnce(casing: Casing, w: WireLog, log: LayerLog, log': LayerLog)
    requires Represents(casing, w, log) && Represents(casing, w, log')
    ensures log == log'
  {
    assert log.updatedCodeCount == log'.updatedCodeCount;
    forall av: (Address, nat) ensures av in log.updatedStorage <==> av in log'.updatedStorage {
      var (a, v) := av;
      assert (a, v) in log.updatedStorage <==> (a, v) in log'.updatedStorage;
    }
    forall av: (Address, nat) | av in log.updatedStorage
      ensures av in log'.updatedStorage && log.updatedStorage[av] == log'.updatedStorage[av]
    {
      var (a, v) := av;
      assert log.updatedStorage[(a, v)] == w.storage[StorageKey(casing, a, v)] == log'.updatedStorage[(a, v)];
    }
    assert log.updatedStorage == log'.updatedStorage;
  }

  /**
   Storing a log and reading it back: whatever encoding was stored, what is decoded stands for that log and no other.
   */
  lemma StoredLogRoundTrip(casing: Casing, log: LayerLog, bs: seq<byte>, rest: seq<byte>, read: LayerLog)
    requires Storable(log) && IsLayerLog(Wired(casing, log), bs)
    ensures DecodeLayerLog(bs + rest) == Decoded(Wired(casing, log), |bs|)
    ensures Represents(casing, DecodeLayerLog(bs + rest).value, read) <==> read == log
  {
    LayerLogRoundTrip(Wired(casing, log), bs, rest);
    WiredRepresents(casing, log);
    if Represents(casing, Wired(casing, log), read) { RepresentsOnce(casing, Wired(casing, log), read, log); }
  }
}
