/**
 tempCommittedState: the changes of a block's finished transactions over the parent layer. Loading an account from it,
 folding a transaction's dirty accounts into it, and the layer log it becomes (worldstate/tempcommitted_impl.go).
 */
module Overlays {
  import opened Types
  import opened Views
  import opened Accounts
  import opened Journal

  datatype Overlay = Overlay(
    accounts: map<Address, AccountValue>,
    codeCount: map<Hash, int>,
    preimage: map<Hash, Code>,
    storage: map<(Address, nat), map<Hash, Hash>>,
    logs: map<Hash, seq<Log>>,
    logSize: nat)

  const EMPTY_OVERLAY := Overlay(map[], map[], map[], map[], map[], 0)

  // ------------------------------------------------------ what an overlay means

  /** Commit drops the count of the empty hash and counts that came to nothing. */
  function Trimmed(counts: map<Hash, int>): map<Hash, int> {
    map h: Hash | h in counts && h != EMPTY_CODE_HASH && counts[h] != 0 :: counts[h]
  }

  /** The layer log Commit writes. */
  function LogOf(o: Overlay, key: StateKey): LayerLog {
    LayerLog(key.height, key.root, o.accounts, Trimmed(o.codeCount), o.preimage, o.storage)
  }

  const NO_KEY := StateKey(0, 0)

  function ViewOf(o: Overlay, parent: View): View {
    Over(LogOf(o, NO_KEY), parent)
  }

  /** The overlay, committed at any key, would be a log that fits its parent. */
  ghost predicate OverlayOk(keccak: Hasher, o: Overlay, parent: View) {
    LogFits(keccak, LogOf(o, NO_KEY), parent)
  }

  lemma SlotKeyIsFree(o: Overlay, parent: View, key: StateKey, a: Address, v: nat, k: Hash)
    ensures Over(LogOf(o, key), parent).slot(a, v, k) == ViewOf(o, parent).slot(a, v, k)
  {
    assert Over(LogOf(o, key), parent).slot(a, v, k) == SlotOver(LogOf(o, key), a, v, k, parent.slot(a, v, k));
    assert ViewOf(o, parent).slot(a, v, k) == SlotOver(LogOf(o, NO_KEY), a, v, k, parent.slot(a, v, k));
  }

  lemma ViewKeyIsFree(o: Overlay, parent: View, key: StateKey)
    ensures var u, w := ViewOf(o, parent), Over(LogOf(o, key), parent);
            LiveEq(u, w) && (forall h: Hash :: Holders(u, h) == Holders(w, h)) && (CleanStorage(u) ==> CleanStorage(w))
  {
    var u, w := ViewOf(o, parent), Over(LogOf(o, key), parent);
    forall a: Address, v: nat, k: Hash ensures u.slot(a, v, k) == w.slot(a, v, k) {
      SlotKeyIsFree(o, parent, key, a, v, k);
    }
    forall h: Hash ensures Holders(u, h) == Holders(w, h) { SameHolders(u, w, h); }
  }

  /** Which block the log is for does not matter to what it holds. */
  lemma KeyIsFree(keccak: Hasher, o: Overlay, parent: View, key: StateKey)
    requires OverlayOk(keccak, o, parent)
    ensures LogFits(keccak, LogOf(o, key), parent) && LiveEq(ViewOf(o, parent), Over(LogOf(o, key), parent))
  {
    ViewKeyIsFree(o, parent, key);
    var log, log' := LogOf(o, NO_KEY), LogOf(o, key);
    forall a: Address | a in o.accounts ensures AccountFits(parent, a, o.accounts[a]) {
      assert a in log.updatedAccounts;
    }
    assert StorageFits(log', parent) by { assert StorageFits(log, parent); }
    assert CountsFit(log', parent) by { assert CountsFit(log, parent); }
    assert PreimagesFit(keccak, log', parent) by { assert PreimagesFit(keccak, log, parent); }
  }

  lemma EmptyOverlayOk(keccak: Hasher, parent: View)
    requires ViewOk(keccak, parent)
    ensures OverlayOk(keccak, EMPTY_OVERLAY, parent)
  {
    var u := ViewOf(EMPTY_OVERLAY, parent);
    forall h: Hash ensures Holders(u, h) == Holders(parent, h) { SameHolders(u, parent, h); }
  }

  // ------------------------------------------------------------------- loading

  function KnownSlots(o: Overlay, addr: Address, version: nat): map<Hash, Hash> {
    if (addr, version) in o.storage then o.storage[(addr, version)] else map[]
  }

  function KnownCodeOf(o: Overlay, hash: Hash): Option<Code> {
    if hash in o.preimage then Some(o.preimage[hash]) else None
  }

  function AccountWith(v: AccountValue, code: Option<Code>, slots: map<Hash, Hash>): Account {
    Account(v.nonce, v.balance, v.codeHash, v.dirtyStorage, v.version, code, map[], slots)
  }

  /** GetMutableAccount. */
  function Load(o: Overlay, parent: View, addr: Address): Account {
    var v := ViewOf(o, parent).acct(addr);
    AccountWith(v, KnownCodeOf(o, v.codeHash), KnownSlots(o, addr, v.version))
  }

  /** The context of the transaction that runs on top of o. */
  function EnvFor(keccak: Hasher, o: Overlay, parent: View, txHash: Hash, txIndex: int): Env {
    Env(keccak, parent, (addr: Address) => Load(o, parent, addr), txHash, txIndex, o.logSize)
  }

  function LoadOrigin(keccak: Hasher, o: Overlay, parent: View, addr: Address): Origin {
    Origin(keccak, parent, addr, Load(o, parent, addr))
  }

  lemma LoadNotExisting(keccak: Hasher, o: Overlay, parent: View, addr: Address)
    requires ViewOk(keccak, parent) && OverlayOk(keccak, o, parent)
    ensures var l := Load(o, parent, addr);
            && Status(l) != BEING_DELETED
            && (Status(l) == NOT_EXISTED ==> l == Account(0, 0, EMPTY_CODE_HASH, false, l.version, None, map[], map[]))
  {
    OverOk(keccak, LogOf(o, NO_KEY), parent);
    assert CanonicalAccount(ViewOf(o, parent).acct(addr));
  }

  lemma LoadClean(keccak: Hasher, o: Overlay, parent: View, addr: Address, k: Hash)
    requires ViewOk(keccak, parent) && OverlayOk(keccak, o, parent) && !Load(o, parent, addr).dirtyStorage
    ensures var origin := LoadOrigin(keccak, o, parent, addr);
            && OriginalSlot(origin, k) == ZERO_HASH
            && ParentSlot(origin, StorageVersion(origin.loaded), k) == ZERO_HASH
  {
    var u, l := ViewOf(o, parent), Load(o, parent, addr);
    assert u.slot(addr, l.version, k) == ZERO_HASH;
    if addr in o.accounts { assert AccountFits(parent, addr, o.accounts[addr]); }
    assert parent.acct(addr).version <= l.version;
    assert parent.acct(addr).version == l.version ==> !parent.acct(addr).dirtyStorage;
    assert parent.slot(addr, StorageVersion(l), k) == ZERO_HASH;
  }

  lemma LoadCode(keccak: Hasher, o: Overlay, parent: View, addr: Address)
    requires Hashes(keccak) && ViewOk(keccak, parent) && OverlayOk(keccak, o, parent)
    ensures var origin := LoadOrigin(keccak, o, parent, addr);
            CodeKnown(origin, origin.loaded.codeHash, origin.loaded.knownCode)
  {
    var h := ViewOf(o, parent).acct(addr).codeHash;
    if h != EMPTY_CODE_HASH && h !in o.preimage {
      if addr !in o.accounts { assert addr in Holders(parent, h); }
      assert Holders(parent, h) != {};
    }
  }

  /** An overlay over a well-formed layer hands out accounts a transaction can rely on. */
  lemma LoadOk(keccak: Hasher, o: Overlay, parent: View, addr: Address)
    requires Hashes(keccak) && ViewOk(keccak, parent) && OverlayOk(keccak, o, parent)
    ensures OriginOk(LoadOrigin(keccak, o, parent, addr))
  {
    LoadNotExisting(keccak, o, parent, addr);
    LoadCode(keccak, o, parent, addr);
    if !Load(o, parent, addr).dirtyStorage {
      forall k: Hash
        ensures OriginalSlot(LoadOrigin(keccak, o, parent, addr), k) == ZERO_HASH
        ensures ParentSlot(LoadOrigin(keccak, o, parent, addr), StorageVersion(Load(o, parent, addr)), k) == ZERO_HASH
      {
        LoadClean(keccak, o, parent, addr, k);
      }
    }
  }

  lemma EnvForOk(keccak: Hasher, o: Overlay, parent: View, txHash: Hash, txIndex: int)
    requires Hashes(keccak) && ViewOk(keccak, parent) && OverlayOk(keccak, o, parent)
    ensures EnvOk(EnvFor(keccak, o, parent, txHash, txIndex))
  {
    var env := EnvFor(keccak, o, parent, txHash, txIndex);
    forall addr: Address ensures OriginOk(OriginOf(env, addr)) {
      LoadOk(keccak, o, parent, addr);
      assert OriginOf(env, addr) == LoadOrigin(keccak, o, parent, addr);
    }
  }

  // ------------------------------------------------------- folding an account in

  function AddCounts(counts: map<Hash, int>, diff: map<Hash, int>): map<Hash, int> {
    map h | h in counts.Keys + diff.Keys :: CountOf(counts, h) + CountOf(diff, h)
  }

  function AddPreimage(preimage: map<Hash, Code>, hash: Hash, code: Option<Code>): map<Hash, Code> {
    if code.Some? && code.value != [] then preimage[hash := code.value] else preimage
  }

  function AddSlots(storage: map<(Address, nat), map<Hash, Hash>>, key: (Address, nat), slots: map<Hash, Hash>)
    : map<(Address, nat), map<Hash, Hash>>
  {
    if slots == map[] then storage
    else storage[key := (if key in storage then storage[key] else map[]) + slots]
  }

  /** One round of ApplyChanges. */
  function ApplyOne(o: Overlay, addr: Address, f: Finalized): Overlay {
    o.(accounts := o.accounts[addr := f.acct],
       preimage := AddPreimage(o.preimage, f.acct.codeHash, f.code),
       codeCount := AddCounts(o.codeCount, f.codeDiff),
       storage := AddSlots(o.storage, (addr, f.acct.version), f.storage))
  }

  /** The overlay still holds for the account what it was loaded from; other accounts may have been folded in. */
  predicate LoadedFrom(origin: Origin, o: Overlay) {
    var l, v := origin.loaded, ViewOf(o, origin.parent).acct(origin.addr);
    && l.nonce == v.nonce && l.balance == v.balance && l.codeHash == v.codeHash
    && l.dirtyStorage == v.dirtyStorage && l.version == v.version
    && l.knownStorage == KnownSlots(o, origin.addr, l.version)
  }

  /** An account that can be folded in: loaded from this overlay, touched since, and counted exactly. */
  ghost predicate Foldable(origin: Origin, o: Overlay, a: Account) {
    && ViewOk(origin.keccak, origin.parent)
    && OverlayOk(origin.keccak, o, origin.parent)
    && OriginOk(origin) && LoadedFrom(origin, o)
    && AccountOk(origin, a) && DiffOk(origin, a) && Status(a) != NOT_EXISTED
  }

  lemma FinalVersion(origin: Origin, a: Account)
    requires OriginOk(origin) && AccountOk(origin, a) && Status(a) != NOT_EXISTED
    ensures GetFinalized(a).acct.version % VERSIONS == if Status(a) == BEING_DELETED then NOT_EXISTED else UPDATING
    ensures origin.loaded.version <= a.version
    ensures GetFinalized(a).acct.version == if Status(a) == BEING_DELETED then a.version + 1 else a.version
    ensures Status(a) == UPDATING ==> a.version == StorageVersion(origin.loaded)
  {
  }

  lemma AccountFitsParent(origin: Origin, o: Overlay)
    requires OverlayOk(origin.keccak, o, origin.parent) && LoadedFrom(origin, o)
    ensures origin.parent.acct(origin.addr).version <= origin.loaded.version
    ensures origin.parent.acct(origin.addr).version == origin.loaded.version ==>
              (origin.parent.acct(origin.addr).dirtyStorage ==> origin.loaded.dirtyStorage)
  {
    if origin.addr in o.accounts { assert AccountFits(origin.parent, origin.addr, o.accounts[origin.addr]); }
  }

  lemma FoldedAccountFits(origin: Origin, o: Overlay, a: Account)
    requires Foldable(origin, o, a)
    ensures AccountFits(origin.parent, origin.addr, GetFinalized(a).acct)
  {
    FinalVersion(origin, a);
    AccountFitsParent(origin, o);
  }

  lemma FoldedStorageFits(origin: Origin, o: Overlay, a: Account, o': Overlay)
    requires Foldable(origin, o, a) && o' == ApplyOne(o, origin.addr, GetFinalized(a))
    ensures StorageFits(LogOf(o', NO_KEY), origin.parent)
  {
    FinalVersion(origin, a);
    AccountFitsParent(origin, o);
    var log, before := LogOf(o', NO_KEY), LogOf(o, NO_KEY);
    assert StorageFits(before, origin.parent);
    forall b: Address, v: nat | (b, v) in log.updatedStorage
      ensures origin.parent.acct(b).version <= v && v % VERSIONS == UPDATING
      ensures b in log.updatedAccounts && v <= log.updatedAccounts[b].version
    {
      if (b, v) in o.storage { assert (b, v) in before.updatedStorage; }
    }
  }

  /** The link between the transaction's account and the committed storage: they hold the same slots. */
  lemma FoldedSlot(origin: Origin, o: Overlay, a: Account, o': Overlay, k: Hash)
    requires Foldable(origin, o, a) && o' == ApplyOne(o, origin.addr, GetFinalized(a)) && Status(a) == UPDATING
    ensures ViewOf(o', origin.parent).slot(origin.addr, a.version, k) == Slot(origin, a.knownStorage, k)
  {
    FinalVersion(origin, a);
    AccountFitsParent(origin, o);
    SlotsAdded(o, origin.addr, a, k, o', origin.parent);
    if Status(origin.loaded) == NOT_EXISTED { NewVersionIsEmpty(origin, o, a.version, k); }
  }

  lemma SlotsAdded(o: Overlay, addr: Address, a: Account, k: Hash, o': Overlay, parent: View)
    requires o' == ApplyOne(o, addr, GetFinalized(a)) && Status(a) == UPDATING
    ensures ViewOf(o', parent).slot(addr, a.version, k) ==
              if k in a.knownStorage then a.knownStorage[k]
              else if k in KnownSlots(o, addr, a.version) then KnownSlots(o, addr, a.version)[k]
              else parent.slot(addr, a.version, k)
  {
    assert KnownSlots(o', addr, a.version) == KnownSlots(o, addr, a.version) + a.knownStorage;
    assert ViewOf(o', parent).slot(addr, a.version, k) ==
           SlotOver(LogOf(o', NO_KEY), addr, a.version, k, parent.slot(addr, a.version, k));
  }

  /** An account that did not exist has nothing stored under the version it is created at. */
  lemma NewVersionIsEmpty(origin: Origin, o: Overlay, v: nat, k: Hash)
    requires ViewOk(origin.keccak, origin.parent) && OverlayOk(origin.keccak, o, origin.parent) && LoadedFrom(origin, o)
    requires origin.parent.acct(origin.addr).version <= origin.loaded.version < v
    ensures k !in KnownSlots(o, origin.addr, v) && origin.parent.slot(origin.addr, v, k) == ZERO_HASH
  {
    var log := LogOf(o, NO_KEY);
    assert StorageFits(log, origin.parent) && SlotsFresh(origin.parent);
    assert (origin.addr, v) in o.storage ==> (origin.addr, v) in log.updatedStorage;
  }

  lemma OtherSlots(o: Overlay, addr: Address, f: Finalized, parent: View, b: Address, v: nat, k: Hash)
    requires b != addr || v != f.acct.version
    ensures ViewOf(ApplyOne(o, addr, f), parent).slot(b, v, k) == ViewOf(o, parent).slot(b, v, k)
  {
    var below := parent.slot(b, v, k);
    assert ViewOf(o, parent).slot(b, v, k) == SlotOver(LogOf(o, NO_KEY), b, v, k, below);
    assert ViewOf(ApplyOne(o, addr, f), parent).slot(b, v, k) ==
           SlotOver(LogOf(ApplyOne(o, addr, f), NO_KEY), b, v, k, below);
  }

  /** Nothing is stored under a version an account has only just come to. */
  lemma DeadVersionIsEmpty(keccak: Hasher, o: Overlay, parent: View, b: Address, v: nat, k: Hash)
    requires ViewOk(keccak, parent) && StorageFits(LogOf(o, NO_KEY), parent) && v % VERSIONS == NOT_EXISTED
    ensures ViewOf(o, parent).slot(b, v, k) == ZERO_HASH
  {
    assert SlotsFresh(parent);
    assert (b, v) in o.storage ==> (b, v) in LogOf(o, NO_KEY).updatedStorage;
  }

  lemma FoldedClean(origin: Origin, o: Overlay, a: Account, o': Overlay)
    requires Foldable(origin, o, a) && o' == ApplyOne(o, origin.addr, GetFinalized(a))
    ensures CleanStorage(Over(LogOf(o', NO_KEY), origin.parent))
  {
    var u, u' := ViewOf(o, origin.parent), ViewOf(o', origin.parent);
    var f := GetFinalized(a);
    FinalVersion(origin, a);
    FoldedStorageFits(origin, o, a, o');
    forall b: Address, k: Hash | !u'.acct(b).dirtyStorage ensures u'.slot(b, u'.acct(b).version, k) == ZERO_HASH {
      if b != origin.addr {
        OtherSlots(o, origin.addr, f, origin.parent, b, u.acct(b).version, k);
        assert u'.acct(b) == u.acct(b) && CleanStorage(u);
      } else if Status(a) == UPDATING {
        FoldedSlot(origin, o, a, o', k);
        assert Slot(origin, a.knownStorage, k) == ZERO_HASH;
      } else {
        DeadVersionIsEmpty(origin.keccak, o', origin.parent, b, f.acct.version, k);
      }
    }
  }

  lemma CountsAdded(counts: map<Hash, int>, diff: map<Hash, int>, h: Hash)
    requires h != EMPTY_CODE_HASH
    ensures CountOf(Trimmed(AddCounts(counts, diff)), h) == CountOf(Trimmed(counts), h) + CountOf(diff, h)
  {
  }

  lemma FoldedCount(origin: Origin, o: Overlay, a: Account, o': Overlay, h: Hash)
    requires Foldable(origin, o, a) && o' == ApplyOne(o, origin.addr, GetFinalized(a)) && h != EMPTY_CODE_HASH
    ensures CountOf(Trimmed(o'.codeCount), h) ==
            |Holders(ViewOf(o', origin.parent), h)| - |Holders(origin.parent, h)|
  {
    CountsAdded(o.codeCount, GetFinalized(a).codeDiff, h);
    FinalizedDiff(origin, a, h);
    CountStep(origin.keccak, origin.parent, o, o', origin.addr, h);
  }

  lemma CountStep(keccak: Hasher, parent: View, o: Overlay, o': Overlay, addr: Address, h: Hash)
    requires OverlayOk(keccak, o, parent) && h != EMPTY_CODE_HASH
    requires addr in o'.accounts
    requires forall b: Address :: b != addr ==> ViewOf(o', parent).acct(b) == ViewOf(o, parent).acct(b)
    ensures |Holders(ViewOf(o', parent), h)| - |Holders(parent, h)| ==
            CountOf(Trimmed(o.codeCount), h) +
              Holds(o'.accounts[addr].codeHash, h) - Holds(ViewOf(o, parent).acct(addr).codeHash, h)
  {
    assert CountsFit(LogOf(o, NO_KEY), parent);
    HoldersStep(ViewOf(o, parent), ViewOf(o', parent), addr, h);
  }

  lemma FoldedCountsFit(origin: Origin, o: Overlay, a: Account, o': Overlay)
    requires Foldable(origin, o, a) && o' == ApplyOne(o, origin.addr, GetFinalized(a))
    ensures CountsFit(LogOf(o', NO_KEY), origin.parent)
  {
    forall h: Hash | h != EMPTY_CODE_HASH
      ensures CountOf(Trimmed(o'.codeCount), h) == |Holders(ViewOf(o', origin.parent), h)| - |Holders(origin.parent, h)|
    {
      FoldedCount(origin, o, a, o', h);
    }
  }

  lemma FinalCode(origin: Origin, a: Account)
    requires OriginOk(origin) && AccountOk(origin, a)
    ensures var f := GetFinalized(a);
            && (f.code.Some? && f.code.value != [] ==>
                  f.acct.codeHash != EMPTY_CODE_HASH && IsCodeOf(origin.keccak, f.code.value, f.acct.codeHash))
            && (f.acct.codeHash == EMPTY_CODE_HASH || f.acct.codeHash == origin.loaded.codeHash
                || (f.code.Some? && f.code.value != []))
  {
    var f := GetFinalized(a);
    assert IsCodeOf(origin.keccak, [], EMPTY_CODE_HASH);
    if Status(a) != BEING_DELETED {
      assert f.code.Some? && f.acct.codeHash != EMPTY_CODE_HASH ==>
             CodeAt(origin, f.acct.codeHash, f.code) == f.code.value;
      assert f.code.Some? && f.code.value != [] ==> IsCodeOf(origin.keccak, f.code.value, f.acct.codeHash);
      assert CodeKnown(origin, f.acct.codeHash, f.code);
    }
  }

  lemma FoldedPreimages(origin: Origin, o: Overlay, a: Account, o': Overlay)
    requires Foldable(origin, o, a) && o' == ApplyOne(o, origin.addr, GetFinalized(a))
    ensures PreimagesFit(origin.keccak, LogOf(o', NO_KEY), origin.parent)
  {
    var f, log, before := GetFinalized(a), LogOf(o', NO_KEY), LogOf(o, NO_KEY);
    FinalCode(origin, a);
    assert PreimagesFit(origin.keccak, before, origin.parent);
    forall b: Address | b in log.updatedAccounts
      ensures var h := log.updatedAccounts[b].codeHash;
              h == EMPTY_CODE_HASH || h in log.codePreimage || Holders(origin.parent, h) != {}
    {
      if b != origin.addr {
        assert b in before.updatedAccounts && log.updatedAccounts[b] == before.updatedAccounts[b];
      } else if f.acct.codeHash != EMPTY_CODE_HASH && f.acct.codeHash == origin.loaded.codeHash {
        if b in o.accounts {
          assert before.updatedAccounts[b].codeHash == f.acct.codeHash;
        } else {
          assert b in Holders(origin.parent, f.acct.codeHash);
        }
      }
    }
  }

  /** Folding an account in leaves an overlay that fits its parent again. */
  lemma FoldOk(origin: Origin, o: Overlay, a: Account, o': Overlay)
    requires Foldable(origin, o, a) && o' == ApplyOne(o, origin.addr, GetFinalized(a))
    ensures OverlayOk(origin.keccak, o', origin.parent)
  {
    FoldedAccountFits(origin, o, a);
    FoldedStorageFits(origin, o, a, o');
    FoldedClean(origin, o, a, o');
    FoldedCountsFit(origin, o, a, o');
    FoldedPreimages(origin, o, a, o');
    forall b: Address | b in o'.accounts ensures AccountFits(origin.parent, b, o'.accounts[b]) {
      if b != origin.addr { assert AccountFits(origin.parent, b, o.accounts[b]); }
    }
  }
}
