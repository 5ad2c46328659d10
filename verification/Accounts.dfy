/**
 mutableAccountImpl as a value: its setters, the undo closure each of them returns, its caching reads, and the
 equality of accounts up to what has been cached.
 */
module Accounts {
  import opened Types
  import opened Views

  datatype Account = Account(
    nonce: Uint64,
    balance: Uint256,
    codeHash: Hash,
    dirtyStorage: bool,
    version: nat,
    knownCode: Option<Code>,
    knownCodeDiff: map<Hash, int>,
    knownStorage: map<Hash, Hash>)

  function Status(a: Account): nat {
    a.version % VERSIONS
  }

  predicate Empty(a: Account) {
    a.nonce == 0 && a.balance == 0 && a.codeHash == EMPTY_CODE_HASH
  }

  predicate Exists(a: Account, isEIP158: bool) {
    if Status(a) == NOT_EXISTED then false else if isEIP158 then !Empty(a) else true
  }

  // ------------------------------------------------------------ caching reads

  function ReadCode(parent: View, a: Account): (Account, Code) {
    if a.codeHash == EMPTY_CODE_HASH then (a, [])
    else
      match a.knownCode
      case Some(code) => (a, code)
      case None => (a.(knownCode := Some(parent.code(a.codeHash))), parent.code(a.codeHash))
  }

  /** The version an account's uncached slots are read at: one less while it is being deleted. */
  function ReadVersion(a: Account): nat {
    if Status(a) == BEING_DELETED then a.version - 1 else a.version
  }

  function ReadSlot(parent: View, addr: Address, a: Account, key: Hash): (Account, Hash) {
    if !a.dirtyStorage then (a, ZERO_HASH)
    else if key in a.knownStorage then (a, a.knownStorage[key])
    else
      var val := parent.slot(addr, ReadVersion(a), key);
      (a.(knownStorage := a.knownStorage[key := val]), val)
  }

  // ---------------------------------------------------------- setters and undo

  /** The undo closures. bump says that the closure first runs acct.version--. */
  datatype AccountUndo =
    | Nothing
    | UndoBump
    | UndoNonce(bump: bool, nonce: Uint64)
    | UndoBalance(bump: bool, balance: Uint256)
    | UndoCode(bump: bool, added: bool, codeHash: Hash, knownCode: Option<Code>)
    | UndoNewSlot(bump: bool, key: Hash)
    | UndoSlot(bump: bool, key: Hash, val: Hash)
    | UndoFirstSlot(bump: bool, key: Hash)
    | UndoDestruct(balance: Uint256)

  function Unbump(a: Account, bump: bool): Account {
    if bump && a.version > 0 then a.(version := a.version - 1) else a
  }

  function OnlyBump(bump: bool): AccountUndo {
    if bump then UndoBump else Nothing
  }

  function CountChange(diff: map<Hash, int>, h: Hash, change: int): map<Hash, int> {
    diff[h := CountOf(diff, h) + change]
  }

  /**
   Running an undo closure. Undoing a code change adjusts the count of whatever hash the account has at that moment.
   */
  function Revert(u: AccountUndo, a: Account): Account {
    match u
    case Nothing => a
    case UndoBump => Unbump(a, true)
    case UndoNonce(bump, nonce) => Unbump(a, bump).(nonce := nonce)
    case UndoBalance(bump, balance) => Unbump(a, bump).(balance := balance)
    case UndoCode(bump, added, codeHash, knownCode) =>
      Unbump(a, bump).(knownCodeDiff := CountChange(a.knownCodeDiff, a.codeHash, if added then -1 else 1),
                       codeHash := codeHash, knownCode := knownCode)
    case UndoNewSlot(bump, key) => Unbump(a, bump).(knownStorage := a.knownStorage - {key})
    case UndoSlot(bump, key, val) => Unbump(a, bump).(knownStorage := a.knownStorage[key := val])
    case UndoFirstSlot(bump, key) => Unbump(a, bump).(dirtyStorage := false, knownStorage := a.knownStorage - {key})
    case UndoDestruct(balance) => Unbump(a, true).(balance := balance)
  }

  /** Setting anything on an account that does not exist creates it. */
  function Touched(a: Account): (Account, bool) {
    if Status(a) == NOT_EXISTED then (a.(version := a.version + 1), true) else (a, false)
  }

  /** Create panics on an account being deleted and on a non-empty account. */
  predicate CanCreate(a: Account) {
    Status(a) == NOT_EXISTED || (Status(a) == UPDATING && Empty(a))
  }

  function Create(a: Account): (Account, AccountUndo)
    requires CanCreate(a)
  {
    if Status(a) == UPDATING then (a, Nothing) else (a.(version := a.version + 1), UndoBump)
  }

  function SetNonce(a: Account, nonce: Uint64): (Account, AccountUndo) {
    var (t, bump) := Touched(a);
    (t.(nonce := nonce), if a.nonce == nonce then OnlyBump(bump) else UndoNonce(bump, a.nonce))
  }

  function SetBalance(a: Account, balance: Uint256): (Account, AccountUndo) {
    var (t, bump) := Touched(a);
    (t.(balance := balance), if a.balance == balance then OnlyBump(bump) else UndoBalance(bump, a.balance))
  }

  /** The copy that SetCode keeps of the code it replaces: an empty slice is copied as nil. */
  function CodeCopy(knownCode: Option<Code>): Option<Code> {
    if knownCode == Some([]) then None else knownCode
  }

  /** SetCode panics when it would overwrite code with other code. */
  predicate CanSetCode(a: Account, hash: Hash) {
    a.codeHash == hash || a.codeHash == EMPTY_CODE_HASH || hash == EMPTY_CODE_HASH
  }

  function SetCode(a: Account, code: Code, hash: Hash): (Account, AccountUndo)
    requires CanSetCode(a, hash)
  {
    var (t, bump) := Touched(a);
    if a.codeHash == hash then (t, OnlyBump(bump))
    else if a.codeHash == EMPTY_CODE_HASH then
      (t.(codeHash := hash, knownCode := Some(code), knownCodeDiff := CountChange(a.knownCodeDiff, hash, 1)),
       UndoCode(bump, true, a.codeHash, CodeCopy(a.knownCode)))
    else
      (t.(codeHash := hash, knownCode := Some(code), knownCodeDiff := CountChange(a.knownCodeDiff, a.codeHash, -1)),
       UndoCode(bump, false, a.codeHash, CodeCopy(a.knownCode)))
  }

  function SetState(a: Account, key: Hash, val: Hash): (Account, AccountUndo) {
    var (t, bump) := Touched(a);
    var written := t.(dirtyStorage := true, knownStorage := a.knownStorage[key := val]);
    if !a.dirtyStorage then (written, UndoFirstSlot(bump, key))
    else if key !in a.knownStorage then (written, UndoNewSlot(bump, key))
    else if a.knownStorage[key] == val then (written, OnlyBump(bump))
    else (written, UndoSlot(bump, key, a.knownStorage[key]))
  }

  /** SelfDestruct panics on an account that does not exist. */
  function SelfDestruct(a: Account): (Account, AccountUndo)
    requires Status(a) != NOT_EXISTED
  {
    if Status(a) == BEING_DELETED then (a, Nothing)
    else (a.(balance := 0, version := a.version + 1), UndoDestruct(a.balance))
  }

  /** GetFinalized: what is left of the account at the end of a transaction. */
  datatype Finalized = Finalized(acct: AccountValue, code: Option<Code>, codeDiff: map<Hash, int>,
                                 storage: map<Hash, Hash>)

  function GetFinalized(a: Account): Finalized {
    if Status(a) == BEING_DELETED then
      Finalized(EmptyAccount(a.version + 1), None,
                if a.codeHash != EMPTY_CODE_HASH then CountChange(a.knownCodeDiff, a.codeHash, -1) else a.knownCodeDiff,
                map[])
    else
      Finalized(AccountValue(a.nonce, a.balance, a.codeHash, a.dirtyStorage, a.version), a.knownCode, a.knownCodeDiff,
                a.knownStorage)
  }

  // ------------------------------------------------------------- observation

  /**
   Where an account comes from: what it was when it was loaded, and the layer its uncached slots and code come from.
   */
  datatype Origin = Origin(keccak: Hasher, parent: View, addr: Address, loaded: Account)

  function ParentSlot(o: Origin, version: nat, key: Hash): Hash {
    o.parent.slot(o.addr, version, key)
  }

  /** The version an account's slots are kept under once it exists. */
  function StorageVersion(loaded: Account): nat {
    if Status(loaded) == NOT_EXISTED then loaded.version + 1 else loaded.version
  }

  function OriginalSlot(o: Origin, key: Hash): Hash {
    if Status(o.loaded) == NOT_EXISTED then ZERO_HASH
    else if key in o.loaded.knownStorage then o.loaded.knownStorage[key]
    else ParentSlot(o, o.loaded.version, key)
  }

  /** The slot an account has, cached or not. */
  function Slot(o: Origin, known: map<Hash, Hash>, key: Hash): Hash {
    if key in known then known[key] else OriginalSlot(o, key)
  }

  function CodeAt(o: Origin, hash: Hash, known: Option<Code>): Code {
    if hash == EMPTY_CODE_HASH then [] else if known.Some? then known.value else o.parent.code(hash)
  }

  function CodeOfAccount(o: Origin, a: Account): Code {
    CodeAt(o, a.codeHash, a.knownCode)
  }

  /**
   Known code belongs to the hash it is kept for; code that is new in this transaction, or was known at loading, is
   known.
   */
  ghost predicate CodeKnown(o: Origin, hash: Hash, known: Option<Code>) {
    && IsCodeOf(o.keccak, CodeAt(o, hash, known), hash)
    && (known.Some? && known.value != [] ==> IsCodeOf(o.keccak, known.value, hash))
    && (hash != EMPTY_CODE_HASH && (hash != o.loaded.codeHash || o.loaded.knownCode.Some?) ==> known.Some?)
  }

  /** What loading an account from the transaction overlay guarantees. */
  ghost predicate OriginOk(o: Origin) {
    var l := o.loaded;
    && Hashes(o.keccak)
    && Status(l) != BEING_DELETED
    && l.knownCodeDiff == map[]
    && (Status(l) == NOT_EXISTED ==> l == Account(0, 0, EMPTY_CODE_HASH, false, l.version, None, map[], map[]))
    && (!l.dirtyStorage ==> forall k: Hash :: OriginalSlot(o, k) == ZERO_HASH)
    && (!l.dirtyStorage ==> forall k: Hash :: ParentSlot(o, StorageVersion(l), k) == ZERO_HASH)
    && CodeKnown(o, l.codeHash, l.knownCode)
  }

  /** The versions an account can have before its transaction is finalised. */
  predicate VersionOk(o: Origin, a: Account) {
    var v := o.loaded.version;
    if Status(o.loaded) == NOT_EXISTED then v <= a.version <= v + 2 else v <= a.version <= v + 1
  }

  /** Holds of every account a transaction has loaded, at every moment, also half way through a revert. */
  ghost predicate AccountOk(o: Origin, a: Account) {
    && VersionOk(o, a)
    && (!a.dirtyStorage ==> forall k: Hash :: Slot(o, a.knownStorage, k) == ZERO_HASH)
    && (o.loaded.dirtyStorage ==> a.dirtyStorage && o.loaded.knownStorage.Keys <= a.knownStorage.Keys)
    && CodeKnown(o, a.codeHash, a.knownCode)
  }

  lemma LoadedOk(o: Origin)
    requires OriginOk(o)
    ensures AccountOk(o, o.loaded)
  {
  }

  /** Equal up to what has been cached. */
  ghost predicate SameAccount(o: Origin, a: Account, b: Account) {
    && AccountOk(o, a) && AccountOk(o, b)
    && a.nonce == b.nonce && a.balance == b.balance && a.codeHash == b.codeHash
    && a.dirtyStorage == b.dirtyStorage && a.version == b.version
    && (forall k: Hash :: Slot(o, a.knownStorage, k) == Slot(o, b.knownStorage, k))
    && CodeOfAccount(o, a) == CodeOfAccount(o, b)
  }

  /** The slot a caching read returns is the slot the account has. */
  lemma ReadSlotIsSlot(o: Origin, a: Account, key: Hash)
    requires OriginOk(o) && AccountOk(o, a) && (Status(a) == NOT_EXISTED ==> !a.dirtyStorage)
    ensures ReadSlot(o.parent, o.addr, a, key).1 == Slot(o, a.knownStorage, key)
  {
    if a.dirtyStorage {
      assert ReadVersion(a) == StorageVersion(o.loaded);
      assert ParentSlot(o, StorageVersion(o.loaded), key) == o.parent.slot(o.addr, ReadVersion(a), key);
    }
  }

  /** A caching read cannot be observed. */
  lemma ReadSlotKeeps(o: Origin, a: Account, key: Hash)
    requires OriginOk(o) && AccountOk(o, a) && (Status(a) == NOT_EXISTED ==> !a.dirtyStorage)
    ensures SameAccount(o, ReadSlot(o.parent, o.addr, a, key).0, a)
  {
    ReadSlotIsSlot(o, a, key);
  }

  lemma ReadCodeKeeps(o: Origin, a: Account)
    requires OriginOk(o) && AccountOk(o, a)
    ensures SameAccount(o, ReadCode(o.parent, a).0, a)
    ensures ReadCode(o.parent, a).1 == CodeOfAccount(o, a)
  {
  }

  lemma SameAccountTransitive(o: Origin, a: Account, b: Account, c: Account)
    requires SameAccount(o, a, b) && SameAccount(o, b, c)
    ensures SameAccount(o, a, c)
  {
  }

  // ------------------------------------------------------------ undo is exact

  /** The account exists by then: it was made to exist by the setter itself. */
  predicate BumpFits(o: Origin, a: Account, bump: bool) {
    bump ==> Status(o.loaded) == NOT_EXISTED && o.loaded.version < a.version
  }

  /** When an undo closure may run: what its setter left behind, observably. */
  ghost predicate Fits(o: Origin, u: AccountUndo, a: Account) {
    match u
    case Nothing => true
    case UndoBump => BumpFits(o, a, true)
    case UndoNonce(bump, _) => BumpFits(o, a, bump)
    case UndoBalance(bump, _) => BumpFits(o, a, bump)
    case UndoCode(bump, added, hash, known) =>
      && BumpFits(o, a, bump)
      && CodeKnown(o, hash, known)
      && (if added then hash == EMPTY_CODE_HASH && a.codeHash != EMPTY_CODE_HASH
          else hash != EMPTY_CODE_HASH && a.codeHash == EMPTY_CODE_HASH)
    case UndoNewSlot(bump, key) =>
      BumpFits(o, a, bump) && a.dirtyStorage && (o.loaded.dirtyStorage ==> key !in o.loaded.knownStorage)
    case UndoSlot(bump, key, _) => BumpFits(o, a, bump) && a.dirtyStorage
    case UndoFirstSlot(bump, key) =>
      BumpFits(o, a, bump) && !o.loaded.dirtyStorage && forall k: Hash :: k != key ==>
                                                          Slot(o, a.knownStorage, k) == ZERO_HASH
    case UndoDestruct(_) => Status(a) == BEING_DELETED
  }

  /** u takes a2 back to a. */
  ghost predicate Undoes(o: Origin, u: AccountUndo, a2: Account, a: Account) {
    AccountOk(o, a2) && Fits(o, u, a2) && SameAccount(o, Revert(u, a2), a)
  }

  lemma CreateUndo(o: Origin, a: Account)
    requires OriginOk(o) && AccountOk(o, a) && CanCreate(a)
    ensures Undoes(o, Create(a).1, Create(a).0, a)
  {
  }

  lemma SetNonceUndo(o: Origin, a: Account, nonce: Uint64)
    requires OriginOk(o) && AccountOk(o, a)
    ensures Undoes(o, SetNonce(a, nonce).1, SetNonce(a, nonce).0, a)
  {
  }

  lemma SetBalanceUndo(o: Origin, a: Account, balance: Uint256)
    requires OriginOk(o) && AccountOk(o, a)
    ensures Undoes(o, SetBalance(a, balance).1, SetBalance(a, balance).0, a)
  {
  }

  lemma SetCodeLeaves(o: Origin, a: Account, code: Code, hash: Hash)
    requires OriginOk(o) && AccountOk(o, a) && IsCodeOf(o.keccak, code, hash) && CanSetCode(a, hash)
    ensures AccountOk(o, SetCode(a, code, hash).0) && CodeOfAccount(o, SetCode(a, code, hash).0) == code
  {
    var a2 := SetCode(a, code, hash).0;
    assert IsCodeOf(o.keccak, [], EMPTY_CODE_HASH);
    if hash == EMPTY_CODE_HASH { assert code == []; }
    assert IsCodeOf(o.keccak, CodeOfAccount(o, a), a.codeHash);
    assert CodeOfAccount(o, a2) == code;
  }

  lemma SetCodeFits(o: Origin, a: Account, code: Code, hash: Hash)
    requires OriginOk(o) && AccountOk(o, a) && CanSetCode(a, hash)
    ensures Fits(o, SetCode(a, code, hash).1, SetCode(a, code, hash).0)
  {
  }

  lemma SetCodeBack(o: Origin, a: Account, code: Code, hash: Hash)
    requires OriginOk(o) && AccountOk(o, a) && IsCodeOf(o.keccak, code, hash) && CanSetCode(a, hash)
    ensures var b := Revert(SetCode(a, code, hash).1, SetCode(a, code, hash).0);
            b == a.(knownCode := b.knownCode, knownCodeDiff := b.knownCodeDiff) &&
              CodeOfAccount(o, b) == CodeOfAccount(o, a)
  {
  }

  lemma SetCodeUndo(o: Origin, a: Account, code: Code)
    requires OriginOk(o) && AccountOk(o, a) && code in o.keccak.inPlay && CanSetCode(a, o.keccak.hash(code))
    ensures Undoes(o, SetCode(a, code, o.keccak.hash(code)).1, SetCode(a, code, o.keccak.hash(code)).0, a)
    ensures CodeOfAccount(o, SetCode(a, code, o.keccak.hash(code)).0) == code
  {
    var hash := o.keccak.hash(code);
    var (a2, u) := SetCode(a, code, hash);
    SetCodeLeaves(o, a, code, hash);
    SetCodeFits(o, a, code, hash);
    RevertOk(o, u, a2);
    SetCodeBack(o, a, code, hash);
  }

  lemma SetStateSlots(o: Origin, a: Account, key: Hash, val: Hash, k: Hash)
    requires OriginOk(o) && AccountOk(o, a)
    ensures var (a2, u) := SetState(a, key, val);
            && Slot(o, a2.knownStorage, k) == (if k == key then val else Slot(o, a.knownStorage, k))
            && Slot(o, Revert(u, a2).knownStorage, k) == Slot(o, a.knownStorage, k)
  {
    if !a.dirtyStorage { assert Slot(o, a.knownStorage, k) == ZERO_HASH == OriginalSlot(o, k); }
  }

  lemma SetStateFits(o: Origin, a: Account, key: Hash, val: Hash)
    requires OriginOk(o) && AccountOk(o, a)
    ensures var (a2, u) := SetState(a, key, val); AccountOk(o, a2) && Fits(o, u, a2)
  {
    forall k: Hash
      ensures Slot(o, SetState(a, key, val).0.knownStorage, k) == if k == key then val else Slot(o, a.knownStorage, k)
    {
      SetStateSlots(o, a, key, val, k);
    }
  }

  lemma SetStateUndo(o: Origin, a: Account, key: Hash, val: Hash)
    requires OriginOk(o) && AccountOk(o, a)
    ensures Undoes(o, SetState(a, key, val).1, SetState(a, key, val).0, a)
  {
    var (a2, u) := SetState(a, key, val);
    SetStateFits(o, a, key, val);
    RevertOk(o, u, a2);
    forall k: Hash ensures Slot(o, Revert(u, a2).knownStorage, k) == Slot(o, a.knownStorage, k) {
      SetStateSlots(o, a, key, val, k);
    }
  }

  lemma SelfDestructUndo(o: Origin, a: Account)
    requires OriginOk(o) && AccountOk(o, a) && Status(a) != NOT_EXISTED
    ensures Undoes(o, SelfDestruct(a).1, SelfDestruct(a).0, a)
  {
  }

  /** Undo closures cannot tell apart accounts that differ only in caches. */
  lemma RevertSame(o: Origin, u: AccountUndo, a: Account, b: Account)
    requires OriginOk(o) && SameAccount(o, a, b) && Fits(o, u, a)
    ensures Fits(o, u, b) && SameAccount(o, Revert(u, a), Revert(u, b))
  {
    FitsSame(o, u, a, b);
    RevertOk(o, u, a);
    RevertOk(o, u, b);
    RevertLooksSame(o, u, a, b, Revert(u, a), Revert(u, b));
  }

  lemma RevertLooksSame(o: Origin, u: AccountUndo, a: Account, b: Account, a2: Account, b2: Account)
    requires SameAccount(o, a, b) && a2 == Revert(u, a) && b2 == Revert(u, b) && AccountOk(o, a2) && AccountOk(o, b2)
    ensures SameAccount(o, a2, b2)
  {
    RevertSlots(o, u, a, b);
    RevertFields(o, u, a, b);
  }

  lemma RevertFields(o: Origin, u: AccountUndo, a: Account, b: Account)
    requires SameAccount(o, a, b)
    ensures var a2, b2 := Revert(u, a), Revert(u, b);
            && a2.nonce == b2.nonce && a2.balance == b2.balance && a2.codeHash == b2.codeHash
            && a2.dirtyStorage == b2.dirtyStorage && a2.version == b2.version
            && CodeOfAccount(o, a2) == CodeOfAccount(o, b2)
  {
    RevertCode(u, a);
    RevertCode(u, b);
  }

  lemma RevertCode(u: AccountUndo, a: Account)
    ensures var a2 := Revert(u, a);
            if u.UndoCode? then a2.codeHash == u.codeHash && a2.knownCode == u.knownCode
            else a2.codeHash == a.codeHash && a2.knownCode == a.knownCode
  {
  }

  lemma FitsSame(o: Origin, u: AccountUndo, a: Account, b: Account)
    requires SameAccount(o, a, b) && Fits(o, u, a)
    ensures Fits(o, u, b)
  {
  }

  lemma RevertOk(o: Origin, u: AccountUndo, a: Account)
    requires OriginOk(o) && AccountOk(o, a) && Fits(o, u, a)
    ensures AccountOk(o, Revert(u, a))
  {
    assert IsCodeOf(o.keccak, [], EMPTY_CODE_HASH);
    if u.UndoFirstSlot? {
      forall k: Hash ensures Slot(o, Revert(u, a).knownStorage, k) == ZERO_HASH {
        assert k != u.key ==> Slot(o, a.knownStorage, k) == ZERO_HASH;
        assert OriginalSlot(o, k) == ZERO_HASH;
      }
    }
  }

  lemma RevertSlots(o: Origin, u: AccountUndo, a: Account, b: Account)
    requires SameAccount(o, a, b)
    ensures forall k: Hash :: Slot(o, Revert(u, a).knownStorage, k) == Slot(o, Revert(u, b).knownStorage, k)
  {
    forall k: Hash ensures Slot(o, Revert(u, a).knownStorage, k) == Slot(o, Revert(u, b).knownStorage, k) {
      assert Slot(o, a.knownStorage, k) == Slot(o, b.knownStorage, k);
    }
  }

  // ------------------------------------------------------- code counts of one account

  function Holds(hash: Hash, h: Hash): int {
    if hash == h then 1 else 0
  }

  /** The account's code diff is what it has now less what it had when it was loaded. */
  ghost predicate DiffOk(o: Origin, a: Account) {
    forall h: Hash :: h != EMPTY_CODE_HASH ==>
      CountOf(a.knownCodeDiff, h) == Holds(a.codeHash, h) - Holds(o.loaded.codeHash, h)
  }

  /** Replacing code by no code. */
  predicate RemovesCode(a: Account, hash: Hash) {
    a.codeHash != EMPTY_CODE_HASH && hash == EMPTY_CODE_HASH
  }

  lemma SetCodeDiff(o: Origin, a: Account, code: Code, hash: Hash)
    requires CanSetCode(a, hash) && DiffOk(o, a)
    ensures DiffOk(o, SetCode(a, code, hash).0)
  {
  }

  /**
   Undoing SetCode restores the code diff exactly when it did not remove code: the closure of a removal counts up the
   hash the account has by then, the empty one, and not the hash it lost.
   */
  lemma SetCodeUndoDiff(o: Origin, a: Account, code: Code, hash: Hash)
    requires CanSetCode(a, hash) && DiffOk(o, a)
    ensures DiffOk(o, Revert(SetCode(a, code, hash).1, SetCode(a, code, hash).0)) <==> !RemovesCode(a, hash)
  {
    var (a2, u) := SetCode(a, code, hash);
    if RemovesCode(a, hash) {
      assert CountOf(Revert(u, a2).knownCodeDiff, a.codeHash) == CountOf(a.knownCodeDiff, a.codeHash) - 1;
    }
  }

  /** An account with code whose removal was reverted ends the transaction with one reference too few. */
  lemma RevertedRemovalMiscounts(o: Origin, a: Account)
    requires a.codeHash != EMPTY_CODE_HASH && DiffOk(o, a)
    ensures var (a2, u) := SetCode(a, [], EMPTY_CODE_HASH);
            CountOf(GetFinalized(Revert(u, a2)).codeDiff, a.codeHash) < CountOf(GetFinalized(a).codeDiff, a.codeHash)
  {
  }

  lemma FinalizedDiff(o: Origin, a: Account, h: Hash)
    requires DiffOk(o, a) && h != EMPTY_CODE_HASH
    ensures var f := GetFinalized(a); CountOf(f.codeDiff, h) == Holds(f.acct.codeHash, h) - Holds(o.loaded.codeHash, h)
  {
  }
}
