/**
 The rows of the state store (statestore/): what the persisted rows mean, what persisting a layer log does to
 them, and what a garbage collection sweep does to them.
 */
module Database {
  import opened Types
  import opened Views

  datatype Database = Database(
    persisted: Option<StateKey>,
    children: map<StateKey, seq<Hash>>,
    layerLogs: map<StateKey, LayerLog>,
    accountValues: map<Address, AccountValue>,
    accountVersions: map<Address, nat>,
    storage: map<(Address, nat, Hash), Hash>,
    codes: map<Hash, (Code, int)>,
    gc: set<(Address, nat)>)

  const EMPTY_DATABASE := Database(None, map[], map[], map[], map[], map[], map[], {})

  // ------------------------------------------------------------ reading rows

  /** The value row if there is one, else an empty account at the recorded version, else version 0. */
  function AccountOf(db: Database, a: Address): AccountValue {
    AccountIn(db.accountValues, db.accountVersions, a)
  }

  function AccountIn(values: map<Address, AccountValue>, versions: map<Address, nat>, a: Address): AccountValue {
    if a in values then values[a] else EmptyAccount(if a in versions then versions[a] else 0)
  }

  function SlotOf(db: Database, a: Address, v: nat, k: Hash): Hash {
    if (a, v, k) in db.storage then db.storage[(a, v, k)] else ZERO_HASH
  }

  /** The persisted state logs the lookup error and answers with no code when the row is missing. */
  function CodeOf(db: Database, h: Hash): Code {
    if h in db.codes then db.codes[h].0 else []
  }

  function Base(db: Database): View {
    View((a: Address) => AccountOf(db, a), (a: Address, v: nat, k: Hash) => SlotOf(db, a, v, k),
         (h: Hash) => CodeOf(db, h))
  }

  // ------------------------------------------------------------------ writes

  datatype Write =
    | PutPersisted(key: StateKey)
    | PutChildren(key: StateKey, hashes: seq<Hash>)
    | DeleteChildren(key: StateKey)
    | PutLayerLog(log: LayerLog)
    | DeleteLayerLog(key: StateKey)
    | PutAccountValue(addr: Address, acct: AccountValue)
    | DeleteAccountValue(addr: Address)
    | PutAccountVersion(addr: Address, version: nat)
    | DeleteAccountVersion(addr: Address)
    | PutStorage(addr: Address, version: nat, slot: Hash, val: Hash)
    | DeleteStorage(addr: Address, version: nat, slot: Hash)
    | PutCode(hash: Hash, code: Code, count: int)
    | DeleteCode(hash: Hash)
    | PutGc(addr: Address, version: nat)
    | DeleteGc(addr: Address, version: nat)

  function Apply(db: Database, w: Write): Database {
    match w
    case PutPersisted(key) => db.(persisted := Some(key))
    case PutChildren(key, hashes) => db.(children := db.children[key := hashes])
    case DeleteChildren(key) => db.(children := db.children - {key})
    case PutLayerLog(log) => db.(layerLogs := db.layerLogs[StateKey(log.blockNumber, log.rootHash) := log])
    case DeleteLayerLog(key) => db.(layerLogs := db.layerLogs - {key})
    case PutAccountValue(a, acct) => db.(accountValues := db.accountValues[a := acct])
    case DeleteAccountValue(a) => db.(accountValues := db.accountValues - {a})
    case PutAccountVersion(a, v) => db.(accountVersions := db.accountVersions[a := v])
    case DeleteAccountVersion(a) => db.(accountVersions := db.accountVersions - {a})
    case PutStorage(a, v, k, val) => db.(storage := db.storage[(a, v, k) := val])
    case DeleteStorage(a, v, k) => db.(storage := db.storage - {(a, v, k)})
    case PutCode(h, code, count) => db.(codes := db.codes[h := (code, count)])
    case DeleteCode(h) => db.(codes := db.codes - {h})
    case PutGc(a, v) => db.(gc := db.gc + {(a, v)})
    case DeleteGc(a, v) => db.(gc := db.gc - {(a, v)})
  }

  /** A batch takes effect only when it is committed, write by write. */
  function ApplyAll(db: Database, batch: seq<Write>): Database {
    if batch == [] then db else Apply(ApplyAll(db, batch[..|batch| - 1]), batch[|batch| - 1])
  }

  lemma ApplyAllAppend(db: Database, batch: seq<Write>, w: Write)
    ensures ApplyAll(db, batch + [w]) == Apply(ApplyAll(db, batch), w)
  {
    assert (batch + [w])[..|batch|] == batch;
  }

  // ----------------------------------------------------- persisting a layer log

  /** The version PersistLayerLog finds for an account among the committed rows (0 when there is no row). */
  function CommittedVersion(db: Database, a: Address): nat {
    if a in db.accountVersions then db.accountVersions[a]
    else if a in db.accountValues then db.accountValues[a].version
    else 0
  }

  function ValuesAfter(values: map<Address, AccountValue>,
                       accts: map<Address, AccountValue>): map<Address, AccountValue> {
    map a | a in values.Keys + accts.Keys &&
            (if a in accts && accts[a].version != 0 then accts[a].version % VERSIONS != NOT_EXISTED else a in values)
      :: if a in accts && accts[a].version != 0 then accts[a] else values[a]
  }

  function VersionsAfter(versions: map<Address, nat>, accts: map<Address, AccountValue>): map<Address, nat> {
    map a | a in versions.Keys + accts.Keys &&
            (if a in accts && accts[a].version != 0 then accts[a].version % VERSIONS == NOT_EXISTED else a in versions)
      :: if a in accts && accts[a].version != 0 then accts[a].version else versions[a]
  }

  /** The versions an account leaves behind when it moves to a new one. */
  function Retired(db: Database, accts: map<Address, AccountValue>): set<(Address, nat)> {
    set a, v | a in accts && 0 < CommittedVersion(db, a) <= v < accts[a].version :: (a, v)
  }

  function StoredCount(db: Database, h: Hash): int {
    if h in db.codes then db.codes[h].1 else 0
  }

  function CodeFor(db: Database, preimage: map<Hash, Code>, h: Hash): Code {
    if h in db.codes then db.codes[h].0 else if h in preimage then preimage[h] else []
  }

  function CodesAfter(codes: map<Hash, (Code, int)>, db: Database, counts: map<Hash, int>, preimage: map<Hash, Code>)
    : map<Hash, (Code, int)>
  {
    map h | h in codes.Keys + counts.Keys &&
            (if CountOf(counts, h) != 0 then StoredCount(db, h) + counts[h] > 0 else h in codes)
      :: if CountOf(counts, h) != 0
         then (CodeFor(db, preimage, h), StoredCount(db, h) + counts[h])
         else codes[h]
  }

  /** The two ways PersistLayerLog can refuse a code count. */
  predicate CodeRefused(db: Database, h: Hash, diff: int, preimage: map<Hash, Code>) {
    diff != 0 && if h in db.codes then db.codes[h].1 + diff < 0 else diff < 0 || h !in preimage
  }

  function StorageAfter(storage: map<(Address, nat, Hash), Hash>, updates: map<(Address, nat), map<Hash, Hash>>)
    : map<(Address, nat, Hash), Hash>
  {
    map row | row in storage.Keys + UpdatedRows(updates)
      :: if row in UpdatedRows(updates) then updates[(row.0, row.1)][row.2] else storage[row]
  }

  function UpdatedRows(updates: map<(Address, nat), map<Hash, Hash>>): set<(Address, nat, Hash)> {
    set av, k | av in updates && k in updates[av] :: (av.0, av.1, k)
  }

  /**
   What the writes of PersistLayerLog do to the rows they are finally committed onto. The rows it reads are those
   of db, the committed state when it runs.
   */
  function PersistOnto(rows: Database, db: Database, log: LayerLog): Database {
    rows.(persisted := Some(StateKey(log.blockNumber, log.rootHash)),
          accountValues := ValuesAfter(rows.accountValues, log.updatedAccounts),
          accountVersions := VersionsAfter(rows.accountVersions, log.updatedAccounts),
          gc := rows.gc + Retired(db, log.updatedAccounts),
          codes := CodesAfter(rows.codes, db, log.updatedCodeCount, log.codePreimage),
          storage := StorageAfter(rows.storage, log.updatedStorage))
  }

  // -------------------------------------------------------------- invariants

  ghost predicate AccountRowsOk(db: Database) {
    && (forall a: Address :: a in db.accountValues ==> db.accountValues[a].version % VERSIONS == UPDATING)
    && (forall a: Address :: a in db.accountVersions ==>
          db.accountVersions[a] > 0 && db.accountVersions[a] % VERSIONS == NOT_EXISTED && a !in db.accountValues)
  }

  /** Code reference counts are conserved: a code row exists, with the right count, exactly for the code in use. */
  ghost predicate CodeCountsOk(db: Database) {
    && EMPTY_CODE_HASH !in db.codes
    && (forall h: Hash :: h != EMPTY_CODE_HASH ==>
          (h in db.codes <==> Holders(Base(db), h) != {}) && StoredCount(db, h) == |Holders(Base(db), h)|)
  }

  /** Everything queued for collection lies below the account's current version. */
  ghost predicate GcOk(db: Database) {
    forall a: Address, v: nat :: (a, v) in db.gc ==> v < AccountOf(db, a).version
  }

  ghost predicate DatabaseOk(keccak: Hasher, db: Database) {
    && AccountRowsOk(db)
    && CodeCountsOk(db)
    && GcOk(db)
    && ViewOk(keccak, Base(db))
  }

  /** The rows that describe the persisted state itself, as opposed to the layers above it. */
  ghost predicate SameStateRows(rows: Database, db: Database) {
    && rows.accountValues == db.accountValues
    && rows.accountVersions == db.accountVersions
    && rows.storage == db.storage
    && rows.codes == db.codes
    && rows.gc == db.gc
  }

  lemma AccountInAfter(values: map<Address, AccountValue>, versions: map<Address, nat>,
                       accts: map<Address, AccountValue>, a: Address)
    requires a in accts ==> CanonicalAccount(accts[a]) && AccountIn(values, versions, a).version <= accts[a].version
    requires a in values ==> values[a].version % VERSIONS == UPDATING
    ensures AccountIn(ValuesAfter(values, accts), VersionsAfter(versions, accts), a) ==
            if a in accts then accts[a] else AccountIn(values, versions, a)
  {
  }

  /** The persisted rows answer account lookups as the layer did. */
  lemma PersistAccounts(keccak: Hasher, rows: Database, db: Database, log: LayerLog, a: Address)
    requires SameStateRows(rows, db) && DatabaseOk(keccak, db) && LogFits(keccak, log, Base(db))
    ensures AccountOf(PersistOnto(rows, db, log), a) == Over(log, Base(db)).acct(a)
  {
    if a in log.updatedAccounts { assert AccountFits(Base(db), a, log.updatedAccounts[a]); }
    AccountInAfter(rows.accountValues, rows.accountVersions, log.updatedAccounts, a);
  }

  lemma UpdatedRow(updates: map<(Address, nat), map<Hash, Hash>>, a: Address, v: nat, k: Hash)
    ensures (a, v, k) in UpdatedRows(updates) <==> (a, v) in updates && k in updates[(a, v)]
  {
    if (a, v) in updates && k in updates[(a, v)] {
      assert ((a, v).0, (a, v).1, k) in UpdatedRows(updates);
    }
    if (a, v, k) in UpdatedRows(updates) {
      var av, j :| av in updates && j in updates[av] && (av.0, av.1, j) == (a, v, k);
      assert av == (a, v);
    }
  }

  lemma PersistSlots(rows: Database, db: Database, log: LayerLog, a: Address, v: nat, k: Hash)
    requires SameStateRows(rows, db)
    ensures SlotOf(PersistOnto(rows, db, log), a, v, k) == Over(log, Base(db)).slot(a, v, k)
  {
    var row := (a, v, k);
    UpdatedRow(log.updatedStorage, a, v, k);
    assert Over(log, Base(db)).slot(a, v, k) == SlotOver(log, a, v, k, SlotOf(db, a, v, k));
    assert row in PersistOnto(rows, db, log).storage <==> row in db.storage || row in UpdatedRows(log.updatedStorage);
  }

  /** A fitting log is never refused. */
  lemma PersistNeverRefuses(keccak: Hasher, db: Database, log: LayerLog, h: Hash)
    requires DatabaseOk(keccak, db) && LogFits(keccak, log, Base(db))
    ensures !CodeRefused(db, h, CountOf(log.updatedCodeCount, h), log.codePreimage)
  {
    var w := Over(log, Base(db));
    if h != EMPTY_CODE_HASH && CountOf(log.updatedCodeCount, h) > 0 && h !in db.codes {
      assert Holders(w, h) != {};
      var a :| a in Holders(w, h);
      assert a !in Holders(Base(db), h);
      assert log.updatedAccounts[a].codeHash == h;
    }
  }

  lemma CodeRowAfter(codes: map<Hash, (Code, int)>, db: Database, counts: map<Hash, int>, preimage: map<Hash, Code>,
                     h: Hash)
    requires codes == db.codes && StoredCount(db, h) + CountOf(counts, h) >= 0
    requires h in db.codes <==> StoredCount(db, h) > 0
    requires !CodeRefused(db, h, CountOf(counts, h), preimage)
    ensures var after := CodesAfter(codes, db, counts, preimage);
            && (h in after <==> StoredCount(db, h) + CountOf(counts, h) > 0)
            && (h in after ==> after[h].1 == StoredCount(db, h) + CountOf(counts, h))
            && (h in after ==> after[h].0 == if h in db.codes then db.codes[h].0 else if h in preimage then preimage[h]
                                             else [])
            && (h in after && h !in db.codes ==> h in preimage)
  {
  }

  lemma EmptyHasNoRow(codes: map<Hash, (Code, int)>, db: Database, counts: map<Hash, int>, preimage: map<Hash, Code>)
    requires codes == db.codes && EMPTY_CODE_HASH !in codes && EMPTY_CODE_HASH !in counts
    ensures EMPTY_CODE_HASH !in CodesAfter(codes, db, counts, preimage)
  {
  }

  /** After persisting, code rows and counts are those of the layer's accounts. */
  lemma PersistCodes(keccak: Hasher, rows: Database, db: Database, log: LayerLog, h: Hash)
    requires SameStateRows(rows, db) && DatabaseOk(keccak, db) && LogFits(keccak, log, Base(db))
    ensures var w := Over(log, Base(db));
            var after := PersistOnto(rows, db, log);
            && EMPTY_CODE_HASH !in after.codes
            && (h != EMPTY_CODE_HASH ==>
                  && (h in after.codes <==> Holders(w, h) != {})
                  && StoredCount(after, h) == |Holders(w, h)|
                  && (h in after.codes ==> IsCodeOf(keccak, CodeOf(after, h), h)))
  {
    EmptyHasNoRow(rows.codes, db, log.updatedCodeCount, log.codePreimage);
    if h != EMPTY_CODE_HASH {
      CountsAdd(keccak, db, log, h);
      PersistNeverRefuses(keccak, db, log, h);
      CodeRowAfter(rows.codes, db, log.updatedCodeCount, log.codePreimage, h);
    }
  }

  lemma CountsAdd(keccak: Hasher, db: Database, log: LayerLog, h: Hash)
    requires DatabaseOk(keccak, db) && LogFits(keccak, log, Base(db)) && h != EMPTY_CODE_HASH
    ensures var w := Over(log, Base(db));
            && StoredCount(db, h) + CountOf(log.updatedCodeCount, h) == |Holders(w, h)|
            && (Holders(w, h) == {} <==> |Holders(w, h)| == 0)
            && (h in db.codes <==> StoredCount(db, h) > 0)
            && (h in db.codes ==> IsCodeOf(keccak, db.codes[h].0, h))
            && (h in log.codePreimage ==> IsCodeOf(keccak, log.codePreimage[h], h))
  {
    assert CodeCountsOk(db) && CountsFit(log, Base(db));
    if h in db.codes { assert Holders(Base(db), h) != {} && IsCodeOf(keccak, Base(db).code(h), h); }
  }

  /** The database shows exactly what the layer showed once its log is persisted. */
  lemma PersistShowsLayer(keccak: Hasher, rows: Database, db: Database, log: LayerLog)
    requires Hashes(keccak)
    requires SameStateRows(rows, db) && DatabaseOk(keccak, db) && LogFits(keccak, log, Base(db))
    ensures var w, after := Over(log, Base(db)), Base(PersistOnto(rows, db, log));
            && (forall a: Address :: w.acct(a) == after.acct(a))
            && (forall a: Address, v: nat, k: Hash :: w.slot(a, v, k) == after.slot(a, v, k))
            && (forall h: Hash :: h != EMPTY_CODE_HASH && Holders(w, h) != {} ==> w.code(h) == after.code(h))
  {
    var w, after := Over(log, Base(db)), Base(PersistOnto(rows, db, log));
    forall a: Address ensures w.acct(a) == after.acct(a) { PersistAccounts(keccak, rows, db, log, a); }
    forall a: Address, v: nat, k: Hash ensures w.slot(a, v, k) == after.slot(a, v, k) {
      PersistSlots(rows, db, log, a, v, k);
    }
    OverOk(keccak, log, Base(db));
    forall h: Hash | h != EMPTY_CODE_HASH && Holders(w, h) != {} ensures w.code(h) == after.code(h) {
      PersistCodes(keccak, rows, db, log, h);
      assert IsCodeOf(keccak, w.code(h), h) && IsCodeOf(keccak, after.code(h), h);
    }
  }

  lemma PersistKeepsGc(keccak: Hasher, rows: Database, db: Database, log: LayerLog)
    requires SameStateRows(rows, db) && DatabaseOk(keccak, db) && LogFits(keccak, log, Base(db))
    ensures GcOk(PersistOnto(rows, db, log))
  {
    var after := PersistOnto(rows, db, log);
    forall a: Address, v: nat | (a, v) in after.gc ensures v < AccountOf(after, a).version {
      PersistAccounts(keccak, rows, db, log, a);
      VersionsGrow(keccak, log, Base(db), a);
      if (a, v) in db.gc {
        assert v < AccountOf(db, a).version;
      } else {
        assert (a, v) in Retired(db, log.updatedAccounts);
      }
    }
  }

  lemma RowsAfter(values: map<Address, AccountValue>, versions: map<Address, nat>, accts: map<Address, AccountValue>,
                  a: Address)
    requires a in values ==> values[a].version % VERSIONS == UPDATING
    requires a in versions ==> versions[a] > 0 && versions[a] % VERSIONS == NOT_EXISTED && a !in values
    requires a in accts ==> CanonicalAccount(accts[a])
    ensures var values', versions' := ValuesAfter(values, accts), VersionsAfter(versions, accts);
            && (a in values' ==> values'[a].version % VERSIONS == UPDATING)
            && (a in versions' ==> versions'[a] > 0 && versions'[a] % VERSIONS == NOT_EXISTED && a !in values')
  {
  }

  lemma PersistKeepsAccountRows(keccak: Hasher, rows: Database, db: Database, log: LayerLog)
    requires SameStateRows(rows, db) && DatabaseOk(keccak, db) && LogFits(keccak, log, Base(db))
    ensures AccountRowsOk(PersistOnto(rows, db, log))
  {
    var values, versions := ValuesAfter(rows.accountValues, log.updatedAccounts),
                            VersionsAfter(rows.accountVersions, log.updatedAccounts);
    forall a: Address
      ensures a in values ==> values[a].version % VERSIONS == UPDATING
      ensures a in versions ==> versions[a] > 0 && versions[a] % VERSIONS == NOT_EXISTED && a !in values
    {
      if a in log.updatedAccounts { assert AccountFits(Base(db), a, log.updatedAccounts[a]); }
      RowsAfter(rows.accountValues, rows.accountVersions, log.updatedAccounts, a);
    }
  }

  /** Persisting a fitting log keeps the database well formed, code counts included. */
  lemma PersistKeepsDatabase(keccak: Hasher, rows: Database, db: Database, log: LayerLog)
    requires Hashes(keccak)
    requires SameStateRows(rows, db) && DatabaseOk(keccak, db) && LogFits(keccak, log, Base(db))
    ensures DatabaseOk(keccak, PersistOnto(rows, db, log))
    ensures LiveEq(Over(log, Base(db)), Base(PersistOnto(rows, db, log)))
  {
    var w, after := Over(log, Base(db)), PersistOnto(rows, db, log);
    PersistShowsLayer(keccak, rows, db, log);
    OverOk(keccak, log, Base(db));
    ViewOkCopy(keccak, w, Base(after));
    PersistKeepsGc(keccak, rows, db, log);
    PersistKeepsAccountRows(keccak, rows, db, log);
    PersistCodes(keccak, rows, db, log, EMPTY_CODE_HASH);
    forall h: Hash | h != EMPTY_CODE_HASH
      ensures (h in after.codes <==> Holders(Base(after), h) != {})
      ensures StoredCount(after, h) == |Holders(Base(after), h)|
    {
      PersistCodes(keccak, rows, db, log, h);
      SameHolders(w, Base(after), h);
    }
  }

  // ------------------------------------------------------ garbage collection

  /** One committed sweep of a queued (address, version): some of its slot rows and the queue entry are deleted. */
  function Sweep(db: Database, a: Address, v: nat, slots: set<Hash>): Database {
    db.(storage := db.storage - (set k | k in slots :: (a, v, k)), gc := db.gc - {(a, v)})
  }

  /** What the query of a sweep finds: the slots stored under the version. */
  function SlotsAt(db: Database, a: Address, v: nat): set<Hash> {
    set row | row in db.storage && row.0 == a && row.1 == v :: row.2
  }

  lemma InSlotsAt(db: Database, a: Address, v: nat, k: Hash)
    ensures k in SlotsAt(db, a, v) <==> (a, v, k) in db.storage
  {
    if (a, v, k) in db.storage { assert (a, v, k).2 in SlotsAt(db, a, v); }
  }

  lemma SweptSlot(db: Database, a: Address, v: nat, slots: set<Hash>, b: Address, x: nat, k: Hash)
    ensures var swept := SlotOf(Sweep(db, a, v, slots), b, x, k);
            swept == if b == a && x == v && k in slots then ZERO_HASH else SlotOf(db, b, x, k)
  {
    assert (b, x, k) in (set j | j in slots :: (a, v, j)) <==> b == a && x == v && k in slots;
  }

  lemma SweepShows(db: Database, a: Address, v: nat, slots: set<Hash>)
    requires v < AccountOf(db, a).version
    ensures var u, w := Base(db), Base(Sweep(db, a, v, slots));
            && LiveEq(u, w)
            && (forall h: Hash :: Holders(u, h) == Holders(w, h))
            && (forall h: Hash :: u.code(h) == w.code(h))
            && (forall b: Address, x: nat, k: Hash ::
                  w.slot(b, x, k) == ZERO_HASH || w.slot(b, x, k) == u.slot(b, x, k))
  {
    var u, w := Base(db), Base(Sweep(db, a, v, slots));
    forall b: Address, x: nat, k: Hash
      ensures w.slot(b, x, k) == if b == a && x == v && k in slots then ZERO_HASH else u.slot(b, x, k)
    {
      SweptSlot(db, a, v, slots, b, x, k);
    }
    forall h: Hash ensures Holders(u, h) == Holders(w, h) { SameHolders(u, w, h); }
  }

  lemma SweptView(keccak: Hasher, u: View, w: View)
    requires ViewOk(keccak, u) && LiveEq(u, w) && (forall h: Hash :: Holders(u, h) == Holders(w, h))
    requires forall b: Address, x: nat, k: Hash :: w.slot(b, x, k) == ZERO_HASH || w.slot(b, x, k) == u.slot(b, x, k)
    ensures ViewOk(keccak, w)
  {
    assert SlotsFresh(w) && CleanStorage(w) && CodeFound(keccak, w);
  }

  /** A sweep never touches what any layer on top of the persisted state can still read. */
  lemma SweepIsSafe(keccak: Hasher, db: Database, a: Address, v: nat, slots: set<Hash>)
    requires DatabaseOk(keccak, db) && (a, v) in db.gc
    ensures DatabaseOk(keccak, Sweep(db, a, v, slots))
    ensures LiveEq(Base(db), Base(Sweep(db, a, v, slots)))
  {
    var after := Sweep(db, a, v, slots);
    SweepShows(db, a, v, slots);
    SweptView(keccak, Base(db), Base(after));
    assert CodeCountsOk(after) && GcOk(after) && AccountRowsOk(after);
  }

  /** No fitting log writes to a queued version, whichever layer it is built on. */
  lemma NoWriteToQueued(keccak: Hasher, db: Database, u: View, log: LayerLog, a: Address, v: nat)
    requires DatabaseOk(keccak, db) && (a, v) in db.gc
    requires AccountOf(db, a).version <= u.acct(a).version
    requires LogFits(keccak, log, u)
    ensures (a, v) !in log.updatedStorage
  {
    assert v < AccountOf(db, a).version;
  }
}
