/** The state store and its write transactions (statestore/statestore_impl.go, txn.go, routine.go). */
module StateStore {
  import opened Types
  import opened Views
  import opened Database

  // ------------------------------------------- one more account, count or slot

  function WithAccounts(log: LayerLog, accts: map<Address, AccountValue>): LayerLog {
    log.(updatedAccounts := accts, updatedCodeCount := map[], updatedStorage := map[])
  }

  function WithCounts(log: LayerLog, counts: map<Hash, int>): LayerLog {
    log.(updatedCodeCount := counts, updatedStorage := map[])
  }

  lemma NoAccounts(values: map<Address, AccountValue>, versions: map<Address, nat>)
    ensures ValuesAfter(values, map[]) == values && VersionsAfter(versions, map[]) == versions
  {
  }

  lemma NoCounts(codes: map<Hash, (Code, int)>, db: Database, preimage: map<Hash, Code>)
    ensures CodesAfter(codes, db, map[], preimage) == codes
  {
  }

  lemma NoUpdates(storage: map<(Address, nat, Hash), Hash>)
    ensures StorageAfter(storage, map[]) == storage
  {
  }

  lemma PersistNothing(rows: Database, db: Database, log: LayerLog)
    ensures PersistOnto(rows, db, WithAccounts(log, map[])) ==
            Apply(rows, PutPersisted(StateKey(log.blockNumber, log.rootHash)))
  {
    NoAccounts(rows.accountValues, rows.accountVersions);
    NoCounts(rows.codes, db, log.codePreimage);
    NoUpdates(rows.storage);
    assert Retired(db, map[]) == {};
  }

  function ValueRow(values: map<Address, AccountValue>, a: Address, acct: AccountValue): map<Address, AccountValue> {
    if acct.version == 0 then values
    else if acct.version % VERSIONS == NOT_EXISTED then values - {a}
    else values[a := acct]
  }

  function VersionRow(versions: map<Address, nat>, a: Address, version: nat): map<Address, nat> {
    if version == 0 then versions
    else if version % VERSIONS == NOT_EXISTED then versions[a := version]
    else versions - {a}
  }

  /** The effect on the account rows of one more account of a log. */
  function AccountWritten(rows: Database, db: Database, a: Address, acct: AccountValue): Database {
    rows.(accountValues := ValueRow(rows.accountValues, a, acct),
          accountVersions := VersionRow(rows.accountVersions, a, acct.version),
          gc := rows.gc + Queued(db, a, acct.version))
  }

  lemma ValuesStep(values: map<Address, AccountValue>, accts: map<Address, AccountValue>, a: Address,
                   acct: AccountValue)
    requires a !in accts
    ensures ValuesAfter(values, accts[a := acct]) == ValueRow(ValuesAfter(values, accts), a, acct)
  {
  }

  lemma VersionsStep(versions: map<Address, nat>, accts: map<Address, AccountValue>, a: Address, acct: AccountValue)
    requires a !in accts
    ensures VersionsAfter(versions, accts[a := acct]) == VersionRow(VersionsAfter(versions, accts), a, acct.version)
  {
  }

  function Queued(db: Database, a: Address, below: nat): set<(Address, nat)> {
    set v | CommittedVersion(db, a) <= v < below && 0 < CommittedVersion(db, a) :: (a, v)
  }

  lemma RetiredStep(db: Database, accts: map<Address, AccountValue>, a: Address, acct: AccountValue)
    requires a !in accts
    ensures Retired(db, accts[a := acct]) == Retired(db, accts) + Queued(db, a, acct.version)
  {
    var more := accts[a := acct];
    forall b: Address, v: nat
      ensures (b, v) in Retired(db, more) <==> (b, v) in Retired(db, accts) + Queued(db, a, acct.version)
    {
    }
  }

  lemma PersistAccountStep(rows: Database, db: Database, log: LayerLog, accts: map<Address, AccountValue>, a: Address,
                           acct: AccountValue)
    requires a !in accts
    ensures PersistOnto(rows, db, WithAccounts(log, accts[a := acct])) ==
            AccountWritten(PersistOnto(rows, db, WithAccounts(log, accts)), db, a, acct)
  {
    var before, after := PersistOnto(rows, db, WithAccounts(log, accts)),
                         PersistOnto(rows, db, WithAccounts(log, accts[a := acct]));
    AccountRowsStep(rows, db, log, accts, a, acct, before, after);
    PersistAccountFrame(rows, db, log, accts, accts[a := acct]);
  }

  lemma AccountRowsStep(rows: Database, db: Database, log: LayerLog, accts: map<Address, AccountValue>, a: Address,
                        acct: AccountValue, before: Database, after: Database)
    requires a !in accts
    requires before == PersistOnto(rows, db, WithAccounts(log, accts))
    requires after == PersistOnto(rows, db, WithAccounts(log, accts[a := acct]))
    ensures after.accountValues == AccountWritten(before, db, a, acct).accountValues
    ensures after.accountVersions == AccountWritten(before, db, a, acct).accountVersions
    ensures after.gc == AccountWritten(before, db, a, acct).gc
  {
    ValuesStep(rows.accountValues, accts, a, acct);
    VersionsStep(rows.accountVersions, accts, a, acct);
    RetiredStep(db, accts, a, acct);
    assert rows.gc + (Retired(db, accts) + Queued(db, a, acct.version)) == before.gc + Queued(db, a, acct.version);
  }

  /** Which accounts are written changes nothing else. */
  lemma PersistAccountFrame(rows: Database, db: Database, log: LayerLog, less: map<Address, AccountValue>,
                            more: map<Address, AccountValue>)
    ensures var before, after := PersistOnto(rows, db, WithAccounts(log, less)),
                                 PersistOnto(rows, db, WithAccounts(log, more));
            after == before.(accountValues := after.accountValues, accountVersions := after.accountVersions,
                             gc := after.gc)
  {
  }

  function CodeWritten(rows: Database, db: Database, preimage: map<Hash, Code>, h: Hash, diff: int): Database {
    if diff == 0 then rows
    else
      var count := StoredCount(db, h) + diff;
      rows.(codes := if count > 0 then rows.codes[h := (CodeFor(db, preimage, h), count)] else rows.codes - {h})
  }

  lemma CodesStepOther(codes: map<Hash, (Code, int)>, db: Database, counts: map<Hash, int>, preimage: map<Hash, Code>,
                       h: Hash, diff: int, g: Hash)
    requires g != h
    ensures var before, after := CodesAfter(codes, db, counts, preimage),
                                 CodesAfter(codes, db, counts[h := diff], preimage);
            (g in after <==> g in before) && (g in after ==> after[g] == before[g])
  {
    assert CountOf(counts[h := diff], g) == CountOf(counts, g);
  }

  lemma CodesStepHere(codes: map<Hash, (Code, int)>, db: Database, counts: map<Hash, int>, preimage: map<Hash, Code>,
                      h: Hash, diff: int)
    requires h !in counts
    ensures var before, after := CodesAfter(codes, db, counts, preimage),
                                 CodesAfter(codes, db, counts[h := diff], preimage);
            && (h in after <==> if diff == 0 then h in before else StoredCount(db, h) + diff > 0)
            && (h in after ==> after[h] == if diff == 0 then before[h]
                                           else (CodeFor(db, preimage, h), StoredCount(db, h) + diff))
  {
  }

  lemma CodesStep(codes: map<Hash, (Code, int)>, db: Database, counts: map<Hash, int>, preimage: map<Hash, Code>,
                  h: Hash, diff: int)
    requires h !in counts
    ensures var before := CodesAfter(codes, db, counts, preimage);
            CodesAfter(codes, db, counts[h := diff], preimage) ==
              if diff == 0 then before
              else if StoredCount(db, h) + diff > 0
              then before[h := (CodeFor(db, preimage, h), StoredCount(db, h) + diff)]
              else before - {h}
  {
    CodesStepHere(codes, db, counts, preimage, h, diff);
    forall g: Hash | g != h
      ensures var before, after := CodesAfter(codes, db, counts, preimage),
                                   CodesAfter(codes, db, counts[h := diff], preimage);
              (g in after <==> g in before) && (g in after ==> after[g] == before[g])
    {
      CodesStepOther(codes, db, counts, preimage, h, diff, g);
    }
  }

  lemma PersistCodeStep(rows: Database, db: Database, log: LayerLog, counts: map<Hash, int>, h: Hash, diff: int)
    requires h !in counts
    ensures PersistOnto(rows, db, WithCounts(log, counts[h := diff])) ==
            CodeWritten(PersistOnto(rows, db, WithCounts(log, counts)), db, log.codePreimage, h, diff)
  {
    CodesStep(rows.codes, db, counts, log.codePreimage, h, diff);
  }

  lemma UpdatedRowsStep(less: map<(Address, nat), map<Hash, Hash>>, more: map<(Address, nat), map<Hash, Hash>>,
                        a: Address, v: nat, slots: map<Hash, Hash>, k: Hash, val: Hash)
    requires (a, v) in less && less[(a, v)] == slots && more == less[(a, v) := slots[k := val]]
    ensures UpdatedRows(more) == UpdatedRows(less) + {(a, v, k)}
  {
    forall row ensures row in UpdatedRows(more) <==> row in UpdatedRows(less) + {(a, v, k)} {
      if row in UpdatedRows(more) + UpdatedRows(less) + {(a, v, k)} {
        var (b, x, j) := row;
        UpdatedRow(less, b, x, j);
        UpdatedRow(more, b, x, j);
      }
    }
  }

  lemma StorageStep(storage: map<(Address, nat, Hash), Hash>, less: map<(Address, nat), map<Hash, Hash>>,
                    more: map<(Address, nat), map<Hash, Hash>>, a: Address, v: nat, slots: map<Hash, Hash>, k: Hash,
                    val: Hash)
    requires (a, v) in less && less[(a, v)] == slots && more == less[(a, v) := slots[k := val]]
    ensures StorageAfter(storage, more) == StorageAfter(storage, less)[(a, v, k) := val]
  {
    UpdatedRowsStep(less, more, a, v, slots, k, val);
  }

  lemma PersistStorageStep(rows: Database, db: Database, log: LayerLog, done: map<(Address, nat), map<Hash, Hash>>,
                           a: Address, v: nat, slots: map<Hash, Hash>, k: Hash, val: Hash)
    requires (a, v) in done ==> done[(a, v)] == slots
    ensures var before := PersistOnto(rows, db, log.(updatedStorage := done[(a, v) := slots]));
            var after := PersistOnto(rows, db, log.(updatedStorage := done[(a, v) := slots[k := val]]));
            after == Apply(before, PutStorage(a, v, k, val))
  {
    var less := done[(a, v) := slots];
    assert less[(a, v) := slots[k := val]] == done[(a, v) := slots[k := val]];
    StorageStep(rows.storage, less, done[(a, v) := slots[k := val]], a, v, slots, k, val);
  }

  lemma PersistNoStorage(rows: Database, db: Database, log: LayerLog, done: map<(Address, nat), map<Hash, Hash>>,
                         a: Address, v: nat)
    requires (a, v) !in done
    ensures PersistOnto(rows, db, log.(updatedStorage := done[(a, v) := map[]])) ==
            PersistOnto(rows, db, log.(updatedStorage := done))
  {
    var more := done[(a, v) := map[]];
    forall b: Address, x: nat, j: Hash ensures (b, x, j) in UpdatedRows(more) <==> (b, x, j) in UpdatedRows(done) {
      UpdatedRow(done, b, x, j);
      UpdatedRow(more, b, x, j);
    }
    assert UpdatedRows(more) == UpdatedRows(done) by {
      forall row ensures row in UpdatedRows(more) <==> row in UpdatedRows(done) { var (b, x, j) := row; }
    }
    assert StorageAfter(rows.storage, more) == StorageAfter(rows.storage, done);
  }

  // -------------------------------------------------------------------- sweeps

  /** Of the rows, exactly the slots of the versions that are no longer queued are gone. */
  ghost predicate Collected(before: Database, after: Database) {
    && after == before.(storage := after.storage, gc := after.gc)
    && after.storage.Keys == (set row | row in before.storage && (row.0, row.1) !in before.gc - after.gc)
    && (forall row :: row in after.storage ==> after.storage[row] == before.storage[row])
  }

  lemma SweptRow(db: Database, a: Address, v: nat, row: (Address, nat, Hash))
    ensures row in Sweep(db, a, v, SlotsAt(db, a, v)).storage <==> row in db.storage && (row.0, row.1) != (a, v)
  {
    InSlotsAt(db, a, v, row.2);
    assert row in (set k | k in SlotsAt(db, a, v) :: (a, v, k)) <==>
           row.0 == a && row.1 == v && row.2 in SlotsAt(db, a, v);
  }

  lemma CollectedMore(first: Database, before: Database, entry: (Address, nat), after: Database)
    requires Collected(first, before) && entry in before.gc && before.gc <= first.gc
    requires after == Sweep(before, entry.0, entry.1, SlotsAt(before, entry.0, entry.1))
    ensures Collected(first, after) && after.gc == before.gc - {entry}
  {
    forall row ensures row in after.storage <==> row in before.storage && (row.0, row.1) != entry {
      SweptRow(before, entry.0, entry.1, row);
    }
  }

  // ------------------------------------------------------------------- store

  class StateStore {
    var db: Database

    method GetPersistedHeight() returns (res: Option<StateKey>)
      ensures res == db.persisted
    {
      res := db.persisted;
    }

    method GetChildren(key: StateKey) returns (res: Option<seq<Hash>>)
      ensures res == if key in db.children then Some(db.children[key]) else None
    {
      res := if key in db.children then Some(db.children[key]) else None;
    }

    method GetLayerLog(key: StateKey) returns (res: Option<LayerLog>)
      ensures res == if key in db.layerLogs then Some(db.layerLogs[key]) else None
    {
      res := if key in db.layerLogs then Some(db.layerLogs[key]) else None;
    }

    method GetAccountValue(addr: Address) returns (res: AccountValue)
      ensures res == Base(db).acct(addr)
    {
      if addr !in db.accountValues {
        var version := 0;
        if addr in db.accountVersions {
          version := db.accountVersions[addr];
        }
        res := AccountValue(0, 0, EMPTY_CODE_HASH, false, version);
      } else {
        res := db.accountValues[addr];
      }
    }

    method GetStorageByVersion(addr: Address, version: nat, key: Hash) returns (res: Hash)
      ensures res == Base(db).slot(addr, version, key)
    {
      if (addr, version, key) !in db.storage {
        res := ZERO_HASH;
      } else {
        res := db.storage[(addr, version, key)];
      }
    }

    method GetCodeByHash(codeHash: Hash) returns (res: Option<Code>)
      ensures res == if codeHash in db.codes then Some(Base(db).code(codeHash)) else None
    {
      res := if codeHash in db.codes then Some(db.codes[codeHash].0) else None;
    }

    /** Clears the slots of one queued version in a batch of its own. */
    method SweepOne(addr: Address, version: nat)
      modifies this
      ensures db == Sweep(old(db), addr, version, SlotsAt(old(db), addr, version))
    {
      var txn := new Transaction(this);
      var found := set row | row in db.storage && row.0 == addr && row.1 == version :: row.2;
      var todo := found;
      while todo != {}
        invariant todo <= found && txn.store == this && fresh(txn) && db == old(db)
        invariant ApplyAll(db, txn.batch) ==
                  db.(storage := db.storage - (set k | k in found - todo :: (addr, version, k)))
      {
        var k :| k in todo;
        txn.Write(DeleteStorage(addr, version, k));
        assert (set j | j in found - (todo - {k}) :: (addr, version, j)) ==
               (set j | j in found - todo :: (addr, version, j)) + {(addr, version, k)};
        todo := todo - {k};
      }
      txn.Write(DeleteGc(addr, version));
      txn.Commit();
      assert found - todo == found;
    }

    /** One tick of the collector, which may be cancelled after any number of entries. */
    method GcRound(limit: nat)
      modifies this
      ensures Collected(old(db), db) && db.gc <= old(db).gc
      ensures |db.gc| == if |old(db).gc| <= limit then 0 else |old(db).gc| - limit
    {
      var todo := db.gc;
      var count := 0;
      while todo != {} && count < limit
        invariant todo == db.gc <= old(db).gc && |db.gc| == |old(db).gc| - count && count <= limit
        invariant Collected(old(db), db)
        decreases limit - count
      {
        var entry :| entry in todo;
        ghost var before := db;
        SweepOne(entry.0, entry.1);
        CollectedMore(old(db), before, entry, db);
        todo := todo - {entry};
        count := count + 1;
      }
    }
  }

  class Transaction {
    const store: StateStore
    var batch: seq<Write>

    constructor (store: StateStore)
      ensures this.store == store && batch == []
    {
      this.store := store;
      batch := [];
    }

    method Write(w: Write)
      modifies this
      ensures batch == old(batch) + [w]
      ensures forall rows :: ApplyAll(rows, batch) == Apply(ApplyAll(rows, old(batch)), w)
    {
      forall rows { ApplyAllAppend(rows, batch, w); }
      batch := batch + [w];
    }

    method Commit()
      modifies store
      ensures store.db == ApplyAll(old(store.db), batch)
    {
      store.db := ApplyAll(store.db, batch);
    }

    /** Writes one account and queues the versions it leaves behind. */
    method PersistAccount(addr: Address, acct: AccountValue)
      requires acct.version % VERSIONS != BEING_DELETED
      modifies this
      ensures forall rows :: ApplyAll(rows, batch) == AccountWritten(ApplyAll(rows, old(batch)), store.db, addr, acct)
    {
      if acct.version == 0 {
        return;
      } else if acct.version % VERSIONS == NOT_EXISTED {
        Write(DeleteAccountValue(addr));
        Write(PutAccountVersion(addr, acct.version));
      } else {
        Write(PutAccountValue(addr, acct));
        Write(DeleteAccountVersion(addr));
      }
      var version := 0;
      if addr in store.db.accountVersions {
        version := store.db.accountVersions[addr];
      } else if addr in store.db.accountValues {
        version := store.db.accountValues[addr].version;
      }
      if version > 0 {
        Queue(addr, version, acct.version);
      }
    }

    method Queue(addr: Address, from: nat, below: nat)
      requires 0 < from == CommittedVersion(store.db, addr)
      modifies this
      ensures forall rows :: ApplyAll(rows, batch) ==
                ApplyAll(rows, old(batch)).(gc := ApplyAll(rows, old(batch)).gc + Queued(store.db, addr, below))
    {
      var i := from;
      assert (set v | from <= v < i :: (addr, v)) == {};
      while i < below
        invariant from <= i && (i <= below || i == from)
        invariant forall rows :: ApplyAll(rows, batch) == ApplyAll(rows, old(batch)).(
                    gc := ApplyAll(rows, old(batch)).gc + (set v | from <= v < i :: (addr, v)))
      {
        Write(PutGc(addr, i));
        assert (set v | from <= v < i + 1 :: (addr, v)) == (set v | from <= v < i :: (addr, v)) + {(addr, i)};
        i := i + 1;
      }
      assert (set v | from <= v < i :: (addr, v)) == Queued(store.db, addr, below);
    }

    /** Persists a layer log; refuses, without any effect that could be committed, when a code count cannot be kept. */
    method PersistLayerLog(log: LayerLog) returns (ok: bool)
      requires forall a :: a in log.updatedAccounts ==> log.updatedAccounts[a].version % VERSIONS != BEING_DELETED
      modifies this
      ensures ok <==> forall h: Hash :: h in log.updatedCodeCount ==>
                        !CodeRefused(store.db, h, log.updatedCodeCount[h], log.codePreimage)
      ensures ok ==> forall rows :: ApplyAll(rows, batch) == PersistOnto(ApplyAll(rows, old(batch)), store.db, log)
    {
      ghost var first := batch;
      ghost var db := store.db;
      Write(PutPersisted(StateKey(log.blockNumber, log.rootHash)));
      PersistAccounts(log, first);
      ok := PersistCodes(log, first);
      if ok {
        PersistStorage(log, first);
      }
    }

    method PersistAccounts(log: LayerLog, ghost first: seq<Write>)
      requires forall a :: a in log.updatedAccounts ==> log.updatedAccounts[a].version % VERSIONS != BEING_DELETED
      requires forall rows :: ApplyAll(rows, batch) ==
                 Apply(ApplyAll(rows, first), PutPersisted(StateKey(log.blockNumber, log.rootHash)))
      modifies this
      ensures forall rows :: ApplyAll(rows, batch) ==
                PersistOnto(ApplyAll(rows, first), store.db, WithAccounts(log, log.updatedAccounts))
    {
      var todo := log.updatedAccounts.Keys;
      ghost var done: map<Address, AccountValue> := map[];
      forall rows { PersistNothing(ApplyAll(rows, first), store.db, log); }
      while todo != {}
        invariant todo <= log.updatedAccounts.Keys
        invariant done == map a | a in log.updatedAccounts.Keys - todo :: log.updatedAccounts[a]
        invariant forall rows :: ApplyAll(rows, batch) ==
                    PersistOnto(ApplyAll(rows, first), store.db, WithAccounts(log, done))
      {
        var addr :| addr in todo;
        var acct := log.updatedAccounts[addr];
        forall rows { PersistAccountStep(ApplyAll(rows, first), store.db, log, done, addr, acct); }
        PersistAccount(addr, acct);
        todo := todo - {addr};
        done := done[addr := acct];
      }
      assert done == log.updatedAccounts;
    }

    method PersistCode(h: Hash, diff: int, preimage: map<Hash, Code>) returns (ok: bool)
      modifies this
      ensures ok <==> !CodeRefused(store.db, h, diff, preimage)
      ensures ok ==> forall rows :: ApplyAll(rows, batch) ==
                       CodeWritten(ApplyAll(rows, old(batch)), store.db, preimage, h, diff)
    {
      if diff == 0 {
        return true;
      }
      if h !in store.db.codes {
        if diff < 0 {
          return false;
        }
        if h !in preimage {
          return false;
        }
        Write(PutCode(h, preimage[h], diff));
        return true;
      }
      var (code, existing) := store.db.codes[h];
      var count := existing + diff;
      if count < 0 {
        return false;
      } else if count == 0 {
        Write(DeleteCode(h));
      } else {
        Write(PutCode(h, code, count));
      }
      ok := true;
    }

    method PersistCodes(log: LayerLog, ghost first: seq<Write>) returns (ok: bool)
      requires forall rows :: ApplyAll(rows, batch) ==
                 PersistOnto(ApplyAll(rows, first), store.db, WithAccounts(log, log.updatedAccounts))
      modifies this
      ensures ok <==> forall h: Hash :: h in log.updatedCodeCount ==>
                        !CodeRefused(store.db, h, log.updatedCodeCount[h], log.codePreimage)
      ensures ok ==> forall rows :: ApplyAll(rows, batch) ==
                       PersistOnto(ApplyAll(rows, first), store.db, WithCounts(log, log.updatedCodeCount))
    {
      var todo := log.updatedCodeCount.Keys;
      ghost var done: map<Hash, int> := map[];
      while todo != {}
        invariant todo <= log.updatedCodeCount.Keys
        invariant done == map h | h in log.updatedCodeCount.Keys - todo :: log.updatedCodeCount[h]
        invariant forall h :: h in done ==> !CodeRefused(store.db, h, log.updatedCodeCount[h], log.codePreimage)
        invariant forall rows :: ApplyAll(rows, batch) ==
                    PersistOnto(ApplyAll(rows, first), store.db, WithCounts(log, done))
      {
        var h :| h in todo;
        var diff := log.updatedCodeCount[h];
        forall rows { PersistCodeStep(ApplyAll(rows, first), store.db, log, done, h, diff); }
        ok := PersistCode(h, diff, log.codePreimage);
        if !ok {
          return;
        }
        todo := todo - {h};
        done := done[h := diff];
      }
      assert done == log.updatedCodeCount;
      ok := true;
    }

    method PersistStorage(log: LayerLog, ghost first: seq<Write>)
      requires forall rows :: ApplyAll(rows, batch) ==
                 PersistOnto(ApplyAll(rows, first), store.db, WithCounts(log, log.updatedCodeCount))
      modifies this
      ensures forall rows :: ApplyAll(rows, batch) == PersistOnto(ApplyAll(rows, first), store.db, log)
    {
      var todo := log.updatedStorage.Keys;
      ghost var done: map<(Address, nat), map<Hash, Hash>> := map[];
      while todo != {}
        invariant todo <= log.updatedStorage.Keys
        invariant done == map av | av in log.updatedStorage.Keys - todo :: log.updatedStorage[av]
        invariant forall rows :: ApplyAll(rows, batch) ==
                    PersistOnto(ApplyAll(rows, first), store.db, log.(updatedStorage := done))
      {
        var av :| av in todo;
        var slots := log.updatedStorage[av];
        PersistSlots(log, first, done, av.0, av.1, slots);
        todo := todo - {av};
        done := done[av := slots];
      }
      assert done == log.updatedStorage;
      assert log.(updatedStorage := done) == log;
    }

    method PersistSlots(log: LayerLog, ghost first: seq<Write>, ghost done: map<(Address, nat), map<Hash, Hash>>,
                        addr: Address, version: nat, slots: map<Hash, Hash>)
      requires (addr, version) !in done
      requires forall rows :: ApplyAll(rows, batch) ==
                 PersistOnto(ApplyAll(rows, first), store.db, log.(updatedStorage := done))
      modifies this
      ensures forall rows :: ApplyAll(rows, batch) ==
                PersistOnto(ApplyAll(rows, first), store.db, log.(updatedStorage := done[(addr, version) := slots]))
    {
      var todo := slots.Keys;
      ghost var put: map<Hash, Hash> := map[];
      forall rows { PersistNoStorage(ApplyAll(rows, first), store.db, log, done, addr, version); }
      while todo != {}
        invariant todo <= slots.Keys
        invariant put == map k | k in slots.Keys - todo :: slots[k]
        invariant forall rows :: ApplyAll(rows, batch) ==
                    PersistOnto(ApplyAll(rows, first), store.db, log.(updatedStorage := done[(addr, version) := put]))
      {
        var k :| k in todo;
        forall rows { PersistStorageStep(ApplyAll(rows, first), store.db, log, done, addr, version, put, k, slots[k]); }
        Write(PutStorage(addr, version, k, slots[k]));
        todo := todo - {k};
        put := put[k := slots[k]];
      }
      assert put == slots;
    }
  }
}
