/**
 What the garbage collector never reclaims. PersistLayerLog queues the versions that an account leaves behind only when
 the store had a version of the account before (statestore/txn.go:84-111), so slots that a new account wrote at a
 version it left within the same block are stored for good.
 */
module Leaks {
  import opened Types
  import opened Views
  import opened Database
  import opened LayerTree
  import opened LayerSteps
  import opened LayerPrune
  import opened LayerRestart
  import opened LayerRuns
  import opened StaleSweeps
  import Genesis

  /** Slots are stored only under versions that their account has reached. */
  ghost predicate RowsBelow(db: Database) {
    forall a: Address, v: nat, k: Hash :: (a, v, k) in db.storage ==>
      v <= AccountOf(db, a).version && v % VERSIONS == UPDATING
  }

  /** The slots stored under a version that is no longer live and is not queued either. */
  function Orphans(db: Database): set<(Address, nat, Hash)> {
    set row | row in db.storage && row.1 < AccountOf(db, row.0).version && (row.0, row.1) !in db.gc
  }

  /** What a log orphans: slots at a version that an account new to the store has left again. */
  function Leaked(log: LayerLog, u: View): set<(Address, nat, Hash)> {
    set row | row in UpdatedRows(log.updatedStorage) && u.acct(row.0).version == 0 &&
              row.1 < Over(log, u).acct(row.0).version
  }

  // --------------------------------------------------------------- one log, one sweep

  lemma StorageRow(rows: Database, db: Database, log: LayerLog, a: Address, v: nat, k: Hash)
    requires rows.storage == db.storage
    ensures (a, v, k) in PersistOnto(rows, db, log).storage <==>
            (a, v, k) in db.storage || (a, v, k) in UpdatedRows(log.updatedStorage)
  {
  }

  lemma RetiredIs(db: Database, log: LayerLog, a: Address, v: nat)
    requires AccountRowsOk(db)
    ensures (a, v) in Retired(db, log.updatedAccounts) <==>
            a in log.updatedAccounts && 0 < AccountOf(db, a).version <= v < log.updatedAccounts[a].version
  {
    assert CommittedVersion(db, a) == AccountOf(db, a).version;
  }

  lemma UpdatedFits(keccak: Hasher, log: LayerLog, u: View, a: Address, v: nat, k: Hash)
    requires LogFits(keccak, log, u) && (a, v, k) in UpdatedRows(log.updatedStorage)
    ensures a in log.updatedAccounts && v % VERSIONS == UPDATING
    ensures u.acct(a).version <= v <= log.updatedAccounts[a].version
  {
    UpdatedRow(log.updatedStorage, a, v, k);
  }

  lemma OrphanIs(db: Database, a: Address, v: nat, k: Hash)
    ensures (a, v, k) in Orphans(db) <==> (a, v, k) in db.storage && v < AccountOf(db, a).version && (a, v) !in db.gc
  {
  }

  lemma LeakedIs(log: LayerLog, u: View, a: Address, v: nat, k: Hash)
    ensures (a, v, k) in Leaked(log, u) <==>
            (a, v, k) in UpdatedRows(log.updatedStorage) && u.acct(a).version == 0 && v < Over(log, u).acct(a).version
  {
  }

  /** Where a row stands before and after, by its account's versions: was in the store, now in the log. */
  lemma PersistRow(keccak: Hasher, rows: Database, db: Database, log: LayerLog, a: Address, v: nat, k: Hash,
                   after: Database, was: nat, now: nat)
    requires SameStateRows(rows, db) && DatabaseOk(keccak, db) && LogFits(keccak, log, Base(db)) && RowsBelow(db)
    requires after == PersistOnto(rows, db, log)
    requires was == AccountOf(db, a).version && now == Over(log, Base(db)).acct(a).version
    ensures was <= now == AccountOf(after, a).version
    ensures (a, v, k) in db.storage ==> v <= was && v % VERSIONS == UPDATING
    ensures (a, v, k) in UpdatedRows(log.updatedStorage) ==> was <= v <= now && v % VERSIONS == UPDATING
    ensures (a, v, k) in after.storage <==> (a, v, k) in db.storage || (a, v, k) in UpdatedRows(log.updatedStorage)
    ensures (a, v) in after.gc <==> (a, v) in db.gc || 0 < was <= v < now
  {
    StorageRow(rows, db, log, a, v, k);
    RetiredIs(db, log, a, v);
    PersistAccounts(keccak, rows, db, log, a);
    VersionsGrow(keccak, log, Base(db), a);
    if (a, v, k) in UpdatedRows(log.updatedStorage) { UpdatedFits(keccak, log, Base(db), a, v, k); }
  }

  lemma OrphanedBy(db: Database, after: Database, log: LayerLog, u: View, a: Address, v: nat, k: Hash, was: nat,
                   now: nat)
    requires was == AccountOf(db, a).version == u.acct(a).version
    requires was <= now && now == AccountOf(after, a).version == Over(log, u).acct(a).version
    requires (a, v, k) in db.storage ==> v <= was && v % VERSIONS == UPDATING
    requires (a, v, k) in UpdatedRows(log.updatedStorage) ==> was <= v <= now && v % VERSIONS == UPDATING
    requires (a, v, k) in after.storage <==> (a, v, k) in db.storage || (a, v, k) in UpdatedRows(log.updatedStorage)
    requires (a, v) in after.gc <==> (a, v) in db.gc || 0 < was <= v < now
    requires (a, v) in db.gc ==> v < was
    ensures (a, v, k) in Orphans(after) <==> (a, v, k) in Orphans(db) || (a, v, k) in Leaked(log, u)
  {
    OrphanIs(after, a, v, k);
    OrphanIs(db, a, v, k);
    LeakedIs(log, u, a, v, k);
  }

  lemma PersistOrphan(keccak: Hasher, rows: Database, db: Database, log: LayerLog, a: Address, v: nat, k: Hash,
                      after: Database)
    requires SameStateRows(rows, db) && DatabaseOk(keccak, db) && LogFits(keccak, log, Base(db)) && RowsBelow(db)
    requires after == PersistOnto(rows, db, log)
    ensures (a, v, k) in after.storage ==> v <= AccountOf(after, a).version && v % VERSIONS == UPDATING
    ensures (a, v, k) in Orphans(after) <==> (a, v, k) in Orphans(db) || (a, v, k) in Leaked(log, Base(db))
  {
    var was, now := AccountOf(db, a).version, Over(log, Base(db)).acct(a).version;
    PersistRow(keccak, rows, db, log, a, v, k, after, was, now);
    OrphanedBy(db, after, log, Base(db), a, v, k, was, now);
  }

  lemma SameRows(these: set<(Address, nat, Hash)>, those: set<(Address, nat, Hash)>)
    requires forall a: Address, v: nat, k: Hash :: (a, v, k) in these <==> (a, v, k) in those
    ensures these == those
  {
    forall row ensures row in these <==> row in those {
      if row in these { assert (row.0, row.1, row.2) in these; }
      if row in those { assert (row.0, row.1, row.2) in those; }
    }
  }

  /** Persisting a log orphans what it leaks, neither more nor less, and gives nothing back. */
  lemma PersistLeaks(keccak: Hasher, rows: Database, db: Database, log: LayerLog)
    requires SameStateRows(rows, db) && DatabaseOk(keccak, db) && LogFits(keccak, log, Base(db)) && RowsBelow(db)
    ensures RowsBelow(PersistOnto(rows, db, log))
    ensures Orphans(PersistOnto(rows, db, log)) == Orphans(db) + Leaked(log, Base(db))
  {
    var after := PersistOnto(rows, db, log);
    forall a: Address, v: nat, k: Hash
      ensures (a, v, k) in after.storage ==> v <= AccountOf(after, a).version && v % VERSIONS == UPDATING
      ensures (a, v, k) in Orphans(after) <==> (a, v, k) in Orphans(db) || (a, v, k) in Leaked(log, Base(db))
    {
      PersistOrphan(keccak, rows, db, log, a, v, k, after);
    }
    SameRows(Orphans(after), Orphans(db) + Leaked(log, Base(db)));
  }

  /** A sweep orphans the slots that it leaves, as it takes their version off the queue. */
  lemma SweepLeaks(db: Database, a: Address, v: nat, slots: set<Hash>)
    requires GcOk(db) && RowsBelow(db) && (a, v) in db.gc
    ensures RowsBelow(Sweep(db, a, v, slots))
    ensures Orphans(Sweep(db, a, v, slots)) ==
            Orphans(db) + (set k | k in SlotsAt(db, a, v) && k !in slots :: (a, v, k))
  {
    var after := Sweep(db, a, v, slots);
    var missed := set k | k in SlotsAt(db, a, v) && k !in slots :: (a, v, k);
    forall b: Address, x: nat, k: Hash
      ensures (b, x, k) in after.storage <==> (b, x, k) in db.storage && !(b == a && x == v && k in slots)
      ensures (b, x, k) in Orphans(after) <==> (b, x, k) in Orphans(db) + missed
    {
      InSlotsAt(db, a, v, k);
      assert (b, x, k) in (set j | j in slots :: (a, v, j)) <==> b == a && x == v && k in slots;
      assert (b, x, k) in missed <==> b == a && x == v && k in SlotsAt(db, a, v) && k !in slots;
      assert AccountOf(after, b) == AccountOf(db, b);
    }
    SameRows(Orphans(after), Orphans(db) + missed);
  }

  lemma StateRowsOrphans(rows: Database, db: Database)
    requires SameStateRows(rows, db) && RowsBelow(db)
    ensures RowsBelow(rows) && Orphans(rows) == Orphans(db)
  {
    assert forall a: Address :: AccountOf(rows, a) == AccountOf(db, a);
  }

  // --------------------------------------------------------------------- steps

  ghost predicate SealedAt(w: World, k: StateKey)
    requires Linked(w) && k in w.layers
  {
    Leaked(w.layers[k].log, ViewAt(w, w.layers[k].parent)) == {}
  }

  /** Nothing has leaked, and no log that still waits in a layer is going to. */
  ghost predicate Tight(w: World)
    requires Linked(w)
  {
    && RowsBelow(w.db) && Orphans(w.db) == {}
    && (forall k {:trigger SealedAt(w, k)} :: k in w.layers ==> SealedAt(w, k))
  }

  /** Orphans stay; and unless the steps from w to w' leak, none are made. */
  ghost predicate Follows(w: World, w': World, tidy: bool)
    requires Linked(w) && Linked(w')
  {
    && RowsBelow(w'.db) && Orphans(w.db) <= Orphans(w'.db)
    && (tidy && Tight(w) ==> Tight(w'))
  }

  lemma LeakedLiveEq(log: LayerLog, u: View, w: View)
    requires LiveEq(u, w)
    ensures Leaked(log, u) == Leaked(log, w)
  {
    assert forall a: Address :: Over(log, u).acct(a) == Over(log, w).acct(a) && u.acct(a) == w.acct(a);
  }

  lemma RefOfParent(w: World, r: Parent)
    requires Linked(w) && Live(w, r)
    ensures LiveKey(w, ParentKey(w, r)) && Ref(w, ParentKey(w, r)) == r
  {
    if r.Layer? { TopIsBelow(w, r.key); }
  }

  /** A layer keeps its log and the key of its parent. */
  ghost predicate SamePlace(w: World, w': World, k: StateKey) {
    && k in w.layers && k in w'.layers && w'.layers[k].log == w.layers[k].log
    && ParentKey(w', w'.layers[k].parent) == ParentKey(w, w.layers[k].parent)
  }

  lemma SealedKept(w: World, w': World, k: StateKey)
    requires Linked(w) && Linked(w') && SamePlace(w, w', k) && SealedAt(w, k)
    requires forall j :: LiveKey(w', j) && LiveKey(w, j) ==> LiveEq(KeyView(w, j), KeyView(w', j))
    ensures SealedAt(w', k)
  {
    RefOfParent(w, w.layers[k].parent);
    RefOfParent(w', w'.layers[k].parent);
    var p := ParentKey(w, w.layers[k].parent);
    LeakedLiveEq(w.layers[k].log, KeyView(w, p), KeyView(w', p));
  }

  lemma TightKept(w: World, w': World)
    requires Linked(w) && Linked(w') && Preserved(w, w') && Tight(w)
    requires forall k {:trigger SamePlace(w, w', k)} :: k in w'.layers ==> SamePlace(w, w', k)
    requires RowsBelow(w'.db) && Orphans(w'.db) == {}
    ensures Tight(w')
  {
    forall k | k in w'.layers ensures SealedAt(w', k) {
      assert SamePlace(w, w', k) && SealedAt(w, k);
      SealedKept(w, w', k);
    }
  }

  // --------------------------------------------------------------------- pruning

  /** A prune step orphans exactly what the log of the swallowed child leaks over the persisted state. */
  lemma PruneLeaks(keccak: Hasher, w: World, c: Hash)
    requires CanPrune(w, c) && LogsOk(keccak, w) && RowsBelow(w.db)
    ensures RowsBelow(PruneOne(w, c).db)
    ensures Orphans(PruneOne(w, c).db) ==
            Orphans(w.db) + Leaked(w.layers[ChildKey(w, Persisted, c)].log, ViewAt(w, Persisted))
  {
    var ck := ChildKey(w, Persisted, c);
    assert FitsAt(keccak, w, ck);
    PersistLeaks(keccak, RowsLeft(w, c), w.db, w.layers[ck].log);
  }

  lemma SurvivorPlace(w: World, c: Hash, k: StateKey)
    requires CanPrune(w, c) && k in PruneOne(w, c).layers
    ensures SamePlace(w, PruneOne(w, c), k)
  {
    PruneNode(w, c, k);
    SurvivorParent(w, c, k);
  }

  lemma PruneFollows(keccak: Hasher, w: World, c: Hash)
    requires Hashes(keccak) && WorldOk(keccak, w) && RowsBelow(w.db) && c in w.topChildren
    ensures CanPrune(w, c) && Linked(PruneOne(w, c)) && Follows(w, PruneOne(w, c), true)
  {
    PruneStepPreserves(keccak, w, c);
    PruneLeaks(keccak, w, c);
    if Tight(w) {
      assert SealedAt(w, ChildKey(w, Persisted, c));
      forall k | k in PruneOne(w, c).layers ensures SamePlace(w, PruneOne(w, c), k) { SurvivorPlace(w, c, k); }
      TightKept(w, PruneOne(w, c));
    }
  }

  lemma {:induction false} PruneAllFollows(keccak: Hasher, w: World, hashes: seq<Hash>)
    requires Hashes(keccak) && WorldOk(keccak, w) && RowsBelow(w.db)
    ensures Linked(PruneAll(w, hashes)) && Follows(w, PruneAll(w, hashes), true)
    decreases |hashes|
  {
    if hashes != [] && hashes[0] in w.topChildren && CanPrune(w, hashes[0]) {
      PruneStepPreserves(keccak, w, hashes[0]);
      PruneFollows(keccak, w, hashes[0]);
      PruneAllFollows(keccak, PruneOne(w, hashes[0]), hashes[1..]);
    }
  }

  // --------------------------------------------------------------------- commits

  /** The step orphans nothing: a sweep deletes all it should, and a committed log leaks nothing over its parent. */
  ghost predicate Tidy(w: World, s: Step) {
    && (s.Collect? ==> SlotsAt(w.db, s.addr, s.version) <= s.slots)
    && (Commits(w, s) ==> Leaked(s.log, KeyView(w, s.parent)) == {})
  }

  lemma AddedPlace(w: World, r: Parent, log: LayerLog, k: StateKey)
    requires Linked(w) && Live(w, r) && KeyOf(log) !in w.layers && k in w.layers
    ensures SamePlace(w, AddLayer(w, r, log), k)
  {
  }

  lemma AddedNode(w: World, r: Parent, log: LayerLog)
    requires Live(w, r) && KeyOf(log) !in w.layers && r != Layer(KeyOf(log))
    ensures var w1 := AddLayer(w, r, log);
            && SameStateRows(w1.db, w.db) && w1.layers.Keys == w.layers.Keys + {KeyOf(log)}
            && w1.layers[KeyOf(log)].log == log && w1.layers[KeyOf(log)].parent == r && w1.top == w.top
  {
  }

  lemma AddedTight(w: World, w1: World, p: StateKey, log: LayerLog)
    requires Linked(w) && Linked(w1) && Tight(w) && LiveKey(w, p) && Leaked(log, KeyView(w, p)) == {}
    requires SameStateRows(w1.db, w.db) && w1.top == w.top && w1.layers.Keys == w.layers.Keys + {KeyOf(log)}
    requires w1.layers[KeyOf(log)].log == log && w1.layers[KeyOf(log)].parent == Ref(w, p)
    requires forall j :: LiveKey(w, j) ==> LiveEq(KeyView(w, j), KeyView(w1, j))
    requires forall k {:trigger SamePlace(w, w1, k)} :: k in w.layers ==> SamePlace(w, w1, k)
    ensures Tight(w1)
  {
    StateRowsOrphans(w1.db, w.db);
    LeakedLiveEq(log, KeyView(w, p), KeyView(w1, p));
    forall k | k in w1.layers ensures SealedAt(w1, k) {
      if k in w.layers {
        assert SamePlace(w, w1, k) && SealedAt(w, k);
        SealedKept(w, w1, k);
      }
    }
  }

  lemma CommitFollows(keccak: Hasher, w: World, opts: Retention, s: Step)
    requires Hashes(keccak) && Safe(keccak, w, opts) && RowsBelow(w.db) && Possible(keccak, w, s) && Commits(w, s)
    ensures Linked(Next(w, opts, s)) && Follows(w, Next(w, opts, s), Tidy(w, s))
  {
    var p, log := s.parent, s.log;
    var w1 := AddLayer(w, Ref(w, p), log);
    CommitAdds(keccak, w, opts, p, log);
    AddedNode(w, Ref(w, p), log);
    StateRowsOrphans(w1.db, w.db);
    if Tidy(w, s) && Tight(w) {
      forall k | k in w.layers ensures SamePlace(w, w1, k) { AddedPlace(w, Ref(w, p), log, k); }
      AddedTight(w, w1, p, log);
    }
    PruneFromFollows(keccak, w1, opts, KeyOf(log));
  }

  lemma PruneFromFollows(keccak: Hasher, w: World, opts: Retention, k: StateKey)
    requires Hashes(keccak) && WorldOk(keccak, w) && RowsBelow(w.db)
    ensures Linked(PruneFrom(w, opts, k)) && Follows(w, PruneFrom(w, opts, k), true)
  {
    var hashes := PrunedHashes(w, opts, k);
    PruneAllFollows(keccak, w, hashes);
  }

  // ----------------------------------------------------------------- other steps

  lemma SweepFollows(w: World, s: Step, w': World)
    requires Linked(w) && Linked(w') && Preserved(w, w') && GcOk(w.db) && RowsBelow(w.db)
    requires s.Collect? && w' == CollectStep(w, s.addr, s.version, s.slots)
    ensures Follows(w, w', Tidy(w, s))
  {
    if (s.addr, s.version) in w.db.gc {
      SweepLeaks(w.db, s.addr, s.version, s.slots);
      if Tidy(w, s) && Tight(w) {
        forall k | k in w'.layers ensures SamePlace(w, w', k) {}
        TightKept(w, w');
      }
    }
  }

  /** No row of the persisted state is written, and no layer that is left has moved. */
  ghost predicate Undisturbed(w: World, w': World) {
    && SameStateRows(w'.db, w.db)
    && (forall k {:trigger SamePlace(w, w', k)} :: k in w'.layers ==> SamePlace(w, w', k))
  }

  lemma SetChildrenPlaces(w: World, r: Parent, list: seq<Hash>)
    requires Live(w, r)
    ensures Undisturbed(w, SetChildren(w, r, list))
  {
  }

  lemma DestroyedPlaces(w: World, dead: set<StateKey>)
    ensures Undisturbed(w, Destroyed(w, dead))
  {
  }

  lemma UndisturbedTwice(w: World, w1: World, w2: World)
    requires Undisturbed(w, w1) && Undisturbed(w1, w2)
    ensures Undisturbed(w, w2)
  {
    forall k | k in w2.layers ensures SamePlace(w, w2, k) { assert SamePlace(w1, w2, k) && SamePlace(w, w1, k); }
  }

  lemma DestructPlaces(w: World, r: Parent, c: Hash)
    requires CanDestruct(w, r, c)
    ensures Linked(Destroyed(w, Desc(w, ChildKey(w, r, c)))) && Live(Destroyed(w, Desc(w, ChildKey(w, r, c))), r)
    ensures Undisturbed(w, DestructChild(w, r, c))
  {
    ParentSurvives(w, r, c);
    var w1 := Destroyed(w, Desc(w, ChildKey(w, r, c)));
    DestroyedPlaces(w, Desc(w, ChildKey(w, r, c)));
    SetChildrenPlaces(w1, r, Without(ChildrenOf(w, r), c));
    UndisturbedTwice(w, w1, DestructChild(w, r, c));
  }

  lemma SetCachePlaces(w: World, k: StateKey, cache: Cache)
    requires k in w.layers
    ensures Undisturbed(w, SetCache(w, k, cache))
  {
  }

  /** A fill is nothing, or one cache replaced. */
  lemma Filled(w: World, s: Step) returns (cache: Cache)
    requires s.FillAccount? || s.FillSlot? || s.FillCode?
    ensures FillStep(w, s) == w || (s.key in w.layers && FillStep(w, s) == SetCache(w, s.key, cache))
  {
    cache := NO_CACHE;
    if s.key in FillStep(w, s).layers { cache := FillStep(w, s).layers[s.key].cache; }
  }

  lemma FillPlaces(w: World, s: Step)
    requires s.FillAccount? || s.FillSlot? || s.FillCode?
    ensures Undisturbed(w, FillStep(w, s))
  {
    var cache := Filled(w, s);
    if FillStep(w, s) != w { SetCachePlaces(w, s.key, cache); }
  }

  lemma RestartPlaces(keccak: Hasher, w: World, opts: Retention)
    requires Safe(keccak, w, opts)
    ensures Undisturbed(w, RestartStep(w))
  {
    RestartOk(keccak, w, opts);
    ReloadedPlaces(w, Restarted(w));
  }

  lemma ReloadedPlaces(w: World, w': World)
    requires Linked(w) && w' == Restarted(w)
    ensures Undisturbed(w, w')
  {
    RestartedShape(w, w');
  }

  /** The steps that neither commit nor sweep write no row of the persisted state, and move no layer. */
  lemma QuietPlaces(keccak: Hasher, w: World, opts: Retention, s: Step)
    requires Safe(keccak, w, opts) && !s.Commit? && !s.Collect?
    ensures Undisturbed(w, Next(w, opts, s))
  {
    if s.Destruct? {
      if LiveKey(w, s.parent) && CanDestruct(w, Ref(w, s.parent), s.child) {
        DestructPlaces(w, Ref(w, s.parent), s.child);
      }
    } else if s.Restart? {
      RestartPlaces(keccak, w, opts);
    } else {
      FillNext(w, opts, s);
      FillPlaces(w, s);
    }
  }

  lemma QuietFollows(w: World, w': World)
    requires Linked(w) && Linked(w') && Preserved(w, w') && RowsBelow(w.db) && Undisturbed(w, w')
    ensures Follows(w, w', true)
  {
    StateRowsOrphans(w'.db, w.db);
    if Tight(w) { TightKept(w, w'); }
  }

  lemma OtherFollows(keccak: Hasher, w: World, opts: Retention, s: Step)
    requires Safe(keccak, w, opts) && RowsBelow(w.db) && !Commits(w, s)
    ensures Linked(Next(w, opts, s)) && Follows(w, Next(w, opts, s), Tidy(w, s))
  {
    StepUnobservable(keccak, w, opts, s);
    if s.Collect? {
      SweepFollows(w, s, Next(w, opts, s));
    } else if !s.Commit? {
      QuietPlaces(keccak, w, opts, s);
      QuietFollows(w, Next(w, opts, s));
    }
  }

  lemma StepFollows(keccak: Hasher, w: World, opts: Retention, s: Step)
    requires Hashes(keccak) && Sensible(opts) && Safe(keccak, w, opts) && RowsBelow(w.db) && Possible(keccak, w, s)
    ensures Safe(keccak, Next(w, opts, s), opts) && Follows(w, Next(w, opts, s), Tidy(w, s))
  {
    StepSafe(keccak, w, opts, s);
    if Commits(w, s) { CommitFollows(keccak, w, opts, s); } else { OtherFollows(keccak, w, opts, s); }
  }

  // ------------------------------------------------------------------- whole runs

  ghost predicate AllTidy(w: World, opts: Retention, steps: seq<Step>)
    decreases |steps|
  {
    steps == [] || (Tidy(w, steps[0]) && AllTidy(Next(w, opts, steps[0]), opts, steps[1..]))
  }

  /**
   Over a whole run what is orphaned stays orphaned, and nothing is orphaned as long as sweeps are complete and no log
   is committed that leaks over its parent.
   */
  lemma {:induction false} RunFollows(keccak: Hasher, w: World, opts: Retention, steps: seq<Step>)
    requires Hashes(keccak) && Sensible(opts) && Safe(keccak, w, opts) && RowsBelow(w.db)
    requires AllPossible(keccak, w, opts, steps)
    ensures Safe(keccak, Run(w, opts, steps), opts) && Follows(w, Run(w, opts, steps), AllTidy(w, opts, steps))
    decreases |steps|
  {
    if steps != [] {
      StepFollows(keccak, w, opts, steps[0]);
      RunFollows(keccak, Next(w, opts, steps[0]), opts, steps[1..]);
    }
  }

  // ----------------------------------------------------------------- from the genesis

  lemma GenesisLeaksNothing(keccak: Hasher, alloc: Genesis.Alloc, log: LayerLog)
    requires Genesis.FromGenesis(keccak, alloc, log)
    ensures Leaked(log, Base(EMPTY_DATABASE)) == {}
  {
    forall a: Address, v: nat, k: Hash ensures (a, v, k) !in Leaked(log, Base(EMPTY_DATABASE)) {
      UpdatedRow(log.updatedStorage, a, v, k);
      LeakedIs(log, Base(EMPTY_DATABASE), a, v, k);
      if a in alloc { assert log.updatedAccounts[a] == Genesis.ValueOf(keccak, alloc[a]); }
    }
    SameRows(Leaked(log, Base(EMPTY_DATABASE)), {});
  }

  lemma FirstTight(keccak: Hasher, alloc: Genesis.Alloc, log: LayerLog)
    requires Genesis.FromGenesis(keccak, alloc, log)
    ensures Linked(Genesis.FirstWorld(log)) && Tight(Genesis.FirstWorld(log))
  {
    var db := PersistOnto(EMPTY_DATABASE, EMPTY_DATABASE, log);
    Genesis.EmptyDatabaseOk(keccak);
    Genesis.GenesisFits(keccak, alloc, log);
    PersistLeaks(keccak, EMPTY_DATABASE, EMPTY_DATABASE, log);
    GenesisLeaksNothing(keccak, alloc, log);
    StateRowsOrphans(Genesis.FirstRows(log), db);
  }

  /** A node that commits no leaking log, and whose sweeps are complete, never stores a slot that it cannot reclaim. */
  lemma NodeIsTight(keccak: Hasher, alloc: Genesis.Alloc, log: LayerLog, opts: Retention, steps: seq<Step>)
    requires Genesis.FromGenesis(keccak, alloc, log) && Sensible(opts)
    requires AllPossible(keccak, Genesis.FirstWorld(log), opts, steps) && AllTidy(Genesis.FirstWorld(log), opts, steps)
    ensures Linked(Run(Genesis.FirstWorld(log), opts, steps)) && Tight(Run(Genesis.FirstWorld(log), opts, steps))
  {
    Genesis.FirstWorldSafe(keccak, alloc, log, opts);
    FirstTight(keccak, alloc, log);
    RunFollows(keccak, Genesis.FirstWorld(log), opts, steps);
  }

  // ---------------------------------------------------------------------- a leak

  /** A block in which a new account wrote one slot and was then destroyed. */
  function ShortLived(root: Hash, a: Address, k: Hash, val: Hash): LayerLog {
    LayerLog(1, root, map[a := EmptyAccount(3)], map[], map[], map[(a, 1) := map[k := val]])
  }

  lemma ShortLivedFits(keccak: Hasher, root: Hash, a: Address, k: Hash, val: Hash)
    ensures LogFits(keccak, ShortLived(root, a, k, val), Base(EMPTY_DATABASE))
  {
    var log, u := ShortLived(root, a, k, val), Base(EMPTY_DATABASE);
    forall h: Hash ensures Holders(Over(log, u), h) == Holders(u, h) { SameCodeHashes(Over(log, u), u, h); }
    assert CountsFit(log, u) && PreimagesFit(keccak, log, u);
    assert AccountFits(u, a, EmptyAccount(3)) && StorageFits(log, u);
    forall b: Address, j: Hash ensures !Over(log, u).acct(b).dirtyStorage &&
                                       Over(log, u).slot(b, Over(log, u).acct(b).version, j) == ZERO_HASH {
      assert Over(log, u).slot(b, Over(log, u).acct(b).version, j) ==
             SlotOver(log, b, Over(log, u).acct(b).version, j, ZERO_HASH);
    }
  }

  lemma SameCodeHashes(u: View, w: View, h: Hash)
    requires forall b: Address :: u.acct(b).codeHash == w.acct(b).codeHash
    ensures Holders(u, h) == Holders(w, h)
  {
  }

  lemma ShortLivedLeaked(root: Hash, a: Address, k: Hash, val: Hash)
    ensures Leaked(ShortLived(root, a, k, val), Base(EMPTY_DATABASE)) == {(a, 1, k)}
  {
    var log, u := ShortLived(root, a, k, val), Base(EMPTY_DATABASE);
    forall b: Address, v: nat, j: Hash ensures (b, v, j) in Leaked(log, u) <==> (b, v, j) in {(a, 1 as nat, k)} {
      UpdatedRow(log.updatedStorage, b, v, j);
      LeakedIs(log, u, b, v, j);
    }
    SameRows(Leaked(log, u), {(a, 1, k)});
  }

  /** Its slot leaks: when the block is persisted the row is stored, no state can read it, and it is never queued. */
  lemma ShortLivedLeaks(keccak: Hasher, root: Hash, a: Address, k: Hash, val: Hash)
    requires Hashes(keccak)
    ensures Orphans(PersistOnto(EMPTY_DATABASE, EMPTY_DATABASE, ShortLived(root, a, k, val))) == {(a, 1, k)}
  {
    Genesis.EmptyDatabaseOk(keccak);
    ShortLivedFits(keccak, root, a, k, val);
    PersistLeaks(keccak, EMPTY_DATABASE, EMPTY_DATABASE, ShortLived(root, a, k, val));
    ShortLivedLeaked(root, a, k, val);
    assert Orphans(EMPTY_DATABASE) == {};
  }
}
