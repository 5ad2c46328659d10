/**
 A sweep that is out of date: the garbage collector finds the slots of a queued version first and deletes them later, in
 one batch, and commits, prunes and everything else may happen in between (statestore/routine.go).
 */
module StaleSweeps {
  import opened Types
  import opened Views
  import opened Database
  import opened LayerTree
  import opened LayerSteps
  import opened LayerPrune
  import opened LayerRuns

  /** The version is still queued, and no slot has been stored under it since. */
  ghost predicate OnlyShrinks(db: Database, db': Database, a: Address, v: nat) {
    (a, v) in db'.gc && forall k: Hash :: (a, v, k) in db'.storage ==> (a, v, k) in db.storage
  }

  lemma ShrinksTwice(db: Database, db': Database, db'': Database, a: Address, v: nat)
    requires OnlyShrinks(db, db', a, v) && OnlyShrinks(db', db'', a, v)
    ensures OnlyShrinks(db, db'', a, v)
  {
  }

  lemma PersistOnlyShrinks(keccak: Hasher, rows: Database, db: Database, log: LayerLog, a: Address, v: nat)
    requires SameStateRows(rows, db) && DatabaseOk(keccak, db) && LogFits(keccak, log, Base(db)) && (a, v) in db.gc
    ensures OnlyShrinks(db, PersistOnto(rows, db, log), a, v)
  {
    NoWriteToQueued(keccak, db, Base(db), log, a, v);
    forall k: Hash | (a, v, k) in PersistOnto(rows, db, log).storage ensures (a, v, k) in db.storage {
      UpdatedRow(log.updatedStorage, a, v, k);
    }
  }

  lemma PruneOnlyShrinks(keccak: Hasher, w: World, c: Hash, a: Address, v: nat)
    requires CanPrune(w, c) && LogsOk(keccak, w) && (a, v) in w.db.gc
    ensures OnlyShrinks(w.db, PruneOne(w, c).db, a, v)
  {
    var ck := ChildKey(w, Persisted, c);
    assert FitsAt(keccak, w, ck);
    PersistOnlyShrinks(keccak, RowsLeft(w, c), w.db, w.layers[ck].log, a, v);
  }

  lemma {:induction false} PruneAllOnlyShrinks(keccak: Hasher, w: World, hashes: seq<Hash>, a: Address, v: nat)
    requires Hashes(keccak) && WorldOk(keccak, w) && (a, v) in w.db.gc
    ensures OnlyShrinks(w.db, PruneAll(w, hashes).db, a, v)
    decreases |hashes|
  {
    if hashes != [] && hashes[0] in w.topChildren && CanPrune(w, hashes[0]) {
      PruneStepPreserves(keccak, w, hashes[0]);
      PruneOnlyShrinks(keccak, w, hashes[0], a, v);
      PruneAllOnlyShrinks(keccak, PruneOne(w, hashes[0]), hashes[1..], a, v);
    }
  }

  lemma AddedRows(w: World, r: Parent, log: LayerLog)
    requires Live(w, r)
    ensures AddLayer(w, r, log).db.gc == w.db.gc && AddLayer(w, r, log).db.storage == w.db.storage
  {
  }

  lemma CommitOnlyShrinks(keccak: Hasher, w: World, opts: Retention, p: StateKey, log: LayerLog, a: Address, v: nat)
    requires Hashes(keccak) && Safe(keccak, w, opts) && LiveKey(w, p) && !Has(w.archive, KeyOf(log))
    requires log.blockNumber == p.height + 1 && LogFits(keccak, log, KeyView(w, p)) && (a, v) in w.db.gc
    ensures OnlyShrinks(w.db, CommitStep(w, opts, p, log).db, a, v)
  {
    var w1 := AddLayer(w, Ref(w, p), log);
    CommitAdds(keccak, w, opts, p, log);
    AddedRows(w, Ref(w, p), log);
    PruneFromOnlyShrinks(keccak, w1, opts, KeyOf(log), a, v);
  }

  lemma PruneFromOnlyShrinks(keccak: Hasher, w: World, opts: Retention, k: StateKey, a: Address, v: nat)
    requires Hashes(keccak) && WorldOk(keccak, w) && (a, v) in w.db.gc
    ensures OnlyShrinks(w.db, PruneFrom(w, opts, k).db, a, v)
  {
    var hashes := PrunedHashes(w, opts, k);
    PruneAllOnlyShrinks(keccak, w, hashes, a, v);
  }

  lemma PrunedHashes(w: World, opts: Retention, k: StateKey) returns (hashes: seq<Hash>)
    requires Linked(w)
    ensures PruneFrom(w, opts, k) == PruneAll(w, hashes)
  {
    hashes := [];
    if k in w.layers && |Route(w, Layer(k))| > opts.max && |Route(w, Layer(k))| >= opts.frequency {
      hashes := Route(w, Layer(k))[..opts.frequency];
    }
  }

  /** Sweeps this version. */
  predicate Sweeps(s: Step, a: Address, v: nat) {
    s.Collect? && s.addr == a && s.version == v
  }

  predicate NeverSwept(steps: seq<Step>, a: Address, v: nat) {
    forall s :: s in steps ==> !Sweeps(s, a, v)
  }

  lemma OtherRows(w: World, opts: Retention, s: Step, a: Address, v: nat)
    requires !s.Commit? && !s.Restart? && !Sweeps(s, a, v) && (a, v) in w.db.gc
    ensures OnlyShrinks(w.db, Next(w, opts, s).db, a, v)
  {
  }

  lemma RestartRows(keccak: Hasher, w: World, opts: Retention)
    requires Safe(keccak, w, opts)
    ensures Next(w, opts, Restart).db == w.db
  {
    RestartOk(keccak, w, opts);
    RestartNext(w, opts);
  }

  lemma StepOnlyShrinks(keccak: Hasher, w: World, opts: Retention, s: Step, a: Address, v: nat)
    requires Hashes(keccak) && Safe(keccak, w, opts) && Possible(keccak, w, s) && !Sweeps(s, a, v) && (a, v) in w.db.gc
    ensures OnlyShrinks(w.db, Next(w, opts, s).db, a, v)
  {
    if s.Restart? {
      RestartRows(keccak, w, opts);
    } else if !s.Commit? {
      OtherRows(w, opts, s, a, v);
    } else if Commits(w, s) {
      CommitOnlyShrinks(keccak, w, opts, s.parent, s.log, a, v);
    }
  }

  lemma StepSafe(keccak: Hasher, w: World, opts: Retention, s: Step)
    requires Hashes(keccak) && Sensible(opts) && Safe(keccak, w, opts) && Possible(keccak, w, s)
    ensures Safe(keccak, Next(w, opts, s), opts)
  {
    if Commits(w, s) {
      CommitOk(keccak, w, opts, s.parent, s.log);
    } else {
      StepUnobservable(keccak, w, opts, s);
    }
  }

  lemma StepShrinksSafely(keccak: Hasher, w: World, opts: Retention, s: Step, a: Address, v: nat)
    requires Hashes(keccak) && Sensible(opts) && Safe(keccak, w, opts) && Possible(keccak, w, s)
    requires !Sweeps(s, a, v) && (a, v) in w.db.gc
    ensures Safe(keccak, Next(w, opts, s), opts) && OnlyShrinks(w.db, Next(w, opts, s).db, a, v)
  {
    StepSafe(keccak, w, opts, s);
    StepOnlyShrinks(keccak, w, opts, s, a, v);
  }

  lemma {:induction false} RunOnlyShrinks(keccak: Hasher, w: World, opts: Retention, steps: seq<Step>, a: Address,
                                          v: nat)
    requires Hashes(keccak) && Sensible(opts) && Safe(keccak, w, opts) && AllPossible(keccak, w, opts, steps)
    requires (a, v) in w.db.gc && NeverSwept(steps, a, v)
    ensures Safe(keccak, Run(w, opts, steps), opts) && OnlyShrinks(w.db, Run(w, opts, steps).db, a, v)
    decreases |steps|
  {
    if steps != [] {
      var s, w1 := steps[0], Next(w, opts, steps[0]);
      StepShrinksSafely(keccak, w, opts, s, a, v);
      RunOnlyShrinks(keccak, w1, opts, steps[1..], a, v);
      ShrinksTwice(w.db, w1.db, Run(w1, opts, steps[1..]).db, a, v);
    }
  }

  /** A sweep of what was found before deletes all there is by then. */
  lemma SweptClean(db: Database, db': Database, a: Address, v: nat, slots: set<Hash>)
    requires OnlyShrinks(db, db', a, v) && SlotsAt(db, a, v) <= slots
    ensures SlotsAt(Sweep(db', a, v, slots), a, v) == {}
  {
    forall k: Hash ensures k !in SlotsAt(Sweep(db', a, v, slots), a, v) {
      InSlotsAt(db, a, v, k);
      InSlotsAt(Sweep(db', a, v, slots), a, v, k);
      assert k in slots ==> (a, v, k) in (set j | j in slots :: (a, v, j));
    }
  }

  /**
   Slots found under a queued version may be deleted after any number of other steps: the version is still queued then,
   no live state can tell, and a sweep of all that was found leaves nothing behind.
   */
  lemma StaleSweepOk(keccak: Hasher, w: World, opts: Retention, steps: seq<Step>, a: Address, v: nat, slots: set<Hash>)
    requires Hashes(keccak) && Sensible(opts) && Safe(keccak, w, opts) && AllPossible(keccak, w, opts, steps)
    requires (a, v) in w.db.gc && NeverSwept(steps, a, v)
    ensures var w' := Run(w, opts, steps);
            && (a, v) in w'.db.gc
            && Unobservable(keccak, w', CollectStep(w', a, v, slots), opts)
            && (SlotsAt(w.db, a, v) <= slots ==> SlotsAt(CollectStep(w', a, v, slots).db, a, v) == {})
  {
    RunOnlyShrinks(keccak, w, opts, steps, a, v);
    var w' := Run(w, opts, steps);
    CollectOk(keccak, w', opts, a, v, slots);
    if SlotsAt(w.db, a, v) <= slots { SweptClean(w.db, w'.db, a, v, slots); }
  }
}
