/**
 Processes that stop between two transactions of one operation: at which of these points the stored rows can be loaded
 again, and what is found when they can.
 */
module LayerStops {
  import opened Types
  import opened Views
  import opened Database
  import opened LayerTree
  import opened LayerSteps
  import opened LayerPrune
  import opened LayerRestart
  import LayerRuns

  // ------------------------------------------------- while layers are destroyed

  lemma {:induction false} LoadAllMisses(db: Database, r: Parent, h: nat, hashes: seq<Hash>, c: Hash)
    requires c in hashes && Load(db, r, StateKey(h, c)) == None
    ensures LoadAll(db, r, h, hashes) == None
    decreases |hashes|
  {
    if hashes[0] != c { LoadAllMisses(db, r, h, hashes[1..], c); }
  }

  lemma NotLoaded(w: World, dead: set<StateKey>, r: Parent, k: StateKey, c: StateKey)
    requires RowsFound(w) && k in w.layers && k !in dead && Listed(w, Layer(k), c)
    requires Load(Destroyed(w, dead).db, Layer(k), c) == None
    ensures Load(Destroyed(w, dead).db, r, k) == None
  {
    var db := Destroyed(w, dead).db;
    assert db.children[k] == w.layers[k].children && c == StateKey(k.height + 1, c.root);
    LoadAllMisses(db, Layer(k), k.height + 1, db.children[k], c.root);
  }

  /** A layer cannot be loaded when a layer above it has been destroyed: some child list still names a missing layer. */
  lemma {:induction false} LoadMisses(w: World, dead: set<StateKey>, r: Parent, k: StateKey, j: StateKey)
    requires Linked(w) && Mirrored(w) && RowsFound(w) && k in w.layers && IsDesc(w, k, j) && j in dead
    ensures Load(Destroyed(w, dead).db, r, k) == None
    decreases j.height - k.height
  {
    var db := Destroyed(w, dead).db;
    if k in dead {
      assert k !in db.layerLogs;
    } else {
      var c := TowardChild(w, k, j);
      NotBelow(w, c, j);
      LoadMisses(w, dead, Layer(k), c, j);
      NotLoaded(w, dead, r, k, c);
    }
  }

  lemma TopMisses(w: World, dead: set<StateKey>, j: StateKey)
    requires Linked(w) && Mirrored(w) && RowsFound(w) && j in w.layers && j in dead
    ensures LoadAll(Destroyed(w, dead).db, Persisted, w.top.height + 1, w.topChildren) == None
  {
    var ck := StateKey(w.top.height + 1, Branch(w, j));
    BranchListed(w, j);
    assert Listed(w, Persisted, ck);
    LoadMisses(w, dead, Persisted, ck, j);
    LoadAllMisses(Destroyed(w, dead).db, Persisted, w.top.height + 1, w.topChildren, ck.root);
  }

  lemma ReloadMisses(db: Database, top: StateKey)
    requires db.persisted == Some(top) && top in db.children
    requires LoadAll(db, Persisted, top.height + 1, db.children[top]) == None
    ensures Reload(db) == None
  {
  }

  lemma TopStays(w: World, dead: set<StateKey>, db: Database)
    requires StoredOk(w) && dead <= w.layers.Keys && db == Destroyed(w, dead).db
    ensures RowsFound(w) && db.persisted == Some(w.top) && w.top in db.children && db.children[w.top] == w.topChildren
  {
    StoredRows(w);
  }

  lemma Stranded(w: World, dead: set<StateKey>, db: Database)
    requires TreeOk(w) && dead <= w.layers.Keys && dead != {} && db == Destroyed(w, dead).db
    ensures Reload(db) == None
  {
    var j :| j in dead;
    TopStays(w, dead, db);
    StrandedAt(w, dead, j, db);
  }

  lemma StrandedAt(w: World, dead: set<StateKey>, j: StateKey, db: Database)
    requires Linked(w) && Mirrored(w) && RowsFound(w) && j in w.layers && j in dead && db == Destroyed(w, dead).db
    requires db.persisted == Some(w.top) && w.top in db.children && db.children[w.top] == w.topChildren
    ensures Reload(db) == None
  {
    TopMisses(w, dead, j);
    ReloadMisses(db, w.top);
  }

  lemma NothingDestroyed(w: World)
    ensures Destroyed(w, {}).db == w.db
  {
    assert w.db.children - {} == w.db.children && w.db.layerLogs - {} == w.db.layerLogs;
  }

  /**
   The rows at any point while layers are being destroyed, the lists that name them not yet rewritten: they can be
   loaded if and only if no layer is gone yet.
   */
  lemma StoppedDestroying(w: World, dead: set<StateKey>)
    requires TreeOk(w) && dead <= w.layers.Keys
    ensures Reload(Destroyed(w, dead).db) == if dead == {} then Some(Restarted(w)) else None
  {
    if dead == {} {
      NothingDestroyed(w);
      RestartIsContinuing(w);
    } else {
      Stranded(w, dead, Destroyed(w, dead).db);
    }
  }

  /**
   DestructChild: from the first layer it destroys until the parent's list is rewritten, the rows cannot be loaded.
   */
  lemma DestructStops(keccak: Hasher, w: World, r: Parent, c: Hash, dead: set<StateKey>)
    requires WorldOk(keccak, w) && CanDestruct(w, r, c) && dead <= Desc(w, ChildKey(w, r, c))
    ensures Reload(Destroyed(w, dead).db) == if dead == {} then Some(Restarted(w)) else None
    ensures Linked(Destroyed(w, Desc(w, ChildKey(w, r, c)))) && Live(Destroyed(w, Desc(w, ChildKey(w, r, c))), r)
    ensures Reload(DestructChild(w, r, c).db) == Some(Restarted(DestructChild(w, r, c)))
  {
    StoppedDestroying(w, dead);
    DestructChildOk(keccak, w, r, c);
    RestartIsContinuing(DestructChild(w, r, c));
  }

  // ---------------------------------------------------------- while a state is pruned

  /** pruneOne: from the first layer of a sibling that is destroyed until the transaction, the rows cannot be loaded. */
  lemma PruneStops(w: World, c: Hash, dead: set<StateKey>)
    requires TreeOk(w) && CanPrune(w, c) && dead <= Doomed(w, c)
    ensures Reload(Destroyed(w, dead).db) == if dead == {} then Some(Restarted(w)) else None
    ensures Reload(PruneOne(w, c).db) == Some(Restarted(PruneOne(w, c)))
  {
    StoppedDestroying(w, dead);
    PruneTree(w, c);
    RestartIsContinuing(PruneOne(w, c));
  }

  lemma OnlyChild(w: World, c: Hash)
    requires TreeOk(w) && c in w.topChildren
    ensures Doomed(w, c) == {} <==> w.topChildren == [c]
  {
    if w.topChildren == [c] {
      forall k | k in w.layers ensures Branch(w, k) == c { BranchListed(w, k); }
    } else {
      assert NoDuplicates(ChildrenOf(w, Persisted));
      var d := Other(w.topChildren, c);
      assert Listed(w, Persisted, StateKey(w.top.height + 1, d));
      assert StateKey(w.top.height + 1, d) in Doomed(w, c);
    }
  }

  lemma Other(s: seq<Hash>, c: Hash) returns (d: Hash)
    requires NoDuplicates(s) && c in s && s != [c]
    ensures d in s && d != c
  {
    d := if s[0] != c then s[0] else s[1];
  }

  /** A prune step can be stopped at every one of its points if and only if the swallowed child has no sibling. */
  lemma PruneNeverStrands(w: World, c: Hash)
    requires TreeOk(w) && c in w.topChildren
    ensures (forall dead :: dead <= Doomed(w, c) ==> Reload(Destroyed(w, dead).db).Some?) <==> w.topChildren == [c]
  {
    ChildCanBePruned(w, c);
    OnlyChild(w, c);
    StoppedDestroying(w, Doomed(w, c));
    if Doomed(w, c) == {} {
      forall dead: set<StateKey> | dead <= Doomed(w, c) ensures Reload(Destroyed(w, dead).db).Some? {
        assert dead == {};
      }
    } else {
      assert !Reload(Destroyed(w, Doomed(w, c)).db).Some?;
    }
  }

  // -------------------------------------------------------- while a block commits

  /** The world in memory over the rows that a commit's first transaction leaves: the new layer is in no child list. */
  function Unlisted(w: World, r: Parent, log: LayerLog): World {
    w.(db := NewLayer(w, r, log).db)
  }

  lemma UnlistedKept(keccak: Hasher, w: World, r: Parent, log: LayerLog)
    requires WorldOk(keccak, w) && KeyOf(log) !in w.layers && KeyOf(log) != w.top
    ensures var w1 := Unlisted(w, r, log);
            && Linked(w1) && Mirrored(w1) && ArchiveOk(w1) && RowsFound(w1)
            && w1.db.persisted == Some(w.top) && w.top in w1.db.children && w1.db.children[w.top] == w.topChildren
  {
    var w1 := Unlisted(w, r, log);
    UnlistedTree(w, w1);
    StoredRows(w);
  }

  lemma UnlistedTree(w: World, w1: World)
    requires Linked(w) && Mirrored(w) && w1 == w.(db := w1.db)
    ensures Linked(w1) && Mirrored(w1)
  {
    forall p: Parent, j: StateKey ensures Listed(w1, p, j) <==> Listed(w, p, j) {}
  }

  lemma UnlistedShows(keccak: Hasher, w: World, r: Parent, log: LayerLog, p: Parent)
    requires WorldOk(keccak, w) && Linked(Unlisted(w, r, log)) && Live(w, p)
    ensures LiveEq(ViewAt(w, p), ViewAt(Unlisted(w, r, log), p))
  {
    var w1 := Unlisted(w, r, log);
    SameRowsSameBase(keccak, w.db, w1.db);
    ContentsKept(keccak, w, w1);
  }

  /**
   A stop between a commit's two transactions loses the block and nothing else: the old tree is found again and shows
   what it showed. When the block is committed again, what results is what the commit would have led to.
   */
  lemma CommitStops(keccak: Hasher, w: World, r: Parent, log: LayerLog)
    requires WorldOk(keccak, w) && CanAdd(keccak, w, r, log)
    ensures var w2 := Restarted(Unlisted(w, r, log));
            && Reload(NewLayer(w, r, log).db) == Some(w2)
            && Linked(w2) && w2.top == w.top && w2.layers.Keys == w.layers.Keys && w2.archive == w.archive
            && (forall p: Parent :: Live(w, p) ==> LiveEq(ViewAt(w, p), ViewAt(w2, p)))
            && AddLayer(w2, r, log) == Restarted(AddLayer(w, r, log))
    ensures Reload(AddLayer(w, r, log).db) == Some(Restarted(AddLayer(w, r, log)))
  {
    var w1 := Unlisted(w, r, log);
    assert KeyOf(log) !in w.layers && KeyOf(log) != w.top;
    UnlistedKept(keccak, w, r, log);
    FoundAgain(w1);
    LayerRuns.RestartedShape(w1, Restarted(w1));
    ColdLinked(w1);
    forall p: Parent | Live(w, p) ensures LiveEq(ViewAt(w, p), ViewAt(Restarted(w1), p)) {
      UnlistedShows(keccak, w, r, log, p);
      LayerRuns.SameShapeView(w1, Restarted(w1), p);
    }
    CommittedAgain(w, r, log);
    AddLayerTree(keccak, w, r, log);
    RestartIsContinuing(AddLayer(w, r, log));
  }

  lemma ColdLinked(w: World)
    requires Linked(w)
    ensures Linked(Restarted(w))
  {
  }

  lemma CommittedAgain(w: World, r: Parent, log: LayerLog)
    requires Linked(w) && Live(w, r) && KeyOf(log) !in w.layers && r != Layer(KeyOf(log))
    ensures AddLayer(Restarted(Unlisted(w, r, log)), r, log) == Restarted(AddLayer(w, r, log))
  {
    var mid := NewLayer(w, r, log);
    var again := NewLayer(Restarted(Unlisted(w, r, log)), r, log);
    AddedAgain(w, r, log, again, mid);
    ListedAgain(mid, r, ChildrenOf(w, r) + [log.rootHash]);
  }

  lemma AddedAgain(w: World, r: Parent, log: LayerLog, again: World, mid: World)
    requires again == NewLayer(Restarted(Unlisted(w, r, log)), r, log) && mid == NewLayer(w, r, log)
    ensures again == Restarted(mid)
  {
    assert again.db == mid.db;
    assert again.layers == Restarted(mid).layers;
  }

  lemma ListedAgain(w: World, r: Parent, list: seq<Hash>)
    requires Live(w, r)
    ensures SetChildren(Restarted(w), r, list) == Restarted(SetChildren(w, r, list))
  {
    assert SetChildren(Restarted(w), r, list).layers == Restarted(SetChildren(w, r, list)).layers;
  }

  /** Between any two prune steps of a commit, as after the last, the rows are those of the world in memory. */
  lemma RouteStops(keccak: Hasher, w: World, hashes: seq<Hash>)
    requires Hashes(keccak) && WorldOk(keccak, w)
    ensures Reload(LayerRuns.PruneAll(w, hashes).db) == Some(Restarted(LayerRuns.PruneAll(w, hashes)))
  {
    LayerRuns.PruneAllOk(keccak, w, hashes);
    RestartIsContinuing(LayerRuns.PruneAll(w, hashes));
  }
}
