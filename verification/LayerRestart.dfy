/** Restarting: newPersistedWorldState and newLayeredWorldState rebuild the tree from the stored rows. */
module LayerRestart {
  import opened Types
  import opened Database
  import opened LayerTree
  import opened LayerSteps

  function Above(db: Database, h: nat): set<StateKey> {
    set k | k in db.layerLogs && k.height >= h
  }

  /** newLayeredWorldState: the layer and, recursively, its stored children; None when a row is missing. */
  function Load(db: Database, r: Parent, k: StateKey): Option<map<StateKey, Node>>
    decreases Above(db, k.height), 0
  {
    if k !in db.layerLogs || k !in db.children then None
    else
      assert k in Above(db, k.height) - Above(db, k.height + 1);
      match LoadAll(db, Layer(k), k.height + 1, db.children[k])
      case None => None
      case Some(above) => Some(above[k := Node(r, db.layerLogs[k], db.children[k], NO_CACHE)])
  }

  function LoadAll(db: Database, r: Parent, h: nat, hashes: seq<Hash>): Option<map<StateKey, Node>>
    decreases Above(db, h), |hashes| + 1
  {
    if hashes == [] then Some(map[])
    else
      match Load(db, r, StateKey(h, hashes[0]))
      case None => None
      case Some(first) =>
        match LoadAll(db, r, h, hashes[1..])
        case None => None
        case Some(rest) => Some(first + rest)
  }

  /** The archive after registering each of these states. */
  function Indexed(live: set<StateKey>): map<nat, set<Hash>> {
    map h | h in (set k | k in live :: k.height) :: RootsAt(live, h)
  }

  function Reload(db: Database): Option<World> {
    match db.persisted
    case None => None
    case Some(top) =>
      if top !in db.children then None
      else
        match LoadAll(db, Persisted, top.height + 1, db.children[top])
        case None => None
        case Some(layers) => Some(World(db, Indexed(layers.Keys + {top}), top, db.children[top], layers))
  }

  // ------------------------------------------------------ what a restart finds

  function Cold(w: World, keys: set<StateKey>): map<StateKey, Node>
    requires keys <= w.layers.Keys
  {
    map k | k in keys :: w.layers[k].(cache := NO_CACHE)
  }

  /** The same world with empty caches. */
  function Restarted(w: World): World {
    w.(layers := Cold(w, w.layers.Keys))
  }

  function Subtrees(w: World, h: nat, hashes: seq<Hash>): (keys: set<StateKey>)
    requires Linked(w)
    ensures keys <= w.layers.Keys
  {
    if hashes == [] then {} else Desc(w, StateKey(h, hashes[0])) + Subtrees(w, h, hashes[1..])
  }

  lemma {:induction false} InSubtrees(w: World, h: nat, hashes: seq<Hash>, j: StateKey)
    requires Linked(w)
    ensures j in Subtrees(w, h, hashes) <==> exists c :: c in hashes && IsDesc(w, StateKey(h, c), j)
  {
    if hashes != [] {
      InSubtrees(w, h, hashes[1..], j);
      assert forall c :: c in hashes <==> c == hashes[0] || c in hashes[1..];
    }
  }

  lemma {:induction false} TowardChild(w: World, k: StateKey, j: StateKey) returns (c: StateKey)
    requires Linked(w) && Mirrored(w) && IsDesc(w, k, j) && j != k
    ensures Listed(w, Layer(k), c) && IsDesc(w, c, j)
    decreases j.height
  {
    if w.layers[j].parent.key == k {
      c := j;
    } else {
      c := TowardChild(w, k, w.layers[j].parent.key);
    }
  }

  lemma ChildSubtree(w: World, k: StateKey, j: StateKey)
    requires Linked(w) && Mirrored(w) && k in w.layers && j != k
    ensures IsDesc(w, k, j) <==> j in Subtrees(w, k.height + 1, w.layers[k].children)
  {
    var cs := w.layers[k].children;
    InSubtrees(w, k.height + 1, cs, j);
    if IsDesc(w, k, j) {
      var c := TowardChild(w, k, j);
      assert c == StateKey(k.height + 1, c.root) && c.root in cs;
    } else if j in Subtrees(w, k.height + 1, cs) {
      var c: Hash :| c in cs && IsDesc(w, StateKey(k.height + 1, c), j);
      ChildIsDesc(w, k, c, j);
    }
  }

  lemma ChildIsDesc(w: World, k: StateKey, c: Hash, j: StateKey)
    requires Linked(w) && Mirrored(w) && k in w.layers
    requires c in w.layers[k].children && IsDesc(w, StateKey(k.height + 1, c), j)
    ensures IsDesc(w, k, j)
  {
    assert Listed(w, Layer(k), StateKey(k.height + 1, c));
    assert IsDesc(w, k, k);
    DescTransitive(w, k, StateKey(k.height + 1, c), j);
  }

  lemma SubtreesOfChildren(w: World, k: StateKey)
    requires Linked(w) && Mirrored(w) && k in w.layers
    ensures Desc(w, k) == {k} + Subtrees(w, k.height + 1, w.layers[k].children)
  {
    assert IsDesc(w, k, k);
    forall j | j != k ensures j in Desc(w, k) <==> j in Subtrees(w, k.height + 1, w.layers[k].children) {
      ChildSubtree(w, k, j);
    }
  }

  lemma SubtreesOfTop(w: World)
    requires Linked(w) && Mirrored(w)
    ensures w.layers.Keys == Subtrees(w, w.top.height + 1, w.topChildren)
  {
    forall j ensures j in w.layers <==> j in Subtrees(w, w.top.height + 1, w.topChildren) {
      InSubtrees(w, w.top.height + 1, w.topChildren, j);
      if j in w.layers { BranchListed(w, j); }
    }
  }

  lemma {:induction false} BranchListed(w: World, j: StateKey)
    requires Linked(w) && Mirrored(w) && j in w.layers
    ensures Branch(w, j) in w.topChildren && IsDesc(w, StateKey(w.top.height + 1, Branch(w, j)), j)
    decreases j.height
  {
    if w.layers[j].parent.Persisted? {
      assert Listed(w, w.layers[j].parent, j);
    } else {
      BranchListed(w, w.layers[j].parent.key);
    }
  }

  ghost predicate ChildrenHere(w: World, r: Parent, h: nat, hashes: seq<Hash>) {
    forall i :: 0 <= i < |hashes| ==>
      StateKey(h, hashes[i]) in w.layers && w.layers[StateKey(h, hashes[i])].parent == r
  }

  lemma ListedAreHere(w: World, r: Parent)
    requires Mirrored(w) && Live(w, r)
    ensures ChildrenHere(w, r, ParentKey(w, r).height + 1, ChildrenOf(w, r))
  {
    var h, hashes := ParentKey(w, r).height + 1, ChildrenOf(w, r);
    forall i | 0 <= i < |hashes|
      ensures StateKey(h, hashes[i]) in w.layers && w.layers[StateKey(h, hashes[i])].parent == r
    {
      assert Listed(w, r, StateKey(h, hashes[i]));
    }
  }

  lemma ColdNode(w: World, k: StateKey, above: set<StateKey>)
    requires k in w.layers && above <= w.layers.Keys
    ensures Cold(w, above)[k := w.layers[k].(cache := NO_CACHE)] == Cold(w, {k} + above)
  {
  }

  lemma ColdUnion(w: World, a: set<StateKey>, b: set<StateKey>)
    requires a <= w.layers.Keys && b <= w.layers.Keys
    ensures Cold(w, a) + Cold(w, b) == Cold(w, a + b)
  {
  }

  lemma LoadUnfold(db: Database, r: Parent, k: StateKey, above: map<StateKey, Node>)
    requires k in db.layerLogs && k in db.children
    requires LoadAll(db, Layer(k), k.height + 1, db.children[k]) == Some(above)
    ensures Load(db, r, k) == Some(above[k := Node(r, db.layerLogs[k], db.children[k], NO_CACHE)])
  {
  }

  /** The store has the rows of every layer in memory. */
  ghost predicate RowsFound(w: World) {
    && (forall k :: k in w.layers ==> k in w.db.layerLogs && w.db.layerLogs[k] == w.layers[k].log)
    && (forall k :: k in w.layers ==> k in w.db.children && w.db.children[k] == w.layers[k].children)
  }

  lemma {:induction false} LoadFinds(w: World, k: StateKey)
    requires Linked(w) && Mirrored(w) && RowsFound(w) && k in w.layers
    ensures Load(w.db, w.layers[k].parent, k) == Some(Cold(w, Desc(w, k)))
    decreases Above(w.db, k.height), 0
  {
    var node := w.layers[k];
    assert w.db.layerLogs[k] == node.log && w.db.children[k] == node.children;
    assert k in Above(w.db, k.height) - Above(w.db, k.height + 1);
    ListedAreHere(w, Layer(k));
    LoadAllFinds(w, Layer(k), k.height + 1, node.children);
    LoadUnfold(w.db, node.parent, k, Cold(w, Subtrees(w, k.height + 1, node.children)));
    SubtreesOfChildren(w, k);
    ColdNode(w, k, Subtrees(w, k.height + 1, node.children));
  }

  lemma {:induction false} LoadAllFinds(w: World, r: Parent, h: nat, hashes: seq<Hash>)
    requires Linked(w) && Mirrored(w) && RowsFound(w) && ChildrenHere(w, r, h, hashes)
    ensures LoadAll(w.db, r, h, hashes) == Some(Cold(w, Subtrees(w, h, hashes)))
    decreases Above(w.db, h), |hashes| + 1
  {
    if hashes != [] {
      var k, rest := StateKey(h, hashes[0]), hashes[1..];
      assert ChildrenHere(w, r, h, rest);
      LoadFinds(w, k);
      LoadAllFinds(w, r, h, rest);
      ColdUnion(w, Desc(w, k), Subtrees(w, h, rest));
    }
  }

  /** An archive is determined by the states it holds. */
  lemma ArchiveIsIndex(archive: map<nat, set<Hash>>, live: set<StateKey>)
    requires forall k: StateKey :: Has(archive, k) <==> k in live
    requires forall h :: h in archive ==> archive[h] != {}
    ensures archive == Indexed(live)
  {
    forall h: nat, c: Hash ensures h in archive && c in archive[h] <==> c in RootsAt(live, h) {
      assert Has(archive, StateKey(h, c)) <==> h in archive && c in archive[h];
      if StateKey(h, c) in live { assert StateKey(h, c).root in RootsAt(live, h); }
    }
    forall h: nat ensures h in archive <==> h in Indexed(live) {
      if h in archive {
        var c :| c in archive[h];
        assert Has(archive, StateKey(h, c));
        assert StateKey(h, c).height in (set k | k in live :: k.height);
      }
      if h in Indexed(live) {
        var k :| k in live && k.height == h;
        assert Has(archive, k);
      }
    }
    forall h | h in archive ensures archive[h] == RootsAt(live, h) {
      forall c ensures c in archive[h] <==> c in RootsAt(live, h) {
        if c in RootsAt(live, h) { var k :| k in live && k.height == h && k.root == c; }
      }
    }
  }

  lemma TopLoads(w: World)
    requires Linked(w) && Mirrored(w) && RowsFound(w)
    ensures LoadAll(w.db, Persisted, w.top.height + 1, w.topChildren) == Some(Cold(w, w.layers.Keys))
  {
    ListedAreHere(w, Persisted);
    LoadAllFinds(w, Persisted, w.top.height + 1, w.topChildren);
    SubtreesOfTop(w);
  }

  lemma ArchiveRebuilt(w: World)
    requires ArchiveOk(w)
    ensures w.archive == Indexed(w.layers.Keys + {w.top})
  {
    ArchiveIsIndex(w.archive, w.layers.Keys + {w.top});
  }

  /** Restarting from the stored rows yields the tree, the archive index and the child lists that were in memory. */
  lemma RestartIsContinuing(w: World)
    requires TreeOk(w)
    ensures Reload(w.db) == Some(Restarted(w))
  {
    StoredRows(w);
    FoundAgain(w);
  }

  /** Rows that belong to no layer in memory, and that no child list names, make no difference. */
  lemma FoundAgain(w: World)
    requires Linked(w) && Mirrored(w) && ArchiveOk(w) && RowsFound(w)
    requires w.db.persisted == Some(w.top) && w.top in w.db.children && w.db.children[w.top] == w.topChildren
    ensures Reload(w.db) == Some(Restarted(w))
  {
    TopLoads(w);
    ArchiveRebuilt(w);
    RestartFrom(w, Cold(w, w.layers.Keys));
  }

  lemma RestartFrom(w: World, layers: map<StateKey, Node>)
    requires w.db.persisted == Some(w.top) && w.top in w.db.children && w.db.children[w.top] == w.topChildren
    requires LoadAll(w.db, Persisted, w.top.height + 1, w.topChildren) == Some(layers)
    requires layers == Cold(w, w.layers.Keys) && w.archive == Indexed(w.layers.Keys + {w.top})
    ensures Reload(w.db) == Some(Restarted(w))
  {
    assert layers.Keys == w.layers.Keys;
    ReloadUnfold(w.db, w.top, layers);
  }

  lemma StoredRows(w: World)
    requires StoredOk(w)
    ensures RowsFound(w)
    ensures w.db.persisted == Some(w.top) && w.top in w.db.children && w.db.children[w.top] == w.topChildren
  {
  }

  lemma ReloadUnfold(db: Database, top: StateKey, layers: map<StateKey, Node>)
    requires db.persisted == Some(top) && top in db.children
    requires LoadAll(db, Persisted, top.height + 1, db.children[top]) == Some(layers)
    ensures Reload(db) == Some(World(db, Indexed(layers.Keys + {top}), top, db.children[top], layers))
  {
  }
}
