/** Pruning: the persisted state swallows one child, its other children are destroyed, its grandchildren re-parented. */
module LayerPrune {
  import opened Types
  import opened Views
  import opened Database
  import opened LayerTree
  import opened LayerSteps

  // ----------------------------------------------------------------- one step

  /** The layers above the swallowed child. */
  function Survivors(w: World, c: Hash): set<StateKey>
    requires Linked(w)
  {
    set k | k in w.layers && Branch(w, k) == c && k != ChildKey(w, Persisted, c)
  }

  /** The subtrees of the swallowed child's siblings. */
  function Doomed(w: World, c: Hash): set<StateKey>
    requires Linked(w)
  {
    set k | k in w.layers && Branch(w, k) != c
  }

  /** UpdateParent, called on the children of the swallowed layer. */
  function Adopt(ck: StateKey, node: Node): Node {
    if node.parent == Layer(ck) then node.(parent := Persisted) else node
  }

  /**
   The rows left when the siblings are destroyed and the child lists and layer log of the swallowed step are deleted.
   */
  function RowsLeft(w: World, c: Hash): Database
    requires Linked(w)
  {
    w.db.(children := w.db.children - Doomed(w, c) - {w.top},
          layerLogs := w.db.layerLogs - Doomed(w, c) - {ChildKey(w, Persisted, c)})
  }

  function PruneOne(w: World, c: Hash): World
    requires Linked(w) && ChildKey(w, Persisted, c) in w.layers
  {
    var ck := ChildKey(w, Persisted, c);
    var node := w.layers[ck];
    World(PersistOnto(RowsLeft(w, c), w.db, node.log),
          Register(Unindexed(Deregister(w.archive, w.top), Doomed(w, c)), ck),
          KeyOf(node.log),
          node.children,
          map k | k in Survivors(w, c) :: Adopt(ck, w.layers[k]))
  }

  // --------------------------------------------------------------- structure

  ghost predicate CanPrune(w: World, c: Hash) {
    && Linked(w)
    && ChildKey(w, Persisted, c) in w.layers
    && w.layers[ChildKey(w, Persisted, c)].parent.Persisted?
  }

  lemma ChildCanBePruned(w: World, c: Hash)
    requires TreeOk(w) && c in w.topChildren
    ensures CanPrune(w, c)
  {
    assert Listed(w, Persisted, ChildKey(w, Persisted, c));
  }

  /** A survivor hangs, possibly through other survivors, from the swallowed child. */
  lemma SurvivorParent(w: World, c: Hash, k: StateKey)
    requires CanPrune(w, c) && k in Survivors(w, c)
    ensures w.layers[k].parent.Layer?
    ensures var p := w.layers[k].parent.key; p in w.layers && (p == ChildKey(w, Persisted, c) || p in Survivors(w, c))
  {
  }

  lemma ChildOfSurvivor(w: World, c: Hash, k: StateKey)
    requires CanPrune(w, c) && k in w.layers && w.layers[k].parent.Layer?
    requires w.layers[k].parent.key == ChildKey(w, Persisted, c) || w.layers[k].parent.key in Survivors(w, c)
    ensures k in Survivors(w, c)
  {
    assert Branch(w, k) == Branch(w, w.layers[k].parent.key);
    assert w.layers[k].parent != w.layers[ChildKey(w, Persisted, c)].parent;
  }

  lemma PruneNode(w: World, c: Hash, k: StateKey)
    requires CanPrune(w, c) && k in Survivors(w, c)
    ensures var w', ck := PruneOne(w, c), ChildKey(w, Persisted, c);
            && w'.top == ck && k in w'.layers
            && w'.layers[k].log == w.layers[k].log
            && w'.layers[k].children == w.layers[k].children
            && w'.layers[k].cache == w.layers[k].cache
            && w'.layers[k].parent == if w.layers[k].parent == Layer(ck) then Persisted else w.layers[k].parent
  {
    var w', ck := PruneOne(w, c), ChildKey(w, Persisted, c);
    assert KeyOf(w.layers[ck].log) == ck;
    assert w'.layers[k] == Adopt(ck, w.layers[k]);
  }

  lemma PruneLinked(w: World, c: Hash)
    requires CanPrune(w, c)
    ensures Linked(PruneOne(w, c))
  {
    var w', ck := PruneOne(w, c), ChildKey(w, Persisted, c);
    forall k | k in w'.layers
      ensures KeyOf(w'.layers[k].log) == k && Live(w', w'.layers[k].parent)
      ensures k.height == ParentKey(w', w'.layers[k].parent).height + 1
    {
      PruneNode(w, c, k);
      SurvivorParent(w, c, k);
    }
  }

  lemma PruneListed(w: World, c: Hash, p: Parent, j: StateKey)
    requires CanPrune(w, c) && Mirrored(w)
    requires Live(PruneOne(w, c), p) && Listed(PruneOne(w, c), p, j)
    ensures j in PruneOne(w, c).layers && PruneOne(w, c).layers[j].parent == p
  {
    var ck := ChildKey(w, Persisted, c);
    var q := if p.Persisted? then Layer(ck) else p;
    if p.Layer? { PruneNode(w, c, p.key); }
    assert Listed(w, q, j);
    ChildOfSurvivor(w, c, j);
    PruneNode(w, c, j);
  }

  lemma PruneLists(w: World, c: Hash, j: StateKey)
    requires CanPrune(w, c) && Mirrored(w) && j in Survivors(w, c)
    ensures Listed(PruneOne(w, c), PruneOne(w, c).layers[j].parent, j)
  {
    PruneNode(w, c, j);
    SurvivorParent(w, c, j);
    assert Listed(w, w.layers[j].parent, j);
    var p := w.layers[j].parent.key;
    if p in Survivors(w, c) { PruneNode(w, c, p); }
  }

  lemma PruneMirrored(w: World, c: Hash)
    requires CanPrune(w, c) && Mirrored(w)
    ensures Mirrored(PruneOne(w, c))
  {
    var w' := PruneOne(w, c);
    forall p: Parent, j: StateKey | Live(w', p) && Listed(w', p, j) ensures j in w'.layers && w'.layers[j].parent == p {
      PruneListed(w, c, p, j);
    }
    forall j | j in w'.layers ensures Listed(w', w'.layers[j].parent, j) { PruneLists(w, c, j); }
  }

  lemma PruneListsOk(w: World, c: Hash)
    requires CanPrune(w, c) && ListsOk(w)
    ensures ListsOk(PruneOne(w, c))
  {
    var w', ck := PruneOne(w, c), ChildKey(w, Persisted, c);
    forall p: Parent | Live(w', p) ensures NoDuplicates(ChildrenOf(w', p)) {
      var q := if p.Persisted? then Layer(ck) else p;
      if p.Layer? { PruneNode(w, c, p.key); }
      assert Live(w, q) && ChildrenOf(w', p) == ChildrenOf(w, q);
    }
  }

  lemma HasDeregister(archive: map<nat, set<Hash>>, k: StateKey, j: StateKey)
    ensures Has(Deregister(archive, k), j) <==> Has(archive, j) && j != k
  {
    if k.height in archive && j.height == k.height {
      assert j == k <==> j.root == k.root;
      assert Has(archive, j) && j != k <==> j.root in archive[k.height] - {k.root};
    }
  }

  lemma DeregisterNonempty(archive: map<nat, set<Hash>>, k: StateKey)
    requires forall h :: h in archive ==> archive[h] != {}
    ensures forall h :: h in Deregister(archive, k) ==> Deregister(archive, k)[h] != {}
  {
  }

  lemma PruneArchiveAt(w: World, c: Hash, k: StateKey)
    requires CanPrune(w, c) && ArchiveOk(w) && Linked(w)
    ensures Has(PruneOne(w, c).archive, k) <==> k == PruneOne(w, c).top || k in PruneOne(w, c).layers
  {
    var left := Unindexed(Deregister(w.archive, w.top), Doomed(w, c));
    HasDeregister(w.archive, w.top, k);
    HasUnindexed(Deregister(w.archive, w.top), Doomed(w, c), k);
    assert Has(PruneOne(w, c).archive, k) <==> Has(left, k) || k == ChildKey(w, Persisted, c);
    if k == w.top && k in w.layers { TopIsBelow(w, k); }
  }

  lemma PruneArchive(w: World, c: Hash)
    requires CanPrune(w, c) && ArchiveOk(w)
    ensures ArchiveOk(PruneOne(w, c))
  {
    forall k: StateKey
      ensures Has(PruneOne(w, c).archive, k) <==> k == PruneOne(w, c).top || k in PruneOne(w, c).layers
    {
      PruneArchiveAt(w, c, k);
    }
    DeregisterNonempty(w.archive, w.top);
  }

  lemma {:induction false} TopIsBelow(w: World, k: StateKey)
    requires Linked(w) && k in w.layers
    ensures w.top.height < k.height
    decreases k.height
  {
    if w.layers[k].parent.Layer? { TopIsBelow(w, w.layers[k].parent.key); }
  }

  lemma PruneRows(w: World, c: Hash)
    requires CanPrune(w, c)
    ensures var db := PruneOne(w, c).db;
            && db.children == RowsLeft(w, c).children
            && db.layerLogs == RowsLeft(w, c).layerLogs
            && db.persisted == Some(ChildKey(w, Persisted, c))
  {
    assert KeyOf(w.layers[ChildKey(w, Persisted, c)].log) == ChildKey(w, Persisted, c);
  }

  /** The rows that are left describe the layers that are left. */
  lemma StoredLeft(w: World, w': World, ck: StateKey, gone: set<StateKey>)
    requires StoredOk(w) && ck in w.layers && ck !in gone && w'.top == ck
    requires w'.layers.Keys == w.layers.Keys - gone - {ck}
    requires forall k {:trigger w'.layers[k]} :: k in w'.layers ==>
               w'.layers[k].log == w.layers[k].log && w'.layers[k].children == w.layers[k].children
    requires w'.topChildren == w.layers[ck].children && w'.db.persisted == Some(ck)
    requires gone <= w.layers.Keys
    requires w'.db.children == w.db.children - gone - {w.top} && w'.db.layerLogs == w.db.layerLogs - gone - {ck}
    ensures StoredOk(w')
  {
    assert w'.db.layerLogs.Keys == w'.layers.Keys;
    assert w'.db.children.Keys == w'.layers.Keys + {ck};
  }

  lemma PruneKeys(w: World, c: Hash)
    requires CanPrune(w, c)
    ensures Survivors(w, c) == w.layers.Keys - Doomed(w, c) - {ChildKey(w, Persisted, c)}
    ensures PruneOne(w, c).layers.Keys == Survivors(w, c)
    ensures ChildKey(w, Persisted, c) !in Doomed(w, c) && Doomed(w, c) <= w.layers.Keys
  {
  }

  lemma SurvivorsAreAbove(w: World, c: Hash)
    requires CanPrune(w, c)
    ensures Survivors(w, c) == Desc(w, ChildKey(w, Persisted, c)) - {ChildKey(w, Persisted, c)}
  {
    forall k | k in w.layers ensures Branch(w, k) == c <==> IsDesc(w, ChildKey(w, Persisted, c), k) {
      BranchIsDesc(w, k, c);
    }
  }

  /** The layers that survive are those above the swallowed child. */
  lemma PruneKeepsAbove(w: World, c: Hash)
    requires CanPrune(w, c)
    ensures PruneOne(w, c).layers.Keys == Desc(w, ChildKey(w, Persisted, c)) - {ChildKey(w, Persisted, c)}
  {
    PruneKeys(w, c);
    SurvivorsAreAbove(w, c);
  }

  lemma PruneStored(w: World, c: Hash)
    requires CanPrune(w, c) && StoredOk(w)
    ensures StoredOk(PruneOne(w, c))
  {
    PruneRows(w, c);
    PruneKeys(w, c);
    var w' := PruneOne(w, c);
    forall k | k in w'.layers
      ensures w'.layers[k].log == w.layers[k].log && w'.layers[k].children == w.layers[k].children
    {
      PruneNode(w, c, k);
    }
    PruneTop(w, c);
    StoredLeft(w, w', ChildKey(w, Persisted, c), Doomed(w, c));
  }

  lemma PruneTop(w: World, c: Hash)
    requires CanPrune(w, c)
    ensures PruneOne(w, c).top == ChildKey(w, Persisted, c)
    ensures PruneOne(w, c).topChildren == w.layers[ChildKey(w, Persisted, c)].children
  {
    assert KeyOf(w.layers[ChildKey(w, Persisted, c)].log) == ChildKey(w, Persisted, c);
  }

  // ---------------------------------------------------------------- contents

  /** The persisted state shows, after the step, what the swallowed child showed. */
  lemma PrunedBase(keccak: Hasher, w: World, c: Hash)
    requires Hashes(keccak) && CanPrune(w, c) && LogsOk(keccak, w)
    ensures DatabaseOk(keccak, PruneOne(w, c).db)
    ensures LiveEq(ViewAt(w, Layer(ChildKey(w, Persisted, c))), Base(PruneOne(w, c).db))
  {
    var ck := ChildKey(w, Persisted, c);
    assert FitsAt(keccak, w, ck);
    PersistKeepsDatabase(keccak, RowsLeft(w, c), w.db, w.layers[ck].log);
  }

  /** w' keeps some layers of w, those of ck's children re-parented to the persisted state. */
  ghost predicate Swallowed(w: World, w': World, ck: StateKey) {
    && ck in w.layers && w'.layers.Keys <= w.layers.Keys
    && (forall k {:trigger w'.layers[k]} :: k in w'.layers ==>
          && w'.layers[k].log == w.layers[k].log
          && w'.layers[k].cache == w.layers[k].cache
          && w.layers[k].parent.Layer?
          && w'.layers[k].parent == if w.layers[k].parent == Layer(ck) then Persisted else w.layers[k].parent)
  }

  lemma PruneSwallows(w: World, c: Hash)
    requires CanPrune(w, c)
    ensures Swallowed(w, PruneOne(w, c), ChildKey(w, Persisted, c))
  {
    forall k | k in Survivors(w, c) ensures w.layers[k].parent.Layer? { SurvivorParent(w, c, k); }
  }

  /** Pruning is invisible to every surviving layer. */
  lemma {:induction false} SwallowedView(keccak: Hasher, w: World, w': World, ck: StateKey, k: StateKey)
    requires Linked(w) && Linked(w') && LogsFit(keccak, w) && Swallowed(w, w', ck) && k in w'.layers
    requires LiveEq(ViewAt(w, Layer(ck)), Base(w'.db))
    ensures LiveEq(ViewAt(w, w.layers[k].parent), ViewAt(w', w'.layers[k].parent))
    ensures LiveEq(ViewAt(w, Layer(k)), ViewAt(w', Layer(k)))
    decreases k.height
  {
    var node := w'.layers[k];
    assert w.layers[k].log == node.log && FitsAt(keccak, w, k);
    if node.parent.Layer? { SwallowedView(keccak, w, w', ck, node.parent.key); }
    OverLiveEq(keccak, node.log, ViewAt(w, w.layers[k].parent), ViewAt(w', node.parent));
  }

  lemma SwallowedContents(keccak: Hasher, w: World, w': World, ck: StateKey)
    requires Linked(w) && Linked(w') && LogsOk(keccak, w) && CachesOk(w) && Swallowed(w, w', ck)
    requires DatabaseOk(keccak, w'.db) && LiveEq(ViewAt(w, Layer(ck)), Base(w'.db))
    ensures LogsOk(keccak, w') && CachesOk(w')
  {
    forall k | k in w'.layers ensures FitsAt(keccak, w', k) && CachedAt(w', k) {
      assert w'.layers[k].log == w.layers[k].log && FitsAt(keccak, w, k) && CachedAt(w, k);
      SwallowedView(keccak, w, w', ck, k);
      LogFitsLiveEq(keccak, w.layers[k].log, ViewAt(w, w.layers[k].parent), ViewAt(w', w'.layers[k].parent));
      CacheOkLiveEq(w.layers[k].cache, ViewAt(w, Layer(k)), ViewAt(w', Layer(k)));
    }
  }

  lemma PruneTree(w: World, c: Hash)
    requires TreeOk(w) && CanPrune(w, c)
    ensures TreeOk(PruneOne(w, c))
  {
    PruneLinked(w, c);
    PruneMirrored(w, c);
    PruneListsOk(w, c);
    PruneArchive(w, c);
    PruneStored(w, c);
  }

  /** The state that a surviving key named before a prune step. */
  function Before(w: World, c: Hash, r: Parent): Parent {
    if r.Persisted? then Layer(ChildKey(w, Persisted, c)) else r
  }

  /** One prune step keeps every invariant, and every state that is left shows what it showed under the same key. */
  lemma PruneOneOk(keccak: Hasher, w: World, c: Hash)
    requires Hashes(keccak) && WorldOk(keccak, w) && c in w.topChildren
    ensures CanPrune(w, c) && WorldOk(keccak, PruneOne(w, c))
    ensures Live(w, Layer(ChildKey(w, Persisted, c))) && PruneOne(w, c).top == ChildKey(w, Persisted, c)
    ensures LiveEq(ViewAt(w, Layer(ChildKey(w, Persisted, c))), ViewAt(PruneOne(w, c), Persisted))
    ensures forall k :: k in PruneOne(w, c).layers ==>
              k in w.layers && LiveEq(ViewAt(w, Layer(k)), ViewAt(PruneOne(w, c), Layer(k)))
    ensures PruneOne(w, c).layers.Keys == Desc(w, ChildKey(w, Persisted, c)) - {ChildKey(w, Persisted, c)}
  {
    ChildCanBePruned(w, c);
    PruneTree(w, c);
    PruneKeepsAbove(w, c);
    PrunedBase(keccak, w, c);
    PruneSwallows(w, c);
    PruneContents(keccak, w, PruneOne(w, c), c);
  }

  lemma PruneContents(keccak: Hasher, w: World, w': World, c: Hash)
    requires CanPrune(w, c) && LogsOk(keccak, w) && CachesOk(w) && Linked(w')
    requires Swallowed(w, w', ChildKey(w, Persisted, c))
    requires DatabaseOk(keccak, w'.db) && LiveEq(ViewAt(w, Layer(ChildKey(w, Persisted, c))), Base(w'.db))
    ensures LogsOk(keccak, w') && CachesOk(w')
    ensures forall k :: k in w'.layers ==> LiveEq(ViewAt(w, Layer(k)), ViewAt(w', Layer(k)))
  {
    var ck := ChildKey(w, Persisted, c);
    SwallowedContents(keccak, w, w', ck);
    forall k | k in w'.layers ensures LiveEq(ViewAt(w, Layer(k)), ViewAt(w', Layer(k))) {
      SwallowedView(keccak, w, w', ck, k);
    }
  }
}
