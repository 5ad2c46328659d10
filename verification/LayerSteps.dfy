/** The operations on the layer tree and the invariant each of them keeps. */
module LayerSteps {
  import opened Types
  import opened Views
  import opened Database
  import opened LayerTree

  // --------------------------------------------------------------- subtrees

  /** j is k or lies above it. */
  predicate IsDesc(w: World, k: StateKey, j: StateKey)
    requires Linked(w)
    decreases j.height
  {
    j in w.layers && (j == k || (w.layers[j].parent.Layer? && IsDesc(w, k, w.layers[j].parent.key)))
  }

  function Desc(w: World, k: StateKey): set<StateKey>
    requires Linked(w)
  {
    set j | j in w.layers && IsDesc(w, k, j)
  }

  /** The child of the persisted state that a layer descends from. */
  function Branch(w: World, k: StateKey): Hash
    requires Linked(w) && k in w.layers
    decreases k.height
  {
    if w.layers[k].parent.Persisted? then k.root else Branch(w, w.layers[k].parent.key)
  }

  lemma {:induction false} BranchIsDesc(w: World, k: StateKey, c: Hash)
    requires Linked(w) && k in w.layers
    requires StateKey(w.top.height + 1, c) in w.layers && w.layers[StateKey(w.top.height + 1, c)].parent.Persisted?
    ensures Branch(w, k) == c <==> IsDesc(w, StateKey(w.top.height + 1, c), k)
    decreases k.height
  {
    var ck := StateKey(w.top.height + 1, c);
    if w.layers[k].parent.Layer? {
      BranchIsDesc(w, w.layers[k].parent.key, c);
      assert k != ck;
    }
  }

  lemma {:induction false} DescTransitive(w: World, k: StateKey, j: StateKey, i: StateKey)
    requires Linked(w) && IsDesc(w, k, j) && IsDesc(w, j, i)
    ensures IsDesc(w, k, i)
    decreases i.height
  {
    if i != j { DescTransitive(w, k, j, w.layers[i].parent.key); }
  }

  /** Destroying k's subtree destroys k and the subtrees of its listed children, and nothing else. */
  lemma {:induction false} DescByChildren(w: World, k: StateKey, j: StateKey)
    requires Linked(w) && Mirrored(w) && k in w.layers
    ensures IsDesc(w, k, j) <==> j == k || exists c: StateKey :: Listed(w, Layer(k), c) && IsDesc(w, c, j)
    decreases j.height
  {
    if IsDesc(w, k, j) && j != k {
      var p := w.layers[j].parent.key;
      DescByChildren(w, k, p);
      if p == k {
        assert Listed(w, Layer(k), j) && IsDesc(w, j, j);
      } else {
        var c: StateKey :| Listed(w, Layer(k), c) && IsDesc(w, c, p);
        assert IsDesc(w, c, j);
      }
    }
    forall c: StateKey | Listed(w, Layer(k), c) && IsDesc(w, c, j) ensures IsDesc(w, k, j) {
      assert IsDesc(w, k, k) && IsDesc(w, k, c);
      DescTransitive(w, k, c, j);
    }
  }

  // ------------------------------------------------------- what stays the same

  /** Layers that keep their log, and their place on a base that looks the same, keep their view. */
  lemma {:induction false} ViewKept(keccak: Hasher, w: World, w': World, keep: set<StateKey>, r: Parent)
    requires Linked(w) && Linked(w') && LogsFit(keccak, w)
    requires LiveEq(Base(w.db), Base(w'.db))
    requires Kept(w, w', keep)
    requires r.Layer? ==> r.key in keep
    ensures LiveEq(ViewAt(w, r), ViewAt(w', r))
    decreases Rank(r)
  {
    if r.Layer? {
      var node := w.layers[r.key];
      assert FitsAt(keccak, w, r.key);
      ViewKept(keccak, w, w', keep, node.parent);
      OverLiveEq(keccak, node.log, ViewAt(w, node.parent), ViewAt(w', node.parent));
    }
  }

  ghost predicate Kept(w: World, w': World, keep: set<StateKey>) {
    && keep <= w.layers.Keys && keep <= w'.layers.Keys
    && (forall k {:trigger w.layers[k]} {:trigger w'.layers[k]} :: k in keep ==>
          && w.layers[k].log == w'.layers[k].log
          && w.layers[k].parent == w'.layers[k].parent
          && (w.layers[k].parent.Layer? ==> w.layers[k].parent.key in keep))
  }

  /** A layer that keeps its log, place and cache keeps its view and its invariants. */
  lemma LayerKept(keccak: Hasher, w: World, w': World, keep: set<StateKey>, k: StateKey)
    requires Linked(w) && Linked(w') && LogsOk(keccak, w) && CachesOk(w)
    requires LiveEq(Base(w.db), Base(w'.db))
    requires Kept(w, w', keep) && k in keep
    requires w'.layers[k].cache == w.layers[k].cache
    ensures LiveEq(ViewAt(w, Layer(k)), ViewAt(w', Layer(k)))
    ensures FitsAt(keccak, w', k) && CachedAt(w', k)
  {
    assert FitsAt(keccak, w, k) && CachedAt(w, k);
    var r := w.layers[k].parent;
    ViewKept(keccak, w, w', keep, r);
    ViewKept(keccak, w, w', keep, Layer(k));
    LogFitsLiveEq(keccak, w.layers[k].log, ViewAt(w, r), ViewAt(w', r));
    CacheOkLiveEq(w.layers[k].cache, ViewAt(w, Layer(k)), ViewAt(w', Layer(k)));
  }

  /** Everything live in w' was live in w with the same log, parent and cache: all invariants on contents carry over. */
  lemma ContentsKept(keccak: Hasher, w: World, w': World)
    requires Linked(w) && Linked(w') && LogsOk(keccak, w) && CachesOk(w)
    requires DatabaseOk(keccak, w'.db) && LiveEq(Base(w.db), Base(w'.db))
    requires Kept(w, w', w'.layers.Keys)
    requires forall k :: k in w'.layers ==> w'.layers[k].cache == w.layers[k].cache
    ensures LogsOk(keccak, w') && CachesOk(w')
    ensures forall r: Parent :: Live(w', r) ==> LiveEq(ViewAt(w, r), ViewAt(w', r))
  {
    forall r: Parent | Live(w', r) ensures LiveEq(ViewAt(w, r), ViewAt(w', r)) {
      ViewKept(keccak, w, w', w'.layers.Keys, r);
    }
    forall k | k in w'.layers ensures FitsAt(keccak, w', k) && CachedAt(w', k) {
      LayerKept(keccak, w, w', w'.layers.Keys, k);
    }
  }

  lemma LiveEqReflexive(u: View)
    ensures LiveEq(u, u)
  {
  }

  /** The state rows alone determine what the persisted state shows. */
  lemma SameRowsSameBase(keccak: Hasher, db: Database, db': Database)
    requires SameStateRows(db', db) && DatabaseOk(keccak, db)
    ensures DatabaseOk(keccak, db') && LiveEq(Base(db), Base(db'))
  {
    var u, w := Base(db), Base(db');
    forall a: Address ensures u.acct(a) == w.acct(a) {}
    forall a: Address, v: nat, k: Hash ensures u.slot(a, v, k) == w.slot(a, v, k) {}
    forall h: Hash ensures u.code(h) == w.code(h) && Holders(u, h) == Holders(w, h) { SameHolders(u, w, h); }
    ViewOkCopy(keccak, u, w);
  }

  // ------------------------------------------------------------- add a layer

  /** AddChild and the child list update of DestructChild: memory and store together. */
  function SetChildren(w: World, r: Parent, list: seq<Hash>): World
    requires Live(w, r)
  {
    var db := w.db.(children := w.db.children[ParentKey(w, r) := list]);
    if r.Persisted? then w.(db := db, topChildren := list)
    else w.(db := db, layers := w.layers[r.key := w.layers[r.key].(children := list)])
  }

  /** The new layer's own rows and object: PutChildren, PutLayerLog and newLayeredWorldState. */
  function NewLayer(w: World, r: Parent, log: LayerLog): World {
    var k := KeyOf(log);
    w.(db := w.db.(children := w.db.children[k := []], layerLogs := w.db.layerLogs[k := log]),
       archive := Register(w.archive, k),
       layers := w.layers[k := Node(r, log, [], NO_CACHE)])
  }

  /** tempCommittedState.Commit up to, but not including, HandlePrune. */
  function AddLayer(w: World, r: Parent, log: LayerLog): World
    requires Live(w, r)
  {
    SetChildren(NewLayer(w, r, log), r, ChildrenOf(w, r) + [log.rootHash])
  }

  ghost predicate CanAdd(keccak: Hasher, w: World, r: Parent, log: LayerLog)
    requires Linked(w)
  {
    && Live(w, r)
    && log.blockNumber == ParentKey(w, r).height + 1
    && !Has(w.archive, KeyOf(log))
    && LogFits(keccak, log, ViewAt(w, r))
  }

  lemma AddLayerLinked(w: World, r: Parent, log: LayerLog)
    requires Linked(w) && Live(w, r) && log.blockNumber == ParentKey(w, r).height + 1 && KeyOf(log) !in w.layers
    ensures Linked(AddLayer(w, r, log))
  {
    var w' := AddLayer(w, r, log);
    forall j | j in w'.layers
      ensures KeyOf(w'.layers[j].log) == j && Live(w', w'.layers[j].parent)
      ensures j.height == ParentKey(w', w'.layers[j].parent).height + 1
    {
      if j != KeyOf(log) { assert w'.layers[j].parent == w.layers[j].parent; }
    }
  }

  function GrownList(w: World, r: Parent, k: StateKey, p: Parent): seq<Hash> {
    if p == r then ChildrenOf(w, r) + [k.root] else if p == Layer(k) then [] else ChildrenOf(w, p)
  }

  lemma AddLayerLists(w: World, r: Parent, log: LayerLog)
    requires Linked(w) && Live(w, r) && KeyOf(log) !in w.layers && r != Layer(KeyOf(log))
    ensures var w', k := AddLayer(w, r, log), KeyOf(log);
            && w'.top == w.top && w'.layers.Keys == w.layers.Keys + {k} && w'.layers[k].parent == r
            && (forall j :: j in w.layers ==> w'.layers[j].parent == w.layers[j].parent)
            && (forall p: Parent :: Live(w', p) ==> ChildrenOf(w', p) == GrownList(w, r, k, p))
  {
    var mid, k := NewLayer(w, r, log), KeyOf(log);
    SetChildrenLists(mid, r, ChildrenOf(w, r) + [k.root]);
    forall p: Parent | Live(mid, p) ensures ChildrenOf(mid, p) == if p == Layer(k) then [] else ChildrenOf(w, p) {}
  }

  lemma ChildrenGrown(w: World, w': World, r: Parent, k: StateKey)
    requires Mirrored(w) && ListsOk(w) && Live(w, r) && k !in w.layers && k.height == ParentKey(w, r).height + 1
    requires w'.top == w.top && w'.layers.Keys == w.layers.Keys + {k} && w'.layers[k].parent == r
    requires forall j :: j in w.layers ==> w'.layers[j].parent == w.layers[j].parent && Live(w, w.layers[j].parent)
    requires forall p: Parent :: Live(w', p) ==> ChildrenOf(w', p) == GrownList(w, r, k, p)
    ensures Mirrored(w') && ListsOk(w')
  {
    NotYetListed(w, r, k);
    forall p: Parent, j: StateKey | Live(w', p) && Listed(w', p, j) ensures j in w'.layers && w'.layers[j].parent == p {
      GrownListed(w, w', r, k, p, j);
    }
    forall j | j in w'.layers ensures Listed(w', w'.layers[j].parent, j) { GrownLists(w, w', r, k, j); }
    forall p: Parent | Live(w', p) ensures NoDuplicates(ChildrenOf(w', p)) { GrownOnce(w, r, k, p); }
  }

  lemma GrownLists(w: World, w': World, r: Parent, k: StateKey, j: StateKey)
    requires Mirrored(w) && Live(w, r) && k !in w.layers && k.height == ParentKey(w, r).height + 1
    requires w'.top == w.top && w'.layers.Keys == w.layers.Keys + {k} && w'.layers[k].parent == r && j in w'.layers
    requires j in w.layers ==> w'.layers[j].parent == w.layers[j].parent && Live(w, w.layers[j].parent)
    requires ChildrenOf(w', w'.layers[j].parent) == GrownList(w, r, k, w'.layers[j].parent)
    ensures Listed(w', w'.layers[j].parent, j)
  {
    if j != k { assert Listed(w, w.layers[j].parent, j); }
  }

  lemma NotYetListed(w: World, r: Parent, k: StateKey)
    requires Mirrored(w) && Live(w, r) && k !in w.layers && k.height == ParentKey(w, r).height + 1
    ensures k.root !in ChildrenOf(w, r)
  {
    assert Listed(w, r, k) ==> k in w.layers;
  }

  lemma GrownOnce(w: World, r: Parent, k: StateKey, p: Parent)
    requires ListsOk(w) && Live(w, r) && k.root !in ChildrenOf(w, r) && (p != Layer(k) ==> Live(w, p))
    ensures NoDuplicates(GrownList(w, r, k, p))
  {
    assert NoDuplicates(ChildrenOf(w, r));
    if p != Layer(k) { assert NoDuplicates(ChildrenOf(w, p)); }
  }

  lemma GrownListed(w: World, w': World, r: Parent, k: StateKey, p: Parent, j: StateKey)
    requires Mirrored(w) && Live(w, r) && k !in w.layers && k.height == ParentKey(w, r).height + 1
    requires w'.top == w.top && w'.layers.Keys == w.layers.Keys + {k} && w'.layers[k].parent == r
    requires j in w.layers ==> w'.layers[j].parent == w.layers[j].parent
    requires Live(w', p) && ChildrenOf(w', p) == GrownList(w, r, k, p) && Listed(w', p, j)
    ensures j in w'.layers && w'.layers[j].parent == p
  {
    if p != r || j != k { assert Listed(w, p, j); }
  }

  lemma AddLayerChildren(w: World, r: Parent, log: LayerLog)
    requires Linked(w) && Mirrored(w) && ListsOk(w) && Live(w, r)
    requires log.blockNumber == ParentKey(w, r).height + 1 && KeyOf(log) !in w.layers
    ensures Mirrored(AddLayer(w, r, log)) && ListsOk(AddLayer(w, r, log))
  {
    AddLayerLists(w, r, log);
    ChildrenGrown(w, AddLayer(w, r, log), r, KeyOf(log));
  }

  lemma AddLayerArchive(w: World, r: Parent, log: LayerLog)
    requires ArchiveOk(w) && Live(w, r)
    ensures ArchiveOk(AddLayer(w, r, log))
  {
    var w', k := AddLayer(w, r, log), KeyOf(log);
    forall j: StateKey ensures Has(w'.archive, j) <==> Has(w.archive, j) || j == k {}
    assert w'.layers.Keys == w.layers.Keys + {k};
  }

  lemma AddLayerStored(w: World, r: Parent, log: LayerLog)
    requires StoredOk(w) && Live(w, r) && KeyOf(log) !in w.layers && KeyOf(log) != w.top
    ensures StoredOk(AddLayer(w, r, log))
  {
    var mid, k := NewLayer(w, r, log), KeyOf(log);
    assert mid.layers.Keys == w.layers.Keys + {k} && mid.db.children.Keys == w.db.children.Keys + {k};
    assert StoredOk(mid);
    SetChildrenStored(mid, r, ChildrenOf(w, r) + [k.root]);
  }

  lemma AddLayerTree(keccak: Hasher, w: World, r: Parent, log: LayerLog)
    requires TreeOk(w) && CanAdd(keccak, w, r, log)
    ensures TreeOk(AddLayer(w, r, log))
  {
    AddLayerLinked(w, r, log);
    AddLayerChildren(w, r, log);
    AddLayerArchive(w, r, log);
    AddLayerStored(w, r, log);
  }

  lemma AddLayerShape(w: World, r: Parent, log: LayerLog)
    requires Linked(w) && Live(w, r) && KeyOf(log) !in w.layers
    ensures var w', k := AddLayer(w, r, log), KeyOf(log);
            && SameStateRows(w'.db, w.db)
            && w'.layers.Keys == w.layers.Keys + {k}
            && Kept(w, w', w.layers.Keys) && (forall j :: j in w.layers ==> w'.layers[j].cache == w.layers[j].cache)
            && (r != Layer(k) ==> w'.layers[k] == Node(r, log, [], NO_CACHE))
  {
  }

  lemma AddLayerContents(keccak: Hasher, w: World, r: Parent, log: LayerLog)
    requires Linked(w) && LogsOk(keccak, w) && CachesOk(w) && CanAdd(keccak, w, r, log)
    requires KeyOf(log) !in w.layers && Linked(AddLayer(w, r, log))
    ensures LogsOk(keccak, AddLayer(w, r, log)) && CachesOk(AddLayer(w, r, log))
    ensures forall p: Parent :: Live(w, p) ==> LiveEq(ViewAt(w, p), ViewAt(AddLayer(w, r, log), p))
    ensures LiveEq(Over(log, ViewAt(w, r)), ViewAt(AddLayer(w, r, log), Layer(KeyOf(log))))
  {
    AddLayerShape(w, r, log);
    SameRowsSameBase(keccak, w.db, AddLayer(w, r, log).db);
    Grown(keccak, w, AddLayer(w, r, log), r, KeyOf(log));
  }

  /** Adding a fitting layer keeps every invariant, changes no other view, and shows the log over its parent. */
  lemma AddLayerOk(keccak: Hasher, w: World, r: Parent, log: LayerLog)
    requires WorldOk(keccak, w) && CanAdd(keccak, w, r, log)
    ensures WorldOk(keccak, AddLayer(w, r, log))
    ensures forall p: Parent :: Live(w, p) ==> LiveEq(ViewAt(w, p), ViewAt(AddLayer(w, r, log), p))
    ensures LiveEq(Over(log, ViewAt(w, r)), ViewAt(AddLayer(w, r, log), Layer(KeyOf(log))))
  {
    AddLayerTree(keccak, w, r, log);
    AddLayerContents(keccak, w, r, log);
  }

  /** One new layer, with a fitting log, over layers that are kept. */
  lemma GrownFits(keccak: Hasher, w: World, w': World, k: StateKey)
    requires Linked(w) && Linked(w') && LogsOk(keccak, w) && CachesOk(w)
    requires DatabaseOk(keccak, w'.db) && LiveEq(Base(w.db), Base(w'.db))
    requires w'.layers.Keys == w.layers.Keys + {k} && Kept(w, w', w.layers.Keys)
    requires forall j :: j in w.layers ==> w'.layers[j].cache == w.layers[j].cache
    requires FitsAt(keccak, w', k) && CachedAt(w', k)
    ensures LogsOk(keccak, w') && CachesOk(w')
  {
    forall j | j in w'.layers ensures FitsAt(keccak, w', j) && CachedAt(w', j) {
      if j in w.layers { LayerKept(keccak, w, w', w.layers.Keys, j); }
    }
  }

  /** The new layer shows its log over its parent, and every other view is kept. */
  lemma Grown(keccak: Hasher, w: World, w': World, r: Parent, k: StateKey)
    requires Linked(w) && Linked(w') && LogsOk(keccak, w) && CachesOk(w) && Live(w, r)
    requires DatabaseOk(keccak, w'.db) && LiveEq(Base(w.db), Base(w'.db))
    requires k !in w.layers && w'.layers.Keys == w.layers.Keys + {k}
    requires Kept(w, w', w.layers.Keys) && forall j :: j in w.layers ==> w'.layers[j].cache == w.layers[j].cache
    requires w'.layers[k].parent == r && w'.layers[k].cache == NO_CACHE
    requires LogFits(keccak, w'.layers[k].log, ViewAt(w, r))
    ensures LogsOk(keccak, w') && CachesOk(w')
    ensures forall p: Parent :: Live(w, p) ==> LiveEq(ViewAt(w, p), ViewAt(w', p))
    ensures LiveEq(Over(w'.layers[k].log, ViewAt(w, r)), ViewAt(w', Layer(k)))
  {
    AllViewsKept(keccak, w, w', w.layers.Keys);
    NewestFits(keccak, w'.layers[k].log, ViewAt(w, r), w', k);
    GrownFits(keccak, w, w', k);
  }

  lemma AllViewsKept(keccak: Hasher, w: World, w': World, keep: set<StateKey>)
    requires Linked(w) && Linked(w') && LogsFit(keccak, w) && LiveEq(Base(w.db), Base(w'.db))
    requires Kept(w, w', keep) && keep == w.layers.Keys
    ensures forall p: Parent :: Live(w, p) ==> LiveEq(ViewAt(w, p), ViewAt(w', p))
  {
    forall p: Parent | Live(w, p) ensures LiveEq(ViewAt(w, p), ViewAt(w', p)) { ViewKept(keccak, w, w', keep, p); }
  }

  lemma NewestFits(keccak: Hasher, log: LayerLog, u: View, w': World, k: StateKey)
    requires Linked(w') && k in w'.layers && log == w'.layers[k].log && w'.layers[k].cache == NO_CACHE
    requires LogFits(keccak, log, u) && LiveEq(u, ViewAt(w', w'.layers[k].parent))
    ensures FitsAt(keccak, w', k) && CachedAt(w', k) && LiveEq(Over(log, u), ViewAt(w', Layer(k)))
  {
    OverLiveEq(keccak, log, u, ViewAt(w', w'.layers[k].parent));
    LogFitsLiveEq(keccak, log, u, ViewAt(w', w'.layers[k].parent));
    EmptyCacheOk(ViewAt(w', Layer(k)));
  }

  // -------------------------------------------------------- destroy a subtree

  function RootsAt(dead: set<StateKey>, h: nat): set<Hash> {
    set k | k in dead && k.height == h :: k.root
  }

  /** The archive after each of these states has been deregistered. */
  function Unindexed(archive: map<nat, set<Hash>>, dead: set<StateKey>): map<nat, set<Hash>> {
    map h | h in archive && archive[h] - RootsAt(dead, h) != {} :: archive[h] - RootsAt(dead, h)
  }

  /**
   Destruct: archive entries, child lists and layer logs of these layers go; the list that names them is not touched.
   */
  function Destroyed(w: World, dead: set<StateKey>): World {
    w.(db := w.db.(children := w.db.children - dead, layerLogs := w.db.layerLogs - dead),
       archive := Unindexed(w.archive, dead),
       layers := w.layers - dead)
  }

  function Without(s: seq<Hash>, x: Hash): seq<Hash> {
    if s == [] then [] else if s[0] == x then s[1..] else [s[0]] + Without(s[1..], x)
  }

  lemma {:induction false} WithoutFacts(s: seq<Hash>, x: Hash)
    requires NoDuplicates(s)
    ensures NoDuplicates(Without(s, x))
    ensures forall y: Hash :: y in Without(s, x) <==> y in s && y != x
  {
    if s != [] {
      assert s == [s[0]] + s[1..];
      if s[0] != x {
        WithoutFacts(s[1..], x);
        assert s[0] !in s[1..];
      } else {
        assert x !in s[1..];
      }
    }
  }

  function ChildKey(w: World, r: Parent, c: Hash): StateKey {
    StateKey(ParentKey(w, r).height + 1, c)
  }

  /** DestructChild: nothing happens when the child is not listed. */
  function DestructChild(w: World, r: Parent, c: Hash): World
    requires Linked(w) && Live(w, r) && (c in ChildrenOf(w, r) ==> Linked(Destroyed(w, Desc(w, ChildKey(w, r, c)))))
    requires c in ChildrenOf(w, r) ==> Live(Destroyed(w, Desc(w, ChildKey(w, r, c))), r)
  {
    if c !in ChildrenOf(w, r) then w
    else SetChildren(Destroyed(w, Desc(w, ChildKey(w, r, c))), r, Without(ChildrenOf(w, r), c))
  }

  lemma HasUnindexed(archive: map<nat, set<Hash>>, dead: set<StateKey>, k: StateKey)
    ensures Has(Unindexed(archive, dead), k) <==> Has(archive, k) && k !in dead
  {
    assert k.root in RootsAt(dead, k.height) <==> k in dead by {
      if k.root in RootsAt(dead, k.height) {
        var j :| j in dead && j.height == k.height && j.root == k.root;
        assert j == k;
      }
    }
    var left := Unindexed(archive, dead);
    if k.height in archive && k.root in archive[k.height] - RootsAt(dead, k.height) {
      assert archive[k.height] - RootsAt(dead, k.height) != {};
      assert k.height in left;
    }
  }

  /** A set of layers that contains every layer above its members. */
  ghost predicate UpwardClosed(w: World, dead: set<StateKey>) {
    forall k {:trigger w.layers[k]} :: k in w.layers && w.layers[k].parent.Layer? && w.layers[k].parent.key in dead ==>
      k in dead
  }

  lemma DescUpwardClosed(w: World, k: StateKey)
    requires Linked(w)
    ensures UpwardClosed(w, Desc(w, k))
  {
  }

  lemma DestroyedLinked(w: World, dead: set<StateKey>)
    requires Linked(w) && UpwardClosed(w, dead)
    ensures Linked(Destroyed(w, dead))
  {
    var w' := Destroyed(w, dead);
    forall k | k in w'.layers
      ensures KeyOf(w'.layers[k].log) == k && Live(w', w'.layers[k].parent)
      ensures k.height == ParentKey(w', w'.layers[k].parent).height + 1
    {
      assert w'.layers[k] == w.layers[k] && k !in dead;
    }
  }

  lemma DestroyedArchive(w: World, dead: set<StateKey>)
    requires ArchiveOk(w) && w.top !in dead
    ensures ArchiveOk(Destroyed(w, dead))
  {
    var w' := Destroyed(w, dead);
    forall k: StateKey ensures Has(w'.archive, k) <==> k == w'.top || k in w'.layers {
      HasUnindexed(w.archive, dead, k);
    }
  }

  /** Contents survive: every layer that is left shows what it showed. */
  lemma DestroyedContents(keccak: Hasher, w: World, dead: set<StateKey>)
    requires Linked(w) && LogsOk(keccak, w) && CachesOk(w) && UpwardClosed(w, dead) && Linked(Destroyed(w, dead))
    ensures LogsOk(keccak, Destroyed(w, dead)) && CachesOk(Destroyed(w, dead))
    ensures forall r: Parent :: Live(Destroyed(w, dead), r) ==> LiveEq(ViewAt(w, r), ViewAt(Destroyed(w, dead), r))
  {
    SameRowsSameBase(keccak, w.db, Destroyed(w, dead).db);
    ContentsKept(keccak, w, Destroyed(w, dead));
  }

  lemma SetChildrenContents(keccak: Hasher, w: World, r: Parent, list: seq<Hash>)
    requires Linked(w) && LogsOk(keccak, w) && CachesOk(w) && Live(w, r)
    ensures Linked(SetChildren(w, r, list)) && LogsOk(keccak, SetChildren(w, r, list))
    ensures CachesOk(SetChildren(w, r, list))
    ensures forall p: Parent :: Live(w, p) ==> LiveEq(ViewAt(w, p), ViewAt(SetChildren(w, r, list), p))
  {
    SetChildrenShape(w, r, list);
    SameRowsSameBase(keccak, w.db, SetChildren(w, r, list).db);
    ContentsKept(keccak, w, SetChildren(w, r, list));
  }

  lemma SetChildrenShape(w: World, r: Parent, list: seq<Hash>)
    requires Linked(w) && Live(w, r)
    ensures var w' := SetChildren(w, r, list);
            && Linked(w') && w'.layers.Keys == w.layers.Keys && w'.top == w.top && w'.archive == w.archive
            && SameStateRows(w'.db, w.db)
            && Kept(w, w', w'.layers.Keys)
            && (forall k :: k in w'.layers ==> w'.layers[k].cache == w.layers[k].cache)
  {
  }

  ghost predicate CanDestruct(w: World, r: Parent, c: Hash) {
    TreeOk(w) && Live(w, r) && c in ChildrenOf(w, r)
  }

  lemma {:induction false} NotBelow(w: World, k: StateKey, j: StateKey)
    requires Linked(w) && IsDesc(w, k, j)
    ensures k.height <= j.height
    decreases j.height
  {
    if j != k { NotBelow(w, k, w.layers[j].parent.key); }
  }

  lemma ParentSurvives(w: World, r: Parent, c: Hash)
    requires CanDestruct(w, r, c)
    ensures ChildKey(w, r, c) in w.layers
    ensures w.top !in Desc(w, ChildKey(w, r, c))
    ensures Linked(Destroyed(w, Desc(w, ChildKey(w, r, c)))) && Live(Destroyed(w, Desc(w, ChildKey(w, r, c))), r)
  {
    var k := ChildKey(w, r, c);
    assert Listed(w, r, k);
    DescUpwardClosed(w, k);
    DestroyedLinked(w, Desc(w, k));
    if r.Layer? && r.key in Desc(w, k) { NotBelow(w, k, r.key); }
  }

  /** w' is w without the layers in dead, which hang from the listed child c of r, and without that listing. */
  ghost predicate Shrunk(w: World, w': World, r: Parent, c: Hash, dead: set<StateKey>) {
    && w'.top == w.top
    && w'.layers.Keys == w.layers.Keys - dead
    && ChildKey(w, r, c) in dead
    && (forall k {:trigger w.layers[k]} :: k in dead && k in w.layers && k != ChildKey(w, r, c) ==>
          w.layers[k].parent.Layer? && w.layers[k].parent.key in dead)
    && (forall j {:trigger w'.layers[j]} :: j in w'.layers ==>
          w'.layers[j].parent == w.layers[j].parent && Live(w', w.layers[j].parent))
    && (forall p: Parent :: Live(w', p) ==>
          ChildrenOf(w', p) == if p == r then Without(ChildrenOf(w, r), c) else ChildrenOf(w, p))
  }

  lemma SetChildrenLists(w: World, r: Parent, list: seq<Hash>)
    requires Live(w, r)
    ensures var w' := SetChildren(w, r, list);
            && w'.top == w.top && w'.layers.Keys == w.layers.Keys
            && (forall j {:trigger w'.layers[j]} :: j in w'.layers ==> w'.layers[j].parent == w.layers[j].parent)
            && (forall p: Parent :: Live(w, p) ==> ChildrenOf(w', p) == if p == r then list else ChildrenOf(w, p))
  {
  }

  lemma DescBelowRoot(w: World, k: StateKey)
    requires Linked(w) && k in w.layers
    ensures k in Desc(w, k)
    ensures forall j {:trigger w.layers[j]} :: j in Desc(w, k) && j != k ==>
              w.layers[j].parent.Layer? && w.layers[j].parent.key in Desc(w, k)
  {
    assert IsDesc(w, k, k);
  }

  lemma DestructShrinks(w: World, r: Parent, c: Hash)
    requires Linked(w) && Live(w, r) && c in ChildrenOf(w, r) && ChildKey(w, r, c) in w.layers
    requires Linked(Destroyed(w, Desc(w, ChildKey(w, r, c)))) && Live(Destroyed(w, Desc(w, ChildKey(w, r, c))), r)
    ensures Shrunk(w, DestructChild(w, r, c), r, c, Desc(w, ChildKey(w, r, c)))
  {
    DescBelowRoot(w, ChildKey(w, r, c));
    DestroyedShrinks(w, r, c, Desc(w, ChildKey(w, r, c)));
  }

  lemma DestroyedShrinks(w: World, r: Parent, c: Hash, dead: set<StateKey>)
    requires Linked(Destroyed(w, dead)) && Live(Destroyed(w, dead), r) && ChildKey(w, r, c) in dead
    requires forall j {:trigger w.layers[j]} :: j in w.layers && j in dead && j != ChildKey(w, r, c) ==>
               w.layers[j].parent.Layer? && w.layers[j].parent.key in dead
    ensures Shrunk(w, SetChildren(Destroyed(w, dead), r, Without(ChildrenOf(w, r), c)), r, c, dead)
  {
    var mid := Destroyed(w, dead);
    var w' := SetChildren(mid, r, Without(ChildrenOf(w, r), c));
    SetChildrenLists(mid, r, Without(ChildrenOf(w, r), c));
    forall j | j in w'.layers ensures w'.layers[j].parent == w.layers[j].parent && Live(w', w.layers[j].parent) {
      assert mid.layers[j] == w.layers[j] && Live(mid, mid.layers[j].parent);
    }
    forall p: Parent | Live(w', p)
      ensures ChildrenOf(w', p) == if p == r then Without(ChildrenOf(w, r), c) else ChildrenOf(w, p)
    {
      assert Live(mid, p);
    }
  }

  lemma ShrunkListedBefore(w: World, w': World, r: Parent, c: Hash, dead: set<StateKey>, p: Parent, j: StateKey)
    requires Live(w, r) && NoDuplicates(ChildrenOf(w, r)) && Shrunk(w, w', r, c, dead)
    requires Live(w', p) && Listed(w', p, j)
    ensures Live(w, p) && Listed(w, p, j) && (p == r ==> j.root != c)
  {
    WithoutFacts(ChildrenOf(w, r), c);
  }

  lemma ShrunkListed(w: World, w': World, r: Parent, c: Hash, dead: set<StateKey>, p: Parent, j: StateKey)
    requires Mirrored(w) && Live(w, r) && Shrunk(w, w', r, c, dead) && c in ChildrenOf(w, r)
    requires Live(w', p) && Live(w, p) && Listed(w, p, j) && (p == r ==> j.root != c)
    ensures j in w'.layers && w'.layers[j].parent == p
  {
    if j == ChildKey(w, r, c) { assert Listed(w, r, j); }
  }

  lemma ShrunkLists(w: World, w': World, r: Parent, c: Hash, dead: set<StateKey>, j: StateKey)
    requires Mirrored(w) && Live(w, r) && NoDuplicates(ChildrenOf(w, r)) && Shrunk(w, w', r, c, dead) && j in w'.layers
    ensures Listed(w', w'.layers[j].parent, j)
  {
    WithoutFacts(ChildrenOf(w, r), c);
    assert Listed(w, w.layers[j].parent, j) && j != ChildKey(w, r, c);
  }

  lemma ShrunkMirrored(w: World, w': World, r: Parent, c: Hash, dead: set<StateKey>)
    requires Mirrored(w) && Live(w, r) && NoDuplicates(ChildrenOf(w, r))
    requires Shrunk(w, w', r, c, dead) && c in ChildrenOf(w, r)
    ensures Mirrored(w')
  {
    forall p: Parent, j: StateKey | Live(w', p) && Listed(w', p, j) ensures j in w'.layers && w'.layers[j].parent == p {
      ShrunkListedBefore(w, w', r, c, dead, p, j);
      ShrunkListed(w, w', r, c, dead, p, j);
    }
    forall j | j in w'.layers ensures Listed(w', w'.layers[j].parent, j) { ShrunkLists(w, w', r, c, dead, j); }
  }

  lemma ShrunkListsOk(w: World, w': World, r: Parent, c: Hash, dead: set<StateKey>)
    requires ListsOk(w) && Live(w, r) && Shrunk(w, w', r, c, dead)
    ensures ListsOk(w')
  {
    forall p: Parent | Live(w', p) ensures NoDuplicates(ChildrenOf(w', p)) {
      assert NoDuplicates(ChildrenOf(w, p));
      WithoutFacts(ChildrenOf(w, p), c);
    }
  }

  lemma DestructChildren(w: World, r: Parent, c: Hash)
    requires Linked(w) && Mirrored(w) && ListsOk(w) && Live(w, r)
    requires c in ChildrenOf(w, r) && ChildKey(w, r, c) in w.layers
    requires Linked(Destroyed(w, Desc(w, ChildKey(w, r, c)))) && Live(Destroyed(w, Desc(w, ChildKey(w, r, c))), r)
    ensures Mirrored(DestructChild(w, r, c)) && ListsOk(DestructChild(w, r, c))
  {
    DestructShrinks(w, r, c);
    ShrunkListsOk(w, DestructChild(w, r, c), r, c, Desc(w, ChildKey(w, r, c)));
    ShrunkMirrored(w, DestructChild(w, r, c), r, c, Desc(w, ChildKey(w, r, c)));
  }

  lemma DestructStored(w: World, r: Parent, c: Hash)
    requires CanDestruct(w, r, c) && w.top !in Desc(w, ChildKey(w, r, c))
    requires Linked(Destroyed(w, Desc(w, ChildKey(w, r, c)))) && Live(Destroyed(w, Desc(w, ChildKey(w, r, c))), r)
    ensures StoredOk(DestructChild(w, r, c))
  {
    DestroyedStored(w, Desc(w, ChildKey(w, r, c)));
    SetChildrenStored(Destroyed(w, Desc(w, ChildKey(w, r, c))), r, Without(ChildrenOf(w, r), c));
  }

  lemma DestroyedStored(w: World, dead: set<StateKey>)
    requires StoredOk(w) && w.top !in dead
    ensures StoredOk(Destroyed(w, dead))
  {
    var w' := Destroyed(w, dead);
    assert w'.db.layerLogs.Keys == w'.layers.Keys;
    assert w'.db.children.Keys == w'.layers.Keys + {w'.top};
  }

  lemma SetChildrenStored(w: World, r: Parent, list: seq<Hash>)
    requires StoredOk(w) && Live(w, r)
    ensures StoredOk(SetChildren(w, r, list))
  {
    var w' := SetChildren(w, r, list);
    assert w'.layers.Keys == w.layers.Keys && w'.db.children.Keys == w.db.children.Keys;
  }

  /** DestructChild removes exactly one subtree and changes no other view. */
  lemma DestructChildOk(keccak: Hasher, w: World, r: Parent, c: Hash)
    requires WorldOk(keccak, w) && CanDestruct(w, r, c)
    ensures Linked(Destroyed(w, Desc(w, ChildKey(w, r, c)))) && Live(Destroyed(w, Desc(w, ChildKey(w, r, c))), r)
    ensures WorldOk(keccak, DestructChild(w, r, c))
    ensures DestructChild(w, r, c).layers.Keys == w.layers.Keys - Desc(w, ChildKey(w, r, c))
    ensures forall p: Parent :: Live(DestructChild(w, r, c), p) ==>
              Live(w, p) && LiveEq(ViewAt(w, p), ViewAt(DestructChild(w, r, c), p))
  {
    ParentSurvives(w, r, c);
    DestructTree(w, r, c);
    DestructContents(keccak, w, r, c);
  }

  lemma DestructTree(w: World, r: Parent, c: Hash)
    requires CanDestruct(w, r, c) && ChildKey(w, r, c) in w.layers && w.top !in Desc(w, ChildKey(w, r, c))
    requires Linked(Destroyed(w, Desc(w, ChildKey(w, r, c)))) && Live(Destroyed(w, Desc(w, ChildKey(w, r, c))), r)
    ensures Mirrored(DestructChild(w, r, c)) && ListsOk(DestructChild(w, r, c))
    ensures ArchiveOk(DestructChild(w, r, c)) && StoredOk(DestructChild(w, r, c))
    ensures DestructChild(w, r, c).layers.Keys == w.layers.Keys - Desc(w, ChildKey(w, r, c))
  {
    DestructChildren(w, r, c);
    DestroyedArchive(w, Desc(w, ChildKey(w, r, c)));
    SetChildrenShape(Destroyed(w, Desc(w, ChildKey(w, r, c))), r, Without(ChildrenOf(w, r), c));
    DestructStored(w, r, c);
  }

  lemma DestructContents(keccak: Hasher, w: World, r: Parent, c: Hash)
    requires Linked(w) && LogsOk(keccak, w) && CachesOk(w) && CanDestruct(w, r, c)
    requires Linked(Destroyed(w, Desc(w, ChildKey(w, r, c)))) && Live(Destroyed(w, Desc(w, ChildKey(w, r, c))), r)
    ensures var w' := DestructChild(w, r, c);
            && Linked(w') && LogsOk(keccak, w') && CachesOk(w')
            && forall p: Parent :: Live(w', p) ==> Live(w, p) && LiveEq(ViewAt(w, p), ViewAt(w', p))
  {
    var dead := Desc(w, ChildKey(w, r, c));
    var mid, w' := Destroyed(w, dead), DestructChild(w, r, c);
    DescUpwardClosed(w, ChildKey(w, r, c));
    DestroyedContents(keccak, w, dead);
    SetChildrenContents(keccak, mid, r, Without(ChildrenOf(w, r), c));
    forall p: Parent | Live(w', p) ensures Live(w, p) && LiveEq(ViewAt(w, p), ViewAt(w', p)) {
      assert Live(mid, p);
      LiveEqTransitive(ViewAt(w, p), ViewAt(mid, p), ViewAt(w', p));
    }
  }
}
