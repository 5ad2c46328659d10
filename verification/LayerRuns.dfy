/**
 Whole runs of the layered store: commits with pruning, destruction of forks, garbage collection, cache traffic and
 restarts, in any order. The simple machine it must agree with keeps one immutable view per committed block.
 */
module LayerRuns {
  import opened Types
  import opened Views
  import opened Database
  import opened LayerTree
  import opened LayerSteps
  import opened LayerPrune
  import opened LayerRestart

  /** MaxLayerToRetain and PruningFrequency. */
  datatype Retention = Retention(max: nat, frequency: nat)

  predicate Sensible(opts: Retention) {
    1 <= opts.frequency <= opts.max
  }

  // ---------------------------------------------------------- states by key

  predicate LiveKey(w: World, k: StateKey) {
    k == w.top || k in w.layers
  }

  function Ref(w: World, k: StateKey): Parent {
    if k == w.top then Persisted else Layer(k)
  }

  ghost function KeyView(w: World, k: StateKey): View
    requires Linked(w) && LiveKey(w, k)
  {
    ViewAt(w, Ref(w, k))
  }

  /** Every state live in w' was live in w under the same key and shows the same. */
  ghost predicate Preserved(w: World, w': World)
    requires Linked(w) && Linked(w')
  {
    forall k :: LiveKey(w', k) ==> LiveKey(w, k) && LiveEq(KeyView(w, k), KeyView(w', k))
  }

  lemma PreservedTransitive(w: World, w': World, w'': World)
    requires Linked(w) && Linked(w') && Linked(w'') && Preserved(w, w') && Preserved(w', w'')
    ensures Preserved(w, w'')
  {
    forall k | LiveKey(w'', k) ensures LiveKey(w, k) && LiveEq(KeyView(w, k), KeyView(w'', k)) {
      LiveEqTransitive(KeyView(w, k), KeyView(w', k), KeyView(w'', k));
    }
  }

  /** No layer is deeper than this below the persisted state. */
  ghost predicate DepthAtMost(w: World, depth: nat) {
    forall k :: k in w.layers ==> k.height <= w.top.height + depth
  }

  /** The layers that are left are those above the persisted state; if that has not moved, all are left. */
  ghost predicate RaisedTo(w: World, w': World)
    requires Linked(w)
  {
    if w'.top == w.top then w'.layers.Keys == w.layers.Keys
    else w'.top in w.layers && w'.layers.Keys == Desc(w, w'.top) - {w'.top}
  }

  // ------------------------------------------------------------ HandlePrune

  /** The root hashes passed up by HandlePrune, from the persisted state's child to the layer itself. */
  function Route(w: World, r: Parent): seq<Hash>
    requires Linked(w) && Live(w, r)
    decreases Rank(r)
  {
    if r.Persisted? then [] else Route(w, w.layers[r.key].parent) + [r.key.root]
  }

  ghost function PruneAll(w: World, hashes: seq<Hash>): World
    decreases |hashes|
  {
    if hashes == [] || hashes[0] !in w.topChildren || !CanPrune(w, hashes[0]) then w
    else PruneAll(PruneOne(w, hashes[0]), hashes[1..])
  }

  ghost function HandlePrune(w: World, opts: Retention, route: seq<Hash>): World {
    if |route| <= opts.max || |route| < opts.frequency then w else PruneAll(w, route[..opts.frequency])
  }

  lemma {:induction false} RouteLength(w: World, r: Parent)
    requires Linked(w) && Live(w, r)
    ensures |Route(w, r)| == ParentKey(w, r).height - w.top.height
    decreases Rank(r)
  {
    if r.Layer? { RouteLength(w, w.layers[r.key].parent); }
  }

  lemma {:induction false} RouteStart(w: World, k: StateKey)
    requires Linked(w) && k in w.layers
    ensures |Route(w, Layer(k))| > 0 && Route(w, Layer(k))[0] == Branch(w, k)
    decreases k.height
  {
    var p := w.layers[k].parent;
    if p.Layer? { RouteStart(w, p.key); }
  }

  /** After one step the route to a survivor is the rest of the old one. */
  lemma {:induction false} RouteAfter(w: World, w': World, c: Hash, k: StateKey)
    requires Linked(w) && Linked(w') && Swallowed(w, w', ChildKey(w, Persisted, c)) && CanPrune(w, c)
    requires k in w'.layers
    ensures |Route(w, Layer(k))| > 0 && Route(w', Layer(k)) == Route(w, Layer(k))[1..]
    decreases k.height
  {
    var p := w'.layers[k].parent;
    var ck := ChildKey(w, Persisted, c);
    if p.Layer? {
      RouteAfter(w, w', c, p.key);
    } else {
      assert Route(w, Layer(ck)) == [ck.root];
      assert Route(w, Layer(k)) == [ck.root, k.root];
      assert Route(w', Layer(k)) == [k.root];
    }
  }

  /** A survivor has the same layers above it as before. */
  lemma {:induction false} DescAfter(w: World, w1: World, ck: StateKey, k: StateKey, j: StateKey)
    requires Linked(w) && Linked(w1) && Swallowed(w, w1, ck) && w.layers[ck].parent.Persisted? && ck !in w1.layers
    requires k in w1.layers && j in w1.layers
    ensures IsDesc(w1, k, j) <==> IsDesc(w, k, j)
    decreases j.height
  {
    if j != k && w1.layers[j].parent.Layer? { DescAfter(w, w1, ck, k, w1.layers[j].parent.key); }
  }

  lemma SurvivorsAbove(w: World, c: Hash, k: StateKey)
    requires CanPrune(w, c) && Linked(PruneOne(w, c)) && k in PruneOne(w, c).layers
    ensures Desc(PruneOne(w, c), k) == Desc(w, k)
  {
    var w1, ck := PruneOne(w, c), ChildKey(w, Persisted, c);
    PruneSwallows(w, c);
    PruneKeepsAbove(w, c);
    forall j ensures j in Desc(w1, k) <==> j in Desc(w, k) {
      if j in w1.layers {
        DescAfter(w, w1, ck, k, j);
      } else if j in Desc(w, k) {
        DescTransitive(w, ck, k, j);
        NotBelow(w, k, j);
        NotBelow(w, ck, k);
      }
    }
  }

  lemma RaisedTwice(w: World, c: Hash, w2: World)
    requires CanPrune(w, c) && Linked(PruneOne(w, c)) && RaisedTo(PruneOne(w, c), w2)
    ensures RaisedTo(w, w2)
  {
    var ck := ChildKey(w, Persisted, c);
    PruneTop(w, c);
    PruneKeepsAbove(w, c);
    TopIsBelow(w, ck);
    if w2.top != ck {
      SurvivorsAbove(w, c, w2.top);
      TopIsBelow(w, w2.top);
    }
  }

  lemma {:induction false} PruneAllOk(keccak: Hasher, w: World, hashes: seq<Hash>)
    requires Hashes(keccak) && WorldOk(keccak, w)
    ensures WorldOk(keccak, PruneAll(w, hashes)) && Preserved(w, PruneAll(w, hashes))
    ensures RaisedTo(w, PruneAll(w, hashes))
    decreases |hashes|
  {
    if hashes == [] || hashes[0] !in w.topChildren || !CanPrune(w, hashes[0]) {
      forall k | LiveKey(w, k) ensures LiveEq(KeyView(w, k), KeyView(w, k)) { LiveEqReflexive(KeyView(w, k)); }
    } else {
      PruneStepPreserves(keccak, w, hashes[0]);
      PruneAllOk(keccak, PruneOne(w, hashes[0]), hashes[1..]);
      RaisedTwice(w, hashes[0], PruneAll(w, hashes));
      PreservedTransitive(w, PruneOne(w, hashes[0]), PruneAll(w, hashes));
    }
  }

  lemma PruneStepPreserves(keccak: Hasher, w: World, c: Hash)
    requires Hashes(keccak) && WorldOk(keccak, w) && c in w.topChildren
    ensures CanPrune(w, c) && WorldOk(keccak, PruneOne(w, c)) && Preserved(w, PruneOne(w, c))
  {
    PruneOneOk(keccak, w, c);
    var w' := PruneOne(w, c);
    forall k | LiveKey(w', k) ensures LiveKey(w, k) && LiveEq(KeyView(w, k), KeyView(w', k)) {
      TopIsBelow(w, ChildKey(w, Persisted, c));
      if k in w'.layers { TopIsBelow(w', k); }
    }
  }

  /** The first step along the route to a layer that is not the persisted state's own child. */
  lemma RouteStep(w: World, k: StateKey)
    requires TreeOk(w) && k in w.layers && |Route(w, Layer(k))| > 1
    ensures var c := Route(w, Layer(k))[0];
            && c in w.topChildren && CanPrune(w, c)
            && k in PruneOne(w, c).layers && Linked(PruneOne(w, c))
            && PruneOne(w, c).top.height == w.top.height + 1
            && Route(PruneOne(w, c), Layer(k)) == Route(w, Layer(k))[1..]
  {
    var c := Route(w, Layer(k))[0];
    RouteStart(w, k);
    BranchListed(w, k);
    ChildCanBePruned(w, c);
    RouteLength(w, Layer(k));
    PruneKeys(w, c);
    PruneTop(w, c);
    PruneLinked(w, c);
    PruneSwallows(w, c);
    RouteAfter(w, PruneOne(w, c), c, k);
  }

  /** Pruning n states along a route is one step and then pruning the rest of the route. */
  lemma RouteUnfold(w: World, w1: World, route: seq<Hash>, n: nat)
    requires 0 < n < |route| && route[0] in w.topChildren && CanPrune(w, route[0]) && w1 == PruneOne(w, route[0])
    ensures PruneAll(w, route[..n]) == PruneAll(w1, route[1..][..n - 1])
  {
    assert route[..n][1..] == route[1..][..n - 1];
  }

  /** Pruning along the route to k moves the persisted state up that route, one block a step, and never reaches k. */
  lemma {:induction false} PruneAlongRoute(w: World, k: StateKey, n: nat, pruned: World)
    requires TreeOk(w) && k in w.layers && n < |Route(w, Layer(k))| && pruned == PruneAll(w, Route(w, Layer(k))[..n])
    ensures k in pruned.layers && pruned.top.height == w.top.height + n
    decreases n
  {
    if n > 0 {
      var route := Route(w, Layer(k));
      RouteStep(w, k);
      PruneTree(w, route[0]);
      var w1 := PruneOne(w, route[0]);
      RouteUnfold(w, w1, route, n);
      PruneAlongRoute(w1, k, n - 1, pruned);
    }
  }

  /**
   HandlePrune from a new layer: the depth bound is restored and the layer itself survives. Nothing is pruned as long as
   the layer is at most MaxLayerToRetain blocks above the persisted state. Otherwise that moves up by PruningFrequency
   blocks, and the layers that do not lie above it are gone.
   */
  lemma HandlePruneOk(keccak: Hasher, w: World, opts: Retention, k: StateKey)
    requires Hashes(keccak) && WorldOk(keccak, w) && Sensible(opts) && k in w.layers
    requires DepthAtMost(w, opts.max + 1)
    requires forall j :: j in w.layers && j != k ==> j.height <= w.top.height + opts.max
    ensures var w' := HandlePrune(w, opts, Route(w, Layer(k)));
            && WorldOk(keccak, w') && Preserved(w, w') && k in w'.layers && DepthAtMost(w', opts.max)
            && RaisedTo(w, w')
            && (if k.height <= w.top.height + opts.max then w' == w
                else w'.top.height == w.top.height + opts.frequency)
  {
    var route := Route(w, Layer(k));
    RouteLength(w, Layer(k));
    var n := if |route| <= opts.max then 0 else opts.frequency;
    assert HandlePrune(w, opts, route) == PruneAll(w, route[..n]);
    PrunedOk(keccak, w, opts, k, n, PruneAll(w, route[..n]));
  }

  lemma PrunedOk(keccak: Hasher, w: World, opts: Retention, k: StateKey, n: nat, pruned: World)
    requires Hashes(keccak) && WorldOk(keccak, w) && Sensible(opts) && k in w.layers && DepthAtMost(w, opts.max + 1)
    requires n <= |Route(w, Layer(k))| && pruned == PruneAll(w, Route(w, Layer(k))[..n])
    requires if |Route(w, Layer(k))| <= opts.max then n == 0 && DepthAtMost(w, opts.max) else n == opts.frequency
    ensures WorldOk(keccak, pruned) && Preserved(w, pruned) && k in pruned.layers && DepthAtMost(pruned, opts.max)
    ensures RaisedTo(w, pruned) && pruned.top.height == w.top.height + n
  {
    PruneAllOk(keccak, w, Route(w, Layer(k))[..n]);
    if n > 0 { PrunedDepth(keccak, w, opts, k, pruned); }
  }

  lemma PrunedDepth(keccak: Hasher, w: World, opts: Retention, k: StateKey, pruned: World)
    requires TreeOk(w) && Linked(pruned) && Sensible(opts) && k in w.layers && DepthAtMost(w, opts.max + 1)
    requires |Route(w, Layer(k))| > opts.max && pruned == PruneAll(w, Route(w, Layer(k))[..opts.frequency])
    requires Preserved(w, pruned)
    ensures k in pruned.layers && DepthAtMost(pruned, opts.max)
    ensures pruned.top.height == w.top.height + opts.frequency
  {
    PruneAlongRoute(w, k, opts.frequency, pruned);
    LayersOnlyShrink(w, pruned, opts.max, opts.frequency);
  }

  lemma LayersOnlyShrink(w: World, w': World, depth: nat, moved: nat)
    requires Linked(w) && Linked(w') && Preserved(w, w') && DepthAtMost(w, depth + 1) && 1 <= moved
    requires w'.top.height == w.top.height + moved
    ensures DepthAtMost(w', depth)
  {
    forall j | j in w'.layers ensures j.height <= w'.top.height + depth {
      assert LiveKey(w', j);
      TopIsBelow(w', j);
    }
  }

  // ------------------------------------------------------------------- steps

  datatype Step =
    | Commit(parent: StateKey, log: LayerLog)
    | Destruct(parent: StateKey, child: Hash)
    | Collect(addr: Address, version: nat, slots: set<Hash>)
    | FillAccount(key: StateKey, addr: Address, evicted: set<Address>)
    | FillSlot(key: StateKey, addr: Address, version: nat, slot: Hash, gone: set<(Address, nat, Hash)>)
    | FillCode(key: StateKey, hash: Hash, dropped: set<Hash>)
    | Restart

  /** A commit is given a log that was built on its parent; everything else may happen at any time. */
  ghost predicate Possible(keccak: Hasher, w: World, s: Step) {
    s.Commit? && Linked(w) && LiveKey(w, s.parent) ==>
      s.log.blockNumber == s.parent.height + 1 && LogFits(keccak, s.log, KeyView(w, s.parent))
  }

  function SetCache(w: World, k: StateKey, cache: Cache): World
    requires k in w.layers
  {
    w.(layers := w.layers[k := w.layers[k].(cache := cache)])
  }

  ghost function PruneFrom(w: World, opts: Retention, k: StateKey): World {
    if Linked(w) && k in w.layers then HandlePrune(w, opts, Route(w, Layer(k))) else w
  }

  /** tempCommittedState.Commit: refused when the archive already has the key. */
  ghost function CommitStep(w: World, opts: Retention, p: StateKey, log: LayerLog): World {
    if LiveKey(w, p) && !Has(w.archive, KeyOf(log)) then PruneFrom(AddLayer(w, Ref(w, p), log), opts, KeyOf(log)) else w
  }

  ghost function DestructStep(w: World, p: StateKey, c: Hash): World {
    if LiveKey(w, p) && CanDestruct(w, Ref(w, p), c) then
      ParentSurvives(w, Ref(w, p), c); DestructChild(w, Ref(w, p), c)
    else w
  }

  function CollectStep(w: World, a: Address, v: nat, slots: set<Hash>): World {
    if (a, v) in w.db.gc then w.(db := Sweep(w.db, a, v, slots)) else w
  }

  function AccountCache(w: World, k: StateKey, a: Address, evicted: set<Address>): Cache
    requires Linked(w) && k in w.layers
  {
    var cache := w.layers[k].cache;
    cache.(accts := (cache.accts - evicted)[a := CachedAcct(w, w.layers[k].parent, a)])
  }

  function SlotCache(w: World, k: StateKey, a: Address, v: nat, slot: Hash, gone: set<(Address, nat, Hash)>): Cache
    requires Linked(w) && k in w.layers
  {
    var cache := w.layers[k].cache;
    cache.(slots := (cache.slots - gone)[(a, v, slot) := CachedSlot(w, w.layers[k].parent, a, v, slot)])
  }

  function CodeCache(w: World, k: StateKey, h: Hash, dropped: set<Hash>): Cache
    requires Linked(w) && k in w.layers
  {
    var cache := w.layers[k].cache;
    cache.(codes := (cache.codes - dropped)[h := CachedCode(w, w.layers[k].parent, h)])
  }

  /** A lookup that misses the log fills the cache of the layer it was made on, evicting anything. */
  ghost function FillStep(w: World, s: Step): World
    requires s.FillAccount? || s.FillSlot? || s.FillCode?
  {
    if !Linked(w) || s.key !in w.layers then w
    else
      match s
      case FillAccount(k, a, evicted) =>
        if a !in w.layers[k].log.updatedAccounts then SetCache(w, k, AccountCache(w, k, a, evicted)) else w
      case FillSlot(k, a, v, slot, gone) =>
        if SlotMissing(w.layers[k].log, a, v, slot) then SetCache(w, k, SlotCache(w, k, a, v, slot, gone)) else w
      case FillCode(k, h, dropped) =>
        if h !in w.layers[k].log.codePreimage then SetCache(w, k, CodeCache(w, k, h, dropped)) else w
  }

  function RestartStep(w: World): World {
    match Reload(w.db) case Some(w') => w' case None => w
  }

  ghost function Next(w: World, opts: Retention, s: Step): World {
    match s
    case Commit(p, log) => CommitStep(w, opts, p, log)
    case Destruct(p, c) => DestructStep(w, p, c)
    case Collect(a, v, slots) => CollectStep(w, a, v, slots)
    case Restart => RestartStep(w)
    case _ => FillStep(w, s)
  }

  predicate SlotMissing(log: LayerLog, a: Address, v: nat, k: Hash) {
    (a, v) in log.updatedStorage ==> k !in log.updatedStorage[(a, v)]
  }

  // ------------------------------------------------- each step, one at a time

  ghost predicate Safe(keccak: Hasher, w: World, opts: Retention) {
    WorldOk(keccak, w) && DepthAtMost(w, opts.max)
  }

  lemma RefLive(w: World, k: StateKey)
    requires Linked(w) && LiveKey(w, k)
    ensures Live(w, Ref(w, k)) && ParentKey(w, Ref(w, k)) == k
  {
  }

  lemma AddedLayers(w: World, r: Parent, log: LayerLog)
    requires Linked(w) && Live(w, r)
    ensures AddLayer(w, r, log).layers.Keys == w.layers.Keys + {KeyOf(log)} && AddLayer(w, r, log).top == w.top
  {
  }

  /** The new layer shows its log over its parent, before and after pruning. */
  lemma CommitAdds(keccak: Hasher, w: World, opts: Retention, p: StateKey, log: LayerLog)
    requires Safe(keccak, w, opts) && LiveKey(w, p) && !Has(w.archive, KeyOf(log))
    requires log.blockNumber == p.height + 1 && LogFits(keccak, log, KeyView(w, p))
    ensures var w1, k := AddLayer(w, Ref(w, p), log), KeyOf(log);
            && WorldOk(keccak, w1) && k in w1.layers && k != w1.top && k !in w.layers
            && w1.top == w.top && w1.layers.Keys == w.layers.Keys + {k}
            && LiveEq(Over(log, KeyView(w, p)), KeyView(w1, k))
            && (forall j :: LiveKey(w, j) ==> LiveEq(KeyView(w, j), KeyView(w1, j)))
  {
    var r := Ref(w, p);
    RefLive(w, p);
    AddLayerOk(keccak, w, r, log);
    AddedLayers(w, r, log);
    TopIsBelow(AddLayer(w, r, log), KeyOf(log));
    AddedKeeps(w, AddLayer(w, r, log));
  }

  lemma AddedKeeps(w: World, w1: World)
    requires Linked(w) && Linked(w1) && w1.top == w.top && w.layers.Keys <= w1.layers.Keys
    requires forall r: Parent :: Live(w, r) ==> LiveEq(ViewAt(w, r), ViewAt(w1, r))
    ensures forall j :: LiveKey(w, j) ==> LiveEq(KeyView(w, j), KeyView(w1, j))
  {
    forall j | LiveKey(w, j) ensures LiveEq(KeyView(w, j), KeyView(w1, j)) { RefLive(w, j); }
  }

  lemma OldParents(w: World, r: Parent, log: LayerLog)
    requires Linked(w) && Live(w, r) && KeyOf(log) !in w.layers
    ensures forall i {:trigger w.layers[i]} :: i in w.layers ==>
              AddLayer(w, r, log).layers[i].parent == w.layers[i].parent
  {
    if r != Layer(KeyOf(log)) { AddLayerLists(w, r, log); }
  }

  lemma CommitDepth(w: World, w1: World, depth: nat, p: StateKey, log: LayerLog)
    requires LiveKey(w, p) && DepthAtMost(w, depth) && log.blockNumber == p.height + 1
    requires w1.top == w.top && w1.layers.Keys == w.layers.Keys + {KeyOf(log)}
    ensures KeyOf(log) in w1.layers && DepthAtMost(w1, depth + 1)
    ensures forall j :: j in w1.layers && j != KeyOf(log) ==> j.height <= w1.top.height + depth
  {
  }

  /** A layer added on top changes nothing of what lies above an older layer. */
  lemma {:induction false} DescGrown(w: World, w1: World, k: StateKey, t: StateKey, j: StateKey)
    requires Linked(w) && Linked(w1) && k !in w.layers && w1.layers.Keys == w.layers.Keys + {k} && j in w.layers
    requires forall i {:trigger w.layers[i]} :: i in w.layers ==> w1.layers[i].parent == w.layers[i].parent
    ensures IsDesc(w1, t, j) <==> IsDesc(w, t, j)
    decreases j.height
  {
    assert w1.layers[j].parent == w.layers[j].parent;
    if w.layers[j].parent.Layer? { DescGrown(w, w1, k, t, w.layers[j].parent.key); }
  }

  /** What HandlePrune retains after a commit, told from the tree before it. */
  ghost predicate Retains(w: World, opts: Retention, log: LayerLog, w': World)
    requires Linked(w)
  {
    if log.blockNumber <= w.top.height + opts.max then
      w'.top == w.top && w'.layers.Keys == w.layers.Keys + {KeyOf(log)}
    else
      && w'.top in w.layers && w'.top.height == w.top.height + opts.frequency
      && w'.layers.Keys == Desc(w, w'.top) - {w'.top} + {KeyOf(log)}
  }

  lemma CommitRetains(w: World, w1: World, w': World, opts: Retention, log: LayerLog)
    requires Linked(w) && Linked(w1) && w1.top == w.top && w1.layers.Keys == w.layers.Keys + {KeyOf(log)}
    requires KeyOf(log) !in w.layers && Sensible(opts)
    requires forall i {:trigger w.layers[i]} :: i in w.layers ==> w1.layers[i].parent == w.layers[i].parent
    requires RaisedTo(w1, w') && KeyOf(log) in w'.layers
    requires if log.blockNumber <= w1.top.height + opts.max then w' == w1
             else w'.top.height == w1.top.height + opts.frequency
    ensures Retains(w, opts, log, w')
  {
    if log.blockNumber > w.top.height + opts.max {
      assert w'.top != KeyOf(log);
      forall j | j in w.layers ensures j in Desc(w1, w'.top) <==> j in Desc(w, w'.top) {
        DescGrown(w, w1, KeyOf(log), w'.top, j);
      }
    }
  }

  /**
   What a commit does: the new layer shows its log over its parent, and what is left shows what it showed. No state goes
   as long as the new one is at most MaxLayerToRetain blocks above the persisted state; otherwise that moves up by
   PruningFrequency blocks, and of the old layers exactly those above it stay.
   */
  lemma CommitOk(keccak: Hasher, w: World, opts: Retention, p: StateKey, log: LayerLog)
    requires Hashes(keccak) && Sensible(opts) && Safe(keccak, w, opts)
    requires LiveKey(w, p) && !Has(w.archive, KeyOf(log))
    requires log.blockNumber == p.height + 1 && LogFits(keccak, log, KeyView(w, p))
    ensures var w', k := CommitStep(w, opts, p, log), KeyOf(log);
            && Safe(keccak, w', opts)
            && k in w'.layers && k != w'.top && !LiveKey(w, k)
            && LiveEq(Over(log, KeyView(w, p)), KeyView(w', k))
            && (forall j :: LiveKey(w', j) && j != k ==> LiveKey(w, j) && LiveEq(KeyView(w, j), KeyView(w', j)))
            && Retains(w, opts, log, w')
  {
    CommitAdds(keccak, w, opts, p, log);
    OldParents(w, Ref(w, p), log);
    CommitPrunes(keccak, w, AddLayer(w, Ref(w, p), log), opts, p, log);
  }

  lemma CommitPrunes(keccak: Hasher, w: World, w1: World, opts: Retention, p: StateKey, log: LayerLog)
    requires Hashes(keccak) && Sensible(opts) && Linked(w) && DepthAtMost(w, opts.max) && LiveKey(w, p)
    requires WorldOk(keccak, w1) && w1.top == w.top && w1.layers.Keys == w.layers.Keys + {KeyOf(log)}
    requires log.blockNumber == p.height + 1 && LiveEq(Over(log, KeyView(w, p)), KeyView(w1, KeyOf(log)))
    requires forall j :: LiveKey(w, j) ==> LiveEq(KeyView(w, j), KeyView(w1, j))
    requires KeyOf(log) !in w.layers
    requires forall i {:trigger w.layers[i]} :: i in w.layers ==> w1.layers[i].parent == w.layers[i].parent
    ensures var w', k := PruneFrom(w1, opts, KeyOf(log)), KeyOf(log);
            && Retains(w, opts, log, w')
            && Safe(keccak, w', opts)
            && k in w'.layers && k != w'.top
            && LiveEq(Over(log, KeyView(w, p)), KeyView(w', k))
            && (forall j :: LiveKey(w', j) && j != k ==> LiveKey(w, j) && LiveEq(KeyView(w, j), KeyView(w', j)))
  {
    CommitDepth(w, w1, opts.max, p, log);
    PruneFromOk(keccak, w1, opts, KeyOf(log));
    CommitRetains(w, w1, PruneFrom(w1, opts, KeyOf(log)), opts, log);
    CommitKeeps(w, w1, PruneFrom(w1, opts, KeyOf(log)), log, p);
  }

  lemma PruneFromOk(keccak: Hasher, w: World, opts: Retention, k: StateKey)
    requires Hashes(keccak) && WorldOk(keccak, w) && Sensible(opts) && k in w.layers
    requires DepthAtMost(w, opts.max + 1)
    requires forall j :: j in w.layers && j != k ==> j.height <= w.top.height + opts.max
    ensures var w' := PruneFrom(w, opts, k);
            && Safe(keccak, w', opts) && Preserved(w, w') && k in w'.layers && k != w'.top && RaisedTo(w, w')
            && (if k.height <= w.top.height + opts.max then w' == w
                else w'.top.height == w.top.height + opts.frequency)
  {
    HandlePruneOk(keccak, w, opts, k);
    TopIsBelow(PruneFrom(w, opts, k), k);
  }

  lemma CommitKeeps(w: World, w1: World, w': World, log: LayerLog, p: StateKey)
    requires Linked(w) && Linked(w1) && Linked(w') && Preserved(w1, w') && LiveKey(w, p)
    requires w1.top == w.top && w1.layers.Keys == w.layers.Keys + {KeyOf(log)}
    requires KeyOf(log) in w'.layers && LiveEq(Over(log, KeyView(w, p)), KeyView(w1, KeyOf(log)))
    requires forall j :: LiveKey(w, j) ==> LiveEq(KeyView(w, j), KeyView(w1, j))
    ensures LiveEq(Over(log, KeyView(w, p)), KeyView(w', KeyOf(log)))
    ensures forall j :: LiveKey(w', j) && j != KeyOf(log) ==> LiveKey(w, j) && LiveEq(KeyView(w, j), KeyView(w', j))
  {
    forall j | LiveKey(w', j) && j != KeyOf(log) ensures LiveKey(w, j) && LiveEq(KeyView(w, j), KeyView(w', j)) {
      assert LiveKey(w1, j);
      LiveEqTransitive(KeyView(w, j), KeyView(w1, j), KeyView(w', j));
    }
    assert LiveKey(w', KeyOf(log));
    LiveEqTransitive(Over(log, KeyView(w, p)), KeyView(w1, KeyOf(log)), KeyView(w', KeyOf(log)));
  }

  /** A step that commits nothing keeps every invariant and every live view. */
  ghost predicate Unobservable(keccak: Hasher, w: World, w': World, opts: Retention) {
    Safe(keccak, w', opts) && Linked(w) && Preserved(w, w')
  }

  lemma DestructOk(keccak: Hasher, w: World, opts: Retention, p: StateKey, c: Hash)
    requires Safe(keccak, w, opts)
    ensures Unobservable(keccak, w, DestructStep(w, p, c), opts) && DestructStep(w, p, c).top == w.top
    ensures DestructStep(w, p, c).layers.Keys == w.layers.Keys -
              (if LiveKey(w, p) && c in ChildrenOf(w, Ref(w, p)) then Desc(w, ChildKey(w, Ref(w, p), c)) else {})
  {
    if LiveKey(w, p) && CanDestruct(w, Ref(w, p), c) {
      ParentSurvives(w, Ref(w, p), c);
      DestructChildOk(keccak, w, Ref(w, p), c);
      DestructPreserves(w, DestructChild(w, Ref(w, p), c));
    } else {
      NothingHappens(w);
    }
  }

  lemma DestructPreserves(w: World, w': World)
    requires Linked(w) && Linked(w') && w'.top == w.top
    requires forall p: Parent :: Live(w', p) ==> Live(w, p) && LiveEq(ViewAt(w, p), ViewAt(w', p))
    ensures Preserved(w, w')
  {
    forall k | LiveKey(w', k) ensures LiveKey(w, k) && LiveEq(KeyView(w, k), KeyView(w', k)) {
      assert Live(w', Ref(w', k));
    }
  }

  lemma NothingHappens(w: World)
    requires Linked(w)
    ensures Preserved(w, w)
  {
    forall k | LiveKey(w, k) ensures LiveEq(KeyView(w, k), KeyView(w, k)) { LiveEqReflexive(KeyView(w, k)); }
  }

  /** w' has the same tree as w: only row contents and caches may differ. */
  ghost predicate SameShape(w: World, w': World) {
    && w'.top == w.top && w'.topChildren == w.topChildren && w'.archive == w.archive
    && w'.layers.Keys == w.layers.Keys
    && (forall k {:trigger w'.layers[k]} :: k in w'.layers ==>
          && w'.layers[k].parent == w.layers[k].parent
          && w'.layers[k].log == w.layers[k].log
          && w'.layers[k].children == w.layers[k].children)
    && w'.db.persisted == w.db.persisted && w'.db.children == w.db.children && w'.db.layerLogs == w.db.layerLogs
  }

  lemma SameShapeLists(w: World, w': World)
    requires Mirrored(w) && ListsOk(w) && SameShape(w, w')
    ensures Mirrored(w') && ListsOk(w')
  {
    forall r: Parent | Live(w', r) ensures Live(w, r) && ChildrenOf(w', r) == ChildrenOf(w, r) {
      if r.Layer? { assert w'.layers[r.key].children == w.layers[r.key].children; }
    }
    forall r: Parent, j: StateKey | Live(w', r) && Listed(w', r, j) ensures j in w'.layers && w'.layers[j].parent == r {
      assert Listed(w, r, j);
      assert w'.layers[j].parent == w.layers[j].parent;
    }
    forall j | j in w'.layers ensures Listed(w', w'.layers[j].parent, j) {
      assert w'.layers[j].parent == w.layers[j].parent;
      assert Listed(w, w.layers[j].parent, j);
      SameShapeChildren(w, w', w.layers[j].parent);
    }
    forall r: Parent | Live(w', r) ensures NoDuplicates(ChildrenOf(w', r)) { assert NoDuplicates(ChildrenOf(w, r)); }
  }

  lemma SameShapeChildren(w: World, w': World, r: Parent)
    requires SameShape(w, w')
    ensures ChildrenOf(w', r) == ChildrenOf(w, r) && ParentKey(w', r) == ParentKey(w, r)
  {
  }

  lemma SameShapeTree(w: World, w': World)
    requires TreeOk(w) && SameShape(w, w')
    ensures TreeOk(w')
  {
    SameShapeLists(w, w');
    forall k | k in w'.layers
      ensures w'.db.children[k] == w'.layers[k].children && w'.db.layerLogs[k] == w'.layers[k].log
    {
      assert w'.layers[k].children == w.layers[k].children;
      assert w.db.children[k] == w.layers[k].children && w.db.layerLogs[k] == w.layers[k].log;
    }
  }

  /** Any sweep, at any time, of any of the slots of a queued version. */
  lemma CollectOk(keccak: Hasher, w: World, opts: Retention, a: Address, v: nat, slots: set<Hash>)
    requires Safe(keccak, w, opts)
    ensures Unobservable(keccak, w, CollectStep(w, a, v, slots), opts)
  {
    if (a, v) in w.db.gc {
      var w' := CollectStep(w, a, v, slots);
      SweepIsSafe(keccak, w.db, a, v, slots);
      SameShapeTree(w, w');
      ContentsKept(keccak, w, w');
      DestructPreserves(w, w');
    } else {
      NothingHappens(w);
    }
  }

  lemma {:induction false} SameShapeView(w: World, w': World, r: Parent)
    requires Linked(w) && Linked(w') && SameShape(w, w') && w'.db == w.db && Live(w, r)
    ensures ViewAt(w', r) == ViewAt(w, r)
    decreases Rank(r)
  {
    if r.Layer? {
      assert w'.layers[r.key].log == w.layers[r.key].log;
      SameShapeView(w, w', w.layers[r.key].parent);
    }
  }

  lemma RecachedLogs(keccak: Hasher, w: World, w': World)
    requires Linked(w) && Linked(w') && LogsOk(keccak, w) && SameShape(w, w') && w'.db == w.db
    ensures LogsOk(keccak, w')
  {
    forall j | j in w'.layers ensures FitsAt(keccak, w', j) {
      assert w'.layers[j].parent == w.layers[j].parent && w'.layers[j].log == w.layers[j].log;
      assert FitsAt(keccak, w, j);
      SameShapeView(w, w', w.layers[j].parent);
    }
  }

  lemma RecachedCaches(w: World, w': World)
    requires Linked(w) && Linked(w') && SameShape(w, w') && w'.db == w.db
    requires forall k {:trigger w'.layers[k]} :: k in w'.layers ==> CacheOk(w'.layers[k].cache, ViewAt(w, Layer(k)))
    ensures CachesOk(w')
  {
    forall j | j in w'.layers ensures CachedAt(w', j) {
      assert CacheOk(w'.layers[j].cache, ViewAt(w, Layer(j)));
      SameShapeView(w, w', Layer(j));
    }
  }

  lemma RecachedPreserves(w: World, w': World)
    requires Linked(w) && Linked(w') && SameShape(w, w') && w'.db == w.db
    ensures Preserved(w, w')
  {
    forall j | LiveKey(w', j) ensures LiveKey(w, j) && LiveEq(KeyView(w, j), KeyView(w', j)) {
      SameShapeView(w, w', Ref(w, j));
      LiveEqReflexive(KeyView(w, j));
    }
  }

  /** Changing caches to others that do not lie changes nothing that can be read. */
  lemma Recached(keccak: Hasher, w: World, w': World, opts: Retention)
    requires Safe(keccak, w, opts) && SameShape(w, w') && w'.db == w.db
    requires forall k {:trigger w'.layers[k]} :: k in w'.layers ==> CacheOk(w'.layers[k].cache, ViewAt(w, Layer(k)))
    ensures Unobservable(keccak, w, w', opts)
  {
    SameShapeTree(w, w');
    RecachedLogs(keccak, w, w');
    RecachedCaches(w, w');
    RecachedPreserves(w, w');
  }

  lemma SetCacheShape(w: World, k: StateKey, cache: Cache)
    requires k in w.layers
    ensures SameShape(w, SetCache(w, k, cache)) && SetCache(w, k, cache).db == w.db
    ensures forall j {:trigger SetCache(w, k, cache).layers[j]} :: j in w.layers ==>
              SetCache(w, k, cache).layers[j].cache == if j == k then cache else w.layers[j].cache
  {
  }

  /** Filling a cache with what the lookup returned, whatever is evicted. */
  lemma SetCacheOk(keccak: Hasher, w: World, opts: Retention, k: StateKey, cache: Cache)
    requires Safe(keccak, w, opts) && k in w.layers && CacheOk(cache, ViewAt(w, Layer(k)))
    ensures Unobservable(keccak, w, SetCache(w, k, cache), opts)
  {
    SetCacheShape(w, k, cache);
    CacheReplaced(keccak, w, SetCache(w, k, cache), opts, k, cache);
  }

  lemma CacheReplaced(keccak: Hasher, w: World, w': World, opts: Retention, k: StateKey, cache: Cache)
    requires Safe(keccak, w, opts) && k in w.layers && CacheOk(cache, ViewAt(w, Layer(k)))
    requires SameShape(w, w') && w'.db == w.db
    requires forall j {:trigger w'.layers[j]} :: j in w.layers ==>
               w'.layers[j].cache == if j == k then cache else w.layers[j].cache
    ensures Unobservable(keccak, w, w', opts)
  {
    forall j | j in w'.layers ensures CacheOk(w'.layers[j].cache, ViewAt(w, Layer(j))) {
      if j != k { assert CachedAt(w, j); }
    }
    Recached(keccak, w, w', opts);
  }

  lemma FillAccountOk(keccak: Hasher, w: World, k: StateKey, a: Address, evicted: set<Address>)
    requires Linked(w) && CachesOk(w) && k in w.layers && a !in w.layers[k].log.updatedAccounts
    ensures CacheOk(AccountCache(w, k, a, evicted), ViewAt(w, Layer(k)))
  {
    CachedAcctIsUncached(w, w.layers[k].parent, a);
    assert CachedAt(w, k);
  }

  lemma FillSlotOk(keccak: Hasher, w: World, k: StateKey, a: Address, v: nat, slot: Hash,
                   gone: set<(Address, nat, Hash)>)
    requires Linked(w) && LogsOk(keccak, w) && CachesOk(w) && k in w.layers && SlotMissing(w.layers[k].log, a, v, slot)
    ensures CacheOk(SlotCache(w, k, a, v, slot, gone), ViewAt(w, Layer(k)))
  {
    var node, u := w.layers[k], ViewAt(w, Layer(k));
    assert CachedAt(w, k) && FitsAt(keccak, w, k);
    if u.acct(a).version <= v {
      VersionsGrow(keccak, node.log, ViewAt(w, node.parent), a);
      CachedSlotIsUncached(keccak, w, node.parent, a, v, slot);
      assert u.slot(a, v, slot) == CachedSlot(w, node.parent, a, v, slot);
    }
  }

  lemma FillCodeOk(keccak: Hasher, w: World, k: StateKey, h: Hash, dropped: set<Hash>)
    requires Linked(w) && LogsOk(keccak, w) && CachesOk(w) && k in w.layers && h !in w.layers[k].log.codePreimage
    ensures CacheOk(CodeCache(w, k, h, dropped), ViewAt(w, Layer(k)))
  {
    var node, u := w.layers[k], ViewAt(w, Layer(k));
    assert CachedAt(w, k) && FitsAt(keccak, w, k);
    if h != EMPTY_CODE_HASH && Holders(u, h) != {} {
      ReferencedBelow(keccak, node.log, ViewAt(w, node.parent), h);
      CachedCodeIsUncached(keccak, w, node.parent, h);
    }
  }

  /** Code that a layer refers to and did not record itself was already referred to below it. */
  lemma ReferencedBelow(keccak: Hasher, log: LayerLog, u: View, h: Hash)
    requires LogFits(keccak, log, u) && h !in log.codePreimage && h != EMPTY_CODE_HASH && Holders(Over(log, u), h) != {}
    ensures Holders(u, h) != {}
  {
    var a :| a in Holders(Over(log, u), h);
    if a in log.updatedAccounts {
      assert log.updatedAccounts[a].codeHash == h;
    } else {
      assert a in Holders(u, h);
    }
  }

  /** The layer that was asked can answer without its parent. */
  predicate AnswersItself(w: World, s: Step)
    requires s.FillAccount? || s.FillSlot? || s.FillCode?
  {
    s.key in w.layers &&
    var node := w.layers[s.key];
    match s
    case FillAccount(_, a, _) => a in node.log.updatedAccounts || a in node.cache.accts
    case FillSlot(_, a, v, slot, _) => !SlotMissing(node.log, a, v, slot) || (a, v, slot) in node.cache.slots
    case FillCode(_, h, _) => h in node.log.codePreimage || h in node.cache.codes
  }

  lemma FilledAnswers(w: World, s: Step)
    requires Linked(w) && (s.FillAccount? || s.FillSlot? || s.FillCode?) && s.key in w.layers
    ensures AnswersItself(FillStep(w, s), s)
  {
  }

  lemma FillOk(keccak: Hasher, w: World, opts: Retention, s: Step)
    requires Safe(keccak, w, opts) && (s.FillAccount? || s.FillSlot? || s.FillCode?)
    ensures Unobservable(keccak, w, FillStep(w, s), opts)
    ensures s.key in w.layers ==> AnswersItself(FillStep(w, s), s)
  {
    if s.key in w.layers { FilledAnswers(w, s); }
    NothingHappens(w);
    if s.key in w.layers {
      match s
      case FillAccount(k, a, evicted) =>
        if a !in w.layers[k].log.updatedAccounts {
          FillAccountOk(keccak, w, k, a, evicted);
          SetCacheOk(keccak, w, opts, k, AccountCache(w, k, a, evicted));
        }
      case FillSlot(k, a, v, slot, gone) =>
        if SlotMissing(w.layers[k].log, a, v, slot) {
          FillSlotOk(keccak, w, k, a, v, slot, gone);
          SetCacheOk(keccak, w, opts, k, SlotCache(w, k, a, v, slot, gone));
        }
      case FillCode(k, h, dropped) =>
        if h !in w.layers[k].log.codePreimage {
          FillCodeOk(keccak, w, k, h, dropped);
          SetCacheOk(keccak, w, opts, k, CodeCache(w, k, h, dropped));
        }
    }
  }

  lemma RestartOk(keccak: Hasher, w: World, opts: Retention)
    requires Safe(keccak, w, opts)
    ensures RestartStep(w) == Restarted(w)
    ensures Unobservable(keccak, w, Restarted(w), opts)
  {
    RestartIsContinuing(w);
    RestartedShape(w, Restarted(w));
    ColdIsFine(keccak, w, Restarted(w), opts);
  }

  lemma ColdIsFine(keccak: Hasher, w: World, w': World, opts: Retention)
    requires Safe(keccak, w, opts) && SameShape(w, w') && w'.db == w.db
    requires forall k {:trigger w'.layers[k]} :: k in w'.layers ==> w'.layers[k].cache == NO_CACHE
    ensures Unobservable(keccak, w, w', opts)
  {
    forall k {:trigger w'.layers[k]} | k in w'.layers ensures CacheOk(w'.layers[k].cache, ViewAt(w, Layer(k))) {
      EmptyCacheOk(ViewAt(w, Layer(k)));
    }
    Recached(keccak, w, w', opts);
  }

  lemma RestartedShape(w: World, w': World)
    requires Linked(w) && w' == Restarted(w)
    ensures SameShape(w, w') && w'.db == w.db
    ensures forall k {:trigger w'.layers[k]} :: k in w'.layers ==> w'.layers[k].cache == NO_CACHE
  {
    assert w'.layers.Keys == w.layers.Keys;
  }

  // --------------------------------------------------------------- whole runs

  ghost predicate Commits(w: World, s: Step) {
    s.Commit? && Linked(w) && LiveKey(w, s.parent) && !Has(w.archive, KeyOf(s.log))
  }

  lemma StepUnobservable(keccak: Hasher, w: World, opts: Retention, s: Step)
    requires Safe(keccak, w, opts) && !Commits(w, s)
    ensures Unobservable(keccak, w, Next(w, opts, s), opts)
  {
    if s.Commit? {
      NothingHappens(w);
    } else if s.Destruct? {
      DestructOk(keccak, w, opts, s.parent, s.child);
    } else if s.Collect? {
      CollectOk(keccak, w, opts, s.addr, s.version, s.slots);
    } else {
      RefreshOk(keccak, w, opts, s);
    }
  }

  lemma RefreshOk(keccak: Hasher, w: World, opts: Retention, s: Step)
    requires Safe(keccak, w, opts) && (s.FillAccount? || s.FillSlot? || s.FillCode? || s.Restart?)
    ensures Unobservable(keccak, w, Next(w, opts, s), opts)
  {
    var w' := Next(w, opts, s);
    if s.Restart? {
      RestartNext(w, opts);
      RestartedOk(keccak, w, opts, w');
    } else {
      FillNext(w, opts, s);
      FilledOk(keccak, w, opts, s, w');
    }
  }

  lemma RestartNext(w: World, opts: Retention)
    ensures Next(w, opts, Restart) == RestartStep(w)
  {
  }

  lemma FillNext(w: World, opts: Retention, s: Step)
    requires s.FillAccount? || s.FillSlot? || s.FillCode?
    ensures Next(w, opts, s) == FillStep(w, s)
  {
  }

  lemma RestartedOk(keccak: Hasher, w: World, opts: Retention, w': World)
    requires Safe(keccak, w, opts) && w' == RestartStep(w)
    ensures Unobservable(keccak, w, w', opts)
  {
    RestartOk(keccak, w, opts);
  }

  lemma FilledOk(keccak: Hasher, w: World, opts: Retention, s: Step, w': World)
    requires Safe(keccak, w, opts) && (s.FillAccount? || s.FillSlot? || s.FillCode?) && w' == FillStep(w, s)
    ensures Unobservable(keccak, w, w', opts)
  {
    FillOk(keccak, w, opts, s);
  }

  /** The simple machine: one view per committed block, never changed again. */
  type Ledger = map<StateKey, View>

  ghost function Record(w: World, ledger: Ledger, s: Step): Ledger {
    if Commits(w, s) && s.parent in ledger then ledger[KeyOf(s.log) := Over(s.log, ledger[s.parent])] else ledger
  }

  /** Every live state reads as the ledger says. */
  ghost predicate Agrees(w: World, ledger: Ledger)
    requires Linked(w)
  {
    forall k :: LiveKey(w, k) ==> k in ledger && LiveEq(ledger[k], KeyView(w, k))
  }

  ghost function Run(w: World, opts: Retention, steps: seq<Step>): World
    decreases |steps|
  {
    if steps == [] then w else Run(Next(w, opts, steps[0]), opts, steps[1..])
  }

  ghost function RecordAll(w: World, opts: Retention, ledger: Ledger, steps: seq<Step>): Ledger
    decreases |steps|
  {
    if steps == [] then ledger else RecordAll(Next(w, opts, steps[0]), opts, Record(w, ledger, steps[0]), steps[1..])
  }

  ghost predicate AllPossible(keccak: Hasher, w: World, opts: Retention, steps: seq<Step>)
    decreases |steps|
  {
    steps == [] || (Possible(keccak, w, steps[0]) && AllPossible(keccak, Next(w, opts, steps[0]), opts, steps[1..]))
  }

  lemma StepAgrees(keccak: Hasher, w: World, opts: Retention, ledger: Ledger, s: Step)
    requires Hashes(keccak) && Sensible(opts) && Safe(keccak, w, opts) && Possible(keccak, w, s) && Agrees(w, ledger)
    ensures Safe(keccak, Next(w, opts, s), opts) && Agrees(Next(w, opts, s), Record(w, ledger, s))
  {
    var w', ledger' := Next(w, opts, s), Record(w, ledger, s);
    if Commits(w, s) {
      CommitAgrees(keccak, w, opts, ledger, s.parent, s.log);
    } else {
      StepUnobservable(keccak, w, opts, s);
      forall k | LiveKey(w', k) ensures k in ledger && LiveEq(ledger[k], KeyView(w', k)) {
        LiveEqTransitive(ledger[k], KeyView(w, k), KeyView(w', k));
      }
    }
  }

  lemma CommitAgrees(keccak: Hasher, w: World, opts: Retention, ledger: Ledger, p: StateKey, log: LayerLog)
    requires Hashes(keccak) && Sensible(opts) && Safe(keccak, w, opts) && Agrees(w, ledger)
    requires LiveKey(w, p) && !Has(w.archive, KeyOf(log))
    requires log.blockNumber == p.height + 1 && LogFits(keccak, log, KeyView(w, p))
    ensures p in ledger && Safe(keccak, CommitStep(w, opts, p, log), opts)
    ensures Agrees(CommitStep(w, opts, p, log), ledger[KeyOf(log) := Over(log, ledger[p])])
  {
    CommitOk(keccak, w, opts, p, log);
    LedgerGrows(keccak, w, CommitStep(w, opts, p, log), ledger, p, log);
  }

  lemma LedgerGrows(keccak: Hasher, w: World, w': World, ledger: Ledger, p: StateKey, log: LayerLog)
    requires Linked(w) && Linked(w') && Agrees(w, ledger) && LiveKey(w, p) && LogFits(keccak, log, KeyView(w, p))
    requires LiveKey(w', KeyOf(log)) && LiveEq(Over(log, KeyView(w, p)), KeyView(w', KeyOf(log)))
    requires forall j :: LiveKey(w', j) && j != KeyOf(log) ==> LiveKey(w, j) && LiveEq(KeyView(w, j), KeyView(w', j))
    ensures p in ledger && Agrees(w', ledger[KeyOf(log) := Over(log, ledger[p])])
  {
    var k := KeyOf(log);
    assert p in ledger && LiveEq(ledger[p], KeyView(w, p));
    LiveEqSymmetric(ledger[p], KeyView(w, p));
    LogFitsLiveEq(keccak, log, KeyView(w, p), ledger[p]);
    OverLiveEq(keccak, log, ledger[p], KeyView(w, p));
    var ledger' := ledger[k := Over(log, ledger[p])];
    forall j | LiveKey(w', j) ensures j in ledger' && LiveEq(ledger'[j], KeyView(w', j)) {
      if j == k {
        LiveEqTransitive(ledger'[k], Over(log, KeyView(w, p)), KeyView(w', k));
      } else {
        LiveEqTransitive(ledger[j], KeyView(w, j), KeyView(w', j));
      }
    }
  }

  /**
   The main result: after any run of commits, prunes, destructions, sweeps, cache fills with arbitrary eviction and
   restarts, every live state reads as the plain ledger of committed blocks, the depth bound holds, and so do all
   invariants of the tree, the archive, the database and the caches.
   */
  lemma {:induction false} RunAgrees(keccak: Hasher, w: World, opts: Retention, ledger: Ledger, steps: seq<Step>)
    requires Hashes(keccak) && Sensible(opts) && Safe(keccak, w, opts) && Agrees(w, ledger)
    requires AllPossible(keccak, w, opts, steps)
    ensures Safe(keccak, Run(w, opts, steps), opts)
    ensures Agrees(Run(w, opts, steps), RecordAll(w, opts, ledger, steps))
    decreases |steps|
  {
    if steps != [] {
      StepAgrees(keccak, w, opts, ledger, steps[0]);
      RunAgrees(keccak, Next(w, opts, steps[0]), opts, Record(w, ledger, steps[0]), steps[1..]);
    }
  }

  /** The same, said of plain account maps. */
  lemma RunIsPlain(keccak: Hasher, w: World, opts: Retention, ledger: Ledger, steps: seq<Step>, k: StateKey)
    requires Hashes(keccak) && Sensible(opts) && Safe(keccak, w, opts) && Agrees(w, ledger)
    requires AllPossible(keccak, w, opts, steps)
    requires LiveKey(Run(w, opts, steps), k)
    ensures Linked(Run(w, opts, steps)) && k in RecordAll(w, opts, ledger, steps)
    ensures PlainEq(RecordAll(w, opts, ledger, steps)[k], KeyView(Run(w, opts, steps), k))
  {
    RunAgrees(keccak, w, opts, ledger, steps);
    LiveEqIsPlainEq(RecordAll(w, opts, ledger, steps)[k], KeyView(Run(w, opts, steps), k));
  }
}
