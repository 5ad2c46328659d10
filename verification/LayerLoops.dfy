/** The loops of the layer operations, one round at a time: what has been destroyed, loaded or re-parented so far. */
module LayerLoops {
  import opened Types
  import opened Views
  import opened Database
  import opened LayerTree
  import opened LayerSteps
  import opened LayerPrune
  import opened LayerRestart
  import opened LayerRuns

  // ---------------------------------------------------------------- archives

  ghost predicate NoEmptyHeights(archive: map<nat, set<Hash>>) {
    forall h :: h in archive ==> archive[h] != {}
  }

  lemma SameArchive(a: map<nat, set<Hash>>, b: map<nat, set<Hash>>, live: set<StateKey>)
    requires NoEmptyHeights(a) && NoEmptyHeights(b)
    requires forall k: StateKey :: (Has(a, k) <==> k in live) && (Has(b, k) <==> k in live)
    ensures a == b
  {
    ArchiveIsIndex(a, live);
    ArchiveIsIndex(b, live);
  }

  /** after is before with these states registered. */
  ghost predicate Registered(before: map<nat, set<Hash>>, after: map<nat, set<Hash>>, more: set<StateKey>) {
    && (NoEmptyHeights(before) ==> NoEmptyHeights(after))
    && (forall k: StateKey :: Has(after, k) <==> Has(before, k) || k in more)
  }

  lemma RegisteredOne(archive: map<nat, set<Hash>>, k: StateKey)
    ensures Registered(archive, Register(archive, k), {k})
  {
  }

  lemma RegisteredMore(a: map<nat, set<Hash>>, b: map<nat, set<Hash>>, c: map<nat, set<Hash>>, x: set<StateKey>,
                       y: set<StateKey>)
    requires Registered(a, b, x) && Registered(b, c, y)
    ensures Registered(a, c, x + y)
  {
  }

  lemma RootsOfBoth(a: set<StateKey>, b: set<StateKey>, h: nat)
    ensures RootsAt(a + b, h) == RootsAt(a, h) + RootsAt(b, h)
  {
    forall c | c in RootsAt(a, h) + RootsAt(b, h) ensures c in RootsAt(a + b, h) {
      if c in RootsAt(a, h) {
        var k :| k in a && k.height == h && k.root == c;
        assert k in a + b;
      } else {
        var k :| k in b && k.height == h && k.root == c;
        assert k in a + b;
      }
    }
  }

  lemma UnindexedTwice(archive: map<nat, set<Hash>>, a: set<StateKey>, b: set<StateKey>)
    ensures Unindexed(Unindexed(archive, a), b) == Unindexed(archive, a + b)
  {
    var once, both := Unindexed(archive, a), Unindexed(archive, a + b);
    var twice := Unindexed(once, b);
    forall h: nat
      ensures h in twice <==> h in both
      ensures h in twice ==> twice[h] == both[h]
    {
      RootsOfBoth(a, b, h);
      if h in archive { assert archive[h] - RootsAt(a, h) - RootsAt(b, h) == archive[h] - RootsAt(a + b, h); }
    }
  }

  lemma RootsOfOne(k: StateKey, h: nat)
    ensures RootsAt({k}, h) == if h == k.height then {k.root} else {}
  {
    if h == k.height { assert k in {k}; }
  }

  lemma UnindexedOne(archive: map<nat, set<Hash>>, k: StateKey)
    requires NoEmptyHeights(archive)
    ensures Unindexed(archive, {k}) == Deregister(archive, k)
  {
    forall h: nat | h in archive
      ensures archive[h] - RootsAt({k}, h) == if h == k.height then archive[h] - {k.root} else archive[h]
    {
      RootsOfOne(k, h);
    }
  }

  lemma UnindexedNone(archive: map<nat, set<Hash>>)
    requires NoEmptyHeights(archive)
    ensures Unindexed(archive, {}) == archive
  {
    forall h: nat | h in archive ensures archive[h] - RootsAt({}, h) == archive[h] { assert RootsAt({}, h) == {}; }
  }

  // ------------------------------------------------------------- destruction

  lemma DestroyedNone(w: World)
    requires NoEmptyHeights(w.archive)
    ensures Destroyed(w, {}) == w
  {
    UnindexedNone(w.archive);
  }

  /** Destroying in two rounds is destroying at once. */
  lemma DestroyedTwice(w: World, a: set<StateKey>, b: set<StateKey>)
    ensures Destroyed(Destroyed(w, a), b) == Destroyed(w, a + b)
  {
    UnindexedTwice(w.archive, a, b);
    assert w.db.children - a - b == w.db.children - (a + b);
    assert w.db.layerLogs - a - b == w.db.layerLogs - (a + b);
    assert w.layers - a - b == w.layers - (a + b);
  }

  lemma SubtreesMore(w: World, h: nat, hashes: seq<Hash>, c: Hash)
    requires Linked(w)
    ensures Subtrees(w, h, hashes + [c]) == Subtrees(w, h, hashes) + Desc(w, StateKey(h, c))
  {
    forall j ensures j in Subtrees(w, h, hashes + [c]) <==> j in Subtrees(w, h, hashes) + Desc(w, StateKey(h, c)) {
      InSubtrees(w, h, hashes, j);
      InSubtrees(w, h, hashes + [c], j);
      if j in Subtrees(w, h, hashes) {
        var d: Hash :| d in hashes && IsDesc(w, StateKey(h, d), j);
        assert d in hashes + [c];
      }
      if IsDesc(w, StateKey(h, c), j) { assert c in hashes + [c]; }
    }
  }

  /** Subtrees that start at the same height do not meet. */
  lemma {:induction false} SubtreesApart(w: World, a: StateKey, b: StateKey, j: StateKey)
    requires Linked(w) && a.height == b.height && IsDesc(w, a, j) && IsDesc(w, b, j)
    ensures a == b
    decreases j.height
  {
    if j != a && j != b {
      SubtreesApart(w, a, b, w.layers[j].parent.key);
    } else {
      NotBelow(w, a, j);
      NotBelow(w, b, j);
      if j != a { NotBelow(w, a, w.layers[j].parent.key); }
      if j != b { NotBelow(w, b, w.layers[j].parent.key); }
    }
  }

  /** The next subtree in the list is whole when those before it are gone. */
  lemma NextIsWhole(w: World, h: nat, hashes: seq<Hash>, i: nat)
    requires Linked(w) && NoDuplicates(hashes) && i < |hashes|
    ensures Desc(w, StateKey(h, hashes[i])) !! Subtrees(w, h, hashes[..i])
  {
    forall j | j in Subtrees(w, h, hashes[..i]) && j in Desc(w, StateKey(h, hashes[i])) ensures false {
      InSubtrees(w, h, hashes[..i], j);
      var c: Hash :| c in hashes[..i] && IsDesc(w, StateKey(h, c), j);
      SubtreesApart(w, StateKey(h, c), StateKey(h, hashes[i]), j);
    }
  }

  lemma ChildIsBelow(w: World, k: StateKey, i: nat)
    requires Linked(w) && Mirrored(w) && k in w.layers && i < |w.layers[k].children|
    ensures var c := StateKey(k.height + 1, w.layers[k].children[i]);
            c in w.layers && k in Desc(w, k) && k !in Desc(w, c) && Desc(w, c) <= Desc(w, k)
  {
    var c := StateKey(k.height + 1, w.layers[k].children[i]);
    assert Listed(w, Layer(k), c);
    assert IsDesc(w, k, k);
    if k in Desc(w, c) { NotBelow(w, c, k); }
    forall j | j in Desc(w, c) ensures j in Desc(w, k) { ChildIsDesc(w, k, c.root, j); }
  }

  lemma DestroyedOne(w: World, k: StateKey)
    requires NoEmptyHeights(w.archive)
    ensures Destroyed(w, {k}) == w.(db := w.db.(children := w.db.children - {k}, layerLogs := w.db.layerLogs - {k}),
                                    archive := Deregister(w.archive, k), layers := w.layers - {k})
  {
    UnindexedOne(w.archive, k);
  }

  lemma DestroyedNoEmptyHeights(w: World, dead: set<StateKey>)
    ensures NoEmptyHeights(Destroyed(w, dead).archive)
  {
  }

  ghost predicate Destructible(w: World) {
    Linked(w) && Mirrored(w) && ListsOk(w) && NoEmptyHeights(w.archive)
  }

  /** What is gone when the first i subtrees above k have been destroyed too. */
  ghost function Gone(w: World, k: StateKey, dead: set<StateKey>, i: nat): set<StateKey>
    requires Linked(w) && k in w.layers && i <= |w.layers[k].children|
  {
    dead + Subtrees(w, k.height + 1, w.layers[k].children[..i])
  }

  lemma NextSubtree(w: World, k: StateKey, dead: set<StateKey>, i: nat, c: StateKey)
    requires Destructible(w) && k in w.layers && Desc(w, k) !! dead && i < |w.layers[k].children|
    requires c == StateKey(k.height + 1, w.layers[k].children[i])
    ensures c in w.layers && Desc(w, c) !! Gone(w, k, dead, i) && Desc(w, c) < Desc(w, k)
    ensures Gone(w, k, dead, i + 1) == Gone(w, k, dead, i) + Desc(w, c)
  {
    assert NoDuplicates(ChildrenOf(w, Layer(k)));
    ChildIsBelow(w, k, i);
    NextIsWhole(w, k.height + 1, w.layers[k].children, i);
    OneMoreGone(w, k, dead, i, c);
  }

  lemma OneMoreGone(w: World, k: StateKey, dead: set<StateKey>, i: nat, c: StateKey)
    requires Linked(w) && k in w.layers && i < |w.layers[k].children|
    requires c == StateKey(k.height + 1, w.layers[k].children[i])
    ensures Gone(w, k, dead, i + 1) == Gone(w, k, dead, i) + Desc(w, c)
  {
    var children := w.layers[k].children;
    assert children[..i + 1] == children[..i] + [children[i]];
    SubtreesMore(w, k.height + 1, children[..i], children[i]);
  }

  lemma SubtreeStarts(w: World, k: StateKey, dead: set<StateKey>)
    requires Linked(w) && k in w.layers && Desc(w, k) !! dead
    ensures Gone(w, k, dead, 0) == dead && k in Destroyed(w, dead).layers && Destroyed(w, dead).layers[k] == w.layers[k]
  {
    DescBelowRoot(w, k);
  }

  /** The root of a subtree goes last, when everything above it is gone. */
  lemma DestructedLast(w: World, dead: set<StateKey>, gone: set<StateKey>, k: StateKey, before: World, after: World)
    requires Destructible(w) && k in w.layers
    requires gone == Gone(w, k, dead, |w.layers[k].children|) && before == Destroyed(w, gone)
    requires after == before.(db := before.db.(children := before.db.children - {k},
                                               layerLogs := before.db.layerLogs - {k}),
                              archive := Deregister(before.archive, k), layers := before.layers - {k})
    ensures after == Destroyed(w, dead + Desc(w, k))
  {
    assert w.layers[k].children[..|w.layers[k].children|] == w.layers[k].children;
    DestroyedNoEmptyHeights(w, gone);
    DestroyedOne(before, k);
    DestroyedTwice(w, gone, {k});
    SubtreesOfChildren(w, k);
    assert gone + {k} == dead + Desc(w, k);
  }

  lemma {:induction false} WithoutFound(s: seq<Hash>, x: Hash, i: nat)
    requires i < |s| && s[i] == x && x !in s[..i]
    ensures Without(s, x) == s[..i] + s[i + 1..]
  {
    if i > 0 {
      assert s[1..][..i - 1] == s[1..i] && s[1..][i..] == s[i + 1..];
      assert s[0] == s[..i][0];
      WithoutFound(s[1..], x, i - 1);
    }
  }

  /** The child found in the list can be destroyed, and then leaves the list. */
  lemma FoundChild(w: World, r: Parent, c: Hash, k: StateKey, list: seq<Hash>, i: nat)
    requires TreeOk(w) && Live(w, r) && list == ChildrenOf(w, r) && i < |list| && list[i] == c && k == ChildKey(w, r, c)
    ensures CanDestruct(w, r, c) && Destructible(w) && k in w.layers
    ensures Live(Destroyed(w, Desc(w, k)), r)
  {
    ParentSurvives(w, r, c);
  }

  lemma FoundChildGoes(w: World, r: Parent, c: Hash, k: StateKey, list: seq<Hash>, i: nat, rest: seq<Hash>)
    requires CanDestruct(w, r, c) && list == ChildrenOf(w, r) && i < |list| && list[i] == c && c !in list[..i]
    requires rest == list[..i] + list[i + 1..]
    requires k == ChildKey(w, r, c) && Live(Destroyed(w, Desc(w, k)), r)
    ensures DestructStep(w, ParentKey(w, r), c) == SetChildren(Destroyed(w, Desc(w, k)), r, rest)
  {
    ParentSurvives(w, r, c);
    WithoutFound(list, c, i);
    RefBack(w, r);
  }

  lemma MissingChildStays(w: World, r: Parent, c: Hash)
    requires Linked(w) && Live(w, r) && c !in ChildrenOf(w, r)
    ensures DestructStep(w, ParentKey(w, r), c) == w
  {
    RefBack(w, r);
  }

  lemma RefBack(w: World, r: Parent)
    requires Linked(w) && Live(w, r)
    ensures LiveKey(w, ParentKey(w, r)) && Ref(w, ParentKey(w, r)) == r
  {
    if r.Layer? { TopIsBelow(w, r.key); }
  }

  // ----------------------------------------------------------------- loading

  /** Loading adds states at or above the height it starts from. */
  lemma {:induction false} LoadHeights(db: Database, r: Parent, k: StateKey)
    ensures Load(db, r, k).Some? ==> forall j :: j in Load(db, r, k).value ==> j.height >= k.height
    decreases Above(db, k.height), 0
  {
    if k in db.layerLogs && k in db.children {
      assert k in Above(db, k.height) - Above(db, k.height + 1);
      LoadAllHeights(db, Layer(k), k.height + 1, db.children[k]);
    }
  }

  lemma {:induction false} LoadAllHeights(db: Database, r: Parent, h: nat, hashes: seq<Hash>)
    ensures LoadAll(db, r, h, hashes).Some? ==> forall j :: j in LoadAll(db, r, h, hashes).value ==> j.height >= h
    decreases Above(db, h), |hashes| + 1
  {
    if hashes != [] {
      LoadHeights(db, r, StateKey(h, hashes[0]));
      LoadAllHeights(db, r, h, hashes[1..]);
    }
  }

  /** What loading the whole list gives when the states of its first part have been loaded as done. */
  ghost predicate Loading(db: Database, r: Parent, h: nat, hashes: seq<Hash>, done: map<StateKey, Node>, i: nat)
    requires i <= |hashes|
  {
    LoadAll(db, r, h, hashes) ==
      match LoadAll(db, r, h, hashes[i..]) case None => None case Some(rest) => Some(done + rest)
  }

  lemma LoadingStarts(db: Database, r: Parent, h: nat, hashes: seq<Hash>)
    ensures Loading(db, r, h, hashes, map[], 0)
  {
    assert hashes[0..] == hashes;
    match LoadAll(db, r, h, hashes) case Some(all) => assert map[] + all == all; case None =>
  }

  lemma LoadingStep(db: Database, r: Parent, h: nat, hashes: seq<Hash>, done: map<StateKey, Node>, i: nat)
    requires i < |hashes| && Loading(db, r, h, hashes, done, i)
    ensures Load(db, r, StateKey(h, hashes[i])).None? ==> LoadAll(db, r, h, hashes).None?
    ensures Load(db, r, StateKey(h, hashes[i])).Some? ==>
              Loading(db, r, h, hashes, done + Load(db, r, StateKey(h, hashes[i])).value, i + 1)
  {
    var tail := hashes[i..];
    assert tail[0] == hashes[i] && tail[1..] == hashes[i + 1..];
    match Load(db, r, StateKey(h, hashes[i]))
    case None =>
    case Some(first) =>
      match LoadAll(db, r, h, hashes[i + 1..])
      case None =>
      case Some(rest) => assert done + (first + rest) == (done + first) + rest;
  }

  lemma LoadingEnds(db: Database, r: Parent, h: nat, hashes: seq<Hash>, done: map<StateKey, Node>)
    requires Loading(db, r, h, hashes, done, |hashes|)
    ensures LoadAll(db, r, h, hashes) == Some(done)
  {
    var none: map<StateKey, Node> := map[];
    assert done + none == done;
  }

  /** Layers and archive when the first i states of the list have been loaded as done. */
  ghost predicate LoadedSoFar(db: Database, r: Parent, h: nat, hashes: seq<Hash>, layers: map<StateKey, Node>,
                              states: map<nat, set<Hash>>, layers': map<StateKey, Node>, states': map<nat, set<Hash>>,
                              done: map<StateKey, Node>, i: nat)
    requires i <= |hashes|
  {
    layers' == layers + done && Registered(states, states', done.Keys) && Loading(db, r, h, hashes, done, i)
  }

  lemma NoneLoaded(db: Database, r: Parent, h: nat, hashes: seq<Hash>, layers: map<StateKey, Node>,
                   states: map<nat, set<Hash>>)
    ensures LoadedSoFar(db, r, h, hashes, layers, states, layers, states, map[], 0)
  {
    LoadingStarts(db, r, h, hashes);
  }

  lemma OneMoreLoaded(db: Database, r: Parent, h: nat, hashes: seq<Hash>, layers: map<StateKey, Node>,
                      states: map<nat, set<Hash>>, layers1: map<StateKey, Node>, states1: map<nat, set<Hash>>,
                      layers2: map<StateKey, Node>, states2: map<nat, set<Hash>>, done: map<StateKey, Node>, i: nat,
                      first: map<StateKey, Node>)
    requires i < |hashes| && LoadedSoFar(db, r, h, hashes, layers, states, layers1, states1, done, i)
    requires Load(db, r, StateKey(h, hashes[i])) == Some(first)
    requires layers2 == layers1 + first && Registered(states1, states2, first.Keys)
    ensures LoadedSoFar(db, r, h, hashes, layers, states, layers2, states2, done + first, i + 1)
  {
    LoadingStep(db, r, h, hashes, done, i);
    LayersJoined(layers, states, layers1, states1, layers2, states2, done, first);
  }

  lemma LayersJoined(layers: map<StateKey, Node>, states: map<nat, set<Hash>>, layers1: map<StateKey, Node>,
                     states1: map<nat, set<Hash>>, layers2: map<StateKey, Node>, states2: map<nat, set<Hash>>,
                     done: map<StateKey, Node>, first: map<StateKey, Node>)
    requires layers1 == layers + done && Registered(states, states1, done.Keys)
    requires layers2 == layers1 + first && Registered(states1, states2, first.Keys)
    ensures layers2 == layers + (done + first) && Registered(states, states2, (done + first).Keys)
  {
    RegisteredMore(states, states1, states2, done.Keys, first.Keys);
    assert (done + first).Keys == done.Keys + first.Keys;
    assert (layers + done) + first == layers + (done + first);
  }

  lemma AllLoaded(db: Database, r: Parent, h: nat, hashes: seq<Hash>, layers: map<StateKey, Node>,
                  states: map<nat, set<Hash>>, layers': map<StateKey, Node>, states': map<nat, set<Hash>>,
                  done: map<StateKey, Node>)
    requires LoadedSoFar(db, r, h, hashes, layers, states, layers', states', done, |hashes|)
    ensures LoadAll(db, r, h, hashes) == Some(done)
    ensures layers' == layers + done && Registered(states, states', done.Keys)
  {
    LoadingEnds(db, r, h, hashes, done);
  }

  lemma LoadFails(db: Database, r: Parent, h: nat, hashes: seq<Hash>, done: map<StateKey, Node>, i: nat)
    requires i < |hashes| && Loading(db, r, h, hashes, done, i) && Load(db, r, StateKey(h, hashes[i])).None?
    ensures LoadAll(db, r, h, hashes).None?
  {
    LoadingStep(db, r, h, hashes, done, i);
  }

  /** A restart finds the persisted state, its children and everything above them, all registered. */
  lemma ReloadedWorld(db: Database, top: StateKey, layers: map<StateKey, Node>, states: map<nat, set<Hash>>)
    requires db.persisted == Some(top) && top in db.children
    requires LoadAll(db, Persisted, top.height + 1, db.children[top]) == Some(layers)
    requires Registered(map[], states, {top} + layers.Keys)
    ensures Reload(db) == Some(World(db, states, top, db.children[top], layers))
  {
    assert {top} + layers.Keys == layers.Keys + {top};
    ArchiveIsIndex(states, layers.Keys + {top});
    ReloadUnfold(db, top, layers);
  }

  lemma ReloadFails(db: Database)
    requires db.persisted.Some? && db.persisted.value in db.children
    requires LoadAll(db, Persisted, db.persisted.value.height + 1, db.children[db.persisted.value]).None?
    ensures Reload(db).None?
  {
  }

  /** A state that has just been committed loads as a layer without children. */
  lemma LoadFresh(db: Database, r: Parent, k: StateKey)
    requires k in db.layerLogs && k in db.children && db.children[k] == []
    ensures Load(db, r, k) == Some(map[k := Node(r, db.layerLogs[k], [], NO_CACHE)])
  {
    LoadUnfold(db, r, k, map[]);
  }

  lemma NodeThenAbove(layers: map<StateKey, Node>, above: map<StateKey, Node>, k: StateKey, node: Node,
                      hashes: seq<Hash>)
    requires k !in above
    ensures k in layers[k := node] + above
    ensures (layers[k := node] + above)[k := (layers[k := node] + above)[k].(children := hashes)] ==
            layers + above[k := node.(children := hashes)]
  {
  }

  // ----------------------------------------------------------------- lookups

  ghost predicate CodeInUse(w: World, r: Parent, h: Hash)
    requires Linked(w) && Live(w, r)
  {
    h != EMPTY_CODE_HASH && Holders(ViewAt(w, r), h) != {}
  }

  lemma SlotAnswers(keccak: Hasher, w: World, r: Parent, a: Address, v: nat, k: Hash)
    requires Linked(w) && Live(w, r)
    ensures LogsOk(keccak, w) && CachesOk(w) && ViewAt(w, r).acct(a).version <= v ==>
              CachedSlot(w, r, a, v, k) == ViewAt(w, r).slot(a, v, k)
  {
    if LogsOk(keccak, w) && CachesOk(w) && ViewAt(w, r).acct(a).version <= v {
      CachedSlotIsUncached(keccak, w, r, a, v, k);
    }
  }

  lemma CodeAnswers(keccak: Hasher, w: World, r: Parent, h: Hash)
    requires Linked(w) && Live(w, r)
    ensures LogsOk(keccak, w) && CachesOk(w) && CodeInUse(w, r, h) ==>
              CachedCode(w, r, h) == ViewAt(w, r).code(h) && IsCodeOf(keccak, CachedCode(w, r, h), h)
  {
    if LogsOk(keccak, w) && CachesOk(w) && CodeInUse(w, r, h) {
      CachedCodeIsUncached(keccak, w, r, h);
      ViewAtOk(keccak, w, r);
    }
  }

  // ------------------------------------------------------------ cache misses

  predicate MissesAccount(node: Node, a: Address) {
    a !in node.log.updatedAccounts && a !in node.cache.accts
  }

  predicate MissesSlot(node: Node, a: Address, v: nat, k: Hash) {
    SlotMissing(node.log, a, v, k) && (a, v, k) !in node.cache.slots
  }

  predicate MissesCode(node: Node, h: Hash) {
    h !in node.log.codePreimage && h !in node.cache.codes
  }

  // ----------------------------------------------------------------- pruning

  /** PersistLayerLog reads account and code rows, which destroying layers leaves alone. */
  lemma PersistReads(rows: Database, db: Database, db': Database, log: LayerLog)
    requires db'.accountValues == db.accountValues && db'.accountVersions == db.accountVersions && db'.codes == db.codes
    ensures PersistOnto(rows, db', log) == PersistOnto(rows, db, log)
    ensures forall h: Hash, diff: int ::
              CodeRefused(db', h, diff, log.codePreimage) == CodeRefused(db, h, diff, log.codePreimage)
  {
    forall a ensures CommittedVersion(db', a) == CommittedVersion(db, a) {}
    assert Retired(db', log.updatedAccounts) == Retired(db, log.updatedAccounts);
    assert CodesAfter(rows.codes, db', log.updatedCodeCount, log.codePreimage) ==
           CodesAfter(rows.codes, db, log.updatedCodeCount, log.codePreimage);
  }

  /** The layers above these children of the persisted state, the swallowed one excepted. */
  function Branches(w: World, hashes: seq<Hash>, c: Hash): set<StateKey>
    requires Linked(w)
  {
    set k | k in w.layers && Branch(w, k) in hashes && Branch(w, k) != c
  }

  lemma NoBranches(w: World, hashes: seq<Hash>, c: Hash)
    requires Linked(w)
    ensures Branches(w, hashes[..0], c) == {}
  {
  }

  lemma NextBranch(w: World, i: nat, c: Hash, k: StateKey)
    requires Linked(w) && Mirrored(w) && ListsOk(w) && i < |w.topChildren|
    requires k == StateKey(w.top.height + 1, w.topChildren[i])
    ensures var dead, more := Branches(w, w.topChildren[..i], c), Branches(w, w.topChildren[..i + 1], c);
            k in w.layers && Desc(w, k) !! dead && more == if w.topChildren[i] == c then dead else dead + Desc(w, k)
  {
    var hashes := w.topChildren;
    assert NoDuplicates(ChildrenOf(w, Persisted)) && Listed(w, Persisted, k);
    assert hashes[..i + 1] == hashes[..i] + [hashes[i]];
    forall j | j in w.layers ensures Branch(w, j) == hashes[i] <==> j in Desc(w, k) { BranchIsDesc(w, j, hashes[i]); }
  }

  lemma BranchesAreDoomed(w: World, c: Hash)
    requires Linked(w) && Mirrored(w)
    ensures Branches(w, w.topChildren, c) == Doomed(w, c)
  {
    forall k | k in w.layers ensures Branch(w, k) in w.topChildren { BranchListed(w, k); }
  }

  lemma {:induction false} SameBranch(w: World, w': World, k: StateKey)
    requires Linked(w) && Linked(w') && w'.layers == w.layers && k in w.layers
    ensures Branch(w', k) == Branch(w, k)
    decreases k.height
  {
    if w.layers[k].parent.Layer? { SameBranch(w, w', w.layers[k].parent.key); }
  }

  /** The tree does not depend on the archive. */
  lemma OtherArchive(w: World, archive: map<nat, set<Hash>>, c: Hash)
    requires Linked(w) && Mirrored(w)
    ensures var w' := w.(archive := archive); Linked(w') && Mirrored(w') && Doomed(w', c) == Doomed(w, c)
  {
    var w' := w.(archive := archive);
    forall r: Parent, k: StateKey ensures Listed(w', r, k) == Listed(w, r, k) && Live(w', r) == Live(w, r) {}
    forall k | k in w'.layers ensures Listed(w', w'.layers[k].parent, k) { assert Listed(w, w.layers[k].parent, k); }
    forall k | k in w.layers ensures Branch(w', k) == Branch(w, k) { SameBranch(w, w', k); }
  }

  /** The children of the swallowed layer that have been told of their new parent. */
  function Adopted(layers: map<StateKey, Node>, h: nat, hashes: seq<Hash>): map<StateKey, Node> {
    map k | k in layers :: if k.height == h && k.root in hashes then layers[k].(parent := Persisted) else layers[k]
  }

  lemma AdoptedMore(layers: map<StateKey, Node>, h: nat, hashes: seq<Hash>, i: nat)
    requires i < |hashes| && StateKey(h, hashes[i]) in layers
    ensures var now, k := Adopted(layers, h, hashes[..i]), StateKey(h, hashes[i]);
            Adopted(layers, h, hashes[..i + 1]) == now[k := now[k].(parent := Persisted)]
  {
    assert hashes[..i + 1] == hashes[..i] + [hashes[i]];
  }

  lemma SurvivorsLeft(w: World, c: Hash)
    requires Linked(w) && ChildKey(w, Persisted, c) in w.layers
    ensures (w.layers - Doomed(w, c) - {ChildKey(w, Persisted, c)}).Keys == Survivors(w, c)
  {
  }

  lemma AdoptsChildren(w: World, ck: StateKey, k: StateKey)
    requires Linked(w) && Mirrored(w) && ck in w.layers && k in w.layers
    ensures w.layers[k].parent == Layer(ck) <==> k.height == ck.height + 1 && k.root in w.layers[ck].children
  {
    assert Listed(w, w.layers[k].parent, k);
    if Listed(w, Layer(ck), k) { assert w.layers[k].parent == Layer(ck); }
  }

  lemma AdoptedIs(w: World, c: Hash, ck: StateKey, left: map<StateKey, Node>)
    requires Linked(w) && Mirrored(w) && ck == ChildKey(w, Persisted, c) && ck in w.layers
    requires left == w.layers - Doomed(w, c) - {ck}
    ensures Adopted(left, ck.height + 1, w.layers[ck].children) ==
            (map k | k in Survivors(w, c) :: Adopt(ck, w.layers[k]))
  {
    SurvivorsLeft(w, c);
    forall k | k in left ensures Told(w.layers, ck, k) { AdoptsChildren(w, ck, k); }
    AdoptedByAll(w.layers, ck, left);
  }

  /** k is listed among ck's children exactly when it points to ck. */
  ghost predicate Told(layers: map<StateKey, Node>, ck: StateKey, k: StateKey)
    requires ck in layers && k in layers
  {
    layers[k].parent == Layer(ck) <==> k.height == ck.height + 1 && k.root in layers[ck].children
  }

  lemma AdoptedByAll(layers: map<StateKey, Node>, ck: StateKey, left: map<StateKey, Node>)
    requires ck in layers && left.Keys <= layers.Keys
    requires forall k {:trigger left[k]} :: k in left ==> left[k] == layers[k]
    requires forall k {:trigger Told(layers, ck, k)} :: k in left ==> Told(layers, ck, k)
    ensures Adopted(left, ck.height + 1, layers[ck].children) == map k | k in left.Keys :: Adopt(ck, layers[k])
  {
    forall k | k in left
      ensures Adopted(left, ck.height + 1, layers[ck].children)[k] == Adopt(ck, layers[k])
    {
      assert left[k] == layers[k] && Told(layers, ck, k);
    }
  }

  lemma ChildrenSurvive(w: World, c: Hash, ck: StateKey, i: nat)
    requires CanPrune(w, c) && Mirrored(w) && ck == ChildKey(w, Persisted, c) && i < |w.layers[ck].children|
    ensures StateKey(ck.height + 1, w.layers[ck].children[i]) in (w.layers - Doomed(w, c) - {ck})
  {
    var k := StateKey(ck.height + 1, w.layers[ck].children[i]);
    assert Listed(w, Layer(ck), k);
    ChildOfSurvivor(w, c, k);
    SurvivorsLeft(w, c);
  }

  /** The rows when the siblings of the swallowed child have been destroyed. */
  function SiblingsGone(w: World, c: Hash): Database
    requires Linked(w)
  {
    w.db.(children := w.db.children - Doomed(w, c), layerLogs := w.db.layerLogs - Doomed(w, c))
  }

  ghost predicate NoneBeingDeleted(log: LayerLog) {
    forall a :: a in log.updatedAccounts ==> log.updatedAccounts[a].version % VERSIONS != BEING_DELETED
  }

  ghost predicate NoneRefused(db: Database, log: LayerLog) {
    forall h: Hash :: h in log.updatedCodeCount ==> !CodeRefused(db, h, log.updatedCodeCount[h], log.codePreimage)
  }

  /** The log of the swallowed child is never refused, and saves no account that is being deleted. */
  lemma ChildIsNeverRefused(keccak: Hasher, w: World, c: Hash, ck: StateKey, log: LayerLog)
    requires CanPrune(w, c) && LogsOk(keccak, w) && ck == ChildKey(w, Persisted, c) && log == w.layers[ck].log
    ensures NoneBeingDeleted(log) && NoneRefused(SiblingsGone(w, c), log)
  {
    assert FitsAt(keccak, w, ck);
    forall a | a in log.updatedAccounts ensures log.updatedAccounts[a].version % VERSIONS != BEING_DELETED {
      assert AccountFits(Base(w.db), a, log.updatedAccounts[a]);
    }
    PersistReads(w.db, w.db, SiblingsGone(w, c), log);
    forall h: Hash | h in log.updatedCodeCount
      ensures !CodeRefused(w.db, h, log.updatedCodeCount[h], log.codePreimage)
    {
      PersistNeverRefuses(keccak, w.db, log, h);
    }
  }

  /** The persisted rows are those of PruneOne. */
  lemma SwallowedRows(w: World, c: Hash, ck: StateKey, log: LayerLog)
    requires Linked(w) && ck == ChildKey(w, Persisted, c)
    ensures var rows := SiblingsGone(w, c);
            PersistOnto(rows.(children := rows.children - {w.top}, layerLogs := rows.layerLogs - {ck}), rows, log) ==
            PersistOnto(RowsLeft(w, c), w.db, log)
  {
    var rows := SiblingsGone(w, c);
    assert rows.(children := rows.children - {w.top}, layerLogs := rows.layerLogs - {ck}) == RowsLeft(w, c);
    PersistReads(RowsLeft(w, c), w.db, rows, log);
  }

  /** Deregistering the persisted state leaves a tree whose siblings can be destroyed. */
  lemma TopDeregistered(w: World, c: Hash, w1: World)
    requires TreeOk(w) && w1 == w.(archive := Deregister(w.archive, w.top))
    ensures Destructible(w1) && Doomed(w1, c) == Doomed(w, c)
    ensures SiblingsGone(w, c) == Destroyed(w1, Doomed(w1, c)).db
  {
    OtherArchive(w, w1.archive, c);
    DeregisterNonempty(w.archive, w.top);
    forall r: Parent | Live(w1, r) ensures NoDuplicates(ChildrenOf(w1, r)) {
      assert NoDuplicates(ChildrenOf(w, r));
    }
  }

  lemma SwallowedWorld(w: World, c: Hash, ck: StateKey, log: LayerLog, db: Database, archive: map<nat, set<Hash>>,
                       layers: map<StateKey, Node>)
    requires CanPrune(w, c) && Mirrored(w) && ck == ChildKey(w, Persisted, c) && log == w.layers[ck].log
    requires db == PersistOnto(RowsLeft(w, c), w.db, log)
    requires archive == Register(Unindexed(Deregister(w.archive, w.top), Doomed(w, c)), ck)
    requires layers == Adopted(w.layers - Doomed(w, c) - {ck}, ck.height + 1, w.layers[ck].children)
    ensures World(db, archive, KeyOf(log), w.layers[ck].children, layers) == PruneOne(w, c)
  {
    AdoptedIs(w, c, ck, w.layers - Doomed(w, c) - {ck});
  }

  ghost predicate ReadyForAdoption(w: World, c: Hash, ck: StateKey, children: seq<Hash>)
    requires Linked(w)
  {
    forall i :: 0 <= i < |children| ==> StateKey(ck.height + 1, children[i]) in w.layers - Doomed(w, c) - {ck}
  }

  lemma KeptForAdoption(w: World, c: Hash, ck: StateKey, children: seq<Hash>)
    requires CanPrune(w, c) && Mirrored(w) && ck == ChildKey(w, Persisted, c) && children == w.layers[ck].children
    ensures ck in w.layers - Doomed(w, c) && ReadyForAdoption(w, c, ck, children)
  {
    forall i | 0 <= i < |children| ensures StateKey(ck.height + 1, children[i]) in w.layers - Doomed(w, c) - {ck} {
      ChildrenSurvive(w, c, ck, i);
    }
  }

  /** Pruning a list of states is one step and then pruning the rest, or nothing when the first is not there. */
  lemma PruneAllStep(w: World, hashes: seq<Hash>, i: nat)
    requires i < |hashes|
    ensures hashes[i] !in w.topChildren ==> PruneAll(w, hashes[i..]) == w
    ensures hashes[i] in w.topChildren && CanPrune(w, hashes[i]) ==>
              PruneAll(w, hashes[i..]) == PruneAll(PruneOne(w, hashes[i]), hashes[i + 1..])
  {
    assert hashes[i..][0] == hashes[i] && hashes[i..][1..] == hashes[i + 1..];
  }

  lemma PruneRoundOk(keccak: Hasher, w: World, c: Hash)
    requires Hashes(keccak) && WorldOk(keccak, w) && c in w.topChildren
    ensures CanPrune(w, c) && WorldOk(keccak, PruneOne(w, c))
  {
    PruneStepPreserves(keccak, w, c);
  }

  /** A layer puts its own root hash in front of the route it passes to its parent. */
  lemma RouteGrows(w: World, k: StateKey, route: seq<Hash>)
    requires Linked(w) && k in w.layers
    ensures Route(w, Layer(k)) + route == Route(w, w.layers[k].parent) + ([w.layers[k].log.rootHash] + route)
  {
    assert KeyOf(w.layers[k].log) == k;
  }

  // ------------------------------------------------------------------ commit

  /** Loading the rows that were just written gives the new layer. */
  lemma NewLayerLoads(w: World, r: Parent, log: LayerLog, db: Database)
    requires db == NewLayer(w, r, log).db
    ensures Load(db, r, KeyOf(log)) == Some(map[KeyOf(log) := Node(r, log, [], NO_CACHE)])
  {
    LoadFresh(db, r, KeyOf(log));
  }

  lemma ArchiveGrows(w: World, k: StateKey, states: map<nat, set<Hash>>)
    requires ArchiveOk(w) && Registered(w.archive, states, {k})
    ensures states == Register(w.archive, k)
  {
    RegisteredOne(w.archive, k);
    SameArchive(states, Register(w.archive, k), w.layers.Keys + {w.top, k});
  }

  lemma NewLayerIs(w: World, r: Parent, log: LayerLog, layers: map<StateKey, Node>)
    requires layers == w.layers + map[KeyOf(log) := Node(r, log, [], NO_CACHE)]
    ensures NewLayer(w, r, log) ==
            World(NewLayer(w, r, log).db, Register(w.archive, KeyOf(log)), w.top, w.topChildren, layers)
  {
  }

  lemma AddLayerIs(w: World, r: Parent, log: LayerLog)
    requires Live(w, r) && r != Layer(KeyOf(log))
    ensures Live(NewLayer(w, r, log), r)
    ensures AddLayer(w, r, log) ==
            SetChildren(NewLayer(w, r, log), r, ChildrenOf(NewLayer(w, r, log), r) + [log.rootHash])
  {
  }

  lemma CommitIsNew(keccak: Hasher, w: World, opts: Retention, p: StateKey, r: Parent, log: LayerLog)
    requires Safe(keccak, w, opts) && LiveKey(w, p) && r == Ref(w, p) && !Has(w.archive, KeyOf(log))
    requires log.blockNumber == p.height + 1 && LogFits(keccak, log, KeyView(w, p))
    ensures Live(w, r) && r != Layer(KeyOf(log))
    ensures WorldOk(keccak, AddLayer(w, r, log)) && KeyOf(log) in AddLayer(w, r, log).layers
  {
    CommitAdds(keccak, w, opts, p, log);
  }

  lemma CommitStepIs(w: World, w1: World, opts: Retention, p: StateKey, r: Parent, log: LayerLog)
    requires LiveKey(w, p) && r == Ref(w, p) && !Has(w.archive, KeyOf(log)) && w1 == AddLayer(w, r, log)
    requires Linked(w1) && KeyOf(log) in w1.layers
    ensures CommitStep(w, opts, p, log) == HandlePrune(w1, opts, Route(w1, Layer(KeyOf(log))) + [])
  {
    assert Route(w1, Layer(KeyOf(log))) + [] == Route(w1, Layer(KeyOf(log)));
  }
}
