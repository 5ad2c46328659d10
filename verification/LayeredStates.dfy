/**
 The layered world state as objects updated in place: the archive's two-level index, the persisted state's height, root
 hash and children, and the layers' parents, children and caches. A layer object is named by its key, so that pointers
 are keys into one table. Every operation is proved to do exactly what LayerTree, LayerSteps, LayerPrune and LayerRuns
 say it does.
 */
module LayeredStates {
  import opened Types
  import opened Views
  import opened Database
  import opened StateStore
  import opened LayerTree
  import opened LayerSteps
  import LayerPrune
  import LayerRestart
  import opened LayerRuns
  import opened LayerLoops

  class LayerArchive {
    const opts: Retention
    var states: map<nat, set<Hash>>

    constructor (opts: Retention)
      ensures this.opts == opts && states == map[]
    {
      this.opts := opts;
      states := map[];
    }

    method Register(key: StateKey)
      modifies this`states
      ensures states == LayerTree.Register(old(states), key)
    {
      if key.height !in states {
        states := states[key.height := {}];
      }
      states := states[key.height := states[key.height] + {key.root}];
    }

    method Deregister(key: StateKey)
      modifies this`states
      ensures states == LayerTree.Deregister(old(states), key)
    {
      if key.height !in states {
        return;
      }
      states := states[key.height := states[key.height] - {key.root}];
      if states[key.height] == {} {
        states := states - {key.height};
      }
    }

    method Has(key: StateKey) returns (res: bool)
      ensures res == LayerTree.Has(states, key)
    {
      if key.height !in states {
        return false;
      }
      res := key.root in states[key.height];
    }
  }

  class LayeredStates {
    const store: StateStore
    const archive: LayerArchive
    var top: StateKey
    var topChildren: seq<Hash>
    var layers: map<StateKey, Node>

    constructor (store: StateStore, archive: LayerArchive)
      ensures this.store == store && this.archive == archive
      ensures layers == map[]
    {
      this.store, this.archive := store, archive;
      top, topChildren, layers := StateKey(0, ZERO_HASH), [], map[];
    }

    ghost function State(): World
      reads this, store, archive
    {
      World(store.db, archive.states, top, topChildren, layers)
    }

    // ------------------------------------------------------------- lookups

    /**
     The cache is filled on the layer that is asked, never on those below it; an LRU may evict anything to make room.
     */
    method GetAccountValue(r: Parent, addr: Address, requireCache: bool, evicted: set<Address>)
      returns (res: AccountValue)
      requires Linked(State()) && Live(State(), r)
      modifies this`layers
      ensures res == CachedAcct(old(State()), r, addr)
      ensures CachesOk(old(State())) ==> res == ViewAt(old(State()), r).acct(addr)
      ensures State() ==
                if r.Layer? && requireCache && MissesAccount(old(layers[r.key]), addr)
                then FillStep(old(State()), FillAccount(r.key, addr, evicted))
                else old(State())
      decreases Rank(r)
    {
      if CachesOk(State()) { CachedAcctIsUncached(State(), r, addr); }
      if r.Persisted? {
        res := store.GetAccountValue(addr);
        return;
      }
      var node := layers[r.key];
      if addr in node.log.updatedAccounts {
        return node.log.updatedAccounts[addr];
      }
      if addr in node.cache.accts {
        return node.cache.accts[addr];
      }
      res := GetAccountValue(node.parent, addr, false, {});
      if requireCache {
        layers := layers[r.key := node.(cache := node.cache.(accts := (node.cache.accts - evicted)[addr := res]))];
      }
    }

    /** Answers as the uncached lookup at every version that is still live at the state asked. */
    method GetStorageByVersion(ghost keccak: Hasher, r: Parent, addr: Address, version: nat, slot: Hash,
                               requireCache: bool, gone: set<(Address, nat, Hash)>)
      returns (res: Hash)
      requires Linked(State()) && Live(State(), r)
      modifies this`layers
      ensures res == CachedSlot(old(State()), r, addr, version, slot)
      ensures LogsOk(keccak, old(State())) && CachesOk(old(State())) &&
              ViewAt(old(State()), r).acct(addr).version <= version ==>
                res == ViewAt(old(State()), r).slot(addr, version, slot)
      ensures State() ==
                if r.Layer? && requireCache && MissesSlot(old(layers[r.key]), addr, version, slot)
                then FillStep(old(State()), FillSlot(r.key, addr, version, slot, gone))
                else old(State())
      decreases Rank(r)
    {
      SlotAnswers(keccak, State(), r, addr, version, slot);
      if r.Persisted? {
        res := store.GetStorageByVersion(addr, version, slot);
        return;
      }
      var node := layers[r.key];
      if (addr, version) in node.log.updatedStorage {
        if slot in node.log.updatedStorage[(addr, version)] {
          return node.log.updatedStorage[(addr, version)][slot];
        }
      }
      if (addr, version, slot) in node.cache.slots {
        return node.cache.slots[(addr, version, slot)];
      }
      res := GetStorageByVersion(keccak, node.parent, addr, version, slot, false, {});
      if requireCache {
        var slots := (node.cache.slots - gone)[(addr, version, slot) := res];
        layers := layers[r.key := node.(cache := node.cache.(slots := slots))];
      }
    }

    /** Answers as the uncached lookup for code that some account of the state asked refers to. */
    method GetCodeByHash(ghost keccak: Hasher, r: Parent, hash: Hash, requireCache: bool, dropped: set<Hash>)
      returns (res: Code)
      requires Linked(State()) && Live(State(), r)
      modifies this`layers
      ensures res == CachedCode(old(State()), r, hash)
      ensures LogsOk(keccak, old(State())) && CachesOk(old(State())) && CodeInUse(old(State()), r, hash) ==>
                res == ViewAt(old(State()), r).code(hash) && IsCodeOf(keccak, res, hash)
      ensures State() ==
                if r.Layer? && requireCache && MissesCode(old(layers[r.key]), hash)
                then FillStep(old(State()), FillCode(r.key, hash, dropped))
                else old(State())
      decreases Rank(r)
    {
      CodeAnswers(keccak, State(), r, hash);
      if r.Persisted? {
        var found := store.GetCodeByHash(hash);
        return if found.Some? then found.value else [];
      }
      var node := layers[r.key];
      if hash in node.log.codePreimage {
        return node.log.codePreimage[hash];
      }
      if hash in node.cache.codes {
        return node.cache.codes[hash];
      }
      res := GetCodeByHash(keccak, node.parent, hash, false, {});
      if requireCache {
        layers := layers[r.key := node.(cache := node.cache.(codes := (node.cache.codes - dropped)[hash := res]))];
      }
    }

    // ---------------------------------------------------- adding and restarting

    method WriteChildren(key: StateKey, list: seq<Hash>)
      modifies store
      ensures store.db == old(store.db).(children := old(store.db).children[key := list])
    {
      var txn := new Transaction(store);
      txn.Write(PutChildren(key, list));
      txn.Commit();
    }

    /** Replaces the child list of a state, in memory and then in the store. */
    method PutChildList(r: Parent, list: seq<Hash>)
      requires Live(State(), r)
      modifies this`topChildren, this`layers, store
      ensures State() == SetChildren(old(State()), r, list)
    {
      if r.Persisted? {
        topChildren := list;
        WriteChildren(top, list);
      } else {
        layers := layers[r.key := layers[r.key].(children := list)];
        WriteChildren(r.key, list);
      }
    }

    method AddChild(r: Parent, child: Hash)
      requires Live(State(), r)
      modifies this`topChildren, this`layers, store
      ensures State() == SetChildren(old(State()), r, ChildrenOf(old(State()), r) + [child])
    {
      var children := if r.Persisted? then topChildren else layers[r.key].children;
      PutChildList(r, children + [child]);
    }

    /** newLayeredWorldState: the layer itself, then its stored children, as far as their rows are found. */
    method NewLayeredState(r: Parent, key: StateKey) returns (ok: bool)
      modifies this`layers, archive`states
      ensures ok <==> LayerRestart.Load(store.db, r, key).Some?
      ensures ok ==> layers == old(layers) + LayerRestart.Load(store.db, r, key).value
      ensures ok ==> Registered(old(archive.states), archive.states, LayerRestart.Load(store.db, r, key).value.Keys)
      decreases LayerRestart.Above(store.db, key.height), 0
    {
      var log := store.GetLayerLog(key);
      if log.None? {
        return false;
      }
      layers := layers[key := Node(r, log.value, [], NO_CACHE)];
      archive.Register(key);
      RegisteredOne(old(archive.states), key);
      var hashes := store.GetChildren(key);
      if hashes.None? {
        return false;
      }
      assert key in LayerRestart.Above(store.db, key.height) - LayerRestart.Above(store.db, key.height + 1);
      ok := LoadChildren(Layer(key), key.height + 1, hashes.value);
      if ok {
        ghost var above := LayerRestart.LoadAll(store.db, Layer(key), key.height + 1, hashes.value).value;
        LoadAllHeights(store.db, Layer(key), key.height + 1, hashes.value);
        layers := layers[key := layers[key].(children := hashes.value)];
        LayerRestart.LoadUnfold(store.db, r, key, above);
        NodeThenAbove(old(layers), above, key, Node(r, log.value, [], NO_CACHE), hashes.value);
      }
    }

    method LoadChildren(r: Parent, height: nat, hashes: seq<Hash>) returns (ok: bool)
      modifies this`layers, archive`states
      ensures ok <==> LayerRestart.LoadAll(store.db, r, height, hashes).Some?
      ensures ok ==> layers == old(layers) + LayerRestart.LoadAll(store.db, r, height, hashes).value
      ensures ok ==> Registered(old(archive.states), archive.states,
                                LayerRestart.LoadAll(store.db, r, height, hashes).value.Keys)
      decreases LayerRestart.Above(store.db, height), |hashes| + 1
    {
      ghost var done: map<StateKey, Node> := map[];
      NoneLoaded(store.db, r, height, hashes, layers, archive.states);
      for i := 0 to |hashes|
        invariant LoadedSoFar(store.db, r, height, hashes, old(layers), old(archive.states), layers, archive.states,
                              done, i)
      {
        ghost var layers1, states1 := layers, archive.states;
        ok := NewLayeredState(r, StateKey(height, hashes[i]));
        if !ok {
          LoadFails(store.db, r, height, hashes, done, i);
          return;
        }
        ghost var first := LayerRestart.Load(store.db, r, StateKey(height, hashes[i])).value;
        OneMoreLoaded(store.db, r, height, hashes, old(layers), old(archive.states), layers1, states1,
                      layers, archive.states, done, i, first);
        done := done + first;
      }
      AllLoaded(store.db, r, height, hashes, old(layers), old(archive.states), layers, archive.states, done);
      ok := true;
    }

    /** newPersistedWorldState: the persisted state and everything above it, as far as their rows are found. */
    method NewPersistedState() returns (ok: bool)
      requires layers == map[] && archive.states == map[]
      modifies this, archive`states
      ensures ok <==> LayerRestart.Reload(store.db).Some?
      ensures ok ==> State() == LayerRestart.Reload(store.db).value
    {
      var persisted := store.GetPersistedHeight();
      if persisted.None? {
        return false;
      }
      top := persisted.value;
      archive.Register(top);
      RegisteredOne(map[], top);
      ghost var states1 := archive.states;
      var hashes := store.GetChildren(top);
      if hashes.None? {
        return false;
      }
      ok := LoadChildren(Persisted, top.height + 1, hashes.value);
      if !ok {
        ReloadFails(store.db);
        return;
      }
      topChildren := hashes.value;
      ghost var all := LayerRestart.LoadAll(store.db, Persisted, top.height + 1, hashes.value).value;
      assert old(layers) + all == all;
      RegisteredMore(map[], states1, archive.states, {top}, layers.Keys);
      ReloadedWorld(store.db, top, layers, archive.states);
    }

    // ---------------------------------------------------------- destruction

    /** Removes a layer's rows and its archive entry; nothing names the object any more. */
    method DeleteLayer(key: StateKey)
      modifies this`layers, archive`states, store
      ensures State() == var w := old(State());
                w.(db := w.db.(children := w.db.children - {key}, layerLogs := w.db.layerLogs - {key}),
                   archive := LayerTree.Deregister(w.archive, key), layers := w.layers - {key})
    {
      var txn := new Transaction(store);
      txn.Write(DeleteChildren(key));
      txn.Write(DeleteLayerLog(key));
      txn.Commit();
      archive.Deregister(key);
      layers := layers - {key};
    }

    /** A layer's children first, then the layer itself. */
    method Destruct(key: StateKey, ghost w: World, ghost dead: set<StateKey>)
      requires Destructible(w) && key in w.layers && Desc(w, key) !! dead
      requires State() == Destroyed(w, dead)
      modifies this`layers, archive`states, store
      ensures State() == Destroyed(w, dead + Desc(w, key))
      decreases Desc(w, key)
    {
      SubtreeStarts(w, key, dead);
      var children := layers[key].children;
      for i := 0 to |children|
        invariant children == w.layers[key].children
        invariant State() == Destroyed(w, Gone(w, key, dead, i))
      {
        NextSubtree(w, key, dead, i, StateKey(key.height + 1, children[i]));
        Destruct(StateKey(key.height + 1, children[i]), w, Gone(w, key, dead, i));
      }
      ghost var before := State();
      DeleteLayer(key);
      DestructedLast(w, dead, Gone(w, key, dead, |children|), key, before, State());
    }

    method IndexOf(children: seq<Hash>, child: Hash) returns (index: nat)
      ensures index <= |children| && child !in children[..index]
      ensures index < |children| ==> children[index] == child
    {
      index := 0;
      while index < |children| && children[index] != child
        invariant index <= |children| && child !in children[..index]
      {
        index := index + 1;
      }
    }

    /** Destroys one child of a state, if it is listed, and takes it off the list. */
    method DestructChild(r: Parent, child: Hash, ghost w: World)
      requires w == State() && TreeOk(w) && Live(w, r)
      modifies this`topChildren, this`layers, archive`states, store
      ensures State() == DestructStep(w, ParentKey(w, r), child)
    {
      var children := if r.Persisted? then topChildren else layers[r.key].children;
      var index := IndexOf(children, child);
      if index < |children| {
        DestructIndex(r, children, index, w);
      } else {
        assert children[..index] == children;
        MissingChildStays(w, r, child);
      }
    }

    method DestructIndex(r: Parent, children: seq<Hash>, index: nat, ghost w: World)
      requires w == State() && TreeOk(w) && Live(w, r) && children == ChildrenOf(w, r)
      requires index < |children| && children[index] !in children[..index]
      modifies this`topChildren, this`layers, archive`states, store
      ensures State() == DestructStep(w, ParentKey(w, r), children[index])
    {
      var child := children[index];
      var key := StateKey((if r.Persisted? then top.height else r.key.height) + 1, child);
      assert key == ChildKey(w, r, child);
      FoundChild(w, r, child, key, children, index);
      var rest := children[..index] + children[index + 1..];
      FoundChildGoes(w, r, child, key, children, index, rest);
      DestructFound(r, key, rest, w, Desc(w, key));
    }

    method DestructFound(r: Parent, key: StateKey, rest: seq<Hash>, ghost w: World, ghost dead: set<StateKey>)
      requires w == State() && Destructible(w) && key in w.layers && dead == Desc(w, key)
      requires Live(Destroyed(w, dead), r)
      modifies this`topChildren, this`layers, archive`states, store
      ensures State() == SetChildren(Destroyed(w, dead), r, rest)
    {
      DestructAt(key, w);
      PutChildList(r, rest);
    }

    method DestructAt(key: StateKey, ghost w: World)
      requires w == State() && Destructible(w) && key in w.layers
      modifies this`layers, archive`states, store
      ensures State() == Destroyed(w, Desc(w, key))
    {
      DestroyedNone(w);
      Destruct(key, w, {});
      assert {} + Desc(w, key) == Desc(w, key);
    }
  
    // --------------------------------------------------------------- pruning

    /** The transaction of a prune step; when a code count cannot be kept, nothing is committed. */
    method PersistChild(key: StateKey, log: LayerLog) returns (ok: bool)
      requires NoneBeingDeleted(log)
      modifies store
      ensures ok <==> NoneRefused(old(store.db), log)
      ensures !ok ==> store.db == old(store.db)
      ensures ok ==> store.db == var db := old(store.db);
                PersistOnto(db.(children := db.children - {top}, layerLogs := db.layerLogs - {key}), db, log)
    {
      var txn := new Transaction(store);
      txn.Write(DeleteChildren(top));
      txn.Write(DeleteLayerLog(key));
      assert ApplyAll(store.db, txn.batch) ==
             store.db.(children := store.db.children - {top}, layerLogs := store.db.layerLogs - {key});
      ok := txn.PersistLayerLog(log);
      if ok {
        txn.Commit();
      }
    }

    method DestructSiblings(c: Hash, ghost w: World)
      requires w == State() && Destructible(w)
      modifies this`layers, archive`states, store
      ensures State() == Destroyed(w, LayerPrune.Doomed(w, c))
    {
      DestroyedNone(w);
      NoBranches(w, w.topChildren, c);
      for i := 0 to |topChildren|
        invariant State() == Destroyed(w, Branches(w, w.topChildren[..i], c))
      {
        var key := StateKey(top.height + 1, topChildren[i]);
        NextBranch(w, i, c, key);
        if topChildren[i] != c {
          Destruct(key, w, Branches(w, w.topChildren[..i], c));
        }
      }
      assert w.topChildren[..|w.topChildren|] == w.topChildren;
      BranchesAreDoomed(w, c);
    }

    /** UpdateParent on each child of the swallowed layer. */
    method UpdateParents(height: nat, hashes: seq<Hash>)
      requires forall i :: 0 <= i < |hashes| ==> StateKey(height, hashes[i]) in layers
      modifies this`layers
      ensures layers == Adopted(old(layers), height, hashes)
    {
      for i := 0 to |hashes|
        invariant layers == Adopted(old(layers), height, hashes[..i])
      {
        AdoptedMore(old(layers), height, hashes, i);
        var key := StateKey(height, hashes[i]);
        layers := layers[key := layers[key].(parent := Persisted)];
      }
      assert hashes[..|hashes|] == hashes;
    }

    /** pruneOne: the persisted state swallows one of its children. */
    method PruneOne(ghost keccak: Hasher, c: Hash, ghost w: World) returns (ok: bool)
      requires w == State() && WorldOk(keccak, w)
      modifies this, archive`states, store
      ensures ok <==> c in w.topChildren
      ensures ok ==> LayerPrune.CanPrune(w, c) && State() == LayerPrune.PruneOne(w, c)
      ensures !ok ==> State() == w
    {
      var index := IndexOf(topChildren, c);
      if index == |topChildren| {
        assert topChildren[..index] == topChildren;
        return false;
      }
      LayerPrune.ChildCanBePruned(w, c);
      ok := Swallow(keccak, c, StateKey(top.height + 1, c), w);
    }

    method Swallow(ghost keccak: Hasher, c: Hash, key: StateKey, ghost w: World) returns (ok: bool)
      requires w == State() && TreeOk(w) && LogsOk(keccak, w)
      requires LayerPrune.CanPrune(w, c) && key == ChildKey(w, Persisted, c)
      modifies this, archive`states, store
      ensures ok && State() == LayerPrune.PruneOne(w, c)
    {
      var node := layers[key];
      ChildIsNeverRefused(keccak, w, c, key, node.log);
      KeptForAdoption(w, c, key, node.children);
      ok := SwallowNode(c, key, node, w);
    }

    method SwallowNode(c: Hash, key: StateKey, node: Node, ghost w: World) returns (ok: bool)
      requires w == State() && TreeOk(w) && LayerPrune.CanPrune(w, c)
      requires key == ChildKey(w, Persisted, c) && w.layers[key] == node
      requires NoneBeingDeleted(node.log) && NoneRefused(SiblingsGone(w, c), node.log)
      requires key in w.layers - LayerPrune.Doomed(w, c) && ReadyForAdoption(w, c, key, node.children)
      modifies this, archive`states, store
      ensures ok && State() == LayerPrune.PruneOne(w, c)
    {
      ok := SwallowRows(c, key, node.log, w);
      TakeOver(key, node.log, node.children);
      SwallowedWorld(w, c, key, node.log, store.db, archive.states, layers);
    }

    method SwallowRows(c: Hash, key: StateKey, log: LayerLog, ghost w: World) returns (ok: bool)
      requires w == State() && TreeOk(w) && key == ChildKey(w, Persisted, c)
      requires NoneBeingDeleted(log) && NoneRefused(SiblingsGone(w, c), log)
      modifies this`layers, archive`states, store
      ensures ok && store.db == PersistOnto(LayerPrune.RowsLeft(w, c), w.db, log)
      ensures archive.states == Unindexed(LayerTree.Deregister(w.archive, w.top), LayerPrune.Doomed(w, c))
      ensures layers == w.layers - LayerPrune.Doomed(w, c)
    {
      SwallowedRows(w, c, key, log);
      ClearSiblings(c, w);
      ok := PersistChild(key, log);
    }

    method ClearSiblings(c: Hash, ghost w: World)
      requires w == State() && TreeOk(w)
      modifies this`layers, archive`states, store
      ensures top == w.top && topChildren == w.topChildren
      ensures store.db == SiblingsGone(w, c)
      ensures archive.states == Unindexed(LayerTree.Deregister(w.archive, w.top), LayerPrune.Doomed(w, c))
      ensures layers == w.layers - LayerPrune.Doomed(w, c)
    {
      archive.Deregister(top);
      TopDeregistered(w, c, State());
      DestructSiblings(c, State());
    }

    /** The swallowed layer's children, height and root hash become the persisted state's own. */
    method TakeOver(key: StateKey, log: LayerLog, ghost children: seq<Hash>)
      requires key in layers && children == layers[key].children
      requires forall i :: 0 <= i < |children| ==> StateKey(key.height + 1, children[i]) in layers - {key}
      modifies this, archive`states
      ensures topChildren == children && top == KeyOf(log)
      ensures layers == Adopted(old(layers) - {key}, key.height + 1, children)
      ensures archive.states == LayerTree.Register(old(archive.states), KeyOf(log))
    {
      topChildren := layers[key].children;
      layers := layers - {key};
      UpdateParents(key.height + 1, topChildren);
      top := StateKey(log.blockNumber, log.rootHash);
      archive.Register(top);
    }
  
    method GetToBePruned(route: seq<Hash>) returns (hashes: seq<Hash>)
      requires Sensible(archive.opts)
      ensures hashes == if |route| <= archive.opts.max then [] else route[..archive.opts.frequency]
    {
      if |route| <= archive.opts.max {
        return [];
      }
      hashes := route[0..archive.opts.frequency];
    }

    /** The persisted state prunes along the route, and stops at the first state that is not its child. */
    method PruneRoute(ghost keccak: Hasher, hashes: seq<Hash>, ghost w: World)
      requires w == State() && Hashes(keccak) && WorldOk(keccak, w)
      modifies this, archive`states, store
      ensures State() == PruneAll(w, hashes)
    {
      assert hashes[0..] == hashes;
      ghost var now := w;
      for i := 0 to |hashes|
        invariant now == State() && WorldOk(keccak, now)
        invariant PruneAll(now, hashes[i..]) == PruneAll(w, hashes)
      {
        PruneAllStep(now, hashes, i);
        var ok := PruneOne(keccak, hashes[i], now);
        if !ok {
          return;
        }
        PruneRoundOk(keccak, now, hashes[i]);
        now := LayerPrune.PruneOne(now, hashes[i]);
      }
    }

    /**
     A layer adds itself to the route and passes it down; the persisted state decides. It prunes nothing as long as the
     route is at most MaxLayerToRetain long, and otherwise along as much of it as PruningFrequency says.
     */
    method HandlePrune(ghost keccak: Hasher, r: Parent, route: seq<Hash>, ghost w: World)
      requires w == State() && Hashes(keccak) && WorldOk(keccak, w) && Live(w, r) && Sensible(archive.opts)
      modifies this, archive`states, store
      ensures State() == LayerRuns.HandlePrune(w, archive.opts, Route(w, r) + route)
      ensures State() == if |Route(w, r)| + |route| <= archive.opts.max then w
                         else PruneAll(w, (Route(w, r) + route)[..archive.opts.frequency])
      decreases Rank(r)
    {
      if r.Layer? {
        RouteGrows(w, r.key, route);
        HandlePrune(keccak, layers[r.key].parent, [layers[r.key].log.rootHash] + route, w);
      } else {
        assert Route(w, r) + route == route;
        var hashes := GetToBePruned(route);
        PruneRoute(keccak, hashes, w);
      }
    }

    // ---------------------------------------------------------------- commit

    method WriteNewLayer(key: StateKey, log: LayerLog)
      requires key == KeyOf(log)
      modifies store
      ensures store.db == old(store.db).(children := old(store.db).children[key := []],
                                         layerLogs := old(store.db).layerLogs[key := log])
    {
      var txn := new Transaction(store);
      txn.Write(PutChildren(key, []));
      txn.Write(PutLayerLog(log));
      txn.Commit();
    }

    /** The rows of a new layer, then its object, then its entry in its parent's child list. */
    method AddNewLayer(r: Parent, log: LayerLog, ghost w: World)
      requires w == State() && TreeOk(w) && Live(w, r) && r != Layer(KeyOf(log))
      modifies this`topChildren, this`layers, archive`states, store
      ensures State() == AddLayer(w, r, log)
    {
      var key := StateKey(log.blockNumber, log.rootHash);
      WriteNewLayer(key, log);
      NewLayerLoads(w, r, log, store.db);
      var ok := NewLayeredState(r, key);
      ArchiveGrows(w, key, archive.states);
      NewLayerIs(w, r, log, layers);
      AddLayerIs(w, r, log);
      AddChild(r, log.rootHash);
    }

    /** tempCommittedState.Commit, once the height has been checked: refused when the archive already has the state. */
    method Commit(ghost keccak: Hasher, p: StateKey, log: LayerLog, ghost w: World) returns (ok: bool)
      requires w == State() && Hashes(keccak) && Sensible(archive.opts)
      requires Safe(keccak, w, archive.opts) && LiveKey(w, p)
      requires log.blockNumber == p.height + 1 && LogFits(keccak, log, KeyView(w, p))
      modifies this, archive`states, store
      ensures ok <==> !LayerTree.Has(w.archive, KeyOf(log))
      ensures State() == CommitStep(w, archive.opts, p, log)
      ensures ok ==> Retains(w, archive.opts, log, State())
    {
      var known := archive.Has(KeyOf(log));
      if known {
        return false;
      }
      ok := true;
      var r := if p == top then Persisted else Layer(p);
      CommitIsNew(keccak, w, archive.opts, p, r, log);
      ghost var w1 := AddLayer(w, r, log);
      LayerRuns.CommitOk(keccak, w, archive.opts, p, log);
      CommitStepIs(w, w1, archive.opts, p, r, log);
      AddNewLayer(r, log, w);
      HandlePrune(keccak, Layer(KeyOf(log)), [], w1);
    }
  }
}
