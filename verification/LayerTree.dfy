/**
 The tree of diff layers above the persisted state, as a value: what each operation of worldstate/layeredstate_impl.go,
 persistedstate_impl.go and statearchive_impl.go does to it, and what no operation can change.
 A layer object is named by its key (height, root hash); a parent pointer is a Parent.
 */
module LayerTree {
  import opened Types
  import opened Views
  import opened Database

  datatype Parent = Persisted | Layer(key: StateKey)

  /** The three LRU caches of a layer; eviction means that any entry may be missing. */
  datatype Cache = Cache(accts: map<Address, AccountValue>, codes: map<Hash, Code>,
                         slots: map<(Address, nat, Hash), Hash>)

  const NO_CACHE := Cache(map[], map[], map[])

  datatype Node = Node(parent: Parent, log: LayerLog, children: seq<Hash>, cache: Cache)

  datatype World = World(
    db: Database,
    archive: map<nat, set<Hash>>,   // the two-level index of live states
    top: StateKey,                  // persisted height and root hash
    topChildren: seq<Hash>,
    layers: map<StateKey, Node>)

  function KeyOf(log: LayerLog): StateKey {
    StateKey(log.blockNumber, log.rootHash)
  }

  function ParentKey(w: World, r: Parent): StateKey {
    if r.Persisted? then w.top else r.key
  }

  function ChildrenOf(w: World, r: Parent): seq<Hash> {
    if r.Persisted? then w.topChildren else if r.key in w.layers then w.layers[r.key].children else []
  }

  // ---------------------------------------------------------------- archive

  predicate Has(archive: map<nat, set<Hash>>, k: StateKey) {
    k.height in archive && k.root in archive[k.height]
  }

  function Register(archive: map<nat, set<Hash>>, k: StateKey): map<nat, set<Hash>> {
    archive[k.height := (if k.height in archive then archive[k.height] else {}) + {k.root}]
  }

  function Deregister(archive: map<nat, set<Hash>>, k: StateKey): map<nat, set<Hash>> {
    if k.height !in archive then archive
    else if archive[k.height] - {k.root} == {} then archive - {k.height}
    else archive[k.height := archive[k.height] - {k.root}]
  }

  // --------------------------------------------------------------- structure

  predicate Live(w: World, r: Parent) {
    r.Layer? ==> r.key in w.layers
  }

  /** Parent pointers lead to live states one block below. */
  ghost predicate Linked(w: World) {
    forall k {:trigger w.layers[k]} :: k in w.layers ==>
      && KeyOf(w.layers[k].log) == k
      && Live(w, w.layers[k].parent)
      && k.height == ParentKey(w, w.layers[k].parent).height + 1
  }

  /** k is the key of a listed child of r. */
  predicate Listed(w: World, r: Parent, k: StateKey) {
    k.height == ParentKey(w, r).height + 1 && k.root in ChildrenOf(w, r)
  }

  /** Child lists and parent pointers mirror each other. */
  ghost predicate Mirrored(w: World) {
    && (forall r: Parent, k: StateKey :: Live(w, r) && Listed(w, r, k) ==> k in w.layers && w.layers[k].parent == r)
    && (forall k {:trigger Listed(w, w.layers[k].parent, k)} :: k in w.layers ==> Listed(w, w.layers[k].parent, k))
  }

  /** No child is listed twice. */
  ghost predicate ListsOk(w: World) {
    forall r: Parent :: Live(w, r) ==> NoDuplicates(ChildrenOf(w, r))
  }

  ghost predicate NoDuplicates(s: seq<Hash>) {
    forall i, j :: 0 <= i < j < |s| ==> s[i] != s[j]
  }

  /** The archive holds exactly the live states. */
  ghost predicate ArchiveOk(w: World) {
    && (forall k: StateKey :: Has(w.archive, k) <==> k == w.top || k in w.layers)
    && (forall h :: h in w.archive ==> w.archive[h] != {})
  }

  /** The stored height, child lists and layer logs are those in memory. */
  ghost predicate StoredOk(w: World) {
    && w.db.persisted == Some(w.top)
    && w.top !in w.layers
    && w.db.layerLogs.Keys == w.layers.Keys
    && (forall k :: k in w.layers ==> w.db.layerLogs[k] == w.layers[k].log)
    && w.db.children.Keys == w.layers.Keys + {w.top}
    && (forall k :: k in w.layers ==> w.db.children[k] == w.layers[k].children)
    && w.db.children[w.top] == w.topChildren
  }

  ghost predicate TreeOk(w: World) {
    Linked(w) && Mirrored(w) && ListsOk(w) && ArchiveOk(w) && StoredOk(w)
  }

  // ----------------------------------------------------------------- reading

  function Rank(r: Parent): nat {
    if r.Persisted? then 0 else r.key.height + 1
  }

  ghost function ViewAt(w: World, r: Parent): View
    requires Linked(w) && Live(w, r)
    decreases Rank(r)
  {
    if r.Persisted? then Base(w.db) else Over(w.layers[r.key].log, ViewAt(w, w.layers[r.key].parent))
  }

  /** A cache never lies about what is live at its layer. */
  ghost predicate CacheOk(cache: Cache, u: View) {
    && (forall a: Address :: a in cache.accts ==> cache.accts[a] == u.acct(a))
    && (forall a: Address, v: nat, k: Hash :: (a, v, k) in cache.slots && u.acct(a).version <= v ==>
          cache.slots[(a, v, k)] == u.slot(a, v, k))
    && (forall h: Hash :: h in cache.codes && h != EMPTY_CODE_HASH && Holders(u, h) != {} ==>
          cache.codes[h] == u.code(h))
  }

  ghost predicate LogsOk(keccak: Hasher, w: World)
    requires Linked(w)
  {
    DatabaseOk(keccak, w.db) && LogsFit(keccak, w)
  }

  ghost predicate FitsAt(keccak: Hasher, w: World, k: StateKey)
    requires Linked(w) && k in w.layers
  {
    LogFits(keccak, w.layers[k].log, ViewAt(w, w.layers[k].parent))
  }

  ghost predicate LogsFit(keccak: Hasher, w: World)
    requires Linked(w)
  {
    forall k {:trigger FitsAt(keccak, w, k)} :: k in w.layers ==> FitsAt(keccak, w, k)
  }

  ghost predicate CachedAt(w: World, k: StateKey)
    requires Linked(w) && k in w.layers
  {
    CacheOk(w.layers[k].cache, ViewAt(w, Layer(k)))
  }

  ghost predicate CachesOk(w: World)
    requires Linked(w)
  {
    forall k {:trigger CachedAt(w, k)} :: k in w.layers ==> CachedAt(w, k)
  }

  ghost predicate WorldOk(keccak: Hasher, w: World) {
    TreeOk(w) && LogsOk(keccak, w) && CachesOk(w)
  }

  /** Every live state is a well-formed view. */
  lemma ViewAtOk(keccak: Hasher, w: World, r: Parent)
    requires Linked(w) && LogsOk(keccak, w) && Live(w, r)
    ensures ViewOk(keccak, ViewAt(w, r))
    decreases Rank(r)
  {
    if r.Layer? {
      assert FitsAt(keccak, w, r.key);
      ViewAtOk(keccak, w, w.layers[r.key].parent);
      OverOk(keccak, w.layers[r.key].log, ViewAt(w, w.layers[r.key].parent));
    }
  }

  /** Along any chain of layers no account's version decreases. */
  lemma VersionsAbovePersisted(keccak: Hasher, w: World, r: Parent, a: Address)
    requires Linked(w) && LogsOk(keccak, w) && Live(w, r)
    ensures AccountOf(w.db, a).version <= ViewAt(w, r).acct(a).version
    decreases Rank(r)
  {
    if r.Layer? {
      var node := w.layers[r.key];
      assert FitsAt(keccak, w, r.key);
      VersionsAbovePersisted(keccak, w, node.parent, a);
      VersionsGrow(keccak, node.log, ViewAt(w, node.parent), a);
    }
  }

  // ---------------------------------------------------------- cached lookups

  /** GetAccountValue: the log, then the cache, then the parent. */
  function CachedAcct(w: World, r: Parent, a: Address): AccountValue
    requires Linked(w) && Live(w, r)
    decreases Rank(r)
  {
    if r.Persisted? then AccountOf(w.db, a)
    else
      var node := w.layers[r.key];
      if a in node.log.updatedAccounts then node.log.updatedAccounts[a]
      else if a in node.cache.accts then node.cache.accts[a]
      else CachedAcct(w, node.parent, a)
  }

  function CachedSlot(w: World, r: Parent, a: Address, v: nat, k: Hash): Hash
    requires Linked(w) && Live(w, r)
    decreases Rank(r)
  {
    if r.Persisted? then SlotOf(w.db, a, v, k)
    else
      var node := w.layers[r.key];
      if (a, v) in node.log.updatedStorage && k in node.log.updatedStorage[(a, v)] then
        node.log.updatedStorage[(a, v)][k]
      else if (a, v, k) in node.cache.slots then node.cache.slots[(a, v, k)]
      else CachedSlot(w, node.parent, a, v, k)
  }

  function CachedCode(w: World, r: Parent, h: Hash): Code
    requires Linked(w) && Live(w, r)
    decreases Rank(r)
  {
    if r.Persisted? then CodeOf(w.db, h)
    else
      var node := w.layers[r.key];
      if h in node.log.codePreimage then node.log.codePreimage[h]
      else if h in node.cache.codes then node.cache.codes[h]
      else CachedCode(w, node.parent, h)
  }

  /**
   Whatever the caches hold, a cached lookup answers as the uncached one, at live versions and for referenced code.
   */
  lemma CachedAcctIsUncached(w: World, r: Parent, a: Address)
    requires Linked(w) && CachesOk(w) && Live(w, r)
    ensures CachedAcct(w, r, a) == ViewAt(w, r).acct(a)
    decreases Rank(r)
  {
    if r.Layer? {
      var node := w.layers[r.key];
      assert CachedAt(w, r.key);
      CachedAcctIsUncached(w, node.parent, a);
    }
  }

  lemma CachedSlotIsUncached(keccak: Hasher, w: World, r: Parent, a: Address, v: nat, k: Hash)
    requires Linked(w) && LogsOk(keccak, w) && CachesOk(w) && Live(w, r)
    requires ViewAt(w, r).acct(a).version <= v
    ensures CachedSlot(w, r, a, v, k) == ViewAt(w, r).slot(a, v, k)
    decreases Rank(r)
  {
    if r.Layer? {
      var node := w.layers[r.key];
      assert CachedAt(w, r.key) && FitsAt(keccak, w, r.key);
      VersionsGrow(keccak, node.log, ViewAt(w, node.parent), a);
      CachedSlotIsUncached(keccak, w, node.parent, a, v, k);
    }
  }

  lemma CachedCodeIsUncached(keccak: Hasher, w: World, r: Parent, h: Hash)
    requires Linked(w) && LogsOk(keccak, w) && CachesOk(w) && Live(w, r)
    requires h != EMPTY_CODE_HASH && Holders(ViewAt(w, r), h) != {}
    ensures CachedCode(w, r, h) == ViewAt(w, r).code(h)
    decreases Rank(r)
  {
    if r.Layer? {
      var node := w.layers[r.key];
      var u := ViewAt(w, node.parent);
      assert CachedAt(w, r.key) && FitsAt(keccak, w, r.key);
      if h !in node.log.codePreimage {
        var a :| a in Holders(ViewAt(w, r), h);
        if a !in node.log.updatedAccounts { assert a in Holders(u, h); }
        CachedCodeIsUncached(keccak, w, node.parent, h);
      }
    }
  }

  lemma EmptyCacheOk(u: View)
    ensures CacheOk(NO_CACHE, u)
  {
  }

  lemma CacheOkLiveEq(cache: Cache, u: View, w: View)
    requires CacheOk(cache, u) && LiveEq(u, w)
    ensures CacheOk(cache, w)
  {
    forall h: Hash ensures Holders(u, h) == Holders(w, h) { SameHolders(u, w, h); }
  }
}
