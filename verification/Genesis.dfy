/** The base case: the layer log of the genesis block, and the store and the tree a node starts from. */
module Genesis {
  import opened Types
  import opened Views
  import opened Database
  import opened LayerTree
  import opened OpMeaning
  import opened Transactions
  import LayerRuns

  datatype GenesisAccount = GenesisAccount(nonce: Uint64, balance: Uint256, code: Code, storage: map<Hash, Hash>)

  type Alloc = map<Address, GenesisAccount>

  function ValueOf(keccak: Hasher, g: GenesisAccount): AccountValue {
    AccountValue(g.nonce, g.balance, keccak.hash(g.code), g.storage != map[], 1)
  }

  /** The allocated accounts with this code hash. */
  function Deployed(keccak: Hasher, alloc: Alloc, h: Hash): set<Address> {
    set a | a in alloc && alloc[a].code != [] && keccak.hash(alloc[a].code) == h
  }

  ghost predicate AccountsListed(keccak: Hasher, alloc: Alloc, log: LayerLog) {
    && log.updatedAccounts.Keys == alloc.Keys
    && (forall a :: a in alloc ==> log.updatedAccounts[a] == ValueOf(keccak, alloc[a]))
  }

  ghost predicate StorageListed(alloc: Alloc, log: LayerLog) {
    && (forall a: Address, v: nat :: (a, v) in log.updatedStorage <==>
          a in alloc && v == 1 && alloc[a].storage != map[])
    && (forall a: Address :: (a, 1) in log.updatedStorage ==>
          a in alloc && log.updatedStorage[(a, 1)] == alloc[a].storage)
  }

  /** Some allocated account has this code. */
  predicate IsDeployed(keccak: Hasher, alloc: Alloc, code: Code, h: Hash) {
    exists a :: a in Deployed(keccak, alloc, h) && alloc[a].code == code
  }

  ghost predicate CodeListed(keccak: Hasher, alloc: Alloc, log: LayerLog, h: Hash) {
    && CountOf(log.updatedCodeCount, h) == |Deployed(keccak, alloc, h)|
    && (h in log.updatedCodeCount ==> Deployed(keccak, alloc, h) != {})
    && (h in log.codePreimage <==> Deployed(keccak, alloc, h) != {})
    && (h in log.codePreimage ==> IsDeployed(keccak, alloc, log.codePreimage[h], h))
  }

  /** What the genesis log holds, said account by account and hash by hash. */
  ghost predicate IsGenesisLog(keccak: Hasher, alloc: Alloc, log: LayerLog) {
    && AccountsListed(keccak, alloc, log)
    && StorageListed(alloc, log)
    && (forall h: Hash :: CodeListed(keccak, alloc, log, h))
  }

  /** A genesis log of an allocation whose codes are in play. */
  ghost predicate FromGenesis(keccak: Hasher, alloc: Alloc, log: LayerLog) {
    && Hashes(keccak)
    && (forall a :: a in alloc ==> alloc[a].code in keccak.inPlay)
    && IsGenesisLog(keccak, alloc, log)
  }

  lemma DeployedStep(keccak: Hasher, alloc: Alloc, a: Address, g: GenesisAccount, h: Hash)
    requires a !in alloc
    ensures Deployed(keccak, alloc[a := g], h) ==
            Deployed(keccak, alloc, h) + (if g.code != [] && keccak.hash(g.code) == h then {a} else {})
    ensures |Deployed(keccak, alloc[a := g], h)| ==
            |Deployed(keccak, alloc, h)| + (if g.code != [] && keccak.hash(g.code) == h then 1 else 0)
  {
    var more := alloc[a := g];
    assert Deployed(keccak, more, h) ==
           Deployed(keccak, alloc, h) + (if g.code != [] && keccak.hash(g.code) == h then {a} else {});
    assert a !in Deployed(keccak, alloc, h);
  }

  /** One round of LayerLogFromGenesis. */
  function WithAccount(keccak: Hasher, log: LayerLog, a: Address, g: GenesisAccount): LayerLog {
    var h := keccak.hash(g.code);
    log.(updatedAccounts := log.updatedAccounts[a := ValueOf(keccak, g)],
         updatedCodeCount := if g.code != [] then log.updatedCodeCount[h := CountOf(log.updatedCodeCount, h) + 1]
                             else log.updatedCodeCount,
         codePreimage := if g.code != [] then log.codePreimage[h := g.code] else log.codePreimage,
         updatedStorage := if g.storage != map[] then log.updatedStorage[(a, 1) := g.storage] else log.updatedStorage)
  }

  lemma CodeStep(keccak: Hasher, alloc: Alloc, log: LayerLog, a: Address, g: GenesisAccount, h: Hash)
    requires CodeListed(keccak, alloc, log, h) && a !in alloc
    ensures CodeListed(keccak, alloc[a := g], WithAccount(keccak, log, a, g), h)
  {
    DeployedStep(keccak, alloc, a, g, h);
  }

  lemma StorageStep(keccak: Hasher, alloc: Alloc, log: LayerLog, a: Address, g: GenesisAccount)
    requires StorageListed(alloc, log) && a !in alloc
    ensures StorageListed(alloc[a := g], WithAccount(keccak, log, a, g))
  {
  }

  lemma GenesisStep(keccak: Hasher, alloc: Alloc, log: LayerLog, a: Address, g: GenesisAccount, log': LayerLog)
    requires IsGenesisLog(keccak, alloc, log) && a !in alloc && log' == WithAccount(keccak, log, a, g)
    ensures IsGenesisLog(keccak, alloc[a := g], log')
  {
    var more := alloc[a := g];
    StorageStep(keccak, alloc, log, a, g);
    forall h: Hash ensures CodeListed(keccak, more, log', h) {
      assert CodeListed(keccak, alloc, log, h);
      CodeStep(keccak, alloc, log, a, g, h);
    }
  }

  lemma GenesisRound(keccak: Hasher, alloc: Alloc, todo: set<Address>, log: LayerLog, a: Address, log': LayerLog)
    requires IsGenesisLog(keccak, Visited(alloc, todo), log) && a in todo && a in alloc
    requires log' == WithAccount(keccak, log, a, alloc[a])
    ensures IsGenesisLog(keccak, Visited(alloc, todo - {a}), log')
  {
    assert Visited(alloc, todo - {a}) == Visited(alloc, todo)[a := alloc[a]];
    GenesisStep(keccak, Visited(alloc, todo), log, a, alloc[a], log');
  }

  /** The part of an allocation that has been visited. */
  function Visited(alloc: Alloc, todo: set<Address>): Alloc {
    map a | a in alloc && a !in todo :: alloc[a]
  }

  method LayerLogFromGenesis(keccak: Hasher, alloc: Alloc, root: Hash) returns (log: LayerLog)
    ensures IsGenesisLog(keccak, alloc, log) && log.blockNumber == 0 && log.rootHash == root
  {
    log := LayerLog(0, root, map[], map[], map[], map[]);
    var todo := alloc.Keys;
    while todo != {}
      invariant todo <= alloc.Keys && log.blockNumber == 0 && log.rootHash == root
      invariant IsGenesisLog(keccak, Visited(alloc, todo), log)
      decreases |todo|
    {
      var addr: Address :| addr in todo;
      GenesisRound(keccak, alloc, todo, log, addr, WithAccount(keccak, log, addr, alloc[addr]));
      log := AddAccount(keccak, log, addr, alloc[addr]);
      todo := todo - {addr};
    }
    assert Visited(alloc, {}) == alloc;
  }

  method AddAccount(keccak: Hasher, before: LayerLog, addr: Address, account: GenesisAccount) returns (log: LayerLog)
    ensures log == WithAccount(keccak, before, addr, account)
  {
    log := before;
    var hash := keccak.hash(account.code);
    var dirty := false;
    if |account.code| > 0 {
      log := log.(updatedCodeCount := log.updatedCodeCount[hash := CountOf(log.updatedCodeCount, hash) + 1],
                  codePreimage := log.codePreimage[hash := account.code]);
    }
    if |account.storage| > 0 {
      dirty := true;
      log := log.(updatedStorage := log.updatedStorage[(addr, 1) := account.storage]);
    }
    var value := AccountValue(account.nonce, account.balance, hash, dirty, 1);
    log := log.(updatedAccounts := log.updatedAccounts[addr := value]);
  }

  // ---------------------------------------------------------- the empty store

  lemma EmptyHolders(h: Hash)
    ensures Holders(Base(EMPTY_DATABASE), h) != {} ==> h == EMPTY_CODE_HASH
  {
    if Holders(Base(EMPTY_DATABASE), h) != {} {
      var a :| a in Holders(Base(EMPTY_DATABASE), h);
      assert Base(EMPTY_DATABASE).acct(a) == EmptyAccount(0);
    }
  }

  lemma EmptyDatabaseOk(keccak: Hasher)
    requires Hashes(keccak)
    ensures DatabaseOk(keccak, EMPTY_DATABASE)
  {
    forall h: Hash ensures Holders(Base(EMPTY_DATABASE), h) != {} ==> h == EMPTY_CODE_HASH { EmptyHolders(h); }
    forall h: Hash | h != EMPTY_CODE_HASH ensures |Holders(Base(EMPTY_DATABASE), h)| == 0 {
      assert Holders(Base(EMPTY_DATABASE), h) == {};
    }
  }

  lemma GenesisHolders(keccak: Hasher, alloc: Alloc, log: LayerLog, h: Hash)
    requires FromGenesis(keccak, alloc, log) && h != EMPTY_CODE_HASH
    ensures Holders(Over(log, Base(EMPTY_DATABASE)), h) == Deployed(keccak, alloc, h)
  {
    var u := Over(log, Base(EMPTY_DATABASE));
    forall a: int ensures a in Holders(u, h) <==> a in Deployed(keccak, alloc, h) {
      if 0 <= a < TWO_160 {
        if a in alloc { assert log.updatedAccounts[a] == ValueOf(keccak, alloc[a]); }
        assert a !in alloc ==> u.acct(a) == EmptyAccount(0);
      }
    }
  }

  lemma GenesisCountsFit(keccak: Hasher, alloc: Alloc, log: LayerLog)
    requires FromGenesis(keccak, alloc, log)
    ensures CountsFit(log, Base(EMPTY_DATABASE))
  {
    NoEmptyCode(keccak, alloc);
    assert CodeListed(keccak, alloc, log, EMPTY_CODE_HASH);
    forall h: Hash | h != EMPTY_CODE_HASH
      ensures CountOf(log.updatedCodeCount, h) ==
              |Holders(Over(log, Base(EMPTY_DATABASE)), h)| - |Holders(Base(EMPTY_DATABASE), h)|
    {
      assert CodeListed(keccak, alloc, log, h);
      GenesisHolders(keccak, alloc, log, h);
      EmptyHolders(h);
    }
  }

  lemma NoEmptyCode(keccak: Hasher, alloc: Alloc)
    requires Hashes(keccak) && forall a :: a in alloc ==> alloc[a].code in keccak.inPlay
    ensures Deployed(keccak, alloc, EMPTY_CODE_HASH) == {}
  {
    forall a | a in alloc && alloc[a].code != [] ensures keccak.hash(alloc[a].code) != EMPTY_CODE_HASH {
      assert keccak.hash(alloc[a].code) != keccak.hash([]);
    }
  }

  lemma GenesisClean(keccak: Hasher, alloc: Alloc, log: LayerLog)
    requires IsGenesisLog(keccak, alloc, log)
    ensures CleanStorage(Over(log, Base(EMPTY_DATABASE)))
  {
    var u := Over(log, Base(EMPTY_DATABASE));
    forall a: Address, k: Hash | !u.acct(a).dirtyStorage ensures u.slot(a, u.acct(a).version, k) == ZERO_HASH {
      var v := u.acct(a).version;
      assert u.slot(a, v, k) == SlotOver(log, a, v, k, Base(EMPTY_DATABASE).slot(a, v, k));
      assert a in alloc ==> log.updatedAccounts[a] == ValueOf(keccak, alloc[a]);
    }
  }

  lemma GenesisPreimages(keccak: Hasher, alloc: Alloc, log: LayerLog)
    requires FromGenesis(keccak, alloc, log)
    ensures PreimagesFit(keccak, log, Base(EMPTY_DATABASE))
  {
    NoEmptyCode(keccak, alloc);
    assert CodeListed(keccak, alloc, log, EMPTY_CODE_HASH);
    forall h: Hash | h in log.codePreimage ensures IsCodeOf(keccak, log.codePreimage[h], h) {
      assert CodeListed(keccak, alloc, log, h);
    }
    forall a: Address | a in log.updatedAccounts
      ensures log.updatedAccounts[a].codeHash == EMPTY_CODE_HASH || log.updatedAccounts[a].codeHash in log.codePreimage
    {
      var h := keccak.hash(alloc[a].code);
      assert log.updatedAccounts[a] == ValueOf(keccak, alloc[a]);
      assert CodeListed(keccak, alloc, log, h) && keccak.hash([]) == EMPTY_CODE_HASH;
      if alloc[a].code != [] { assert a in Deployed(keccak, alloc, h); }
    }
  }

  /** The genesis log fits the empty store. */
  lemma GenesisFits(keccak: Hasher, alloc: Alloc, log: LayerLog)
    requires FromGenesis(keccak, alloc, log)
    ensures LogFits(keccak, log, Base(EMPTY_DATABASE))
  {
    GenesisClean(keccak, alloc, log);
    GenesisCountsFit(keccak, alloc, log);
    GenesisPreimages(keccak, alloc, log);
    forall a: Address | a in log.updatedAccounts ensures AccountFits(Base(EMPTY_DATABASE), a, log.updatedAccounts[a]) {
      assert log.updatedAccounts[a] == ValueOf(keccak, alloc[a]);
    }
  }

  // --------------------------------------------------------- the first world

  /** The rows NewStateStoreImpl commits from genesis. */
  function FirstRows(log: LayerLog): Database {
    var db := PersistOnto(EMPTY_DATABASE, EMPTY_DATABASE, log);
    db.(children := db.children[KeyOf(log) := []])
  }

  function FirstWorld(log: LayerLog): World {
    World(FirstRows(log), map[log.blockNumber := {log.rootHash}], KeyOf(log), [], map[])
  }

  function GenesisShown(keccak: Hasher, alloc: Alloc, a: Address): Shown {
    if a in alloc then
      Shown(alloc[a].nonce, alloc[a].balance, keccak.hash(alloc[a].code), alloc[a].code, alloc[a].storage != map[], 1)
    else ABSENT
  }

  function GenesisSlot(alloc: Alloc, a: Address, k: Hash): Hash {
    if a in alloc && k in alloc[a].storage then alloc[a].storage[k] else ZERO_HASH
  }

  lemma GenesisLogShows(keccak: Hasher, alloc: Alloc, log: LayerLog, a: Address, k: Hash)
    requires FromGenesis(keccak, alloc, log)
    ensures var u := Over(log, Base(EMPTY_DATABASE));
            AtRest(u, a) == GenesisShown(keccak, alloc, a) && PlainSlot(u, a, k) == GenesisSlot(alloc, a, k)
  {
    var u := Over(log, Base(EMPTY_DATABASE));
    assert u.slot(a, u.acct(a).version, k) ==
           SlotOver(log, a, u.acct(a).version, k, Base(EMPTY_DATABASE).slot(a, u.acct(a).version, k));
    if a in alloc {
      var code := alloc[a].code;
      assert log.updatedAccounts[a] == ValueOf(keccak, alloc[a]);
      assert keccak.hash([]) == EMPTY_CODE_HASH;
      if code != [] {
        assert a in Deployed(keccak, alloc, keccak.hash(code)) && CodeListed(keccak, alloc, log, keccak.hash(code));
        assert keccak.hash(log.codePreimage[keccak.hash(code)]) == keccak.hash(code) != keccak.hash([]);
      }
    }
  }

  lemma FirstRowsOk(keccak: Hasher, alloc: Alloc, log: LayerLog)
    requires FromGenesis(keccak, alloc, log)
    ensures DatabaseOk(keccak, FirstRows(log)) && LiveEq(Over(log, Base(EMPTY_DATABASE)), Base(FirstRows(log)))
  {
    GenesisFits(keccak, alloc, log);
    EmptyDatabaseOk(keccak);
    PersistKeepsDatabase(keccak, EMPTY_DATABASE, EMPTY_DATABASE, log);
    var db := PersistOnto(EMPTY_DATABASE, EMPTY_DATABASE, log);
    ChildRowsApart(keccak, db, db.children[KeyOf(log) := []], Over(log, Base(EMPTY_DATABASE)));
  }

  lemma ChildRowsApart(keccak: Hasher, db: Database, children: map<StateKey, seq<Hash>>, u: View)
    requires DatabaseOk(keccak, db) && LiveEq(u, Base(db))
    ensures DatabaseOk(keccak, db.(children := children)) && LiveEq(u, Base(db.(children := children)))
  {
    var w := Base(db.(children := children));
    forall h: Hash ensures Holders(Base(db), h) == Holders(w, h) { SameHolders(Base(db), w, h); }
    ViewOkCopy(keccak, Base(db), w);
  }

  lemma FirstTreeOk(log: LayerLog)
    ensures TreeOk(FirstWorld(log))
  {
    var w := FirstWorld(log);
    assert Mirrored(w);
    assert ListsOk(w);
  }

  lemma FirstRowsShow(keccak: Hasher, alloc: Alloc, log: LayerLog, a: Address, k: Hash)
    requires FromGenesis(keccak, alloc, log)
    ensures AtRest(Base(FirstRows(log)), a) == GenesisShown(keccak, alloc, a)
    ensures PlainSlot(Base(FirstRows(log)), a, k) == GenesisSlot(alloc, a, k)
  {
    var u, w := Over(log, Base(EMPTY_DATABASE)), Base(FirstRows(log));
    FirstRowsOk(keccak, alloc, log);
    GenesisLogShows(keccak, alloc, log, a, k);
    LiveEqIsPlainEq(u, w);
    assert PlainCode(u, a) == PlainCode(w, a);
  }

  /**
   A node that starts from genesis starts in a state every invariant holds of, whatever its retention options, and that
   shows the genesis allocation.
   */
  lemma FirstWorldSafe(keccak: Hasher, alloc: Alloc, log: LayerLog, opts: LayerRuns.Retention)
    requires FromGenesis(keccak, alloc, log)
    ensures LayerRuns.Safe(keccak, FirstWorld(log), opts)
  {
    FirstRowsOk(keccak, alloc, log);
    FirstTreeOk(log);
  }

  lemma FirstWorldShows(keccak: Hasher, alloc: Alloc, log: LayerLog, a: Address, k: Hash)
    requires FromGenesis(keccak, alloc, log)
    ensures Linked(FirstWorld(log)) && LayerRuns.LiveKey(FirstWorld(log), KeyOf(log))
    ensures var u := LayerRuns.KeyView(FirstWorld(log), KeyOf(log));
            AtRest(u, a) == GenesisShown(keccak, alloc, a) && PlainSlot(u, a, k) == GenesisSlot(alloc, a, k)
  {
    FirstTreeOk(log);
    FirstRowsShow(keccak, alloc, log, a, k);
  }

  /** The ledger of a node that has only its genesis. */
  lemma FirstLedger(keccak: Hasher, alloc: Alloc, log: LayerLog, opts: LayerRuns.Retention)
    requires FromGenesis(keccak, alloc, log)
    ensures LayerRuns.Safe(keccak, FirstWorld(log), opts)
    ensures LayerRuns.Agrees(FirstWorld(log), map[KeyOf(log) := Over(log, Base(EMPTY_DATABASE))])
  {
    FirstWorldSafe(keccak, alloc, log, opts);
    FirstRowsOk(keccak, alloc, log);
  }

  /** From its genesis on, whatever a node does, its live states read as the ledger of committed blocks. */
  lemma NodeAgrees(keccak: Hasher, alloc: Alloc, log: LayerLog, opts: LayerRuns.Retention, steps: seq<LayerRuns.Step>)
    requires FromGenesis(keccak, alloc, log) && LayerRuns.Sensible(opts)
    requires LayerRuns.AllPossible(keccak, FirstWorld(log), opts, steps)
    ensures var w := LayerRuns.Run(FirstWorld(log), opts, steps);
            var ledger := LayerRuns.RecordAll(FirstWorld(log), opts, map[KeyOf(log) := Over(log, Base(EMPTY_DATABASE))],
                                              steps);
            LayerRuns.Safe(keccak, w, opts) && LayerRuns.Agrees(w, ledger)
  {
    FirstLedger(keccak, alloc, log, opts);
    LayerRuns.RunAgrees(keccak, FirstWorld(log), opts, map[KeyOf(log) := Over(log, Base(EMPTY_DATABASE))], steps);
  }
}
