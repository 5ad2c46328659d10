/**
 What a dropped undo closure does to the reverts that would have run it. An account that SelfDestruct6780 destroys keeps
 its raised version through every older closure, until the closure that unloads it runs.
 */
module Losses {
  import opened Types
  import opened Accounts
  import opened Journal
  import opened Snapshots
  import opened Reverts

  // ------------------------------------------------------------------ one account

  /** y is x one version later, its balance aside. */
  predicate Raised(x: Account, y: Account) {
    y == x.(version := x.version + 1, balance := y.balance)
  }

  lemma VersionBounds(o: Origin, a: Account)
    requires OriginOk(o) && AccountOk(o, a)
    ensures Status(a) == NOT_EXISTED <==> a.version < StorageVersion(o.loaded)
    ensures Status(a) == BEING_DELETED <==> a.version > StorageVersion(o.loaded)
    ensures a.version <= StorageVersion(o.loaded) + 1
  {
    NextVersions(o.loaded.version);
  }

  lemma NextVersions(v: nat)
    ensures v % VERSIONS == NOT_EXISTED ==> (v + 1) % VERSIONS == UPDATING && (v + 2) % VERSIONS == BEING_DELETED
    ensures v % VERSIONS == UPDATING ==> (v + 1) % VERSIONS == BEING_DELETED
  {
  }

  lemma RaisedOk(o: Origin, x: Account, y: Account)
    requires OriginOk(o) && AccountOk(o, x) && Raised(x, y) && Status(x) != BEING_DELETED
    ensures AccountOk(o, y) && (Status(x) == UPDATING ==> Status(y) == BEING_DELETED)
  {
    VersionBounds(o, x);
    NextVersions(x.version);
  }

  /** A closure that may run on x may run on y, and y stays one version ahead. */
  lemma RaisedReverts(o: Origin, u: AccountUndo, x: Account, y: Account)
    requires OriginOk(o) && AccountOk(o, x) && Raised(x, y) && Status(x) != BEING_DELETED && Fits(o, u, x)
    ensures Fits(o, u, y) && Raised(Revert(u, x), Revert(u, y)) && Status(Revert(u, x)) != BEING_DELETED
    ensures AccountOk(o, Revert(u, x))
  {
    RevertOk(o, u, x);
    VersionBounds(o, x);
    VersionBounds(o, Revert(u, x));
    assert Revert(u, x).version <= x.version;
  }

  // ---------------------------------------------------------------- the whole core

  /** d is c with one account, which is not being deleted, raised. */
  ghost predicate OneUp(env: Env, addr: Address, c: Core, d: Core) {
    && CoreOk(env, c) && addr in c.dirtyAccounts && addr in d.dirtyAccounts
    && Status(c.dirtyAccounts[addr]) != BEING_DELETED
    && Raised(c.dirtyAccounts[addr], d.dirtyAccounts[addr])
    && d == c.(dirtyAccounts := c.dirtyAccounts[addr := d.dirtyAccounts[addr]])
  }

  lemma OneUpOk(env: Env, addr: Address, c: Core, d: Core)
    requires EnvOk(env) && OneUp(env, addr, c, d)
    ensures CoreOk(env, d) && (Settled(c) ==> Settled(d))
  {
    assert OriginOk(OriginOf(env, addr));
    RaisedOk(OriginOf(env, addr), c.dirtyAccounts[addr], d.dirtyAccounts[addr]);
  }

  lemma UndoneOneUp(env: Env, addr: Address, u: Undo, c: Core, d: Core)
    requires EnvOk(env) && OneUp(env, addr, c, d) && FitsCore(env, u, c) && CoreOk(env, Undone(u, c))
    ensures FitsCore(env, u, d)
    ensures if u == Unload(addr) then Undone(u, d) == Undone(u, c) else OneUp(env, addr, Undone(u, c), Undone(u, d))
  {
    if u.OnAccount? {
      RevertedOneUp(env, addr, u.addr, u.undo, c, d);
    } else if u.Unload? {
      UnloadedOneUp(env, addr, u.addr, c, d);
    } else {
      UndoneFrame(u, c, d.dirtyAccounts);
    }
  }

  lemma UnloadedOneUp(env: Env, addr: Address, a: Address, c: Core, d: Core)
    requires OneUp(env, addr, c, d) && CoreOk(env, Undone(Unload(a), c))
    ensures if a == addr then Undone(Unload(a), d) == Undone(Unload(a), c)
            else OneUp(env, addr, Undone(Unload(a), c), Undone(Unload(a), d))
  {
    if a == addr {
      assert d.dirtyAccounts - {addr} == c.dirtyAccounts - {addr};
    } else {
      assert d.dirtyAccounts - {a} == (c.dirtyAccounts - {a})[addr := d.dirtyAccounts[addr]];
    }
  }

  lemma RevertedOneUp(env: Env, addr: Address, a: Address, u: AccountUndo, c: Core, d: Core)
    requires EnvOk(env) && OneUp(env, addr, c, d) && FitsCore(env, OnAccount(a, u), c)
    requires CoreOk(env, Undone(OnAccount(a, u), c))
    ensures FitsCore(env, OnAccount(a, u), d)
    ensures OneUp(env, addr, Undone(OnAccount(a, u), c), Undone(OnAccount(a, u), d))
  {
    var x, y := c.dirtyAccounts[addr], d.dirtyAccounts[addr];
    if a == addr {
      assert OriginOk(OriginOf(env, addr));
      RaisedReverts(OriginOf(env, addr), u, x, y);
      UpdateAgain(c.dirtyAccounts, addr, y, Revert(u, y), Revert(u, x));
    } else {
      UpdateApart(c.dirtyAccounts, addr, a, y, Revert(u, c.dirtyAccounts[a]));
    }
  }

  lemma UpdateAgain(m: map<Address, Account>, addr: Address, x: Account, y: Account, z: Account)
    ensures m[addr := x][addr := y] == m[addr := z][addr := y]
  {
  }

  lemma UpdateApart(m: map<Address, Account>, a: Address, b: Address, x: Account, y: Account)
    requires a != b
    ensures m[a := x][b := y] == m[b := y][a := x]
  {
  }

  /**
   Raising an account leaves a journal whose closures may still all run, and whose snapshots were taken between
   operations.
   */
  lemma {:induction false} JournalOneUp(env: Env, addr: Address, c: Core, d: Core, js: seq<Entry>)
    requires EnvOk(env) && OneUp(env, addr, c, d) && JournalOk(env, c, js)
    ensures JournalOk(env, d, js)
    decreases |js|
  {
    OneUpOk(env, addr, c, d);
    if js != [] {
      var u, less := js[|js| - 1].undo, js[..|js| - 1];
      UndoneOneUp(env, addr, u, c, d);
      if u != Unload(addr) { JournalOneUp(env, addr, Undone(u, c), Undone(u, d), less); }
    }
  }

  /** Undoing loads no account and raises no version. */
  lemma {:induction false} RewoundFalls(c: Core, js: seq<Entry>, i: nat, a: Address)
    requires i < |js| && a in Rewound(c, js, i).dirtyAccounts
    ensures a in c.dirtyAccounts && Rewound(c, js, i).dirtyAccounts[a].version <= c.dirtyAccounts[a].version
    decreases |js|
  {
    if i + 1 == |js| {
      assert js[i + 1..] == [];
    } else {
      UndosShorter(js, i);
      RewoundFalls(Undone(js[|js| - 1].undo, c), js[..|js| - 1], i, a);
      UndoneFalls(js[|js| - 1].undo, c, a);
    }
  }

  lemma UndoneFalls(u: Undo, c: Core, a: Address)
    requires a in Undone(u, c).dirtyAccounts
    ensures a in c.dirtyAccounts && Undone(u, c).dirtyAccounts[a].version <= c.dirtyAccounts[a].version
  {
  }

  /** Rewinding keeps the account raised as long as it is loaded. */
  lemma {:induction false} RewoundOneUp(env: Env, addr: Address, c: Core, d: Core, js: seq<Entry>, i: nat)
    requires EnvOk(env) && OneUp(env, addr, c, d) && JournalOk(env, c, js) && i < |js|
    ensures if addr in Rewound(c, js, i).dirtyAccounts then OneUp(env, addr, Rewound(c, js, i), Rewound(d, js, i))
            else Rewound(d, js, i) == Rewound(c, js, i)
    decreases |js|
  {
    if i + 1 == |js| {
      assert js[i + 1..] == [];
    } else {
      UndosShorter(js, i);
      var u, less := js[|js| - 1].undo, js[..|js| - 1];
      UndoneOneUp(env, addr, u, c, d);
      if u != Unload(addr) {
        RewoundOneUp(env, addr, Undone(u, c), Undone(u, d), less, i);
      } else if addr in Rewound(c, js, i).dirtyAccounts {
        RewoundFalls(Undone(u, c), less, i, addr);
      }
    }
  }

  // ------------------------------------------------------------------- the drop

  /** The undo that is lost would have put one account a version back. */
  lemma DropRaises(env: Env, c: Core, op: Op)
    requires EnvOk(env) && CoreOk(env, c) && Enabled(env, c, op) && DropsUndo(c, op)
    ensures Do(env, c, op).1 == [] && OneUp(env, op.addr, c, Do(env, c, op).0)
  {
    assert OriginOk(OriginOf(env, op.addr));
  }

  /** x is what core has come to when the undo closures of the lost accounts are missing. */
  ghost predicate Faded(env: Env, x: Core, core: Core, lost: set<Address>) {
    && CoreOk(env, x)
    && x.dirtyAccounts.Keys == core.dirtyAccounts.Keys && core == x.(dirtyAccounts := core.dirtyAccounts)
    && (forall a: Address {:trigger FadedAt(env, x, core, lost, a)} :: a in core.dirtyAccounts ==>
          FadedAt(env, x, core, lost, a))
  }

  ghost predicate FadedAt(env: Env, x: Core, core: Core, lost: set<Address>, a: Address)
    requires a in core.dirtyAccounts && a in x.dirtyAccounts
  {
    if a in lost then x.dirtyAccounts[a].version == core.dirtyAccounts[a].version + 1
    else SameAccount(OriginOf(env, a), x.dirtyAccounts[a], core.dirtyAccounts[a])
  }

  lemma NotFaded(env: Env, core: Core)
    requires CoreOk(env, core)
    ensures Faded(env, core, core, {})
  {
    SameCoreReflexive(env, core);
    forall a: Address | a in core.dirtyAccounts ensures FadedAt(env, core, core, {}, a) {}
  }

  lemma FadedThrough(env: Env, y: Core, x: Core, core: Core, lost: set<Address>)
    requires SameCore(env, y, x) && Faded(env, x, core, lost)
    ensures Faded(env, y, core, lost)
  {
    SameCoreSettled(env, y, x);
    forall a: Address | a in core.dirtyAccounts ensures FadedAt(env, y, core, lost, a) {
      assert FadedAt(env, x, core, lost, a);
      assert SameAccount(OriginOf(env, a), y.dirtyAccounts[a], x.dirtyAccounts[a]);
      if a !in lost {
        SameAccountTransitive(OriginOf(env, a), y.dirtyAccounts[a], x.dirtyAccounts[a], core.dirtyAccounts[a]);
      }
    }
  }

  /** One more undo is lost. */
  lemma FadedMore(env: Env, addr: Address, x: Core, y: Core, core: Core, lost: set<Address>)
    requires EnvOk(env) && Faded(env, x, core, lost) && addr !in lost && OneUp(env, addr, x, y)
    ensures Faded(env, y, core, lost + {addr})
  {
    OneUpOk(env, addr, x, y);
    OneUpFrame(env, addr, x, y, core);
    forall a: Address | a in core.dirtyAccounts ensures FadedAt(env, y, core, lost + {addr}, a) {
      FadedMoreAt(env, addr, x, y, core, lost, a);
    }
  }

  lemma OneUpFrame(env: Env, addr: Address, x: Core, y: Core, core: Core)
    requires OneUp(env, addr, x, y) && x.dirtyAccounts.Keys == core.dirtyAccounts.Keys
    requires core == x.(dirtyAccounts := core.dirtyAccounts)
    ensures y.dirtyAccounts.Keys == core.dirtyAccounts.Keys && core == y.(dirtyAccounts := core.dirtyAccounts)
  {
    assert y.dirtyAccounts.Keys == x.dirtyAccounts.Keys;
  }

  lemma FadedMoreAt(env: Env, addr: Address, x: Core, y: Core, core: Core, lost: set<Address>, a: Address)
    requires Faded(env, x, core, lost) && addr !in lost && OneUp(env, addr, x, y) && a in core.dirtyAccounts
    ensures a in y.dirtyAccounts && FadedAt(env, y, core, lost + {addr}, a)
  {
    assert FadedAt(env, x, core, lost, a);
    if a == addr && a !in lost {
      assert SameAccount(OriginOf(env, a), x.dirtyAccounts[a], core.dirtyAccounts[a]);
    }
  }

  lemma FadedElsewhere(env: Env, addr: Address, x: Core, core: Core, lost: set<Address>)
    requires Faded(env, x, core, lost) && addr !in core.dirtyAccounts
    ensures Faded(env, x, core, lost + {addr})
  {
    forall a: Address | a in core.dirtyAccounts ensures FadedAt(env, x, core, lost + {addr}, a) {
      assert FadedAt(env, x, core, lost, a);
    }
  }

  /** What is left is what there was, up to caches, exactly when no undo of its accounts was lost. */
  lemma FadedIff(env: Env, x: Core, core: Core, lost: set<Address>)
    requires Faded(env, x, core, lost)
    ensures SameCore(env, x, core) <==> lost !! core.dirtyAccounts.Keys
  {
    forall a: Address | a in core.dirtyAccounts ensures FadedAt(env, x, core, lost, a) {}
    if a: Address :| a in lost && a in core.dirtyAccounts {
      assert FadedAt(env, x, core, lost, a);
      assert x.dirtyAccounts[a].version != core.dirtyAccounts[a].version;
    }
  }
}
