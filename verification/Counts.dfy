/**
 Code references over runs: each dirty account keeps the difference its transaction makes to the count of every code
 hash. Undoing a removal of code leaves that difference one too low for good.
 */
module Counts {
  import opened Types
  import opened Views
  import opened Accounts
  import opened Journal
  import opened Snapshots
  import opened RevertRuns
  import opened OpMeaning

  ghost predicate DiffsOk(env: Env, c: Core) {
    forall a: Address :: a in c.dirtyAccounts ==> DiffOk(OriginOf(env, a), c.dirtyAccounts[a])
  }

  lemma LoadedDiffOk(env: Env, c: Core, a: Address)
    requires EnvOk(env) && DiffsOk(env, c)
    ensures DiffOk(OriginOf(env, a), Loaded(env, c, a))
  {
    assert OriginOk(OriginOf(env, a));
  }

  lemma DoDiffs(env: Env, c: Core, op: Op)
    requires EnvOk(env) && CoreOk(env, c) && DiffsOk(env, c) && Enabled(env, c, op)
    ensures DiffsOk(env, Do(env, c, op).0)
  {
    if IsAccountOp(op) {
      var o, a := OriginOf(env, op.addr), Loaded(env, c, op.addr);
      LoadedDiffOk(env, c, op.addr);
      if op.SetCodeOp? {
        var a1 := ReadCode(env.parent, a).0;
        SetCodeDiff(o, a1, op.code, env.keccak.hash(op.code));
      }
      AccountDiffs(env, c, op);
    } else {
      PlainDiffs(env, c, op);
    }
  }

  lemma PlainDiffs(env: Env, c: Core, op: Op)
    requires DiffsOk(env, c) && Enabled(env, c, op) && !IsAccountOp(op)
    ensures DiffsOk(env, DoPlain(env, c, op).0)
  {
    assert DoPlain(env, c, op).0.dirtyAccounts == c.dirtyAccounts;
  }

  lemma AccountDiffs(env: Env, c: Core, op: Op)
    requires DiffsOk(env, c) && Enabled(env, c, op) && IsAccountOp(op)
    requires DiffOk(OriginOf(env, op.addr), Loaded(env, c, op.addr))
    requires op.SetCodeOp? ==> DiffOk(OriginOf(env, op.addr),
               SetCode(ReadCode(env.parent, Loaded(env, c, op.addr)).0, op.code, env.keccak.hash(op.code)).0)
    ensures DiffsOk(env, DoAccount(env, c, op).0)
  {
    var c2 := DoAccount(env, c, op).0;
    DoLeaves(env, c, op);
    if !op.SetCodeOp? { ResultKeepsCode(env, c, op); }
    forall a: Address | a in c2.dirtyAccounts ensures DiffOk(OriginOf(env, a), c2.dirtyAccounts[a]) {
      assert c2.dirtyAccounts[a] == Loaded(env, c2, a);
      OnlyItsOwn(env, c, op, a);
    }
  }

  lemma OnlyItsOwn(env: Env, c: Core, op: Op, a: Address)
    requires Enabled(env, c, op) && IsAccountOp(op) && a in DoAccount(env, c, op).0.dirtyAccounts
    ensures a != op.addr ==> a in c.dirtyAccounts
  {
  }

  lemma ResultKeepsCode(env: Env, c: Core, op: Op)
    requires Enabled(env, c, op) && IsAccountOp(op) && !op.SetCodeOp?
    ensures Result(env, c, op).knownCodeDiff == Loaded(env, c, op.addr).knownCodeDiff
    ensures Result(env, c, op).codeHash == Loaded(env, c, op.addr).codeHash
  {
  }

  // ------------------------------------------------------- what a removal leaves

  /** x counts no code hash higher than y, and some lower exactly if so told. */
  ghost predicate Lowered(x: Account, y: Account, lower: bool) {
    && x.codeHash == y.codeHash
    && (forall h: Hash :: h != EMPTY_CODE_HASH ==> CountOf(x.knownCodeDiff, h) <= CountOf(y.knownCodeDiff, h))
    && (lower <==> exists h: Hash :: h != EMPTY_CODE_HASH && CountOf(x.knownCodeDiff, h) < CountOf(y.knownCodeDiff, h))
  }

  /** Undo closures change two counts alike. */
  lemma RevertLowers(u: AccountUndo, x: Account, y: Account, lower: bool)
    requires Lowered(x, y, lower)
    ensures Lowered(Revert(u, x), Revert(u, y), lower)
  {
    var x2, y2 := Revert(u, x), Revert(u, y);
    forall h: Hash
      ensures CountOf(x2.knownCodeDiff, h) - CountOf(y2.knownCodeDiff, h) ==
              CountOf(x.knownCodeDiff, h) - CountOf(y.knownCodeDiff, h)
    {
      RevertCounts(u, x, y, h);
    }
    if lower {
      var h: Hash :| h != EMPTY_CODE_HASH && CountOf(x.knownCodeDiff, h) < CountOf(y.knownCodeDiff, h);
      assert CountOf(x2.knownCodeDiff, h) < CountOf(y2.knownCodeDiff, h);
    }
  }

  lemma RevertCounts(u: AccountUndo, x: Account, y: Account, h: Hash)
    requires x.codeHash == y.codeHash
    ensures Revert(u, x).codeHash == Revert(u, y).codeHash
    ensures CountOf(Revert(u, x).knownCodeDiff, h) - CountOf(Revert(u, y).knownCodeDiff, h) ==
            CountOf(x.knownCodeDiff, h) - CountOf(y.knownCodeDiff, h)
  {
  }

  lemma NotLowered(x: Account, y: Account)
    requires x.codeHash == y.codeHash && x.knownCodeDiff == y.knownCodeDiff
    ensures Lowered(x, y, false)
  {
  }

  /** Undoing SetCode at once leaves a count lower exactly when code was removed. */
  lemma SetCodeLowers(a: Account, code: Code, hash: Hash)
    requires CanSetCode(a, hash)
    ensures Lowered(Revert(SetCode(a, code, hash).1, SetCode(a, code, hash).0), a, RemovesCode(a, hash))
  {
    var b := Revert(SetCode(a, code, hash).1, SetCode(a, code, hash).0);
    if RemovesCode(a, hash) {
      assert CountOf(b.knownCodeDiff, a.codeHash) == CountOf(a.knownCodeDiff, a.codeHash) - 1;
    } else {
      forall h: Hash | h != EMPTY_CODE_HASH ensures CountOf(b.knownCodeDiff, h) == CountOf(a.knownCodeDiff, h) {}
    }
  }

  /** Every dirty account of c against the same account of d; those in lower have been lowered. */
  ghost predicate LoweredCore(c: Core, d: Core, lower: set<Address>) {
    && c.dirtyAccounts.Keys == d.dirtyAccounts.Keys
    && (forall a: Address {:trigger c.dirtyAccounts[a]} {:trigger d.dirtyAccounts[a]} :: a in c.dirtyAccounts ==>
          Lowered(c.dirtyAccounts[a], d.dirtyAccounts[a], a in lower))
  }

  lemma RevertedLowers(addr: Address, u: AccountUndo, c: Core, d: Core, lower: set<Address>)
    requires LoweredCore(c, d, lower) && addr in c.dirtyAccounts
    ensures LoweredCore(Undone(OnAccount(addr, u), c), Undone(OnAccount(addr, u), d), lower)
  {
    var x, y := c.dirtyAccounts[addr], d.dirtyAccounts[addr];
    UndoneAt(c, addr, u);
    UndoneAt(d, addr, u);
    RevertLowers(u, x, y, addr in lower);
    OneLowered(c, d, addr, Revert(u, x), Revert(u, y), lower);
  }

  lemma UndoneAt(c: Core, addr: Address, u: AccountUndo)
    requires addr in c.dirtyAccounts
    ensures Undone(OnAccount(addr, u), c) ==
            c.(dirtyAccounts := c.dirtyAccounts[addr := Revert(u, c.dirtyAccounts[addr])])
  {
  }

  lemma OneLowered(c: Core, d: Core, addr: Address, x: Account, y: Account, lower: set<Address>)
    requires LoweredCore(c, d, lower) && addr in c.dirtyAccounts && Lowered(x, y, addr in lower)
    ensures LoweredCore(c.(dirtyAccounts := c.dirtyAccounts[addr := x]),
                        d.(dirtyAccounts := d.dirtyAccounts[addr := y]), lower)
  {
  }

  lemma UndoneLowers(u: Undo, c: Core, d: Core, lower: set<Address>)
    requires LoweredCore(c, d, lower)
    ensures LoweredCore(Undone(u, c), Undone(u, d), lower)
  {
    if u.OnAccount? {
      if u.addr in c.dirtyAccounts { RevertedLowers(u.addr, u.undo, c, d, lower); }
    } else if !u.Unload? {
      UndoneFrame(u, c, c.dirtyAccounts);
      UndoneFrame(u, d, d.dirtyAccounts);
    }
  }

  lemma {:induction false} RewoundLowers(c: Core, d: Core, js: seq<Entry>, i: nat, lower: set<Address>)
    requires LoweredCore(c, d, lower) && i < |js|
    ensures LoweredCore(Rewound(c, js, i), Rewound(d, js, i), lower)
    decreases |js|
  {
    if i + 1 == |js| {
      assert js[i + 1..] == [];
    } else {
      UndosShorter(js, i);
      var u := js[|js| - 1].undo;
      UndoneLowers(u, c, d, lower);
      RewoundLowers(Undone(u, c), Undone(u, d), js[..|js| - 1], i, lower);
    }
  }

  // ------------------------------------------------------------ one operation

  /** The account whose code the operation removes, if it removes one. */
  function RemovedBy(env: Env, c: Core, op: Op): set<Address> {
    if op.SetCodeOp? && RemovesCode(Loaded(env, c, op.addr), env.keccak.hash(op.code)) then {op.addr} else {}
  }

  predicate Framed(us: seq<Undo>) {
    forall i :: 0 <= i < |us| ==> !us[i].OnAccount? && !us[i].Unload?
  }

  lemma {:induction false} FramedUndo(c: Core, us: seq<Undo>)
    requires Framed(us)
    ensures UndoAll(c, us).dirtyAccounts == c.dirtyAccounts
    decreases |us|
  {
    if us != [] {
      var last := us[|us| - 1];
      UndoneFrame(last, c, c.dirtyAccounts);
      FramedUndo(Undone(last, c), us[..|us| - 1]);
    }
  }

  lemma PlainFramed(env: Env, c: Core, op: Op)
    requires Enabled(env, c, op) && !IsAccountOp(op)
    ensures DoPlain(env, c, op).0.dirtyAccounts == c.dirtyAccounts && Framed(DoPlain(env, c, op).1)
  {
  }

  /** Writing one account and undoing it. */
  lemma WriteLowers(env: Env, c: Core, addr: Address, a: Account, u: AccountUndo, lower: bool)
    requires Lowered(Revert(u, a), Loaded(env, c, addr), lower)
    ensures var (c2, us) := Write(env, c, addr, a, u); LoweredCore(UndoAll(c2, us), c, if lower then {addr} else {})
  {
    var (c2, us) := Write(env, c, addr, a, u);
    var back := Undone(OnAccount(addr, u), c2);
    assert us[|us| - 1] == OnAccount(addr, u);
    assert back.dirtyAccounts == c.dirtyAccounts[addr := Revert(u, a)];
    forall b: Address | b in c.dirtyAccounts && b != addr
      ensures Lowered(c.dirtyAccounts[b], c.dirtyAccounts[b], false)
    {
      NotLowered(c.dirtyAccounts[b], c.dirtyAccounts[b]);
    }
    if addr in c.dirtyAccounts {
      assert us[..|us| - 1] == [];
    } else {
      assert us[..|us| - 1] == [Unload(addr)] && [Unload(addr)][..0] == [];
      assert UndoAll(back, [Unload(addr)]) == Undone(Unload(addr), back);
      assert Undone(Unload(addr), back).dirtyAccounts == c.dirtyAccounts;
    }
  }

  /** A setter other than SetCode changes no count, and neither does undoing it. */
  lemma OtherSetterLowers(a: Account, a2: Account, u: AccountUndo)
    requires a2.codeHash == a.codeHash && a2.knownCodeDiff == a.knownCodeDiff && !u.UndoCode?
    ensures Lowered(Revert(u, a2), a, false)
  {
    NotLowered(Revert(u, a2), a);
  }

  lemma KeptLowers(c2: Core, c: Core, addr: Address, a: Account)
    requires addr in c.dirtyAccounts && c2.dirtyAccounts == c.dirtyAccounts[addr := a]
    requires a.codeHash == c.dirtyAccounts[addr].codeHash && a.knownCodeDiff == c.dirtyAccounts[addr].knownCodeDiff
    ensures LoweredCore(c2, c, {})
  {
    forall b: Address | b in c.dirtyAccounts ensures Lowered(c2.dirtyAccounts[b], c.dirtyAccounts[b], false) {
      NotLowered(c2.dirtyAccounts[b], c.dirtyAccounts[b]);
    }
  }

  lemma SameLowers(c2: Core, c: Core)
    requires c2.dirtyAccounts == c.dirtyAccounts
    ensures LoweredCore(c2, c, {})
  {
    forall b: Address | b in c.dirtyAccounts ensures Lowered(c2.dirtyAccounts[b], c.dirtyAccounts[b], false) {
      NotLowered(c2.dirtyAccounts[b], c.dirtyAccounts[b]);
    }
  }

  lemma CodeLowers(env: Env, c: Core, op: Op)
    requires Enabled(env, c, op) && op.SetCodeOp?
    ensures var (c2, us) := DoAccount(env, c, op); LoweredCore(UndoAll(c2, us), c, RemovedBy(env, c, op))
  {
    var a, hash := Loaded(env, c, op.addr), env.keccak.hash(op.code);
    var a1 := ReadCode(env.parent, a).0;
    SetCodeLowers(a1, op.code, hash);
    WriteLowers(env, c, op.addr, SetCode(a1, op.code, hash).0, SetCode(a1, op.code, hash).1, RemovesCode(a1, hash));
  }

  lemma ReadLowers(env: Env, c: Core, op: Op)
    requires IsRead(op)
    ensures var (c2, us) := DoAccount(env, c, op); LoweredCore(UndoAll(c2, us), c, {})
  {
    var c2, us := DoAccount(env, c, op).0, DoAccount(env, c, op).1;
    assert us == [];
    var a := Loaded(env, c, op.addr);
    if op.addr in c.dirtyAccounts {
      KeptLowers(c2, c, op.addr, if op.ReadCodeOp? then ReadCode(env.parent, a).0
                                 else ReadSlot(env.parent, op.addr, a, op.key).0);
    } else {
      SameLowers(c2, c);
    }
  }

  lemma DropLowers(env: Env, c: Core, op: Op)
    requires Enabled(env, c, op) && op.SelfDestruct6780?
    ensures var (c2, us) := DoAccount(env, c, op); LoweredCore(UndoAll(c2, us), c, {})
  {
    var c2, us := DoAccount(env, c, op).0, DoAccount(env, c, op).1;
    var a := Loaded(env, c, op.addr);
    if op.addr in c.dirtyAccounts {
      KeptLowers(c2, c, op.addr, if op.addr in c.newContracts then SelfDestruct(a).0 else a);
    } else {
      assert us == [Unload(op.addr)] && us[..0] == [];
      assert UndoAll(c2, us) == Undone(Unload(op.addr), c2);
      assert Undone(Unload(op.addr), c2).dirtyAccounts == c.dirtyAccounts;
      SameLowers(Undone(Unload(op.addr), c2), c);
    }
  }

  lemma SetterLowers(env: Env, c: Core, op: Op)
    requires Enabled(env, c, op) && IsAccountOp(op) && !op.SetCodeOp? && !op.SelfDestruct6780? && !IsRead(op)
    ensures var (c2, us) := DoAccount(env, c, op); LoweredCore(UndoAll(c2, us), c, {})
  {
    var a := Loaded(env, c, op.addr);
    var (a2, u) :=
      if IsBalanceOp(op) then SetBalance(a, NewBalance(a, op))
      else if op.CreateAccount? then Create(a)
      else if op.SetNonceOp? then SetNonce(a, op.nonce)
      else if op.SelfDestructOp? then SelfDestruct(a)
      else SetState(ReadSlot(env.parent, op.addr, a, op.key).0, op.key, op.val);
    OtherSetterLowers(a, a2, u);
    WriteLowers(env, c, op.addr, a2, u, false);
  }

  /** Undoing an operation at once leaves a count lower exactly when it removed code. */
  lemma DoLowers(env: Env, c: Core, op: Op)
    requires Enabled(env, c, op)
    ensures var (c2, us) := Do(env, c, op); LoweredCore(UndoAll(c2, us), c, RemovedBy(env, c, op))
  {
    if !IsAccountOp(op) {
      PlainFramed(env, c, op);
      FramedUndo(Do(env, c, op).0, Do(env, c, op).1);
      SameLowers(UndoAll(Do(env, c, op).0, Do(env, c, op).1), c);
    } else if op.SetCodeOp? {
      CodeLowers(env, c, op);
    } else if op.SelfDestruct6780? {
      DropLowers(env, c, op);
    } else if IsRead(op) {
      ReadLowers(env, c, op);
    } else {
      SetterLowers(env, c, op);
    }
  }

  // ---------------------------------------------------------- following a snapshot

  /** No count of the account is too high. */
  ghost predicate DiffLow(o: Origin, a: Account) {
    forall h: Hash :: h != EMPTY_CODE_HASH ==>
      CountOf(a.knownCodeDiff, h) <= Holds(a.codeHash, h) - Holds(o.loaded.codeHash, h)
  }

  ghost predicate CountedAt(env: Env, c: Core, removed: set<Address>, a: Address)
    requires a in c.dirtyAccounts
  {
    && DiffLow(OriginOf(env, a), c.dirtyAccounts[a])
    && (DiffOk(OriginOf(env, a), c.dirtyAccounts[a]) <==> a !in removed)
  }

  /** The counts are exact but for those of the accounts named, which are too low. */
  ghost predicate Counted(env: Env, c: Core, removed: set<Address>) {
    forall a: Address {:trigger CountedAt(env, c, removed, a)} :: a in c.dirtyAccounts ==> CountedAt(env, c, removed, a)
  }

  lemma CountedExactly(env: Env, c: Core)
    requires DiffsOk(env, c)
    ensures Counted(env, c, {})
  {
    forall a: Address | a in c.dirtyAccounts ensures CountedAt(env, c, {}, a) {
      assert DiffOk(OriginOf(env, a), c.dirtyAccounts[a]);
    }
  }

  lemma CountedIff(env: Env, c: Core, removed: set<Address>)
    requires Counted(env, c, removed)
    ensures DiffsOk(env, c) <==> removed !! c.dirtyAccounts.Keys
  {
    forall a: Address | a in c.dirtyAccounts ensures DiffOk(OriginOf(env, a), c.dirtyAccounts[a]) <==> a !in removed {
      assert CountedAt(env, c, removed, a);
    }
  }

  lemma LoweredDiff(o: Origin, x: Account, y: Account, lower: bool)
    requires Lowered(x, y, lower) && DiffLow(o, y)
    ensures DiffLow(o, x) && (DiffOk(o, x) <==> DiffOk(o, y) && !lower)
  {
    if lower {
      var h: Hash :| h != EMPTY_CODE_HASH && CountOf(x.knownCodeDiff, h) < CountOf(y.knownCodeDiff, h);
    }
  }

  lemma CountedMore(env: Env, c: Core, d: Core, removed: set<Address>, lower: set<Address>)
    requires LoweredCore(c, d, lower) && Counted(env, d, removed)
    ensures Counted(env, c, removed + lower)
  {
    forall a: Address | a in c.dirtyAccounts ensures CountedAt(env, c, removed + lower, a) {
      assert CountedAt(env, d, removed, a);
      LoweredDiff(OriginOf(env, a), c.dirtyAccounts[a], d.dirtyAccounts[a], a in lower);
    }
  }

  function RemovedByStep(env: Env, s: State, step: Step): set<Address> {
    if step.Perform? then RemovedBy(env, s.core, step.op) else {}
  }

  /** Rewinding to entry i finds counts that are exact but for those of the accounts named. */
  ghost predicate CountsAt(env: Env, s: State, id: nat, i: nat, removed: set<Address>) {
    i < |s.journals| && id in s.journals[i].marks && Counted(env, Rewound(s.core, s.journals, i), removed)
  }

  lemma PerformCounts(env: Env, s: State, id: nat, i: nat, removed: set<Address>, op: Op)
    requires CountsAt(env, s, id, i, removed) && Enabled(env, s.core, op)
    ensures CountsAt(env, Snapshots.Perform(env, s, op), id, i, removed + RemovedBy(env, s.core, op))
  {
    var (c, us) := Do(env, s.core, op);
    DoLowers(env, s.core, op);
    RewoundLowers(UndoAll(c, us), s.core, s.journals, i, RemovedBy(env, s.core, op));
    CountedMore(env, Rewound(UndoAll(c, us), s.journals, i), Rewound(s.core, s.journals, i), removed,
                RemovedBy(env, s.core, op));
    UndosAppended(s.journals, us, i);
    UndoAllConcat(c, Undos(s.journals[i + 1..]), us);
  }

  lemma NextCounts(env: Env, s: State, id: nat, i: nat, removed: set<Address>, step: Step)
    requires CountsAt(env, s, id, i, removed) && MarksOk(s) && RevertRuns.Possible(env, s, step) && Newer(step, id)
    ensures CountsAt(env, RevertRuns.Next(env, s, step), id, i, removed + RemovedByStep(env, s, step))
  {
    assert removed + {} == removed;
    match step
    case Perform(op) => PerformCounts(env, s, id, i, removed, op);
    case TakeSnapshot => assert Undos(Snapshot(s).journals[i + 1..]) == Undos(s.journals[i + 1..]);
    case RevertTo(newer) =>
      var m := MarkIndex(s.journals, newer);
      assert m >= i;
      RewoundTwice(s.core, s.journals, i, m, s.journals[m].(marks := s.journals[m].marks - {newer}));
  }

  /** The accounts whose code a run removes. */
  function RemovedIn(env: Env, s: State, steps: seq<Step>): set<Address>
    decreases |steps|
  {
    if steps == [] then {}
    else RemovedByStep(env, s, steps[0]) + RemovedIn(env, RevertRuns.Next(env, s, steps[0]), steps[1..])
  }

  lemma {:induction false} RunCounts(env: Env, s: State, id: nat, i: nat, removed: set<Address>, steps: seq<Step>)
    requires EnvOk(env) && StateOk(env, s) && CountsAt(env, s, id, i, removed)
    requires RevertRuns.AllPossible(env, s, steps) && AllNewer(steps, id)
    ensures CountsAt(env, RevertRuns.Run(env, s, steps), id, i, removed + RemovedIn(env, s, steps))
    decreases |steps|
  {
    if steps == [] {
      assert removed + {} == removed;
    } else {
      var step := steps[0];
      assert Newer(step, id) && AllNewer(steps[1..], id);
      assert RevertRuns.Possible(env, s, step);
      NextOk(env, s, step);
      NextCounts(env, s, id, i, removed, step);
      var s1, more := RevertRuns.Next(env, s, step), RemovedByStep(env, s, step);
      RunCounts(env, s1, id, i, removed + more, steps[1..]);
      assert removed + more + RemovedIn(env, s1, steps[1..]) == removed + RemovedIn(env, s, steps);
    }
  }

  lemma FreshSnapshotCounts(env: Env, s: State)
    requires DiffsOk(env, s.core)
    ensures CountsAt(env, Snapshot(s), s.snapshotId, |Snapshot(s).journals| - 1, {})
  {
    var s2 := Snapshot(s);
    assert s2.journals[|s2.journals|..] == [];
    CountedExactly(env, s.core);
  }

  lemma CountedMark(env: Env, s: State, id: nat, i: nat, removed: set<Address>)
    requires CountsAt(env, s, id, i, removed) && MarksOk(s)
    ensures MarkIndex(s.journals, id) == i
  {
    var m := MarkIndex(s.journals, id);
    assert m >= i && id in s.journals[m].marks;
  }

  /**
   After any run, a revert to a snapshot leaves every code count exact if and only if no code was removed since from an
   account that was dirty then, even if that removal was itself reverted before.
   */
  lemma RevertKeepsCounts(env: Env, s: State, steps: seq<Step>)
    requires EnvOk(env) && StateOk(env, s) && DiffsOk(env, s.core)
    requires RevertRuns.AllPossible(env, Snapshot(s), steps) && AllNewer(steps, s.snapshotId)
    ensures var s2 := RevertRuns.Run(env, Snapshot(s), steps);
            CanRevert(s2, s.snapshotId) &&
            (DiffsOk(env, RevertToSnapshot(s2, s.snapshotId).core) <==>
               RemovedIn(env, Snapshot(s), steps) !! s.core.dirtyAccounts.Keys)
  {
    var id, i := s.snapshotId, |Snapshot(s).journals| - 1;
    SnapshotOk(env, s);
    FreshSnapshotCounts(env, s);
    RunCounts(env, Snapshot(s), id, i, {}, steps);
    RunOk(env, Snapshot(s), steps);
    RevertLeaves(env, s, steps);
    var s2, removed := RevertRuns.Run(env, Snapshot(s), steps), RemovedIn(env, Snapshot(s), steps);
    assert {} + removed == removed;
    CountedMark(env, s2, id, i, removed);
    CountedIff(env, RevertToSnapshot(s2, id).core, removed);
  }
}
