/** Runs of operations, snapshots and reverts: what RevertToSnapshot restores after any of them. */
module RevertRuns {
  import opened Types
  import opened Accounts
  import opened Journal
  import opened Snapshots
  import opened Reverts
  import opened Losses

  datatype Step = Perform(op: Op) | TakeSnapshot | RevertTo(id: nat)

  /** What the callers of the source must respect, panics included, and what is assumed of the code they set. */
  ghost predicate Possible(env: Env, s: State, step: Step) {
    match step
    case Perform(op) => Enabled(env, s.core, op) && InPlay(env.keccak, op)
    case TakeSnapshot => true
    case RevertTo(id) => CanRevert(s, id)
  }

  function Next(env: Env, s: State, step: Step): State {
    match step
    case Perform(op) => if Enabled(env, s.core, op) then Snapshots.Perform(env, s, op) else s
    case TakeSnapshot => Snapshot(s)
    case RevertTo(id) => if CanRevert(s, id) then RevertToSnapshot(s, id) else s
  }

  // ------------------------------------------------------------ the invariant

  lemma PerformOk(env: Env, s: State, op: Op)
    requires EnvOk(env) && StateOk(env, s) && Enabled(env, s.core, op) && InPlay(env.keccak, op)
    ensures StateOk(env, Snapshots.Perform(env, s, op))
  {
    StateCoreOk(env, s);
    DoOk(env, s.core, op);
    var (c, us) := Do(env, s.core, op);
    if DropsUndo(s.core, op) {
      DropRaises(env, s.core, op);
      JournalStays(env, s, op.addr, c);
    } else {
      JournalGrows(env, s, c, us);
    }
  }

  /** The journal is still good for an account that was raised behind its back. */
  lemma JournalStays(env: Env, s: State, addr: Address, c: Core)
    requires EnvOk(env) && StateOk(env, s) && OneUp(env, addr, s.core, c)
    ensures StateOk(env, State(c, s.journals + Unmarked([]), s.snapshotId))
  {
    OneUpOk(env, addr, s.core, c);
    JournalOneUp(env, addr, s.core, c, s.journals);
    assert s.journals + Unmarked([]) == s.journals;
  }

  lemma JournalGrows(env: Env, s: State, c: Core, us: seq<Undo>)
    requires EnvOk(env) && StateOk(env, s) && CoreOk(env, c) && Settled(c) && Chain(env, c, us, s.core)
    ensures StateOk(env, State(c, s.journals + Unmarked(us), s.snapshotId))
  {
    JournalExtends(env, s.core, s.journals, c, us);
  }

  lemma StateCoreOk(env: Env, s: State)
    requires StateOk(env, s)
    ensures CoreOk(env, s.core) && Settled(s.core)
  {
  }

  /** Marking or unmarking the last entry of a journal. */
  lemma Remarked(env: Env, c: Core, js: seq<Entry>, marks: set<nat>)
    requires js != [] && JournalOk(env, c, js) && (marks != {} ==> Settled(c))
    ensures JournalOk(env, c, js[..|js| - 1] + [js[|js| - 1].(marks := marks)])
  {
    var js2 := js[..|js| - 1] + [js[|js| - 1].(marks := marks)];
    assert js2[..|js2| - 1] == js[..|js| - 1];
  }

  /** The journal Snapshot marks the last entry of. */
  function NonEmpty(js: seq<Entry>): seq<Entry> {
    if js == [] then [Entry({}, NoUndo)] else js
  }

  lemma NonEmptyOk(env: Env, c: Core, js: seq<Entry>)
    requires JournalOk(env, c, js)
    ensures JournalOk(env, c, NonEmpty(js))
  {
    if js == [] { assert NonEmpty(js)[..0] == []; }
  }

  lemma SnapshotMarks(s: State)
    requires MarksOk(s)
    ensures MarksOk(Snapshot(s))
  {
  }

  lemma SnapshotOk(env: Env, s: State)
    requires StateOk(env, s)
    ensures StateOk(env, Snapshot(s))
  {
    var js := NonEmpty(s.journals);
    NonEmptyOk(env, s.core, s.journals);
    var marks := js[|js| - 1].marks + {s.snapshotId};
    Remarked(env, s.core, js, marks);
    assert Snapshot(s).journals == js[..|js| - 1] + [js[|js| - 1].(marks := marks)];
    SnapshotMarks(s);
  }

  lemma RevertedOk(env: Env, s: State, id: nat)
    requires StateOk(env, s) && CanRevert(s, id)
    ensures StateOk(env, RevertToSnapshot(s, id))
  {
    var i := MarkIndex(s.journals, id);
    JournalRewinds(env, s.core, s.journals, i);
    var js, c := s.journals[..i + 1], Rewound(s.core, s.journals, i);
    assert js[|js| - 1] == s.journals[i] && js[..|js| - 1] == s.journals[..i];
    assert Settled(c);
    Remarked(env, c, js, s.journals[i].marks - {id});
  }

  /**
   Every reachable state satisfies the invariant, whatever was destroyed or reverted; in particular no dirty account is
   ever in the state of not existing.
   */
  lemma NextOk(env: Env, s: State, step: Step)
    requires EnvOk(env) && StateOk(env, s) && Possible(env, s, step)
    ensures StateOk(env, Next(env, s, step))
  {
    match step
    case Perform(op) => PerformOk(env, s, op);
    case TakeSnapshot => SnapshotOk(env, s);
    case RevertTo(id) => RevertedOk(env, s, id);
  }

  // --------------------------------------------------- following one snapshot

  /** Entry i carries the mark, and rewinding to it leads to saved, up to caches and the undo closures that are lost. */
  ghost predicate Tracks(env: Env, s: State, id: nat, i: nat, saved: Core, lost: set<Address>) {
    && i < |s.journals| && id in s.journals[i].marks
    && CoreOk(env, saved) && Settled(saved)
    && Faded(env, Rewound(s.core, s.journals, i), saved, lost)
  }

  /** The account whose undo closure the step loses, if it loses one. */
  function LostBy(s: State, step: Step): set<Address> {
    if step.Perform? && DropsUndo(s.core, step.op) then {step.op.addr} else {}
  }

  /** A step that neither reverts to id nor to an older snapshot. */
  predicate Newer(step: Step, id: nat) {
    step.RevertTo? ==> step.id > id
  }

  lemma {:induction false} UndoAllSame(env: Env, c: Core, d: Core, js: seq<Entry>, i: nat)
    requires EnvOk(env) && SameCore(env, c, d) && JournalOk(env, c, js) && i < |js|
    ensures SameCore(env, Rewound(c, js, i), Rewound(d, js, i))
    decreases |js|
  {
    if i + 1 == |js| {
      assert js[i + 1..] == [];
    } else {
      UndosShorter(js, i);
      var last := js[|js| - 1].undo;
      UndoneSame(env, last, c, d);
      UndoAllSame(env, Undone(last, c), Undone(last, d), js[..|js| - 1], i);
    }
  }

  lemma UndosAppended(js: seq<Entry>, us: seq<Undo>, i: nat)
    requires i < |js|
    ensures Undos((js + Unmarked(us))[i + 1..]) == Undos(js[i + 1..]) + us
  {
  }

  /** Undoing new operations first, a state that leads back to s.core rewinds like s.core. */
  lemma RewindThrough(env: Env, s: State, i: nat, saved: Core, lost: set<Address>, c: Core, us: seq<Undo>)
    requires EnvOk(env) && JournalOk(env, s.core, s.journals) && i < |s.journals|
    requires Faded(env, Rewound(s.core, s.journals, i), saved, lost)
    requires SameCore(env, UndoAll(c, us), s.core)
    ensures Faded(env, Rewound(UndoAll(c, us), s.journals, i), saved, lost)
  {
    var back := UndoAll(c, us);
    SameCoreSymmetric(env, back, s.core);
    JournalSame(env, s.core, back, s.journals);
    UndoAllSame(env, back, s.core, s.journals, i);
    FadedThrough(env, Rewound(back, s.journals, i), Rewound(s.core, s.journals, i), saved, lost);
  }

  lemma PerformTracks(env: Env, s: State, id: nat, i: nat, saved: Core, lost: set<Address>, op: Op)
    requires EnvOk(env) && StateOk(env, s) && Tracks(env, s, id, i, saved, lost)
    requires Enabled(env, s.core, op) && InPlay(env.keccak, op) && !DropsUndo(s.core, op)
    ensures Tracks(env, Snapshots.Perform(env, s, op), id, i, saved, lost)
  {
    StateCoreOk(env, s);
    DoOk(env, s.core, op);
    var (c, us) := Do(env, s.core, op);
    ChainUndoes(env, c, us, s.core);
    RewindThrough(env, s, i, saved, lost, c, us);
    UndosAppended(s.journals, us, i);
    UndoAllConcat(c, Undos(s.journals[i + 1..]), us);
  }

  /** An account whose undo is being lost, and which a snapshot knows, had lost none since. */
  lemma LosesOnce(env: Env, s: State, id: nat, i: nat, saved: Core, lost: set<Address>, op: Op)
    requires EnvOk(env) && StateOk(env, s) && Tracks(env, s, id, i, saved, lost) && DropsUndo(s.core, op)
    requires op.addr in saved.dirtyAccounts
    ensures op.addr !in lost
  {
    var a, o := op.addr, OriginOf(env, op.addr);
    StateCoreOk(env, s);
    assert OriginOk(o);
    RewoundFalls(s.core, s.journals, i, a);
    assert FadedAt(env, Rewound(s.core, s.journals, i), saved, lost, a);
    VersionBounds(o, s.core.dirtyAccounts[a]);
    VersionBounds(o, saved.dirtyAccounts[a]);
  }

  lemma DropTracks(env: Env, s: State, id: nat, i: nat, saved: Core, lost: set<Address>, op: Op)
    requires EnvOk(env) && StateOk(env, s) && Tracks(env, s, id, i, saved, lost)
    requires Enabled(env, s.core, op) && DropsUndo(s.core, op)
    ensures Tracks(env, Snapshots.Perform(env, s, op), id, i, saved, lost + {op.addr})
  {
    StateCoreOk(env, s);
    DropRaises(env, s.core, op);
    var c := Do(env, s.core, op).0;
    assert s.journals + Unmarked([]) == s.journals;
    RewoundOneUp(env, op.addr, s.core, c, s.journals, i);
    if op.addr in saved.dirtyAccounts {
      LosesOnce(env, s, id, i, saved, lost, op);
      FadedMore(env, op.addr, Rewound(s.core, s.journals, i), Rewound(c, s.journals, i), saved, lost);
    } else {
      FadedElsewhere(env, op.addr, Rewound(s.core, s.journals, i), saved, lost);
    }
  }

  lemma SnapshotTracks(env: Env, s: State, id: nat, i: nat, saved: Core, lost: set<Address>)
    requires Tracks(env, s, id, i, saved, lost)
    ensures Tracks(env, Snapshot(s), id, i, saved, lost)
  {
    assert Undos(Snapshot(s).journals[i + 1..]) == Undos(s.journals[i + 1..]);
  }

  /** A revert to a newer snapshot, exact or not, changes nothing of what the revert to this one will find. */
  lemma RevertTracks(env: Env, s: State, id: nat, i: nat, saved: Core, lost: set<Address>, newer: nat)
    requires Tracks(env, s, id, i, saved, lost) && MarksOk(s) && CanRevert(s, newer) && newer > id
    ensures Tracks(env, RevertToSnapshot(s, newer), id, i, saved, lost)
  {
    var m := MarkIndex(s.journals, newer);
    assert m >= i;
    RewoundTwice(s.core, s.journals, i, m, s.journals[m].(marks := s.journals[m].marks - {newer}));
  }

  /** Rewinding to m and then to i is rewinding to i. */
  lemma RewoundTwice(c: Core, js: seq<Entry>, i: nat, m: nat, e: Entry)
    requires i <= m < |js| && e.undo == js[m].undo
    ensures Rewound(Rewound(c, js, m), js[..m] + [e], i) == Rewound(c, js, i)
  {
    UndosSplit(js, i, m, e);
    UndoAllConcat(c, Undos(js[i + 1..m + 1]), Undos(js[m + 1..]));
  }

  lemma UndosSplit(js: seq<Entry>, i: nat, m: nat, e: Entry)
    requires i <= m < |js| && e.undo == js[m].undo
    ensures Undos(js[i + 1..]) == Undos(js[i + 1..m + 1]) + Undos(js[m + 1..])
    ensures Undos((js[..m] + [e])[i + 1..]) == Undos(js[i + 1..m + 1])
  {
  }

  lemma NextTracks(env: Env, s: State, id: nat, i: nat, saved: Core, lost: set<Address>, step: Step)
    requires EnvOk(env) && StateOk(env, s) && Tracks(env, s, id, i, saved, lost)
    requires Possible(env, s, step) && Newer(step, id)
    ensures Tracks(env, Next(env, s, step), id, i, saved, lost + LostBy(s, step))
  {
    assert lost + {} == lost;
    match step
    case Perform(op) =>
      if DropsUndo(s.core, op) {
        DropTracks(env, s, id, i, saved, lost, op);
      } else {
        PerformTracks(env, s, id, i, saved, lost, op);
      }
    case TakeSnapshot => SnapshotTracks(env, s, id, i, saved, lost);
    case RevertTo(newer) => RevertTracks(env, s, id, i, saved, lost, newer);
  }

  function Run(env: Env, s: State, steps: seq<Step>): State
    decreases |steps|
  {
    if steps == [] then s else Run(env, Next(env, s, steps[0]), steps[1..])
  }

  ghost predicate AllPossible(env: Env, s: State, steps: seq<Step>)
    decreases |steps|
  {
    steps == [] || (Possible(env, s, steps[0]) && AllPossible(env, Next(env, s, steps[0]), steps[1..]))
  }

  predicate AllNewer(steps: seq<Step>, id: nat) {
    forall i :: 0 <= i < |steps| ==> Newer(steps[i], id)
  }

  lemma {:induction false} RunOk(env: Env, s: State, steps: seq<Step>)
    requires EnvOk(env) && StateOk(env, s) && AllPossible(env, s, steps)
    ensures StateOk(env, Run(env, s, steps))
    decreases |steps|
  {
    if steps != [] {
      NextOk(env, s, steps[0]);
      RunOk(env, Next(env, s, steps[0]), steps[1..]);
    }
  }

  /** The accounts whose undo closures a run loses. */
  function LostIn(env: Env, s: State, steps: seq<Step>): set<Address>
    decreases |steps|
  {
    if steps == [] then {} else LostBy(s, steps[0]) + LostIn(env, Next(env, s, steps[0]), steps[1..])
  }

  lemma {:induction false} RunTracks(env: Env, s: State, id: nat, i: nat, saved: Core, lost: set<Address>,
                                     steps: seq<Step>)
    requires EnvOk(env) && StateOk(env, s) && Tracks(env, s, id, i, saved, lost)
    requires AllPossible(env, s, steps) && AllNewer(steps, id)
    ensures Tracks(env, Run(env, s, steps), id, i, saved, lost + LostIn(env, s, steps))
    decreases |steps|
  {
    if steps == [] {
      assert lost + {} == lost;
    } else {
      assert Newer(steps[0], id);
      NextOk(env, s, steps[0]);
      NextTracks(env, s, id, i, saved, lost, steps[0]);
      assert AllNewer(steps[1..], id);
      var s1 := Next(env, s, steps[0]);
      RunTracks(env, s1, id, i, saved, lost + LostBy(s, steps[0]), steps[1..]);
      assert lost + LostBy(s, steps[0]) + LostIn(env, s1, steps[1..]) == lost + LostIn(env, s, steps);
    }
  }

  lemma FreshSnapshotTracks(env: Env, s: State)
    requires EnvOk(env) && StateOk(env, s)
    ensures Tracks(env, Snapshot(s), s.snapshotId, |Snapshot(s).journals| - 1, s.core, {})
  {
    var s2 := Snapshot(s);
    assert s2.journals[|s2.journals|..] == [];
    StateCoreOk(env, s);
    NotFaded(env, s.core);
  }

  lemma TrackedMark(env: Env, s: State, id: nat, i: nat, saved: Core, lost: set<Address>)
    requires Tracks(env, s, id, i, saved, lost) && MarksOk(s)
    ensures MarkIndex(s.journals, id) == i
  {
    var m := MarkIndex(s.journals, id);
    assert m >= i && id in s.journals[m].marks;
  }

  /**
   After any run the snapshot is found again, and what a revert to it leaves is the old state but for the lost undos.
   */
  lemma RevertLeaves(env: Env, s: State, steps: seq<Step>)
    requires EnvOk(env) && StateOk(env, s)
    requires AllPossible(env, Snapshot(s), steps) && AllNewer(steps, s.snapshotId)
    ensures var s2 := Run(env, Snapshot(s), steps);
            && StateOk(env, s2) && CanRevert(s2, s.snapshotId)
            && StateOk(env, RevertToSnapshot(s2, s.snapshotId))
            && Faded(env, RevertToSnapshot(s2, s.snapshotId).core, s.core, LostIn(env, Snapshot(s), steps))
  {
    var id, i := s.snapshotId, |Snapshot(s).journals| - 1;
    SnapshotOk(env, s);
    FreshSnapshotTracks(env, s);
    RunOk(env, Snapshot(s), steps);
    RunTracks(env, Snapshot(s), id, i, s.core, {}, steps);
    var s2, lost := Run(env, Snapshot(s), steps), LostIn(env, Snapshot(s), steps);
    assert {} + lost == lost;
    TrackedMark(env, s2, id, i, s.core, lost);
    RevertedOk(env, s2, id);
  }

  /**
   The main result: take a snapshot, run any operations, nested snapshots and reverts to later snapshots, and revert:
   RevertToSnapshot finds the snapshot. It restores the state it was taken in, up to what has been cached, if and only
   if no account that was dirty then has since lost an undo closure.
   */
  lemma RevertRestores(env: Env, s: State, steps: seq<Step>)
    requires EnvOk(env) && StateOk(env, s)
    requires AllPossible(env, Snapshot(s), steps) && AllNewer(steps, s.snapshotId)
    ensures var s2 := Run(env, Snapshot(s), steps);
            && StateOk(env, s2) && CanRevert(s2, s.snapshotId)
            && StateOk(env, RevertToSnapshot(s2, s.snapshotId))
            && (SameCore(env, RevertToSnapshot(s2, s.snapshotId).core, s.core) <==>
                  LostIn(env, Snapshot(s), steps) !! s.core.dirtyAccounts.Keys)
  {
    RevertLeaves(env, s, steps);
    FadedIff(env, RevertToSnapshot(Run(env, Snapshot(s), steps), s.snapshotId).core, s.core,
             LostIn(env, Snapshot(s), steps));
  }

  // ------------------------------------------------------------------ getters

  function GetBalance(env: Env, c: Core, addr: Address): Uint256 { Loaded(env, c, addr).balance }

  function GetNonce(env: Env, c: Core, addr: Address): Uint64 { Loaded(env, c, addr).nonce }

  function GetCodeHash(env: Env, c: Core, addr: Address): Hash { Loaded(env, c, addr).codeHash }

  function GetCode(env: Env, c: Core, addr: Address): Code { ReadCode(env.parent, Loaded(env, c, addr)).1 }

  function GetState(env: Env, c: Core, addr: Address, key: Hash): Hash {
    ReadSlot(env.parent, addr, Loaded(env, c, addr), key).1
  }

  predicate HasStorage(env: Env, c: Core, addr: Address) { Loaded(env, c, addr).dirtyStorage }

  predicate Exist(env: Env, c: Core, addr: Address, isEIP158: bool) { Exists(Loaded(env, c, addr), isEIP158) }

  predicate IsEmpty(env: Env, c: Core, addr: Address) { Empty(Loaded(env, c, addr)) }

  predicate HasSelfDestructed(env: Env, c: Core, addr: Address) { Status(Loaded(env, c, addr)) == BEING_DELETED }

  function GetTransientState(c: Core, addr: Address, key: Hash): Hash {
    if addr in c.transientState && key in c.transientState[addr] then c.transientState[addr][key] else ZERO_HASH
  }

  predicate AddressInAccessList(c: Core, addr: Address) { addr in c.accessAddress }

  predicate SlotInAccessList(c: Core, addr: Address, slot: Hash) {
    addr in c.accessAddress && 0 <= c.accessAddress[addr] < |c.accessStorage| &&
      slot in c.accessStorage[c.accessAddress[addr]]
  }

  ghost predicate SameAccountGetters(env: Env, c: Core, d: Core, a: Address) {
    && GetBalance(env, c, a) == GetBalance(env, d, a)
    && GetNonce(env, c, a) == GetNonce(env, d, a)
    && GetCodeHash(env, c, a) == GetCodeHash(env, d, a)
    && GetCode(env, c, a) == GetCode(env, d, a)
    && HasStorage(env, c, a) == HasStorage(env, d, a)
    && IsEmpty(env, c, a) == IsEmpty(env, d, a)
    && HasSelfDestructed(env, c, a) == HasSelfDestructed(env, d, a)
    && (forall b: bool :: Exist(env, c, a, b) == Exist(env, d, a, b))
    && AddressInAccessList(c, a) == AddressInAccessList(d, a)
  }

  ghost predicate SameSlotGetters(env: Env, c: Core, d: Core, a: Address, k: Hash) {
    && GetState(env, c, a, k) == GetState(env, d, a, k)
    && GetTransientState(c, a, k) == GetTransientState(d, a, k)
    && SlotInAccessList(c, a, k) == SlotInAccessList(d, a, k)
  }

  /** No getter can tell c from d. */
  ghost predicate SameGetters(env: Env, c: Core, d: Core) {
    && (forall a: Address :: SameAccountGetters(env, c, d, a))
    && (forall a: Address, k: Hash :: SameSlotGetters(env, c, d, a, k))
    && c.newContracts == d.newContracts && c.logs == d.logs && c.refund == d.refund
  }

  lemma SameLoaded(env: Env, c: Core, d: Core, a: Address)
    requires EnvOk(env) && SameCore(env, c, d)
    ensures SameAccount(OriginOf(env, a), Loaded(env, c, a), Loaded(env, d, a))
  {
    assert OriginOk(OriginOf(env, a));
    LoadedOk(OriginOf(env, a));
    if a in c.dirtyAccounts { assert SameAccount(OriginOf(env, a), c.dirtyAccounts[a], d.dirtyAccounts[a]); }
  }

  lemma SameStateRead(env: Env, c: Core, d: Core, a: Address, k: Hash)
    requires EnvOk(env) && SameCore(env, c, d) && Settled(c) && Settled(d)
    ensures GetState(env, c, a, k) == GetState(env, d, a, k)
  {
    SameLoaded(env, c, d, a);
    SameCoreSettled(env, c, d);
    LoadedAccountOk(env, c, a);
    LoadedAccountOk(env, d, a);
    ReadSlotIsSlot(OriginOf(env, a), Loaded(env, c, a), k);
    ReadSlotIsSlot(OriginOf(env, a), Loaded(env, d, a), k);
  }

  lemma SameAccountReads(env: Env, c: Core, d: Core, a: Address)
    requires EnvOk(env) && SameCore(env, c, d)
    ensures SameAccountGetters(env, c, d, a)
  {
    SameLoaded(env, c, d, a);
    assert OriginOk(OriginOf(env, a));
    SameCodeReads(OriginOf(env, a), Loaded(env, c, a), Loaded(env, d, a));
  }

  lemma SameCodeReads(o: Origin, x: Account, y: Account)
    requires OriginOk(o) && SameAccount(o, x, y)
    ensures ReadCode(o.parent, x).1 == ReadCode(o.parent, y).1
  {
    ReadCodeKeeps(o, x);
    ReadCodeKeeps(o, y);
  }

  /** Equality up to caches is equality of every getter. */
  lemma SameCoreSameGetters(env: Env, c: Core, d: Core)
    requires EnvOk(env) && SameCore(env, c, d) && Settled(c) && Settled(d)
    ensures SameGetters(env, c, d)
  {
    forall a: Address ensures SameAccountGetters(env, c, d, a) { SameAccountReads(env, c, d, a); }
    forall a: Address, k: Hash ensures SameSlotGetters(env, c, d, a, k) { SameStateRead(env, c, d, a, k); }
  }

  /** An account that lost its undo shows as destroyed, and did not before. */
  lemma FadedShows(env: Env, x: Core, core: Core, lost: set<Address>, a: Address)
    requires EnvOk(env) && Faded(env, x, core, lost) && CoreOk(env, core) && Settled(core)
    requires a in lost && a in core.dirtyAccounts
    ensures HasSelfDestructed(env, x, a) && !HasSelfDestructed(env, core, a)
  {
    var o := OriginOf(env, a);
    assert OriginOk(o);
    assert FadedAt(env, x, core, lost, a);
    VersionBounds(o, x.dirtyAccounts[a]);
    VersionBounds(o, core.dirtyAccounts[a]);
  }

  /**
   RevertToSnapshot restores every getter result if and only if no account that was dirty then has lost an undo closure.
   */
  lemma RevertRestoresGetters(env: Env, s: State, steps: seq<Step>)
    requires EnvOk(env) && StateOk(env, s)
    requires AllPossible(env, Snapshot(s), steps) && AllNewer(steps, s.snapshotId)
    ensures var s2 := Run(env, Snapshot(s), steps);
            CanRevert(s2, s.snapshotId) &&
            (SameGetters(env, RevertToSnapshot(s2, s.snapshotId).core, s.core) <==>
               LostIn(env, Snapshot(s), steps) !! s.core.dirtyAccounts.Keys)
  {
    RevertLeaves(env, s, steps);
    StateCoreOk(env, s);
    var s3, lost := RevertToSnapshot(Run(env, Snapshot(s), steps), s.snapshotId), LostIn(env, Snapshot(s), steps);
    StateCoreOk(env, s3);
    FadedGetters(env, s3.core, s.core, lost);
  }

  lemma FadedGetters(env: Env, x: Core, core: Core, lost: set<Address>)
    requires EnvOk(env) && Faded(env, x, core, lost) && Settled(x) && CoreOk(env, core) && Settled(core)
    ensures SameGetters(env, x, core) <==> lost !! core.dirtyAccounts.Keys
  {
    FadedIff(env, x, core, lost);
    if lost !! core.dirtyAccounts.Keys {
      SameCoreSameGetters(env, x, core);
    } else {
      var a: Address :| a in lost && a in core.dirtyAccounts;
      FadedShows(env, x, core, lost, a);
      assert !SameAccountGetters(env, x, core, a);
    }
  }

  // -------------------------------------------------------------- a failing run

  const START := State(EMPTY_CORE, [], 0)

  function NewContract(addr: Address): seq<Step> {
    [Perform(CreateAccount(addr)), Perform(CreateContract(addr))]
  }

  lemma RunTwo(env: Env, s: State, first: Step, second: Step)
    requires Possible(env, s, first) && Possible(env, Next(env, s, first), second)
    ensures AllPossible(env, s, [first, second])
    ensures Run(env, s, [first, second]) == Next(env, Next(env, s, first), second)
  {
    var s1 := Next(env, s, first);
    assert [first, second][1..] == [second] && [second][1..] == [];
    assert AllPossible(env, Next(env, s1, second), []);
    assert AllPossible(env, s1, [second]) && Run(env, s1, [second]) == Next(env, s1, second);
  }

  lemma ContractCreated(env: Env, addr: Address)
    requires EnvOk(env) && Status(env.load(addr)) == NOT_EXISTED
    ensures StateOk(env, START) && AllPossible(env, START, NewContract(addr))
    ensures var c := Run(env, START, NewContract(addr)).core;
            addr in c.newContracts && addr in c.dirtyAccounts && Status(c.dirtyAccounts[addr]) == UPDATING
  {
    var a := Create(env.load(addr)).0;
    CreatedStatus(env.load(addr));
    var s1 := Next(env, START, Perform(CreateAccount(addr)));
    assert s1.core == EMPTY_CORE.(dirtyAccounts := map[addr := a]);
    var s2 := Next(env, s1, Perform(CreateContract(addr)));
    assert s2.core == s1.core.(newContracts := {addr});
    RunTwo(env, START, Perform(CreateAccount(addr)), Perform(CreateContract(addr)));
  }

  lemma LosesAtOnce(env: Env, s: State, addr: Address)
    requires addr in s.core.newContracts && addr in s.core.dirtyAccounts
    requires Status(s.core.dirtyAccounts[addr]) == UPDATING
    ensures AllPossible(env, Snapshot(s), [Perform(SelfDestruct6780(addr))])
    ensures LostIn(env, Snapshot(s), [Perform(SelfDestruct6780(addr))]) == {addr}
  {
    var step := Perform(SelfDestruct6780(addr));
    assert [step][1..] == [];
    assert LostBy(Snapshot(s), step) == {addr};
    assert AllPossible(env, Next(env, Snapshot(s), step), []);
  }

  /**
   The failure, reached from the start of a transaction: create a contract, take a snapshot, destroy the contract with
   SelfDestruct6780 and revert. The contract shows as destroyed, which it was not when the snapshot was taken.
   */
  lemma LostUndoShows(env: Env, addr: Address)
    requires EnvOk(env) && Status(env.load(addr)) == NOT_EXISTED
    ensures var s := Run(env, START, NewContract(addr));
            var s2 := Run(env, Snapshot(s), [Perform(SelfDestruct6780(addr))]);
            && AllPossible(env, START, NewContract(addr))
            && AllPossible(env, Snapshot(s), [Perform(SelfDestruct6780(addr))])
            && CanRevert(s2, s.snapshotId)
            && !HasSelfDestructed(env, s.core, addr)
            && HasSelfDestructed(env, RevertToSnapshot(s2, s.snapshotId).core, addr)
  {
    ContractCreated(env, addr);
    var s, step := Run(env, START, NewContract(addr)), Perform(SelfDestruct6780(addr));
    RunOk(env, START, NewContract(addr));
    LosesAtOnce(env, s, addr);
    RevertLeaves(env, s, [step]);
    StateCoreOk(env, s);
    FadedShows(env, RevertToSnapshot(Run(env, Snapshot(s), [step]), s.snapshotId).core, s.core, {addr}, addr);
  }
}
