/**
 The simple machine that a transaction must agree with: a plain state that is changed at one place at a time, saved
 whole by a snapshot and put back whole by a revert. The journaled state simulates it. What a revert needs to know
 beyond the copy itself is kept beside it: which accounts have lost an undo closure since, and which have lost code.
 */
module SimpleState {
  import opened Types
  import opened Views
  import opened Journal
  import opened Snapshots
  import opened Reverts
  import opened Losses
  import opened RevertRuns
  import opened OpMeaning
  import opened Counts

  datatype Simple = Simple(
    shown: Address -> Shown,
    slots: (Address, Hash) -> Hash,
    touched: set<Address>,
    transient: (Address, Hash) -> Hash,
    warm: set<Address>,
    warmSlots: set<(Address, Hash)>,
    newContracts: set<Address>,
    logs: seq<Log>,
    refund: Uint64)

  /** The transaction a log is stamped with, and the number of logs before it in the block. */
  datatype Stamp = Stamp(txHash: Hash, txIndex: int, logSize: nat)

  predicate EmptyShown(s: Shown) {
    s.nonce == 0 && s.balance == 0 && s.codeHash == EMPTY_CODE_HASH
  }

  /** When an operation does not panic. */
  predicate Allowed(keccak: Hasher, p: Simple, op: Op) {
    match op
    case CreateAccount(addr) =>
      p.shown(addr).status == NOT_EXISTED || (p.shown(addr).status == UPDATING && EmptyShown(p.shown(addr)))
    case SetCodeOp(addr, code) =>
      p.shown(addr).codeHash == keccak.hash(code) || p.shown(addr).codeHash == EMPTY_CODE_HASH ||
        keccak.hash(code) == EMPTY_CODE_HASH
    case SubRefund(gas) => gas <= p.refund
    case SelfDestructOp(addr) => p.shown(addr).status != NOT_EXISTED
    case SelfDestruct6780(addr) => p.shown(addr).status != NOT_EXISTED
    case _ => true
  }

  /** SelfDestruct6780 destroying an account that was touched earlier: its undo is lost. */
  predicate LosesUndo(p: Simple, op: Op) {
    op.SelfDestruct6780? && op.addr in p.newContracts && op.addr in p.touched && p.shown(op.addr).status == UPDATING
  }

  /** Replacing code by no code. */
  predicate LosesCode(keccak: Hasher, p: Simple, op: Op) {
    op.SetCodeOp? && p.shown(op.addr).codeHash != EMPTY_CODE_HASH && keccak.hash(op.code) == EMPTY_CODE_HASH
  }

  function ShownAfter(keccak: Hasher, p: Simple, op: Op): Address -> Shown {
    (b: Address) => if IsAccountOp(op) && b == op.addr then Meaning(keccak, p.newContracts, op, p.shown(b))
                    else p.shown(b)
  }

  function Pick(hit: bool, val: Hash, miss: Hash): Hash {
    if hit then val else miss
  }

  function SlotsAfter(p: Simple, op: Op): (Address, Hash) -> Hash {
    if op.SetStateOp? then (b: Address, k: Hash) => Pick(b == op.addr && k == op.key, op.val, p.slots(b, k))
    else p.slots
  }

  function TransientAfter(p: Simple, op: Op): (Address, Hash) -> Hash {
    if op.SetTransientState? then (b: Address, k: Hash) => Pick(b == op.addr && k == op.key, op.val, p.transient(b, k))
    else p.transient
  }

  function Done(keccak: Hasher, stamp: Stamp, p: Simple, op: Op): Simple
    requires Allowed(keccak, p, op)
  {
    Simple(
      ShownAfter(keccak, p, op),
      SlotsAfter(p, op),
      p.touched + (if IsAccountOp(op) && !IsRead(op) then {op.addr} else {}),
      TransientAfter(p, op),
      p.warm + (if Warms(op) then {op.addr} else {}),
      p.warmSlots + (if WarmsSlot(op) then {(op.addr, op.slot)} else {}),
      p.newContracts + (if op.CreateContract? then {op.addr} else {}),
      p.logs + (if op.AddLog? then [Log(op.payload, stamp.txHash, stamp.txIndex, stamp.logSize + |p.logs|)] else []),
      if op.AddRefund? then (p.refund + op.gas) % TWO_64 else if op.SubRefund? then p.refund - op.gas else p.refund)
  }

  /** A whole copy, and what has since been destroyed with its undo lost, or had its code removed. */
  datatype Copy = Copy(was: Simple, lost: set<Address>, removed: set<Address>)

  /** Snapshots are whole copies. */
  datatype Saving = Saving(now: Simple, saved: map<nat, Copy>, nextId: nat, taken: bool)

  function Noted(keccak: Hasher, p: Simple, copy: Copy, op: Op): Copy {
    Copy(copy.was,
         copy.lost + (if LosesUndo(p, op) then {op.addr} else {}),
         copy.removed + (if LosesCode(keccak, p, op) then {op.addr} else {}))
  }

  /** No account that was touched when the copy was made has lost an undo closure since. */
  predicate Restorable(copy: Copy) {
    copy.lost !! copy.was.touched
  }

  /** No account that was touched when the copy was made has had code removed since. */
  predicate Countable(copy: Copy) {
    copy.removed !! copy.was.touched
  }

  ghost predicate Legal(keccak: Hasher, s: Saving, step: Step) {
    match step
    case Perform(op) => Allowed(keccak, s.now, op) && InPlay(keccak, op)
    case TakeSnapshot => true
    case RevertTo(id) => id in s.saved && Restorable(s.saved[id])
  }

  /** The step leaves every code count exact. */
  predicate KeepsCounts(s: Saving, step: Step) {
    step.RevertTo? && step.id in s.saved ==> Countable(s.saved[step.id])
  }

  function SimpleNext(keccak: Hasher, stamp: Stamp, s: Saving, step: Step): Saving {
    match step
    case Perform(op) =>
      if Allowed(keccak, s.now, op) then
        s.(now := Done(keccak, stamp, s.now, op),
           saved := map id | id in s.saved :: Noted(keccak, s.now, s.saved[id], op))
      else s
    case TakeSnapshot => Saving(s.now, s.saved[s.nextId := Copy(s.now, {}, {})], s.nextId + 1, true)
    case RevertTo(id) =>
      if id in s.saved then s.(now := s.saved[id].was, saved := map i | i in s.saved && i < id :: s.saved[i]) else s
  }

  // ---------------------------------------------------------- representation

  function StampOf(env: Env): Stamp {
    Stamp(env.txHash, env.txIndex, env.logSize)
  }

  /** Every getter of c shows what p says. */
  ghost predicate Rep(env: Env, c: Core, p: Simple) {
    && (forall b: Address :: Show(env, c, b) == p.shown(b))
    && (forall b: Address, k: Hash :: GetState(env, c, b, k) == p.slots(b, k))
    && c.dirtyAccounts.Keys == p.touched
    && RepRest(c, p)
  }

  ghost predicate RepRest(c: Core, p: Simple) {
    && (forall b: Address, k: Hash :: GetTransientState(c, b, k) == p.transient(b, k))
    && (forall b: Address :: AddressInAccessList(c, b) <==> b in p.warm)
    && (forall b: Address, k: Hash :: SlotInAccessList(c, b, k) <==> (b, k) in p.warmSlots)
    && c.newContracts == p.newContracts && c.logs == p.logs && c.refund == p.refund
  }

  lemma AllowedIsEnabled(env: Env, c: Core, p: Simple, op: Op)
    requires EnvOk(env) && CoreOk(env, c) && Rep(env, c, p)
    ensures Allowed(env.keccak, p, op) <==> Enabled(env, c, op)
    ensures LosesUndo(p, op) <==> DropsUndo(c, op)
  {
    if IsAccountOp(op) { assert Show(env, c, op.addr) == p.shown(op.addr); }
  }

  lemma DoTouches(env: Env, c: Core, op: Op)
    requires Enabled(env, c, op)
    ensures Do(env, c, op).0.dirtyAccounts.Keys ==
            c.dirtyAccounts.Keys + (if IsAccountOp(op) && !IsRead(op) then {op.addr} else {})
  {
  }

  lemma RestDone(env: Env, c: Core, p: Simple, op: Op)
    requires EnvOk(env) && CoreOk(env, c) && Settled(c) && Enabled(env, c, op)
    requires Allowed(env.keccak, p, op) && RepRest(c, p)
    ensures RepRest(Do(env, c, op).0, Done(env.keccak, StampOf(env), p, op))
  {
    forall b: Address, k: Hash ensures RepAt(Do(env, c, op).0, Done(env.keccak, StampOf(env), p, op), b, k) {
      RestDoneAt(env, c, p, op, b, k);
    }
    PlainOpMeans(env, c, op, 0, 0);
    AllAt(Do(env, c, op).0, Done(env.keccak, StampOf(env), p, op));
  }

  ghost predicate RepAt(c: Core, p: Simple, b: Address, k: Hash) {
    && GetTransientState(c, b, k) == p.transient(b, k)
    && (AddressInAccessList(c, b) <==> b in p.warm)
    && (SlotInAccessList(c, b, k) <==> (b, k) in p.warmSlots)
  }

  lemma AllAt(c: Core, p: Simple)
    requires forall b: Address, k: Hash :: RepAt(c, p, b, k)
    requires c.newContracts == p.newContracts && c.logs == p.logs && c.refund == p.refund
    ensures RepRest(c, p)
  {
    forall b: Address ensures AddressInAccessList(c, b) <==> b in p.warm { assert RepAt(c, p, b, 0); }
    forall b: Address, k: Hash ensures GetTransientState(c, b, k) == p.transient(b, k) { assert RepAt(c, p, b, k); }
    forall b: Address, k: Hash ensures SlotInAccessList(c, b, k) <==> (b, k) in p.warmSlots {
      assert RepAt(c, p, b, k);
    }
  }

  lemma RestDoneAt(env: Env, c: Core, p: Simple, op: Op, b: Address, k: Hash)
    requires EnvOk(env) && CoreOk(env, c) && Settled(c) && Enabled(env, c, op)
    requires Allowed(env.keccak, p, op) && RepAt(c, p, b, k)
    ensures RepAt(Do(env, c, op).0, Done(env.keccak, StampOf(env), p, op), b, k)
  {
    PlainOpMeans(env, c, op, b, k);
    AccessListMeans(env, c, op, b, k);
  }

  /** An operation does to the journaled state what it does to the plain one. */
  lemma DoIsDone(env: Env, c: Core, p: Simple, op: Op)
    requires EnvOk(env) && CoreOk(env, c) && Settled(c) && Rep(env, c, p)
    requires Allowed(env.keccak, p, op) && InPlay(env.keccak, op)
    ensures Enabled(env, c, op) && Rep(env, Do(env, c, op).0, Done(env.keccak, StampOf(env), p, op))
  {
    AllowedIsEnabled(env, c, p, op);
    var c2, p2 := Do(env, c, op).0, Done(env.keccak, StampOf(env), p, op);
    forall b: Address ensures Show(env, c2, b) == p2.shown(b) { DoMeans(env, c, op, b); }
    forall b: Address, k: Hash ensures GetState(env, c2, b, k) == p2.slots(b, k) { DoMeansSlots(env, c, op, b, k); }
    DoTouches(env, c, op);
    RestDone(env, c, p, op);
  }

  lemma SameCoreRep(env: Env, c: Core, d: Core, p: Simple)
    requires EnvOk(env) && SameCore(env, c, d) && Settled(d) && Rep(env, d, p)
    ensures Settled(c) && Rep(env, c, p)
  {
    SameCoreSettled(env, c, d);
    forall b: Address ensures Show(env, c, b) == Show(env, d, b) { SameShow(env, c, d, b); }
    forall b: Address, k: Hash ensures GetState(env, c, b, k) == GetState(env, d, b, k) {
      SameStateRead(env, c, d, b, k);
    }
    SameCoreRest(c, d, p);
  }

  lemma SameShow(env: Env, c: Core, d: Core, b: Address)
    requires EnvOk(env) && SameCore(env, c, d)
    ensures Show(env, c, b) == Show(env, d, b)
  {
    SameAccountReads(env, c, d, b);
    SameLoaded(env, c, d, b);
  }

  lemma SameCoreRest(c: Core, d: Core, p: Simple)
    requires d == c.(dirtyAccounts := d.dirtyAccounts) && RepRest(d, p)
    ensures RepRest(c, p)
  {
    forall b: Address, k: Hash ensures RepAt(c, p, b, k) { assert RepAt(d, p, b, k); }
    AllAt(c, p);
  }

  // -------------------------------------------------------------- simulation

  /** Some entry of the journal carries the mark id and rewinds to what was copied, but for the undos lost since. */
  ghost predicate SavedAt(env: Env, s: State, id: nat, i: nat, core: Core, copy: Copy) {
    Tracks(env, s, id, i, core, copy.lost) && Rep(env, core, copy.was)
  }

  ghost predicate Saved(env: Env, s: State, id: nat, copy: Copy) {
    exists i: nat, core: Core :: SavedAt(env, s, id, i, core, copy)
  }

  predicate Marked(js: seq<Entry>) {
    exists e :: e in js && e.marks != {}
  }

  ghost predicate AllSaved(env: Env, s: State, saved: map<nat, Copy>) {
    forall id {:trigger Saved(env, s, id, saved[id])} :: id in saved ==> Saved(env, s, id, saved[id])
  }

  ghost predicate Simulates(env: Env, s: State, p: Saving) {
    && StateOk(env, s)
    && Rep(env, s.core, p.now)
    && p.nextId == s.snapshotId
    && (Marked(s.journals) ==> p.taken)
    && AllSaved(env, s, p.saved)
  }

  lemma SavedIdsAreOld(env: Env, s: State, id: nat, copy: Copy)
    requires MarksOk(s) && Saved(env, s, id, copy)
    ensures id < s.snapshotId
  {
    var i: nat, core: Core :| SavedAt(env, s, id, i, core, copy);
    assert id in s.journals[i].marks;
  }

  /** A step that is not a revert to id or to an older snapshot keeps what id saved. */
  lemma SavedStays(env: Env, s: State, id: nat, copy: Copy, step: Step, copy': Copy)
    requires EnvOk(env) && StateOk(env, s) && Saved(env, s, id, copy)
    requires RevertRuns.Possible(env, s, step) && Newer(step, id)
    requires copy'.was == copy.was && copy'.lost == copy.lost + LostBy(s, step)
    ensures Saved(env, RevertRuns.Next(env, s, step), id, copy')
  {
    var i: nat, core: Core :| SavedAt(env, s, id, i, core, copy);
    NextTracks(env, s, id, i, core, copy.lost, step);
    assert SavedAt(env, RevertRuns.Next(env, s, step), id, i, core, copy');
  }

  /** What a revert to a saved snapshot leaves. */
  lemma SavedReverts(env: Env, s: State, id: nat, copy: Copy) returns (core: Core)
    requires EnvOk(env) && StateOk(env, s) && Saved(env, s, id, copy)
    ensures CanRevert(s, id) && Faded(env, RevertToSnapshot(s, id).core, core, copy.lost)
    ensures CoreOk(env, core) && Settled(core) && Rep(env, core, copy.was)
  {
    var i: nat;
    i, core :| SavedAt(env, s, id, i, core, copy);
    TrackedMark(env, s, id, i, core, copy.lost);
  }

  /** A revert shows what was copied if and only if no account that was touched then has lost an undo closure since. */
  lemma RevertExactIff(env: Env, s: State, p: Saving, id: nat)
    requires EnvOk(env) && Simulates(env, s, p) && id in p.saved
    ensures CanRevert(s, id)
    ensures Rep(env, RevertToSnapshot(s, id).core, p.saved[id].was) <==> Restorable(p.saved[id])
  {
    var copy := p.saved[id];
    var core := SavedReverts(env, s, id, copy);
    FadedRepIff(env, RevertToSnapshot(s, id).core, core, copy);
  }

  lemma FadedUnlike(env: Env, x: Core, core: Core, copy: Copy, a: Address)
    requires EnvOk(env) && Faded(env, x, core, copy.lost) && CoreOk(env, core)
    requires Settled(core) && Rep(env, core, copy.was)
    requires a in copy.lost && a in core.dirtyAccounts
    ensures !Rep(env, x, copy.was)
  {
    FadedShows(env, x, core, copy.lost, a);
    assert Show(env, core, a) == copy.was.shown(a);
    assert Show(env, x, a).status == BEING_DELETED != Show(env, core, a).status;
  }

  lemma FadedRepIff(env: Env, x: Core, core: Core, copy: Copy)
    requires EnvOk(env) && Faded(env, x, core, copy.lost) && CoreOk(env, core)
    requires Settled(core) && Rep(env, core, copy.was)
    ensures Rep(env, x, copy.was) <==> Restorable(copy)
  {
    FadedIff(env, x, core, copy.lost);
    if Restorable(copy) {
      SameCoreRep(env, x, core, copy.was);
    } else {
      var a: Address :| a in copy.lost && a in copy.was.touched;
      FadedUnlike(env, x, core, copy, a);
    }
  }

  lemma LostIsLost(env: Env, s: State, p: Saving, op: Op)
    requires EnvOk(env) && Simulates(env, s, p)
    ensures LostBy(s, Perform(op)) == if LosesUndo(p.now, op) then {op.addr} else {}
  {
    StateCoreOk(env, s);
    AllowedIsEnabled(env, s.core, p.now, op);
  }

  lemma PerformSimulates(env: Env, s: State, p: Saving, op: Op)
    requires EnvOk(env) && Simulates(env, s, p) && Legal(env.keccak, p, Perform(op))
    ensures RevertRuns.Possible(env, s, Perform(op))
    ensures Simulates(env, RevertRuns.Next(env, s, Perform(op)), SimpleNext(env.keccak, StampOf(env), p, Perform(op)))
  {
    StateCoreOk(env, s);
    AllowedIsEnabled(env, s.core, p.now, op);
    NextOk(env, s, Perform(op));
    DoIsDone(env, s.core, p.now, op);
    PerformSaves(env, s, p, op);
    PerformMarks(env, s, op);
  }

  lemma PerformSaves(env: Env, s: State, p: Saving, op: Op)
    requires EnvOk(env) && Simulates(env, s, p) && RevertRuns.Possible(env, s, Perform(op))
    ensures AllSaved(env, RevertRuns.Next(env, s, Perform(op)),
                     map id | id in p.saved :: Noted(env.keccak, p.now, p.saved[id], op))
  {
    var s2 := RevertRuns.Next(env, s, Perform(op));
    LostIsLost(env, s, p, op);
    forall id | id in p.saved ensures Saved(env, s2, id, Noted(env.keccak, p.now, p.saved[id], op)) {
      SavedStays(env, s, id, p.saved[id], Perform(op), Noted(env.keccak, p.now, p.saved[id], op));
    }
  }

  lemma PerformMarks(env: Env, s: State, op: Op)
    requires Enabled(env, s.core, op)
    ensures Marked(Snapshots.Perform(env, s, op).journals) ==> Marked(s.journals)
  {
  }

  /** Snapshots and reverts to newer snapshots lose no undo. */
  lemma SavedUnmoved(env: Env, s: State, id: nat, copy: Copy, step: Step)
    requires EnvOk(env) && StateOk(env, s) && Saved(env, s, id, copy)
    requires RevertRuns.Possible(env, s, step) && Newer(step, id)
    requires !step.Perform?
    ensures Saved(env, RevertRuns.Next(env, s, step), id, copy)
  {
    assert copy.lost + {} == copy.lost;
    SavedStays(env, s, id, copy, step, copy);
  }

  lemma SnapshotSaves(env: Env, s: State, saved: map<nat, Copy>, now: Simple)
    requires EnvOk(env) && StateOk(env, s) && AllSaved(env, s, saved) && Rep(env, s.core, now)
    ensures AllSaved(env, Snapshot(s), saved[s.snapshotId := Copy(now, {}, {})])
  {
    FreshSnapshotTracks(env, s);
    assert SavedAt(env, Snapshot(s), s.snapshotId, |Snapshot(s).journals| - 1, s.core, Copy(now, {}, {}));
    forall id | id in saved && id != s.snapshotId ensures Saved(env, Snapshot(s), id, saved[id]) {
      SavedIdsAreOld(env, s, id, saved[id]);
      SavedUnmoved(env, s, id, saved[id], TakeSnapshot);
    }
  }

  lemma SnapshotSimulates(env: Env, s: State, p: Saving)
    requires EnvOk(env) && Simulates(env, s, p)
    ensures Simulates(env, Snapshot(s), SimpleNext(env.keccak, StampOf(env), p, TakeSnapshot))
  {
    SnapshotOk(env, s);
    SnapshotSaves(env, s, p.saved, p.now);
  }

  lemma RevertSaves(env: Env, s: State, saved: map<nat, Copy>, id: nat)
    requires EnvOk(env) && StateOk(env, s) && AllSaved(env, s, saved) && CanRevert(s, id)
    ensures AllSaved(env, RevertToSnapshot(s, id), map j | j in saved && j < id :: saved[j])
  {
    var less := map j | j in saved && j < id :: saved[j];
    forall j | j in less ensures Saved(env, RevertToSnapshot(s, id), j, less[j]) {
      SavedUnmoved(env, s, j, saved[j], RevertTo(id));
    }
  }

  lemma RevertSimulates(env: Env, s: State, p: Saving, id: nat)
    requires EnvOk(env) && Simulates(env, s, p) && id in p.saved && Restorable(p.saved[id])
    ensures RevertRuns.Possible(env, s, RevertTo(id))
    ensures Simulates(env, RevertRuns.Next(env, s, RevertTo(id)), SimpleNext(env.keccak, StampOf(env), p, RevertTo(id)))
  {
    RevertExactIff(env, s, p, id);
    RevertedOk(env, s, id);
    RevertMarks(s, id);
    RevertSaves(env, s, p.saved, id);
  }

  lemma RevertMarks(s: State, id: nat)
    requires CanRevert(s, id)
    ensures Marked(s.journals)
  {
    assert s.journals[MarkIndex(s.journals, id)] in s.journals;
  }

  /** A step the simple machine allows does not panic, and leads to states that agree again. */
  lemma StepSimulates(env: Env, s: State, p: Saving, step: Step)
    requires EnvOk(env) && Simulates(env, s, p) && Legal(env.keccak, p, step)
    ensures RevertRuns.Possible(env, s, step)
    ensures Simulates(env, RevertRuns.Next(env, s, step), SimpleNext(env.keccak, StampOf(env), p, step))
  {
    match step
    case Perform(op) => PerformSimulates(env, s, p, op);
    case TakeSnapshot => SnapshotSimulates(env, s, p);
    case RevertTo(id) => RevertSimulates(env, s, p, id);
  }

  function SimpleRun(keccak: Hasher, stamp: Stamp, p: Saving, steps: seq<Step>): Saving
    decreases |steps|
  {
    if steps == [] then p else SimpleRun(keccak, stamp, SimpleNext(keccak, stamp, p, steps[0]), steps[1..])
  }

  ghost predicate AllLegal(keccak: Hasher, stamp: Stamp, p: Saving, steps: seq<Step>)
    decreases |steps|
  {
    steps == [] ||
      (Legal(keccak, p, steps[0]) && AllLegal(keccak, stamp, SimpleNext(keccak, stamp, p, steps[0]), steps[1..]))
  }

  /**
   Any run of operations, nested snapshots and reverts that whole-copy snapshots allow runs without a panic, and ends
   with every getter showing what the whole copies show.
   */
  lemma {:induction false} RunSimulates(env: Env, s: State, p: Saving, steps: seq<Step>)
    requires EnvOk(env) && Simulates(env, s, p) && AllLegal(env.keccak, StampOf(env), p, steps)
    ensures RevertRuns.AllPossible(env, s, steps)
    ensures Simulates(env, RevertRuns.Run(env, s, steps), SimpleRun(env.keccak, StampOf(env), p, steps))
    decreases |steps|
  {
    if steps != [] {
      StepSimulates(env, s, p, steps[0]);
      RunSimulates(env, RevertRuns.Next(env, s, steps[0]), SimpleNext(env.keccak, StampOf(env), p, steps[0]),
                   steps[1..]);
    }
  }

  // ---------------------------------------------------------- code references

  ghost predicate CountsSaved(env: Env, s: State, id: nat, removed: set<Address>) {
    exists i: nat :: CountsAt(env, s, id, i, removed)
  }

  /** Every saved snapshot knows which counts a revert to it would leave too low. */
  ghost predicate AllCounted(env: Env, s: State, saved: map<nat, Copy>) {
    forall id {:trigger CountsSaved(env, s, id, saved[id].removed)} :: id in saved ==>
      CountsSaved(env, s, id, saved[id].removed)
  }

  ghost predicate Counting(env: Env, s: State, p: Saving) {
    DiffsOk(env, s.core) && AllCounted(env, s, p.saved)
  }

  lemma CountsStay(env: Env, s: State, id: nat, removed: set<Address>, step: Step, removed': set<Address>)
    requires StateOk(env, s) && CountsSaved(env, s, id, removed) && RevertRuns.Possible(env, s, step) && Newer(step, id)
    requires removed' == removed + RemovedByStep(env, s, step)
    ensures CountsSaved(env, RevertRuns.Next(env, s, step), id, removed')
  {
    var i: nat :| CountsAt(env, s, id, i, removed);
    NextCounts(env, s, id, i, removed, step);
  }

  lemma RemovedIsRemoved(env: Env, s: State, p: Saving, op: Op)
    requires EnvOk(env) && Simulates(env, s, p)
    ensures RemovedBy(env, s.core, op) == if LosesCode(env.keccak, p.now, op) then {op.addr} else {}
  {
    if op.SetCodeOp? { assert Show(env, s.core, op.addr) == p.now.shown(op.addr); }
  }

  lemma PerformCounting(env: Env, s: State, p: Saving, op: Op)
    requires EnvOk(env) && Simulates(env, s, p) && Counting(env, s, p) && Legal(env.keccak, p, Perform(op))
    ensures Counting(env, RevertRuns.Next(env, s, Perform(op)), SimpleNext(env.keccak, StampOf(env), p, Perform(op)))
  {
    StateCoreOk(env, s);
    AllowedIsEnabled(env, s.core, p.now, op);
    DoDiffs(env, s.core, op);
    RemovedIsRemoved(env, s, p, op);
    forall id | id in p.saved
      ensures CountsSaved(env, RevertRuns.Next(env, s, Perform(op)), id,
                          Noted(env.keccak, p.now, p.saved[id], op).removed)
    {
      CountsStay(env, s, id, p.saved[id].removed, Perform(op), Noted(env.keccak, p.now, p.saved[id], op).removed);
    }
  }

  /** Snapshots and reverts to newer snapshots remove no code. */
  lemma CountsUnmoved(env: Env, s: State, id: nat, removed: set<Address>, step: Step)
    requires StateOk(env, s) && CountsSaved(env, s, id, removed) && RevertRuns.Possible(env, s, step) && Newer(step, id)
    requires !step.Perform?
    ensures CountsSaved(env, RevertRuns.Next(env, s, step), id, removed)
  {
    assert removed + {} == removed;
    CountsStay(env, s, id, removed, step, removed);
  }

  lemma CountsMarked(env: Env, s: State, id: nat, removed: set<Address>)
    requires MarksOk(s) && CountsSaved(env, s, id, removed)
    ensures id < s.snapshotId && CanRevert(s, id)
    ensures DiffsOk(env, RevertToSnapshot(s, id).core) <==> removed !! RevertToSnapshot(s, id).core.dirtyAccounts.Keys
  {
    var i: nat :| CountsAt(env, s, id, i, removed);
    CountedMark(env, s, id, i, removed);
    CountedIff(env, RevertToSnapshot(s, id).core, removed);
  }

  lemma SnapshotCounts(env: Env, s: State, saved: map<nat, Copy>, now: Simple)
    requires StateOk(env, s) && DiffsOk(env, s.core) && AllCounted(env, s, saved)
    ensures AllCounted(env, Snapshot(s), saved[s.snapshotId := Copy(now, {}, {})])
  {
    FreshSnapshotCounts(env, s);
    assert CountsSaved(env, Snapshot(s), s.snapshotId, {});
    forall id | id in saved && id != s.snapshotId ensures CountsSaved(env, Snapshot(s), id, saved[id].removed) {
      CountsUnmoved(env, s, id, saved[id].removed, TakeSnapshot);
    }
  }

  lemma RevertCounts(env: Env, s: State, saved: map<nat, Copy>, id: nat)
    requires StateOk(env, s) && AllCounted(env, s, saved) && CanRevert(s, id)
    ensures AllCounted(env, RevertToSnapshot(s, id), map j | j in saved && j < id :: saved[j])
  {
    var less := map j | j in saved && j < id :: saved[j];
    forall j | j in less ensures CountsSaved(env, RevertToSnapshot(s, id), j, less[j].removed) {
      CountsUnmoved(env, s, j, saved[j].removed, RevertTo(id));
    }
  }

  /** A reverted state holds the accounts that were touched when the copy was made. */
  lemma RevertedKeys(env: Env, s: State, p: Saving, id: nat)
    requires EnvOk(env) && Simulates(env, s, p) && id in p.saved
    ensures CanRevert(s, id) && RevertToSnapshot(s, id).core.dirtyAccounts.Keys == p.saved[id].was.touched
  {
    var core := SavedReverts(env, s, id, p.saved[id]);
  }

  lemma RevertDiffs(env: Env, s: State, p: Saving, id: nat)
    requires EnvOk(env) && Simulates(env, s, p) && Counting(env, s, p) && id in p.saved
    ensures CanRevert(s, id) && (DiffsOk(env, RevertToSnapshot(s, id).core) <==> Countable(p.saved[id]))
  {
    RevertedKeys(env, s, p, id);
    CountsMarked(env, s, id, p.saved[id].removed);
  }

  lemma SnapshotCounting(env: Env, s: State, p: Saving)
    requires EnvOk(env) && Simulates(env, s, p) && Counting(env, s, p)
    ensures Counting(env, Snapshot(s), SimpleNext(env.keccak, StampOf(env), p, TakeSnapshot))
  {
    assert p.nextId == s.snapshotId;
    SnapshotCounts(env, s, p.saved, p.now);
  }

  lemma RevertCounting(env: Env, s: State, p: Saving, id: nat)
    requires EnvOk(env) && Simulates(env, s, p) && Counting(env, s, p) && id in p.saved && Countable(p.saved[id])
    ensures CanRevert(s, id)
    ensures Counting(env, RevertToSnapshot(s, id), SimpleNext(env.keccak, StampOf(env), p, RevertTo(id)))
  {
    RevertDiffs(env, s, p, id);
    RevertCounts(env, s, p.saved, id);
  }

  /**
   A step leaves every dirty account's code diff exact if and only if it does not revert to a snapshot in which an
   account was touched whose code has been removed since.
   */
  lemma NextDiffs(env: Env, s: State, p: Saving, step: Step)
    requires EnvOk(env) && Simulates(env, s, p) && Counting(env, s, p) && Legal(env.keccak, p, step)
    ensures DiffsOk(env, RevertRuns.Next(env, s, step).core) <==> KeepsCounts(p, step)
    ensures KeepsCounts(p, step) ==>
              Counting(env, RevertRuns.Next(env, s, step), SimpleNext(env.keccak, StampOf(env), p, step))
  {
    match step
    case Perform(op) => PerformCounting(env, s, p, op);
    case TakeSnapshot => SnapshotCounting(env, s, p);
    case RevertTo(id) =>
      RevertDiffs(env, s, p, id);
      if Countable(p.saved[id]) { RevertCounting(env, s, p, id); }
  }
}
