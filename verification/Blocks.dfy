/**
 A block on top of a layer: transaction contexts, Prepare, steps, and Finalise, and at the end Commit, which turns the
 overlay into a new layer. The simple machine it must agree with keeps plain accounts only.
 */
module Blocks {
  import opened Types
  import opened Views
  import opened Accounts
  import opened Journal
  import opened Snapshots
  import opened RevertRuns
  import opened OpMeaning
  import opened Counts
  import opened SimpleState
  import opened Overlays
  import opened Transactions

  /** mutableStateImpl and the tempCommittedState below it. */
  datatype Block = Block(overlay: Overlay, txHash: Hash, txIndex: int, state: State)

  const NEW_BLOCK := Block(EMPTY_OVERLAY, ZERO_HASH, -1, State(EMPTY_CORE, [], 0))

  function BlockEnv(keccak: Hasher, parent: View, b: Block): Env {
    EnvFor(keccak, b.overlay, parent, b.txHash, b.txIndex)
  }

  datatype Access = Access(addr: Address, keys: seq<Hash>)

  /** What Prepare warms: coinbase is only warmed since EIP-3651. */
  datatype WarmList = WarmList(sender: Address, dest: Option<Address>, precompiles: seq<Address>, accesses: seq<Access>,
                               coinbase: Option<Address>)

  datatype Event =
    | SetTxContext(txHash: Hash, txIndex: int)
    | Prepare(warmed: Option<WarmList>)
    | Run(step: Step)
    | Finalise(deleteEmpty: bool, order: seq<Address>)

  // ------------------------------------------------------------------- prepare

  function WarmAddresses(addrs: seq<Address>): (ops: seq<Op>)
    ensures forall i :: 0 <= i < |ops| ==> Warms(ops[i])
  {
    if addrs == [] then [] else [AddAddressToAccessList(addrs[0])] + WarmAddresses(addrs[1..])
  }

  function WarmKeys(addr: Address, keys: seq<Hash>): (ops: seq<Op>)
    ensures forall i :: 0 <= i < |ops| ==> Warms(ops[i])
  {
    if keys == [] then [] else [AddSlotToAccessList(addr, keys[0])] + WarmKeys(addr, keys[1..])
  }

  function WarmAccesses(accesses: seq<Access>): (ops: seq<Op>)
    ensures forall i :: 0 <= i < |ops| ==> Warms(ops[i])
  {
    if accesses == [] then []
    else
      [AddAddressToAccessList(accesses[0].addr)] + WarmKeys(accesses[0].addr, accesses[0].keys) +
      WarmAccesses(accesses[1..])
  }

  function OptionSeq(o: Option<Address>): seq<Address> {
    match o case None => [] case Some(a) => [a]
  }

  function WarmOps(w: WarmList): (ops: seq<Op>)
    ensures forall i :: 0 <= i < |ops| ==> Warms(ops[i])
  {
    WarmAddresses([w.sender] + OptionSeq(w.dest) + w.precompiles) + WarmAccesses(w.accesses) +
    WarmAddresses(OptionSeq(w.coinbase))
  }

  function PerformAll(env: Env, s: State, ops: seq<Op>): State
    requires forall i :: 0 <= i < |ops| ==> Warms(ops[i])
    decreases |ops|
  {
    if ops == [] then s else assert Warms(ops[0]); PerformAll(env, Snapshots.Perform(env, s, ops[0]), ops[1..])
  }

  function ClearAccess(c: Core): Core {
    c.(accessAddress := map[], accessStorage := [])
  }

  function Prepared(env: Env, s: State, warmed: Option<WarmList>): State {
    var s1 := match warmed
              case None => s
              case Some(w) => PerformAll(env, s.(core := ClearAccess(s.core)), WarmOps(w));
    s1.(core := s1.core.(transientState := map[]))
  }

  // ---------------------------------------------------- what Prepare warms

  lemma {:induction false} AddressesWarmed(addrs: seq<Address>, op: Op)
    ensures op in WarmAddresses(addrs) <==> op.AddAddressToAccessList? && op.addr in addrs
    decreases |addrs|
  {
    if addrs != [] { AddressesWarmed(addrs[1..], op); }
  }

  lemma {:induction false} KeysWarmed(addr: Address, keys: seq<Hash>, op: Op)
    ensures op in WarmKeys(addr, keys) <==> op.AddSlotToAccessList? && op.addr == addr && op.slot in keys
    decreases |keys|
  {
    if keys != [] { KeysWarmed(addr, keys[1..], op); }
  }

  /** The access list of a transaction names the address, or the slot. */
  predicate ListsAddress(accesses: seq<Access>, a: Address) {
    exists x :: x in accesses && x.addr == a
  }

  predicate ListsSlot(accesses: seq<Access>, a: Address, k: Hash) {
    exists x :: x in accesses && x.addr == a && k in x.keys
  }

  lemma {:induction false} AccessesWarmed(accesses: seq<Access>, op: Op)
    ensures op in WarmAccesses(accesses) <==>
              (op.AddAddressToAccessList? && ListsAddress(accesses, op.addr)) ||
              (op.AddSlotToAccessList? && ListsSlot(accesses, op.addr, op.slot))
    decreases |accesses|
  {
    if accesses != [] {
      var x := accesses[0];
      AccessesWarmed(accesses[1..], op);
      KeysWarmed(x.addr, x.keys, op);
      assert x in accesses;
      assert forall y :: y in accesses <==> y == x || y in accesses[1..];
    }
  }

  /** EIP-2929, 2930 and 3651: the addresses that are warm when a transaction starts. */
  predicate StartsWarm(w: WarmList, a: Address) {
    a == w.sender || w.dest == Some(a) || a in w.precompiles || ListsAddress(w.accesses, a) || w.coinbase == Some(a)
  }

  lemma WarmOpsAre(w: WarmList, op: Op)
    ensures op in WarmOps(w) <==>
              (op.AddAddressToAccessList? && StartsWarm(w, op.addr)) ||
              (op.AddSlotToAccessList? && ListsSlot(w.accesses, op.addr, op.slot))
  {
    AddressesWarmed([w.sender] + OptionSeq(w.dest) + w.precompiles, op);
    AddressesWarmed(OptionSeq(w.coinbase), op);
    AccessesWarmed(w.accesses, op);
  }

  // ------------------------------------------------------------- a block's steps

  function BlockNext(keccak: Hasher, parent: View, b: Block, e: Event): Block
    requires e.Finalise? ==> Settled(b.state.core) && (forall a :: a in e.order ==> a in b.state.core.dirtyAccounts)
  {
    match e
    case SetTxContext(txHash, txIndex) =>
      b.(txHash := txHash, txIndex := txIndex, state := b.state.(core := b.state.core.(refund := 0, logs := [])))
    case Prepare(warmed) => b.(state := Prepared(BlockEnv(keccak, parent, b), b.state, warmed))
    case Run(step) => b.(state := RevertRuns.Next(BlockEnv(keccak, parent, b), b.state, step))
    case Finalise(deleteEmpty, order) =>
      b.(overlay := FinalOverlay(b.overlay, b.state.core, b.txHash, deleteEmpty, order),
         state := State(Cleared(b.state.core), [], b.state.snapshotId))
  }

  // -------------------------------------------------------- the simple machine

  /** The logs of finished transactions are kept by transaction hash. */
  datatype SimpleBlock = SimpleBlock(stamp: Stamp, state: Saving, finished: map<Hash, seq<Log>>)

  function DoneAll(keccak: Hasher, stamp: Stamp, p: Saving, ops: seq<Op>): Saving
    requires forall i :: 0 <= i < |ops| ==> Warms(ops[i])
    decreases |ops|
  {
    if ops == [] then p else DoneAll(keccak, stamp, SimpleNext(keccak, stamp, p, Perform(ops[0])), ops[1..])
  }

  const NO_TRANSIENT: (Address, Hash) -> Hash := (a: Address, k: Hash) => ZERO_HASH

  function SimplePrepared(keccak: Hasher, stamp: Stamp, p: Saving, warmed: Option<WarmList>): Saving {
    var p1 := match warmed
              case None => p
              case Some(w) => DoneAll(keccak, stamp, p.(now := p.now.(warm := {}, warmSlots := {})), WarmOps(w));
    p1.(now := p1.now.(transient := NO_TRANSIENT))
  }

  predicate WarmsAddress(ops: seq<Op>, a: Address) {
    exists i :: 0 <= i < |ops| && Warms(ops[i]) && ops[i].addr == a
  }

  lemma {:induction false} DoneAllWarms(keccak: Hasher, stamp: Stamp, p: Saving, ops: seq<Op>, a: Address, k: Hash)
    requires forall i :: 0 <= i < |ops| ==> Warms(ops[i])
    ensures var q := DoneAll(keccak, stamp, p, ops).now;
            && (a in q.warm <==> a in p.now.warm || WarmsAddress(ops, a))
            && ((a, k) in q.warmSlots <==> (a, k) in p.now.warmSlots || AddSlotToAccessList(a, k) in ops)
    decreases |ops|
  {
    if ops != [] {
      assert Warms(ops[0]);
      var p1 := SimpleNext(keccak, stamp, p, Perform(ops[0]));
      DoneAllWarms(keccak, stamp, p1, ops[1..], a, k);
      assert WarmsAddress(ops, a) <==> ops[0].addr == a || WarmsAddress(ops[1..], a) by {
        if WarmsAddress(ops[1..], a) {
          var i :| 0 <= i < |ops| - 1 && Warms(ops[1..][i]) && ops[1..][i].addr == a;
          assert ops[i + 1].addr == a;
        }
        if WarmsAddress(ops, a) && ops[0].addr != a {
          var i :| 0 <= i < |ops| && Warms(ops[i]) && ops[i].addr == a;
          assert ops[1..][i - 1].addr == a;
        }
      }
      assert p1.now.warm == p.now.warm + {ops[0].addr};
      assert AddSlotToAccessList(a, k) in ops <==>
             AddSlotToAccessList(a, k) == ops[0] || AddSlotToAccessList(a, k) in ops[1..];
    }
  }

  /**
   After Prepare exactly the sender, the destination, the precompiles, the listed and (if told so) the coinbase are
   warm.
   */
  lemma PrepareWarms(keccak: Hasher, stamp: Stamp, p: Saving, w: WarmList, a: Address, k: Hash)
    ensures var q := SimplePrepared(keccak, stamp, p, Some(w)).now;
            && (a in q.warm <==> StartsWarm(w, a) || exists j :: ListsSlot(w.accesses, a, j))
            && ((a, k) in q.warmSlots <==> ListsSlot(w.accesses, a, k))
            && q.transient(a, k) == ZERO_HASH
  {
    var ops, p0 := WarmOps(w), p.(now := p.now.(warm := {}, warmSlots := {}));
    DoneAllWarms(keccak, stamp, p0, ops, a, k);
    WarmOpsAre(w, AddSlotToAccessList(a, k));
    WarmOpsAre(w, AddAddressToAccessList(a));
    forall i | 0 <= i < |ops| && Warms(ops[i]) && ops[i].addr == a
      ensures StartsWarm(w, a) || exists j :: ListsSlot(w.accesses, a, j)
    {
      WarmOpsAre(w, ops[i]);
      assert ops[i] in ops && Warms(ops[i]);
    }
    forall j | ListsSlot(w.accesses, a, j) ensures WarmsAddress(ops, a) {
      WarmOpsAre(w, AddSlotToAccessList(a, j));
      var i :| 0 <= i < |ops| && ops[i] == AddSlotToAccessList(a, j);
    }
  }

  predicate IsGone(p: Simple, deleteEmpty: bool, a: Address) {
    a in p.touched && Goes(p.shown(a), deleteEmpty)
  }

  function ShownAtEnd(p: Simple, deleteEmpty: bool): Address -> Shown {
    (a: Address) => if IsGone(p, deleteEmpty, a) then ABSENT else p.shown(a)
  }

  function SlotsAtEnd(p: Simple, deleteEmpty: bool): (Address, Hash) -> Hash {
    (a: Address, k: Hash) => Pick(IsGone(p, deleteEmpty, a), ZERO_HASH, p.slots(a, k))
  }

  /** The end of a transaction on the plain state. */
  function Ended(p: Simple, deleteEmpty: bool): Simple {
    Simple(ShownAtEnd(p, deleteEmpty), SlotsAtEnd(p, deleteEmpty), {}, NO_TRANSIENT, {}, {}, {}, p.logs, p.refund)
  }

  lemma EndedAt(p: Simple, deleteEmpty: bool, a: Address, k: Hash)
    ensures Ended(p, deleteEmpty).shown(a) == if IsGone(p, deleteEmpty, a) then ABSENT else p.shown(a)
    ensures Ended(p, deleteEmpty).slots(a, k) == if IsGone(p, deleteEmpty, a) then ZERO_HASH else p.slots(a, k)
  {
    assert SlotsAtEnd(p, deleteEmpty)(a, k) == Pick(IsGone(p, deleteEmpty, a), ZERO_HASH, p.slots(a, k));
  }

  function SimpleBlockNext(keccak: Hasher, p: SimpleBlock, e: Event): SimpleBlock {
    match e
    case SetTxContext(txHash, txIndex) =>
      p.(stamp := Stamp(txHash, txIndex, p.stamp.logSize),
         state := p.state.(now := p.state.now.(refund := 0, logs := [])))
    case Prepare(warmed) => p.(state := SimplePrepared(keccak, p.stamp, p.state, warmed))
    case Run(step) => p.(state := SimpleNext(keccak, p.stamp, p.state, step))
    case Finalise(deleteEmpty, order) =>
      SimpleBlock(p.stamp.(logSize := p.stamp.logSize + |p.state.now.logs|),
                  Saving(Ended(p.state.now, deleteEmpty), map[], p.state.nextId, false),
                  p.finished[p.stamp.txHash := p.state.now.logs])
  }

  /** GetLogs: the running transaction's own logs, or those of a finished one. */
  function GetLogs(b: Block, txHash: Hash): seq<Log> {
    if txHash == b.txHash then b.state.core.logs
    else if txHash in b.overlay.logs then b.overlay.logs[txHash]
    else []
  }

  function LogsOf(p: SimpleBlock, txHash: Hash): seq<Log> {
    if txHash == p.stamp.txHash then p.state.now.logs else if txHash in p.finished then p.finished[txHash] else []
  }

  /**
   What the callers must respect, told from the plain state: no context or Prepare once a snapshot is out, and no revert
   to a snapshot that knew an account which has since been destroyed with its undo lost, or has had its code removed.
   */
  ghost predicate Lawful(keccak: Hasher, p: SimpleBlock, e: Event) {
    match e
    case SetTxContext(_, _) => !p.state.taken
    case Prepare(_) => !p.state.taken
    case Run(step) => Legal(keccak, p.state, step) && KeepsCounts(p.state, step)
    case Finalise(_, order) => Visits(order, p.state.now.touched)
  }

  // ------------------------------------------------------------------ agreement

  /** The block's invariants hold and its getters show the simple state. */
  ghost predicate Agree(keccak: Hasher, parent: View, b: Block, p: SimpleBlock) {
    var env := BlockEnv(keccak, parent, b);
    && Ongoing(env, b.overlay, b.state.core)
    && Simulates(env, b.state, p.state)
    && AllCounted(env, b.state, p.state.saved)
    && p.stamp == StampOf(env)
    && p.finished == b.overlay.logs
  }

  lemma LogsAgree(keccak: Hasher, parent: View, b: Block, p: SimpleBlock, txHash: Hash)
    requires Agree(keccak, parent, b, p)
    ensures GetLogs(b, txHash) == LogsOf(p, txHash)
  {
    RestAgrees(keccak, parent, b, p);
  }

  /** The same accounts are loaded: only what logs are stamped with may differ. */
  ghost predicate SameLoads(env: Env, env': Env) {
    env'.keccak == env.keccak && env'.parent == env.parent && forall a: Address :: env'.load(a) == env.load(a)
  }

  lemma SameOrigins(env: Env, env': Env, a: Address)
    requires SameLoads(env, env')
    ensures OriginOf(env', a) == OriginOf(env, a)
  {
  }

  lemma {:induction false} UnmarkedJournal(env: Env, env': Env, c: Core, d: Core, js: seq<Entry>)
    requires JournalOk(env, c, js) && !Marked(js) && SameLoads(env, env') && d.dirtyAccounts == c.dirtyAccounts
    ensures JournalOk(env', d, js)
    decreases |js|
  {
    forall a: Address | a in d.dirtyAccounts ensures AccountOk(OriginOf(env', a), d.dirtyAccounts[a]) {
      SameOrigins(env, env', a);
    }
    if js != [] {
      var last, less := js[|js| - 1], js[..|js| - 1];
      assert last in js && last.marks == {};
      assert !Marked(less);
      if last.undo.OnAccount? { SameOrigins(env, env', last.undo.addr); }
      assert FitsCore(env, last.undo, c);
      UndoneDirty(last.undo, c, d);
      UnmarkedJournal(env, env', Undone(last.undo, c), Undone(last.undo, d), less);
    }
  }

  lemma UndoneDirty(u: Undo, c: Core, d: Core)
    requires d.dirtyAccounts == c.dirtyAccounts
    ensures Undone(u, d).dirtyAccounts == Undone(u, c).dirtyAccounts
  {
  }

  lemma SavedIsMarked(env: Env, s: State, id: nat, q: Copy)
    ensures Saved(env, s, id, q) ==> Marked(s.journals)
  {
    if Saved(env, s, id, q) {
      var i: nat, core: Core :| SavedAt(env, s, id, i, core, q);
      assert s.journals[i] in s.journals && id in s.journals[i].marks;
    }
  }

  lemma MarkedIfSaved(env: Env, s: State, saved: map<nat, Copy>, id: nat)
    requires AllSaved(env, s, saved)
    ensures id in saved ==> Marked(s.journals)
  {
    if id in saved {
      assert Saved(env, s, id, saved[id]);
      SavedIsMarked(env, s, id, saved[id]);
    }
  }

  lemma NothingSaved(env: Env, s: State, p: Saving)
    requires Simulates(env, s, p) && !p.taken
    ensures p.saved == map[] && !Marked(s.journals)
  {
    forall id: nat ensures id !in p.saved { MarkedIfSaved(env, s, p.saved, id); }
  }

  lemma SameLoadsShow(env: Env, env': Env, c: Core, d: Core, b: Address, k: Hash)
    requires SameLoads(env, env') && d.dirtyAccounts == c.dirtyAccounts
    ensures Show(env', d, b) == Show(env, c, b) && GetState(env', d, b, k) == GetState(env, c, b, k)
  {
    assert Loaded(env', d, b) == Loaded(env, c, b);
  }

  /** Before any snapshot, the fields that no account holds can be reset. */
  lemma ResetSimulates(env: Env, env': Env, s: State, p: Saving, d: Core, q: Simple)
    requires EnvOk(env) && Simulates(env, s, p) && !p.taken && SameLoads(env, env')
    requires d.dirtyAccounts == s.core.dirtyAccounts && AccessOk(d.accessAddress, |d.accessStorage|) && RepRest(d, q)
    requires q.shown == p.now.shown && q.slots == p.now.slots && q.touched == p.now.touched
    ensures Simulates(env', s.(core := d), p.(now := q))
  {
    NothingSaved(env, s, p);
    UnmarkedJournal(env, env', s.core, d, s.journals);
    forall b: Address, k: Hash ensures Show(env', d, b) == q.shown(b) && GetState(env', d, b, k) == q.slots(b, k) {
      SameLoadsShow(env, env', s.core, d, b, k);
    }
  }

  lemma ResetOngoing(env: Env, env': Env, o: Overlay, c: Core, d: Core)
    requires Ongoing(env, o, c) && SameLoads(env, env') && d.dirtyAccounts == c.dirtyAccounts
    requires AccessOk(d.accessAddress, |d.accessStorage|)
    ensures Ongoing(env', o, d)
  {
    forall a: Address ensures OriginOf(env', a) == OriginOf(env, a) && OriginOk(OriginOf(env', a)) {
      SameOrigins(env, env', a);
      assert OriginOk(OriginOf(env, a));
    }
  }

  // ----------------------------------------------------------- each event agrees

  lemma ContextAgrees(keccak: Hasher, parent: View, b: Block, p: SimpleBlock, txHash: Hash, txIndex: int)
    requires Agree(keccak, parent, b, p) && !p.state.taken
    ensures Agree(keccak, parent, BlockNext(keccak, parent, b, SetTxContext(txHash, txIndex)),
                  SimpleBlockNext(keccak, p, SetTxContext(txHash, txIndex)))
  {
    var b' := BlockNext(keccak, parent, b, SetTxContext(txHash, txIndex));
    var env, env' := BlockEnv(keccak, parent, b), BlockEnv(keccak, parent, b');
    var d, q := b'.state.core, p.state.now.(refund := 0, logs := []);
    assert SameLoads(env, env');
    assert RepRest(b.state.core, p.state.now);
    assert RepRest(d, q);
    ResetOngoing(env, env', b.overlay, b.state.core, d);
    ResetSimulates(env, env', b.state, p.state, d, q);
    NothingSaved(env, b.state, p.state);
  }

  lemma WarmLegal(env: Env, s: State, p: Saving, op: Op)
    requires Warms(op)
    ensures Legal(env.keccak, p, Perform(op)) && Enabled(env, s.core, op)
    ensures Snapshots.Perform(env, s, op).core.dirtyAccounts == s.core.dirtyAccounts
    ensures SimpleNext(env.keccak, StampOf(env), p, Perform(op)).taken == p.taken
    ensures p.saved == map[] ==> SimpleNext(env.keccak, StampOf(env), p, Perform(op)).saved == map[]
  {
  }

  lemma {:induction false} PerformAllSimulates(env: Env, s: State, p: Saving, ops: seq<Op>)
    requires EnvOk(env) && Simulates(env, s, p) && forall i :: 0 <= i < |ops| ==> Warms(ops[i])
    ensures Simulates(env, PerformAll(env, s, ops), DoneAll(env.keccak, StampOf(env), p, ops))
    ensures PerformAll(env, s, ops).core.dirtyAccounts == s.core.dirtyAccounts
    ensures DoneAll(env.keccak, StampOf(env), p, ops).taken == p.taken
    ensures p.saved == map[] ==> DoneAll(env.keccak, StampOf(env), p, ops).saved == map[]
    decreases |ops|
  {
    if ops != [] {
      assert Warms(ops[0]);
      WarmLegal(env, s, p, ops[0]);
      StepSimulates(env, s, p, Perform(ops[0]));
      PerformAllSimulates(env, Snapshots.Perform(env, s, ops[0]),
                          SimpleNext(env.keccak, StampOf(env), p, Perform(ops[0])), ops[1..]);
    }
  }

  lemma AccessCleared(env: Env, s: State, p: Saving, warmed: WarmList)
    requires EnvOk(env) && Simulates(env, s, p) && !p.taken
    ensures var q := DoneAll(env.keccak, StampOf(env), p.(now := p.now.(warm := {}, warmSlots := {})), WarmOps(warmed));
            var s1 := PerformAll(env, s.(core := ClearAccess(s.core)), WarmOps(warmed));
            Simulates(env, s1, q) && !q.taken && q.saved == map[] && s1.core.dirtyAccounts == s.core.dirtyAccounts
  {
    var d, q := ClearAccess(s.core), p.now.(warm := {}, warmSlots := {});
    assert RepRest(s.core, p.now);
    ResetSimulates(env, env, s, p, d, q);
    NothingSaved(env, s, p);
    PerformAllSimulates(env, s.(core := d), p.(now := q), WarmOps(warmed));
  }

  lemma TransientCleared(env: Env, s: State, p: Saving)
    requires EnvOk(env) && Simulates(env, s, p) && !p.taken
    ensures Simulates(env, s.(core := s.core.(transientState := map[])), p.(now := p.now.(transient := NO_TRANSIENT)))
  {
    assert RepRest(s.core, p.now);
    ResetSimulates(env, env, s, p, s.core.(transientState := map[]), p.now.(transient := NO_TRANSIENT));
  }

  lemma PreparedSimulates(env: Env, s: State, p: Saving, warmed: Option<WarmList>)
    requires EnvOk(env) && Simulates(env, s, p) && !p.taken
    ensures Simulates(env, Prepared(env, s, warmed), SimplePrepared(env.keccak, StampOf(env), p, warmed))
    ensures SimplePrepared(env.keccak, StampOf(env), p, warmed).saved == map[]
    ensures Prepared(env, s, warmed).core.dirtyAccounts == s.core.dirtyAccounts
  {
    NothingSaved(env, s, p);
    match warmed
    case None => TransientCleared(env, s, p);
    case Some(w) =>
      AccessCleared(env, s, p, w);
      TransientCleared(env, PerformAll(env, s.(core := ClearAccess(s.core)), WarmOps(w)),
                       DoneAll(env.keccak, StampOf(env), p.(now := p.now.(warm := {}, warmSlots := {})), WarmOps(w)));
  }

  lemma SimulatesSettled(env: Env, s: State, p: Saving)
    requires Simulates(env, s, p)
    ensures CoreOk(env, s.core) && Settled(s.core)
  {
    StateCoreOk(env, s);
  }

  lemma PrepareAgrees(keccak: Hasher, parent: View, b: Block, p: SimpleBlock, warmed: Option<WarmList>)
    requires Agree(keccak, parent, b, p) && !p.state.taken
    ensures Agree(keccak, parent, BlockNext(keccak, parent, b, Prepare(warmed)),
                  SimpleBlockNext(keccak, p, Prepare(warmed)))
  {
    var b' := BlockNext(keccak, parent, b, Prepare(warmed));
    var env, env' := BlockEnv(keccak, parent, b), BlockEnv(keccak, parent, b');
    PreparedSimulates(env, b.state, p.state, warmed);
    assert env' == env;
    SimulatesSettled(env, b'.state, SimplePrepared(keccak, p.stamp, p.state, warmed));
    ResetOngoing(env, env', b.overlay, b.state.core, b'.state.core);
  }

  lemma RunAgrees(keccak: Hasher, parent: View, b: Block, p: SimpleBlock, step: Step)
    requires Agree(keccak, parent, b, p) && Legal(keccak, p.state, step) && KeepsCounts(p.state, step)
    ensures Agree(keccak, parent, BlockNext(keccak, parent, b, Run(step)), SimpleBlockNext(keccak, p, Run(step)))
  {
    var b' := BlockNext(keccak, parent, b, Run(step));
    var env, env' := BlockEnv(keccak, parent, b), BlockEnv(keccak, parent, b');
    StepSimulates(env, b.state, p.state, step);
    NextDiffs(env, b.state, p.state, step);
    assert env' == env;
    SimulatesSettled(env, b'.state, SimpleNext(keccak, p.stamp, p.state, step));
  }

  lemma ClearedSettled(env: Env, c: Core)
    ensures CoreOk(env, Cleared(c)) && Settled(Cleared(c)) && DiffsOk(env, Cleared(c))
  {
  }

  lemma EndedShows(keccak: Hasher, parent: View, b: Block, p: SimpleBlock, deleteEmpty: bool, order: seq<Address>,
                   env': Env, o': Overlay, a: Address, k: Hash)
    requires Agree(keccak, parent, b, p) && Visits(order, b.state.core.dirtyAccounts.Keys)
    requires o' == FinalOverlay(b.overlay, b.state.core, b.txHash, deleteEmpty, order)
    requires Ongoing(env', o', Cleared(b.state.core)) && env'.parent == parent
    ensures Show(env', Cleared(b.state.core), a) == Ended(p.state.now, deleteEmpty).shown(a)
    ensures GetState(env', Cleared(b.state.core), a, k) == Ended(p.state.now, deleteEmpty).slots(a, k)
  {
    var env, c := BlockEnv(keccak, parent, b), b.state.core;
    FinaliseMeans(env, b.overlay, c, b.txHash, deleteEmpty, order, a, k);
    UntouchedShows(env', o', Cleared(c), a, k);
    assert Show(env, c, a) == p.state.now.shown(a) && GetState(env, c, a, k) == p.state.now.slots(a, k);
    TouchedAreDirty(keccak, parent, b, p);
    EndedAt(p.state.now, deleteEmpty, a, k);
  }

  lemma EndedSimulates(env': Env, c: Core, n: nat, q: Simple)
    requires EnvOk(env')
    requires forall a: Address :: Show(env', Cleared(c), a) == q.shown(a)
    requires forall a: Address, k: Hash :: GetState(env', Cleared(c), a, k) == q.slots(a, k)
    requires q.touched == {} && q.transient == NO_TRANSIENT && q.warm == {} && q.warmSlots == {} && q.newContracts == {}
    requires q.logs == c.logs && q.refund == c.refund
    ensures Simulates(env', State(Cleared(c), [], n), Saving(q, map[], n, false))
  {
    ClearedSettled(env', c);
  }

  lemma FinalOngoing(keccak: Hasher, parent: View, b: Block, p: SimpleBlock, deleteEmpty: bool, order: seq<Address>,
                     b': Block)
    requires Agree(keccak, parent, b, p) && Visits(order, b.state.core.dirtyAccounts.Keys)
    requires b'.overlay == FinalOverlay(b.overlay, b.state.core, b.txHash, deleteEmpty, order)
    ensures Ongoing(BlockEnv(keccak, parent, b'), b'.overlay, Cleared(b.state.core))
  {
    var env, env' := BlockEnv(keccak, parent, b), BlockEnv(keccak, parent, b');
    FinaliseOk(env, b.overlay, b.state.core, b.txHash, deleteEmpty, order);
    EnvForOk(keccak, b'.overlay, parent, b'.txHash, b'.txIndex);
    ClearedSettled(env', b.state.core);
  }

  lemma FinalSimulates(keccak: Hasher, parent: View, b: Block, p: SimpleBlock, deleteEmpty: bool, order: seq<Address>,
                       b': Block)
    requires Agree(keccak, parent, b, p) && Visits(order, b.state.core.dirtyAccounts.Keys)
    requires b'.overlay == FinalOverlay(b.overlay, b.state.core, b.txHash, deleteEmpty, order)
    requires Ongoing(BlockEnv(keccak, parent, b'), b'.overlay, Cleared(b.state.core))
    ensures Simulates(BlockEnv(keccak, parent, b'), State(Cleared(b.state.core), [], b.state.snapshotId),
                      Saving(Ended(p.state.now, deleteEmpty), map[], b.state.snapshotId, false))
  {
    var env', c, q := BlockEnv(keccak, parent, b'), b.state.core, Ended(p.state.now, deleteEmpty);
    EndedShowsAll(keccak, parent, b, p, deleteEmpty, order, env', b'.overlay);
    RestAgrees(keccak, parent, b, p);
    EndedSimulates(env', c, b.state.snapshotId, q);
  }

  lemma RestAgrees(keccak: Hasher, parent: View, b: Block, p: SimpleBlock)
    requires Agree(keccak, parent, b, p)
    ensures p.state.now.logs == b.state.core.logs && p.state.now.refund == b.state.core.refund
  {
    assert RepRest(b.state.core, p.state.now);
  }

  lemma EndedShowsAll(keccak: Hasher, parent: View, b: Block, p: SimpleBlock, deleteEmpty: bool, order: seq<Address>,
                      env': Env, o': Overlay)
    requires Agree(keccak, parent, b, p) && Visits(order, b.state.core.dirtyAccounts.Keys)
    requires o' == FinalOverlay(b.overlay, b.state.core, b.txHash, deleteEmpty, order)
    requires Ongoing(env', o', Cleared(b.state.core)) && env'.parent == parent
    ensures forall a: Address :: Show(env', Cleared(b.state.core), a) == Ended(p.state.now, deleteEmpty).shown(a)
    ensures forall a: Address, k: Hash ::
              GetState(env', Cleared(b.state.core), a, k) == Ended(p.state.now, deleteEmpty).slots(a, k)
  {
    forall a: Address ensures Show(env', Cleared(b.state.core), a) == Ended(p.state.now, deleteEmpty).shown(a) {
      EndedShows(keccak, parent, b, p, deleteEmpty, order, env', o', a, 0);
    }
    forall a: Address, k: Hash
      ensures GetState(env', Cleared(b.state.core), a, k) == Ended(p.state.now, deleteEmpty).slots(a, k)
    {
      EndedShows(keccak, parent, b, p, deleteEmpty, order, env', o', a, k);
    }
  }

  lemma FinaliseAgrees(keccak: Hasher, parent: View, b: Block, p: SimpleBlock, deleteEmpty: bool, order: seq<Address>)
    requires Agree(keccak, parent, b, p) && Visits(order, b.state.core.dirtyAccounts.Keys)
    ensures Agree(keccak, parent, BlockNext(keccak, parent, b, Finalise(deleteEmpty, order)),
                  SimpleBlockNext(keccak, p, Finalise(deleteEmpty, order)))
  {
    var b' := BlockNext(keccak, parent, b, Finalise(deleteEmpty, order));
    var p' := SimpleBlockNext(keccak, p, Finalise(deleteEmpty, order));
    FinalStamp(keccak, parent, b, p, deleteEmpty, order);
    FinalLogs(keccak, parent, b, p, deleteEmpty, order, b'.overlay);
    Finalised(keccak, parent, b, p, deleteEmpty, order, b');
    FinalAgrees(keccak, parent, b', p');
  }

  lemma FinalAgrees(keccak: Hasher, parent: View, b': Block, p': SimpleBlock)
    requires Ongoing(BlockEnv(keccak, parent, b'), b'.overlay, b'.state.core)
    requires Simulates(BlockEnv(keccak, parent, b'), b'.state, p'.state) && p'.state.saved == map[]
    requires p'.stamp == StampOf(BlockEnv(keccak, parent, b')) && p'.finished == b'.overlay.logs
    ensures Agree(keccak, parent, b', p')
  {
  }

  lemma Finalised(keccak: Hasher, parent: View, b: Block, p: SimpleBlock, deleteEmpty: bool, order: seq<Address>,
                  b': Block)
    requires Agree(keccak, parent, b, p) && Visits(order, b.state.core.dirtyAccounts.Keys)
    requires b'.overlay == FinalOverlay(b.overlay, b.state.core, b.txHash, deleteEmpty, order)
    requires b'.state == State(Cleared(b.state.core), [], b.state.snapshotId)
    ensures var env' := BlockEnv(keccak, parent, b');
            && Ongoing(env', b'.overlay, b'.state.core)
            && Simulates(env', b'.state, Saving(Ended(p.state.now, deleteEmpty), map[], p.state.nextId, false))
  {
    FinalOngoing(keccak, parent, b, p, deleteEmpty, order, b');
    FinalSimulates(keccak, parent, b, p, deleteEmpty, order, b');
  }

  lemma FinalStamp(keccak: Hasher, parent: View, b: Block, p: SimpleBlock, deleteEmpty: bool, order: seq<Address>)
    requires Agree(keccak, parent, b, p) && Visits(order, b.state.core.dirtyAccounts.Keys)
    ensures SimpleBlockNext(keccak, p, Finalise(deleteEmpty, order)).stamp ==
            StampOf(BlockEnv(keccak, parent, BlockNext(keccak, parent, b, Finalise(deleteEmpty, order))))
  {
    FinaliseLogs(b.overlay, b.state.core, b.txHash, deleteEmpty, order);
    RestAgrees(keccak, parent, b, p);
  }

  lemma FinalLogs(keccak: Hasher, parent: View, b: Block, p: SimpleBlock, deleteEmpty: bool, order: seq<Address>,
                  o': Overlay)
    requires Agree(keccak, parent, b, p) && Visits(order, b.state.core.dirtyAccounts.Keys)
    requires o' == FinalOverlay(b.overlay, b.state.core, b.txHash, deleteEmpty, order)
    ensures SimpleBlockNext(keccak, p, Finalise(deleteEmpty, order)).finished == o'.logs
  {
    FinaliseLogs(b.overlay, b.state.core, b.txHash, deleteEmpty, order);
    RestAgrees(keccak, parent, b, p);
  }

  lemma TouchedAreDirty(keccak: Hasher, parent: View, b: Block, p: SimpleBlock)
    requires Agree(keccak, parent, b, p)
    ensures b.state.core.dirtyAccounts.Keys == p.state.now.touched
  {
    assert Rep(BlockEnv(keccak, parent, b), b.state.core, p.state.now);
  }

  /** Whatever happens next in the block, lawfully, happens alike to the journaled state and to the plain one. */
  lemma EventAgrees(keccak: Hasher, parent: View, b: Block, p: SimpleBlock, e: Event)
    requires Agree(keccak, parent, b, p) && Lawful(keccak, p, e)
    ensures e.Finalise? ==> Settled(b.state.core) && (forall a :: a in e.order ==> a in b.state.core.dirtyAccounts)
    ensures Agree(keccak, parent, BlockNext(keccak, parent, b, e), SimpleBlockNext(keccak, p, e))
  {
    match e
    case SetTxContext(txHash, txIndex) => ContextAgrees(keccak, parent, b, p, txHash, txIndex);
    case Prepare(warmed) => PrepareAgrees(keccak, parent, b, p, warmed);
    case Run(step) => RunAgrees(keccak, parent, b, p, step);
    case Finalise(deleteEmpty, order) =>
      TouchedAreDirty(keccak, parent, b, p);
      FinaliseAgrees(keccak, parent, b, p, deleteEmpty, order);
  }
}
