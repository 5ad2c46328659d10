/**
 What the other modules assume can be had: a hasher for any codes there are, a transaction on an empty store, in which
 the failing reverts do happen, and a node that deploys a contract in its first block.
 */
module Instances {
  import opened Types
  import opened Views
  import opened Database
  import opened Accounts
  import opened Journal
  import opened Snapshots
  import opened RevertRuns
  import opened OpMeaning
  import opened Counts
  import opened SimpleState
  import opened Overlays
  import opened Transactions
  import opened Blocks
  import opened Commits
  import opened LayerTree
  import Genesis
  import LayerRuns
  import Nodes
  import Progress

  // -------------------------------------------------------------------- hashers

  function IndexIn(codes: seq<Code>, code: Code): (i: nat)
    requires code in codes
    ensures i < |codes| && codes[i] == code
  {
    if codes[0] == code then 0 else 1 + IndexIn(codes[1..], code)
  }

  /** Numbers the codes listed; the empty code has a number above all of them. */
  function NumberOf(codes: seq<Code>, code: Code): Hash
    requires |codes| < TWO_255
  {
    if code == [] then EMPTY_CODE_HASH else if code in codes then IndexIn(codes, code) else ZERO_HASH
  }

  function HasherOf(codes: seq<Code>): Hasher
    requires |codes| < TWO_255
  {
    Hasher((code: Code) => NumberOf(codes, code), (set code | code in codes) + {[]})
  }

  /** Any codes, up to 2^255 of them, can all be in play: some hash into 256 bits tells them apart. */
  lemma HashesExist(codes: seq<Code>)
    requires |codes| < TWO_255
    ensures Hashes(HasherOf(codes))
    ensures forall code :: code in codes ==> code in HasherOf(codes).inPlay
  {
    var keccak := HasherOf(codes);
    forall c, d | c in keccak.inPlay && d in keccak.inPlay && keccak.hash(c) == keccak.hash(d) ensures c == d {
      NumbersApart(codes, c, d);
    }
  }

  lemma NumbersApart(codes: seq<Code>, c: Code, d: Code)
    requires |codes| < TWO_255 && (c == [] || c in codes) && (d == [] || d in codes)
    requires NumberOf(codes, c) == NumberOf(codes, d)
    ensures c == d
  {
    if c != [] && d != [] { assert codes[IndexIn(codes, c)] == codes[IndexIn(codes, d)]; }
  }

  // --------------------------------------------------------------- a transaction

  /** The context of the first transaction on an empty store. */
  function FirstEnv(keccak: Hasher): Env {
    EnvFor(keccak, EMPTY_OVERLAY, Base(EMPTY_DATABASE), ZERO_HASH, 0)
  }

  lemma FirstEnvOk(keccak: Hasher, addr: Address)
    requires Hashes(keccak)
    ensures EnvOk(FirstEnv(keccak)) && Status(FirstEnv(keccak).load(addr)) == NOT_EXISTED
  {
    Genesis.EmptyDatabaseOk(keccak);
    EmptyOverlayOk(keccak, Base(EMPTY_DATABASE));
    EnvForOk(keccak, EMPTY_OVERLAY, Base(EMPTY_DATABASE), ZERO_HASH, 0);
    assert FirstEnv(keccak).load(addr) == Load(EMPTY_OVERLAY, Base(EMPTY_DATABASE), addr);
  }

  /** On an empty store a revert does show a contract as destroyed that was not when the snapshot was taken. */
  lemma LostUndoHappens(addr: Address)
    ensures var env := FirstEnv(HasherOf([]));
            var s := RevertRuns.Run(env, START, NewContract(addr));
            var s2 := RevertRuns.Run(env, Snapshot(s), [Perform(SelfDestruct6780(addr))]);
            && EnvOk(env) && StateOk(env, s)
            && RevertRuns.AllPossible(env, START, NewContract(addr))
            && RevertRuns.AllPossible(env, Snapshot(s), [Perform(SelfDestruct6780(addr))])
            && CanRevert(s2, s.snapshotId)
            && !SameGetters(env, RevertToSnapshot(s2, s.snapshotId).core, s.core)
  {
    var env := FirstEnv(HasherOf([]));
    HashesExist([]);
    FirstEnvOk(HasherOf([]), addr);
    ContractCreated(env, addr);
    RevertRuns.RunOk(env, START, NewContract(addr));
    LostUndoShows(env, addr);
    var s := RevertRuns.Run(env, START, NewContract(addr));
    var s2 := RevertRuns.Run(env, Snapshot(s), [Perform(SelfDestruct6780(addr))]);
    assert !SameAccountGetters(env, RevertToSnapshot(s2, s.snapshotId).core, s.core, addr);
  }

  // ------------------------------------------------------------ a miscounted code

  function DeployCode(addr: Address, code: Code): seq<RevertRuns.Step> {
    [Perform(CreateAccount(addr)), Perform(SetCodeOp(addr, code))]
  }

  lemma CodeDeployed(env: Env, addr: Address, code: Code)
    requires EnvOk(env) && Status(env.load(addr)) == NOT_EXISTED && code in env.keccak.inPlay
    ensures StateOk(env, START) && RevertRuns.AllPossible(env, START, DeployCode(addr, code))
    ensures var s := RevertRuns.Run(env, START, DeployCode(addr, code));
            && StateOk(env, s) && DiffsOk(env, s.core)
            && addr in s.core.dirtyAccounts && s.core.dirtyAccounts[addr].codeHash == env.keccak.hash(code)
  {
    AccountCreated(env, addr);
    CodeSet(env, RevertRuns.Next(env, START, Perform(CreateAccount(addr))), addr, code);
    RunTwo(env, START, Perform(CreateAccount(addr)), Perform(SetCodeOp(addr, code)));
  }

  lemma AccountCreated(env: Env, addr: Address)
    requires EnvOk(env) && Status(env.load(addr)) == NOT_EXISTED
    ensures var step := Perform(CreateAccount(addr));
            var s := RevertRuns.Next(env, START, step);
            && StateOk(env, START) && RevertRuns.Possible(env, START, step)
            && StateOk(env, s) && DiffsOk(env, s.core)
            && addr in s.core.dirtyAccounts && s.core.dirtyAccounts[addr].codeHash == EMPTY_CODE_HASH
  {
    assert OriginOk(OriginOf(env, addr));
    DoDiffs(env, EMPTY_CORE, CreateAccount(addr));
    NextOk(env, START, Perform(CreateAccount(addr)));
  }

  lemma CodeSet(env: Env, s: State, addr: Address, code: Code)
    requires EnvOk(env) && StateOk(env, s) && DiffsOk(env, s.core) && code in env.keccak.inPlay
    requires addr in s.core.dirtyAccounts && s.core.dirtyAccounts[addr].codeHash == EMPTY_CODE_HASH
    ensures var step := Perform(SetCodeOp(addr, code));
            var s2 := RevertRuns.Next(env, s, step);
            && RevertRuns.Possible(env, s, step) && StateOk(env, s2) && DiffsOk(env, s2.core)
            && addr in s2.core.dirtyAccounts && s2.core.dirtyAccounts[addr].codeHash == env.keccak.hash(code)
  {
    StateCoreOk(env, s);
    DoDiffs(env, s.core, SetCodeOp(addr, code));
    NextOk(env, s, Perform(SetCodeOp(addr, code)));
  }

  lemma RemovalMiscounts(env: Env, s: State, addr: Address)
    requires EnvOk(env) && StateOk(env, s) && DiffsOk(env, s.core) && addr in s.core.dirtyAccounts
    requires s.core.dirtyAccounts[addr].codeHash != EMPTY_CODE_HASH
    ensures var s2 := RevertRuns.Run(env, Snapshot(s), [Perform(SetCodeOp(addr, []))]);
            && RevertRuns.AllPossible(env, Snapshot(s), [Perform(SetCodeOp(addr, []))])
            && CanRevert(s2, s.snapshotId)
            && !DiffsOk(env, RevertToSnapshot(s2, s.snapshotId).core)
  {
    var step := Perform(SetCodeOp(addr, []));
    assert OriginOk(OriginOf(env, addr));
    assert IsCodeOf(env.keccak, [], EMPTY_CODE_HASH);
    assert [step][1..] == [] && RevertRuns.AllPossible(env, RevertRuns.Next(env, Snapshot(s), step), []);
    assert RemovedByStep(env, Snapshot(s), step) == {addr};
    assert RemovedIn(env, Snapshot(s), [step]) == {addr};
    RevertKeepsCounts(env, s, [step]);
  }

  /** Removing a contract's code and reverting the removal does leave its hash one reference too low. */
  lemma MiscountHappens(addr: Address, code: Code)
    requires code != []
    ensures var env := FirstEnv(HasherOf([code]));
            var s := RevertRuns.Run(env, START, DeployCode(addr, code));
            var s2 := RevertRuns.Run(env, Snapshot(s), [Perform(SetCodeOp(addr, []))]);
            && EnvOk(env) && StateOk(env, s) && DiffsOk(env, s.core)
            && RevertRuns.AllPossible(env, START, DeployCode(addr, code))
            && RevertRuns.AllPossible(env, Snapshot(s), [Perform(SetCodeOp(addr, []))])
            && CanRevert(s2, s.snapshotId)
            && !DiffsOk(env, RevertToSnapshot(s2, s.snapshotId).core)
  {
    var keccak := HasherOf([code]);
    HashesExist([code]);
    FirstEnvOk(keccak, addr);
    assert code in [code] && keccak.hash(code) != EMPTY_CODE_HASH;
    CodeDeployed(FirstEnv(keccak), addr, code);
    RemovalMiscounts(FirstEnv(keccak), RevertRuns.Run(FirstEnv(keccak), START, DeployCode(addr, code)), addr);
  }

  // -------------------------------------------------------------------- a node

  /** A transaction that deploys a contract and writes one slot of it. */
  function Deployment(addr: Address, code: Code, key: Hash, val: Hash): seq<Event> {
    [Blocks.Run(Perform(CreateAccount(addr))), Blocks.Run(Perform(SetCodeOp(addr, code))),
     Blocks.Run(Perform(SetStateOp(addr, key, val))), Finalise(false, [addr])]
  }

  function NewContractShown(keccak: Hasher, code: Code): Shown {
    Shown(0, 0, keccak.hash(code), code, true, UPDATING)
  }

  lemma OpHappens(keccak: Hasher, p: SimpleBlock, op: Op)
    requires Allowed(keccak, p.state.now, op) && InPlay(keccak, op)
    ensures Lawful(keccak, p, Blocks.Run(Perform(op)))
    ensures SimpleBlockNext(keccak, p, Blocks.Run(Perform(op))).state.now == Done(keccak, p.stamp, p.state.now, op)
    ensures SimpleBlockNext(keccak, p, Blocks.Run(Perform(op))).stamp == p.stamp
  {
  }

  lemma SlotWritten(keccak: Hasher, stamp: Stamp, p: Simple, addr: Address, key: Hash, val: Hash)
    ensures Done(keccak, stamp, p, SetStateOp(addr, key, val)).slots(addr, key) == val
  {
    assert SimpleState.SlotsAfter(p, SetStateOp(addr, key, val))(addr, key) == Pick(true, val, p.slots(addr, key));
  }

  lemma ContractKept(keccak: Hasher, p: SimpleBlock, addr: Address, code: Code, key: Hash)
    requires p.state.now.shown(addr) == NewContractShown(keccak, code) && p.state.now.touched == {addr}
    ensures Lawful(keccak, p, Finalise(false, [addr]))
    ensures var q := SimpleBlockNext(keccak, p, Finalise(false, [addr])).state.now;
            q.touched == {} && q.shown(addr) == p.state.now.shown(addr) &&
              q.slots(addr, key) == p.state.now.slots(addr, key)
  {
    EndedAt(p.state.now, false, addr, key);
  }

  /** The three operations, on an account that did not exist. */
  lemma DeploymentRuns(keccak: Hasher, p: SimpleBlock, addr: Address, code: Code, key: Hash, val: Hash)
    requires code in keccak.inPlay && p.state.now.shown(addr) == ABSENT && p.state.now.touched == {}
    ensures AllLawful(keccak, p, Deployment(addr, code, key, val))
    ensures var q := SimpleBlockRun(keccak, p, Deployment(addr, code, key, val)).state.now;
            q.touched == {} && q.shown(addr) == NewContractShown(keccak, code) && q.slots(addr, key) == val
  {
    var events := Deployment(addr, code, key, val);
    OpHappens(keccak, p, CreateAccount(addr));
    var p1 := SimpleBlockNext(keccak, p, events[0]);
    OpHappens(keccak, p1, SetCodeOp(addr, code));
    var p2 := SimpleBlockNext(keccak, p1, events[1]);
    OpHappens(keccak, p2, SetStateOp(addr, key, val));
    var p3 := SimpleBlockNext(keccak, p2, events[2]);
    SlotWritten(keccak, p.stamp, p2.state.now, addr, key, val);
    ContractKept(keccak, p3, addr, code, key);
    FourEvents(keccak, p, events, p1, p2, p3, SimpleBlockNext(keccak, p3, events[3]));
  }

  lemma FourEvents(keccak: Hasher, p: SimpleBlock, events: seq<Event>, p1: SimpleBlock, p2: SimpleBlock,
                   p3: SimpleBlock, p4: SimpleBlock)
    requires |events| == 4
    requires Lawful(keccak, p, events[0]) && p1 == SimpleBlockNext(keccak, p, events[0])
    requires Lawful(keccak, p1, events[1]) && p2 == SimpleBlockNext(keccak, p1, events[1])
    requires Lawful(keccak, p2, events[2]) && p3 == SimpleBlockNext(keccak, p2, events[2])
    requires Lawful(keccak, p3, events[3]) && p4 == SimpleBlockNext(keccak, p3, events[3])
    ensures AllLawful(keccak, p, events) && SimpleBlockRun(keccak, p, events) == p4
  {
    assert AllLawful(keccak, p4, events[4..]) && SimpleBlockRun(keccak, p4, events[4..]) == p4;
    assert events[3..][0] == events[3] && events[3..][1..] == events[4..];
    assert AllLawful(keccak, p3, events[3..]) && SimpleBlockRun(keccak, p3, events[3..]) == p4;
    assert events[2..][0] == events[2] && events[2..][1..] == events[3..];
    assert AllLawful(keccak, p2, events[2..]) && SimpleBlockRun(keccak, p2, events[2..]) == p4;
    assert events[1..][0] == events[1] && events[1..][1..] == events[2..];
    assert AllLawful(keccak, p1, events[1..]) && SimpleBlockRun(keccak, p1, events[1..]) == p4;
  }

  /** The log of a genesis that allocates nothing. */
  function EmptyGenesis(root: Hash): LayerLog {
    LayerLog(0, root, map[], map[], map[], map[])
  }

  lemma EmptyGenesisOk(keccak: Hasher, root: Hash)
    requires Hashes(keccak)
    ensures Genesis.FromGenesis(keccak, map[], EmptyGenesis(root))
  {
    forall h: Hash ensures Genesis.CodeListed(keccak, map[], EmptyGenesis(root), h) {
      assert Genesis.Deployed(keccak, map[], h) == {};
    }
  }

  lemma NothingAllocated(keccak: Hasher, addr: Address)
    ensures Nodes.Allocated(keccak, map[]).shown(addr) == ABSENT
  {
  }

  /** From an empty genesis a node can deploy any code in its first block; the new state then shows the contract. */
  lemma ContractOnChain(keccak: Hasher, opts: LayerRuns.Retention, root: Hash, key: StateKey, addr: Address, code: Code,
                        slot: Hash, val: Hash)
    requires Hashes(keccak) && code in keccak.inPlay && LayerRuns.Sensible(opts) && key.height == 1
    ensures var start, n := Nodes.Allocated(keccak, map[]), Nodes.FirstNode(EmptyGenesis(root));
            var steps := Progress.BlockSteps(0, StateKey(0, root), Deployment(addr, code, slot, val), key);
            var n' := Nodes.Run(keccak, start, n, opts, steps);
            && Nodes.AllPossible(keccak, start, n, opts, steps)
            && Linked(n'.world) && LayerRuns.LiveKey(n'.world, key)
            && AtRest(LayerRuns.KeyView(n'.world, key), addr) == NewContractShown(keccak, code)
            && PlainSlot(LayerRuns.KeyView(n'.world, key), addr, slot) == val
  {
    var start, n := Nodes.Allocated(keccak, map[]), Nodes.FirstNode(EmptyGenesis(root));
    var parent, events := StateKey(0, root), Deployment(addr, code, slot, val);
    EmptyGenesisOk(keccak, root);
    Nodes.FirstNodeOk(keccak, map[], EmptyGenesis(root), opts);
    NothingAllocated(keccak, addr);
    assert Nodes.Replay(keccak, start, []) == start && FreshBlock(start).state.now.shown(addr) == ABSENT;
    DeploymentRuns(keccak, FreshBlock(start), addr, code, slot, val);
    Progress.BlockRuns(keccak, start, n, opts, 0, parent, events, key);
    var n' := Nodes.Run(keccak, start, n, opts, Progress.BlockSteps(0, parent, events, key));
    Nodes.ReplayOneMore(keccak, start, [], events);
    assert [] + [events] == [events];
    assert Nodes.ShowsBranch(keccak, start, n'.world, n'.ledger, key);
  }

  /** The same with nothing assumed: the premises of every result about whole nodes are met. */
  lemma SomeNodeRuns(addr: Address, code: Code, slot: Hash, val: Hash)
    ensures var keccak, opts, key := HasherOf([code]), LayerRuns.Retention(1, 1), StateKey(1, ZERO_HASH);
            var start, n := Nodes.Allocated(keccak, map[]), Nodes.FirstNode(EmptyGenesis(ZERO_HASH));
            var steps := Progress.BlockSteps(0, StateKey(0, ZERO_HASH), Deployment(addr, code, slot, val), key);
            var n' := Nodes.Run(keccak, start, n, opts, steps);
            && Hashes(keccak) && Genesis.FromGenesis(keccak, map[], EmptyGenesis(ZERO_HASH)) && LayerRuns.Sensible(opts)
            && Nodes.AllPossible(keccak, start, n, opts, steps)
            && Linked(n'.world) && LayerRuns.LiveKey(n'.world, key)
            && AtRest(LayerRuns.KeyView(n'.world, key), addr) == NewContractShown(keccak, code)
            && PlainSlot(LayerRuns.KeyView(n'.world, key), addr, slot) == val
  {
    var keccak := HasherOf([code]);
    HashesExist([code]);
    assert code in [code];
    EmptyGenesisOk(keccak, ZERO_HASH);
    ContractOnChain(keccak, LayerRuns.Retention(1, 1), ZERO_HASH, StateKey(1, ZERO_HASH), addr, code, slot, val);
  }
}
