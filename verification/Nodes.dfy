/**
 A whole node, from its genesis: blocks are begun on live states, run event by event and are committed, while the tree
 of layers is pruned, swept, cached, forked and restarted between any two events. The machine it must agree with keeps,
 for each committed block, the events of all blocks on its branch, and replays them on a plain account map.
 */
module Nodes {
  import opened Types
  import opened Views
  import opened Snapshots
  import opened SimpleState
  import opened Overlays
  import opened Transactions
  import opened Blocks
  import opened Commits
  import opened LayerTree
  import LayerRuns
  import LayerSteps
  import Genesis

  // ------------------------------------------------------------------ replaying

  type Branch = seq<seq<Event>>

  /** The plain account map after these blocks. */
  function Replay(keccak: Hasher, start: Simple, blocks: Branch): Simple {
    if blocks == [] then start
    else SimpleBlockRun(keccak, FreshBlock(Replay(keccak, start, blocks[..|blocks| - 1])),
                        blocks[|blocks| - 1]).state.now
  }

  // ------------------------------------------------------------------- the node

  /** A block being run: its parent, the branch it extends, what it has read of the parent, and its events so far. */
  datatype Open = Open(parent: StateKey, branch: Branch, seen: View, block: Block, plain: SimpleBlock,
                       events: seq<Event>)

  datatype FullNode = FullNode(world: World, ledger: map<StateKey, Branch>, open: map<nat, Open>)

  datatype Step =
    | Tend(step: LayerRuns.Step)
    | Begin(id: nat, parent: StateKey)
    | Happen(id: nat, event: Event)
    | Commit(id: nat, key: StateKey)

  /** A commit comes after Finalise; everything else a caller must respect is told from the plain block. */
  ghost predicate Possible(keccak: Hasher, n: FullNode, s: Step) {
    match s
    case Tend(step) => !step.Commit?
    case Begin(_, parent) => Linked(n.world) && LayerRuns.LiveKey(n.world, parent) && parent in n.ledger
    case Happen(id, event) => id in n.open && Lawful(keccak, n.open[id].plain, event)
    case Commit(id, key) => id in n.open && n.open[id].plain.state.now.touched == {}
  }

  /** The state is live, and as the object it was: a layer that has been swallowed is not. */
  predicate StillThere(w: World, w': World, k: StateKey) {
    LayerRuns.LiveKey(w', k) && (k == w'.top ==> k == w.top)
  }

  /** Blocks whose parent is gone can only be abandoned, and a restart abandons them all. */
  function Remaining(w: World, w': World, open: map<nat, Open>): map<nat, Open> {
    map id | id in open && StillThere(w, w', open[id].parent) :: open[id]
  }

  ghost function Tended(n: FullNode, opts: LayerRuns.Retention, step: LayerRuns.Step): FullNode {
    var w' := LayerRuns.Next(n.world, opts, step);
    FullNode(w', n.ledger, if step.Restart? then map[] else Remaining(n.world, w', n.open))
  }

  ghost function Begun(keccak: Hasher, start: Simple, n: FullNode, id: nat, parent: StateKey): FullNode
    requires Linked(n.world) && LayerRuns.LiveKey(n.world, parent) && parent in n.ledger
  {
    var branch := n.ledger[parent];
    n.(open := n.open[id := Open(parent, branch, LayerRuns.KeyView(n.world, parent), NEW_BLOCK,
                                 FreshBlock(Replay(keccak, start, branch)), [])])
  }

  ghost predicate EventFits(b: Block, e: Event) {
    e.Finalise? ==> Settled(b.state.core) && forall a :: a in e.order ==> a in b.state.core.dirtyAccounts
  }

  ghost function Happened(keccak: Hasher, o: Open, e: Event): Open
    requires EventFits(o.block, e)
  {
    o.(block := BlockNext(keccak, o.seen, o.block, e), plain := SimpleBlockNext(keccak, o.plain, e),
       events := o.events + [e])
  }

  /** A commit of the wrong height, or of a key that is live, is refused. */
  ghost function Committed(n: FullNode, opts: LayerRuns.Retention, id: nat, key: StateKey): FullNode
    requires id in n.open
  {
    var o := n.open[id];
    if key.height != o.parent.height + 1 || LayerRuns.LiveKey(n.world, key) then n
    else
      var w' := LayerRuns.CommitStep(n.world, opts, o.parent, LogOf(o.block.overlay, key));
      FullNode(w', n.ledger[key := o.branch + [o.events]], Remaining(n.world, w', n.open))
  }

  ghost function Next(keccak: Hasher, start: Simple, n: FullNode, opts: LayerRuns.Retention, s: Step): FullNode {
    match s
    case Tend(step) => Tended(n, opts, step)
    case Begin(id, parent) =>
      if Linked(n.world) && LayerRuns.LiveKey(n.world, parent) && parent in n.ledger
      then Begun(keccak, start, n, id, parent)
      else n
    case Happen(id, e) =>
      if id in n.open && EventFits(n.open[id].block, e) then n.(open := n.open[id := Happened(keccak, n.open[id], e)])
      else n
    case Commit(id, key) => if id in n.open then Committed(n, opts, id, key) else n
  }

  // -------------------------------------------------------------- the agreement

  /** The state shows what replaying its branch gives. */
  ghost predicate ShowsBranch(keccak: Hasher, start: Simple, w: World, ledger: map<StateKey, Branch>, k: StateKey)
    requires Linked(w) && LayerRuns.LiveKey(w, k)
  {
    k in ledger && Shows(LayerRuns.KeyView(w, k), Replay(keccak, start, ledger[k]))
  }

  ghost predicate Agreed(keccak: Hasher, start: Simple, w: World, ledger: map<StateKey, Branch>)
    requires Linked(w)
  {
    forall k {:trigger ShowsBranch(keccak, start, w, ledger, k)} :: LayerRuns.LiveKey(w, k) ==>
      ShowsBranch(keccak, start, w, ledger, k)
  }

  ghost predicate OpenOk(keccak: Hasher, start: Simple, w: World, o: Open)
    requires Linked(w)
  {
    && LayerRuns.LiveKey(w, o.parent) && LiveEq(o.seen, LayerRuns.KeyView(w, o.parent))
    && Agree(keccak, o.seen, o.block, o.plain)
    && o.plain == SimpleBlockRun(keccak, FreshBlock(Replay(keccak, start, o.branch)), o.events)
  }

  ghost predicate AllOpenOk(keccak: Hasher, start: Simple, w: World, open: map<nat, Open>)
    requires Linked(w)
  {
    forall id {:trigger OpenOk(keccak, start, w, open[id])} :: id in open ==> OpenOk(keccak, start, w, open[id])
  }

  ghost predicate NodeOk(keccak: Hasher, start: Simple, n: FullNode, opts: LayerRuns.Retention) {
    && LayerRuns.Safe(keccak, n.world, opts)
    && Agreed(keccak, start, n.world, n.ledger)
    && AllOpenOk(keccak, start, n.world, n.open)
  }

  lemma ShowsLiveEq(u: View, v: View, p: Simple)
    requires Shows(u, p) && LiveEq(u, v)
    ensures Shows(v, p)
  {
    forall a: Address ensures AtRest(v, a) == p.shown(a) { LiveEqAtRest(u, v, a, 0); }
    forall a: Address, k: Hash ensures PlainSlot(v, a, k) == p.slots(a, k) { LiveEqAtRest(u, v, a, k); }
  }

  lemma BranchKept(keccak: Hasher, start: Simple, w: World, w': World, ledger: map<StateKey, Branch>, k: StateKey)
    requires Linked(w) && Linked(w') && LayerRuns.LiveKey(w, k) && LayerRuns.LiveKey(w', k)
    requires LiveEq(LayerRuns.KeyView(w, k), LayerRuns.KeyView(w', k)) && ShowsBranch(keccak, start, w, ledger, k)
    ensures ShowsBranch(keccak, start, w', ledger, k)
  {
    ShowsLiveEq(LayerRuns.KeyView(w, k), LayerRuns.KeyView(w', k), Replay(keccak, start, ledger[k]));
  }

  /** Every state of w' except key was a state of w and shows what it showed. */
  ghost predicate Kept(w: World, w': World, keys: set<StateKey>)
    requires Linked(w) && Linked(w')
  {
    forall k :: LayerRuns.LiveKey(w', k) && k !in keys ==>
      LayerRuns.LiveKey(w, k) && LiveEq(LayerRuns.KeyView(w, k), LayerRuns.KeyView(w', k))
  }

  lemma RemainingOk(keccak: Hasher, start: Simple, w: World, w': World, open: map<nat, Open>, keys: set<StateKey>)
    requires Linked(w) && Linked(w') && Kept(w, w', keys) && AllOpenOk(keccak, start, w, open)
    requires forall k :: k in keys ==> !LayerRuns.LiveKey(w, k)
    ensures AllOpenOk(keccak, start, w', Remaining(w, w', open))
  {
    var left := Remaining(w, w', open);
    forall id | id in left ensures OpenOk(keccak, start, w', left[id]) {
      assert OpenOk(keccak, start, w, open[id]);
      var k := open[id].parent;
      LiveEqTransitive(open[id].seen, LayerRuns.KeyView(w, k), LayerRuns.KeyView(w', k));
    }
  }

  // ------------------------------------------------------------------ each step

  lemma TendOk(keccak: Hasher, start: Simple, n: FullNode, opts: LayerRuns.Retention, step: LayerRuns.Step)
    requires NodeOk(keccak, start, n, opts) && !step.Commit?
    ensures NodeOk(keccak, start, Tended(n, opts, step), opts)
  {
    var w, w' := n.world, LayerRuns.Next(n.world, opts, step);
    LayerRuns.StepUnobservable(keccak, w, opts, step);
    TendedOk(keccak, start, w, w', opts, n.ledger, n.open);
  }

  lemma TendedOk(keccak: Hasher, start: Simple, w: World, w': World, opts: LayerRuns.Retention,
                 ledger: map<StateKey, Branch>, open: map<nat, Open>)
    requires LayerRuns.Unobservable(keccak, w, w', opts)
    requires Agreed(keccak, start, w, ledger) && AllOpenOk(keccak, start, w, open)
    ensures Agreed(keccak, start, w', ledger) && AllOpenOk(keccak, start, w', Remaining(w, w', open))
  {
    forall k | LayerRuns.LiveKey(w', k) ensures ShowsBranch(keccak, start, w', ledger, k) {
      BranchKept(keccak, start, w, w', ledger, k);
    }
    RemainingOk(keccak, start, w, w', open, {});
  }

  lemma BeginOk(keccak: Hasher, start: Simple, n: FullNode, opts: LayerRuns.Retention, id: nat, parent: StateKey)
    requires Hashes(keccak) && NodeOk(keccak, start, n, opts)
    requires LayerRuns.LiveKey(n.world, parent) && parent in n.ledger
    ensures NodeOk(keccak, start, Begun(keccak, start, n, id, parent), opts)
  {
    assert ShowsBranch(keccak, start, n.world, n.ledger, parent);
    OpenedOk(keccak, start, n.world, n.ledger[parent], parent);
  }

  lemma OpenedOk(keccak: Hasher, start: Simple, w: World, branch: Branch, parent: StateKey)
    requires Hashes(keccak) && Linked(w) && LogsOk(keccak, w) && LayerRuns.LiveKey(w, parent)
    requires Shows(LayerRuns.KeyView(w, parent), Replay(keccak, start, branch))
    ensures OpenOk(keccak, start, w, Open(parent, branch, LayerRuns.KeyView(w, parent), NEW_BLOCK,
                                          FreshBlock(Replay(keccak, start, branch)), []))
  {
    LayerRuns.RefLive(w, parent);
    ViewAtOk(keccak, w, LayerRuns.Ref(w, parent));
    NewBlockAgrees(keccak, LayerRuns.KeyView(w, parent), Replay(keccak, start, branch));
    LayerSteps.LiveEqReflexive(LayerRuns.KeyView(w, parent));
  }

  lemma {:induction false} RunOneMore(keccak: Hasher, p: SimpleBlock, events: seq<Event>, e: Event)
    ensures SimpleBlockRun(keccak, p, events + [e]) == SimpleBlockNext(keccak, SimpleBlockRun(keccak, p, events), e)
    decreases |events|
  {
    if events == [] {
      assert ([] + [e])[1..] == [];
    } else {
      assert (events + [e])[1..] == events[1..] + [e];
      RunOneMore(keccak, SimpleBlockNext(keccak, p, events[0]), events[1..], e);
    }
  }

  lemma HappenOk(keccak: Hasher, start: Simple, w: World, o: Open, e: Event)
    requires Linked(w) && OpenOk(keccak, start, w, o) && Lawful(keccak, o.plain, e)
    ensures EventFits(o.block, e) && OpenOk(keccak, start, w, Happened(keccak, o, e))
  {
    EventAgrees(keccak, o.seen, o.block, o.plain, e);
    RunOneMore(keccak, FreshBlock(Replay(keccak, start, o.branch)), o.events, e);
  }

  lemma HappenedOk(keccak: Hasher, start: Simple, n: FullNode, opts: LayerRuns.Retention, id: nat, e: Event)
    requires NodeOk(keccak, start, n, opts) && id in n.open && Lawful(keccak, n.open[id].plain, e)
    ensures EventFits(n.open[id].block, e)
    ensures NodeOk(keccak, start, n.(open := n.open[id := Happened(keccak, n.open[id], e)]), opts)
  {
    assert OpenOk(keccak, start, n.world, n.open[id]);
    HappenOk(keccak, start, n.world, n.open[id], e);
    OpenReplaced(keccak, start, n.world, n.open, id, Happened(keccak, n.open[id], e));
  }

  lemma OpenReplaced(keccak: Hasher, start: Simple, w: World, open: map<nat, Open>, id: nat, o: Open)
    requires Linked(w) && AllOpenOk(keccak, start, w, open) && OpenOk(keccak, start, w, o)
    ensures AllOpenOk(keccak, start, w, open[id := o])
  {
    var open' := open[id := o];
    forall j | j in open' ensures OpenOk(keccak, start, w, open'[j]) {
      if j != id { assert OpenOk(keccak, start, w, open[j]); }
    }
  }

  lemma ReplayOneMore(keccak: Hasher, start: Simple, blocks: Branch, events: seq<Event>)
    ensures Replay(keccak, start, blocks + [events]) ==
            SimpleBlockRun(keccak, FreshBlock(Replay(keccak, start, blocks)), events).state.now
  {
    assert (blocks + [events])[..|blocks|] == blocks;
  }

  /** The world a commit leads to, and the branch it is recorded under. */
  lemma CommitAgrees(keccak: Hasher, start: Simple, w: World, w': World, ledger: map<StateKey, Branch>, key: StateKey,
                     branch: Branch)
    requires Linked(w) && Linked(w') && Kept(w, w', {key}) && Agreed(keccak, start, w, ledger)
    requires LayerRuns.LiveKey(w', key) && Shows(LayerRuns.KeyView(w', key), Replay(keccak, start, branch))
    ensures Agreed(keccak, start, w', ledger[key := branch])
  {
    var more := ledger[key := branch];
    forall k | LayerRuns.LiveKey(w', k) ensures ShowsBranch(keccak, start, w', more, k) {
      if k != key {
        BranchKept(keccak, start, w, w', ledger, k);
        assert more[k] == ledger[k];
      }
    }
  }

  lemma FinishedBlock(keccak: Hasher, o: Open)
    requires Agree(keccak, o.seen, o.block, o.plain) && o.plain.state.now.touched == {}
    ensures o.block.state.core.dirtyAccounts == map[]
  {
    assert Rep(BlockEnv(keccak, o.seen, o.block), o.block.state.core, o.plain.state.now);
    assert o.block.state.core.dirtyAccounts.Keys == {};
  }

  lemma CommitOk(keccak: Hasher, start: Simple, n: FullNode, opts: LayerRuns.Retention, id: nat, key: StateKey)
    requires Hashes(keccak) && LayerRuns.Sensible(opts) && NodeOk(keccak, start, n, opts)
    requires id in n.open && n.open[id].plain.state.now.touched == {}
    ensures NodeOk(keccak, start, Committed(n, opts, id, key), opts)
    ensures var o, n' := n.open[id], Committed(n, opts, id, key);
            if key.height != o.parent.height + 1 || LayerRuns.LiveKey(n.world, key) then n' == n
            else
              && LayerRuns.LiveKey(n'.world, key) && n'.ledger == n.ledger[key := o.branch + [o.events]]
              && LayerRuns.Retains(n.world, opts, LogOf(o.block.overlay, key), n'.world)
  {
    assert OpenOk(keccak, start, n.world, n.open[id]);
    CommittedIs(n, opts, id, key);
    CommitOrNotOk(keccak, start, n, opts, n.open[id], key, Committed(n, opts, id, key));
  }

  /** Refused, or recorded. */
  ghost predicate CommitsTo(n: FullNode, opts: LayerRuns.Retention, o: Open, key: StateKey, n': FullNode) {
    if key.height != o.parent.height + 1 || LayerRuns.LiveKey(n.world, key) then n' == n
    else
      && n'.world == LayerRuns.CommitStep(n.world, opts, o.parent, LogOf(o.block.overlay, key))
      && n'.ledger == n.ledger[key := o.branch + [o.events]] && n'.open == Remaining(n.world, n'.world, n.open)
  }

  lemma CommittedIs(n: FullNode, opts: LayerRuns.Retention, id: nat, key: StateKey)
    requires id in n.open
    ensures CommitsTo(n, opts, n.open[id], key, Committed(n, opts, id, key))
  {
  }

  lemma CommitOrNotOk(keccak: Hasher, start: Simple, n: FullNode, opts: LayerRuns.Retention, o: Open, key: StateKey,
                      n': FullNode)
    requires Hashes(keccak) && LayerRuns.Sensible(opts)
    requires NodeOk(keccak, start, n, opts) && OpenOk(keccak, start, n.world, o)
    requires o.plain.state.now.touched == {} && CommitsTo(n, opts, o, key, n')
    ensures NodeOk(keccak, start, n', opts)
    ensures key.height == o.parent.height + 1 && !LayerRuns.LiveKey(n.world, key) ==>
              LayerRuns.LiveKey(n'.world, key) &&
                LayerRuns.Retains(n.world, opts, LogOf(o.block.overlay, key), n'.world)
  {
    if key.height == o.parent.height + 1 && !LayerRuns.LiveKey(n.world, key) {
      NewCommitOk(keccak, start, n, opts, o, key, n');
    }
  }

  lemma NewCommitOk(keccak: Hasher, start: Simple, n: FullNode, opts: LayerRuns.Retention, o: Open, key: StateKey,
                    n': FullNode)
    requires Hashes(keccak) && LayerRuns.Sensible(opts)
    requires NodeOk(keccak, start, n, opts) && OpenOk(keccak, start, n.world, o)
    requires o.plain.state.now.touched == {} && key.height == o.parent.height + 1 && !LayerRuns.LiveKey(n.world, key)
    requires CommitsTo(n, opts, o, key, n')
    ensures NodeOk(keccak, start, n', opts)
    ensures LayerRuns.LiveKey(n'.world, key)
    ensures LayerRuns.Retains(n.world, opts, LogOf(o.block.overlay, key), n'.world)
  {
    CommittedWorld(keccak, start, n.world, o, opts, key, LogOf(o.block.overlay, key), n'.world);
    CommitRecorded(keccak, start, n.world, n'.world, o, n.ledger, n.open, key);
  }

  lemma CommittedWorld(keccak: Hasher, start: Simple, w: World, o: Open, opts: LayerRuns.Retention, key: StateKey,
                       log: LayerLog, w': World)
    requires Hashes(keccak) && LayerRuns.Sensible(opts)
    requires LayerRuns.Safe(keccak, w, opts) && OpenOk(keccak, start, w, o)
    requires o.plain.state.now.touched == {} && key.height == o.parent.height + 1 && !LayerRuns.LiveKey(w, key)
    requires log == LogOf(o.block.overlay, key) && w' == LayerRuns.CommitStep(w, opts, o.parent, log)
    ensures LayerRuns.Safe(keccak, w', opts) && Kept(w, w', {key}) && LayerRuns.Retains(w, opts, log, w')
    ensures LayerRuns.LiveKey(w', key) && Shows(LayerRuns.KeyView(w', key), o.plain.state.now)
  {
    FinishedBlock(keccak, o);
    BlockBecomesLayer(keccak, w, opts, o.parent, o.seen, o.block, o.plain, key, log, w');
  }

  lemma CommitRecorded(keccak: Hasher, start: Simple, w: World, w': World, o: Open, ledger: map<StateKey, Branch>,
                       open: map<nat, Open>, key: StateKey)
    requires Linked(w) && Linked(w') && Kept(w, w', {key}) && !LayerRuns.LiveKey(w, key)
    requires Agreed(keccak, start, w, ledger) && AllOpenOk(keccak, start, w, open)
    requires o.plain == SimpleBlockRun(keccak, FreshBlock(Replay(keccak, start, o.branch)), o.events)
    requires LayerRuns.LiveKey(w', key) && Shows(LayerRuns.KeyView(w', key), o.plain.state.now)
    ensures Agreed(keccak, start, w', ledger[key := o.branch + [o.events]])
    ensures AllOpenOk(keccak, start, w', Remaining(w, w', open))
  {
    ReplayOneMore(keccak, start, o.branch, o.events);
    CommitAgrees(keccak, start, w, w', ledger, key, o.branch + [o.events]);
    RemainingOk(keccak, start, w, w', open, {key});
  }

  lemma StepOk(keccak: Hasher, start: Simple, n: FullNode, opts: LayerRuns.Retention, s: Step)
    requires Hashes(keccak) && LayerRuns.Sensible(opts) && NodeOk(keccak, start, n, opts) && Possible(keccak, n, s)
    ensures NodeOk(keccak, start, Next(keccak, start, n, opts, s), opts)
  {
    match s
    case Tend(step) => TendOk(keccak, start, n, opts, step);
    case Begin(id, parent) => BeginOk(keccak, start, n, opts, id, parent);
    case Happen(id, e) => HappenedOk(keccak, start, n, opts, id, e);
    case Commit(id, key) => CommitOk(keccak, start, n, opts, id, key);
  }

  // ------------------------------------------------------------------ whole runs

  ghost function Run(keccak: Hasher, start: Simple, n: FullNode, opts: LayerRuns.Retention, steps: seq<Step>): FullNode
    decreases |steps|
  {
    if steps == [] then n else Run(keccak, start, Next(keccak, start, n, opts, steps[0]), opts, steps[1..])
  }

  ghost predicate AllPossible(keccak: Hasher, start: Simple, n: FullNode, opts: LayerRuns.Retention, steps: seq<Step>)
    decreases |steps|
  {
    steps == [] ||
    (Possible(keccak, n, steps[0]) &&
     AllPossible(keccak, start, Next(keccak, start, n, opts, steps[0]), opts, steps[1..]))
  }

  /**
   Whatever a node does, every live state shows what replaying the events of the blocks on its branch on a plain account
   map gives, and every invariant holds.
   */
  lemma {:induction false} RunOk(keccak: Hasher, start: Simple, n: FullNode, opts: LayerRuns.Retention,
                                 steps: seq<Step>)
    requires Hashes(keccak) && LayerRuns.Sensible(opts) && NodeOk(keccak, start, n, opts)
    requires AllPossible(keccak, start, n, opts, steps)
    ensures NodeOk(keccak, start, Run(keccak, start, n, opts, steps), opts)
    decreases |steps|
  {
    if steps != [] {
      StepOk(keccak, start, n, opts, steps[0]);
      RunOk(keccak, start, Next(keccak, start, n, opts, steps[0]), opts, steps[1..]);
    }
  }

  // ----------------------------------------------------------------- the genesis

  /** The allocation as a plain account map. */
  function Allocated(keccak: Hasher, alloc: Genesis.Alloc): Simple {
    Simple((a: Address) => Genesis.GenesisShown(keccak, alloc, a),
           (a: Address, k: Hash) => Genesis.GenesisSlot(alloc, a, k),
           {}, NO_TRANSIENT, {}, {}, {}, [], 0)
  }

  function FirstNode(log: LayerLog): FullNode {
    FullNode(Genesis.FirstWorld(log), map[KeyOf(log) := []], map[])
  }

  lemma FirstNodeOk(keccak: Hasher, alloc: Genesis.Alloc, log: LayerLog, opts: LayerRuns.Retention)
    requires Genesis.FromGenesis(keccak, alloc, log)
    ensures NodeOk(keccak, Allocated(keccak, alloc), FirstNode(log), opts)
  {
    var w, start := Genesis.FirstWorld(log), Allocated(keccak, alloc);
    Genesis.FirstWorldSafe(keccak, alloc, log, opts);
    FirstStateShows(keccak, alloc, log);
    assert forall k :: LayerRuns.LiveKey(w, k) ==> k == KeyOf(log);
    assert ShowsBranch(keccak, start, w, FirstNode(log).ledger, KeyOf(log));
  }

  lemma FirstStateShows(keccak: Hasher, alloc: Genesis.Alloc, log: LayerLog)
    requires Genesis.FromGenesis(keccak, alloc, log)
    ensures var w := Genesis.FirstWorld(log);
            Linked(w) && LayerRuns.LiveKey(w, KeyOf(log)) &&
              Shows(LayerRuns.KeyView(w, KeyOf(log)), Allocated(keccak, alloc))
  {
    Genesis.FirstWorldShows(keccak, alloc, log, 0, 0);
    var u := LayerRuns.KeyView(Genesis.FirstWorld(log), KeyOf(log));
    forall a: Address ensures AtRest(u, a) == Allocated(keccak, alloc).shown(a) {
      FirstStateShowsAt(keccak, alloc, log, u, a, 0);
    }
    forall a: Address, k: Hash ensures PlainSlot(u, a, k) == Allocated(keccak, alloc).slots(a, k) {
      FirstStateShowsAt(keccak, alloc, log, u, a, k);
    }
  }

  lemma FirstStateShowsAt(keccak: Hasher, alloc: Genesis.Alloc, log: LayerLog, u: View, a: Address, k: Hash)
    requires Genesis.FromGenesis(keccak, alloc, log) && Linked(Genesis.FirstWorld(log))
    requires LayerRuns.LiveKey(Genesis.FirstWorld(log), KeyOf(log))
    requires u == LayerRuns.KeyView(Genesis.FirstWorld(log), KeyOf(log))
    ensures AtRest(u, a) == Allocated(keccak, alloc).shown(a)
    ensures PlainSlot(u, a, k) == Allocated(keccak, alloc).slots(a, k)
  {
    Genesis.FirstWorldShows(keccak, alloc, log, a, k);
  }

  /** From its genesis on, whatever a node does, every live state shows its branch replayed on the allocation. */
  lemma NodeShowsBranches(keccak: Hasher, alloc: Genesis.Alloc, log: LayerLog, opts: LayerRuns.Retention,
                          steps: seq<Step>)
    requires Genesis.FromGenesis(keccak, alloc, log) && LayerRuns.Sensible(opts)
    requires AllPossible(keccak, Allocated(keccak, alloc), FirstNode(log), opts, steps)
    ensures var n := Run(keccak, Allocated(keccak, alloc), FirstNode(log), opts, steps);
            && LayerRuns.Safe(keccak, n.world, opts)
            && Agreed(keccak, Allocated(keccak, alloc), n.world, n.ledger)
  {
    FirstNodeOk(keccak, alloc, log, opts);
    RunOk(keccak, Allocated(keccak, alloc), FirstNode(log), opts, steps);
  }

  // ------------------------------------------------- destroyed and created again

  predicate BlockWrites(events: seq<Event>, a: Address, k: Hash) {
    exists i :: 0 <= i < |events| && WritesSlot(events[i], a, k)
  }

  lemma {:induction false} ZeroThrough(keccak: Hasher, p: SimpleBlock, events: seq<Event>, a: Address, k: Hash)
    requires ZeroAt(p.state, a, k) && !BlockWrites(events, a, k)
    ensures ZeroAt(SimpleBlockRun(keccak, p, events).state, a, k)
    decreases |events|
  {
    if events != [] {
      assert !WritesSlot(events[0], a, k);
      forall i | 0 <= i < |events| - 1 ensures !WritesSlot(events[1..][i], a, k) {
        assert events[1..][i] == events[i + 1];
      }
      ZeroStays(keccak, p, events[0], a, k);
      ZeroThrough(keccak, SimpleBlockNext(keccak, p, events[0]), events[1..], a, k);
    }
  }

  lemma {:induction false} ZeroThroughBlocks(keccak: Hasher, start: Simple, before: Branch, after: Branch, a: Address,
                                             k: Hash)
    requires Replay(keccak, start, before).slots(a, k) == ZERO_HASH
    requires forall i :: 0 <= i < |after| ==> !BlockWrites(after[i], a, k)
    ensures Replay(keccak, start, before + after).slots(a, k) == ZERO_HASH
    decreases |after|
  {
    if after == [] {
      assert before + after == before;
    } else {
      var less, last := after[..|after| - 1], after[|after| - 1];
      assert before + after == before + less + [last];
      ZeroThroughBlocks(keccak, start, before, less, a, k);
      ReplayOneMore(keccak, start, before + less, last);
      assert !BlockWrites(last, a, k);
      ZeroThrough(keccak, FreshBlock(Replay(keccak, start, before + less)), last, a, k);
    }
  }

  lemma {:induction false} RunTwice(keccak: Hasher, p: SimpleBlock, first: seq<Event>, second: seq<Event>)
    ensures SimpleBlockRun(keccak, p, first + second) ==
            SimpleBlockRun(keccak, SimpleBlockRun(keccak, p, first), second)
    decreases |first|
  {
    if first == [] {
      assert first + second == second;
    } else {
      assert (first + second)[1..] == first[1..] + second;
      RunTwice(keccak, SimpleBlockNext(keccak, p, first[0]), first[1..], second);
    }
  }

  /** The block's i-th event ends a transaction that leaves the account destroyed, or deletes it for being empty. */
  predicate DestroysAt(keccak: Hasher, p: Simple, events: seq<Event>, i: nat, a: Address) {
    i < |events| && events[i].Finalise? &&
      IsGone(SimpleBlockRun(keccak, FreshBlock(p), events[..i]).state.now, events[i].deleteEmpty, a)
  }

  lemma ZeroAfterDestruction(keccak: Hasher, p: Simple, events: seq<Event>, i: nat, a: Address, k: Hash)
    requires DestroysAt(keccak, p, events, i, a) && !BlockWrites(events[i + 1..], a, k)
    ensures SimpleBlockRun(keccak, FreshBlock(p), events).state.now.slots(a, k) == ZERO_HASH
  {
    var q := SimpleBlockRun(keccak, FreshBlock(p), events[..i]);
    assert events == events[..i] + ([events[i]] + events[i + 1..]);
    assert ([events[i]] + events[i + 1..])[1..] == events[i + 1..];
    RunTwice(keccak, FreshBlock(p), events[..i], [events[i]] + events[i + 1..]);
    DestroyedIsZero(keccak, q, events[i].deleteEmpty, events[i].order, a, k);
    ZeroThrough(keccak, SimpleBlockNext(keccak, q, events[i]), events[i + 1..], a, k);
  }

  /**
   Freshness over a node's whole life: when some block on a live state's branch destroyed an account, then every slot of
   that account reads zero in that state unless it has been written since, in that block or in any later one, however
   often the account was created and destroyed again, and however many blocks were pruned or swept.
   */
  lemma FreshAfterDestruction(keccak: Hasher, start: Simple, n: FullNode, opts: LayerRuns.Retention, state: StateKey,
                              before: Branch, events: seq<Event>, i: nat, after: Branch, a: Address, k: Hash)
    requires NodeOk(keccak, start, n, opts) && LayerRuns.LiveKey(n.world, state)
    requires state in n.ledger && n.ledger[state] == before + [events] + after
    requires DestroysAt(keccak, Replay(keccak, start, before), events, i, a)
    requires !BlockWrites(events[i + 1..], a, k) && forall j :: 0 <= j < |after| ==> !BlockWrites(after[j], a, k)
    ensures PlainSlot(LayerRuns.KeyView(n.world, state), a, k) == ZERO_HASH
  {
    ReplayOneMore(keccak, start, before, events);
    ZeroAfterDestruction(keccak, Replay(keccak, start, before), events, i, a, k);
    ZeroThroughBlocks(keccak, start, before + [events], after, a, k);
    assert ShowsBranch(keccak, start, n.world, n.ledger, state);
  }
}
