/** What a node can do: every lawful block can be begun on a live state, run and committed, whatever happened before. */
module Progress {
  import opened Types
  import opened Views
  import opened SimpleState
  import opened Overlays
  import opened Blocks
  import opened Commits
  import opened Nodes
  import LayerRuns

  lemma {:induction false} RunTwiceOver(keccak: Hasher, start: Simple, n: FullNode, opts: LayerRuns.Retention,
                                        first: seq<Step>, second: seq<Step>)
    requires Nodes.AllPossible(keccak, start, n, opts, first)
    requires Nodes.AllPossible(keccak, start, Nodes.Run(keccak, start, n, opts, first), opts, second)
    ensures Nodes.AllPossible(keccak, start, n, opts, first + second)
    ensures Nodes.Run(keccak, start, n, opts, first + second) ==
            Nodes.Run(keccak, start, Nodes.Run(keccak, start, n, opts, first), opts, second)
    decreases |first|
  {
    if first == [] {
      assert first + second == second;
    } else {
      assert (first + second)[1..] == first[1..] + second;
      RunTwiceOver(keccak, start, Nodes.Next(keccak, start, n, opts, first[0]), opts, first[1..], second);
    }
  }

  lemma RunOneStep(keccak: Hasher, start: Simple, n: FullNode, opts: LayerRuns.Retention, s: Step)
    requires Nodes.Possible(keccak, n, s)
    ensures Nodes.AllPossible(keccak, start, n, opts, [s])
    ensures Nodes.Run(keccak, start, n, opts, [s]) == Nodes.Next(keccak, start, n, opts, s)
  {
    assert [s][1..] == [];
    assert Nodes.AllPossible(keccak, start, Nodes.Next(keccak, start, n, opts, s), opts, []);
  }

  // ------------------------------------------------------- a block among others

  function EventOf(id: nat, s: Step): seq<Event> {
    if s.Happen? && s.id == id then [s.event] else []
  }

  /** The events of this block among the steps. */
  function EventsOf(id: nat, steps: seq<Step>): seq<Event>
    decreases |steps|
  {
    if steps == [] then [] else EventOf(id, steps[0]) + EventsOf(id, steps[1..])
  }

  /** The step does not begin the block anew or restart the node, and the parent stays live, as the object it was. */
  ghost predicate Spares(n: FullNode, n': FullNode, id: nat, parent: StateKey, s: Step) {
    (s.Begin? ==> s.id != id) && (s.Tend? ==> !s.step.Restart?) && StillThere(n.world, n'.world, parent)
  }

  ghost predicate AllSpare(keccak: Hasher, start: Simple, n: FullNode, opts: LayerRuns.Retention, id: nat,
                           parent: StateKey, steps: seq<Step>)
    decreases |steps|
  {
    steps == [] ||
    var n' := Nodes.Next(keccak, start, n, opts, steps[0]);
    Spares(n, n', id, parent, steps[0]) && AllSpare(keccak, start, n', opts, id, parent, steps[1..])
  }

  /** The block is still open, on the same parent and branch, and has gone on by these events. */
  ghost predicate GoneOn(keccak: Hasher, n: FullNode, n': FullNode, id: nat, events: seq<Event>) {
    && id in n.open && id in n'.open
    && n'.open[id].parent == n.open[id].parent && n'.open[id].branch == n.open[id].branch
    && n'.open[id].events == n.open[id].events + events
    && n'.open[id].plain == SimpleBlockRun(keccak, n.open[id].plain, events)
  }

  lemma OneEvent(keccak: Hasher, p: SimpleBlock, e: Event)
    ensures SimpleBlockRun(keccak, p, [e]) == SimpleBlockNext(keccak, p, e)
  {
    assert [e][1..] == [];
  }

  lemma StepGoesOn(keccak: Hasher, start: Simple, n: FullNode, opts: LayerRuns.Retention, id: nat, s: Step,
                   n': FullNode)
    requires NodeOk(keccak, start, n, opts) && id in n.open && Nodes.Possible(keccak, n, s)
    requires n' == Nodes.Next(keccak, start, n, opts, s) && Spares(n, n', id, n.open[id].parent, s)
    ensures GoneOn(keccak, n, n', id, EventOf(id, s))
  {
    if s.Happen? {
      HappenGoesOn(keccak, start, n, opts, id, s.id, s.event, n');
    } else {
      OthersLeaveOpen(keccak, start, n, opts, id, s, n');
      Unmoved(keccak, n, n', id);
    }
  }

  lemma Unmoved(keccak: Hasher, n: FullNode, n': FullNode, id: nat)
    requires id in n.open && id in n'.open && n'.open[id] == n.open[id]
    ensures GoneOn(keccak, n, n', id, [])
  {
    assert n.open[id].events + [] == n.open[id].events;
  }

  lemma OthersLeaveOpen(keccak: Hasher, start: Simple, n: FullNode, opts: LayerRuns.Retention, id: nat, s: Step,
                        n': FullNode)
    requires id in n.open && Nodes.Possible(keccak, n, s) && !s.Happen?
    requires n' == Nodes.Next(keccak, start, n, opts, s) && Spares(n, n', id, n.open[id].parent, s)
    ensures id in n'.open && n'.open[id] == n.open[id]
  {
  }

  lemma HappenGoesOn(keccak: Hasher, start: Simple, n: FullNode, opts: LayerRuns.Retention, id: nat, at: nat, e: Event,
                     n': FullNode)
    requires NodeOk(keccak, start, n, opts) && id in n.open && at in n.open && Lawful(keccak, n.open[at].plain, e)
    requires n' == Nodes.Next(keccak, start, n, opts, Happen(at, e))
    ensures GoneOn(keccak, n, n', id, EventOf(id, Happen(at, e)))
  {
    HappenedOk(keccak, start, n, opts, at, e);
    assert n' == n.(open := n.open[at := Happened(keccak, n.open[at], e)]);
    if at == id { OneEvent(keccak, n.open[id].plain, e); } else { Unmoved(keccak, n, n', id); }
  }

  lemma {:induction false} PlainRunOn(keccak: Hasher, p: SimpleBlock, first: seq<Event>, second: seq<Event>)
    ensures SimpleBlockRun(keccak, p, first + second) ==
            SimpleBlockRun(keccak, SimpleBlockRun(keccak, p, first), second)
    decreases |first|
  {
    if first == [] {
      assert first + second == second;
    } else {
      assert (first + second)[1..] == first[1..] + second;
      PlainRunOn(keccak, SimpleBlockNext(keccak, p, first[0]), first[1..], second);
    }
  }

  lemma GoneOnTwice(keccak: Hasher, n: FullNode, n1: FullNode, n2: FullNode, id: nat, first: seq<Event>,
                    second: seq<Event>)
    requires GoneOn(keccak, n, n1, id, first) && GoneOn(keccak, n1, n2, id, second)
    ensures GoneOn(keccak, n, n2, id, first + second)
  {
    PlainRunOn(keccak, n.open[id].plain, first, second);
    assert n.open[id].events + first + second == n.open[id].events + (first + second);
  }

  /**
   Blocks do not disturb each other, and neither does anything else: whatever a node does meanwhile, a block whose
   parent's object stays live has at the end exactly the events that happened in it, in order.
   */
  lemma {:induction false} BlocksApart(keccak: Hasher, start: Simple, n: FullNode, opts: LayerRuns.Retention, id: nat,
                                       steps: seq<Step>)
    requires Hashes(keccak) && LayerRuns.Sensible(opts) && NodeOk(keccak, start, n, opts) && id in n.open
    requires Nodes.AllPossible(keccak, start, n, opts, steps)
    requires AllSpare(keccak, start, n, opts, id, n.open[id].parent, steps)
    ensures GoneOn(keccak, n, Nodes.Run(keccak, start, n, opts, steps), id, EventsOf(id, steps))
    decreases |steps|
  {
    if steps != [] {
      var s, n1 := steps[0], Nodes.Next(keccak, start, n, opts, steps[0]);
      StepOk(keccak, start, n, opts, s);
      StepGoesOn(keccak, start, n, opts, id, s, n1);
      BlocksApart(keccak, start, n1, opts, id, steps[1..]);
      GoneOnTwice(keccak, n, n1, Nodes.Run(keccak, start, n, opts, steps), id, EventOf(id, s),
                  EventsOf(id, steps[1..]));
    }
  }

  // ---------------------------------------------------------------- one block

  function Happenings(id: nat, events: seq<Event>): seq<Step> {
    seq(|events|, i requires 0 <= i < |events| => Happen(id, events[i]))
  }

  function BlockSteps(id: nat, parent: StateKey, events: seq<Event>, key: StateKey): seq<Step> {
    [Begin(id, parent)] + Happenings(id, events) + [Commit(id, key)]
  }

  /** The node differs in the open block only, which has gone on from o by these events. */
  ghost predicate WentOn(keccak: Hasher, n: FullNode, id: nat, o: Open, events: seq<Event>, n': FullNode) {
    && n'.world == n.world && n'.ledger == n.ledger && id in n'.open
    && n'.open[id].parent == o.parent && n'.open[id].branch == o.branch
    && n'.open[id].events == o.events + events && n'.open[id].plain == SimpleBlockRun(keccak, o.plain, events)
  }

  lemma WentOnBefore(keccak: Hasher, n: FullNode, id: nat, o: Open, events: seq<Event>, n1: FullNode, n2: FullNode)
    requires events != [] && n1.world == n.world && n1.ledger == n.ledger && id in n1.open
    requires EventFits(o.block, events[0]) && n1.open[id] == Happened(keccak, o, events[0])
    requires WentOn(keccak, n1, id, n1.open[id], events[1..], n2)
    ensures WentOn(keccak, n, id, o, events, n2)
  {
    assert o.events + [events[0]] + events[1..] == o.events + events;
  }

  lemma FirstHappens(keccak: Hasher, start: Simple, n: FullNode, opts: LayerRuns.Retention, id: nat, events: seq<Event>,
                     n1: FullNode)
    requires NodeOk(keccak, start, n, opts) && id in n.open && events != []
    requires AllLawful(keccak, n.open[id].plain, events)
    requires n1 == Nodes.Next(keccak, start, n, opts, Happen(id, events[0]))
    ensures NodeOk(keccak, start, n1, opts) && n1.world == n.world && n1.ledger == n.ledger && id in n1.open
    ensures EventFits(n.open[id].block, events[0]) && n1.open[id] == Happened(keccak, n.open[id], events[0])
    ensures AllLawful(keccak, n1.open[id].plain, events[1..])
  {
    HappenedOk(keccak, start, n, opts, id, events[0]);
    assert n1 == n.(open := n.open[id := Happened(keccak, n.open[id], events[0])]);
  }

  lemma {:induction false} EventsHappen(keccak: Hasher, start: Simple, n: FullNode, opts: LayerRuns.Retention, id: nat,
                                        events: seq<Event>)
    requires NodeOk(keccak, start, n, opts) && id in n.open && AllLawful(keccak, n.open[id].plain, events)
    ensures Nodes.AllPossible(keccak, start, n, opts, Happenings(id, events))
    ensures var n' := Nodes.Run(keccak, start, n, opts, Happenings(id, events));
            NodeOk(keccak, start, n', opts) && WentOn(keccak, n, id, n.open[id], events, n')
    decreases |events|
  {
    if events != [] {
      var steps, n1 := Happenings(id, events), Nodes.Next(keccak, start, n, opts, Happen(id, events[0]));
      FirstHappens(keccak, start, n, opts, id, events, n1);
      EventsHappen(keccak, start, n1, opts, id, events[1..]);
      assert steps[0] == Happen(id, events[0]) && steps[1..] == Happenings(id, events[1..]);
      WentOnBefore(keccak, n, id, n.open[id], events, n1, Nodes.Run(keccak, start, n, opts, steps));
    }
  }

  /** The block's key is live afterwards, under the branch of its parent and its own events. */
  ghost predicate CommittedAs(n': FullNode, key: StateKey, branch: Branch) {
    LayerRuns.LiveKey(n'.world, key) && key in n'.ledger && n'.ledger[key] == branch
  }

  lemma FinishedCommits(keccak: Hasher, start: Simple, n: FullNode, opts: LayerRuns.Retention, id: nat, key: StateKey)
    requires Hashes(keccak) && LayerRuns.Sensible(opts) && NodeOk(keccak, start, n, opts)
    requires id in n.open && n.open[id].plain.state.now.touched == {}
    requires key.height == n.open[id].parent.height + 1 && !LayerRuns.LiveKey(n.world, key)
    ensures Nodes.Possible(keccak, n, Commit(id, key))
    ensures var n' := Nodes.Next(keccak, start, n, opts, Commit(id, key));
            NodeOk(keccak, start, n', opts) && CommittedAs(n', key, n.open[id].branch + [n.open[id].events])
  {
    var o, n' := n.open[id], Committed(n, opts, id, key);
    Nodes.CommitOk(keccak, start, n, opts, id, key);
    assert OpenOk(keccak, start, n.world, o);
    CommittedWorld(keccak, start, n.world, o, opts, key, LogOf(o.block.overlay, key), n'.world);
  }

  /**
   A block whose events are lawful on the plain state of its parent, and that ends with Finalise, never gets stuck: the
   node can begin it, run it and commit it, and the new state is live and shows what its branch replays to.
   */
  lemma BlockRuns(keccak: Hasher, start: Simple, n: FullNode, opts: LayerRuns.Retention, id: nat, parent: StateKey,
                  events: seq<Event>, key: StateKey)
    requires Hashes(keccak) && LayerRuns.Sensible(opts) && NodeOk(keccak, start, n, opts)
    requires LayerRuns.LiveKey(n.world, parent) && parent in n.ledger
    requires AllLawful(keccak, FreshBlock(Replay(keccak, start, n.ledger[parent])), events)
    requires SimpleBlockRun(keccak, FreshBlock(Replay(keccak, start, n.ledger[parent])), events).state.now.touched == {}
    requires key.height == parent.height + 1 && !LayerRuns.LiveKey(n.world, key)
    ensures Nodes.AllPossible(keccak, start, n, opts, BlockSteps(id, parent, events, key))
    ensures var n' := Nodes.Run(keccak, start, n, opts, BlockSteps(id, parent, events, key));
            NodeOk(keccak, start, n', opts) && CommittedAs(n', key, n.ledger[parent] + [events])
  {
    var n1 := Begun(keccak, start, n, id, parent);
    BeginOk(keccak, start, n, opts, id, parent);
    RunOneStep(keccak, start, n, opts, Begin(id, parent));
    EventsHappen(keccak, start, n1, opts, id, events);
    RunTwiceOver(keccak, start, n, opts, [Begin(id, parent)], Happenings(id, events));
    var n2 := Nodes.Run(keccak, start, n1, opts, Happenings(id, events));
    FinishedCommits(keccak, start, n2, opts, id, key);
    RunOneStep(keccak, start, n2, opts, Commit(id, key));
    RunTwiceOver(keccak, start, n, opts, [Begin(id, parent)] + Happenings(id, events), [Commit(id, key)]);
    assert [] + events == events;
  }
}
