/**
 Whole blocks, from a live layer to the layer they commit: the new layer shows the plain accounts that the block's
 transactions leave, and the layered store accepts it.
 */
module Commits {
  import opened Types
  import opened Views
  import opened Accounts
  import opened Journal
  import opened OpMeaning
  import opened SimpleState
  import opened Overlays
  import opened Transactions
  import opened Blocks
  import opened LayerTree
  import LayerRuns
  import RevertRuns
  import Reverts

  // -------------------------------------------------------------- whole blocks

  /** The plain state a block starts from, on a parent that shows p. */
  function Fresh(p: Simple): Simple {
    Simple(p.shown, p.slots, {}, NO_TRANSIENT, {}, {}, {}, [], 0)
  }

  function FreshBlock(p: Simple): SimpleBlock {
    SimpleBlock(Stamp(ZERO_HASH, -1, 0), Saving(Fresh(p), map[], 0, false), map[])
  }

  /** The view shows the plain state, of every account and slot. */
  ghost predicate Shows(u: View, p: Simple) {
    && (forall a: Address :: AtRest(u, a) == p.shown(a))
    && (forall a: Address, k: Hash :: PlainSlot(u, a, k) == p.slots(a, k))
  }

  lemma EmptyOverlayShows(parent: View, a: Address, k: Hash)
    ensures AtRest(ViewOf(EMPTY_OVERLAY, parent), a) == AtRest(parent, a)
    ensures PlainSlot(ViewOf(EMPTY_OVERLAY, parent), a, k) == PlainSlot(parent, a, k)
  {
    var v := parent.acct(a).version;
    assert ViewOf(EMPTY_OVERLAY, parent).slot(a, v, k) ==
           SlotOver(LogOf(EMPTY_OVERLAY, NO_KEY), a, v, k, parent.slot(a, v, k));
  }

  lemma NewBlockOngoing(keccak: Hasher, parent: View)
    requires Hashes(keccak) && ViewOk(keccak, parent)
    ensures Ongoing(BlockEnv(keccak, parent, NEW_BLOCK), EMPTY_OVERLAY, EMPTY_CORE)
  {
    EmptyOverlayOk(keccak, parent);
    EnvForOk(keccak, EMPTY_OVERLAY, parent, ZERO_HASH, -1);
  }

  /** A new block shows its parent. */
  lemma NewBlockAgrees(keccak: Hasher, parent: View, p: Simple)
    requires Hashes(keccak) && ViewOk(keccak, parent) && Shows(parent, p)
    ensures Agree(keccak, parent, NEW_BLOCK, FreshBlock(p))
  {
    var env, c, q := BlockEnv(keccak, parent, NEW_BLOCK), EMPTY_CORE, Fresh(p);
    NewBlockOngoing(keccak, parent);
    assert Cleared(c) == c;
    forall a: Address, k: Hash
      ensures Show(env, c, a) == q.shown(a) && RevertRuns.GetState(env, c, a, k) == q.slots(a, k)
    {
      UntouchedShows(env, EMPTY_OVERLAY, c, a, k);
      EmptyOverlayShows(parent, a, k);
    }
    EndedSimulates(env, c, 0, q);
  }

  ghost predicate AllLawful(keccak: Hasher, p: SimpleBlock, events: seq<Event>)
    decreases |events|
  {
    events == [] ||
    (Lawful(keccak, p, events[0]) && AllLawful(keccak, SimpleBlockNext(keccak, p, events[0]), events[1..]))
  }

  function SimpleBlockRun(keccak: Hasher, p: SimpleBlock, events: seq<Event>): SimpleBlock
    decreases |events|
  {
    if events == [] then p else SimpleBlockRun(keccak, SimpleBlockNext(keccak, p, events[0]), events[1..])
  }

  /** The block after these events, and the plain block after them, agree. */
  ghost function BlockRun(keccak: Hasher, parent: View, b: Block, p: SimpleBlock, events: seq<Event>): (b': Block)
    requires Agree(keccak, parent, b, p) && AllLawful(keccak, p, events)
    ensures Agree(keccak, parent, b', SimpleBlockRun(keccak, p, events))
    decreases |events|
  {
    if events == [] then b
    else
      EventAgrees(keccak, parent, b, p, events[0]);
      BlockRun(keccak, parent, BlockNext(keccak, parent, b, events[0]), SimpleBlockNext(keccak, p, events[0]),
               events[1..])
  }

  // ---------------------------------------------------------------------- logs

  predicate Resumes(e: Event, txHash: Hash) {
    e.SetTxContext? && e.txHash == txHash
  }

  predicate NeverResumes(events: seq<Event>, txHash: Hash) {
    forall e :: e in events ==> !Resumes(e, txHash)
  }

  lemma {:induction false} LogsStay(keccak: Hasher, p: SimpleBlock, events: seq<Event>, txHash: Hash)
    requires p.stamp.txHash != txHash && NeverResumes(events, txHash)
    ensures LogsOf(SimpleBlockRun(keccak, p, events), txHash) == LogsOf(p, txHash)
    decreases |events|
  {
    if events != [] {
      assert events[0] in events;
      LogsStay(keccak, SimpleBlockNext(keccak, p, events[0]), events[1..], txHash);
    }
  }

  /** The events between the end of a transaction and the next one's context, and whatever follows in the block. */
  function GoingOn(deleteEmpty: bool, order: seq<Address>, next: Event, events: seq<Event>): seq<Event> {
    [Event.Finalise(deleteEmpty, order), next] + events
  }

  /** For the rest of the block GetLogs answers, for a finished transaction, exactly the logs it ended with. */
  lemma LogsKept(keccak: Hasher, parent: View, b: Block, p: SimpleBlock, deleteEmpty: bool, order: seq<Address>,
                 next: Event, events: seq<Event>)
    requires Agree(keccak, parent, b, p) && AllLawful(keccak, p, GoingOn(deleteEmpty, order, next, events))
    requires next.SetTxContext? && next.txHash != b.txHash && NeverResumes(events, b.txHash)
    ensures GetLogs(BlockRun(keccak, parent, b, p, GoingOn(deleteEmpty, order, next, events)), b.txHash) ==
            b.state.core.logs
  {
    var all := GoingOn(deleteEmpty, order, next, events);
    LogsAgree(keccak, parent, b, p, b.txHash);
    LogsAgree(keccak, parent, BlockRun(keccak, parent, b, p, all), SimpleBlockRun(keccak, p, all), b.txHash);
    TwoEvents(keccak, p, all);
    LogsStay(keccak, SimpleBlockNext(keccak, SimpleBlockNext(keccak, p, all[0]), next), events, b.txHash);
  }

  lemma TwoEvents(keccak: Hasher, p: SimpleBlock, all: seq<Event>)
    requires |all| >= 2
    ensures SimpleBlockRun(keccak, p, all) ==
            SimpleBlockRun(keccak, SimpleBlockNext(keccak, SimpleBlockNext(keccak, p, all[0]), all[1]), all[2..])
  {
    assert all[1..][1..] == all[2..];
  }

  /** GetLogs answers throughout a block as a plain map from transactions to logs does. */
  lemma BlockLogs(keccak: Hasher, parent: View, b: Block, p: SimpleBlock, events: seq<Event>, txHash: Hash)
    requires Agree(keccak, parent, b, p) && AllLawful(keccak, p, events)
    ensures GetLogs(BlockRun(keccak, parent, b, p, events), txHash) == LogsOf(SimpleBlockRun(keccak, p, events), txHash)
  {
    LogsAgree(keccak, parent, BlockRun(keccak, parent, b, p, events), SimpleBlockRun(keccak, p, events), txHash);
  }

  // -------------------------------------------------------------------- commit

  /** Views that agree on what is live show the same accounts at rest. */
  lemma LiveEqAtRest(u: View, w: View, a: Address, k: Hash)
    requires LiveEq(u, w)
    ensures AtRest(u, a) == AtRest(w, a) && PlainSlot(u, a, k) == PlainSlot(w, a, k)
  {
    LiveEqIsPlainEq(u, w);
    assert PlainCode(u, a) == PlainCode(w, a);
  }

  /** The log of an overlay fits the parent as it is at the time of the commit. */
  lemma LogFitsNow(keccak: Hasher, o: Overlay, parent: View, now: View, key: StateKey)
    requires OverlayOk(keccak, o, parent) && LiveEq(parent, now)
    ensures LogFits(keccak, LogOf(o, key), now)
    ensures LiveEq(ViewOf(o, parent), Over(LogOf(o, key), now))
  {
    KeyIsFree(keccak, o, parent, key);
    LogFitsLiveEq(keccak, LogOf(o, key), parent, now);
    OverLiveEq(keccak, LogOf(o, key), parent, now);
    LiveEqTransitive(ViewOf(o, parent), Over(LogOf(o, key), parent), Over(LogOf(o, key), now));
  }

  lemma FinishedShowsAt(keccak: Hasher, parent: View, b: Block, p: SimpleBlock, w: View, a: Address, k: Hash)
    requires Agree(keccak, parent, b, p) && b.state.core.dirtyAccounts == map[] && LiveEq(ViewOf(b.overlay, parent), w)
    ensures AtRest(w, a) == p.state.now.shown(a) && PlainSlot(w, a, k) == p.state.now.slots(a, k)
  {
    var env, c := BlockEnv(keccak, parent, b), b.state.core;
    UntouchedShows(env, b.overlay, c, a, k);
    LiveEqAtRest(ViewOf(b.overlay, parent), w, a, k);
    assert Rep(env, c, p.state.now);
    assert Show(env, c, a) == p.state.now.shown(a) && RevertRuns.GetState(env, c, a, k) == p.state.now.slots(a, k);
  }

  lemma FinishedShows(keccak: Hasher, parent: View, b: Block, p: SimpleBlock, w: View)
    requires Agree(keccak, parent, b, p) && b.state.core.dirtyAccounts == map[] && LiveEq(ViewOf(b.overlay, parent), w)
    ensures Shows(w, p.state.now)
  {
    forall a: Address ensures AtRest(w, a) == p.state.now.shown(a) { FinishedShowsAt(keccak, parent, b, p, w, a, 0); }
    forall a: Address, k: Hash ensures PlainSlot(w, a, k) == p.state.now.slots(a, k) {
      FinishedShowsAt(keccak, parent, b, p, w, a, k);
    }
  }

  lemma KeyIsLive(w: World, key: StateKey)
    requires ArchiveOk(w)
    ensures Has(w.archive, key) <==> LayerRuns.LiveKey(w, key)
  {
  }

  /**
   The refinement of a block: when a block that ran lawfully on a live state and is finalised commits, the archive
   refuses it exactly if its key is live. Otherwise the new layer shows the plain state of the simple machine, every
   other state that stays live shows what it showed, and those that stay are those the options retain.
   */
  lemma BlockBecomesLayer(keccak: Hasher, w: World, opts: LayerRuns.Retention, p: StateKey, parent: View, b: Block,
                          s: SimpleBlock, key: StateKey, log: LayerLog, w': World)
    requires Hashes(keccak) && LayerRuns.Sensible(opts) && LayerRuns.Safe(keccak, w, opts) && LayerRuns.LiveKey(w, p)
    requires LiveEq(parent, LayerRuns.KeyView(w, p))
    requires Agree(keccak, parent, b, s) && b.state.core.dirtyAccounts == map[]
    requires key.height == p.height + 1
    requires log == LogOf(b.overlay, key) && w' == LayerRuns.CommitStep(w, opts, p, log)
    ensures LayerRuns.Safe(keccak, w', opts) && (LayerRuns.LiveKey(w, key) ==> w' == w)
    ensures !LayerRuns.LiveKey(w, key) ==>
              && LayerRuns.LiveKey(w', key) && Shows(LayerRuns.KeyView(w', key), s.state.now)
              && LayerRuns.Retains(w, opts, log, w')
              && forall j :: LayerRuns.LiveKey(w', j) && j != key ==>
                   LayerRuns.LiveKey(w, j) && LiveEq(LayerRuns.KeyView(w, j), LayerRuns.KeyView(w', j))
  {
    assert KeyOf(log) == key;
    KeyIsLive(w, key);
    if !LayerRuns.LiveKey(w, key) { NewBlockBecomesLayer(keccak, w, opts, p, parent, b, s, key, log, w'); }
  }

  lemma NewBlockBecomesLayer(keccak: Hasher, w: World, opts: LayerRuns.Retention, p: StateKey, parent: View, b: Block,
                             s: SimpleBlock, key: StateKey, log: LayerLog, w': World)
    requires Hashes(keccak) && LayerRuns.Sensible(opts) && LayerRuns.Safe(keccak, w, opts) && LayerRuns.LiveKey(w, p)
    requires LiveEq(parent, LayerRuns.KeyView(w, p))
    requires Agree(keccak, parent, b, s) && b.state.core.dirtyAccounts == map[]
    requires key.height == p.height + 1 && !Has(w.archive, key)
    requires log == LogOf(b.overlay, key) && w' == LayerRuns.CommitStep(w, opts, p, log)
    ensures LayerRuns.Safe(keccak, w', opts) && LayerRuns.LiveKey(w', key) && LayerRuns.Retains(w, opts, log, w')
    ensures Shows(LayerRuns.KeyView(w', key), s.state.now)
    ensures forall j :: LayerRuns.LiveKey(w', j) && j != key ==>
              LayerRuns.LiveKey(w, j) && LiveEq(LayerRuns.KeyView(w, j), LayerRuns.KeyView(w', j))
  {
    var now := LayerRuns.KeyView(w, p);
    OverlayFits(keccak, parent, b, s);
    LogFitsNow(keccak, b.overlay, parent, now, key);
    assert KeyOf(log) == key;
    LayerRuns.CommitOk(keccak, w, opts, p, log);
    CommittedShows(keccak, parent, b, s, Over(log, now), LayerRuns.KeyView(w', key));
  }

  lemma OverlayFits(keccak: Hasher, parent: View, b: Block, s: SimpleBlock)
    requires Agree(keccak, parent, b, s)
    ensures OverlayOk(keccak, b.overlay, parent)
  {
  }

  lemma CommittedShows(keccak: Hasher, parent: View, b: Block, s: SimpleBlock, u: View, v: View)
    requires Agree(keccak, parent, b, s) && b.state.core.dirtyAccounts == map[]
    requires LiveEq(ViewOf(b.overlay, parent), u) && LiveEq(u, v)
    ensures Shows(v, s.state.now)
  {
    LiveEqTransitive(ViewOf(b.overlay, parent), u, v);
    FinishedShows(keccak, parent, b, s, v);
  }

  // ------------------------------------------------- destroyed and created again

  /** The slot is zero, and zero in everything a revert could restore. */
  predicate ZeroAt(p: Saving, a: Address, k: Hash) {
    p.now.slots(a, k) == ZERO_HASH && forall id :: id in p.saved ==> p.saved[id].was.slots(a, k) == ZERO_HASH
  }

  predicate WritesSlot(e: Event, a: Address, k: Hash) {
    e.Run? && e.step.Perform? && e.step.op.SetStateOp? && e.step.op.addr == a && e.step.op.key == k
  }

  /** The end of a transaction that destroys an account, or deletes it for being empty, zeroes all of its slots. */
  lemma DestroyedIsZero(keccak: Hasher, p: SimpleBlock, deleteEmpty: bool, order: seq<Address>, a: Address, k: Hash)
    requires IsGone(p.state.now, deleteEmpty, a)
    ensures ZeroAt(SimpleBlockNext(keccak, p, Finalise(deleteEmpty, order)).state, a, k)
  {
    EndedAt(p.state.now, deleteEmpty, a, k);
  }

  lemma {:induction false} WarmingKeepsSlots(keccak: Hasher, stamp: Stamp, p: Saving, ops: seq<Op>, a: Address, k: Hash)
    requires ZeroAt(p, a, k) && forall i :: 0 <= i < |ops| ==> Warms(ops[i])
    ensures ZeroAt(DoneAll(keccak, stamp, p, ops), a, k)
    decreases |ops|
  {
    if ops != [] {
      assert Warms(ops[0]);
      RunKeepsZero(keccak, stamp, p, RevertRuns.Perform(ops[0]), a, k);
      WarmingKeepsSlots(keccak, stamp, SimpleNext(keccak, stamp, p, RevertRuns.Perform(ops[0])), ops[1..], a, k);
    }
  }

  lemma RunKeepsZero(keccak: Hasher, stamp: Stamp, p: Saving, step: RevertRuns.Step, a: Address, k: Hash)
    requires ZeroAt(p, a, k) && !WritesSlot(Run(step), a, k)
    ensures ZeroAt(SimpleNext(keccak, stamp, p, step), a, k)
  {
    if step.Perform? {
      forall id | id in p.saved ensures Noted(keccak, p.now, p.saved[id], step.op).was.slots(a, k) == ZERO_HASH {
        assert p.saved[id].was.slots(a, k) == ZERO_HASH;
      }
    }
  }

  lemma ZeroStays(keccak: Hasher, p: SimpleBlock, e: Event, a: Address, k: Hash)
    requires ZeroAt(p.state, a, k) && !WritesSlot(e, a, k)
    ensures ZeroAt(SimpleBlockNext(keccak, p, e).state, a, k)
  {
    if e.Run? {
      RunKeepsZero(keccak, p.stamp, p.state, e.step, a, k);
    } else if e.Prepare? && e.warmed.Some? {
      WarmingKeepsSlots(keccak, p.stamp, p.state.(now := p.state.now.(warm := {}, warmSlots := {})),
                        WarmOps(e.warmed.value), a, k);
    }
  }

  /**
   Freshness: once an account's slots are zero, as after its destruction, a slot reads zero for the rest of the block
   until it is written, whatever happens to the account, its creation and any revert included.
   */
  lemma {:induction false} ZeroUntilWritten(keccak: Hasher, parent: View, b: Block, p: SimpleBlock, events: seq<Event>,
                                            a: Address, k: Hash)
    requires Agree(keccak, parent, b, p) && AllLawful(keccak, p, events)
    requires ZeroAt(p.state, a, k) && forall i :: 0 <= i < |events| ==> !WritesSlot(events[i], a, k)
    ensures var b' := BlockRun(keccak, parent, b, p, events);
            RevertRuns.GetState(BlockEnv(keccak, parent, b'), b'.state.core, a, k) == ZERO_HASH
    decreases |events|
  {
    if events == [] {
      assert Rep(BlockEnv(keccak, parent, b), b.state.core, p.state.now);
      assert RevertRuns.GetState(BlockEnv(keccak, parent, b), b.state.core, a, k) == p.state.now.slots(a, k);
    } else {
      EventAgrees(keccak, parent, b, p, events[0]);
      assert !WritesSlot(events[0], a, k);
      ZeroStays(keccak, p, events[0], a, k);
      ZeroUntilWritten(keccak, parent, BlockNext(keccak, parent, b, events[0]), SimpleBlockNext(keccak, p, events[0]),
                       events[1..], a, k);
    }
  }

  // ------------------------------------------- what a block reads of its parent

  lemma LoadedInBlock(keccak: Hasher, parent: View, b: Block, s: SimpleBlock, a: Address)
    requires Agree(keccak, parent, b, s)
    ensures var env := BlockEnv(keccak, parent, b);
            && AccountOk(OriginOf(env, a), Loaded(env, b.state.core, a))
            && (Loaded(env, b.state.core, a).dirtyStorage ==> Status(Loaded(env, b.state.core, a)) != NOT_EXISTED)
            && env.load(a) == Load(b.overlay, parent, a) && Status(env.load(a)) != BEING_DELETED
            && OverlayOk(keccak, b.overlay, parent)
  {
    Reverts.LoadedAccountOk(BlockEnv(keccak, parent, b), b.state.core, a);
  }

  /** A slot is only ever looked up below the overlay at a version that is live there. */
  lemma SlotReadsAreLive(keccak: Hasher, parent: View, b: Block, s: SimpleBlock, a: Address)
    requires Agree(keccak, parent, b, s)
    requires Loaded(BlockEnv(keccak, parent, b), b.state.core, a).dirtyStorage
    ensures parent.acct(a).version <= ReadVersion(Loaded(BlockEnv(keccak, parent, b), b.state.core, a))
  {
    LoadedInBlock(keccak, parent, b, s, a);
    ReadVersionGrows(keccak, b.overlay, parent, OriginOf(BlockEnv(keccak, parent, b), a),
                     Loaded(BlockEnv(keccak, parent, b), b.state.core, a));
  }

  lemma ReadVersionGrows(keccak: Hasher, o: Overlay, parent: View, origin: Origin, l: Account)
    requires OverlayOk(keccak, o, parent) && origin.loaded == Load(o, parent, origin.addr)
    requires AccountOk(origin, l) && Status(l) != NOT_EXISTED && Status(origin.loaded) != BEING_DELETED
    ensures parent.acct(origin.addr).version <= ReadVersion(l)
  {
    VersionsGrow(keccak, LogOf(o, NO_KEY), parent, origin.addr);
  }

  /** Code is only ever looked up below the overlay when some account there has it. */
  lemma CodeReadsAreReferenced(keccak: Hasher, parent: View, b: Block, s: SimpleBlock, a: Address)
    requires Agree(keccak, parent, b, s)
    requires var l := Loaded(BlockEnv(keccak, parent, b), b.state.core, a);
             l.codeHash != EMPTY_CODE_HASH && l.knownCode.None?
    ensures Holders(parent, Loaded(BlockEnv(keccak, parent, b), b.state.core, a).codeHash) != {}
  {
    LoadedInBlock(keccak, parent, b, s, a);
    var log, h := LogOf(b.overlay, NO_KEY), Load(b.overlay, parent, a).codeHash;
    assert PreimagesFit(keccak, log, parent);
    assert h !in b.overlay.preimage;
    assert a in log.updatedAccounts ==> log.updatedAccounts[a].codeHash == h;
    assert a !in log.updatedAccounts ==> a in Holders(parent, h);
  }
}
