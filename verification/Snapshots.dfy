/** Nested snapshots over the journal, and the proof that a revert is exact up to observation. */
module Snapshots {
  import opened Types
  import opened Accounts
  import opened Journal

  // ------------------------------------------------------ equality of states

  /** Equal up to what has been cached in the dirty accounts. */
  ghost predicate SameCore(env: Env, c: Core, d: Core) {
    && c.dirtyAccounts.Keys == d.dirtyAccounts.Keys
    && (forall addr: Address :: addr in c.dirtyAccounts ==>
          SameAccount(OriginOf(env, addr), c.dirtyAccounts[addr], d.dirtyAccounts[addr]))
    && d == c.(dirtyAccounts := d.dirtyAccounts)
  }

  ghost predicate CoreOk(env: Env, c: Core) {
    forall addr: Address :: addr in c.dirtyAccounts ==> AccountOk(OriginOf(env, addr), c.dirtyAccounts[addr])
  }

  predicate Owned(addresses: map<Address, int>, i: int) {
    i in addresses.Values
  }

  /** The non-negative indices of the access list are a bijection onto its slot sets. */
  ghost predicate AccessOk(addresses: map<Address, int>, slotSets: nat) {
    && (forall addr :: addr in addresses ==> -1 <= addresses[addr] < slotSets)
    && (forall a, b :: a in addresses && b in addresses && a != b && addresses[a] >= 0 ==> addresses[a] != addresses[b])
    && (forall i :: 0 <= i < slotSets ==> Owned(addresses, i))
  }

  /** Between public operations no dirty account is in the state of not existing. */
  ghost predicate Settled(c: Core) {
    && AccessOk(c.accessAddress, |c.accessStorage|)
    && (forall addr: Address :: addr in c.dirtyAccounts ==> Status(c.dirtyAccounts[addr]) != NOT_EXISTED)
  }

  lemma SameCoreReflexive(env: Env, c: Core)
    requires CoreOk(env, c)
    ensures SameCore(env, c, c)
  {
  }

  lemma SameCoreSettled(env: Env, c: Core, d: Core)
    requires SameCore(env, c, d)
    ensures CoreOk(env, c) && CoreOk(env, d) && (Settled(c) <==> Settled(d))
  {
    forall addr: Address | addr in c.dirtyAccounts
      ensures AccountOk(OriginOf(env, addr), c.dirtyAccounts[addr])
      ensures AccountOk(OriginOf(env, addr), d.dirtyAccounts[addr])
      ensures c.dirtyAccounts[addr].version == d.dirtyAccounts[addr].version
    {
      assert SameAccount(OriginOf(env, addr), c.dirtyAccounts[addr], d.dirtyAccounts[addr]);
    }
    assert forall addr: Address :: addr in d.dirtyAccounts <==> addr in c.dirtyAccounts;
  }

  // ------------------------------------------------- undo respects that equality

  ghost predicate FitsCore(env: Env, u: Undo, c: Core) {
    u.OnAccount? ==> u.addr in c.dirtyAccounts && Fits(OriginOf(env, u.addr), u.undo, c.dirtyAccounts[u.addr])
  }

  lemma UndoneSame(env: Env, u: Undo, c: Core, d: Core)
    requires EnvOk(env) && SameCore(env, c, d) && FitsCore(env, u, c)
    ensures FitsCore(env, u, d) && SameCore(env, Undone(u, c), Undone(u, d))
  {
    if u.OnAccount? {
      RevertSame(OriginOf(env, u.addr), u.undo, c.dirtyAccounts[u.addr], d.dirtyAccounts[u.addr]);
      SameDirtyAfter(env, c, d, u.addr, Revert(u.undo, c.dirtyAccounts[u.addr]),
                     Revert(u.undo, d.dirtyAccounts[u.addr]));
    } else if u.Unload? {
      SameDirtyWithout(env, c, d, u.addr);
    } else {
      UndoneFrame(u, c, d.dirtyAccounts);
    }
  }

  lemma UndoneFrame(u: Undo, c: Core, accounts: map<Address, Account>)
    requires !u.OnAccount? && !u.Unload?
    ensures Undone(u, c.(dirtyAccounts := accounts)) == Undone(u, c).(dirtyAccounts := accounts)
    ensures Undone(u, c).dirtyAccounts == c.dirtyAccounts
  {
  }

  lemma SameDirtyAfter(env: Env, c: Core, d: Core, addr: Address, a: Account, b: Account)
    requires SameCore(env, c, d) && SameAccount(OriginOf(env, addr), a, b)
    ensures SameCore(env, c.(dirtyAccounts := c.dirtyAccounts[addr := a]),
                     d.(dirtyAccounts := d.dirtyAccounts[addr := b]))
  {
  }

  lemma SameDirtyWithout(env: Env, c: Core, d: Core, addr: Address)
    requires SameCore(env, c, d)
    ensures SameCore(env, c.(dirtyAccounts := c.dirtyAccounts - {addr}), d.(dirtyAccounts := d.dirtyAccounts - {addr}))
  {
  }

  /** Undoing us from c2 leads back to c, each closure running where it may. */
  ghost predicate Chain(env: Env, c2: Core, us: seq<Undo>, c: Core)
    decreases |us|
  {
    if us == [] then SameCore(env, c2, c)
    else
      var last := us[|us| - 1];
      CoreOk(env, c2) && FitsCore(env, last, c2) && Chain(env, Undone(last, c2), us[..|us| - 1], c)
  }

  lemma {:induction false} ChainUndoes(env: Env, c2: Core, us: seq<Undo>, c: Core)
    requires Chain(env, c2, us, c)
    ensures SameCore(env, UndoAll(c2, us), c)
    decreases |us|
  {
    if us != [] { ChainUndoes(env, Undone(us[|us| - 1], c2), us[..|us| - 1], c); }
  }

  // --------------------------------------------------------------- the journal

  /** A journal entry: the snapshots taken when it was the last one, and its closure. */
  datatype Entry = Entry(marks: set<nat>, undo: Undo)

  function Undos(js: seq<Entry>): seq<Undo> {
    seq(|js|, i requires 0 <= i < |js| => js[i].undo)
  }

  function Unmarked(us: seq<Undo>): seq<Entry> {
    seq(|us|, i requires 0 <= i < |us| => Entry({}, us[i]))
  }

  /** Every closure in the journal may run when its turn comes, and every snapshot was taken between operations. */
  ghost predicate JournalOk(env: Env, c: Core, js: seq<Entry>)
    decreases |js|
  {
    && CoreOk(env, c)
    && (js != [] ==>
          var last := js[|js| - 1];
          && (last.marks != {} ==> Settled(c))
          && FitsCore(env, last.undo, c)
          && JournalOk(env, Undone(last.undo, c), js[..|js| - 1]))
  }

  lemma {:induction false} JournalSame(env: Env, c: Core, d: Core, js: seq<Entry>)
    requires EnvOk(env) && SameCore(env, c, d) && JournalOk(env, c, js)
    ensures JournalOk(env, d, js)
    decreases |js|
  {
    SameCoreSettled(env, c, d);
    if js != [] {
      var last := js[|js| - 1];
      UndoneSame(env, last.undo, c, d);
      JournalSame(env, Undone(last.undo, c), Undone(last.undo, d), js[..|js| - 1]);
    }
  }

  lemma SameCoreSymmetric(env: Env, c: Core, d: Core)
    requires SameCore(env, c, d)
    ensures SameCore(env, d, c)
  {
    forall addr: Address | addr in d.dirtyAccounts
      ensures SameAccount(OriginOf(env, addr), d.dirtyAccounts[addr], c.dirtyAccounts[addr])
    {
      assert SameAccount(OriginOf(env, addr), c.dirtyAccounts[addr], d.dirtyAccounts[addr]);
    }
  }

  lemma {:induction false} JournalExtends(env: Env, c: Core, js: seq<Entry>, c2: Core, us: seq<Undo>)
    requires EnvOk(env) && JournalOk(env, c, js) && Chain(env, c2, us, c)
    ensures JournalOk(env, c2, js + Unmarked(us))
    decreases |us|
  {
    if us == [] {
      assert js + Unmarked(us) == js;
      SameCoreSymmetric(env, c2, c);
      JournalSame(env, c, c2, js);
    } else {
      var last, rest := us[|us| - 1], us[..|us| - 1];
      JournalExtends(env, c, js, Undone(last, c2), rest);
      UnmarkedPush(js, us);
      JournalPush(env, c2, js + Unmarked(rest), last);
    }
  }

  lemma UnmarkedPush(js: seq<Entry>, us: seq<Undo>)
    requires us != []
    ensures js + Unmarked(us) == js + Unmarked(us[..|us| - 1]) + [Entry({}, us[|us| - 1])]
  {
  }

  lemma JournalPush(env: Env, c2: Core, js: seq<Entry>, u: Undo)
    requires CoreOk(env, c2) && FitsCore(env, u, c2) && JournalOk(env, Undone(u, c2), js)
    ensures JournalOk(env, c2, js + [Entry({}, u)])
  {
    assert (js + [Entry({}, u)])[..|js|] == js;
  }

  /** Rewinding to entry i. */
  function Rewound(c: Core, js: seq<Entry>, i: nat): Core
    requires i < |js|
  {
    UndoAll(c, Undos(js[i + 1..]))
  }

  lemma UndosShorter(js: seq<Entry>, i: nat)
    requires i + 1 < |js|
    ensures var us := Undos(js[i + 1..]);
            && us != [] && us[|us| - 1] == js[|js| - 1].undo
            && us[..|us| - 1] == Undos(js[..|js| - 1][i + 1..])
  {
  }

  lemma {:induction false} JournalRewinds(env: Env, c: Core, js: seq<Entry>, i: nat)
    requires JournalOk(env, c, js) && i < |js|
    ensures JournalOk(env, Rewound(c, js, i), js[..i + 1])
    decreases |js|
  {
    if i + 1 == |js| {
      assert js[i + 1..] == [] && js[..i + 1] == js;
    } else {
      UndosShorter(js, i);
      var less := js[..|js| - 1];
      assert less[..i + 1] == js[..i + 1];
      JournalRewinds(env, Undone(js[|js| - 1].undo, c), less, i);
    }
  }

  // ----------------------------------------------------------------- the state

  datatype State = State(core: Core, journals: seq<Entry>, snapshotId: nat)

  ghost predicate MarksOk(s: State) {
    && (forall i, m :: 0 <= i < |s.journals| && m in s.journals[i].marks ==> m < s.snapshotId)
    && (forall i, j, m, n :: 0 <= i < j < |s.journals| && m in s.journals[i].marks && n in s.journals[j].marks ==>
          m < n)
  }

  ghost predicate StateOk(env: Env, s: State) {
    JournalOk(env, s.core, s.journals) && Settled(s.core) && MarksOk(s)
  }

  function Perform(env: Env, s: State, op: Op): State
    requires Enabled(env, s.core, op)
  {
    var (c, us) := Do(env, s.core, op);
    State(c, s.journals + Unmarked(us), s.snapshotId)
  }

  /** Snapshot marks the last entry, after recording an empty one if there is none. */
  function Snapshot(s: State): State {
    var js := if s.journals == [] then [Entry({}, NoUndo)] else s.journals;
    var last := js[|js| - 1];
    State(s.core, js[|js| - 1 := last.(marks := last.marks + {s.snapshotId})], s.snapshotId + 1)
  }

  /** The entry RevertToSnapshot stops at, searching backwards; -1 when it panics. */
  function MarkIndex(js: seq<Entry>, id: nat): (i: int)
    ensures -1 <= i < |js|
    ensures i >= 0 ==> id in js[i].marks
    ensures forall j :: i < j < |js| ==> id !in js[j].marks
    decreases |js|
  {
    if js == [] then -1
    else if id in js[|js| - 1].marks then |js| - 1
    else MarkIndex(js[..|js| - 1], id)
  }

  predicate CanRevert(s: State, id: nat) {
    MarkIndex(s.journals, id) >= 0
  }

  function RevertToSnapshot(s: State, id: nat): State
    requires CanRevert(s, id)
  {
    var i := MarkIndex(s.journals, id);
    State(Rewound(s.core, s.journals, i),
          s.journals[..i] + [s.journals[i].(marks := s.journals[i].marks - {id})],
          s.snapshotId)
  }
}
