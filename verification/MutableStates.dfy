/**
 mutableStateImpl as an object over account objects: every public method does to the abstract state what the value model
 says (worldstate/mutablestate_impl.go). The undo closures hold the account objects they were made on.
 */
module MutableStates {
  import opened Types
  import opened Views
  import opened Accounts
  import opened Journal
  import opened Snapshots
  import opened Reverts
  import opened OpMeaning
  import opened Overlays
  import opened Transactions
  import opened Blocks
  import opened MutableAccounts
  import opened TempCommitted

  /** A recorded closure: on the state itself, or on an account object. */
  datatype Closure = OnState(undo: Undo) | OnObject(acct: MutableAccount, revert: AccountUndo)

  /** The journal struct. */
  datatype Record = Record(marks: set<nat>, closure: Closure)

  function UndoOf(c: Closure): Undo {
    match c
    case OnState(undo) => undo
    case OnObject(acct, revert) => OnAccount(acct.addr, revert)
  }

  function Entries(js: seq<Record>): seq<Entry> {
    seq(|js|, i requires 0 <= i < |js| => Entry(js[i].marks, UndoOf(js[i].closure)))
  }

  lemma EntriesAppend(js: seq<Record>, r: Record)
    ensures Entries(js + [r]) == Entries(js) + [Entry(r.marks, UndoOf(r.closure))]
  {
  }

  /** A closure on an account object runs while that object is the dirty account: nothing recorded later unloads it. */
  ghost predicate Aligned(dirty: map<Address, MutableAccount>, js: seq<Record>) {
    forall i {:trigger js[i]} :: 0 <= i < |js| && js[i].closure.OnObject? ==>
      var acct := js[i].closure.acct;
      && acct.addr in dirty && dirty[acct.addr] == acct
      && !UnloadedAfter(js, i, acct.addr)
  }

  predicate UnloadedAfter(js: seq<Record>, i: nat, addr: Address) {
    exists j :: i < j < |js| && js[j].closure == OnState(Unload(addr))
  }

  lemma AlignedRecord(dirty: map<Address, MutableAccount>, js: seq<Record>, r: Record)
    requires Aligned(dirty, js)
    requires (r.closure.OnObject? ==> r.closure.acct.addr in dirty && dirty[r.closure.acct.addr] == r.closure.acct)
    requires !(r.closure.OnState? && r.closure.undo.Unload?)
    ensures Aligned(dirty, js + [r])
  {
    var more := js + [r];
    forall i | 0 <= i < |more| && more[i].closure.OnObject?
      ensures var acct := more[i].closure.acct;
              acct.addr in dirty && dirty[acct.addr] == acct && !UnloadedAfter(more, i, acct.addr)
    {
      if i < |js| { assert js[i] == more[i]; StillAfter(js, r, i, more[i].closure.acct.addr); }
    }
  }

  lemma StillAfter(js: seq<Record>, r: Record, i: nat, addr: Address)
    requires i < |js| && !UnloadedAfter(js, i, addr) && r.closure != OnState(Unload(addr))
    ensures !UnloadedAfter(js + [r], i, addr)
  {
    assert forall j {:trigger js[j]} :: i < j < |js| ==> (js + [r])[j] == js[j];
  }

  lemma AlignedLoad(dirty: map<Address, MutableAccount>, js: seq<Record>, addr: Address, acct: MutableAccount)
    requires Aligned(dirty, js) && addr !in dirty
    ensures Aligned(dirty[addr := acct], js + [Record({}, OnState(Unload(addr)))])
  {
    var r := Record({}, OnState(Unload(addr)));
    var more := js + [r];
    forall i | 0 <= i < |more| && more[i].closure.OnObject?
      ensures var b := more[i].closure.acct;
              b.addr in dirty && dirty[b.addr] == b && b.addr != addr && !UnloadedAfter(more, i, b.addr)
    {
      assert js[i] == more[i];
      StillAfter(js, r, i, more[i].closure.acct.addr);
    }
  }

  /** Once the last closure has run the others may run when their turn comes. */
  lemma AlignedPop(dirty: map<Address, MutableAccount>, js: seq<Record>)
    requires js != [] && Aligned(dirty, js)
    ensures var u := UndoOf(js[|js| - 1].closure);
            Aligned(if js[|js| - 1].closure.OnState? && u.Unload? then dirty - {u.addr} else dirty, js[..|js| - 1])
  {
    var less, last := js[..|js| - 1], js[|js| - 1].closure;
    forall i | 0 <= i < |less| && less[i].closure.OnObject?
      ensures var acct := less[i].closure.acct;
              && acct.addr in dirty && dirty[acct.addr] == acct && !UnloadedAfter(less, i, acct.addr)
              && last != OnState(Unload(acct.addr))
    {
      var acct := less[i].closure.acct;
      assert js[i] == less[i] && !UnloadedAfter(js, i, acct.addr);
      assert forall j {:trigger less[j]} :: i < j < |less| ==> less[j] == js[j];
      assert js[|js| - 1].closure == last;
    }
  }

  lemma {:induction false} MarkIndexIs(js: seq<Entry>, id: nat, i: int)
    requires -1 <= i < |js| && (i >= 0 ==> id in js[i].marks) && forall j :: i < j < |js| ==> id !in js[j].marks
    ensures MarkIndex(js, id) == i
  {
    var m := MarkIndex(js, id);
    if m >= 0 { assert id in js[m].marks; }
    if i >= 0 { assert id in js[i].marks; }
  }

  /** Running the closure at n after all later ones. */
  lemma OneMoreUndone(c: Core, js: seq<Entry>, n: nat)
    requires n < |js|
    ensures UndoAll(c, Undos(js[n..])) == Undone(js[n].undo, UndoAll(c, Undos(js[n + 1..])))
  {
    assert Undos(js[n..]) == [js[n].undo] + Undos(js[n + 1..]);
    UndoAllConcat(c, [js[n].undo], Undos(js[n + 1..]));
    var rest := UndoAll(c, Undos(js[n + 1..]));
    assert [js[n].undo][..0] == [];
  }

  lemma {:induction false} PerformAllAppend(env: Env, s: State, ops: seq<Op>, op: Op)
    requires (forall i :: 0 <= i < |ops| ==> Warms(ops[i])) && Warms(op)
    ensures forall i :: 0 <= i < |ops + [op]| ==> Warms((ops + [op])[i])
    ensures PerformAll(env, s, ops + [op]) == Perform(env, PerformAll(env, s, ops), op)
    decreases |ops|
  {
    if ops == [] {
      assert ([] + [op])[1..] == [];
    } else {
      assert (ops + [op])[1..] == ops[1..] + [op];
      assert Warms(ops[0]);
      PerformAllAppend(env, Perform(env, s, ops[0]), ops[1..], op);
    }
  }

  lemma PerformOneMore(env: Env, s: State, ops: seq<Op>, i: nat)
    requires i < |ops| && forall j :: 0 <= j < |ops| ==> Warms(ops[j])
    ensures Warms(ops[i]) && PerformAll(env, s, ops[..i + 1]) == Perform(env, PerformAll(env, s, ops[..i]), ops[i])
  {
    assert ops[..i + 1] == ops[..i] + [ops[i]];
    PerformAllAppend(env, s, ops[..i], ops[i]);
  }

  lemma WarmKeepsAccess(env: Env, s: State, op: Op)
    requires Warms(op) && AccessOk(s.core.accessAddress, |s.core.accessStorage|)
    ensures var c := Perform(env, s, op).core; AccessOk(c.accessAddress, |c.accessStorage|)
  {
    PlainOpAccess(env, s.core, op);
  }

  /** The accounts that have been visited are emptied, the others are as they were. */
  ghost predicate EmptiedSome(before: map<Address, Account>, now: map<Address, Account>, todo: set<Address>,
                              deleteEmpty: bool) {
    && now.Keys == before.Keys
    && (forall a {:trigger before[a]} :: a in before ==> Status(before[a]) != NOT_EXISTED)
    && (forall a {:trigger now[a]} :: a in before ==> now[a] == if a in todo then before[a]
                                                                else Emptied(before[a], deleteEmpty))
  }

  lemma EmptiedOneMore(before: map<Address, Account>, now: map<Address, Account>, todo: set<Address>, deleteEmpty: bool,
                       addr: Address)
    requires EmptiedSome(before, now, todo, deleteEmpty) && addr in todo && addr in before
    ensures now[addr] == before[addr] && Status(now[addr]) != NOT_EXISTED
    ensures EmptiedSome(before, now[addr := Emptied(now[addr], deleteEmpty)], todo - {addr}, deleteEmpty)
  {
  }

  lemma EmptiedEveryone(before: map<Address, Account>, now: map<Address, Account>, deleteEmpty: bool)
    requires EmptiedSome(before, now, {}, deleteEmpty)
    ensures now == EmptiedAll(before, deleteEmpty)
  {
  }

  lemma UpdateTwice(m: map<Address, Account>, addr: Address, a: Account, b: Account)
    ensures m[addr := a][addr := b] == m[addr := b]
  {
  }

  /** The state after one account has been written. */
  function Written(env: Env, s: State, addr: Address, a: Account, u: AccountUndo): State {
    var (c, us) := Write(env, s.core, addr, a, u);
    State(c, s.journals + Unmarked(us), s.snapshotId)
  }

  lemma WrittenIs(env: Env, s: State, s2: State, addr: Address, a: Account, u: AccountUndo)
    requires s2.core == s.core.(dirtyAccounts := s.core.dirtyAccounts[addr := a]) && s2.snapshotId == s.snapshotId
    requires s2.journals ==
             s.journals + (if addr in s.core.dirtyAccounts then [] else [Entry({}, Unload(addr))]) +
               [Entry({}, OnAccount(addr, u))]
    ensures s2 == Written(env, s, addr, a, u)
  {
    var us := (if addr in s.core.dirtyAccounts then [] else [Unload(addr)]) + [OnAccount(addr, u)];
    assert Unmarked(us) ==
           (if addr in s.core.dirtyAccounts then [] else [Entry({}, Unload(addr))]) + [Entry({}, OnAccount(addr, u))];
  }

  lemma PerformCreate(env: Env, s: State, addr: Address)
    requires CanCreate(Loaded(env, s.core, addr))
    ensures var (a, u) := Accounts.Create(Loaded(env, s.core, addr));
            Perform(env, s, CreateAccount(addr)) == Written(env, s, addr, a, u)
  {
  }

  lemma PerformBalance(env: Env, s: State, op: Op)
    requires IsBalanceOp(op)
    ensures var a := Loaded(env, s.core, op.addr);
            var (a2, u) := Accounts.SetBalance(a, NewBalance(a, op));
            Perform(env, s, op) == Written(env, s, op.addr, a2, u)
  {
  }

  lemma PerformNonce(env: Env, s: State, addr: Address, nonce: Uint64)
    ensures var (a, u) := Accounts.SetNonce(Loaded(env, s.core, addr), nonce);
            Perform(env, s, SetNonceOp(addr, nonce)) == Written(env, s, addr, a, u)
  {
  }

  lemma PerformCode(env: Env, s: State, addr: Address, code: Code)
    requires CanSetCode(Loaded(env, s.core, addr), env.keccak.hash(code))
    ensures var a := ReadCode(env.parent, Loaded(env, s.core, addr)).0;
            CanSetCode(a, env.keccak.hash(code)) &&
            var (a2, u) := Accounts.SetCode(a, code, env.keccak.hash(code));
            Perform(env, s, SetCodeOp(addr, code)) == Written(env, s, addr, a2, u)
  {
  }

  lemma PerformState(env: Env, s: State, addr: Address, key: Hash, val: Hash)
    ensures var a := ReadSlot(env.parent, addr, Loaded(env, s.core, addr), key).0;
            var (a2, u) := Accounts.SetState(a, key, val);
            Perform(env, s, SetStateOp(addr, key, val)) == Written(env, s, addr, a2, u)
  {
  }

  lemma PerformDestruct(env: Env, s: State, addr: Address)
    requires Status(Loaded(env, s.core, addr)) != NOT_EXISTED
    ensures var (a, u) := Accounts.SelfDestruct(Loaded(env, s.core, addr));
            Perform(env, s, SelfDestructOp(addr)) == Written(env, s, addr, a, u)
  {
  }

  /** SelfDestruct6780 records how to unload the account, and nothing else. */
  lemma PerformDestruct6780(env: Env, s: State, addr: Address)
    requires Status(Loaded(env, s.core, addr)) != NOT_EXISTED
    ensures var a := Loaded(env, s.core, addr);
            var a2 := if addr in s.core.newContracts then Accounts.SelfDestruct(a).0 else a;
            Perform(env, s, SelfDestruct6780(addr)) ==
              State(s.core.(dirtyAccounts := s.core.dirtyAccounts[addr := a2]),
                    s.journals + (if addr in s.core.dirtyAccounts then [] else [Entry({}, Unload(addr))]),
                    s.snapshotId)
  {
    assert Unmarked([Unload(addr)]) == [Entry({}, Unload(addr))];
    assert Unmarked([]) == [];
  }

  /** A caching read changes a dirty account's cache, and nothing when the account is not dirty. */
  lemma PerformRead(env: Env, s: State, op: Op)
    requires op.ReadCodeOp? || op.ReadStateOp?
    ensures var a := Loaded(env, s.core, op.addr);
            var a2 := if op.ReadCodeOp? then ReadCode(env.parent, a).0 else ReadSlot(env.parent, op.addr, a, op.key).0;
            Perform(env, s, op) ==
              if op.addr in s.core.dirtyAccounts
              then s.(core := s.core.(dirtyAccounts := s.core.dirtyAccounts[op.addr := a2]))
              else s
  {
    assert s.journals + Unmarked([]) == s.journals;
  }

  lemma UnmarkedOne(u: Undo)
    ensures Unmarked([u]) == [Entry({}, u)] && Unmarked([]) == []
  {
  }

  lemma PerformTransient(env: Env, s: State, addr: Address, key: Hash, val: Hash)
    ensures var known := addr in s.core.transientState;
            var inner: map<Hash, Hash> := if known then s.core.transientState[addr] else map[];
            Perform(env, s, SetTransientState(addr, key, val)) ==
              State(s.core.(transientState := s.core.transientState[addr := inner[key := val]]),
                    s.journals + (if known then [] else [Entry({}, DropTransient(addr))]) +
                      [Entry({}, if key in inner then RestoreTransient(addr, key, inner[key])
                                 else DeleteTransient(addr, key))],
                    s.snapshotId)
  {
    var us := TransientSlot(s.core, addr, key, val).1;
    assert Unmarked(us) ==
           (if addr in s.core.transientState then [] else [Entry({}, DropTransient(addr))]) + [Entry({}, us[|us| - 1])];
  }

  lemma PerformSlot(env: Env, s: State, addr: Address, slot: Hash, c1: Core, i: nat)
    requires var first := addr !in s.core.accessAddress || s.core.accessAddress[addr] == -1;
             if first then
               && i == |s.core.accessStorage|
               && c1 == s.core.(accessAddress := s.core.accessAddress[addr := i],
                                accessStorage := s.core.accessStorage + [{}])
             else i == s.core.accessAddress[addr] && i < |s.core.accessStorage| && c1 == s.core
    ensures var first := addr !in s.core.accessAddress || s.core.accessAddress[addr] == -1;
            var js := s.journals + (if first then [Entry({}, PopSlots(addr, addr in s.core.accessAddress))] else []);
            Perform(env, s, AddSlotToAccessList(addr, slot)) ==
              if slot in c1.accessStorage[i] then State(c1, js, s.snapshotId)
              else State(c1.(accessStorage := c1.accessStorage[i := c1.accessStorage[i] + {slot}]),
                         js + [Entry({}, ForgetSlot(i, slot))],
                         s.snapshotId)
  {
    var us := AccessSlot(s.core, addr, slot).1;
    var first := addr !in s.core.accessAddress || s.core.accessAddress[addr] == -1;
    assert Unmarked(us) == (if first then [Entry({}, PopSlots(addr, addr in s.core.accessAddress))] else [])
                           + (if slot in c1.accessStorage[i] then [] else [Entry({}, ForgetSlot(i, slot))]);
  }

  class MutableState {
    const committed: TempCommittedState
    var txHash: Hash
    var txIndex: int
    var refund: Uint64
    var logs: seq<Log>
    var dirtyAccounts: map<Address, MutableAccount>
    var transientState: map<Address, map<Hash, Hash>>
    var accessAddress: map<Address, int>
    var accessStorage: seq<set<Hash>>
    var newContracts: set<Address>
    var journals: seq<Record>
    var snapshotId: nat
    /** Every account object that was ever dirty here, and what the dirty ones hold. */
    ghost var objects: set<MutableAccount>
    ghost var values: map<Address, Account>

    ghost function CoreNow(): Core
      reads this
    {
      Core(values, transientState, accessAddress, accessStorage, newContracts, logs, refund)
    }

    ghost function StateNow(): State
      reads this
    {
      State(CoreNow(), Entries(journals), snapshotId)
    }

    ghost function EnvNow(): Env
      reads this, committed
    {
      EnvFor(committed.keccak, committed.State(), committed.parent, txHash, txIndex)
    }

    /** The dirty accounts are different objects, for their own addresses, over this parent. */
    ghost predicate Owned()
      reads this
    {
      forall a :: a in dirtyAccounts ==>
        && dirtyAccounts[a] in objects && dirtyAccounts[a].addr == a
        && dirtyAccounts[a].keccak == committed.keccak && dirtyAccounts[a].parent == committed.parent
    }

    /** Every dirty account holds its value, one perhaps excepted that is being changed. */
    ghost predicate Holding(but: set<Address>)
      requires Owned() && values.Keys == dirtyAccounts.Keys
      reads this, objects
    {
      forall a {:trigger values[a]} {:trigger dirtyAccounts[a]} :: a in dirtyAccounts && a !in but ==>
        values[a] == dirtyAccounts[a].Value()
    }

    ghost predicate Valid()
      reads this, objects
    {
      Owned() && values.Keys == dirtyAccounts.Keys && Holding({}) && Aligned(dirtyAccounts, journals)
    }

    constructor (keccak: Hasher, parent: View)
      ensures Valid() && fresh(committed) && committed.keccak == keccak && committed.parent == parent && objects == {}
      ensures committed.State() == EMPTY_OVERLAY && StateNow() == State(EMPTY_CORE, [], 0)
      ensures txHash == ZERO_HASH && txIndex == -1
    {
      committed := new TempCommittedState(keccak, parent);
      txHash := ZERO_HASH;
      txIndex := -1;
      refund := 0;
      logs := [];
      dirtyAccounts := map[];
      transientState := map[];
      accessAddress := map[];
      accessStorage := [];
      newContracts := {};
      journals := [];
      snapshotId := 0;
      objects := {};
      values := map[];
    }

    // ------------------------------------------------------------- loading

    method RecordJournal(closure: Closure)
      modifies this`journals
      ensures journals == old(journals) + [Record({}, closure)]
      ensures Entries(journals) == old(Entries(journals)) + [Entry({}, UndoOf(closure))]
    {
      EntriesAppend(journals, Record({}, closure));
      journals := journals + [Record({}, closure)];
    }

    /** For reading: the dirty account, or a new object that is not kept. */
    method ReadAccount(addr: Address) returns (acct: MutableAccount)
      requires Valid()
      ensures acct.Value() == Loaded(EnvNow(), CoreNow(), addr)
      ensures acct.keccak == committed.keccak && acct.parent == committed.parent && acct.addr == addr
      ensures if addr in dirtyAccounts then acct == dirtyAccounts[addr] else fresh(acct)
    {
      if addr in dirtyAccounts {
        acct := dirtyAccounts[addr];
      } else {
        acct := committed.GetMutableAccount(addr);
      }
    }

    /** The account is dirty, and may have changed since its value was noted. */
    ghost predicate Opened(acct: MutableAccount)
      reads this, objects
    {
      && Owned() && values.Keys == dirtyAccounts.Keys && Holding({acct.addr}) && Aligned(dirtyAccounts, journals)
      && acct.addr in dirtyAccounts && dirtyAccounts[acct.addr] == acct
    }

    /** What WriteAccount leaves: the account loaded, and how to unload it recorded. */
    ghost predicate LoadedIn(s: State, addr: Address, a: Account)
      reads this
    {
      && CoreNow() == s.core.(dirtyAccounts := s.core.dirtyAccounts[addr := a])
      && Entries(journals) == s.journals + (if addr in s.core.dirtyAccounts then [] else [Entry({}, Unload(addr))])
      && snapshotId == s.snapshotId
    }

    /** Keeps a freshly loaded account. */
    method KeepAccount(acct: MutableAccount)
      requires Valid() && acct.addr !in dirtyAccounts
      requires acct.keccak == committed.keccak && acct.parent == committed.parent
      modifies this`dirtyAccounts, this`journals, this`objects, this`values
      ensures Valid() && objects == old(objects) + {acct} && Opened(acct)
      ensures LoadedIn(old(StateNow()), acct.addr, acct.Value())
    {
      AlignedLoad(dirtyAccounts, journals, acct.addr, acct);
      dirtyAccounts := dirtyAccounts[acct.addr := acct];
      objects := objects + {acct};
      values := values[acct.addr := acct.Value()];
      RecordJournal(OnState(Unload(acct.addr)));
    }

    /** For writing: the object is dirty from now on. */
    method WriteAccount(addr: Address) returns (acct: MutableAccount)
      requires Valid()
      modifies this`dirtyAccounts, this`journals, this`objects, this`values
      ensures Valid() && Opened(acct) && fresh(objects - old(objects)) && acct in objects
      ensures acct.addr == addr && acct.keccak == committed.keccak && acct.parent == committed.parent
      ensures acct.Value() == Loaded(old(EnvNow()), old(CoreNow()), addr)
      ensures LoadedIn(old(StateNow()), addr, acct.Value())
    {
      acct := ReadAccount(addr);
      if addr !in dirtyAccounts {
        KeepAccount(acct);
      } else {
        assert values[addr := acct.Value()] == values;
      }
    }

    /** Notes the value the opened account has now. */
    ghost method NoteValue(acct: MutableAccount)
      requires Opened(acct)
      modifies this`values
      ensures Valid() && values == old(values)[acct.addr := acct.Value()]
    {
      values := values[acct.addr := acct.Value()];
    }

    /** Records what undoes a change to the opened account. */
    method RecordRevert(ghost env: Env, ghost s: State, acct: MutableAccount, revert: AccountUndo)
      requires Opened(acct) && acct.addr in values && LoadedIn(s, acct.addr, values[acct.addr])
      modifies this`journals, this`values
      ensures Valid() && StateNow() == Written(env, s, acct.addr, acct.Value(), revert)
    {
      AlignedRecord(dirtyAccounts, journals, Record({}, OnObject(acct, revert)));
      values := values[acct.addr := acct.Value()];
      RecordJournal(OnObject(acct, revert));
      WrittenIs(env, s, StateNow(), acct.addr, acct.Value(), revert);
    }

    // ---------------------------------------------------------- account operations

    method CreateAccount(addr: Address)
      requires Valid() && Enabled(EnvNow(), CoreNow(), Op.CreateAccount(addr))
      modifies this, objects
      ensures Valid() && fresh(objects - old(objects))
      ensures StateNow() == Perform(old(EnvNow()), old(StateNow()), Op.CreateAccount(addr))
    {
      ghost var env, s := EnvNow(), StateNow();
      PerformCreate(env, s, addr);
      var acct := WriteAccount(addr);
      var revert := acct.Create();
      RecordRevert(env, s, acct, revert);
    }

    method SubBalance(addr: Address, amount: Uint256) returns (original: Uint256)
      requires Valid()
      modifies this, objects
      ensures Valid() && fresh(objects - old(objects))
      ensures StateNow() == Perform(old(EnvNow()), old(StateNow()), Op.SubBalance(addr, amount))
      ensures original == Loaded(old(EnvNow()), old(CoreNow()), addr).balance
    {
      ghost var env, s := EnvNow(), StateNow();
      PerformBalance(env, s, Op.SubBalance(addr, amount));
      var acct := WriteAccount(addr);
      original := acct.balance;
      var revert := acct.SetBalance(Minus(original, amount));
      RecordRevert(env, s, acct, revert);
    }

    method AddBalance(addr: Address, amount: Uint256) returns (original: Uint256)
      requires Valid()
      modifies this, objects
      ensures Valid() && fresh(objects - old(objects))
      ensures StateNow() == Perform(old(EnvNow()), old(StateNow()), Op.AddBalance(addr, amount))
      ensures original == Loaded(old(EnvNow()), old(CoreNow()), addr).balance
    {
      ghost var env, s := EnvNow(), StateNow();
      PerformBalance(env, s, Op.AddBalance(addr, amount));
      var acct := WriteAccount(addr);
      original := acct.balance;
      var revert := acct.SetBalance(Plus(original, amount));
      RecordRevert(env, s, acct, revert);
    }

    method SetBalance(addr: Address, amount: Uint256)
      requires Valid()
      modifies this, objects
      ensures Valid() && fresh(objects - old(objects))
      ensures StateNow() == Perform(old(EnvNow()), old(StateNow()), SetBalanceOp(addr, amount))
    {
      ghost var env, s := EnvNow(), StateNow();
      PerformBalance(env, s, SetBalanceOp(addr, amount));
      var acct := WriteAccount(addr);
      var revert := acct.SetBalance(amount);
      RecordRevert(env, s, acct, revert);
    }

    method SetNonce(addr: Address, nonce: Uint64)
      requires Valid()
      modifies this, objects
      ensures Valid() && fresh(objects - old(objects))
      ensures StateNow() == Perform(old(EnvNow()), old(StateNow()), SetNonceOp(addr, nonce))
    {
      ghost var env, s := EnvNow(), StateNow();
      PerformNonce(env, s, addr, nonce);
      var acct := WriteAccount(addr);
      var revert := acct.SetNonce(nonce);
      RecordRevert(env, s, acct, revert);
    }

    method SetCode(addr: Address, code: Code) returns (previous: Code)
      requires Valid() && Enabled(EnvNow(), CoreNow(), SetCodeOp(addr, code))
      modifies this, objects
      ensures Valid() && fresh(objects - old(objects))
      ensures StateNow() == Perform(old(EnvNow()), old(StateNow()), SetCodeOp(addr, code))
      ensures previous == ReadCode(committed.parent, Loaded(old(EnvNow()), old(CoreNow()), addr)).1
    {
      PerformCode(EnvNow(), StateNow(), addr, code);
      previous := WriteCode(addr, code);
    }

    method WriteCode(addr: Address, code: Code) returns (previous: Code)
      requires Valid() && CanSetCode(Loaded(EnvNow(), CoreNow(), addr), committed.keccak.hash(code))
      modifies this, objects
      ensures Valid() && fresh(objects - old(objects))
      ensures var (a, known) := ReadCode(committed.parent, Loaded(old(EnvNow()), old(CoreNow()), addr));
              && previous == known && CanSetCode(a, committed.keccak.hash(code))
              && var (a2, u) := Accounts.SetCode(a, code, committed.keccak.hash(code));
                 StateNow() == Written(old(EnvNow()), old(StateNow()), addr, a2, u)
    {
      ghost var env, s := EnvNow(), StateNow();
      var acct := WriteAccount(addr);
      previous := acct.Code();
      var revert := acct.SetCode(code);
      RecordRevert(env, s, acct, revert);
    }

    method SetState(addr: Address, key: Hash, val: Hash) returns (previous: Hash)
      requires Valid()
      modifies this, objects
      ensures Valid() && fresh(objects - old(objects))
      ensures StateNow() == Perform(old(EnvNow()), old(StateNow()), SetStateOp(addr, key, val))
      ensures previous == ReadSlot(committed.parent, addr, Loaded(old(EnvNow()), old(CoreNow()), addr), key).1
    {
      ghost var env, s := EnvNow(), StateNow();
      PerformState(env, s, addr, key, val);
      var acct := WriteAccount(addr);
      previous := acct.GetState(key);
      var revert := acct.SetState(key, val);
      RecordRevert(env, s, acct, revert);
    }

    method SelfDestruct(addr: Address) returns (original: Uint256)
      requires Valid() && Enabled(EnvNow(), CoreNow(), SelfDestructOp(addr))
      modifies this, objects
      ensures Valid() && fresh(objects - old(objects))
      ensures StateNow() == Perform(old(EnvNow()), old(StateNow()), SelfDestructOp(addr))
      ensures original == Loaded(old(EnvNow()), old(CoreNow()), addr).balance
    {
      ghost var env, s := EnvNow(), StateNow();
      PerformDestruct(env, s, addr);
      var acct := WriteAccount(addr);
      original := acct.balance;
      var revert := acct.SelfDestruct();
      RecordRevert(env, s, acct, revert);
    }

    /** The closure that SelfDestruct returns is dropped. */
    method SelfDestruct6780(addr: Address) returns (original: Uint256, destructed: bool)
      requires Valid() && Enabled(EnvNow(), CoreNow(), Op.SelfDestruct6780(addr))
      modifies this, objects
      ensures Valid() && fresh(objects - old(objects))
      ensures StateNow() == Perform(old(EnvNow()), old(StateNow()), Op.SelfDestruct6780(addr))
      ensures original == Loaded(old(EnvNow()), old(CoreNow()), addr).balance && destructed == (addr in newContracts)
    {
      PerformDestruct6780(EnvNow(), StateNow(), addr);
      original, destructed := DestructIfNew(addr);
    }

    method DestructIfNew(addr: Address) returns (original: Uint256, destructed: bool)
      requires Valid() && Status(Loaded(EnvNow(), CoreNow(), addr)) != NOT_EXISTED
      modifies this, objects
      ensures Valid() && fresh(objects - old(objects))
      ensures var a := Loaded(old(EnvNow()), old(CoreNow()), addr);
              LoadedIn(old(StateNow()), addr, if destructed then Accounts.SelfDestruct(a).0 else a) &&
                original == a.balance
      ensures destructed == (addr in newContracts)
    {
      var acct := WriteAccount(addr);
      original := acct.balance;
      destructed := addr in newContracts;
      ghost var before := values;
      if destructed {
        var _ := acct.SelfDestruct();
      }
      NoteValue(acct);
      UpdateTwice(old(values), addr, before[addr], acct.Value());
    }

    method GetCode(addr: Address) returns (code: Code)
      requires Valid()
      modifies this`values, objects
      ensures Valid() && objects == old(objects)
      ensures StateNow() == Perform(old(EnvNow()), old(StateNow()), ReadCodeOp(addr))
      ensures code == ReadCode(committed.parent, Loaded(old(EnvNow()), old(CoreNow()), addr)).1
    {
      PerformRead(EnvNow(), StateNow(), ReadCodeOp(addr));
      var acct := ReadAccount(addr);
      code := acct.Code();
      if addr in dirtyAccounts {
        NoteValue(acct);
      }
    }

    method GetState(addr: Address, key: Hash) returns (val: Hash)
      requires Valid()
      modifies this`values, objects
      ensures Valid() && objects == old(objects)
      ensures StateNow() == Perform(old(EnvNow()), old(StateNow()), ReadStateOp(addr, key))
      ensures val == ReadSlot(committed.parent, addr, Loaded(old(EnvNow()), old(CoreNow()), addr), key).1
    {
      PerformRead(EnvNow(), StateNow(), ReadStateOp(addr, key));
      var acct := ReadAccount(addr);
      val := acct.GetState(key);
      if addr in dirtyAccounts {
        NoteValue(acct);
      }
    }

    // ------------------------------------------------------------ other operations

    /** Records a closure on the state itself. */
    method RecordUndo(undo: Undo)
      requires Valid() && !undo.Unload? && !undo.OnAccount?
      modifies this`journals
      ensures Valid() && Entries(journals) == old(Entries(journals)) + [Entry({}, undo)]
    {
      AlignedRecord(dirtyAccounts, journals, Record({}, OnState(undo)));
      RecordJournal(OnState(undo));
    }

    method CreateContract(addr: Address)
      requires Valid()
      modifies this`newContracts, this`journals
      ensures Valid() && StateNow() == Perform(EnvNow(), old(StateNow()), Op.CreateContract(addr))
    {
      UnmarkedOne(ForgetContract(addr));
      if addr !in newContracts {
        newContracts := newContracts + {addr};
        RecordUndo(ForgetContract(addr));
      }
    }

    method SetTransientState(addr: Address, key: Hash, val: Hash)
      requires Valid()
      modifies this`transientState, this`journals
      ensures Valid() && StateNow() == Perform(EnvNow(), old(StateNow()), Op.SetTransientState(addr, key, val))
    {
      PerformTransient(EnvNow(), StateNow(), addr, key, val);
      WriteTransient(addr, key, val);
    }

    method WriteTransient(addr: Address, key: Hash, val: Hash)
      requires Valid()
      modifies this`transientState, this`journals
      ensures Valid()
      ensures var inner: map<Hash, Hash> := if addr in old(transientState) then old(transientState)[addr] else map[];
              && transientState == old(transientState)[addr := inner[key := val]]
              && Entries(journals) ==
                 old(Entries(journals)) +
                   (if addr in old(transientState) then [] else [Entry({}, DropTransient(addr))]) +
                   [Entry({}, if key in inner then RestoreTransient(addr, key, inner[key])
                              else DeleteTransient(addr, key))]
    {
      if addr !in transientState {
        transientState := transientState[addr := map[]];
        RecordUndo(DropTransient(addr));
      }
      var inner: map<Hash, Hash> := transientState[addr];
      transientState := transientState[addr := inner[key := val]];
      if key in inner {
        RecordUndo(RestoreTransient(addr, key, inner[key]));
      } else {
        RecordUndo(DeleteTransient(addr, key));
      }
    }

    method AddRefund(gas: Uint64)
      requires Valid()
      modifies this`refund, this`journals
      ensures Valid() && StateNow() == Perform(EnvNow(), old(StateNow()), Op.AddRefund(gas))
    {
      UnmarkedOne(RestoreRefund(refund));
      var original := refund;
      refund := PlusGas(refund, gas);
      RecordUndo(RestoreRefund(original));
    }

    method SubRefund(gas: Uint64)
      requires Valid() && gas <= refund
      modifies this`refund, this`journals
      ensures Valid() && StateNow() == Perform(EnvNow(), old(StateNow()), Op.SubRefund(gas))
    {
      UnmarkedOne(RestoreRefund(refund));
      var original := refund;
      refund := refund - gas;
      RecordUndo(RestoreRefund(original));
    }

    method AddAddressToAccessList(addr: Address)
      requires Valid()
      modifies this`accessAddress, this`journals
      ensures Valid() && StateNow() == Perform(EnvNow(), old(StateNow()), Op.AddAddressToAccessList(addr))
    {
      UnmarkedOne(ForgetAddress(addr));
      if addr in accessAddress {
        return;
      }
      accessAddress := accessAddress[addr := -1];
      RecordUndo(ForgetAddress(addr));
    }

    method AddSlotToAccessList(addr: Address, slot: Hash)
      requires Valid() && AccessOk(accessAddress, |accessStorage|)
      modifies this`accessAddress, this`accessStorage, this`journals
      ensures Valid() && StateNow() == Perform(EnvNow(), old(StateNow()), Op.AddSlotToAccessList(addr, slot))
    {
      ghost var s := StateNow();
      var index := SlotSetOf(addr);
      PerformSlot(EnvNow(), s, addr, slot, CoreNow(), index);
      if slot !in accessStorage[index] {
        accessStorage := accessStorage[index := accessStorage[index] + {slot}];
        RecordUndo(ForgetSlot(index, slot));
      }
    }

    /** The slot set of an address, a new one if it has none. */
    method SlotSetOf(addr: Address) returns (index: nat)
      requires Valid() && AccessOk(accessAddress, |accessStorage|)
      modifies this`accessAddress, this`accessStorage, this`journals
      ensures Valid() && index < |accessStorage|
      ensures var known := addr in old(accessAddress);
              if !known || old(accessAddress)[addr] == -1 then
                && index == |old(accessStorage)|
                && accessAddress == old(accessAddress)[addr := index] && accessStorage == old(accessStorage) + [{}]
                && Entries(journals) == old(Entries(journals)) + [Entry({}, PopSlots(addr, known))]
              else
                && accessAddress == old(accessAddress)
                && accessStorage == old(accessStorage)
                && journals == old(journals)
                && index == old(accessAddress)[addr]
    {
      var known := addr in accessAddress;
      if !known || accessAddress[addr] == -1 {
        accessAddress := accessAddress[addr := |accessStorage|];
        accessStorage := accessStorage + [{}];
        RecordUndo(PopSlots(addr, known));
      }
      index := accessAddress[addr];
    }

    method AddLog(payload: nat)
      requires Valid()
      modifies this`logs, this`journals
      ensures Valid() && StateNow() == Perform(EnvNow(), old(StateNow()), Op.AddLog(payload))
    {
      UnmarkedOne(PopLog);
      logs := logs + [Log(payload, txHash, txIndex, committed.logSize + |logs|)];
      RecordUndo(PopLog);
    }

    // -------------------------------------------------------- snapshots and reverts

    lemma EntriesSnapshot(js: seq<Record>, id: nat)
      requires js != []
      ensures var last := js[|js| - 1];
              Entries(js[|js| - 1 := last.(marks := last.marks + {id})]) ==
              Entries(js)[|js| - 1 := Entry(last.marks + {id}, UndoOf(last.closure))]
    {
    }

    lemma AlignedMarks(dirty: map<Address, MutableAccount>, js: seq<Record>, i: nat, marks: set<nat>)
      requires Aligned(dirty, js) && i < |js|
      ensures Aligned(dirty, js[i := js[i].(marks := marks)])
    {
      var more := js[i := js[i].(marks := marks)];
      forall k | 0 <= k < |more| && more[k].closure.OnObject?
        ensures var acct := more[k].closure.acct;
                acct.addr in dirty && dirty[acct.addr] == acct && !UnloadedAfter(more, k, acct.addr)
      {
        assert js[k].closure == more[k].closure;
        assert !UnloadedAfter(js, k, more[k].closure.acct.addr);
        assert forall j {:trigger more[j]} :: k < j < |js| ==> more[j].closure == js[j].closure;
        assert forall j {:trigger js[j]} :: k < j < |js| ==> more[j].closure == js[j].closure;
      }
    }

    /** A journal to mark: an empty closure is recorded when there is none. */
    method NonEmptyJournal()
      requires Valid()
      modifies this`journals
      ensures Valid() && journals != []
      ensures Entries(journals) == if old(journals) == [] then [Entry({}, NoUndo)] else old(Entries(journals))
    {
      if |journals| == 0 {
        RecordUndo(NoUndo);
        assert old(Entries(journals)) == [];
      }
    }

    method TakeSnapshot() returns (res: nat)
      requires Valid()
      modifies this`journals, this`snapshotId
      ensures Valid() && res == old(snapshotId) && StateNow() == Snapshot(old(StateNow()))
    {
      res := snapshotId;
      snapshotId := snapshotId + 1;
      NonEmptyJournal();
      var last := |journals| - 1;
      AlignedMarks(dirtyAccounts, journals, last, journals[last].marks + {res});
      EntriesSnapshot(journals, res);
      journals := journals[last := journals[last].(marks := journals[last].marks + {res})];
    }

    /** The dirty accounts hold their values, whatever is recorded. */
    ghost predicate Loose()
      reads this, objects
    {
      Owned() && values.Keys == dirtyAccounts.Keys && Holding({})
    }

    /** Runs one undo closure. */
    method RunClosure(closure: Closure)
      requires Loose()
      requires closure.OnObject? ==>
               closure.acct.addr in dirtyAccounts && dirtyAccounts[closure.acct.addr] == closure.acct
      modifies this`dirtyAccounts, this`values, this`transientState, this`accessAddress, this`accessStorage
      modifies this`newContracts
      modifies this`logs, this`refund, objects
      ensures Loose()
      ensures dirtyAccounts == if closure.OnState? && closure.undo.Unload? then old(dirtyAccounts) - {closure.undo.addr}
                               else old(dirtyAccounts)
      ensures CoreNow() == Undone(UndoOf(closure), old(CoreNow()))
    {
      match closure
      case OnObject(acct, revert) => UndoOnAccount(acct, revert);
      case OnState(undo) => UndoOnState(undo);
    }

    method UndoOnState(undo: Undo)
      requires Loose()
      modifies this`dirtyAccounts, this`values, this`transientState, this`accessAddress, this`accessStorage
      modifies this`newContracts
      modifies this`logs, this`refund, objects
      ensures Loose()
      ensures dirtyAccounts == if undo.Unload? then old(dirtyAccounts) - {undo.addr} else old(dirtyAccounts)
      ensures CoreNow() == Undone(undo, old(CoreNow()))
    {
      if undo.Unload? {
        UnloadAccount(undo.addr);
      } else if undo.OnAccount? {
        UndoAt(undo.addr, undo.undo);
      } else {
        UndoPlain(undo);
      }
    }

    method UndoAt(addr: Address, revert: AccountUndo)
      requires Loose()
      modifies this`values, objects
      ensures Loose()
      ensures CoreNow() == Undone(OnAccount(addr, revert), old(CoreNow()))
    {
      if addr in dirtyAccounts {
        UndoOnAccount(dirtyAccounts[addr], revert);
      }
    }

    method UndoPlain(undo: Undo)
      requires Loose() && !undo.OnAccount? && !undo.Unload?
      modifies this`transientState, this`accessAddress, this`accessStorage, this`newContracts, this`logs, this`refund
      ensures Loose() && CoreNow() == Undone(undo, old(CoreNow()))
    {
      UndoField(undo);
    }

    method UnloadAccount(addr: Address)
      requires Loose()
      modifies this`dirtyAccounts, this`values
      ensures Loose() && dirtyAccounts == old(dirtyAccounts) - {addr}
      ensures CoreNow() == Undone(Unload(addr), old(CoreNow()))
    {
      dirtyAccounts := dirtyAccounts - {addr};
      values := values - {addr};
    }

    method UndoOnAccount(acct: MutableAccount, revert: AccountUndo)
      requires Loose() && acct.addr in dirtyAccounts && dirtyAccounts[acct.addr] == acct
      modifies this`values, acct
      ensures Loose()
      ensures CoreNow() == Undone(OnAccount(acct.addr, revert), old(CoreNow()))
    {
      acct.Undo(revert);
      values := values[acct.addr := acct.Value()];
    }

    /** The closures that touch no account. */
    method UndoField(undo: Undo)
      requires !undo.OnAccount? && !undo.Unload?
      modifies this`transientState, this`accessAddress, this`accessStorage, this`newContracts, this`logs, this`refund
      ensures CoreNow() == Undone(undo, old(CoreNow()))
    {
      match undo
      case NoUndo =>
      case ForgetContract(addr) => newContracts := newContracts - {addr};
      case DropTransient(addr) => transientState := transientState - {addr};
      case RestoreTransient(addr, key, val) =>
        if addr in transientState {
          var inner: map<Hash, Hash> := transientState[addr];
          transientState := transientState[addr := inner[key := val]];
        }
      case DeleteTransient(addr, key) =>
        if addr in transientState {
          transientState := transientState[addr := transientState[addr] - {key}];
        }
      case RestoreRefund(original) => refund := original;
      case PopLog =>
        if |logs| > 0 {
          logs := logs[..|logs| - 1];
        }
      case ForgetAddress(addr) => accessAddress := accessAddress - {addr};
      case PopSlots(addr, known) =>
        if |accessStorage| > 0 {
          accessStorage := accessStorage[..|accessStorage| - 1];
          accessAddress := if known then accessAddress[addr := -1] else accessAddress - {addr};
        }
      case ForgetSlot(index, slot) =>
        if 0 <= index < |accessStorage| {
          accessStorage := accessStorage[index := accessStorage[index] - {slot}];
        }
    }

    method RevertToSnapshot(id: nat)
      requires Valid() && CanRevert(StateNow(), id)
      modifies this, objects
      ensures Valid() && objects == old(objects) && txHash == old(txHash) && txIndex == old(txIndex)
      ensures StateNow() == Snapshots.RevertToSnapshot(old(StateNow()), id)
    {
      ghost var s := StateNow();
      var i := |journals| - 1;
      while i >= 0 && id !in journals[i].marks
        invariant -1 <= i < |journals|
        invariant forall j :: i < j < |journals| ==> id !in journals[j].marks
      {
        i := i - 1;
      }
      MarkIndexIs(Entries(journals), id, i);
      var all := journals;
      journals := all[..i] + [all[i].(marks := all[i].marks - {id})];
      RunReverts(all, i);
      AlignedMarks(dirtyAccounts, all[..i + 1], i, all[i].marks - {id});
      Unmarking(all, i, id);
    }

    /** Runs the closures after entry i, from the last one back. */
    method RunReverts(all: seq<Record>, i: nat)
      requires Loose() && Aligned(dirtyAccounts, all) && i < |all|
      modifies this, objects
      ensures Loose() && Aligned(dirtyAccounts, all[..i + 1]) && journals == old(journals)
      ensures snapshotId == old(snapshotId) && objects == old(objects)
      ensures txHash == old(txHash) && txIndex == old(txIndex)
      ensures CoreNow() == Rewound(old(CoreNow()), Entries(all), i)
    {
      ghost var core, entries := CoreNow(), Entries(all);
      var n := |all|;
      assert all[..n] == all && entries[n..] == [];
      while n > i + 1
        invariant i < n <= |all|
        invariant Loose() && Aligned(dirtyAccounts, all[..n]) && journals == old(journals)
        invariant snapshotId == old(snapshotId) && objects == old(objects)
        invariant txHash == old(txHash) && txIndex == old(txIndex)
        invariant CoreNow() == UndoAll(core, Undos(entries[n..]))
      {
        n := n - 1;
        RevertStep(all, n, dirtyAccounts);
        OneMoreUndone(core, entries, n);
        RunClosure(all[n].closure);
      }
    }

    lemma RevertStep(all: seq<Record>, n: nat, dirty: map<Address, MutableAccount>)
      requires n < |all| && Aligned(dirty, all[..n + 1])
      ensures var closure := all[n].closure;
              && (closure.OnObject? ==> closure.acct.addr in dirty && dirty[closure.acct.addr] == closure.acct)
              && Aligned(if closure.OnState? && closure.undo.Unload? then dirty - {closure.undo.addr} else dirty,
                         all[..n])
    {
      assert all[..n + 1][n] == all[n];
      assert all[..n + 1][..n] == all[..n];
      AlignedPop(dirty, all[..n + 1]);
    }

    lemma Unmarking(all: seq<Record>, i: nat, id: nat)
      requires i < |all|
      ensures var js := all[..i] + [all[i].(marks := all[i].marks - {id})];
              && js == all[..i + 1][i := all[..i + 1][i].(marks := all[i].marks - {id})]
              && Entries(js) == Entries(all)[..i] + [Entries(all)[i].(marks := Entries(all)[i].marks - {id})]
    {
    }

    // ------------------------------------------------------------- transactions

    /** The block this object stands for. */
    ghost function BlockNow(): Block
      reads this, committed
    {
      Block(committed.State(), txHash, txIndex, StateNow())
    }

    lemma ContextIs(keccak: Hasher, parent: View, b: Block, txHash: Hash, txIndex: int)
      ensures BlockNext(keccak, parent, b, Event.SetTxContext(txHash, txIndex)) ==
              Block(b.overlay, txHash, txIndex, b.state.(core := b.state.core.(refund := 0, logs := [])))
    {
    }

    lemma PreparedIs(keccak: Hasher, parent: View, b: Block, warmed: Option<WarmList>)
      ensures BlockNext(keccak, parent, b, Event.Prepare(warmed)) ==
              b.(state := Prepared(BlockEnv(keccak, parent, b), b.state, warmed))
    {
    }

    method SetTxContext(txHash: Hash, txIndex: int)
      requires Valid()
      modifies this`txHash, this`txIndex, this`refund, this`logs
      ensures Valid()
      ensures BlockNow() ==
              BlockNext(committed.keccak, committed.parent, old(BlockNow()), Event.SetTxContext(txHash, txIndex))
    {
      ContextIs(committed.keccak, committed.parent, BlockNow(), txHash, txIndex);
      this.txHash := txHash;
      this.txIndex := txIndex;
      refund := 0;
      logs := [];
    }

    /** AddAddressToAccessList or AddSlotToAccessList. */
    method Warm(op: Op)
      requires Valid() && Warms(op) && AccessOk(accessAddress, |accessStorage|)
      modifies this`accessAddress, this`accessStorage, this`journals
      ensures Valid() && AccessOk(accessAddress, |accessStorage|)
      ensures StateNow() == Perform(EnvNow(), old(StateNow()), op)
    {
      WarmKeepsAccess(EnvNow(), StateNow(), op);
      match op
      case AddAddressToAccessList(addr) => AddAddressToAccessList(addr);
      case AddSlotToAccessList(addr, slot) => AddSlotToAccessList(addr, slot);
    }

    /** The access list of the transaction, address by address and slot by slot. */
    method WarmAll(ops: seq<Op>)
      requires Valid() && AccessOk(accessAddress, |accessStorage|) && forall i :: 0 <= i < |ops| ==> Warms(ops[i])
      modifies this`accessAddress, this`accessStorage, this`journals
      ensures Valid() && StateNow() == PerformAll(EnvNow(), old(StateNow()), ops)
    {
      ghost var env, s := EnvNow(), StateNow();
      assert ops[..0] == [];
      for i := 0 to |ops|
        invariant Valid() && AccessOk(accessAddress, |accessStorage|) && StateNow() == PerformAll(env, s, ops[..i])
      {
        PerformOneMore(env, s, ops, i);
        Warm(ops[i]);
      }
      assert ops[..|ops|] == ops;
    }

    method Prepare(warmed: Option<WarmList>)
      requires Valid()
      modifies this`accessAddress, this`accessStorage, this`transientState, this`journals
      ensures Valid()
      ensures BlockNow() == BlockNext(committed.keccak, committed.parent, old(BlockNow()), Event.Prepare(warmed))
    {
      PreparedIs(committed.keccak, committed.parent, BlockNow(), warmed);
      WarmUp(warmed);
    }

    method WarmUp(warmed: Option<WarmList>)
      requires Valid()
      modifies this`accessAddress, this`accessStorage, this`transientState, this`journals
      ensures Valid() && StateNow() == Prepared(EnvNow(), old(StateNow()), warmed)
    {
      if warmed.Some? {
        ClearAccessList();
        WarmAll(WarmOps(warmed.value));
      }
      transientState := map[];
    }

    method ClearAccessList()
      modifies this`accessAddress, this`accessStorage
      ensures StateNow() == old(StateNow()).(core := ClearAccess(old(CoreNow())))
      ensures AccessOk(accessAddress, |accessStorage|)
    {
      accessAddress := map[];
      accessStorage := [];
    }

    /** Finalise, and the order in which the dirty accounts happened to be visited. */
    method Finalise(deleteEmpty: bool) returns (ghost order: seq<Address>)
      requires Valid() && Settled(CoreNow())
      modifies this, objects, committed
      ensures Valid() && objects == old(objects)
      ensures Visits(order, old(values).Keys)
      ensures BlockNow() ==
              BlockNext(committed.keccak, committed.parent, old(BlockNow()), Event.Finalise(deleteEmpty, order))
      ensures committed.logs == old(committed.logs)[txHash := old(logs)] && logs == old(logs)
    {
      DestroyEmpty(deleteEmpty);
      HeldValues();
      order := committed.ApplyChanges(txHash, logs, dirtyAccounts);
      ClearTransaction();
    }

    method GetLogs(hash: Hash) returns (res: seq<Log>)
      ensures res == Blocks.GetLogs(BlockNow(), hash)
    {
      if txHash == hash {
        return logs;
      }
      res := committed.GetLogs(hash);
    }

    method ClearTransaction()
      modifies this`dirtyAccounts, this`transientState, this`accessAddress, this`accessStorage, this`newContracts
      modifies this`journals, this`values
      ensures Valid() && StateNow() == State(Cleared(old(CoreNow())), [], snapshotId)
    {
      dirtyAccounts := map[];
      transientState := map[];
      accessAddress := map[];
      accessStorage := [];
      newContracts := {};
      journals := [];
      values := map[];
    }

    lemma HeldValues()
      requires Loose()
      ensures Distinct(dirtyAccounts) && ValuesOf(dirtyAccounts) == values && dirtyAccounts.Values <= objects
    {
    }

    /** One round of the first loop of Finalise. */
    method DestroyIfEmpty(acct: MutableAccount, deleteEmpty: bool)
      requires Loose() && acct.addr in dirtyAccounts && dirtyAccounts[acct.addr] == acct
      requires Status(values[acct.addr]) != NOT_EXISTED
      modifies this`values, acct
      ensures Loose() && values == old(values)[acct.addr := Emptied(old(values)[acct.addr], deleteEmpty)]
    {
      assert values[acct.addr] == acct.Value();
      if deleteEmpty && acct.IsEmpty() {
        var _ := acct.SelfDestruct();
      }
      values := values[acct.addr := acct.Value()];
    }

    /** Touched accounts that are empty are destroyed, without a journal entry. */
    method DestroyEmpty(deleteEmpty: bool)
      requires Loose() && forall b :: b in values ==> Status(values[b]) != NOT_EXISTED
      modifies this`values, objects
      ensures Loose() && values == EmptiedAll(old(values), deleteEmpty)
    {
      ghost var before := values;
      var todo := dirtyAccounts.Keys;
      while todo != {}
        invariant todo <= before.Keys && Loose() && EmptiedSome(before, values, todo, deleteEmpty)
        decreases todo
      {
        var addr: Address :| addr in todo;
        var acct := dirtyAccounts[addr];
        assert acct.addr == addr && acct in objects;
        EmptiedOneMore(before, values, todo, deleteEmpty, addr);
        DestroyIfEmpty(acct, deleteEmpty);
        todo := todo - {addr};
      }
      EmptiedEveryone(before, values, deleteEmpty);
    }
  }
}
