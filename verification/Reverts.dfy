/** Every journaled operation can be undone, so a revert to a snapshot restores what every getter shows. */
module Reverts {
  import opened Types
  import opened Accounts
  import opened Journal
  import opened Snapshots

  // --------------------------------------------------------- account operations

  lemma LoadedAccountOk(env: Env, c: Core, addr: Address)
    requires EnvOk(env) && CoreOk(env, c)
    ensures OriginOk(OriginOf(env, addr)) && AccountOk(OriginOf(env, addr), Loaded(env, c, addr))
    ensures Settled(c) && Status(Loaded(env, c, addr)) == NOT_EXISTED ==> !Loaded(env, c, addr).dirtyStorage
  {
    assert OriginOk(OriginOf(env, addr));
    LoadedOk(OriginOf(env, addr));
  }

  lemma WriteDirty(env: Env, c: Core, addr: Address, a: Account, u: AccountUndo)
    requires CoreOk(env, c) && addr in c.dirtyAccounts && Undoes(OriginOf(env, addr), u, a, c.dirtyAccounts[addr])
    ensures var c2 := c.(dirtyAccounts := c.dirtyAccounts[addr := a]);
            CoreOk(env, c2) && FitsCore(env, OnAccount(addr, u), c2) && SameCore(env, Undone(OnAccount(addr, u), c2), c)
  {
    var c2 := c.(dirtyAccounts := c.dirtyAccounts[addr := a]);
    SameCoreReflexive(env, c);
    SameDirtyAfter(env, c, c, addr, Revert(u, a), c.dirtyAccounts[addr]);
    SameUpdate(c, addr);
    assert Undone(OnAccount(addr, u), c2).dirtyAccounts == c.dirtyAccounts[addr := Revert(u, a)];
  }

  lemma WriteLoads(env: Env, c: Core, addr: Address, a: Account, u: AccountUndo)
    requires CoreOk(env, c) && addr !in c.dirtyAccounts && Undoes(OriginOf(env, addr), u, a, env.load(addr))
    ensures var c2 := c.(dirtyAccounts := c.dirtyAccounts[addr := a]);
            && CoreOk(env, c2) && FitsCore(env, OnAccount(addr, u), c2)
            && CoreOk(env, Undone(OnAccount(addr, u), c2))
            && Undone(Unload(addr), Undone(OnAccount(addr, u), c2)) == c
  {
    WrittenBack(c, addr, a, u);
    OneMoreOk(env, c, addr, a);
    OneMoreOk(env, c, addr, Revert(u, a));
  }

  lemma WrittenBack(c: Core, addr: Address, a: Account, u: AccountUndo)
    requires addr !in c.dirtyAccounts
    ensures var back := Undone(OnAccount(addr, u), c.(dirtyAccounts := c.dirtyAccounts[addr := a]));
            && back == c.(dirtyAccounts := c.dirtyAccounts[addr := Revert(u, a)])
            && Undone(Unload(addr), back) == c
  {
    assert c.dirtyAccounts[addr := a][addr := Revert(u, a)] == c.dirtyAccounts[addr := Revert(u, a)];
    assert c.dirtyAccounts[addr := Revert(u, a)] - {addr} == c.dirtyAccounts;
  }

  lemma OneMoreOk(env: Env, c: Core, addr: Address, a: Account)
    requires CoreOk(env, c) && AccountOk(OriginOf(env, addr), a)
    ensures CoreOk(env, c.(dirtyAccounts := c.dirtyAccounts[addr := a]))
  {
  }

  lemma WriteChain(env: Env, c: Core, addr: Address, a: Account, u: AccountUndo)
    requires EnvOk(env) && CoreOk(env, c) && Undoes(OriginOf(env, addr), u, a, Loaded(env, c, addr))
    ensures var (c2, us) := Write(env, c, addr, a, u); CoreOk(env, c2) && Chain(env, c2, us, c)
  {
    var c2 := c.(dirtyAccounts := c.dirtyAccounts[addr := a]);
    if addr in c.dirtyAccounts {
      WriteDirty(env, c, addr, a, u);
      ChainOne(env, c2, OnAccount(addr, u), c);
    } else {
      WriteLoads(env, c, addr, a, u);
      SameCoreReflexive(env, c);
      ChainTwo(env, c2, Unload(addr), OnAccount(addr, u), c);
    }
  }

  lemma ChainTwo(env: Env, c2: Core, u: Undo, v: Undo, c: Core)
    requires CoreOk(env, c2) && FitsCore(env, v, c2)
    requires CoreOk(env, Undone(v, c2)) && FitsCore(env, u, Undone(v, c2)) && SameCore(env, Undone(u, Undone(v, c2)), c)
    ensures Chain(env, c2, [u] + [v], c)
  {
    assert ([u] + [v])[..1] == [u];
    ChainOne(env, Undone(v, c2), u, c);
  }

  lemma ChainOne(env: Env, c2: Core, u: Undo, c: Core)
    requires CoreOk(env, c2) && FitsCore(env, u, c2) && SameCore(env, Undone(u, c2), c)
    ensures Chain(env, c2, [u], c)
  {
    assert [u][..0] == [];
  }

  lemma UndoesVia(o: Origin, u: AccountUndo, a2: Account, a1: Account, a: Account)
    requires Undoes(o, u, a2, a1) && SameAccount(o, a1, a)
    ensures Undoes(o, u, a2, a)
  {
    SameAccountTransitive(o, Revert(u, a2), a1, a);
  }

  /** A caching read leaves a state that cannot be told from the old one. */
  lemma CachedSame(env: Env, c: Core, addr: Address, a: Account)
    requires CoreOk(env, c) && SameAccount(OriginOf(env, addr), a, Loaded(env, c, addr))
    ensures SameCore(env, Cached(c, addr, a), c)
  {
    SameCoreReflexive(env, c);
    if addr in c.dirtyAccounts { SameDirtyAfter(env, c, c, addr, a, c.dirtyAccounts[addr]); SameUpdate(c, addr); }
  }

  lemma SameUpdate(c: Core, addr: Address)
    requires addr in c.dirtyAccounts
    ensures c.(dirtyAccounts := c.dirtyAccounts[addr := c.dirtyAccounts[addr]]) == c
  {
    assert c.dirtyAccounts[addr := c.dirtyAccounts[addr]] == c.dirtyAccounts;
  }

  // ----------------------------------------------------- the other journaled state

  lemma AccessSlotOk(c: Core, addr: Address, slot: Hash)
    requires AccessOk(c.accessAddress, |c.accessStorage|)
    ensures var c2 := AccessSlot(c, addr, slot).0;
            AccessOk(c2.accessAddress, |c2.accessStorage|) && addr in c2.accessAddress && c2.accessAddress[addr] >= 0
  {
    if addr !in c.accessAddress || c.accessAddress[addr] == -1 {
      NewSlotSetOk(c.accessAddress, |c.accessStorage|, addr);
    }
  }

  lemma NewSlotSetOk(addresses: map<Address, int>, n: nat, addr: Address)
    requires AccessOk(addresses, n) && (addr in addresses ==> addresses[addr] == -1)
    ensures AccessOk(addresses[addr := n], n + 1)
  {
    var more := addresses[addr := n];
    forall i | 0 <= i < n + 1 ensures Owned(more, i) {
      if i == n {
        assert more[addr] == n;
      } else {
        assert Owned(addresses, i);
        var b :| b in addresses && addresses[b] == i;
        assert more[b] == i;
      }
    }
  }

  lemma NewSlotSetUndone(c: Core, addr: Address)
    requires addr in c.accessAddress ==> c.accessAddress[addr] == -1
    ensures var c1 := c.(accessAddress := c.accessAddress[addr := |c.accessStorage|],
                         accessStorage := c.accessStorage + [{}]);
            Undone(PopSlots(addr, addr in c.accessAddress), c1) == c
  {
    var n := |c.accessStorage|;
    var more := c.accessAddress[addr := n];
    assert (c.accessStorage + [{}])[..n] == c.accessStorage;
    assert (if addr in c.accessAddress then more[addr := -1] else more - {addr}) == c.accessAddress;
  }

  lemma SlotForgotten(c: Core, i: nat, slot: Hash)
    requires i < |c.accessStorage| && slot !in c.accessStorage[i]
    ensures Undone(ForgetSlot(i, slot), c.(accessStorage := c.accessStorage[i := c.accessStorage[i] + {slot}])) == c
  {
    var more := c.accessStorage[i := c.accessStorage[i] + {slot}];
    assert more[i] - {slot} == c.accessStorage[i];
    assert more[i := more[i] - {slot}] == c.accessStorage;
  }

  lemma AccessSlotChain(env: Env, c: Core, addr: Address, slot: Hash)
    requires CoreOk(env, c) && AccessOk(c.accessAddress, |c.accessStorage|)
    ensures var (c2, us) := AccessSlot(c, addr, slot);
            c2.dirtyAccounts == c.dirtyAccounts && Chain(env, c2, us, c)
  {
    SameCoreReflexive(env, c);
    if addr !in c.accessAddress || c.accessAddress[addr] == -1 {
      var n := |c.accessStorage|;
      var c1 := c.(accessAddress := c.accessAddress[addr := n], accessStorage := c.accessStorage + [{}]);
      NewSlotSetUndone(c, addr);
      SlotForgotten(c1, n, slot);
      ChainTwo(env, AccessSlot(c, addr, slot).0, PopSlots(addr, addr in c.accessAddress), ForgetSlot(n, slot), c);
    } else {
      var i := c.accessAddress[addr];
      if slot !in c.accessStorage[i] {
        SlotForgotten(c, i, slot);
        ChainOne(env, AccessSlot(c, addr, slot).0, ForgetSlot(i, slot), c);
      }
    }
  }

  /** The inner map of an address after a write and its undo. */
  lemma InnerRestored(inner: map<Hash, Hash>, key: Hash, val: Hash)
    ensures key in inner ==> inner[key := val][key := inner[key]] == inner
    ensures key !in inner ==> inner[key := val] - {key} == inner
  {
  }

  lemma TransientBack(c: Core, addr: Address, key: Hash, val: Hash, inner: map<Hash, Hash>)
    requires inner == if addr in c.transientState then c.transientState[addr] else map[]
    ensures var (c2, us) := TransientSlot(c, addr, key, val);
            us != [] && Undone(us[|us| - 1], c2) == c.(transientState := c.transientState[addr := inner])
  {
    InnerRestored(inner, key, val);
  }

  lemma TransientChain(env: Env, c: Core, addr: Address, key: Hash, val: Hash)
    requires CoreOk(env, c)
    ensures var (c2, us) := TransientSlot(c, addr, key, val);
            c2.dirtyAccounts == c.dirtyAccounts && Chain(env, c2, us, c)
  {
    SameCoreReflexive(env, c);
    var (c2, us) := TransientSlot(c, addr, key, val);
    var inner: map<Hash, Hash> := if addr in c.transientState then c.transientState[addr] else map[];
    var last := us[|us| - 1];
    TransientBack(c, addr, key, val, inner);
    if addr in c.transientState {
      assert c.transientState[addr := inner] == c.transientState;
      assert us == [last];
      ChainOne(env, c2, last, c);
    } else {
      assert us[..1] == [DropTransient(addr)];
      assert c.transientState[addr := inner] - {addr} == c.transientState;
      ChainOne(env, Undone(last, c2), DropTransient(addr), c);
    }
  }

  lemma ContractChain(env: Env, c: Core, addr: Address)
    requires CoreOk(env, c) && addr !in c.newContracts
    ensures Chain(env, c.(newContracts := c.newContracts + {addr}), [ForgetContract(addr)], c)
  {
    SameCoreReflexive(env, c);
    assert c.newContracts + {addr} - {addr} == c.newContracts;
    ChainOne(env, c.(newContracts := c.newContracts + {addr}), ForgetContract(addr), c);
  }

  lemma AddressChain(env: Env, c: Core, addr: Address)
    requires CoreOk(env, c) && addr !in c.accessAddress
    ensures Chain(env, c.(accessAddress := c.accessAddress[addr := -1]), [ForgetAddress(addr)], c)
  {
    SameCoreReflexive(env, c);
    assert c.accessAddress[addr := -1] - {addr} == c.accessAddress;
    ChainOne(env, c.(accessAddress := c.accessAddress[addr := -1]), ForgetAddress(addr), c);
  }

  lemma LogChain(env: Env, c: Core, log: Log)
    requires CoreOk(env, c)
    ensures Chain(env, c.(logs := c.logs + [log]), [PopLog], c)
  {
    SameCoreReflexive(env, c);
    assert (c.logs + [log])[..|c.logs|] == c.logs;
    ChainOne(env, c.(logs := c.logs + [log]), PopLog, c);
  }

  lemma RefundChain(env: Env, c: Core, refund: Uint64)
    requires CoreOk(env, c)
    ensures Chain(env, c.(refund := refund), [RestoreRefund(c.refund)], c)
  {
    SameCoreReflexive(env, c);
    ChainOne(env, c.(refund := refund), RestoreRefund(c.refund), c);
  }

  /** Operations that touch no account. */
  lemma PlainOpChain(env: Env, c: Core, op: Op)
    requires CoreOk(env, c) && AccessOk(c.accessAddress, |c.accessStorage|) && Enabled(env, c, op) && !IsAccountOp(op)
    ensures var (c2, us) := DoPlain(env, c, op); c2.dirtyAccounts == c.dirtyAccounts && Chain(env, c2, us, c)
  {
    match op
    case CreateContract(addr) => ContractOpChain(env, c, addr);
    case SetTransientState(addr, key, val) => TransientChain(env, c, addr, key, val);
    case AddRefund(gas) => RefundChain(env, c, PlusGas(c.refund, gas));
    case SubRefund(gas) => RefundChain(env, c, c.refund - gas);
    case AddAddressToAccessList(addr) => AddressOpChain(env, c, addr);
    case AddSlotToAccessList(addr, slot) => AccessSlotChain(env, c, addr, slot);
    case AddLog(payload) => LogChain(env, c, Log(payload, env.txHash, env.txIndex, env.logSize + |c.logs|));
  }

  lemma ContractOpChain(env: Env, c: Core, addr: Address)
    requires CoreOk(env, c)
    ensures var (c2, us) := DoPlain(env, c, CreateContract(addr));
            c2.dirtyAccounts == c.dirtyAccounts && Chain(env, c2, us, c)
  {
    SameCoreReflexive(env, c);
    if addr !in c.newContracts { ContractChain(env, c, addr); }
  }

  lemma AddressOpChain(env: Env, c: Core, addr: Address)
    requires CoreOk(env, c)
    ensures var (c2, us) := DoPlain(env, c, AddAddressToAccessList(addr));
            c2.dirtyAccounts == c.dirtyAccounts && Chain(env, c2, us, c)
  {
    SameCoreReflexive(env, c);
    if addr !in c.accessAddress { AddressChain(env, c, addr); }
  }

  lemma PlainOpAccess(env: Env, c: Core, op: Op)
    requires AccessOk(c.accessAddress, |c.accessStorage|) && Enabled(env, c, op) && !IsAccountOp(op)
    ensures var c2 := DoPlain(env, c, op).0; AccessOk(c2.accessAddress, |c2.accessStorage|)
  {
    if op.AddSlotToAccessList? {
      AccessSlotOk(c, op.addr, op.slot);
    } else if op.AddAddressToAccessList? && op.addr !in c.accessAddress {
      NewAddressOk(c.accessAddress, |c.accessStorage|, op.addr);
    }
  }

  lemma NewAddressOk(addresses: map<Address, int>, n: nat, addr: Address)
    requires AccessOk(addresses, n) && addr !in addresses
    ensures AccessOk(addresses[addr := -1], n)
  {
    var more := addresses[addr := -1];
    forall i | 0 <= i < n ensures Owned(more, i) {
      assert Owned(addresses, i);
      var b :| b in addresses && addresses[b] == i;
      assert more[b] == i;
    }
  }

  // ------------------------------------------------------------- every operation

  /**
   SelfDestruct6780 drops the undo closure of the self-destruct it performs. It does no harm when nothing was
   destroyed, or when the account was loaded by the same call, whose undo throws the account away.
   */
  predicate DropsUndo(c: Core, op: Op) {
    && op.SelfDestruct6780?
    && op.addr in c.newContracts && op.addr in c.dirtyAccounts
    && Status(c.dirtyAccounts[op.addr]) == UPDATING
  }

  lemma WriteSettled(env: Env, c: Core, addr: Address, a: Account, u: AccountUndo)
    requires Settled(c) && Status(a) != NOT_EXISTED
    ensures Settled(Write(env, c, addr, a, u).0)
  {
  }

  /** What the operation journals leads back to where it started, and the invariants hold after it. */
  ghost predicate Undoable(env: Env, c: Core, c2: Core, us: seq<Undo>) {
    CoreOk(env, c2) && Settled(c2) && Chain(env, c2, us, c)
  }

  lemma CreateChain(env: Env, c: Core, op: Op)
    requires EnvOk(env) && CoreOk(env, c) && Settled(c) && Enabled(env, c, op) && op.CreateAccount?
    ensures Undoable(env, c, DoAccount(env, c, op).0, DoAccount(env, c, op).1)
  {
    var a := Loaded(env, c, op.addr);
    LoadedAccountOk(env, c, op.addr);
    CreateUndo(OriginOf(env, op.addr), a);
    CreatedStatus(a);
    CreatedWritten(env, c, op, Create(a).0, Create(a).1);
  }

  lemma CreatedStatus(a: Account)
    requires CanCreate(a)
    ensures Status(Create(a).0) == UPDATING
  {
  }

  lemma CreatedWritten(env: Env, c: Core, op: Op, a: Account, u: AccountUndo)
    requires EnvOk(env) && CoreOk(env, c) && Settled(c) && Enabled(env, c, op) && op.CreateAccount?
    requires (a, u) == Create(Loaded(env, c, op.addr)) && Status(a) == UPDATING
    requires Undoes(OriginOf(env, op.addr), u, a, Loaded(env, c, op.addr))
    ensures Undoable(env, c, DoAccount(env, c, op).0, DoAccount(env, c, op).1)
  {
    AccountWritten(env, c, op.addr, a, u);
  }

  lemma NonceChain(env: Env, c: Core, op: Op)
    requires EnvOk(env) && CoreOk(env, c) && Settled(c) && op.SetNonceOp?
    ensures Undoable(env, c, DoAccount(env, c, op).0, DoAccount(env, c, op).1)
  {
    var a := Loaded(env, c, op.addr);
    LoadedAccountOk(env, c, op.addr);
    SetNonceUndo(OriginOf(env, op.addr), a, op.nonce);
    AccountWritten(env, c, op.addr, SetNonce(a, op.nonce).0, SetNonce(a, op.nonce).1);
  }

  lemma DestructChain(env: Env, c: Core, op: Op)
    requires EnvOk(env) && CoreOk(env, c) && Settled(c) && Enabled(env, c, op) && op.SelfDestructOp?
    ensures Undoable(env, c, DoAccount(env, c, op).0, DoAccount(env, c, op).1)
  {
    var a := Loaded(env, c, op.addr);
    LoadedAccountOk(env, c, op.addr);
    SelfDestructUndo(OriginOf(env, op.addr), a);
    AccountWritten(env, c, op.addr, SelfDestruct(a).0, SelfDestruct(a).1);
  }

  lemma BalanceChain(env: Env, c: Core, op: Op)
    requires EnvOk(env) && CoreOk(env, c) && Settled(c) && IsBalanceOp(op)
    ensures Undoable(env, c, DoAccount(env, c, op).0, DoAccount(env, c, op).1)
  {
    BalanceWritten(env, c, op.addr, NewBalance(Loaded(env, c, op.addr), op));
  }

  lemma CodeStateChain(env: Env, c: Core, op: Op)
    requires EnvOk(env) && CoreOk(env, c) && Settled(c) && Enabled(env, c, op) && (op.SetCodeOp? || op.SetStateOp?)
    requires InPlay(env.keccak, op)
    ensures Undoable(env, c, DoAccount(env, c, op).0, DoAccount(env, c, op).1)
  {
    if op.SetCodeOp? { CodeWritten(env, c, op.addr, op.code); } else { StateWritten(env, c, op.addr, op.key, op.val); }
  }

  lemma ReadChain(env: Env, c: Core, op: Op)
    requires EnvOk(env) && CoreOk(env, c) && Settled(c) && (op.ReadCodeOp? || op.ReadStateOp?)
    ensures Undoable(env, c, DoAccount(env, c, op).0, DoAccount(env, c, op).1)
  {
    var o, a := OriginOf(env, op.addr), Loaded(env, c, op.addr);
    LoadedAccountOk(env, c, op.addr);
    if op.ReadCodeOp? {
      ReadCodeKeeps(o, a);
      ReadWritten(env, c, op.addr, ReadCode(env.parent, a).0);
    } else {
      ReadSlotKeeps(o, a, op.key);
      ReadWritten(env, c, op.addr, ReadSlot(env.parent, op.addr, a, op.key).0);
    }
  }

  lemma AccountOpChain(env: Env, c: Core, op: Op)
    requires EnvOk(env) && CoreOk(env, c) && Settled(c) && Enabled(env, c, op)
    requires IsAccountOp(op) && !op.SelfDestruct6780?
    requires InPlay(env.keccak, op)
    ensures Undoable(env, c, DoAccount(env, c, op).0, DoAccount(env, c, op).1)
  {
    match op
    case CreateAccount(_) => CreateChain(env, c, op);
    case SetNonceOp(_, _) => NonceChain(env, c, op);
    case SetCodeOp(_, _) => CodeStateChain(env, c, op);
    case SetStateOp(_, _, _) => CodeStateChain(env, c, op);
    case SelfDestructOp(_) => DestructChain(env, c, op);
    case ReadCodeOp(_) => ReadChain(env, c, op);
    case ReadStateOp(_, _) => ReadChain(env, c, op);
    case _ => BalanceChain(env, c, op);
  }

  lemma AccountWritten(env: Env, c: Core, addr: Address, a: Account, u: AccountUndo)
    requires EnvOk(env) && CoreOk(env, c) && Settled(c) && Status(a) != NOT_EXISTED
    requires Undoes(OriginOf(env, addr), u, a, Loaded(env, c, addr))
    ensures var (c2, us) := Write(env, c, addr, a, u); CoreOk(env, c2) && Settled(c2) && Chain(env, c2, us, c)
  {
    WriteChain(env, c, addr, a, u);
    WriteSettled(env, c, addr, a, u);
  }

  lemma BalanceWritten(env: Env, c: Core, addr: Address, balance: Uint256)
    requires EnvOk(env) && CoreOk(env, c) && Settled(c)
    ensures var (a, u) := SetBalance(Loaded(env, c, addr), balance);
            var (c2, us) := Write(env, c, addr, a, u);
            CoreOk(env, c2) && Settled(c2) && Chain(env, c2, us, c)
  {
    LoadedAccountOk(env, c, addr);
    var a := Loaded(env, c, addr);
    SetBalanceUndo(OriginOf(env, addr), a, balance);
    AccountWritten(env, c, addr, SetBalance(a, balance).0, SetBalance(a, balance).1);
  }

  lemma CodeWritten(env: Env, c: Core, addr: Address, code: Code)
    requires EnvOk(env) && CoreOk(env, c) && Settled(c) && code in env.keccak.inPlay
    requires CanSetCode(Loaded(env, c, addr), env.keccak.hash(code))
    ensures var (a, u) := SetCode(ReadCode(env.parent, Loaded(env, c, addr)).0, code, env.keccak.hash(code));
            var (c2, us) := Write(env, c, addr, a, u);
            CoreOk(env, c2) && Settled(c2) && Chain(env, c2, us, c)
  {
    LoadedAccountOk(env, c, addr);
    var o, a := OriginOf(env, addr), Loaded(env, c, addr);
    var a1 := ReadCode(env.parent, a).0;
    ReadCodeKeeps(o, a);
    SetCodeUndo(o, a1, code);
    var (a2, u) := SetCode(a1, code, env.keccak.hash(code));
    UndoesVia(o, u, a2, a1, a);
    AccountWritten(env, c, addr, a2, u);
  }

  lemma StateWritten(env: Env, c: Core, addr: Address, key: Hash, val: Hash)
    requires EnvOk(env) && CoreOk(env, c) && Settled(c)
    ensures var (a, u) := SetState(ReadSlot(env.parent, addr, Loaded(env, c, addr), key).0, key, val);
            var (c2, us) := Write(env, c, addr, a, u);
            CoreOk(env, c2) && Settled(c2) && Chain(env, c2, us, c)
  {
    LoadedAccountOk(env, c, addr);
    var o, a := OriginOf(env, addr), Loaded(env, c, addr);
    var a1 := ReadSlot(env.parent, addr, a, key).0;
    ReadSlotKeeps(o, a, key);
    SetStateUndo(o, a1, key, val);
    var (a2, u) := SetState(a1, key, val);
    UndoesVia(o, u, a2, a1, a);
    AccountWritten(env, c, addr, a2, u);
  }

  lemma ReadWritten(env: Env, c: Core, addr: Address, a: Account)
    requires EnvOk(env) && CoreOk(env, c) && Settled(c) && SameAccount(OriginOf(env, addr), a, Loaded(env, c, addr))
    ensures var c2 := Cached(c, addr, a); CoreOk(env, c2) && Settled(c2) && Chain(env, c2, [], c)
  {
    CachedSame(env, c, addr, a);
    SameCoreSettled(env, Cached(c, addr, a), c);
  }

  lemma Destruct6780Loads(env: Env, c: Core, addr: Address, a: Account)
    requires CoreOk(env, c) && AccountOk(OriginOf(env, addr), a) && addr !in c.dirtyAccounts
    ensures Chain(env, c.(dirtyAccounts := c.dirtyAccounts[addr := a]), [Unload(addr)], c)
  {
    SameCoreReflexive(env, c);
    assert c.dirtyAccounts[addr := a] - {addr} == c.dirtyAccounts;
    ChainOne(env, c.(dirtyAccounts := c.dirtyAccounts[addr := a]), Unload(addr), c);
  }

  lemma Destruct6780Chain(env: Env, c: Core, op: Op)
    requires EnvOk(env) && CoreOk(env, c) && Settled(c) && Enabled(env, c, op) && op.SelfDestruct6780?
    ensures var (c2, us) := DoAccount(env, c, op);
            CoreOk(env, c2) && Settled(c2) && (!DropsUndo(c, op) ==> Chain(env, c2, us, c))
  {
    var addr, a := op.addr, Loaded(env, c, op.addr);
    var a2 := if addr in c.newContracts then SelfDestruct(a).0 else a;
    LoadedAccountOk(env, c, addr);
    SelfDestructUndo(OriginOf(env, addr), a);
    WriteSettled(env, c, addr, a2, Nothing);
    if addr !in c.dirtyAccounts {
      Destruct6780Loads(env, c, addr, a2);
    } else if !DropsUndo(c, op) {
      assert a2 == a;
      SameUpdate(c, addr);
      SameCoreReflexive(env, c);
    }
  }

  /** Each operation keeps the invariants, and what it journals leads back to where it started. */
  lemma DoOk(env: Env, c: Core, op: Op)
    requires EnvOk(env) && CoreOk(env, c) && Settled(c) && Enabled(env, c, op) && InPlay(env.keccak, op)
    ensures var (c2, us) := Do(env, c, op);
            CoreOk(env, c2) && Settled(c2) && (!DropsUndo(c, op) ==> Chain(env, c2, us, c))
  {
    if !IsAccountOp(op) {
      PlainOpChain(env, c, op);
      PlainOpAccess(env, c, op);
    } else if op.SelfDestruct6780? {
      Destruct6780Chain(env, c, op);
    } else {
      AccountOpChain(env, c, op);
    }
  }

  /** An operation can be undone exactly when it does not drop an undo closure. */
  lemma UndoExactIff(env: Env, c: Core, op: Op)
    requires EnvOk(env) && CoreOk(env, c) && Settled(c) && Enabled(env, c, op) && InPlay(env.keccak, op)
    ensures var (c2, us) := Do(env, c, op); SameCore(env, UndoAll(c2, us), c) <==> !DropsUndo(c, op)
  {
    DoOk(env, c, op);
    var (c2, us) := Do(env, c, op);
    if DropsUndo(c, op) {
      assert us == [] && UndoAll(c2, us) == c2;
      assert c2.dirtyAccounts[op.addr].version == c.dirtyAccounts[op.addr].version + 1;
    } else {
      ChainUndoes(env, c2, us, c);
    }
  }
}
