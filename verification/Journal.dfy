/**
 mutableStateImpl as a value: journaled operations, snapshots and reverts (worldstate/mutablestate_impl.go), and the
 proof that a revert restores everything a getter can show.
 */
module Journal {
  import opened Types
  import opened Views
  import opened Accounts

  datatype Log = Log(payload: nat, txHash: Hash, txIndex: int, index: nat)

  /** The fields an undo closure may write. */
  datatype Core = Core(
    dirtyAccounts: map<Address, Account>,
    transientState: map<Address, map<Hash, Hash>>,
    accessAddress: map<Address, int>,
    accessStorage: seq<set<Hash>>,
    newContracts: set<Address>,
    logs: seq<Log>,
    refund: Uint64)

  const EMPTY_CORE := Core(map[], map[], map[], [], {}, [], 0)

  datatype Undo =
    | NoUndo
    | Unload(addr: Address)
    | OnAccount(addr: Address, undo: AccountUndo)
    | ForgetContract(addr: Address)
    | DropTransient(addr: Address)
    | RestoreTransient(addr: Address, key: Hash, val: Hash)
    | DeleteTransient(addr: Address, key: Hash)
    | RestoreRefund(refund: Uint64)
    | PopLog
    | ForgetAddress(addr: Address)
    | PopSlots(addr: Address, known: bool)
    | ForgetSlot(index: int, slot: Hash)

  /**
   The context of a transaction: the layer below the block, the overlay's GetMutableAccount, and what AddLog stamps on
   a log (the transaction, and the number of logs of earlier transactions).
   */
  datatype Env = Env(keccak: Hasher, parent: View, load: Address -> Account, txHash: Hash, txIndex: int, logSize: nat)

  function OriginOf(env: Env, addr: Address): Origin {
    Origin(env.keccak, env.parent, addr, env.load(addr))
  }

  ghost predicate EnvOk(env: Env) {
    forall addr: Address :: OriginOk(OriginOf(env, addr))
  }

  // ------------------------------------------------------------------ undoing

  function Undone(u: Undo, c: Core): Core {
    match u
    case NoUndo => c
    case Unload(addr) => c.(dirtyAccounts := c.dirtyAccounts - {addr})
    case OnAccount(addr, au) =>
      if addr in c.dirtyAccounts then c.(dirtyAccounts := c.dirtyAccounts[addr := Revert(au, c.dirtyAccounts[addr])])
      else c
    case ForgetContract(addr) => c.(newContracts := c.newContracts - {addr})
    case DropTransient(addr) => c.(transientState := c.transientState - {addr})
    case RestoreTransient(addr, key, val) =>
      if addr in c.transientState then
        var inner: map<Hash, Hash> := c.transientState[addr];
        c.(transientState := c.transientState[addr := inner[key := val]])
      else c
    case DeleteTransient(addr, key) =>
      if addr in c.transientState then c.(transientState := c.transientState[addr := c.transientState[addr] - {key}])
      else c
    case RestoreRefund(refund) => c.(refund := refund)
    case PopLog => if c.logs == [] then c else c.(logs := c.logs[..|c.logs| - 1])
    case ForgetAddress(addr) => c.(accessAddress := c.accessAddress - {addr})
    case PopSlots(addr, known) =>
      if c.accessStorage == [] then c
      else c.(accessStorage := c.accessStorage[..|c.accessStorage| - 1],
              accessAddress := if known then c.accessAddress[addr := -1] else c.accessAddress - {addr})
    case ForgetSlot(index, slot) =>
      if 0 <= index < |c.accessStorage| then
        c.(accessStorage := c.accessStorage[index := c.accessStorage[index] - {slot}])
      else c
  }

  /** Undo closures run from the last recorded to the first. */
  function UndoAll(c: Core, us: seq<Undo>): Core
    decreases |us|
  {
    if us == [] then c else UndoAll(Undone(us[|us| - 1], c), us[..|us| - 1])
  }

  lemma {:induction false} UndoAllConcat(c: Core, us: seq<Undo>, vs: seq<Undo>)
    ensures UndoAll(c, us + vs) == UndoAll(UndoAll(c, vs), us)
    decreases |vs|
  {
    if vs == [] {
      assert us + vs == us;
    } else {
      var last := vs[|vs| - 1];
      assert (us + vs)[..|us + vs| - 1] == us + vs[..|vs| - 1];
      UndoAllConcat(Undone(last, c), us, vs[..|vs| - 1]);
    }
  }

  // --------------------------------------------------------------- operations

  datatype Op =
    | CreateAccount(addr: Address)
    | CreateContract(addr: Address)
    | SubBalance(addr: Address, amount: Uint256)
    | AddBalance(addr: Address, amount: Uint256)
    | SetBalanceOp(addr: Address, amount: Uint256)
    | SetNonceOp(addr: Address, nonce: Uint64)
    | SetCodeOp(addr: Address, code: Code)
    | SetStateOp(addr: Address, key: Hash, val: Hash)
    | SetTransientState(addr: Address, key: Hash, val: Hash)
    | AddRefund(gas: Uint64)
    | SubRefund(gas: Uint64)
    | SelfDestructOp(addr: Address)
    | SelfDestruct6780(addr: Address)
    | AddAddressToAccessList(addr: Address)
    | AddSlotToAccessList(addr: Address, slot: Hash)
    | AddLog(payload: nat)
    | ReadCodeOp(addr: Address)
    | ReadStateOp(addr: Address, key: Hash)

  /** loadAccount, for reading: the dirty account or a fresh one from the overlay. */
  function Loaded(env: Env, c: Core, addr: Address): Account {
    if addr in c.dirtyAccounts then c.dirtyAccounts[addr] else env.load(addr)
  }

  /** uint256 addition and subtraction wrap; SubBalance then clears a result whose top bit is set. */
  function Plus(balance: Uint256, amount: Uint256): Uint256 {
    if balance + amount < TWO_256 then balance + amount else balance + amount - TWO_256
  }

  function Minus(balance: Uint256, amount: Uint256): Uint256 {
    var d := if amount <= balance then balance - amount else balance - amount + TWO_256;
    if d >= TWO_255 then 0 else d
  }

  function PlusGas(refund: Uint64, gas: Uint64): Uint64 {
    if refund + gas < TWO_64 then refund + gas else refund + gas - TWO_64
  }

  /** The panics of the source. SelfDestruct6780 is only meant for an account that exists. */
  predicate Enabled(env: Env, c: Core, op: Op) {
    match op
    case CreateAccount(addr) => CanCreate(Loaded(env, c, addr))
    case SetCodeOp(addr, code) => CanSetCode(Loaded(env, c, addr), env.keccak.hash(code))
    case SubRefund(gas) => gas <= c.refund
    case SelfDestructOp(addr) => Status(Loaded(env, c, addr)) != NOT_EXISTED
    case SelfDestruct6780(addr) => Status(Loaded(env, c, addr)) != NOT_EXISTED
    case _ => true
  }

  /** The code the operation sets, if it sets one, is in play. */
  predicate InPlay(keccak: Hasher, op: Op) {
    op.SetCodeOp? ==> op.code in keccak.inPlay
  }

  /** loadAccount, for writing, then the account's own setter. */
  function Write(env: Env, c: Core, addr: Address, a: Account, u: AccountUndo): (Core, seq<Undo>) {
    (c.(dirtyAccounts := c.dirtyAccounts[addr := a]),
     (if addr in c.dirtyAccounts then [] else [Unload(addr)]) + [OnAccount(addr, u)])
  }

  /** A caching read of an account that is not dirty is lost with the account object. */
  function Cached(c: Core, addr: Address, a: Account): Core {
    if addr in c.dirtyAccounts then c.(dirtyAccounts := c.dirtyAccounts[addr := a]) else c
  }

  function AccessSlot(c: Core, addr: Address, slot: Hash): (Core, seq<Undo>) {
    var index := if addr in c.accessAddress then c.accessAddress[addr] else -1;
    var (c1, us) :=
      if index == -1 then
        (c.(accessAddress := c.accessAddress[addr := |c.accessStorage|], accessStorage := c.accessStorage + [{}]),
         [PopSlots(addr, addr in c.accessAddress)])
      else (c, []);
    var i := c1.accessAddress[addr];
    if 0 <= i < |c1.accessStorage| && slot !in c1.accessStorage[i] then
      (c1.(accessStorage := c1.accessStorage[i := c1.accessStorage[i] + {slot}]), us + [ForgetSlot(i, slot)])
    else (c1, us)
  }

  function TransientSlot(c: Core, addr: Address, key: Hash, val: Hash): (Core, seq<Undo>) {
    var inner: map<Hash, Hash> := if addr in c.transientState then c.transientState[addr] else map[];
    (c.(transientState := c.transientState[addr := inner[key := val]]),
     (if addr in c.transientState then [] else [DropTransient(addr)]) +
     [if key in inner then RestoreTransient(addr, key, inner[key]) else DeleteTransient(addr, key)])
  }

  predicate IsAccountOp(op: Op) {
    !(op.CreateContract? || op.SetTransientState? || op.AddRefund? || op.SubRefund? || op.AddAddressToAccessList?
      || op.AddSlotToAccessList? || op.AddLog?)
  }

  predicate IsBalanceOp(op: Op) {
    op.SubBalance? || op.AddBalance? || op.SetBalanceOp?
  }

  function NewBalance(a: Account, op: Op): Uint256
    requires IsBalanceOp(op)
  {
    match op
    case SubBalance(_, amount) => Minus(a.balance, amount)
    case AddBalance(_, amount) => Plus(a.balance, amount)
    case SetBalanceOp(_, amount) => amount
  }

  function DoAccount(env: Env, c: Core, op: Op): (Core, seq<Undo>)
    requires Enabled(env, c, op) && IsAccountOp(op)
  {
    var addr, a := op.addr, Loaded(env, c, op.addr);
    if IsBalanceOp(op) then
      var (a2, u) := SetBalance(a, NewBalance(a, op)); Write(env, c, addr, a2, u)
    else
      match op
      case CreateAccount(_) => var (a2, u) := Create(a); Write(env, c, addr, a2, u)
      case SetNonceOp(_, nonce) => var (a2, u) := SetNonce(a, nonce); Write(env, c, addr, a2, u)
      case SetCodeOp(_, code) =>
        var (a2, u) := SetCode(ReadCode(env.parent, a).0, code, env.keccak.hash(code)); Write(env, c, addr, a2, u)
      case SetStateOp(_, key, val) =>
        var (a2, u) := SetState(ReadSlot(env.parent, addr, a, key).0, key, val); Write(env, c, addr, a2, u)
      case SelfDestructOp(_) => var (a2, u) := SelfDestruct(a); Write(env, c, addr, a2, u)
      case SelfDestruct6780(_) =>
        (c.(dirtyAccounts := c.dirtyAccounts[addr := if addr in c.newContracts then SelfDestruct(a).0 else a]),
         if addr in c.dirtyAccounts then [] else [Unload(addr)])
      case ReadCodeOp(_) => (Cached(c, addr, ReadCode(env.parent, a).0), [])
      case ReadStateOp(_, key) => (Cached(c, addr, ReadSlot(env.parent, addr, a, key).0), [])
  }

  function DoPlain(env: Env, c: Core, op: Op): (Core, seq<Undo>)
    requires Enabled(env, c, op) && !IsAccountOp(op)
  {
    match op
    case CreateContract(addr) =>
      if addr in c.newContracts then (c, []) else (c.(newContracts := c.newContracts + {addr}), [ForgetContract(addr)])
    case SetTransientState(addr, key, val) => TransientSlot(c, addr, key, val)
    case AddRefund(gas) => (c.(refund := PlusGas(c.refund, gas)), [RestoreRefund(c.refund)])
    case SubRefund(gas) => (c.(refund := c.refund - gas), [RestoreRefund(c.refund)])
    case AddAddressToAccessList(addr) =>
      if addr in c.accessAddress then (c, [])
      else (c.(accessAddress := c.accessAddress[addr := -1]), [ForgetAddress(addr)])
    case AddSlotToAccessList(addr, slot) => AccessSlot(c, addr, slot)
    case AddLog(payload) =>
      (c.(logs := c.logs + [Log(payload, env.txHash, env.txIndex, env.logSize + |c.logs|)]), [PopLog])
  }

  function Do(env: Env, c: Core, op: Op): (Core, seq<Undo>)
    requires Enabled(env, c, op)
  {
    if IsAccountOp(op) then DoAccount(env, c, op) else DoPlain(env, c, op)
  }
}
