/** What each operation of the mutable state means to a reader, said without its implementation. */
module OpMeaning {
  import opened Types
  import opened Views
  import opened Accounts
  import opened Journal
  import opened Snapshots
  import opened Reverts
  import opened RevertRuns

  /** What the getters show of one account, slots apart. */
  datatype Shown = Shown(nonce: Uint64, balance: Uint256, codeHash: Hash, code: Code, hasStorage: bool, status: nat)

  function Show(env: Env, c: Core, a: Address): Shown {
    Shown(GetNonce(env, c, a), GetBalance(env, c, a), GetCodeHash(env, c, a), GetCode(env, c, a), HasStorage(env, c, a),
          Status(Loaded(env, c, a)))
  }

  /** Writing to an account that does not exist makes it exist. */
  function Present(status: nat): nat {
    if status == NOT_EXISTED then UPDATING else status
  }

  function Destroyed(before: Shown): Shown {
    if before.status == UPDATING then before.(balance := 0, status := BEING_DELETED) else before
  }

  /** What is left after subtracting modulo 2^256; a result with its top bit set reads as negative, and is cleared. */
  function Less(balance: Uint256, amount: Uint256): Uint256 {
    var rest := (balance - amount) % TWO_256;
    if rest < TWO_255 then rest else 0
  }

  /** The reader's view of the account an operation is about. */
  function Meaning(keccak: Hasher, newContracts: set<Address>, op: Op, before: Shown): Shown
    requires IsAccountOp(op)
  {
    var touched := before.(status := Present(before.status));
    match op
    case CreateAccount(_) => touched
    case SubBalance(_, amount) => touched.(balance := Less(before.balance, amount))
    case AddBalance(_, amount) => touched.(balance := (before.balance + amount) % TWO_256)
    case SetBalanceOp(_, amount) => touched.(balance := amount)
    case SetNonceOp(_, nonce) => touched.(nonce := nonce)
    case SetCodeOp(_, code) => touched.(codeHash := keccak.hash(code), code := code)
    case SetStateOp(_, _, _) => touched.(hasStorage := true)
    case SelfDestructOp(_) => Destroyed(before)
    case SelfDestruct6780(_) => if op.addr in newContracts then Destroyed(before) else before
    case ReadCodeOp(_) => before
    case ReadStateOp(_, _) => before
  }

  lemma NextStatus(a: Account)
    ensures Status(a) == NOT_EXISTED ==> Status(a.(version := a.version + 1)) == UPDATING
    ensures Status(a) == UPDATING ==> Status(a.(version := a.version + 1)) == BEING_DELETED
  {
  }

  function ShownOf(o: Origin, a: Account): Shown {
    Shown(a.nonce, a.balance, a.codeHash, CodeOfAccount(o, a), a.dirtyStorage, Status(a))
  }

  lemma ShowIs(env: Env, c: Core, a: Address)
    requires EnvOk(env) && CoreOk(env, c)
    ensures Show(env, c, a) == ShownOf(OriginOf(env, a), Loaded(env, c, a))
  {
    LoadedAccountOk(env, c, a);
    ReadCodeKeeps(OriginOf(env, a), Loaded(env, c, a));
  }

  /** The account an operation leaves behind. */
  function Result(env: Env, c: Core, op: Op): Account
    requires Enabled(env, c, op) && IsAccountOp(op)
  {
    var a := Loaded(env, c, op.addr);
    if IsBalanceOp(op) then SetBalance(a, NewBalance(a, op)).0
    else
      match op
      case CreateAccount(_) => Create(a).0
      case SetNonceOp(_, nonce) => SetNonce(a, nonce).0
      case SetCodeOp(_, code) => SetCode(ReadCode(env.parent, a).0, code, env.keccak.hash(code)).0
      case SetStateOp(_, key, val) => SetState(ReadSlot(env.parent, op.addr, a, key).0, key, val).0
      case SelfDestructOp(_) => SelfDestruct(a).0
      case SelfDestruct6780(_) => if op.addr in c.newContracts then SelfDestruct(a).0 else a
      case ReadCodeOp(_) => ReadCode(env.parent, a).0
      case ReadStateOp(_, key) => ReadSlot(env.parent, op.addr, a, key).0
  }

  predicate IsRead(op: Op) {
    op.ReadCodeOp? || op.ReadStateOp?
  }

  lemma DoLeaves(env: Env, c: Core, op: Op)
    requires Enabled(env, c, op) && IsAccountOp(op)
    ensures var c2 := DoAccount(env, c, op).0;
            && (forall b: Address :: b != op.addr ==> Loaded(env, c2, b) == Loaded(env, c, b))
            && (op.addr in c.dirtyAccounts || !IsRead(op) ==> Loaded(env, c2, op.addr) == Result(env, c, op))
            && (op.addr !in c.dirtyAccounts && IsRead(op) ==> c2 == c)
  {
  }

  lemma CodeSetMeans(o: Origin, a: Account, code: Code)
    requires OriginOk(o) && AccountOk(o, a) && code in o.keccak.inPlay && CanSetCode(a, o.keccak.hash(code))
    ensures var a1 := ReadCode(o.parent, a).0;
            ShownOf(o, SetCode(a1, code, o.keccak.hash(code)).0) ==
              ShownOf(o, a).(codeHash := o.keccak.hash(code), code := code, status := Present(Status(a)))
  {
    var a1 := ReadCode(o.parent, a).0;
    ReadCodeKeeps(o, a);
    SetCodeUndo(o, a1, code);
    NextStatus(a1);
  }

  lemma BalanceMeans(o: Origin, a: Account, balance: Uint256)
    ensures ShownOf(o, SetBalance(a, balance).0) == ShownOf(o, a).(balance := balance, status := Present(Status(a)))
  {
    NextStatus(a);
  }

  lemma NewBalanceIs(a: Account, op: Op)
    requires IsBalanceOp(op)
    ensures op.AddBalance? ==> NewBalance(a, op) == (a.balance + op.amount) % TWO_256
    ensures op.SubBalance? ==> NewBalance(a, op) == Less(a.balance, op.amount)
  {
  }

  lemma StateSetMeans(env: Env, addr: Address, a: Account, key: Hash, val: Hash)
    ensures var o := OriginOf(env, addr);
            ShownOf(o, SetState(ReadSlot(env.parent, addr, a, key).0, key, val).0) ==
              ShownOf(o, a).(hasStorage := true, status := Present(Status(a)))
  {
    NextStatus(ReadSlot(env.parent, addr, a, key).0);
  }

  lemma ResultMeans(env: Env, c: Core, op: Op)
    requires EnvOk(env) && CoreOk(env, c) && Enabled(env, c, op) && InPlay(env.keccak, op) && IsAccountOp(op)
    ensures ShownOf(OriginOf(env, op.addr), Result(env, c, op)) ==
            Meaning(env.keccak, c.newContracts, op, ShownOf(OriginOf(env, op.addr), Loaded(env, c, op.addr)))
  {
    var o, a := OriginOf(env, op.addr), Loaded(env, c, op.addr);
    LoadedAccountOk(env, c, op.addr);
    if IsBalanceOp(op) {
      BalanceMeans(o, a, NewBalance(a, op));
      NewBalanceIs(a, op);
    } else if op.SetCodeOp? {
      CodeSetMeans(o, a, op.code);
    } else if op.SetStateOp? {
      StateSetMeans(env, op.addr, a, op.key, op.val);
    } else if IsRead(op) {
      ReadMeans(env, c, op);
    } else {
      OtherMeans(env, c, op);
    }
  }

  lemma OtherMeans(env: Env, c: Core, op: Op)
    requires Enabled(env, c, op) && IsAccountOp(op)
    requires !IsBalanceOp(op) && !op.SetCodeOp? && !op.SetStateOp? && !IsRead(op)
    ensures ShownOf(OriginOf(env, op.addr), Result(env, c, op)) ==
            Meaning(env.keccak, c.newContracts, op, ShownOf(OriginOf(env, op.addr), Loaded(env, c, op.addr)))
  {
    NextStatus(Loaded(env, c, op.addr));
  }

  lemma ReadMeans(env: Env, c: Core, op: Op)
    requires EnvOk(env) && CoreOk(env, c) && IsRead(op)
    ensures ShownOf(OriginOf(env, op.addr), Result(env, c, op)) ==
            ShownOf(OriginOf(env, op.addr), Loaded(env, c, op.addr))
  {
    LoadedAccountOk(env, c, op.addr);
    if op.ReadCodeOp? { ReadCodeKeeps(OriginOf(env, op.addr), Loaded(env, c, op.addr)); }
  }

  /** An operation changes what its meaning says of its own account, and no other account. */
  lemma DoMeans(env: Env, c: Core, op: Op, b: Address)
    requires EnvOk(env) && CoreOk(env, c) && Settled(c) && Enabled(env, c, op) && InPlay(env.keccak, op)
    ensures var c2 := Do(env, c, op).0;
            Show(env, c2, b) ==
              if IsAccountOp(op) && b == op.addr then Meaning(env.keccak, c.newContracts, op, Show(env, c, b))
              else Show(env, c, b)
  {
    DoOk(env, c, op);
    ShowIs(env, c, b);
    ShowIs(env, Do(env, c, op).0, b);
    if IsAccountOp(op) {
      DoLeaves(env, c, op);
      ResultMeans(env, c, op);
    } else {
      PlainOpChain(env, c, op);
    }
  }

  /** The operation destroys the account. */
  predicate Destroys(op: Op, newContracts: set<Address>, b: Address) {
    (op.SelfDestructOp? && op.addr == b) || (op.SelfDestruct6780? && op.addr == b && b in newContracts)
  }

  lemma StatusShown(env: Env, c: Core, b: Address)
    ensures Exist(env, c, b, false) <==> Show(env, c, b).status != NOT_EXISTED
    ensures HasSelfDestructed(env, c, b) <==> Show(env, c, b).status == BEING_DELETED
  {
  }

  lemma MeaningStatus(keccak: Hasher, newContracts: set<Address>, op: Op, before: Shown)
    requires IsAccountOp(op) && before.status < VERSIONS
    requires op.SelfDestructOp? || op.SelfDestruct6780? ==> before.status != NOT_EXISTED
    ensures var status := Meaning(keccak, newContracts, op, before).status;
            && (status != NOT_EXISTED <==> before.status != NOT_EXISTED || !IsRead(op))
            && (status == BEING_DELETED <==> before.status == BEING_DELETED || Destroys(op, newContracts, op.addr))
  {
  }

  /** An account exists once it has been written to, and does so to the end of the transaction, destroyed or not. */
  lemma ExistsAfter(env: Env, c: Core, op: Op, b: Address)
    requires EnvOk(env) && CoreOk(env, c) && Settled(c) && Enabled(env, c, op) && InPlay(env.keccak, op)
    ensures var c2 := Do(env, c, op).0;
            && (Exist(env, c2, b, false) <==>
                  Exist(env, c, b, false) || (IsAccountOp(op) && !IsRead(op) && b == op.addr))
            && (HasSelfDestructed(env, c2, b) <==>
                  HasSelfDestructed(env, c, b) || Destroys(op, c.newContracts, b))
  {
    DoMeans(env, c, op, b);
    StatusShown(env, c, b);
    StatusShown(env, Do(env, c, op).0, b);
    if IsAccountOp(op) { MeaningStatus(env.keccak, c.newContracts, op, Show(env, c, op.addr)); }
  }

  /** Under EIP-158 an account exists only while it has a nonce, a balance or code. */
  lemma ExistsUnless(env: Env, c: Core, b: Address)
    requires EnvOk(env) && CoreOk(env, c)
    ensures IsEmpty(env, c, b) <==> GetNonce(env, c, b) == 0 && GetBalance(env, c, b) == 0 && GetCode(env, c, b) == []
    ensures Exist(env, c, b, true) <==> Exist(env, c, b, false) && !IsEmpty(env, c, b)
  {
    LoadedAccountOk(env, c, b);
    ReadCodeKeeps(OriginOf(env, b), Loaded(env, c, b));
  }

  /** The slot an account shows. */
  lemma GetStateIsSlot(env: Env, c: Core, b: Address, k: Hash)
    requires EnvOk(env) && CoreOk(env, c) && Settled(c)
    ensures GetState(env, c, b, k) == Slot(OriginOf(env, b), Loaded(env, c, b).knownStorage, k)
  {
    LoadedAccountOk(env, c, b);
    ReadSlotIsSlot(OriginOf(env, b), Loaded(env, c, b), k);
  }

  /** SetState changes one slot of one account; nothing else changes any slot. */
  lemma DoMeansSlots(env: Env, c: Core, op: Op, b: Address, k: Hash)
    requires EnvOk(env) && CoreOk(env, c) && Settled(c) && Enabled(env, c, op) && InPlay(env.keccak, op)
    ensures GetState(env, Do(env, c, op).0, b, k) ==
            if op.SetStateOp? && b == op.addr && k == op.key then op.val else GetState(env, c, b, k)
  {
    DoOk(env, c, op);
    GetStateIsSlot(env, c, b, k);
    GetStateIsSlot(env, Do(env, c, op).0, b, k);
    SlotsAfter(env, c, op, Do(env, c, op).0, b, k);
  }

  lemma SlotsAfter(env: Env, c: Core, op: Op, c2: Core, b: Address, k: Hash)
    requires EnvOk(env) && CoreOk(env, c) && Settled(c) && Enabled(env, c, op) && c2 == Do(env, c, op).0
    ensures Slot(OriginOf(env, b), Loaded(env, c2, b).knownStorage, k) ==
            if op.SetStateOp? && b == op.addr && k == op.key then op.val
            else Slot(OriginOf(env, b), Loaded(env, c, b).knownStorage, k)
  {
    if IsAccountOp(op) {
      DoLeaves(env, c, op);
      ResultSlots(env, c, op, k);
    } else {
      PlainOpChain(env, c, op);
    }
  }

  lemma ReadKeepsSlot(env: Env, addr: Address, a: Account, key: Hash, k: Hash)
    requires EnvOk(env) && AccountOk(OriginOf(env, addr), a) && (Status(a) == NOT_EXISTED ==> !a.dirtyStorage)
    ensures var o := OriginOf(env, addr);
            Slot(o, ReadSlot(env.parent, addr, a, key).0.knownStorage, k) == Slot(o, a.knownStorage, k)
  {
    ReadSlotKeeps(OriginOf(env, addr), a, key);
  }

  lemma ResultSlots(env: Env, c: Core, op: Op, k: Hash)
    requires EnvOk(env) && CoreOk(env, c) && Settled(c) && Enabled(env, c, op) && IsAccountOp(op)
    ensures var o := OriginOf(env, op.addr);
            Slot(o, Result(env, c, op).knownStorage, k) ==
            if op.SetStateOp? && k == op.key then op.val else Slot(o, Loaded(env, c, op.addr).knownStorage, k)
  {
    if op.SetStateOp? || op.ReadStateOp? {
      LoadedAccountOk(env, c, op.addr);
      StateResult(env, c, op);
      ReadKeepsSlot(env, op.addr, Loaded(env, c, op.addr), op.key, k);
    } else {
      ResultKeepsSlots(env, c, op);
    }
  }

  lemma StateResult(env: Env, c: Core, op: Op)
    requires op.SetStateOp? || op.ReadStateOp?
    ensures var read := ReadSlot(env.parent, op.addr, Loaded(env, c, op.addr), op.key).0;
            Result(env, c, op).knownStorage == if op.SetStateOp? then read.knownStorage[op.key := op.val]
                                               else read.knownStorage
  {
  }

  lemma ResultKeepsSlots(env: Env, c: Core, op: Op)
    requires Enabled(env, c, op) && IsAccountOp(op) && !op.SetStateOp? && !op.ReadStateOp?
    ensures Result(env, c, op).knownStorage == Loaded(env, c, op.addr).knownStorage
  {
    if !IsBalanceOp(op) { OtherResultKeepsSlots(env, c, op); }
  }

  lemma OtherResultKeepsSlots(env: Env, c: Core, op: Op)
    requires Enabled(env, c, op) && IsAccountOp(op) && !op.SetStateOp? && !op.ReadStateOp? && !IsBalanceOp(op)
    ensures Result(env, c, op).knownStorage == Loaded(env, c, op.addr).knownStorage
  {
    match op
    case CreateAccount(_) =>
    case SetNonceOp(_, _) =>
    case SetCodeOp(_, _) =>
    case SelfDestructOp(_) =>
    case SelfDestruct6780(_) =>
    case ReadCodeOp(_) =>
  }

  predicate WarmsSlot(op: Op) {
    op.AddSlotToAccessList?
  }

  predicate Warms(op: Op) {
    op.AddAddressToAccessList? || op.AddSlotToAccessList?
  }

  lemma AccessKept(env: Env, c: Core, op: Op)
    requires Enabled(env, c, op) && !Warms(op)
    ensures var c2 := Do(env, c, op).0; c2.accessAddress == c.accessAddress && c2.accessStorage == c.accessStorage
  {
  }

  /** The indexed access list is a set of addresses and a set of (address, slot) pairs. */
  lemma AccessListMeans(env: Env, c: Core, op: Op, b: Address, k: Hash)
    requires EnvOk(env) && CoreOk(env, c) && Settled(c) && Enabled(env, c, op)
    ensures var c2 := Do(env, c, op).0;
            && (AddressInAccessList(c2, b) <==> AddressInAccessList(c, b) || (Warms(op) && b == op.addr))
            && (SlotInAccessList(c2, b, k) <==>
                SlotInAccessList(c, b, k) || (WarmsSlot(op) && b == op.addr && k == op.slot))
  {
    if op.AddSlotToAccessList? {
      AccessSlotMeans(c, op.addr, op.slot, b, k);
    } else if !op.AddAddressToAccessList? {
      AccessKept(env, c, op);
    }
  }

  lemma AccessSlotMeans(c: Core, addr: Address, slot: Hash, b: Address, k: Hash)
    requires AccessOk(c.accessAddress, |c.accessStorage|)
    ensures var c2 := AccessSlot(c, addr, slot).0;
            && (AddressInAccessList(c2, b) <==> AddressInAccessList(c, b) || b == addr)
            && (SlotInAccessList(c2, b, k) <==> SlotInAccessList(c, b, k) || (b == addr && k == slot))
  {
  }

  /** Transient storage is written one slot at a time; refunds, logs and new contracts by their own operations only. */
  lemma PlainOpMeans(env: Env, c: Core, op: Op, b: Address, k: Hash)
    requires Enabled(env, c, op)
    ensures var c2 := Do(env, c, op).0;
            && GetTransientState(c2, b, k) ==
                 (if op.SetTransientState? && b == op.addr && k == op.key then op.val else GetTransientState(c, b, k))
            && c2.refund ==
               (if op.AddRefund? then (c.refund + op.gas) % TWO_64 else if op.SubRefund? then c.refund - op.gas
                else c.refund)
            && c2.logs == c.logs +
               (if op.AddLog? then [Log(op.payload, env.txHash, env.txIndex, env.logSize + |c.logs|)] else [])
            && c2.newContracts == c.newContracts + (if op.CreateContract? then {op.addr} else {})
  {
    if IsAccountOp(op) { AccountOpLeaves(env, c, op); } else { TransientMeans(env, c, op, b, k); }
  }

  lemma AccountOpLeaves(env: Env, c: Core, op: Op)
    requires Enabled(env, c, op) && IsAccountOp(op)
    ensures DoAccount(env, c, op).0 == c.(dirtyAccounts := DoAccount(env, c, op).0.dirtyAccounts)
  {
  }

  lemma TransientMeans(env: Env, c: Core, op: Op, b: Address, k: Hash)
    requires Enabled(env, c, op) && !IsAccountOp(op)
    ensures GetTransientState(DoPlain(env, c, op).0, b, k) ==
            if op.SetTransientState? && b == op.addr && k == op.key then op.val else GetTransientState(c, b, k)
  {
  }
}
