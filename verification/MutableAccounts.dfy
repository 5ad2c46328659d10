/**
 mutableAccountImpl as an object: each method changes the fields as the value model says
 (worldstate/mutableaccount_impl.go).
 */
module MutableAccounts {
  import opened Types
  import opened Views
  import opened Accounts

  class MutableAccount {
    const keccak: Hasher
    const parent: View
    const addr: Address
    var nonce: Uint64
    var balance: Uint256
    var codeHash: Hash
    var dirtyStorage: bool
    var version: nat
    var knownCode: Option<Code>
    var knownCodeDiff: map<Hash, int>
    var knownStorage: map<Hash, Hash>

    ghost function Value(): Account
      reads this
    {
      Account(nonce, balance, codeHash, dirtyStorage, version, knownCode, knownCodeDiff, knownStorage)
    }

    constructor (keccak: Hasher, parent: View, addr: Address, acct: AccountValue, knownCode: Option<Code>,
                 knownStorage: map<Hash, Hash>)
      ensures this.keccak == keccak && this.parent == parent && this.addr == addr
      ensures Value() == Account(acct.nonce, acct.balance, acct.codeHash, acct.dirtyStorage, acct.version, knownCode,
                                 map[], knownStorage)
    {
      this.keccak := keccak;
      this.parent := parent;
      this.addr := addr;
      nonce := acct.nonce;
      balance := acct.balance;
      codeHash := acct.codeHash;
      dirtyStorage := acct.dirtyStorage;
      version := acct.version;
      this.knownCode := knownCode;
      knownCodeDiff := map[];
      this.knownStorage := knownStorage;
    }

    function InterpretVersion(): nat
      reads this
    {
      version % VERSIONS
    }

    predicate IsEmpty()
      reads this
    {
      nonce == 0 && balance == 0 && codeHash == EMPTY_CODE_HASH
    }

    method Code() returns (code: Code)
      modifies this
      ensures (Value(), code) == ReadCode(parent, old(Value()))
    {
      if codeHash == EMPTY_CODE_HASH {
        return [];
      }
      if knownCode.None? {
        knownCode := Some(parent.code(codeHash));
      }
      code := knownCode.value;
    }

    method GetState(key: Hash) returns (res: Hash)
      modifies this
      ensures (Value(), res) == ReadSlot(parent, addr, old(Value()), key)
    {
      if !dirtyStorage {
        return ZERO_HASH;
      }
      if key !in knownStorage {
        var val;
        if InterpretVersion() == BEING_DELETED {
          val := parent.slot(addr, version - 1, key);
        } else {
          val := parent.slot(addr, version, key);
        }
        knownStorage := knownStorage[key := val];
      }
      res := knownStorage[key];
    }

    /** What every setter does first; undoing it is the optional part of the setter's closure. */
    method Touch() returns (bump: bool)
      modifies this`version
      ensures (Value(), bump) == Touched(old(Value()))
    {
      bump := InterpretVersion() == NOT_EXISTED;
      if bump {
        version := version + 1;
      }
    }

    method Create() returns (revert: AccountUndo)
      requires CanCreate(Value())
      modifies this
      ensures (Value(), revert) == Accounts.Create(old(Value()))
    {
      if InterpretVersion() == UPDATING {
        return Nothing;
      }
      version := version + 1;
      revert := UndoBump;
    }

    method SetNonce(nonce: Uint64) returns (revert: AccountUndo)
      modifies this
      ensures (Value(), revert) == Accounts.SetNonce(old(Value()), nonce)
    {
      var bump := Touch();
      var original := this.nonce;
      this.nonce := nonce;
      if original == this.nonce {
        return OnlyBump(bump);
      }
      revert := UndoNonce(bump, original);
    }

    method SetBalance(balance: Uint256) returns (revert: AccountUndo)
      modifies this
      ensures (Value(), revert) == Accounts.SetBalance(old(Value()), balance)
    {
      var bump := Touch();
      var original := this.balance;
      this.balance := balance;
      if original == this.balance {
        return OnlyBump(bump);
      }
      revert := UndoBalance(bump, original);
    }

    method SetCode(code: Code) returns (revert: AccountUndo)
      requires CanSetCode(Value(), keccak.hash(code))
      modifies this
      ensures (Value(), revert) == Accounts.SetCode(old(Value()), code, keccak.hash(code))
    {
      var bump := Touch();
      var originalHash := codeHash;
      codeHash := keccak.hash(code);
      if originalHash == codeHash {
        return OnlyBump(bump);
      }
      var added := originalHash == EMPTY_CODE_HASH;
      if added {
        knownCodeDiff := knownCodeDiff[codeHash := CountOf(knownCodeDiff, codeHash) + 1];
      } else {
        knownCodeDiff := knownCodeDiff[originalHash := CountOf(knownCodeDiff, originalHash) - 1];
      }
      var original := CodeCopy(knownCode);
      knownCode := Some(code);
      revert := UndoCode(bump, added, originalHash, original);
    }

    method SetState(key: Hash, val: Hash) returns (revert: AccountUndo)
      modifies this
      ensures (Value(), revert) == Accounts.SetState(old(Value()), key, val)
    {
      var bump := Touch();
      if dirtyStorage {
        var known := key in knownStorage;
        var original := if known then knownStorage[key] else ZERO_HASH;
        knownStorage := knownStorage[key := val];
        if !known {
          return UndoNewSlot(bump, key);
        }
        if original == val {
          return OnlyBump(bump);
        }
        return UndoSlot(bump, key, original);
      }
      dirtyStorage := true;
      knownStorage := knownStorage[key := val];
      revert := UndoFirstSlot(bump, key);
    }

    method SelfDestruct() returns (revert: AccountUndo)
      requires Status(Value()) != NOT_EXISTED
      modifies this
      ensures (Value(), revert) == Accounts.SelfDestruct(old(Value()))
    {
      if InterpretVersion() == BEING_DELETED {
        return Nothing;
      }
      var original := balance;
      balance := 0;
      version := version + 1;
      revert := UndoDestruct(original);
    }

    /** Runs one of the closures the setters returned. */
    method Undo(revert: AccountUndo)
      modifies this
      ensures Value() == Revert(revert, old(Value()))
    {
      match revert
      case Nothing =>
      case UndoBump => Unbump(true);
      case UndoNonce(bump, original) =>
        Unbump(bump);
        nonce := original;
      case UndoBalance(bump, original) =>
        Unbump(bump);
        balance := original;
      case UndoCode(bump, added, originalHash, original) =>
        Unbump(bump);
        knownCodeDiff := knownCodeDiff[codeHash := CountOf(knownCodeDiff, codeHash) + if added then -1 else 1];
        codeHash := originalHash;
        knownCode := original;
      case UndoNewSlot(bump, key) =>
        Unbump(bump);
        knownStorage := knownStorage - {key};
      case UndoSlot(bump, key, original) =>
        Unbump(bump);
        knownStorage := knownStorage[key := original];
      case UndoFirstSlot(bump, key) =>
        Unbump(bump);
        dirtyStorage := false;
        knownStorage := knownStorage - {key};
      case UndoDestruct(original) =>
        Unbump(true);
        balance := original;
    }

    method Unbump(bump: bool)
      modifies this`version
      ensures Value() == Accounts.Unbump(old(Value()), bump)
    {
      if bump && version > 0 {
        version := version - 1;
      }
    }

    /** Counts the code of an account that is going, once: the object is not used afterwards. */
    method GetFinalized() returns (final: Finalized)
      modifies this
      ensures final == Accounts.GetFinalized(old(Value()))
    {
      if InterpretVersion() == BEING_DELETED {
        if codeHash != EMPTY_CODE_HASH {
          knownCodeDiff := knownCodeDiff[codeHash := CountOf(knownCodeDiff, codeHash) - 1];
        }
        return Finalized(AccountValue(0, 0, EMPTY_CODE_HASH, false, version + 1), None, knownCodeDiff, map[]);
      }
      final := Finalized(AccountValue(nonce, balance, codeHash, dirtyStorage, version), knownCode, knownCodeDiff,
                         knownStorage);
    }
  }
}
