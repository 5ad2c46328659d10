/**
 tempCommittedState as an object: accounts are loaded from it and folded into it (worldstate/tempcommitted_impl.go).
 */
module TempCommitted {
  import opened Types
  import opened Views
  import opened Accounts
  import opened Journal
  import opened MutableAccounts
  import opened Overlays
  import opened Transactions

  /** The values of the accounts in a map of objects. */
  ghost function ValuesOf(accounts: map<Address, MutableAccount>): map<Address, Account>
    reads accounts.Values
  {
    map a | a in accounts :: accounts[a].Value()
  }

  /** No object is in the map twice. */
  ghost predicate Distinct(accounts: map<Address, MutableAccount>) {
    forall a :: a in accounts ==> accounts[a].addr == a
  }

  /** The part of a map that has been visited. */
  function Seen<K, V>(m: map<K, V>, todo: set<K>): map<K, V> {
    map k | k in m && k !in todo :: m[k]
  }

  lemma CountsStep(counts: map<Hash, int>, diff: map<Hash, int>, todo: set<Hash>, h: Hash)
    requires h in diff && h in todo && todo <= diff.Keys
    ensures var before := AddCounts(counts, Seen(diff, todo));
            AddCounts(counts, Seen(diff, todo - {h})) == before[h := CountOf(before, h) + diff[h]]
  {
    assert Seen(diff, todo - {h}).Keys == Seen(diff, todo).Keys + {h};
  }

  function PutSlot(storage: map<(Address, nat), map<Hash, Hash>>, key: (Address, nat), slot: Hash, val: Hash)
    : map<(Address, nat), map<Hash, Hash>>
  {
    var inner: map<Hash, Hash> := if key in storage then storage[key] else map[];
    storage[key := inner[slot := val]]
  }

  lemma SlotsStep(storage: map<(Address, nat), map<Hash, Hash>>, key: (Address, nat), slots: map<Hash, Hash>,
                  todo: set<Hash>, k: Hash)
    requires k in slots && k in todo
    ensures AddSlots(storage, key, Seen(slots, todo - {k})) ==
            PutSlot(AddSlots(storage, key, Seen(slots, todo)), key, k, slots[k])
  {
    var before: map<Hash, Hash> := if key in storage then storage[key] else map[];
    var done, more := Seen(slots, todo), Seen(slots, todo - {k});
    assert k in more;
    assert before + more == (before + done)[k := slots[k]];
    assert before + map[] == before;
  }

  lemma SeenAll<K, V>(m: map<K, V>)
    ensures Seen(m, {}) == m && Seen(m, m.Keys) == map[]
  {
  }

  lemma VisitsMore(order: seq<Address>, keys: set<Address>, todo: set<Address>, last: Address)
    requires Visits(order, keys - todo) && last in todo && todo <= keys
    ensures Visits(order + [last], keys - (todo - {last}))
  {
  }

  class TempCommittedState {
    const keccak: Hasher
    const parent: View
    var committedAccounts: map<Address, AccountValue>
    var committedCodeCount: map<Hash, int>
    var codePreimage: map<Hash, Code>
    var committedStorage: map<(Address, nat), map<Hash, Hash>>
    var logs: map<Hash, seq<Log>>
    var logSize: nat

    ghost function State(): Overlay
      reads this
    {
      Overlay(committedAccounts, committedCodeCount, codePreimage, committedStorage, logs, logSize)
    }

    constructor (keccak: Hasher, parent: View)
      ensures this.keccak == keccak && this.parent == parent && State() == EMPTY_OVERLAY
    {
      this.keccak := keccak;
      this.parent := parent;
      committedAccounts := map[];
      committedCodeCount := map[];
      codePreimage := map[];
      committedStorage := map[];
      logs := map[];
      logSize := 0;
    }

    method GetMutableAccount(addr: Address) returns (res: MutableAccount)
      ensures fresh(res) && res.keccak == keccak && res.parent == parent && res.addr == addr
      ensures res.Value() == Load(State(), parent, addr)
    {
      var acct := if addr in committedAccounts then committedAccounts[addr] else parent.acct(addr);
      var knownCode := if acct.codeHash in codePreimage then Some(codePreimage[acct.codeHash]) else None;
      var knownStorage := if (addr, acct.version) in committedStorage then committedStorage[(addr, acct.version)]
                          else map[];
      res := new MutableAccount(keccak, parent, addr, acct, knownCode, knownStorage);
    }

    /** The logs of a finished transaction, none for one that is not known. */
    method GetLogs(hash: Hash) returns (res: seq<Log>)
      ensures hash in logs ==> res == logs[hash]
      ensures hash !in logs ==> res == []
    {
      res := if hash in logs then logs[hash] else [];
    }

    method AddCodeCounts(diff: map<Hash, int>)
      modifies this`committedCodeCount
      ensures committedCodeCount == AddCounts(old(committedCodeCount), diff)
    {
      var todo := diff.Keys;
      SeenAll(diff);
      assert AddCounts(committedCodeCount, map[]) == committedCodeCount;
      while todo != {}
        invariant todo <= diff.Keys
        invariant committedCodeCount == AddCounts(old(committedCodeCount), Seen(diff, todo))
        decreases |todo|
      {
        var codeHash: Hash :| codeHash in todo;
        CountsStep(old(committedCodeCount), diff, todo, codeHash);
        committedCodeCount := committedCodeCount[codeHash := CountOf(committedCodeCount, codeHash) + diff[codeHash]];
        todo := todo - {codeHash};
      }
    }

    method AddStorage(accountKey: (Address, nat), slots: map<Hash, Hash>)
      modifies this`committedStorage
      ensures committedStorage == AddSlots(old(committedStorage), accountKey, slots)
    {
      var todo := slots.Keys;
      SeenAll(slots);
      while todo != {}
        invariant todo <= slots.Keys
        invariant committedStorage == AddSlots(old(committedStorage), accountKey, Seen(slots, todo))
        decreases |todo|
      {
        var key: Hash :| key in todo;
        SlotsStep(old(committedStorage), accountKey, slots, todo, key);
        if accountKey !in committedStorage {
          committedStorage := committedStorage[accountKey := map[]];
        }
        var inner: map<Hash, Hash> := committedStorage[accountKey];
        committedStorage := committedStorage[accountKey := inner[key := slots[key]]];
        todo := todo - {key};
      }
    }

    /** One round of the loop of ApplyChanges. */
    method ApplyAccount(addr: Address, acct: MutableAccount)
      modifies this, acct
      ensures State() == ApplyOne(old(State()), addr, Accounts.GetFinalized(old(acct.Value())))
    {
      var final := acct.GetFinalized();
      committedAccounts := committedAccounts[addr := final.acct];
      if final.code.Some? && |final.code.value| > 0 {
        codePreimage := codePreimage[final.acct.codeHash := final.code.value];
      }
      AddCodeCounts(final.codeDiff);
      AddStorage((addr, final.acct.version), final.storage);
    }

    /** ApplyChanges; the logs of the transaction are kept under its hash. */
    method ApplyChanges(txHash: Hash, txLogs: seq<Log>, dirtyAccounts: map<Address, MutableAccount>)
      returns (ghost order: seq<Address>)
      requires Distinct(dirtyAccounts)
      modifies this, dirtyAccounts.Values
      ensures Visits(order, dirtyAccounts.Keys)
      ensures State() == AddLogs(ApplyAll(old(State()), old(ValuesOf(dirtyAccounts)), order), txHash, txLogs)
      ensures logs == old(logs)[txHash := txLogs] && logSize == old(logSize) + |txLogs|
    {
      ghost var values, before := ValuesOf(dirtyAccounts), State();
      order := ApplyAccounts(dirtyAccounts);
      AppliedKeepsLogs(before, values, order);
      logs := logs[txHash := txLogs];
      logSize := logSize + |txLogs|;
    }

    /** The dirty accounts are visited in some order; which one is left to Go. */
    method ApplyAccounts(dirtyAccounts: map<Address, MutableAccount>) returns (ghost order: seq<Address>)
      requires Distinct(dirtyAccounts)
      modifies this, dirtyAccounts.Values
      ensures Visits(order, dirtyAccounts.Keys)
      ensures State() == ApplyAll(old(State()), old(ValuesOf(dirtyAccounts)), order)
    {
      ghost var values := ValuesOf(dirtyAccounts);
      var todo := dirtyAccounts.Keys;
      order := [];
      while todo != {}
        invariant todo <= dirtyAccounts.Keys
        invariant Visits(order, dirtyAccounts.Keys - todo)
        invariant forall a {:trigger values[a]} :: a in todo ==> dirtyAccounts[a].Value() == values[a]
        invariant State() == ApplyAll(old(State()), values, order)
        decreases |todo|
      {
        var addr: Address :| addr in todo;
        Appended(old(State()), values, order, addr);
        VisitsMore(order, dirtyAccounts.Keys, todo, addr);
        ApplyAccount(addr, dirtyAccounts[addr]);
        order := order + [addr];
        todo := todo - {addr};
      }
    }

    lemma Appended(o: Overlay, accounts: map<Address, Account>, order: seq<Address>, last: Address)
      requires last in accounts && forall b :: b in order ==> b in accounts
      ensures ApplyAll(o, accounts, order + [last]) ==
              ApplyOne(ApplyAll(o, accounts, order), last, Accounts.GetFinalized(accounts[last]))
    {
      assert (order + [last])[..|order|] == order;
    }
  }
}
