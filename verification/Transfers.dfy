/** Balances in arithmetic: what adding and subtracting come to, and that a transfer creates and destroys nothing. */
module Transfers {
  import opened Types
  import opened Journal
  import opened Snapshots
  import opened Reverts
  import opened RevertRuns
  import opened OpMeaning

  /**
   Adding is addition modulo 2^256. Subtracting is subtraction, except that a difference of 2^255 or more is cleared: it
   reads as negative, whether the balance was too small or very large.
   */
  lemma BalanceMoves(env: Env, c: Core, op: Op)
    requires EnvOk(env) && CoreOk(env, c) && Settled(c) && (op.AddBalance? || op.SubBalance?)
    ensures var before, after := GetBalance(env, c, op.addr), GetBalance(env, Do(env, c, op).0, op.addr);
            && (op.AddBalance? ==> after == (before + op.amount) % TWO_256)
            && (op.SubBalance? && op.amount <= before < op.amount + TWO_255 ==> after == before - op.amount)
            && (op.SubBalance? && before >= op.amount + TWO_255 ==> after == 0)
            && (op.SubBalance? && before < op.amount <= before + TWO_255 ==> after == 0)
            && (op.SubBalance? && before + TWO_255 < op.amount ==> after == before + TWO_256 - op.amount)
  {
    DoMeans(env, c, op, op.addr);
    assert Show(env, c, op.addr).balance == GetBalance(env, c, op.addr);
    LessIs(GetBalance(env, c, op.addr), op.amount);
  }

  lemma LessIs(balance: Uint256, amount: Uint256)
    ensures amount <= balance < amount + TWO_255 ==> Less(balance, amount) == balance - amount
    ensures balance >= amount + TWO_255 ==> Less(balance, amount) == 0
    ensures balance < amount <= balance + TWO_255 ==> Less(balance, amount) == 0
    ensures balance + TWO_255 < amount ==> Less(balance, amount) == balance + TWO_256 - amount
  {
  }

  lemma OthersKeepBalance(env: Env, c: Core, op: Op, b: Address)
    requires EnvOk(env) && CoreOk(env, c) && Settled(c) && IsBalanceOp(op) && b != op.addr
    ensures GetBalance(env, Do(env, c, op).0, b) == GetBalance(env, c, b)
  {
    DoMeans(env, c, op, b);
    assert Show(env, c, b).balance == GetBalance(env, c, b);
  }

  /** The balances of these accounts together. */
  function Total(env: Env, c: Core, accounts: seq<Address>): nat {
    if accounts == [] then 0 else GetBalance(env, c, accounts[0]) + Total(env, c, accounts[1..])
  }

  predicate Distinct(accounts: seq<Address>) {
    forall i, j :: 0 <= i < j < |accounts| ==> accounts[i] != accounts[j]
  }

  /** When one balance changes, the total changes by as much. */
  lemma {:induction false} TotalMoves(env: Env, c: Core, c2: Core, accounts: seq<Address>, a: Address)
    requires Distinct(accounts)
    requires forall b :: b in accounts && b != a ==> GetBalance(env, c2, b) == GetBalance(env, c, b)
    ensures Total(env, c2, accounts) - Total(env, c, accounts) ==
            if a in accounts then GetBalance(env, c2, a) - GetBalance(env, c, a) else 0
    decreases |accounts|
  {
    if accounts != [] {
      var rest := accounts[1..];
      assert forall b :: b in accounts <==> b == accounts[0] || b in rest;
      TotalMoves(env, c, c2, rest, a);
    }
  }

  lemma TotalAfter(env: Env, c: Core, op: Op, accounts: seq<Address>)
    requires EnvOk(env) && CoreOk(env, c) && Settled(c) && IsBalanceOp(op) && Distinct(accounts) && op.addr in accounts
    ensures var c2 := Do(env, c, op).0;
            Total(env, c2, accounts) - Total(env, c, accounts) ==
              GetBalance(env, c2, op.addr) - GetBalance(env, c, op.addr)
  {
    var c2 := Do(env, c, op).0;
    forall b | b in accounts && b != op.addr ensures GetBalance(env, c2, b) == GetBalance(env, c, b) {
      OthersKeepBalance(env, c, op, b);
    }
    TotalMoves(env, c, c2, accounts, op.addr);
  }

  /**
   A transfer between two accounts that neither lacks the funds, nor wraps, nor leaves 2^255 or more, moves the amount
   and keeps the total of any accounts that they are among.
   */
  lemma TransferConserves(env: Env, c: Core, from: Address, to: Address, amount: Uint256, accounts: seq<Address>)
    requires EnvOk(env) && CoreOk(env, c) && Settled(c) && from != to
    requires amount <= GetBalance(env, c, from) < amount + TWO_255 && GetBalance(env, c, to) + amount < TWO_256
    requires Distinct(accounts) && from in accounts && to in accounts
    ensures var c2 := Do(env, Do(env, c, SubBalance(from, amount)).0, AddBalance(to, amount)).0;
            && GetBalance(env, c2, from) == GetBalance(env, c, from) - amount
            && GetBalance(env, c2, to) == GetBalance(env, c, to) + amount
            && Total(env, c2, accounts) == Total(env, c, accounts)
  {
    var sub, add := SubBalance(from, amount), AddBalance(to, amount);
    var c1 := Do(env, c, sub).0;
    DoOk(env, c, sub);
    BalanceMoves(env, c, sub);
    OthersKeepBalance(env, c, sub, to);
    TotalAfter(env, c, sub, accounts);
    BalanceMoves(env, c1, add);
    OthersKeepBalance(env, c1, add, from);
    TotalAfter(env, c1, add, accounts);
  }
}
