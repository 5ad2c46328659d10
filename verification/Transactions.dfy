/**
 Finalise and ApplyChanges: a finished transaction's dirty accounts are folded into the block's overlay, in whatever
 order a Go map is iterated, and the next transaction loads what the last one left.
 */
module Transactions {
  import opened Types
  import opened Views
  import opened Accounts
  import opened Journal
  import opened Snapshots
  import opened RevertRuns
  import opened OpMeaning
  import opened Counts
  import opened Overlays

  // ------------------------------------------------ what folding one account means

  /** What a view shows of an account at rest. */
  function AtRest(u: View, b: Address): Shown {
    var v := u.acct(b);
    Shown(v.nonce, v.balance, v.codeHash, PlainCode(u, b), v.dirtyStorage, v.version % VERSIONS)
  }

  const ABSENT := Shown(0, 0, EMPTY_CODE_HASH, [], false, NOT_EXISTED)

  /** A destroyed account is gone at the end of its transaction. */
  function Final(s: Shown): Shown {
    if s.status == BEING_DELETED then ABSENT else s
  }

  lemma FoldedCode(origin: Origin, o: Overlay, a: Account, o': Overlay)
    requires Foldable(origin, o, a) && o' == ApplyOne(o, origin.addr, GetFinalized(a)) && Status(a) == UPDATING
    ensures PlainCode(ViewOf(o', origin.parent), origin.addr) == CodeOfAccount(origin, a)
  {
    if a.codeHash != EMPTY_CODE_HASH {
      var u' := ViewOf(o', origin.parent);
      FoldOk(origin, o, a, o');
      OverOk(origin.keccak, LogOf(o', NO_KEY), origin.parent);
      assert origin.addr in Holders(u', a.codeHash);
      assert IsCodeOf(origin.keccak, u'.code(a.codeHash), a.codeHash);
      assert IsCodeOf(origin.keccak, CodeOfAccount(origin, a), a.codeHash);
    }
  }

  lemma FoldedShows(origin: Origin, o: Overlay, a: Account, o': Overlay)
    requires Foldable(origin, o, a) && o' == ApplyOne(o, origin.addr, GetFinalized(a))
    ensures AtRest(ViewOf(o', origin.parent), origin.addr) == Final(ShownOf(origin, a))
  {
    FinalVersion(origin, a);
    if Status(a) == UPDATING { FoldedCode(origin, o, a, o'); }
    assert ViewOf(o', origin.parent).acct(origin.addr) == GetFinalized(a).acct;
  }

  lemma FoldedShowsSlot(origin: Origin, o: Overlay, a: Account, o': Overlay, k: Hash)
    requires Foldable(origin, o, a) && o' == ApplyOne(o, origin.addr, GetFinalized(a))
    ensures PlainSlot(ViewOf(o', origin.parent), origin.addr, k) ==
              if Status(a) == BEING_DELETED then ZERO_HASH else Slot(origin, a.knownStorage, k)
  {
    FinalVersion(origin, a);
    if Status(a) == UPDATING { FoldedSlot(origin, o, a, o', k); }
  }

  /** Other accounts keep their code: it is found by its hash, before and after. */
  lemma OtherCode(origin: Origin, o: Overlay, a: Account, o': Overlay, b: Address)
    requires Foldable(origin, o, a) && o' == ApplyOne(o, origin.addr, GetFinalized(a)) && b != origin.addr
    ensures PlainCode(ViewOf(o', origin.parent), b) == PlainCode(ViewOf(o, origin.parent), b)
  {
    var u, u' := ViewOf(o, origin.parent), ViewOf(o', origin.parent);
    var h := u.acct(b).codeHash;
    assert u'.acct(b) == u.acct(b);
    if h != EMPTY_CODE_HASH {
      FoldOk(origin, o, a, o');
      OverOk(origin.keccak, LogOf(o, NO_KEY), origin.parent);
      OverOk(origin.keccak, LogOf(o', NO_KEY), origin.parent);
      assert b in Holders(u, h) && b in Holders(u', h);
      assert IsCodeOf(origin.keccak, u.code(h), h) && IsCodeOf(origin.keccak, u'.code(h), h);
    }
  }

  lemma OthersKept(origin: Origin, o: Overlay, a: Account, o': Overlay, b: Address, k: Hash)
    requires Foldable(origin, o, a) && o' == ApplyOne(o, origin.addr, GetFinalized(a)) && b != origin.addr
    ensures AtRest(ViewOf(o', origin.parent), b) == AtRest(ViewOf(o, origin.parent), b)
    ensures PlainSlot(ViewOf(o', origin.parent), b, k) == PlainSlot(ViewOf(o, origin.parent), b, k)
  {
    OtherCode(origin, o, a, o', b);
    OtherSlots(o, origin.addr, GetFinalized(a), origin.parent, b, ViewOf(o, origin.parent).acct(b).version, k);
  }

  // --------------------------------------------------------- folding all of them

  /** ApplyChanges, iterating over the dirty accounts in some order. */
  function ApplyAll(o: Overlay, accounts: map<Address, Account>, order: seq<Address>): Overlay
    requires forall b :: b in order ==> b in accounts
  {
    if order == [] then o
    else
      var rest, last := order[..|order| - 1], order[|order| - 1];
      ApplyOne(ApplyAll(o, accounts, rest), last, GetFinalized(accounts[last]))
  }

  predicate Once(order: seq<Address>) {
    forall i, j :: 0 <= i < j < |order| ==> order[i] != order[j]
  }

  /** The order visits every key once. */
  ghost predicate Visits(order: seq<Address>, keys: set<Address>) {
    && (forall b :: b in order <==> b in keys)
    && Once(order)
  }

  /** The overlay still has of b what it had. */
  ghost predicate Untouched(o: Overlay, o': Overlay, b: Address) {
    && (b in o'.accounts <==> b in o.accounts)
    && (b in o.accounts ==> o'.accounts[b] == o.accounts[b])
    && (forall v: nat :: KnownSlots(o', b, v) == KnownSlots(o, b, v))
  }

  lemma OneTouches(o: Overlay, o1: Overlay, addr: Address, f: Finalized, b: Address)
    requires Untouched(o, o1, b) && b != addr
    ensures Untouched(o, ApplyOne(o1, addr, f), b)
  {
  }

  /** The accounts of a transaction on top of o, ready to be folded in. */
  ghost predicate Ready(env: Env, o: Overlay, accounts: map<Address, Account>) {
    && Hashes(env.keccak) && ViewOk(env.keccak, env.parent) && OverlayOk(env.keccak, o, env.parent)
    && (forall b: Address :: env.load(b) == Load(o, env.parent, b))
    && EnvOk(env)
    && (forall b: Address :: b in accounts ==>
          AccountOk(OriginOf(env, b), accounts[b]) && DiffOk(OriginOf(env, b), accounts[b]) &&
            Status(accounts[b]) != NOT_EXISTED)
  }

  lemma StillFoldable(env: Env, o: Overlay, accounts: map<Address, Account>, o1: Overlay, b: Address)
    requires Ready(env, o, accounts) && b in accounts && Untouched(o, o1, b) && OverlayOk(env.keccak, o1, env.parent)
    ensures Foldable(OriginOf(env, b), o1, accounts[b])
  {
    assert OriginOk(OriginOf(env, b));
    assert env.load(b) == Load(o, env.parent, b);
    assert ViewOf(o1, env.parent).acct(b) == ViewOf(o, env.parent).acct(b);
    assert KnownSlots(o1, b, env.load(b).version) == KnownSlots(o, b, env.load(b).version);
  }

  lemma {:induction false} AllFold(env: Env, o: Overlay, accounts: map<Address, Account>, order: seq<Address>)
    requires Ready(env, o, accounts) && (forall b :: b in order ==> b in accounts)
    requires Once(order)
    ensures OverlayOk(env.keccak, ApplyAll(o, accounts, order), env.parent)
    ensures forall b: Address :: b !in order ==> Untouched(o, ApplyAll(o, accounts, order), b)
    decreases |order|
  {
    if order != [] {
      var rest, last := order[..|order| - 1], order[|order| - 1];
      AllFold(env, o, accounts, rest);
      var o1 := ApplyAll(o, accounts, rest);
      assert last !in rest;
      StillFoldable(env, o, accounts, o1, last);
      FoldOk(OriginOf(env, last), o1, accounts[last], ApplyAll(o, accounts, order));
      forall b: Address | b !in order ensures Untouched(o, ApplyAll(o, accounts, order), b) {
        assert b !in rest && b != last;
        OneTouches(o, o1, last, GetFinalized(accounts[last]), b);
      }
    }
  }

  /** o' shows what the accounts that were folded in came to, and of the others what o shows. */
  ghost predicate ShowsFolded(env: Env, o: Overlay, accounts: map<Address, Account>, o': Overlay, folded: bool,
                              b: Address, k: Hash) {
    var u, u' := ViewOf(o, env.parent), ViewOf(o', env.parent);
    if folded && b in accounts then
      && AtRest(u', b) == Final(ShownOf(OriginOf(env, b), accounts[b]))
      && PlainSlot(u', b, k) ==
           (if Status(accounts[b]) == BEING_DELETED then ZERO_HASH
            else Slot(OriginOf(env, b), accounts[b].knownStorage, k))
    else AtRest(u', b) == AtRest(u, b) && PlainSlot(u', b, k) == PlainSlot(u, b, k)
  }

  lemma LastFoldable(env: Env, o: Overlay, accounts: map<Address, Account>, rest: seq<Address>, last: Address)
    requires Ready(env, o, accounts) && (forall b :: b in rest ==> b in accounts) && last in accounts && last !in rest
    requires Once(rest)
    ensures Foldable(OriginOf(env, last), ApplyAll(o, accounts, rest), accounts[last])
  {
    AllFold(env, o, accounts, rest);
    StillFoldable(env, o, accounts, ApplyAll(o, accounts, rest), last);
  }

  lemma LastOf(order: seq<Address>, b: Address)
    requires order != [] && Once(order)
    ensures var rest, last := order[..|order| - 1], order[|order| - 1];
            Once(rest) && last in order && last !in rest && (b in order <==> b in rest || b == last)
  {
    assert order == order[..|order| - 1] + [order[|order| - 1]];
  }

  lemma LastApplied(o: Overlay, accounts: map<Address, Account>, order: seq<Address>)
    requires order != [] && forall b :: b in order ==> b in accounts
    ensures var rest, last := order[..|order| - 1], order[|order| - 1];
            && last in accounts && (forall b :: b in rest ==> b in accounts)
            && ApplyAll(o, accounts, order) == ApplyOne(ApplyAll(o, accounts, rest), last, GetFinalized(accounts[last]))
  {
  }

  lemma LastShows(env: Env, o: Overlay, accounts: map<Address, Account>, order: seq<Address>, rest: seq<Address>,
                  last: Address, o1: Overlay, o2: Overlay, b: Address, k: Hash)
    requires Ready(env, o, accounts) && last in accounts && last !in rest && (forall b :: b in rest ==> b in accounts)
    requires Once(rest)
    requires o1 == ApplyAll(o, accounts, rest) && o2 == ApplyOne(o1, last, GetFinalized(accounts[last]))
    requires b in order <==> b in rest || b == last
    requires ShowsFolded(env, o, accounts, o1, b in rest, b, k)
    ensures ShowsFolded(env, o, accounts, o2, b in order, b, k)
  {
    LastFoldable(env, o, accounts, rest, last);
    ShowStep(env, o, accounts, o1, o2, b in rest, b in order, last, b, k);
  }

  lemma {:induction false} AllShow(env: Env, o: Overlay, accounts: map<Address, Account>, order: seq<Address>,
                                   b: Address, k: Hash)
    requires Ready(env, o, accounts) && (forall b :: b in order ==> b in accounts)
    requires Once(order)
    ensures ShowsFolded(env, o, accounts, ApplyAll(o, accounts, order), b in order, b, k)
    decreases |order|
  {
    if order != [] {
      var rest, last := order[..|order| - 1], order[|order| - 1];
      LastOf(order, b);
      LastApplied(o, accounts, order);
      AllShow(env, o, accounts, rest, b, k);
      LastShows(env, o, accounts, order, rest, last, ApplyAll(o, accounts, rest), ApplyAll(o, accounts, order), b, k);
    }
  }

  lemma ShowStep(env: Env, o: Overlay, accounts: map<Address, Account>, o1: Overlay, o2: Overlay, folded: bool,
                 folded': bool, last: Address, b: Address, k: Hash)
    requires last in accounts && ShowsFolded(env, o, accounts, o1, folded, b, k) && (folded ==> b != last)
    requires folded' == (folded || b == last)
    requires Foldable(OriginOf(env, last), o1, accounts[last]) && o2 == ApplyOne(o1, last, GetFinalized(accounts[last]))
    ensures ShowsFolded(env, o, accounts, o2, folded', b, k)
  {
    OneShows(OriginOf(env, last), o1, accounts[last], o2, b, k);
  }

  lemma OneShows(origin: Origin, o: Overlay, a: Account, o': Overlay, b: Address, k: Hash)
    requires Foldable(origin, o, a) && o' == ApplyOne(o, origin.addr, GetFinalized(a))
    ensures var u, u' := ViewOf(o, origin.parent), ViewOf(o', origin.parent);
            && AtRest(u', b) == (if b == origin.addr then Final(ShownOf(origin, a)) else AtRest(u, b))
            && PlainSlot(u', b, k) ==
                 (if b != origin.addr then PlainSlot(u, b, k)
                  else if Status(a) == BEING_DELETED then ZERO_HASH
                  else Slot(origin, a.knownStorage, k))
  {
    if b == origin.addr {
      FoldedShows(origin, o, a, o');
      FoldedShowsSlot(origin, o, a, o', k);
    } else {
      OthersKept(origin, o, a, o', b, k);
    }
  }

  // ------------------------------------------------------------------ finalise

  /** Finalise deletes the touched accounts that are empty; it would panic on one that does not exist. */
  function Emptied(a: Account, deleteEmpty: bool): Account
    requires Status(a) != NOT_EXISTED
  {
    if deleteEmpty && Empty(a) then SelfDestruct(a).0 else a
  }

  function EmptiedAll(accounts: map<Address, Account>, deleteEmpty: bool): map<Address, Account>
    requires forall b :: b in accounts ==> Status(accounts[b]) != NOT_EXISTED
  {
    map b | b in accounts :: Emptied(accounts[b], deleteEmpty)
  }

  function AddLogs(o: Overlay, txHash: Hash, logs: seq<Log>): Overlay {
    o.(logs := o.logs[txHash := logs], logSize := o.logSize + |logs|)
  }

  /** The overlay after Finalise. */
  function FinalOverlay(o: Overlay, c: Core, txHash: Hash, deleteEmpty: bool, order: seq<Address>): Overlay
    requires forall b :: b in c.dirtyAccounts ==> Status(c.dirtyAccounts[b]) != NOT_EXISTED
    requires forall b :: b in order ==> b in c.dirtyAccounts
  {
    AddLogs(ApplyAll(o, EmptiedAll(c.dirtyAccounts, deleteEmpty), order), txHash, c.logs)
  }

  lemma {:induction false} AppliedKeepsLogs(o: Overlay, accounts: map<Address, Account>, order: seq<Address>)
    requires forall b :: b in order ==> b in accounts
    ensures ApplyAll(o, accounts, order).logs == o.logs && ApplyAll(o, accounts, order).logSize == o.logSize
    decreases |order|
  {
    if order != [] { AppliedKeepsLogs(o, accounts, order[..|order| - 1]); }
  }

  /** A finished transaction's logs are kept under its hash and counted; those under other hashes stay. */
  lemma FinaliseLogs(o: Overlay, c: Core, txHash: Hash, deleteEmpty: bool, order: seq<Address>)
    requires forall b :: b in c.dirtyAccounts ==> Status(c.dirtyAccounts[b]) != NOT_EXISTED
    requires forall b :: b in order ==> b in c.dirtyAccounts
    ensures var o' := FinalOverlay(o, c, txHash, deleteEmpty, order);
            o'.logs == o.logs[txHash := c.logs] && o'.logSize == o.logSize + |c.logs|
  {
    AppliedKeepsLogs(o, EmptiedAll(c.dirtyAccounts, deleteEmpty), order);
  }

  /** What is left of the transaction's own state. */
  function Cleared(c: Core): Core {
    Core(map[], map[], map[], [], {}, c.logs, c.refund)
  }

  lemma LogsApart(keccak: Hasher, o: Overlay, txHash: Hash, logs: seq<Log>, parent: View)
    ensures OverlayOk(keccak, o, parent) <==> OverlayOk(keccak, AddLogs(o, txHash, logs), parent)
    ensures ViewOf(AddLogs(o, txHash, logs), parent) == ViewOf(o, parent)
  {
    assert LogOf(AddLogs(o, txHash, logs), NO_KEY) == LogOf(o, NO_KEY);
  }

  lemma EmptiedOk(o: Origin, a: Account, deleteEmpty: bool)
    requires OriginOk(o) && AccountOk(o, a) && DiffOk(o, a) && Status(a) != NOT_EXISTED
    ensures var e := Emptied(a, deleteEmpty);
            && AccountOk(o, e) && DiffOk(o, e) && Status(e) != NOT_EXISTED && e.knownStorage == a.knownStorage
            && Status(e) == (if deleteEmpty && Empty(a) then BEING_DELETED else Status(a))
            && Final(ShownOf(o, e)) == (if deleteEmpty && Empty(a) then ABSENT else Final(ShownOf(o, a)))
  {
    NextStatus(a);
    SelfDestructUndo(o, a);
  }

  /** Between public operations, when the context was made for o. */
  ghost predicate Ongoing(env: Env, o: Overlay, c: Core) {
    && Hashes(env.keccak) && ViewOk(env.keccak, env.parent) && OverlayOk(env.keccak, o, env.parent)
    && (forall b: Address :: env.load(b) == Load(o, env.parent, b))
    && EnvOk(env) && CoreOk(env, c) && Settled(c) && DiffsOk(env, c)
  }

  lemma EmptiedReady(env: Env, o: Overlay, c: Core, deleteEmpty: bool)
    requires Ongoing(env, o, c)
    ensures Ready(env, o, EmptiedAll(c.dirtyAccounts, deleteEmpty))
  {
    var accounts := EmptiedAll(c.dirtyAccounts, deleteEmpty);
    forall b: Address | b in accounts
      ensures AccountOk(OriginOf(env, b), accounts[b])
      ensures DiffOk(OriginOf(env, b), accounts[b]) && Status(accounts[b]) != NOT_EXISTED
    {
      assert OriginOk(OriginOf(env, b));
      EmptiedOk(OriginOf(env, b), c.dirtyAccounts[b], deleteEmpty);
    }
  }

  lemma FoldedAndLogged(env: Env, o: Overlay, accounts: map<Address, Account>, order: seq<Address>, txHash: Hash,
                        logs: seq<Log>)
    requires Ready(env, o, accounts) && Visits(order, accounts.Keys)
    ensures OverlayOk(env.keccak, AddLogs(ApplyAll(o, accounts, order), txHash, logs), env.parent)
  {
    AllFold(env, o, accounts, order);
    LogsApart(env.keccak, ApplyAll(o, accounts, order), txHash, logs, env.parent);
  }

  /** Finalise never panics between public operations, and leaves an overlay that fits its parent. */
  lemma FinaliseOk(env: Env, o: Overlay, c: Core, txHash: Hash, deleteEmpty: bool, order: seq<Address>)
    requires Ongoing(env, o, c) && Visits(order, c.dirtyAccounts.Keys)
    ensures OverlayOk(env.keccak, FinalOverlay(o, c, txHash, deleteEmpty, order), env.parent)
  {
    EmptiedReady(env, o, c, deleteEmpty);
    ReadyFinalises(env, o, c, txHash, deleteEmpty, order);
  }

  lemma ReadyFinalises(env: Env, o: Overlay, c: Core, txHash: Hash, deleteEmpty: bool, order: seq<Address>)
    requires forall b :: b in c.dirtyAccounts ==> Status(c.dirtyAccounts[b]) != NOT_EXISTED
    requires Ready(env, o, EmptiedAll(c.dirtyAccounts, deleteEmpty)) && Visits(order, c.dirtyAccounts.Keys)
    ensures OverlayOk(env.keccak, FinalOverlay(o, c, txHash, deleteEmpty, order), env.parent)
  {
    assert EmptiedAll(c.dirtyAccounts, deleteEmpty).Keys == c.dirtyAccounts.Keys;
    FoldedAndLogged(env, o, EmptiedAll(c.dirtyAccounts, deleteEmpty), order, txHash, c.logs);
  }

  /** A touched account goes when it was destroyed, or when it is empty and empty accounts are to go. */
  predicate Goes(s: Shown, deleteEmpty: bool) {
    s.status == BEING_DELETED || (deleteEmpty && s.nonce == 0 && s.balance == 0 && s.codeHash == EMPTY_CODE_HASH)
  }

  /** An account that was never touched shows what the overlay holds. */
  lemma UntouchedShows(env: Env, o: Overlay, c: Core, b: Address, k: Hash)
    requires Ongoing(env, o, c) && b !in c.dirtyAccounts
    ensures Show(env, c, b) == AtRest(ViewOf(o, env.parent), b)
    ensures GetState(env, c, b, k) == PlainSlot(ViewOf(o, env.parent), b, k)
  {
    assert env.load(b) == Load(o, env.parent, b);
    LoadNotExisting(env.keccak, o, env.parent, b);
    var u := ViewOf(o, env.parent);
    assert u.slot(b, u.acct(b).version, k) ==
           SlotOver(LogOf(o, NO_KEY), b, u.acct(b).version, k, env.parent.slot(b, u.acct(b).version, k));
  }

  /**
   The refinement step: after Finalise the overlay shows, of every account, what the transaction's getters showed last,
   with the destroyed and the deleted-for-emptiness gone and their storage zero.
   */
  lemma FinaliseMeans(env: Env, o: Overlay, c: Core, txHash: Hash, deleteEmpty: bool, order: seq<Address>, b: Address,
                      k: Hash)
    requires Ongoing(env, o, c) && Visits(order, c.dirtyAccounts.Keys)
    ensures var u' := ViewOf(FinalOverlay(o, c, txHash, deleteEmpty, order), env.parent);
            var gone := b in c.dirtyAccounts && Goes(Show(env, c, b), deleteEmpty);
            && AtRest(u', b) == (if gone then ABSENT else Show(env, c, b))
            && PlainSlot(u', b, k) == (if gone then ZERO_HASH else GetState(env, c, b, k))
  {
    var o1 := ApplyAll(o, EmptiedAll(c.dirtyAccounts, deleteEmpty), order);
    AppliedMeans(env, o, c, deleteEmpty, order, b, k, o1);
    LogsApart(env.keccak, o1, txHash, c.logs, env.parent);
  }

  lemma AppliedMeans(env: Env, o: Overlay, c: Core, deleteEmpty: bool, order: seq<Address>, b: Address, k: Hash,
                     o1: Overlay)
    requires Ongoing(env, o, c) && Visits(order, c.dirtyAccounts.Keys)
    requires o1 == ApplyAll(o, EmptiedAll(c.dirtyAccounts, deleteEmpty), order)
    ensures var u' := ViewOf(o1, env.parent);
            var gone := b in c.dirtyAccounts && Goes(Show(env, c, b), deleteEmpty);
            && AtRest(u', b) == (if gone then ABSENT else Show(env, c, b))
            && PlainSlot(u', b, k) == (if gone then ZERO_HASH else GetState(env, c, b, k))
  {
    var accounts := EmptiedAll(c.dirtyAccounts, deleteEmpty);
    EmptiedReady(env, o, c, deleteEmpty);
    AllShow(env, o, accounts, order, b, k);
    if b in c.dirtyAccounts { EmptiedMeans(env, o, c, deleteEmpty, b, k); } else { UntouchedShows(env, o, c, b, k); }
  }

  lemma EmptiedMeans(env: Env, o: Overlay, c: Core, deleteEmpty: bool, b: Address, k: Hash)
    requires Ongoing(env, o, c) && b in c.dirtyAccounts
    ensures var e, gone := Emptied(c.dirtyAccounts[b], deleteEmpty), Goes(Show(env, c, b), deleteEmpty);
            && Final(ShownOf(OriginOf(env, b), e)) == (if gone then ABSENT else Show(env, c, b))
            && (Status(e) == BEING_DELETED <==> gone)
            && Slot(OriginOf(env, b), e.knownStorage, k) == GetState(env, c, b, k)
  {
    assert OriginOk(OriginOf(env, b));
    EmptiedOk(OriginOf(env, b), c.dirtyAccounts[b], deleteEmpty);
    ShowIs(env, c, b);
    GetStateIsSlot(env, c, b, k);
  }

  /** Every committed version says that the account does not exist or that it is being updated. */
  lemma FinalVersions(keccak: Hasher, o: Overlay, parent: View, b: Address)
    requires OverlayOk(keccak, o, parent) && b in o.accounts
    ensures o.accounts[b].version % VERSIONS != BEING_DELETED
    ensures o.accounts[b].version % VERSIONS == NOT_EXISTED ==> o.accounts[b] == EmptyAccount(o.accounts[b].version)
  {
    assert AccountFits(parent, b, LogOf(o, NO_KEY).updatedAccounts[b]);
  }
}
