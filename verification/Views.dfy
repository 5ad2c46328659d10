/**
 What a world state layer answers when it is read, independently of how it is stored:
 the meaning of GetAccountValue, GetStorageByVersion and GetCodeByHash.
 */
module Views {
  import opened Types

  datatype View = View(
    acct: Address -> AccountValue,
    slot: (Address, nat, Hash) -> Hash,
    code: Hash -> Code)

  /**
   Keccak-256 is a parameter of the model. It has collisions, as any hash does: only the codes in play, those a genesis
   allocates and those that blocks set, are assumed to have different hashes.
   */
  datatype Hasher = Hasher(hash: Code -> Hash, inPlay: set<Code>)

  predicate IsCodeOf(keccak: Hasher, code: Code, h: Hash) {
    code in keccak.inPlay && keccak.hash(code) == h
  }

  predicate Hashes(keccak: Hasher) {
    && IsCodeOf(keccak, [], EMPTY_CODE_HASH)
    && (forall c, d :: c in keccak.inPlay && d in keccak.inPlay && keccak.hash(c) == keccak.hash(d) ==> c == d)
  }

  // ---------------------------------------------------------------- lookups

  /** The slot a log holds for an account version, or the value found below it. */
  function SlotOver(log: LayerLog, a: Address, v: nat, k: Hash, below: Hash): Hash {
    if (a, v) in log.updatedStorage && k in log.updatedStorage[(a, v)] then log.updatedStorage[(a, v)][k] else below
  }

  /** The uncached lookup of a diff layer: its own log first, then its parent. */
  function Over(log: LayerLog, below: View): View {
    View(
      (a: Address) => if a in log.updatedAccounts then log.updatedAccounts[a] else below.acct(a),
      (a: Address, v: nat, k: Hash) => SlotOver(log, a, v, k, below.slot(a, v, k)),
      (h: Hash) => if h in log.codePreimage then log.codePreimage[h] else below.code(h))
  }

  // ------------------------------------------------------- the plain meaning

  /** A plain account, as the protocol sees it: no versions, no layers. */
  datatype PlainAccount = PlainAccount(present: bool, nonce: Uint64, balance: Uint256, codeHash: Hash, hasStorage: bool)

  function Plain(u: View, a: Address): PlainAccount {
    var acct := u.acct(a);
    PlainAccount(acct.version % VERSIONS != NOT_EXISTED, acct.nonce, acct.balance, acct.codeHash, acct.dirtyStorage)
  }

  function PlainSlot(u: View, a: Address, k: Hash): Hash {
    var acct := u.acct(a);
    if acct.dirtyStorage then u.slot(a, acct.version, k) else ZERO_HASH
  }

  function PlainCode(u: View, a: Address): Code {
    var acct := u.acct(a);
    if acct.codeHash == EMPTY_CODE_HASH then [] else u.code(acct.codeHash)
  }

  /** The two views cannot be told apart as plain account maps. */
  ghost predicate PlainEq(u: View, w: View) {
    && (forall a: Address :: Plain(u, a) == Plain(w, a))
    && (forall a: Address, k: Hash :: PlainSlot(u, a, k) == PlainSlot(w, a, k))
    && (forall a: Address :: PlainCode(u, a) == PlainCode(w, a))
  }

  // ---------------------------------------------------------- well-formedness

  /** The accounts whose code hash is h. */
  ghost function Holders(u: View, h: Hash): set<Address> {
    set a: int | 0 <= a < TWO_160 && u.acct(a).codeHash == h
  }

  ghost predicate CanonicalAccount(acct: AccountValue) {
    && acct.version % VERSIONS != BEING_DELETED
    && (acct.version % VERSIONS == NOT_EXISTED ==> acct == EmptyAccount(acct.version))
  }

  /** Slots exist only under a version an account has, or had, while it was being updated. */
  ghost predicate SlotsFresh(u: View) {
    forall a: Address, v: nat, k: Hash :: u.slot(a, v, k) != ZERO_HASH ==>
      v <= u.acct(a).version && v % VERSIONS == UPDATING
  }

  ghost predicate CleanStorage(u: View) {
    forall a: Address, k: Hash :: !u.acct(a).dirtyStorage ==> u.slot(a, u.acct(a).version, k) == ZERO_HASH
  }

  ghost predicate CodeFound(keccak: Hasher, u: View) {
    forall h: Hash :: h != EMPTY_CODE_HASH && Holders(u, h) != {} ==> IsCodeOf(keccak, u.code(h), h)
  }

  ghost predicate ViewOk(keccak: Hasher, u: View) {
    && (forall a: Address :: CanonicalAccount(u.acct(a)))
    && SlotsFresh(u)
    && CleanStorage(u)
    && CodeFound(keccak, u)
  }

  function CountOf(counts: map<Hash, int>, h: Hash): int {
    if h in counts then counts[h] else 0
  }

  ghost predicate AccountFits(u: View, a: Address, acct: AccountValue) {
    && CanonicalAccount(acct)
    && u.acct(a).version <= acct.version
    && (u.acct(a).version == acct.version && u.acct(a).dirtyStorage ==> acct.dirtyStorage)
  }

  /** A log writes slots only at versions its accounts have passed through since the parent. */
  ghost predicate StorageFits(log: LayerLog, u: View) {
    forall a: Address, v: nat :: (a, v) in log.updatedStorage ==>
      && u.acct(a).version <= v
      && v % VERSIONS == UPDATING
      && a in log.updatedAccounts
      && v <= log.updatedAccounts[a].version
  }

  ghost predicate CountsFit(log: LayerLog, u: View) {
    && EMPTY_CODE_HASH !in log.updatedCodeCount
    && (forall h: Hash :: h != EMPTY_CODE_HASH ==>
          CountOf(log.updatedCodeCount, h) == |Holders(Over(log, u), h)| - |Holders(u, h)|)
  }

  ghost predicate PreimagesFit(keccak: Hasher, log: LayerLog, u: View) {
    && EMPTY_CODE_HASH !in log.codePreimage
    && (forall h: Hash :: h in log.codePreimage ==> IsCodeOf(keccak, log.codePreimage[h], h))
    && (forall a: Address :: a in log.updatedAccounts ==>
          var h := log.updatedAccounts[a].codeHash;
          h == EMPTY_CODE_HASH || h in log.codePreimage || Holders(u, h) != {})
  }

  /** What a committed layer log promises about the state it was built on. */
  ghost predicate LogFits(keccak: Hasher, log: LayerLog, u: View) {
    && (forall a: Address :: a in log.updatedAccounts ==> AccountFits(u, a, log.updatedAccounts[a]))
    && StorageFits(log, u)
    && CleanStorage(Over(log, u))
    && CountsFit(log, u)
    && PreimagesFit(keccak, log, u)
  }

  /** A layer built by a fitting log is well formed again. */
  lemma OverOk(keccak: Hasher, log: LayerLog, u: View)
    requires ViewOk(keccak, u) && LogFits(keccak, log, u)
    ensures ViewOk(keccak, Over(log, u))
  {
    var w := Over(log, u);
    forall a: Address ensures CanonicalAccount(w.acct(a)) {
      if a in log.updatedAccounts { assert AccountFits(u, a, log.updatedAccounts[a]); }
    }
    forall a: Address, v: nat, k: Hash | w.slot(a, v, k) != ZERO_HASH
      ensures v <= w.acct(a).version && v % VERSIONS == UPDATING
    {
      if a in log.updatedAccounts { assert AccountFits(u, a, log.updatedAccounts[a]); }
      if (a, v) !in log.updatedStorage || k !in log.updatedStorage[(a, v)] {
        assert u.slot(a, v, k) != ZERO_HASH;
      }
    }
    forall h: Hash | h != EMPTY_CODE_HASH && Holders(w, h) != {} ensures IsCodeOf(keccak, w.code(h), h) {
      var a :| a in Holders(w, h);
      if a in log.updatedAccounts {
        assert log.updatedAccounts[a].codeHash == h;
      } else {
        assert a in Holders(u, h);
      }
    }
  }

  /** Versions never decrease from a layer to the layers above it. */
  lemma VersionsGrow(keccak: Hasher, log: LayerLog, u: View, a: Address)
    requires LogFits(keccak, log, u)
    ensures u.acct(a).version <= Over(log, u).acct(a).version
  {
    if a in log.updatedAccounts { assert AccountFits(u, a, log.updatedAccounts[a]); }
  }

  // ------------------------------------------------- agreement on what is live

  /** u and w agree on every account, on every slot whose version is still reachable, and on referenced code. */
  ghost predicate LiveEq(u: View, w: View) {
    && (forall a: Address :: u.acct(a) == w.acct(a))
    && (forall a: Address, v: nat, k: Hash :: u.acct(a).version <= v ==> u.slot(a, v, k) == w.slot(a, v, k))
    && (forall h: Hash :: h != EMPTY_CODE_HASH && Holders(u, h) != {} ==> u.code(h) == w.code(h))
  }

  lemma SameHolders(u: View, w: View, h: Hash)
    requires forall a: Address :: u.acct(a) == w.acct(a)
    ensures Holders(u, h) == Holders(w, h)
  {
  }

  lemma LessOne<T>(s: set<T>, x: T)
    ensures |s - {x}| == |s| - (if x in s then 1 else 0)
  {
    if x in s { assert s == (s - {x}) + {x}; } else { assert s - {x} == s; }
  }

  /** Changing one account moves it from one set of holders to another. */
  lemma HoldersStep(u: View, w: View, a: Address, h: Hash)
    requires forall b: Address :: b != a ==> u.acct(b) == w.acct(b)
    ensures |Holders(w, h)| == |Holders(u, h)| - (if u.acct(a).codeHash == h then 1 else 0)
                                               + (if w.acct(a).codeHash == h then 1 else 0)
  {
    var x, y := Holders(u, h), Holders(w, h);
    LessOne(x, a);
    LessOne(y, a);
    assert x - {a} == y - {a} by {
      forall b ensures b in x - {a} <==> b in y - {a} {}
    }
  }

  lemma LiveEqTransitive(u: View, w: View, x: View)
    requires LiveEq(u, w) && LiveEq(w, x)
    ensures LiveEq(u, x)
  {
    forall h: Hash | h != EMPTY_CODE_HASH && Holders(u, h) != {} ensures u.code(h) == x.code(h) {
      SameHolders(u, w, h);
    }
  }

  lemma LiveEqSymmetric(u: View, w: View)
    requires LiveEq(u, w)
    ensures LiveEq(w, u)
  {
    forall h: Hash | h != EMPTY_CODE_HASH && Holders(w, h) != {} ensures u.code(h) == w.code(h) {
      SameHolders(u, w, h);
    }
  }

  /** A full copy of a well-formed view, up to unreferenced code, is well formed. */
  lemma ViewOkCopy(keccak: Hasher, u: View, w: View)
    requires ViewOk(keccak, u)
    requires forall a: Address :: u.acct(a) == w.acct(a)
    requires forall a: Address, v: nat, k: Hash :: u.slot(a, v, k) == w.slot(a, v, k)
    requires forall h: Hash :: h != EMPTY_CODE_HASH && Holders(u, h) != {} ==> u.code(h) == w.code(h)
    ensures ViewOk(keccak, w)
  {
    forall h: Hash ensures Holders(u, h) == Holders(w, h) { SameHolders(u, w, h); }
  }

  /** Live agreement is all that a plain account map can show. */
  lemma LiveEqIsPlainEq(u: View, w: View)
    requires LiveEq(u, w)
    ensures PlainEq(u, w)
  {
    forall a: Address ensures PlainCode(u, a) == PlainCode(w, a) {
      if u.acct(a).codeHash != EMPTY_CODE_HASH { assert a in Holders(u, u.acct(a).codeHash); }
    }
  }

  /** The key step of pruning: agreement below a fitting log is agreement above it. */
  lemma OverLiveEq(keccak: Hasher, log: LayerLog, u: View, w: View)
    requires LogFits(keccak, log, u) && LiveEq(u, w)
    ensures LiveEq(Over(log, u), Over(log, w))
  {
    var x, y := Over(log, u), Over(log, w);
    forall a: Address, v: nat, k: Hash | x.acct(a).version <= v ensures x.slot(a, v, k) == y.slot(a, v, k) {
      VersionsGrow(keccak, log, u, a);
    }
    forall h: Hash | h != EMPTY_CODE_HASH && Holders(x, h) != {} ensures x.code(h) == y.code(h) {
      if h !in log.codePreimage {
        var a :| a in Holders(x, h);
        if a in log.updatedAccounts {
          assert log.updatedAccounts[a].codeHash == h;
        } else {
          assert a in Holders(u, h);
        }
      }
    }
  }

  /** Fitting depends only on what stays live. */
  lemma LogFitsLiveEq(keccak: Hasher, log: LayerLog, u: View, w: View)
    requires LogFits(keccak, log, u) && LiveEq(u, w)
    ensures LogFits(keccak, log, w)
  {
    forall a: Address | a in log.updatedAccounts ensures AccountFits(w, a, log.updatedAccounts[a]) {
      assert AccountFits(u, a, log.updatedAccounts[a]);
    }
    OverLiveEq(keccak, log, u, w);
    forall h: Hash ensures Holders(u, h) == Holders(w, h) && Holders(Over(log, u), h) == Holders(Over(log, w), h) {
      SameHolders(u, w, h);
      SameHolders(Over(log, u), Over(log, w), h);
    }
  }
}
