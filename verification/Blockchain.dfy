/**
 The fork-aware block index (blockchain/blockchain_impl.go): blocks by hash, and for each height a row whose first entry
 names the canonical block (or nothing) and whose other entries are the blocks of all forks at that height.
 */
module Blockchain {
  import opened Types

  /** What the index needs to know of a block. */
  datatype Block = Block(hash: Hash, number: nat, parentHash: Hash, transactions: seq<Hash>)

  datatype Index = Index(tail: nat, head: Hash, blocks: map<Hash, Block>, forks: map<nat, seq<Hash>>)

  datatype Options = Options(maxBlockToRetain: nat, pruningFrequency: nat)

  predicate Sensible(opts: Options) {
    1 <= opts.pruningFrequency <= opts.maxBlockToRetain
  }

  datatype Error = BlockNotFound | ReceiptsMismatch | ForksNotFound | NoCanonicalBlock | MajorReorg

  datatype Outcome = Done | Failed(error: Error)

  // ---------------------------------------------------------------- invariants

  /** The row lists h as one of the blocks of its height. */
  predicate Lists(row: seq<Hash>, h: Hash) {
    exists i :: 1 <= i < |row| && row[i] == h
  }

  /** A stored block is listed at its height, and its parent is stored unless it is as old as the tail. */
  ghost predicate BlockAt(x: Index, h: Hash)
    requires h in x.blocks
  {
    var b := x.blocks[h];
    && h != ZERO_HASH && b.hash == h && x.tail <= b.number
    && b.number in x.forks && Lists(x.forks[b.number], h)
    && (x.tail < b.number ==> b.parentHash in x.blocks && x.blocks[b.parentHash].number == b.number - 1)
  }

  ghost predicate BlocksOk(x: Index) {
    forall h {:trigger BlockAt(x, h)} :: h in x.blocks ==> BlockAt(x, h)
  }

  /** A row lists stored blocks of its height; its first entry names one of them or nothing. */
  predicate RowOk(blocks: map<Hash, Block>, n: nat, row: seq<Hash>) {
    && |row| > 1
    && (forall i :: 1 <= i < |row| ==> row[i] in blocks && blocks[row[i]].number == n)
    && (row[0] == ZERO_HASH || Lists(row, row[0]))
  }

  ghost predicate RowAt(x: Index, n: nat)
    requires n in x.forks
  {
    x.tail <= n && RowOk(x.blocks, n, x.forks[n])
  }

  ghost predicate RowsOk(x: Index) {
    forall n {:trigger RowAt(x, n)} :: n in x.forks ==> RowAt(x, n)
  }

  /** The canonical block at a height; the zero hash when there is none. */
  function Canonical(x: Index, n: nat): Hash {
    if n in x.forks && |x.forks[n]| > 0 then x.forks[n][0] else ZERO_HASH
  }

  /**
   From the tail to height top a block of that height is canonical, and above the tail its parent is canonical too.
   */
  ghost predicate ChainAt(x: Index, top: nat, n: nat) {
    if x.tail <= n <= top then
      && n in x.forks && Canonical(x, n) in x.blocks && x.blocks[Canonical(x, n)].number == n
      && (n > x.tail ==> x.blocks[Canonical(x, n)].parentHash == Canonical(x, n - 1))
    else Canonical(x, n) == ZERO_HASH
  }

  /** The height of the head. */
  function Top(x: Index): nat
    requires x.head in x.blocks
  {
    x.blocks[x.head].number
  }

  ghost predicate HeadOk(x: Index) {
    x.head in x.blocks && x.tail <= Top(x) && Canonical(x, Top(x)) == x.head
  }

  /** From the tail to the head one linked chain of blocks is canonical, and nothing else is. */
  ghost predicate ChainOk(x: Index) {
    HeadOk(x) && forall n: nat {:trigger ChainAt(x, Top(x), n)} :: ChainAt(x, Top(x), n)
  }

  ghost predicate IndexOk(x: Index) {
    BlocksOk(x) && RowsOk(x) && ChainOk(x)
  }

  function SetFirst(row: seq<Hash>, h: Hash): seq<Hash>
    requires |row| > 0
  {
    [h] + row[1..]
  }

  lemma SetFirstLists(row: seq<Hash>, h: Hash, g: Hash)
    requires |row| > 0
    ensures Lists(SetFirst(row, h), g) <==> Lists(row, g)
  {
    var more := SetFirst(row, h);
    assert forall i :: 1 <= i < |row| ==> more[i] == row[i];
    if Lists(row, g) { var i :| 1 <= i < |row| && row[i] == g; assert more[i] == g; }
  }

  // ------------------------------------------------------------------ ancestors

  /** The block this many steps below h. */
  function Ancestor(blocks: map<Hash, Block>, h: Hash, steps: nat): Hash
    decreases steps
  {
    if steps == 0 || h !in blocks then h else Ancestor(blocks, blocks[h].parentHash, steps - 1)
  }

  lemma {:induction false} AncestorStored(x: Index, h: Hash, steps: nat)
    requires BlocksOk(x) && h in x.blocks && steps <= x.blocks[h].number - x.tail
    ensures Ancestor(x.blocks, h, steps) in x.blocks
    ensures x.blocks[Ancestor(x.blocks, h, steps)].number == x.blocks[h].number - steps
    decreases steps
  {
    if steps > 0 {
      assert BlockAt(x, h);
      AncestorStored(x, x.blocks[h].parentHash, steps - 1);
    }
  }

  lemma {:induction false} AncestorStep(x: Index, h: Hash, steps: nat)
    requires BlocksOk(x) && h in x.blocks && steps < x.blocks[h].number - x.tail
    ensures Ancestor(x.blocks, h, steps) in x.blocks
    ensures Ancestor(x.blocks, h, steps + 1) == x.blocks[Ancestor(x.blocks, h, steps)].parentHash
    decreases steps
  {
    if steps > 0 {
      assert BlockAt(x, h);
      AncestorStep(x, x.blocks[h].parentHash, steps - 1);
    }
  }

  /** h's ancestor at height n. */
  function AncestorAt(x: Index, h: Hash, n: nat): Hash
    requires h in x.blocks && n <= x.blocks[h].number
  {
    Ancestor(x.blocks, h, x.blocks[h].number - n)
  }

  /** The chain of ancestors, height by height. */
  lemma AncestorChain(x: Index, h: Hash, n: nat)
    requires BlocksOk(x) && h in x.blocks && x.tail <= n <= x.blocks[h].number
    ensures AncestorAt(x, h, n) in x.blocks && x.blocks[AncestorAt(x, h, n)].number == n && n in x.forks
    ensures n > x.tail ==> x.blocks[AncestorAt(x, h, n)].parentHash == AncestorAt(x, h, n - 1)
  {
    AncestorStored(x, h, x.blocks[h].number - n);
    assert BlockAt(x, AncestorAt(x, h, n));
    if n > x.tail { AncestorStep(x, h, x.blocks[h].number - n); }
  }

  /** Below a canonical block everything is canonical: the walk of SetHead may stop early. */
  lemma {:induction false} CanonicalBelow(x: Index, h: Hash, n: nat, m: nat)
    requires BlocksOk(x) && ChainOk(x) && h in x.blocks && x.tail <= m <= n <= x.blocks[h].number
    requires AncestorAt(x, h, n) == Canonical(x, n)
    ensures AncestorAt(x, h, m) == Canonical(x, m)
    decreases n - m
  {
    AncestorChain(x, h, n);
    assert BlockAt(x, AncestorAt(x, h, n));
    assert ChainAt(x, Top(x), n);
    if m < n { CanonicalBelow(x, h, n - 1, m); }
  }

  // -------------------------------------------------------------- AddBlock

  /** A block that consensus has accepted. */
  predicate Validated(x: Index, blk: Block) {
    blk.hash != ZERO_HASH && (blk.parentHash in x.blocks ==> blk.number == x.blocks[blk.parentHash].number + 1)
  }

  function Added(x: Index, blk: Block): Index {
    var row := if blk.number in x.forks then x.forks[blk.number] else [ZERO_HASH];
    x.(blocks := x.blocks[blk.hash := blk], forks := x.forks[blk.number := row + [blk.hash]])
  }

  lemma AddedRow(x: Index, blk: Block, n: nat)
    requires RowsOk(x) && blk.hash !in x.blocks && x.tail <= blk.number && n in Added(x, blk).forks
    ensures RowAt(Added(x, blk), n)
    ensures n in x.forks ==> forall h :: Lists(x.forks[n], h) ==> Lists(Added(x, blk).forks[n], h)
    ensures n == blk.number ==> Lists(Added(x, blk).forks[n], blk.hash)
    ensures Canonical(Added(x, blk), n) == Canonical(x, n)
  {
    var y := Added(x, blk);
    var row := y.forks[n];
    if n in x.forks {
      assert RowAt(x, n);
      forall h | Lists(x.forks[n], h) ensures Lists(row, h) {
        var i :| 1 <= i < |x.forks[n]| && x.forks[n][i] == h;
        assert row[i] == h;
      }
    }
    if n == blk.number { assert row[|row| - 1] == blk.hash; }
  }

  lemma AddedBlock(x: Index, blk: Block, h: Hash)
    requires BlocksOk(x) && RowsOk(x) && Validated(x, blk) && blk.hash !in x.blocks && blk.parentHash in x.blocks
    requires x.tail <= blk.number && h in Added(x, blk).blocks
    ensures BlockAt(Added(x, blk), h)
  {
    if h == blk.hash {
      AddedRow(x, blk, blk.number);
    } else {
      assert BlockAt(x, h);
      AddedRow(x, blk, x.blocks[h].number);
    }
  }

  lemma AddedCanonical(x: Index, blk: Block, n: nat)
    requires RowsOk(x) && blk.hash !in x.blocks && x.tail <= blk.number
    ensures Canonical(Added(x, blk), n) == Canonical(x, n)
  {
    if n in Added(x, blk).forks { AddedRow(x, blk, n); }
  }

  lemma AddedChain(x: Index, blk: Block, n: nat)
    requires RowsOk(x) && ChainOk(x) && blk.hash !in x.blocks && x.tail <= blk.number
    ensures ChainAt(Added(x, blk), Top(x), n)
  {
    assert ChainAt(x, Top(x), n);
    AddedCanonical(x, blk, n);
    if n > 0 { AddedCanonical(x, blk, n - 1); }
  }

  /**
   A new block is stored and joins its height's row, a new one if there was none; every other block and row, the tail,
   the head and the canonical chain stay.
   */
  lemma AddedOk(x: Index, blk: Block, y: Index)
    requires IndexOk(x) && Validated(x, blk) && blk.hash !in x.blocks
    requires blk.parentHash in x.blocks && x.tail <= blk.number
    requires y == Added(x, blk)
    ensures IndexOk(y) && Top(y) == Top(x) && y.tail == x.tail && y.head == x.head
    ensures y.blocks == x.blocks[blk.hash := blk]
    ensures y.forks.Keys == x.forks.Keys + {blk.number}
    ensures y.forks[blk.number] == (if blk.number in x.forks then x.forks[blk.number] else [ZERO_HASH]) + [blk.hash]
    ensures forall n :: n in x.forks && n != blk.number ==> y.forks[n] == x.forks[n]
    ensures forall n: nat :: Canonical(y, n) == Canonical(x, n)
  {
    forall h | h in y.blocks ensures BlockAt(y, h) { AddedBlock(x, blk, h); }
    forall n | n in y.forks ensures RowAt(y, n) { AddedRow(x, blk, n); }
    forall n: nat ensures Canonical(y, n) == Canonical(x, n) { AddedCanonical(x, blk, n); }
    assert y.head in y.blocks && Top(y) == Top(x);
    forall n: nat ensures ChainAt(y, Top(y), n) { AddedChain(x, blk, n); }
  }

  lemma {:induction false} AncestorKept(x: Index, blk: Block, h: Hash, steps: nat)
    requires BlocksOk(x) && h in x.blocks && steps <= x.blocks[h].number - x.tail && blk.hash !in x.blocks
    ensures Ancestor(x.blocks[blk.hash := blk], h, steps) == Ancestor(x.blocks, h, steps)
    decreases steps
  {
    if steps > 0 {
      assert BlockAt(x, h);
      AncestorKept(x, blk, x.blocks[h].parentHash, steps - 1);
    }
  }

  /** Once added, a block can be made the head exactly when its parent descends from the canonical block at the tail. */
  lemma AddedCanBeHead(x: Index, blk: Block)
    requires IndexOk(x) && Validated(x, blk) && blk.hash !in x.blocks && blk.parentHash in x.blocks
    requires x.tail <= blk.number
    ensures x.tail <= x.blocks[blk.parentHash].number
    ensures CanSetHead(Added(x, blk), blk.hash) <==> AncestorAt(x, blk.parentHash, x.tail) == Canonical(x, x.tail)
  {
    assert BlockAt(x, blk.parentHash);
    AncestorKept(x, blk, blk.parentHash, x.blocks[blk.parentHash].number - x.tail);
    AddedCanonical(x, blk, x.tail);
  }

  // -------------------------------------------------------------- SetHead

  /** When SetHead succeeds: the block is stored, above the tail, and descends from the canonical block at the tail. */
  predicate CanSetHead(x: Index, h: Hash) {
    h in x.blocks && x.tail < x.blocks[h].number && AncestorAt(x, h, x.tail) == Canonical(x, x.tail)
  }

  /** Why SetHead fails: the block is not stored, or there is no way on from its ancestor at the tail. */
  function WhyNot(x: Index, h: Hash): Error {
    if h !in x.blocks || x.blocks[h].number < x.tail then BlockNotFound
    else
      var lowest := AncestorAt(x, h, x.tail);
      if lowest !in x.blocks || x.blocks[lowest].parentHash !in x.blocks then BlockNotFound
      else if x.tail == 0 then ForksNotFound
      else MajorReorg
  }

  /** The canonical entry of a row once h is the head. */
  function NewCanonical(x: Index, h: Hash, n: nat): Hash
    requires h in x.blocks
  {
    if n <= x.blocks[h].number then AncestorAt(x, h, n) else ZERO_HASH
  }

  /** The index with h as its head. */
  function Rethreaded(x: Index, h: Hash): Index
    requires h in x.blocks
  {
    x.(head := h,
       forks := map n {:trigger x.forks[n]} | n in x.forks ::
         if |x.forks[n]| > 0 then SetFirst(x.forks[n], NewCanonical(x, h, n)) else [])
  }

  lemma RethreadedRow(x: Index, h: Hash, n: nat)
    requires BlocksOk(x) && RowsOk(x) && h in x.blocks && n in x.forks
    ensures RowAt(Rethreaded(x, h), n)
    ensures forall g :: Lists(x.forks[n], g) ==> Lists(Rethreaded(x, h).forks[n], g)
    ensures Canonical(Rethreaded(x, h), n) == NewCanonical(x, h, n)
  {
    var row := x.forks[n];
    assert RowAt(x, n);
    forall g ensures Lists(SetFirst(row, NewCanonical(x, h, n)), g) <==> Lists(row, g) {
      SetFirstLists(row, NewCanonical(x, h, n), g);
    }
    if n <= x.blocks[h].number {
      AncestorChain(x, h, n);
      assert BlockAt(x, AncestorAt(x, h, n));
    }
  }

  lemma RethreadedBlock(x: Index, h: Hash, g: Hash)
    requires BlocksOk(x) && RowsOk(x) && h in x.blocks && g in x.blocks
    ensures BlockAt(Rethreaded(x, h), g)
  {
    assert BlockAt(x, g);
    RethreadedRow(x, h, x.blocks[g].number);
  }

  lemma RethreadedHead(x: Index, h: Hash)
    requires IndexOk(x) && h in x.blocks
    ensures HeadOk(Rethreaded(x, h)) && Top(Rethreaded(x, h)) == x.blocks[h].number
  {
    assert BlockAt(x, h);
    CanonicalAfterSetHead(x, h, x.blocks[h].number);
  }

  /** Making h the head keeps every invariant, every block, and what forks the rows list. */
  lemma RethreadedOk(x: Index, h: Hash, y: Index)
    requires IndexOk(x) && h in x.blocks && y == Rethreaded(x, h)
    ensures IndexOk(y) && Top(y) == x.blocks[h].number
    ensures y.head == h && y.tail == x.tail && y.blocks == x.blocks && SameForks(x, x.tail, y)
  {
    forall n | n in x.forks ensures SameFork(x, y, n) { assert RowAt(x, n); }
    forall g | g in y.blocks ensures BlockAt(y, g) { RethreadedBlock(x, h, g); }
    forall n | n in y.forks ensures RowAt(y, n) { RethreadedRow(x, h, n); }
    RethreadedHead(x, h);
    forall n: nat ensures ChainAt(y, Top(y), n) { RethreadedChain(x, h, n); }
  }

  lemma RethreadedChain(x: Index, h: Hash, n: nat)
    requires IndexOk(x) && h in x.blocks
    ensures ChainAt(Rethreaded(x, h), x.blocks[h].number, n)
  {
    if n in x.forks { assert RowAt(x, n); }
    if x.tail <= n {
      CanonicalAfterSetHead(x, h, n);
      if n <= x.blocks[h].number {
        AncestorChain(x, h, n);
        if n > x.tail { CanonicalAfterSetHead(x, h, n - 1); }
      }
    }
  }

  /**
   After SetHead every height from the tail to the new head maps to the new head's ancestor there, and no height above
   it maps to anything, whatever was canonical before.
   */
  lemma CanonicalAfterSetHead(x: Index, h: Hash, n: nat)
    requires IndexOk(x) && h in x.blocks && x.tail <= n
    ensures Canonical(Rethreaded(x, h), n) == if n <= x.blocks[h].number then AncestorAt(x, h, n) else ZERO_HASH
  {
    if n in x.forks { RethreadedRow(x, h, n); }
    if n <= x.blocks[h].number { AncestorChain(x, h, n); }
  }

  /** A row lists the same forks; its canonical block may be another. */
  predicate SameFork(x: Index, y: Index, n: nat) {
    n in x.forks && n in y.forks && |x.forks[n]| > 0 && |y.forks[n]| > 0 && y.forks[n][1..] == x.forks[n][1..]
  }

  /** From the tail given there are the same rows, which list the same forks, and no row is below it. */
  ghost predicate SameForks(x: Index, tail: nat, y: Index) {
    && (forall n :: n in y.forks <==> n in x.forks && tail <= n)
    && (forall n {:trigger SameFork(x, y, n)} :: n in y.forks ==> SameFork(x, y, n))
  }

  /** The rows a transaction has written when its walk has come down to this height. */
  ghost predicate Written(x: Index, h: Hash, txn: map<nat, seq<Hash>>, low: int)
    requires h in x.blocks
  {
    && txn.Keys == x.forks.Keys
    && (forall n {:trigger WrittenAt(x, h, txn, low, n)} :: n in x.forks ==> WrittenAt(x, h, txn, low, n))
  }

  ghost predicate WrittenAt(x: Index, h: Hash, txn: map<nat, seq<Hash>>, low: int, n: nat)
    requires h in x.blocks && n in x.forks && txn.Keys == x.forks.Keys
  {
    |x.forks[n]| > 0 && txn[n] == if low < n then SetFirst(x.forks[n], NewCanonical(x, h, n)) else x.forks[n]
  }

  lemma UnchangedRow(x: Index, n: nat, first: Hash)
    requires RowsOk(x) && n in x.forks && first == Canonical(x, n)
    ensures |x.forks[n]| > 0 && SetFirst(x.forks[n], first) == x.forks[n]
  {
    assert RowAt(x, n);
  }

  predicate ClearedAt(x: Index, low: nat, high: nat, txn: map<nat, seq<Hash>>, n: nat) {
    n in x.forks && n in txn && |x.forks[n]| > 0 && txn[n] == if low < n < high then SetFirst(x.forks[n], ZERO_HASH)
                                                              else x.forks[n]
  }

  lemma HeightHasRow(x: Index, n: nat)
    requires IndexOk(x) && x.tail <= n <= Top(x)
    ensures n in x.forks && |x.forks[n]| > 0
  {
    assert ChainAt(x, Top(x), n) && RowAt(x, n);
  }

  /** The rows strictly between low and high have lost their canonical block. */
  ghost predicate Cleared(x: Index, low: nat, high: nat, txn: map<nat, seq<Hash>>) {
    txn.Keys == x.forks.Keys && forall n {:trigger ClearedAt(x, low, high, txn, n)} :: n in x.forks ==>
                                  ClearedAt(x, low, high, txn, n)
  }

  /** Between a height and the next, or below it, there is nothing to clear. */
  lemma ClearedStart(x: Index, low: nat, high: nat)
    requires RowsOk(x) && high <= low + 1
    ensures Cleared(x, low, high, x.forks)
  {
    forall n | n in x.forks ensures ClearedAt(x, low, high, x.forks, n) { assert RowAt(x, n); }
  }

  lemma ClearOne(x: Index, low: nat, i: nat, txn: map<nat, seq<Hash>>)
    requires low < i && i in x.forks && |x.forks[i]| > 0 && Cleared(x, low, i, txn)
    ensures Cleared(x, low, i + 1, txn[i := SetFirst(x.forks[i], ZERO_HASH)])
  {
    var more := txn[i := SetFirst(x.forks[i], ZERO_HASH)];
    forall n | n in x.forks ensures ClearedAt(x, low, i + 1, more, n) { assert ClearedAt(x, low, i, txn, n); }
  }

  /** Clearing the rows above the new head, up to the old one. */
  lemma ClearedIsWritten(x: Index, h: Hash, txn: map<nat, seq<Hash>>)
    requires IndexOk(x) && h in x.blocks && Cleared(x, x.blocks[h].number, Top(x) + 1, txn)
    ensures Written(x, h, txn, x.blocks[h].number)
  {
    forall n | n in x.forks ensures WrittenAt(x, h, txn, x.blocks[h].number, n) {
      assert ClearedAt(x, x.blocks[h].number, Top(x) + 1, txn, n);
      if n > Top(x) {
        assert ChainAt(x, Top(x), n);
        UnchangedRow(x, n, ZERO_HASH);
      }
    }
  }

  lemma WriteOne(x: Index, h: Hash, txn: map<nat, seq<Hash>>, low: nat)
    requires h in x.blocks && low in x.forks && low <= x.blocks[h].number
    requires Written(x, h, txn, low) && |x.forks[low]| > 0
    ensures Written(x, h, txn[low := SetFirst(x.forks[low], AncestorAt(x, h, low))], low - 1)
  {
    var more := txn[low := SetFirst(x.forks[low], AncestorAt(x, h, low))];
    forall n | n in x.forks ensures WrittenAt(x, h, more, low - 1, n) { assert WrittenAt(x, h, txn, low, n); }
  }

  /** Stopping at a height that is canonical already leaves nothing unwritten below it. */
  lemma WrittenIsAll(x: Index, h: Hash, txn: map<nat, seq<Hash>>, low: nat)
    requires IndexOk(x) && h in x.blocks && x.tail <= low < x.blocks[h].number && Written(x, h, txn, low)
    requires AncestorAt(x, h, low) == Canonical(x, low)
    ensures CanSetHead(x, h) && txn == Rethreaded(x, h).forks
  {
    CanonicalBelow(x, h, low, x.tail);
    forall n | n in x.forks ensures txn[n] == Rethreaded(x, h).forks[n] { WrittenRow(x, h, txn, low, n); }
  }

  lemma WrittenRow(x: Index, h: Hash, txn: map<nat, seq<Hash>>, low: nat, n: nat)
    requires IndexOk(x) && h in x.blocks && x.tail <= low < x.blocks[h].number
    requires Written(x, h, txn, low) && n in x.forks
    requires AncestorAt(x, h, low) == Canonical(x, low)
    ensures txn[n] == Rethreaded(x, h).forks[n]
  {
    assert WrittenAt(x, h, txn, low, n) && RowAt(x, n);
    if n <= low {
      CanonicalBelow(x, h, low, n);
      UnchangedRow(x, n, NewCanonical(x, h, n));
    }
  }

  /** A walk that has found no canonical block yet can go on, unless it has come to the tail. */
  lemma WalkOn(x: Index, h: Hash, n: nat)
    requires IndexOk(x) && h in x.blocks && x.tail <= n < x.blocks[h].number && AncestorAt(x, h, n) != Canonical(x, n)
    ensures AncestorAt(x, h, n) in x.blocks
    ensures n == x.tail ==> !CanSetHead(x, h)
    ensures n > x.tail ==>
              && AncestorAt(x, h, n - 1) in x.blocks
              && x.blocks[AncestorAt(x, h, n)].parentHash == AncestorAt(x, h, n - 1)
              && n - 1 in x.forks && |x.forks[n - 1]| > 0
  {
    AncestorChain(x, h, n);
    if n > x.tail {
      AncestorChain(x, h, n - 1);
      assert RowAt(x, n - 1);
    }
  }

  // ------------------------------------------------------------------- pruning

  /** The index without anything below the new tail. */
  function Cut(x: Index, tail: nat): Index {
    Index(tail, x.head,
          map h | h in x.blocks && tail <= x.blocks[h].number :: x.blocks[h],
          map n | n in x.forks && tail <= n :: x.forks[n])
  }

  lemma CutBlock(x: Index, tail: nat, h: Hash)
    requires BlocksOk(x) && x.tail <= tail && h in Cut(x, tail).blocks
    ensures BlockAt(Cut(x, tail), h)
  {
    assert BlockAt(x, h);
  }

  lemma CutRow(x: Index, tail: nat, n: nat)
    requires RowsOk(x) && x.tail <= tail && n in Cut(x, tail).forks
    ensures RowAt(Cut(x, tail), n)
  {
    assert RowAt(x, n);
  }

  lemma CutCanonical(x: Index, tail: nat, n: nat)
    ensures Canonical(Cut(x, tail), n) == if tail <= n then Canonical(x, n) else ZERO_HASH
  {
  }

  /** y has the blocks of x from the tail given, and no others. */
  ghost predicate KeptFrom(x: Index, tail: nat, y: Index) {
    && (forall h :: h in y.blocks <==> h in x.blocks && tail <= x.blocks[h].number)
    && (forall h :: h in y.blocks ==> y.blocks[h] == x.blocks[h])
  }

  lemma CutOk(x: Index, tail: nat, y: Index)
    requires IndexOk(x) && x.tail <= tail <= Top(x) && y == Cut(x, tail)
    ensures IndexOk(y) && Top(y) == Top(x) && y.tail == tail && y.head == x.head
    ensures KeptFrom(x, tail, y)
    ensures forall n :: n in y.forks <==> n in x.forks && tail <= n
    ensures forall n :: n in y.forks ==> y.forks[n] == x.forks[n]
    ensures forall n: nat :: Canonical(y, n) == if tail <= n then Canonical(x, n) else ZERO_HASH
  {
    forall h | h in y.blocks ensures BlockAt(y, h) { CutBlock(x, tail, h); }
    forall n | n in y.forks ensures RowAt(y, n) { CutRow(x, tail, n); }
    forall n: nat ensures Canonical(y, n) == if tail <= n then Canonical(x, n) else ZERO_HASH {
      CutCanonical(x, tail, n);
    }
    assert y.head in y.blocks && Top(y) == Top(x);
    forall n: nat ensures ChainAt(y, Top(y), n) { CutChain(x, tail, n); }
  }

  lemma CutChain(x: Index, tail: nat, n: nat)
    requires ChainOk(x) && x.tail <= tail <= Top(x)
    ensures ChainAt(Cut(x, tail), Top(x), n)
  {
    assert ChainAt(x, Top(x), n);
    if n > 0 { assert ChainAt(x, Top(x), n - 1); }
  }

  lemma RowIsHeight(x: Index, n: nat, h: Hash)
    requires BlocksOk(x) && RowsOk(x) && n in x.forks && Canonical(x, n) != ZERO_HASH
    ensures h in x.forks[n] <==> h in x.blocks && x.blocks[h].number == n
  {
    var row := x.forks[n];
    assert RowAt(x, n);
    if h in row {
      var i :| 0 <= i < |row| && row[i] == h;
      if i == 0 { var j :| 1 <= j < |row| && row[j] == h; }
    }
    if h in x.blocks && x.blocks[h].number == n { assert BlockAt(x, h); }
  }

  lemma LowestRow(x: Index)
    requires IndexOk(x)
    ensures x.tail in x.forks && |x.forks[x.tail]| > 0
    ensures forall h: Hash :: h in x.forks[x.tail] <==> h in x.blocks && x.blocks[h].number == x.tail
    ensures forall i :: 0 <= i < |x.forks[x.tail]| ==> x.forks[x.tail][i] in x.blocks
  {
    assert ChainAt(x, Top(x), x.tail);
    assert BlockAt(x, Canonical(x, x.tail));
    forall h: Hash ensures h in x.forks[x.tail] <==> h in x.blocks && x.blocks[h].number == x.tail {
      RowIsHeight(x, x.tail, h);
    }
    forall i | 0 <= i < |x.forks[x.tail]| ensures x.forks[x.tail][i] in x.blocks {
      assert x.forks[x.tail][i] in x.forks[x.tail];
    }
  }

  lemma NoZeroBlock(x: Index)
    requires BlocksOk(x)
    ensures ZERO_HASH !in x.blocks
  {
    assert ZERO_HASH in x.blocks ==> BlockAt(x, ZERO_HASH);
  }

  lemma NothingBelow(x: Index)
    requires BlocksOk(x) && RowsOk(x)
    ensures forall h :: h in x.blocks ==> x.tail <= x.blocks[h].number
    ensures forall n :: n in x.forks ==> x.tail <= n
  {
    forall h | h in x.blocks ensures x.tail <= x.blocks[h].number { assert BlockAt(x, h); }
    forall n | n in x.forks ensures x.tail <= n { assert RowAt(x, n); }
  }

  /** Deleting the blocks of the lowest height, and its row. */
  lemma CutOne(x: Index)
    requires IndexOk(x) && x.tail in x.forks
    ensures Cut(x, x.tail + 1) ==
            Index(x.tail + 1, x.head, x.blocks - (set h | h in x.forks[x.tail]), x.forks - {x.tail})
  {
    LowestRow(x);
    NothingBelow(x);
    assert Cut(x, x.tail + 1).blocks == x.blocks - (set h | h in x.forks[x.tail]);
    assert Cut(x, x.tail + 1).forks == x.forks - {x.tail};
  }

  lemma CutTwice(x: Index, m: nat, n: nat)
    requires m <= n
    ensures Cut(Cut(x, m), n) == Cut(x, n)
  {
  }

  /** One round of pruning: the lowest row lists stored blocks only, and goes with all of them. */
  lemma CutNext(x: Index, tail: nat, y: Index)
    requires IndexOk(x) && x.tail <= tail <= Top(x) && y == Cut(x, tail)
    ensures tail in y.forks && |y.forks[tail]| > 0
    ensures forall i :: 0 <= i < |y.forks[tail]| ==> y.forks[tail][i] in y.blocks
    ensures Cut(x, tail + 1) == Index(tail + 1, x.head, y.blocks - (set h | h in y.forks[tail]), y.forks - {tail})
  {
    CutOk(x, tail, y);
    LowestRow(y);
    CutOne(y);
    CutTwice(x, tail, tail + 1);
  }

  lemma CutNothing(x: Index)
    requires BlocksOk(x) && RowsOk(x)
    ensures Cut(x, x.tail) == x
  {
    NothingBelow(x);
    assert Cut(x, x.tail).blocks == x.blocks;
    assert Cut(x, x.tail).forks == x.forks;
  }

  predicate MustPrune(x: Index, opts: Options, height: nat) {
    height - x.tail > opts.maxBlockToRetain
  }

  function TryPruned(x: Index, opts: Options, height: nat): Index {
    if MustPrune(x, opts, height) then Cut(x, x.tail + opts.pruningFrequency) else x
  }

  /**
   Nothing is pruned as long as the window is within MaxBlockToRetain; otherwise the tail moves up by PruningFrequency.
   Pruning keeps the head and every block from the new tail on, whatever its fork, and no block below; the canonical
   chain stays linked, and a window that was at most one round too long is at most as long as configured.
   */
  lemma TryPrunedOk(x: Index, opts: Options, y: Index)
    requires IndexOk(x) && Sensible(opts) && y == TryPruned(x, opts, Top(x))
    ensures IndexOk(y) && Top(y) == Top(x) && y.head == x.head
    ensures if Top(x) - x.tail <= opts.maxBlockToRetain then y == x else y.tail == x.tail + opts.pruningFrequency
    ensures KeptFrom(x, y.tail, y)
    ensures forall n :: n in y.forks <==> n in x.forks && y.tail <= n
    ensures forall n :: n in y.forks ==> y.forks[n] == x.forks[n]
    ensures forall n: nat :: Canonical(y, n) == if y.tail <= n then Canonical(x, n) else ZERO_HASH
    ensures Top(x) - x.tail <= opts.maxBlockToRetain + opts.pruningFrequency ==>
            Top(y) - y.tail <= opts.maxBlockToRetain
  {
    NothingBelow(x);
    if MustPrune(x, opts, Top(x)) {
      CutOk(x, x.tail + opts.pruningFrequency, y);
    } else {
      CutNothing(x);
      CutOk(x, x.tail, y);
    }
  }

  /** The lowest height that is kept when the head is at this height. */
  function TailFor(tail: nat, opts: Options, height: nat): nat {
    if height - tail <= opts.maxBlockToRetain then tail else tail + opts.pruningFrequency
  }

  /**
   What a successful SetHead leaves: from the new tail to the new head its ancestors are canonical and nothing else is;
   blocks and forks below the new tail are gone, and all others stay.
   */
  ghost predicate HeadMoved(x: Index, h: Hash, tail: nat, y: Index)
    requires h in x.blocks
  {
    && y.head == h && y.tail == tail && KeptFrom(x, tail, y) && SameForks(x, tail, y)
    && (forall n: nat :: Canonical(y, n) ==
          if tail <= n <= x.blocks[h].number then AncestorAt(x, h, n) else ZERO_HASH)
  }

  lemma HeadMoves(x: Index, opts: Options, h: Hash)
    requires IndexOk(x) && Sensible(opts) && h in x.blocks
    ensures var y := TryPruned(Rethreaded(x, h), opts, x.blocks[h].number);
            IndexOk(y) && HeadMoved(x, h, TailFor(x.tail, opts, x.blocks[h].number), y)
  {
    var mid := Rethreaded(x, h);
    var y := TryPruned(mid, opts, x.blocks[h].number);
    RethreadedOk(x, h, mid);
    TryPrunedOk(mid, opts, y);
    forall n | n in y.forks ensures SameFork(x, y, n) { assert SameFork(x, mid, n); }
    forall n: nat | y.tail <= n ensures Canonical(mid, n) == if n <= x.blocks[h].number then AncestorAt(x, h, n)
                                                             else ZERO_HASH {
      CanonicalAfterSetHead(x, h, n);
    }
  }

  // --------------------------------------------------------------------- class

  function GenesisIndex(genesis: Block): Index {
    Index(0, genesis.hash, map[genesis.hash := genesis], map[0 := [genesis.hash, genesis.hash]])
  }

  lemma GenesisOk(genesis: Block)
    requires genesis.number == 0 && genesis.hash != ZERO_HASH
    ensures var x := GenesisIndex(genesis);
            && IndexOk(x) && x.tail == 0 && x.head == genesis.hash && x.blocks == map[genesis.hash := genesis]
            && forall n: nat :: Canonical(x, n) == if n == 0 then genesis.hash else ZERO_HASH
  {
    var x := GenesisIndex(genesis);
    assert x.forks[0][1] == genesis.hash;
    assert Lists(x.forks[0], genesis.hash);
    assert BlockAt(x, genesis.hash) && RowAt(x, 0);
    forall n: nat ensures ChainAt(x, 0, n) {}
  }

  class BlockIndex {
    const opts: Options
    var tail: nat
    var head: Hash
    var blocks: map<Hash, Block>
    var forks: map<nat, seq<Hash>>

    ghost function State(): Index
      reads this
    {
      Index(tail, head, blocks, forks)
    }

    ghost predicate Valid()
      reads this
    {
      IndexOk(State())
    }

    /** A new index holds the genesis block alone, canonical. */
    constructor (opts: Options, genesis: Block)
      requires genesis.number == 0 && genesis.hash != ZERO_HASH
      ensures this.opts == opts && Valid()
      ensures State() == GenesisIndex(genesis)
    {
      this.opts := opts;
      tail := 0;
      head := genesis.hash;
      blocks := map[genesis.hash := genesis];
      forks := map[0 := [genesis.hash, genesis.hash]];
      new;
      GenesisOk(genesis);
    }

    method GetBlockByNumber(height: nat) returns (blk: Option<Block>, error: Option<Error>)
      requires Valid()
      ensures if Canonical(State(), height) in blocks then
                blk == Some(blocks[Canonical(State(), height)]) && error == None
              else blk == None && error == Some(if height in forks then NoCanonicalBlock else ForksNotFound)
      ensures blk.Some? <==> tail <= height <= blocks[head].number
    {
      blk, error := None, None;
      NoZeroBlock(State());
      assert ChainAt(State(), Top(State()), height);
      if height !in forks {
        return None, Some(ForksNotFound);
      }
      assert RowAt(State(), height) && ChainAt(State(), Top(State()), height);
      if forks[height][0] == ZERO_HASH {
        return None, Some(NoCanonicalBlock);
      }
      blk := Some(blocks[forks[height][0]]);
    }

    method AddBlock(blk: Block, receipts: seq<Hash>) returns (res: Outcome)
      requires Valid() && Validated(State(), blk)
      modifies `blocks, `forks
      ensures Valid()
      ensures var x := old(State());
              if blk.number < x.tail || blk.hash in x.blocks then res == Done && State() == x
              else if blk.parentHash !in x.blocks then res == Failed(BlockNotFound) && State() == x
              else if receipts != blk.transactions then res == Failed(ReceiptsMismatch) && State() == x
              else
                && res == Done && tail == x.tail && head == x.head
                && blocks == x.blocks[blk.hash := blk]
                && forks == x.forks[blk.number := (if blk.number in x.forks then x.forks[blk.number] else [ZERO_HASH]) +
                                                  [blk.hash]]
    {
      ghost var x := State();
      if blk.number < tail || blk.hash in blocks {
        return Done;
      }
      if blk.parentHash !in blocks {
        return Failed(BlockNotFound);
      }
      if |blk.transactions| != |receipts| {
        return Failed(ReceiptsMismatch);
      }
      for i := 0 to |receipts|
        invariant receipts[..i] == blk.transactions[..i]
      {
        if receipts[i] != blk.transactions[i] {
          return Failed(ReceiptsMismatch);
        }
      }
      assert receipts == blk.transactions by {
        assert receipts[..|receipts|] == receipts && blk.transactions[..|receipts|] == blk.transactions;
      }
      var row := if blk.number in forks then forks[blk.number] else [ZERO_HASH];
      blocks := blocks[blk.hash := blk];
      forks := forks[blk.number := row + [blk.hash]];
      AddedOk(x, blk, State());
      res := Done;
    }

    /** Deletes the blocks of one height and its row, in a transaction of its own. */
    method PruneHeight(height: nat)
      requires height in forks ==> |forks[height]| > 0
      modifies `blocks, `forks
      ensures var found := height in old(forks) && forall i :: 0 <= i < |old(forks)[height]| ==>
                                                     old(forks)[height][i] in old(blocks);
              if found then
                && forks == old(forks) - {height}
                && blocks == old(blocks) - (set h | h in old(forks)[height])
              else forks == old(forks) && blocks == old(blocks)
    {
      if height !in forks {
        return;
      }
      var row := forks[height];
      var deleted: set<Hash> := {};
      for i := 0 to |row|
        invariant deleted == set h | h in row[..i]
        invariant forall j :: 0 <= j < i ==> row[j] in blocks
      {
        if row[i] !in blocks {
          return;
        }
        deleted := deleted + {row[i]};
        assert row[..i + 1] == row[..i] + [row[i]];
      }
      assert row[..|row|] == row;
      blocks := blocks - deleted;
      forks := forks - {height};
    }

    method TryPrune(height: nat)
      requires Valid() && Sensible(opts) && height == Top(State())
      modifies this
      ensures Valid()
      ensures State() == TryPruned(old(State()), opts, height)
      ensures if height - old(tail) <= opts.maxBlockToRetain then State() == old(State())
              else tail == old(tail) + opts.pruningFrequency && head == old(head)
      ensures KeptFrom(old(State()), tail, State())
    {
      TryPrunedOk(State(), opts, TryPruned(State(), opts, height));
      if height - tail <= opts.maxBlockToRetain {
        return;
      }
      PruneBelow(tail + opts.pruningFrequency);
    }

    method PruneBelow(newTail: nat)
      requires Valid() && tail <= newTail <= Top(State())
      modifies `tail, `blocks, `forks
      ensures State() == Cut(old(State()), newTail)
    {
      ghost var x := State();
      CutNothing(x);
      for i := tail to newTail
        invariant tail == x.tail && head == x.head
        invariant Index(i, head, blocks, forks) == Cut(x, i)
      {
        CutNext(x, i, Cut(x, i));
        PruneHeight(i);
      }
      tail := newTail;
    }

    /** The first part of SetHead: the canonical entries above the new head are cleared, up to the current head. */
    method ClearAbove(number: nat, top: nat) returns (txn: map<nat, seq<Hash>>)
      requires Valid() && top == Top(State()) && tail <= number
      ensures Cleared(State(), number, top + 1, txn)
    {
      txn := forks;
      if top > number {
        ClearedStart(State(), number, number + 1);
        for i := number + 1 to top + 1
          invariant Cleared(State(), number, i, txn)
        {
          HeightHasRow(State(), i);
          ClearOne(State(), number, i, txn);
          txn := txn[i := SetFirst(forks[i], ZERO_HASH)];
        }
      } else {
        ClearedStart(State(), number, top + 1);
      }
    }

    /** The rows SetHead writes; an error is the one met where the walk down from the block leaves the index. */
    method Rethread(hash: Hash) returns (txn: map<nat, seq<Hash>>, error: Option<Error>)
      requires Valid() && hash in blocks
      ensures error.None? <==> CanSetHead(State(), hash)
      ensures error.None? ==> txn == Rethreaded(State(), hash).forks
      ensures error.Some? ==> error.value == WhyNot(State(), hash)
    {
      ghost var x := State();
      var blk := blocks[hash];
      var currentHead := blocks[head];
      // The rows the transaction will write; reads still see the committed rows.
      assert BlockAt(x, hash);
      txn := ClearAbove(blk.number, currentHead.number);
      ClearedIsWritten(x, hash, txn);
      assert RowAt(x, blk.number);
      WriteOne(x, hash, txn, blk.number);
      txn := txn[blk.number := SetFirst(forks[blk.number], blk.hash)];
      var parentHash := blk.parentHash;
      if parentHash !in blocks {
        return txn, Some(BlockNotFound);
      }
      // In uint64 the height below 0 is above every row.
      if blk.number == 0 {
        return txn, Some(ForksNotFound);
      }
      var parentHeight := blk.number - 1;
      if parentHeight < tail {
        return txn, Some(MajorReorg);
      }
      AncestorChain(x, hash, blk.number);
      AncestorChain(x, hash, parentHeight);
      txn, error := WalkDown(hash, parentHash, parentHeight, txn);
    }

    /** The walk itself, from the parent down to a block that is canonical already. */
    method WalkDown(ghost hash: Hash, from: Hash, height: nat, written: map<nat, seq<Hash>>)
      returns (txn: map<nat, seq<Hash>>, error: Option<Error>)
      requires Valid() && hash in blocks && tail <= height < blocks[hash].number && from in blocks
      requires from == AncestorAt(State(), hash, height) && Written(State(), hash, written, height)
      ensures error.None? <==> CanSetHead(State(), hash)
      ensures error.None? ==> txn == Rethreaded(State(), hash).forks
      ensures error.Some? ==> error.value == WhyNot(State(), hash)
    {
      ghost var x := State();
      txn := written;
      var parentHash, parent, parentHeight := from, blocks[from], height;
      AncestorChain(x, hash, parentHeight);
      assert RowAt(x, parentHeight);
      while forks[parentHeight][0] != parentHash
        invariant tail <= parentHeight < blocks[hash].number
        invariant parentHeight in forks && |forks[parentHeight]| > 0
        invariant parentHash in blocks && parent == blocks[parentHash]
        invariant parentHash == AncestorAt(x, hash, parentHeight)
        invariant Written(x, hash, txn, parentHeight)
        decreases parentHeight
      {
        WriteOne(x, hash, txn, parentHeight);
        txn := txn[parentHeight := SetFirst(forks[parentHeight], parentHash)];
        WalkOn(x, hash, parentHeight);
        var grandparentHash := parent.parentHash;
        if grandparentHash !in blocks {
          return txn, Some(BlockNotFound);
        }
        if parentHeight == 0 {
          return txn, Some(ForksNotFound);
        }
        var grandparentHeight := parentHeight - 1;
        if grandparentHeight < tail {
          return txn, Some(MajorReorg);
        }
        parentHash, parent, parentHeight := grandparentHash, blocks[grandparentHash], grandparentHeight;
      }
      WrittenIsAll(x, hash, txn, parentHeight);
      error := None;
    }

    method SetHead(hash: Hash) returns (res: Outcome)
      requires Valid() && Sensible(opts)
      modifies this
      ensures Valid()
      ensures res == Done <==> CanSetHead(old(State()), hash)
      ensures res != Done ==> State() == old(State())
      ensures res == Done ==>
                HeadMoved(old(State()), hash, TailFor(old(tail), opts, old(blocks)[hash].number), State())
      ensures res.Failed? ==> res.error == WhyNot(old(State()), hash)
    {
      ghost var x := State();
      if hash !in blocks {
        return Failed(BlockNotFound);
      }
      var txn, error := Rethread(hash);
      if error.Some? {
        return Failed(error.value);
      }
      RethreadedOk(x, hash, Rethreaded(x, hash));
      HeadMoves(x, opts, hash);
      forks := txn;
      head := hash;
      assert State() == Rethreaded(x, hash);
      TryPrune(blocks[hash].number);
      res := Done;
    }
  }
}
