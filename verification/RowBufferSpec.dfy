/**
  The row buffers of a cached bank: a move-to-front array. A hit moves its buffer to the front;
  an activate that finds neither its row nor a free buffer takes the last one.
 */
module RowBufferSpec {
  import opened Arithmetic
  import opened Commands

  /** `lastHit` is the number of the latest hit on this allocation, 0 if there was none. */
  datatype Buffer = Buffer(used: bool, row: nat, colStart: nat, colEnd: nat, dirty: seq<bool>,
                           readCount: nat, writeCount: nat, lastHit: nat)

  /** `hits` counts all hits, `dirtied` the words that were marked dirty while they were clean. */
  datatype Cache = Cache(buffers: seq<Buffer>, readOnly: bool, hits: nat, dirtied: nat, writebacks: nat)

  // ---------------------------------------------------------------- specification

  predicate Holds(b: Buffer, row: nat, col: nat) { b.row == row && b.colStart <= col < b.colEnd }

  /** The first buffer that holds the word, or the number of buffers. */
  function Lookup(bs: seq<Buffer>, row: nat, col: nat): (i: nat)
    ensures i <= |bs| && (i < |bs| ==> Holds(bs[i], row, col))
    ensures forall k | 0 <= k < i :: !Holds(bs[k], row, col)
  {
    if bs == [] || Holds(bs[0], row, col) then 0 else 1 + Lookup(bs[1..], row, col)
  }

  /** The first buffer that is free or holds the row, or the number of buffers. */
  function Slot(bs: seq<Buffer>, row: nat): (i: nat)
    ensures i <= |bs| && (i < |bs| ==> !bs[i].used || bs[i].row == row)
    ensures forall k | 0 <= k < i :: bs[k].used && bs[k].row != row
  {
    if bs == [] || !bs[0].used || bs[0].row == row then 0 else 1 + Slot(bs[1..], row)
  }

  function Count(dirty: seq<bool>): nat {
    if dirty == [] then 0 else (if dirty[0] then 1 else 0) + Count(dirty[1..])
  }

  function Clean(n: nat): seq<bool> { seq(n, _ => false) }

  /** A buffer bound to the part of `row` around `col`. */
  function Bound(b: Buffer, row: nat, col: nat, size: positive): Buffer {
    b.(used := true, row := row, colStart := col - col % size, colEnd := col - col % size + size,
       readCount := 0, writeCount := 0, lastHit := 0)
  }

  function ToFront<T>(s: seq<T>, i: nat): seq<T>
    requires i < |s|
  {
    [s[i]] + s[..i] + s[i + 1..]
  }

  function Activate(c: Cache, row: nat, col: nat, size: positive): Cache
    requires c.buffers != []
  {
    var i := Slot(c.buffers, row);
    var last := |c.buffers| - 1;
    if i < |c.buffers| then
      if c.buffers[i].used then c else c.(buffers := c.buffers[i := Bound(c.buffers[i], row, col, size)])
    else
      c.(buffers := c.buffers[last := Bound(c.buffers[last], row, col, size).(dirty := Clean(|c.buffers[last].dirty|))],
         writebacks := c.writebacks + Count(c.buffers[last].dirty))
  }

  /** A read that is served from a row buffer; otherwise nothing changes here. */
  function Read(c: Cache, row: nat, col: nat): Cache {
    var i := Lookup(c.buffers, row, col);
    if i == |c.buffers| then c
    else
      var b := c.buffers[i];
      c.(buffers := ToFront(c.buffers[i := b.(readCount := b.readCount + 1, lastHit := c.hits + 1)], i),
        hits := c.hits + 1)
  }

  /** A write that is kept in a row buffer; otherwise nothing changes here. */
  function Write(c: Cache, row: nat, col: nat): Cache
    requires forall b | b in c.buffers :: b.colEnd <= |b.dirty|
  {
    var i := Lookup(c.buffers, row, col);
    if c.readOnly || i == |c.buffers| then c
    else
      var b := c.buffers[i];
      var b' := b.(dirty := b.dirty[col := true], writeCount := b.writeCount + 1, lastHit := c.hits + 1);
      c.(buffers := ToFront(c.buffers[i := b'], i), hits := c.hits + 1,
         dirtied := c.dirtied + if b.dirty[col] then 0 else 1)
  }

  // ---------------------------------------------------------------- invariant

  ghost predicate BufferOk(b: Buffer, cols: nat) {
    && |b.dirty| == cols
    && (if b.used then b.colStart == 0 && b.colEnd == cols
        else b.colStart == b.colEnd == 0 && b.lastHit == 0 && b.dirty == Clean(cols))
  }

  /** Used buffers come first, hold different rows, and are ordered by their latest hits. */
  ghost predicate Ordered(a: Buffer, b: Buffer) {
    && (b.used ==> a.used && a.row != b.row)
    && b.lastHit <= a.lastHit && (0 < b.lastHit ==> b.lastHit < a.lastHit)
  }

  ghost predicate AllOrdered(bs: seq<Buffer>) { forall i, j | 0 <= i < j < |bs| :: Ordered(bs[i], bs[j]) }

  function DirtyWords(bs: seq<Buffer>): nat { if bs == [] then 0 else Count(bs[0].dirty) + DirtyWords(bs[1..]) }

  ghost predicate Inv(c: Cache, cols: nat) {
    && c.buffers != []
    && (forall i | 0 <= i < |c.buffers| :: BufferOk(c.buffers[i], cols) && c.buffers[i].lastHit <= c.hits)
    && AllOrdered(c.buffers)
    && (c.readOnly ==> c.writebacks == 0)
    && (c.readOnly ==> forall i | 0 <= i < |c.buffers| :: c.buffers[i].dirty == Clean(cols))
    && c.dirtied == c.writebacks + DirtyWords(c.buffers)
  }

  // ---------------------------------------------------------------- counting

  lemma {:induction false} CountClean(n: nat)
    ensures Count(Clean(n)) == 0
  {
    if n != 0 {
      assert Clean(n)[1..] == Clean(n - 1);
      CountClean(n - 1);
    }
  }

  lemma {:induction false} CountUpdate(d: seq<bool>, i: nat)
    requires i < |d|
    ensures Count(d[i := true]) == Count(d) + if d[i] then 0 else 1
  {
    if i == 0 {
      assert d[0 := true][1..] == d[1..];
    } else {
      assert d[i := true][1..] == d[1..][i - 1 := true];
      CountUpdate(d[1..], i - 1);
    }
  }

  lemma {:induction false} DirtyWordsAppend(a: seq<Buffer>, b: seq<Buffer>)
    ensures DirtyWords(a + b) == DirtyWords(a) + DirtyWords(b)
  {
    if a == [] {
      assert a + b == b;
    } else {
      assert (a + b)[1..] == a[1..] + b;
      DirtyWordsAppend(a[1..], b);
    }
  }

  lemma DirtyWordsAt(bs: seq<Buffer>, i: nat)
    requires i < |bs|
    ensures DirtyWords(bs) == DirtyWords(bs[..i]) + Count(bs[i].dirty) + DirtyWords(bs[i + 1..])
  {
    hide Count;
    var tail := bs[i + 1..];
    assert bs == bs[..i] + ([bs[i]] + tail);
    DirtyWordsAppend(bs[..i], [bs[i]] + tail);
    assert DirtyWords([bs[i]] + tail) == Count(bs[i].dirty) + DirtyWords(tail) by {
      assert ([bs[i]] + tail)[1..] == tail;
    }
  }

  lemma DirtyWordsUpdate(bs: seq<Buffer>, i: nat, b: Buffer)
    requires i < |bs|
    ensures DirtyWords(bs[i := b]) + Count(bs[i].dirty) == DirtyWords(bs) + Count(b.dirty)
  {
    DirtyWordsAt(bs, i);
    DirtyWordsAt(bs[i := b], i);
    assert bs[i := b][..i] == bs[..i] && bs[i := b][i + 1..] == bs[i + 1..];
  }

  lemma DirtyWordsToFront(bs: seq<Buffer>, i: nat)
    requires i < |bs|
    ensures DirtyWords(ToFront(bs, i)) == DirtyWords(bs)
  {
    DirtyWordsAt(bs, i);
    DirtyWordsAppend([bs[i]] + bs[..i], bs[i + 1..]);
    DirtyWordsAppend([bs[i]], bs[..i]);
    assert DirtyWords([bs[i]]) == Count(bs[i].dirty) + DirtyWords([bs[i]][1..]);
  }

  // ---------------------------------------------------------------- each operation keeps the invariant

  lemma BoundCoversRow(b: Buffer, row: nat, col: nat, cols: positive)
    requires col < cols
    ensures Bound(b, row, col, cols).colStart == 0 && Bound(b, row, col, cols).colEnd == cols
  {
    SmallRemainder(col, cols);
  }

  /** A free buffer is bound to a row that no buffer before it holds. */
  lemma BindKeepsInv(c: Cache, i: nat, row: nat, col: nat, cols: positive)
    requires Inv(c, cols) && col < cols && i < |c.buffers| && !c.buffers[i].used
    requires forall k | 0 <= k < i :: c.buffers[k].used && c.buffers[k].row != row
    ensures Inv(c.(buffers := c.buffers[i := Bound(c.buffers[i], row, col, cols)]), cols)
  {
    BoundCoversRow(c.buffers[i], row, col, cols);
    hide Count;
    DirtyWordsUpdate(c.buffers, i, Bound(c.buffers[i], row, col, cols));
  }

  /** The last buffer gives up its row to one that no buffer holds. */
  lemma EvictKeepsInv(c: Cache, row: nat, col: nat, cols: positive)
    requires Inv(c, cols) && col < cols
    requires forall k | 0 <= k < |c.buffers| :: c.buffers[k].used && c.buffers[k].row != row
    ensures var last := |c.buffers| - 1;
      var b := Bound(c.buffers[last], row, col, cols).(dirty := Clean(cols));
      Inv(c.(buffers := c.buffers[last := b], writebacks := c.writebacks + Count(c.buffers[last].dirty)), cols)
  {
    var last := |c.buffers| - 1;
    BoundCoversRow(c.buffers[last], row, col, cols);
    CountClean(cols);
    hide Count, Clean;
    DirtyWordsUpdate(c.buffers, last, Bound(c.buffers[last], row, col, cols).(dirty := Clean(cols)));
  }

  lemma ActivateKeepsInv(c: Cache, row: nat, col: nat, cols: positive)
    requires Inv(c, cols) && col < cols
    ensures Inv(Activate(c, row, col, cols), cols)
  {
    var i := Slot(c.buffers, row);
    assert BufferOk(c.buffers[|c.buffers| - 1], cols);
    hide Inv, Bound, Count, Clean, Slot;
    if i == |c.buffers| {
      EvictKeepsInv(c, row, col, cols);
    } else if !c.buffers[i].used {
      BindKeepsInv(c, i, row, col, cols);
    }
  }

  /** Position `k` of the array after position `i` has moved to the front. */
  function Origin(i: nat, k: nat): nat { if k == 0 then i else if k <= i then k - 1 else k }

  lemma ToFrontAt<T>(s: seq<T>, i: nat, k: nat)
    requires i < |s| && k < |s|
    ensures |ToFront(s, i)| == |s| && ToFront(s, i)[k] == s[Origin(i, k)]
  {}

  /** A hit moves one buffer to the front; the order of the others stays. */
  lemma HitKeepsOrder(bs: seq<Buffer>, i: nat, b: Buffer, hits: nat)
    requires AllOrdered(bs) && i < |bs| && (forall k | 0 <= k < |bs| :: bs[k].lastHit <= hits)
    requires bs[i].used && b.used && b.row == bs[i].row && b.lastHit == hits + 1
    ensures AllOrdered(ToFront(bs[i := b], i))
  {
    var bs' := ToFront(bs[i := b], i);
    forall j, k | 0 <= j < k < |bs'| ensures Ordered(bs'[j], bs'[k]) {
      ToFrontAt(bs[i := b], i, j);
      ToFrontAt(bs[i := b], i, k);
      var k' := Origin(i, k);
      if j == 0 {
        if k' < i { assert Ordered(bs[k'], bs[i]); } else { assert Ordered(bs[i], bs[k']); }
      } else {
        assert Ordered(bs[Origin(i, j)], bs[k']);
      }
    }
  }

  /** What Read and Write share. */
  lemma HitKeepsInv(c: Cache, cols: nat, i: nat, b: Buffer, c': Cache)
    requires Inv(c, cols) && i < |c.buffers| && c.buffers[i].used
    requires b == c.buffers[i].(dirty := b.dirty, readCount := b.readCount, writeCount := b.writeCount,
      lastHit := c.hits + 1)
    requires |b.dirty| == cols && (c.readOnly ==> b.dirty == c.buffers[i].dirty)
    requires c' == c.(buffers := ToFront(c.buffers[i := b], i), hits := c.hits + 1, dirtied := c'.dirtied)
    requires c'.dirtied + Count(c.buffers[i].dirty) == c.dirtied + Count(b.dirty)
    ensures Inv(c', cols)
  {
    HitKeepsOrder(c.buffers, i, b, c.hits);
    DirtyWordsUpdate(c.buffers, i, b);
    DirtyWordsToFront(c.buffers[i := b], i);
    forall k | 0 <= k < |c'.buffers|
      ensures BufferOk(c'.buffers[k], cols) && c'.buffers[k].lastHit <= c'.hits
      ensures c.readOnly ==> c'.buffers[k].dirty == Clean(cols) {
      ToFrontAt(c.buffers[i := b], i, k);
    }
  }

  lemma FoundIsUsed(c: Cache, row: nat, col: nat, cols: nat)
    requires Inv(c, cols) && Lookup(c.buffers, row, col) < |c.buffers|
    ensures var b := c.buffers[Lookup(c.buffers, row, col)]; b.used && |b.dirty| == cols && col < cols
  {
    assert BufferOk(c.buffers[Lookup(c.buffers, row, col)], cols);
  }

  lemma ReadKeepsInv(c: Cache, row: nat, col: nat, cols: nat)
    requires Inv(c, cols)
    ensures Inv(Read(c, row, col), cols)
  {
    hide Inv, ToFront, Lookup;
    var i := Lookup(c.buffers, row, col);
    if i < |c.buffers| {
      var b := c.buffers[i];
      FoundIsUsed(c, row, col, cols);
      HitKeepsInv(c, cols, i, b.(readCount := b.readCount + 1, lastHit := c.hits + 1), Read(c, row, col));
    }
  }

  lemma WriteKeepsInv(c: Cache, row: nat, col: nat, cols: nat)
    requires Inv(c, cols)
    ensures forall b | b in c.buffers :: b.colEnd <= |b.dirty|
    ensures Inv(Write(c, row, col), cols)
  {
    forall b | b in c.buffers ensures b.colEnd <= |b.dirty| {
      var k :| 0 <= k < |c.buffers| && c.buffers[k] == b;
      assert BufferOk(c.buffers[k], cols);
    }
    var i := Lookup(c.buffers, row, col);
    if !c.readOnly && i < |c.buffers| {
      var b := c.buffers[i];
      CountUpdate(b.dirty, col);
      HitKeepsInv(c, cols, i, b.(dirty := b.dirty[col := true], writeCount := b.writeCount + 1, lastHit := c.hits + 1),
                  Write(c, row, col));
    }
  }

  // ---------------------------------------------------------------- results

  /** The buffer that an activate evicts is the least recently hit one, and all buffers were in use. */
  lemma EvictsLeastRecentlyHit(c: Cache, row: nat, col: nat, cols: positive)
    requires Inv(c, cols) && Slot(c.buffers, row) == |c.buffers|
    ensures var c' := Activate(c, row, col, cols);
      var last := |c.buffers| - 1;
      && |c'.buffers| == |c.buffers| && c'.buffers[last].row == row
      && (forall k | 0 <= k < last :: c'.buffers[k] == c.buffers[k])
      && (forall k | 0 <= k < |c.buffers| :: c.buffers[k].used && c.buffers[k].row != row)
      && (forall k | 0 <= k < last :: c.buffers[last].lastHit <= c.buffers[k].lastHit)
      && (forall k | 0 <= k < last && 0 < c.buffers[k].lastHit :: c.buffers[last].lastHit < c.buffers[k].lastHit)
  {
    forall k | 0 <= k < |c.buffers| - 1 ensures Ordered(c.buffers[k], c.buffers[|c.buffers| - 1]) {}
  }

  /** With read-only buffers no dirty word is ever evicted, as the source asserts. */
  lemma ReadOnlyNeverWritesBack(c: Cache, row: nat, col: nat, cols: positive)
    requires Inv(c, cols) && c.readOnly
    ensures Activate(c, row, col, cols).writebacks == c.writebacks
  {
    CountClean(cols);
  }

  /** Once a row is activated, every word of it is served from its buffer. */
  lemma ActivatedRowIsHeld(c: Cache, row: nat, col: nat, cols: positive, word: nat)
    requires Inv(c, cols) && col < cols && word < cols
    ensures var bs := Activate(c, row, col, cols).buffers;
      Lookup(bs, row, word) < |bs| && bs[Lookup(bs, row, word)].used
  {
    ActivateKeepsInv(c, row, col, cols);
    var bs, i := c.buffers, Slot(c.buffers, row);
    var bs' := Activate(c, row, col, cols).buffers;
    var at := if i < |bs| then i else |bs| - 1;
    assert BufferOk(bs'[at], cols) && Holds(bs'[at], row, word);
    var found := Lookup(bs', row, word);
    assert BufferOk(bs'[found], cols);
  }

  /** A word is served only from the buffer of its own row, and only one buffer can serve it. */
  lemma AtMostOneHolds(c: Cache, row: nat, col: nat, cols: nat, i: nat, j: nat)
    requires Inv(c, cols) && i < |c.buffers| && j < |c.buffers|
    requires Holds(c.buffers[i], row, col) && Holds(c.buffers[j], row, col)
    ensures i == j && c.buffers[i].used
  {
    assert BufferOk(c.buffers[i], cols) && BufferOk(c.buffers[j], cols);
  }

  // ---------------------------------------------------------------- which words are dirty

  /** Some buffer in use holds `row`. */
  ghost predicate Held(bs: seq<Buffer>, row: nat) { exists i :: 0 <= i < |bs| && bs[i].used && bs[i].row == row }

  predicate DirtyIn(b: Buffer, row: nat, col: nat) { b.used && b.row == row && col < |b.dirty| && b.dirty[col] }

  /** Word `col` of `row` is held and differs from the array behind the buffers. */
  ghost predicate IsDirty(bs: seq<Buffer>, row: nat, col: nat) { exists i :: 0 <= i < |bs| && DirtyIn(bs[i], row, col) }

  /** A hit on buffer `i` that leaves `b` there changes nothing about the words of other buffers. */
  lemma HitDirties(bs: seq<Buffer>, i: nat, b: Buffer, row: nat, col: nat)
    requires i < |bs| && AllOrdered(bs) && bs[i].used && b.used && b.row == bs[i].row
    ensures IsDirty(ToFront(bs[i := b], i), row, col) <==>
      if row == b.row then DirtyIn(b, row, col) else IsDirty(bs, row, col)
  {
    var bs' := ToFront(bs[i := b], i);
    forall k | 0 <= k < |bs'| ensures bs'[k] == bs[i := b][Origin(i, k)] { ToFrontAt(bs[i := b], i, k); }
    if row == b.row {
      if DirtyIn(b, row, col) { assert DirtyIn(bs'[0], row, col); }
      forall k | 0 < k < |bs'| ensures !DirtyIn(bs'[k], row, col) { OtherRow(bs, i, Origin(i, k)); }
    } else {
      forall k | 0 <= k < |bs| && DirtyIn(bs[k], row, col) ensures IsDirty(bs', row, col) {
        assert k != i && bs'[if k < i then k + 1 else k] == bs[k];
      }
    }
  }

  lemma OtherRow(bs: seq<Buffer>, i: nat, k: nat)
    requires AllOrdered(bs) && i < |bs| && k < |bs| && i != k && bs[i].used
    ensures !bs[k].used || bs[k].row != bs[i].row
  {
    if i < k { assert Ordered(bs[i], bs[k]); } else { assert Ordered(bs[k], bs[i]); }
  }

  lemma DirtyAt(bs: seq<Buffer>, i: nat, row: nat, col: nat)
    requires AllOrdered(bs) && i < |bs| && bs[i].used && bs[i].row == row
    ensures IsDirty(bs, row, col) <==> DirtyIn(bs[i], row, col)
  {
    forall k | 0 <= k < |bs| && k != i ensures !DirtyIn(bs[k], row, col) { OtherRow(bs, i, k); }
  }

  lemma FoundIffHeld(c: Cache, row: nat, col: nat, cols: nat)
    requires Inv(c, cols) && col < cols
    ensures Held(c.buffers, row) <==> Lookup(c.buffers, row, col) < |c.buffers|
  {
    var i := Lookup(c.buffers, row, col);
    if i < |c.buffers| { FoundIsUsed(c, row, col, cols); }
    forall k | 0 <= k < |c.buffers| && c.buffers[k].used && c.buffers[k].row == row
      ensures Holds(c.buffers[k], row, col) {
      assert BufferOk(c.buffers[k], cols);
    }
  }

  lemma SameWords(b: Buffer, b': Buffer, row: nat, col: nat)
    requires b'.used == b.used && b'.row == b.row && b'.dirty == b.dirty
    ensures DirtyIn(b', row, col) <==> DirtyIn(b, row, col)
  {}

  lemma OneMoreWord(b: Buffer, b': Buffer, row: nat, col: nat, word: nat)
    requires word < |b.dirty| && b.used && b'.used && b'.row == b.row && b'.dirty == b.dirty[word := true]
    ensures DirtyIn(b', row, col) <==> DirtyIn(b, row, col) || (row == b.row && col == word)
  {}

  /** A write makes exactly its own word dirty, and that only if the buffers are writable and one holds the row. */
  lemma WriteDirtiesOnly(c: Cache, row: nat, col: nat, cols: nat, r: nat, k: nat)
    requires Inv(c, cols) && col < cols
    ensures forall b | b in c.buffers :: b.colEnd <= |b.dirty|
    ensures IsDirty(Write(c, row, col).buffers, r, k) <==>
      IsDirty(c.buffers, r, k) || (r == row && k == col && !c.readOnly && Held(c.buffers, row))
  {
    WriteKeepsInv(c, row, col, cols);
    FoundIffHeld(c, row, col, cols);
    hide ToFront, IsDirty, DirtyIn, Lookup;
    var i := Lookup(c.buffers, row, col);
    if !c.readOnly && i < |c.buffers| {
      FoundIsUsed(c, row, col, cols);
      var b := c.buffers[i];
      var b' := b.(dirty := b.dirty[col := true], writeCount := b.writeCount + 1, lastHit := c.hits + 1);
      HitDirties(c.buffers, i, b', r, k);
      OneMoreWord(b, b', r, k, col);
      if r == row { DirtyAt(c.buffers, i, r, k); }
    }
  }

  /** A read changes neither which words are dirty nor which rows are held. */
  lemma ReadDirtiesNone(c: Cache, row: nat, col: nat, cols: nat, r: nat, k: nat)
    requires Inv(c, cols)
    ensures IsDirty(Read(c, row, col).buffers, r, k) <==> IsDirty(c.buffers, r, k)
  {
    hide ToFront, IsDirty, DirtyIn, Lookup;
    var i := Lookup(c.buffers, row, col);
    if i < |c.buffers| {
      FoundIsUsed(c, row, col, cols);
      var b := c.buffers[i];
      HitDirties(c.buffers, i, b.(readCount := b.readCount + 1, lastHit := c.hits + 1), r, k);
      SameWords(b, b.(readCount := b.readCount + 1, lastHit := c.hits + 1), r, k);
      if r == row { DirtyAt(c.buffers, i, r, k); }
    }
  }

  /**
    An activate cleans exactly the words of the row it evicts, which it does if all buffers are in use and
    none holds the new row, and writes back as many as were dirty.
   */
  lemma ActivateCleansEvicted(c: Cache, row: nat, col: nat, cols: positive, r: nat, k: nat)
    requires Inv(c, cols) && col < cols
    ensures var c' := Activate(c, row, col, cols);
      var evicts := forall j | 0 <= j < |c.buffers| :: c.buffers[j].used && c.buffers[j].row != row;
      var last := c.buffers[|c.buffers| - 1];
      && Held(c'.buffers, row)
      && (IsDirty(c'.buffers, r, k) <==> IsDirty(c.buffers, r, k) && !(evicts && r == last.row))
      && c'.writebacks == c.writebacks + (if evicts then Count(last.dirty) else 0)
  {
    var c', i, last := Activate(c, row, col, cols), Slot(c.buffers, row), |c.buffers| - 1;
    var at := if i < |c.buffers| then i else last;
    assert c'.buffers[at].used && c'.buffers[at].row == row;
    assert BufferOk(c.buffers[at], cols);
    forall j | 0 <= j < |c.buffers| && j != at ensures c'.buffers[j] == c.buffers[j] {}
    if i == |c.buffers| {
      forall j | 0 <= j < last ensures c.buffers[j].row != c.buffers[last].row { OtherRow(c.buffers, last, j); }
    }
    forall j | 0 <= j < |c.buffers| && DirtyIn(c.buffers[j], r, k) && j != at ensures IsDirty(c'.buffers, r, k) {
      assert DirtyIn(c'.buffers[j], r, k);
    }
    forall j | 0 <= j < |c'.buffers| && DirtyIn(c'.buffers[j], r, k) ensures IsDirty(c.buffers, r, k) {
      assert DirtyIn(c.buffers[j], r, k);
    }
  }

  // ---------------------------------------------------------------- hits are counted

  /** A row that no buffer holds gets one with no hits, at the place that was free or evicted. */
  lemma NewBufferIsUncounted(c: Cache, row: nat, col: nat, cols: positive) returns (i: nat)
    requires Inv(c, cols) && col < cols && !Held(c.buffers, row)
    ensures i < |c.buffers|
    ensures c.buffers[i].used ==> i == |c.buffers| - 1 && forall k | 0 <= k < i :: c.buffers[k].used
    ensures Activate(c, row, col, cols).buffers
      == c.buffers[i := Buffer(true, row, 0, cols, Clean(cols), 0, 0, 0)]
    ensures Activate(c, row, col, cols).hits == c.hits
  {
    i := Slot(c.buffers, row);
    if i == |c.buffers| { i := i - 1; }
    assert BufferOk(c.buffers[i], cols);
    BoundCoversRow(c.buffers[i], row, col, cols);
  }

  /** Activating a row that is held changes nothing. */
  lemma HeldRowIsKept(c: Cache, row: nat, col: nat, cols: positive)
    requires Inv(c, cols) && Held(c.buffers, row)
    ensures Activate(c, row, col, cols) == c
  {
    var i := Slot(c.buffers, row);
    var k :| 0 <= k < |c.buffers| && c.buffers[k].used && c.buffers[k].row == row;
    forall j | 0 <= j < k ensures c.buffers[j].used && c.buffers[j].row != row {
      assert Ordered(c.buffers[j], c.buffers[k]);
    }
  }

  lemma OnlyOneHolds(c: Cache, row: nat, col: nat, cols: nat, i: nat)
    requires Inv(c, cols) && col < cols && i < |c.buffers| && c.buffers[i].used && c.buffers[i].row == row
    ensures Lookup(c.buffers, row, col) == i && |c.buffers[i].dirty| == cols
  {
    assert BufferOk(c.buffers[i], cols) && Holds(c.buffers[i], row, col);
    AtMostOneHolds(c, row, col, cols, i, Lookup(c.buffers, row, col));
  }

  /** A read that is served is counted by its buffer, which comes to the front, and in all. */
  lemma ReadIsCounted(c: Cache, row: nat, col: nat, cols: nat, i: nat)
    requires Inv(c, cols) && col < cols && i < |c.buffers| && c.buffers[i].used && c.buffers[i].row == row
    ensures var b, r := c.buffers[i], Read(c, row, col);
      && r.buffers == [b.(readCount := b.readCount + 1, lastHit := c.hits + 1)] + c.buffers[..i] + c.buffers[i + 1..]
      && r == c.(buffers := r.buffers, hits := c.hits + 1)
  {
    OnlyOneHolds(c, row, col, cols, i);
    hide Inv, ToFront, Lookup;
    var b := c.buffers[i];
    FrontOf(c.buffers, i, b.(readCount := b.readCount + 1, lastHit := c.hits + 1));
  }

  /** So is a write that is kept; with read-only buffers it changes nothing. */
  lemma WriteIsCounted(c: Cache, row: nat, col: nat, cols: nat, i: nat)
    requires Inv(c, cols) && col < cols && i < |c.buffers| && c.buffers[i].used && c.buffers[i].row == row
    ensures forall b | b in c.buffers :: b.colEnd <= |b.dirty|
    ensures var b, w := c.buffers[i], Write(c, row, col);
      if c.readOnly then w == c
      else
        && w.buffers == [b.(dirty := b.dirty[..col] + [true] + b.dirty[col + 1..], writeCount := b.writeCount + 1,
                            lastHit := c.hits + 1)] + c.buffers[..i] + c.buffers[i + 1..]
        && w == c.(buffers := w.buffers, hits := c.hits + 1, dirtied := w.dirtied)
  {
    WriteKeepsInv(c, row, col, cols);
    OnlyOneHolds(c, row, col, cols, i);
    hide Inv, ToFront, Lookup;
    var b := c.buffers[i];
    assert b.dirty[col := true] == b.dirty[..col] + [true] + b.dirty[col + 1..];
    FrontOf(c.buffers, i, b.(dirty := b.dirty[col := true], writeCount := b.writeCount + 1, lastHit := c.hits + 1));
  }

  lemma FrontOf(bs: seq<Buffer>, i: nat, b: Buffer)
    requires i < |bs|
    ensures ToFront(bs[i := b], i) == [b] + bs[..i] + bs[i + 1..]
  {
    assert bs[i := b][..i] == bs[..i] && bs[i := b][i + 1..] == bs[i + 1..];
  }

  datatype Step = DoActivate(row: nat, col: nat) | DoRead(row: nat, col: nat) | DoWrite(row: nat, col: nat)

  ghost function Run(c: Cache, steps: seq<Step>, cols: positive): Cache
    requires Inv(c, cols)
    requires forall i | 0 <= i < |steps| :: steps[i].col < cols
    decreases |steps|
  {
    if steps == [] then c
    else
      match steps[0]
      case DoActivate(row, col) =>
        ActivateKeepsInv(c, row, col, cols);
        Run(Activate(c, row, col, cols), steps[1..], cols)
      case DoRead(row, col) =>
        ReadKeepsInv(c, row, col, cols);
        Run(Read(c, row, col), steps[1..], cols)
      case DoWrite(row, col) =>
        WriteKeepsInv(c, row, col, cols);
        Run(Write(c, row, col), steps[1..], cols)
  }

  function Initial(count: positive, cols: nat, readOnly: bool): Cache {
    Cache(seq(count, _ => Buffer(false, 0, 0, 0, Clean(cols), 0, 0, 0)), readOnly, 0, 0, 0)
  }

  lemma {:induction false} NoDirtyWords(bs: seq<Buffer>, cols: nat)
    requires forall i | 0 <= i < |bs| :: bs[i].dirty == Clean(cols)
    ensures DirtyWords(bs) == 0
  {
    if bs != [] {
      CountClean(cols);
      NoDirtyWords(bs[1..], cols);
    }
  }

  lemma InitialInv(count: positive, cols: nat, readOnly: bool)
    ensures Inv(Initial(count, cols, readOnly), cols)
  {
    NoDirtyWords(Initial(count, cols, readOnly).buffers, cols);
  }

  lemma {:induction false} RunKeepsInv(c: Cache, steps: seq<Step>, cols: positive)
    requires Inv(c, cols) && forall i | 0 <= i < |steps| :: steps[i].col < cols
    ensures Inv(Run(c, steps, cols), cols) && Run(c, steps, cols).readOnly == c.readOnly
    decreases |steps|
  {
    if steps != [] {
      match steps[0]
      case DoActivate(row, col) =>
        ActivateKeepsInv(c, row, col, cols);
        RunKeepsInv(Activate(c, row, col, cols), steps[1..], cols);
      case DoRead(row, col) =>
        ReadKeepsInv(c, row, col, cols);
        RunKeepsInv(Read(c, row, col), steps[1..], cols);
      case DoWrite(row, col) =>
        WriteKeepsInv(c, row, col, cols);
        RunKeepsInv(Write(c, row, col), steps[1..], cols);
    }
  }

  /**
    Over any run from empty buffers, the words that were marked dirty are exactly those written
    back and those still dirty; with read-only buffers there are none.
   */
  lemma DirtyWordsAreAccountedFor(count: positive, cols: positive, readOnly: bool, steps: seq<Step>)
    requires forall i | 0 <= i < |steps| :: steps[i].col < cols
    ensures Inv(Initial(count, cols, readOnly), cols)
    ensures var c := Run(Initial(count, cols, readOnly), steps, cols);
      && c.dirtied == c.writebacks + DirtyWords(c.buffers)
      && AllOrdered(c.buffers)
      && (readOnly ==> c.dirtied == c.writebacks == DirtyWords(c.buffers) == 0)
  {
    InitialInv(count, cols, readOnly);
    RunKeepsInv(Initial(count, cols, readOnly), steps, cols);
    var c := Run(Initial(count, cols, readOnly), steps, cols);
    if readOnly { NoDirtyWords(c.buffers, cols); }
  }
}
