/** The row buffers as the source keeps them: an array of buffers, rotated in place. */
module RowBuffers {
  import opened Commands
  import Spec = RowBufferSpec

  class RowBuffer {
    var used: bool
    var row: nat
    var colStart: nat
    var colEnd: nat
    var dirty: seq<bool>
    var readCount: nat
    var writeCount: nat
    ghost var lastHit: nat

    constructor (size: nat)
      ensures Value() == Spec.Buffer(false, 0, 0, 0, Spec.Clean(size), 0, 0, 0)
    {
      used, row, colStart, colEnd := false, 0, 0, 0;
      dirty, readCount, writeCount, lastHit := seq(size, _ => false), 0, 0, 0;
    }

    ghost function Value(): Spec.Buffer
      reads this
    {
      Spec.Buffer(used, row, colStart, colEnd, dirty, readCount, writeCount, lastHit)
    }

    method Bind(newRow: nat, col: nat, size: positive)
      modifies this
      ensures Value() == Spec.Bound(old(Value()), newRow, col, size)
    {
      used, row := true, newRow;
      colStart := col - col % size;
      colEnd := colStart + size;
      readCount, writeCount, lastHit := 0, 0, 0;
    }

    /** Clears every dirty mark; how many there were. */
    method Wash() returns (dirtyCount: nat)
      modifies this`dirty
      ensures dirtyCount == Spec.Count(old(dirty)) && dirty == Spec.Clean(|old(dirty)|)
    {
      dirtyCount := 0;
      ghost var before := dirty;
      for i := 0 to |dirty|
        invariant |dirty| == |before|
        invariant forall k | 0 <= k < |dirty| :: dirty[k] == if k < i then false else before[k]
        invariant dirtyCount + Spec.Count(before[i..]) == Spec.Count(before)
      {
        if dirty[i] { dirtyCount := dirtyCount + 1; }
        dirty := dirty[i := false];
        assert before[i..][1..] == before[i + 1..];
      }
    }
  }

  class CachedBank {
    const cachedRowBuffer: array<RowBuffer>
    const readOnlyBuffers: bool
    const rowBufferSize: positive
    var writebackCount: nat
    ghost var hits: nat
    ghost var dirtied: nat

    constructor (count: positive, size: positive, readOnly: bool)
      ensures Valid() && fresh(cachedRowBuffer) && fresh(cachedRowBuffer[..])
      ensures rowBufferSize == size && State() == Spec.Initial(count, size, readOnly)
    {
      readOnlyBuffers, rowBufferSize, writebackCount, hits, dirtied := readOnly, size, 0, 0, 0;
      var first := new RowBuffer(size);
      var buffers := new RowBuffer[count](_ => first);
      cachedRowBuffer := buffers;
      new;
      for i := 1 to count
        invariant fresh(cachedRowBuffer[..]) && fresh(cachedRowBuffer) && cachedRowBuffer.Length == count
        invariant forall k, l | 0 <= k < l < i :: cachedRowBuffer[k] != cachedRowBuffer[l]
        invariant forall k | 0 <= k < i ::
          cachedRowBuffer[k].Value() == Spec.Buffer(false, 0, 0, 0, Spec.Clean(size), 0, 0, 0)
        invariant writebackCount == hits == dirtied == 0
      {
        var buffer := new RowBuffer(size);
        cachedRowBuffer[i] := buffer;
      }
    }

    ghost predicate Valid()
      reads this, cachedRowBuffer
    {
      Distinct(cachedRowBuffer[..])
    }

    ghost function Buffers(): seq<RowBuffer>
      reads this, cachedRowBuffer
    {
      cachedRowBuffer[..]
    }

    ghost function State(): (c: Spec.Cache)
      reads this, cachedRowBuffer, cachedRowBuffer[..]
      ensures |c.buffers| == cachedRowBuffer.Length
    {
      Spec.Cache(seq(cachedRowBuffer.Length, i requires 0 <= i < cachedRowBuffer.Length
                       reads this, cachedRowBuffer, cachedRowBuffer[..] => cachedRowBuffer[i].Value()),
                 readOnlyBuffers, hits, dirtied, writebackCount)
    }

    /** The first buffer that is free or holds the row, or the number of buffers. */
    method FindSlot(row: nat) returns (bufferIdx: nat)
      ensures bufferIdx == Spec.Slot(State().buffers, row)
    {
      bufferIdx := 0;
      ghost var bs := State().buffers;
      while bufferIdx < cachedRowBuffer.Length
        invariant bufferIdx <= cachedRowBuffer.Length
        invariant forall k | 0 <= k < bufferIdx :: bs[k].used && bs[k].row != row
      {
        assert bs[bufferIdx] == cachedRowBuffer[bufferIdx].Value();
        if !cachedRowBuffer[bufferIdx].used || row == cachedRowBuffer[bufferIdx].row { break; }
        bufferIdx := bufferIdx + 1;
      }
      SlotIs(bs, row, bufferIdx);
    }

    /** Binds a buffer to the row. */
    method BindBuffer(bufferIdx: nat, row: nat, col: nat)
      requires Valid() && bufferIdx < cachedRowBuffer.Length
      modifies cachedRowBuffer[..]
      ensures State() == old(State()).(buffers :=
        old(State()).buffers[bufferIdx := Spec.Bound(old(State()).buffers[bufferIdx], row, col, rowBufferSize)])
    {
      ghost var bs := State().buffers;
      cachedRowBuffer[bufferIdx].Bind(row, col, rowBufferSize);
      assert State().buffers == bs[bufferIdx := cachedRowBuffer[bufferIdx].Value()];
    }

    /** Writes the dirty words of a buffer back. */
    method WriteBack(bufferIdx: nat) returns (dirtyCount: nat)
      requires Valid() && bufferIdx < cachedRowBuffer.Length
      modifies this`writebackCount, cachedRowBuffer[..]
      ensures var b := old(State()).buffers[bufferIdx];
        && dirtyCount == Spec.Count(b.dirty)
        && State() == old(State()).(
             buffers := old(State()).buffers[bufferIdx := b.(dirty := Spec.Clean(|b.dirty|))],
             writebacks := old(State()).writebacks + dirtyCount)
    {
      ghost var bs := State().buffers;
      assert bs[bufferIdx] == cachedRowBuffer[bufferIdx].Value();
      dirtyCount := cachedRowBuffer[bufferIdx].Wash();
      writebackCount := writebackCount + dirtyCount;
      assert State().buffers == bs[bufferIdx := cachedRowBuffer[bufferIdx].Value()];
    }

    /** Gives the last buffer to the row and writes back what was dirty in it. */
    method Evict(row: nat, col: nat) returns (dirtyCount: nat)
      requires Valid() && 0 < cachedRowBuffer.Length
      modifies this`writebackCount, cachedRowBuffer[..]
      ensures var c := old(State());
        var last := |c.buffers| - 1;
        && dirtyCount == Spec.Count(c.buffers[last].dirty)
        && State() == c.(writebacks := c.writebacks + dirtyCount, buffers := c.buffers[last :=
             Spec.Bound(c.buffers[last], row, col, rowBufferSize).(dirty := Spec.Clean(|c.buffers[last].dirty|))])
    {
      var bufferIdx := cachedRowBuffer.Length - 1;
      BoundKeepsDirty(State().buffers[bufferIdx], row, col, rowBufferSize);
      hide State, Spec.Bound, Spec.Count, Spec.Clean, Valid;
      BindBuffer(bufferIdx, row, col);
      dirtyCount := WriteBack(bufferIdx);
    }

    /** Finds or makes a buffer for the row. */
    method Activate(row: nat, col: nat)
      requires Valid() && Spec.Inv(State(), rowBufferSize) && col < rowBufferSize
      modifies this, cachedRowBuffer[..]
      ensures Valid() && Spec.Inv(State(), rowBufferSize)
      ensures State() == Spec.Activate(old(State()), row, col, rowBufferSize)
    {
      hide Spec.Inv, Spec.Bound, Spec.Count, Spec.Clean;
      Spec.ActivateKeepsInv(State(), row, col, rowBufferSize);
      NothingToWriteBack(State(), rowBufferSize);
      var bufferIdx := FindSlot(row);
      if bufferIdx < cachedRowBuffer.Length {
        assert State().buffers[bufferIdx] == cachedRowBuffer[bufferIdx].Value();
        if !cachedRowBuffer[bufferIdx].used { BindBuffer(bufferIdx, row, col); }
      } else {
        var dirtyCount := Evict(row, col);
        assert !(readOnlyBuffers && dirtyCount > 0);
      }
    }

    /** The first buffer that holds the word, or the number of buffers. */
    method Find(row: nat, col: nat) returns (bufferIdx: nat)
      ensures bufferIdx == Spec.Lookup(State().buffers, row, col)
    {
      bufferIdx := 0;
      while bufferIdx < cachedRowBuffer.Length
        invariant bufferIdx <= cachedRowBuffer.Length
        invariant forall k | 0 <= k < bufferIdx :: !Spec.Holds(State().buffers[k], row, col)
      {
        assert State().buffers[bufferIdx] == cachedRowBuffer[bufferIdx].Value();
        if cachedRowBuffer[bufferIdx].row == row
           && cachedRowBuffer[bufferIdx].colStart <= col < cachedRowBuffer[bufferIdx].colEnd {
          break;
        }
        bufferIdx := bufferIdx + 1;
      }
      LookupIs(State().buffers, row, col, bufferIdx);
    }

    /** Rotates the array in place. */
    method Rotate(bufferIdx: nat)
      requires bufferIdx < cachedRowBuffer.Length
      modifies cachedRowBuffer
      ensures Buffers() == Spec.ToFront(old(Buffers()), bufferIdx)
    {
      ghost var before := Buffers();
      var tempBuffer := cachedRowBuffer[bufferIdx];
      var j := bufferIdx;
      while j > 0
        invariant j <= bufferIdx
        invariant forall k | 0 <= k < cachedRowBuffer.Length ::
          cachedRowBuffer[k] == before[if j < k <= bufferIdx then k - 1 else k]
      {
        cachedRowBuffer[j] := cachedRowBuffer[j - 1];
        j := j - 1;
      }
      cachedRowBuffer[0] := tempBuffer;
    }

    /** Moves buffer `bufferIdx` to the front; the others keep their order. */
    method MoveToFront(bufferIdx: nat)
      requires Valid() && bufferIdx < cachedRowBuffer.Length
      modifies cachedRowBuffer
      ensures Valid() && multiset(Buffers()) == multiset(old(Buffers()))
      ensures State() == old(State()).(buffers := Spec.ToFront(old(State()).buffers, bufferIdx))
    {
      ghost var before, bs := Buffers(), State().buffers;
      assert Distinct(before);
      Rotate(bufferIdx);
      ToFrontKeepsElements(before, bufferIdx);
      assert Distinct(Buffers());
      forall k | 0 <= k < |bs| ensures State().buffers[k] == Spec.ToFront(bs, bufferIdx)[k] {
        Spec.ToFrontAt(before, bufferIdx, k);
        Spec.ToFrontAt(bs, bufferIdx, k);
        assert State().buffers[k] == Buffers()[k].Value();
      }
    }

    /** Notes a read of buffer `bufferIdx`. */
    method NoteRead(bufferIdx: nat)
      requires Valid() && bufferIdx < cachedRowBuffer.Length
      modifies this`hits, cachedRowBuffer[..]
      ensures var c := old(State());
        State() == c.(hits := c.hits + 1, buffers := c.buffers[bufferIdx :=
          c.buffers[bufferIdx].(readCount := c.buffers[bufferIdx].readCount + 1, lastHit := c.hits + 1)])
    {
      ghost var bs := State().buffers;
      var buffer := cachedRowBuffer[bufferIdx];
      assert bs[bufferIdx] == buffer.Value();
      buffer.readCount, buffer.lastHit, hits := buffer.readCount + 1, hits + 1, hits + 1;
      assert State().buffers == bs[bufferIdx := buffer.Value()];
    }

    /** Notes a write of a word of buffer `bufferIdx`. */
    method NoteWrite(bufferIdx: nat, col: nat)
      requires Valid() && bufferIdx < cachedRowBuffer.Length && col < |State().buffers[bufferIdx].dirty|
      modifies this`hits, this`dirtied, cachedRowBuffer[..]
      ensures var c := old(State());
        var b := c.buffers[bufferIdx];
        State() == c.(hits := c.hits + 1, dirtied := c.dirtied + (if b.dirty[col] then 0 else 1),
          buffers := c.buffers[bufferIdx :=
            b.(dirty := b.dirty[col := true], writeCount := b.writeCount + 1, lastHit := c.hits + 1)])
    {
      ghost var bs := State().buffers;
      var buffer := cachedRowBuffer[bufferIdx];
      assert bs[bufferIdx] == buffer.Value();
      if !buffer.dirty[col] { dirtied := dirtied + 1; }
      buffer.dirty := buffer.dirty[col := true];
      buffer.writeCount, buffer.lastHit, hits := buffer.writeCount + 1, hits + 1, hits + 1;
      assert State().buffers == bs[bufferIdx := buffer.Value()];
    }

    /** Serves a read from a row buffer, if one holds the word. */
    method Read(row: nat, col: nat) returns (hit: bool)
      requires Valid() && Spec.Inv(State(), rowBufferSize)
      modifies this, cachedRowBuffer, cachedRowBuffer[..]
      ensures Valid() && Spec.Inv(State(), rowBufferSize)
      ensures State() == Spec.Read(old(State()), row, col)
      ensures hit <==> Spec.Lookup(old(State()).buffers, row, col) < |old(State()).buffers|
      ensures multiset(Buffers()) == multiset(old(Buffers()))
    {
      hide Spec.Inv, Spec.ToFront;
      Spec.ReadKeepsInv(State(), row, col, rowBufferSize);
      var bufferIdx := Find(row, col);
      hit := bufferIdx < cachedRowBuffer.Length;
      if hit {
        NoteRead(bufferIdx);
        MoveToFront(bufferIdx);
      }
    }

    /** Keeps a write in a row buffer, if one holds the word and buffers may be written. */
    method Write(row: nat, col: nat) returns (hit: bool)
      requires Valid() && Spec.Inv(State(), rowBufferSize)
      modifies this, cachedRowBuffer, cachedRowBuffer[..]
      ensures Valid() && Spec.Inv(State(), rowBufferSize)
      ensures forall b | b in old(State()).buffers :: b.colEnd <= |b.dirty|
      ensures State() == Spec.Write(old(State()), row, col)
      ensures hit <==> !readOnlyBuffers && Spec.Lookup(old(State()).buffers, row, col) < |old(State()).buffers|
      ensures multiset(Buffers()) == multiset(old(Buffers()))
    {
      hide Spec.Inv, Spec.ToFront, Spec.Lookup;
      Spec.WriteKeepsInv(State(), row, col, rowBufferSize);
      if readOnlyBuffers { return false; }
      var bufferIdx := Find(row, col);
      hit := bufferIdx < cachedRowBuffer.Length;
      if hit {
        NoteWrite(bufferIdx, col);
        MoveToFront(bufferIdx);
      }
    }
  }

  ghost predicate Distinct(s: seq<RowBuffer>) { forall i, j | 0 <= i < j < |s| :: s[i] != s[j] }

  lemma ToFrontKeepsElements(s: seq<RowBuffer>, i: nat)
    requires i < |s|
    ensures multiset(Spec.ToFront(s, i)) == multiset(s)
    ensures Distinct(s) ==> Distinct(Spec.ToFront(s, i))
  {
    assert s == s[..i] + [s[i]] + s[i + 1..];
  }

  lemma NothingToWriteBack(c: Spec.Cache, cols: nat)
    requires Spec.Inv(c, cols)
    ensures c.buffers != [] && (c.readOnly ==> Spec.Count(c.buffers[|c.buffers| - 1].dirty) == 0)
  {
    Spec.CountClean(cols);
  }

  lemma BoundKeepsDirty(b: Spec.Buffer, row: nat, col: nat, size: positive)
    ensures Spec.Bound(b, row, col, size).dirty == b.dirty
  {}

  lemma {:induction false} SlotIs(bs: seq<Spec.Buffer>, row: nat, i: nat)
    requires i <= |bs| && (forall k | 0 <= k < i :: bs[k].used && bs[k].row != row)
    requires i < |bs| ==> !bs[i].used || bs[i].row == row
    ensures Spec.Slot(bs, row) == i
  {
    if i > 0 { SlotIs(bs[1..], row, i - 1); }
  }

  lemma {:induction false} LookupIs(bs: seq<Spec.Buffer>, row: nat, col: nat, i: nat)
    requires i <= |bs| && (forall k | 0 <= k < i :: !Spec.Holds(bs[k], row, col))
    requires i < |bs| ==> Spec.Holds(bs[i], row, col)
    ensures Spec.Lookup(bs, row, col) == i
  {
    if i > 0 { LookupIs(bs[1..], row, col, i - 1); }
  }
}
