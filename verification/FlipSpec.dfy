/**
  The Flip-N-Write encoder: a word is written partition by partition, and a partition of which
  more than half of the bits would change is stored inverted and remembered as flipped.
 */
module FlipSpec {
  import opened Arithmetic

  type byte = bv8

  // ---------------------------------------------------------------- bits of a byte

  function Mask(j: nat): byte
    requires j < 8
  {
    match j
    case 0 => 0x01 case 1 => 0x02 case 2 => 0x04 case 3 => 0x08
    case 4 => 0x10 case 5 => 0x20 case 6 => 0x40 case _ => 0x80
  }

  predicate Bit(b: byte, j: nat)
    requires j < 8
  {
    b & Mask(j) != 0
  }

  lemma SameBits(a: byte, b: byte)
    requires forall j: nat | j < 8 :: Bit(a, j) == Bit(b, j)
    ensures a == b
  {
    assert Bit(a, 0) == Bit(b, 0) && Bit(a, 1) == Bit(b, 1) && Bit(a, 2) == Bit(b, 2) && Bit(a, 3) == Bit(b, 3);
    assert Bit(a, 4) == Bit(b, 4) && Bit(a, 5) == Bit(b, 5) && Bit(a, 6) == Bit(b, 6) && Bit(a, 7) == Bit(b, 7);
  }

  lemma OrMask(b: byte, j: nat, k: nat)
    requires j < 8 && k < 8
    ensures Bit(b | Mask(j), k) == (Bit(b, k) || j == k)
  {}

  lemma ShiftBit(b: byte, j: nat)
    requires j < 7
    ensures Bit(b >> 1, j) == Bit(b, j + 1)
  {}

  lemma NoBits(j: nat)
    requires j < 8
    ensures !Bit(0, j)
  {}

  // ---------------------------------------------------------------- inversion

  /** Bit `j` of the byte at bit position `base` lies in the range to be inverted. */
  predicate Covered(base: nat, j: nat, start: nat, end: nat) { start <= base + j < end }

  /** The first `n` bits of `b` that are covered, each complemented and moved to the mirrored place. */
  function Flip(b: byte, base: nat, start: nat, end: nat, n: nat): byte
    requires n <= 8
  {
    if n == 0 then 0
    else
      var f := Flip(b, base, start, end, n - 1);
      if Covered(base, n - 1, start, end) && !Bit(b, n - 1) then f | Mask(8 - n) else f
  }

  lemma {:induction false} FlipBit(b: byte, base: nat, start: nat, end: nat, n: nat, k: nat)
    requires n <= 8 && k < 8
    ensures Bit(Flip(b, base, start, end, n), 7 - k) == (k < n && Covered(base, k, start, end) && !Bit(b, k))
  {
    if n == 0 {
      NoBits(7 - k);
    } else {
      FlipBit(b, base, start, end, n - 1, k);
      OrMask(Flip(b, base, start, end, n - 1), 8 - n, 7 - k);
    }
  }

  /** Inverts the bits `start` to `end - 1` of `d`, byte by byte. */
  function Invert(d: seq<byte>, start: nat, end: nat): (r: seq<byte>)
    requires start < end <= 8 * |d|
    ensures |r| == |d|
  {
    seq(|d|, i requires 0 <= i < |d| =>
      if start / 8 <= i <= (end - 1) / 8 then Flip(d[i], 8 * i, start, end, 8) else d[i])
  }

  /** A whole byte inverted. */
  function FlipByte(b: byte): byte { Flip(b, 0, 0, 8, 8) }

  /** A byte with its bits in reverse order. */
  function MirrorByte(b: byte): byte { !FlipByte(b) }

  lemma ComplementBit(b: byte, j: nat)
    requires j < 8
    ensures Bit(!b, j) == !Bit(b, j)
  {}

  lemma MirrorBit(b: byte, j: nat)
    requires j < 8
    ensures Bit(MirrorByte(b), 7 - j) == Bit(b, j)
  {
    FlipBit(b, 0, 0, 8, 8, j);
    ComplementBit(FlipByte(b), 7 - j);
  }

  lemma FlipTwice(b: byte)
    ensures FlipByte(FlipByte(b)) == b
  {
    forall j: nat | j < 8 ensures Bit(FlipByte(FlipByte(b)), j) == Bit(b, j) {
      FlipBit(FlipByte(b), 0, 0, 8, 8, 7 - j);
      FlipBit(b, 0, 0, 8, 8, j);
    }
    SameBits(FlipByte(FlipByte(b)), b);
  }

  lemma {:induction false} FlipCovered(b: byte, base: nat, start: nat, end: nat, n: nat)
    requires n <= 8 && start <= base && base + 8 <= end
    ensures Flip(b, base, start, end, n) == Flip(b, 0, 0, 8, n)
  {
    if n != 0 { FlipCovered(b, base, start, end, n - 1); }
  }

  /** An aligned range is inverted byte by byte, and every other byte is left alone. */
  lemma InvertAligned(d: seq<byte>, from: nat, to: nat)
    requires from < to <= |d|
    ensures Invert(d, 8 * from, 8 * to)
      == seq(|d|, i requires 0 <= i < |d| => if from <= i < to then FlipByte(d[i]) else d[i])
  {
    forall i | 0 <= i < |d|
      ensures Invert(d, 8 * from, 8 * to)[i] == if from <= i < to then FlipByte(d[i]) else d[i] {
      if from <= i < to { FlipCovered(d[i], 8 * i, 8 * from, 8 * to, 8); }
    }
  }

  lemma InvertAlignedTwice(d: seq<byte>, from: nat, to: nat)
    requires from < to <= |d|
    ensures Invert(Invert(d, 8 * from, 8 * to), 8 * from, 8 * to) == d
  {
    InvertAligned(d, from, to);
    var once := Invert(d, 8 * from, 8 * to);
    InvertAligned(once, from, to);
    forall i | 0 <= i < |d| ensures Invert(once, 8 * from, 8 * to)[i] == d[i] { FlipTwice(d[i]); }
  }

  /** Bit `j` of byte `i`, outside the range, is lost. */
  lemma UncoveredBitIsLost(len: nat, start: nat, end: nat, i: nat, j: nat) returns (a: seq<byte>, b: seq<byte>)
    requires start < end <= 8 * len && i < len && j < 8 && start / 8 <= i <= (end - 1) / 8
    requires !Covered(8 * i, j, start, end)
    ensures |a| == |b| == len && a != b && Invert(a, start, end) == Invert(b, start, end)
  {
    a := seq(len, _ => 0);
    b := a[i := Mask(j)];
    OrMask(0, j, j);
    NoBits(j);
    assert Bit(b[i], j) && !Bit(a[i], j);
    SameFlip(i, j, start, end);
    assert Invert(a, start, end) == Invert(b, start, end);
  }

  lemma SameFlip(i: nat, j: nat, start: nat, end: nat)
    requires j < 8 && !Covered(8 * i, j, start, end)
    ensures Flip(0, 8 * i, start, end, 8) == Flip(Mask(j), 8 * i, start, end, 8)
  {
    var x, y := Flip(0, 8 * i, start, end, 8), Flip(Mask(j), 8 * i, start, end, 8);
    forall k: nat | k < 8 ensures Bit(x, k) == Bit(y, k) {
      FlipBit(0, 8 * i, start, end, 8, 7 - k);
      FlipBit(Mask(j), 8 * i, start, end, 8, 7 - k);
      OrMask(0, j, 7 - k);
      NoBits(7 - k);
    }
    SameBits(x, y);
  }

  /** Inverting a range twice restores the data exactly when the range consists of whole bytes. */
  lemma InvertIsInvolutionIff(len: nat, start: nat, end: nat)
    requires start < end <= 8 * len
    ensures (forall d: seq<byte> | |d| == len :: Invert(Invert(d, start, end), start, end) == d)
      <==> start % 8 == 0 && end % 8 == 0
  {
    if start % 8 == 0 && end % 8 == 0 {
      forall d: seq<byte> | |d| == len ensures Invert(Invert(d, start, end), start, end) == d {
        InvertAlignedTwice(d, start / 8, end / 8);
      }
    } else {
      var a, b;
      if start % 8 != 0 {
        a, b := UncoveredBitIsLost(len, start, end, start / 8, 0);
      } else {
        a, b := UncoveredBitIsLost(len, start, end, (end - 1) / 8, 7);
      }
      assert Invert(Invert(a, start, end), start, end) == Invert(Invert(b, start, end), start, end);
    }
  }

  // ---------------------------------------------------------------- geometry

  /** Bytes of a word, bytes of a partition, and words of a row; a word consists of whole partitions. */
  datatype Geometry = Geometry(word: nat, part: nat, cols: nat)
  {
    predicate Valid() { 0 < part && word % part == 0 }

    /** Bits of a partition. */
    function Size(): (s: nat)
      ensures 0 < part ==> 0 < s
    {
      8 * part
    }

    /** Partitions of a word. */
    function Parts(): nat
      requires 0 < part
    {
      word * 8 / Size()
    }

    /** Partitions of a row. */
    function RowParts(): nat
      requires 0 < part
    {
      cols * word * 8 / Size()
    }

    /** The key of partition 0 of the word at `row`, `col`. */
    function Key(row: nat, col: nat): nat
      requires 0 < part
    {
      row * RowParts() + col * Parts()
    }
  }

  lemma PartsOfWord(g: Geometry)
    requires g.Valid()
    ensures g.Parts() * g.part == g.word
  {
    var n := g.word / g.part;
    assert n * g.part == g.word;
    assert n * g.Size() == g.word * 8;
    DivUnique(g.word * 8, g.Size(), n);
  }

  /** A row has a key for every partition of every column. */
  lemma PartsOfRow(g: Geometry)
    requires g.Valid()
    ensures g.RowParts() == g.cols * g.Parts()
  {
    PartsOfWord(g);
    var n := g.Parts();
    calc {
      g.cols * g.word * 8;
      g.cols * (n * g.part) * 8;
      (g.cols * n) * g.Size();
    }
    DivUnique(g.cols * g.word * 8, g.Size(), g.cols * n);
  }

  lemma KeyIsRadix(g: Geometry, row: nat, col: nat, i: nat)
    requires g.Valid()
    ensures g.Key(row, col) + i == (row * g.cols + col) * g.Parts() + i
  {
    PartsOfRow(g);
    assert row * (g.cols * g.Parts()) == (row * g.cols) * g.Parts();
  }

  /** No two partitions of the memory share a key. */
  lemma KeysAreInjective(g: Geometry, row: nat, col: nat, i: nat, row': nat, col': nat, i': nat)
    requires g.Valid() && col < g.cols && col' < g.cols && i < g.Parts() && i' < g.Parts()
    requires g.Key(row, col) + i == g.Key(row', col') + i'
    ensures row == row' && col == col' && i == i'
  {
    var cell, cell' := row * g.cols + col, row' * g.cols + col';
    assert cell * g.Parts() + i == cell' * g.Parts() + i' by {
      KeyIsRadix(g, row, col, i);
      KeyIsRadix(g, row', col', i');
    }
    MixedRadixIsInjective(g.Parts(), cell, i, cell', i');
    MixedRadixIsInjective(g.cols, row, col, row', col');
  }
}
