/** The Flip-N-Write encoder as the source runs it: data blocks and the flip set updated in place. */
module FlipNWriteEncoder {
  import opened Arithmetic
  import opened FlipSpec
  import opened FlipRuns

  class FlipNWrite {
    const g: Geometry
    var flippedAddresses: set<nat>
    var bitsFlipped: nat
    var bitCompareSwapWrites: nat

    constructor (g: Geometry)
      requires g.Valid()
      ensures this.g == g && State() == Encoder({}, 0, 0)
    {
      this.g := g;
      flippedAddresses, bitsFlipped, bitCompareSwapWrites := {}, 0, 0;
    }

    ghost function State(): Encoder
      reads this
    {
      Encoder(flippedAddresses, bitsFlipped, bitCompareSwapWrites)
    }

    /** Inverts one byte, bit by bit, as far as it lies in the range. */
    static method InvertByte(originalByte: byte, i: nat, startBit: nat, endBit: nat) returns (newByte: byte)
      ensures newByte == Flip(originalByte, 8 * i, startBit, endBit, 8)
    {
      var shiftByte := originalByte;
      newByte := 0;
      for j := 0 to 8
        invariant newByte == Flip(originalByte, 8 * i, startBit, endBit, j)
        invariant Shifted(shiftByte, originalByte, j)
      {
        ShiftedNext(shiftByte, originalByte, j);
        var currentBit := i * 8 + j;
        if startBit <= currentBit < endBit && shiftByte & 0x1 == 0 {
          newByte := newByte | Mask(7 - j);
        }
        shiftByte := shiftByte >> 1;
      }
    }

    static method InvertData(data: array<byte>, startBit: nat, endBit: nat)
      requires startBit < endBit <= 8 * data.Length
      modifies data
      ensures data[..] == Invert(old(data[..]), startBit, endBit)
    {
      var startByte, endByte := startBit / 8, (endBit - 1) / 8;
      for i := startByte to endByte + 1
        invariant forall k | 0 <= k < data.Length ::
          data[k] == if startByte <= k < i then Flip(old(data[k]), 8 * k, startBit, endBit, 8) else old(data[k])
      {
        var newByte := InvertByte(data[i], i, startBit, endBit);
        data[i] := newByte;
      }
    }

    /** What a partition's bits are in bytes. */
    static lemma PartitionBytes(g: Geometry, i: nat)
      requires g.Valid() && i < g.Parts()
      ensures i * g.Size() == 8 * (i * g.part) && (i + 1) * g.Size() == 8 * ((i + 1) * g.part)
      ensures i * g.part < (i + 1) * g.part <= g.word
    {
      PartInWord(g, i);
    }

    /** Inverts partition `i`. */
    method InvertPartition(data: array<byte>, i: nat)
      requires g.Valid() && data.Length == g.word && i < g.Parts()
      modifies data
      ensures forall k | 0 <= k < data.Length ::
        data[k] == if PartOf(g, k) == i then FlipByte(old(data[k])) else old(data[k])
    {
      PartitionBytes(g, i);
      ghost var before := data[..];
      InvertAligned(before, i * g.part, (i + 1) * g.part);
      InvertData(data, i * g.Size(), (i + 1) * g.Size());
      forall k | 0 <= k < data.Length ensures data[k] == if PartOf(g, k) == i then FlipByte(before[k]) else before[k] {
        PartOfByte(g, k, i);
        assert data[..][k] == Invert(before, i * g.Size(), (i + 1) * g.Size())[k];
      }
    }

    /** Counts, per partition, the bits in which both words differ. */
    method CountChanges(oldData: array<byte>, newData: array<byte>) returns (modifyCount: array<nat>)
      requires g.Valid() && oldData.Length == newData.Length == g.word
      ensures fresh(modifyCount) && modifyCount.Length == g.Parts()
      ensures forall p | 0 <= p < g.Parts() :: modifyCount[p] == Changed(g, oldData[..], newData[..], p)
    {
      modifyCount := new nat[g.Parts()](_ => 0);
      ghost var a, b := oldData[..], newData[..];
      var currentBit: nat := 0;
      for i := 0 to g.word
        invariant currentBit == 8 * i
        invariant Counted(g, a, b, modifyCount[..], currentBit)
      {
        if oldData[i] == newData[i] {
          EqualByteKeepsCounts(g, a, b, modifyCount[..], i);
        } else {
          CountByte(oldData[i], newData[i], currentBit, modifyCount, a, b, i);
        }
        currentBit := currentBit + 8;
      }
      CountedAll(g, a, b, modifyCount[..]);
    }

    /** Counts the differing bits of one byte. */
    method CountByte(oldByte: byte, newByte: byte, firstBit: nat, modifyCount: array<nat>,
                     ghost a: seq<byte>, ghost b: seq<byte>, ghost i: nat)
      requires g.Valid() && |a| == |b| == g.word && i < g.word && oldByte == a[i] && newByte == b[i]
      requires firstBit == 8 * i
      requires Counted(g, a, b, modifyCount[..], 8 * i)
      modifies modifyCount
      ensures Counted(g, a, b, modifyCount[..], 8 * i + 8)
    {
      hide Counted, Bit;
      var currentBit := firstBit;
      for j := 0 to 8
        invariant currentBit == 8 * i + j
        invariant Counted(g, a, b, modifyCount[..], currentBit)
      {
        ghost var before := modifyCount[..];
        CountedNext(g, a, b, before, currentBit);
        assert currentBit / 8 == i && currentBit % 8 == j;
        var at := PartOfBit(g, currentBit);
        if Bit(oldByte, j) != Bit(newByte, j) { modifyCount[at] := modifyCount[at] + 1; }
        assert modifyCount[..] == Bump(before, at, BitAt(a, currentBit) != BitAt(b, currentBit));
        currentBit := currentBit + 1;
      }
    }

    /** Brings the old data into the form in which it is stored. */
    method RestoreStored(oldData: array<byte>, key: nat)
      requires g.Valid() && oldData.Length == g.word
      modifies oldData
      ensures oldData[..] == Toggle(g, flippedAddresses, key, old(oldData[..]))
    {
      ghost var before := oldData[..];
      for i := 0 to g.Parts()
        invariant forall k | 0 <= k < g.word ::
          oldData[k] == if PartOf(g, k) < i && key + PartOf(g, k) in flippedAddresses then FlipByte(before[k])
            else before[k]
      {
        if key + i in flippedAddresses { InvertPartition(oldData, i); }
      }
      forall k | 0 <= k < g.word ensures oldData[k] == Toggle(g, flippedAddresses, key, before)[k] {
        PartOfInRange(g, k);
      }
    }

    /** Flips partition `i` if more than half of its bits change, and marks it as flipped or not. */
    method FlipPartition(newData: array<byte>, key: nat, i: nat, count: nat, ghost stored: seq<byte>,
                         ghost data: seq<byte>)
      requires g.Valid() && newData.Length == g.word == |stored| == |data| && i < g.Parts()
      requires count == Changed(g, stored, data, i)
      modifies this, newData
      ensures State() == EncodeOne(g, old(State()), key, stored, data, i)
      ensures forall k | 0 <= k < g.word ::
        newData[k] == if PartOf(g, k) == i && Flips(g, stored, data, i) then FlipByte(old(newData[k]))
          else old(newData[k])
    {
      PartInWord(g, i);
      DifferingBound(stored, data, i * g.Size(), (i + 1) * g.Size());
      bitCompareSwapWrites := bitCompareSwapWrites + count;
      if count > g.Size() / 2 {
        InvertPartition(newData, i);
        bitsFlipped := bitsFlipped + (g.Size() - count);
        flippedAddresses := flippedAddresses + {key + i};
      } else {
        flippedAddresses := flippedAddresses - {key + i};
        bitsFlipped := bitsFlipped + count;
      }
    }

    method FlipPartitions(newData: array<byte>, key: nat, modifyCount: seq<nat>, ghost stored: seq<byte>)
      requires g.Valid() && newData.Length == g.word == |stored| && |modifyCount| == g.Parts()
      requires forall p | 0 <= p < g.Parts() :: modifyCount[p] == Changed(g, stored, newData[..], p)
      modifies this, newData
      ensures State() == EncodedUpTo(g, old(State()), key, stored, old(newData[..]), g.Parts())
      ensures newData[..] == Toggle(g, flippedAddresses, key, old(newData[..]))
    {
      ghost var data, before := newData[..], State();
      hide FlippedUpTo, Changed, EncodedUpTo, Toggle, Flips, PartOf;
      EncodedUpToStart(g, before, key, stored, data);
      for i := 0 to g.Parts()
        invariant State() == EncodedUpTo(g, before, key, stored, data, i)
        invariant FlippedUpTo(g, stored, data, newData[..], i)
      {
        ghost var now := newData[..];
        FlipPartition(newData, key, i, modifyCount[i], stored, data);
        FlippedUpToNext(g, stored, data, now, newData[..], i);
        EncodedUpToNext(g, before, key, stored, data, i);
      }
      FlippedUpToIsToggle(g, stored, data, newData[..], before, key);
    }

    method Write(newData: array<byte>, oldData: array<byte>, row: nat, col: nat)
      requires g.Valid() && newData.Length == oldData.Length == g.word && newData != oldData
      modifies this, newData, oldData
      ensures State() == Encode(g, old(State()), g.Key(row, col), old(oldData[..]), old(newData[..]))
      ensures newData[..] == Toggle(g, flippedAddresses, g.Key(row, col), old(newData[..]))
    {
      var key := g.Key(row, col);
      RestoreStored(oldData, key);
      var modifyCount := CountChanges(oldData, newData);
      FlipPartitions(newData, key, modifyCount[..], oldData[..]);
    }
  }

  /** `now` is `data` with those of the first `n` partitions inverted that are to be flipped. */
  ghost predicate FlippedUpTo(g: Geometry, stored: seq<byte>, data: seq<byte>, now: seq<byte>, n: nat)
    requires g.Valid() && |stored| == |data| == g.word && n <= g.Parts()
  {
    && |now| == g.word
    && forall k | 0 <= k < g.word ::
         now[k] == if PartOf(g, k) < n && Flips(g, stored, data, PartOf(g, k)) then FlipByte(data[k]) else data[k]
  }

  /** The encoder once partition `i` has been decided. */
  ghost function EncodeOne(g: Geometry, e: Encoder, key: nat, stored: seq<byte>, data: seq<byte>, i: nat): Encoder
    requires g.Valid() && |stored| == |data| == g.word && i < g.Parts()
  {
    Encoder(if Flips(g, stored, data, i) then e.flipped + {key + i} else e.flipped - {key + i},
            e.bitsFlipped + Charge(g, stored, data, i), e.compared + Changed(g, stored, data, i))
  }

  /** The encoder once the first `n` partitions have been decided. */
  ghost function EncodedUpTo(g: Geometry, e: Encoder, key: nat, stored: seq<byte>, data: seq<byte>, n: nat): Encoder
    requires g.Valid() && |stored| == |data| == g.word && n <= g.Parts()
  {
    Encoder(FlippedAfter(g, e.flipped, key, stored, data, n),
            e.bitsFlipped + ChargeAll(g, stored, data, n), e.compared + ChangedAll(g, stored, data, n))
  }

  lemma EncodedUpToStart(g: Geometry, e: Encoder, key: nat, stored: seq<byte>, data: seq<byte>)
    requires g.Valid() && |stored| == |data| == g.word
    ensures EncodedUpTo(g, e, key, stored, data, 0) == e && FlippedUpTo(g, stored, data, data, 0)
  {}

  lemma EncodedUpToNext(g: Geometry, e: Encoder, key: nat, stored: seq<byte>, data: seq<byte>, i: nat)
    requires g.Valid() && |stored| == |data| == g.word && i < g.Parts()
    ensures EncodedUpTo(g, e, key, stored, data, i + 1)
      == EncodeOne(g, EncodedUpTo(g, e, key, stored, data, i), key, stored, data, i)
  {}

  lemma FlippedUpToNext(g: Geometry, stored: seq<byte>, data: seq<byte>, now: seq<byte>, next: seq<byte>, i: nat)
    requires g.Valid() && |stored| == |data| == |next| == g.word && i < g.Parts()
    requires FlippedUpTo(g, stored, data, now, i)
    requires forall k | 0 <= k < g.word ::
      next[k] == if PartOf(g, k) == i && Flips(g, stored, data, i) then FlipByte(now[k]) else now[k]
    ensures FlippedUpTo(g, stored, data, next, i + 1)
  {}

  lemma FlippedUpToIsToggle(g: Geometry, stored: seq<byte>, data: seq<byte>, now: seq<byte>, e: Encoder, key: nat)
    requires g.Valid() && |stored| == |data| == g.word && FlippedUpTo(g, stored, data, now, g.Parts())
    ensures now == Toggle(g, EncodedUpTo(g, e, key, stored, data, g.Parts()).flipped, key, data)
  {
    var flipped := EncodedUpTo(g, e, key, stored, data, g.Parts()).flipped;
    forall k | 0 <= k < g.word ensures now[k] == Toggle(g, flipped, key, data)[k] { PartOfInRange(g, k); }
  }

  /** `s` is `b` shifted right by `j`. */
  ghost predicate Shifted(s: byte, b: byte, j: nat)
    requires j <= 8
  {
    forall k: nat | k < 8 - j :: Bit(s, k) == BitFrom(b, j, k)
  }

  predicate BitFrom(b: byte, j: nat, k: nat)
    requires j + k < 8
  {
    Bit(b, j + k)
  }

  lemma ShiftedNext(s: byte, b: byte, j: nat)
    requires j < 8 && Shifted(s, b, j)
    ensures Shifted(s >> 1, b, j + 1) && (s & 0x1 != 0 <==> Bit(b, j))
  {
    assert Bit(s, 0) == BitFrom(b, j, 0);
    var t := s >> 1;
    forall k: nat | k < 8 - (j + 1) ensures Bit(t, k) == BitFrom(b, j + 1, k) {
      ShiftBit(s, k);
      assert Bit(s, k + 1) == BitFrom(b, j, k + 1);
    }
  }

  lemma PartOfByte(g: Geometry, k: nat, i: nat)
    requires g.Valid()
    ensures PartOf(g, k) == i <==> i * g.part <= k < (i + 1) * g.part
  {
    if i * g.part <= k < (i + 1) * g.part { DivUnique(k, g.part, i); }
  }

  // ---------------------------------------------------------------- counting

  /** Bit `n`, cut to the bits of partition `p`. */
  function Clip(g: Geometry, p: nat, n: nat): (c: nat)
    ensures p * g.Size() <= c <= (p + 1) * g.Size()
  {
    if n <= p * g.Size() then p * g.Size() else if n >= (p + 1) * g.Size() then (p + 1) * g.Size() else n
  }

  /** The differing bits of partition `p` among the first `n` bits. */
  ghost function CountUpTo(g: Geometry, a: seq<byte>, b: seq<byte>, p: nat, n: nat): nat
    requires g.Valid() && |a| == |b| == g.word && p < g.Parts()
  {
    PartInWord(g, p);
    Differing(a, b, p * g.Size(), Clip(g, p, n))
  }

  /** The partition of bit `n` of a word. */
  function PartOfBit(g: Geometry, n: nat): nat
    requires 0 < g.part
  {
    Quotient(n, g.Size())
  }

  lemma BitHasPartition(g: Geometry, n: nat)
    requires g.Valid() && n < 8 * g.word
    ensures PartOfBit(g, n) < g.Parts()
  {
    PartsOfWord(g);
    assert g.Parts() * g.Size() == 8 * g.word;
    if n / g.Size() >= g.Parts() { MulMonotone(g.Size(), g.Parts(), n / g.Size()); }
  }

  lemma PartitionBounds(size: nat, p: nat, n: nat)
    requires 0 < size
    ensures p * size <= n < p * size + size <==> p == n / size
    ensures (p + 1) * size == p * size + size
  {
    if p * size <= n < p * size + size { DivUnique(n, size, p); }
  }

  lemma ClipNext(g: Geometry, p: nat, n: nat)
    requires 0 < g.part
    ensures if p == PartOfBit(g, n) then Clip(g, p, n) == n && Clip(g, p, n + 1) == n + 1
            else Clip(g, p, n + 1) == Clip(g, p, n)
  {
    PartitionBounds(g.Size(), p, n);
  }

  lemma OneMoreBit(g: Geometry, a: seq<byte>, b: seq<byte>, p: nat, n: nat)
    requires g.Valid() && |a| == |b| == g.word && p < g.Parts() && n < 8 * g.word
    ensures CountUpTo(g, a, b, p, n + 1)
      == CountUpTo(g, a, b, p, n) + if p == PartOfBit(g, n) && BitAt(a, n) != BitAt(b, n) then 1 else 0
  {
    hide Clip, BitAt;
    PartInWord(g, p);
    ClipNext(g, p, n);
  }

  lemma {:induction false} EqualByteAddsNothing(g: Geometry, a: seq<byte>, b: seq<byte>, p: nat, i: nat, j: nat)
    requires g.Valid() && |a| == |b| == g.word && p < g.Parts() && i < g.word && a[i] == b[i] && j <= 8
    ensures CountUpTo(g, a, b, p, 8 * i + j) == CountUpTo(g, a, b, p, 8 * i)
  {
    if j != 0 {
      EqualByteAddsNothing(g, a, b, p, i, j - 1);
      OneMoreBit(g, a, b, p, 8 * i + (j - 1));
      assert (8 * i + (j - 1)) / 8 == i;
    }
  }

  /** Every partition has been counted up to bit `n`. */
  ghost predicate Counted(g: Geometry, a: seq<byte>, b: seq<byte>, counts: seq<nat>, n: nat)
    requires g.Valid() && |a| == |b| == g.word
  {
    |counts| == g.Parts() && forall p | 0 <= p < g.Parts() :: counts[p] == CountUpTo(g, a, b, p, n)
  }

  /** `counts` with one more at `at`, if `more`. */
  function Bump(counts: seq<nat>, at: nat, more: bool): seq<nat>
    requires at < |counts|
  {
    if more then counts[at := counts[at] + 1] else counts
  }

  lemma CountedNext(g: Geometry, a: seq<byte>, b: seq<byte>, counts: seq<nat>, n: nat)
    requires g.Valid() && |a| == |b| == g.word && n < 8 * g.word && Counted(g, a, b, counts, n)
    ensures |counts| == g.Parts() && PartOfBit(g, n) < g.Parts()
    ensures Counted(g, a, b, Bump(counts, PartOfBit(g, n), BitAt(a, n) != BitAt(b, n)), n + 1)
  {
    hide BitAt, CountUpTo, PartOfBit;
    BitHasPartition(g, n);
    forall p | 0 <= p < g.Parts()
      ensures CountUpTo(g, a, b, p, n + 1)
        == counts[p] + if p == PartOfBit(g, n) && BitAt(a, n) != BitAt(b, n) then 1 else 0 {
      OneMoreBit(g, a, b, p, n);
    }
  }

  lemma EqualByteKeepsCounts(g: Geometry, a: seq<byte>, b: seq<byte>, counts: seq<nat>, i: nat)
    requires g.Valid() && |a| == |b| == g.word && i < g.word && a[i] == b[i] && Counted(g, a, b, counts, 8 * i)
    ensures Counted(g, a, b, counts, 8 * i + 8)
  {
    forall p | 0 <= p < g.Parts() ensures counts[p] == CountUpTo(g, a, b, p, 8 * i + 8) {
      EqualByteAddsNothing(g, a, b, p, i, 8);
    }
  }

  lemma CountedAll(g: Geometry, a: seq<byte>, b: seq<byte>, counts: seq<nat>)
    requires g.Valid() && |a| == |b| == g.word && Counted(g, a, b, counts, 8 * g.word)
    ensures forall p | 0 <= p < g.Parts() :: counts[p] == Changed(g, a, b, p)
  {
    forall p | 0 <= p < g.Parts() ensures counts[p] == Changed(g, a, b, p) { PartInWord(g, p); }
  }
}
