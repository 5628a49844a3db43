/** What Flip-N-Write stores and charges, for one write and for any run of writes. */
module FlipRuns {
  import opened Arithmetic
  import opened FlipSpec

  /** The encoder's memory of flipped partitions, and its two statistics. */
  datatype Encoder = Encoder(flipped: set<nat>, bitsFlipped: nat, compared: nat)

  // ---------------------------------------------------------------- one write

  /** The partition that byte `i` of a word belongs to. */
  function PartOf(g: Geometry, i: nat): nat
    requires 0 < g.part
  {
    i / g.part
  }

  /** The word with every partition inverted that `flipped` holds a key for. */
  function Toggle(g: Geometry, flipped: set<nat>, key: nat, d: seq<byte>): (r: seq<byte>)
    requires 0 < g.part
    ensures |r| == |d|
  {
    seq(|d|, i requires 0 <= i < |d| => if key + PartOf(g, i) in flipped then FlipByte(d[i]) else d[i])
  }

  /** Bit `n` of a word. */
  predicate BitAt(d: seq<byte>, n: nat)
    requires n < 8 * |d|
  {
    Bit(d[n / 8], n % 8)
  }

  /** How many of the bits `from` to `to - 1` differ. */
  function Differing(a: seq<byte>, b: seq<byte>, from: nat, to: nat): nat
    requires from <= to <= 8 * |a| && |a| == |b|
  {
    if from == to then 0 else Differing(a, b, from, to - 1) + if BitAt(a, to - 1) != BitAt(b, to - 1) then 1 else 0
  }

  lemma {:induction false} DifferingBound(a: seq<byte>, b: seq<byte>, from: nat, to: nat)
    requires from <= to <= 8 * |a| && |a| == |b|
    ensures Differing(a, b, from, to) <= to - from
  {
    if from != to { DifferingBound(a, b, from, to - 1); }
  }

  lemma PartInWord(g: Geometry, p: nat)
    requires g.Valid() && p < g.Parts()
    ensures (p + 1) * g.part <= g.word && (p + 1) * g.Size() <= 8 * g.word
    ensures p * g.Size() + g.Size() == (p + 1) * g.Size() && p * g.Size() == 8 * (p * g.part)
  {
    PartsOfWord(g);
    MulMonotone(g.part, p + 1, g.Parts());
    assert (p + 1) * g.Size() == 8 * ((p + 1) * g.part);
  }

  /** Bits of partition `p` that would change if `new` were written over `old` as it is. */
  function Changed(g: Geometry, stored: seq<byte>, data: seq<byte>, p: nat): nat
    requires g.Valid() && |stored| == |data| == g.word && p < g.Parts()
  {
    PartInWord(g, p);
    Differing(stored, data, p * g.Size(), (p + 1) * g.Size())
  }

  predicate Flips(g: Geometry, stored: seq<byte>, data: seq<byte>, p: nat)
    requires g.Valid() && |stored| == |data| == g.word && p < g.Parts()
  {
    Changed(g, stored, data, p) > g.Size() / 2
  }

  /** What one partition is charged: the changed bits, or the others if it is stored inverted. */
  function Charge(g: Geometry, stored: seq<byte>, data: seq<byte>, p: nat): (c: nat)
    requires g.Valid() && |stored| == |data| == g.word && p < g.Parts()
    ensures c <= Changed(g, stored, data, p) && c <= g.Size() / 2
  {
    PartInWord(g, p);
    DifferingBound(stored, data, p * g.Size(), (p + 1) * g.Size());
    var n := Changed(g, stored, data, p);
    if n > g.Size() / 2 then g.Size() - n else n
  }

  function ChargeAll(g: Geometry, stored: seq<byte>, data: seq<byte>, n: nat): nat
    requires g.Valid() && |stored| == |data| == g.word && n <= g.Parts()
  {
    if n == 0 then 0 else ChargeAll(g, stored, data, n - 1) + Charge(g, stored, data, n - 1)
  }

  function ChangedAll(g: Geometry, stored: seq<byte>, data: seq<byte>, n: nat): nat
    requires g.Valid() && |stored| == |data| == g.word && n <= g.Parts()
  {
    if n == 0 then 0 else ChangedAll(g, stored, data, n - 1) + Changed(g, stored, data, n - 1)
  }

  /** The keys of flipped partitions once the first `n` partitions have been decided. */
  function FlippedAfter(g: Geometry, flipped: set<nat>, key: nat, stored: seq<byte>, data: seq<byte>,
                        n: nat): (r: set<nat>)
    requires g.Valid() && |stored| == |data| == g.word && n <= g.Parts()
    ensures forall p: nat | p < n :: key + p in r <==> Flips(g, stored, data, p)
    ensures forall k: nat | k < key || key + n <= k :: k in r <==> k in flipped
  {
    if n == 0 then flipped
    else
      var before := FlippedAfter(g, flipped, key, stored, data, n - 1);
      if Flips(g, stored, data, n - 1) then before + {key + (n - 1)} else before - {key + (n - 1)}
  }

  /**
    Writes `data` over the logical data `old`: what is stored is `old` with the flipped partitions
    inverted, and the new data is stored with the partitions inverted that are now flipped.
   */
  function Encode(g: Geometry, e: Encoder, key: nat, previous: seq<byte>, data: seq<byte>): Encoder
    requires g.Valid() && |previous| == |data| == g.word
  {
    var stored := Toggle(g, e.flipped, key, previous);
    Encoder(FlippedAfter(g, e.flipped, key, stored, data, g.Parts()),
            e.bitsFlipped + ChargeAll(g, stored, data, g.Parts()),
            e.compared + ChangedAll(g, stored, data, g.Parts()))
  }

  // ---------------------------------------------------------------- results about one write

  lemma ToggleTwice(g: Geometry, flipped: set<nat>, key: nat, d: seq<byte>)
    requires 0 < g.part
    ensures Toggle(g, flipped, key, Toggle(g, flipped, key, d)) == d
  {
    forall i | 0 <= i < |d| ensures Toggle(g, flipped, key, Toggle(g, flipped, key, d))[i] == d[i] { FlipTwice(d[i]); }
  }

  /** A write never charges more than a plain compare-and-write, nor more than half of the bits. */
  lemma {:induction false} ChargeBounds(g: Geometry, stored: seq<byte>, data: seq<byte>, n: nat)
    requires g.Valid() && |stored| == |data| == g.word && n <= g.Parts()
    ensures ChargeAll(g, stored, data, n) <= ChangedAll(g, stored, data, n)
    ensures ChargeAll(g, stored, data, n) <= n * (g.Size() / 2)
  {
    if n != 0 {
      ChargeBounds(g, stored, data, n - 1);
      assert n * (g.Size() / 2) == (n - 1) * (g.Size() / 2) + g.Size() / 2;
    }
  }

  /** The word with the bits of every byte in reverse order. */
  function Mirror(d: seq<byte>): (r: seq<byte>)
    ensures |r| == |d|
  {
    seq(|d|, i requires 0 <= i < |d| => MirrorByte(d[i]))
  }

  lemma {:induction false} DifferingSame(a: seq<byte>, b: seq<byte>, c: seq<byte>, from: nat, to: nat)
    requires from <= to <= 8 * |a| && |a| == |b| == |c|
    requires forall n | from <= n < to :: BitAt(b, n) == BitAt(c, n)
    ensures Differing(a, b, from, to) == Differing(a, c, from, to)
  {
    if from != to { DifferingSame(a, b, c, from, to - 1); }
  }

  lemma {:induction false} DifferingComplement(a: seq<byte>, b: seq<byte>, c: seq<byte>, from: nat, to: nat)
    requires from <= to <= 8 * |a| && |a| == |b| == |c|
    requires forall n | from <= n < to :: BitAt(b, n) != BitAt(c, n)
    ensures Differing(a, b, from, to) + Differing(a, c, from, to) == to - from
  {
    if from != to { DifferingComplement(a, b, c, from, to - 1); }
  }

  /** A byte within partition `p`. */
  lemma BitInPart(g: Geometry, p: nat, n: nat)
    requires g.Valid() && p < g.Parts() && p * g.Size() <= n < (p + 1) * g.Size()
    ensures n / 8 < g.word && PartOf(g, n / 8) == p
  {
    PartInWord(g, p);
    DivUnique(n / 8, g.part, p);
  }

  /** What is stored for partition `p` once it was written: the data, inverted byte by byte if it flips. */
  lemma StoredAfter(g: Geometry, e: Encoder, key: nat, previous: seq<byte>, data: seq<byte>, p: nat, n: nat)
    requires g.Valid() && |previous| == |data| == g.word && p < g.Parts()
    requires p * g.Size() <= n < (p + 1) * g.Size()
    ensures n < 8 * g.word
    ensures var stored := Toggle(g, e.flipped, key, previous);
      var after := Toggle(g, Encode(g, e, key, previous, data).flipped, key, data);
      BitAt(after, n) == if Flips(g, stored, data, p) then !BitAt(Mirror(data), n) else BitAt(data, n)
  {
    BitInPart(g, p, n);
    ComplementBit(FlipByte(data[n / 8]), n % 8);
  }

  /**
    When the charge is right. A partition stored as it is is charged exactly the bits that
    change. One that is stored inverted is, if and only if the stored data differs from the new
    data in as many bits as from the mirrored new data.
   */
  lemma ChargeIsRightIff(g: Geometry, e: Encoder, key: nat, previous: seq<byte>, data: seq<byte>, p: nat)
    requires g.Valid() && |previous| == |data| == g.word && p < g.Parts()
    ensures var stored := Toggle(g, e.flipped, key, previous);
      var after := Toggle(g, Encode(g, e, key, previous, data).flipped, key, data);
      && (!Flips(g, stored, data, p) ==> Charge(g, stored, data, p) == Changed(g, stored, after, p))
      && (Flips(g, stored, data, p) ==>
            (Charge(g, stored, data, p) == Changed(g, stored, after, p)
             <==> Changed(g, stored, data, p) == Changed(g, stored, Mirror(data), p)))
  {
    hide BitAt, Encode;
    var stored := Toggle(g, e.flipped, key, previous);
    var after := Toggle(g, Encode(g, e, key, previous, data).flipped, key, data);
    var from, to := p * g.Size(), (p + 1) * g.Size();
    PartInWord(g, p);
    forall n | from <= n < to
      ensures BitAt(after, n) == if Flips(g, stored, data, p) then !BitAt(Mirror(data), n) else BitAt(data, n) {
      StoredAfter(g, e, key, previous, data, p, n);
    }
    if Flips(g, stored, data, p) {
      DifferingComplement(stored, after, Mirror(data), from, to);
    } else {
      DifferingSame(stored, after, data, from, to);
    }
  }

  /** The charge is right whenever every byte of the partition reads the same in both directions. */
  lemma PalindromesAreChargedRight(g: Geometry, e: Encoder, key: nat, previous: seq<byte>, data: seq<byte>, p: nat)
    requires g.Valid() && |previous| == |data| == g.word && p < g.Parts()
    requires forall i | p * g.part <= i < (p + 1) * g.part && i < |data| :: MirrorByte(data[i]) == data[i]
    ensures var stored := Toggle(g, e.flipped, key, previous);
      var after := Toggle(g, Encode(g, e, key, previous, data).flipped, key, data);
      Charge(g, stored, data, p) == Changed(g, stored, after, p)
  {
    var stored := Toggle(g, e.flipped, key, previous);
    PartInWord(g, p);
    forall n | p * g.Size() <= n < (p + 1) * g.Size() ensures BitAt(Mirror(data), n) == BitAt(data, n) {
      BitInPart(g, p, n);
    }
    DifferingSame(stored, Mirror(data), data, p * g.Size(), (p + 1) * g.Size());
    ChargeIsRightIff(g, e, key, previous, data, p);
  }

  /** A word that is charged nothing although two bits change: inverting also mirrors each byte. */
  lemma InvertedChargeMayBeWrong()
    ensures var g, stored, data := Geometry(1, 1, 1), [0x01 as byte], [0xFE as byte];
      && g.Parts() == 1 && Charge(g, stored, data, 0) == 0
      && Toggle(g, {0}, 0, data) == [0x80]
  {
    var g, stored, data := Geometry(1, 1, 1), [0x01 as byte], [0xFE as byte];
    assert forall j: nat | j < 8 :: Bit(0x01, j) != Bit(0xFE, j) && BitAt(stored, j) != BitAt(data, j);
    AllDiffer(stored, data, 8);
    PartInWord(g, 0);
    forall j: nat | j < 8 ensures Bit(FlipByte(0xFE), j) == Bit(0x80, j) { FlipBit(0xFE, 0, 0, 8, 8, 7 - j); }
    SameBits(FlipByte(0xFE), 0x80);
  }

  lemma {:induction false} AllDiffer(a: seq<byte>, b: seq<byte>, n: nat)
    requires |a| == |b| && n <= 8 * |a| && forall j: nat | j < n :: BitAt(a, j) != BitAt(b, j)
    ensures Differing(a, b, 0, n) == n
  {
    if n != 0 { AllDiffer(a, b, n - 1); }
  }

  // ---------------------------------------------------------------- the statistics, bit by bit

  /** The bits in which two words differ, among `from` to `to - 1`. */
  ghost function DifferingBits(a: seq<byte>, b: seq<byte>, from: nat, to: nat): set<nat>
    requires from <= to <= 8 * |a| && |a| == |b|
  {
    set n: nat | from <= n < to && Bit(a[n / 8], n % 8) != Bit(b[n / 8], n % 8) :: n
  }

  lemma {:induction false} DifferingIsSize(a: seq<byte>, b: seq<byte>, from: nat, to: nat)
    requires from <= to <= 8 * |a| && |a| == |b|
    ensures Differing(a, b, from, to) == |DifferingBits(a, b, from, to)|
  {
    hide Bit;
    if from == to {
      assert DifferingBits(a, b, from, to) == {};
    } else {
      DifferingIsSize(a, b, from, to - 1);
      OneMoreBit(a, b, from, to);
    }
  }

  lemma OneMoreBit(a: seq<byte>, b: seq<byte>, from: nat, to: nat)
    requires from < to <= 8 * |a| && |a| == |b|
    ensures |DifferingBits(a, b, from, to)|
      == |DifferingBits(a, b, from, to - 1)| + if BitAt(a, to - 1) != BitAt(b, to - 1) then 1 else 0
  {
    hide Bit;
    var before, after := DifferingBits(a, b, from, to - 1), DifferingBits(a, b, from, to);
    if BitAt(a, to - 1) != BitAt(b, to - 1) {
      assert after == before + {to - 1};
    } else {
      assert after == before;
    }
  }

  lemma {:induction false} DifferingJoins(a: seq<byte>, b: seq<byte>, from: nat, mid: nat, to: nat)
    requires from <= mid <= to <= 8 * |a| && |a| == |b|
    ensures Differing(a, b, from, mid) + Differing(a, b, mid, to) == Differing(a, b, from, to)
  {
    if mid != to { DifferingJoins(a, b, from, mid, to - 1); }
  }

  lemma {:induction false} ChangedAllIsDiffering(g: Geometry, stored: seq<byte>, data: seq<byte>, n: nat)
    requires g.Valid() && |stored| == |data| == g.word && n <= g.Parts()
    ensures n * g.Size() <= 8 * g.word
    ensures ChangedAll(g, stored, data, n) == Differing(stored, data, 0, n * g.Size())
  {
    if n != 0 {
      PartInWord(g, n - 1);
      ChangedAllIsDiffering(g, stored, data, n - 1);
      DifferingJoins(stored, data, 0, (n - 1) * g.Size(), n * g.Size());
    }
  }

  lemma HalfIs(g: Geometry, n: nat)
    ensures n > g.Size() / 2 <==> 2 * n > g.Size()
  {}

  lemma FlagIsDecision(g: Geometry, e: Encoder, key: nat, previous: seq<byte>, data: seq<byte>, p: nat)
    requires g.Valid() && |previous| == |data| == g.word && p < g.Parts()
    ensures key + p in Encode(g, e, key, previous, data).flipped
      <==> Flips(g, Toggle(g, e.flipped, key, previous), data, p)
  {
    hide Toggle, Flips;
  }

  lemma DecisionIs(g: Geometry, stored: seq<byte>, data: seq<byte>, p: nat, n: nat)
    requires g.Valid() && |stored| == |data| == g.word && p < g.Parts() && n == Changed(g, stored, data, p)
    ensures Flips(g, stored, data, p) <==> 2 * n > g.Size()
    ensures Charge(g, stored, data, p) == if 2 * n > g.Size() then g.Size() - n else n
  {
    hide Changed;
    HalfIs(g, n);
    ChangedBound(g, stored, data, p);
  }

  lemma ChangedBound(g: Geometry, stored: seq<byte>, data: seq<byte>, p: nat)
    requires g.Valid() && |stored| == |data| == g.word && p < g.Parts()
    ensures Changed(g, stored, data, p) <= g.Size()
  {
    PartInWord(g, p);
    DifferingBound(stored, data, p * g.Size(), (p + 1) * g.Size());
  }

  lemma ChangedIsSize(g: Geometry, stored: seq<byte>, data: seq<byte>, p: nat)
    requires g.Valid() && |stored| == |data| == g.word && p < g.Parts()
    ensures p * g.Size() <= (p + 1) * g.Size() <= 8 * g.word
    ensures Changed(g, stored, data, p) == |DifferingBits(stored, data, p * g.Size(), (p + 1) * g.Size())|
  {
    hide DifferingBits;
    PartInWord(g, p);
    DifferingIsSize(stored, data, p * g.Size(), (p + 1) * g.Size());
  }

  /**
    A partition is stored inverted after a write if and only if more than half of its bits differ between
    what was stored and the new data; and it is charged the bits that differ, or else those that do not.
   */
  lemma FlipsIffMoreThanHalf(g: Geometry, e: Encoder, key: nat, previous: seq<byte>, data: seq<byte>, p: nat)
    requires g.Valid() && |previous| == |data| == g.word && p < g.Parts()
    ensures p * g.Size() <= (p + 1) * g.Size() <= 8 * g.word
    ensures var stored := Toggle(g, e.flipped, key, previous);
      var n := |DifferingBits(stored, data, p * g.Size(), (p + 1) * g.Size())|;
      && (key + p in Encode(g, e, key, previous, data).flipped <==> 2 * n > g.Size())
      && Charge(g, stored, data, p) == if 2 * n > g.Size() then g.Size() - n else n
  {
    hide DifferingBits, Toggle, Encode, Changed, Charge, Flips, Geometry.Size, Geometry.Parts;
    var stored := Toggle(g, e.flipped, key, previous);
    ChangedIsSize(g, stored, data, p);
    FlagIsDecision(g, e, key, previous, data, p);
    DecisionIs(g, stored, data, p, Changed(g, stored, data, p));
  }

  lemma AllPartsIsWord(g: Geometry)
    requires g.Valid()
    ensures g.Parts() * g.Size() == 8 * g.word
  {
    PartsOfWord(g);
    assert g.Parts() * g.Size() == 8 * (g.Parts() * g.part);
  }

  lemma AddedBits(g: Geometry, e: Encoder, key: nat, previous: seq<byte>, data: seq<byte>)
    requires g.Valid() && |previous| == |data| == g.word
    ensures var stored := Toggle(g, e.flipped, key, previous);
      && Encode(g, e, key, previous, data).compared == e.compared + ChangedAll(g, stored, data, g.Parts())
      && Encode(g, e, key, previous, data).bitsFlipped == e.bitsFlipped + ChargeAll(g, stored, data, g.Parts())
  {}

  /** What a write adds to the statistics: the bits of the word that differ, and the charges of its partitions. */
  lemma StatisticsCountBits(g: Geometry, e: Encoder, key: nat, previous: seq<byte>, data: seq<byte>)
    requires g.Valid() && |previous| == |data| == g.word
    ensures var stored := Toggle(g, e.flipped, key, previous);
      && Encode(g, e, key, previous, data).compared == e.compared + |DifferingBits(stored, data, 0, 8 * g.word)|
      && Encode(g, e, key, previous, data).bitsFlipped == e.bitsFlipped + ChargeAll(g, stored, data, g.Parts())
  {
    hide DifferingBits, Toggle, Encode, ChangedAll, ChargeAll, Differing, Geometry.Size, Geometry.Parts;
    var stored := Toggle(g, e.flipped, key, previous);
    AddedBits(g, e, key, previous, data);
    AllPartsIsWord(g);
    ChangedAllIsDiffering(g, stored, data, g.Parts());
    DifferingIsSize(stored, data, 0, 8 * g.word);
  }

  // ---------------------------------------------------------------- runs

  datatype Address = Address(row: nat, col: nat)

  datatype Write = Write(at: Address, data: seq<byte>)

  /** The memory: what is stored for every word written so far, what was last written, and the encoder. */
  datatype Memory = Memory(stored: map<Address, seq<byte>>, logical: map<Address, seq<byte>>, e: Encoder)

  ghost predicate WriteOk(g: Geometry, w: Write) { w.at.col < g.cols && |w.data| == g.word }

  /** Decoding every stored word gives what was last written there. */
  ghost predicate Decodes(g: Geometry, m: Memory) {
    && 0 < g.part && m.stored.Keys == m.logical.Keys
    && forall a | a in m.logical :: DecodesAt(g, m, a)
  }

  ghost predicate DecodesAt(g: Geometry, m: Memory, a: Address)
    requires 0 < g.part && a in m.logical && a in m.stored
  {
    && a.col < g.cols && |m.logical[a]| == |m.stored[a]| == g.word
    && Toggle(g, m.e.flipped, g.Key(a.row, a.col), m.stored[a]) == m.logical[a]
  }

  /** The old data handed to the encoder: what was last written, or whatever the memory held. */
  ghost function OldData(m: Memory, a: Address, unknown: seq<byte>): seq<byte> {
    if a in m.logical then m.logical[a] else unknown
  }

  ghost function After(g: Geometry, m: Memory, w: Write, unknown: seq<byte>): Memory
    requires g.Valid() && Decodes(g, m) && WriteOk(g, w) && |unknown| == g.word
  {
    assert w.at in m.logical ==> DecodesAt(g, m, w.at);
    var key := g.Key(w.at.row, w.at.col);
    var e := Encode(g, m.e, key, OldData(m, w.at, unknown), w.data);
    Memory(m.stored[w.at := Toggle(g, e.flipped, key, w.data)], m.logical[w.at := w.data], e)
  }

  /** The encoder compares against what is really stored. */
  lemma ComparesWithStored(g: Geometry, m: Memory, a: Address)
    requires Decodes(g, m) && a in m.logical
    ensures Toggle(g, m.e.flipped, g.Key(a.row, a.col), m.logical[a]) == m.stored[a]
  {
    assert DecodesAt(g, m, a);
    ToggleTwice(g, m.e.flipped, g.Key(a.row, a.col), m.stored[a]);
  }

  lemma PartOfInRange(g: Geometry, i: nat)
    requires g.Valid() && i < g.word
    ensures PartOf(g, i) < g.Parts()
  {
    PartsOfWord(g);
    if PartOf(g, i) >= g.Parts() { MulMonotone(g.part, g.Parts(), PartOf(g, i)); }
  }

  /** A write to one word leaves the flags of every other word alone. */
  lemma OthersKeepFlags(g: Geometry, e: Encoder, e': Encoder, at: Address, a: Address, previous: seq<byte>,
                        data: seq<byte>, i: nat)
    requires g.Valid() && |previous| == |data| == g.word && at != a && at.col < g.cols && a.col < g.cols && i < g.word
    requires e' == Encode(g, e, g.Key(at.row, at.col), previous, data)
    ensures g.Key(a.row, a.col) + PartOf(g, i) in e'.flipped <==> g.Key(a.row, a.col) + PartOf(g, i) in e.flipped
  {
    PartOfInRange(g, i);
    var key, k := g.Key(at.row, at.col), g.Key(a.row, a.col) + PartOf(g, i);
    if key <= k < key + g.Parts() {
      KeysAreInjective(g, at.row, at.col, k - key, a.row, a.col, PartOf(g, i));
    }
  }

  lemma WriteKeepsDecodes(g: Geometry, m: Memory, w: Write, unknown: seq<byte>)
    requires g.Valid() && Decodes(g, m) && WriteOk(g, w) && |unknown| == g.word
    ensures Decodes(g, After(g, m, w, unknown))
  {
    var m' := After(g, m, w, unknown);
    var key := g.Key(w.at.row, w.at.col);
    forall a | a in m'.logical ensures DecodesAt(g, m', a) {
      if a == w.at {
        ToggleTwice(g, m'.e.flipped, key, w.data);
      } else {
        assert DecodesAt(g, m, a) && (w.at in m.logical ==> DecodesAt(g, m, w.at));
        var k := g.Key(a.row, a.col);
        forall i | 0 <= i < g.word
          ensures Toggle(g, m'.e.flipped, k, m.stored[a])[i] == Toggle(g, m.e.flipped, k, m.stored[a])[i] {
          OthersKeepFlags(g, m.e, m'.e, w.at, a, OldData(m, w.at, unknown), w.data, i);
        }
        assert Toggle(g, m'.e.flipped, k, m'.stored[a]) == Toggle(g, m.e.flipped, k, m.stored[a]);
      }
    }
  }

  ghost predicate RunOk(g: Geometry, writes: seq<Write>, unknown: seq<byte>) {
    g.Valid() && |unknown| == g.word && forall i | 0 <= i < |writes| :: WriteOk(g, writes[i])
  }

  ghost function Run(g: Geometry, m: Memory, writes: seq<Write>, unknown: seq<byte>): Memory
    requires Decodes(g, m) && RunOk(g, writes, unknown)
    decreases |writes|
  {
    if writes == [] then m
    else
      WriteKeepsDecodes(g, m, writes[0], unknown);
      Run(g, After(g, m, writes[0], unknown), writes[1..], unknown)
  }

  /**
    Over any run of writes the bits charged never exceed the bits that a plain compare-and-write would have changed,
    nor half of the bits written.
   */
  lemma {:induction false} RunIsCheap(g: Geometry, m: Memory, writes: seq<Write>, unknown: seq<byte>)
    requires Decodes(g, m) && RunOk(g, writes, unknown) && m.e.bitsFlipped <= m.e.compared
    ensures var m' := Run(g, m, writes, unknown);
      && m'.e.bitsFlipped <= m'.e.compared
      && m'.e.bitsFlipped <= m.e.bitsFlipped + |writes| * HalfBits(g)
    decreases |writes|
  {
    if writes != [] {
      WriteKeepsDecodes(g, m, writes[0], unknown);
      WriteIsCheap(g, m, writes[0], unknown);
      hide After, Decodes, HalfBits;
      RunIsCheap(g, After(g, m, writes[0], unknown), writes[1..], unknown);
      OneMore(|writes|, HalfBits(g));
    }
  }

  /** Half of the bits of every partition of a word. */
  function HalfBits(g: Geometry): nat
    requires 0 < g.part
  {
    g.Parts() * (g.Size() / 2)
  }

  lemma WriteIsCheap(g: Geometry, m: Memory, w: Write, unknown: seq<byte>)
    requires g.Valid() && Decodes(g, m) && WriteOk(g, w) && |unknown| == g.word && m.e.bitsFlipped <= m.e.compared
    ensures var m' := After(g, m, w, unknown);
      m'.e.bitsFlipped <= m'.e.compared && m'.e.bitsFlipped <= m.e.bitsFlipped + HalfBits(g)
  {
    assert w.at in m.logical ==> DecodesAt(g, m, w.at);
    ChargeBounds(g, Toggle(g, m.e.flipped, g.Key(w.at.row, w.at.col), OldData(m, w.at, unknown)), w.data, g.Parts());
  }

  lemma OneMore(n: nat, x: nat)
    requires 0 < n
    ensures n * x == (n - 1) * x + x
  {}

  lemma {:induction false} UnwrittenStays(g: Geometry, m: Memory, writes: seq<Write>, unknown: seq<byte>, a: Address)
    requires Decodes(g, m) && RunOk(g, writes, unknown)
    requires a in m.logical && forall j | 0 <= j < |writes| :: writes[j].at != a
    ensures a in Run(g, m, writes, unknown).logical && Run(g, m, writes, unknown).logical[a] == m.logical[a]
    decreases |writes|
  {
    if writes != [] {
      WriteKeepsDecodes(g, m, writes[0], unknown);
      UnwrittenStays(g, After(g, m, writes[0], unknown), writes[1..], unknown, a);
    }
  }

  /**
    Flip-N-Write decodes: after any run of writes, what is stored at an address, with the flagged
    partitions inverted, is the data of the last write to it.
   */
  lemma {:induction false} LastWriteIsRead(g: Geometry, m: Memory, writes: seq<Write>, unknown: seq<byte>, i: nat)
    requires Decodes(g, m) && RunOk(g, writes, unknown) && i < |writes|
    requires forall j | i < j < |writes| :: writes[j].at != writes[i].at
    ensures var m', a := Run(g, m, writes, unknown), writes[i].at;
      && a in m'.stored && a in m'.logical && m'.logical[a] == writes[i].data
      && Toggle(g, m'.e.flipped, g.Key(a.row, a.col), m'.stored[a]) == writes[i].data
    decreases |writes|
  {
    WriteKeepsDecodes(g, m, writes[0], unknown);
    var m1, rest := After(g, m, writes[0], unknown), writes[1..];
    if i == 0 {
      UnwrittenStays(g, m1, rest, unknown, writes[0].at);
      RunStaysDecoded(g, m1, rest, unknown);
      assert DecodesAt(g, Run(g, m1, rest, unknown), writes[0].at);
    } else {
      assert rest[i - 1] == writes[i] && forall j | i - 1 < j < |rest| :: rest[j] == writes[j + 1];
      LastWriteIsRead(g, m1, rest, unknown, i - 1);
    }
  }

  lemma {:induction false} RunStaysDecoded(g: Geometry, m: Memory, writes: seq<Write>, unknown: seq<byte>)
    requires Decodes(g, m) && RunOk(g, writes, unknown)
    ensures Decodes(g, Run(g, m, writes, unknown))
    decreases |writes|
  {
    if writes != [] {
      WriteKeepsDecodes(g, m, writes[0], unknown);
      RunStaysDecoded(g, After(g, m, writes[0], unknown), writes[1..], unknown);
    }
  }
}
