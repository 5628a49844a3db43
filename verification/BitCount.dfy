/** The bit counts behind cell programming: tricks on 32-bit words, against plain counting. */
module BitCount {

  type word = bv32

  // ---------------------------------------------------------------- plain counting

  predicate Odd(d: word) { d & 1 == 1 }

  function Half(d: word): word { d >> 1 }

  function LowPair(d: word): word { d & 3 }

  function Quarter(d: word): word { d >> 2 }

  function Xor(d: word, m: word): word { d ^ m }

  /** The one bits among the lowest `n`. */
  function Ones(d: word, n: nat): nat
    decreases n
  {
    if n == 0 then 0 else (if Odd(d) then 1 else 0) + Ones(Half(d), n - 1)
  }

  /** How many of the lowest `n` aligned bit pairs equal `value`. */
  function Pairs(value: word, d: word, n: nat): nat
    decreases n
  {
    if n == 0 then 0 else (if LowPair(d) == value then 1 else 0) + Pairs(value, Quarter(d), n - 1)
  }

  // ---------------------------------------------------------------- the tricks

  /** Pairs of bits replaced by their sums. */
  function InPairs(d: word): word { d - ((d >> 1) & 0x55555555) }

  function InNibbles(c: word): word { (c & 0x33333333) + ((c >> 2) & 0x33333333) }

  function InBytes(c: word): word { (c + (c >> 4)) & 0x0f0f0f0f }

  function Total(c: word): word { (c * 0x01010101) >> 24 }

  method Count32MLC1(data: word) returns (n: nat)
    ensures n == Ones(data, 32)
  {
    hide Ones, InPairs, InNibbles, InBytes, Total;
    var count := data;
    count := InPairs(count);
    count := InNibbles(count);
    count := Total(InBytes(count));
    TrickCountsOnes(data);
    n := count as nat;
  }

  /** The pattern that turns pairs equal to `value` into pairs of ones. */
  function Pattern(value: word): word
    requires value < 4
  {
    if value == 0 then 0xFFFFFFFF else if value == 1 then 0xAAAAAAAA else if value == 2 then 0x55555555 else 0
  }

  /** One bit for every pair of ones. */
  function BothSet(d: word): word { (d & 0x55555555) & ((d & 0xAAAAAAAA) >> 1) }

  method Count32MLC2(value: word, d: word) returns (n: nat)
    requires value < 4
    ensures n == Pairs(value, d, 16)
  {
    hide Ones, Pairs, BothSet, Pattern;
    var data := Invert(value, d);
    PatternTurnsToOnes(value, d);
    BothSetCountsPairs(data, 16);
    n := Count32MLC1(BothSet(data));
  }

  method Invert(value: word, d: word) returns (data: word)
    requires value < 4
    ensures data == Xor(d, Pattern(value))
  {
    hide Xor;
    XorNothing(d);
    data := d;
    if value == 0 { data := Xor(data, 0xFFFFFFFF); }
    else if value == 1 { data := Xor(data, 0xAAAAAAAA); }
    else if value == 2 { data := Xor(data, 0x55555555); }
  }

  lemma XorNothing(d: word)
    ensures Xor(d, 0) == d
  {}

  // ---------------------------------------------------------------- fields and their sums

  function SumPairs(c: word, n: nat): nat
    decreases n
  {
    if n == 0 then 0 else LowPair(c) as nat + SumPairs(Quarter(c), n - 1)
  }

  function SumNibbles(c: word, n: nat): nat
    decreases n
  {
    if n == 0 then 0 else (c & 15) as nat + SumNibbles(c >> 4, n - 1)
  }

  function SumBytes(c: word, n: nat): nat
    decreases n
  {
    if n == 0 then 0 else (c & 255) as nat + SumBytes(c >> 8, n - 1)
  }

  lemma AddSmall(x: word, y: word)
    requires x < 16 && y < 16
    ensures (x + y) as nat == x as nat + y as nat
  {}

  lemma NoBorrow(d: word)
    ensures InPairs(d) == (d & 0x55555555) + ((d >> 1) & 0x55555555)
  {}

  lemma PairSums(d: word)
    ensures var c, c' := (d & 0x55555555) + ((d >> 1) & 0x55555555),
                         ((d >> 2) & 0x55555555) + (((d >> 2) >> 1) & 0x55555555);
      c & 3 == (d & 1) + ((d >> 1) & 1) && c' == c >> 2
  {}

  lemma PairField(d: word)
    ensures InPairs(d) & 3 == (d & 1) + ((d >> 1) & 1) && InPairs(Quarter(d)) == Quarter(InPairs(d))
  {
    NoBorrow(d);
    NoBorrow(d >> 2);
    PairSums(d);
  }

  lemma PairIsTwoBits(d: word)
    ensures LowPair(InPairs(d)) as nat == (if Odd(d) then 1 else 0) + if Odd(Half(d)) then 1 else 0
  {
    PairField(d);
    var a, b := d & 1, (d >> 1) & 1;
    assert a <= 1 && b <= 1;
    AddSmall(a, b);
    BitAsNat(a);
    BitAsNat(b);
  }

  lemma HalfTwice(d: word)
    ensures Half(Half(d)) == Quarter(d)
  {}

  lemma BitAsNat(b: word)
    requires b <= 1
    ensures b as nat == if b == 1 then 1 else 0
  {}

  lemma {:induction false} PairsSumOnes(d: word, n: nat)
    ensures SumPairs(InPairs(d), n) == Ones(d, 2 * n)
    decreases n
  {
    hide InPairs, Odd, Half, LowPair, Quarter;
    if n != 0 {
      PairIsTwoBits(d);
      PairField(d);
      HalfTwice(d);
      assert Ones(Half(d), 2 * n - 1) == (if Odd(Half(d)) then 1 else 0) + Ones(Half(Half(d)), 2 * n - 2);
      PairsSumOnes(Quarter(d), n - 1);
    }
  }

  lemma NibbleField(c: word)
    ensures InNibbles(c) & 15 == (c & 3) + ((c >> 2) & 3) && InNibbles(c >> 4) == InNibbles(c) >> 4
    ensures InNibbles(c) & 0x88888888 == 0
  {}

  lemma {:induction false} NibblesSumPairs(c: word, n: nat)
    ensures SumNibbles(InNibbles(c), n) == SumPairs(c, 2 * n)
  {
    if n != 0 {
      NibbleField(c);
      assert c & 3 < 16 && (c >> 2) & 3 < 16;
      AddSmall(c & 3, (c >> 2) & 3);
      assert SumPairs(c, 2 * n) == (c & 3) as nat + SumPairs(c >> 2, 2 * n - 1);
      assert SumPairs(c >> 2, 2 * n - 1) == ((c >> 2) & 3) as nat + SumPairs((c >> 2) >> 2, 2 * n - 2);
      assert (c >> 2) >> 2 == c >> 4;
      NibblesSumPairs(c >> 4, n - 1);
    }
  }

  lemma ByteField(c: word)
    requires c & 0x88888888 == 0
    ensures InBytes(c) & 255 == (c & 15) + ((c >> 4) & 15) && InBytes(c >> 8) == InBytes(c) >> 8
    ensures InBytes(c) & 0xF0F0F0F0 == 0 && (c >> 8) & 0x88888888 == 0
  {}

  lemma {:induction false} BytesSumNibbles(c: word, n: nat)
    requires c & 0x88888888 == 0
    ensures SumBytes(InBytes(c), n) == SumNibbles(c, 2 * n)
  {
    if n != 0 {
      ByteField(c);
      assert c & 15 < 16 && (c >> 4) & 15 < 16;
      AddSmall(c & 15, (c >> 4) & 15);
      assert SumNibbles(c, 2 * n) == (c & 15) as nat + SumNibbles(c >> 4, 2 * n - 1);
      assert (c >> 4) >> 4 == c >> 8;
      BytesSumNibbles(c >> 8, n - 1);
    }
  }

  lemma AddWide(x: word, y: word)
    requires x < 32 && y < 32
    ensures (x + y) as nat == x as nat + y as nat
  {}

  lemma TotalAddsBytes(c: word)
    requires c & 0xF0F0F0F0 == 0
    ensures Total(c) == ((c & 255) + ((c >> 8) & 255)) + (((c >> 16) & 255) + ((c >> 24) & 255))
    ensures c & 255 < 16 && (c >> 8) & 255 < 16 && (c >> 16) & 255 < 16 && (c >> 24) & 255 < 16
  {}

  lemma SmallSum(x: word, y: word)
    requires x < 16 && y < 16
    ensures x + y < 32
  {}

  lemma TotalIsSum(c: word)
    requires c & 0xF0F0F0F0 == 0
    ensures Total(c) as nat == SumBytes(c, 4)
  {
    TotalAddsBytes(c);
    var b0, b1, b2, b3 := c & 255, (c >> 8) & 255, (c >> 16) & 255, (c >> 24) & 255;
    AddSmall(b0, b1);
    AddSmall(b2, b3);
    SmallSum(b0, b1);
    SmallSum(b2, b3);
    AddWide(b0 + b1, b2 + b3);
    assert (c >> 8) >> 8 == c >> 16 && (c >> 16) >> 8 == c >> 24;
    assert SumBytes(c >> 24, 1) == b3 as nat + SumBytes((c >> 24) >> 8, 0);
    assert SumBytes(c >> 16, 2) == b2 as nat + SumBytes((c >> 16) >> 8, 1);
    assert SumBytes(c >> 8, 3) == b1 as nat + SumBytes((c >> 8) >> 8, 2);
  }

  /** The bit manipulation counts the ones of every word. */
  lemma TrickCountsOnes(d: word)
    ensures Total(InBytes(InNibbles(InPairs(d)))) as nat == Ones(d, 32)
  {
    var c1 := InPairs(d);
    var c2 := InNibbles(c1);
    var c3 := InBytes(c2);
    NibbleField(c1);
    ByteField(c2);
    TotalIsSum(c3);
    BytesSumNibbles(c2, 4);
    NibblesSumPairs(c1, 8);
    PairsSumOnes(d, 16);
  }

  // ---------------------------------------------------------------- pairs

  lemma BothSetField(d: word)
    ensures (Odd(BothSet(d)) <==> LowPair(d) == 3) && !Odd(Half(BothSet(d)))
    ensures Quarter(BothSet(d)) == BothSet(Quarter(d))
  {}

  lemma {:induction false} BothSetCountsPairs(d: word, n: nat)
    ensures Ones(BothSet(d), 2 * n) == Pairs(3, d, n)
    decreases n
  {
    hide BothSet, Odd, Half, LowPair, Quarter;
    if n != 0 {
      BothSetField(d);
      HalfTwice(BothSet(d));
      assert Ones(Half(BothSet(d)), 2 * n - 1) == Ones(Half(Half(BothSet(d))), 2 * n - 2);
      BothSetCountsPairs(Quarter(d), n - 1);
    }
  }

  /** The lowest `n` pairs of `m` turn `value` into a pair of ones. */
  predicate Turns(value: word, m: word, n: nat) {
    n != 0 ==> LowPair(Xor(value, m)) == 3 && Turns(value, Quarter(m), n - 1)
  }

  lemma TurnField(value: word, d: word, m: word)
    requires value < 4 && LowPair(Xor(value, m)) == 3
    ensures LowPair(Xor(d, m)) == 3 <==> LowPair(d) == value
  {}

  lemma QuarterOfXor(d: word, m: word)
    ensures Quarter(Xor(d, m)) == Xor(Quarter(d), Quarter(m))
  {}

  lemma {:induction false} TurnedPairs(value: word, d: word, m: word, n: nat)
    requires value < 4 && Turns(value, m, n)
    ensures Pairs(3, Xor(d, m), n) == Pairs(value, d, n)
    decreases n
  {
    hide LowPair, Quarter, Xor;
    if n != 0 {
      TurnField(value, d, m);
      QuarterOfXor(d, m);
      TurnedPairs(value, Quarter(d), Quarter(m), n - 1);
    }
  }

  lemma PatternTurns(value: word)
    requires value < 4
    ensures Turns(value, Pattern(value), 16)
  {
    var m := Pattern(value);
    assert Turns(value, m >> 30, 1) && Turns(value, m >> 28, 2);
    assert Turns(value, m >> 26, 3) && Turns(value, m >> 24, 4);
    assert Turns(value, m >> 22, 5) && Turns(value, m >> 20, 6);
    assert Turns(value, m >> 18, 7) && Turns(value, m >> 16, 8);
    assert Turns(value, m >> 14, 9) && Turns(value, m >> 12, 10);
    assert Turns(value, m >> 10, 11) && Turns(value, m >> 8, 12);
    assert Turns(value, m >> 6, 13) && Turns(value, m >> 4, 14);
    assert Turns(value, m >> 2, 15) && Turns(value, m, 16);
  }

  /** Pairs equal to `value` become pairs of ones, and no others do. */
  lemma PatternTurnsToOnes(value: word, d: word)
    requires value < 4
    ensures Pairs(3, Xor(d, Pattern(value)), 16) == Pairs(value, d, 16)
  {
    PatternTurns(value);
    TurnedPairs(value, d, Pattern(value), 16);
  }

  // ---------------------------------------------------------------- whole data blocks

  function OnesIn(data: seq<word>): nat {
    if data == [] then 0 else OnesIn(data[..|data| - 1]) + Ones(data[|data| - 1], 32)
  }

  function PairsIn(value: word, data: seq<word>): nat
    requires value < 4
  {
    if data == [] then 0 else PairsIn(value, data[..|data| - 1]) + Pairs(value, data[|data| - 1], 16)
  }

  method CountBitsMLC1(value: word, data: array<word>, words: nat) returns (count: nat)
    requires words <= data.Length
    ensures count == if value == 1 then OnesIn(data[..words]) else words * 32 - OnesIn(data[..words])
  {
    count := 0;
    for i := 0 to words
      invariant count == OnesIn(data[..i])
    {
      var n := Count32MLC1(data[i]);
      assert data[..i + 1][..i] == data[..i];
      count := count + n;
    }
    OnesBound(data[..words]);
    count := if value == 1 then count else words * 32 - count;
  }

  method CountBitsMLC2(value: word, data: array<word>, words: nat) returns (count: nat)
    requires value < 4 && words <= data.Length
    ensures count == PairsIn(value, data[..words])
  {
    count := 0;
    for i := 0 to words
      invariant count == PairsIn(value, data[..i])
    {
      var n := Count32MLC2(value, data[i]);
      assert data[..i + 1][..i] == data[..i];
      count := count + n;
    }
  }

  lemma {:induction false} OnesAtMost(d: word, n: nat)
    ensures Ones(d, n) <= n
  {
    if n != 0 { OnesAtMost(d >> 1, n - 1); }
  }

  lemma {:induction false} OnesBound(data: seq<word>)
    ensures OnesIn(data) <= |data| * 32
  {
    if data != [] {
      OnesBound(data[..|data| - 1]);
      OnesAtMost(data[|data| - 1], 32);
    }
  }

  /** Every pair has exactly one of the four values. */
  lemma {:induction false} PairsPartition(d: word, n: nat)
    ensures Pairs(0, d, n) + Pairs(1, d, n) + Pairs(2, d, n) + Pairs(3, d, n) == n
  {
    if n != 0 {
      OneOfFour(LowPair(d));
      PairsPartition(Quarter(d), n - 1);
    }
  }

  lemma OneOfFour(x: word)
    requires x < 4
    ensures x == 0 || x == 1 || x == 2 || x == 3
  {}

  /** Over any data the four counts add up to 16 for each word. */
  lemma {:induction false} CountsPartition(data: seq<word>)
    ensures PairsIn(0, data) + PairsIn(1, data) + PairsIn(2, data) + PairsIn(3, data) == 16 * |data|
  {
    if data != [] {
      CountsPartition(data[..|data| - 1]);
      PairsPartition(data[|data| - 1], 16);
    }
  }

  /** The assertion on the four counts holds exactly when the memory word is a multiple of 32 bits, or one bit more. */
  lemma CellCountAssertionIff(data: seq<word>, memoryWordSize: nat)
    requires |data| == memoryWordSize / 32
    ensures PairsIn(0, data) + PairsIn(1, data) + PairsIn(2, data) + PairsIn(3, data) == memoryWordSize / 2
      <==> memoryWordSize % 32 < 2
  {
    CountsPartition(data);
  }
}
