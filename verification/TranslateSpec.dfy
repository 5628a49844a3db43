/** Taking physical addresses apart into fields, and putting them together again. */
module TranslateSpec {
  import opened Arithmetic
  import opened Commands
  import opened AddressSpec

  function Pow2(n: nat): (p: nat)
    ensures 1 <= p
  {
    if n == 0 then 1 else 2 * Pow2(n - 1)
  }

  lemma {:induction false} Pow2Adds(a: nat, b: nat)
    ensures Pow2(a + b) == Pow2(a) * Pow2(b)
    decreases a
  {
    if a != 0 {
      Pow2Adds(a - 1, b);
      assert Pow2(a + b) == 2 * Pow2(a - 1 + b);
      assert 2 * (Pow2(a - 1) * Pow2(b)) == (2 * Pow2(a - 1)) * Pow2(b);
    }
  }

  // ---------------------------------------------------------------- logarithm

  /** The position of the highest bit, 0 for numbers below 2. */
  function Log2(n: int): nat
    decreases if n < 0 then 0 else n
  {
    if n < 2 then 0 else 1 + Log2(n / 2)
  }

  /** Log2 is the exponent of the power of two at or below `n`. */
  lemma {:induction false} Log2Bounds(n: int)
    requires 1 <= n
    ensures Pow2(Log2(n)) <= n < Pow2(Log2(n) + 1)
    decreases n
  {
    if 2 <= n { Log2Bounds(n / 2); } else { assert Pow2(1) == 2 * Pow2(0); }
  }

  lemma {:induction false} Log2Monotone(a: int, b: int)
    requires a <= b
    ensures Log2(a) <= Log2(b)
    decreases if b < 0 then 0 else b
  {
    if 2 <= a { Log2Monotone(a / 2, b / 2); }
  }

  // ---------------------------------------------------------------- fields in order

  /** The field of order `i`: the first one that has it. */
  function FieldAt(o: seq<int>, i: int): Option<nat>
    requires |o| == FIELDS
  {
    if o[ROW] == i then Some(ROW)
    else if o[COL] == i then Some(COL)
    else if o[BANK] == i then Some(BANK)
    else if o[RANK] == i then Some(RANK)
    else if o[CHANNEL] == i then Some(CHANNEL)
    else if o[SUBARRAY] == i then Some(SUBARRAY)
    else None
  }

  lemma FieldAtFinds(o: seq<int>, i: nat, p: nat)
    requires IsPermutation(o) && p < FIELDS && o[p] == i
    ensures FieldAt(o, i) == Some(p)
  {
    forall q | 0 <= q < FIELDS && q != p ensures o[q] != i {
      if q < p { assert o[q] != o[p]; } else { assert o[p] != o[q]; }
    }
  }

  /** Under a permutation every order belongs to exactly one field. */
  lemma FieldAtIsInverse(o: seq<int>, i: nat)
    requires IsPermutation(o) && i < FIELDS
    ensures FieldAt(o, i).Some? && FieldAt(o, i).value < FIELDS && o[FieldAt(o, i).value] == i
    ensures forall p | 0 <= p < FIELDS && o[p] == i :: FieldAt(o, i) == Some(p)
  {
    hide FieldAt;
    PermutationHitsAll(o, i);
    var p :| 0 <= p < FIELDS && o[p] == i;
    FieldAtFinds(o, i, p);
    forall q | 0 <= q < FIELDS && o[q] == i ensures FieldAt(o, i) == Some(q) { FieldAtFinds(o, i, q); }
  }

  /** The field of order `i`. */
  function At(o: seq<int>, i: nat): (p: nat)
    requires IsPermutation(o) && i < FIELDS
    ensures p < FIELDS && o[p] == i
  {
    FieldAtIsInverse(o, i);
    FieldAt(o, i).value
  }

  lemma AtIs(o: seq<int>, p: nat)
    requires IsPermutation(o) && p < FIELDS
    ensures 0 <= o[p] < FIELDS && At(o, o[p]) == p
  {
    hide FieldAt;
    FieldAtIsInverse(o, o[p]);
  }

  /** The mapping: orders and widths of the fields, and the low bits that address the burst. */
  datatype Mapping = Mapping(o: seq<int>, w: seq<nat>, low: nat)

  ghost predicate MappingOk(m: Mapping) { IsPermutation(m.o) && |m.w| == FIELDS }

  function Size(m: Mapping, i: nat): nat
    requires MappingOk(m) && i < FIELDS
  {
    Pow2(m.w[At(m.o, i)])
  }

  /** The fields of order `i` and above, put together. */
  function Compose(m: Mapping, f: seq<nat>, i: nat): nat
    requires MappingOk(m) && |f| == FIELDS && i <= FIELDS
    decreases FIELDS - i
  {
    if i == FIELDS then 0 else Compose(m, f, i + 1) * Size(m, i) + f[At(m.o, i)]
  }

  lemma ComposeNext(m: Mapping, f: seq<nat>, i: nat)
    requires MappingOk(m) && |f| == FIELDS && i < FIELDS
    ensures Compose(m, f, i) == Compose(m, f, i + 1) * Size(m, i) + f[At(m.o, i)]
    ensures Compose(m, f, FIELDS) == 0
  {}

  function ReverseTranslate(m: Mapping, f: seq<nat>): nat
    requires MappingOk(m) && |f| == FIELDS
  {
    Compose(m, f, 0) * Pow2(m.low)
  }

  /** What is left of an address once the fields below order `i` have been taken off. */
  function Rest(m: Mapping, address: nat, i: nat): nat
    requires MappingOk(m) && i <= FIELDS
  {
    if i == 0 then address / Pow2(m.low) else Rest(m, address, i - 1) / Size(m, i - 1)
  }

  function Translate(m: Mapping, address: nat): (f: seq<nat>)
    requires MappingOk(m)
    ensures |f| == FIELDS
  {
    seq(FIELDS, p requires 0 <= p < FIELDS => Rest(m, address, m.o[p]) % Size(m, m.o[p]))
  }

  /** All field bits together. */
  function Capacity(m: Mapping, i: nat): (c: nat)
    requires MappingOk(m) && i <= FIELDS
    ensures 1 <= c
    decreases FIELDS - i
  {
    if i == FIELDS then 1 else MulPositive(Size(m, i), Capacity(m, i + 1)); Size(m, i) * Capacity(m, i + 1)
  }

  ghost predicate FieldsInRange(m: Mapping, f: seq<nat>)
    requires MappingOk(m)
  {
    |f| == FIELDS && forall p | 0 <= p < FIELDS :: f[p] < Pow2(m.w[p])
  }

  // ---------------------------------------------------------------- results

  lemma FieldFits(m: Mapping, f: seq<nat>, i: nat)
    requires MappingOk(m) && FieldsInRange(m, f) && i < FIELDS
    ensures f[At(m.o, i)] < Size(m, i)
  {}

  lemma RestNext(m: Mapping, address: nat, i: nat)
    requires MappingOk(m) && i < FIELDS
    ensures Rest(m, address, i + 1) == Quotient(Rest(m, address, i), Size(m, i))
  {}

  lemma ComposedQuotient(m: Mapping, f: seq<nat>, i: nat)
    requires MappingOk(m) && FieldsInRange(m, f) && i < FIELDS
    ensures Quotient(Compose(m, f, i), Size(m, i)) == Compose(m, f, i + 1)
  {
    hide Size, At, IsPermutation;
    FieldFits(m, f, i);
    DivModOfRadix(Size(m, i), Compose(m, f, i + 1), f[At(m.o, i)]);
  }

  lemma RestAtFirst(m: Mapping, f: seq<nat>)
    requires MappingOk(m) && |f| == FIELDS
    ensures Rest(m, ReverseTranslate(m, f), 0) == Compose(m, f, 0)
  {
    DivModOfRadix(Pow2(m.low), Compose(m, f, 0), 0);
  }

  lemma {:induction false} RestOfComposed(m: Mapping, f: seq<nat>, i: nat)
    requires MappingOk(m) && FieldsInRange(m, f) && i <= FIELDS
    ensures Rest(m, ReverseTranslate(m, f), i) == Compose(m, f, i)
  {
    hide Rest, ReverseTranslate, Compose, Quotient;
    if i == 0 {
      RestAtFirst(m, f);
    } else {
      RestOfComposed(m, f, i - 1);
      RestNext(m, ReverseTranslate(m, f), i - 1);
      ComposedQuotient(m, f, i - 1);
    }
  }

  lemma FieldComesBack(m: Mapping, f: seq<nat>, p: nat)
    requires MappingOk(m) && FieldsInRange(m, f) && p < FIELDS
    ensures 0 <= m.o[p] < FIELDS && Rest(m, ReverseTranslate(m, f), m.o[p]) % Size(m, m.o[p]) == f[p]
  {
    AtIs(m.o, p);
    hide At, IsPermutation, Pow2, Rest, ReverseTranslate;
    var i := m.o[p];
    RestOfComposed(m, f, i);
    FieldFits(m, f, i);
    DivModOfRadix(Size(m, i), Compose(m, f, i + 1), f[p]);
  }

  /** Translating an address that was put together from fields gives the fields back. */
  lemma TranslateAfterReverse(m: Mapping, f: seq<nat>)
    requires MappingOk(m) && FieldsInRange(m, f)
    ensures Translate(m, ReverseTranslate(m, f)) == f
  {
    forall p | 0 <= p < FIELDS ensures Translate(m, ReverseTranslate(m, f))[p] == f[p] { FieldComesBack(m, f, p); }
  }

  lemma FieldOfTranslated(m: Mapping, address: nat, i: nat)
    requires MappingOk(m) && i < FIELDS
    ensures Translate(m, address)[At(m.o, i)] == Rest(m, address, i) % Size(m, i)
  {}

  lemma {:induction false} ComposeOfTranslated(m: Mapping, address: nat, i: nat)
    requires MappingOk(m) && i <= FIELDS
    ensures Compose(m, Translate(m, address), i) == Rest(m, address, i) % Capacity(m, i)
    decreases FIELDS - i
  {
    if i != FIELDS {
      ComposeOfTranslated(m, address, i + 1);
      FieldOfTranslated(m, address, i);
      ModOfProduct(Rest(m, address, i), Size(m, i), Capacity(m, i + 1));
    }
  }

  lemma ModOfProduct(x: nat, a: nat, b: nat)
    requires 1 <= a && 1 <= b
    ensures 1 <= a * b && x % (a * b) == x / a % b * a + x % a && x / (a * b) == x / a / b
  {
    MulPositive(a, b);
    var q := x / a;
    DivModParts(x, a);
    DivModParts(q, b);
    var r := q % b * a + x % a;
    MulMonotone(a, q % b + 1, b);
    assert x == q / b * (a * b) + r by {
      assert (q / b * b + q % b) * a == q / b * (a * b) + q % b * a;
    }
    DivModOfRadix(a * b, q / b, r);
  }

  /**
    Putting a translated address together again clears the low burst bits and the bits above the
    fields; so it gives the address with its burst bits cleared exactly when the address fits.
   */
  lemma ReverseAfterTranslateIff(m: Mapping, address: nat)
    requires MappingOk(m)
    ensures ReverseTranslate(m, Translate(m, address)) == address / Pow2(m.low) % Capacity(m, 0) * Pow2(m.low)
    ensures ReverseTranslate(m, Translate(m, address)) == address - address % Pow2(m.low)
      <==> address < Capacity(m, 0) * Pow2(m.low)
  {
    ComposeOfTranslated(m, address, 0);
    ClearedIff(address, Pow2(m.low), Capacity(m, 0));
  }

  lemma ClearedIff(address: nat, unit: nat, c: nat)
    requires 1 <= unit && 1 <= c
    ensures address / unit % c * unit == address - address % unit <==> address < c * unit
  {
    var q := address / unit;
    DivModParts(address, unit);
    if q < c {
      MulMonotone(unit, q + 1, c);
      SmallRemainder(q, c);
    } else {
      MulMonotone(unit, c, q);
      MulMonotone(unit, q % c + 1, c);
    }
  }

  /** The capacity is two to the number of field bits. */
  lemma CapacityIsPower(m: Mapping)
    requires MappingOk(m)
    ensures Capacity(m, 0) == Pow2(m.w[0] + m.w[1] + m.w[2] + m.w[3] + m.w[4] + m.w[5])
  {
    CapacityBits(m, 0);
    BitsSum(m);
  }

  function Bits(m: Mapping, i: nat): nat
    requires MappingOk(m) && i <= FIELDS
    decreases FIELDS - i
  {
    if i == FIELDS then 0 else m.w[At(m.o, i)] + Bits(m, i + 1)
  }

  lemma {:induction false} CapacityBits(m: Mapping, i: nat)
    requires MappingOk(m) && i <= FIELDS
    ensures Capacity(m, i) == Pow2(Bits(m, i))
    decreases FIELDS - i
  {
    if i != FIELDS {
      CapacityBits(m, i + 1);
      Pow2Adds(m.w[At(m.o, i)], Bits(m, i + 1));
    }
  }

  function Term(o: seq<int>, w: seq<nat>, i: nat, p: nat): nat
    requires |o| == |w| == FIELDS && p < FIELDS
  {
    if o[p] >= i then w[p] else 0
  }

  /** The widths of the fields of order `i` and above. */
  function WidthsFrom(o: seq<int>, w: seq<nat>, i: nat): nat
    requires |o| == |w| == FIELDS
  {
    Term(o, w, i, 0) + Term(o, w, i, 1) + Term(o, w, i, 2) + Term(o, w, i, 3) + Term(o, w, i, 4) + Term(o, w, i, 5)
  }

  lemma OneWidth(o: seq<int>, w: seq<nat>, i: nat, p: nat)
    requires IsPermutation(o) && |w| == FIELDS && p < FIELDS && o[p] == i
    ensures WidthsFrom(o, w, i) == WidthsFrom(o, w, i + 1) + w[p]
  {
    forall q: nat | q < FIELDS && q != p ensures Term(o, w, i, q) == Term(o, w, i + 1, q) {
      if q < p { assert o[q] != o[p]; } else { assert o[p] != o[q]; }
    }
    assert Term(o, w, i, p) == Term(o, w, i + 1, p) + w[p];
  }

  lemma NoHigherOrder(m: Mapping)
    requires MappingOk(m)
    ensures WidthsFrom(m.o, m.w, FIELDS) == 0
  {
    forall p: nat | p < FIELDS ensures Term(m.o, m.w, FIELDS, p) == 0 {}
  }

  lemma {:induction false} BitsAreWidths(m: Mapping, i: nat)
    requires MappingOk(m) && i <= FIELDS
    ensures Bits(m, i) == WidthsFrom(m.o, m.w, i)
    decreases FIELDS - i
  {
    hide WidthsFrom;
    if i == FIELDS {
      NoHigherOrder(m);
    } else {
      BitsAreWidths(m, i + 1);
      OneWidth(m.o, m.w, i, At(m.o, i));
    }
  }

  lemma BitsSum(m: Mapping)
    requires MappingOk(m)
    ensures Bits(m, 0) == m.w[0] + m.w[1] + m.w[2] + m.w[3] + m.w[4] + m.w[5]
  {
    BitsAreWidths(m, 0);
  }

  // ---------------------------------------------------------------- where a field is

  /** The widths of the fields of lower order than `i`. */
  function WidthsBelow(m: Mapping, i: int): nat
    requires MappingOk(m)
  {
    var o, w := m.o, m.w;
    (if o[0] < i then w[0] else 0) + (if o[1] < i then w[1] else 0) + (if o[2] < i then w[2] else 0)
    + (if o[3] < i then w[3] else 0) + (if o[4] < i then w[4] else 0) + (if o[5] < i then w[5] else 0)
  }

  /** The lowest bit of field `p`: it lies above the burst bits and all fields of lower order. */
  function LowestBit(m: Mapping, p: nat): nat
    requires MappingOk(m) && p < FIELDS
  {
    m.low + WidthsBelow(m, m.o[p])
  }

  lemma WidthsNext(m: Mapping, i: nat)
    requires MappingOk(m) && i < FIELDS
    ensures WidthsBelow(m, i + 1) == WidthsBelow(m, i) + m.w[At(m.o, i)]
    ensures LowestBit(m, At(m.o, i)) == m.low + WidthsBelow(m, i)
  {
    OneWidth(m.o, m.w, i, At(m.o, i));
    hide At, IsPermutation, WidthsBelow, WidthsFrom;
    WidthsAreAll(m, i);
    WidthsAreAll(m, i + 1);
  }

  lemma NoLowerOrder(m: Mapping)
    requires MappingOk(m)
    ensures WidthsBelow(m, 0) == 0
  {}

  lemma WidthsAreAll(m: Mapping, i: nat)
    requires MappingOk(m)
    ensures WidthsBelow(m, i) + WidthsFrom(m.o, m.w, i) == m.w[0] + m.w[1] + m.w[2] + m.w[3] + m.w[4] + m.w[5]
  {}

  lemma {:induction false} RestIsShifted(m: Mapping, address: nat, i: nat)
    requires MappingOk(m) && i <= FIELDS
    ensures Rest(m, address, i) == Quotient(address, Pow2(m.low + WidthsBelow(m, i)))
  {
    hide *;
    if i == 0 {
      NoLowerOrder(m);
      RestFirst(m, address);
    } else {
      RestIsShifted(m, address, i - 1);
      RestStep(m, address, i - 1, m.low + WidthsBelow(m, i - 1));
      WidthsNext(m, i - 1);
    }
  }

  lemma RestFirst(m: Mapping, address: nat)
    requires MappingOk(m)
    ensures Rest(m, address, 0) == Quotient(address, Pow2(m.low))
  {}

  lemma RestStep(m: Mapping, address: nat, i: nat, b: nat)
    requires MappingOk(m) && i < FIELDS && Rest(m, address, i) == Quotient(address, Pow2(b))
    ensures Rest(m, address, i + 1) == Quotient(address, Pow2(b + m.w[At(m.o, i)]))
  {
    hide At, IsPermutation, Pow2, Rest, Quotient;
    RestNext(m, address, i);
    ShiftOn(address, b, m.w[At(m.o, i)]);
  }

  lemma ShiftOn(x: nat, a: nat, b: nat)
    ensures Quotient(Quotient(x, Pow2(a)), Pow2(b)) == Quotient(x, Pow2(a + b))
  {
    Pow2Adds(a, b);
    ModOfProduct(x, Pow2(a), Pow2(b));
  }

  /** The `width` bits of an address from bit `low` up. */
  function BitsAt(address: nat, low: nat, width: nat): nat { address / Pow2(low) % Pow2(width) }

  /** Translation takes a field from its place in the address. */
  lemma FieldIsTakenFrom(m: Mapping, address: nat, p: nat)
    requires MappingOk(m) && p < FIELDS
    ensures Translate(m, address)[p] == BitsAt(address, LowestBit(m, p), m.w[p])
  {
    hide At, WidthsBelow, Pow2, Rest, BitsAt, Quotient, LowestBit, Translate, Size;
    AtIs(m.o, p);
    TranslatedIs(m, address, p, m.o[p]);
    RestIsShifted(m, address, m.o[p]);
    BitsAtIs(address, LowestBit(m, p), m.w[p], Rest(m, address, m.o[p]));
  }

  lemma BitsAtIs(address: nat, low: nat, width: nat, rest: nat)
    requires rest == Quotient(address, Pow2(low))
    ensures rest % Pow2(width) == BitsAt(address, low, width)
  {}

  lemma TranslatedIs(m: Mapping, address: nat, p: nat, i: nat)
    requires MappingOk(m) && p < FIELDS && i < FIELDS && m.o[p] == i && At(m.o, i) == p
    ensures Translate(m, address)[p] == Rest(m, address, i) % Pow2(m.w[p])
    ensures LowestBit(m, p) == m.low + WidthsBelow(m, i)
  {
    hide At, WidthsBelow, Pow2, Rest;
  }

  /** What field `p` adds to the address, if its order is at least `i`. */
  function Part(m: Mapping, f: seq<nat>, i: nat, p: nat): nat
    requires MappingOk(m) && |f| == FIELDS && p < FIELDS
  {
    if m.o[p] >= i then f[p] * Pow2(LowestBit(m, p)) else 0
  }

  function Parts(m: Mapping, f: seq<nat>, i: nat): nat
    requires MappingOk(m) && |f| == FIELDS
  {
    Part(m, f, i, 0) + Part(m, f, i, 1) + Part(m, f, i, 2) + Part(m, f, i, 3) + Part(m, f, i, 4) + Part(m, f, i, 5)
  }

  lemma OnePart(m: Mapping, f: seq<nat>, i: nat, p: nat)
    requires MappingOk(m) && |f| == FIELDS && p < FIELDS && m.o[p] == i
    ensures Parts(m, f, i) == Parts(m, f, i + 1) + f[p] * Pow2(LowestBit(m, p))
  {
    hide LowestBit, Pow2;
    forall q: nat | q < FIELDS && q != p ensures Part(m, f, i, q) == Part(m, f, i + 1, q) {
      if q < p { assert m.o[q] != m.o[p]; } else { assert m.o[p] != m.o[q]; }
    }
    assert Part(m, f, i, p) == Part(m, f, i + 1, p) + f[p] * Pow2(LowestBit(m, p));
  }

  lemma NoPart(m: Mapping, f: seq<nat>)
    requires MappingOk(m) && |f| == FIELDS
    ensures Compose(m, f, FIELDS) == Parts(m, f, FIELDS) == 0
  {
    forall p: nat | p < FIELDS ensures Part(m, f, FIELDS, p) == 0 {}
  }

  lemma {:induction false} ComposedIsParts(m: Mapping, f: seq<nat>, i: nat)
    requires MappingOk(m) && |f| == FIELDS && i <= FIELDS
    ensures Compose(m, f, i) * Pow2(m.low + WidthsBelow(m, i)) == Parts(m, f, i)
    decreases FIELDS - i
  {
    hide *;
    if i == FIELDS {
      NoPart(m, f);
    } else {
      ComposedIsParts(m, f, i + 1);
      ComposedNext(m, f, i);
    }
  }

  lemma ComposedNext(m: Mapping, f: seq<nat>, i: nat)
    requires MappingOk(m) && |f| == FIELDS && i < FIELDS
    requires Compose(m, f, i + 1) * Pow2(m.low + WidthsBelow(m, i + 1)) == Parts(m, f, i + 1)
    ensures Compose(m, f, i) * Pow2(m.low + WidthsBelow(m, i)) == Parts(m, f, i)
  {
    hide WidthsBelow, Pow2, Parts, LowestBit, Compose;
    var p: nat, b: nat := At(m.o, i), m.low + WidthsBelow(m, i);
    OnePart(m, f, i, p);
    WidthsNext(m, i);
    ComposeNext(m, f, i);
    MoveUp(Compose(m, f, i + 1), m.w[p], f[p], b);
  }

  lemma MoveUp(a: nat, w: nat, c: nat, b: nat)
    ensures (a * Pow2(w) + c) * Pow2(b) == a * Pow2(b + w) + c * Pow2(b)
  {
    Pow2Adds(b, w);
    Distribute(a, Pow2(w), c, Pow2(b));
  }

  lemma Distribute(a: nat, b: nat, c: nat, d: nat)
    ensures (a * b + c) * d == a * (d * b) + c * d
  {}

  /** Reverse translation puts every field at its place in the address, and nothing else. */
  lemma FieldsArePutAt(m: Mapping, f: seq<nat>)
    requires MappingOk(m) && |f| == FIELDS
    ensures ReverseTranslate(m, f) ==
      f[0] * Pow2(LowestBit(m, 0)) + f[1] * Pow2(LowestBit(m, 1)) + f[2] * Pow2(LowestBit(m, 2))
      + f[3] * Pow2(LowestBit(m, 3)) + f[4] * Pow2(LowestBit(m, 4)) + f[5] * Pow2(LowestBit(m, 5))
  {
    ComposedIsParts(m, f, 0);
    NoLowerOrder(m);
    forall p: nat | p < FIELDS ensures Part(m, f, 0, p) == f[p] * Pow2(LowestBit(m, p)) {}
  }
}
