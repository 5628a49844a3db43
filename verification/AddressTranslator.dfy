/** Address mapping tables and the translator, with the source's loops over the six orders. */
module AddressTranslation {
  import opened Arithmetic
  import opened Commands
  import opened AddressSpec
  import Spec = TranslateSpec

  method MLog2(num: int) returns (retVal: int)
    ensures retVal == Spec.Log2(num)
  {
    retVal := -1;
    var newNum := num;
    if num < 2 { return 0; }
    while newNum != 0
      invariant 0 <= newNum
      invariant if newNum == 0 then retVal == Spec.Log2(num) else retVal + 1 + Spec.Log2(newNum) == Spec.Log2(num)
      decreases newNum
    {
      retVal := retVal + 1;
      newNum := newNum / 2;
    }
  }

  class TranslationMethod {
    const bitWidths: array<nat>
    const order: array<int>

    constructor ()
      ensures Valid() && fresh(bitWidths) && fresh(order)
    {
      bitWidths := new nat[FIELDS](_ => 0);
      order := new int[FIELDS](_ => 0);
    }

    ghost predicate Valid() { bitWidths.Length == order.Length == FIELDS }

    method SetBitWidths(rowBits: nat, colBits: nat, bankBits: nat, rankBits: nat, channelBits: nat, subarrayBits: nat)
      requires Valid()
      modifies bitWidths
      ensures bitWidths[..] == [rowBits, colBits, bankBits, rankBits, channelBits, subarrayBits]
    {
      bitWidths[ROW], bitWidths[COL], bitWidths[BANK] := rowBits, colBits, bankBits;
      bitWidths[RANK], bitWidths[CHANNEL], bitWidths[SUBARRAY] := rankBits, channelBits, subarrayBits;
    }

    method SetOrder(row: int, col: int, bank: int, rank: int, channel: int, subarray: int)
      requires Valid()
      modifies order
      ensures order[..] == [row - 1, col - 1, bank - 1, rank - 1, channel - 1, subarray - 1]
    {
      order[ROW], order[COL], order[BANK] := row - 1, col - 1, bank - 1;
      order[RANK], order[CHANNEL], order[SUBARRAY] := rank - 1, channel - 1, subarray - 1;
    }

    /** Counts the orders down from 6 along the tokens. */
    static method ParseTokens(tokens: seq<string>)
      returns (row: int, col: int, bank: int, rank: int, channel: int, subarray: int, currentOrder: int)
      ensures currentOrder == 6 - |tokens| && [row, col, bank, rank, channel, subarray] == Named(tokens)
    {
      row, col, bank, rank, channel, subarray := 0, 0, 0, 0, 0, 0;
      currentOrder := 6;
      for i := 0 to |tokens|
        invariant currentOrder == 6 - i
        invariant [row, col, bank, rank, channel, subarray] == Named(tokens[..i])
      {
        assert tokens[..i + 1][..i] == tokens[..i];
        var token := tokens[i];
        if token == "R" { row := currentOrder; }
        else if token == "C" { col := currentOrder; }
        else if token == "BK" { bank := currentOrder; }
        else if token == "RK" { rank := currentOrder; }
        else if token == "CH" { channel := currentOrder; }
        else if token == "SA" { subarray := currentOrder; }
        currentOrder := currentOrder - 1;
      }
      assert tokens[..|tokens|] == tokens;
    }

    /** Sets the orders from the tokens of a scheme, highest field first. */
    method SetAddressMappingScheme(tokens: seq<string>)
      requires Valid()
      modifies order
      ensures order[..] == Orders(tokens)
    {
      hide Named, FillOne;
      var row, col, bank, rank, channel, subarray, currentOrder := ParseTokens(tokens);
      ghost var f := Filling(currentOrder, [row, col, bank, rank, channel, subarray]);
      subarray, currentOrder := Unset(f, SUBARRAY, subarray, currentOrder);
      ghost var f1 := FillOne(f, SUBARRAY);
      channel, currentOrder := Unset(f1, CHANNEL, channel, currentOrder);
      ghost var f2 := FillOne(f1, CHANNEL);
      rank, currentOrder := Unset(f2, RANK, rank, currentOrder);
      ghost var f3 := FillOne(f2, RANK);
      bank, currentOrder := Unset(f3, BANK, bank, currentOrder);
      ghost var f4 := FillOne(f3, BANK);
      row, currentOrder := Unset(f4, ROW, row, currentOrder);
      ghost var f5 := FillOne(f4, ROW);
      col, currentOrder := Unset(f5, COL, col, currentOrder);
      assert FillOne(f5, COL).v == [row, col, bank, rank, channel, subarray];
      SetOrder(row, col, bank, rank, channel, subarray);
    }

    /** A field that no token named gets the next order. */
    static method Unset(ghost f: Filling, ghost p: nat, field: int, currentOrder: int)
      returns (field': int, currentOrder': int)
      requires p < FIELDS == |f.v| && f.v[p] == field && f.current == currentOrder
      ensures FillOne(f, p) == Filling(currentOrder', f.v[p := field'])
    {
      field', currentOrder' := field, currentOrder;
      if field == 0 { field', currentOrder' := currentOrder, currentOrder - 1; }
    }
  }

  class AddressTranslator {
    const translation: TranslationMethod
    const busWidth: int
    const burstLength: int
    var lowColBits: nat

    constructor (translation: TranslationMethod, busWidth: int, burstLength: int)
      ensures this.translation == translation && this.busWidth == busWidth && this.burstLength == burstLength
    {
      this.translation, this.busWidth, this.burstLength, lowColBits := translation, busWidth, burstLength, 0;
    }

    /** The bus offset and burst bits. */
    ghost function LowBits(): nat { Spec.Log2(busWidth * burstLength / 8) }

    ghost function Mapping(): Spec.Mapping
      reads translation.order, translation.bitWidths
    {
      Spec.Mapping(translation.order[..], translation.bitWidths[..], LowBits())
    }

    ghost predicate Valid()
      reads translation.order, translation.bitWidths
    {
      translation.Valid() && Spec.MappingOk(Mapping()) && 0 <= busWidth && 1 <= burstLength
    }

    /** The field of the given order. */
    method FindOrder(order: int) returns (p: Option<nat>)
      requires translation.Valid()
      ensures p == Spec.FieldAt(translation.order[..], order)
    {
      var o := translation.order;
      if o[ROW] == order { p := Some(ROW); }
      else if o[COL] == order { p := Some(COL); }
      else if o[BANK] == order { p := Some(BANK); }
      else if o[RANK] == order { p := Some(RANK); }
      else if o[CHANNEL] == order { p := Some(CHANNEL); }
      else if o[SUBARRAY] == order { p := Some(SUBARRAY); }
      else { p := None; }
    }

    /** Splits the low bits into bus offset and low column bits. */
    method SetLowBits() returns (busOffsetBits: nat)
      requires 0 <= busWidth && 1 <= burstLength
      modifies this`lowColBits
      ensures busOffsetBits + lowColBits == LowBits()
    {
      OffsetBelowBurst(busWidth, burstLength);
      busOffsetBits := MLog2(busWidth / 8);
      var burstBits := MLog2(busWidth * burstLength / 8);
      lowColBits := burstBits - busOffsetBits;
    }

    method Translate(address: nat) returns (partitions: array<nat>)
      requires Valid()
      modifies this`lowColBits
      ensures fresh(partitions) && partitions[..] == Spec.Translate(Mapping(), address)
    {
      hide Spec.FieldAt, Spec.Rest, Spec.Translate, Extracted;
      ghost var m := Mapping();
      partitions := new nat[FIELDS](_ => 0);
      var busOffsetBits := SetLowBits();
      var refAddress := ShiftRight(ShiftRight(address, busOffsetBits), lowColBits);
      ShiftTwice(address, busOffsetBits, lowColBits);
      ExtractedStart(m, address, partitions[..]);
      for i := 0 to FIELDS
        invariant Valid() && Mapping() == m
        invariant refAddress == Spec.Rest(m, address, i)
        invariant Extracted(m, address, partitions[..], i)
      {
        var part := FindOrder(i);
        Spec.FieldAtIsInverse(m.o, i);
        assert part.value == Spec.At(m.o, i);
        ghost var before := partitions[..];
        partitions[part.value] := refAddress % Spec.Pow2(translation.bitWidths[part.value]);
        ExtractedNext(m, address, before, i);
        Spec.RestNext(m, address, i);
        refAddress := ShiftRight(refAddress, translation.bitWidths[part.value]);
      }
      ExtractedAll(m, address, partitions[..]);
    }

    method ReverseTranslate(fields: seq<nat>) returns (phyAddr: nat)
      requires Valid() && |fields| == FIELDS
      modifies this`lowColBits
      ensures phyAddr == Spec.ReverseTranslate(Mapping(), fields)
    {
      ghost var m := Mapping();
      var busOffsetBits := SetLowBits();
      var unitAddr: nat := ShiftLeft(ShiftLeft(1, busOffsetBits), lowColBits);
      phyAddr := 0;
      hide Spec.FieldAt, Spec.ReverseTranslate, ShiftLeft, From;
      FromAll(m, fields, busOffsetBits, lowColBits);
      for i := 0 to FIELDS
        invariant Valid() && Mapping() == m
        invariant phyAddr + From(m, fields, i, unitAddr) == Spec.ReverseTranslate(m, fields)
      {
        var part := FindOrder(i);
        Spec.FieldAtIsInverse(m.o, i);
        FromNext(m, fields, i, unitAddr);
        phyAddr := phyAddr + fields[part.value] * unitAddr;
        unitAddr := ShiftLeft(unitAddr, translation.bitWidths[part.value]);
      }
      FromNone(m, fields, unitAddr);
    }
  }

  /** The fields of order below `i` have been taken out of the address. */
  ghost predicate Extracted(m: Spec.Mapping, address: nat, f: seq<nat>, i: nat)
    requires Spec.MappingOk(m)
  {
    && |f| == FIELDS
    && forall p | 0 <= p < FIELDS && m.o[p] < i :: f[p] == Spec.Rest(m, address, m.o[p]) % Spec.Size(m, m.o[p])
  }

  lemma ExtractedStart(m: Spec.Mapping, address: nat, f: seq<nat>)
    requires Spec.MappingOk(m) && |f| == FIELDS
    ensures Extracted(m, address, f, 0) && Spec.Rest(m, address, 0) == ShiftRight(address, m.low)
  {}

  lemma ExtractedNext(m: Spec.Mapping, address: nat, f: seq<nat>, i: nat)
    requires Spec.MappingOk(m) && i < FIELDS && Extracted(m, address, f, i)
    ensures Extracted(m, address, f[Spec.At(m.o, i) := Spec.Rest(m, address, i) % Spec.Size(m, i)], i + 1)
  {
    hide Spec.Rest, Spec.Size, Spec.FieldAt;
    Spec.FieldAtIsInverse(m.o, i);
  }

  lemma ExtractedAll(m: Spec.Mapping, address: nat, f: seq<nat>)
    requires Spec.MappingOk(m) && Extracted(m, address, f, FIELDS)
    ensures f == Spec.Translate(m, address)
  {}

  function ShiftRight(a: nat, n: nat): nat { Quotient(a, Spec.Pow2(n)) }

  function ShiftLeft(a: nat, n: nat): nat { a * Spec.Pow2(n) }

  lemma ShiftTwice(a: nat, n: nat, k: nat)
    ensures ShiftRight(ShiftRight(a, n), k) == ShiftRight(a, n + k)
  {
    Spec.Pow2Adds(n, k);
    Spec.ModOfProduct(a, Spec.Pow2(n), Spec.Pow2(k));
  }

  /** What the fields of order `i` and above add to the address, the lowest in units of `u`. */
  ghost function From(m: Spec.Mapping, f: seq<nat>, i: nat, u: nat): nat
    requires Spec.MappingOk(m) && |f| == FIELDS && i <= FIELDS
  {
    Spec.Compose(m, f, i) * u
  }

  lemma FromAll(m: Spec.Mapping, f: seq<nat>, offset: nat, col: nat)
    requires Spec.MappingOk(m) && |f| == FIELDS && offset + col == m.low
    ensures From(m, f, 0, ShiftLeft(ShiftLeft(1, offset), col)) == Spec.ReverseTranslate(m, f)
  {
    Spec.Pow2Adds(offset, col);
  }

  lemma FromNext(m: Spec.Mapping, f: seq<nat>, i: nat, u: nat)
    requires Spec.MappingOk(m) && |f| == FIELDS && i < FIELDS
    ensures var p := Spec.At(m.o, i);
      From(m, f, i, u) == f[p] * u + From(m, f, i + 1, ShiftLeft(u, m.w[p]))
  {
    Spec.ComposeNext(m, f, i);
    Distribute(u, f[Spec.At(m.o, i)], Spec.Size(m, i), Spec.Compose(m, f, i + 1));
  }

  lemma FromNone(m: Spec.Mapping, f: seq<nat>, u: nat)
    requires Spec.MappingOk(m) && |f| == FIELDS
    ensures From(m, f, FIELDS, u) == 0
  {
    Spec.ComposeNext(m, f, 0);
  }

  lemma Distribute(u: nat, f: nat, s: nat, c: nat)
    ensures (c * s + f) * u == f * u + c * (u * s)
  {}

  lemma OffsetBelowBurst(busWidth: int, burstLength: int)
    requires 0 <= busWidth && 1 <= burstLength
    ensures Spec.Log2(busWidth / 8) <= Spec.Log2(busWidth * burstLength / 8)
  {
    MulMonotone(busWidth, 1, burstLength);
    Spec.Log2Monotone(busWidth / 8, busWidth * burstLength / 8);
  }
}
