/**
  Physical addresses and their fields. A mapping scheme orders six fields from the lowest bits
  up; translation takes them apart and reverse translation puts them together.
 */
module AddressSpec {
  import opened Commands

  /** The fields, by the number that the source gives them. */
  const ROW: nat := 0
  const COL: nat := 1
  const BANK: nat := 2
  const RANK: nat := 3
  const CHANNEL: nat := 4
  const SUBARRAY: nat := 5
  const FIELDS: nat := 6

  // ---------------------------------------------------------------- mapping schemes

  function FieldOf(token: string): (f: Option<nat>)
    ensures f.Some? ==> f.value < FIELDS
  {
    if token == "R" then Some(ROW)
    else if token == "C" then Some(COL)
    else if token == "BK" then Some(BANK)
    else if token == "RK" then Some(RANK)
    else if token == "CH" then Some(CHANNEL)
    else if token == "SA" then Some(SUBARRAY)
    else None
  }

  /** The orders of the fields that the tokens name, counted down from 6; 0 for the others. */
  function Named(tokens: seq<string>): (v: seq<int>)
    ensures |v| == FIELDS
  {
    if tokens == [] then [0, 0, 0, 0, 0, 0]
    else
      var n := |tokens| - 1;
      var v := Named(tokens[..n]);
      var p := FieldOf(tokens[n]);
      if p == None then v else v[p.value := 6 - n]
  }

  /** Orders being filled in: the next one to give away, and those given so far. */
  datatype Filling = Filling(current: int, v: seq<int>)

  function FillOne(f: Filling, p: nat): Filling
    requires p < FIELDS == |f.v|
  {
    if f.v[p] == 0 then Filling(f.current - 1, f.v[p := f.current]) else f
  }

  /** Fields without an order get the remaining ones, in a fixed sequence. */
  function Fill(v: seq<int>, current: int): (w: seq<int>)
    requires |v| == FIELDS
    ensures |w| == FIELDS
  {
    FillOne(FillOne(FillOne(FillOne(FillOne(FillOne(Filling(current, v),
      SUBARRAY), CHANNEL), RANK), BANK), ROW), COL).v
  }

  /** The orders, 0 for the lowest field, that a scheme leads to. */
  function Orders(tokens: seq<string>): (o: seq<int>)
    ensures |o| == FIELDS
  {
    var w := Fill(Named(tokens), 6 - |tokens|);
    seq(FIELDS, p requires 0 <= p < FIELDS => w[p] - 1)
  }

  /** Every field has an order of its own. */
  predicate IsPermutation(o: seq<int>) {
    && |o| == FIELDS
    && (forall p | 0 <= p < FIELDS :: 0 <= o[p] < FIELDS)
    && forall p, q | 0 <= p < q < FIELDS :: o[p] != o[q]
  }

  predicate Last(tokens: seq<string>, i: nat)
    requires i < |tokens|
  {
    FieldOf(tokens[i]).Some? && forall j | i < j < |tokens| :: FieldOf(tokens[j]) != FieldOf(tokens[i])
  }

  /** The order of a field is that of the last token naming it. */
  lemma {:induction false} NamedIsLast(tokens: seq<string>, p: nat)
    requires p < FIELDS
    ensures Named(tokens)[p] == 0 || Named(tokens)[p] <= 6
    ensures forall i | 0 <= i < |tokens| && FieldOf(tokens[i]) == Some(p) && Last(tokens, i) ::
      Named(tokens)[p] == 6 - i
    ensures Named(tokens)[p] != 0 ==>
      var i := 6 - Named(tokens)[p]; 0 <= i < |tokens| && FieldOf(tokens[i]) == Some(p) && Last(tokens, i)
  {
    hide FieldOf;
    if tokens != [] {
      var n := |tokens| - 1;
      var before := tokens[..n];
      NamedIsLast(before, p);
      if FieldOf(tokens[n]) == Some(p) {
        assert Last(tokens, n);
      } else {
        forall i | 0 <= i < n && FieldOf(tokens[i]) == Some(p) ensures Last(tokens, i) == Last(before, i) {
          assert forall j | i < j < n :: before[j] == tokens[j];
        }
      }
    }
  }

  /** How many fields have an order. */
  function Given(v: seq<int>): nat
    requires |v| == FIELDS
  {
    (if v[0] != 0 then 1 else 0) + (if v[1] != 0 then 1 else 0) + (if v[2] != 0 then 1 else 0)
    + (if v[3] != 0 then 1 else 0) + (if v[4] != 0 then 1 else 0) + (if v[5] != 0 then 1 else 0)
  }

  /** The first six tokens name distinct fields, and no later one names a field. */
  predicate NamesFields(tokens: seq<string>) {
    && (forall i | 0 <= i < |tokens| :: i < 6 <==> FieldOf(tokens[i]).Some?)
    && forall i, j | 0 <= i < j < |tokens| && j < 6 :: FieldOf(tokens[i]) != FieldOf(tokens[j])
  }

  lemma {:induction false} AllTokensCount(tokens: seq<string>)
    requires NamesFields(tokens) && |tokens| <= 6
    ensures Given(Named(tokens)) == |tokens|
    ensures forall p | 0 <= p < FIELDS && Named(tokens)[p] != 0 :: 6 - |tokens| < Named(tokens)[p] <= 6
  {
    if tokens != [] {
      var n := |tokens| - 1;
      var before := tokens[..n];
      assert forall i | 0 <= i < n :: before[i] == tokens[i];
      AllTokensCount(before);
      var p := FieldOf(tokens[n]).value;
      NamedIsLast(before, p);
      assert Named(before)[p] == 0;
    }
  }

  lemma {:induction false} UnknownChangeNothing(tokens: seq<string>, n: nat)
    requires n <= |tokens| && forall i | n <= i < |tokens| :: FieldOf(tokens[i]) == None
    ensures Named(tokens) == Named(tokens[..n])
    decreases |tokens|
  {
    if |tokens| == n {
      assert tokens[..n] == tokens;
    } else {
      UnknownChangeNothing(tokens[..|tokens| - 1], n);
      assert tokens[..|tokens| - 1][..n] == tokens[..n];
    }
  }

  /** Orders that have been given are different and above those still to be given. */
  ghost predicate FillingOk(f: Filling) {
    && |f.v| == FIELDS && Given(f.v) == FIELDS - f.current
    && (forall p | 0 <= p < FIELDS && f.v[p] != 0 :: f.current < f.v[p] <= 6)
    && forall p, q | 0 <= p < q < FIELDS && f.v[p] != 0 :: f.v[p] != f.v[q]
  }

  lemma FillOneKeeps(f: Filling, p: nat)
    requires FillingOk(f) && p < FIELDS
    ensures FillingOk(FillOne(f, p)) && FillOne(f, p).v[p] != 0
    ensures forall q | 0 <= q < FIELDS && f.v[q] != 0 :: FillOne(f, p).v[q] != 0
  {
    if f.v[p] == 0 {
      assert Given(f.v) < FIELDS;
      assert Given(f.v[p := f.current]) == Given(f.v) + 1;
    }
  }

  /** Distinct orders above `low`, and `low` fields without one, fill up to a permutation. */
  lemma FillCompletes(v: seq<int>, low: nat)
    requires FillingOk(Filling(low, v))
    ensures var w := Fill(v, low);
      && (forall p | 0 <= p < FIELDS :: 1 <= w[p] <= 6)
      && forall p, q | 0 <= p < q < FIELDS :: w[p] != w[q]
  {
    hide FillOne, Given;
    var f0 := Filling(low, v);
    FillOneKeeps(f0, SUBARRAY);
    var f1 := FillOne(f0, SUBARRAY);
    FillOneKeeps(f1, CHANNEL);
    var f2 := FillOne(f1, CHANNEL);
    FillOneKeeps(f2, RANK);
    var f3 := FillOne(f2, RANK);
    FillOneKeeps(f3, BANK);
    var f4 := FillOne(f3, BANK);
    FillOneKeeps(f4, ROW);
    var f5 := FillOne(f4, ROW);
    FillOneKeeps(f5, COL);
    var f6 := FillOne(f5, COL);
    assert forall p | 0 <= p < FIELDS :: f6.v[p] != 0 by {
      assert f6.v[ROW] != 0 && f6.v[COL] != 0 && f6.v[BANK] != 0 && f6.v[RANK] != 0
             && f6.v[CHANNEL] != 0 && f6.v[SUBARRAY] != 0;
    }
    AllGivenBound(f6);
  }

  lemma AllGivenBound(f: Filling)
    requires FillingOk(f) && forall p | 0 <= p < FIELDS :: f.v[p] != 0
    ensures f.current == 0
  {}

  /** How far field `p` has come: it keeps the order a token gave it, or gets a low one when its turn comes. */
  ghost predicate LowOk(f: Filling, v: seq<int>, current: int, p: nat, done: bool)
    requires |v| == FIELDS && p < FIELDS
  {
    && |f.v| == FIELDS && f.current <= current
    && if v[p] != 0 then f.v[p] == v[p] else if done then f.v[p] <= current else f.v[p] == 0
  }

  lemma FillOneKeepsLow(f: Filling, q: nat, v: seq<int>, current: int, p: nat, done: bool)
    requires |v| == FIELDS && p < FIELDS && q < FIELDS && LowOk(f, v, current, p, done) && (done ==> p != q)
    ensures LowOk(FillOne(f, q), v, current, p, done || p == q)
  {}

  /** An order that is given away at the end is below all those of the tokens. */
  lemma FillGivesLow(v: seq<int>, current: int, p: nat)
    requires |v| == FIELDS && p < FIELDS
    ensures var w := Fill(v, current); if v[p] != 0 then w[p] == v[p] else w[p] <= current
  {
    hide FillOne;
    var f0 := Filling(current, v);
    FillOneKeepsLow(f0, SUBARRAY, v, current, p, false);
    var f1 := FillOne(f0, SUBARRAY);
    FillOneKeepsLow(f1, CHANNEL, v, current, p, p == SUBARRAY);
    var f2 := FillOne(f1, CHANNEL);
    FillOneKeepsLow(f2, RANK, v, current, p, p == SUBARRAY || p == CHANNEL);
    var f3 := FillOne(f2, RANK);
    FillOneKeepsLow(f3, BANK, v, current, p, p == SUBARRAY || p == CHANNEL || p == RANK);
    var f4 := FillOne(f3, BANK);
    FillOneKeepsLow(f4, ROW, v, current, p, p == SUBARRAY || p == CHANNEL || p == RANK || p == BANK);
    var f5 := FillOne(f4, ROW);
    FillOneKeepsLow(f5, COL, v, current, p, p != COL);
  }

  lemma {:induction false} NamedAreDistinct(tokens: seq<string>)
    ensures forall p, q | 0 <= p < q < FIELDS && Named(tokens)[p] != 0 :: Named(tokens)[p] != Named(tokens)[q]
  {
    forall p, q | 0 <= p < q < FIELDS && Named(tokens)[p] != 0 ensures Named(tokens)[p] != Named(tokens)[q] {
      NamedIsLast(tokens, p);
      NamedIsLast(tokens, q);
    }
  }

  lemma NamingCompletes(tokens: seq<string>)
    requires NamesFields(tokens)
    ensures IsPermutation(Orders(tokens))
  {
    hide NamesFields, Named, Fill;
    assert NamesFields(tokens);
    if |tokens| <= 6 {
      AllTokensCount(tokens);
      NamedAreDistinct(tokens);
      FillCompletes(Named(tokens), 6 - |tokens|);
    } else {
      ManyTokens(tokens);
    }
  }

  lemma ManyTokens(tokens: seq<string>)
    requires NamesFields(tokens) && 6 < |tokens|
    ensures IsPermutation(Orders(tokens))
  {
    var first := tokens[..6];
    UnknownChangeNothing(tokens, 6);
    assert forall i | 0 <= i < 6 :: first[i] == tokens[i];
    AllTokensCount(first);
    NamedAreDistinct(tokens);
    AllGiven(Named(tokens), 6 - |tokens|);
  }

  lemma AllGiven(v: seq<int>, current: int)
    requires |v| == FIELDS && Given(v) == FIELDS
    ensures Fill(v, current) == v
  {}

  lemma {:induction false} SubsetIsSmaller(a: set<nat>, b: set<nat>)
    requires a <= b
    ensures |a| <= |b|
  {
    if a != {} {
      var x :| x in a;
      SubsetIsSmaller(a - {x}, b - {x});
    }
  }

  lemma {:induction false} ImageSize(o: seq<int>, n: nat) returns (image: set<nat>)
    requires n <= |o| && (forall p | 0 <= p < n :: 0 <= o[p]) && forall p, q | 0 <= p < q < n :: o[p] != o[q]
    ensures |image| == n && forall x: nat :: x in image <==> x in o[..n]
  {
    image := {};
    if n != 0 {
      var rest := ImageSize(o, n - 1);
      image := rest + {o[n - 1]};
      assert o[..n] == o[..n - 1] + [o[n - 1]];
    }
  }

  /** Six different numbers below six are all of them. */
  lemma PermutationHitsAll(o: seq<int>, x: nat)
    requires IsPermutation(o) && x < FIELDS
    ensures x in o
  {
    var image := ImageSize(o, FIELDS);
    assert o[..FIELDS] == o;
    if x !in o {
      forall y | y in image ensures y in {0, 1, 2, 3, 4, 5} - {x} {
        assert y in o;
      }
      SubsetIsSmaller(image, {0, 1, 2, 3, 4, 5} - {x});
    }
  }

  lemma EarlyTokenIsLast(tokens: seq<string>, i: nat)
    requires IsPermutation(Orders(tokens)) && i < |tokens| && i < 6
    ensures Last(tokens, i)
  {
    hide Fill, Named, FieldOf;
    var o := Orders(tokens);
    PermutationHitsAll(o, 5 - i);
    var p :| 0 <= p < FIELDS && o[p] == 5 - i;
    FillGivesLow(Named(tokens), 6 - |tokens|, p);
    NamedIsLast(tokens, p);
  }

  lemma LateTokenIsUnknown(tokens: seq<string>, i: nat)
    requires 6 <= i < |tokens| && forall k | 0 <= k < 6 :: Last(tokens, k)
    ensures FieldOf(tokens[i]) == None
  {
    if FieldOf(tokens[i]).Some? {
      var k := SixNameAll(tokens, FieldOf(tokens[i]).value);
    }
  }

  lemma CompleteNames(tokens: seq<string>)
    requires IsPermutation(Orders(tokens))
    ensures NamesFields(tokens)
  {
    forall i | 0 <= i < |tokens| && i < 6 ensures Last(tokens, i) { EarlyTokenIsLast(tokens, i); }
    forall i | 6 <= i < |tokens| ensures FieldOf(tokens[i]) == None { LateTokenIsUnknown(tokens, i); }
    forall i, j | 0 <= i < j < |tokens| && j < 6 ensures FieldOf(tokens[i]) != FieldOf(tokens[j]) {
      assert Last(tokens, i);
    }
    forall i | 0 <= i < |tokens| ensures i < 6 <==> FieldOf(tokens[i]).Some? {
      if i < 6 { assert Last(tokens, i); }
    }
  }

  lemma SixNameAll(tokens: seq<string>, p: nat) returns (i: nat)
    requires 6 <= |tokens| && p < FIELDS && forall i | 0 <= i < 6 :: Last(tokens, i)
    ensures i < 6 && Last(tokens, i) && FieldOf(tokens[i]) == Some(p)
  {
    forall i | 0 <= i < 6 ensures FieldOf(tokens[i]).Some? { assert Last(tokens, i); }
    var o: seq<int> := seq(FIELDS, i requires 0 <= i < FIELDS => FieldOf(tokens[i]).value);
    forall i, j | 0 <= i < j < FIELDS ensures o[i] != o[j] { assert Last(tokens, i); }
    PermutationHitsAll(o, p);
    i :| 0 <= i < 6 && o[i] == p;
    assert Last(tokens, i);
  }

  // ---------------------------------------------------------------- results, over the tokens

  /** The tokens of the address mapping schemes. */
  predicate Known(token: string) {
    token == "R" || token == "C" || token == "BK" || token == "RK" || token == "CH" || token == "SA"
  }

  /** The first six tokens are known and different, and no later one is known. */
  predicate WellFormed(tokens: seq<string>) {
    && (forall i | 0 <= i < |tokens| :: i < 6 <==> Known(tokens[i]))
    && forall i, j | 0 <= i < j < |tokens| && j < 6 :: tokens[i] != tokens[j]
  }

  lemma WellFormedNames(tokens: seq<string>)
    ensures WellFormed(tokens) <==> NamesFields(tokens)
  {
    forall t ensures Known(t) <==> FieldOf(t).Some? {}
    forall t, u | Known(t) ensures t == u <==> FieldOf(t) == FieldOf(u) {}
  }

  /**
    A scheme gives every field an order of its own exactly when its first six tokens are known
    and different; fields it does not name are then placed below those it names.
   */
  lemma SchemeIsPermutationIff(tokens: seq<string>)
    ensures IsPermutation(Orders(tokens)) <==> WellFormed(tokens)
  {
    WellFormedNames(tokens);
    if NamesFields(tokens) { NamingCompletes(tokens); }
    if IsPermutation(Orders(tokens)) { CompleteNames(tokens); }
  }

  /** In a well-formed scheme the first token has the highest order, 5, and the token says which field it is. */
  lemma TokensGiveOrders(tokens: seq<string>, i: nat)
    requires WellFormed(tokens) && i < |tokens| && i < 6
    ensures tokens[i] == "R" ==> Orders(tokens)[0] == 5 - i
    ensures tokens[i] == "C" ==> Orders(tokens)[1] == 5 - i
    ensures tokens[i] == "BK" ==> Orders(tokens)[2] == 5 - i
    ensures tokens[i] == "RK" ==> Orders(tokens)[3] == 5 - i
    ensures tokens[i] == "CH" ==> Orders(tokens)[4] == 5 - i
    ensures tokens[i] == "SA" ==> Orders(tokens)[5] == 5 - i
  {
    WellFormedNames(tokens);
    NamedGivesOrder(tokens, i, FieldOf(tokens[i]).value);
    hide Orders, WellFormed;
  }

  lemma NamedGivesOrder(tokens: seq<string>, i: nat, p: nat)
    requires NamesFields(tokens) && i < |tokens| && i < 6 && FieldOf(tokens[i]) == Some(p)
    ensures p < FIELDS && Orders(tokens)[p] == 5 - i
  {
    hide FieldOf, Named, Fill;
    assert Last(tokens, i);
    NamedIsLast(tokens, p);
    FillGivesLow(Named(tokens), 6 - |tokens|, p);
  }

  lemma UnnamedHasNoOrder(tokens: seq<string>, token: string, p: nat)
    requires token !in tokens && FieldOf(token) == Some(p)
    ensures Named(tokens)[p] == 0
  {
    hide Named;
    NamedIsLast(tokens, p);
    forall t | FieldOf(t) == Some(p) ensures t == token {}
  }

  /** Of two fields that a scheme does not name, the one that comes first in this sequence is placed higher. */
  lemma UnnamedFollowInTurn(tokens: seq<string>, a: nat, b: nat)
    requires a < b < 6
    requires ["SA", "CH", "RK", "BK", "R", "C"][a] !in tokens && ["SA", "CH", "RK", "BK", "R", "C"][b] !in tokens
    ensures Orders(tokens)[[5, 4, 3, 2, 0, 1][a]] > Orders(tokens)[[5, 4, 3, 2, 0, 1][b]]
  {
    UnnamedInTurn(tokens, a);
    UnnamedInTurn(tokens, b);
    FilledInTurn(tokens, a, b);
  }

  lemma FilledInTurn(tokens: seq<string>, a: nat, b: nat)
    requires a < b < 6 && Named(tokens)[[5, 4, 3, 2, 0, 1][a]] == 0 && Named(tokens)[[5, 4, 3, 2, 0, 1][b]] == 0
    ensures Orders(tokens)[[5, 4, 3, 2, 0, 1][a]] > Orders(tokens)[[5, 4, 3, 2, 0, 1][b]]
  {
    hide Named, Fill;
    FillsInTurn(Named(tokens), 6 - |tokens|, a, b);
  }

  lemma UnnamedInTurn(tokens: seq<string>, a: nat)
    requires a < 6 && ["SA", "CH", "RK", "BK", "R", "C"][a] !in tokens
    ensures Named(tokens)[[5, 4, 3, 2, 0, 1][a]] == 0
  {
    hide Named;
    UnnamedHasNoOrder(tokens, ["SA", "CH", "RK", "BK", "R", "C"][a], [5, 4, 3, 2, 0, 1][a]);
  }

  lemma FillsInTurn(v: seq<int>, current: int, a: nat, b: nat)
    requires |v| == FIELDS && a < b < 6 && v[[5, 4, 3, 2, 0, 1][a]] == 0 && v[[5, 4, 3, 2, 0, 1][b]] == 0
    ensures Fill(v, current)[[5, 4, 3, 2, 0, 1][a]] > Fill(v, current)[[5, 4, 3, 2, 0, 1][b]]
  {}
}
