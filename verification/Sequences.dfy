/** Taking elements out of sequences. */
module Sequences {

  /** `s` without its element `i`. */
  function Without<T>(s: seq<T>, i: nat): seq<T>
    requires i < |s|
  {
    s[..i] + s[i + 1..]
  }

  /** `s` without the first occurrence of `x`. */
  function Erase<T(==)>(s: seq<T>, x: T): (r: seq<T>)
    ensures |r| <= |s| && forall y :: y in r ==> y in s
  {
    if s == [] then []
    else if s[0] == x then s[1..]
    else [s[0]] + Erase(s[1..], x)
  }

  /** Erasing takes out the first occurrence, if there is one. */
  lemma {:induction false} EraseAt<T>(s: seq<T>, x: T, i: nat)
    requires i <= |s| && x !in s[..i] && (i < |s| ==> s[i] == x)
    ensures Erase(s, x) == if i < |s| then Without(s, i) else s
  {
    if i > 0 {
      assert s[0] in s[..i] && s[1..][..i - 1] == s[..i][1..];
      EraseAt(s[1..], x, i - 1);
      assert s == [s[0]] + s[1..];
      assert i < |s| ==> s[1..][i..] == s[i + 1..];
    }
  }
}
