/** A least-recently-used list of bounded length, against the history of insertions. */
module LruSpec {
  import opened Commands
  import opened Sequences

  datatype Inserted = Inserted(list: seq<nat>, evicted: Option<nat>)

  /** Puts `a` in front; a full list gives up its last element for a new one. */
  function Insert(list: seq<nat>, a: nat, capacity: positive): Inserted {
    if a in list then Inserted([a] + Erase(list, a), None)
    else if |list| == capacity then Inserted([a] + list[..|list| - 1], Some(list[|list| - 1]))
    else Inserted([a] + list, None)
  }

  ghost predicate Distinct(list: seq<nat>) { forall i, j | 0 <= i < j < |list| :: list[i] != list[j] }

  /** The list after inserting the addresses of `history` in order, the last one latest. */
  function Contents(history: seq<nat>, capacity: positive): seq<nat> {
    if history == [] then []
    else Insert(Contents(history[..|history| - 1], capacity), history[|history| - 1], capacity).list
  }

  /** All addresses of the history, the most recently inserted first: a list without bound. */
  function Recent(history: seq<nat>): seq<nat> {
    if history == [] then []
    else [history[|history| - 1]] + Erase(Recent(history[..|history| - 1]), history[|history| - 1])
  }

  // ---------------------------------------------------------------- removal

  lemma {:induction false} EraseDistinct(list: seq<nat>, a: nat)
    requires Distinct(list)
    ensures Distinct(Erase(list, a)) && a !in Erase(list, a)
    ensures forall x :: x in Erase(list, a) <==> x in list && x != a
  {
    if list != [] {
      EraseDistinct(list[1..], a);
      assert forall x :: x in list <==> x == list[0] || x in list[1..];
      if list[0] != a {
        var r := Erase(list, a);
        forall i, j | 0 <= i < j < |r| ensures r[i] != r[j] {
          if i == 0 { assert r[j] in Erase(list[1..], a) && list[0] !in list[1..]; }
        }
      }
    }
  }

  lemma {:induction false} EraseAbsent(list: seq<nat>, a: nat)
    requires a !in list
    ensures Erase(list, a) == list
  {
    if list != [] { EraseAbsent(list[1..], a); }
  }

  lemma {:induction false} EraseLength(list: seq<nat>, a: nat)
    ensures |Erase(list, a)| == if a in list then |list| - 1 else |list|
  {
    if list != [] { EraseLength(list[1..], a); }
  }

  function Take(list: seq<nat>, n: nat): seq<nat> { if n < |list| then list[..n] else list }

  lemma TakeFirst(list: seq<nat>, n: nat)
    requires list != [] && 1 <= n
    ensures Take(list, n) == [list[0]] + Take(list[1..], n - 1)
  {}

  lemma EraseLater(list: seq<nat>, a: nat)
    requires list != [] && list[0] != a
    ensures Erase(list, a) == [list[0]] + Erase(list[1..], a)
  {}

  lemma RestDistinct(list: seq<nat>)
    requires Distinct(list) && list != []
    ensures Distinct(list[1..]) && list[0] !in list[1..]
  {}

  /** Removing commutes with cutting off, one place earlier or later. */
  lemma {:induction false} EraseTake(list: seq<nat>, a: nat, n: nat)
    requires Distinct(list) && 1 <= n
    ensures a in Take(list, n) ==> Erase(Take(list, n), a) == Take(Erase(list, a), n - 1)
    ensures a !in Take(list, n) ==> Take(Erase(list, a), n - 1) == Take(list, n - 1)
  {
    if list != [] {
      RestDistinct(list);
      TakeFirst(list, n);
      if list[0] == a {
        assert Take(list, n)[1..] == Take(list[1..], n - 1);
      } else if n > 1 {
        hide Distinct, Take, Erase;
        EraseTake(list[1..], a, n - 1);
        EraseLater(list, a);
        TakeFirst(list, n - 1);
        TakeFirst([list[0]] + Erase(list[1..], a), n - 1);
        assert ([list[0]] + Erase(list[1..], a))[1..] == Erase(list[1..], a);
        EraseLater([list[0]] + Take(list[1..], n - 1), a);
        assert ([list[0]] + Take(list[1..], n - 1))[1..] == Take(list[1..], n - 1);
      }
    }
  }

  // ---------------------------------------------------------------- results

  lemma {:induction false} RecentIsDistinct(history: seq<nat>)
    ensures Distinct(Recent(history))
    ensures forall x :: x in Recent(history) <==> x in history
  {
    if history != [] {
      var n := |history| - 1;
      RecentIsDistinct(history[..n]);
      EraseDistinct(Recent(history[..n]), history[n]);
      assert history == history[..n] + [history[n]];
    }
  }

  /** A list of capacity `k` holds exactly the `k` most recently inserted addresses, latest first. */
  lemma {:induction false} ContentsAreRecent(history: seq<nat>, capacity: positive)
    ensures Contents(history, capacity) == Take(Recent(history), capacity)
  {
    if history != [] {
      var n := |history| - 1;
      var before, a := history[..n], history[n];
      ContentsAreRecent(before, capacity);
      RecentIsDistinct(before);
      InsertTakes(Recent(before), a, capacity);
    }
  }

  lemma InsertTakes(recent: seq<nat>, a: nat, capacity: positive)
    requires Distinct(recent)
    ensures Insert(Take(recent, capacity), a, capacity).list == Take([a] + Erase(recent, a), capacity)
  {
    EraseTake(recent, a, capacity);
    EraseLength(recent, a);
    assert Take([a] + Erase(recent, a), capacity) == [a] + Take(Erase(recent, a), capacity - 1);
    if a !in Take(recent, capacity) && |recent| <= capacity {
      EraseAbsent(recent, a);
    }
  }

  /** Inclusion: whatever is inserted, the smaller list is a prefix of the larger one. */
  lemma SmallerIsPrefix(history: seq<nat>, capacity: positive)
    ensures Contents(history, capacity) <= Contents(history, capacity + 1)
  {
    ContentsAreRecent(history, capacity);
    ContentsAreRecent(history, capacity + 1);
  }

  /** The position of the latest insertion of `a`. */
  function Latest(history: seq<nat>, a: nat): (i: nat)
    requires a in history
    ensures i < |history| && history[i] == a && forall j | i < j < |history| :: history[j] != a
  {
    var n := |history| - 1;
    if history[n] == a then n
    else
      assert history == history[..n] + [history[n]];
      Latest(history[..n], a)
  }

  ghost predicate LatestFirst(history: seq<nat>, list: seq<nat>) {
    && (forall x | x in list :: x in history)
    && forall i, j | 0 <= i < j < |list| :: Latest(history, list[j]) < Latest(history, list[i])
  }

  lemma LatestStays(history: seq<nat>, a: nat, x: nat)
    requires x in history && x != a
    ensures x in history + [a] && Latest(history + [a], x) == Latest(history, x)
  {
    assert (history + [a])[..|history|] == history;
  }

  lemma {:induction false} EraseKeepsOrder(history: seq<nat>, list: seq<nat>, a: nat)
    requires LatestFirst(history, list)
    ensures LatestFirst(history, Erase(list, a))
  {
    hide Latest;
    if list != [] {
      EraseKeepsOrder(history, list[1..], a);
      var r := Erase(list, a);
      if list[0] != a {
        forall i, j | 0 <= i < j < |r| ensures Latest(history, r[j]) < Latest(history, r[i]) {
          if i == 0 {
            assert r[j] in Erase(list[1..], a);
            var k :| 1 <= k < |list| && list[k] == r[j];
          } else {
            assert r[i] == Erase(list[1..], a)[i - 1] && r[j] == Erase(list[1..], a)[j - 1];
          }
        }
      }
    }
  }

  /** The unbounded list is ordered by latest insertion. */
  lemma {:induction false} RecentIsOrdered(history: seq<nat>)
    ensures LatestFirst(history, Recent(history))
  {
    if history != [] {
      var n := |history| - 1;
      var before, a := history[..n], history[n];
      assert history == before + [a];
      RecentIsOrdered(before);
      RecentIsDistinct(before);
      EraseKeepsOrder(before, Recent(before), a);
      EraseDistinct(Recent(before), a);
      var rest := Erase(Recent(before), a);
      forall x | x in rest ensures x in history && Latest(history, x) == Latest(before, x) < n {
        LatestStays(before, a, x);
      }
    }
  }

  /** What a full list gives up is the address that was inserted least recently. */
  lemma EvictedIsLeastRecent(history: seq<nat>, a: nat, capacity: positive)
    requires Insert(Contents(history, capacity), a, capacity).evicted.Some?
    ensures var list, e := Contents(history, capacity), Insert(Contents(history, capacity), a, capacity).evicted.value;
      && a !in list && |list| == capacity && e in history
      && forall x | x in list :: x in history && Latest(history, e) <= Latest(history, x)
  {
    ContentsAreRecent(history, capacity);
    RecentIsOrdered(history);
    var list := Contents(history, capacity);
    forall x | x in list ensures x in history && Latest(history, list[|list| - 1]) <= Latest(history, x) {
      var k :| 0 <= k < |list| && list[k] == x;
      assert list[k] == Recent(history)[k] && list[|list| - 1] == Recent(history)[|list| - 1];
    }
  }
}
