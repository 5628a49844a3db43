/** The list with its index, updated in place. */
module Lru {
  import opened Commands
  import opened Sequences
  import opened LruSpec

  class LruMem {
    const maxlen: positive
    var lruList: seq<nat>
    var lruIndex: set<nat>   // the keys of the map from addresses to list positions
    var len: nat

    constructor (maxlen: positive)
      ensures Valid() && lruList == [] && this.maxlen == maxlen
    {
      this.maxlen, lruList, lruIndex, len := maxlen, [], {}, 0;
    }

    /** The index knows exactly the members of the list, which has no duplicates and is not too long. */
    ghost predicate Valid()
      reads this
    {
      && Distinct(lruList)
      && (forall x :: x in lruIndex <==> x in lruList)
      && len == |lruList| <= maxlen
    }

    method IsInLru(address: nat) returns (found: bool)
      requires Valid()
      ensures found <==> address in lruList
    {
      found := address in lruIndex;
    }

    /** Takes `address` out of the list. */
    method Unlink(address: nat)
      requires Valid() && address in lruList
      modifies this`lruList
      ensures lruList == Erase(old(lruList), address)
    {
      var i := 0;
      while lruList[i] != address
        invariant i < |lruList| && lruList == old(lruList)
        invariant address !in lruList[..i]
        decreases |lruList| - i
      {
        assert lruList == lruList[..i + 1] + lruList[i + 1..] && lruList[..i + 1] == lruList[..i] + [lruList[i]];
        i := i + 1;
      }
      EraseAt(lruList, address, i);
      lruList := lruList[..i] + lruList[i + 1..];
    }

    method InsertNode(address: nat) returns (evicted: Option<nat>)
      requires Valid()
      modifies this
      ensures Valid()
      ensures Inserted(lruList, evicted) == Insert(old(lruList), address, maxlen)
    {
      evicted := None;
      EraseDistinct(lruList, address);
      EraseLength(lruList, address);
      if address in lruIndex {
        Unlink(address);
        lruList := [address] + lruList;
      } else {
        if |lruList| == maxlen {
          evicted := Some(lruList[|lruList| - 1]);
          lruIndex := lruIndex - {evicted.value};
          assert lruList == lruList[..|lruList| - 1] + [evicted.value];
          lruList := lruList[..|lruList| - 1];
          len := len - 1;
        }
        lruList := [address] + lruList;
        lruIndex := lruIndex + {address};
        len := len + 1;
      }
    }

    /** Takes out the least recently inserted address. */
    method TakeOut() returns (address: nat)
      requires Valid() && lruList != []
      modifies this
      ensures Valid() && old(lruList) == lruList + [address] && len == old(len) - 1
    {
      address := lruList[|lruList| - 1];
      assert lruList == lruList[..|lruList| - 1] + [address];
      lruIndex := lruIndex - {address};
      lruList := lruList[..|lruList| - 1];
      len := len - 1;
    }
  }
}
