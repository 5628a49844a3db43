/** The DRAM cache and the main memory behind it, with their queues and maps updated in place. */
module LoCache {
  import opened LoCacheSpec

  /** The part of main memory that the cache relies on. */
  class NVMain {
    var inFlight: seq<Req>
    var pendingMemoryRequests: seq<Req>

    constructor ()
      ensures inFlight == [] && pendingMemoryRequests == []
    {
      inFlight, pendingMemoryRequests := [], [];
    }

    method IssueCommand(r: Req)
      modifies this`inFlight
      ensures inFlight == old(inFlight) + [r]
    {
      inFlight := inFlight + [r];
    }

    method EnqueuePendingMemoryRequests(r: Req)
      modifies this`pendingMemoryRequests
      ensures pendingMemoryRequests == old(pendingMemoryRequests) + [r]
    {
      pendingMemoryRequests := pendingMemoryRequests + [r];
    }

    /** At the end of a completion the oldest waiting request is tried again. */
    method RetryPending(issuable: bool)
      modifies this
      ensures var retried := old(pendingMemoryRequests) != [] && issuable;
        && inFlight == (if retried then old(inFlight) + [old(pendingMemoryRequests)[0]] else old(inFlight))
        && pendingMemoryRequests == (if retried then old(pendingMemoryRequests)[1..] else old(pendingMemoryRequests))
    {
      if pendingMemoryRequests != [] {
        var staleMemReq := pendingMemoryRequests[0];
        if issuable {
          IssueCommand(staleMemReq);
          pendingMemoryRequests := pendingMemoryRequests[1..];
        }
      }
    }
  }

  class LOCache {
    const mainMemory: NVMain
    var drcQueue: seq<Req>               // queued or at work in the DRAM cache
    var outstandingFills: map<nat, Req>
    var nextId: nat                      // the number of the next request to be made
    var answered: seq<nat>               // what was sent back to the requester, in order
    ghost var accepted: set<nat>

    constructor (mainMemory: NVMain)
      requires mainMemory.inFlight == [] && mainMemory.pendingMemoryRequests == []
      ensures this.mainMemory == mainMemory && State() == LoCacheSpec.State([], [], [], map[], 0, {}, [])
    {
      this.mainMemory := mainMemory;
      drcQueue, outstandingFills, nextId, answered, accepted := [], map[], 0, [], {};
    }

    ghost function State(): (s: LoCacheSpec.State)
      reads this, mainMemory
    {
      LoCacheSpec.State(drcQueue, mainMemory.inFlight, mainMemory.pendingMemoryRequests, outstandingFills,
                        nextId, accepted, answered)
    }

    method Fresh() returns (id: nat)
      modifies this`nextId
      ensures id == old(nextId) && nextId == id + 1
    {
      id := nextId;
      nextId := nextId + 1;
    }

    /** A request of the host enters the DRAM cache. */
    method IssueCommand(isRead: bool, address: nat)
      modifies this
      ensures State() == Apply(old(State()), Host(isRead, address))
    {
      var id := Fresh();
      drcQueue := drcQueue + [Req(id, isRead, false, NoTag, address)];
      accepted := accepted + {id};
    }

    /** Sends a request to main memory, or leaves it there to be sent later. */
    method SendToMemory(r: Req, issuable: bool)
      modifies mainMemory
      ensures State() == ToMemory(old(State()), r, issuable)
    {
      if issuable { mainMemory.IssueCommand(r); } else { mainMemory.EnqueuePendingMemoryRequests(r); }
    }

    method WriteBackVictim(out: Outcome)
      modifies this`nextId, mainMemory
      ensures State() == WriteBack(old(State()), out)
    {
      if out.dirtyVictim.Some? {
        var id := Fresh();
        SendToMemory(Req(id, false, true, Evict, out.dirtyVictim.value), out.issuable);
      }
    }

    /** The request of the host that waits for memory read `r`. */
    method FinishMemoryRead(r: Req)
      requires r.own && r.tag.MemRead? && r.id in outstandingFills
      modifies this
      ensures forall out :: State() == LoCacheSpec.RequestComplete(old(State()), r, out)
    {
      var id := Fresh();
      drcQueue := drcQueue + [r.(id := id, isRead := false, tag := Fill)];
      var originalReq := outstandingFills[r.id];
      outstandingFills := outstandingFills - {r.id};
      answered := answered + [originalReq.id];
    }

    method RequestComplete(r: Req, out: Outcome)
      requires r.own && r.tag.MemRead? ==> r.id in outstandingFills
      modifies this, mainMemory
      ensures State() == LoCacheSpec.RequestComplete(old(State()), r, out)
    {
      if r.own {
        if r.tag == Fill {
          WriteBackVictim(out);
        } else if r.tag == MemRead {
          FinishMemoryRead(r);
        }
      } else if !r.isRead {
        answered := answered + [r.id];
        WriteBackVictim(out);
      } else if !out.hit {
        var id := Fresh();
        outstandingFills := outstandingFills[id := r];
        SendToMemory(r.(id := id, own := true, tag := MemRead), out.issuable);
      } else {
        answered := answered + [r.id];
      }
    }

    /** The DRAM cache completes its request `i`. */
    method CacheComplete(i: nat, out: Outcome)
      requires Inv(State()) && i < |drcQueue|
      modifies this, mainMemory
      ensures Inv(State()) && State() == Apply(old(State()), CacheDone(i, out))
    {
      StepKeepsInv(State(), CacheDone(i, out));
      assert drcQueue[i] in State().queued && QueuedOk(State(), drcQueue[i]);
      var r := drcQueue[i];
      drcQueue := drcQueue[..i] + drcQueue[i + 1..];
      RequestComplete(r, out);
    }

    /** Main memory completes its request `i`; the assertion on outstanding fills cannot fail. */
    method MemoryComplete(i: nat, out: Outcome, retry: bool)
      requires Inv(State()) && i < |mainMemory.inFlight|
      modifies this, mainMemory
      ensures Inv(State()) && State() == Apply(old(State()), MemoryDone(i, out, retry))
    {
      StepKeepsInv(State(), MemoryDone(i, out, retry));
      var r := mainMemory.inFlight[i];
      assert r in Memory(State()) && (r.tag.MemRead? ==> Reading(Memory(State()), r.id));
      mainMemory.inFlight := mainMemory.inFlight[..i] + mainMemory.inFlight[i + 1..];
      RequestComplete(r, out);
      mainMemory.RetryPending(retry);
    }
  }
}
