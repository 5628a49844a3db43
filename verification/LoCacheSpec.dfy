/**
  A DRAM cache in front of main memory. A read that misses is sent on to main memory; its answer
  is passed to the requester and installed by a fill; a dirty line that is replaced is written
  back. Requests that main memory refuses wait in a queue that is retried at every completion.
 */
module LoCacheSpec {
  import opened Commands
  import opened Sequences

  datatype Tag = NoTag | MemRead | Fill | Evict

  /** `own` requests were made by the cache itself. */
  datatype Req = Req(id: nat, isRead: bool, own: bool, tag: Tag, address: nat)

  /** What the functional cache and main memory say: hit or miss, a dirty victim, whether memory accepts. */
  datatype Outcome = Outcome(hit: bool, dirtyVictim: Option<nat>, issuable: bool)

  /**
    `queued` is in the DRAM cache, `inFlight` in main memory, `pending` waits for main memory;
    `fills` maps a memory read to the request that missed.
   */
  datatype State = State(
    queued: seq<Req>, inFlight: seq<Req>, pending: seq<Req>, fills: map<nat, Req>,
    next: nat, accepted: set<nat>, answered: seq<nat>)

  datatype Step =
    | Host(isRead: bool, address: nat)                 // the host hands over a request
    | CacheDone(i: nat, out: Outcome)                  // the DRAM cache completes a request
    | MemoryDone(i: nat, out: Outcome, retry: bool)    // main memory completes one and retries

  // ---------------------------------------------------------------- specification

  /** Sends `r` to main memory, or keeps it until it can be sent. */
  function ToMemory(s: State, r: Req, issuable: bool): State {
    if issuable then s.(inFlight := s.inFlight + [r]) else s.(pending := s.pending + [r])
  }

  /** Writes a dirty victim back, if there is one. */
  function WriteBack(s: State, out: Outcome): State {
    match out.dirtyVictim
    case None => s
    case Some(victim) => ToMemory(s.(next := s.next + 1), Req(s.next, false, true, Evict, victim), out.issuable)
  }

  function Answer(s: State, id: nat): State { s.(answered := s.answered + [id]) }

  /** A request completes in the cache: its own by tag, those of the host by hit or miss. */
  function RequestComplete(s: State, r: Req, out: Outcome): State {
    if r.own then
      match r.tag
      case Fill => WriteBack(s, out)
      case MemRead =>
        var queued := s.queued + [r.(id := s.next, isRead := false, tag := Fill)];
        if r.id in s.fills then
          Answer(s.(queued := queued, next := s.next + 1, fills := s.fills - {r.id}), s.fills[r.id].id)
        else
          s.(queued := queued, next := s.next + 1)
      case _ => s
    else if !r.isRead then
      WriteBack(Answer(s, r.id), out)
    else if out.hit then
      Answer(s, r.id)
    else
      var read := r.(id := s.next, own := true, tag := MemRead);
      ToMemory(s.(next := s.next + 1, fills := s.fills[s.next := r]), read, out.issuable)
  }

  /** The oldest waiting request is sent if main memory accepts it. */
  function Retry(s: State, issuable: bool): State {
    if s.pending != [] && issuable then
      s.(inFlight := s.inFlight + [s.pending[0]], pending := s.pending[1..])
    else
      s
  }

  predicate Enabled(s: State, step: Step) {
    match step
    case Host(_, _) => true
    case CacheDone(i, _) => i < |s.queued|
    case MemoryDone(i, _, _) => i < |s.inFlight|
  }

  function Apply(s: State, step: Step): State
    requires Enabled(s, step)
  {
    match step
    case Host(isRead, address) =>
      s.(queued := s.queued + [Req(s.next, isRead, false, NoTag, address)], next := s.next + 1,
         accepted := s.accepted + {s.next})
    case CacheDone(i, out) => RequestComplete(s.(queued := Without(s.queued, i)), s.queued[i], out)
    case MemoryDone(i, out, retry) =>
      Retry(RequestComplete(s.(inFlight := Without(s.inFlight, i)), s.inFlight[i], out), retry)
  }

  // ---------------------------------------------------------------- invariant

  /** Everything that main memory has or will get. */
  function Memory(s: State): seq<Req> { s.inFlight + s.pending }

  ghost predicate Distinct(s: seq<Req>) { forall i, j | 0 <= i < j < |s| :: s[i].id != s[j].id }

  /** `k` is the number of a memory read in `m`. */
  ghost predicate Reading(m: seq<Req>, k: nat) { exists r :: r in m && r.id == k && r.tag.MemRead? }

  ghost predicate QueuedOk(s: State, r: Req) {
    && r.id < s.next
    && if r.own then r.tag.Fill? else r.tag.NoTag? && r.id in s.accepted && r.id !in s.answered
  }

  ghost predicate MemoryOk(s: State, r: Req) { r.id < s.next && r.own && (r.tag.MemRead? || r.tag.Evict?) }

  ghost predicate FillOk(s: State, r: Req) {
    && r.isRead && !r.own && r.id in s.accepted && r.id !in s.answered
    && forall q | q in s.queued :: q.id != r.id
  }

  /** The request is in the DRAM cache, or waits for a memory read. */
  ghost predicate Waiting(queued: seq<Req>, fills: map<nat, Req>, id: nat) {
    (exists r :: r in queued && r.id == id && !r.own) || exists k :: k in fills && fills[k].id == id
  }

  ghost predicate QueueInv(s: State) { (forall r | r in s.queued :: QueuedOk(s, r)) && Distinct(s.queued) }

  ghost predicate MemoryInv(s: State) { (forall r | r in Memory(s) :: MemoryOk(s, r)) && Distinct(Memory(s)) }

  ghost predicate FillInv(s: State) {
    && (forall k :: k in s.fills <==> Reading(Memory(s), k))
    && (forall k | k in s.fills :: FillOk(s, s.fills[k]))
    && forall k, l | k in s.fills && l in s.fills && k != l :: s.fills[k].id != s.fills[l].id
  }

  ghost predicate AnswerInv(s: State) {
    && (forall id | id in s.accepted :: id < s.next && (id in s.answered || Waiting(s.queued, s.fills, id)))
    && (forall id | id in s.answered :: id in s.accepted)
    && forall i, j | 0 <= i < j < |s.answered| :: s.answered[i] != s.answered[j]
  }

  ghost predicate Inv(s: State) { QueueInv(s) && MemoryInv(s) && FillInv(s) && AnswerInv(s) }

  // ---------------------------------------------------------------- sequences

  lemma WithoutKeeps(s: seq<Req>, i: nat)
    requires i < |s|
    ensures forall r :: r in Without(s, i) ==> r in s
    ensures forall r :: r in s && r != s[i] ==> r in Without(s, i)
    ensures Distinct(s) ==> Distinct(Without(s, i)) && forall r | r in Without(s, i) :: r.id != s[i].id
  {
    assert s == s[..i] + [s[i]] + s[i + 1..];
  }

  lemma InsertKeeps(a: seq<Req>, b: seq<Req>, r: Req)
    requires forall x | x in a + b :: x.id != r.id
    ensures forall x :: x in a + [r] + b <==> x in a + b || x == r
    ensures Distinct(a + b) ==> Distinct(a + [r] + b)
  {
    var s := a + [r] + b;
    if Distinct(a + b) {
      forall i, j | 0 <= i < j < |s| ensures s[i].id != s[j].id {
        if i == |a| {
          assert s[j] == (a + b)[j - 1] && s[j] in a + b;
        } else if j == |a| {
          assert s[i] == (a + b)[i] && s[i] in a + b;
        } else {
          assert s[i] == (a + b)[if i < |a| then i else i - 1] && s[j] == (a + b)[if j < |a| then j else j - 1];
        }
      }
    }
  }

  /** A new request for main memory, wherever it is put. */
  lemma ToMemoryAdds(s: State, r: Req, issuable: bool)
    requires forall x | x in Memory(s) :: x.id != r.id
    ensures var s' := ToMemory(s, r, issuable);
      && (forall x :: x in Memory(s') <==> x in Memory(s) || x == r)
      && (Distinct(Memory(s)) ==> Distinct(Memory(s')))
      && s' == s.(inFlight := s'.inFlight, pending := s'.pending)
  {
    var s' := ToMemory(s, r, issuable);
    if issuable {
      InsertKeeps(s.inFlight, s.pending, r);
      assert Memory(s') == s.inFlight + [r] + s.pending;
    } else {
      InsertKeeps(Memory(s), [], r);
      assert Memory(s') == Memory(s) + [r] + [] && Memory(s) + [] == Memory(s);
    }
  }

  // ---------------------------------------------------------------- each step keeps the invariant

  lemma HostKeepsInv(s: State, s': State, r: Req)
    requires Inv(s) && r.id == s.next && !r.own && r.tag.NoTag?
    requires s' == s.(queued := s.queued + [r], next := s.next + 1, accepted := s.accepted + {r.id})
    ensures Inv(s')
  {
    InsertKeeps(s.queued, [], r);
    assert s'.queued == s.queued + [r] + [] && s.queued + [] == s.queued;
    forall id | id in s'.accepted ensures id < s'.next && (id in s'.answered || Waiting(s'.queued, s'.fills, id)) {
      if id == r.id {
        assert r in s'.queued;
      } else if id !in s.answered {
        assert Waiting(s.queued, s.fills, id);
        WaitingGrows(s.queued, s'.queued, s.fills, id);
      }
    }
  }

  lemma WaitingGrows(queued: seq<Req>, queued': seq<Req>, fills: map<nat, Req>, id: nat)
    requires Waiting(queued, fills, id) && forall r :: r in queued && !r.own ==> r in queued'
    ensures Waiting(queued', fills, id)
  {}

  lemma WriteBackKeepsInv(s: State, out: Outcome)
    requires Inv(s)
    ensures Inv(WriteBack(s, out))
  {
    if out.dirtyVictim.Some? {
      var r := Req(s.next, false, true, Evict, out.dirtyVictim.value);
      hide ToMemory;
      ToMemoryAdds(s.(next := s.next + 1), r, out.issuable);
      var s' := WriteBack(s, out);
      forall k ensures Reading(Memory(s'), k) <==> Reading(Memory(s), k) {}
    }
  }

  /** A fill is done: it leaves the DRAM cache. */
  lemma FillDoneKeepsInv(s: State, i: nat)
    requires Inv(s) && i < |s.queued| && s.queued[i].own
    ensures Inv(s.(queued := Without(s.queued, i)))
  {
    var s' := s.(queued := Without(s.queued, i));
    WithoutKeeps(s.queued, i);
    forall id | id in s.accepted && id !in s.answered ensures Waiting(s'.queued, s'.fills, id) {
      WaitingGrows(s.queued, s'.queued, s.fills, id);
    }
  }

  /** A request of the host is answered as it leaves the DRAM cache. */
  lemma AnswerKeepsInv(s: State, i: nat)
    requires Inv(s) && i < |s.queued| && !s.queued[i].own
    ensures Inv(Answer(s.(queued := Without(s.queued, i)), s.queued[i].id))
  {
    var r := s.queued[i];
    var s' := Answer(s.(queued := Without(s.queued, i)), r.id);
    WithoutKeeps(s.queued, i);
    assert r in s.queued && QueuedOk(s, r);
    forall id | id in s.accepted && id !in s'.answered ensures Waiting(s'.queued, s'.fills, id) {
      assert Waiting(s.queued, s.fills, id);
      WaitingSurvives(s.queued, s'.queued, s.fills, id, r);
    }
  }

  lemma WaitingSurvives(queued: seq<Req>, queued': seq<Req>, fills: map<nat, Req>, id: nat, r: Req)
    requires Waiting(queued, fills, id) && id != r.id && forall x :: x in queued && x != r ==> x in queued'
    ensures Waiting(queued', fills, id)
  {}

  /** A read that misses leaves the DRAM cache and waits for a memory read. */
  lemma MissKeepsInv(s: State, i: nat, issuable: bool)
    requires Inv(s) && i < |s.queued| && !s.queued[i].own && s.queued[i].isRead
    ensures var r := s.queued[i];
      var s1 := s.(queued := Without(s.queued, i), next := s.next + 1, fills := s.fills[s.next := r]);
      Inv(ToMemory(s1, r.(id := s.next, own := true, tag := MemRead), issuable))
  {
    var r := s.queued[i];
    var read := r.(id := s.next, own := true, tag := MemRead);
    var s1 := s.(queued := Without(s.queued, i), next := s.next + 1, fills := s.fills[s.next := r]);
    var s' := ToMemory(s1, read, issuable);
    WithoutKeeps(s.queued, i);
    assert r in s.queued && QueuedOk(s, r);
    assert Memory(s1) == Memory(s);
    ToMemoryAdds(s1, read, issuable);
    NewFill(s, s', r, read);
    MissKeepsAnswers(s, s', r);
  }

  lemma MissKeepsAnswers(s: State, s': State, r: Req)
    requires AnswerInv(s) && s'.fills == s.fills[s.next := r] && s'.next == s.next + 1
    requires s'.accepted == s.accepted && s'.answered == s.answered
    requires forall x :: x in s.queued && x != r ==> x in s'.queued
    requires forall k | k in s.fills :: k != s.next
    ensures AnswerInv(s')
  {
    forall id | id in s.accepted && id !in s.answered ensures Waiting(s'.queued, s'.fills, id) {
      assert Waiting(s.queued, s.fills, id);
      if id == r.id {
        assert s'.fills[s.next].id == id;
      } else {
        WaitingMoves(s.queued, s'.queued, s.fills, s'.fills, id, r);
      }
    }
  }

  lemma WaitingMoves(queued: seq<Req>, queued': seq<Req>, fills: map<nat, Req>, fills': map<nat, Req>, id: nat, r: Req)
    requires Waiting(queued, fills, id) && id != r.id && forall x :: x in queued && x != r && !x.own ==> x in queued'
    requires forall k | k in fills && fills[k].id == id :: k in fills' && fills'[k] == fills[k]
    ensures Waiting(queued', fills', id)
  {}

  lemma NewFill(s: State, s': State, r: Req, read: Req)
    requires QueueInv(s) && MemoryInv(s) && FillInv(s) && r in s.queued && !r.own && r.isRead
    requires read.id == s.next && read.tag.MemRead?
    requires s'.fills == s.fills[s.next := r] && s'.accepted == s.accepted && s'.answered == s.answered
    requires forall q | q in s'.queued :: q in s.queued && q.id != r.id
    requires forall x :: x in Memory(s') <==> x in Memory(s) || x == read
    ensures FillInv(s')
  {
    forall k ensures k in s'.fills <==> Reading(Memory(s'), k) {
      if k in s.fills {
        var x :| x in Memory(s) && x.id == k && x.tag.MemRead?;
        assert x in Memory(s');
      } else if k == s.next {
        assert read in Memory(s');
      }
    }
    forall k | k in s'.fills ensures FillOk(s', s'.fills[k]) {
      if k in s.fills {
        assert FillOk(s, s.fills[k]) && MemoryHas(s, k);
      }
    }
    forall k, l | k in s'.fills && l in s'.fills && k != l ensures s'.fills[k].id != s'.fills[l].id {
      assert k in s.fills ==> FillOk(s, s.fills[k]) && MemoryHas(s, k);
      assert l in s.fills ==> FillOk(s, s.fills[l]) && MemoryHas(s, l);
    }
  }

  /** A fill is keyed by a number already given out. */
  ghost predicate MemoryHas(s: State, k: nat)
    requires MemoryInv(s) && FillInv(s)
  {
    k in s.fills ==> exists r :: r in Memory(s) && r.id == k && k < s.next
  }

  lemma MemoryWithout(s: State, i: nat)
    requires i < |s.inFlight|
    ensures Memory(s.(inFlight := Without(s.inFlight, i))) == Without(Memory(s), i) && Memory(s)[i] == s.inFlight[i]
  {}

  /** A write-back is done: it leaves main memory. */
  lemma EvictDoneKeepsInv(s: State, i: nat)
    requires Inv(s) && i < |s.inFlight| && s.inFlight[i].tag.Evict?
    ensures Inv(s.(inFlight := Without(s.inFlight, i)))
  {
    var s' := s.(inFlight := Without(s.inFlight, i));
    MemoryWithout(s, i);
    WithoutKeeps(Memory(s), i);
    forall k ensures Reading(Memory(s'), k) <==> Reading(Memory(s), k) {}
  }

  /** A memory read is done: the requester is answered and a fill is queued. */
  lemma ReadDoneKeepsInv(s: State, i: nat)
    requires Inv(s) && i < |s.inFlight| && s.inFlight[i].tag.MemRead?
    ensures var r := s.inFlight[i];
      && r.id in s.fills
      && Inv(Answer(s.(inFlight := Without(s.inFlight, i),
                       queued := s.queued + [r.(id := s.next, isRead := false, tag := Fill)],
                       next := s.next + 1, fills := s.fills - {r.id}), s.fills[r.id].id))
  {
    var r := s.inFlight[i];
    var fill := r.(id := s.next, isRead := false, tag := Fill);
    MemoryWithout(s, i);
    WithoutKeeps(Memory(s), i);
    assert r in Memory(s) && MemoryOk(s, r) && Reading(Memory(s), r.id);
    var o := s.fills[r.id];
    var s' := Answer(s.(inFlight := Without(s.inFlight, i), queued := s.queued + [fill],
                        next := s.next + 1, fills := s.fills - {r.id}), o.id);
    assert FillOk(s, o);
    InsertKeeps(s.queued, [], fill);
    assert s'.queued == s.queued + [fill] + [] && s.queued + [] == s.queued;
    FillLeaves(s, s', r, fill);
    forall id | id in s.accepted && id !in s'.answered ensures Waiting(s'.queued, s'.fills, id) {
      assert id in s.accepted && id !in s.answered && Waiting(s.queued, s.fills, id);
      WaitingMoves(s.queued, s'.queued, s.fills, s'.fills, id, o);
    }
  }

  lemma FillLeaves(s: State, s': State, r: Req, fill: Req)
    requires QueueInv(s) && MemoryInv(s) && FillInv(s) && r in Memory(s) && r.tag.MemRead? && r.id in s.fills
    requires fill.id == s.next && fill.own
    requires s'.fills == s.fills - {r.id} && s'.accepted == s.accepted && s'.answered == s.answered + [s.fills[r.id].id]
    requires forall q :: q in s'.queued <==> q in s.queued || q == fill
    requires forall x :: x in Memory(s') ==> x in Memory(s) && x.id != r.id
    requires forall x :: x in Memory(s) && x != r ==> x in Memory(s')
    requires forall id | id in s.accepted :: id < s.next
    ensures FillInv(s')
  {
    forall k ensures k in s'.fills <==> Reading(Memory(s'), k) {
      if k in s'.fills {
        var x :| x in Memory(s) && x.id == k && x.tag.MemRead?;
        assert x in Memory(s');
      }
    }
    forall k | k in s'.fills ensures FillOk(s', s'.fills[k]) { assert FillOk(s, s.fills[k]); }
  }

  lemma RetryKeepsInv(s: State, issuable: bool)
    requires Inv(s)
    ensures Inv(Retry(s, issuable)) && Memory(Retry(s, issuable)) == Memory(s)
  {
    var s' := Retry(s, issuable);
    assert Memory(s') == Memory(s);
    forall k ensures k in s'.fills <==> Reading(Memory(s'), k) {}
  }

  lemma CacheDoneKeepsInv(s: State, i: nat, out: Outcome)
    requires Inv(s) && i < |s.queued|
    ensures Inv(Apply(s, CacheDone(i, out)))
  {
    var r := s.queued[i];
    assert r in s.queued && QueuedOk(s, r);
    if r.own {
      FillDoneKeepsInv(s, i);
      WriteBackKeepsInv(s.(queued := Without(s.queued, i)), out);
    } else if !r.isRead {
      AnswerKeepsInv(s, i);
      WriteBackKeepsInv(Answer(s.(queued := Without(s.queued, i)), r.id), out);
    } else if out.hit {
      AnswerKeepsInv(s, i);
    } else {
      MissKeepsInv(s, i, out.issuable);
    }
  }

  lemma MemoryDoneKeepsInv(s: State, i: nat, out: Outcome, retry: bool)
    requires Inv(s) && i < |s.inFlight|
    ensures Inv(Apply(s, MemoryDone(i, out, retry)))
  {
    var r := s.inFlight[i];
    assert r in Memory(s) && MemoryOk(s, r);
    if r.tag.MemRead? { ReadDoneKeepsInv(s, i); } else { EvictDoneKeepsInv(s, i); }
    RetryKeepsInv(RequestComplete(s.(inFlight := Without(s.inFlight, i)), r, out), retry);
  }

  lemma StepKeepsInv(s: State, step: Step)
    requires Inv(s) && Enabled(s, step)
    ensures Inv(Apply(s, step))
  {
    match step
    case Host(isRead, address) => HostKeepsInv(s, Apply(s, step), Req(s.next, isRead, false, NoTag, address));
    case CacheDone(i, out) => CacheDoneKeepsInv(s, i, out);
    case MemoryDone(i, out, retry) => MemoryDoneKeepsInv(s, i, out, retry);
  }
}
