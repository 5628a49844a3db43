/** What the DRAM cache guarantees over whole runs: one answer per request, and no request forgotten. */
module LoCacheRuns {
  import opened Commands
  import opened Sequences
  import opened LoCacheSpec

  function Initial(): State { State([], [], [], map[], 0, {}, []) }

  ghost function Execute(s: State, steps: seq<Step>): Option<State>
    decreases |steps|
  {
    if steps == [] then Some(s)
    else if Enabled(s, steps[0]) then Execute(Apply(s, steps[0]), steps[1..])
    else None
  }

  lemma {:induction false} RunKeepsInv(s: State, steps: seq<Step>)
    requires Inv(s) && Execute(s, steps).Some?
    ensures Inv(Execute(s, steps).value)
    decreases |steps|
  {
    if steps != [] {
      StepKeepsInv(s, steps[0]);
      RunKeepsInv(Apply(s, steps[0]), steps[1..]);
    }
  }

  ghost predicate Reached(steps: seq<Step>, s: State) { Execute(Initial(), steps) == Some(s) }

  lemma ReachedInv(steps: seq<Step>, s: State)
    requires Reached(steps, s)
    ensures Inv(s)
  {
    RunKeepsInv(Initial(), steps);
  }

  // ---------------------------------------------------------------- exactly one answer

  /**
    Whatever the interleaving, a request of the host is answered at most once and never before
    it was made, and until then it is either in the DRAM cache or waits for one memory read.
   */
  lemma AnsweredAtMostOnce(steps: seq<Step>, s: State, id: nat)
    requires Reached(steps, s) && id in s.accepted
    ensures forall i, j | 0 <= i < j < |s.answered| :: s.answered[i] != s.answered[j]
    ensures forall a | a in s.answered :: a in s.accepted
    ensures id in s.answered <==> !Waiting(s.queued, s.fills, id)
  {
    ReachedInv(steps, s);
    if Waiting(s.queued, s.fills, id) { WaitingIsUnanswered(s, id); }
  }

  lemma WaitingIsUnanswered(s: State, id: nat)
    requires Inv(s) && Waiting(s.queued, s.fills, id)
    ensures id !in s.answered
  {
    if r :| r in s.queued && r.id == id && !r.own {
      assert QueuedOk(s, r);
    } else {
      var k :| k in s.fills && s.fills[k].id == id;
      assert FillOk(s, s.fills[k]);
    }
  }

  /** The outstanding fills are keyed by exactly the memory reads that are in flight or pending. */
  lemma FillsAreMemoryReads(steps: seq<Step>, s: State, k: nat)
    requires Reached(steps, s)
    ensures k in s.fills <==> exists r :: (r in s.inFlight || r in s.pending) && r.id == k && r.tag.MemRead?
    ensures k in s.fills ==> s.fills[k].isRead && s.fills[k].id in s.accepted && s.fills[k].id !in s.answered
  {
    ReachedInv(steps, s);
    if k in s.fills {
      assert Reading(Memory(s), k) && FillOk(s, s.fills[k]);
      var r :| r in Memory(s) && r.id == k && r.tag.MemRead?;
      assert r in s.inFlight || r in s.pending;
    }
    if r :| (r in s.inFlight || r in s.pending) && r.id == k && r.tag.MemRead? {
      assert r in Memory(s) && Reading(Memory(s), k);
    }
  }

  // ---------------------------------------------------------------- no pending request is dropped

  /** `s'` has what was pending, except that its head may have been sent, and maybe one more at the end. */
  ghost predicate KeepsPending(s: State, s': State) {
    || (exists added :: s'.pending == s.pending + added && |added| <= 1)
    || (s.pending != [] && s.pending[0] in s'.inFlight
        && exists added :: s'.pending == s.pending[1..] + added && |added| <= 1)
  }

  lemma WriteBackPending(s: State, out: Outcome) returns (added: seq<Req>)
    ensures WriteBack(s, out).pending == s.pending + added && |added| <= 1
  {
    added := if out.dirtyVictim.Some? && !out.issuable then [Req(s.next, false, true, Evict, out.dirtyVictim.value)]
      else [];
  }

  lemma CompletePending(s: State, r: Req, out: Outcome) returns (added: seq<Req>)
    ensures RequestComplete(s, r, out).pending == s.pending + added && |added| <= 1
  {
    if r.own && r.tag.Fill? {
      added := WriteBackPending(s, out);
    } else if !r.own && !r.isRead {
      added := WriteBackPending(Answer(s, r.id), out);
    } else if !r.own && !out.hit && !out.issuable {
      added := [r.(id := s.next, own := true, tag := MemRead)];
    } else {
      added := [];
    }
  }

  /** Pending requests are sent in order; none is lost. */
  lemma PendingIsNeverDropped(s: State, step: Step)
    requires Enabled(s, step)
    ensures KeepsPending(s, Apply(s, step))
  {
    match step
    case Host(_, _) => assert Apply(s, step).pending == s.pending + [];
    case CacheDone(i, out) => var added := CompletePending(s.(queued := Without(s.queued, i)), s.queued[i], out);
    case MemoryDone(i, out, retry) =>
      var s1 := RequestComplete(s.(inFlight := Without(s.inFlight, i)), s.inFlight[i], out);
      var added := CompletePending(s.(inFlight := Without(s.inFlight, i)), s.inFlight[i], out);
      if retry && s1.pending != [] {
        if s.pending != [] {
          assert s1.pending[1..] == s.pending[1..] + added;
          assert s.pending[0] in Apply(s, step).inFlight;
        } else {
          assert s1.pending[1..] == s.pending + [];
        }
      }
  }

  // ---------------------------------------------------------------- nothing waits forever

  /** Main memory refuses a request only while it is busy with another. */
  ghost predicate RefusesOnlyWhenBusy(s: State, step: Step)
    requires Enabled(s, step)
  {
    match step
    case Host(_, _) => true
    case CacheDone(_, out) => out.issuable || s.inFlight != []
    case MemoryDone(i, out, retry) =>
      && (out.issuable || Without(s.inFlight, i) != [])
      && (retry || RequestComplete(s.(inFlight := Without(s.inFlight, i)), s.inFlight[i], out).inFlight != [])
  }

  /** Requests wait for main memory only while it is busy, so that a completion will retry them. */
  ghost predicate PendingIsWatched(s: State) { s.pending != [] ==> s.inFlight != [] }

  lemma CompleteWatches(s: State, r: Req, out: Outcome)
    requires out.issuable || s.inFlight != []
    ensures PendingIsWatched(s) ==> PendingIsWatched(RequestComplete(s, r, out))
    ensures s.inFlight != [] ==> RequestComplete(s, r, out).inFlight != []
  {}

  lemma StepKeepsWatch(s: State, step: Step)
    requires Enabled(s, step) && RefusesOnlyWhenBusy(s, step) && PendingIsWatched(s)
    ensures PendingIsWatched(Apply(s, step))
  {
    match step
    case Host(_, _) =>
    case CacheDone(i, out) => CompleteWatches(s.(queued := Without(s.queued, i)), s.queued[i], out);
    case MemoryDone(i, out, retry) =>
  }

  /** The work still ahead: a read may miss, be read from memory, be filled and evict a dirty line. */
  function Work(r: Req): nat {
    if r.own then (match r.tag case MemRead => 3 case Fill => 2 case _ => 1)
    else if r.isRead then 4 else 2
  }

  function WorkOf(rs: seq<Req>): nat { if rs == [] then 0 else Work(rs[0]) + WorkOf(rs[1..]) }

  function WorkLeft(s: State): nat { WorkOf(s.queued) + WorkOf(s.inFlight) + WorkOf(s.pending) }

  lemma {:induction false} WorkAppend(a: seq<Req>, b: seq<Req>)
    ensures WorkOf(a + b) == WorkOf(a) + WorkOf(b)
  {
    if a == [] {
      assert a + b == b;
    } else {
      assert (a + b)[1..] == a[1..] + b;
      WorkAppend(a[1..], b);
    }
  }

  lemma WorkSplits(a: seq<Req>, r: Req, b: seq<Req>)
    ensures WorkOf(a + ([r] + b)) == WorkOf(a) + Work(r) + WorkOf(b)
  {
    WorkAppend(a, [r] + b);
    assert ([r] + b)[1..] == b;
  }

  lemma WorkWithout(s: seq<Req>, i: nat)
    requires i < |s|
    ensures WorkOf(Without(s, i)) == WorkOf(s) - Work(s[i])
  {
    hide Work, WorkOf;
    assert s == s[..i] + ([s[i]] + s[i + 1..]);
    WorkSplits(s[..i], s[i], s[i + 1..]);
    WorkAppend(s[..i], s[i + 1..]);
  }

  lemma WorkOne(a: seq<Req>, r: Req)
    ensures WorkOf(a + [r]) == WorkOf(a) + Work(r)
  {
    WorkAppend(a, [r]);
    assert WorkOf([r]) == Work(r) + WorkOf([r][1..]);
  }

  lemma ToMemoryWork(s: State, r: Req, issuable: bool)
    ensures WorkLeft(ToMemory(s, r, issuable)) == WorkLeft(s) + Work(r)
  {
    WorkOne(s.inFlight, r);
    WorkOne(s.pending, r);
  }

  lemma WriteBackWork(s: State, out: Outcome)
    ensures WorkLeft(WriteBack(s, out)) <= WorkLeft(s) + 1
  {
    if out.dirtyVictim.Some? {
      ToMemoryWork(s.(next := s.next + 1), Req(s.next, false, true, Evict, out.dirtyVictim.value), out.issuable);
    }
  }

  lemma CompleteWork(s: State, r: Req, out: Outcome)
    requires r.own ==> !r.tag.NoTag?
    ensures WorkLeft(RequestComplete(s, r, out)) < WorkLeft(s) + Work(r)
  {
    if r.own {
      match r.tag
      case Fill => WriteBackWork(s, out);
      case MemRead => WorkOne(s.queued, r.(id := s.next, isRead := false, tag := Fill));
      case _ =>
    } else if !r.isRead {
      WriteBackWork(Answer(s, r.id), out);
    } else if !out.hit {
      ToMemoryWork(s.(next := s.next + 1, fills := s.fills[s.next := r]),
                   r.(id := s.next, own := true, tag := MemRead), out.issuable);
    }
  }

  lemma RetryWork(s: State, issuable: bool)
    ensures WorkLeft(Retry(s, issuable)) == WorkLeft(s)
  {
    if s.pending != [] && issuable {
      WorkOne(s.inFlight, s.pending[0]);
    }
  }

  /** Every completion brings the work down. */
  lemma CompletionMakesProgress(s: State, step: Step)
    requires Inv(s) && Enabled(s, step) && !step.Host?
    ensures WorkLeft(Apply(s, step)) < WorkLeft(s)
  {
    if step.CacheDone? {
      var i := step.i;
      assert s.queued[i] in s.queued && QueuedOk(s, s.queued[i]);
      WorkWithout(s.queued, i);
      CompleteWork(s.(queued := Without(s.queued, i)), s.queued[i], step.out);
    } else {
      var i := step.i;
      assert s.inFlight[i] in Memory(s) && MemoryOk(s, s.inFlight[i]);
      WorkWithout(s.inFlight, i);
      CompleteWork(s.(inFlight := Without(s.inFlight, i)), s.inFlight[i], step.out);
      RetryWork(RequestComplete(s.(inFlight := Without(s.inFlight, i)), s.inFlight[i], step.out), step.retry);
    }
  }

  /** Completions only, and main memory never refuses while it is idle. */
  ghost predicate Drains(s: State, steps: seq<Step>)
    decreases |steps|
  {
    steps != [] ==>
      && Enabled(s, steps[0]) && !steps[0].Host? && RefusesOnlyWhenBusy(s, steps[0])
      && Drains(Apply(s, steps[0]), steps[1..])
  }

  /**
    Once the host stops, every run of completions is bounded by the work left; and when no
    completion is possible any more, every request has been answered and nothing is pending.
   */
  lemma {:induction false} EveryRequestIsAnswered(s: State, steps: seq<Step>)
    requires Inv(s) && PendingIsWatched(s) && Drains(s, steps)
    ensures |steps| <= WorkLeft(s) && Execute(s, steps).Some?
    ensures var s' := Execute(s, steps).value;
      s'.queued == [] && s'.inFlight == [] ==>
        s'.pending == [] && s'.fills == map[] && forall id | id in s.accepted :: id in s'.answered
    decreases |steps|
  {
    if steps == [] {
      if s.queued == [] && s.inFlight == [] { NothingLeft(s); }
    } else {
      var s1 := Apply(s, steps[0]);
      StepKeepsInv(s, steps[0]);
      StepKeepsWatch(s, steps[0]);
      CompletionMakesProgress(s, steps[0]);
      CompletionAcceptsNothing(s, steps[0]);
      EveryRequestIsAnswered(s1, steps[1..]);
    }
  }

  /** Were main memory to refuse a read while idle, nothing would ever retry it and it would stay unanswered. */
  lemma RefusalWhileIdleStrands()
    ensures var s := Execute(Initial(), [Host(true, 0), CacheDone(0, Outcome(false, None, false))]);
      && s.Some? && 0 in s.value.accepted && 0 !in s.value.answered
      && forall step :: Enabled(s.value, step) ==> step.Host?
  {
    var host, miss := Host(true, 0), CacheDone(0, Outcome(false, None, false));
    var s1 := Apply(Initial(), host);
    assert [host, miss][1..] == [miss] && [miss][1..] == [];
    assert Execute(s1, [miss]) == Execute(Apply(s1, miss), []);
    assert Apply(s1, miss).queued == [] && Apply(s1, miss).inFlight == [];
  }

  lemma NothingLeft(s: State)
    requires Inv(s) && PendingIsWatched(s) && s.queued == [] && s.inFlight == []
    ensures s.pending == [] && s.fills == map[] && forall id | id in s.accepted :: id in s.answered
  {
    assert Memory(s) == [];
    forall k ensures k !in s.fills { assert !Reading(Memory(s), k); }
    forall id | id in s.accepted ensures id in s.answered { assert !Waiting(s.queued, s.fills, id); }
  }

  lemma CompletionAcceptsNothing(s: State, step: Step)
    requires Enabled(s, step) && !step.Host?
    ensures Apply(s, step).accepted == s.accepted
  {}

  // ---------------------------------------------------------------- every line is fetched, filled and written back

  function One(b: bool): nat { if b then 1 else 0 }

  /** How many requests with a tag are for line `a`. */
  function Tagged(rs: seq<Req>, tag: Tag, a: nat): nat {
    if rs == [] then 0 else One(rs[0].tag == tag && rs[0].address == a) + Tagged(rs[1..], tag, a)
  }

  /**
    How often a line was `missed` by a read of the host, `fetched` from main memory, `filled` into the DRAM
    cache, the dirty victim (`evicted`) of a fill or of a write of the host, and `written` back.
   */
  datatype Traffic = Traffic(missed: nat, fetched: nat, filled: nat, evicted: nat, written: nat)
  {
    function Plus(t: Traffic): Traffic {
      Traffic(missed + t.missed, fetched + t.fetched, filled + t.filled, evicted + t.evicted, written + t.written)
    }
  }

  /** The traffic of line `a` in one step, by what completes and what the DRAM cache says of it. */
  function TrafficOf(s: State, step: Step, a: nat): Traffic
    requires Enabled(s, step)
  {
    match step
    case Host(_, _) => Traffic(0, 0, 0, 0, 0)
    case CacheDone(i, out) =>
      var r, dirty := s.queued[i], One(out.dirtyVictim == Some(a));
      if r.own && r.tag.Fill? then Traffic(0, 0, One(r.address == a), dirty, 0)
      else if !r.own && !r.isRead then Traffic(0, 0, 0, dirty, 0)
      else if !r.own && !out.hit then Traffic(One(r.address == a), 0, 0, 0, 0)
      else Traffic(0, 0, 0, 0, 0)
    case MemoryDone(i, _, _) =>
      var r := s.inFlight[i];
      Traffic(0, One(r.tag.MemRead? && r.address == a), 0, 0, One(r.tag.Evict? && r.address == a))
  }

  ghost function Total(s: State, steps: seq<Step>, a: nat): Traffic
    requires Execute(s, steps).Some?
    decreases |steps|
  {
    if steps == [] then Traffic(0, 0, 0, 0, 0)
    else TrafficOf(s, steps[0], a).Plus(Total(Apply(s, steps[0]), steps[1..], a))
  }

  /** From `s` to `s'`, the traffic `t` of line `a` has come through or is still on its way. */
  ghost predicate Balanced(s: State, s': State, t: Traffic, a: nat) {
    && Tagged(Memory(s'), MemRead, a) + t.fetched == Tagged(Memory(s), MemRead, a) + t.missed
    && Tagged(s'.queued, Fill, a) + t.filled == Tagged(s.queued, Fill, a) + t.fetched
    && Tagged(Memory(s'), Evict, a) + t.written == Tagged(Memory(s), Evict, a) + t.evicted
  }

  lemma {:induction false} TaggedAppend(x: seq<Req>, y: seq<Req>, tag: Tag, a: nat)
    ensures Tagged(x + y, tag, a) == Tagged(x, tag, a) + Tagged(y, tag, a)
  {
    if x == [] {
      assert x + y == y;
    } else {
      assert (x + y)[1..] == x[1..] + y;
      TaggedAppend(x[1..], y, tag, a);
    }
  }

  lemma TaggedInsert(x: seq<Req>, r: Req, y: seq<Req>, tag: Tag, a: nat)
    ensures Tagged(x + [r] + y, tag, a) == Tagged(x + y, tag, a) + One(r.tag == tag && r.address == a)
  {
    TaggedAppend(x + [r], y, tag, a);
    TaggedAppend(x, [r], tag, a);
    TaggedAppend(x, y, tag, a);
    assert [r][1..] == [];
  }

  lemma TaggedWithout(rs: seq<Req>, i: nat, tag: Tag, a: nat)
    requires i < |rs|
    ensures Tagged(rs, tag, a) == Tagged(Without(rs, i), tag, a) + One(rs[i].tag == tag && rs[i].address == a)
  {
    TaggedInsert(rs[..i], rs[i], rs[i + 1..], tag, a);
    assert rs == rs[..i] + [rs[i]] + rs[i + 1..];
  }

  lemma TaggedLast(rs: seq<Req>, r: Req, tag: Tag, a: nat)
    ensures Tagged(rs + [r], tag, a) == Tagged(rs, tag, a) + One(r.tag == tag && r.address == a)
  {
    TaggedInsert(rs, r, [], tag, a);
    assert rs + [r] + [] == rs + [r] && rs + [] == rs;
  }

  lemma ToMemoryTags(s: State, r: Req, issuable: bool, tag: Tag, a: nat)
    ensures Tagged(Memory(ToMemory(s, r, issuable)), tag, a)
      == Tagged(Memory(s), tag, a) + One(r.tag == tag && r.address == a)
    ensures ToMemory(s, r, issuable).queued == s.queued
  {
    if issuable {
      TaggedInsert(s.inFlight, r, s.pending, tag, a);
    } else {
      TaggedLast(Memory(s), r, tag, a);
      assert Memory(s) + [r] == s.inFlight + (s.pending + [r]);
    }
  }

  lemma WriteBackTags(s: State, out: Outcome, tag: Tag, a: nat)
    requires tag.MemRead? || tag.Evict?
    ensures WriteBack(s, out).queued == s.queued
    ensures Tagged(Memory(WriteBack(s, out)), tag, a)
      == Tagged(Memory(s), tag, a) + One(tag.Evict? && out.dirtyVictim == Some(a))
  {
    if out.dirtyVictim.Some? {
      var evict := Req(s.next, false, true, Evict, out.dirtyVictim.value);
      ToMemoryTags(s.(next := s.next + 1), evict, out.issuable, tag, a);
      SameMemory(s, s.(next := s.next + 1));
    }
  }

  lemma SameMemory(s: State, s': State)
    requires s'.inFlight == s.inFlight && s'.pending == s.pending
    ensures Memory(s') == Memory(s)
  {}

  /** What a request that completes in the DRAM cache sends to main memory. */
  lemma CacheDoneTags(s: State, r: Req, out: Outcome, tag: Tag, a: nat)
    requires (r.own ==> r.tag.Fill?) && (tag.MemRead? || tag.Evict?)
    ensures RequestComplete(s, r, out).queued == s.queued
    ensures Tagged(Memory(RequestComplete(s, r, out)), tag, a) == Tagged(Memory(s), tag, a)
      + One(tag.Evict? && (r.own || !r.isRead) && out.dirtyVictim == Some(a))
      + One(tag.MemRead? && !r.own && r.isRead && !out.hit && r.address == a)
  {
    hide Tagged, Memory, ToMemory, WriteBack;
    if r.own {
      WriteBackTags(s, out, tag, a);
    } else {
      var answered := Answer(s, r.id);
      SameMemory(s, answered);
      WriteBackTags(answered, out, tag, a);
      var s1 := s.(next := s.next + 1, fills := s.fills[s.next := r]);
      SameMemory(s, s1);
      ToMemoryTags(s1, r.(id := s.next, own := true, tag := MemRead), out.issuable, tag, a);
    }
  }

  lemma CacheDoneBalances(s: State, i: nat, out: Outcome, a: nat)
    requires Inv(s) && i < |s.queued|
    ensures Balanced(s, Apply(s, CacheDone(i, out)), TrafficOf(s, CacheDone(i, out), a), a)
  {
    var r, s1 := s.queued[i], s.(queued := Without(s.queued, i));
    assert r in s.queued && QueuedOk(s, r);
    hide Inv, Tagged, Memory, RequestComplete;
    TaggedWithout(s.queued, i, Fill, a);
    SameMemory(s, s1);
    CacheDoneTags(s1, r, out, MemRead, a);
    CacheDoneTags(s1, r, out, Evict, a);
  }

  /** What a request that completes in main memory leaves. */
  lemma MemoryDoneTags(s: State, r: Req, out: Outcome, a: nat)
    requires r.own && (r.tag.MemRead? || r.tag.Evict?)
    ensures Memory(RequestComplete(s, r, out)) == Memory(s)
    ensures Tagged(RequestComplete(s, r, out).queued, Fill, a)
      == Tagged(s.queued, Fill, a) + One(r.tag.MemRead? && r.address == a)
  {
    hide Tagged;
    TaggedLast(s.queued, r.(id := s.next, isRead := false, tag := Fill), Fill, a);
  }

  lemma RetrySends(s: State, issuable: bool)
    ensures Memory(Retry(s, issuable)) == Memory(s) && Retry(s, issuable).queued == s.queued
  {}

  lemma MemoryDoneBalances(s: State, i: nat, out: Outcome, retry: bool, a: nat)
    requires Inv(s) && i < |s.inFlight|
    ensures Balanced(s, Apply(s, MemoryDone(i, out, retry)), TrafficOf(s, MemoryDone(i, out, retry), a), a)
  {
    var r, s1 := s.inFlight[i], s.(inFlight := Without(s.inFlight, i));
    assert r in Memory(s) && MemoryOk(s, r);
    MemoryWithout(s, i);
    hide Inv, Tagged, Memory, RequestComplete, Retry;
    TaggedWithout(Memory(s), i, MemRead, a);
    TaggedWithout(Memory(s), i, Evict, a);
    MemoryDoneTags(s1, r, out, a);
    RetrySends(RequestComplete(s1, r, out), retry);
  }

  lemma StepBalances(s: State, step: Step, a: nat)
    requires Inv(s) && Enabled(s, step)
    ensures Balanced(s, Apply(s, step), TrafficOf(s, step, a), a)
  {
    hide Inv, Tagged;
    match step
    case Host(isRead, address) => TaggedLast(s.queued, Req(s.next, isRead, false, NoTag, address), Fill, a);
    case CacheDone(i, out) => CacheDoneBalances(s, i, out, a);
    case MemoryDone(i, out, retry) => MemoryDoneBalances(s, i, out, retry, a);
  }

  lemma BalancesAdd(s: State, s1: State, s2: State, t: Traffic, u: Traffic, a: nat)
    requires Balanced(s, s1, t, a) && Balanced(s1, s2, u, a)
    ensures Balanced(s, s2, t.Plus(u), a)
  {
    hide Tagged, Memory;
  }

  lemma {:induction false} RunBalances(s: State, steps: seq<Step>, a: nat)
    requires Inv(s) && Execute(s, steps).Some?
    ensures Balanced(s, Execute(s, steps).value, Total(s, steps, a), a)
    decreases |steps|
  {
    hide Inv, Apply, TrafficOf, Traffic.Plus;
    if steps != [] {
      hide Balanced;
      var s1 := Apply(s, steps[0]);
      StepKeepsInv(s, steps[0]);
      StepBalances(s, steps[0], a);
      RunBalances(s1, steps[1..], a);
      BalancesAdd(s, s1, Execute(s, steps).value, TrafficOf(s, steps[0], a), Total(s1, steps[1..], a), a);
    }
  }

  /**
    Over any interleaving and for every line: as often as a read missed it, it is being fetched or was
    fetched; as often as it was fetched, it is being filled or was filled; and as often as it was the dirty
    victim of a fill or of a write, it is being written back or was written back.
   */
  lemma EveryLineComesThrough(steps: seq<Step>, s: State, a: nat)
    requires Reached(steps, s)
    ensures var t := Total(Initial(), steps, a);
      && t.missed == t.fetched + Tagged(s.inFlight + s.pending, MemRead, a)
      && t.fetched == t.filled + Tagged(s.queued, Fill, a)
      && t.evicted == t.written + Tagged(s.inFlight + s.pending, Evict, a)
  {
    RunBalances(Initial(), steps, a);
  }
}
