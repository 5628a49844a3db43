/** What whole runs of the event queue guarantee: skipping is exact, and priorities are kept. */
module EventRuns {
  import opened EventSpec
  import Sequences

  // ---------------------------------------------------------------- invariant over runs

  lemma {:induction false} AdvanceKeepsInv(h: Handler, q: Queue, steps: nat)
    requires Causal(h) && Inv(q) && q.current + steps < NEVER
    ensures var q' := Advance(h, q, steps);
      && Inv(q') && q'.current == q.current + steps && q.next <= q'.next && q.calls <= q'.calls
      && (steps > 0 ==> q'.current < q'.next)
      && (q.next <= q.current + steps && steps > 0 ==> q.next < q'.next)
    decreases steps, if q.next == q.current then 1 else 0
  {
    hide Inv, Process, Causal;
    if steps != 0 {
      if q.next > q.current + steps {
        SkipKeepsInv(q, q.current + steps);
      } else {
        AdvanceProcesses(h, q, steps);
        AdvanceKeepsInv(h, Process(h, q.(current := q.next)), steps - (q.next - q.current));
      }
    }
  }

  /** Loop keeps the invariant, advances exactly, never loses a call, and leaves only later events. */
  lemma LoopKeepsInv(h: Handler, q: Queue, steps: nat)
    requires Causal(h) && Inv(q) && q.current + steps < NEVER
    ensures var q' := Loop(h, q, steps);
      && Inv(q') && q'.current == q.current + steps && q'.current < q'.next
      && q.next <= q'.next && q.calls <= q'.calls
      && (q.next <= q.current + steps ==> q.next < q'.next)
  {
    if steps == 0 && q.next == q.current {
      ProcessKeepsInv(h, q);
    } else {
      AdvanceKeepsInv(h, q, steps);
    }
  }

  lemma TickKeepsInv(h: Handler, q: Queue)
    requires Causal(h) && Inv(q) && q.current + 1 < NEVER
    ensures q.next == q.current ==> q.next in q.events
    ensures var q' := Tick(h, q); Inv(q') && q'.current == q.current + 1
  {
    SkipKeepsInv(q, q.current);
    if q.next == q.current {
      ProcessKeepsInv(h, q);
      SkipKeepsInv(Process(h, q), q.current + 1);
    } else {
      SkipKeepsInv(q, q.current + 1);
    }
  }

  // ---------------------------------------------------------------- skipping is exact

  /** Skipping to a cycle before the next event and then on is skipping there at once. */
  lemma SkipSplits(h: Handler, q: Queue, a: nat, b: nat)
    requires Causal(h) && Inv(q) && 0 < b && q.current + a + b < NEVER && q.current + a < q.next
    ensures Inv(q.(current := q.current + a))
    ensures Advance(h, q.(current := q.current + a), b) == Advance(h, q, a + b)
  {
    SkipKeepsInv(q, q.current + a);
    var q1 := q.(current := q.current + a);
    if q.next <= q.current + a + b {
      assert q1.(current := q1.next) == q.(current := q.next);
    }
  }

  /** What Advance does when an event is due. */
  lemma AdvanceProcesses(h: Handler, q: Queue, steps: nat)
    requires Causal(h) && Inv(q) && 0 < steps && q.current + steps < NEVER && q.next <= q.current + steps
    ensures var at := q.(current := q.next);
      && Inv(at) && at.next in at.events && Inv(Process(h, at))
      && Process(h, at).current == q.next < Process(h, at).next && q.calls <= Process(h, at).calls
      && q.current <= q.next
      && Advance(h, q, steps) == Advance(h, Process(h, at), steps - (q.next - q.current))
  {
    hide Process, Causal;
    SkipKeepsInv(q, q.next);
    ProcessKeepsInv(h, q.(current := q.next));
  }

  lemma {:induction false} AdvanceSplits(h: Handler, q: Queue, a: nat, b: nat)
    requires Causal(h) && Inv(q) && 0 < b && q.current + a + b < NEVER
    ensures Inv(Advance(h, q, a)) && Advance(h, q, a).current == q.current + a
    ensures Advance(h, Advance(h, q, a), b) == Advance(h, q, a + b)
    decreases a, if q.next == q.current then 1 else 0
  {
    hide Process, Causal, Inv;
    AdvanceKeepsInv(h, q, a);
    if a == 0 {
    } else if q.next > q.current + a {
      SkipSplits(h, q, a, b);
    } else {
      AdvanceProcesses(h, q, a);
      AdvanceProcesses(h, q, a + b);
      AdvanceSplits(h, Process(h, q.(current := q.next)), a - (q.next - q.current), b);
    }
  }

  /** Loop(a) and then Loop(b) is Loop(a + b): the same calls in the same order, the same final queue. */
  lemma LoopSplits(h: Handler, q: Queue, a: nat, b: nat)
    requires Causal(h) && Inv(q) && q.current + a + b < NEVER
    ensures Inv(Loop(h, q, a)) && Loop(h, q, a).current == q.current + a
    ensures Loop(h, Loop(h, q, a), b) == Loop(h, q, a + b)
  {
    hide Advance, Process, Inv, Causal;
    LoopKeepsInv(h, q, a);
    AdvanceNowhere(h, Loop(h, q, a));
    AdvanceNowhere(h, q);
    if b != 0 && a > 0 {
      AdvanceSplits(h, q, a, b);
    } else if b != 0 && q.next == q.current {
      // A zero loop dispatches what is due now; a longer loop begins with just that.
      AdvanceProcesses(h, q, b);
      assert q.(current := q.next) == q;
    }
  }

  lemma AdvanceNowhere(h: Handler, q: Queue)
    requires Causal(h) && Inv(q) && q.current < NEVER
    ensures Advance(h, q, 0) == q
  {}

  /** `n` calls of Loop() without an argument. */
  ghost function Ticks(h: Handler, q: Queue, n: nat): Queue
    requires Causal(h) && Inv(q) && q.current + n < NEVER
    decreases n
  {
    if n == 0 then q
    else
      TickKeepsInv(h, q);
      Ticks(h, Tick(h, q), n - 1)
  }

  lemma {:induction false} TicksKeepInv(h: Handler, q: Queue, n: nat)
    requires Causal(h) && Inv(q) && q.current + n < NEVER
    ensures Inv(Ticks(h, q, n)) && Ticks(h, q, n).current == q.current + n
    decreases n
  {
    if n != 0 {
      TickKeepsInv(h, q);
      TicksKeepInv(h, Tick(h, q), n - 1);
    }
  }

  /** One tick, and then the events of the cycle it arrives at, is Loop(1). */
  lemma TickIsLoop(h: Handler, q: Queue)
    requires Causal(h) && Inv(q) && q.current + 1 < NEVER
    ensures q.next == q.current ==> q.next in q.events
    ensures Inv(Tick(h, q)) && Loop(h, Tick(h, q), 0) == Loop(h, q, 1)
  {
    TickKeepsInv(h, q);
    var q0, q1 := if q.next == q.current then Process(h, q) else q, Tick(h, q);
    if q.next == q.current {
      AdvanceProcesses(h, q, 1);
      assert q.(current := q.next) == q;
    }
    assert Advance(h, q, 1) == Advance(h, q0, 1);
    if q0.next == q.current + 1 {
      AdvanceProcesses(h, q0, 1);
      assert q0.(current := q0.next) == q1;
      assert Advance(h, Process(h, q1), 0) == Process(h, q1);
    } else {
      assert Advance(h, q0, 1) == q1 && Advance(h, q1, 0) == q1;
    }
  }

  /**
    Skipping refines ticking. `n` single ticks make the same calls as Loop(n) and end in the same
    queue, up to the events of the final cycle, which a zero loop dispatches.
   */
  lemma {:induction false} TicksAreLoop(h: Handler, q: Queue, n: nat)
    requires Causal(h) && Inv(q) && q.current + n < NEVER
    ensures Inv(Ticks(h, q, n)) && Ticks(h, q, n).current == q.current + n
    ensures Loop(h, Ticks(h, q, n), 0) == Loop(h, q, n)
    decreases n
  {
    TicksKeepInv(h, q, n);
    if n != 0 {
      TickKeepsInv(h, q);
      var q1 := Tick(h, q);
      TicksAreLoop(h, q1, n - 1);
      TickIsLoop(h, q);
      LoopSplits(h, q1, 0, n - 1);
      LoopSplits(h, q, 1, n - 1);
    }
  }

  // ---------------------------------------------------------------- what a cycle delivers and leaves

  /** The events of a cycle whose recipients are called: cycle events, responses and callbacks. */
  function Delivered(list: seq<Event>): seq<Event> {
    if list == [] then []
    else
      var kind := list[0].kind;
      (if kind == Kind.Cycle || kind == Kind.Response || kind == Kind.Callback then [list[0]] else [])
      + Delivered(list[1..])
  }

  lemma {:induction false} CallsAreDelivered(list: seq<Event>, cycle: nat, elapsed: int)
    ensures |CallsFor(list, cycle, elapsed)| == |Delivered(list)|
    ensures forall i | 0 <= i < |Delivered(list)| ::
      CallsFor(list, cycle, elapsed)[i] == Call(Delivered(list)[i], cycle, elapsed)
  {
    if list != [] { CallsAreDelivered(list[1..], cycle, elapsed); }
  }

  /** What the recipients of the calls `made` do, one after the other; `calls` are those before. */
  function EffectsOf(h: Handler, calls: seq<Call>, made: seq<Call>): seq<Effect>
    decreases |made|
  {
    if made == [] then [] else h(calls + [made[0]]) + EffectsOf(h, calls + [made[0]], made[1..])
  }

  lemma {:induction false} PerformAppend(q: Queue, a: seq<Effect>, b: seq<Effect>)
    ensures PerformAll(q, a + b) == PerformAll(PerformAll(q, a), b)
    decreases |a|
  {
    if a == [] {
      assert a + b == b;
    } else {
      assert (a + b)[1..] == a[1..] + b;
      PerformAppend(Perform(q, a[0]), a[1..], b);
    }
  }

  lemma {:induction false} PerformIgnoresCalls(q: Queue, calls: seq<Call>, a: seq<Effect>)
    ensures PerformAll(q.(calls := calls), a) == PerformAll(q, a).(calls := calls)
    decreases |a|
  {
    if a != [] {
      assert Perform(q.(calls := calls), a[0]) == Perform(q, a[0]).(calls := calls);
      PerformIgnoresCalls(Perform(q, a[0]), calls, a[1..]);
    }
  }

  lemma {:induction false} DispatchPerforms(h: Handler, q0: Queue, q: Queue, list: seq<Event>)
    requires Causal(h) && SameCycle(q0, q) && q.current <= q.next
    ensures DispatchAll(h, q, list).events
      == PerformAll(q, EffectsOf(h, q.calls, CallsFor(list, q.next, q.next - q.last))).events
    decreases |list|
  {
    hide *;
    if list == [] {
      NothingIsDispatched(h, q);
    } else {
      var q1 := Dispatch(h, q, list[0]);
      DispatchLater(h, q0, q, list[0]);
      SameClocks(q0, q);
      SameClocks(q0, q1);
      DispatchPerforms(h, q0, q1, list[1..]);
      FirstIsDispatched(h, q, list);
      OneDispatchPerforms(h, q, q1, list[0], CallsFor(list[1..], q.next, q.next - q.last));
    }
  }

  lemma NothingIsDispatched(h: Handler, q: Queue)
    ensures DispatchAll(h, q, []) == PerformAll(q, EffectsOf(h, q.calls, CallsFor([], q.next, q.next - q.last))) == q
  {}

  lemma FirstIsDispatched(h: Handler, q: Queue, list: seq<Event>)
    requires list != []
    ensures DispatchAll(h, q, list) == DispatchAll(h, Dispatch(h, q, list[0]), list[1..])
    ensures forall n, m :: CallsFor(list, n, m) == CallFor(list[0], n, m) + CallsFor(list[1..], n, m)
  {}

  lemma SameClocks(q0: Queue, q: Queue)
    requires SameCycle(q0, q)
    ensures q.next == q0.next && q.last == q0.last && q.current == q0.current
  {}

  lemma OneDispatchPerforms(h: Handler, q: Queue, q1: Queue, e: Event, rest: seq<Call>)
    requires q1 == Dispatch(h, q, e) && q1.calls == q.calls + CallFor(e, q.next, q.next - q.last)
    ensures PerformAll(q, EffectsOf(h, q.calls, CallFor(e, q.next, q.next - q.last) + rest)).events
      == PerformAll(q1, EffectsOf(h, q1.calls, rest)).events
  {
    hide *;
    if e.kind.Dispatched() {
      CallIsMade(h, q, e);
      FirstCallPerforms(h, q, Call(e, q.next, q.next - q.last), rest);
    } else {
      NoCallIsMade(h, q, e, rest);
    }
  }

  lemma CallIsMade(h: Handler, q: Queue, e: Event)
    requires e.kind.Dispatched()
    ensures CallFor(e, q.next, q.next - q.last) == [Call(e, q.next, q.next - q.last)]
    ensures var calls := q.calls + [Call(e, q.next, q.next - q.last)];
      Dispatch(h, q, e) == PerformAll(q.(calls := calls), h(calls))
  {}

  lemma NoCallIsMade(h: Handler, q: Queue, e: Event, rest: seq<Call>)
    requires !e.kind.Dispatched()
    ensures CallFor(e, q.next, q.next - q.last) + rest == rest && Dispatch(h, q, e) == q
  {}

  lemma FirstCallPerforms(h: Handler, q: Queue, call: Call, rest: seq<Call>)
    ensures var calls := q.calls + [call];
      PerformAll(q, EffectsOf(h, q.calls, [call] + rest)).events
        == PerformAll(PerformAll(q.(calls := calls), h(calls)), EffectsOf(h, calls, rest)).events
  {
    hide PerformAll;
    var calls := q.calls + [call];
    assert ([call] + rest)[1..] == rest;
    PerformAppend(q, h(calls), EffectsOf(h, calls, rest));
    PerformIgnoresCalls(q, calls, h(calls));
    PerformIgnoresCalls(PerformAll(q, h(calls)), calls, EffectsOf(h, calls, rest));
  }

  lemma ProcessLeaves(h: Handler, q: Queue)
    requires q.next in q.events
    ensures Process(h, q).events == DispatchAll(h, q, q.events[q.next]).events - {q.next}
  {}

  /**
    A cycle calls the recipients of exactly its cycle events, responses and callbacks, each once, in list
    order, with the cycles since the previous events; the events it leaves are those that were there,
    without its own, and changed only as the recipients say, one after the other.
   */
  lemma ProcessDelivers(h: Handler, q: Queue)
    requires Causal(h) && Inv(q) && q.next == q.current && q.next in q.events
    ensures q.calls <= Process(h, q).calls
    ensures var made, list := Process(h, q).calls[|q.calls|..], Delivered(q.events[q.next]);
      && |made| == |list|
      && (forall i | 0 <= i < |list| :: made[i] == Call(list[i], q.next, q.next - q.last))
      && Process(h, q).events == PerformAll(q, EffectsOf(h, q.calls, made)).events - {q.next}
  {
    hide *;
    SameCycleAtFirst(q);
    ProcessKeepsInv(h, q);
    CallsAreDelivered(q.events[q.next], q.next, q.next - q.last);
    DispatchPerforms(h, q, q, q.events[q.next]);
    ProcessLeaves(h, q);
    AddedCalls(q.calls, CallsFor(q.events[q.next], q.next, q.next - q.last));
  }

  lemma SameCycleAtFirst(q: Queue)
    requires Inv(q) && q.next in q.events
    ensures SameCycle(q, q)
  {}

  lemma AddedCalls(calls: seq<Call>, more: seq<Call>)
    ensures calls <= calls + more && (calls + more)[|calls|..] == more
  {}

  /**
    An event that is inserted goes behind all events of its cycle of at most the priority it is inserted
    with; every other cycle stays as it is.
   */
  lemma InsertEventPlaces(q: Queue, e: Event, when: nat, priority: int) returns (at: nat)
    ensures var q', before := InsertEvent(q, e, when, priority), if when in q.events then q.events[when] else [];
      && at <= |before| && q'.events == q.events[when := before[..at] + [e] + before[at..]]
      && (forall k | 0 <= k < at :: before[k].priority <= priority)
      && (at < |before| ==> priority < before[at].priority)
      && q' == q.(events := q'.events, next := q'.next)
  {
    var before := if when in q.events then q.events[when] else [];
    at := InsertOrderedAdds(before, e, priority);
  }

  /** Inserting an event that is still to come, and removing any, keep the next cycle the least one with events. */
  lemma ChangesKeepInv(q: Queue, e: Event, when: nat, priority: int)
    requires Inv(q)
    ensures q.current <= when < NEVER ==> Inv(InsertEvent(q, e, when, priority))
    ensures Inv(RemoveEvent(q, e, when))
  {
    if q.current <= when < NEVER {
      var q' := InsertEvent(q, e, when, priority);
      if when in q.events { InsertOrderedIsNotEmpty(q.events[when], e, priority); }
      FirstIs(q'.events, if when < q.next then when else q.next);
    }
  }

  /** The first occurrence of an event goes; every other event stays, and no cycle without events is kept. */
  lemma RemoveEventTakes(q: Queue, e: Event, when: nat, at: nat)
    requires when in q.events && at < |q.events[when]| && q.events[when][at] == e && e !in q.events[when][..at]
    ensures var q', list := RemoveEvent(q, e, when), q.events[when][..at] + q.events[when][at + 1..];
      && q'.events == (if list == [] then q.events - {when} else q.events[when := list])
      && q' == q.(events := q'.events, next := q'.next)
  {
    Sequences.EraseAt(q.events[when], e, at);
  }

  /** Removing what is not there leaves the events alone. */
  lemma RemoveEventMisses(q: Queue, e: Event, when: nat)
    requires when !in q.events || e !in q.events[when]
    ensures RemoveEvent(q, e, when).events == q.events
  {}

  // ---------------------------------------------------------------- priorities

  /** An event with the priority it is inserted with. */
  datatype Insertion = Insertion(event: Event, priority: int)

  function InsertAll(list: seq<Event>, inserts: seq<Insertion>): seq<Event>
    decreases |inserts|
  {
    if inserts == [] then list else InsertAll(InsertOrdered(list, inserts[0].event, inserts[0].priority), inserts[1..])
  }

  predicate Sorted(list: seq<Event>) { forall i, j | 0 <= i < j < |list| :: list[i].priority <= list[j].priority }

  /** Insertion adds the event once, and after every event it must not overtake. */
  lemma {:induction false} InsertOrderedAdds(list: seq<Event>, e: Event, priority: int) returns (at: nat)
    ensures at <= |list| && InsertOrdered(list, e, priority) == list[..at] + [e] + list[at..]
    ensures forall k | 0 <= k < at :: list[k].priority <= priority
    ensures at < |list| ==> priority < list[at].priority
  {
    if list == [] || list[0].priority > priority {
      at := 0;
    } else {
      var rest := InsertOrderedAdds(list[1..], e, priority);
      at := rest + 1;
      assert list[..at] == [list[0]] + list[1..][..rest];
      assert list[at..] == list[1..][rest..];
    }
  }

  /** A list stays sorted by insertion exactly when the event's stored priority fits where it was inserted. */
  lemma SortedStaysSortedIff(list: seq<Event>, e: Event, priority: int)
    requires Sorted(list)
    ensures e.priority == priority ==> Sorted(InsertOrdered(list, e, priority))
    ensures Sorted(InsertOrdered(list, e, priority)) <==>
      forall k | 0 <= k < |list| ::
        if list[k].priority <= priority then list[k].priority <= e.priority else e.priority <= list[k].priority
  {
    var at := InsertOrderedAdds(list, e, priority);
    var list' := InsertOrdered(list, e, priority);
    assert list'[at] == e;
    if Sorted(list') {
      forall k | 0 <= k < |list|
        ensures if list[k].priority <= priority then list[k].priority <= e.priority
          else e.priority <= list[k].priority {
        if k < at { assert list'[k] == list[k]; } else { assert list'[k + 1] == list[k]; }
      }
    }
  }

  /**
    An event inserted with priority 30 through InsertEvent keeps its stored priority of 0, so a
    callback of priority 10 does not overtake it.
   */
  lemma UnstoredPriorityBreaksOrder()
    ensures var e, cb := Event(0, Cycle, 0), Event(1, Callback, 10);
      InsertAll([], [Insertion(e, 30), Insertion(cb, 10)]) == [e, cb]
  {
    var e, cb := Event(0, Cycle, 0), Event(1, Callback, 10);
    assert InsertOrdered([], e, 30) == [e];
    assert InsertOrdered([e], cb, 10) == [e, cb] by { assert [e][1..] == []; }
    assert [Insertion(e, 30), Insertion(cb, 10)][1..] == [Insertion(cb, 10)];
    assert InsertAll([e, cb], []) == [e, cb];
    assert InsertAll([e], [Insertion(cb, 10)]) == InsertAll([e, cb], [Insertion(cb, 10)][1..]);
  }

  /** Every event of stored priority at most `top` comes before all others. */
  predicate UrgentFirst(list: seq<Event>, top: int) {
    forall i, j | 0 <= i < j < |list| && list[j].priority <= top :: list[i].priority <= top
  }

  /** Urgent events are inserted with their stored priority; others are stored and inserted above `top`. */
  predicate Honest(x: Insertion, top: int) {
    if x.event.priority <= top then x.priority == x.event.priority else top < x.priority
  }

  lemma InsertKeepsUrgentFirst(list: seq<Event>, x: Insertion, top: int)
    requires UrgentFirst(list, top) && Honest(x, top)
    ensures UrgentFirst(InsertOrdered(list, x.event, x.priority), top)
  {
    var at := InsertOrderedAdds(list, x.event, x.priority);
    var list' := InsertOrdered(list, x.event, x.priority);
    forall i, j | 0 <= i < j < |list'| && list'[j].priority <= top ensures list'[i].priority <= top {
      assert list'[i] == if i < at then list[i] else if i == at then x.event else list[i - 1];
      assert list'[j] == if j < at then list[j] else if j == at then x.event else list[j - 1];
    }
  }

  /**
    The cleanup callback (priority -10) of a cycle runs before everything else in that cycle,
    whatever was inserted for it and in whatever order, although most events are inserted with
    a priority that is not the stored one.
   */
  lemma {:induction false} UrgentRunFirst(list: seq<Event>, inserts: seq<Insertion>, top: int)
    requires UrgentFirst(list, top) && forall i | 0 <= i < |inserts| :: Honest(inserts[i], top)
    ensures UrgentFirst(InsertAll(list, inserts), top)
    decreases |inserts|
  {
    if inserts != [] {
      InsertKeepsUrgentFirst(list, inserts[0], top);
      UrgentRunFirst(InsertOrdered(list, inserts[0].event, inserts[0].priority), inserts[1..], top);
    }
  }

  // ---------------------------------------------------------------- the events of the memory controller

  predicate IsCallback(e: Event, priority: int) { e.kind.Callback? && e.priority == priority }

  predicate IsCleanup(e: Event) { IsCallback(e, -10) }
  predicate IsPulse(e: Event) { IsCallback(e, 20) }
  predicate IsWake(e: Event) { IsCallback(e, 40) }

  /** Cycle events and the responses of subarrays are stored with priority 0. */
  predicate IsCycle(e: Event) { e.kind.Cycle? && e.priority == 0 }
  predicate IsResponse(e: Event) { e.kind.Response? && e.priority == 0 }

  /** The insertions that the controller and its subarrays make: cycle events with priority 30. */
  predicate OfController(x: Insertion) {
    || ((IsCleanup(x.event) || IsPulse(x.event) || IsWake(x.event) || IsResponse(x.event))
        && x.priority == x.event.priority)
    || (IsCycle(x.event) && x.priority == 30)
  }

  /** `a` is to run before `b`: cleanup first, responses before pulses, pulses before cycle events, wake-ups last. */
  predicate Precedes(a: Event, b: Event) {
    || (IsCleanup(a) && !IsCleanup(b))
    || (IsResponse(a) && (IsPulse(b) || IsWake(b)))
    || (IsPulse(a) && (IsCycle(b) || IsWake(b)))
    || (IsCycle(a) && IsWake(b))
  }

  predicate InOrder(list: seq<Event>) {
    && (forall i | 0 <= i < |list| ::
          IsCleanup(list[i]) || IsPulse(list[i]) || IsWake(list[i]) || IsCycle(list[i]) || IsResponse(list[i]))
    && forall i, j | 0 <= i < j < |list| :: !Precedes(list[j], list[i])
  }

  predicate NoCycleIn(list: seq<Event>) { forall i | 0 <= i < |list| :: !IsCycle(list[i]) }

  /** An event is inserted behind all that are to run before it, and before all that it is to precede. */
  lemma InsertedInPlace(list: seq<Event>, x: Insertion, at: nat)
    requires InOrder(list) && OfController(x) && at <= |list| && (IsPulse(x.event) ==> NoCycleIn(list))
    requires forall k | 0 <= k < at :: list[k].priority <= x.priority
    requires at < |list| ==> x.priority < list[at].priority
    ensures forall k | 0 <= k < at :: !Precedes(x.event, list[k])
    ensures forall k | at <= k < |list| :: !Precedes(list[k], x.event)
  {
    forall k | at <= k < |list| ensures !Precedes(list[k], x.event) {
      assert k > at ==> !Precedes(list[k], list[at]);
    }
  }

  lemma InsertKeepsInOrder(list: seq<Event>, x: Insertion)
    requires InOrder(list) && OfController(x) && (IsPulse(x.event) ==> NoCycleIn(list))
    ensures InOrder(InsertOrdered(list, x.event, x.priority))
    ensures NoCycleIn(list) && !IsCycle(x.event) ==> NoCycleIn(InsertOrdered(list, x.event, x.priority))
  {
    var at := InsertOrderedAdds(list, x.event, x.priority);
    InsertedInPlace(list, x, at);
    PlacedKeepsInOrder(list, x.event, at);
  }

  lemma PlacedKeepsInOrder(list: seq<Event>, e: Event, at: nat)
    requires InOrder(list) && at <= |list|
    requires IsCleanup(e) || IsPulse(e) || IsWake(e) || IsCycle(e) || IsResponse(e)
    requires forall k | 0 <= k < at :: !Precedes(e, list[k])
    requires forall k | at <= k < |list| :: !Precedes(list[k], e)
    ensures InOrder(list[..at] + [e] + list[at..])
    ensures NoCycleIn(list) && !IsCycle(e) ==> NoCycleIn(list[..at] + [e] + list[at..])
  {
    hide Precedes, IsCleanup, IsPulse, IsWake, IsCycle, IsResponse;
    var list' := list[..at] + [e] + list[at..];
    assert forall i | 0 <= i < |list'| :: list'[i] == if i < at then list[i] else if i == at then e else list[i - 1];
    forall i, j | 0 <= i < j < |list'| ensures !Precedes(list'[j], list'[i]) {
      if i != at && j != at {
        assert !Precedes(list[if j < at then j else j - 1], list[if i < at then i else i - 1]);
      }
    }
  }

  /**
    The order of a cycle. Pulses are inserted a whole interval ahead, and so before the cycle events,
    which are inserted at most one cycle ahead. However the other events of the cycle are inserted
    in between, cleanup runs first, responses run before pulses, pulses before cycle events, and
    wake-ups last.
   */
  lemma {:induction false} ControllerOrder(list: seq<Event>, inserts: seq<Insertion>)
    requires InOrder(list) && forall i | 0 <= i < |inserts| :: OfController(inserts[i])
    requires forall i, j | 0 <= i < j < |inserts| && IsCycle(inserts[i].event) :: !IsPulse(inserts[j].event)
    requires NoCycleIn(list) || forall j | 0 <= j < |inserts| :: !IsPulse(inserts[j].event)
    ensures InOrder(InsertAll(list, inserts))
    decreases |inserts|
  {
    hide InOrder;
    if inserts != [] {
      var x := inserts[0];
      InsertKeepsInOrder(list, x);
      ControllerOrder(InsertOrdered(list, x.event, x.priority), inserts[1..]);
    }
  }
}
