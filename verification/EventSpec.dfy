/**
  The event queue of one clock domain: events grouped by cycle, dispatched in order of cycle and
  priority, with the clock skipping from event to event.
 */
module EventSpec {
  import opened Sequences

  /** The cycle of the next event when there is none: the largest 64-bit value. */
  const NEVER: nat := 0xFFFF_FFFF_FFFF_FFFF

  datatype Kind = Unknown | Cycle | Idle | Request | Response | Callback
  {
    /** Only these kinds call their recipient. */
    predicate Dispatched() { Cycle? || Response? || Callback? }
  }

  datatype Event = Event(id: nat, kind: Kind, priority: int)

  /** A call of a recipient: which event, at which cycle, how long after the previous events. */
  datatype Call = Call(event: Event, cycle: nat, elapsed: int)

  /** What a recipient does to the queue. The priority it inserts with need not be the stored one. */
  datatype Effect = Insert(event: Event, when: nat, priority: int) | Remove(event: Event, when: nat)

  /** All recipients together: what they do in answer to the last of the calls so far. */
  type Handler = seq<Call> -> seq<Effect>

  datatype Queue = Queue(events: map<nat, seq<Event>>, next: nat, last: nat, current: nat, calls: seq<Call>)

  function Initial(): Queue { Queue(map[], NEVER, 0, 0, []) }

  // ---------------------------------------------------------------- the least key

  lemma {:induction false} LeastExists(keys: set<nat>) returns (least: nat)
    requires keys != {}
    ensures least in keys && forall k | k in keys :: least <= k
  {
    var x :| x in keys;
    var rest := keys - {x};
    least := x;
    if rest != {} {
      var y := LeastExists(rest);
      least := if x < y then x else y;
    }
    forall k | k in keys ensures least <= k { assert k == x || k in rest; }
  }

  /** The first key of the map, or NEVER. */
  function First(events: map<nat, seq<Event>>): (first: nat)
    ensures if events == map[] then first == NEVER else first in events && forall k | k in events :: first <= k
  {
    if events == map[] then NEVER
    else
      ghost var least := FirstKey(events);
      var first :| first in events && forall k | k in events :: first <= k;
      first
  }

  ghost function FirstKey(events: map<nat, seq<Event>>): (least: nat)
    requires events != map[]
    ensures least in events && forall k | k in events :: least <= k
  {
    KeyExists(events);
    var least :| least in events && forall k | k in events :: least <= k;
    least
  }

  lemma KeyExists(events: map<nat, seq<Event>>)
    requires events != map[]
    ensures exists least :: least in events && forall k | k in events :: least <= k
  {
    assert events.Keys != {};
    var least := LeastExists(events.Keys);
    assert least in events && forall k | k in events :: least <= k;
  }

  // ---------------------------------------------------------------- insertion and removal

  /** `list` with `e` put before the first event whose stored priority is greater. */
  function InsertOrdered(list: seq<Event>, e: Event, priority: int): seq<Event> {
    if list == [] then [e]
    else if list[0].priority > priority then [e] + list
    else [list[0]] + InsertOrdered(list[1..], e, priority)
  }

  function InsertEvent(q: Queue, e: Event, when: nat, priority: int): Queue {
    var list := if when in q.events then InsertOrdered(q.events[when], e, priority) else [e];
    q.(next := if when < q.next then when else q.next, events := q.events[when := list])
  }

  function RemoveEvent(q: Queue, e: Event, when: nat): Queue {
    if when !in q.events then q
    else
      var list := Erase(q.events[when], e);
      var events :=
        if e !in q.events[when] then q.events
        else if list == [] then q.events - {when}
        else q.events[when := list];
      q.(events := events, next := First(events))
  }

  function Perform(q: Queue, e: Effect): Queue {
    match e
    case Insert(event, when, priority) => InsertEvent(q, event, when, priority)
    case Remove(event, when) => RemoveEvent(q, event, when)
  }

  function PerformAll(q: Queue, effects: seq<Effect>): Queue
    decreases |effects|
  {
    if effects == [] then q else PerformAll(Perform(q, effects[0]), effects[1..])
  }

  // ---------------------------------------------------------------- dispatch and time

  /** Calls the recipient of `e`. */
  function Dispatch(h: Handler, q: Queue, e: Event): Queue {
    if e.kind.Dispatched() then
      var calls := q.calls + [Call(e, q.next, q.next - q.last)];
      PerformAll(q.(calls := calls), h(calls))
    else
      q
  }

  function DispatchAll(h: Handler, q: Queue, list: seq<Event>): Queue
    decreases |list|
  {
    if list == [] then q else DispatchAll(h, Dispatch(h, q, list[0]), list[1..])
  }

  /** Dispatches the events of the next cycle. */
  function Process(h: Handler, q: Queue): Queue
    requires q.next in q.events
  {
    var done := DispatchAll(h, q, q.events[q.next]);
    var events := done.events - {q.next};
    done.(events := events, last := q.next, next := First(events))
  }

  /** One cycle, without skipping. */
  function Tick(h: Handler, q: Queue): Queue
    requires q.next == q.current ==> q.next in q.events
  {
    var q' := if q.next == q.current then Process(h, q) else q;
    q'.(current := q.current + 1)
  }

  /** Every recipient acts on strictly later cycles only. */
  ghost predicate Causal(h: Handler) {
    forall calls: seq<Call> | calls != [] :: LaterEffects(h(calls), calls[|calls| - 1].cycle)
  }

  ghost predicate LaterEffects(effects: seq<Effect>, cycle: nat) {
    forall i | 0 <= i < |effects| :: cycle < effects[i].when < NEVER
  }

  ghost predicate Inv(q: Queue) {
    && Keyed(q.events, q.current)
    && q.next == First(q.events)
    && q.last <= q.current
    && Timely(q.calls, q.last)
  }

  /** No list is empty, and every event is still to come. */
  ghost predicate Keyed(events: map<nat, seq<Event>>, current: nat) {
    forall k | k in events :: current <= k < NEVER && events[k] != []
  }

  /** Calls were made in order of cycle, none after `last`. */
  ghost predicate Timely(calls: seq<Call>, last: nat) {
    && (forall i | 0 <= i < |calls| :: calls[i].cycle <= last)
    && forall i, j | 0 <= i < j < |calls| :: calls[i].cycle <= calls[j].cycle
  }

  /** Advances the clock by `steps`, skipping from event to event. */
  ghost function Advance(h: Handler, q: Queue, steps: nat): Queue
    requires Causal(h) && Inv(q) && q.current + steps < NEVER
    decreases steps, if q.next == q.current then 1 else 0
  {
    if steps == 0 then q
    else if q.next > q.current + steps then q.(current := q.current + steps)
    else
      var at := q.(current := q.next);
      SkipKeepsInv(q, q.next);
      ProcessKeepsInv(h, at);
      Advance(h, Process(h, at), steps - (q.next - q.current))
  }

  ghost function Loop(h: Handler, q: Queue, steps: nat): Queue
    requires Causal(h) && Inv(q) && q.current + steps < NEVER
  {
    if steps == 0 && q.next == q.current then Process(h, q) else Advance(h, q, steps)
  }

  // ---------------------------------------------------------------- invariant

  /** `q'` differs from `q` in its calls and in events after the next cycle only. */
  ghost predicate SameCycle(q: Queue, q': Queue) {
    && Keyed(q'.events, q.current)
    && q'.next == q.next && q'.last == q.last && q'.current == q.current
    && q.next in q.events && q.next in q'.events && q'.events[q.next] == q.events[q.next]
    && (forall k | k in q'.events :: q.next <= k)
  }

  lemma InsertOrderedIsNotEmpty(list: seq<Event>, e: Event, priority: int)
    ensures InsertOrdered(list, e, priority) != []
  {}

  lemma FirstIs(events: map<nat, seq<Event>>, k: nat)
    requires k in events && forall j | j in events :: k <= j
    ensures First(events) == k
  {
    assert First(events) in events;
  }

  lemma PerformLater(q0: Queue, q: Queue, e: Effect)
    requires SameCycle(q0, q) && q.current <= q.next < e.when < NEVER
    ensures SameCycle(q0, Perform(q, e)) && Perform(q, e).calls == q.calls
  {
    if e.Insert? {
      if e.when in q.events { InsertOrderedIsNotEmpty(q.events[e.when], e.event, e.priority); }
    } else if e.when in q.events {
      FirstIs(Perform(q, e).events, q.next);
    }
  }

  lemma {:induction false} PerformAllLater(q0: Queue, q: Queue, effects: seq<Effect>)
    requires SameCycle(q0, q) && q.current <= q.next && LaterEffects(effects, q.next)
    ensures SameCycle(q0, PerformAll(q, effects)) && PerformAll(q, effects).calls == q.calls
    decreases |effects|
  {
    if effects != [] {
      PerformLater(q0, q, effects[0]);
      PerformAllLater(q0, Perform(q, effects[0]), effects[1..]);
    }
  }

  /** The call that dispatching `e` makes, if it makes one. */
  function CallFor(e: Event, cycle: nat, elapsed: int): seq<Call> {
    if e.kind.Dispatched() then [Call(e, cycle, elapsed)] else []
  }

  /** The calls that dispatching `list` adds. */
  function CallsFor(list: seq<Event>, cycle: nat, elapsed: int): seq<Call> {
    if list == [] then [] else CallFor(list[0], cycle, elapsed) + CallsFor(list[1..], cycle, elapsed)
  }

  lemma DispatchLater(h: Handler, q0: Queue, q: Queue, e: Event)
    requires Causal(h) && SameCycle(q0, q) && q.current <= q.next
    ensures SameCycle(q0, Dispatch(h, q, e))
    ensures Dispatch(h, q, e).calls == q.calls + CallFor(e, q.next, q.next - q.last)
  {
    if e.kind.Dispatched() {
      var calls := q.calls + [Call(e, q.next, q.next - q.last)];
      assert LaterEffects(h(calls), q.next);
      PerformAllLater(q0, q.(calls := calls), h(calls));
    }
  }

  lemma Associative(a: seq<Call>, b: seq<Call>, c: seq<Call>)
    ensures (a + b) + c == a + (b + c)
  {}

  /** Every event of the cycle is dispatched once, in list order, whatever the recipients do meanwhile. */
  lemma {:induction false} DispatchAllLater(h: Handler, q0: Queue, q: Queue, list: seq<Event>)
    requires Causal(h) && SameCycle(q0, q) && q.current <= q.next
    ensures SameCycle(q0, DispatchAll(h, q, list))
    ensures DispatchAll(h, q, list).calls == q.calls + CallsFor(list, q.next, q.next - q.last)
    decreases |list|
  {
    if list == [] {
      assert q.calls + [] == q.calls;
    } else {
      DispatchLater(h, q0, q, list[0]);
      var q1 := Dispatch(h, q, list[0]);
      DispatchAllLater(h, q0, q1, list[1..]);
      assert DispatchAll(h, q, list) == DispatchAll(h, q1, list[1..]);
      Associative(q.calls, CallFor(list[0], q.next, q.next - q.last), CallsFor(list[1..], q.next, q.next - q.last));
    }
  }

  lemma {:induction false} CallsForAreTimely(list: seq<Event>, cycle: nat, elapsed: int)
    ensures forall i | 0 <= i < |CallsFor(list, cycle, elapsed)| :: CallsFor(list, cycle, elapsed)[i].cycle == cycle
  {
    if list != [] { CallsForAreTimely(list[1..], cycle, elapsed); }
  }

  lemma TimelyExtends(calls: seq<Call>, last: nat, more: seq<Call>, cycle: nat)
    requires Timely(calls, last) && last <= cycle && forall i | 0 <= i < |more| :: more[i].cycle == cycle
    ensures Timely(calls + more, cycle)
  {}

  lemma CloseCycle(q0: Queue, q: Queue)
    requires SameCycle(q0, q) && q.next == q.current
    ensures var events := q.events - {q.next};
      Keyed(events, q.current) && q.next < First(events) <= NEVER
  {}

  /** The events of the cycle are dispatched in list order, and the next event is strictly later. */
  lemma ProcessKeepsInv(h: Handler, q: Queue)
    requires Causal(h) && Inv(q) && q.next == q.current && q.next in q.events
    ensures var q' := Process(h, q);
      && Inv(q') && q'.current == q.current && q'.last == q.next && q.next < q'.next <= NEVER
      && q'.calls == q.calls + CallsFor(q.events[q.next], q.next, q.next - q.last)
  {
    DispatchAllLater(h, q, q, q.events[q.next]);
    CallsForAreTimely(q.events[q.next], q.next, q.next - q.last);
    TimelyExtends(q.calls, q.last, CallsFor(q.events[q.next], q.next, q.next - q.last), q.next);
    CloseCycle(q, DispatchAll(h, q, q.events[q.next]));
  }

  lemma SkipKeepsInv(q: Queue, current: nat)
    requires Inv(q) && q.current <= current <= q.next && current < NEVER
    ensures Inv(q.(current := current)) && (q.next < NEVER ==> q.next in q.events)
  {}
}
