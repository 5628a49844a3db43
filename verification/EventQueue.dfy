/** The event queue as the source keeps it: a map of lists and three clocks, updated in place. */
module EventQueues {
  import opened EventSpec
  import opened Sequences
  import EventRuns

  class EventQueue {
    const handler: Handler
    var eventMap: map<nat, seq<Event>>
    var nextEventCycle: nat
    var lastEventCycle: nat
    var currentCycle: nat
    var calls: seq<Call>   // what the recipients were called with

    constructor (handler: Handler)
      ensures this.handler == handler && State() == Initial() && Inv(State())
    {
      this.handler := handler;
      eventMap, nextEventCycle, lastEventCycle, currentCycle, calls := map[], NEVER, 0, 0, [];
    }

    ghost function State(): Queue
      reads this
    {
      Queue(eventMap, nextEventCycle, lastEventCycle, currentCycle, calls)
    }

    method InsertEvent(event: Event, when: nat, priority: int)
      modifies this
      ensures State() == EventSpec.InsertEvent(old(State()), event, when, priority)
    {
      if when < nextEventCycle { nextEventCycle := when; }
      if when !in eventMap {
        eventMap := eventMap[when := [event]];
      } else {
        var list := eventMap[when];
        ghost var before := State();
        for i := 0 to |list|
          invariant State() == before
          invariant forall k | 0 <= k < i :: list[k].priority <= priority
        {
          if list[i].priority > priority {
            InsertOrderedAt(list, event, priority, i);
            eventMap := eventMap[when := list[..i] + [event] + list[i..]];
            return;
          }
        }
        InsertOrderedAt(list, event, priority, |list|);
        assert list + [event] == list[..|list|] + [event] + list[|list|..];
        eventMap := eventMap[when := list + [event]];
      }
    }

    /** A callback carries the priority it is inserted with. */
    method InsertCallback(id: nat, when: nat, priority: int)
      modifies this
      ensures State() == EventSpec.InsertEvent(old(State()), Event(id, Callback, priority), when, priority)
    {
      InsertEvent(Event(id, Callback, priority), when, priority);
    }

    method RemoveEvent(event: Event, when: nat) returns (found: bool)
      modifies this
      ensures found <==> when in old(eventMap) && event in old(eventMap)[when]
      ensures State() == EventSpec.RemoveEvent(old(State()), event, when)
    {
      if when !in eventMap { return false; }
      var list := eventMap[when];
      found := false;
      for i := 0 to |list|
        invariant State() == old(State()) && !found
        invariant event !in list[..i]
      {
        if list[i] == event {
          EraseAt(list, event, i);
          var rest := list[..i] + list[i + 1..];
          eventMap := if rest == [] then eventMap - {when} else eventMap[when := rest];
          found := true;
          break;
        }
      }
      nextEventCycle := First(eventMap);
    }

    method Perform(effects: seq<Effect>)
      modifies this
      ensures State() == PerformAll(old(State()), effects)
    {
      for i := 0 to |effects|
        invariant PerformAll(State(), effects[i..]) == PerformAll(old(State()), effects)
      {
        assert effects[i..][1..] == effects[i + 1..];
        match effects[i]
        case Insert(event, when, priority) => InsertEvent(event, when, priority);
        case Remove(event, when) => var found := RemoveEvent(event, when);
      }
    }

    /** Dispatches every event of the next cycle. */
    method Process()
      requires nextEventCycle in eventMap
      modifies this
      ensures State() == EventSpec.Process(handler, old(State()))
    {
      var list, cycle := eventMap[nextEventCycle], nextEventCycle;
      for i := 0 to |list|
        invariant DispatchAll(handler, State(), list[i..]) == DispatchAll(handler, old(State()), list)
      {
        assert list[i..][1..] == list[i + 1..];
        if list[i].kind.Dispatched() {
          calls := calls + [Call(list[i], nextEventCycle, nextEventCycle - lastEventCycle)];
          Perform(handler(calls));
        }
      }
      eventMap := eventMap - {cycle};
      lastEventCycle := cycle;
      nextEventCycle := First(eventMap);
    }

    method Tick()
      requires Causal(handler) && Inv(State()) && currentCycle + 1 < NEVER
      modifies this
      ensures old(nextEventCycle == currentCycle) ==> old(nextEventCycle in eventMap)
      ensures Inv(State()) && State() == EventSpec.Tick(handler, old(State()))
    {
      EventRuns.TickKeepsInv(handler, State());
      if nextEventCycle == currentCycle {
        ProcessKeepsInv(handler, State());
        Process();
      }
      currentCycle := currentCycle + 1;
    }

    method Loop(steps: nat)
      requires Causal(handler) && Inv(State()) && currentCycle + steps < NEVER
      modifies this
      ensures Inv(State()) && State() == EventSpec.Loop(handler, old(State()), steps)
    {
      EventRuns.LoopKeepsInv(handler, State(), steps);
      SkipKeepsInv(State(), currentCycle);
      if steps == 0 && nextEventCycle == currentCycle {
        Process();
      } else {
        RunFor(steps);
      }
    }

    method RunFor(steps: nat)
      requires Causal(handler) && Inv(State()) && currentCycle + steps < NEVER
      modifies this
      ensures State() == Advance(handler, old(State()), steps)
    {
      var stepCycles: nat := steps;
      while stepCycles > 0
        invariant Inv(State()) && currentCycle + stepCycles < NEVER
        invariant Advance(handler, State(), stepCycles) == Advance(handler, old(State()), steps)
        decreases stepCycles, if nextEventCycle == currentCycle then 1 else 0
      {
        if nextEventCycle > currentCycle + stepCycles {
          currentCycle := currentCycle + stepCycles;
          return;
        }
        stepCycles := ToNextEvent(stepCycles);
      }
    }

    /** Moves the clock to the next event and dispatches it; the cycles that are left. */
    method ToNextEvent(stepCycles: nat) returns (rest: nat)
      requires Causal(handler) && Inv(State()) && currentCycle + stepCycles < NEVER
      requires 0 < stepCycles && nextEventCycle <= currentCycle + stepCycles
      modifies this
      ensures rest == stepCycles - (old(nextEventCycle) - old(currentCycle))
      ensures Inv(State()) && currentCycle == old(nextEventCycle) < nextEventCycle
      ensures Advance(handler, State(), rest) == Advance(handler, old(State()), stepCycles)
    {
      EventRuns.AdvanceProcesses(handler, State(), stepCycles);
      var currentSteps := nextEventCycle - currentCycle;
      currentCycle := currentCycle + currentSteps;
      rest := stepCycles - currentSteps;
      Process();
    }
  }

  lemma {:induction false} InsertOrderedAt(list: seq<Event>, e: Event, priority: int, i: nat)
    requires i <= |list| && (forall k | 0 <= k < i :: list[k].priority <= priority)
    requires i < |list| ==> list[i].priority > priority
    ensures InsertOrdered(list, e, priority) == list[..i] + [e] + list[i..]
  {
    if i > 0 {
      InsertOrderedAt(list[1..], e, priority, i - 1);
      assert list[..i] == [list[0]] + list[1..][..i - 1] && list[i..] == list[1..][i - 1..];
    }
  }
}
