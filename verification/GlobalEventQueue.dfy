/** The global event queue: several event queues, each with its frequency, driven in place. */
module GlobalEventQueues {
  import opened Commands
  import opened EventSpec
  import opened EventQueues
  import opened GlobalSpec

  class GlobalEventQueue {
    const frequency: real
    var queues: seq<EventQueue>
    var frequencies: seq<real>
    var currentCycle: nat

    constructor (frequency: real)
      requires 0.0 < frequency
      ensures Valid() && State() == Global([], 0) && this.frequency == frequency
    {
      this.frequency, queues, frequencies, currentCycle := frequency, [], [], 0;
    }

    ghost predicate Valid()
      reads this
    {
      && |queues| == |frequencies|
      && (forall i | 0 <= i < |queues| :: 0.0 < frequencies[i] <= frequency)
      && forall i, j | 0 <= i < j < |queues| :: queues[i] != queues[j]
    }

    ghost function DomainAt(i: nat): Domain
      requires Valid() && i < |queues|
      reads this, queues
    {
      Domain(queues[i].State(), queues[i].handler, frequency / frequencies[i])
    }

    ghost function State(): (g: Global)
      requires Valid()
      reads this, queues
      ensures g.current == currentCycle && |g.domains| == |queues|
    {
      Global(seq(|queues|, i requires 0 <= i < |queues| reads this, queues requires Valid() => DomainAt(i)),
        currentCycle)
    }

    /** Adds a queue that runs no faster than the global clock. */
    method AddSystem(queue: EventQueue, subFrequency: real)
      requires Valid() && queue !in queues && 0.0 < subFrequency <= frequency
      modifies this`queues, this`frequencies
      ensures Valid() && frequency / subFrequency >= 1.0
      ensures State() == old(State()).(domains :=
        old(State()).domains + [Domain(queue.State(), queue.handler, frequency / subFrequency)])
    {
      AtLeastOne(frequency, subFrequency);
      queues := queues + [queue];
      frequencies := frequencies + [subFrequency];
    }

    /** The global cycle of the next event of queue `i`, if it has one. */
    method EventOf(i: nat) returns (cycle: Option<nat>)
      requires Valid() && i < |queues|
      ensures cycle == if DomainAt(i).q.next == NEVER then None else Some(NextAt(DomainAt(i)))
    {
      if queues[i].nextEventCycle == NEVER { return None; }
      var multiplier := frequency / frequencies[i];
      var globalEventCycle := (queues[i].nextEventCycle as real * multiplier).Floor;
      AtLeastOne(frequency, frequencies[i]);
      ToGlobalIsLater(multiplier, queues[i].nextEventCycle);
      assert NextAt(DomainAt(i)) == globalEventCycle;
      return Some(globalEventCycle);
    }

    /** The global cycle of the earliest event, and the queue it is in. */
    method GetNextEvent() returns (cycle: nat, which: Option<nat>)
      requires Valid()
      ensures which == Earliest(State().domains, |queues|)
      ensures cycle as int == if which.Some? then NextAt(State().domains[which.value]) else NEVER
    {
      ghost var ds := State().domains;
      cycle, which := NEVER, None;
      for i := 0 to |queues|
        invariant which == Earliest(ds, i)
        invariant cycle as int == if which.Some? then NextAt(ds[which.value]) else NEVER
      {
        assert ds[i] == DomainAt(i);
        var globalEventCycle := EventOf(i);
        if globalEventCycle.Some? && globalEventCycle.value < cycle {
          cycle, which := globalEventCycle.value, Some(i);
        }
      }
    }

    /** Runs queue `i` for `steps`; every other queue stays as it is. */
    method LoopQueue(i: nat, steps: nat)
      requires Valid() && i < |queues|
      requires Causal(queues[i].handler) && Inv(queues[i].State()) && queues[i].currentCycle + steps < NEVER
      modifies queues
      ensures Valid()
      ensures Inv(old(queues[i].State()))
      ensures State() == old(State()).(domains := old(State()).domains[i :=
        old(DomainAt(i)).(q := Loop(queues[i].handler, old(queues[i].State()), steps))])
    {
      ghost var before := State().domains;
      queues[i].Loop(steps);
      forall k | 0 <= k < |queues| && k != i ensures DomainAt(k) == before[k] {
        if k < i { assert queues[k] != queues[i]; } else { assert queues[i] != queues[k]; }
      }
    }

    /** Brings queue `i` up to the global cycle. */
    method SyncQueue(i: nat)
      requires Valid() && i < |queues| && DomainOk(DomainAt(i), currentCycle) && currentCycle < NEVER
      modifies queues
      ensures Valid() && DomainOk(old(DomainAt(i)), currentCycle)
      ensures State() == old(State()).(domains := old(State()).domains[i := SyncOne(old(DomainAt(i)), currentCycle)])
    {
      hide EventSpec.Loop;
      var multiplier := frequency / frequencies[i];
      var setCycle := (currentCycle as real / multiplier).Floor;
      ToLocalIsLast(multiplier, currentCycle);
      if setCycle > queues[i].currentCycle {
        LoopQueue(i, setCycle - queues[i].currentCycle);
      }
    }

    /** Brings every queue up to the global cycle. */
    method Sync()
      requires Valid() && currentCycle < NEVER && AllOk(State().domains, currentCycle)
      modifies queues
      ensures Valid() && AllOk(old(State()).domains, currentCycle)
      ensures State() == Global(GlobalSpec.Sync(old(State()).domains, currentCycle), currentCycle)
    {
      ghost var ds := State().domains;
      for i := 0 to |queues|
        invariant Valid() && AllOk(ds, currentCycle)
        invariant SyncedUpTo(ds, State().domains, currentCycle, i)
      {
        assert DomainOk(ds[i], currentCycle) && State().domains[i] == DomainAt(i);
        SyncQueue(i);
      }
    }

    /** Lets queue `i` dispatch its next event. */
    method FireQueue(i: nat, ghost ds: seq<Domain>)
      requires Valid() && State().domains == ds && i < |queues|
      requires Causal(ds[i].h) && Inv(ds[i].q) && ds[i].q.current <= ds[i].q.next < NEVER
      modifies queues
      ensures Valid() && State() == Global(Fire(ds, i), currentCycle)
    {
      assert ds[i] == DomainAt(i);
      var localQueueSteps := queues[i].nextEventCycle - queues[i].currentCycle;
      LoopQueue(i, localQueueSteps);
    }

    /** Moves the global clock and brings all queues up to it. */
    method MoveTo(cycle: nat, ghost ds: seq<Domain>)
      requires Valid() && State().domains == ds && cycle < NEVER && AllOk(ds, cycle)
      modifies this`currentCycle, queues
      ensures Valid() && State() == Global(GlobalSpec.Sync(ds, cycle), cycle)
    {
      currentCycle := cycle;
      assert State() == Global(ds, cycle);
      Sync();
    }

    /** Lets the earliest event be dispatched, `globalQueueSteps` from now. */
    method RunQueue(i: nat, globalQueueSteps: nat, ghost g: Global, ghost steps: nat)
      requires Valid() && State() == g && GlobalInv(g) && g.current + steps < NEVER
      requires DueWithin(g, steps) == Some(i) && i < |queues| && Arrival(g, i) == currentCycle + globalQueueSteps
      modifies this`currentCycle, queues
      ensures Valid() && State() == RunEvent(g, steps) && currentCycle == old(currentCycle) + globalQueueSteps
    {
      hide Fire, AllOk, State, GlobalSpec.Sync, Inv, Causal, Valid;
      FireKeepsOk(g.domains, i, g.current, Arrival(g, i));
      FireQueue(i, g.domains);
      MoveTo(currentCycle + globalQueueSteps, Fire(g.domains, i));
    }

    /** Moves the clock to the end of a cycle in which nothing more is due. */
    method Finish(steps: nat, ghost g: Global)
      requires Valid() && State() == g && GlobalInv(g) && g.current + steps < NEVER && DueWithin(g, steps).None?
      modifies this`currentCycle, queues
      ensures Valid() && State() == GlobalSpec.Cycle(g, steps)
    {
      hide AllOk, State, GlobalSpec.Sync, GlobalSpec.Cycle;
      LaterIsOk(g, g.current + steps);
      MoveTo(currentCycle + steps, g.domains);
      CycleFinishes(g, State(), steps);
    }

    /** Advances the global clock by `steps`. */
    method Cycle(steps: nat)
      requires Valid() && GlobalInv(State()) && currentCycle + steps < NEVER
      modifies this`currentCycle, queues
      ensures Valid() && GlobalInv(old(State())) && State() == GlobalSpec.Cycle(old(State()), steps)
    {
      hide GlobalSpec.Cycle, RunEvent, AllOk, AllMoveOn, Ahead, NextAt, HasEvent, State, Valid;
      var iterationSteps: nat := 0;
      ghost var g0, g := State(), State();
      while iterationSteps <= steps
        invariant Valid() && g == State() && GlobalInv(g) && iterationSteps <= steps
        invariant g.current + (steps - iterationSteps) < NEVER
        invariant GlobalSpec.Cycle(g, steps - iterationSteps) == GlobalSpec.Cycle(g0, steps)
        decreases Ahead(g, g.current + (steps - iterationSteps))
      {
        var nextEvent, which := GetNextEvent();
        var globalQueueSteps: nat := 0;
        if nextEvent > currentCycle { globalQueueSteps := nextEvent - currentCycle; }
        if globalQueueSteps > steps - iterationSteps {
          Finish(steps - iterationSteps, g);
          return;
        }
        RunQueue(which.value, globalQueueSteps, g, steps - iterationSteps);
        CycleContinues(g, State(), steps - iterationSteps);
        g, iterationSteps := State(), iterationSteps + globalQueueSteps;
      }
    }
  }

  /** `ds'` is `ds` with the first `n` domains brought up to the global cycle. */
  ghost predicate SyncedUpTo(ds: seq<Domain>, ds': seq<Domain>, current: nat, n: nat)
    requires current < NEVER && AllOk(ds, current)
  {
    |ds'| == |ds| && forall k | 0 <= k < |ds| :: ds'[k] == if k < n then SyncOne(ds[k], current) else ds[k]
  }

  lemma AtLeastOne(f: real, g: real)
    requires 0.0 < g <= f
    ensures f / g >= 1.0
  {}
}
