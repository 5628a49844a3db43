/**
  Several clock domains, each with its own event queue, driven from one global clock. A domain
  whose clock is slower by the factor `m` reaches its cycle `n` at the global cycle floor(n * m).
 */
module GlobalSpec {
  import opened Commands
  import opened EventSpec
  import EventRuns

  datatype Domain = Domain(q: Queue, h: Handler, m: real)

  datatype Global = Global(domains: seq<Domain>, current: nat)

  /** The global cycle at which a domain with multiplier `m` reaches its local cycle. */
  function ToGlobal(m: real, local: nat): int { (local as real * m).Floor }

  /** The local cycle that a domain with multiplier `m` has reached at a global cycle. */
  function ToLocal(m: real, cycle: nat): int
    requires m >= 1.0
  {
    (cycle as real / m).Floor
  }

  /** The global cycle of the domain's next event. */
  function NextAt(d: Domain): int { ToGlobal(d.m, d.q.next) }

  /** The domain has an event, at a global cycle that can be represented. */
  predicate HasEvent(d: Domain) { d.q.next != NEVER && NextAt(d) < NEVER }

  /** The first of the first `n` domains whose next event is earliest on the global clock. */
  function Earliest(ds: seq<Domain>, n: nat): (i: Option<nat>)
    requires n <= |ds|
    ensures i.None? ==> forall j | 0 <= j < n :: !HasEvent(ds[j])
    ensures i.Some? ==> i.value < n && HasEvent(ds[i.value])
    ensures i.Some? ==> forall j | 0 <= j < n && HasEvent(ds[j]) :: NextAt(ds[i.value]) <= NextAt(ds[j])
    ensures i.Some? ==> forall j | 0 <= j < i.value && HasEvent(ds[j]) :: NextAt(ds[i.value]) < NextAt(ds[j])
  {
    if n == 0 then None
    else
      var best := Earliest(ds, n - 1);
      var d := ds[n - 1];
      if !HasEvent(d) then best
      else if best.None? || NextAt(d) < NextAt(ds[best.value]) then Some(n - 1)
      else best
  }

  // ---------------------------------------------------------------- invariant

  /** A domain that does not run ahead of the global clock. */
  ghost predicate DomainOk(d: Domain, current: nat) {
    && d.m >= 1.0 && Causal(d.h) && Inv(d.q)
    && d.q.current < NEVER && ToGlobal(d.m, d.q.current) <= current
  }

  ghost predicate AllOk(ds: seq<Domain>, current: nat) { forall i | 0 <= i < |ds| :: DomainOk(ds[i], current) }

  ghost predicate GlobalInv(g: Global) { g.current < NEVER && AllOk(g.domains, g.current) }

  /** A domain brought up to the global cycle. */
  ghost predicate InStep(d: Domain, current: nat) {
    d.m >= 1.0 && ToLocal(d.m, current) <= d.q.current <= ToLocal(d.m, current) + 1
  }

  ghost predicate AllInStep(ds: seq<Domain>, current: nat) { forall i | 0 <= i < |ds| :: InStep(ds[i], current) }

  // ---------------------------------------------------------------- arithmetic

  lemma MulRealMonotone(a: real, b: real, m: real)
    requires a <= b && 0.0 <= m
    ensures a * m <= b * m
  {}

  lemma ToGlobalIsLater(m: real, local: nat)
    requires m >= 1.0
    ensures local <= ToGlobal(m, local)
  {
    MulRealMonotone(1.0, m, local as real);
  }

  lemma ToGlobalMonotone(m: real, a: nat, b: nat)
    requires m >= 1.0 && a <= b
    ensures ToGlobal(m, a) <= ToGlobal(m, b)
  {
    MulRealMonotone(a as real, b as real, m);
  }

  lemma Quotient(c: real, m: real) returns (x: real)
    requires 0.0 <= c && m >= 1.0
    ensures x == c / m && x * m == c && 0.0 <= x <= c
  {
    x := c / m;
    if x < 0.0 { NegativeProduct(x, m); }
    MulRealMonotone(1.0, m, x);
  }

  lemma NegativeProduct(x: real, m: real)
    requires x < 0.0 && m >= 1.0
    ensures x * m < 0.0
  {}

  /** The local cycle at a global cycle is the last one that the global clock has reached. */
  lemma ToLocalIsLast(m: real, cycle: nat)
    requires m >= 1.0
    ensures 0 <= ToLocal(m, cycle) <= cycle
    ensures ToGlobal(m, ToLocal(m, cycle)) <= cycle
  {
    var x := Quotient(cycle as real, m);
    MulRealMonotone(x.Floor as real, x, m);
  }

  lemma TwoAheadIsLater(m: real, cycle: nat, local: nat)
    requires m >= 1.0 && ToLocal(m, cycle) + 2 <= local
    ensures cycle + 1 <= ToGlobal(m, local)
  {
    var x := Quotient(cycle as real, m);
    assert x + 1.0 <= local as real;
    MulRealMonotone(x + 1.0, local as real, m);
    Distribute(x, m);
    assert cycle as real + 1.0 <= local as real * m;
  }

  lemma AtMostOneAhead(m: real, cycle: nat, local: nat)
    requires m >= 1.0 && ToGlobal(m, local) <= cycle
    ensures local <= ToLocal(m, cycle) + 1
  {
    if ToLocal(m, cycle) + 2 <= local { TwoAheadIsLater(m, cycle, local); }
  }

  lemma Distribute(x: real, m: real)
    ensures (x + 1.0) * m == x * m + m
  {}

  // ---------------------------------------------------------------- synchronisation

  ghost function SyncOne(d: Domain, current: nat): Domain
    requires DomainOk(d, current) && current < NEVER
  {
    var local := ToLocal(d.m, current);
    ToLocalIsLast(d.m, current);
    if local > d.q.current then d.(q := Loop(d.h, d.q, local - d.q.current)) else d
  }

  ghost function Sync(ds: seq<Domain>, current: nat): seq<Domain>
    requires current < NEVER && AllOk(ds, current)
  {
    seq(|ds|, i requires 0 <= i < |ds| => SyncOne(ds[i], current))
  }

  lemma SyncOneKeepsOk(d: Domain, current: nat)
    requires DomainOk(d, current) && current < NEVER
    ensures var d' := SyncOne(d, current);
      && DomainOk(d', current) && d'.m == d.m && d'.h == d.h && d.q.next <= d'.q.next
      && d.q.calls <= d'.q.calls && InStep(d', current)
  {
    ToLocalIsLast(d.m, current);
    AtMostOneAhead(d.m, current, d.q.current);
    var local := ToLocal(d.m, current);
    if local > d.q.current { EventRuns.LoopKeepsInv(d.h, d.q, local - d.q.current); }
  }

  /** What a domain keeps while the global clock moves on. */
  ghost predicate MovesOn(d: Domain, d': Domain) {
    d'.m == d.m && d'.h == d.h && d.q.next <= d'.q.next && d.q.calls <= d'.q.calls
  }

  ghost predicate AllMoveOn(ds: seq<Domain>, ds': seq<Domain>) {
    |ds| == |ds'| && forall i | 0 <= i < |ds| :: MovesOn(ds[i], ds'[i])
  }

  lemma SyncKeepsOk(ds: seq<Domain>, current: nat)
    requires current < NEVER && AllOk(ds, current)
    ensures var ds' := Sync(ds, current); AllMoveOn(ds, ds') && AllOk(ds', current) && AllInStep(ds', current)
  {
    forall i | 0 <= i < |ds|
      ensures DomainOk(Sync(ds, current)[i], current) && InStep(Sync(ds, current)[i], current)
      ensures MovesOn(ds[i], Sync(ds, current)[i]) {
      SyncOneKeepsOk(ds[i], current);
    }
  }

  // ---------------------------------------------------------------- running

  /** How far the next events of the first `n` domains lie before the end of `target`, all together. */
  function AheadOf(ds: seq<Domain>, target: nat, n: nat): nat
    requires n <= |ds|
  {
    if n == 0 then 0
    else AheadOf(ds, target, n - 1) + if ds[n - 1].q.next <= target then target + 1 - ds[n - 1].q.next else 0
  }

  function Ahead(g: Global, target: nat): nat { AheadOf(g.domains, target, |g.domains|) }

  lemma {:induction false} AheadShrinks(ds: seq<Domain>, ds': seq<Domain>, target: nat, n: nat)
    requires AllMoveOn(ds, ds') && n <= |ds|
    ensures AheadOf(ds', target, n) <= AheadOf(ds, target, n)
  {
    if n != 0 {
      assert MovesOn(ds[n - 1], ds'[n - 1]);
      AheadShrinks(ds, ds', target, n - 1);
    }
  }

  /** A domain that dispatches an event before the target brings the count down. */
  lemma {:induction false} AheadDrops(ds: seq<Domain>, ds': seq<Domain>, target: nat, n: nat, i: nat)
    requires AllMoveOn(ds, ds') && i < n <= |ds| && ds[i].q.next <= target && ds[i].q.next < ds'[i].q.next
    ensures AheadOf(ds', target, n) < AheadOf(ds, target, n)
  {
    assert MovesOn(ds[n - 1], ds'[n - 1]);
    if i == n - 1 {
      AheadShrinks(ds, ds', target, n - 1);
    } else {
      AheadDrops(ds, ds', target, n - 1, i);
    }
  }

  /** The domains once the one with the earliest event has dispatched it. */
  ghost function Fire(ds: seq<Domain>, i: nat): seq<Domain>
    requires i < |ds| && Causal(ds[i].h) && Inv(ds[i].q) && ds[i].q.current <= ds[i].q.next < NEVER
  {
    ds[i := ds[i].(q := Loop(ds[i].h, ds[i].q, ds[i].q.next - ds[i].q.current))]
  }

  lemma FireKeepsOk(ds: seq<Domain>, i: nat, before: nat, current: nat)
    requires i < |ds| && AllOk(ds, before) && before <= current && HasEvent(ds[i]) && NextAt(ds[i]) <= current
    ensures Causal(ds[i].h) && Inv(ds[i].q) && ds[i].q.current <= ds[i].q.next < NEVER
    ensures AllOk(Fire(ds, i), current) && AllMoveOn(ds, Fire(ds, i)) && ds[i].q.next < Fire(ds, i)[i].q.next
  {
    var d := ds[i];
    assert DomainOk(d, before);
    SkipKeepsInv(d.q, d.q.current);
    EventRuns.LoopKeepsInv(d.h, d.q, d.q.next - d.q.current);
  }

  /** The earliest event that is due within `steps`, and the global cycles until then. */
  function DueWithin(g: Global, steps: nat): Option<nat> {
    var i := Earliest(g.domains, |g.domains|);
    if i.Some? && NextAt(g.domains[i.value]) <= g.current + steps then i else None
  }

  function Arrival(g: Global, i: nat): nat
    requires i < |g.domains|
  {
    if NextAt(g.domains[i]) > g.current then NextAt(g.domains[i]) else g.current
  }

  /** The domain with the earliest event dispatches it; then all domains catch up. */
  ghost function RunEvent(g: Global, steps: nat): Global
    requires GlobalInv(g) && g.current + steps < NEVER && DueWithin(g, steps).Some?
  {
    var i := DueWithin(g, steps).value;
    FireKeepsOk(g.domains, i, g.current, Arrival(g, i));
    Global(Sync(Fire(g.domains, i), Arrival(g, i)), Arrival(g, i))
  }

  /** What a step of the global clock guarantees. */
  ghost predicate Progress(g: Global, g': Global, steps: nat) {
    && GlobalInv(g') && AllMoveOn(g.domains, g'.domains)
    && g.current <= g'.current <= g.current + steps
    && Ahead(g', g.current + steps) < Ahead(g, g.current + steps)
  }

  lemma CatchUp(ds: seq<Domain>, fired: seq<Domain>, ds': seq<Domain>, i: nat)
    requires AllMoveOn(ds, fired) && AllMoveOn(fired, ds') && i < |ds|
    requires ds[i].q.next < fired[i].q.next
    ensures AllMoveOn(ds, ds') && ds[i].q.next < ds'[i].q.next
  {
    MoveOnTransitive(ds, fired, ds');
    assert MovesOn(fired[i], ds'[i]);
  }

  lemma EventProgress(g: Global, g': Global, i: nat, steps: nat)
    requires GlobalInv(g') && AllMoveOn(g.domains, g'.domains) && i < |g.domains|
    requires g.current <= g'.current <= g.current + steps
    requires g.domains[i].q.next <= g.current + steps && g.domains[i].q.next < g'.domains[i].q.next
    ensures Progress(g, g', steps)
  {
    AheadDrops(g.domains, g'.domains, g.current + steps, |g.domains|, i);
  }

  lemma RunEventMoves(g: Global, i: nat, steps: nat)
    requires GlobalInv(g) && g.current + steps < NEVER && DueWithin(g, steps) == Some(i)
    ensures var g' := RunEvent(g, steps);
      && GlobalInv(g') && AllMoveOn(g.domains, g'.domains) && g.current <= g'.current <= g.current + steps
      && g.domains[i].q.next < g'.domains[i].q.next
  {
    FireKeepsOk(g.domains, i, g.current, Arrival(g, i));
    SyncKeepsOk(Fire(g.domains, i), Arrival(g, i));
    CatchUp(g.domains, Fire(g.domains, i), RunEvent(g, steps).domains, i);
  }

  lemma RunEventProgress(g: Global, steps: nat)
    requires GlobalInv(g) && g.current + steps < NEVER && DueWithin(g, steps).Some?
    ensures Progress(g, RunEvent(g, steps), steps)
  {
    var i := DueWithin(g, steps).value;
    RunEventMoves(g, i, steps);
    ToGlobalIsLater(g.domains[i].m, g.domains[i].q.next);
    EventProgress(g, RunEvent(g, steps), i, steps);
  }

  /** No event is due at or before the global cycle. */
  ghost predicate NothingDue(g: Global) {
    forall i | 0 <= i < |g.domains| && g.domains[i].q.next != NEVER :: g.current < NextAt(g.domains[i])
  }

  /** The global clock shows `cycle`, every domain has been brought up to it, and nothing is due. */
  ghost predicate Settled(g: Global, cycle: nat) {
    GlobalInv(g) && g.current == cycle && AllInStep(g.domains, cycle) && NothingDue(g)
  }

  /** Advances the global clock by `steps`. */
  ghost function Cycle(g: Global, steps: nat): Global
    requires GlobalInv(g) && g.current + steps < NEVER
    decreases Ahead(g, g.current + steps), 1
  {
    if DueWithin(g, steps).None? then
      LaterIsOk(g, g.current + steps);
      Global(Sync(g.domains, g.current + steps), g.current + steps)
    else
      RunEventProgress(g, steps);
      Rest(g, RunEvent(g, steps), steps)
  }

  /** The rest of a cycle of `steps` that began at `g` and has come to `g1`. */
  ghost function Rest(g: Global, g1: Global, steps: nat): Global
    requires Progress(g, g1, steps) && g.current + steps < NEVER
    decreases Ahead(g, g.current + steps), 0
  {
    RestIsSmaller(g, g1, steps);
    Cycle(g1, g.current + steps - g1.current)
  }

  lemma RestIsSmaller(g: Global, g1: Global, steps: nat)
    requires Progress(g, g1, steps) && g.current + steps < NEVER
    ensures GlobalInv(g1) && g1.current <= g.current + steps
    ensures Ahead(g1, g1.current + (g.current + steps - g1.current)) < Ahead(g, g.current + steps)
  {
    hide Ahead, GlobalInv, AllMoveOn;
  }

  lemma CycleFinishes(g: Global, g': Global, steps: nat)
    requires GlobalInv(g) && g.current + steps < NEVER && DueWithin(g, steps).None?
    requires AllOk(g.domains, g.current + steps)
    requires g' == Global(Sync(g.domains, g.current + steps), g.current + steps)
    ensures g' == Cycle(g, steps)
  {
    hide Sync, AllOk;
  }

  lemma CycleContinues(g: Global, g1: Global, steps: nat)
    requires GlobalInv(g) && g.current + steps < NEVER && DueWithin(g, steps).Some?
    requires g1 == RunEvent(g, steps)
    ensures Progress(g, g1, steps) && Cycle(g, steps) == Cycle(g1, g.current + steps - g1.current)
  {
    hide RunEvent, AllOk, Sync;
    RunEventProgress(g, steps);
  }

  lemma LaterIsOk(g: Global, current: nat)
    requires GlobalInv(g) && g.current <= current
    ensures AllOk(g.domains, current)
  {
    forall i | 0 <= i < |g.domains| ensures DomainOk(g.domains[i], current) {
      assert DomainOk(g.domains[i], g.current);
    }
  }

  // ---------------------------------------------------------------- results

  lemma LastStretch(g: Global, steps: nat)
    requires GlobalInv(g) && g.current + steps < NEVER && DueWithin(g, steps).None?
    ensures AllOk(g.domains, g.current + steps)
    ensures var g' := Global(Sync(g.domains, g.current + steps), g.current + steps);
      Settled(g', g.current + steps) && AllMoveOn(g.domains, g'.domains)
  {
    hide Sync, AllOk, AllInStep, AllMoveOn, NothingDue, DueWithin;
    LaterIsOk(g, g.current + steps);
    SyncKeepsOk(g.domains, g.current + steps);
    NothingBecomesDue(g, Global(Sync(g.domains, g.current + steps), g.current + steps), steps);
  }

  lemma MoveOnTransitive(a: seq<Domain>, b: seq<Domain>, c: seq<Domain>)
    requires AllMoveOn(a, b) && AllMoveOn(b, c)
    ensures AllMoveOn(a, c)
  {
    forall i | 0 <= i < |a| ensures MovesOn(a[i], c[i]) { assert MovesOn(a[i], b[i]) && MovesOn(b[i], c[i]); }
  }

  lemma NothingBecomesDue(g: Global, g': Global, steps: nat)
    requires GlobalInv(g) && GlobalInv(g') && AllMoveOn(g.domains, g'.domains)
    requires g'.current == g.current + steps && DueWithin(g, steps).None?
    ensures NothingDue(g')
  {
    forall i | 0 <= i < |g'.domains| && g'.domains[i].q.next != NEVER ensures g'.current < NextAt(g'.domains[i]) {
      var d, d' := g.domains[i], g'.domains[i];
      assert MovesOn(d, d') && DomainOk(d, g.current) && DomainOk(d', g'.current);
      SkipKeepsInv(d'.q, d'.q.current);
      ToGlobalMonotone(d.m, d.q.next, d'.q.next);
    }
  }

  /**
    Clock coherence. A cycle ends, moves the global clock by exactly `steps`, brings every domain
    to the local cycle of the global one or one further but never ahead of it, and leaves no
    event that is due.
   */
  lemma {:induction false} CycleIsCoherent(g: Global, steps: nat)
    requires GlobalInv(g) && g.current + steps < NEVER
    ensures Settled(Cycle(g, steps), g.current + steps)
    decreases Ahead(g, g.current + steps)
  {
    hide RunEvent, AllOk, NothingDue, AllInStep, Sync;
    if DueWithin(g, steps).None? {
      LastStretch(g, steps);
      CycleFinishes(g, Global(Sync(g.domains, g.current + steps), g.current + steps), steps);
    } else {
      CycleContinues(g, RunEvent(g, steps), steps);
      var g1 := RunEvent(g, steps);
      CycleIsCoherent(g1, g.current + steps - g1.current);
    }
  }

  /** No domain loses a call it has made, and none goes back to an earlier event. */
  lemma {:induction false} CycleMovesOn(g: Global, steps: nat)
    requires GlobalInv(g) && g.current + steps < NEVER
    ensures AllMoveOn(g.domains, Cycle(g, steps).domains)
    decreases Ahead(g, g.current + steps)
  {
    hide RunEvent, AllOk, NothingDue, AllInStep, Sync;
    if DueWithin(g, steps).None? {
      LastStretch(g, steps);
      CycleFinishes(g, Global(Sync(g.domains, g.current + steps), g.current + steps), steps);
    } else {
      CycleContinues(g, RunEvent(g, steps), steps);
      var g1 := RunEvent(g, steps);
      CycleMovesOn(g1, g.current + steps - g1.current);
      MoveOnTransitive(g.domains, g1.domains, Cycle(g, steps).domains);
    }
  }

  /** The domain is as its own queue leaves it when it runs by itself for as many cycles, if it ran at all. */
  ghost predicate RanByItself(d: Domain, d': Domain) {
    && d'.m == d.m && d'.h == d.h
    && (d'.q == d.q
        || (Causal(d.h) && Inv(d.q) && d.q.current <= d'.q.current < NEVER
            && d'.q == Loop(d.h, d.q, d'.q.current - d.q.current)))
  }

  ghost predicate AllRanByThemselves(ds: seq<Domain>, ds': seq<Domain>) {
    |ds| == |ds'| && forall i | 0 <= i < |ds| :: RanByItself(ds[i], ds'[i])
  }

  lemma RanTransitive(a: Domain, b: Domain, c: Domain)
    requires RanByItself(a, b) && RanByItself(b, c)
    ensures RanByItself(a, c)
  {
    hide Loop, Causal, Inv;
    if b.q != a.q && c.q != b.q {
      EventRuns.LoopSplits(a.h, a.q, b.q.current - a.q.current, c.q.current - b.q.current);
    }
  }

  lemma AllRanTransitive(a: seq<Domain>, b: seq<Domain>, c: seq<Domain>)
    requires AllRanByThemselves(a, b) && AllRanByThemselves(b, c)
    ensures AllRanByThemselves(a, c)
  {
    hide RanByItself;
    forall i | 0 <= i < |a| ensures RanByItself(a[i], c[i]) { RanTransitive(a[i], b[i], c[i]); }
  }

  lemma SyncOneRuns(d: Domain, current: nat)
    requires DomainOk(d, current) && current < NEVER
    ensures RanByItself(d, SyncOne(d, current))
  {
    hide Loop;
    ToLocalIsLast(d.m, current);
    var local := ToLocal(d.m, current);
    if local > d.q.current { EventRuns.LoopKeepsInv(d.h, d.q, local - d.q.current); }
  }

  lemma SyncRuns(ds: seq<Domain>, current: nat)
    requires current < NEVER && AllOk(ds, current)
    ensures AllRanByThemselves(ds, Sync(ds, current))
  {
    hide RanByItself, SyncOne, DomainOk;
    forall i | 0 <= i < |ds| ensures RanByItself(ds[i], Sync(ds, current)[i]) { SyncOneRuns(ds[i], current); }
  }

  lemma FireRuns(ds: seq<Domain>, i: nat)
    requires i < |ds| && Causal(ds[i].h) && Inv(ds[i].q) && ds[i].q.current <= ds[i].q.next < NEVER
    ensures AllRanByThemselves(ds, Fire(ds, i))
  {
    hide Loop, Causal, Inv;
    EventRuns.LoopKeepsInv(ds[i].h, ds[i].q, ds[i].q.next - ds[i].q.current);
  }

  /**
    The global clock does not interfere: in a cycle every domain makes the calls, and ends in the queue,
    that its own queue would have made and ended in by itself.
   */
  lemma {:induction false} CycleRunsDomains(g: Global, steps: nat)
    requires GlobalInv(g) && g.current + steps < NEVER
    ensures AllRanByThemselves(g.domains, Cycle(g, steps).domains)
    decreases Ahead(g, g.current + steps)
  {
    hide AllOk, NothingDue, AllInStep, AllRanByThemselves;
    if DueWithin(g, steps).None? {
      hide Sync;
      LaterIsOk(g, g.current + steps);
      SyncRuns(g.domains, g.current + steps);
      CycleFinishes(g, Global(Sync(g.domains, g.current + steps), g.current + steps), steps);
    } else {
      RunEventRuns(g, steps);
      hide RunEvent;
      CycleContinues(g, RunEvent(g, steps), steps);
      var g1 := RunEvent(g, steps);
      CycleRunsDomains(g1, g.current + steps - g1.current);
      AllRanTransitive(g.domains, g1.domains, Cycle(g, steps).domains);
    }
  }

  lemma RunEventRuns(g: Global, steps: nat)
    requires GlobalInv(g) && g.current + steps < NEVER && DueWithin(g, steps).Some?
    ensures AllRanByThemselves(g.domains, RunEvent(g, steps).domains)
  {
    hide AllOk, AllRanByThemselves, Fire, Sync, NothingDue;
    var i := DueWithin(g, steps).value;
    FireKeepsOk(g.domains, i, g.current, Arrival(g, i));
    FireRuns(g.domains, i);
    SyncRuns(Fire(g.domains, i), Arrival(g, i));
    AllRanTransitive(g.domains, Fire(g.domains, i), RunEvent(g, steps).domains);
  }

  /** A local cycle falls into the global cycle in which it begins. */
  lemma ToGlobalIsFloor(m: real, local: nat)
    ensures ToGlobal(m, local) as real <= local as real * m < ToGlobal(m, local) as real + 1.0
  {}

  /** At a global cycle, a domain is in the local cycle that has begun and not yet ended. */
  lemma ToLocalIsFloor(m: real, cycle: nat)
    requires m >= 1.0
    ensures ToLocal(m, cycle) as real <= cycle as real / m < ToLocal(m, cycle) as real + 1.0
  {}

  /** No event is ever dispatched before its time on the global clock. */
  lemma CallsAreDue(g: Global, i: nat, c: nat)
    requires GlobalInv(g) && i < |g.domains| && c < |g.domains[i].q.calls|
    ensures ToGlobal(g.domains[i].m, g.domains[i].q.calls[c].cycle) <= g.current
  {
    var d := g.domains[i];
    assert DomainOk(d, g.current) && Timely(d.q.calls, d.q.last);
    ToGlobalMonotone(d.m, d.q.calls[c].cycle, d.q.current);
  }
}
