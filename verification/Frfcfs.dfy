/** The FRFCFS controller: one bounded transaction queue, scheduled in a fixed order of selectors. */
module Frfcfs {
  import opened Commands
  import opened ControllerSpec
  import opened FrfcfsSpec
  import opened MemoryControllers
  import opened Memories
  import opened RefreshSpec
  import Channel
  import BankSpec
  import Wakeups
  import WakeupRuns

  /** A transaction that the host may hand over. */
  ghost predicate IsNew(mc: MemoryController, r: Request)
    reads mc`accepted
  {
    InRange(mc.cfg, r) && (r.op.Read? || r.op.Write?) && !r.issued && !r.last && r.id !in mc.accepted
  }

  class FRFCFS {
    const mc: MemoryController
    const queueSize: nat

    constructor (mc: MemoryController, queueSize: nat)
      ensures this.mc == mc && this.queueSize == queueSize
    {
      this.mc, this.queueSize := mc, queueSize;
    }

    /** Interrupted writes are for the controller with a write queue; here pausing is off. */
    ghost predicate Valid(now: nat)
      reads mc, mc.memory.banks, mc.memory.Subs()
    {
      mc.Coherent(now) && |mc.transactionQueues| == 1 && !mc.memory.p.pausing
    }

    method IsIssuable() returns (issuable: bool)
      requires |mc.transactionQueues| == 1
      ensures issuable <==> |mc.transactionQueues[0]| < queueSize
    {
      issuable := true;
      if |mc.transactionQueues[0]| >= queueSize { issuable := false; }
    }

    method IssueCommand(r: Request, now: nat) returns (ok: bool)
      requires Valid(now) && mc.cleanupAt != Some(now) && IsNew(mc, r)
      modifies mc`transactionQueues, mc`cycles, mc`accepted
      ensures Valid(now)
      ensures ok <==> |old(mc.transactionQueues)[0]| < queueSize
      ensures !ok ==> unchanged(mc)
      ensures var step := Wakeups.Accept(0, r.(arrival := now));
        ok ==> Wakeups.Enabled(mc.memory.p, mc.cfg, old(mc.State(now)), step)
               && mc.State(now) == Wakeups.Apply(mc.memory.p, mc.cfg, old(mc.State(now)), step)
    {
      hide WakeupRuns.Valid, Wakeups.Apply;
      ghost var before := mc.State(now);
      ok := IsIssuable();
      assert mc.State(now) == before;
      if ok {
        mc.Enqueue(0, r.(arrival := now), now);
        AcceptKeepsCount(mc.memory.p, mc.cfg, old(mc.State(now)), 0, r.(arrival := now));
      }
    }

    /** Schedules one transaction by the policy, then sends at most one command. */
    method Cycle(m: Moment) returns (found: Option<Request>, sent: Option<nat>)
      requires Valid(m.now) && mc.cleanupAt != Some(m.now) && m.now in mc.cycles
      modifies mc, mc.memory.banks, mc.memory.Subs()
      ensures Valid(m.now)
      ensures var choice := CycleChoice(mc.cfg, old(mc.shadows), m.now, 0, old(mc.transactionQueues[0]), false);
        var step := Wakeups.Cycle(choice, m.latency, m.bounce);
        && Wakeups.Enabled(mc.memory.p, mc.cfg, old(mc.State(m.now)), step)
        && mc.State(m.now) == Wakeups.Apply(mc.memory.p, mc.cfg, old(mc.State(m.now)), step)
      ensures Selection(found, mc.transactionQueues[0]) == old(Pick(mc.cfg, mc.shadows, m.now, mc.transactionQueues[0]))
      ensures sent.Some? ==> old(mc.lastIssueCycle) != m.now && mc.lastIssueCycle == m.now
    {
      found, sent := CycleFrom(mc, 0, false, m);
    }
  }

  lemma AcceptKeepsCount(p: Timing, cfg: Config, s: Wakeups.State, q: nat, r: Request)
    requires Wakeups.Enabled(p, cfg, s, Wakeups.Accept(q, r))
    ensures |Wakeups.Apply(p, cfg, s, Wakeups.Accept(q, r)).channel.queues| == |s.channel.queues|
  {}

  // ---------------------------------------------------------------- shared with the write queue controller

  /** Takes the transaction to be scheduled next out of queue `q`. */
  method FindNext(mc: MemoryController, q: nat, now: nat) returns (found: Option<Request>)
    requires mc.RefreshValid() && q < |mc.transactionQueues|
    modifies mc`transactionQueues
    ensures mc.RefreshValid() && |mc.transactionQueues| == |old(mc.transactionQueues)|
    ensures Selection(found, mc.transactionQueues[q]) == Pick(mc.cfg, mc.shadows, now, old(mc.transactionQueues[q]))
    ensures forall k | 0 <= k < |mc.transactionQueues| && k != q ::
      mc.transactionQueues[k] == old(mc.transactionQueues[k])
  {
    found := mc.Find(q, Starved, now);
    if found == None {
      found := mc.Find(q, RowBufferHit, now);
      if found == None {
        found := mc.Find(q, OldestReady, now);
        if found == None {
          found := mc.Find(q, ClosedBank, now);
        }
      }
    }
  }

  /** The controller once `r` was expanded into the queue of its bank, and a wake-up scheduled for it. */
  ghost function Expanded(cfg: Config, s: Wakeups.State, r: Request): Wakeups.State
    requires IdOf(cfg, r) < |s.channel.shadows| && Sized(cfg, s.channel.shadows[IdOf(cfg, r)])
    requires r.subarray < cfg.subarrays
  {
    var c, id := s.channel, IdOf(cfg, r);
    var writing := Channel.IsProgramming(c, id, r.subarray);
    var expanded := Expand(cfg, c.shadows[id], r, false, writing).shadow;
    Wakeups.Woken(cfg, s.(channel := c.(shadows := c.shadows[id := expanded])))
  }

  /** Expands the transaction that was selected. It is never refused, as the controllers rely on. */
  method Issue(mc: MemoryController, r: Request, now: nat, ghost states: seq<BankSpec.State>) returns (ok: bool)
    requires mc.RefreshValid() && HeadsRoute(mc.cfg, mc.shadows) && mc.Backed(states)
    requires NoneDue(mc.cfg, mc.delayedRefreshCounter) && InRange(mc.cfg, r) && (r.op.Read? || r.op.Write?)
    requires IdOf(mc.cfg, r) < |mc.shadows| && mc.shadows[IdOf(mc.cfg, r)].queue == []
    modifies mc
    ensures ok && mc.RefreshValid() && HeadsRoute(mc.cfg, mc.shadows)
    ensures Sized(mc.cfg, old(mc.shadows[IdOf(mc.cfg, r)])) && mc.State(now) == Expanded(mc.cfg, old(mc.State(now)), r)
  {
    hide HeadsRoute, Shaped, NoneDue, Wakeups.NextWake, Expand, Covered, AllExtend;
    ghost var before := mc.State(now);
    var cached, writing := Probe(mc, r, now, states);
    Channel.ExpandQueuesOnce(mc.cfg, mc.shadows[IdOf(mc.cfg, r)], r, cached, writing);
    ok := mc.IssueMemoryCommands(r, cached, writing, now, states);
    assert mc.memory.States() == states;
    assert mc.State(now) == Expanded(mc.cfg, before, r);
  }

  /**
    Whether the memory serves `r` from a cache (plain banks never do), and whether its subarray is being
    programmed.
   */
  method Probe(mc: MemoryController, r: Request, now: nat, ghost states: seq<BankSpec.State>)
    returns (cached: bool, writing: bool)
    requires mc.Backed(states) && InRange(mc.cfg, r) && (r.op.Read? || r.op.Write?)
    ensures !cached && writing == Channel.IsProgramming(mc.State(now).channel, IdOf(mc.cfg, r), r.subarray)
  {
    assert AllRouted(states, MakeCached(r)) && AllRouted(states, r);
    cached := mc.memory.IsIssuable(MakeCached(r), now);
    NeverCached(mc.memory.p, mc.cfg, states, r, now);
    assert mc.memory.States() == states;
    writing := mc.memory.IsWriting(r);
  }

  lemma NeverCached(p: Timing, cfg: Config, states: seq<BankSpec.State>, r: Request, now: nat)
    requires InRange(cfg, r) && (r.op.Read? || r.op.Write?) && AllRouted(states, r) && |states| == cfg.ranks * cfg.banks
    ensures !Channel.Issuable(p, cfg, states, MakeCached(r), now)
  {
    Channel.QueueIdInRange(cfg, r.rank, r.bank);
    var id := IdOf(cfg, r);
    Channel.CachedIsNeverIssuable(p, states[id], r, now);
    assert Channel.Reaches(cfg, MakeCached(r), id);
  }

  /** The flagged transaction that the policy picks. */
  function Forced(found: Option<Request>, force: bool): Option<Request> {
    if found.Some? && force then Some(found.value.(forced := true)) else found
  }

  /** Picking by the policy and expanding what was picked is what the specification schedules. */
  lemma PickIsScheduled(p: Timing, cfg: Config, s: Wakeups.State, q: nat, force: bool)
    requires Channel.Inv(p, cfg, s.channel) && Wakeups.ReadyToRun(s) && q < |s.channel.queues|
    requires p.pausing ==> force || forall i | 0 <= i < |s.channel.queues[q]| :: s.channel.queues[q][i].op.Read?
    ensures var choice := CycleChoice(cfg, s.channel.shadows, s.channel.now, q, s.channel.queues[q], force);
      var picked := Pick(cfg, s.channel.shadows, s.channel.now, s.channel.queues[q]);
      && Wakeups.Schedulable(p, cfg, s, choice)
      && (picked.found.Some? <==> choice.Some?)
      && (choice.None? ==> picked == Selection(None, s.channel.queues[q]) && Wakeups.Scheduled(p, cfg, s, choice) == s)
      && (choice.Some? ==>
            var r := Forced(picked.found, force).value;
            && InRange(cfg, r) && (r.op.Read? || r.op.Write?)
            && IdOf(cfg, r) < |s.channel.shadows| && s.channel.shadows[IdOf(cfg, r)].queue == []
            && Sized(cfg, s.channel.shadows[IdOf(cfg, r)])
            && Wakeups.Scheduled(p, cfg, s, choice)
               == Expanded(cfg, s.(channel := s.channel.(queues := s.channel.queues[q := picked.rest])), r))
  {
    hide Wakeups.NextWake, Expand, Channel.Inv, Channel.Enabled, Channel.Apply, Matches;
    var c := s.channel;
    var choice := CycleChoice(cfg, c.shadows, c.now, q, c.queues[q], force);
    if choice.Some? {
      var step := Wakeups.ScheduleOf(choice.value);
      PolicyIsEnabled(p, cfg, c, q, force, choice.value);
      var i, r, id, writing := Channel.ScheduleEffect(p, cfg, c, step);
    }
  }

  /** What the policy chooses, the channel can schedule. */
  lemma PolicyIsEnabled(p: Timing, cfg: Config, c: Channel.State, q: nat, force: bool, choice: Wakeups.Choice)
    requires Channel.Inv(p, cfg, c) && c.cleanupAt != Some(c.now) && q < |c.queues|
    requires p.pausing ==> force || forall i | 0 <= i < |c.queues[q]| :: c.queues[q][i].op.Read?
    requires CycleChoice(cfg, c.shadows, c.now, q, c.queues[q], force) == Some(choice)
    ensures Channel.Enabled(p, cfg, c, Wakeups.ScheduleOf(choice))
  {
    hide Matches, Channel.Inv;
  }

  /** Schedules one transaction of queue `q` by the policy. */
  method ScheduleFrom(mc: MemoryController, q: nat, force: bool, now: nat) returns (found: Option<Request>)
    requires mc.MayRun(now) && q < |mc.transactionQueues|
    requires mc.memory.p.pausing ==> force || forall i | 0 <= i < |mc.transactionQueues[q]| ::
      mc.transactionQueues[q][i].op.Read?
    modifies mc
    ensures mc.RefreshValid() && HeadsRoute(mc.cfg, mc.shadows)
    ensures var before := old(mc.State(now));
      var choice := CycleChoice(mc.cfg, before.channel.shadows, now, q, before.channel.queues[q], force);
      && Wakeups.Schedulable(mc.memory.p, mc.cfg, before, choice)
      && mc.State(now) == Wakeups.Scheduled(mc.memory.p, mc.cfg, before, choice)
    ensures mc.Backed(old(mc.memory.States())) && |mc.transactionQueues| == |old(mc.transactionQueues)|
    ensures mc.lastIssueCycle == old(mc.lastIssueCycle)
    ensures var picked := old(Pick(mc.cfg, mc.shadows, now, mc.transactionQueues[q]));
      && found == Forced(picked.found, force) && mc.transactionQueues == old(mc.transactionQueues)[q := picked.rest]
  {
    hide WakeupRuns.Valid, HeadsRoute, Pick, CycleChoice, Wakeups.Scheduled, Wakeups.Schedulable, Expanded, NoneDue,
      Shaped;
    ghost var before, states := mc.State(now), mc.memory.States();
    mc.CoherentFacts(now);
    InvOfValid(mc.memory.p, mc.cfg, before);
    PickIsScheduled(mc.memory.p, mc.cfg, before, q, force);
    found := FindForced(mc, q, force, now);
    ghost var taken := mc.State(now);
    assert mc.memory.States() == states;
    if found.Some? {
      var ok := Issue(mc, found.value, now, states);
      assert mc.memory.States() == states;
      ExpandedKeepsQueues(mc.cfg, taken, found.value);
    }
  }

  /** Takes the transaction to be scheduled next, and flags it if it is to be forced. */
  method FindForced(mc: MemoryController, q: nat, force: bool, now: nat) returns (found: Option<Request>)
    requires mc.RefreshValid() && q < |mc.transactionQueues|
    modifies mc`transactionQueues
    ensures mc.RefreshValid()
    ensures var picked := old(Pick(mc.cfg, mc.shadows, now, mc.transactionQueues[q]));
      && found == Forced(picked.found, force) && mc.transactionQueues == old(mc.transactionQueues)[q := picked.rest]
      && mc.State(now) == old(mc.State(now)).(channel := old(mc.State(now)).channel.(queues := mc.transactionQueues))
  {
    hide Pick;
    ghost var states := mc.memory.States();
    found := FindNext(mc, q, now);
    assert mc.memory.States() == states;
    if found.Some? && force { found := Some(found.value.(forced := true)); }
  }

  lemma InvOfValid(p: Timing, cfg: Config, s: Wakeups.State)
    requires WakeupRuns.Valid(p, cfg, s)
    ensures Channel.Inv(p, cfg, s.channel) && NoneDue(cfg, s.delayed)
  {}

  lemma ExpandedKeepsQueues(cfg: Config, s: Wakeups.State, r: Request)
    requires IdOf(cfg, r) < |s.channel.shadows| && Sized(cfg, s.channel.shadows[IdOf(cfg, r)])
    requires r.subarray < cfg.subarrays
    ensures Expanded(cfg, s, r).channel.queues == s.channel.queues
    ensures Expanded(cfg, s, r).channel.lastIssue == s.channel.lastIssue
  {}

  /** The cycle event that is running is dropped. */
  method BeginCycle(mc: MemoryController, now: nat)
    requires mc.MayRun(now) && now in mc.cycles
    modifies mc`cycles, mc`ranAt
    ensures mc.MayRun(now)
    ensures mc.State(now) == old(mc.State(now)).(cycles := old(mc.cycles) - multiset{now}, ranAt := Some(now))
  {
    hide Channel.Inv, WakeupRuns.ShapesOk, NoneDue;
    ghost var states := mc.memory.States();
    mc.cycles := mc.cycles - multiset{now};
    mc.ranAt := Some(now);
    assert mc.memory.States() == states;
  }

  /** At most one command is sent, and the next cycle event scheduled. */
  method FinishCycle(mc: MemoryController, m: Moment) returns (sent: Option<nat>)
    requires mc.RefreshValid() && HeadsRoute(mc.cfg, mc.shadows) && mc.Backed(mc.memory.States())
    requires mc.cleanupAt != Some(m.now)
    modifies mc, mc.memory.banks, mc.memory.Subs()
    ensures mc.RefreshValid() && mc.transactionQueues == old(mc.transactionQueues)
    ensures mc.State(m.now) ==
      Wakeups.Rescheduled(mc.cfg, Wakeups.Sending(mc.memory.p, mc.cfg, old(mc.State(m.now)), m.latency, m.bounce))
    ensures sent.Some? ==> old(mc.lastIssueCycle) != m.now && mc.lastIssueCycle == m.now
  {
    hide HeadsRoute, Shaped, Wakeups.Sending, Wakeups.Rescheduled, AfterSend, Wakeups.NoneBefore;
    ghost var before := mc.State(m.now);
    sent := mc.CycleCommandQueues(m);
    mc.Reschedule(m.now);
  }

  /** One cycle event: one transaction of queue `q` is scheduled, and at most one command is sent. */
  method CycleFrom(mc: MemoryController, q: nat, force: bool, m: Moment)
    returns (found: Option<Request>, sent: Option<nat>)
    requires mc.MayRun(m.now) && m.now in mc.cycles && q < |mc.transactionQueues|
    requires mc.memory.p.pausing ==> force || forall i | 0 <= i < |mc.transactionQueues[q]| ::
      mc.transactionQueues[q][i].op.Read?
    modifies mc, mc.memory.banks, mc.memory.Subs()
    ensures mc.Coherent(m.now)
    ensures var choice := CycleChoice(mc.cfg, old(mc.shadows), m.now, q, old(mc.transactionQueues[q]), force);
      var step := Wakeups.Cycle(choice, m.latency, m.bounce);
      && Wakeups.Enabled(mc.memory.p, mc.cfg, old(mc.State(m.now)), step)
      && mc.State(m.now) == Wakeups.Apply(mc.memory.p, mc.cfg, old(mc.State(m.now)), step)
    ensures var picked := old(Pick(mc.cfg, mc.shadows, m.now, mc.transactionQueues[q]));
      && found == Forced(picked.found, force) && mc.transactionQueues == old(mc.transactionQueues)[q := picked.rest]
    ensures sent.Some? ==> old(mc.lastIssueCycle) != m.now && mc.lastIssueCycle == m.now
  {
    hide WakeupRuns.Valid, HeadsRoute, Pick, CycleChoice, Wakeups.Scheduled, Wakeups.Schedulable, NoneDue, Shaped;
    hide Wakeups.Sending, Wakeups.Rescheduled;
    ghost var before := mc.State(m.now);
    ghost var choice := CycleChoice(mc.cfg, mc.shadows, m.now, q, mc.transactionQueues[q], force);
    BeginCycle(mc, m.now);
    ghost var begun := mc.State(m.now);
    found := ScheduleFrom(mc, q, force, m.now);
    ghost var scheduled := mc.State(m.now);
    CycleEffect(mc.memory.p, mc.cfg, before, begun, scheduled, choice, m);
    WakeupRuns.StepKeepsValid(mc.memory.p, mc.cfg, before, Wakeups.Cycle(choice, m.latency, m.bounce));
    sent := FinishCycle(mc, m);
  }

  lemma CycleEffect(p: Timing, cfg: Config, s: Wakeups.State, begun: Wakeups.State, scheduled: Wakeups.State,
                    choice: Option<Wakeups.Choice>, m: Moment)
    requires Wakeups.ReadyToRun(s) && s.channel.now == m.now && m.now in s.cycles
    requires begun == s.(cycles := s.cycles - multiset{m.now}, ranAt := Some(m.now))
    requires Wakeups.Schedulable(p, cfg, begun, choice) && scheduled == Wakeups.Scheduled(p, cfg, begun, choice)
    ensures Wakeups.Enabled(p, cfg, s, Wakeups.Cycle(choice, m.latency, m.bounce)) && Wakeups.ReadyToRun(scheduled)
    ensures Wakeups.Apply(p, cfg, s, Wakeups.Cycle(choice, m.latency, m.bounce))
      == Wakeups.Rescheduled(cfg, Wakeups.Sending(p, cfg, scheduled, m.latency, m.bounce))
  {
    hide Wakeups.Sending, Wakeups.Rescheduled, Wakeups.NextWake;
    Wakeups.ScheduleKeepsReady(p, cfg, begun, choice);
  }
}
