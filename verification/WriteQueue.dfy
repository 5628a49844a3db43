/** The FRFCFS controller with a write queue, its drain flags updated in place. */
module WriteQueue {
  import opened Commands
  import opened ControllerSpec
  import opened Frfcfs
  import opened MemoryControllers
  import opened FrfcfsSpec
  import Spec = WriteQueueSpec
  import opened WriteQueueSpec
  import Wakeups
  import WakeupRuns

  lemma EmptyQueuesOk(limits: Limits)
    ensures QueuesOk(limits, [[], []], Spec.Flags(false, false, 0))
  {}

  class WriteQueueController {
    const mc: MemoryController
    const limits: Limits
    var draining: bool
    var forceDrain: bool
    var requestsPerDrain: nat

    constructor (mc: MemoryController, configured: Limits)
      requires mc.Coherent(0) && mc.transactionQueues == [[], []]
      ensures Valid(0) && this.mc == mc && limits == Sanitize(configured) && Flags() == Spec.Flags(false, false, 0)
    {
      hide WakeupRuns.Valid, Separated;
      this.mc := mc;
      var high, low := configured.high, configured.low;
      if high > configured.writeSize {
        high := configured.writeSize;
      } else if low > high {
        low := 0;
      }
      limits := configured.(high := high, low := low);
      draining, forceDrain, requestsPerDrain := false, false, 0;
      new;
      EmptyQueuesOk(limits);
      assert unchanged(mc) && unchanged(mc.memory.banks) && unchanged(mc.memory.Subs());
      assert mc.RefreshValid() && mc.memory.Valid();
    }

    ghost function Flags(): Flags
      reads this
    {
      Spec.Flags(draining, forceDrain, requestsPerDrain)
    }

    ghost predicate Valid(now: nat)
      reads this, mc, mc.memory.banks, mc.memory.Subs()
    {
      mc.Coherent(now) && QueuesOk(limits, mc.transactionQueues, Flags())
    }

    method IsIssuable(r: Request) returns (issuable: bool)
      requires |mc.transactionQueues| == 2
      ensures issuable ==
        Spec.Accepts(limits, Flags(), |mc.transactionQueues[READS]|, |mc.transactionQueues[WRITES]|, r.op)
    {
      issuable := true;
      if (r.op == Op.Read && |mc.transactionQueues[READS]| >= limits.readSize)
         || (r.op == Op.Write && (|mc.transactionQueues[WRITES]| >= limits.writeSize || draining || forceDrain)) {
        issuable := false;
      }
    }

    method IssueCommand(r: Request, now: nat) returns (ok: bool)
      requires Valid(now) && mc.cleanupAt != Some(now) && ((r.op.Read? || r.op.Write?) ==> IsNew(mc, r))
      modifies mc`transactionQueues, mc`cycles, mc`accepted
      ensures Valid(now)
      ensures ok == ((r.op.Read? || r.op.Write?)
        && Spec.Accepts(limits, Flags(), |old(mc.transactionQueues)[READS]|, |old(mc.transactionQueues)[WRITES]|, r.op))
      ensures !ok ==> unchanged(mc)
      ensures var step := Wakeups.Accept(if r.op.Read? then READS else WRITES, r.(arrival := now));
        ok ==> Wakeups.Enabled(mc.memory.p, mc.cfg, old(mc.State(now)), step)
               && mc.State(now) == Wakeups.Apply(mc.memory.p, mc.cfg, old(mc.State(now)), step)
    {
      hide WakeupRuns.Valid, Wakeups.Apply, Separated;
      ghost var before := mc.State(now);
      ok := IsIssuable(r);
      assert mc.State(now) == before;
      if !ok { return false; }
      if r.op == Op.Read {
        Accept(READS, r.(arrival := now), now);
      } else if r.op == Op.Write {
        Accept(WRITES, r.(arrival := now), now);
      } else {
        return false;
      }
    }

    /** An accepted transaction goes to the queue of its kind. */
    method Accept(q: nat, r: Request, now: nat)
      requires Valid(now) && mc.cleanupAt != Some(now) && IsNew(mc, r) && r.arrival == now
      requires Spec.Accepts(limits, Flags(), |mc.transactionQueues[READS]|, |mc.transactionQueues[WRITES]|, r.op)
      requires q == if r.op.Read? then READS else WRITES
      modifies mc`transactionQueues, mc`cycles, mc`accepted
      ensures Valid(now)
      ensures Wakeups.Enabled(mc.memory.p, mc.cfg, old(mc.State(now)), Wakeups.Accept(q, r))
      ensures mc.State(now) == Wakeups.Apply(mc.memory.p, mc.cfg, old(mc.State(now)), Wakeups.Accept(q, r))
    {
      hide WakeupRuns.Valid, Wakeups.Apply, QueuesOk;
      ghost var before := mc.State(now);
      AcceptKeepsQueues(limits, mc.transactionQueues, Flags(), r);
      TwoQueues(limits, mc.transactionQueues, Flags());
      mc.Enqueue(q, r, now);
      AcceptEffect(mc.memory.p, mc.cfg, before, q, r);
    }

    /** The switch between serving reads and draining writes. */
    method SwitchMode()
      requires QueuesOk(limits, mc.transactionQueues, Flags())
      modifies this
      ensures QueuesOk(limits, mc.transactionQueues, Flags())
      ensures Flags() == UpdateDrain(limits, old(Flags()), |mc.transactionQueues[WRITES]|)
    {
      if !draining && |mc.transactionQueues[WRITES]| >= limits.high && !forceDrain {
        draining := true;
      } else if draining && |mc.transactionQueues[WRITES]| <= limits.low && !forceDrain {
        requestsPerDrain := 0;
        draining := false;
      }
    }

    /**
      One cycle: switch mode, schedule one transaction from the queue that the mode selects, send at most one
      command.
     */
    method Cycle(m: Moment) returns (found: Option<Request>, sent: Option<nat>)
      requires Valid(m.now) && mc.cleanupAt != Some(m.now) && m.now in mc.cycles
      modifies this, mc, mc.memory.banks, mc.memory.Subs()
      ensures Valid(m.now)
      ensures |old(mc.transactionQueues)| == 2
      ensures var qs := old(mc.transactionQueues);
        var f := UpdateDrain(limits, old(Flags()), |qs[WRITES]|);
        var q := Source(f, |qs[READS]|);
        var choice := CycleChoice(mc.cfg, old(mc.shadows), m.now, q, qs[q], f.draining || f.force);
        var step := Wakeups.Cycle(choice, m.latency, m.bounce);
        && Wakeups.Enabled(mc.memory.p, mc.cfg, old(mc.State(m.now)), step)
        && mc.State(m.now) == Wakeups.Apply(mc.memory.p, mc.cfg, old(mc.State(m.now)), step)
        && Schedules(mc.cfg, old(mc.shadows), m.now, qs, f, mc.transactionQueues, Flags(), found)
      ensures sent.Some? ==> old(mc.lastIssueCycle) != m.now && mc.lastIssueCycle == m.now
    {
      hide WakeupRuns.Valid, QueuesOk, Pick, CycleChoice, Wakeups.Enabled, Wakeups.Apply, Schedules;
      ghost var before, qs := mc.State(m.now), mc.transactionQueues;
      SwitchMode();
      assert mc.State(m.now) == before;
      ghost var flags := Flags();
      TwoQueues(limits, qs, flags);
      var q := if draining || (forceDrain && |mc.transactionQueues[READS]| == 0) then WRITES else READS;
      found, sent := CycleFrom(mc, q, draining || forceDrain, m);
      if found.Some? && q == WRITES { requestsPerDrain := requestsPerDrain + 1; }
      PickKeepsQueues(mc.cfg, before.channel.shadows, m.now, limits, qs, flags, q);
      PickSchedules(mc.cfg, before.channel.shadows, m.now, qs, flags, mc.transactionQueues, Flags(), found);
    }

    method Drain(ghost now: nat)
      requires Valid(now)
      modifies this`forceDrain
      ensures forceDrain && Valid(now)
    {
      hide QueuesOk, WakeupRuns.Valid;
      ghost var flags := Flags();
      forceDrain := true;
      ForceKeepsQueues(limits, mc.transactionQueues, flags);
      assert unchanged(mc) && unchanged(mc.memory.banks) && unchanged(mc.memory.Subs());
      assert mc.RefreshValid() && mc.memory.Valid();
    }
  }

  lemma ForceKeepsQueues(l: Limits, qs: seq<seq<Request>>, f: Flags)
    requires QueuesOk(l, qs, f)
    ensures QueuesOk(l, qs, f.(force := true))
  {}

  lemma TwoQueues(l: Limits, qs: seq<seq<Request>>, f: Flags)
    requires QueuesOk(l, qs, f)
    ensures |qs| == 2 && forall i | 0 <= i < |qs[READS]| :: qs[READS][i].op.Read?
  {}

  /** What the policy picks leaves the queues in order; the drain counts a write. */
  lemma PickKeepsQueues(cfg: Config, shadows: seq<Shadow>, now: nat, l: Limits, qs: seq<seq<Request>>, f: Flags, q: nat)
    requires QueuesOk(l, qs, f) && q == Source(f, |qs[READS]|)
    ensures var picked := Pick(cfg, shadows, now, qs[q]);
      QueuesOk(l, qs[q := picked.rest], if picked.found.Some? && q == WRITES then f.(drained := f.drained + 1) else f)
  {
    var i := PickTakesOne(cfg, shadows, now, qs[q]);
    if Pick(cfg, shadows, now, qs[q]).found.Some? {
      TakeKeepsQueues(l, qs, f, i);
    } else {
      assert qs[q := qs[q]] == qs;
    }
  }

  /** Scheduling while writes are drained forbids that the write is cancelled or paused. */
  ghost function Flagged(s: Selection, force: bool): Selection {
    s.(found := Forced(s.found, force))
  }

  /**
    Scheduling in mode `f` from the queues `qs`: one transaction is picked by the policy from the
    queue that the mode selects and is flagged, the drain counts a write, and nothing else moves.
   */
  ghost predicate Schedules(cfg: Config, shadows: seq<Shadow>, now: nat, qs: seq<seq<Request>>, f: Flags,
                            qs': seq<seq<Request>>, f': Flags, found: Option<Request>) {
    && |qs| == |qs'| == 2
    && var q := Source(f, |qs[READS]|);
    && Selection(found, qs'[q]) == Flagged(Pick(cfg, shadows, now, qs[q]), f.draining || f.force)
    && qs'[1 - q] == qs[1 - q]
    && f' == if found.Some? && q == WRITES then f.(drained := f.drained + 1) else f
  }

  lemma PickSchedules(cfg: Config, shadows: seq<Shadow>, now: nat, qs: seq<seq<Request>>, f: Flags,
                      qs': seq<seq<Request>>, f': Flags, found: Option<Request>)
    requires |qs| == 2
    requires var q := Source(f, |qs[READS]|); var picked := Pick(cfg, shadows, now, qs[q]);
      && found == Forced(picked.found, f.draining || f.force) && qs' == qs[q := picked.rest]
      && f' == if found.Some? && q == WRITES then f.(drained := f.drained + 1) else f
    ensures Schedules(cfg, shadows, now, qs, f, qs', f', found)
  {
    hide Pick;
  }

  /** A tick of the specification is a round of the controller: same pick, same queues, same flags. */
  lemma TickIsARound(p: Timing, cfg: Config, l: Limits, s: State)
    requires Inv(p, cfg, l, s) && Spec.Enabled(p, cfg, s, Tick)
    ensures Follows(p, cfg, l, s, Tick)
    ensures var s' := Apply(p, cfg, l, s, Tick);
      exists found :: Schedules(cfg, s.channel.shadows, s.channel.now, s.channel.queues, Decided(l, s),
                                s'.channel.queues, s'.flags, found)
  {
    hide Channel.Inv, Channel.Enabled, Channel.Apply, QueueForced;
    ProjectionIsEnabled(p, cfg, l, s, Tick);
    var i := TickEffect(p, cfg, l, s);
    var f, s' := Decided(l, s), Apply(p, cfg, l, s, Tick);
    var q := s.channel.queues[Source(f, |s.channel.queues[READS]|)];
    var found := Flagged(Pick(cfg, s.channel.shadows, s.channel.now, q), f.draining || f.force).found;
    assert Schedules(cfg, s.channel.shadows, s.channel.now, s.channel.queues, f, s'.channel.queues, s'.flags, found);
  }
}
