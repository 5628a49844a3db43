/**
  FRFCFS with a separate write queue: writes are buffered until the high watermark is reached,
  then drained to the low watermark. The channel of this controller has two transaction queues.
 */
module WriteQueueSpec {
  import opened Commands
  import opened Sequences
  import opened ControllerSpec
  import opened FrfcfsSpec
  import Channel
  import RowHits
  import Sub = SubArraySpec

  const READS: nat := 0
  const WRITES: nat := 1

  /** Sizes of both queues, and the watermarks of the write queue. */
  datatype Limits = Limits(readSize: nat, writeSize: nat, high: nat, low: nat)

  /** `drained` counts the writes scheduled since the drain began. */
  datatype Flags = Flags(draining: bool, force: bool, drained: nat)

  datatype State = State(channel: Channel.State, flags: Flags)

  datatype Step =
    | Host(r: Request)             // the host tries to hand over a transaction
    | Drain                        // the host asks for everything to be drained
    | Tick                         // one scheduling cycle
    | Memory(step: Channel.Step)   // commands are sent, completions fire, time passes

  // ---------------------------------------------------------------- configuration

  /** The limits that a configuration leads to. */
  function Sanitize(l: Limits): Limits {
    if l.high > l.writeSize then l.(high := l.writeSize)
    else if l.low > l.high then l.(low := 0)
    else l
  }

  /**
    The sanity check clamps the high watermark to the queue; else it clears a low one above it. So it leaves
    a low watermark above the high one exactly when it clamped the high one below it.
   */
  lemma SanitizedLimits(l: Limits)
    ensures Sanitize(l).readSize == l.readSize && Sanitize(l).writeSize == l.writeSize
    ensures Sanitize(l).high <= l.high && Sanitize(l).high <= l.writeSize
    ensures Sanitize(l).high == l.high || Sanitize(l).high == l.writeSize
    ensures Sanitize(l).low == (if l.high <= l.writeSize && l.high < l.low then 0 else l.low)
    ensures Sanitize(l).low <= Sanitize(l).high <==> (l.writeSize < l.high ==> l.low <= l.writeSize)
  {}

  // ---------------------------------------------------------------- specification

  predicate Accepts(l: Limits, f: Flags, waiting: nat, writes: nat, op: Op) {
    && (op.Read? ==> waiting < l.readSize)
    && (op.Write? ==> writes < l.writeSize && !f.draining && !f.force)
  }

  /** Starts a drain at the high watermark and ends it at the low one; a forced drain does neither. */
  function UpdateDrain(l: Limits, f: Flags, writes: nat): Flags {
    if !f.draining && writes >= l.high && !f.force then f.(draining := true)
    else if f.draining && writes <= l.low && !f.force then f.(draining := false, drained := 0)
    else f
  }

  /** The queue that is scheduled from. */
  function Source(f: Flags, waiting: nat): nat { if f.draining || (f.force && waiting == 0) then WRITES else READS }

  /** Reads wait in the read queue and writes in the write queue. */
  ghost predicate Separated(qs: seq<seq<Request>>)
    requires |qs| == 2
  {
    && (forall i | 0 <= i < |qs[READS]| :: qs[READS][i].op.Read?)
    && forall i | 0 <= i < |qs[WRITES]| :: qs[WRITES][i].op.Write?
  }

  ghost predicate Inv(p: Timing, cfg: Config, l: Limits, s: State) {
    Channel.Inv(p, cfg, s.channel) && QueuesOk(l, s.channel.queues, s.flags) && WritesForced(s.channel)
  }

  /** The part of the invariant that is about the transaction queues and the flags. */
  ghost predicate QueuesOk(l: Limits, qs: seq<seq<Request>>, f: Flags) {
    && |qs| == 2 && Separated(qs) && |qs[READS]| <= l.readSize && |qs[WRITES]| <= l.writeSize
    && DrainOk(l, f, |qs[WRITES]|)
  }

  /** The drained writes and those still waiting make up at least a full high watermark. */
  predicate DrainOk(l: Limits, f: Flags, writes: nat) {
    && (!f.draining && !f.force ==> f.drained == 0)
    && (f.draining ==> l.high <= writes + f.drained)
  }

  /** Every write that left the transaction queues carries the forced flag. */
  ghost predicate WritesForced(c: Channel.State) {
    && (forall k | 0 <= k < |c.shadows| :: QueueForced(c.shadows[k].queue))
    && forall i | 0 <= i < |c.sent| && c.sent[i].r.op.IsWrite() :: c.sent[i].r.forced
  }

  ghost predicate QueueForced(q: seq<Request>) { forall i | 0 <= i < |q| && q[i].op.IsWrite() :: q[i].forced }

  /** The flags once a tick has decided about draining. */
  function Decided(l: Limits, s: State): Flags
    requires |s.channel.queues| == 2
  {
    UpdateDrain(l, s.flags, |s.channel.queues[WRITES]|)
  }

  /** What a tick schedules, if any selector finds something. */
  ghost function Scheduling(cfg: Config, l: Limits, s: State): Option<Channel.Step>
    requires |s.channel.queues| == 2
  {
    var f := Decided(l, s);
    var q := Source(f, |s.channel.queues[READS]|);
    match Choice(cfg, s.channel.shadows, s.channel.now, s.channel.queues[q])
    case None => None
    case Some(sel) => Some(Channel.Schedule(q, sel, f.draining || f.force))
  }

  /** The steps that reach the channel: none or one. */
  ghost function Projection(cfg: Config, l: Limits, s: State, step: Step): Option<Channel.Step>
    requires |s.channel.queues| == 2
  {
    match step
    case Host(r) =>
      if (r.op.Read? || r.op.Write?)
         && Accepts(l, s.flags, |s.channel.queues[READS]|, |s.channel.queues[WRITES]|, r.op) then
        Some(Channel.Accept(if r.op.Read? then READS else WRITES, r))
      else
        None
    case Drain => None
    case Tick => Scheduling(cfg, l, s)
    case Memory(c) => Some(c)
  }

  ghost predicate Enabled(p: Timing, cfg: Config, s: State, step: Step) {
    match step
    case Host(r) =>
      && s.channel.cleanupAt != Some(s.channel.now)
      && InRange(cfg, r) && !r.issued && !r.last && r.id !in s.channel.accepted
    case Drain => true
    case Tick => s.channel.cleanupAt != Some(s.channel.now)
    case Memory(c) => !c.Accept? && !c.Schedule? && Channel.Enabled(p, cfg, s.channel, c)
  }

  function FlagsAfter(cfg: Config, l: Limits, s: State, step: Step, scheduled: bool): Flags
    requires |s.channel.queues| == 2
  {
    match step
    case Drain => s.flags.(force := true)
    case Tick =>
      var f := Decided(l, s);
      if scheduled && Source(f, |s.channel.queues[READS]|) == WRITES then f.(drained := f.drained + 1) else f
    case _ => s.flags
  }

  /** The channel can follow `step`; ProjectionIsEnabled shows that it always can. */
  ghost predicate Follows(p: Timing, cfg: Config, l: Limits, s: State, step: Step) {
    && |s.channel.queues| == 2
    && var c := Projection(cfg, l, s, step);
       c.Some? ==> Channel.Enabled(p, cfg, s.channel, c.value)
  }

  ghost function Move(p: Timing, cfg: Config, c: Channel.State, step: Option<Channel.Step>): Channel.State
    requires step.Some? ==> Channel.Enabled(p, cfg, c, step.value)
  {
    if step.Some? then Channel.Apply(p, cfg, c, step.value) else c
  }

  ghost function Apply(p: Timing, cfg: Config, l: Limits, s: State, step: Step): State
    requires Follows(p, cfg, l, s, step)
  {
    var c := Projection(cfg, l, s, step);
    State(Move(p, cfg, s.channel, c), FlagsAfter(cfg, l, s, step, c.Some?))
  }

  // ---------------------------------------------------------------- every step is a channel step

  /**
    Whatever the controller does, the channel can do: in particular a write is only ever
    scheduled with the forced flag, which the channel demands when writes can be paused.
   */
  lemma ProjectionIsEnabled(p: Timing, cfg: Config, l: Limits, s: State, step: Step)
    requires Inv(p, cfg, l, s) && Enabled(p, cfg, s, step)
    ensures Follows(p, cfg, l, s, step)
  {
    hide Channel.Inv, WritesForced, Matches, Channel.Issuable, DrainOk;
  }

  lemma ExpandForced(cfg: Config, sh: Shadow, r: Request, writing: bool)
    requires Sized(cfg, sh) && r.subarray < cfg.subarrays && sh.queue == []
    requires (r.op.Read? || r.op.Write?) && (r.op.Write? ==> r.forced)
    ensures QueueForced(Expand(cfg, sh, r, false, writing).shadow.queue)
  {}

  lemma ScheduleKeepsForced(p: Timing, cfg: Config, c: Channel.State, step: Channel.Step)
    requires Channel.Inv(p, cfg, c) && Channel.Enabled(p, cfg, c, step) && step.Schedule? && WritesForced(c)
    requires step.force || forall i | 0 <= i < |c.queues[step.queue]| :: c.queues[step.queue][i].op.Read?
    ensures WritesForced(Channel.Apply(p, cfg, c, step))
  {
    var i, r, id, writing := Channel.ScheduleEffect(p, cfg, c, step);
    ExpandForced(cfg, c.shadows[id], r, writing);
  }

  lemma IssueKeepsForced(p: Timing, cfg: Config, c: Channel.State, step: Channel.Step)
    requires Channel.Inv(p, cfg, c) && Channel.Enabled(p, cfg, c, step) && step.IssueHead? && WritesForced(c)
    ensures WritesForced(Channel.Apply(p, cfg, c, step))
  {
    hide Channel.Inv, Channel.Apply, Channel.Issuable, Channel.CommandOk, Channel.ShadowAfter,
         Channel.DeviceAfter, QueueForced;
    var r, m := Channel.IssueEffect(p, cfg, c, step);
    var c' := Channel.Apply(p, cfg, c, step);
    forall k | 0 <= k < |c'.shadows| ensures QueueForced(c'.shadows[k].queue) {
      Channel.SendMarksHead(cfg, c.shadows, step.id, r, k);
      MarkingKeepsForced(c.shadows[k].queue);
    }
    assert r.op.IsWrite() ==> r.forced by { HeadIsForced(c.shadows[step.id].queue); }
  }

  lemma HeadIsForced(q: seq<Request>)
    requires QueueForced(q) && q != []
    ensures q[0].op.IsWrite() ==> q[0].forced
  {}

  lemma MarkingKeepsForced(q: seq<Request>)
    requires QueueForced(q)
    ensures q != [] ==> QueueForced(MarkIssued(q))
  {}

  lemma OtherKeepsForced(p: Timing, cfg: Config, c: Channel.State, step: Channel.Step)
    requires Channel.Enabled(p, cfg, c, step) && !step.Schedule? && !step.IssueHead? && WritesForced(c)
    ensures WritesForced(Channel.Apply(p, cfg, c, step))
  {
    var c' := Channel.Apply(p, cfg, c, step);
    forall k | 0 <= k < |c'.shadows| ensures QueueForced(c'.shadows[k].queue) {
      assert QueueForced(c.shadows[k].queue);
    }
  }

  /** Only accepting and scheduling touch the transaction queues. */
  lemma MemoryKeepsQueues(p: Timing, cfg: Config, c: Channel.State, step: Channel.Step)
    requires Channel.Enabled(p, cfg, c, step) && !step.Schedule? && !step.Accept?
    ensures Channel.Apply(p, cfg, c, step).queues == c.queues
    ensures Channel.Apply(p, cfg, c, step).accepted == c.accepted
  {}

  lemma WithoutKeeps(q: seq<Request>, i: nat)
    requires i < |q|
    ensures |Without(q, i)| == |q| - 1 && forall r :: r in Without(q, i) ==> r in q
  {}

  lemma ScheduleTakes(p: Timing, cfg: Config, c: Channel.State, step: Channel.Step) returns (i: nat)
    requires Channel.Inv(p, cfg, c) && Channel.Enabled(p, cfg, c, step) && step.Schedule?
    ensures i == FirstMatch(cfg, c.shadows, c.now, step.sel, c.queues[step.queue]) < |c.queues[step.queue]|
    ensures var c' := Channel.Apply(p, cfg, c, step);
      c'.queues == c.queues[step.queue := Without(c.queues[step.queue], i)]
  {
    var r, id, writing;
    i, r, id, writing := Channel.ScheduleEffect(p, cfg, c, step);
  }

  lemma MoveTakes(p: Timing, cfg: Config, c: Channel.State, step: Option<Channel.Step>) returns (i: nat)
    requires Channel.Inv(p, cfg, c) && step.Some? && step.value.Schedule? && Channel.Enabled(p, cfg, c, step.value)
    ensures var q := step.value.queue;
      && i == FirstMatch(cfg, c.shadows, c.now, step.value.sel, c.queues[q]) < |c.queues[q]|
      && Move(p, cfg, c, step).queues == c.queues[q := Without(c.queues[q], i)]
  {
    i := ScheduleTakes(p, cfg, c, step.value);
  }

  /** What a tick does to the queues: the source queue loses at most one transaction, the other none. */
  lemma TickEffect(p: Timing, cfg: Config, l: Limits, s: State) returns (i: nat)
    requires Channel.Inv(p, cfg, s.channel) && Follows(p, cfg, l, s, Tick)
    ensures var qs, qs' := s.channel.queues, Apply(p, cfg, l, s, Tick).channel.queues;
      var q := Source(Decided(l, s), |qs[READS]|);
      if Scheduling(cfg, l, s) == None then qs' == qs
      else
        && i == FirstMatch(cfg, s.channel.shadows, s.channel.now, Scheduling(cfg, l, s).value.sel, qs[q]) < |qs[q]|
        && qs' == qs[q := Without(qs[q], i)]
  {
    i := 0;
    if Scheduling(cfg, l, s).Some? { i := MoveTakes(p, cfg, s.channel, Scheduling(cfg, l, s)); }
  }

  // ---------------------------------------------------------------- every step keeps the invariant

  lemma TakeKeepsQueues(l: Limits, qs: seq<seq<Request>>, f: Flags, i: nat)
    requires QueuesOk(l, qs, f) && i < |qs[Source(f, |qs[READS]|)]|
    ensures var q := Source(f, |qs[READS]|);
      QueuesOk(l, qs[q := Without(qs[q], i)], if q == WRITES then f.(drained := f.drained + 1) else f)
  {
    var q := Source(f, |qs[READS]|);
    WithoutKeeps(qs[q], i);
    forall j | 0 <= j < |Without(qs[q], i)| ensures Without(qs[q], i)[j] in qs[q] {
      assert Without(qs[q], i)[j] in Without(qs[q], i);
    }
  }

  lemma AcceptKeepsQueues(l: Limits, qs: seq<seq<Request>>, f: Flags, r: Request)
    requires QueuesOk(l, qs, f) && (r.op.Read? || r.op.Write?)
    requires Accepts(l, f, |qs[READS]|, |qs[WRITES]|, r.op)
    ensures var q := if r.op.Read? then READS else WRITES;
      QueuesOk(l, qs[q := qs[q] + [r]], f)
  {}

  lemma HostKeepsInv(p: Timing, cfg: Config, l: Limits, s: State, step: Step)
    requires Inv(p, cfg, l, s) && Follows(p, cfg, l, s, step) && (step.Host? || step.Drain?)
    ensures Inv(p, cfg, l, Apply(p, cfg, l, s, step))
  {
    var c := Projection(cfg, l, s, step);
    if c.Some? {
      AcceptKeepsQueues(l, s.channel.queues, s.flags, step.r.(arrival := s.channel.now));
      Channel.StepKeepsInv(p, cfg, s.channel, c.value);
      OtherKeepsForced(p, cfg, s.channel, c.value);
    }
  }

  lemma TickKeepsInv(p: Timing, cfg: Config, l: Limits, s: State)
    requires Inv(p, cfg, l, s) && Follows(p, cfg, l, s, Tick)
    ensures Inv(p, cfg, l, Apply(p, cfg, l, s, Tick))
  {
    hide Channel.Inv, Channel.Enabled, Channel.Apply, QueueForced, Choice;
    var i := TickEffect(p, cfg, l, s);
    var c := Scheduling(cfg, l, s);
    if c.Some? {
      Channel.StepKeepsInv(p, cfg, s.channel, c.value);
      ScheduleKeepsForced(p, cfg, s.channel, c.value);
      TakeKeepsQueues(l, s.channel.queues, Decided(l, s), i);
    }
  }

  lemma MemoryKeepsInv(p: Timing, cfg: Config, l: Limits, s: State, step: Step)
    requires Inv(p, cfg, l, s) && Enabled(p, cfg, s, step) && step.Memory?
    ensures Follows(p, cfg, l, s, step)
    ensures Inv(p, cfg, l, Apply(p, cfg, l, s, step))
  {
    Channel.StepKeepsInv(p, cfg, s.channel, step.step);
    MemoryKeepsQueues(p, cfg, s.channel, step.step);
    if step.step.IssueHead? {
      IssueKeepsForced(p, cfg, s.channel, step.step);
    } else {
      OtherKeepsForced(p, cfg, s.channel, step.step);
    }
  }

  lemma StepKeepsInv(p: Timing, cfg: Config, l: Limits, s: State, step: Step)
    requires Inv(p, cfg, l, s) && Enabled(p, cfg, s, step)
    ensures Follows(p, cfg, l, s, step)
    ensures Inv(p, cfg, l, Apply(p, cfg, l, s, step))
  {
    ProjectionIsEnabled(p, cfg, l, s, step);
    if step.Tick? {
      TickKeepsInv(p, cfg, l, s);
    } else if step.Memory? {
      MemoryKeepsInv(p, cfg, l, s, step);
    } else {
      HostKeepsInv(p, cfg, l, s, step);
    }
  }

  // ---------------------------------------------------------------- runs

  function Initial(cfg: Config): State { State(Channel.Initial(cfg, 2), Flags(false, false, 0)) }

  lemma InitialInv(p: Timing, cfg: Config, l: Limits)
    ensures Inv(p, cfg, l, Initial(cfg))
  {
    Channel.InitialInv(p, cfg, 2);
  }

  ghost function Execute(p: Timing, cfg: Config, l: Limits, s: State, steps: seq<Step>): Option<State>
    requires Inv(p, cfg, l, s)
    decreases |steps|
  {
    if steps == [] then Some(s)
    else if Enabled(p, cfg, s, steps[0]) then
      StepKeepsInv(p, cfg, l, s, steps[0]);
      Execute(p, cfg, l, Apply(p, cfg, l, s, steps[0]), steps[1..])
    else
      None
  }

  lemma {:induction false} RunKeepsInv(p: Timing, cfg: Config, l: Limits, s: State, steps: seq<Step>)
    requires Inv(p, cfg, l, s) && Execute(p, cfg, l, s, steps).Some?
    ensures Inv(p, cfg, l, Execute(p, cfg, l, s, steps).value)
    decreases |steps|
  {
    if steps != [] {
      StepKeepsInv(p, cfg, l, s, steps[0]);
      RunKeepsInv(p, cfg, l, Apply(p, cfg, l, s, steps[0]), steps[1..]);
    }
  }

  ghost predicate Reached(p: Timing, cfg: Config, l: Limits, steps: seq<Step>, s: State) {
    InitialInv(p, cfg, l);
    Execute(p, cfg, l, Initial(cfg), steps) == Some(s)
  }

  /** The channel steps of a run. */
  ghost function Trace(p: Timing, cfg: Config, l: Limits, s: State, steps: seq<Step>): seq<Channel.Step>
    requires Inv(p, cfg, l, s) && Execute(p, cfg, l, s, steps).Some?
    decreases |steps|
  {
    if steps == [] then []
    else
      StepKeepsInv(p, cfg, l, s, steps[0]);
      var c := Projection(cfg, l, s, steps[0]);
      (if c.Some? then [c.value] else []) + Trace(p, cfg, l, Apply(p, cfg, l, s, steps[0]), steps[1..])
  }

  // ---------------------------------------------------------------- results

  /**
    Refinement. Every run of this controller is a run of the channel, with writes that can be
    paused or without, so all that holds of channel runs holds here.
   */
  lemma {:induction false} RunsAreChannelRuns(p: Timing, cfg: Config, l: Limits, s: State, steps: seq<Step>)
    requires Inv(p, cfg, l, s) && Execute(p, cfg, l, s, steps).Some?
    ensures Channel.Execute(p, cfg, s.channel, Trace(p, cfg, l, s, steps))
      == Some(Execute(p, cfg, l, s, steps).value.channel)
    decreases |steps|
  {
    if steps != [] {
      StepKeepsInv(p, cfg, l, s, steps[0]);
      var s' := Apply(p, cfg, l, s, steps[0]);
      RunsAreChannelRuns(p, cfg, l, s', steps[1..]);
      var c := Projection(cfg, l, s, steps[0]);
      var rest := Trace(p, cfg, l, s', steps[1..]);
      if c.Some? {
        assert ([c.value] + rest)[1..] == rest;
      } else {
        assert [] + rest == rest;
      }
    }
  }

  /**
    Every write that was sent carried the forced flag, no write in progress was paused or
    cancelled, and neither queue outgrows its size.
   */
  lemma NoWriteIsBounced(p: Timing, cfg: Config, l: Limits, steps: seq<Step>, s: State)
    requires Reached(p, cfg, l, steps, s)
    ensures forall i | 0 <= i < |s.channel.sent| && s.channel.sent[i].r.op.IsWrite() :: s.channel.sent[i].r.forced
    ensures forall k | 0 <= k < |s.channel.devices| ::
      forall x | 0 <= x < |s.channel.devices[k].subs| && s.channel.devices[k].subs[x].writing.Writing? ::
        s.channel.devices[k].subs[x].writing.bounce.NotBounced?
    ensures |s.channel.queues| == 2 && |s.channel.queues[READS]| <= l.readSize
    ensures |s.channel.queues[WRITES]| <= l.writeSize
  {
    InitialInv(p, cfg, l);
    RunKeepsInv(p, cfg, l, Initial(cfg), steps);
    forall k | 0 <= k < |s.channel.devices|
      ensures forall x | 0 <= x < |s.channel.devices[k].subs| && s.channel.devices[k].subs[x].writing.Writing? ::
        s.channel.devices[k].subs[x].writing.bounce.NotBounced? {
      assert Channel.BankOk(p, cfg, k, s.channel.shadows[k], s.channel.devices[k], s.channel);
      forall x | 0 <= x < |s.channel.devices[k].subs| && s.channel.devices[k].subs[x].writing.Writing?
        ensures s.channel.devices[k].subs[x].writing.bounce.NotBounced? {
        assert Sub.Inv(p, s.channel.devices[k].subs[x], s.channel.now);
      }
    }
  }

  /**
    One step of a drain: no write is accepted, and the write queue either stays or loses the one
    write that the drain counts.
   */
  lemma DrainStepOnlyShrinks(p: Timing, cfg: Config, l: Limits, s: State, step: Step)
    requires Inv(p, cfg, l, s) && Enabled(p, cfg, s, step) && Follows(p, cfg, l, s, step)
    requires s.flags.draining && Apply(p, cfg, l, s, step).flags.draining
    ensures var s' := Apply(p, cfg, l, s, step);
      var w, w' := s.channel.queues[WRITES], s'.channel.queues[WRITES];
      && |s'.channel.queues| == 2
      && ((s'.flags.drained == s.flags.drained && w' == w)
          || (s'.flags.drained == s.flags.drained + 1 && exists i :: (0 <= i < |w| && w' == Without(w, i))))
      && (s'.channel.queues[READS] == s.channel.queues[READS]
          || exists r :: s'.channel.queues[READS] == s.channel.queues[READS] + [r])
  {
    hide Channel.Inv, Channel.Enabled, QueueForced, Choice;
    match step
    case Tick => var i := TickEffect(p, cfg, l, s);
    case Host(r) =>
      if Projection(cfg, l, s, step).Some? {
        assert Apply(p, cfg, l, s, step).channel.queues[READS]
          == s.channel.queues[READS] + [r.(arrival := s.channel.now)];
      }
    case Drain =>
    case Memory(c) => MemoryKeepsQueues(p, cfg, s.channel, c);
  }

  /** A drain lasts throughout a run: every state on the way is draining. */
  ghost predicate DrainsThroughout(p: Timing, cfg: Config, l: Limits, s: State, steps: seq<Step>)
    requires Inv(p, cfg, l, s) && Execute(p, cfg, l, s, steps).Some?
    decreases |steps|
  {
    && s.flags.draining
    && (steps != [] ==>
          (StepKeepsInv(p, cfg, l, s, steps[0]);
           DrainsThroughout(p, cfg, l, Apply(p, cfg, l, s, steps[0]), steps[1..])))
  }

  /** Writes leave one by one and are all counted; none comes in, and no read leaves. */
  ghost predicate OnlyShrinks(qs: seq<seq<Request>>, f: Flags, qs': seq<seq<Request>>, f': Flags) {
    && |qs| == |qs'| == 2
    && |qs'[WRITES]| + f'.drained == |qs[WRITES]| + f.drained
    && (forall r :: r in qs'[WRITES] ==> r in qs[WRITES])
    && qs[READS] <= qs'[READS]
  }

  lemma DrainStepShrinks(p: Timing, cfg: Config, l: Limits, s: State, step: Step)
    requires Inv(p, cfg, l, s) && Enabled(p, cfg, s, step) && Follows(p, cfg, l, s, step)
    requires s.flags.draining && Apply(p, cfg, l, s, step).flags.draining
    ensures var s' := Apply(p, cfg, l, s, step); OnlyShrinks(s.channel.queues, s.flags, s'.channel.queues, s'.flags)
  {
    DrainStepOnlyShrinks(p, cfg, l, s, step);
    var s' := Apply(p, cfg, l, s, step);
    if s'.flags.drained != s.flags.drained {
      var w := s.channel.queues[WRITES];
      var i :| 0 <= i < |w| && s'.channel.queues[WRITES] == Without(w, i);
      WithoutKeeps(w, i);
    }
  }

  /** Over a whole drain the write queue only shrinks, the drain counts it, and reads only queue up. */
  lemma {:induction false} DrainOnlyShrinks(p: Timing, cfg: Config, l: Limits, s: State, steps: seq<Step>)
    requires Inv(p, cfg, l, s) && Execute(p, cfg, l, s, steps).Some? && DrainsThroughout(p, cfg, l, s, steps)
    ensures var s' := Execute(p, cfg, l, s, steps).value;
      OnlyShrinks(s.channel.queues, s.flags, s'.channel.queues, s'.flags)
    decreases |steps|
  {
    if steps != [] {
      StepKeepsInv(p, cfg, l, s, steps[0]);
      var s1 := Apply(p, cfg, l, s, steps[0]);
      DrainOnlyShrinks(p, cfg, l, s1, steps[1..]);
      DrainStepShrinks(p, cfg, l, s, steps[0]);
    }
  }

  /**
    A transaction of the host is accepted if and only if its queue is not full, and a write only while
    nothing is or has to be drained; then it is the last of the queue of its kind.
   */
  lemma HostAcceptedIff(p: Timing, cfg: Config, l: Limits, s: State, r: Request)
    requires Inv(p, cfg, l, s) && Enabled(p, cfg, s, Host(r))
    ensures Follows(p, cfg, l, s, Host(r))
    ensures var c, s' := s.channel, Apply(p, cfg, l, s, Host(r));
      && s'.flags == s.flags
      && (r.op.Read? && |c.queues[0]| < l.readSize ==>
            s'.channel.queues == [c.queues[0] + [r.(arrival := c.now)], c.queues[1]])
      && (r.op.Write? && |c.queues[1]| < l.writeSize && !s.flags.draining && !s.flags.force ==>
            s'.channel.queues == [c.queues[0], c.queues[1] + [r.(arrival := c.now)]])
      && (!(r.op.Read? && |c.queues[0]| < l.readSize)
          && !(r.op.Write? && |c.queues[1]| < l.writeSize && !s.flags.draining && !s.flags.force) ==>
            s' == s)
  {
    ProjectionIsEnabled(p, cfg, l, s, Host(r));
    hide Channel.Inv, WritesForced, DrainOk, Channel.Enabled;
  }

  /** The draining flag follows the watermarks, unless the drain is forced. */
  predicate FollowsWatermarks(l: Limits, f: Flags, writes: nat, f': Flags) {
    && f'.force == f.force
    && (f.force ==> f'.draining == f.draining)
    && (!f.force && f.draining ==> (!f'.draining <==> writes <= l.low))
    && (!f.force && !f.draining ==> (f'.draining <==> l.high <= writes))
  }

  /** Transaction `r` has become the last command of its bank's queue, and no other bank has changed. */
  ghost predicate NowQueued(cfg: Config, shadows: seq<Shadow>, shadows': seq<Shadow>, r: Request, force: bool) {
    && IdOf(cfg, r) < |shadows| == |shadows'| && shadows' == shadows[IdOf(cfg, r) := shadows'[IdOf(cfg, r)]]
    && shadows[IdOf(cfg, r)].queue == []
    && var q := shadows'[IdOf(cfg, r)].queue;
    && q != []
    && var c := q[|q| - 1];
    && c.op.IsColumn() && c.op.IsRead() == r.op.IsRead() && c.(op := r.op) == r.(forced := r.forced || force)
  }

  /**
    What a tick does, on the flags and the queues alone. Unless everything has to be drained, a drain is
    over if and only if at most `low` writes wait, and begins if and only if at least `high` do. The tick
    schedules what the policy picks from the write queue if it drains, or if everything has to be drained
    and no read waits, and from the read queue otherwise. Only writes taken are counted, from 0 for each
    drain, and what is taken while draining is flagged.
   */
  lemma TickFollowsWatermarks(p: Timing, cfg: Config, l: Limits, s: State)
    requires Inv(p, cfg, l, s) && Enabled(p, cfg, s, Tick)
    ensures Follows(p, cfg, l, s, Tick)
    ensures var c, f, s' := s.channel, s.flags, Apply(p, cfg, l, s, Tick);
      var q := if s'.flags.draining || (f.force && c.queues[READS] == []) then WRITES else READS;
      var picked := Pick(cfg, c.shadows, c.now, c.queues[q]);
      && FollowsWatermarks(l, f, |c.queues[WRITES]|, s'.flags)
      && s'.flags.drained == (if f.draining && !s'.flags.draining then 0 else f.drained)
                             + (if q == WRITES && picked.found.Some? then 1 else 0)
      && s'.channel == c.(queues := c.queues[q := picked.rest], shadows := s'.channel.shadows)
      && (if picked.found.None? then s'.channel.shadows == c.shadows
          else NowQueued(cfg, c.shadows, s'.channel.shadows, picked.found.value, s'.flags.draining || f.force))
  {
    ProjectionIsEnabled(p, cfg, l, s, Tick);
    DecidedFollowsWatermarks(l, s);
    var step := Scheduling(cfg, l, s);
    hide Channel.Inv, Channel.Enabled, Channel.Apply, QueueForced, Choice, Matches, NowQueued, FollowsWatermarks,
      UpdateDrain, WritesForced;
    if step.Some? {
      ScheduledIsQueued(p, cfg, s.channel, step.value);
    }
  }

  lemma DecidedFollowsWatermarks(l: Limits, s: State)
    requires |s.channel.queues| == 2
    ensures var f, f' := s.flags, Decided(l, s);
      && FollowsWatermarks(l, f, |s.channel.queues[WRITES]|, f')
      && f'.drained == if f.draining && !f'.draining then 0 else f.drained
    ensures forall n :: FollowsWatermarks(l, s.flags, |s.channel.queues[WRITES]|, Decided(l, s).(drained := n))
  {}

  /** What the channel does when the policy schedules from a queue. */
  lemma ScheduledIsQueued(p: Timing, cfg: Config, c: Channel.State, step: Channel.Step)
    requires Channel.Inv(p, cfg, c) && Channel.Enabled(p, cfg, c, step) && step.Schedule?
    requires Choice(cfg, c.shadows, c.now, c.queues[step.queue]) == Some(step.sel)
    ensures var c', picked := Channel.Apply(p, cfg, c, step), Pick(cfg, c.shadows, c.now, c.queues[step.queue]);
      && picked.found.Some? && c' == c.(queues := c.queues[step.queue := picked.rest], shadows := c'.shadows)
      && NowQueued(cfg, c.shadows, c'.shadows, picked.found.value, step.force)
  {
    assert step.queue < |c.queues|;
    hide Channel.Inv, Channel.Enabled, Channel.Apply, Choice, Matches, Expand, NowQueued, QueueId, Hits;
    var i, r, id, writing := Channel.ScheduleEffect(p, cfg, c, step);
    ExpandedIsQueued(cfg, c.shadows, Taken(cfg, c.queues[step.queue], i), step.force, writing);
  }

  lemma ExpandedIsQueued(cfg: Config, shadows: seq<Shadow>, t: Request, force: bool, writing: bool)
    requires InRange(cfg, t) && IdOf(cfg, t) < |shadows| && Sized(cfg, shadows[IdOf(cfg, t)])
    requires shadows[IdOf(cfg, t)].queue == [] && (t.op.Read? || t.op.Write?) && !t.issued
    ensures var id: nat, r := IdOf(cfg, t), t.(forced := t.forced || force);
      && id < |shadows|
      && NowQueued(cfg, shadows, shadows[id := Expand(cfg, shadows[id], r, false, writing).shadow], t, force)
  {
    hide Expand, QueueId, Hits;
    RowHits.ExpansionIsFor(cfg, shadows[IdOf(cfg, t)], t.(forced := t.forced || force), writing);
  }

  /** A drain that ends has brought the queue down to the low watermark, with at least `high - low` writes. */
  lemma DrainIsComplete(p: Timing, cfg: Config, l: Limits, s: State, step: Step)
    requires Inv(p, cfg, l, s) && Follows(p, cfg, l, s, step)
    requires s.flags.draining && !Apply(p, cfg, l, s, step).flags.draining
    ensures step.Tick? && |s.channel.queues[WRITES]| <= l.low && l.high <= s.flags.drained + l.low
  {}

  /** Once the host has asked to drain, the draining flag never changes again. */
  lemma {:induction false} ForceFreezesDraining(p: Timing, cfg: Config, l: Limits, s: State, steps: seq<Step>)
    requires Inv(p, cfg, l, s) && Execute(p, cfg, l, s, steps).Some? && s.flags.force
    ensures var f := Execute(p, cfg, l, s, steps).value.flags; f.force && f.draining == s.flags.draining
    ensures s.flags.draining ==> DrainsThroughout(p, cfg, l, s, steps)
    decreases |steps|
  {
    if steps != [] {
      StepKeepsInv(p, cfg, l, s, steps[0]);
      ForceFreezesDraining(p, cfg, l, Apply(p, cfg, l, s, steps[0]), steps[1..]);
    }
  }

  /**
    After Drain, waiting reads are served if and only if no drain was under way when it was
    called: otherwise every later tick looks at the write queue alone.
   */
  lemma ReadsServedAfterDrainIff(p: Timing, cfg: Config, l: Limits, s: State)
    requires Inv(p, cfg, l, s) && Enabled(p, cfg, s, Tick) && s.flags.force && s.channel.queues[READS] != []
    requires Choice(cfg, s.channel.shadows, s.channel.now, s.channel.queues[READS]).Some?
    ensures Follows(p, cfg, l, s, Tick) && |Apply(p, cfg, l, s, Tick).channel.queues| == 2
    ensures Apply(p, cfg, l, s, Tick).channel.queues[READS] != s.channel.queues[READS] <==> !s.flags.draining
  {
    ProjectionIsEnabled(p, cfg, l, s, Tick);
    var i := TickEffect(p, cfg, l, s);
  }

  /** Drain in the middle of a drain starves every waiting read for the rest of the run. */
  lemma DrainDuringDrainStarvesReads(p: Timing, cfg: Config, l: Limits, s: State, steps: seq<Step>)
    requires Inv(p, cfg, l, s) && s.flags.draining
    requires Execute(p, cfg, l, s, [Drain] + steps).Some?
    ensures |Execute(p, cfg, l, s, [Drain] + steps).value.channel.queues| == 2
    ensures s.channel.queues[READS] <= Execute(p, cfg, l, s, [Drain] + steps).value.channel.queues[READS]
  {
    var s' := Apply(p, cfg, l, s, Drain);
    StepKeepsInv(p, cfg, l, s, Drain);
    assert ([Drain] + steps)[1..] == steps;
    ForceFreezesDraining(p, cfg, l, s', steps);
    DrainOnlyShrinks(p, cfg, l, s', steps);
  }

  function Transaction(id: nat, op: Op): Request {
    Request(id, op, 0, 0, 0, 0, 0, 1, 0, false, false, false, false)
  }

  /** The host hands over a transaction that is accepted, at cycle 0. */
  lemma HostHandsOver(p: Timing, cfg: Config, l: Limits, s: State, id: nat, op: Op) returns (s': State)
    requires Inv(p, cfg, l, s) && s.channel.now == 0 && s.channel.cleanupAt == None
    requires (op.Read? || op.Write?) && id !in s.channel.accepted
    requires Accepts(l, s.flags, |s.channel.queues[READS]|, |s.channel.queues[WRITES]|, op)
    ensures var step := Host(Transaction(id, op));
      Enabled(p, cfg, s, step) && Follows(p, cfg, l, s, step) && s' == Apply(p, cfg, l, s, step)
    ensures Inv(p, cfg, l, s') && s'.flags == s.flags && s'.channel.now == 0 && s'.channel.cleanupAt == None
    ensures var q := if op.Read? then READS else WRITES;
      s'.channel.queues == s.channel.queues[q := s.channel.queues[q] + [Transaction(id, op)]]
    ensures s'.channel.accepted == s.channel.accepted + multiset{id}
  {
    hide Inv;
    var step := Host(Transaction(id, op));
    StepKeepsInv(p, cfg, l, s, step);
    s' := Apply(p, cfg, l, s, step);
  }

  /** A tick that finds nothing to schedule only decides about draining. */
  lemma IdleTick(p: Timing, cfg: Config, l: Limits, s: State) returns (s': State)
    requires Inv(p, cfg, l, s) && s.channel.cleanupAt != Some(s.channel.now) && Decided(l, s).draining
    requires forall i | 0 <= i < |s.channel.queues[WRITES]| :: s.channel.queues[WRITES][i].arrival == s.channel.now
    ensures Enabled(p, cfg, s, Tick) && Follows(p, cfg, l, s, Tick) && s' == Apply(p, cfg, l, s, Tick)
    ensures Inv(p, cfg, l, s') && s'.channel == s.channel && s'.flags == Decided(l, s)
  {
    hide Inv;
    StepKeepsInv(p, cfg, l, s, Tick);
    NothingArrivedEarlier(cfg, s, WRITES);
    s' := Apply(p, cfg, l, s, Tick);
  }

  /**
    Such a drain is real: a controller whose high watermark is one write starts to drain with a
    read waiting, and once Drain is called that read is never served.
   */
  lemma DrainCanStarve(p: Timing, cfg: Config, l: Limits) returns (steps: seq<Step>, s: State)
    requires l.high == 1 && 1 <= l.writeSize && 1 <= l.readSize
    ensures Reached(p, cfg, l, steps, s) && Inv(p, cfg, l, s)
    ensures s.flags.draining && |s.channel.queues[READS]| == 1
    ensures forall rest | Execute(p, cfg, l, s, [Drain] + rest).Some? ::
      var qs := Execute(p, cfg, l, s, [Drain] + rest).value.channel.queues;
      |qs| == 2 && s.channel.queues[READS] <= qs[READS]
  {
    hide Inv, Apply, Enabled, Follows, Execute;
    InitialInv(p, cfg, l);
    var s0 := Initial(cfg);
    assert s0.channel.queues == [[], []];
    var s1 := HostHandsOver(p, cfg, l, s0, 0, Op.Write);
    var s2 := HostHandsOver(p, cfg, l, s1, 1, Op.Read);
    s := IdleTick(p, cfg, l, s2);
    steps := [Host(Transaction(0, Op.Write)), Host(Transaction(1, Op.Read)), Tick];
    RunOfThree(p, cfg, l, s0, steps, s1, s2, s);
    forall rest | Execute(p, cfg, l, s, [Drain] + rest).Some?
      ensures var qs := Execute(p, cfg, l, s, [Drain] + rest).value.channel.queues;
        |qs| == 2 && s.channel.queues[READS] <= qs[READS] {
      DrainDuringDrainStarvesReads(p, cfg, l, s, rest);
    }
  }

  /** Requests are not scheduled in the cycle of their arrival. */
  lemma NothingArrivedEarlier(cfg: Config, s: State, q: nat)
    requires q < |s.channel.queues|
    requires forall i | 0 <= i < |s.channel.queues[q]| :: s.channel.queues[q][i].arrival == s.channel.now
    ensures Choice(cfg, s.channel.shadows, s.channel.now, s.channel.queues[q]) == None
  {
    var qs, now := s.channel.queues[q], s.channel.now;
    forall sel: Selector ensures !Found(cfg, s.channel.shadows, now, sel, qs) {
      var i := FirstMatch(cfg, s.channel.shadows, now, sel, qs);
    }
  }

  lemma RunOfThree(p: Timing, cfg: Config, l: Limits, s0: State, steps: seq<Step>, s1: State, s2: State, s3: State)
    requires |steps| == 3
    requires Inv(p, cfg, l, s0) && Enabled(p, cfg, s0, steps[0]) && Follows(p, cfg, l, s0, steps[0])
    requires s1 == Apply(p, cfg, l, s0, steps[0]) && Inv(p, cfg, l, s1) && Enabled(p, cfg, s1, steps[1])
    requires Follows(p, cfg, l, s1, steps[1]) && s2 == Apply(p, cfg, l, s1, steps[1]) && Inv(p, cfg, l, s2)
    requires Enabled(p, cfg, s2, steps[2]) && Follows(p, cfg, l, s2, steps[2]) && s3 == Apply(p, cfg, l, s2, steps[2])
    requires Inv(p, cfg, l, s3)
    ensures Execute(p, cfg, l, s0, steps) == Some(s3)
  {
    hide Inv, Enabled, Follows, Apply;
    assert Execute(p, cfg, l, s2, steps[2..]) == Execute(p, cfg, l, s3, steps[2..][1..]);
    assert steps[2..][1..] == [] && steps[1..][1..] == steps[2..];
    assert Execute(p, cfg, l, s1, steps[1..]) == Execute(p, cfg, l, s2, steps[2..]);
  }
}
