/**
  What the event-driven controller does over a whole run, counted on the run itself: how many refreshes
  the pulses of a bank group have led to, when the pulses come, and whose turn it is to be sent.
 */
module ControllerLaw {
  import opened Arithmetic
  import opened Commands
  import opened ControllerSpec
  import opened RefreshSpec
  import Bank = BankSpec
  import BankRuns
  import Channel
  import R = ChannelRefresh
  import T = Timetable
  import W = Wakeups
  import WakeupRuns

  // ---------------------------------------------------------------- refreshes that were queued

  /** The REFRESH commands of a bank group among the commands that were sent. */
  function RefreshesSent(sent: seq<Channel.Sent>, rank: nat, head: nat): nat {
    if sent == [] then 0
    else
      var r := sent[|sent| - 1].r;
      (if r.op.Refresh? && r.rank == rank && r.bank == head then 1 else 0)
      + RefreshesSent(sent[..|sent| - 1], rank, head)
  }

  /** The REFRESH commands of a bank group that were queued so far: those sent and those still to be sent. */
  ghost function RefreshesQueued(cfg: Config, c: Channel.State, rank: nat, head: nat): nat
    requires R.GroupQueues(cfg, c.shadows, rank, head)
  {
    RefreshesSent(c.sent, rank, head) + R.Outstanding(cfg, c.shadows, rank, head)
  }

  function Queued(steps: seq<Channel.Step>, rank: nat, head: nat): nat {
    if steps == [] then 0
    else (if steps[0] == Channel.RefreshGroup(rank, head) then 1 else 0) + Queued(steps[1..], rank, head)
  }

  ghost predicate Counts(cfg: Config, c: Channel.State, rank: nat, head: nat) {
    R.GroupQueues(cfg, c.shadows, rank, head) && R.FlagsOk(cfg, c.shadows, rank, head)
  }

  lemma StepCounts(p: Timing, cfg: Config, c: Channel.State, step: Channel.Step, rank: nat, head: nat)
    requires Channel.Inv(p, cfg, c) && Channel.Enabled(p, cfg, c, step) && Counts(cfg, c, rank, head)
    ensures var c' := Channel.Apply(p, cfg, c, step);
      && Counts(cfg, c', rank, head)
      && RefreshesQueued(cfg, c', rank, head) == RefreshesQueued(cfg, c, rank, head) + Queued([step], rank, head)
  {
    hide Channel.Inv, R.FlagsOk, R.Outstanding, R.Flagged, R.GroupQueues;
    R.StepMoves(p, cfg, c, step, rank, head);
    assert [step][1..] == [];
    StepSends(p, cfg, c, step, rank, head);
  }

  /** Only sending changes what was sent. */
  lemma StepSends(p: Timing, cfg: Config, c: Channel.State, step: Channel.Step, rank: nat, head: nat)
    requires Channel.Enabled(p, cfg, c, step)
    ensures RefreshesSent(Channel.Apply(p, cfg, c, step).sent, rank, head)
      == RefreshesSent(c.sent, rank, head) + if R.MoveOf(c, step, rank, head).Sends? then 1 else 0
  {
    hide Channel.Issuable, Channel.Reaches, Channel.DeviceAfter, Channel.ShadowAfter;
    if step.IssueHead? {
      var sent' := c.sent + [Channel.Sent(c.now, c.shadows[step.id].queue[0])];
      assert sent'[..|sent'| - 1] == c.sent;
    }
  }

  lemma {:induction false} RunCounts(p: Timing, cfg: Config, c: Channel.State, steps: seq<Channel.Step>, rank: nat,
                                     head: nat)
    requires Channel.Inv(p, cfg, c) && Channel.Execute(p, cfg, c, steps).Some? && Counts(cfg, c, rank, head)
    ensures var c' := Channel.Execute(p, cfg, c, steps).value;
      && Counts(cfg, c', rank, head)
      && RefreshesQueued(cfg, c', rank, head) == RefreshesQueued(cfg, c, rank, head) + Queued(steps, rank, head)
    decreases |steps|
  {
    hide Channel.Inv, Channel.Enabled, Channel.Apply, R.FlagsOk, RefreshesQueued, R.GroupQueues;
    if steps != [] {
      Channel.StepKeepsInv(p, cfg, c, steps[0]);
      StepCounts(p, cfg, c, steps[0], rank, head);
      RunCounts(p, cfg, Channel.Apply(p, cfg, c, steps[0]), steps[1..], rank, head);
      assert [steps[0]][1..] == [];
    }
  }

  // ---------------------------------------------------------------- pulses

  /** The refresh pulses of a bank group in a run. */
  function Pulses(steps: seq<W.Step>, rank: nat, head: nat): nat {
    if steps == [] then 0
    else (if steps[0] == W.Pulse(rank, head) then 1 else 0) + Pulses(steps[1..], rank, head)
  }

  /** The number of the bank group that begins at bank `head`. */
  function Group(cfg: Config, rank: nat, head: nat): nat {
    rank * (cfg.banks / cfg.perRefresh) + head / cfg.perRefresh
  }

  lemma GroupIsIndex(cfg: Config, rank: nat, head: nat, rank': nat, head': nat)
    requires cfg.Valid() && Channel.IsGroup(cfg, rank, head) && Channel.IsGroup(cfg, rank', head')
    ensures Group(cfg, rank, head) == GroupIndex(cfg, rank, head) < cfg.ranks * cfg.Groups()
    ensures GroupIndex(cfg, rank, head) == GroupIndex(cfg, rank', head') <==> rank == rank' && head == head'
  {
    GroupInRange(cfg, rank, head);
    var h := HeadIndex(cfg, head);
    var h' := HeadIndex(cfg, head');
    DivModOfRadix(cfg.perRefresh, h, 0);
    DivModOfRadix(cfg.perRefresh, h', 0);
    if GroupIndex(cfg, rank, head) == GroupIndex(cfg, rank', head') {
      MixedRadixIsInjective(cfg.Groups(), rank, h, rank', h');
    }
  }

  /** After `n` pulses: the first ones are put off, and each further one has led to a refresh. */
  ghost predicate Tallied(cfg: Config, s: W.State, rank: nat, head: nat, n: nat) {
    && Counts(cfg, s.channel, rank, head) && Group(cfg, rank, head) < |s.delayed|
    && s.delayed[Group(cfg, rank, head)] == (if n < cfg.refreshThreshold then n else cfg.refreshThreshold - 1)
    && RefreshesQueued(cfg, s.channel, rank, head)
       == if n < cfg.refreshThreshold then 0 else n - (cfg.refreshThreshold - 1)
  }

  /** What a step does to the refreshes that are delayed and queued. */
  lemma StepDelays(p: Timing, cfg: Config, s: W.State, step: W.Step, rank: nat, head: nat)
    requires cfg.Valid() && W.Enabled(p, cfg, s, step) && Channel.IsGroup(cfg, rank, head)
    requires |s.delayed| == cfg.ranks * cfg.Groups()
    ensures Group(cfg, rank, head) < |s.delayed| == |W.Apply(p, cfg, s, step).delayed|
    ensures var g := Group(cfg, rank, head);
      var put := s.delayed[g] + 1 < cfg.refreshThreshold;
      && W.Apply(p, cfg, s, step).delayed[g] == s.delayed[g] + (if step == W.Pulse(rank, head) && put then 1 else 0)
      && Queued(W.Trace(p, cfg, s, step), rank, head) == if step == W.Pulse(rank, head) && !put then 1 else 0
  {
    GroupIsIndex(cfg, rank, head, rank, head);
    if step.Pulse? {
      GroupIsIndex(cfg, rank, head, step.rank, step.head);
      PulseDelays(p, cfg, s, step, rank, head);
    } else {
      TraceQueuesNothing(p, cfg, s, step, rank, head);
      OtherStepsDelayNothing(p, cfg, s, step);
    }
  }

  lemma OtherStepsDelayNothing(p: Timing, cfg: Config, s: W.State, step: W.Step)
    requires W.Enabled(p, cfg, s, step) && !step.Pulse?
    ensures W.Apply(p, cfg, s, step).delayed == s.delayed
  {
    hide W.ToSend, W.Soonest, Channel.Enabled, Channel.Apply, W.Attends, W.Available;
  }

  lemma TraceQueuesNothing(p: Timing, cfg: Config, s: W.State, step: W.Step, rank: nat, head: nat)
    requires W.Enabled(p, cfg, s, step) && !step.Pulse?
    ensures Queued(W.Trace(p, cfg, s, step), rank, head) == 0
  {
    hide W.Enabled, W.ToSend, W.Scheduled;
    NothingQueued(W.Trace(p, cfg, s, step), rank, head);
  }

  lemma {:induction false} NothingQueued(steps: seq<Channel.Step>, rank: nat, head: nat)
    requires forall i | 0 <= i < |steps| :: !steps[i].RefreshGroup?
    ensures Queued(steps, rank, head) == 0
  {
    if steps != [] { NothingQueued(steps[1..], rank, head); }
  }

  lemma QueuedThree(a: Channel.Step, b: Channel.Step, c: Channel.Step, rank: nat, head: nat)
    requires a.MarkRefresh? && c.MarkRefresh?
    ensures Queued([a, b, c], rank, head) == if b == Channel.RefreshGroup(rank, head) then 1 else 0
  {
    assert [a, b, c][1..] == [b, c] && [b, c][1..] == [c] && [c][1..] == [];
    assert Queued([c], rank, head) == 0;
  }

  lemma PulseDelays(p: Timing, cfg: Config, s: W.State, step: W.Step, rank: nat, head: nat)
    requires W.Enabled(p, cfg, s, step) && step.Pulse? && GroupIndex(cfg, rank, head) < |s.delayed|
    requires GroupIndex(cfg, rank, head) == GroupIndex(cfg, step.rank, step.head)
      <==> rank == step.rank && head == step.head
    ensures var g := GroupIndex(cfg, rank, head);
      var put := s.delayed[g] + 1 < cfg.refreshThreshold;
      && |W.Apply(p, cfg, s, step).delayed| == |s.delayed|
      && W.Apply(p, cfg, s, step).delayed[g] == s.delayed[g] + (if step == W.Pulse(rank, head) && put then 1 else 0)
      && Queued(W.Trace(p, cfg, s, step), rank, head) == if step == W.Pulse(rank, head) && !put then 1 else 0
  {
    hide W.NextWake, GroupIndex, W.Refreshed;
    var mark, queue, unmark := Channel.MarkRefresh(step.rank, step.head, true),
      Channel.RefreshGroup(step.rank, step.head), Channel.MarkRefresh(step.rank, step.head, false);
    QueuedThree(mark, queue, unmark, rank, head);
  }

  lemma StepKeepsTallied(p: Timing, cfg: Config, s: W.State, step: W.Step, rank: nat, head: nat, n: nat)
    requires WakeupRuns.Valid(p, cfg, s) && W.Enabled(p, cfg, s, step) && Channel.IsGroup(cfg, rank, head)
    requires Tallied(cfg, s, rank, head, n)
    ensures Tallied(cfg, W.Apply(p, cfg, s, step), rank, head, n + if step == W.Pulse(rank, head) then 1 else 0)
  {
    hide W.Apply, W.Enabled, W.Trace, Channel.Inv, NoneDue, WakeupRuns.ShapesOk, WakeupRuns.NothingPast, Counts,
      RefreshesQueued, Group;
    StepDelays(p, cfg, s, step, rank, head);
    W.StepIsRun(p, cfg, s, step);
    RunCounts(p, cfg, s.channel, W.Trace(p, cfg, s, step), rank, head);
  }

  lemma {:induction false} RunKeepsTallied(p: Timing, cfg: Config, s: W.State, steps: seq<W.Step>, rank: nat, head: nat,
                                           n: nat)
    requires WakeupRuns.Valid(p, cfg, s) && W.Execute(p, cfg, s, steps).Some? && Channel.IsGroup(cfg, rank, head)
    requires Tallied(cfg, s, rank, head, n)
    ensures Tallied(cfg, W.Execute(p, cfg, s, steps).value, rank, head, n + Pulses(steps, rank, head))
    decreases |steps|
  {
    hide WakeupRuns.Valid, W.Apply, W.Enabled, Tallied;
    if steps != [] {
      WakeupRuns.StepKeepsValid(p, cfg, s, steps[0]);
      StepKeepsTallied(p, cfg, s, steps[0], rank, head, n);
      var m := n + if steps[0] == W.Pulse(rank, head) then 1 else 0;
      RunKeepsTallied(p, cfg, W.Apply(p, cfg, s, steps[0]), steps[1..], rank, head, m);
    }
  }

  /**
    Refreshes follow pulses. In every state that the controller reaches, the first pulses of a bank group,
    one fewer than the threshold, are put off, and each later one has queued exactly one REFRESH.
   */
  lemma RefreshesFollowPulses(p: Timing, cfg: Config, queues: nat, steps: seq<W.Step>, s: W.State, rank: nat, head: nat)
    requires cfg.Valid() && W.Reached(p, cfg, queues, steps, s) && Channel.IsGroup(cfg, rank, head)
    ensures Group(cfg, rank, head) < |s.delayed| && R.GroupQueues(cfg, s.channel.shadows, rank, head)
    ensures var n, t := Pulses(steps, rank, head), cfg.refreshThreshold;
      && s.delayed[Group(cfg, rank, head)] == (if n < t then n else t - 1)
      && RefreshesSent(s.channel.sent, rank, head) + R.Outstanding(cfg, s.channel.shadows, rank, head)
         == if n < t then 0 else n - (t - 1)
  {
    ReachedIsTallied(p, cfg, queues, steps, s, rank, head);
    hide *;
    TalliedMeans(cfg, s, rank, head, Pulses(steps, rank, head));
  }

  lemma ReachedIsTallied(p: Timing, cfg: Config, queues: nat, steps: seq<W.Step>, s: W.State, rank: nat, head: nat)
    requires cfg.Valid() && W.Reached(p, cfg, queues, steps, s) && Channel.IsGroup(cfg, rank, head)
    ensures Tallied(cfg, s, rank, head, Pulses(steps, rank, head))
  {
    hide WakeupRuns.Valid, Tallied, W.Execute, W.Initial;
    WakeupRuns.InitialOk(p, cfg, queues);
    InitiallyTallied(p, cfg, queues, rank, head);
    RunKeepsTallied(p, cfg, W.Initial(cfg, queues), steps, rank, head, 0);
  }

  lemma TalliedMeans(cfg: Config, s: W.State, rank: nat, head: nat, n: nat)
    requires Tallied(cfg, s, rank, head, n)
    ensures Group(cfg, rank, head) < |s.delayed| && R.GroupQueues(cfg, s.channel.shadows, rank, head)
    ensures var t := cfg.refreshThreshold;
      && s.delayed[Group(cfg, rank, head)] == (if n < t then n else t - 1)
      && RefreshesSent(s.channel.sent, rank, head) + R.Outstanding(cfg, s.channel.shadows, rank, head)
         == if n < t then 0 else n - (t - 1)
  {
    hide Group, R.GroupQueues, R.Outstanding, RefreshesSent, R.FlagsOk;
  }

  lemma InitiallyTallied(p: Timing, cfg: Config, queues: nat, rank: nat, head: nat)
    requires cfg.Valid() && Channel.IsGroup(cfg, rank, head)
    ensures Tallied(cfg, W.Initial(cfg, queues), rank, head, 0)
  {
    R.InitiallyNone(p, cfg, queues, rank, head);
    GroupIsIndex(cfg, rank, head, rank, head);
    hide R.Outstanding, R.FlagsOk, Group;
  }

  // ---------------------------------------------------------------- the times of the pulses

  /** Pulses of a group so far, and the next one by the timetable. */
  ghost predicate Timed(cfg: Config, interval: nat, t: T.State, rank: nat, head: nat, n: nat)
    requires cfg.Valid()
  {
    var g := Group(cfg, rank, head);
    && g < |t.pulseAt| == cfg.ranks * cfg.Groups()
    && t.pulseAt[g] == interval + g * (interval / (cfg.ranks * cfg.Groups())) + n * interval
  }

  lemma StepKeepsTimed(p: Timing, cfg: Config, interval: nat, t: T.State, step: W.Step, rank: nat, head: nat, n: nat)
    requires cfg.Valid() && T.Enabled(p, cfg, t, step) && Channel.IsGroup(cfg, rank, head)
    requires Timed(cfg, interval, t, rank, head, n)
    ensures var n' := n + if step == W.Pulse(rank, head) then 1 else 0;
      Timed(cfg, interval, T.Apply(p, cfg, interval, t, step), rank, head, n')
  {
    hide W.Apply, Group, GroupIndex;
    if step.Pulse? {
      IsPulsed(p, cfg, t, step);
      GroupIsIndex(cfg, rank, head, step.rank, step.head);
      assert n * interval + interval == (n + 1) * interval;
    }
  }

  lemma IsPulsed(p: Timing, cfg: Config, t: T.State, step: W.Step)
    requires T.Enabled(p, cfg, t, step) && step.Pulse?
    ensures Channel.IsGroup(cfg, step.rank, step.head) && t.pulseAt[GroupIndex(cfg, step.rank, step.head)] == T.Now(t)
  {}

  lemma {:induction false} RunKeepsTimed(p: Timing, cfg: Config, interval: nat, t: T.State, steps: seq<W.Step>,
                                         rank: nat, head: nat, n: nat)
    requires cfg.Valid() && T.Execute(p, cfg, interval, t, steps).Some? && Channel.IsGroup(cfg, rank, head)
    requires Timed(cfg, interval, t, rank, head, n)
    ensures Timed(cfg, interval, T.Execute(p, cfg, interval, t, steps).value, rank, head, n + Pulses(steps, rank, head))
    decreases |steps|
  {
    hide T.Apply, T.Enabled, Timed;
    if steps != [] {
      StepKeepsTimed(p, cfg, interval, t, steps[0], rank, head, n);
      var m := n + if steps[0] == W.Pulse(rank, head) then 1 else 0;
      RunKeepsTimed(p, cfg, interval, T.Apply(p, cfg, interval, t, steps[0]), steps[1..], rank, head, m);
    }
  }

  /**
    By the timetable, the groups take turns within an interval: of `m` groups, group `g` is pulsed for the
    first time at one interval and `g` slices of an `m`-th of it, and then once in every interval.
   */
  lemma PulsesComeOnTime(p: Timing, cfg: Config, queues: nat, interval: nat, steps: seq<W.Step>, t: T.State, rank: nat,
                         head: nat)
    requires cfg.Valid() && T.Reached(p, cfg, queues, interval, steps, t) && Channel.IsGroup(cfg, rank, head)
    ensures var g, m, n := Group(cfg, rank, head), cfg.ranks * (cfg.banks / cfg.perRefresh), Pulses(steps, rank, head);
      && 0 < m && g < |t.pulseAt| == m
      && t.pulseAt[g] == interval + g * (interval / m) + n * interval
      && T.Now(t) <= t.pulseAt[g]
  {
    ReachedIsTimed(p, cfg, queues, interval, steps, t, rank, head);
    hide T.FirstPulses, T.OnTime, T.Reached, Group, Pulses;
    T.PulsesAreRegular(p, cfg, queues, interval, steps, t);
  }

  lemma ReachedIsTimed(p: Timing, cfg: Config, queues: nat, interval: nat, steps: seq<W.Step>, t: T.State, rank: nat,
                       head: nat)
    requires cfg.Valid() && T.Reached(p, cfg, queues, interval, steps, t) && Channel.IsGroup(cfg, rank, head)
    ensures Timed(cfg, interval, t, rank, head, Pulses(steps, rank, head))
  {
    hide T.Execute, T.Initial, Timed;
    InitiallyTimed(cfg, queues, interval, rank, head);
    RunKeepsTimed(p, cfg, interval, T.Initial(cfg, queues, interval), steps, rank, head, 0);
  }

  lemma InitiallyTimed(cfg: Config, queues: nat, interval: nat, rank: nat, head: nat)
    requires cfg.Valid() && Channel.IsGroup(cfg, rank, head)
    ensures Timed(cfg, interval, T.Initial(cfg, queues, interval), rank, head, 0)
  {
    GroupIsIndex(cfg, rank, head, rank, head);
    hide Group, GroupIndex;
  }

  // ---------------------------------------------------------------- turns

  /** The round robin moves with every command that is sent, and with nothing else. */
  ghost predicate MovesTurn(s: W.State, s': W.State) {
    && |s'.channel.shadows| == |s.channel.shadows|
    && if |s'.channel.sent| == |s.channel.sent| then s'.curQueue == s.curQueue
       else |s'.channel.sent| == |s.channel.sent| + 1
            && s'.curQueue == if s.curQueue == |s.channel.shadows| then 0 else s.curQueue + 1
  }

  lemma SendingMovesTurn(p: Timing, cfg: Config, s: W.State, latency: nat, bounce: Bounce)
    requires W.ReadyToRun(s) && s.curQueue <= |s.channel.shadows|
    ensures MovesTurn(s, W.Sending(p, cfg, s, latency, bounce))
  {
    hide W.ToSend, W.Available, Channel.Issuable, Channel.DeviceAfter, Channel.ShadowAfter;
  }

  lemma StepMovesTurn(p: Timing, cfg: Config, s: W.State, step: W.Step)
    requires W.Enabled(p, cfg, s, step) && s.curQueue <= |s.channel.shadows|
    ensures MovesTurn(s, W.Apply(p, cfg, s, step))
  {
    hide W.Apply;
    match step
    case Cycle(_, _, _) => CycleMovesTurn(p, cfg, s, step);
    case Wake(_, _) => WakeMovesTurn(p, cfg, s, step);
    case _ => OtherMovesNoTurn(p, cfg, s, step);
  }

  lemma CycleMovesTurn(p: Timing, cfg: Config, s: W.State, step: W.Step)
    requires W.Enabled(p, cfg, s, step) && step.Cycle? && s.curQueue <= |s.channel.shadows|
    ensures MovesTurn(s, W.Apply(p, cfg, s, step))
  {
    hide W.NextWake, W.Sending, W.Attends, Channel.Enabled;
    var begun := s.(cycles := s.cycles - multiset{s.channel.now}, ranAt := Some(s.channel.now));
    W.ScheduleKeepsReady(p, cfg, begun, step.choice);
    SchedulingMovesNoTurn(p, cfg, begun, step.choice);
    hide W.Scheduled;
    SendingMovesTurn(p, cfg, W.Scheduled(p, cfg, begun, step.choice), step.latency, step.bounce);
  }

  lemma SchedulingMovesNoTurn(p: Timing, cfg: Config, s: W.State, choice: Option<W.Choice>)
    requires W.Schedulable(p, cfg, s, choice)
    ensures var s' := W.Scheduled(p, cfg, s, choice);
      && s'.channel.sent == s.channel.sent && s'.curQueue == s.curQueue
      && |s'.channel.shadows| == |s.channel.shadows|
  {
    hide W.NextWake, Expand;
  }

  lemma WakeMovesTurn(p: Timing, cfg: Config, s: W.State, step: W.Step)
    requires W.Enabled(p, cfg, s, step) && step.Wake? && s.curQueue <= |s.channel.shadows|
    ensures MovesTurn(s, W.Apply(p, cfg, s, step))
  {
    hide W.NextWake, W.Sending;
    var begun := s.(wakes := s.wakes - {s.channel.now}, ranAt := Some(s.channel.now));
    SendingMovesTurn(p, cfg, W.Woken(cfg, begun), step.latency, step.bounce);
  }

  lemma OtherMovesNoTurn(p: Timing, cfg: Config, s: W.State, step: W.Step)
    requires W.Enabled(p, cfg, s, step) && !step.Cycle? && !step.Wake?
    ensures MovesTurn(s, W.Apply(p, cfg, s, step))
  {
    hide W.NextWake, W.EffectivelyEmpty, BankRuns.Apply, BankRuns.Enabled, GroupIndex;
  }

  /** Of `n` queues, the turns go from 0 to n: queue 0 comes first in two of n + 1 turns. */
  lemma {:induction false} RunKeepsTurn(p: Timing, cfg: Config, s: W.State, steps: seq<W.Step>)
    requires W.Execute(p, cfg, s, steps).Some? && s.curQueue == |s.channel.sent| % (|s.channel.shadows| + 1)
    ensures var s' := W.Execute(p, cfg, s, steps).value;
      |s'.channel.shadows| == |s.channel.shadows| && s'.curQueue == |s'.channel.sent| % (|s.channel.shadows| + 1)
    decreases |steps|
  {
    hide W.Apply, W.Enabled;
    if steps != [] {
      var s1 := W.Apply(p, cfg, s, steps[0]);
      StepMovesTurn(p, cfg, s, steps[0]);
      NextRemainder(|s.channel.sent|, |s.channel.shadows| + 1);
      RunKeepsTurn(p, cfg, s1, steps[1..]);
    }
  }

  lemma NextRemainder(a: nat, n: nat)
    requires 0 < n
    ensures (a + 1) % n == if a % n == n - 1 then 0 else a % n + 1
  {
    DivModParts(a, n);
    var q := a / n;
    if a % n == n - 1 {
      assert a + 1 == (q + 1) * n + 0;
      DivModOfRadix(n, q + 1, 0);
    } else {
      DivModOfRadix(n, q, a % n + 1);
    }
  }

  /** Of the queues from number `start` on and around, the `i`-th is the first whose head can be sent. */
  ghost predicate IsTurn(p: Timing, cfg: Config, c: Channel.State, start: nat, i: nat, id: nat) {
    && i < |c.shadows| && id == (start + i) % |c.shadows| && W.CanSend(p, cfg, c.shadows, c.devices, id, c.now)
    && W.NoneBefore(p, cfg, c.shadows, c.devices, start, i, c.now)
  }

  /**
    Whose turn it is. In every reachable state, after `k` commands were sent, the command that would be sent
    next is that of the first queue, counted from number k mod (n + 1) of the `n` queues on and around, whose
    head can be sent; none is sent only if no head can be, or in a cycle in which one was sent already or a
    refresh was handled.
   */
  lemma SentInTurn(p: Timing, cfg: Config, queues: nat, steps: seq<W.Step>, s: W.State)
    requires W.Reached(p, cfg, queues, steps, s)
    ensures var c, n := s.channel, |s.channel.shadows|;
      var start := |c.sent| % (n + 1);
      match W.ToSend(p, cfg, s)
      case None =>
        || s.handled == Some(c.now) || c.lastIssue == c.now
        || forall k: nat | k < n :: !W.CanSend(p, cfg, c.shadows, c.devices, k, c.now)
      case Some(id) => exists i: nat :: IsTurn(p, cfg, c, start, i, id)
  {
    ReachedInTurn(p, cfg, queues, steps, s);
    hide *;
    FirstIsTurn(p, cfg, s);
  }

  lemma ReachedInTurn(p: Timing, cfg: Config, queues: nat, steps: seq<W.Step>, s: W.State)
    requires W.Reached(p, cfg, queues, steps, s)
    ensures s.curQueue == |s.channel.sent| % (|s.channel.shadows| + 1)
  {
    hide W.Execute, W.Initial;
    InitialTurn(cfg, queues);
    RunKeepsTurn(p, cfg, W.Initial(cfg, queues), steps);
  }

  lemma FirstIsTurn(p: Timing, cfg: Config, s: W.State)
    ensures match W.ToSend(p, cfg, s)
      case None =>
        || s.handled == Some(s.channel.now) || s.channel.lastIssue == s.channel.now
        || forall k: nat | k < |s.channel.shadows| ::
             !W.CanSend(p, cfg, s.channel.shadows, s.channel.devices, k, s.channel.now)
      case Some(id) => exists i: nat :: IsTurn(p, cfg, s.channel, s.curQueue, i, id)
  {
    hide W.CanSend;
    var c, n := s.channel, |s.channel.shadows|;
    W.FirstTurnCanSend(p, cfg, c.shadows, c.devices, s.curQueue, 0, c.now);
    var i := W.FirstTurn(p, cfg, c.shadows, c.devices, s.curQueue, 0, c.now);
    if i == n {
      forall k: nat | k < n ensures !W.CanSend(p, cfg, c.shadows, c.devices, k, c.now) {
        var j := W.TurnCovers(s.curQueue, n, k);
      }
    } else {
      assert IsTurn(p, cfg, c, s.curQueue, i, W.Turn(s.curQueue, i, n));
    }
  }

  lemma InitialTurn(cfg: Config, queues: nat)
    ensures var s := W.Initial(cfg, queues); s.curQueue == |s.channel.sent| % (|s.channel.shadows| + 1)
  {}

  /** The cycle in which a refresh was handled is the one of the pulse that queued it. */
  lemma HandledIff(p: Timing, cfg: Config, s: W.State, step: W.Step)
    requires cfg.Valid() && W.Enabled(p, cfg, s, step) && |s.delayed| == cfg.ranks * cfg.Groups()
    ensures step.Pulse? ==> Group(cfg, step.rank, step.head) < |s.delayed|
    ensures W.Apply(p, cfg, s, step).handled ==
      if step.Pulse? && cfg.refreshThreshold <= s.delayed[Group(cfg, step.rank, step.head)] + 1
      then Some(s.channel.now) else s.handled
  {
    if step.Pulse? {
      IsGroupOfPulse(p, cfg, s, step);
      GroupIsIndex(cfg, step.rank, step.head, step.rank, step.head);
      hide W.NextWake, GroupIndex, W.Refreshed, Group;
    } else {
      hide W.ToSend, W.Soonest, Channel.Enabled, Channel.Apply, W.Attends, W.Available;
    }
  }

  lemma IsGroupOfPulse(p: Timing, cfg: Config, s: W.State, step: W.Step)
    requires W.Enabled(p, cfg, s, step) && step.Pulse?
    ensures Channel.IsGroup(cfg, step.rank, step.head) && cfg.useRefresh
  {}

  // ---------------------------------------------------------------- cycle events

  /** Every command that is queued was sent. */
  predicate AllSent(q: seq<Request>) { forall i | 0 <= i < |q| :: q[i].issued }

  /** Some transaction waits for the bank. */
  ghost predicate Waits(queues: seq<seq<Request>>, rank: nat, bank: nat) {
    exists q, i | 0 <= q < |queues| && 0 <= i < |queues[q]| :: queues[q][i].rank == rank && queues[q][i].bank == bank
  }

  /** The bank has nothing left to send although a transaction waits for it. */
  ghost predicate Idles(cfg: Config, c: Channel.State, rank: nat, bank: nat) {
    && rank < cfg.ranks && bank < cfg.banks && QueueId(cfg, rank, bank) < |c.shadows|
    && AllSent(c.shadows[QueueId(cfg, rank, bank)].queue) && Waits(c.queues, rank, bank)
  }

  ghost predicate SomeIdles(cfg: Config, c: Channel.State) {
    exists rank: nat, bank: nat :: Idles(cfg, c, rank, bank)
  }

  /** A command was sent since, and its bank now idles. */
  ghost predicate SentLast(cfg: Config, c: Channel.State, c': Channel.State) {
    && |c.sent| < |c'.sent|
    && Idles(cfg, c', c'.sent[|c'.sent| - 1].r.rank, c'.sent[|c'.sent| - 1].r.bank)
  }

  lemma AllSentIs(p: Timing, cfg: Config, c: Channel.State, k: nat)
    requires Channel.Inv(p, cfg, c) && k < |c.shadows|
    ensures AllSent(c.shadows[k].queue) <==> Pending(c.shadows[k].queue) == []
  {
    assert Channel.BankOk(p, cfg, k, c.shadows[k], c.devices[k], c);
    var q := c.shadows[k].queue;
    assert q != [] && q[0].issued && |q| > 1 ==> !q[1].issued;
  }

  lemma WaitsIs(p: Timing, cfg: Config, c: Channel.State, rank: nat, bank: nat)
    requires Channel.Inv(p, cfg, c) && rank < cfg.ranks && bank < cfg.banks
    ensures Waits(c.queues, rank, bank) <==> W.Available(cfg, c.queues, QueueId(cfg, rank, bank))
  {
    forall q, i | 0 <= q < |c.queues| && 0 <= i < |c.queues[q]|
      ensures IdOf(cfg, c.queues[q][i]) == QueueId(cfg, rank, bank)
        <==> c.queues[q][i].rank == rank && c.queues[q][i].bank == bank {
      assert Channel.TransactionOk(cfg, c.queues[q][i]);
      Channel.QueueIdIsBijective(cfg, c.queues[q][i].rank, c.queues[q][i].bank, rank, bank);
    }
    hide QueueId, Channel.Inv;
    if Waits(c.queues, rank, bank) {
      var q, i :| 0 <= q < |c.queues| && 0 <= i < |c.queues[q]|
        && c.queues[q][i].rank == rank && c.queues[q][i].bank == bank;
      assert IdOf(cfg, c.queues[q][i]) == QueueId(cfg, rank, bank);
    }
    if W.Available(cfg, c.queues, QueueId(cfg, rank, bank)) {
      var q: nat, i: nat :| q < |c.queues| && i < |c.queues[q]|
        && IdOf(cfg, c.queues[q][i]) == QueueId(cfg, rank, bank);
    }
  }

  lemma IdlesIs(p: Timing, cfg: Config, c: Channel.State, rank: nat, bank: nat)
    requires Channel.Inv(p, cfg, c) && rank < cfg.ranks && bank < cfg.banks
    ensures Idles(cfg, c, rank, bank) <==>
      W.EffectivelyEmpty(c.shadows, QueueId(cfg, rank, bank)) && W.Available(cfg, c.queues, QueueId(cfg, rank, bank))
  {
    Channel.QueueIdInRange(cfg, rank, bank);
    WaitsIs(p, cfg, c, rank, bank);
    var id := QueueId(cfg, rank, bank);
    hide QueueId, Waits, W.Available;
    AllSentIs(p, cfg, c, id);
  }

  lemma SomeIdlesIs(p: Timing, cfg: Config, c: Channel.State)
    requires Channel.Inv(p, cfg, c)
    ensures SomeIdles(cfg, c) <==> W.Attends(cfg, c)
  {
    assert |c.shadows| == cfg.ranks * cfg.banks;
    hide QueueId, W.Available, Waits, AllSent, Channel.Inv;
    if W.Attends(cfg, c) {
      var id: nat :| W.EffectivelyEmpty(c.shadows, id) && W.Available(cfg, c.queues, id);
      var rank, bank := Channel.QueueIdIsOnto(cfg, id);
      IdlesIs(p, cfg, c, rank, bank);
    }
    if SomeIdles(cfg, c) {
      var rank: nat, bank: nat :| Idles(cfg, c, rank, bank);
      IdlesIs(p, cfg, c, rank, bank);
    }
  }

  lemma SendingSchedules(p: Timing, cfg: Config, s: W.State, latency: nat, bounce: Bounce)
    requires W.ReadyToRun(s) && Channel.Inv(p, cfg, s.channel)
    ensures var s' := W.Sending(p, cfg, s, latency, bounce);
      && Channel.Inv(p, cfg, s'.channel) && s'.channel.now == s.channel.now
      && s'.cycles == if SentLast(cfg, s.channel, s'.channel) then s.cycles + multiset{s.channel.now + 1} else s.cycles
  {
    hide Channel.Inv, W.ToSend, Channel.Apply, Channel.Enabled, W.Available, Idles;
    var next := W.ToSend(p, cfg, s);
    if next.Some? {
      var step := Channel.IssueHead(next.value, latency, bounce);
      W.SendIsEnabled(p, cfg, s, latency, bounce);
      Channel.StepKeepsInv(p, cfg, s.channel, step);
      SentIdles(p, cfg, s.channel, step);
    }
  }

  /** The bank of a command that is sent idles if it was the only one queued and a transaction waits. */
  lemma SentIdles(p: Timing, cfg: Config, c: Channel.State, step: Channel.Step)
    requires Channel.Inv(p, cfg, c) && Channel.Enabled(p, cfg, c, step) && step.IssueHead?
    ensures step.id < |c.shadows| && Channel.Apply(p, cfg, c, step).now == c.now
    ensures SentLast(cfg, c, Channel.Apply(p, cfg, c, step)) <==>
      |c.shadows[step.id].queue| == 1 && W.Available(cfg, c.queues, step.id)
  {
    var r, m := Channel.IssueEffect(p, cfg, c, step);
    var c' := Channel.Apply(p, cfg, c, step);
    Channel.StepKeepsInv(p, cfg, c, step);
    assert InRange(cfg, r) && IdOf(cfg, r) == step.id;
    Channel.SendMarksHead(cfg, c.shadows, step.id, r, step.id);
    hide Channel.Inv, Channel.Apply, Channel.Enabled, W.Available, QueueId, Channel.ShadowAfter, Channel.DeviceAfter;
    assert c'.sent[|c'.sent| - 1].r == r;
    IdlesIs(p, cfg, c', r.rank, r.bank);
    MarkedIsPending(c.shadows[step.id].queue);
  }

  lemma MarkedIsPending(q: seq<Request>)
    requires q != []
    ensures Pending(MarkIssued(q)) == [] <==> |q| == 1
  {}

  /**
    When cycle events are scheduled, by the commands and transactions that wait. Accepting a transaction for
    whose bank every command was sent brings one in this cycle, if there is none. A wake-up that sends the
    last command of a bank for which a transaction waits brings one in the next cycle; so does a cycle event,
    which else brings one, if there is none, whenever such a bank is left. Nothing else brings any.
   */
  lemma CycleEventsIff(p: Timing, cfg: Config, s: W.State, step: W.Step)
    requires WakeupRuns.Valid(p, cfg, s) && W.Enabled(p, cfg, s, step)
    ensures var now, s' := s.channel.now, W.Apply(p, cfg, s, step);
      match step
      case Accept(_, r) =>
        && IdOf(cfg, r) < |s.channel.shadows|
        && s'.cycles == if AllSent(s.channel.shadows[IdOf(cfg, r)].queue) && now !in s.cycles
           then s.cycles + multiset{now} else s.cycles
      case Cycle(_, _, _) =>
        var begun := s.cycles - multiset{now};
        s'.cycles == if SentLast(cfg, s.channel, s'.channel) || (now + 1 !in begun && SomeIdles(cfg, s'.channel))
          then begun + multiset{now + 1} else begun
      case Wake(_, _) =>
        s'.cycles == if SentLast(cfg, s.channel, s'.channel) then s.cycles + multiset{now + 1} else s.cycles
      case _ => s'.cycles == s.cycles
  {
    hide *;
    WakeupRuns.StepKeepsValid(p, cfg, s, step);
    ValidIsInv(p, cfg, s);
    ValidIsInv(p, cfg, W.Apply(p, cfg, s, step));
    if step.Accept? {
      AcceptSchedules(p, cfg, s, step);
    } else if step.Cycle? {
      CycleSchedules(p, cfg, s, step);
    } else if step.Wake? {
      WakeSchedules(p, cfg, s, step);
    } else {
      OthersScheduleNothing(p, cfg, s, step);
    }
  }

  lemma WakeSchedules(p: Timing, cfg: Config, s: W.State, step: W.Step)
    requires Channel.Inv(p, cfg, s.channel) && W.Enabled(p, cfg, s, step) && step.Wake?
    ensures var s' := W.Apply(p, cfg, s, step);
      s'.cycles == if SentLast(cfg, s.channel, s'.channel) then s.cycles + multiset{s.channel.now + 1} else s.cycles
  {
    hide Channel.Inv, W.NextWake, W.Sending, SentLast;
    var begun := s.(wakes := s.wakes - {s.channel.now}, ranAt := Some(s.channel.now));
    SendingSchedules(p, cfg, W.Woken(cfg, begun), step.latency, step.bounce);
  }

  lemma OthersScheduleNothing(p: Timing, cfg: Config, s: W.State, step: W.Step)
    requires W.Enabled(p, cfg, s, step) && !step.Accept? && !step.Cycle? && !step.Wake?
    ensures W.Apply(p, cfg, s, step).cycles == s.cycles
  {
    hide W.NextWake, Channel.Inv, Channel.Enabled, Channel.Apply;
  }

  lemma ValidIsInv(p: Timing, cfg: Config, s: W.State)
    requires WakeupRuns.Valid(p, cfg, s)
    ensures Channel.Inv(p, cfg, s.channel)
  {}

  lemma AcceptSchedules(p: Timing, cfg: Config, s: W.State, step: W.Step)
    requires Channel.Inv(p, cfg, s.channel) && W.Enabled(p, cfg, s, step) && step.Accept?
    ensures IdOf(cfg, step.r) < |s.channel.shadows|
    ensures W.Apply(p, cfg, s, step).cycles ==
      if AllSent(s.channel.shadows[IdOf(cfg, step.r)].queue) && s.channel.now !in s.cycles
      then s.cycles + multiset{s.channel.now} else s.cycles
  {
    Channel.QueueIdInRange(cfg, step.r.rank, step.r.bank);
    assert |s.channel.shadows| == cfg.ranks * cfg.banks;
    hide Channel.Inv, QueueId;
    AllSentIs(p, cfg, s.channel, IdOf(cfg, step.r));
  }

  lemma CycleSchedules(p: Timing, cfg: Config, s: W.State, step: W.Step)
    requires Channel.Inv(p, cfg, s.channel) && W.Enabled(p, cfg, s, step) && step.Cycle?
    requires Channel.Inv(p, cfg, W.Apply(p, cfg, s, step).channel)
    ensures var now, s', begun := s.channel.now, W.Apply(p, cfg, s, step), s.cycles - multiset{s.channel.now};
      s'.cycles == if SentLast(cfg, s.channel, s'.channel) || (now + 1 !in begun && SomeIdles(cfg, s'.channel))
        then begun + multiset{now + 1} else begun
  {
    hide Channel.Inv, W.NextWake, W.Sending, SentLast, W.Attends, SomeIdles, Channel.Enabled, Channel.Apply;
    var begun := s.(cycles := s.cycles - multiset{s.channel.now}, ranAt := Some(s.channel.now));
    ScheduledIs(p, cfg, begun, step.choice);
    hide W.Scheduled;
    var scheduled := W.Scheduled(p, cfg, begun, step.choice);
    SendingSchedules(p, cfg, scheduled, step.latency, step.bounce);
    SameSent(cfg, s.channel, scheduled.channel, W.Sending(p, cfg, scheduled, step.latency, step.bounce).channel);
    SomeIdlesIs(p, cfg, W.Apply(p, cfg, s, step).channel);
  }

  lemma SameSent(cfg: Config, a: Channel.State, b: Channel.State, c: Channel.State)
    requires a.sent == b.sent
    ensures SentLast(cfg, a, c) <==> SentLast(cfg, b, c)
  {}

  lemma ScheduledIs(p: Timing, cfg: Config, s: W.State, choice: Option<W.Choice>)
    requires Channel.Inv(p, cfg, s.channel) && W.ReadyToRun(s) && W.Schedulable(p, cfg, s, choice)
    ensures var s' := W.Scheduled(p, cfg, s, choice);
      && Channel.Inv(p, cfg, s'.channel) && s'.channel.now == s.channel.now && W.ReadyToRun(s')
      && s'.channel.sent == s.channel.sent && s'.cycles == s.cycles
  {
    W.ScheduleKeepsReady(p, cfg, s, choice);
    if choice.Some? { Channel.StepKeepsInv(p, cfg, s.channel, W.ScheduleOf(choice.value)); }
    hide Channel.Inv, W.NextWake, Expand;
  }

  // ---------------------------------------------------------------- wake-ups

  /** The cycle at which the bank of queue `k` asks for its head to be tried, but not before the next one. */
  ghost function TryAt(c: Channel.State, k: nat): nat
    requires k < |c.shadows| == |c.devices| && c.shadows[k].queue != []
    requires Bank.Routed(c.devices[k], c.shadows[k].queue[0])
  {
    Max(c.now + 1, Bank.NextIssuable(c.devices[k], c.shadows[k].queue[0]))
  }

  ghost predicate Routed(c: Channel.State) {
    && |c.shadows| == |c.devices|
    && forall k | 0 <= k < |c.shadows| && c.shadows[k].queue != [] ::
         Bank.Routed(c.devices[k], c.shadows[k].queue[0])
  }

  /** The earliest cycle at which a head is to be tried, if any command is queued. */
  ghost predicate IsEarliest(c: Channel.State, wake: Option<nat>)
    requires Routed(c)
  {
    match wake
    case None => forall k | 0 <= k < |c.shadows| :: c.shadows[k].queue == []
    case Some(w) =>
      && (exists k :: 0 <= k < |c.shadows| && c.shadows[k].queue != [] && w == TryAt(c, k))
      && forall k | 0 <= k < |c.shadows| && c.shadows[k].queue != [] :: w <= TryAt(c, k)
  }

  lemma InvIsRouted(p: Timing, cfg: Config, c: Channel.State)
    requires Channel.Inv(p, cfg, c)
    ensures Routed(c) && |c.shadows| == cfg.ranks * cfg.banks
  {
    WakeupRuns.InvHeadsOk(p, cfg, c);
  }

  lemma NextWakeIsEarliest(cfg: Config, c: Channel.State)
    requires Routed(c) && |c.shadows| == cfg.ranks * cfg.banks
    ensures IsEarliest(c, W.NextWake(cfg, c.shadows, c.devices, c.now))
  {
    hide W.Soonest, Bank.NextIssuable, Bank.Routed;
    W.SoonestIsLeast(cfg, c.shadows, c.devices);
    var soonest := W.Soonest(cfg, c.shadows, c.devices, cfg.ranks);
    forall k | 0 <= k < |c.shadows| && c.shadows[k].queue != []
      ensures W.Asks(c.shadows, c.devices, k) == Some(Bank.NextIssuable(c.devices[k], c.shadows[k].queue[0])) {}
    if soonest.Some? {
      var k: nat :| W.Asks(c.shadows, c.devices, k) == soonest;
      assert soonest.value == Bank.NextIssuable(c.devices[k], c.shadows[k].queue[0]);
      assert Max(soonest.value, c.now + 1) == TryAt(c, k);
    }
  }

  /** The callbacks once one is scheduled for the earliest cycle of `c`. */
  ghost predicate Adds(c: Channel.State, wakes: set<nat>, wakes': set<nat>) {
    Routed(c) && exists wake :: IsEarliest(c, wake) && wakes' == wakes + W.WakeSet(wake)
  }

  /**
    When wake-ups are scheduled: a wake-up that runs, a transaction that is scheduled and a pulse that queues a
    refresh bring one, in the earliest cycle at which a head is to be tried then; nothing else brings any.
   */
  lemma WakesIff(p: Timing, cfg: Config, s: W.State, step: W.Step)
    requires WakeupRuns.Valid(p, cfg, s) && W.Enabled(p, cfg, s, step)
    ensures var now, s' := s.channel.now, W.Apply(p, cfg, s, step);
      match step
      case Wake(_, _) => Adds(s.channel, s.wakes - {now}, s'.wakes)
      case Cycle(choice, _, _) =>
        if choice.None? then s'.wakes == s.wakes
        else
          && Channel.Enabled(p, cfg, s.channel, W.ScheduleOf(choice.value))
          && Adds(Channel.Apply(p, cfg, s.channel, W.ScheduleOf(choice.value)), s.wakes, s'.wakes)
      case Pulse(rank, head) =>
        && Group(cfg, rank, head) < |s.delayed|
        && if s.delayed[Group(cfg, rank, head)] + 1 < cfg.refreshThreshold then s'.wakes == s.wakes
           else Adds(s'.channel, s.wakes, s'.wakes)
      case _ => s'.wakes == s.wakes
  {
    hide *;
    WakeupRuns.StepKeepsValid(p, cfg, s, step);
    ValidIsInv(p, cfg, s);
    ValidIsInv(p, cfg, W.Apply(p, cfg, s, step));
    InvIsRouted(p, cfg, s.channel);
    if step.Wake? {
      WakeWakes(p, cfg, s, step);
    } else if step.Cycle? {
      CycleWakes(p, cfg, s, step);
    } else if step.Pulse? {
      PulseWakes(p, cfg, s, step);
    } else {
      OthersWakeNothing(p, cfg, s, step);
    }
  }

  lemma WakeAdds(cfg: Config, s: W.State)
    requires Routed(s.channel) && |s.channel.shadows| == cfg.ranks * cfg.banks
    ensures Adds(s.channel, s.wakes, W.Woken(cfg, s).wakes)
  {
    NextWakeIsEarliest(cfg, s.channel);
    hide Routed, IsEarliest, W.NextWake;
  }

  lemma SendingKeepsWakes(p: Timing, cfg: Config, s: W.State, latency: nat, bounce: Bounce)
    requires W.ReadyToRun(s)
    ensures W.Sending(p, cfg, s, latency, bounce).wakes == s.wakes
  {
    hide W.ToSend, W.Available, Channel.Apply, Channel.Enabled;
  }

  lemma WakeWakes(p: Timing, cfg: Config, s: W.State, step: W.Step)
    requires W.Enabled(p, cfg, s, step) && step.Wake? && Channel.Inv(p, cfg, s.channel)
    ensures Adds(s.channel, s.wakes - {s.channel.now}, W.Apply(p, cfg, s, step).wakes)
  {
    InvIsRouted(p, cfg, s.channel);
    hide Channel.Inv, W.NextWake, W.Sending, Adds, Routed;
    var begun := s.(wakes := s.wakes - {s.channel.now}, ranAt := Some(s.channel.now));
    WakeAdds(cfg, begun);
    SendingKeepsWakes(p, cfg, W.Woken(cfg, begun), step.latency, step.bounce);
  }

  lemma CycleWakes(p: Timing, cfg: Config, s: W.State, step: W.Step)
    requires W.Enabled(p, cfg, s, step) && step.Cycle? && Channel.Inv(p, cfg, s.channel)
    ensures step.choice.None? ==> W.Apply(p, cfg, s, step).wakes == s.wakes
    ensures step.choice.Some? ==>
      && Channel.Enabled(p, cfg, s.channel, W.ScheduleOf(step.choice.value))
      && Adds(Channel.Apply(p, cfg, s.channel, W.ScheduleOf(step.choice.value)), s.wakes,
              W.Apply(p, cfg, s, step).wakes)
  {
    hide Channel.Inv, W.NextWake, W.Sending, Adds, Routed, W.Attends, Channel.Apply;
    var begun := s.(cycles := s.cycles - multiset{s.channel.now}, ranAt := Some(s.channel.now));
    var scheduled := W.Scheduled(p, cfg, begun, step.choice);
    W.ScheduleKeepsReady(p, cfg, begun, step.choice);
    SendingKeepsWakes(p, cfg, scheduled, step.latency, step.bounce);
    hide Channel.Enabled;
    if step.choice.Some? {
      var c := Channel.Apply(p, cfg, s.channel, W.ScheduleOf(step.choice.value));
      Channel.StepKeepsInv(p, cfg, s.channel, W.ScheduleOf(step.choice.value));
      InvIsRouted(p, cfg, c);
      WakeAdds(cfg, begun.(channel := c));
    }
  }

  lemma PulseWakes(p: Timing, cfg: Config, s: W.State, step: W.Step)
    requires WakeupRuns.Valid(p, cfg, s) && W.Enabled(p, cfg, s, step) && step.Pulse?
    requires Channel.Inv(p, cfg, W.Apply(p, cfg, s, step).channel)
    ensures Group(cfg, step.rank, step.head) < |s.delayed|
    ensures if s.delayed[Group(cfg, step.rank, step.head)] + 1 < cfg.refreshThreshold
      then W.Apply(p, cfg, s, step).wakes == s.wakes
      else Adds(W.Apply(p, cfg, s, step).channel, s.wakes, W.Apply(p, cfg, s, step).wakes)
  {
    IsGroupOfPulse(p, cfg, s, step);
    GroupIsIndex(cfg, step.rank, step.head, step.rank, step.head);
    InvIsRouted(p, cfg, W.Apply(p, cfg, s, step).channel);
    hide Channel.Inv, W.NextWake, W.Refreshed, Adds, Routed, Group, GroupIndex;
    var c := W.Refreshed(p, cfg, s.channel, step.rank, step.head);
    WakeAddsIf(cfg, s.(channel := c, handled := Some(s.channel.now), ranAt := Some(s.channel.now)));
  }

  lemma WakeAddsIf(cfg: Config, s: W.State)
    ensures Routed(s.channel) && |s.channel.shadows| == cfg.ranks * cfg.banks ==>
      Adds(s.channel, s.wakes, W.Woken(cfg, s).wakes)
  {
    hide Routed, Adds, W.Woken;
    if Routed(s.channel) && |s.channel.shadows| == cfg.ranks * cfg.banks { WakeAdds(cfg, s); }
  }

  lemma OthersWakeNothing(p: Timing, cfg: Config, s: W.State, step: W.Step)
    requires W.Enabled(p, cfg, s, step) && !step.Wake? && !step.Cycle? && !step.Pulse?
    ensures W.Apply(p, cfg, s, step).wakes == s.wakes
  {
    hide Channel.Enabled, Channel.Apply;
  }
}
