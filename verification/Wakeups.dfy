/**
  The controller as the event queue drives it: a callback runs only at a cycle for which it was
  scheduled, and time does not pass a scheduled one. The queue heads are looked at nowhere else.
 */
module Wakeups {
  import opened Arithmetic
  import opened Commands
  import opened ControllerSpec
  import opened RefreshSpec
  import Channel
  import Bank = BankSpec
  import BankRuns

  datatype State = State(
    channel: Channel.State,
    wakes: set<nat>,          // cycles of the command-queue callbacks that are scheduled
    cycles: multiset<nat>,    // cycles of the cycle events that are scheduled
    handled: Option<nat>,     // the last cycle in which a refresh was handled
    curQueue: nat,
    delayed: seq<nat>,        // delayed refreshes, per bank group
    ranAt: Option<nat>)       // the last cycle in which a callback looked at the queue heads

  datatype Choice = Choice(queue: nat, sel: Selector, force: bool)

  datatype Step =
    | Accept(queue: nat, r: Request)                                  // the host hands over a transaction
    | Cycle(choice: Option<Choice>, latency: nat, bounce: Bounce)     // a cycle event: schedule, then send
    | Wake(latency: nat, bounce: Bounce)                              // a command-queue callback: send
    | Pulse(rank: nat, head: nat)                                     // a refresh callback
    | Cleanup
    | Event(id: nat, e: BankRuns.Step)
    | Advance(to: nat)

  // ---------------------------------------------------------------- when to wake up

  /** The cycle at which the head of queue `k` asks to be tried. */
  ghost function Asks(shadows: seq<Shadow>, devices: seq<Bank.State>, k: nat): Option<nat> {
    if k < |shadows| && k < |devices| && shadows[k].queue != [] && Bank.Routed(devices[k], shadows[k].queue[0]) then
      Some(Bank.NextIssuable(devices[k], shadows[k].queue[0]))
    else
      None
  }

  function Earlier(a: Option<nat>, b: Option<nat>): Option<nat> {
    if b.Some? && (a.None? || b.value < a.value) then b else a
  }

  ghost function SoonestOfRank(cfg: Config, shadows: seq<Shadow>, devices: seq<Bank.State>, rank: nat,
                               n: nat): Option<nat> {
    if n == 0 then None
    else Earlier(SoonestOfRank(cfg, shadows, devices, rank, n - 1), Asks(shadows, devices, QueueId(cfg, rank, n - 1)))
  }

  ghost function Soonest(cfg: Config, shadows: seq<Shadow>, devices: seq<Bank.State>, n: nat): Option<nat> {
    if n == 0 then None
    else Earlier(Soonest(cfg, shadows, devices, n - 1), SoonestOfRank(cfg, shadows, devices, n - 1, cfg.banks))
  }

  function Clipped(soonest: Option<nat>, now: nat): Option<nat> {
    if soonest.Some? then Some(Max(soonest.value, now + 1)) else None
  }

  /** The next cycle at which the controller wants to be woken: the soonest of its heads, but not now. */
  ghost function NextWake(cfg: Config, shadows: seq<Shadow>, devices: seq<Bank.State>, now: nat): Option<nat> {
    Clipped(Soonest(cfg, shadows, devices, cfg.ranks), now)
  }

  function WakeSet(next: Option<nat>): set<nat> { if next.Some? then {next.value} else {} }

  lemma {:induction false} SoonestOfRankBounds(cfg: Config, shadows: seq<Shadow>, devices: seq<Bank.State>, rank: nat,
                                               n: nat, bank: nat)
    requires bank < n && Asks(shadows, devices, QueueId(cfg, rank, bank)).Some?
    ensures SoonestOfRank(cfg, shadows, devices, rank, n).Some?
    ensures SoonestOfRank(cfg, shadows, devices, rank, n).value <= Asks(shadows, devices,
      QueueId(cfg, rank, bank)).value
  {
    if bank < n - 1 { SoonestOfRankBounds(cfg, shadows, devices, rank, n - 1, bank); }
  }

  lemma {:induction false} SoonestBounds(cfg: Config, shadows: seq<Shadow>, devices: seq<Bank.State>, n: nat,
                                         rank: nat, bank: nat)
    requires rank < n && bank < cfg.banks && Asks(shadows, devices, QueueId(cfg, rank, bank)).Some?
    ensures Soonest(cfg, shadows, devices, n).Some?
    ensures Soonest(cfg, shadows, devices, n).value <= Asks(shadows, devices, QueueId(cfg, rank, bank)).value
  {
    if rank < n - 1 {
      SoonestBounds(cfg, shadows, devices, n - 1, rank, bank);
    } else {
      SoonestOfRankBounds(cfg, shadows, devices, rank, cfg.banks, bank);
    }
  }

  lemma {:induction false} SoonestOfRankIsAsked(cfg: Config, shadows: seq<Shadow>, devices: seq<Bank.State>,
                                                rank: nat, n: nat)
    requires SoonestOfRank(cfg, shadows, devices, rank, n).Some?
    ensures exists k: nat :: Asks(shadows, devices, k) == SoonestOfRank(cfg, shadows, devices, rank, n)
  {
    if SoonestOfRank(cfg, shadows, devices, rank, n) != Asks(shadows, devices, QueueId(cfg, rank, n - 1)) {
      SoonestOfRankIsAsked(cfg, shadows, devices, rank, n - 1);
    }
  }

  lemma {:induction false} SoonestIsAsked(cfg: Config, shadows: seq<Shadow>, devices: seq<Bank.State>, n: nat)
    requires Soonest(cfg, shadows, devices, n).Some?
    ensures exists k: nat :: Asks(shadows, devices, k) == Soonest(cfg, shadows, devices, n)
  {
    if Soonest(cfg, shadows, devices, n) == SoonestOfRank(cfg, shadows, devices, n - 1, cfg.banks) {
      SoonestOfRankIsAsked(cfg, shadows, devices, n - 1, cfg.banks);
    } else {
      SoonestIsAsked(cfg, shadows, devices, n - 1);
    }
  }

  /** The soonest cycle is asked for by some head, and no head asks for an earlier one. */
  lemma SoonestIsLeast(cfg: Config, shadows: seq<Shadow>, devices: seq<Bank.State>)
    requires |shadows| == cfg.ranks * cfg.banks
    ensures var soonest := Soonest(cfg, shadows, devices, cfg.ranks);
      && (soonest.Some? ==> exists k: nat :: Asks(shadows, devices, k) == soonest)
      && forall k: nat | Asks(shadows, devices, k).Some? ::
           soonest.Some? && soonest.value <= Asks(shadows, devices, k).value
  {
    if Soonest(cfg, shadows, devices, cfg.ranks).Some? { SoonestIsAsked(cfg, shadows, devices, cfg.ranks); }
    forall k: nat | Asks(shadows, devices, k).Some?
      ensures Soonest(cfg, shadows, devices, cfg.ranks).Some?
      ensures Soonest(cfg, shadows, devices, cfg.ranks).value <= Asks(shadows, devices, k).value {
      var rank, bank := Channel.QueueIdIsOnto(cfg, k);
      SoonestBounds(cfg, shadows, devices, cfg.ranks, rank, bank);
    }
  }

  // ---------------------------------------------------------------- what is sent

  /** The queue that is looked at in position `i` of the round-robin over `n` queues. */
  function Turn(start: nat, i: nat, n: nat): (k: nat)
    requires n != 0
    ensures k < n
  {
    (start + i) % n
  }

  /** The round-robin reaches every queue. */
  lemma TurnCovers(start: nat, n: nat, k: nat) returns (i: nat)
    requires k < n
    ensures i < n && Turn(start, i, n) == k
  {
    var s := start % n;
    i := if s <= k then k - s else k + n - s;
    var q := start / n;
    assert start == q * n + s;
    assert (q + 1) * n == q * n + n;
    if s <= k {
      DivModOfRadix(n, q, k);
    } else {
      DivModOfRadix(n, q + 1, k);
    }
  }

  /** The head of queue `k` is accepted by every bank it reaches. */
  ghost predicate CanSend(p: Timing, cfg: Config, shadows: seq<Shadow>, devices: seq<Bank.State>, k: nat, now: nat) {
    k < |shadows| && shadows[k].queue != [] && Channel.Issuable(p, cfg, devices, shadows[k].queue[0], now)
  }

  /** No head can be sent among the first `n` queues in round-robin order from `start`. */
  ghost predicate NoneBefore(p: Timing, cfg: Config, shadows: seq<Shadow>, devices: seq<Bank.State>,
                             start: nat, n: nat, now: nat)
  {
    shadows != [] ==> forall j: nat | j < n :: !CanSend(p, cfg, shadows, devices, Turn(start, j, |shadows|), now)
  }

  /** The position of the first head that can be sent, from position `i` on. */
  ghost function FirstTurn(p: Timing, cfg: Config, shadows: seq<Shadow>, devices: seq<Bank.State>, start: nat, i: nat,
                           now: nat): nat
    requires i <= |shadows|
    ensures i <= FirstTurn(p, cfg, shadows, devices, start, i, now) <= |shadows|
    decreases |shadows| - i
  {
    if i == |shadows| || CanSend(p, cfg, shadows, devices, Turn(start, i, |shadows|), now) then i
    else FirstTurn(p, cfg, shadows, devices, start, i + 1, now)
  }

  /** The queue whose head is sent now: the first in round-robin order, unless something was sent already. */
  ghost function ToSend(p: Timing, cfg: Config, s: State): Option<nat> {
    var c := s.channel;
    var i := FirstTurn(p, cfg, c.shadows, c.devices, s.curQueue, 0, c.now);
    if s.handled == Some(c.now) || c.lastIssue == c.now || i == |c.shadows| then None
    else Some(Turn(s.curQueue, i, |c.shadows|))
  }

  lemma {:induction false} FirstTurnIs(p: Timing, cfg: Config, shadows: seq<Shadow>, devices: seq<Bank.State>,
                                       start: nat, i: nat, j: nat, now: nat)
    requires i <= j <= |shadows|
    requires forall l: nat | i <= l < j :: !CanSend(p, cfg, shadows, devices, Turn(start, l, |shadows|), now)
    requires j < |shadows| ==> CanSend(p, cfg, shadows, devices, Turn(start, j, |shadows|), now)
    ensures FirstTurn(p, cfg, shadows, devices, start, i, now) == j
    decreases |shadows| - i
  {
    if i < j { FirstTurnIs(p, cfg, shadows, devices, start, i + 1, j, now); }
  }

  /** What is sent can be sent, and nothing before it in round-robin order can. */
  lemma {:induction false} FirstTurnCanSend(p: Timing, cfg: Config, shadows: seq<Shadow>, devices: seq<Bank.State>,
                                            start: nat, i: nat, now: nat)
    requires i <= |shadows|
    ensures var j := FirstTurn(p, cfg, shadows, devices, start, i, now);
      && (j < |shadows| ==> CanSend(p, cfg, shadows, devices, Turn(start, j, |shadows|), now))
      && forall l: nat | i <= l < j :: !CanSend(p, cfg, shadows, devices, Turn(start, l, |shadows|), now)
    decreases |shadows| - i
  {
    if i < |shadows| && !CanSend(p, cfg, shadows, devices, Turn(start, i, |shadows|), now) {
      FirstTurnCanSend(p, cfg, shadows, devices, start, i + 1, now);
    }
  }

  /** Some transaction waits for queue `id`. */
  ghost predicate Available(cfg: Config, queues: seq<seq<Request>>, id: nat) {
    exists q: nat, i: nat :: q < |queues| && i < |queues[q]| && IdOf(cfg, queues[q][i]) == id
  }

  ghost predicate EffectivelyEmpty(shadows: seq<Shadow>, id: nat) {
    id < |shadows| && Pending(shadows[id].queue) == []
  }

  /** Some queue has nothing left to send, and a transaction waits for it. */
  ghost predicate Attends(cfg: Config, c: Channel.State) {
    exists id: nat :: EffectivelyEmpty(c.shadows, id) && Available(cfg, c.queues, id)
  }

  // ---------------------------------------------------------------- callbacks

  /** A command-queue callback is scheduled for the cycle that the heads ask for. */
  ghost function Woken(cfg: Config, s: State): State {
    s.(wakes := s.wakes + WakeSet(NextWake(cfg, s.channel.shadows, s.channel.devices, s.channel.now)))
  }

  ghost predicate ReadyToRun(s: State) { s.channel.cleanupAt != Some(s.channel.now) }

  lemma SendIsEnabled(p: Timing, cfg: Config, s: State, latency: nat, bounce: Bounce)
    requires ReadyToRun(s) && ToSend(p, cfg, s).Some?
    ensures Channel.Enabled(p, cfg, s.channel, Channel.IssueHead(ToSend(p, cfg, s).value, latency, bounce))
  {
    var c := s.channel;
    FirstTurnCanSend(p, cfg, c.shadows, c.devices, s.curQueue, 0, c.now);
  }

  /** At most one command is sent; when a queue runs empty for which a transaction waits, a cycle event follows. */
  ghost function Sending(p: Timing, cfg: Config, s: State, latency: nat, bounce: Bounce): State
    requires ReadyToRun(s)
  {
    match ToSend(p, cfg, s)
    case None => s
    case Some(id) =>
      SendIsEnabled(p, cfg, s, latency, bounce);
      var n := |s.channel.shadows|;
      s.(channel := Channel.Apply(p, cfg, s.channel, Channel.IssueHead(id, latency, bounce)),
         curQueue := if s.curQueue + 1 > n then 0 else s.curQueue + 1,
         cycles := if |s.channel.shadows[id].queue| == 1 && Available(cfg, s.channel.queues, id) then
             s.cycles + multiset{s.channel.now + 1} else s.cycles)
  }

  /** Unless one is scheduled for the next cycle, a cycle event follows while transactions wait for empty queues. */
  ghost function Rescheduled(cfg: Config, s: State): State {
    if s.channel.now + 1 !in s.cycles && Attends(cfg, s.channel) then
      s.(cycles := s.cycles + multiset{s.channel.now + 1})
    else
      s
  }

  function ScheduleOf(choice: Choice): Channel.Step { Channel.Schedule(choice.queue, choice.sel, choice.force) }

  ghost predicate Schedulable(p: Timing, cfg: Config, s: State, choice: Option<Choice>) {
    choice.Some? ==> Channel.Enabled(p, cfg, s.channel, ScheduleOf(choice.value))
  }

  /** The transaction that was chosen is expanded, and a callback scheduled for its commands. */
  ghost function Scheduled(p: Timing, cfg: Config, s: State, choice: Option<Choice>): State
    requires Schedulable(p, cfg, s, choice)
  {
    if choice.Some? then Woken(cfg, s.(channel := Channel.Apply(p, cfg, s.channel, ScheduleOf(choice.value)))) else s
  }

  /** The channel once a refresh was queued for a group that needs just this one. */
  ghost function Refreshed(p: Timing, cfg: Config, c: Channel.State, rank: nat, head: nat): Channel.State
    requires c.cleanupAt != Some(c.now) && Channel.IsGroup(cfg, rank, head)
  {
    var c1 := Channel.Apply(p, cfg, c, Channel.MarkRefresh(rank, head, true));
    var c2 := Channel.Apply(p, cfg, c1, Channel.RefreshGroup(rank, head));
    Channel.Apply(p, cfg, c2, Channel.MarkRefresh(rank, head, false))
  }

  /** A refresh pulse is counted; if the group has reached the threshold, a refresh is queued for it. */
  ghost function Pulsed(p: Timing, cfg: Config, s: State, rank: nat, head: nat): State
    requires ReadyToRun(s) && Channel.IsGroup(cfg, rank, head) && GroupIndex(cfg, rank, head) < |s.delayed|
  {
    var g := GroupIndex(cfg, rank, head);
    var counted := s.delayed[g := s.delayed[g] + 1];
    if !Over(cfg, counted, g) then s.(delayed := counted)
    else
      Woken(cfg, s.(channel := Refreshed(p, cfg, s.channel, rank, head), handled := Some(s.channel.now),
                    ranAt := Some(s.channel.now)))
  }

  ghost predicate Enabled(p: Timing, cfg: Config, s: State, step: Step) {
    match step
    case Accept(q, r) => Channel.Enabled(p, cfg, s.channel, Channel.Accept(q, r))
    case Cycle(choice, _, _) => ReadyToRun(s) && s.channel.now in s.cycles && Schedulable(p, cfg, s, choice)
    case Wake(_, _) => ReadyToRun(s) && s.channel.now in s.wakes
    case Pulse(rank, head) =>
      ReadyToRun(s) && cfg.useRefresh && Channel.IsGroup(cfg, rank, head) && GroupIndex(cfg, rank, head) < |s.delayed|
    case Cleanup => Channel.Enabled(p, cfg, s.channel, Channel.Cleanup)
    case Event(id, e) => Channel.Enabled(p, cfg, s.channel, Channel.Event(id, e))
    case Advance(to) =>
      && Channel.Enabled(p, cfg, s.channel, Channel.Advance(to))
      && (forall w | w in s.wakes :: to <= w) && forall c | c in s.cycles :: to <= c
  }

  ghost function Accepted(p: Timing, cfg: Config, s: State, q: nat, r: Request): State
    requires Channel.Enabled(p, cfg, s.channel, Channel.Accept(q, r))
  {
    var now := s.channel.now;
    s.(channel := Channel.Apply(p, cfg, s.channel, Channel.Accept(q, r)),
       cycles := if EffectivelyEmpty(s.channel.shadows, IdOf(cfg, r)) && now !in s.cycles then
                   s.cycles + multiset{now} else s.cycles)
  }

  ghost function Apply(p: Timing, cfg: Config, s: State, step: Step): State
    requires Enabled(p, cfg, s, step)
  {
    var c, now := s.channel, s.channel.now;
    match step
    case Accept(q, r) => Accepted(p, cfg, s, q, r)
    case Cycle(choice, latency, bounce) =>
      var begun := s.(cycles := s.cycles - multiset{now}, ranAt := Some(now));
      Rescheduled(cfg, Sending(p, cfg, Scheduled(p, cfg, begun, choice), latency, bounce))
    case Wake(latency, bounce) =>
      Sending(p, cfg, Woken(cfg, s.(wakes := s.wakes - {now}, ranAt := Some(now))), latency, bounce)
    case Pulse(rank, head) => Pulsed(p, cfg, s, rank, head)
    case Cleanup => s.(channel := Channel.Apply(p, cfg, c, Channel.Cleanup))
    case Event(id, e) => s.(channel := Channel.Apply(p, cfg, c, Channel.Event(id, e)))
    case Advance(to) => s.(channel := Channel.Apply(p, cfg, c, Channel.Advance(to)))
  }

  function Initial(cfg: Config, queues: nat): State {
    State(Channel.Initial(cfg, queues), {}, multiset{}, None, 0, seq(cfg.ranks * cfg.Groups(), _ => 0), None)
  }

  ghost function Execute(p: Timing, cfg: Config, s: State, steps: seq<Step>): Option<State>
    decreases |steps|
  {
    if steps == [] then Some(s)
    else if Enabled(p, cfg, s, steps[0]) then Execute(p, cfg, Apply(p, cfg, s, steps[0]), steps[1..])
    else None
  }

  ghost predicate Reached(p: Timing, cfg: Config, queues: nat, steps: seq<Step>, s: State) {
    Execute(p, cfg, Initial(cfg, queues), steps) == Some(s)
  }

  // ---------------------------------------------------------------- every callback is a run of the channel

  /** The channel steps that `step` consists of. */
  ghost function Trace(p: Timing, cfg: Config, s: State, step: Step): seq<Channel.Step>
    requires Enabled(p, cfg, s, step)
  {
    match step
    case Accept(q, r) => [Channel.Accept(q, r)]
    case Cycle(choice, latency, bounce) =>
      var begun := s.(cycles := s.cycles - multiset{s.channel.now}, ranAt := Some(s.channel.now));
      (if choice.Some? then [ScheduleOf(choice.value)] else [])
      + SendOf(p, cfg, Scheduled(p, cfg, begun, choice), latency, bounce)
    case Wake(latency, bounce) => SendOf(p, cfg, s, latency, bounce)
    case Pulse(rank, head) =>
      if Over(cfg, s.delayed[GroupIndex(cfg, rank, head) := s.delayed[GroupIndex(cfg, rank, head)] + 1],
        GroupIndex(cfg, rank, head)) then
        [Channel.MarkRefresh(rank, head, true), Channel.RefreshGroup(rank, head),
          Channel.MarkRefresh(rank, head, false)]
      else
        []
    case Cleanup => [Channel.Cleanup]
    case Event(id, e) => [Channel.Event(id, e)]
    case Advance(to) => [Channel.Advance(to)]
  }

  ghost function SendOf(p: Timing, cfg: Config, s: State, latency: nat, bounce: Bounce): seq<Channel.Step> {
    match ToSend(p, cfg, s)
    case None => []
    case Some(id) => [Channel.IssueHead(id, latency, bounce)]
  }

  lemma OneStep(p: Timing, cfg: Config, c: Channel.State, step: Channel.Step)
    requires Channel.Enabled(p, cfg, c, step)
    ensures Channel.Execute(p, cfg, c, [step]) == Some(Channel.Apply(p, cfg, c, step))
  {
    hide Channel.Enabled, Channel.Apply;
    assert [step][1..] == [];
  }

  lemma NoStep(p: Timing, cfg: Config, c: Channel.State)
    ensures Channel.Execute(p, cfg, c, []) == Some(c)
  {}

  lemma SendIsStep(p: Timing, cfg: Config, s: State, latency: nat, bounce: Bounce)
    requires ReadyToRun(s)
    ensures Channel.Execute(p, cfg, s.channel, SendOf(p, cfg, s, latency, bounce))
      == Some(Sending(p, cfg, s, latency, bounce).channel)
  {
    hide Channel.Enabled, Channel.Apply, ToSend;
    if ToSend(p, cfg, s).Some? {
      SendIsEnabled(p, cfg, s, latency, bounce);
      OneStep(p, cfg, s.channel, Channel.IssueHead(ToSend(p, cfg, s).value, latency, bounce));
    } else {
      NoStep(p, cfg, s.channel);
    }
  }

  lemma TwoSteps(p: Timing, cfg: Config, c: Channel.State, step: Channel.Step, rest: seq<Channel.Step>)
    requires Channel.Enabled(p, cfg, c, step)
    ensures Channel.Execute(p, cfg, c, [step] + rest) == Channel.Execute(p, cfg, Channel.Apply(p, cfg, c, step), rest)
  {
    hide Channel.Enabled, Channel.Apply;
    assert ([step] + rest)[1..] == rest;
  }

  lemma CycleIsRun(p: Timing, cfg: Config, s: State, step: Step)
    requires Enabled(p, cfg, s, step) && step.Cycle?
    ensures Channel.Execute(p, cfg, s.channel, Trace(p, cfg, s, step)) == Some(Apply(p, cfg, s, step).channel)
  {
    hide Channel.Enabled, Channel.Apply, Sending, SendOf;
    var begun := s.(cycles := s.cycles - multiset{s.channel.now}, ranAt := Some(s.channel.now));
    var scheduled := Scheduled(p, cfg, begun, step.choice);
    ScheduleKeepsReady(p, cfg, begun, step.choice);
    SendIsStep(p, cfg, scheduled, step.latency, step.bounce);
    var send := SendOf(p, cfg, scheduled, step.latency, step.bounce);
    if step.choice.Some? {
      TwoSteps(p, cfg, s.channel, ScheduleOf(step.choice.value), send);
    } else {
      assert [] + send == send;
    }
  }

  /** Scheduling leaves the pending cleanup and the clock alone. */
  lemma ScheduleKeepsReady(p: Timing, cfg: Config, s: State, choice: Option<Choice>)
    requires ReadyToRun(s) && Schedulable(p, cfg, s, choice)
    ensures ReadyToRun(Scheduled(p, cfg, s, choice))
    ensures Scheduled(p, cfg, s, choice).channel.now == s.channel.now
  {}

  /** A callback that finds nothing to wake up for is looked at with the same heads. */
  lemma WokenSendsTheSame(p: Timing, cfg: Config, s: State, latency: nat, bounce: Bounce)
    requires ReadyToRun(s)
    ensures var woken := Woken(cfg, s.(wakes := s.wakes - {s.channel.now}, ranAt := Some(s.channel.now)));
      SendOf(p, cfg, woken, latency, bounce) == SendOf(p, cfg, s, latency, bounce) && ReadyToRun(woken)
        && woken.channel == s.channel
  {}

  lemma PulseIsRun(p: Timing, cfg: Config, s: State, step: Step)
    requires Enabled(p, cfg, s, step) && step.Pulse?
    ensures Channel.Execute(p, cfg, s.channel, Trace(p, cfg, s, step)) == Some(Apply(p, cfg, s, step).channel)
  {
    var mark, queue, unmark := Channel.MarkRefresh(step.rank, step.head, true),
      Channel.RefreshGroup(step.rank, step.head),
                               Channel.MarkRefresh(step.rank, step.head, false);
    var c1 := Channel.Apply(p, cfg, s.channel, mark);
    var c2 := Channel.Apply(p, cfg, c1, queue);
    if Trace(p, cfg, s, step) == [] {
      NoStep(p, cfg, s.channel);
    } else {
      assert Trace(p, cfg, s, step) == [mark] + ([queue] + [unmark]);
      TwoSteps(p, cfg, s.channel, mark, [queue] + [unmark]);
      TwoSteps(p, cfg, c1, queue, [unmark]);
      OneStep(p, cfg, c2, unmark);
    }
  }

  /** Whatever a callback does, the channel can do step by step. */
  lemma StepIsRun(p: Timing, cfg: Config, s: State, step: Step)
    requires Enabled(p, cfg, s, step)
    ensures Channel.Execute(p, cfg, s.channel, Trace(p, cfg, s, step)) == Some(Apply(p, cfg, s, step).channel)
  {
    hide Channel.Enabled, Channel.Apply, Sending, SendOf, NextWake;
    match step
    case Accept(q, r) => OneStep(p, cfg, s.channel, Channel.Accept(q, r));
    case Cycle(_, _, _) => CycleIsRun(p, cfg, s, step);
    case Wake(latency, bounce) =>
      WokenSendsTheSame(p, cfg, s, latency, bounce);
      SendIsStep(p, cfg, Woken(cfg, s.(wakes := s.wakes - {s.channel.now}, ranAt := Some(s.channel.now))), latency,
        bounce);
    case Pulse(_, _) => PulseIsRun(p, cfg, s, step);
    case Cleanup => OneStep(p, cfg, s.channel, Channel.Cleanup);
    case Event(id, e) => OneStep(p, cfg, s.channel, Channel.Event(id, e));
    case Advance(to) => OneStep(p, cfg, s.channel, Channel.Advance(to));
  }
}
