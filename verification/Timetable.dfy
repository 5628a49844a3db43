/**
  The event-driven controller with its timetable: refresh pulses come when they were scheduled,
  the events of a cycle run in the order of their priorities, and the host hands transactions
  over once they have run. Every such run is a run of the controller, so all its results hold.
 */
module Timetable {
  import opened Commands
  import opened ControllerSpec
  import opened RefreshSpec
  import opened WakeupRuns
  import W = Wakeups
  import Channel
  import BankRuns

  datatype State = State(
    controller: W.State,
    pulseAt: seq<nat>,       // the cycle of the next refresh pulse, per bank group
    handingOver: bool)       // the events of this cycle have run and the host hands transactions over

  function Now(t: State): nat { t.controller.channel.now }

  // ---------------------------------------------------------------- what is due in this cycle

  ghost predicate PulsesDone(t: State) { forall g | 0 <= g < |t.pulseAt| :: Now(t) < t.pulseAt[g] }

  ghost predicate CompletionsDone(c: Channel.State) {
    forall k | 0 <= k < |c.devices| :: forall x | 0 <= x < |c.devices[k].subs| ::
      BankRuns.NothingBefore(c.devices[k].subs[x], c.now + 1)
  }

  /** All events of this cycle have run. */
  ghost predicate NothingDue(t: State) {
    && t.controller.channel.cleanupAt != Some(Now(t)) && CompletionsDone(t.controller.channel)
    && PulsesDone(t) && Now(t) !in t.controller.cycles && Now(t) !in t.controller.wakes
  }

  // ---------------------------------------------------------------- steps

  /** In a cycle come cleanup, completions, refresh pulses, cycle events, wake-ups, and then the host. */
  ghost predicate Enabled(p: Timing, cfg: Config, t: State, step: W.Step) {
    && W.Enabled(p, cfg, t.controller, step)
    && match step
       case Accept(_, _) => t.handingOver || NothingDue(t)
       case Pulse(rank, head) =>
         && CompletionsDone(t.controller.channel)
         && GroupIndex(cfg, rank, head) < |t.pulseAt| && t.pulseAt[GroupIndex(cfg, rank, head)] == Now(t)
       case Cycle(_, _, _) => PulsesDone(t)
       case Wake(_, _) => CompletionsDone(t.controller.channel) && PulsesDone(t) && Now(t) !in t.controller.cycles
       case Advance(to) => forall g | 0 <= g < |t.pulseAt| :: to <= t.pulseAt[g]
       case _ => true
  }

  ghost function Apply(p: Timing, cfg: Config, interval: nat, t: State, step: W.Step): State
    requires Enabled(p, cfg, t, step)
  {
    State(W.Apply(p, cfg, t.controller, step),
          if step.Pulse? then t.pulseAt[GroupIndex(cfg, step.rank, step.head) := Now(t) + interval] else t.pulseAt,
          step.Accept?)
  }

  /** The first pulse of the `g`-th of `n` groups. */
  function FirstPulse(interval: nat, n: positive, g: nat): nat { interval + g * (interval / n) }

  /** The first pulses are spread over an interval, as the controller schedules them. */
  function FirstPulses(cfg: Config, interval: nat): (pulses: seq<nat>)
    requires cfg.Valid()
  {
    GroupInRange(cfg, 0, 0);
    var n := cfg.ranks * cfg.Groups();
    seq(n, g requires 0 <= g < n => FirstPulse(interval, n, g))
  }

  function Initial(cfg: Config, queues: nat, interval: nat): State
    requires cfg.Valid()
  {
    State(W.Initial(cfg, queues), FirstPulses(cfg, interval), false)
  }

  ghost function Execute(p: Timing, cfg: Config, interval: nat, t: State, steps: seq<W.Step>): Option<State>
    decreases |steps|
  {
    if steps == [] then Some(t)
    else if Enabled(p, cfg, t, steps[0]) then
      Execute(p, cfg, interval, Apply(p, cfg, interval, t, steps[0]), steps[1..])
    else None
  }

  ghost predicate Reached(p: Timing, cfg: Config, queues: nat, interval: nat, steps: seq<W.Step>, t: State)
    requires cfg.Valid()
  {
    Execute(p, cfg, interval, Initial(cfg, queues, interval), steps) == Some(t)
  }

  // ---------------------------------------------------------------- runs

  lemma {:induction false} ControllerFollows(p: Timing, cfg: Config, interval: nat, t: State, steps: seq<W.Step>)
    requires Execute(p, cfg, interval, t, steps).Some?
    ensures W.Execute(p, cfg, t.controller, steps) == Some(Execute(p, cfg, interval, t, steps).value.controller)
    decreases |steps|
  {
    hide W.Enabled, W.Apply;
    if steps != [] { ControllerFollows(p, cfg, interval, Apply(p, cfg, interval, t, steps[0]), steps[1..]); }
  }

  /** Every run by the timetable is a run of the event-driven controller. */
  lemma RunsAreControllerRuns(p: Timing, cfg: Config, queues: nat, interval: nat, steps: seq<W.Step>, t: State)
    requires cfg.Valid() && Reached(p, cfg, queues, interval, steps, t)
    ensures W.Reached(p, cfg, queues, steps, t.controller)
  {
    ControllerFollows(p, cfg, interval, Initial(cfg, queues, interval), steps);
  }

  /** `at` is a cycle at which a pulse of group `g` is due: the first one, or whole intervals later. */
  ghost predicate OnTime(cfg: Config, interval: nat, g: nat, at: nat)
    requires cfg.Valid() && g < |FirstPulses(cfg, interval)|
  {
    exists n: nat :: at == FirstPulses(cfg, interval)[g] + n * interval
  }

  ghost predicate Regular(cfg: Config, interval: nat, t: State)
    requires cfg.Valid()
  {
    && |t.pulseAt| == |FirstPulses(cfg, interval)|
    && forall g | 0 <= g < |t.pulseAt| :: Now(t) <= t.pulseAt[g] && OnTime(cfg, interval, g, t.pulseAt[g])
  }

  lemma StepKeepsRegular(p: Timing, cfg: Config, interval: nat, t: State, step: W.Step)
    requires cfg.Valid() && Regular(cfg, interval, t) && Enabled(p, cfg, t, step)
    ensures Regular(cfg, interval, Apply(p, cfg, interval, t, step))
  {
    hide FirstPulses;
    var t' := Apply(p, cfg, interval, t, step);
    ClockMoves(p, cfg, t.controller, step);
    if step.Pulse? {
      var g := GroupIndex(cfg, step.rank, step.head);
      var n: nat :| t.pulseAt[g] == FirstPulses(cfg, interval)[g] + n * interval;
      assert t'.pulseAt[g] == FirstPulses(cfg, interval)[g] + (n + 1) * interval;
    }
  }

  lemma SendingKeepsNow(p: Timing, cfg: Config, s: W.State, latency: nat, bounce: Bounce)
    requires W.ReadyToRun(s)
    ensures W.Sending(p, cfg, s, latency, bounce).channel.now == s.channel.now
  {
    hide W.ToSend, W.Available, Channel.Issuable, Channel.DeviceAfter, Channel.ShadowAfter;
  }

  lemma ClockMoves(p: Timing, cfg: Config, s: W.State, step: W.Step)
    requires W.Enabled(p, cfg, s, step)
    ensures W.Apply(p, cfg, s, step).channel.now == if step.Advance? then step.to else s.channel.now
  {
    hide W.NextWake, W.Sending, W.Scheduled, W.Refreshed, W.Attends, W.EffectivelyEmpty, BankRuns.Apply;
    hide BankRuns.Enabled;
    match step
    case Cycle(choice, latency, bounce) =>
      var begun := s.(cycles := s.cycles - multiset{s.channel.now}, ranAt := Some(s.channel.now));
      W.ScheduleKeepsReady(p, cfg, begun, choice);
      SendingKeepsNow(p, cfg, W.Scheduled(p, cfg, begun, choice), latency, bounce);
    case Wake(latency, bounce) =>
      var begun := s.(wakes := s.wakes - {s.channel.now}, ranAt := Some(s.channel.now));
      SendingKeepsNow(p, cfg, W.Woken(cfg, begun), latency, bounce);
    case Pulse(rank, head) => RefreshedKeepsNow(p, cfg, s.channel, rank, head);
    case _ =>
  }

  lemma {:induction false} RunKeepsRegular(p: Timing, cfg: Config, interval: nat, t: State, steps: seq<W.Step>)
    requires cfg.Valid() && Regular(cfg, interval, t) && Execute(p, cfg, interval, t, steps).Some?
    ensures Regular(cfg, interval, Execute(p, cfg, interval, t, steps).value)
    decreases |steps|
  {
    hide Enabled, Apply, Regular;
    if steps != [] {
      StepKeepsRegular(p, cfg, interval, t, steps[0]);
      RunKeepsRegular(p, cfg, interval, Apply(p, cfg, interval, t, steps[0]), steps[1..]);
    }
  }

  /** No pulse is missed, and the pulses of a group are whole intervals apart, in every run. */
  lemma PulsesAreRegular(p: Timing, cfg: Config, queues: nat, interval: nat, steps: seq<W.Step>, t: State)
    requires cfg.Valid() && Reached(p, cfg, queues, interval, steps, t)
    ensures Regular(cfg, interval, t)
  {
    var t0 := Initial(cfg, queues, interval);
    forall g | 0 <= g < |t0.pulseAt| ensures OnTime(cfg, interval, g, t0.pulseAt[g]) {
      assert t0.pulseAt[g] == FirstPulses(cfg, interval)[g] + 0 * interval;
    }
    RunKeepsRegular(p, cfg, interval, t0, steps);
  }

  // ---------------------------------------------------------------- being late

  /**
    A command can be sent, and nothing looks at the queue heads in this cycle: nothing has, all
    events of the cycle have run, and every wake-up, cycle event and pulse still to come is later.
   */
  ghost predicate Late(p: Timing, cfg: Config, t: State, k: nat) {
    var s := t.controller;
    && W.CanSend(p, cfg, s.channel.shadows, s.channel.devices, k, Now(t)) && !s.channel.shadows[k].queue[0].issued
    && s.ranAt != Some(Now(t)) && NothingDue(t)
    && (forall w | w in s.wakes :: Now(t) < w) && forall c | c in s.cycles :: Now(t) < c
  }

  ghost predicate NeverLate(p: Timing, cfg: Config) {
    cfg.Valid() ==>
      forall queues: nat, interval: nat, steps, t, k: nat | Reached(p, cfg, queues, interval, steps, t) ::
        !Late(p, cfg, t, k)
  }

  /** With prompt timings no run by the timetable is late. */
  lemma PromptIsNeverLate(p: Timing, cfg: Config)
    requires Prompt(p, cfg)
    ensures NeverLate(p, cfg)
  {
    hide Reached, Prompt, NothingDue;
    if cfg.Valid() {
      forall queues: nat, interval: nat, steps, t, k: nat | Reached(p, cfg, queues, interval, steps, t)
        ensures !Late(p, cfg, t, k) {
        RunsAreControllerRuns(p, cfg, queues, interval, steps, t);
        if Late(p, cfg, t, k) { NeverOversleeps(p, cfg, queues, steps, t.controller, k); }
      }
    }
  }
}
