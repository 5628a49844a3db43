/**
  The timing condition is exact for the whole controller: under the open-page policy, with two banks
  outside of a refresh group, some run by the timetable is late if and only if it does not hold.
 */
module LateTimings {
  import opened Arithmetic
  import opened Commands
  import opened ControllerSpec
  import opened RefreshSpec
  import opened Driving
  import opened Opening
  import opened LateWakeup
  import W = Wakeups
  import T = Timetable
  import BankRuns
  import WakeupRuns

  // ---------------------------------------------------------------- from power-on to the scene

  function UsedBanks(cfg: Config): seq<nat> { [0, cfg.perRefresh, cfg.perRefresh + 1] }

  /** The pulses of different groups are at least a slice of the interval apart. */
  lemma PulsesAreApart(cfg: Config, interval: nat)
    requires cfg.Valid()
    ensures var n := cfg.ranks * cfg.Groups();
      && 0 < n && interval / n <= interval && var pulses := T.FirstPulses(cfg, interval);
         && |pulses| == n && pulses[0] == interval && forall g | 0 < g < n :: interval + interval / n <= pulses[g]
  {
    GroupInRange(cfg, 0, 0);
    var n := cfg.ranks * cfg.Groups();
    var slice := interval / n;
    DivModParts(interval, n);
    MulMonotone(slice, 1, n);
    forall g | 0 < g < n ensures interval + slice <= T.FirstPulses(cfg, interval)[g] { MulMonotone(slice, 1, g); }
  }

  lemma ThreeAreUsed(cfg: Config)
    requires cfg.Valid() && cfg.perRefresh + 2 <= cfg.banks
    ensures Used(cfg, UsedBanks(cfg))
  {}

  /** Runs from power-on open the row of one bank after the other. */
  lemma OpensThree(p: Timing, cfg: Config, interval: nat, at: nat) returns (steps: seq<W.Step>, t: T.State, f: Facts)
    requires cfg.Valid() && cfg.perRefresh + 2 <= cfg.banks && cfg.closePage == 0 && 3 * Setup(p) + 1 <= at
    requires forall g | 0 <= g < |T.FirstPulses(cfg, interval)| :: at < T.FirstPulses(cfg, interval)[g]
    ensures Runs(p, cfg, interval, T.Initial(cfg, 1, interval), steps, t) && Shows(cfg, UsedBanks(cfg), t, f)
    ensures Calm(cfg, UsedBanks(cfg), f) && f.now == at && f.pulseAt == T.FirstPulses(cfg, interval)
    ensures forall j | 0 <= j < 3 :: Sized(cfg, f.sh[j]) && f.sh[j].activateQueued
  {
    hide Runs, Shows, T.FirstPulses, Calm, Setup, BankRuns.NothingBefore, Used;
    var bs, t0 := UsedBanks(cfg), T.Initial(cfg, 1, interval);
    ThreeAreUsed(cfg);
    var t1 := StartsCalm(p, cfg, interval, bs);
    var f1 := PowerOn(cfg, bs, interval).(now := 1);
    var a, t2, f2 := OpensBank(p, cfg, interval, bs, t1, f1, 0, 1 + Setup(p));
    var b, t3, f3 := OpensBank(p, cfg, interval, bs, t2, f2, 1, 1 + 2 * Setup(p));
    var c;
    c, t, f := OpensBank(p, cfg, interval, bs, t3, f3, 2, at);
    var first := ThreeRuns(p, cfg, interval, t0, [W.Advance(1)], t1, a, t2, b, t3);
    RunsOn(p, cfg, interval, t0, first, t3, c, t);
    steps := first + c;
  }

  lemma CalmServes(cfg: Config, f: Facts)
    requires Calm(cfg, UsedBanks(cfg), f)
    requires forall j | 0 <= j < 3 :: f.sh[j].activateQueued
    ensures |f.sh| == |f.dev| == 3 && forall j | 0 <= j < 3 ::
      Sized(cfg, f.sh[j]) && f.sh[j].queue == [] && IsServing(cfg, f.sh[j], f.dev[j], f.now)
      && !f.sh[j].needRefresh && !f.sh[j].refreshQueued
  {
    hide IsServing;
    forall j | 0 <= j < 3 ensures Resting(cfg, f.sh[j], f.dev[j], f.now) && !IsUnused(cfg, f.sh[j], f.dev[j]) {}
  }

  // ---------------------------------------------------------------- late runs

  /** The configurations that are considered: two banks lie outside of the first refresh group. */
  predicate TwoOutside(cfg: Config) {
    cfg.Valid() && cfg.closePage == 0 && cfg.refreshThreshold == 1 && cfg.perRefresh + 2 <= cfg.banks
  }

  /** The pulses leave enough time to open three rows. */
  ghost predicate LongEnough(p: Timing, cfg: Config, interval: nat, d: nat)
    requires cfg.Valid()
  {
    PulsesAreApart(cfg, interval);
    3 * Setup(p) + d + 5 <= interval / (cfg.ranks * cfg.Groups())
  }

  /**
    When the row of a column command can be closed before the next column command could follow, a
    run by the timetable and by first-ready first-come-first-served scheduling is late.
   */
  lemma SomeRunIsLate(p: Timing, cfg: Config, interval: nat, op: Op, b: positive, n: positive, d: nat)
    returns (steps: seq<W.Step>, t: T.State)
    requires TwoOutside(cfg) && cfg.useRefresh && (op.Read? || (op.Write? && !p.pausing))
    requires LongEnough(p, cfg, interval, d)
    requires 1 <= d < p.Span(b) && KeepsOpen(p, op, b) <= d && d + 3 < p.Span(n)
    ensures Runs(p, cfg, interval, T.Initial(cfg, 1, interval), steps, t)
    ensures T.Reached(p, cfg, 1, interval, steps, t) && T.Late(p, cfg, t, Id(cfg, 0))
  {
    hide Runs, Shows, T.FirstPulses, Calm, T.Late, IsServing, Setup, Parameters.Span;
    PulsesAreApart(cfg, interval);
    var a, t1, f := OpensThree(p, cfg, interval, interval - 3);
    CalmServes(cfg, f);
    var s := Scene(p, cfg, interval, f, op, b, n);
    var c;
    c, t := GoesLate(s, d, t1);
    RunsOn(p, cfg, interval, T.Initial(cfg, 1, interval), a, t1, c, t);
    steps := a + c;
    RunsExecute(p, cfg, interval, T.Initial(cfg, 1, interval), steps, t);
  }

  /**
    The timing condition is exact for the controller: no run by the timetable is late if and only if
    the timings are prompt.
   */
  lemma NeverLateIff(p: Timing, cfg: Config)
    requires TwoOutside(cfg) && !p.pausing
    ensures T.NeverLate(p, cfg) <==> WakeupRuns.PromptTimings(p, cfg)
  {
    hide T.NeverLate, WakeupRuns.Prompt;
    WakeupRuns.PromptIs(p, cfg);
    if WakeupRuns.PromptTimings(p, cfg) {
      T.PromptIsNeverLate(p, cfg);
    } else {
      NotPromptIsLate(p, cfg);
    }
  }

  lemma NotPromptIsLate(p: Timing, cfg: Config)
    requires TwoOutside(cfg) && !p.pausing && !WakeupRuns.PromptTimings(p, cfg)
    ensures !T.NeverLate(p, cfg)
  {
    hide T.Reached, T.Late, Runs, Setup;
    var op := if p.Span(1) + p.ccd <= p.al + p.burst + p.rtp then Op.Write else Op.Read;
    WakeupRuns.SpanStep(p, 2);
    WakeupRuns.SpanStep(p, 3);
    WakeupRuns.SpanStep(p, 4);
    WakeupRuns.SpanStep(p, 5);
    hide Parameters.Span;
    var d := if KeepsOpen(p, op, 2) < 1 then 1 else KeepsOpen(p, op, 2);
    var n := cfg.ranks * cfg.Groups();
    PulsesAreApart(cfg, 0);
    DivModOfRadix(n, 3 * Setup(p) + d + 5, 0);
    var steps, t := SomeRunIsLate(p, cfg, (3 * Setup(p) + d + 5) * n, op, 2, 5, d);
  }

  // ---------------------------------------------------------------- an example

  /** The timings of Config/3D_DRAM_example.config, with its banks in two refresh groups, and its refresh interval. */
  const P: Timing := Parameters(10, 24, 10, 0, 5, 2, 4, 10, 7, 1, 5, 10, 107, 6, 6, 17, 24, 19, 8192, false)
  const CFG: Config := Config(1, 32, 1, 8192, 16, 0, 4, false, true, 16, 1)
  const INTERVAL: nat := 42666667 / 8192

  /**
    With these timings the controller is late for the precharge behind a read of one burst, when
    reads of two bursts keep two other banks busy.
   */
  lemma ControllerOversleeps() returns (steps: seq<W.Step>, t: T.State)
    ensures CFG.Valid() && !WakeupRuns.PromptTimings(P, CFG)
    ensures Runs(P, CFG, INTERVAL, T.Initial(CFG, 1, INTERVAL), steps, t)
    ensures T.Reached(P, CFG, 1, INTERVAL, steps, t) && T.Late(P, CFG, t, 0)
  {
    hide Runs, T.Reached, T.Late, T.Initial;
    assert P.Span(0) == 0 && P.Span(1) == 4 && P.Span(2) == 8;
    steps, t := SomeRunIsLate(P, CFG, INTERVAL, Op.Read, 1, 2, 3);
  }
}
