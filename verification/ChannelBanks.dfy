/**
  Every bank of a channel run goes through a run of its own, so that what holds of all runs of
  one bank holds behind the controller.
 */
module ChannelBanks {
  import opened Commands
  import opened ControllerSpec
  import opened Channel
  import Bank = BankSpec
  import Sub = SubArraySpec
  import BankRuns

  /** What channel step `step` means to bank `k`. */
  ghost function BankSteps(cfg: Config, s: State, step: Step, k: nat): seq<BankRuns.Step> {
    match step
    case IssueHead(id, latency, bounce) =>
      if id < |s.shadows| && s.shadows[id].queue != [] && Reaches(cfg, s.shadows[id].queue[0], k) then
        [BankRuns.Issue(s.shadows[id].queue[0], latency, bounce)]
      else
        []
    case Event(id, e) => if id == k then [e] else []
    case Advance(to) => [BankRuns.Advance(to)]
    case _ => []
  }

  /** What bank `k` sees of a run of the channel. */
  ghost function BankTrace(p: Timing, cfg: Config, s: State, steps: seq<Step>, k: nat): seq<BankRuns.Step>
    decreases |steps|
  {
    if steps == [] || !Enabled(p, cfg, s, steps[0]) then []
    else BankSteps(cfg, s, steps[0], k) + BankTrace(p, cfg, Apply(p, cfg, s, steps[0]), steps[1..], k)
  }

  /** Bank `k` of channel state `s`, with the commands it has accepted so far. */
  ghost function ConfigOf(s: State, k: nat, log: seq<BankRuns.Entry>): BankRuns.Config
    requires k < |s.devices|
  {
    BankRuns.Config(s.devices[k], s.now, log)
  }

  lemma {:induction false} ExecuteAppend(p: Timing, c: BankRuns.Config, a: seq<BankRuns.Step>, b: seq<BankRuns.Step>)
    requires BankRuns.Execute(p, c, a).Some?
    ensures BankRuns.Execute(p, c, a + b) == BankRuns.Execute(p, BankRuns.Execute(p, c, a).value, b)
    decreases |a|
  {
    if a == [] {
      assert a + b == b;
    } else {
      assert (a + b)[1..] == a[1..] + b;
      ExecuteAppend(p, BankRuns.Apply(p, c, a[0]), a[1..], b);
    }
  }

  lemma ExecuteOne(p: Timing, c: BankRuns.Config, step: BankRuns.Step)
    requires BankRuns.Enabled(p, c, step)
    ensures BankRuns.Execute(p, c, [step]) == Some(BankRuns.Apply(p, c, step))
  {}

  lemma IssueIsEnabled(p: Timing, cfg: Config, devices: seq<Bank.State>, r: Request, m: Moment, k: nat,
                       c: BankRuns.Config)
    returns (issue: BankRuns.Step)
    requires k < |devices| && c.bank == devices[k] && c.now == m.now
    requires Issuable(p, cfg, devices, r, m.now) && Reaches(cfg, r, k) && Sub.Sendable(p, r)
    ensures issue == BankRuns.Issue(r, m.latency, m.bounce) && BankRuns.Enabled(p, c, issue)
    ensures Bank.Routed(devices[k], r)
    ensures var c' := BankRuns.Apply(p, c, issue);
      c'.now == m.now && c'.bank == DeviceAfter(p, cfg, devices, r, m, k)
  {
    issue := BankRuns.Issue(r, m.latency, m.bounce);
    assert Bank.Routed(devices[k], r) && Bank.IsIssuable(p, devices[k], r, m.now);
  }

  lemma NotReached(p: Timing, cfg: Config, devices: seq<Bank.State>, r: Request, m: Moment, k: nat)
    requires k < |devices| && !Reaches(cfg, r, k)
    ensures DeviceAfter(p, cfg, devices, r, m, k) == devices[k]
  {}

  /** A command that is sent is accepted by every bank it reaches, and leaves the others alone. */
  lemma IssueIsBankSteps(p: Timing, cfg: Config, s: State, step: Step, k: nat, log: seq<BankRuns.Entry>)
    returns (c: BankRuns.Config)
    requires Inv(p, cfg, s) && Enabled(p, cfg, s, step) && step.IssueHead? && k < |s.devices|
    ensures |Apply(p, cfg, s, step).devices| == |s.devices|
    ensures BankRuns.Execute(p, ConfigOf(s, k, log), BankSteps(cfg, s, step, k)) == Some(c)
    ensures c == ConfigOf(Apply(p, cfg, s, step), k, c.log)
  {
    hide BankRuns.Execute, Inv, Apply, BankRuns.Enabled, BankRuns.Apply, DeviceAfter, ShadowAfter, Reaches, Issuable;
    var r, m := IssueEffect(p, cfg, s, step);
    SizesAgree(p, cfg, s);
    c := ConfigOf(s, k, log);
    if Reaches(cfg, r, k) {
      var issue := IssueIsEnabled(p, cfg, s.devices, r, m, k, c);
      ExecuteOne(p, c, issue);
      c := BankRuns.Apply(p, c, issue);
    } else {
      NotReached(p, cfg, s.devices, r, m, k);
      ExecuteNone(p, c);
    }
  }

  lemma SizesAgree(p: Timing, cfg: Config, s: State)
    requires Inv(p, cfg, s)
    ensures |s.shadows| == |s.devices| == cfg.ranks * cfg.banks
  {}

  lemma StepIsBankSteps(p: Timing, cfg: Config, s: State, step: Step, k: nat, log: seq<BankRuns.Entry>)
    returns (c: BankRuns.Config)
    requires Inv(p, cfg, s) && Enabled(p, cfg, s, step) && k < |s.devices|
    ensures |Apply(p, cfg, s, step).devices| == |s.devices|
    ensures BankRuns.Execute(p, ConfigOf(s, k, log), BankSteps(cfg, s, step, k)) == Some(c)
    ensures c == ConfigOf(Apply(p, cfg, s, step), k, c.log)
  {
    if step.IssueHead? {
      c := IssueIsBankSteps(p, cfg, s, step, k, log);
    } else {
      c := ConfigOf(s, k, log);
      if step.Advance? || (step.Event? && step.id == k) {
        ExecuteOne(p, c, BankSteps(cfg, s, step, k)[0]);
        c := BankRuns.Apply(p, c, BankSteps(cfg, s, step, k)[0]);
      }
    }
  }

  /** What bank `k` sees is a run of that bank, and ends in its state. */
  lemma {:induction false} BanksFollow(p: Timing, cfg: Config, s: State, steps: seq<Step>, k: nat,
                                       log: seq<BankRuns.Entry>)
    returns (c: BankRuns.Config)
    requires Inv(p, cfg, s) && Execute(p, cfg, s, steps).Some? && k < |s.devices|
    ensures |Execute(p, cfg, s, steps).value.devices| == |s.devices|
    ensures BankRuns.Execute(p, ConfigOf(s, k, log), BankTrace(p, cfg, s, steps, k)) == Some(c)
    ensures c == ConfigOf(Execute(p, cfg, s, steps).value, k, c.log)
    decreases |steps|
  {
    hide Inv, Enabled, Apply, BankRuns.Execute, BankSteps;
    if steps == [] {
      c := ConfigOf(s, k, log);
      ExecuteNone(p, c);
    } else {
      var s' := Apply(p, cfg, s, steps[0]);
      StepKeepsInv(p, cfg, s, steps[0]);
      var c' := StepIsBankSteps(p, cfg, s, steps[0], k, log);
      c := BanksFollow(p, cfg, s', steps[1..], k, c'.log);
      ExecuteAppend(p, ConfigOf(s, k, log), BankSteps(cfg, s, steps[0], k), BankTrace(p, cfg, s', steps[1..], k));
    }
  }

  lemma ExecuteNone(p: Timing, c: BankRuns.Config)
    ensures BankRuns.Execute(p, c, []) == Some(c)
  {}

  /**
    Timing safety of the whole channel, refreshes included: in every run from power-on the
    commands that reach a bank keep all their distances, and activates of one of its subarrays
    are separated by a closing command.
   */
  lemma EveryBankIsTimed(p: Timing, cfg: Config, queues: nat, steps: seq<Step>, s: State, k: nat)
    requires Reached(p, cfg, queues, steps, s) && k < cfg.ranks * cfg.banks
    ensures k < |s.devices|
    ensures var run := BankRuns.Execute(p, BankRuns.Start(cfg.subarrays, false),
      BankTrace(p, cfg, Initial(cfg, queues), steps, k));
      && run.Some? && run.value.bank == s.devices[k] && run.value.now == s.now
      && BankRuns.Spaced(p, run.value.log) && BankRuns.ActivatesSeparated(run.value.log)
  {
    InitialInv(p, cfg, queues);
    var c := BanksFollow(p, cfg, Initial(cfg, queues), steps, k, []);
    BankRuns.TimingSafety(p, cfg.subarrays, false, BankTrace(p, cfg, Initial(cfg, queues), steps, k));
  }
}
