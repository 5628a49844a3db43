/**
  Progress of a channel: every head that is not a REFRESH can be sent once events and time have
  passed, and with at most one refresh outstanding per bank group every queue can be emptied.
 */
module ChannelProgress {
  import opened Commands
  import opened ControllerSpec
  import opened Channel
  import opened ChannelRefresh
  import Bank = BankSpec
  import BankRuns
  import Replay

  // ---------------------------------------------------------------- quiet steps

  ghost predicate IsQuiet(step: Step) { step.Event? || step.Advance? || step.Cleanup? }

  ghost predicate AllQuiet(steps: seq<Step>) { forall i | 0 <= i < |steps| :: IsQuiet(steps[i]) }

  /** Nothing new comes in: what is queued is sent, and events and time pass. */
  ghost predicate AllDraining(steps: seq<Step>) {
    forall i | 0 <= i < |steps| :: IsQuiet(steps[i]) || steps[i].IssueHead?
  }

  ghost predicate CalmShadow(sh: Shadow, sh': Shadow) {
    sh' == sh.(queue := sh'.queue) && Pending(sh'.queue) == Pending(sh.queue)
  }

  ghost predicate CalmBank(p: Timing, b: Bank.State, b': Bank.State) {
    && Replay.ViewOf(b') == Replay.ViewOf(b)
    && forall d: nat | Replay.SettledBy(p, b, d) :: Replay.SettledBy(p, b', d)
  }

  /** Between `s` and `s'` no command was sent and nothing was queued. */
  ghost predicate Calm(p: Timing, s: State, s': State) {
    && s'.lastIssue == s.lastIssue && s.now <= s'.now
    && |s'.shadows| == |s.shadows| && |s'.devices| == |s.devices|
    && (forall k | 0 <= k < |s.shadows| :: CalmShadow(s.shadows[k], s'.shadows[k]))
    && forall k | 0 <= k < |s.devices| :: CalmBank(p, s.devices[k], s'.devices[k])
  }

  lemma CalmTransitive(p: Timing, a: State, b: State, c: State)
    requires Calm(p, a, b) && Calm(p, b, c)
    ensures Calm(p, a, c)
  {
    forall k | 0 <= k < |a.shadows| ensures CalmShadow(a.shadows[k], c.shadows[k]) {
      assert CalmShadow(a.shadows[k], b.shadows[k]) && CalmShadow(b.shadows[k], c.shadows[k]);
    }
    forall k | 0 <= k < |a.devices| ensures CalmBank(p, a.devices[k], c.devices[k]) {
      assert CalmBank(p, a.devices[k], b.devices[k]) && CalmBank(p, b.devices[k], c.devices[k]);
    }
  }

  lemma QuietBankIsCalm(p: Timing, c: BankRuns.Config, e: BankRuns.Step)
    requires Bank.Inv(p, c.bank, c.now) && e.IsQuiet() && BankRuns.Enabled(p, c, e)
    ensures CalmBank(p, c.bank, BankRuns.Apply(p, c, e).bank)
  {
    var c' := BankRuns.Apply(p, c, e);
    assert BankRuns.Execute(p, c, [e]) == Some(c');
    Replay.QuietRunKeepsView(p, c, [e]);
    forall d: nat | Replay.SettledBy(p, c.bank, d) ensures Replay.SettledBy(p, c'.bank, d) {
      Replay.QuietRunStaysSettled(p, c, [e], d);
    }
  }

  lemma DropsOnce(p: Timing, cfg: Config, s: State, k: nat)
    requires Inv(p, cfg, s) && k < |s.shadows|
    ensures var q := s.shadows[k].queue; Pending(Pending(q)) == Pending(q)
    ensures Bank.Inv(p, s.devices[k], s.now)
  {
    assert BankOk(p, cfg, k, s.shadows[k], s.devices[k], s);
  }

  lemma QuietStepIsCalm(p: Timing, cfg: Config, s: State, step: Step)
    requires Inv(p, cfg, s) && Enabled(p, cfg, s, step) && IsQuiet(step)
    ensures Calm(p, s, Apply(p, cfg, s, step))
  {
    hide BankOk, TransactionsOk, Conserved, BankRuns.Apply, Replay.SettledBy;
    var s' := Apply(p, cfg, s, step);
    forall k | 0 <= k < |s.shadows| ensures CalmShadow(s.shadows[k], s'.shadows[k]) {
      DropsOnce(p, cfg, s, k);
    }
    if step.Event? {
      DropsOnce(p, cfg, s, step.id);
      QuietBankIsCalm(p, BankRuns.Config(s.devices[step.id], s.now, []), step.e);
    }
  }

  lemma {:induction false} QuietRunIsCalm(p: Timing, cfg: Config, s: State, steps: seq<Step>)
    requires Inv(p, cfg, s) && AllQuiet(steps) && Execute(p, cfg, s, steps).Some?
    ensures Calm(p, s, Execute(p, cfg, s, steps).value) && Inv(p, cfg, Execute(p, cfg, s, steps).value)
    decreases |steps|
  {
    hide Inv, Enabled, Apply;
    if steps == [] {
      CalmReflexive(p, s);
    } else {
      hide Calm;
      var s1 := Apply(p, cfg, s, steps[0]);
      StepKeepsInv(p, cfg, s, steps[0]);
      QuietStepIsCalm(p, cfg, s, steps[0]);
      QuietRunIsCalm(p, cfg, s1, steps[1..]);
      CalmTransitive(p, s, s1, Execute(p, cfg, s, steps).value);
    }
  }

  lemma CalmReflexive(p: Timing, s: State)
    ensures Calm(p, s, s)
  {}

  // ---------------------------------------------------------------- time passes

  /** Completion events due now, over all banks. */
  function AllDue(devices: seq<Bank.State>, now: nat): nat {
    if devices == [] then 0 else Replay.Due(devices[0].subs, now) + AllDue(devices[1..], now)
  }

  lemma {:induction false} AllDueDrops(devices: seq<Bank.State>, k: nat, b: Bank.State, now: nat)
    requires k < |devices| && Replay.Due(b.subs, now) < Replay.Due(devices[k].subs, now)
    ensures AllDue(devices[k := b], now) < AllDue(devices, now)
  {
    if k == 0 {
      assert devices[k := b][1..] == devices[1..];
    } else {
      assert devices[k := b][1..] == devices[1..][k - 1 := b];
      AllDueDrops(devices[1..], k - 1, b, now);
    }
  }

  function ToClean(s: State): nat { if s.cleanupAt == Some(s.now) then 1 else 0 }

  /** What can be done quietly at bank `k`. */
  lemma NextBankStep(p: Timing, cfg: Config, s: State, k: nat) returns (e: BankRuns.Step)
    requires Inv(p, cfg, s) && k < |s.devices|
    ensures e.IsQuiet() && BankRuns.Enabled(p, BankRuns.Config(s.devices[k], s.now, []), e)
    ensures e.Advance? ==> e.to == s.now + 1
    ensures !e.Advance? && s.cleanupAt != Some(s.now) ==>
      && Enabled(p, cfg, s, Event(k, e))
      && AllDue(Apply(p, cfg, s, Event(k, e)).devices, s.now) < AllDue(s.devices, s.now)
  {
    var c := BankRuns.Config(s.devices[k], s.now, []);
    assert BankOk(p, cfg, k, s.shadows[k], s.devices[k], s);
    e := Replay.NextQuietStep(p, c);
    if !e.Advance? { AllDueDrops(s.devices, k, BankRuns.Apply(p, c, e).bank, s.now); }
  }

  lemma CleanupComesFirst(p: Timing, cfg: Config, s: State)
    requires Inv(p, cfg, s) && s.cleanupAt != Some(s.now)
    requires forall i | 0 <= i < |s.devices| ::
      BankRuns.Enabled(p, BankRuns.Config(s.devices[i], s.now, []), BankRuns.Advance(s.now + 1))
    ensures Enabled(p, cfg, s, Advance(s.now + 1))
  {
    hide BankRuns.Enabled, BanksOk, TransactionsOk, Conserved;
  }

  /** Something quiet can always be done that brings the next cycle nearer. */
  lemma NextQuietStep(p: Timing, cfg: Config, s: State) returns (step: Step)
    requires Inv(p, cfg, s)
    ensures IsQuiet(step) && Enabled(p, cfg, s, step)
    ensures var s' := Apply(p, cfg, s, step);
      if step.Advance? then s'.now == s.now + 1
      else
        && s'.now == s.now
        && (ToClean(s') < ToClean(s)
            || (ToClean(s') == ToClean(s) && AllDue(s'.devices, s.now) < AllDue(s.devices, s.now)))
  {
    hide Inv, AllDue, BankRuns.Enabled, BankRuns.Apply;
    if s.cleanupAt == Some(s.now) { return Cleanup; }
    var k := 0;
    while k < |s.devices|
      invariant k <= |s.devices|
      invariant forall i | 0 <= i < k ::
        BankRuns.Enabled(p, BankRuns.Config(s.devices[i], s.now, []), BankRuns.Advance(s.now + 1))
    {
      var e := NextBankStep(p, cfg, s, k);
      if !e.Advance? { return Event(k, e); }
      k := k + 1;
    }
    CleanupComesFirst(p, cfg, s);
    return Advance(s.now + 1);
  }

  /** Events and cleanups can always be worked off, so that time gets past any cycle. */
  lemma {:induction false} TimePasses(p: Timing, cfg: Config, s: State, d: nat) returns (steps: seq<Step>)
    requires Inv(p, cfg, s)
    ensures AllQuiet(steps) && Execute(p, cfg, s, steps).Some? && d < Execute(p, cfg, s, steps).value.now
    decreases d + 1 - s.now, ToClean(s), AllDue(s.devices, s.now)
  {
    hide Inv, Enabled, Apply, AllDue;
    if d < s.now { return []; }
    var step := NextQuietStep(p, cfg, s);
    StepKeepsInv(p, cfg, s, step);
    var rest := TimePasses(p, cfg, Apply(p, cfg, s, step), d);
    steps := [step] + rest;
  }

  /** There is a cycle by which the timers and events known now have passed in all banks. */
  lemma {:induction false} AllSettleEventually(p: Timing, devices: seq<Bank.State>) returns (d: nat)
    ensures forall k | 0 <= k < |devices| :: Replay.SettledBy(p, devices[k], d)
  {
    d := 0;
    if devices != [] {
      var rest := AllSettleEventually(p, devices[1..]);
      Replay.SettlesEventually(p, devices[0]);
      var own: nat :| Replay.SettledBy(p, devices[0], own);
      d := Max(rest, own);
      forall k | 0 <= k < |devices| ensures Replay.SettledBy(p, devices[k], d) {
        if k == 0 { SettledLater(p, devices[0], own, d); } else { SettledLater(p, devices[1..][k - 1], rest, d); }
      }
    }
  }

  lemma SettledLater(p: Timing, b: Bank.State, d: nat, e: nat)
    requires Replay.SettledBy(p, b, d) && d <= e
    ensures Replay.SettledBy(p, b, e)
  {
    forall i | 0 <= i < |b.subs| ensures Replay.SubSettledBy(p, b.subs[i], e) {
      assert Replay.SubSettledBy(p, b.subs[i], d);
    }
  }

  // ---------------------------------------------------------------- settled states

  /** Nothing is going on: all timers and events have passed, and nothing was sent in this cycle. */
  ghost predicate Settled(p: Timing, s: State) {
    && s.cleanupAt == None && s.lastIssue < s.now
    && forall k | 0 <= k < |s.devices| :: HasSettled(p, s.devices[k], s.now)
  }

  ghost predicate HasSettled(p: Timing, b: Bank.State, now: nat) {
    exists d: nat :: d < now && Replay.SettledBy(p, b, d)
  }

  lemma SettledFrom(p: Timing, cfg: Config, s: State, d: nat)
    requires Inv(p, cfg, s) && s.lastIssue + 1 < s.now
    requires forall k | 0 <= k < |s.devices| :: d < s.now && Replay.SettledBy(p, s.devices[k], d)
    ensures Settled(p, s)
  {
    hide BanksOk, TransactionsOk, Conserved, Replay.SettledBy;
    forall k | 0 <= k < |s.devices| ensures HasSettled(p, s.devices[k], s.now) {
      var b := s.devices[k];
      assert d < s.now && Replay.SettledBy(p, b, d);
    }
  }

  /** Letting events and time pass leads to a settled state with the same pending commands. */
  lemma Settles(p: Timing, cfg: Config, s: State) returns (steps: seq<Step>, s': State)
    requires Inv(p, cfg, s)
    ensures AllQuiet(steps) && Execute(p, cfg, s, steps) == Some(s')
    ensures Inv(p, cfg, s') && Calm(p, s, s') && Settled(p, s')
  {
    var d := AllSettleEventually(p, s.devices);
    steps := TimePasses(p, cfg, s, d + s.lastIssue + 1);
    s' := Execute(p, cfg, s, steps).value;
    QuietRunIsCalm(p, cfg, s, steps);
    forall k | 0 <= k < |s'.devices| ensures d < s'.now && Replay.SettledBy(p, s'.devices[k], d) {
      assert CalmBank(p, s.devices[k], s'.devices[k]);
      assert Replay.SettledBy(p, s.devices[k], d);
    }
    SettledFrom(p, cfg, s', d);
  }

  /** In a settled state no command that was sent is still in a queue. */
  lemma SettledIsClean(p: Timing, cfg: Config, s: State, k: nat)
    requires Inv(p, cfg, s) && s.cleanupAt == None && k < |s.shadows|
    ensures s.shadows[k].queue == Pending(s.shadows[k].queue)
  {
    assert BankOk(p, cfg, k, s.shadows[k], s.devices[k], s);
  }

  /** A head that is legal in every bank it reaches can be sent from a settled state. */
  lemma SettledHeadCanBeSent(p: Timing, cfg: Config, s: State, k: nat)
    requires Inv(p, cfg, s) && Settled(p, s) && k < |s.shadows| && s.shadows[k].queue != []
    requires forall u | 0 <= u < |s.devices| && Reaches(cfg, s.shadows[k].queue[0], u) ::
      Replay.Legal(Replay.ViewOf(s.devices[u]), s.shadows[k].queue[0])
    ensures Enabled(p, cfg, s, IssueHead(k, 0, NotBounced))
  {
    var r := s.shadows[k].queue[0];
    forall u | 0 <= u < |s.devices| && Reaches(cfg, r, u)
      ensures Bank.Routed(s.devices[u], r) && Bank.IsIssuable(p, s.devices[u], r, s.now) {
      assert BankOk(p, cfg, u, s.shadows[u], s.devices[u], s);
      var d: nat :| d < s.now && Replay.SettledBy(p, s.devices[u], d);
      Replay.SettledIsIssuable(p, s.devices[u], r, d, s.now);
    }
  }

  lemma HeadIsLegal(p: Timing, cfg: Config, s: State, k: nat)
    requires Inv(p, cfg, s) && k < |s.shadows| && k < |s.devices| && Pending(s.shadows[k].queue) != []
    ensures Replay.Legal(Replay.ViewOf(s.devices[k]), Pending(s.shadows[k].queue)[0])
  {
    assert BankOk(p, cfg, k, s.shadows[k], s.devices[k], s);
  }

  /** A head other than REFRESH can be sent from every settled state. */
  lemma PlainHeadCanBeSent(p: Timing, cfg: Config, s: State, k: nat)
    requires Inv(p, cfg, s) && Settled(p, s) && k < |s.shadows| && Pending(s.shadows[k].queue) != []
    requires !Pending(s.shadows[k].queue)[0].op.Refresh?
    ensures Enabled(p, cfg, s, IssueHead(k, 0, NotBounced))
  {
    SettledIsClean(p, cfg, s, k);
    assert BankOk(p, cfg, k, s.shadows[k], s.devices[k], s);
    assert CommandOk(p, cfg, k, s.shadows[k].queue[0]);
    HeadIsLegal(p, cfg, s, k);
    SettledHeadCanBeSent(p, cfg, s, k);
  }

  /**
    No stuck queue head. From every reachable state, the head of every command queue can be sent
    after nothing but events, time and cleanup, unless it is a REFRESH.
   */
  lemma HeadCanBeSent(p: Timing, cfg: Config, queues: nat, steps: seq<Step>, s: State, k: nat)
    returns (quiet: seq<Step>, s': State)
    requires Reached(p, cfg, queues, steps, s) && k < |s.shadows| && Pending(s.shadows[k].queue) != []
    requires !Pending(s.shadows[k].queue)[0].op.Refresh?
    ensures AllQuiet(quiet) && Execute(p, cfg, s, quiet) == Some(s')
    ensures Enabled(p, cfg, s', IssueHead(k, 0, NotBounced))
    ensures k < |s'.shadows| && s'.shadows[k].queue == Pending(s.shadows[k].queue)
  {
    ReachedInv(p, cfg, queues, steps, s);
    quiet, s' := Settles(p, cfg, s);
    assert CalmShadow(s.shadows[k], s'.shadows[k]);
    SettledIsClean(p, cfg, s', k);
    PlainHeadCanBeSent(p, cfg, s', k);
  }

  // ---------------------------------------------------------------- REFRESH heads

  /** In the controller's tables subarray 0 is closed in every other bank of the group. */
  ghost predicate OthersClosed(cfg: Config, shadows: seq<Shadow>, rank: nat, head: nat) {
    forall u | 0 <= u < |shadows| && InGroup(cfg, rank, head, u) && u != QueueId(cfg, rank, head) ::
      |shadows[u].active| > 0 && !shadows[u].active[0]
  }

  /** The other banks of the group have no command waiting. */
  ghost predicate OthersEmpty(cfg: Config, shadows: seq<Shadow>, rank: nat, head: nat) {
    forall u | 0 <= u < |shadows| && InGroup(cfg, rank, head, u) && u != QueueId(cfg, rank, head) ::
      Pending(shadows[u].queue) == []
  }

  /** A bank with nothing queued has the rows open that the tables say. */
  lemma EmptyQueueShowsRows(p: Timing, cfg: Config, s: State, u: nat)
    requires Inv(p, cfg, s) && u < |s.shadows| && u < |s.devices| && Pending(s.shadows[u].queue) == []
    ensures Sized(cfg, s.shadows[u]) && Replay.ViewOf(s.devices[u]) == ShadowView(s.shadows[u])
    ensures s.shadows[u].refreshQueued ==> !s.shadows[u].active[0]
  {
    assert BankOk(p, cfg, u, s.shadows[u], s.devices[u], s);
  }

  lemma RefreshHeadIsLegal(p: Timing, cfg: Config, s: State, k: nat, u: nat)
    requires Inv(p, cfg, s) && k < |s.shadows| && u < |s.shadows| == |s.devices| && Pending(s.shadows[k].queue) != []
    requires var r := Pending(s.shadows[k].queue)[0];
      && r.op.Refresh? && Reaches(cfg, r, u)
      && OthersEmpty(cfg, s.shadows, r.rank, r.bank) && OthersClosed(cfg, s.shadows, r.rank, r.bank)
    ensures Replay.Legal(Replay.ViewOf(s.devices[u]), Pending(s.shadows[k].queue)[0])
  {
    var r := Pending(s.shadows[k].queue)[0];
    assert BankOk(p, cfg, k, s.shadows[k], s.devices[k], s);
    assert CommandOk(p, cfg, k, r);
    if u == k {
      HeadIsLegal(p, cfg, s, k);
    } else {
      EmptyQueueShowsRows(p, cfg, s, u);
      assert BankOk(p, cfg, u, s.shadows[u], s.devices[u], s);
    }
  }

  lemma PendingCommandOk(p: Timing, cfg: Config, s: State, k: nat)
    requires Inv(p, cfg, s) && k < |s.shadows| && Pending(s.shadows[k].queue) != []
    ensures |s.shadows| == |s.devices| == cfg.ranks * cfg.banks
    ensures CommandOk(p, cfg, k, Pending(s.shadows[k].queue)[0])
  {
    assert BankOk(p, cfg, k, s.shadows[k], s.devices[k], s);
  }

  lemma CalmKeepsOthers(p: Timing, cfg: Config, s: State, s': State, rank: nat, head: nat)
    requires Calm(p, s, s')
    ensures OthersEmpty(cfg, s.shadows, rank, head) <==> OthersEmpty(cfg, s'.shadows, rank, head)
    ensures OthersClosed(cfg, s.shadows, rank, head) <==> OthersClosed(cfg, s'.shadows, rank, head)
  {
    assert forall u | 0 <= u < |s.shadows| :: CalmShadow(s.shadows[u], s'.shadows[u]);
  }

  /** A REFRESH that was sent found subarray 0 closed in the other banks. */
  lemma SentRefreshFoundClosed(p: Timing, cfg: Config, s: State, step: Step)
    requires Inv(p, cfg, s) && Enabled(p, cfg, s, step) && step.IssueHead?
    requires var q := Pending(s.shadows[step.id].queue);
      q != [] && q[0].op.Refresh? && OthersEmpty(cfg, s.shadows, q[0].rank, q[0].bank)
    ensures var r := Pending(s.shadows[step.id].queue)[0]; OthersClosed(cfg, s.shadows, r.rank, r.bank)
  {
    hide TransactionsOk, Conserved, SentInOrder, Predicts, CommandOk;
    var r := Pending(s.shadows[step.id].queue)[0];
    NoHeadIsSentTwice(p, cfg, s, step, step.id);
    PendingCommandOk(p, cfg, s, step.id);
    forall u | 0 <= u < |s.shadows| && InGroup(cfg, r.rank, r.bank, u) && u != QueueId(cfg, r.rank, r.bank)
      ensures |s.shadows[u].active| > 0 && !s.shadows[u].active[0] {
      EmptyQueueShowsRows(p, cfg, s, u);
      assert BankOk(p, cfg, u, s.shadows[u], s.devices[u], s);
      assert Bank.IsIssuable(p, s.devices[u], r, s.now);
      assert Replay.ViewOf(s.devices[u])[0] == Replay.RowOf(s.devices[u].subs[0]);
    }
  }

  /** `quiet` leads from `s` to a state from which the head of queue `k` can be sent. */
  ghost predicate LeadsToSend(p: Timing, cfg: Config, s: State, quiet: seq<Step>, k: nat) {
    && AllQuiet(quiet) && Execute(p, cfg, s, quiet).Some?
    && exists latency, bounce :: Enabled(p, cfg, Execute(p, cfg, s, quiet).value, IssueHead(k, latency, bounce))
  }

  /**
    When a REFRESH head can be sent. Once the other queues of its group are empty, events, time
    and cleanup lead to its being sent if and only if, in the controller's tables, no other bank
    of the group has subarray 0 open. With the flag set in all of them that is always so.
   */
  lemma RefreshCanBeSentIff(p: Timing, cfg: Config, queues: nat, steps: seq<Step>, s: State, k: nat)
    requires Reached(p, cfg, queues, steps, s) && k < |s.shadows| && Pending(s.shadows[k].queue) != []
    requires var r := Pending(s.shadows[k].queue)[0]; r.op.Refresh? && OthersEmpty(cfg, s.shadows, r.rank, r.bank)
    ensures var r := Pending(s.shadows[k].queue)[0];
      && ((exists quiet :: LeadsToSend(p, cfg, s, quiet, k)) <==> OthersClosed(cfg, s.shadows, r.rank, r.bank))
      && (AllFlagged(cfg, s.shadows, r.rank, r.bank) ==> OthersClosed(cfg, s.shadows, r.rank, r.bank))
  {
    ReachedInv(p, cfg, queues, steps, s);
    PendingCommandOk(p, cfg, s, k);
    var r := Pending(s.shadows[k].queue)[0];
    if quiet :| LeadsToSend(p, cfg, s, quiet, k) { BlockedUnlessClosed(p, cfg, s, quiet, k); }
    if OthersClosed(cfg, s.shadows, r.rank, r.bank) { var quiet := ClosedCanBeSent(p, cfg, s, k); }
    if AllFlagged(cfg, s.shadows, r.rank, r.bank) { FlaggedIsClosed(p, cfg, s, r.rank, r.bank); }
  }

  lemma FlaggedIsClosed(p: Timing, cfg: Config, s: State, rank: nat, head: nat)
    requires Inv(p, cfg, s) && AllFlagged(cfg, s.shadows, rank, head) && OthersEmpty(cfg, s.shadows, rank, head)
    ensures OthersClosed(cfg, s.shadows, rank, head)
  {
    forall u | 0 <= u < |s.shadows| && InGroup(cfg, rank, head, u) && u != QueueId(cfg, rank, head)
      ensures |s.shadows[u].active| > 0 && !s.shadows[u].active[0] {
      EmptyQueueShowsRows(p, cfg, s, u);
    }
  }

  lemma BlockedUnlessClosed(p: Timing, cfg: Config, s: State, quiet: seq<Step>, k: nat)
    requires Inv(p, cfg, s) && LeadsToSend(p, cfg, s, quiet, k) && k < |s.shadows| && Pending(s.shadows[k].queue) != []
    requires var r := Pending(s.shadows[k].queue)[0]; r.op.Refresh? && OthersEmpty(cfg, s.shadows, r.rank, r.bank)
    ensures var r := Pending(s.shadows[k].queue)[0]; OthersClosed(cfg, s.shadows, r.rank, r.bank)
  {
    hide Inv, Enabled, OthersEmpty, OthersClosed;
    var r := Pending(s.shadows[k].queue)[0];
    QuietRunIsCalm(p, cfg, s, quiet);
    var s' := Execute(p, cfg, s, quiet).value;
    var latency, bounce :| Enabled(p, cfg, s', IssueHead(k, latency, bounce));
    assert CalmShadow(s.shadows[k], s'.shadows[k]);
    CalmKeepsOthers(p, cfg, s, s', r.rank, r.bank);
    SentRefreshFoundClosed(p, cfg, s', IssueHead(k, latency, bounce));
  }

  lemma ClosedCanBeSent(p: Timing, cfg: Config, s: State, k: nat) returns (quiet: seq<Step>)
    requires Inv(p, cfg, s) && k < |s.shadows| && Pending(s.shadows[k].queue) != []
    requires var r := Pending(s.shadows[k].queue)[0];
      r.op.Refresh? && OthersEmpty(cfg, s.shadows, r.rank, r.bank) && OthersClosed(cfg, s.shadows, r.rank, r.bank)
    ensures LeadsToSend(p, cfg, s, quiet, k)
  {
    hide Inv, Enabled, OthersEmpty, OthersClosed, Settled, Reaches;
    var s';
    var r := Pending(s.shadows[k].queue)[0];
    quiet, s' := Settles(p, cfg, s);
    assert CalmShadow(s.shadows[k], s'.shadows[k]);
    CalmKeepsOthers(p, cfg, s, s', r.rank, r.bank);
    SettledRefreshCanBeSent(p, cfg, s', k);
  }

  lemma SettledRefreshCanBeSent(p: Timing, cfg: Config, s: State, k: nat)
    requires Inv(p, cfg, s) && Settled(p, s) && k < |s.shadows| && Pending(s.shadows[k].queue) != []
    requires var r := Pending(s.shadows[k].queue)[0];
      r.op.Refresh? && OthersEmpty(cfg, s.shadows, r.rank, r.bank) && OthersClosed(cfg, s.shadows, r.rank, r.bank)
    ensures Enabled(p, cfg, s, IssueHead(k, 0, NotBounced))
  {
    hide Enabled, OthersEmpty, OthersClosed, Reaches;
    SettledIsClean(p, cfg, s, k);
    PendingCommandOk(p, cfg, s, k);
    forall u | 0 <= u < |s.devices| && Reaches(cfg, s.shadows[k].queue[0], u)
      ensures Replay.Legal(Replay.ViewOf(s.devices[u]), s.shadows[k].queue[0]) {
      RefreshHeadIsLegal(p, cfg, s, k, u);
    }
    SettledHeadCanBeSent(p, cfg, s, k);
  }

  // ---------------------------------------------------------------- draining

  /** Every bank group has at most one refresh outstanding, and is flagged exactly while it has one. */
  ghost predicate OneRefresh(cfg: Config, shadows: seq<Shadow>) {
    && |shadows| == cfg.ranks * cfg.banks
    && forall rank: nat, head: nat | IsGroup(cfg, rank, head) :: OneRefreshOf(cfg, shadows, rank, head)
  }

  ghost predicate OneRefreshOf(cfg: Config, shadows: seq<Shadow>, rank: nat, head: nat)
    requires GroupQueues(cfg, shadows, rank, head)
  {
    && FlagsOk(cfg, shadows, rank, head)
    && Outstanding(cfg, shadows, rank, head) == if Flagged(cfg, shadows, rank, head) then 1 else 0
  }

  lemma StepKeepsOneRefresh(p: Timing, cfg: Config, s: State, step: Step)
    requires Inv(p, cfg, s) && Enabled(p, cfg, s, step) && OneRefresh(cfg, s.shadows) && !step.RefreshGroup?
    ensures OneRefresh(cfg, Apply(p, cfg, s, step).shadows)
  {
    hide Inv, Enabled, Apply, FlagsOk, Outstanding, Flagged;
    StepKeepsInv(p, cfg, s, step);
    SizesAgree(p, cfg, s, Apply(p, cfg, s, step));
    forall rank: nat, head: nat | IsGroup(cfg, rank, head)
      ensures OneRefreshOf(cfg, Apply(p, cfg, s, step).shadows, rank, head) {
      assert OneRefreshOf(cfg, s.shadows, rank, head);
      StepMoves(p, cfg, s, step, rank, head);
      assert !MoveOf(s, step, rank, head).Queues?;
    }
  }

  lemma SizesAgree(p: Timing, cfg: Config, s: State, s': State)
    requires Inv(p, cfg, s) && Inv(p, cfg, s')
    ensures |s.shadows| == |s'.shadows| == |s.devices| == |s'.devices| == cfg.ranks * cfg.banks
  {}

  /** Commands that were not sent yet, over all queues. */
  function Waiting(shadows: seq<Shadow>): nat {
    if shadows == [] then 0 else |Pending(shadows[0].queue)| + Waiting(shadows[1..])
  }

  lemma {:induction false} WaitingDrops(before: seq<Shadow>, after: seq<Shadow>, k: nat)
    requires |after| == |before| && k < |before|
    requires |Pending(after[k].queue)| < |Pending(before[k].queue)|
    requires forall i | 0 <= i < |before| && i != k :: |Pending(after[i].queue)| == |Pending(before[i].queue)|
    ensures Waiting(after) < Waiting(before)
  {
    if k == 0 {
      WaitingSame(before[1..], after[1..]);
    } else {
      WaitingDrops(before[1..], after[1..], k - 1);
    }
  }

  lemma {:induction false} WaitingSame(before: seq<Shadow>, after: seq<Shadow>)
    requires |after| == |before|
    requires forall i | 0 <= i < |before| :: |Pending(after[i].queue)| == |Pending(before[i].queue)|
    ensures Waiting(after) == Waiting(before)
  {
    if before != [] { WaitingSame(before[1..], after[1..]); }
  }

  lemma SendDrops(p: Timing, cfg: Config, s: State, step: Step)
    requires Inv(p, cfg, s) && Enabled(p, cfg, s, step) && step.IssueHead?
    ensures Waiting(Apply(p, cfg, s, step).shadows) < Waiting(s.shadows)
  {
    hide Inv, Apply, Issuable, DeviceAfter, ShadowAfter, CommandOk, Reaches;
    var r, m := IssueEffect(p, cfg, s, step);
    var after := Apply(p, cfg, s, step).shadows;
    forall k | 0 <= k < |s.shadows|
      ensures after[k].queue == if k == step.id then MarkIssued(s.shadows[k].queue) else s.shadows[k].queue {
      SendMarksHead(cfg, s.shadows, step.id, r, k);
    }
    WaitingDrops(s.shadows, after, step.id);
  }

  /** Some head can be sent from a settled state in which commands wait. */
  lemma SomeHeadCanBeSent(p: Timing, cfg: Config, s: State) returns (k: nat)
    requires Inv(p, cfg, s) && Settled(p, s) && OneRefresh(cfg, s.shadows)
    requires exists i :: 0 <= i < |s.shadows| && Pending(s.shadows[i].queue) != []
    ensures k < |s.shadows| && Enabled(p, cfg, s, IssueHead(k, 0, NotBounced))
  {
    hide Inv, Enabled, Settled;
    if i :| 0 <= i < |s.shadows| && Pending(s.shadows[i].queue) != [] && !Pending(s.shadows[i].queue)[0].op.Refresh? {
      k := i;
      PlainHeadCanBeSent(p, cfg, s, k);
    } else {
      k :| 0 <= k < |s.shadows| && Pending(s.shadows[k].queue) != [];
      PendingCommandOk(p, cfg, s, k);
      var r := Pending(s.shadows[k].queue)[0];
      assert OneRefreshOf(cfg, s.shadows, r.rank, r.bank);
      OnlyHeadsCarryRefreshes(p, cfg, s, r.rank, r.bank);
      FlaggedIsAll(cfg, s.shadows, r.rank, r.bank);
      FlaggedIsClosed(p, cfg, s, r.rank, r.bank);
      SettledRefreshCanBeSent(p, cfg, s, k);
    }
  }

  /** If REFRESH is all that is left at the heads, the other queues of a group are empty. */
  lemma OnlyHeadsCarryRefreshes(p: Timing, cfg: Config, s: State, rank: nat, head: nat)
    requires Inv(p, cfg, s) && IsGroup(cfg, rank, head)
    requires forall i | 0 <= i < |s.shadows| && Pending(s.shadows[i].queue) != [] ::
      Pending(s.shadows[i].queue)[0].op.Refresh?
    ensures OthersEmpty(cfg, s.shadows, rank, head)
  {
    hide Inv;
    forall u | 0 <= u < |s.shadows| && InGroup(cfg, rank, head, u) && u != QueueId(cfg, rank, head)
      ensures Pending(s.shadows[u].queue) == [] {
      if Pending(s.shadows[u].queue) != [] {
        PendingCommandOk(p, cfg, s, u);
        var r := Pending(s.shadows[u].queue)[0];
        GroupHeadInRange(cfg, s.shadows, r.rank, r.bank);
        GroupsAreDisjoint(cfg, r.rank, r.bank, rank, head, u);
      }
    }
  }

  lemma {:induction false} QuietKeepsOneRefresh(p: Timing, cfg: Config, s: State, steps: seq<Step>)
    requires Inv(p, cfg, s) && OneRefresh(cfg, s.shadows) && AllQuiet(steps) && Execute(p, cfg, s, steps).Some?
    ensures OneRefresh(cfg, Execute(p, cfg, s, steps).value.shadows)
    decreases |steps|
  {
    hide Inv, Enabled, Apply, OneRefresh;
    if steps != [] {
      StepKeepsInv(p, cfg, s, steps[0]);
      StepKeepsOneRefresh(p, cfg, s, steps[0]);
      QuietKeepsOneRefresh(p, cfg, Apply(p, cfg, s, steps[0]), steps[1..]);
    }
  }

  ghost predicate AllEmpty(shadows: seq<Shadow>) { forall k | 0 <= k < |shadows| :: shadows[k].queue == [] }

  /** Everything that is queued can be sent. */
  lemma {:induction false} Drains(p: Timing, cfg: Config, s: State) returns (steps: seq<Step>, s': State)
    requires Inv(p, cfg, s) && OneRefresh(cfg, s.shadows)
    ensures AllDraining(steps) && Execute(p, cfg, s, steps) == Some(s') && AllEmpty(s'.shadows)
    decreases Waiting(s.shadows)
  {
    hide Inv, Enabled, Apply, Settled, OneRefresh, Waiting;
    var quiet, calm := Settles(p, cfg, s);
    QuietKeepsOneRefresh(p, cfg, s, quiet);
    CalmWaits(p, s, calm);
    if exists i :: 0 <= i < |calm.shadows| && Pending(calm.shadows[i].queue) != [] {
      var k := SomeHeadCanBeSent(p, cfg, calm);
      var send := IssueHead(k, 0, NotBounced);
      StepKeepsInv(p, cfg, calm, send);
      StepKeepsOneRefresh(p, cfg, calm, send);
      SendDrops(p, cfg, calm, send);
      var rest;
      rest, s' := Drains(p, cfg, Apply(p, cfg, calm, send));
      steps := quiet + ([send] + rest);
      ExecuteAppend(p, cfg, s, quiet, [send] + rest);
      assert ([send] + rest)[1..] == rest;
    } else {
      steps, s' := quiet, calm;
      SettledIsEmpty(p, cfg, calm);
    }
  }

  lemma CalmWaits(p: Timing, s: State, s': State)
    requires Calm(p, s, s')
    ensures Waiting(s'.shadows) == Waiting(s.shadows)
  {
    assert forall k | 0 <= k < |s.shadows| :: CalmShadow(s.shadows[k], s'.shadows[k]);
    WaitingSame(s.shadows, s'.shadows);
  }

  lemma SettledIsEmpty(p: Timing, cfg: Config, s: State)
    requires Inv(p, cfg, s) && Settled(p, s)
    requires forall i | 0 <= i < |s.shadows| :: Pending(s.shadows[i].queue) == []
    ensures AllEmpty(s.shadows)
  {
    forall k | 0 <= k < |s.shadows| ensures s.shadows[k].queue == [] { SettledIsClean(p, cfg, s, k); }
  }

  /**
    Progress of the whole channel. If refreshes are queued only for groups that are not flagged,
    then from every reachable state a run of sends, cleanups, events and time empties every
    command queue, REFRESH included.
   */
  lemma QueuesDrain(p: Timing, cfg: Config, queues: nat, steps: seq<Step>, s: State)
    returns (drain: seq<Step>, s': State)
    requires Reached(p, cfg, queues, steps, s)
    requires forall rank: nat, head: nat | IsGroup(cfg, rank, head) ::
      QueuesUnflagged(p, cfg, Initial(cfg, queues), steps, rank, head)
    ensures AllDraining(drain) && Execute(p, cfg, s, drain) == Some(s') && AllEmpty(s'.shadows)
  {
    ReachedInv(p, cfg, queues, steps, s);
    SizesAgree(p, cfg, s, s);
    forall rank: nat, head: nat | IsGroup(cfg, rank, head) ensures OneRefreshOf(cfg, s.shadows, rank, head) {
      InitialInv(p, cfg, queues);
      InitiallyNone(p, cfg, queues, rank, head);
      UnflaggedKeepsOne(p, cfg, Initial(cfg, queues), steps, rank, head);
    }
    drain, s' := Drains(p, cfg, s);
  }
}
