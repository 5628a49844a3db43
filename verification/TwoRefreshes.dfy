/**
  A run by the timetable with two refreshes outstanding for one bank group: a write holds the first
  REFRESH in its queue until the next pulse. The REFRESH that is sent first clears the flag of the
  group, so that the second one fails the source's assertion, or is shut out by a row that the other
  bank of the group has opened in between.
 */
module TwoRefreshes {
  import opened Commands
  import opened ControllerSpec
  import opened Driving
  import W = Wakeups
  import T = Timetable
  import Channel
  import ChannelProgress
  import ChannelRefresh
  import opened RefreshSpec
  import Bank = BankSpec
  import Sub = SubArraySpec
  import BankRuns
  import Opening
  import WakeupRuns

  /** One rank of two banks that are refreshed together; a write takes 13 cycles to recover, a pulse comes every 8. */
  const CFG: Config := Config(1, 2, 1, 1, 1, 0, 4, false, true, 2, 1)
  const P: Timing := Parameters(1, 1, 1, 0, 0, 1, 1, 1, 1, 0, 0, 13, 1, 0, 0, 0, 0, 0, 1, false)
  const INTERVAL: nat := 8
  const BANKS: seq<nat> := [0, 1]

  const WRITE: Request := Opening.Transaction(0, Op.Write, 0, 1, 1)
  const READ: Request := Opening.Transaction(1, Op.Read, 1, 1, 19)
  const REFRESH: Request := MakeCommand(Op.Refresh, 0, 0, 0, 0)
  const PRECHARGE: Request := MakeCommand(Op.PrechargeAll, 0, 0, 0, 0)

  function Act(r: Request): Request { MakeActivate(r, false) }

  function Marked(r: Request): Request { r.(issued := true) }

  // ---------------------------------------------------------------- tables and banks

  function Closed(queue: seq<Request>, flagged: bool): Shadow {
    Shadow(queue, false, [false], [1], [1], [0], false, flagged)
  }

  /** The row of a transaction is open in the tables. */
  function Opened(queue: seq<Request>): Shadow { Shadow(queue, true, [true], [0], [0], [0], false, false) }

  const ZERO: Sub.Timers := Sub.Timers(0, 0, 0, 0, 0)
  const OLD: Sub.Timers := Sub.Timers(0, 3, 3, 3, 3)

  const UNUSED: Bank.State := Bank.State(Bank.Closed, Bank.Timers(0, 0, 0, 0, 0, 0), [], [Sub.Initial()])

  const ACTIVATED: Bank.State := Bank.State(Bank.Open, Bank.Timers(0, 0, 0, 0, 3, 0), [0],
    [Sub.State(Sub.Open, 0, OLD, ZERO, Sub.NothingDue, Sub.NotWriting)])

  function Written(writing: Sub.WriteState): Bank.State {
    Bank.State(Bank.Open, Bank.Timers(0, 0, 5, 4, 3, 0), [0],
               [Sub.State(Sub.Open, 0, Sub.Timers(0, 18, 5, 4, 18), OLD, Sub.NothingDue, writing)])
  }

  function Precharged(phase: Sub.Phase, row: nat, closing: Sub.Closing): Bank.State {
    Bank.State(Bank.Closed, Bank.Timers(0, 0, 5, 4, 19, 0), [],
               [Sub.State(phase, row, Sub.Timers(19, 18, 5, 4, 18), OLD, closing, Sub.NotWriting)])
  }

  /** The first bank, during and after its refresh. */
  function Refreshed0(phase: Sub.Phase, row: nat, closing: Sub.Closing): Bank.State {
    Bank.State(Bank.Closed, Bank.Timers(0, 0, 5, 4, 20, 0), [],
               [Sub.State(phase, row, Sub.Timers(20, 18, 5, 4, 18), OLD, closing, Sub.NotWriting)])
  }

  /** The second bank, during and after its refresh. */
  function Refreshed1(phase: Sub.Phase, row: nat, closing: Sub.Closing): Bank.State {
    Bank.State(Bank.Closed, Bank.Timers(0, 0, 0, 0, 20, 0), [],
               [Sub.State(phase, row, Sub.Timers(20, 0, 0, 0, 0), ZERO, closing, Sub.NotWriting)])
  }

  const REOPENED: Bank.State := Bank.State(Bank.Open, Bank.Timers(0, 0, 0, 0, 21, 0), [0],
    [Sub.State(Sub.Open, 0, Sub.Timers(20, 21, 21, 21, 21), ZERO, Sub.NothingDue, Sub.NotWriting)])

  const AFTERREAD: Bank.State := Bank.State(Bank.Open, Bank.Timers(0, 0, 22, 22, 21, 0), [0],
    [Sub.State(Sub.Open, 0, Sub.Timers(20, 21, 22, 22, 24), ZERO, Sub.NothingDue, Sub.NotWriting)])

  /** What the commands of the run do to their banks. */
  lemma CommandEffects()
    ensures Bank.IsIssuable(P, UNUSED, Act(WRITE), 2)
    ensures Bank.IssueCommand(P, UNUSED, Act(WRITE), Moment(2, 0, NotBounced)).state == ACTIVATED
    ensures Bank.IsIssuable(P, ACTIVATED, WRITE, 3)
    ensures Bank.IssueCommand(P, ACTIVATED, WRITE, Moment(3, 0, NotBounced)).state
      == Written(Sub.Writing(0, false, 5, NotBounced))
    ensures Bank.IsIssuable(P, Written(Sub.NotWriting), PRECHARGE, 18)
    ensures forall now: nat | now < 18 :: !Bank.IsIssuable(P, Written(Sub.NotWriting), PRECHARGE, now)
  {}

  lemma PrechargeEffect()
    ensures Bank.IssueCommand(P, Written(Sub.NotWriting), PRECHARGE, Moment(18, 0, NotBounced)).state
      == Precharged(Sub.Precharging, 0, Sub.ClosedAt(19))
  {
    var timed := Written(Sub.NotWriting).(next := Bank.Timers(0, 0, 5, 4, 19, 0));
    var rest := timed.(active := [], subs := Precharged(Sub.Precharging, 0, Sub.ClosedAt(19)).subs);
    assert timed.active[1..] == [];
    assert Bank.PrechargeActive(P, timed, PRECHARGE, Moment(18, 0, NotBounced))
      == Bank.PrechargeActive(P, rest, PRECHARGE, Moment(18, 0, NotBounced));
  }

  lemma RefreshEffects()
    ensures Bank.IsIssuable(P, Precharged(Sub.Closed, 1, Sub.NothingDue), REFRESH, 19)
    ensures Bank.IssueCommand(P, Precharged(Sub.Closed, 1, Sub.NothingDue), REFRESH, Moment(19, 0, NotBounced)).state
      == Refreshed0(Sub.Refreshing, 1, Sub.ClosedAt(20))
    ensures Bank.IsIssuable(P, UNUSED, REFRESH, 19)
    ensures Bank.IssueCommand(P, UNUSED, REFRESH, Moment(19, 0, NotBounced)).state
      == Refreshed1(Sub.Refreshing, 0, Sub.ClosedAt(20))
    ensures Bank.IsIssuable(P, Refreshed0(Sub.Closed, 1, Sub.NothingDue), REFRESH, 20)
    ensures Bank.IsIssuable(P, Refreshed1(Sub.Closed, 1, Sub.NothingDue), REFRESH, 20)
  {}

  lemma ReadEffects()
    ensures Bank.IsIssuable(P, Refreshed1(Sub.Closed, 1, Sub.NothingDue), Act(READ), 20)
    ensures Bank.IssueCommand(P, Refreshed1(Sub.Closed, 1, Sub.NothingDue), Act(READ), Moment(20, 0, NotBounced)).state
      == REOPENED
    ensures Bank.IsIssuable(P, REOPENED, READ, 21) && !Bank.IsIssuable(P, REOPENED, REFRESH, 21)
    ensures Bank.IssueCommand(P, REOPENED, READ, Moment(21, 0, NotBounced)).state == AFTERREAD
  {}

  lemma CompletionEffects()
    ensures BankRuns.Apply(P, BankRuns.Config(Written(Sub.Writing(0, false, 5, NotBounced)), 5, []),
                           BankRuns.CompleteWrite(0)).bank == Written(Sub.NotWriting)
    ensures BankRuns.Apply(P, BankRuns.Config(Precharged(Sub.Precharging, 0, Sub.ClosedAt(19)), 19, []),
                           BankRuns.CompleteClosing(0)).bank == Precharged(Sub.Closed, 1, Sub.NothingDue)
    ensures BankRuns.Apply(P, BankRuns.Config(Refreshed0(Sub.Refreshing, 1, Sub.ClosedAt(20)), 20, []),
                           BankRuns.CompleteClosing(0)).bank == Refreshed0(Sub.Closed, 1, Sub.NothingDue)
    ensures BankRuns.Apply(P, BankRuns.Config(Refreshed1(Sub.Refreshing, 0, Sub.ClosedAt(20)), 20, []),
                           BankRuns.CompleteClosing(0)).bank == Refreshed1(Sub.Closed, 1, Sub.NothingDue)
  {}

  // ---------------------------------------------------------------- the write

  /** What a run keeps track of while nothing waits. */
  function At(sh0: Shadow, sh1: Shadow, b0: Bank.State, b1: Bank.State, now: nat, lastIssue: nat,
              cleanupAt: Option<nat>, wakes: set<nat>, handled: Option<nat>, ranAt: Option<nat>, cur: nat,
              pulse: nat): Facts {
    Facts([], [sh0, sh1], [b0, b1], now, lastIssue, cleanupAt, wakes, multiset{}, handled, ranAt, cur, 1, [pulse])
  }

  lemma BanksAreUsed()
    ensures Used(CFG, BANKS) && Id(CFG, 0) == 0 && Id(CFG, 1) == 1 && T.FirstPulses(CFG, INTERVAL) == [8]
  {}

  /** The write is about to be sent. */
  function Ready(ranAt: Option<nat>): Facts {
    At(Opened([WRITE]), Closed([], false), ACTIVATED, UNUSED, 3, 2, None, {3}, None, ranAt, 1, 8)
  }

  lemma BringsWrite() returns (steps: seq<W.Step>, t: T.State, ranAt: Option<nat>)
    ensures Runs(P, CFG, INTERVAL, T.Initial(CFG, 1, INTERVAL), steps, t) && Shows(CFG, BANKS, t, Ready(ranAt))
  {
    hide Runs, Shows, T.FirstPulses, Opening.IsUnused;
    BanksAreUsed();
    var t1 := Opening.StartsCalm(P, CFG, INTERVAL, BANKS);
    var f := Opening.PowerOn(CFG, BANKS, INTERVAL).(now := 1);
    var more, a;
    more, t, a := Opening.ComesToHead(P, CFG, INTERVAL, BANKS, t1, f, 0, WRITE);
    RunsOn(P, CFG, INTERVAL, T.Initial(CFG, 1, INTERVAL), [W.Advance(1)], t1, more, t);
    steps, ranAt := [W.Advance(1)] + more, a.ranAt;
    assert a == Ready(ranAt) by { ReadyIs(f, a); }
  }

  lemma ReadyIs(f: Facts, a: Facts)
    requires f == Opening.PowerOn(CFG, BANKS, INTERVAL).(now := 1)
    requires a == Opening.Activated(P, CFG, f, 0, WRITE).(now := 3, wakes := {3}, ranAt := a.ranAt)
    ensures a == Ready(a.ranAt)
  {
    hide Bank.IssueCommand, T.FirstPulses;
    BanksAreUsed();
    CommandEffects();
    assert Bank.Initial(1, false) == UNUSED && InitialShadow(CFG) == Closed([], false);
    assert f.sh == [Closed([], false), Closed([], false)] && f.dev == [UNUSED, UNUSED];
    assert Opening.OpenFor(CFG, Closed([], false), WRITE, [WRITE]) == Opened([WRITE]);
    assert a.sh == Ready(a.ranAt).sh && a.dev == Ready(a.ranAt).dev;
  }

  /** The write was sent, and has completed; the bank still recovers from it. */
  const RECOVERING: Facts :=
    At(Opened([]), Closed([], false), Written(Sub.NotWriting), UNUSED, 8, 3, None, {}, None, Some(4), 2, 8)

  const WRITING: Bank.State := Written(Sub.Writing(0, false, 5, NotBounced))

  /** The write is in progress. */
  const SENTWRITE: Facts := At(Opened([]), Closed([], false), WRITING, UNUSED, 4, 3, None, {4}, None, Some(3), 2, 8)

  lemma SendsWrite(t: T.State, ranAt: Option<nat>) returns (steps: seq<W.Step>, t': T.State)
    requires Shows(CFG, BANKS, t, Ready(ranAt))
    ensures Runs(P, CFG, INTERVAL, t, steps, t')
    ensures Shows(CFG, BANKS, t', SENTWRITE)
  {
    hide Runs, Links, Shows, Bank.IssueCommand, Bank.IsIssuable;
    BanksAreUsed();
    CommandEffects();
    var f := Ready(ranAt);
    assert HeadAsk(f.sh[0], f.dev[0]) == Some(3);
    var t1 := WakesToSend(P, CFG, INTERVAL, BANKS, t, f, Some(3), 0);
    var f1 := At(Opened([Marked(WRITE)]), Closed([], false), WRITING, UNUSED, 3, 3, Some(4), {4}, None, Some(3), 2, 8);
    assert MarkIssued([WRITE]) == [Marked(WRITE)] && !W.Available(CFG, [[]], 0);
    assert Sent(P, CFG, BANKS, Woken(f, Some(3)), 0) == f1;
    var t2 := Passes(P, CFG, INTERVAL, BANKS, t1, f1, 4);
    t' := Cleans(P, CFG, INTERVAL, BANKS, t2, f1.(now := 4));
    assert Cleaned(f1).sh == [Opened([]), Closed([], false)];
    ThreeRun(P, CFG, INTERVAL, t, W.Wake(0, NotBounced), t1, W.Advance(4), t2, W.Cleanup, t');
    steps := [W.Wake(0, NotBounced), W.Advance(4), W.Cleanup];
  }

  lemma CompletesWrite(t: T.State) returns (steps: seq<W.Step>, t': T.State)
    requires Shows(CFG, BANKS, t, SENTWRITE)
    ensures Runs(P, CFG, INTERVAL, t, steps, t') && Shows(CFG, BANKS, t', RECOVERING)
  {
    hide Runs, Links, Shows, BankRuns.Apply;
    BanksAreUsed();
    CompletionEffects();
    var f := SENTWRITE;
    var t1 := WakesIdly(P, CFG, INTERVAL, BANKS, t, f, None);
    var f1 := f.(wakes := {}, ranAt := Some(4));
    assert Woken(f, None) == f1;
    var t2 := Passes(P, CFG, INTERVAL, BANKS, t1, f1, 5);
    var t3 := Completes(P, CFG, INTERVAL, BANKS, t2, f1.(now := 5), 0, BankRuns.CompleteWrite(0));
    assert [WRITING, UNUSED][0 := Written(Sub.NotWriting)] == RECOVERING.dev;
    t' := Passes(P, CFG, INTERVAL, BANKS, t3, RECOVERING.(now := 5), 8);
    var event := W.Event(0, BankRuns.CompleteWrite(0));
    ThreeRun(P, CFG, INTERVAL, t, W.Wake(0, NotBounced), t1, W.Advance(5), t2, event, t3);
    Then(P, CFG, INTERVAL, t, [W.Wake(0, NotBounced), W.Advance(5), event], t3, W.Advance(8), t');
    steps := [W.Wake(0, NotBounced), W.Advance(5), event] + [W.Advance(8)];
  }

  // ---------------------------------------------------------------- two pulses

  /** While the first bank recovers, callbacks come every cycle and find nothing that can be sent. */
  ghost predicate Recovers(f: Facts) {
    && |f.sh| == |f.dev| == 2 && f.dev == [Written(Sub.NotWriting), UNUSED] && f.sh[1].queue == []
    && f.sh[0].queue != [] && f.sh[0].queue[0] == PRECHARGE
    && f.cycles == multiset{} && f.cleanupAt == None
  }

  lemma RecoveringHeads(f: Facts)
    requires Recovers(f)
    ensures HeadsAtHome(CFG, BANKS, f) && AsksLeast(f.sh, f.dev, Some(0)) && (f.now < 18 ==> SendsNothing(P, f))
    ensures forall j | 0 <= j < 2 :: forall x | 0 <= x < |f.dev[j].subs| :: BankRuns.NothingBefore(f.dev[j].subs[x], 18)
  {
    hide Bank.IsIssuable;
    CommandEffects();
    assert HeadAsk(f.sh[0], f.dev[0]) == Some(0);
  }

  lemma {:induction false} Polls(t: T.State, f: Facts, to: nat) returns (steps: seq<W.Step>, t': T.State)
    requires Shows(CFG, BANKS, t, f) && Recovers(f) && f.now < to <= 18 && f.wakes == {f.now + 1}
    requires forall g | 0 <= g < |f.pulseAt| :: to <= f.pulseAt[g]
    ensures Runs(P, CFG, INTERVAL, t, steps, t')
    ensures Shows(CFG, BANKS, t', f.(now := to, wakes := {to},
      ranAt := if to == f.now + 1 then f.ranAt else Some(to - 1)))
    decreases 18 - (f.now as int)
  {
    hide Runs, Links, Shows, HeadsAtHome, AsksLeast, SendsNothing;
    BanksAreUsed();
    RecoveringHeads(f);
    var f1 := f.(now := f.now + 1);
    t' := Passes(P, CFG, INTERVAL, BANKS, t, f, f1.now);
    RunsOne(P, CFG, INTERVAL, t, W.Advance(f1.now), t');
    steps := [W.Advance(f1.now)];
    if f1.now < to {
      RecoveringHeads(f1);
      var t1, f2 := t', f1.(wakes := {f1.now + 1}, ranAt := Some(f1.now));
      var t2 := WakesIdly(P, CFG, INTERVAL, BANKS, t1, f1, Some(0));
      assert Woken(f1, Some(0)) == f2;
      Then(P, CFG, INTERVAL, t, steps, t1, W.Wake(0, NotBounced), t2);
      var more;
      more, t' := Polls(t2, f2, to);
      RunsOn(P, CFG, INTERVAL, t, steps + [W.Wake(0, NotBounced)], t2, more, t');
      steps := steps + [W.Wake(0, NotBounced)] + more;
    }
  }

  /** After a pulse, or two. */
  function Flagged(queue: seq<Request>, now: nat, wakes: set<nat>, ranAt: nat, pulse: nat): Facts
    requires 8 <= pulse
  {
    At(Closed(queue, true), Closed([], true), Written(Sub.NotWriting), UNUSED, now, 3, None, wakes,
       Some(pulse - 8), Some(ranAt), 2, pulse)
  }

  lemma FirstGroup()
    ensures Channel.IsGroup(CFG, 0, 0) && GroupIndex(CFG, 0, 0) == 0
  {}

  /** The tables after a pulse. */
  lemma PulseQueues(sh: Shadow, flagged: bool, queue: seq<Request>)
    requires (sh == Opened([]) && queue == [PRECHARGE, REFRESH])
             || (sh == Closed([PRECHARGE, REFRESH], true) && queue == [PRECHARGE, REFRESH, REFRESH])
    ensures RefreshedAll(CFG, BANKS, [sh, Closed([], flagged)], 0) == [Closed(queue, true), Closed([], true)]
  {
    assert [] + [PRECHARGE] + [REFRESH] == [PRECHARGE, REFRESH];
    assert [PRECHARGE, REFRESH] + [REFRESH] == [PRECHARGE, REFRESH, REFRESH];
    assert Refreshed(CFG, sh, 0, true) == Closed(queue, true);
    assert Refreshed(CFG, Closed([], flagged), 1, false) == Closed([], true);
  }

  lemma FirstPulse(t: T.State) returns (steps: seq<W.Step>, t': T.State)
    requires Shows(CFG, BANKS, t, RECOVERING)
    ensures Runs(P, CFG, INTERVAL, t, steps, t')
    ensures Shows(CFG, BANKS, t', Flagged([PRECHARGE, REFRESH], 16, {16}, 15, 16))
  {
    hide Runs, Links, Shows, AsksLeast, RefreshedAll, Channel.IsGroup, GroupIndex, QueueId;
    BanksAreUsed();
    FirstGroup();
    PulseQueues(Opened([]), false, [PRECHARGE, REFRESH]);
    var f1 := Flagged([PRECHARGE, REFRESH], 8, {9}, 8, 16);
    RecoveringHeads(f1);
    var t1 := Pulses(P, CFG, INTERVAL, BANKS, t, RECOVERING, 0, Some(0));
    assert Pulsed(CFG, INTERVAL, RECOVERING, f1.sh, 0, Some(0)) == f1;
    var more;
    more, t' := Polls(t1, f1, 16);
    RunsOne(P, CFG, INTERVAL, t, W.Pulse(0, 0), t1);
    RunsOn(P, CFG, INTERVAL, t, [W.Pulse(0, 0)], t1, more, t');
    steps := [W.Pulse(0, 0)] + more;
  }

  /** The second pulse comes while the first REFRESH is still queued. */
  lemma SecondPulse(t: T.State) returns (steps: seq<W.Step>, t': T.State)
    requires Shows(CFG, BANKS, t, Flagged([PRECHARGE, REFRESH], 16, {16}, 15, 16))
    ensures Runs(P, CFG, INTERVAL, t, steps, t')
    ensures Shows(CFG, BANKS, t', Flagged([PRECHARGE, REFRESH, REFRESH], 18, {18}, 17, 24))
  {
    hide Runs, Links, Shows, AsksLeast, RefreshedAll, SendsNothing, Channel.IsGroup, GroupIndex, QueueId;
    BanksAreUsed();
    FirstGroup();
    PulseQueues(Closed([PRECHARGE, REFRESH], true), true, [PRECHARGE, REFRESH, REFRESH]);
    var f := Flagged([PRECHARGE, REFRESH], 16, {16}, 15, 16);
    var f1 := Flagged([PRECHARGE, REFRESH, REFRESH], 16, {16, 17}, 16, 24);
    var f2 := Flagged([PRECHARGE, REFRESH, REFRESH], 16, {17}, 16, 24);
    RecoveringHeads(f1);
    var t1 := Pulses(P, CFG, INTERVAL, BANKS, t, f, 0, Some(0));
    assert Pulsed(CFG, INTERVAL, f, f1.sh, 0, Some(0)) == f1;
    var t2 := WakesIdly(P, CFG, INTERVAL, BANKS, t1, f1, Some(0));
    assert Woken(f1, Some(0)) == f2;
    var more;
    more, t' := Polls(t2, f2, 18);
    RunsOne(P, CFG, INTERVAL, t, W.Pulse(0, 0), t1);
    Then(P, CFG, INTERVAL, t, [W.Pulse(0, 0)], t1, W.Wake(0, NotBounced), t2);
    RunsOn(P, CFG, INTERVAL, t, [W.Pulse(0, 0)] + [W.Wake(0, NotBounced)], t2, more, t');
    steps := [W.Pulse(0, 0)] + [W.Wake(0, NotBounced)] + more;
  }

  // ---------------------------------------------------------------- the first REFRESH

  /** The row is closed, and two REFRESH commands are queued. */
  const CLOSED: Facts :=
    At(Closed([REFRESH, REFRESH], true), Closed([], true), Precharged(Sub.Closed, 1, Sub.NothingDue), UNUSED,
       19, 18, None, {19}, Some(16), Some(18), 0, 24)

  const CLOSING: Bank.State := Precharged(Sub.Precharging, 0, Sub.ClosedAt(19))

  const SENTPRECHARGE: Facts :=
    CLOSED.(sh := [Closed([Marked(PRECHARGE), REFRESH, REFRESH], true), Closed([], true)], dev := [CLOSING, UNUSED],
            now := 18, cleanupAt := Some(19))

  lemma SendsPrecharge(t: T.State) returns (steps: seq<W.Step>, t': T.State)
    requires Shows(CFG, BANKS, t, Flagged([PRECHARGE, REFRESH, REFRESH], 18, {18}, 17, 24))
    ensures Runs(P, CFG, INTERVAL, t, steps, t')
    ensures Shows(CFG, BANKS, t', SENTPRECHARGE)
  {
    hide Runs, Links, Shows, AsksLeast, Bank.IssueCommand, Bank.IsIssuable, T.FirstPulses;
    BanksAreUsed();
    CommandEffects();
    PrechargeEffect();
    var f := Flagged([PRECHARGE, REFRESH, REFRESH], 18, {18}, 17, 24);
    RecoveringHeads(f);
    t' := WakesToSend(P, CFG, INTERVAL, BANKS, t, f, Some(0), 0);
    var f1 := Sent(P, CFG, BANKS, Woken(f, Some(0)), 0);
    assert MarkIssued([PRECHARGE, REFRESH, REFRESH]) == [Marked(PRECHARGE), REFRESH, REFRESH];
    assert f1.sh == SENTPRECHARGE.sh && f1.dev == SENTPRECHARGE.dev;
    assert f1.wakes == {19};
    RunsOne(P, CFG, INTERVAL, t, W.Wake(0, NotBounced), t');
    steps := [W.Wake(0, NotBounced)];
  }

  lemma ClosesRow(t: T.State) returns (steps: seq<W.Step>, t': T.State)
    requires Shows(CFG, BANKS, t, SENTPRECHARGE)
    ensures Runs(P, CFG, INTERVAL, t, steps, t') && Shows(CFG, BANKS, t', CLOSED)
  {
    hide Runs, Links, Shows, BankRuns.Apply, T.FirstPulses;
    BanksAreUsed();
    CompletionEffects();
    var f := SENTPRECHARGE.(now := 19);
    var t1 := Passes(P, CFG, INTERVAL, BANKS, t, SENTPRECHARGE, 19);
    var t2 := Cleans(P, CFG, INTERVAL, BANKS, t1, f);
    assert [Marked(PRECHARGE), REFRESH, REFRESH][1..] == [REFRESH, REFRESH];
    assert Cleaned(f).sh == CLOSED.sh;
    t' := Completes(P, CFG, INTERVAL, BANKS, t2, Cleaned(f), 0, BankRuns.CompleteClosing(0));
    assert [CLOSING, UNUSED][0 := Precharged(Sub.Closed, 1, Sub.NothingDue)] == CLOSED.dev;
    var event := W.Event(0, BankRuns.CompleteClosing(0));
    ThreeRun(P, CFG, INTERVAL, t, W.Advance(19), t1, W.Cleanup, t2, event, t');
    steps := [W.Advance(19), W.Cleanup, event];
  }

  lemma InTheGroup()
    ensures forall k: nat :: Channel.InGroup(CFG, 0, 0, k) <==> k < 2
  {
    forall k: nat ensures Channel.InGroup(CFG, 0, 0, k) <==> k < 2 {
      if k < 2 { assert 0 <= k < 0 + 2 && k == QueueId(CFG, 0, k); }
    }
  }

  /** A REFRESH at the head of the first queue is sent if both banks accept it and it is its turn. */
  lemma RefreshIsNext(s: W.State, f: Facts)
    requires Tracks(CFG, BANKS, s, f) && |f.sh| == |f.dev| == 2 && f.sh[0].queue != [] && f.sh[0].queue[0] == REFRESH
    requires Bank.IsIssuable(P, f.dev[0], REFRESH, f.now) && Bank.IsIssuable(P, f.dev[1], REFRESH, f.now)
    requires f.cur == 0 || (f.cur == 1 && f.sh[1].queue == [])
    requires f.handled != Some(f.now) && f.lastIssue != f.now
    ensures W.ToSend(P, CFG, s) == Some(0)
    ensures Channel.Issuable(P, CFG, s.channel.devices, REFRESH, f.now)
  {
    hide Bank.IsIssuable, QueueId, Channel.InGroup;
    InTheGroup();
    BanksAreUsed();
    HeldIs(CFG, BANKS, s, f, 0);
    HeldIs(CFG, BANKS, s, f, 1);
    assert Channel.Issuable(P, CFG, s.channel.devices, REFRESH, f.now);
    W.FirstTurnIs(P, CFG, s.channel.shadows, s.channel.devices, s.curQueue, 0, f.cur, f.now);
  }

  /** The first REFRESH was sent; no bank of the group is flagged any more, and the second one is still queued. */
  const REFRESHING: Facts :=
    At(Closed([Marked(REFRESH), REFRESH], false), Closed([], false), Refreshed0(Sub.Refreshing, 1, Sub.ClosedAt(20)),
       Refreshed1(Sub.Refreshing, 0, Sub.ClosedAt(20)), 19, 19, Some(20), {20}, Some(16), Some(19), 1, 24)

  /** What sending the REFRESH does to the channel. */
  lemma RefreshInChannel(c: Channel.State)
    requires c.shadows == CLOSED.sh && c.devices == CLOSED.dev && c.now == 19 && c.lastIssue == 18
    requires c.cleanupAt == None
    requires Channel.Enabled(P, CFG, c, Channel.IssueHead(0, 0, NotBounced))
    ensures var c' := Channel.Apply(P, CFG, c, Channel.IssueHead(0, 0, NotBounced));
      c' == c.(shadows := REFRESHING.sh, devices := REFRESHING.dev, lastIssue := 19, cleanupAt := Some(20),
          sent := c'.sent)
  {
    hide Bank.IsIssuable, Bank.IssueCommand, Channel.InGroup, QueueId;
    InTheGroup();
    RefreshEffects();
    assert MarkIssued([REFRESH, REFRESH]) == [Marked(REFRESH), REFRESH];
    var c' := Channel.Apply(P, CFG, c, Channel.IssueHead(0, 0, NotBounced));
    assert IdOf(CFG, REFRESH) == 0 by { BanksAreUsed(); }
    assert c'.shadows == REFRESHING.sh && c'.devices == REFRESHING.dev;
  }

  lemma BothTracked(s: W.State, f: Facts)
    requires Tracks(CFG, BANKS, s, f) && |f.sh| == |f.dev| == 2
    ensures s.channel.shadows == f.sh && s.channel.devices == f.dev
  {
    hide QueueId;
    BanksAreUsed();
    HeldIs(CFG, BANKS, s, f, 0);
    HeldIs(CFG, BANKS, s, f, 1);
  }

  lemma RefreshIsTracked(s: W.State)
    requires Tracks(CFG, BANKS, s, CLOSED.(wakes := {20}, ranAt := Some(19)))
    ensures W.ReadyToRun(s) && Tracks(CFG, BANKS, W.Sending(P, CFG, s, 0, NotBounced), REFRESHING)
  {
    hide Bank.IsIssuable, W.ToSend, Channel.Enabled, Channel.Apply, QueueId;
    var f := CLOSED.(wakes := {20}, ranAt := Some(19));
    RefreshEffects();
    RefreshIsNext(s, f);
    BothTracked(s, f);
    W.SendIsEnabled(P, CFG, s, 0, NotBounced);
    RefreshInChannel(s.channel);
    var s' := W.Sending(P, CFG, s, 0, NotBounced);
    BanksAreUsed();
    assert Holds(CFG, BANKS[0], s'.channel, REFRESHING.sh[0], REFRESHING.dev[0]);
    assert Holds(CFG, BANKS[1], s'.channel, REFRESHING.sh[1], REFRESHING.dev[1]);
    forall k | 0 <= k < 2 ensures !Unused(CFG, BANKS, k) { assert Id(CFG, BANKS[k]) == k; }
  }

  lemma SendsRefresh(t: T.State) returns (steps: seq<W.Step>, t': T.State)
    requires Shows(CFG, BANKS, t, CLOSED)
    ensures Runs(P, CFG, INTERVAL, t, steps, t') && Shows(CFG, BANKS, t', REFRESHING) && !t'.handingOver
  {
    hide Runs, Links, Tracks, W.Sending, QueueId, T.FirstPulses;
    BanksAreUsed();
    assert HeadAsk(CLOSED.sh[0], CLOSED.dev[0]) == Some(0);
    Wakes(CFG, BANKS, t, CLOSED, Some(0));
    assert Woken(CLOSED, Some(0)) == CLOSED.(wakes := {20}, ranAt := Some(19));
    RefreshIsTracked(WokenState(CFG, t.controller, Some(0)));
    t' := WakeGoes(P, CFG, INTERVAL, BANKS, t, CLOSED, Some(0), REFRESHING);
    RunsOne(P, CFG, INTERVAL, t, W.Wake(0, NotBounced), t');
    steps := [W.Wake(0, NotBounced)];
  }

  // ---------------------------------------------------------------- the second REFRESH

  /** The first refresh is over. */
  const REFRESHED: Facts :=
    At(Closed([REFRESH], false), Closed([], false), Refreshed0(Sub.Closed, 1, Sub.NothingDue),
       Refreshed1(Sub.Closed, 1, Sub.NothingDue), 20, 19, None, {20}, Some(16), Some(19), 1, 24)

  lemma CompletesRefresh(t: T.State, queue: seq<Request>, ids: nat, cycles: multiset<nat>)
    returns (steps: seq<W.Step>, t': T.State)
    requires Shows(CFG, BANKS, t, REFRESHING.(queue := queue, ids := ids, cycles := cycles))
    requires forall c | c in cycles :: 20 <= c
    ensures Runs(P, CFG, INTERVAL, t, steps, t') && !t'.handingOver
    ensures Shows(CFG, BANKS, t', REFRESHED.(queue := queue, ids := ids, cycles := cycles))
  {
    hide Runs, Links, Shows, BankRuns.Apply, T.FirstPulses;
    BanksAreUsed();
    CompletionEffects();
    var f := REFRESHING.(queue := queue, ids := ids, cycles := cycles);
    var t1 := Passes(P, CFG, INTERVAL, BANKS, t, f, 20);
    var t2 := Cleans(P, CFG, INTERVAL, BANKS, t1, f.(now := 20));
    assert [Marked(REFRESH), REFRESH][1..] == [REFRESH];
    assert Cleaned(f).sh == REFRESHED.sh;
    var f2 := Cleaned(f).(now := 20);
    var event := BankRuns.CompleteClosing(0);
    var t3 := Completes(P, CFG, INTERVAL, BANKS, t2, f2, 0, event);
    var f3 := f2.(dev := [REFRESHED.dev[0], f2.dev[1]]);
    assert f2.dev[0 := REFRESHED.dev[0]] == f3.dev;
    t' := Completes(P, CFG, INTERVAL, BANKS, t3, f3, 1, event);
    assert f3.dev[1 := REFRESHED.dev[1]] == REFRESHED.dev;
    ThreeRun(P, CFG, INTERVAL, t, W.Advance(20), t1, W.Cleanup, t2, W.Event(0, event), t3);
    Then(P, CFG, INTERVAL, t, [W.Advance(20), W.Cleanup, W.Event(0, event)], t3, W.Event(1, event), t');
    steps := [W.Advance(20), W.Cleanup, W.Event(0, event)] + [W.Event(1, event)];
  }

  lemma FirstIsSent() returns (steps: seq<W.Step>, t: T.State)
    ensures Runs(P, CFG, INTERVAL, T.Initial(CFG, 1, INTERVAL), steps, t) && Shows(CFG, BANKS, t, REFRESHING)
    ensures !t.handingOver
  {
    hide Runs, Shows, T.Initial;
    var a, t1, ranAt := BringsWrite();
    var b, t2 := SendsWrite(t1, ranAt);
    var c, t3 := CompletesWrite(t2);
    var d, t4 := FirstPulse(t3);
    var e, t5 := SecondPulse(t4);
    var f, t6 := SendsPrecharge(t5);
    var g, t7 := ClosesRow(t6);
    var h;
    h, t := SendsRefresh(t7);
    var abc := ThreeRuns(P, CFG, INTERVAL, T.Initial(CFG, 1, INTERVAL), a, t1, b, t2, c, t3);
    var def := ThreeRuns(P, CFG, INTERVAL, t3, d, t4, e, t5, f, t6);
    var gh := ThreeRuns(P, CFG, INTERVAL, t6, [], t6, g, t7, h, t) by { Opening.RunsNone(P, CFG, INTERVAL, t6); }
    steps := ThreeRuns(P, CFG, INTERVAL, T.Initial(CFG, 1, INTERVAL), abc, t3, def, t6, gh, t);
  }

  /**
    The source's assertion fails on this run, which keeps to the timetable: the next callback sends
    the second REFRESH, and no bank of the group is flagged.
   */
  lemma SecondSendFindsNoFlag() returns (steps: seq<W.Step>, t: T.State)
    ensures T.Reached(P, CFG, 1, INTERVAL, steps, t) && T.Enabled(P, CFG, t, W.Wake(0, NotBounced))
    ensures W.Trace(P, CFG, t.controller, W.Wake(0, NotBounced)) == [Channel.IssueHead(0, 0, NotBounced)]
    ensures var c := t.controller.channel;
      && ChannelRefresh.MoveOf(c, Channel.IssueHead(0, 0, NotBounced), 0, 0).Sends?
      && |c.shadows| == 2 && !c.shadows[0].refreshQueued && !c.shadows[1].refreshQueued
    ensures Channel.InGroup(CFG, 0, 0, 0) && Channel.InGroup(CFG, 0, 0, 1)
  {
    hide Runs, W.ToSend, Tracks, Bank.IsIssuable, QueueId, T.Reached, Channel.InGroup;
    var a, t1 := FirstIsSent();
    var b;
    b, t := CompletesRefresh(t1, [], 1, multiset{});
    RunsOn(P, CFG, INTERVAL, T.Initial(CFG, 1, INTERVAL), a, t1, b, t);
    steps := a + b;
    RunsToReached(steps, t);
    InTheGroup();
    BanksAreUsed();
    BothTracked(t.controller, REFRESHED);
    RefreshEffects();
    RefreshIsNext(t.controller, REFRESHED);
    NothingPendsBefore(CFG, BANKS, t.controller, REFRESHED, 21);
    CallbackIsDue(t);
  }

  lemma RunsToReached(steps: seq<W.Step>, t: T.State)
    requires Runs(P, CFG, INTERVAL, T.Initial(CFG, 1, INTERVAL), steps, t)
    ensures T.Reached(P, CFG, 1, INTERVAL, steps, t)
  {
    hide Runs, T.Initial;
    RunsExecute(P, CFG, INTERVAL, T.Initial(CFG, 1, INTERVAL), steps, t);
  }

  lemma CallbackIsDue(t: T.State)
    requires Shows(CFG, BANKS, t, REFRESHED)
    ensures T.Enabled(P, CFG, t, W.Wake(0, NotBounced))
  {
    hide QueueId, Holds, IsIdle;
    BanksAreUsed();
    NothingPendsBefore(CFG, BANKS, t.controller, REFRESHED, 21);
  }

  // ---------------------------------------------------------------- the other bank is opened in between

  /** A read for the other bank has come in the cycle of the first REFRESH. */
  const READWAITS: Facts := REFRESHING.(queue := [READ], ids := 2, cycles := multiset{20})

  lemma HearsRead(t: T.State) returns (steps: seq<W.Step>, t': T.State)
    requires Shows(CFG, BANKS, t, REFRESHING) && !t.handingOver
    ensures Runs(P, CFG, INTERVAL, t, steps, t') && Shows(CFG, BANKS, t', READWAITS)
  {
    hide Runs, Links, Shows, T.FirstPulses, NoneSelected;
    BanksAreUsed();
    var f1 := REFRESHING.(queue := [READ], ids := 2, cycles := multiset{19});
    var t1 := Accepts(P, CFG, INTERVAL, BANKS, t, REFRESHING, 1, READ);
    assert REFRESHING.queue + [READ] == [READ] && multiset{} + multiset{19} == multiset{19};
    TooYoung(f1);
    t' := CyclesIdly(P, CFG, INTERVAL, BANKS, t1, f1);
    assert multiset{19} - multiset{19} + multiset{20} == multiset{20};
    RunsOne(P, CFG, INTERVAL, t, W.Accept(0, READ), t1);
    Then(P, CFG, INTERVAL, t, [W.Accept(0, READ)], t1, W.Cycle(None, 0, NotBounced), t');
    steps := [W.Accept(0, READ)] + [W.Cycle(None, 0, NotBounced)];
  }

  lemma TooYoung(f: Facts)
    requires f == REFRESHING.(queue := [READ], ids := 2, cycles := multiset{19})
    ensures ForUsed(CFG, BANKS, f.queue) && Waits(CFG, BANKS, Begun(f)) && forall sel ::
      NoneSelected(CFG, BANKS, f, sel)
  {
    assert For(CFG, BANKS[1], READ);
    assert Begun(f).queue[0] == READ && Pending(Begun(f).sh[1].queue) == [];
  }

  /** The read is scheduled in the cycle in which the second REFRESH could be sent, and its activate goes first. */
  const REOPENING: Facts :=
    At(Closed([REFRESH], false), Opened([Marked(Act(READ)), READ]), REFRESHED.dev[0], REOPENED,
       20, 20, Some(21), {20, 21}, Some(16), Some(20), 2, 24).(ids := 2)

  const SCHEDULED: Facts :=
    REFRESHED.(sh := [Closed([REFRESH], false), Opened([Act(READ), READ])], ids := 2, wakes := {20, 21},
               ranAt := Some(20))

  lemma ActivateIsNext(s: W.State)
    requires Tracks(CFG, BANKS, s, SCHEDULED)
    ensures W.ToSend(P, CFG, s) == Some(1)
  {
    hide Bank.IsIssuable, QueueId;
    ReadEffects();
    BanksAreUsed();
    BothTracked(s, SCHEDULED);
    assert IdOf(CFG, Act(READ)) == 1;
    W.FirstTurnIs(P, CFG, s.channel.shadows, s.channel.devices, s.curQueue, 0, 0, 20);
  }

  const READNEXT: Facts := REFRESHED.(queue := [READ], ids := 2, cycles := multiset{20})

  lemma ReadIsPicked()
    ensures MayCycle(CFG, BANKS, READNEXT) && PicksFirst(P, CFG, BANKS, READNEXT, 1, ClosedBank)
    ensures Expanded(CFG, Closed([], false), READ) == Opened([Act(READ), READ])
  {
    BanksAreUsed();
    assert For(CFG, BANKS[1], READ);
  }

  lemma ActivateIsSent()
    requires Expanded(CFG, Closed([], false), READ) == Opened([Act(READ), READ])
    ensures Queued(CFG, Begun(READNEXT), 1, Some(0)) == SCHEDULED && HeadsAtHome(CFG, BANKS, SCHEDULED)
    ensures AsksLeast(SCHEDULED.sh, SCHEDULED.dev, Some(0)) && IsReady(P, SCHEDULED.sh[1], SCHEDULED.dev[1], 20)
    ensures Sent(P, CFG, BANKS, SCHEDULED, 1) == REOPENING && Again(CFG, BANKS, REOPENING) == REOPENING
  {
    hide Expanded, Bank.IssueCommand, Bank.IsIssuable;
    ReadEffects();
    assert READNEXT.sh[1 := Opened([Act(READ), READ])] == SCHEDULED.sh;
    assert multiset{20} - multiset{20} == multiset{} && {20} + {21} == {20, 21};
    assert HeadAsk(SCHEDULED.sh[0], SCHEDULED.dev[0]) == Some(0);
    assert MarkIssued([Act(READ), READ]) == [Marked(Act(READ)), READ];
    assert SCHEDULED.sh[1 := Opened([Marked(Act(READ)), READ])] == REOPENING.sh;
    assert SCHEDULED.dev[1 := REOPENED] == REOPENING.dev;
  }

  lemma SchedulesRead(t: T.State) returns (steps: seq<W.Step>, t': T.State)
    requires Shows(CFG, BANKS, t, READNEXT)
    ensures Runs(P, CFG, INTERVAL, t, steps, t') && Shows(CFG, BANKS, t', REOPENING)
  {
    hide Runs, Links, Shows, Tracks, W.ToSend, Bank.IssueCommand, Bank.IsIssuable, Expanded, PicksFirst, MayCycle;
    hide Again;
    hide AsksLeast, HeadsAtHome, Sent;
    BanksAreUsed();
    ReadIsPicked();
    ActivateIsSent();
    forall s: W.State | Tracks(CFG, BANKS, s, SCHEDULED) ensures W.ToSend(P, CFG, s) == Some(1) { ActivateIsNext(s); }
    assert READNEXT.sh[1 := Opened([Act(READ), READ])] == SCHEDULED.sh;
    t' := CyclesScheduling(P, CFG, INTERVAL, BANKS, t, READNEXT, 1, ClosedBank, Some(0));
    var cycle := W.Cycle(Some(W.Choice(0, ClosedBank, false)), 0, NotBounced);
    RunsOne(P, CFG, INTERVAL, t, cycle, t');
    steps := [cycle];
  }

  /** The activate was cleaned up. */
  const READY: Facts :=
    REOPENING.(sh := [Closed([REFRESH], false), Opened([READ])], now := 21, cleanupAt := None, wakes := {21})

  lemma OpensRow(t: T.State) returns (steps: seq<W.Step>, t': T.State)
    requires Shows(CFG, BANKS, t, REOPENING)
    ensures Runs(P, CFG, INTERVAL, t, steps, t') && Shows(CFG, BANKS, t', READY)
  {
    hide Runs, Links, Shows, T.FirstPulses, Bank.IsIssuable;
    BanksAreUsed();
    assert HeadAsk(REOPENING.sh[0], REOPENING.dev[0]) == Some(0);
    var t1 := WakesIdly(P, CFG, INTERVAL, BANKS, t, REOPENING, Some(0));
    var f1 := REOPENING.(wakes := {21});
    assert Woken(REOPENING, Some(0)) == f1;
    var t2 := Passes(P, CFG, INTERVAL, BANKS, t1, f1, 21);
    t' := Cleans(P, CFG, INTERVAL, BANKS, t2, f1.(now := 21));
    assert [Marked(Act(READ)), READ][1..] == [READ];
    assert Cleaned(f1).sh == READY.sh;
    ThreeRun(P, CFG, INTERVAL, t, W.Wake(0, NotBounced), t1, W.Advance(21), t2, W.Cleanup, t');
    steps := [W.Wake(0, NotBounced), W.Advance(21), W.Cleanup];
  }

  /** The open row of the second bank blocks the REFRESH, not the read. */
  lemma RowBlocksRefresh()
    ensures !Channel.Issuable(P, CFG, READY.dev, REFRESH, 21) && Channel.Issuable(P, CFG, READY.dev, READ, 21)
  {
    hide Bank.IsIssuable, QueueId, Channel.InGroup;
    ReadEffects();
    InTheGroup();
    BanksAreUsed();
    assert IdOf(CFG, READ) == 1 && Channel.Reaches(CFG, REFRESH, 1);
  }

  lemma ReadIsNext(s: W.State)
    requires Tracks(CFG, BANKS, s, READY.(wakes := {22}, ranAt := Some(21)))
    ensures W.ToSend(P, CFG, s) == Some(1)
  {
    hide Channel.Issuable, QueueId;
    RowBlocksRefresh();
    BothTracked(s, READY.(wakes := {22}, ranAt := Some(21)));
    W.FirstTurnIs(P, CFG, s.channel.shadows, s.channel.devices, s.curQueue, 0, 1, 21);
  }

  /** The second REFRESH is all that is left, and the other bank has a row open. */
  const SHUTOUT: Facts :=
    At(Closed([REFRESH], false), Opened([]), REFRESHED.dev[0], AFTERREAD, 22, 21, None, {22}, Some(16), Some(21), 0, 24)
      .(ids := 2)

  lemma SendsRead(t: T.State) returns (steps: seq<W.Step>, t': T.State)
    requires Shows(CFG, BANKS, t, READY)
    ensures Runs(P, CFG, INTERVAL, t, steps, t') && Shows(CFG, BANKS, t', SHUTOUT)
  {
    hide Runs, Links, Tracks, T.FirstPulses, W.ToSend, Bank.IssueCommand, Bank.IsIssuable;
    BanksAreUsed();
    ReadEffects();
    assert HeadAsk(READY.sh[0], READY.dev[0]) == Some(0);
    assert Woken(READY, Some(0)) == READY.(wakes := {22}, ranAt := Some(21));
    Wakes(CFG, BANKS, t, READY, Some(0));
    ReadIsNext(WokenState(CFG, t.controller, Some(0)));
    var t1 := WakesSending(P, CFG, INTERVAL, BANKS, t, READY, Some(0), 1);
    var f1 := SHUTOUT.(sh := [Closed([REFRESH], false), Opened([Marked(READ)])], now := 21, cleanupAt := Some(22));
    assert MarkIssued([READ]) == [Marked(READ)] && !W.Available(CFG, [[]], 1);
    assert READY.sh[1 := Opened([Marked(READ)])] == f1.sh && READY.dev[1 := AFTERREAD] == f1.dev;
    assert Sent(P, CFG, BANKS, Woken(READY, Some(0)), 1) == f1;
    var t2 := Passes(P, CFG, INTERVAL, BANKS, t1, f1, 22);
    t' := Cleans(P, CFG, INTERVAL, BANKS, t2, f1.(now := 22));
    assert Cleaned(f1).sh == SHUTOUT.sh;
    ThreeRun(P, CFG, INTERVAL, t, W.Wake(0, NotBounced), t1, W.Advance(22), t2, W.Cleanup, t');
    steps := [W.Wake(0, NotBounced), W.Advance(22), W.Cleanup];
  }

  lemma OtherBankIsOpen(c: Channel.State)
    requires c.shadows == SHUTOUT.sh
    ensures ChannelProgress.OthersEmpty(CFG, c.shadows, 0, 0) && !ChannelProgress.OthersClosed(CFG, c.shadows, 0, 0)
    ensures Pending(c.shadows[0].queue) == [REFRESH]
  {
    InTheGroup();
    assert c.shadows[1].active[0];
  }

  /**
    If the host hands over a read for the other bank in the cycle of the first REFRESH, its activate
    goes first, and the second REFRESH is shut out: no events and no amount of time let it be sent.
   */
  lemma SecondIsShutOut() returns (steps: seq<W.Step>, t: T.State)
    ensures T.Reached(P, CFG, 1, INTERVAL, steps, t)
    ensures |t.controller.channel.shadows| == 2 && t.controller.channel.shadows[0].queue == [REFRESH]
    ensures forall quiet :: !ChannelProgress.LeadsToSend(P, CFG, t.controller.channel, quiet, 0)
  {
    hide Runs, Tracks, T.Reached, ChannelProgress.LeadsToSend, ChannelProgress.OthersEmpty;
    hide ChannelProgress.OthersClosed;
    var a, t1 := FirstIsSent();
    var b, t2 := HearsRead(t1);
    var c, t3 := CompletesRefresh(t2, [READ], 2, multiset{20});
    var d, t4 := SchedulesRead(t3);
    var e, t5 := OpensRow(t4);
    var f;
    f, t := SendsRead(t5);
    var abc := ThreeRuns(P, CFG, INTERVAL, T.Initial(CFG, 1, INTERVAL), a, t1, b, t2, c, t3);
    var def := ThreeRuns(P, CFG, INTERVAL, t3, d, t4, e, t5, f, t);
    RunsOn(P, CFG, INTERVAL, T.Initial(CFG, 1, INTERVAL), abc, t3, def, t);
    steps := abc + def;
    RunsToReached(steps, t);
    BothTracked(t.controller, SHUTOUT);
    OtherBankIsOpen(t.controller.channel);
    var trace := ReachedInChannel(steps, t);
    ChannelProgress.RefreshCanBeSentIff(P, CFG, 1, trace, t.controller.channel, 0);
  }

  lemma ReachedInChannel(steps: seq<W.Step>, t: T.State) returns (trace: seq<Channel.Step>)
    requires T.Reached(P, CFG, 1, INTERVAL, steps, t)
    ensures Channel.Reached(P, CFG, 1, trace, t.controller.channel)
  {
    hide W.Execute, T.Execute, Channel.Execute;
    T.RunsAreControllerRuns(P, CFG, 1, INTERVAL, steps, t);
    trace := WakeupRuns.RunsAreChannelRuns(P, CFG, W.Initial(CFG, 1), steps);
  }
}
