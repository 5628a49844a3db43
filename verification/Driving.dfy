/**
  The steps of the event-driven controller, one kind at a time, for runs that use only a few banks
  of the first rank. The cycle events follow first-ready first-come-first-served scheduling.
 */
module Driving {
  import opened Commands
  import opened Sequences
  import opened ControllerSpec
  import opened RefreshSpec
  import W = Wakeups
  import T = Timetable
  import FrfcfsSpec
  import Channel
  import Bank = BankSpec
  import Sub = SubArraySpec
  import BankRuns

  /** What a run keeps track of: the transaction queue, the banks that are used, and the schedule. */
  datatype Facts = Facts(
    queue: seq<Request>, sh: seq<Shadow>, dev: seq<Bank.State>,
    now: nat, lastIssue: nat, cleanupAt: Option<nat>,
    wakes: set<nat>, cycles: multiset<nat>, handled: Option<nat>, ranAt: Option<nat>,
    cur: nat, ids: nat, pulseAt: seq<nat>)

  /** The command queue of a bank of the first rank. */
  function Id(cfg: Config, bank: nat): nat { QueueId(cfg, 0, bank) }

  /** The banks that are used are different banks of the first rank. */
  ghost predicate Used(cfg: Config, bs: seq<nat>) {
    && cfg.Valid() && (forall j | 0 <= j < |bs| :: bs[j] < cfg.banks)
    && forall j, k | 0 <= j < k < |bs| :: bs[j] != bs[k]
  }

  predicate Unused(cfg: Config, bs: seq<nat>, id: nat) { forall j | 0 <= j < |bs| :: Id(cfg, bs[j]) != id }

  ghost predicate Tracks(cfg: Config, bs: seq<nat>, s: W.State, f: Facts) {
    var c := s.channel;
    && c.queues == [f.queue] && |c.shadows| == |c.devices| == cfg.ranks * cfg.banks
    && |f.sh| == |f.dev| == |bs|
    && (forall j | 0 <= j < |bs| :: Holds(cfg, bs[j], c, f.sh[j], f.dev[j]))
    && (forall k | 0 <= k < |c.shadows| && Unused(cfg, bs, k) :: IsIdle(cfg, c, k))
    && c.now == f.now && c.lastIssue == f.lastIssue && c.cleanupAt == f.cleanupAt
    && s.wakes == f.wakes && s.cycles == f.cycles && s.handled == f.handled && s.ranAt == f.ranAt
    && s.curQueue == f.cur && (forall id | id in c.accepted :: id < f.ids)
    && |s.delayed| == cfg.ranks * cfg.Groups() && forall g | 0 <= g < |s.delayed| :: s.delayed[g] == 0
  }

  ghost predicate Holds(cfg: Config, bank: nat, c: Channel.State, sh: Shadow, dev: Bank.State) {
    Id(cfg, bank) < |c.shadows| && Id(cfg, bank) < |c.devices|
    && c.shadows[Id(cfg, bank)] == sh && c.devices[Id(cfg, bank)] == dev
    && Sized(cfg, sh) && |dev.subs| == cfg.subarrays && Bank.ActiveInRange(dev)
  }

  ghost predicate IsIdle(cfg: Config, c: Channel.State, k: nat) {
    && k < |c.shadows| && k < |c.devices|
    && c.shadows[k].queue == [] && !c.shadows[k].activateQueued
    && c.devices[k] == Bank.Initial(cfg.subarrays, false)
  }

  ghost predicate Shows(cfg: Config, bs: seq<nat>, t: T.State, f: Facts) {
    Tracks(cfg, bs, t.controller, f) && t.pulseAt == f.pulseAt
  }

  // ---------------------------------------------------------------- runs

  ghost predicate Follows(cfg: Config, s: W.State, step: W.Step) {
    step.Cycle? ==>
      && |s.channel.queues| == 1
      && step.choice == FrfcfsSpec.CycleChoice(cfg, s.channel.shadows, s.channel.now, 0, s.channel.queues[0], false)
  }

  /** `step` leads from `t` to `t'`, by the timetable and the scheduling policy. */
  ghost predicate Links(p: Timing, cfg: Config, interval: nat, t: T.State, step: W.Step, t': T.State) {
    T.Enabled(p, cfg, t, step) && Follows(cfg, t.controller, step) && T.Apply(p, cfg, interval, t, step) == t'
  }

  ghost predicate Runs(p: Timing, cfg: Config, interval: nat, t: T.State, steps: seq<W.Step>, t': T.State)
    decreases |steps|
  {
    if steps == [] then t == t'
    else
      T.Enabled(p, cfg, t, steps[0]) && Follows(cfg, t.controller, steps[0])
      && Runs(p, cfg, interval, T.Apply(p, cfg, interval, t, steps[0]), steps[1..], t')
  }

  lemma {:induction false} RunsOn(p: Timing, cfg: Config, interval: nat, t: T.State, steps: seq<W.Step>, u: T.State,
                                  more: seq<W.Step>, v: T.State)
    requires Runs(p, cfg, interval, t, steps, u) && Runs(p, cfg, interval, u, more, v)
    ensures Runs(p, cfg, interval, t, steps + more, v)
    decreases |steps|
  {
    hide T.Enabled, T.Apply, Follows;
    if steps == [] {
      assert steps + more == more;
    } else {
      assert (steps + more)[1..] == steps[1..] + more;
      RunsOn(p, cfg, interval, T.Apply(p, cfg, interval, t, steps[0]), steps[1..], u, more, v);
    }
  }

  lemma RunsOne(p: Timing, cfg: Config, interval: nat, t: T.State, step: W.Step, u: T.State)
    requires Links(p, cfg, interval, t, step, u)
    ensures Runs(p, cfg, interval, t, [step], u)
  {
    hide T.Enabled, T.Apply, Follows;
    assert [step][1..] == [];
  }

  /** A run goes on with one more step. */
  lemma Then(p: Timing, cfg: Config, interval: nat, t: T.State, steps: seq<W.Step>, u: T.State, step: W.Step,
             v: T.State)
    requires Runs(p, cfg, interval, t, steps, u) && Links(p, cfg, interval, u, step, v)
    ensures Runs(p, cfg, interval, t, steps + [step], v)
  {
    hide Runs, Links;
    RunsOne(p, cfg, interval, u, step, v);
    RunsOn(p, cfg, interval, t, steps, u, [step], v);
  }

  /** Three steps make a run. */
  lemma ThreeRun(p: Timing, cfg: Config, interval: nat, t: T.State, c1: W.Step, t1: T.State, c2: W.Step, t2: T.State,
                 c3: W.Step, t3: T.State)
    requires Links(p, cfg, interval, t, c1, t1) && Links(p, cfg, interval, t1, c2, t2)
    requires Links(p, cfg, interval, t2, c3, t3)
    ensures Runs(p, cfg, interval, t, [c1, c2, c3], t3)
  {
    hide Runs, Links;
    RunsOne(p, cfg, interval, t, c1, t1);
    Then(p, cfg, interval, t, [c1], t1, c2, t2);
    Then(p, cfg, interval, t, [c1] + [c2], t2, c3, t3);
    assert [c1] + [c2] + [c3] == [c1, c2, c3];
  }

  /** Three runs one after the other. */
  lemma ThreeRuns(p: Timing, cfg: Config, interval: nat, t: T.State, a: seq<W.Step>, t1: T.State, b: seq<W.Step>,
                  t2: T.State, c: seq<W.Step>, t3: T.State) returns (steps: seq<W.Step>)
    requires Runs(p, cfg, interval, t, a, t1) && Runs(p, cfg, interval, t1, b, t2) && Runs(p, cfg, interval, t2, c, t3)
    ensures Runs(p, cfg, interval, t, steps, t3)
  {
    hide Runs;
    RunsOn(p, cfg, interval, t, a, t1, b, t2);
    RunsOn(p, cfg, interval, t, a + b, t2, c, t3);
    steps := a + b + c;
  }

  lemma {:induction false} RunsExecute(p: Timing, cfg: Config, interval: nat, t: T.State, steps: seq<W.Step>,
                                       u: T.State)
    requires Runs(p, cfg, interval, t, steps, u)
    ensures T.Execute(p, cfg, interval, t, steps) == Some(u)
    decreases |steps|
  {
    hide T.Enabled, T.Apply, Follows;
    if steps != [] { RunsExecute(p, cfg, interval, T.Apply(p, cfg, interval, t, steps[0]), steps[1..], u); }
  }

  // ---------------------------------------------------------------- the banks that are used

  lemma IdsDiffer(cfg: Config, bs: seq<nat>, j: nat, k: nat)
    requires Used(cfg, bs) && j < |bs| && k < |bs|
    ensures Id(cfg, bs[j]) < cfg.ranks * cfg.banks && (Id(cfg, bs[j]) == Id(cfg, bs[k]) <==> j == k)
  {
    Channel.QueueIdIsBijective(cfg, 0, bs[j], 0, bs[k]);
    assert j < k ==> bs[j] != bs[k];
    assert k < j ==> bs[k] != bs[j];
  }

  /** Changes of one bank in the tables and in the memory are seen as such. */
  lemma ChangesOne(cfg: Config, bs: seq<nat>, s: W.State, f: Facts, j: nat, sh: Shadow, dev: Bank.State)
    requires Used(cfg, bs) && Tracks(cfg, bs, s, f) && j < |bs|
    requires Sized(cfg, sh) && |dev.subs| == cfg.subarrays && Bank.ActiveInRange(dev)
    ensures Id(cfg, bs[j]) < |s.channel.shadows|
    ensures Tracks(cfg, bs, s.(channel := s.channel.(shadows := s.channel.shadows[Id(cfg, bs[j]) := sh],
                                                     devices := s.channel.devices[Id(cfg, bs[j]) := dev])),
                   f.(sh := f.sh[j := sh], dev := f.dev[j := dev]))
  {
    hide Sized, Bank.ActiveInRange, QueueId;
    IdsDiffer(cfg, bs, j, j);
    var id := Id(cfg, bs[j]);
    var c := s.channel.(shadows := s.channel.shadows[id := sh], devices := s.channel.devices[id := dev]);
    forall k | 0 <= k < |bs| ensures Holds(cfg, bs[k], c, f.sh[j := sh][k], f.dev[j := dev][k]) {
      IdsDiffer(cfg, bs, j, k);
      assert Holds(cfg, bs[k], s.channel, f.sh[k], f.dev[k]);
    }
    forall k | 0 <= k < |c.shadows| && Unused(cfg, bs, k) ensures IsIdle(cfg, c, k) {
      assert IsIdle(cfg, s.channel, k);
    }
  }

  // ---------------------------------------------------------------- wake-ups

  ghost function HeadAsk(sh: Shadow, dev: Bank.State): Option<nat> {
    if sh.queue != [] && Bank.Routed(dev, sh.queue[0]) then Some(Bank.NextIssuable(dev, sh.queue[0])) else None
  }

  /** `least` is the earliest cycle that a head asks for. */
  ghost predicate AsksLeast(sh: seq<Shadow>, dev: seq<Bank.State>, least: Option<nat>)
    requires |sh| == |dev|
  {
    && (least.None? ==> forall j | 0 <= j < |sh| :: HeadAsk(sh[j], dev[j]).None?)
    && (least.Some? ==>
          && (exists j :: 0 <= j < |sh| && HeadAsk(sh[j], dev[j]) == least)
          && forall j | 0 <= j < |sh| && HeadAsk(sh[j], dev[j]).Some? :: least.value <= HeadAsk(sh[j], dev[j]).value)
  }

  lemma AsksOfUsed(cfg: Config, bs: seq<nat>, s: W.State, f: Facts, k: nat)
    requires Used(cfg, bs) && Tracks(cfg, bs, s, f)
    ensures W.Asks(s.channel.shadows, s.channel.devices, k).Some? ==>
      exists j :: 0 <= j < |bs| && Id(cfg, bs[j]) == k
                  && W.Asks(s.channel.shadows, s.channel.devices, k) == HeadAsk(f.sh[j], f.dev[j])
  {
    hide Bank.NextIssuable, QueueId;
    if k < |s.channel.shadows| && Unused(cfg, bs, k) {
      assert IsIdle(cfg, s.channel, k);
    } else if k < |s.channel.shadows| {
      var j :| 0 <= j < |bs| && Id(cfg, bs[j]) == k;
      assert Holds(cfg, bs[j], s.channel, f.sh[j], f.dev[j]);
    }
  }

  lemma UsedAsks(cfg: Config, bs: seq<nat>, s: W.State, f: Facts, j: nat)
    requires Used(cfg, bs) && Tracks(cfg, bs, s, f) && j < |bs|
    ensures W.Asks(s.channel.shadows, s.channel.devices, Id(cfg, bs[j])) == HeadAsk(f.sh[j], f.dev[j])
  {
    hide Bank.NextIssuable, QueueId;
    assert Holds(cfg, bs[j], s.channel, f.sh[j], f.dev[j]);
  }

  lemma NextWakeIs(cfg: Config, bs: seq<nat>, s: W.State, f: Facts, least: Option<nat>)
    requires Used(cfg, bs) && Tracks(cfg, bs, s, f) && AsksLeast(f.sh, f.dev, least)
    ensures W.NextWake(cfg, s.channel.shadows, s.channel.devices, f.now) == W.Clipped(least, f.now)
  {
    hide W.Asks, W.Soonest, HeadAsk, QueueId, Holds, IsIdle;
    var c := s.channel;
    W.SoonestIsLeast(cfg, c.shadows, c.devices);
    var soonest := W.Soonest(cfg, c.shadows, c.devices, cfg.ranks);
    if soonest.Some? {
      var k: nat :| W.Asks(c.shadows, c.devices, k) == soonest;
      AsksOfUsed(cfg, bs, s, f, k);
    }
    if least.Some? {
      var j :| 0 <= j < |bs| && HeadAsk(f.sh[j], f.dev[j]) == least;
      UsedAsks(cfg, bs, s, f, j);
    }
  }

  // ---------------------------------------------------------------- sending

  /** The heads of the queues belong to their banks. */
  ghost predicate HeadsAtHome(cfg: Config, bs: seq<nat>, f: Facts)
    requires |f.sh| == |bs|
  {
    forall j | 0 <= j < |bs| && f.sh[j].queue != [] ::
      var r := f.sh[j].queue[0]; r.rank == 0 && r.bank == bs[j] && r.subarray < cfg.subarrays
  }

  /** The head of the queue in `sh` is ready for the bank `dev`. */
  ghost predicate IsReady(p: Timing, sh: Shadow, dev: Bank.State, now: nat) {
    sh.queue != [] && Bank.Routed(dev, sh.queue[0]) && Bank.IsIssuable(p, dev, sh.queue[0], now)
  }

  lemma CanSendIsReady(p: Timing, cfg: Config, bs: seq<nat>, s: W.State, f: Facts, k: nat)
    requires Used(cfg, bs) && Tracks(cfg, bs, s, f) && HeadsAtHome(cfg, bs, f)
    requires W.CanSend(p, cfg, s.channel.shadows, s.channel.devices, k, f.now)
    ensures exists j :: 0 <= j < |bs| && Id(cfg, bs[j]) == k && IsReady(p, f.sh[j], f.dev[j], f.now)
  {
    hide Bank.IsIssuable, QueueId;
    assert IsIdle(cfg, s.channel, k) ==> false;
    var j :| 0 <= j < |bs| && Id(cfg, bs[j]) == k;
    assert Holds(cfg, bs[j], s.channel, f.sh[j], f.dev[j]);
    var r := f.sh[j].queue[0];
    assert r.op.Refresh? ==> Channel.InGroup(cfg, 0, bs[j], k) by { assert bs[j] <= bs[j] < bs[j] + cfg.perRefresh; }
    assert Channel.Reaches(cfg, r, k);
  }

  lemma ReadyCanBeSent(p: Timing, cfg: Config, bs: seq<nat>, s: W.State, f: Facts, j: nat)
    requires Used(cfg, bs) && Tracks(cfg, bs, s, f) && HeadsAtHome(cfg, bs, f) && j < |bs|
    requires IsReady(p, f.sh[j], f.dev[j], f.now)
    requires !f.sh[j].queue[0].op.Refresh?
    ensures W.CanSend(p, cfg, s.channel.shadows, s.channel.devices, Id(cfg, bs[j]), f.now)
  {
    hide Bank.IsIssuable, QueueId;
    assert Holds(cfg, bs[j], s.channel, f.sh[j], f.dev[j]);
  }

  /** Nothing is sent: a refresh was handled or a command sent in this cycle, or no head is ready. */
  ghost predicate SendsNothing(p: Timing, f: Facts) {
    || f.handled == Some(f.now) || f.lastIssue == f.now
    || (|f.sh| == |f.dev| && forall j | 0 <= j < |f.sh| :: !IsReady(p, f.sh[j], f.dev[j], f.now))
  }

  lemma SendsNone(p: Timing, cfg: Config, bs: seq<nat>, s: W.State, f: Facts)
    requires Used(cfg, bs) && Tracks(cfg, bs, s, f) && HeadsAtHome(cfg, bs, f) && SendsNothing(p, f)
    requires f.cleanupAt != Some(f.now)
    ensures W.Sending(p, cfg, s, 0, NotBounced) == s
  {
    hide W.CanSend, IsReady, Channel.Apply, Channel.Enabled, Holds, IsIdle, QueueId;
    var c := s.channel;
    W.FirstTurnCanSend(p, cfg, c.shadows, c.devices, s.curQueue, 0, c.now);
    var i := W.FirstTurn(p, cfg, c.shadows, c.devices, s.curQueue, 0, c.now);
    if i < |c.shadows| && f.handled != Some(f.now) && f.lastIssue != f.now {
      CanSendIsReady(p, cfg, bs, s, f, W.Turn(s.curQueue, i, |c.shadows|));
    }
  }

  /** What sending the head of bank `j` changes. */
  ghost function Sent(p: Timing, cfg: Config, bs: seq<nat>, f: Facts, j: nat): Facts
    requires j < |f.sh| == |f.dev| == |bs| && f.sh[j].queue != [] && Bank.Routed(f.dev[j], f.sh[j].queue[0])
  {
    f.(sh := f.sh[j := f.sh[j].(queue := MarkIssued(f.sh[j].queue))],
       dev := f.dev[j := Bank.IssueCommand(p, f.dev[j], f.sh[j].queue[0], Moment(f.now, 0, NotBounced)).state],
       lastIssue := f.now, cleanupAt := Some(f.now + 1),
       cur := if f.cur + 1 > cfg.ranks * cfg.banks then 0 else f.cur + 1,
       cycles := if |f.sh[j].queue| == 1 && W.Available(cfg, [f.queue], Id(cfg, bs[j])) then
                   f.cycles + multiset{f.now + 1} else f.cycles)
  }

  /** When only one head is ready, it is sent, wherever the round-robin stands. */
  lemma OnlyReadyIsSent(p: Timing, cfg: Config, bs: seq<nat>, s: W.State, f: Facts, j: nat)
    requires Used(cfg, bs) && Tracks(cfg, bs, s, f) && HeadsAtHome(cfg, bs, f)
    requires j < |bs| && IsReady(p, f.sh[j], f.dev[j], f.now) && !f.sh[j].queue[0].op.Refresh?
    requires forall k | 0 <= k < |bs| && k != j :: !IsReady(p, f.sh[k], f.dev[k], f.now)
    requires f.handled != Some(f.now) && f.lastIssue != f.now
    ensures W.ToSend(p, cfg, s) == Some(Id(cfg, bs[j]))
  {
    hide W.CanSend, IsReady, Holds, IsIdle, QueueId;
    var c, n := s.channel, |s.channel.shadows|;
    IdsDiffer(cfg, bs, j, j);
    ReadyCanBeSent(p, cfg, bs, s, f, j);
    W.FirstTurnCanSend(p, cfg, c.shadows, c.devices, s.curQueue, 0, c.now);
    var at := W.TurnCovers(s.curQueue, n, Id(cfg, bs[j]));
    var i := W.FirstTurn(p, cfg, c.shadows, c.devices, s.curQueue, 0, c.now);
    assert i <= at;
    CanSendIsReady(p, cfg, bs, s, f, W.Turn(s.curQueue, i, n));
  }

  lemma PrechargesKeepShape(p: Timing, b: Bank.State, r: Request, m: Moment)
    requires Bank.ActiveInRange(b)
    ensures var b' := Bank.PrechargeActive(p, b, r, m).state; |b'.subs| == |b.subs| && Bank.ActiveInRange(b')
    decreases |b.active|
  {
    if b.active != [] {
      var out := Sub.IssueCommand(p, b.subs[b.active[0]], r, m);
      PrechargesKeepShape(p, b.(active := b.active[1..], subs := b.subs[b.active[0] := out.state]), r, m);
    }
  }

  lemma DeactivateKeepsShape(b: Bank.State, x: nat)
    requires Bank.ActiveInRange(b)
    ensures var b' := Bank.Deactivate(b, x); b'.subs == b.subs && Bank.ActiveInRange(b')
  {
    EraseKeeps(b.active, x);
    var b' := Bank.Deactivate(b, x);
    forall k | 0 <= k < |b'.active| ensures b'.active[k] < |b'.subs| { assert b'.active[k] in b.active; }
  }

  lemma {:induction false} EraseKeeps(q: seq<nat>, x: nat)
    ensures forall y :: y in Erase(q, x) ==> y in q
  {
    if q != [] && q[0] != x {
      EraseKeeps(q[1..], x);
      assert Erase(q, x) == [q[0]] + Erase(q[1..], x);
    }
  }

  ghost predicate KeepsShape(b: Bank.State, b': Bank.State) { |b'.subs| == |b.subs| && Bank.ActiveInRange(b') }

  lemma PrechargeKeepsShape(p: Timing, b: Bank.State, r: Request, m: Moment)
    requires Bank.Routed(b, r)
    ensures KeepsShape(b, Bank.PrechargeStep(p, b, r, m).state)
  {
    hide Sub.IssueCommand, Bank.Deactivate, Bank.PrechargeActive;
    var timed := b.(next := b.next.(powerDown := Max(b.next.powerDown, m.now + p.rp)));
    PrechargesKeepShape(p, timed, r, m);
    DeactivateKeepsShape(Bank.ToSubArray(p, timed, r, m).state, r.subarray);
  }

  lemma ColumnKeepsShape(p: Timing, b: Bank.State, r: Request, m: Moment)
    requires Bank.Routed(b, r) && r.op.IsColumn()
    ensures KeepsShape(b, Bank.IssueCommand(p, b, r, m).state)
  {
    hide Sub.IssueCommand, Sub.IsIssuable, Bank.Deactivate, Bank.IsIssuable, Parameters.Span;
    forall b': Bank.State | Bank.ActiveInRange(b') ensures KeepsShape(b', Bank.Deactivate(b', r.subarray)) {
      DeactivateKeepsShape(b', r.subarray);
    }
  }

  lemma CommandKeepsShape(p: Timing, b: Bank.State, r: Request, m: Moment)
    requires Bank.Routed(b, r)
    ensures KeepsShape(b, Bank.IssueCommand(p, b, r, m).state)
  {
    hide Sub.IssueCommand, Sub.IsIssuable, Bank.Deactivate, Bank.PrechargeActive, Bank.IsIssuable, Bank.PrechargeStep;
    hide Bank.ReadStep, Bank.WriteStep;
    if r.op.IsColumn() { ColumnKeepsShape(p, b, r, m); } else { PrechargeKeepsShape(p, b, r, m); }
  }

  /** A command for one bank changes that bank and its queue. */
  lemma SendsToOne(p: Timing, cfg: Config, c: Channel.State, id: nat, r: Request)
    requires |c.shadows| == |c.devices| && id < |c.shadows| && c.shadows[id].queue != [] && r == c.shadows[id].queue[0]
    requires IdOf(cfg, r) == id && !r.op.Refresh? && Bank.Routed(c.devices[id], r)
    requires Channel.Enabled(p, cfg, c, Channel.IssueHead(id, 0, NotBounced))
    ensures Channel.Apply(p, cfg, c, Channel.IssueHead(id, 0, NotBounced)) == c.(
      shadows := c.shadows[id := c.shadows[id].(queue := MarkIssued(c.shadows[id].queue))],
      devices := c.devices[id := Bank.IssueCommand(p, c.devices[id], r, Moment(c.now, 0, NotBounced)).state],
      lastIssue := c.now, cleanupAt := Some(c.now + 1), sent := c.sent + [Channel.Sent(c.now, r)])
  {
    hide Bank.IssueCommand, Bank.IsIssuable, QueueId;
    var c' := Channel.Apply(p, cfg, c, Channel.IssueHead(id, 0, NotBounced));
    assert c'.shadows == c.shadows[id := c.shadows[id].(queue := MarkIssued(c.shadows[id].queue))];
    assert c'.devices == c.devices[id := Bank.IssueCommand(p, c.devices[id], r, Moment(c.now, 0, NotBounced)).state];
  }

  lemma SendsHead(p: Timing, cfg: Config, bs: seq<nat>, s: W.State, f: Facts, j: nat)
    requires Used(cfg, bs) && Tracks(cfg, bs, s, f) && HeadsAtHome(cfg, bs, f) && f.cleanupAt != Some(f.now)
    requires j < |bs| && IsReady(p, f.sh[j], f.dev[j], f.now) && !f.sh[j].queue[0].op.Refresh?
    requires W.ToSend(p, cfg, s) == Some(Id(cfg, bs[j]))
    ensures W.ReadyToRun(s) && Tracks(cfg, bs, W.Sending(p, cfg, s, 0, NotBounced), Sent(p, cfg, bs, f, j))
  {
    hide W.ToSend, W.Available, Holds, IsIdle, QueueId, Bank.IsIssuable, Bank.IssueCommand, Channel.Enabled;
    hide Channel.Apply;
    HeldIs(cfg, bs, s, f, j);
    W.SendIsEnabled(p, cfg, s, 0, NotBounced);
    var id, r := Id(cfg, bs[j]), f.sh[j].queue[0];
    var sh := f.sh[j].(queue := MarkIssued(f.sh[j].queue));
    var dev := Bank.IssueCommand(p, f.dev[j], r, Moment(f.now, 0, NotBounced)).state;
    SendsToOne(p, cfg, s.channel, id, r);
    CommandKeepsShape(p, f.dev[j], r, Moment(f.now, 0, NotBounced));
    ChangesOne(cfg, bs, s, f, j, sh, dev);
    var s1 := s.(channel := s.channel.(shadows := s.channel.shadows[id := sh],
                                       devices := s.channel.devices[id := dev]));
    SendingIs(p, cfg, bs, s, s1, f, j);
    RestMoves(cfg, bs, s1, f.(sh := f.sh[j := sh], dev := f.dev[j := dev]),
              W.Sending(p, cfg, s, 0, NotBounced), Sent(p, cfg, bs, f, j));
  }

  lemma SendingIs(p: Timing, cfg: Config, bs: seq<nat>, s: W.State, s1: W.State, f: Facts, j: nat)
    requires W.ReadyToRun(s) && j < |bs| && W.ToSend(p, cfg, s) == Some(Id(cfg, bs[j]))
    requires var c := s.channel;
      && c.queues == [f.queue] && |c.shadows| == cfg.ranks * cfg.banks && Id(cfg, bs[j]) < |c.shadows|
      && j < |f.sh| && c.shadows[Id(cfg, bs[j])] == f.sh[j] && c.now == f.now && s.cycles == f.cycles
        && s.curQueue == f.cur
      && Channel.Enabled(p, cfg, c, Channel.IssueHead(Id(cfg, bs[j]), 0, NotBounced))
      && Channel.Apply(p, cfg, c, Channel.IssueHead(Id(cfg, bs[j]), 0, NotBounced)) == s1.channel.(
           lastIssue := c.now, cleanupAt := Some(c.now + 1),
           sent := Channel.Apply(p, cfg, c, Channel.IssueHead(Id(cfg, bs[j]), 0, NotBounced)).sent)
    requires s1 == s.(channel := s1.channel)
    ensures var s' := W.Sending(p, cfg, s, 0, NotBounced);
      s' == s1.(channel := s1.channel.(lastIssue := f.now, cleanupAt := Some(f.now + 1), sent := s'.channel.sent),
                curQueue := if f.cur + 1 > cfg.ranks * cfg.banks then 0 else f.cur + 1,
                cycles := if |f.sh[j].queue| == 1 && W.Available(cfg, [f.queue], Id(cfg, bs[j])) then
                            f.cycles + multiset{f.now + 1} else f.cycles)
  {
    hide W.ToSend, W.Available, QueueId, Channel.Enabled, Channel.Apply;
  }

  /** The schedule and the clock may change while the banks stay as they are. */
  lemma RestMoves(cfg: Config, bs: seq<nat>, s: W.State, f: Facts, s': W.State, f': Facts)
    requires Tracks(cfg, bs, s, f)
    requires s'.channel.shadows == s.channel.shadows && s'.channel.devices == s.channel.devices
    requires s'.delayed == s.delayed && s'.channel.queues == [f'.queue] && f'.sh == f.sh && f'.dev == f.dev
    requires s'.channel.now == f'.now && s'.channel.lastIssue == f'.lastIssue && s'.channel.cleanupAt == f'.cleanupAt
    requires s'.wakes == f'.wakes && s'.cycles == f'.cycles && s'.handled == f'.handled && s'.ranAt == f'.ranAt
    requires s'.curQueue == f'.cur && forall id | id in s'.channel.accepted :: id < f'.ids
    ensures Tracks(cfg, bs, s', f')
  {
    forall j | 0 <= j < |bs| ensures Holds(cfg, bs[j], s'.channel, f'.sh[j], f'.dev[j]) {
      assert Holds(cfg, bs[j], s.channel, f.sh[j], f.dev[j]);
    }
    forall k | 0 <= k < |s'.channel.shadows| && Unused(cfg, bs, k) ensures IsIdle(cfg, s'.channel, k) {
      assert IsIdle(cfg, s.channel, k);
    }
  }

  lemma HeldIs(cfg: Config, bs: seq<nat>, s: W.State, f: Facts, j: nat)
    requires Used(cfg, bs) && Tracks(cfg, bs, s, f) && j < |bs|
    ensures var id := Id(cfg, bs[j]);
      && id < |s.channel.shadows| == |s.channel.devices|
      && s.channel.shadows[id] == f.sh[j] && s.channel.devices[id] == f.dev[j]
      && Sized(cfg, f.sh[j]) && |f.dev[j].subs| == cfg.subarrays && Bank.ActiveInRange(f.dev[j])
  {
    assert Holds(cfg, bs[j], s.channel, f.sh[j], f.dev[j]);
  }

  // ---------------------------------------------------------------- scheduling

  /** `r` is a transaction for bank `bank` of the first rank. */
  predicate For(cfg: Config, bank: nat, r: Request) {
    && r.rank == 0 && r.bank == bank && r.subarray < cfg.subarrays && (r.op.Read? || r.op.Write?)
    && !r.forced && !r.last && !r.issued
  }

  /** All transactions that wait are for banks that are used. */
  predicate ForUsed(cfg: Config, bs: seq<nat>, queue: seq<Request>) {
    forall i | 0 <= i < |queue| :: exists j :: 0 <= j < |bs| && For(cfg, bs[j], queue[i])
  }

  lemma MatchIs(cfg: Config, bs: seq<nat>, s: W.State, f: Facts, sel: Selector, r: Request, j: nat)
    requires Used(cfg, bs) && Tracks(cfg, bs, s, f) && j < |bs| && For(cfg, bs[j], r)
    ensures Sized(cfg, f.sh[j])
    ensures Matches(cfg, s.channel.shadows, f.now, sel, r) <==> Selects(cfg, sel, f.sh[j], r, f.now)
  {
    hide QueueId;
    HeldIs(cfg, bs, s, f, j);
  }

  /** No waiting transaction is selected by `sel`. */
  ghost predicate NoneSelected(cfg: Config, bs: seq<nat>, f: Facts, sel: Selector)
    requires |f.sh| == |bs| && forall j | 0 <= j < |bs| :: Sized(cfg, f.sh[j])
  {
    forall i, j | 0 <= i < |f.queue| && 0 <= j < |bs| && For(cfg, bs[j], f.queue[i]) ::
      !Selects(cfg, sel, f.sh[j], f.queue[i], f.now)
  }

  lemma NoneFound(cfg: Config, bs: seq<nat>, s: W.State, f: Facts, sel: Selector)
    requires Used(cfg, bs) && Tracks(cfg, bs, s, f) && ForUsed(cfg, bs, f.queue)
    requires (forall j | 0 <= j < |bs| :: Sized(cfg, f.sh[j])) && NoneSelected(cfg, bs, f, sel)
    ensures !FrfcfsSpec.Found(cfg, s.channel.shadows, f.now, sel, f.queue)
  {
    hide Selects, For, Tracks, Matches;
    var i := FirstMatch(cfg, s.channel.shadows, f.now, sel, f.queue);
    if i < |f.queue| {
      var j :| 0 <= j < |bs| && For(cfg, bs[j], f.queue[i]);
      MatchIs(cfg, bs, s, f, sel, f.queue[i], j);
    }
  }

  ghost function Policy(cfg: Config, s: W.State): Option<W.Choice>
    requires s.channel.queues != []
  {
    FrfcfsSpec.CycleChoice(cfg, s.channel.shadows, s.channel.now, 0, s.channel.queues[0], false)
  }

  lemma ChoosesNone(cfg: Config, bs: seq<nat>, s: W.State, f: Facts)
    requires Used(cfg, bs) && Tracks(cfg, bs, s, f) && ForUsed(cfg, bs, f.queue)
    requires forall j | 0 <= j < |bs| :: Sized(cfg, f.sh[j])
    requires forall sel :: NoneSelected(cfg, bs, f, sel)
    ensures Policy(cfg, s) == None
  {
    hide NoneSelected, FrfcfsSpec.Found;
    forall sel ensures !FrfcfsSpec.Found(cfg, s.channel.shadows, f.now, sel, f.queue) {
      NoneFound(cfg, bs, s, f, sel);
    }
  }

  /** The first transaction is chosen when `sel` selects it, and selectors that come before select nothing. */
  lemma ChoosesFirst(cfg: Config, bs: seq<nat>, s: W.State, f: Facts, j: nat, sel: Selector)
    requires Used(cfg, bs) && Tracks(cfg, bs, s, f) && ForUsed(cfg, bs, f.queue)
    requires f.queue != [] && j < |bs| && For(cfg, bs[j], f.queue[0])
    requires (forall j | 0 <= j < |bs| :: Sized(cfg, f.sh[j])) && Selects(cfg, sel, f.sh[j], f.queue[0], f.now)
    requires sel.RowBufferHit? || sel.ClosedBank?
    requires NoneSelected(cfg, bs, f, Starved)
    requires sel.ClosedBank? ==> NoneSelected(cfg, bs, f, RowBufferHit) && NoneSelected(cfg, bs, f, OldestReady)
    ensures Policy(cfg, s) == Some(W.Choice(0, sel, false))
    ensures FirstMatch(cfg, s.channel.shadows, f.now, sel, f.queue) == 0
  {
    hide NoneSelected, Selects, For, Matches;
    NoneFound(cfg, bs, s, f, Starved);
    if sel.ClosedBank? {
      NoneFound(cfg, bs, s, f, RowBufferHit);
      NoneFound(cfg, bs, s, f, OldestReady);
    }
    MatchIs(cfg, bs, s, f, sel, f.queue[0], j);
  }

  ghost function Expanded(cfg: Config, sh: Shadow, r: Request): Shadow
    requires Sized(cfg, sh) && r.subarray < cfg.subarrays
  {
    Expand(cfg, sh, r, false, false).shadow
  }

  /** What scheduling the first transaction, for bank `j`, changes. */
  ghost function Queued(cfg: Config, f: Facts, j: nat, least: Option<nat>): Facts
    requires j < |f.sh| && f.queue != [] && Sized(cfg, f.sh[j]) && f.queue[0].subarray < cfg.subarrays
  {
    f.(queue := f.queue[1..], sh := f.sh[j := Expanded(cfg, f.sh[j], f.queue[0])],
       wakes := f.wakes + W.WakeSet(W.Clipped(least, f.now)))
  }

  /** The channel once its first transaction `r` was expanded. */
  lemma SchedulesInChannel(p: Timing, cfg: Config, c: Channel.State, id: nat, sel: Selector, r: Request)
    requires |c.queues| == 1 && c.queues[0] != [] && r == c.queues[0][0] && c.cleanupAt != Some(c.now)
    requires |c.shadows| == |c.devices| && id == IdOf(cfg, r) < |c.shadows| && Sized(cfg, c.shadows[id])
    requires Bank.Routed(c.devices[id], r) && c.devices[id].subs[r.subarray].writing.NotWriting?
    requires r.subarray < cfg.subarrays && (r.op.Read? || r.op.Write?) && !r.forced && !r.last && cfg.closePage == 0
    requires p.pausing ==> r.op.Read?
    requires FirstMatch(cfg, c.shadows, c.now, sel, c.queues[0]) == 0
    ensures Channel.Enabled(p, cfg, c, Channel.Schedule(0, sel, false))
    ensures Channel.Apply(p, cfg, c, Channel.Schedule(0, sel, false)) ==
      c.(queues := [c.queues[0][1..]], shadows := c.shadows[id := Expanded(cfg, c.shadows[id], r)])
  {
    hide FirstMatch, Expand, QueueId, Bank.IsIssuable, Sized;
    assert Channel.Picked(cfg, false, c.queues[0], 0) == r;
    Channel.CachedIsNeverIssuable(p, c.devices[id], r, c.now);
    assert Without(c.queues[0], 0) == c.queues[0][1..];
    assert c.queues[0 := c.queues[0][1..]] == [c.queues[0][1..]];
  }

  lemma ExpandedIsSized(cfg: Config, sh: Shadow, r: Request)
    requires Sized(cfg, sh) && r.subarray < cfg.subarrays
    ensures Sized(cfg, Expanded(cfg, sh, r))
  {}

  lemma SchedulesFirst(p: Timing, cfg: Config, bs: seq<nat>, s: W.State, f: Facts, j: nat, sel: Selector,
                       least: Option<nat>)
    requires Used(cfg, bs) && Tracks(cfg, bs, s, f) && f.cleanupAt != Some(f.now) && cfg.closePage == 0
    requires f.queue != [] && j < |bs| && For(cfg, bs[j], f.queue[0]) && (p.pausing ==> f.queue[0].op.Read?)
    requires Sized(cfg, f.sh[j]) && |f.dev[j].subs| == cfg.subarrays
    requires f.dev[j].subs[f.queue[0].subarray].writing.NotWriting?
    requires FirstMatch(cfg, s.channel.shadows, f.now, sel, f.queue) == 0
    requires AsksLeast(f.sh[j := Expanded(cfg, f.sh[j], f.queue[0])], f.dev, least)
    ensures W.Schedulable(p, cfg, s, Some(W.Choice(0, sel, false)))
    ensures Tracks(cfg, bs, W.Scheduled(p, cfg, s, Some(W.Choice(0, sel, false))), Queued(cfg, f, j, least))
  {
    hide QueueId, FirstMatch, AsksLeast, Expanded, Holds, IsIdle, Channel.Enabled, Channel.Apply, W.NextWake, Sized;
    var id, r := Id(cfg, bs[j]), f.queue[0];
    HeldIs(cfg, bs, s, f, j);
    SchedulesInChannel(p, cfg, s.channel, id, sel, r);
    ExpandedIsSized(cfg, f.sh[j], r);
    var sh := Expanded(cfg, f.sh[j], r);
    ChangesOne(cfg, bs, s, f, j, sh, f.dev[j]);
    assert s.channel.devices[id := f.dev[j]] == s.channel.devices && f.dev[j := f.dev[j]] == f.dev;
    var s1 := s.(channel := s.channel.(shadows := s.channel.shadows[id := sh]));
    var s2 := s.(channel := s.channel.(queues := [f.queue[1..]], shadows := s.channel.shadows[id := sh]));
    var f1 := f.(sh := f.sh[j := sh]);
    assert Tracks(cfg, bs, s1, f1);
    RestMoves(cfg, bs, s1, f1, s2, f1.(queue := f.queue[1..]));
    NextWakeIs(cfg, bs, s2, f1.(queue := f.queue[1..]), least);
    assert W.Scheduled(p, cfg, s, Some(W.Choice(0, sel, false))) == W.Woken(cfg, s2);
    RestMoves(cfg, bs, s1, f1, W.Woken(cfg, s2), Queued(cfg, f, j, least));
  }

  // ---------------------------------------------------------------- transactions that wait for an empty queue

  /** A transaction waits for a bank that has nothing left to send. */
  ghost predicate Waits(cfg: Config, bs: seq<nat>, f: Facts) {
    exists i, j :: 0 <= i < |f.queue| && 0 <= j < |bs| && j < |f.sh| && For(cfg, bs[j], f.queue[i])
        && Pending(f.sh[j].queue) == []
  }

  lemma AttendsIs(cfg: Config, bs: seq<nat>, s: W.State, f: Facts)
    requires Used(cfg, bs) && Tracks(cfg, bs, s, f) && ForUsed(cfg, bs, f.queue)
    ensures W.Attends(cfg, s.channel) <==> Waits(cfg, bs, f)
  {
    hide QueueId;
    var c := s.channel;
    if W.Attends(cfg, c) {
      var id: nat :| W.EffectivelyEmpty(c.shadows, id) && W.Available(cfg, c.queues, id);
      var q: nat, i: nat :| q < |c.queues| && i < |c.queues[q]| && IdOf(cfg, c.queues[q][i]) == id;
      var j :| 0 <= j < |bs| && For(cfg, bs[j], f.queue[i]);
      HeldIs(cfg, bs, s, f, j);
    }
    if Waits(cfg, bs, f) {
      var i, j :| 0 <= i < |f.queue| && 0 <= j < |bs| && j < |f.sh| && For(cfg, bs[j], f.queue[i])
                  && Pending(f.sh[j].queue) == [];
      HeldIs(cfg, bs, s, f, j);
      assert IdOf(cfg, c.queues[0][i]) == Id(cfg, bs[j]);
      assert W.EffectivelyEmpty(c.shadows, Id(cfg, bs[j])) && W.Available(cfg, c.queues, Id(cfg, bs[j]));
    }
  }

  /** Whether the cycle event that runs schedules another one. */
  ghost function Again(cfg: Config, bs: seq<nat>, f: Facts): Facts {
    if f.now + 1 !in f.cycles && Waits(cfg, bs, f) then f.(cycles := f.cycles + multiset{f.now + 1}) else f
  }

  lemma Reschedules(cfg: Config, bs: seq<nat>, s: W.State, f: Facts)
    requires Used(cfg, bs) && Tracks(cfg, bs, s, f) && ForUsed(cfg, bs, f.queue)
    ensures Tracks(cfg, bs, W.Rescheduled(cfg, s), Again(cfg, bs, f))
  {
    hide QueueId, Holds, IsIdle, W.Attends, Waits;
    AttendsIs(cfg, bs, s, f);
    RestMoves(cfg, bs, s, f, W.Rescheduled(cfg, s), Again(cfg, bs, f));
  }

  // ---------------------------------------------------------------- cycle events

  function Begun(f: Facts): Facts { f.(cycles := f.cycles - multiset{f.now}, ranAt := Some(f.now)) }

  ghost predicate PulsesDone(f: Facts) { forall g | 0 <= g < |f.pulseAt| :: f.now < f.pulseAt[g] }

  /** A cycle event may run. */
  ghost predicate MayCycle(cfg: Config, bs: seq<nat>, f: Facts) {
    && Used(cfg, bs) && |f.sh| == |f.dev| == |bs| && ForUsed(cfg, bs, f.queue) && HeadsAtHome(cfg, bs, f)
    && (forall j | 0 <= j < |bs| :: Sized(cfg, f.sh[j]) && |f.dev[j].subs| == cfg.subarrays)
    && f.now in f.cycles && f.cleanupAt != Some(f.now) && PulsesDone(f)
  }

  ghost predicate CycleDue(cfg: Config, bs: seq<nat>, t: T.State, f: Facts) {
    Shows(cfg, bs, t, f) && MayCycle(cfg, bs, f)
  }

  function BegunState(s: W.State): W.State {
    s.(cycles := s.cycles - multiset{s.channel.now}, ranAt := Some(s.channel.now))
  }

  lemma Begins(cfg: Config, bs: seq<nat>, t: T.State, f: Facts)
    requires CycleDue(cfg, bs, t, f)
    ensures Tracks(cfg, bs, BegunState(t.controller), Begun(f)) && HeadsAtHome(cfg, bs, Begun(f))
  {
    hide Holds, IsIdle;
    RestMoves(cfg, bs, t.controller, f, BegunState(t.controller), Begun(f));
  }

  lemma CycleGoes(p: Timing, cfg: Config, interval: nat, bs: seq<nat>, t: T.State, f: Facts, choice: Option<W.Choice>,
                  scheduled: W.State, f': Facts) returns (t': T.State)
    requires CycleDue(cfg, bs, t, f) && choice == Policy(cfg, t.controller)
    requires W.Schedulable(p, cfg, BegunState(t.controller), choice)
    requires scheduled == W.Scheduled(p, cfg, BegunState(t.controller), choice) && W.ReadyToRun(scheduled)
    requires Tracks(cfg, bs, W.Sending(p, cfg, scheduled, 0, NotBounced), f') && ForUsed(cfg, bs, f'.queue)
    requires f'.pulseAt == f.pulseAt
    ensures Links(p, cfg, interval, t, W.Cycle(choice, 0, NotBounced), t') && Shows(cfg, bs, t', Again(cfg, bs, f'))
    ensures !t'.handingOver
  {
    hide Holds, IsIdle, Channel.Enabled, W.Scheduled, W.Sending, W.Rescheduled, Waits, FrfcfsSpec.CycleChoice, Used;
    hide HeadsAtHome, For, Sized;
    Reschedules(cfg, bs, W.Sending(p, cfg, scheduled, 0, NotBounced), f');
    t' := T.Apply(p, cfg, interval, t, W.Cycle(choice, 0, NotBounced));
  }

  /** A cycle event that schedules nothing and sends nothing. */
  lemma CyclesIdly(p: Timing, cfg: Config, interval: nat, bs: seq<nat>, t: T.State, f: Facts) returns (t': T.State)
    requires CycleDue(cfg, bs, t, f) && SendsNothing(p, f) && forall sel :: NoneSelected(cfg, bs, f, sel)
    ensures Links(p, cfg, interval, t, W.Cycle(None, 0, NotBounced), t')
    ensures Shows(cfg, bs, t', Again(cfg, bs, Begun(f))) && !t'.handingOver
  {
    hide Holds, IsIdle, NoneSelected, Again, Links, IsReady, W.Sending, HeadsAtHome;
    Begins(cfg, bs, t, f);
    ChoosesNone(cfg, bs, t.controller, f);
    SendsNone(p, cfg, bs, BegunState(t.controller), Begun(f));
    t' := CycleGoes(p, cfg, interval, bs, t, f, None, BegunState(t.controller), Begun(f));
  }

  /** A cycle event that schedules nothing and sends the only head that is ready. */
  lemma CyclesToSend(p: Timing, cfg: Config, interval: nat, bs: seq<nat>, t: T.State, f: Facts, j: nat)
    returns (t': T.State)
    requires CycleDue(cfg, bs, t, f) && (forall sel :: NoneSelected(cfg, bs, f, sel)) && SendsOnly(p, bs, f, j)
    ensures Links(p, cfg, interval, t, W.Cycle(None, 0, NotBounced), t')
    ensures Shows(cfg, bs, t', Again(cfg, bs, Sent(p, cfg, bs, Begun(f), j))) && !t'.handingOver
  {
    hide Holds, IsIdle, NoneSelected, Again, Links, W.Sending, W.ToSend, HeadsAtHome;
    Begins(cfg, bs, t, f);
    ChoosesNone(cfg, bs, t.controller, f);
    OnlyReadyIsSent(p, cfg, bs, BegunState(t.controller), Begun(f), j);
    SendsHead(p, cfg, bs, BegunState(t.controller), Begun(f), j);
    t' := CycleGoes(p, cfg, interval, bs, t, f, None, BegunState(t.controller), Sent(p, cfg, bs, Begun(f), j));
  }

  /** The head of bank `j`, no REFRESH, is the only one that is ready, and one may be sent. */
  ghost predicate SendsOnly(p: Timing, bs: seq<nat>, f: Facts, j: nat) {
    && j < |bs| == |f.sh| == |f.dev| && IsReady(p, f.sh[j], f.dev[j], f.now) && !f.sh[j].queue[0].op.Refresh?
    && (forall k | 0 <= k < |bs| && k != j :: !IsReady(p, f.sh[k], f.dev[k], f.now))
    && f.handled != Some(f.now) && f.lastIssue != f.now
  }

  /** The first transaction, which is for bank `j`, is the choice of the policy by selector `sel`. */
  ghost predicate PicksFirst(p: Timing, cfg: Config, bs: seq<nat>, f: Facts, j: nat, sel: Selector)
    requires |f.sh| == |bs| == |f.dev| && forall j | 0 <= j < |bs| ::
      Sized(cfg, f.sh[j]) && |f.dev[j].subs| == cfg.subarrays
  {
    && cfg.closePage == 0 && f.queue != [] && j < |bs| && For(cfg, bs[j], f.queue[0])
      && (p.pausing ==> f.queue[0].op.Read?)
    && Selects(cfg, sel, f.sh[j], f.queue[0], f.now) && (sel.RowBufferHit? || sel.ClosedBank?)
    && f.dev[j].subs[f.queue[0].subarray].writing.NotWriting?
    && NoneSelected(cfg, bs, f, Starved)
    && (sel.ClosedBank? ==> NoneSelected(cfg, bs, f, RowBufferHit) && NoneSelected(cfg, bs, f, OldestReady))
  }

  lemma Picks(p: Timing, cfg: Config, bs: seq<nat>, t: T.State, f: Facts, j: nat, sel: Selector, least: Option<nat>)
    requires CycleDue(cfg, bs, t, f) && PicksFirst(p, cfg, bs, f, j, sel)
    requires AsksLeast(f.sh[j := Expanded(cfg, f.sh[j], f.queue[0])], f.dev, least)
    ensures var choice := Some(W.Choice(0, sel, false));
      && Policy(cfg, t.controller) == choice && W.Schedulable(p, cfg, BegunState(t.controller), choice)
      && Tracks(cfg, bs, W.Scheduled(p, cfg, BegunState(t.controller), choice), Queued(cfg, Begun(f), j, least))
    ensures ForUsed(cfg, bs, f.queue[1..])
  {
    hide Holds, IsIdle, NoneSelected, Selects, AsksLeast, Expanded, W.Schedulable, W.Scheduled, FrfcfsSpec.CycleChoice;
    hide HeadsAtHome, Sized;
    Begins(cfg, bs, t, f);
    ChoosesFirst(cfg, bs, t.controller, f, j, sel);
    SchedulesFirst(p, cfg, bs, BegunState(t.controller), Begun(f), j, sel, least);
    forall i | 0 <= i < |f.queue[1..]| ensures exists j :: 0 <= j < |bs| && For(cfg, bs[j], f.queue[1..][i]) {
      assert f.queue[1..][i] == f.queue[i + 1];
    }
  }

  /** A cycle event that schedules the first transaction and sends nothing. */
  lemma CyclesToSchedule(p: Timing, cfg: Config, interval: nat, bs: seq<nat>, t: T.State, f: Facts, j: nat,
                         sel: Selector,
                         least: Option<nat>)
    returns (t': T.State)
    requires CycleDue(cfg, bs, t, f) && PicksFirst(p, cfg, bs, f, j, sel)
    requires AsksLeast(f.sh[j := Expanded(cfg, f.sh[j], f.queue[0])], f.dev, least)
    requires var f1 := Queued(cfg, Begun(f), j, least); SendsNothing(p, f1) && HeadsAtHome(cfg, bs, f1)
    ensures Links(p, cfg, interval, t, W.Cycle(Some(W.Choice(0, sel, false)), 0, NotBounced), t')
    ensures Shows(cfg, bs, t', Again(cfg, bs, Queued(cfg, Begun(f), j, least))) && !t'.handingOver
  {
    hide Holds, IsIdle, AsksLeast, Expanded, W.Schedulable, W.Scheduled, W.Sending, Again, Links, IsReady, NoneSelected;
    hide HeadsAtHome, Sized, SendsNothing, Used, Selects;
    Picks(p, cfg, bs, t, f, j, sel, least);
    var scheduled := W.Scheduled(p, cfg, BegunState(t.controller), Some(W.Choice(0, sel, false)));
    SendsNone(p, cfg, bs, scheduled, Queued(cfg, Begun(f), j, least));
    t' := CycleGoes(p, cfg, interval, bs, t, f, Some(W.Choice(0, sel, false)), scheduled,
        Queued(cfg, Begun(f), j, least));
  }

  /** A cycle event that schedules the first transaction and sends the head of its bank at once. */
  lemma CyclesScheduling(p: Timing, cfg: Config, interval: nat, bs: seq<nat>, t: T.State, f: Facts, j: nat,
                         sel: Selector,
                         least: Option<nat>)
    returns (t': T.State)
    requires CycleDue(cfg, bs, t, f) && PicksFirst(p, cfg, bs, f, j, sel)
    requires AsksLeast(f.sh[j := Expanded(cfg, f.sh[j], f.queue[0])], f.dev, least)
    requires var f1 := Queued(cfg, Begun(f), j, least);
      && HeadsAtHome(cfg, bs, f1) && IsReady(p, f1.sh[j], f1.dev[j], f1.now) && !f1.sh[j].queue[0].op.Refresh?
      && forall s: W.State | Tracks(cfg, bs, s, f1) :: W.ToSend(p, cfg, s) == Some(Id(cfg, bs[j]))
    ensures Links(p, cfg, interval, t, W.Cycle(Some(W.Choice(0, sel, false)), 0, NotBounced), t')
    ensures Shows(cfg, bs, t', Again(cfg, bs, Sent(p, cfg, bs, Queued(cfg, Begun(f), j, least), j))) && !t'.handingOver
  {
    hide Holds, IsIdle, AsksLeast, Expanded, W.Schedulable, W.Scheduled, W.Sending, Again, Links, W.ToSend;
    hide HeadsAtHome, Sized, Selects, NoneSelected;
    Picks(p, cfg, bs, t, f, j, sel, least);
    var scheduled := W.Scheduled(p, cfg, BegunState(t.controller), Some(W.Choice(0, sel, false)));
    var f1 := Queued(cfg, Begun(f), j, least);
    SendsHead(p, cfg, bs, scheduled, f1, j);
    t' := CycleGoes(p, cfg, interval, bs, t, f, Some(W.Choice(0, sel, false)), scheduled, Sent(p, cfg, bs, f1, j));
  }

  /** The same when that head is the only one that is ready. */
  lemma CyclesToScheduleAndSend(p: Timing, cfg: Config, interval: nat, bs: seq<nat>, t: T.State, f: Facts, j: nat,
                                sel: Selector, least: Option<nat>)
    returns (t': T.State)
    requires CycleDue(cfg, bs, t, f) && PicksFirst(p, cfg, bs, f, j, sel)
    requires AsksLeast(f.sh[j := Expanded(cfg, f.sh[j], f.queue[0])], f.dev, least)
    requires var f1 := Queued(cfg, Begun(f), j, least); SendsOnly(p, bs, f1, j) && HeadsAtHome(cfg, bs, f1)
    ensures Links(p, cfg, interval, t, W.Cycle(Some(W.Choice(0, sel, false)), 0, NotBounced), t')
    ensures Shows(cfg, bs, t', Again(cfg, bs, Sent(p, cfg, bs, Queued(cfg, Begun(f), j, least), j))) && !t'.handingOver
  {
    hide AsksLeast, Expanded, Again, Links, W.ToSend, Tracks, HeadsAtHome, Sized, Selects, NoneSelected;
    var f1 := Queued(cfg, Begun(f), j, least);
    forall s: W.State | Tracks(cfg, bs, s, f1) ensures W.ToSend(p, cfg, s) == Some(Id(cfg, bs[j])) {
      OnlyReadyIsSent(p, cfg, bs, s, f1, j);
    }
    t' := CyclesScheduling(p, cfg, interval, bs, t, f, j, sel, least);
  }

  // ---------------------------------------------------------------- command-queue callbacks

  function Woken(f: Facts, least: Option<nat>): Facts {
    f.(wakes := f.wakes - {f.now} + W.WakeSet(W.Clipped(least, f.now)), ranAt := Some(f.now))
  }

  ghost predicate CompletionsDone(f: Facts) {
    forall j | 0 <= j < |f.dev| :: forall x | 0 <= x < |f.dev[j].subs| ::
      BankRuns.NothingBefore(f.dev[j].subs[x], f.now + 1)
  }

  /** A callback may run. */
  ghost predicate MayWake(cfg: Config, bs: seq<nat>, f: Facts) {
    && Used(cfg, bs) && |f.sh| == |f.dev| == |bs| && HeadsAtHome(cfg, bs, f)
    && f.now in f.wakes && f.now !in f.cycles && f.cleanupAt != Some(f.now) && PulsesDone(f) && CompletionsDone(f)
  }

  ghost predicate WakeDue(cfg: Config, bs: seq<nat>, t: T.State, f: Facts) {
    Shows(cfg, bs, t, f) && MayWake(cfg, bs, f)
  }

  lemma NothingPendsBefore(cfg: Config, bs: seq<nat>, s: W.State, f: Facts, to: nat)
    requires Used(cfg, bs) && Tracks(cfg, bs, s, f)
    requires forall j | 0 <= j < |f.dev| :: forall x | 0 <= x < |f.dev[j].subs| ::
      BankRuns.NothingBefore(f.dev[j].subs[x], to)
    ensures forall k | 0 <= k < |s.channel.devices| :: forall x | 0 <= x < |s.channel.devices[k].subs| ::
      BankRuns.NothingBefore(s.channel.devices[k].subs[x], to)
  {
    hide QueueId, BankRuns.NothingBefore;
    forall k | 0 <= k < |s.channel.devices|
      ensures forall x | 0 <= x < |s.channel.devices[k].subs| ::
        BankRuns.NothingBefore(s.channel.devices[k].subs[x], to) {
      if Unused(cfg, bs, k) {
        assert IsIdle(cfg, s.channel, k);
        UntouchedIsQuiet(cfg, to);
      } else {
        var j :| 0 <= j < |bs| && Id(cfg, bs[j]) == k;
        assert Holds(cfg, bs[j], s.channel, f.sh[j], f.dev[j]);
      }
    }
  }

  lemma UntouchedIsQuiet(cfg: Config, to: nat)
    ensures forall x | 0 <= x < cfg.subarrays ::
      BankRuns.NothingBefore(Bank.Initial(cfg.subarrays, false).subs[x], to)
  {}

  function WokenState(cfg: Config, s: W.State, least: Option<nat>): W.State {
    s.(wakes := s.wakes - {s.channel.now} + W.WakeSet(W.Clipped(least, s.channel.now)), ranAt := Some(s.channel.now))
  }

  lemma WakeGoes(p: Timing, cfg: Config, interval: nat, bs: seq<nat>, t: T.State, f: Facts, least: Option<nat>,
                 f': Facts)
    returns (t': T.State)
    requires WakeDue(cfg, bs, t, f) && AsksLeast(f.sh, f.dev, least)
    requires W.ReadyToRun(WokenState(cfg, t.controller, least)) && f'.pulseAt == f.pulseAt
    requires Tracks(cfg, bs, W.Sending(p, cfg, WokenState(cfg, t.controller, least), 0, NotBounced), f')
    ensures Links(p, cfg, interval, t, W.Wake(0, NotBounced), t') && Shows(cfg, bs, t', f') && !t'.handingOver
  {
    hide Holds, IsIdle, AsksLeast, W.Sending, W.NextWake, HeadsAtHome, BankRuns.NothingBefore;
    var s := t.controller.(wakes := t.controller.wakes - {f.now}, ranAt := Some(f.now));
    RestMoves(cfg, bs, t.controller, f, s, f.(wakes := f.wakes - {f.now}, ranAt := Some(f.now)));
    NextWakeIs(cfg, bs, s, f.(wakes := f.wakes - {f.now}, ranAt := Some(f.now)), least);
    NothingPendsBefore(cfg, bs, t.controller, f, f.now + 1);
    t' := T.Apply(p, cfg, interval, t, W.Wake(0, NotBounced));
  }

  lemma Wakes(cfg: Config, bs: seq<nat>, t: T.State, f: Facts, least: Option<nat>)
    requires WakeDue(cfg, bs, t, f)
    ensures Tracks(cfg, bs, WokenState(cfg, t.controller, least), Woken(f, least))
    ensures HeadsAtHome(cfg, bs, Woken(f, least)) && W.ReadyToRun(WokenState(cfg, t.controller, least))
  {
    hide Holds, IsIdle, BankRuns.NothingBefore;
    RestMoves(cfg, bs, t.controller, f, WokenState(cfg, t.controller, least), Woken(f, least));
  }

  /** A callback that sends nothing. */
  lemma WakesIdly(p: Timing, cfg: Config, interval: nat, bs: seq<nat>, t: T.State, f: Facts, least: Option<nat>)
    returns (t': T.State)
    requires WakeDue(cfg, bs, t, f) && AsksLeast(f.sh, f.dev, least) && SendsNothing(p, f)
    ensures Links(p, cfg, interval, t, W.Wake(0, NotBounced), t')
    ensures Shows(cfg, bs, t', Woken(f, least)) && !t'.handingOver
  {
    hide Holds, IsIdle, AsksLeast, Links, IsReady, W.Sending, HeadsAtHome, BankRuns.NothingBefore;
    Wakes(cfg, bs, t, f, least);
    SendsNone(p, cfg, bs, WokenState(cfg, t.controller, least), Woken(f, least));
    t' := WakeGoes(p, cfg, interval, bs, t, f, least, Woken(f, least));
  }

  /** A callback that sends the head of bank `j`. */
  lemma WakesSending(p: Timing, cfg: Config, interval: nat, bs: seq<nat>, t: T.State, f: Facts, least: Option<nat>,
                     j: nat)
    returns (t': T.State)
    requires WakeDue(cfg, bs, t, f) && AsksLeast(f.sh, f.dev, least)
    requires j < |bs| && IsReady(p, f.sh[j], f.dev[j], f.now) && !f.sh[j].queue[0].op.Refresh?
    requires W.ToSend(p, cfg, WokenState(cfg, t.controller, least)) == Some(Id(cfg, bs[j]))
    ensures Links(p, cfg, interval, t, W.Wake(0, NotBounced), t')
    ensures Shows(cfg, bs, t', Sent(p, cfg, bs, Woken(f, least), j)) && !t'.handingOver
  {
    hide Holds, IsIdle, AsksLeast, Links, W.Sending, W.ToSend, HeadsAtHome, BankRuns.NothingBefore;
    Wakes(cfg, bs, t, f, least);
    SendsHead(p, cfg, bs, WokenState(cfg, t.controller, least), Woken(f, least), j);
    t' := WakeGoes(p, cfg, interval, bs, t, f, least, Sent(p, cfg, bs, Woken(f, least), j));
  }

  /** A callback that sends the only head that is ready. */
  lemma WakesToSend(p: Timing, cfg: Config, interval: nat, bs: seq<nat>, t: T.State, f: Facts, least: Option<nat>,
                    j: nat)
    returns (t': T.State)
    requires WakeDue(cfg, bs, t, f) && AsksLeast(f.sh, f.dev, least) && SendsOnly(p, bs, f, j)
    ensures Links(p, cfg, interval, t, W.Wake(0, NotBounced), t')
    ensures Shows(cfg, bs, t', Sent(p, cfg, bs, Woken(f, least), j)) && !t'.handingOver
  {
    hide Holds, IsIdle, AsksLeast, Links, W.Sending, W.ToSend, HeadsAtHome, BankRuns.NothingBefore;
    Wakes(cfg, bs, t, f, least);
    OnlyReadyIsSent(p, cfg, bs, WokenState(cfg, t.controller, least), Woken(f, least), j);
    t' := WakesSending(p, cfg, interval, bs, t, f, least, j);
  }

  // ---------------------------------------------------------------- time, cleanup and the host

  lemma Passes(p: Timing, cfg: Config, interval: nat, bs: seq<nat>, t: T.State, f: Facts, to: nat) returns (t': T.State)
    requires Used(cfg, bs) && Shows(cfg, bs, t, f) && f.now < to && f.cleanupAt != Some(f.now)
    requires f.cleanupAt.Some? ==> to <= f.cleanupAt.value
    requires (forall w | w in f.wakes :: to <= w) && (forall c | c in f.cycles :: to <= c)
    requires forall g | 0 <= g < |f.pulseAt| :: to <= f.pulseAt[g]
    requires forall j | 0 <= j < |f.dev| :: forall x | 0 <= x < |f.dev[j].subs| ::
      BankRuns.NothingBefore(f.dev[j].subs[x], to)
    ensures Links(p, cfg, interval, t, W.Advance(to), t') && Shows(cfg, bs, t', f.(now := to)) && !t'.handingOver
  {
    hide Holds, IsIdle, BankRuns.NothingBefore;
    NothingPendsBefore(cfg, bs, t.controller, f, to);
    t' := T.Apply(p, cfg, interval, t, W.Advance(to));
    RestMoves(cfg, bs, t.controller, f, t'.controller, f.(now := to));
  }

  /** The completion event `e` of bank `j`. */
  lemma Completes(p: Timing, cfg: Config, interval: nat, bs: seq<nat>, t: T.State, f: Facts, j: nat, e: BankRuns.Step)
    returns (t': T.State)
    requires Used(cfg, bs) && Shows(cfg, bs, t, f) && f.cleanupAt != Some(f.now) && j < |bs| && |f.dev| == |bs|
    requires (e.CompleteClosing? || e.CompleteWrite?) && BankRuns.Enabled(p, BankRuns.Config(f.dev[j], f.now, []), e)
    ensures Links(p, cfg, interval, t, W.Event(Id(cfg, bs[j]), e), t') && !t'.handingOver
    ensures Shows(cfg, bs, t', f.(dev := f.dev[j := BankRuns.Apply(p, BankRuns.Config(f.dev[j], f.now, []), e).bank]))
  {
    hide Holds, IsIdle, QueueId;
    HeldIs(cfg, bs, t.controller, f, j);
    var dev := BankRuns.Apply(p, BankRuns.Config(f.dev[j], f.now, []), e).bank;
    ChangesOne(cfg, bs, t.controller, f, j, f.sh[j], dev);
    var c := t.controller.channel;
    assert c.shadows[Id(cfg, bs[j]) := f.sh[j]] == c.shadows && f.sh[j := f.sh[j]] == f.sh;
    t' := T.Apply(p, cfg, interval, t, W.Event(Id(cfg, bs[j]), e));
    RestMoves(cfg, bs, t.controller.(channel := c.(devices := c.devices[Id(cfg, bs[j]) := dev])),
        f.(dev := f.dev[j := dev]),
              t'.controller, f.(dev := f.dev[j := dev]));
  }

  function Cleaned(f: Facts): Facts {
    f.(sh := seq(|f.sh|, j requires 0 <= j < |f.sh| => f.sh[j].(queue := Pending(f.sh[j].queue))), cleanupAt := None)
  }

  lemma Cleans(p: Timing, cfg: Config, interval: nat, bs: seq<nat>, t: T.State, f: Facts) returns (t': T.State)
    requires Used(cfg, bs) && Shows(cfg, bs, t, f) && f.cleanupAt == Some(f.now)
    ensures Links(p, cfg, interval, t, W.Cleanup, t') && Shows(cfg, bs, t', Cleaned(f)) && !t'.handingOver
  {
    hide QueueId;
    t' := T.Apply(p, cfg, interval, t, W.Cleanup);
    var c, c' := t.controller.channel, t'.controller.channel;
    forall j | 0 <= j < |bs| ensures Holds(cfg, bs[j], c', Cleaned(f).sh[j], f.dev[j]) {
      assert Holds(cfg, bs[j], c, f.sh[j], f.dev[j]);
    }
    forall k | 0 <= k < |c'.shadows| && Unused(cfg, bs, k) ensures IsIdle(cfg, c', k) { assert IsIdle(cfg, c, k); }
  }

  /** The host may hand transactions over. */
  ghost predicate HostsTurn(t: T.State, f: Facts) {
    t.handingOver
    || (f.cleanupAt != Some(f.now) && PulsesDone(f) && CompletionsDone(f) && f.now !in f.cycles && f.now !in f.wakes)
  }

  function Accepted(f: Facts, j: nat, r: Request): Facts
    requires j < |f.sh|
  {
    f.(queue := f.queue + [r], ids := r.id + 1,
       cycles := if Pending(f.sh[j].queue) == [] && f.now !in f.cycles then f.cycles + multiset{f.now} else f.cycles)
  }

  lemma Accepts(p: Timing, cfg: Config, interval: nat, bs: seq<nat>, t: T.State, f: Facts, j: nat, r: Request)
    returns (t': T.State)
    requires Used(cfg, bs) && Shows(cfg, bs, t, f) && HostsTurn(t, f) && f.cleanupAt != Some(f.now)
    requires j < |bs| && For(cfg, bs[j], r) && f.ids <= r.id && r.arrival == f.now
    ensures Links(p, cfg, interval, t, W.Accept(0, r), t') && Shows(cfg, bs, t', Accepted(f, j, r)) && t'.handingOver
  {
    hide Holds, IsIdle, QueueId, BankRuns.NothingBefore;
    HeldIs(cfg, bs, t.controller, f, j);
    if !t.handingOver { NothingPendsBefore(cfg, bs, t.controller, f, f.now + 1); }
    assert r.(arrival := f.now) == r;
    assert [f.queue][0 := f.queue + [r]] == [f.queue + [r]];
    t' := T.Apply(p, cfg, interval, t, W.Accept(0, r));
    RestMoves(cfg, bs, t.controller, f, t'.controller, Accepted(f, j, r));
  }

  // ---------------------------------------------------------------- refresh pulses

  /** Bank `bank` belongs to the refresh group that starts at `head`. */
  predicate Grouped(cfg: Config, head: nat, bank: nat) { head <= bank < head + cfg.perRefresh }

  /** The tables of a bank once a refresh was queued for its group. */
  ghost function Refreshed(cfg: Config, sh: Shadow, bank: nat, isHead: bool): Shadow {
    QueueRefresh(cfg, sh.(needRefresh := true), 0, bank, isHead).(needRefresh := false)
  }

  ghost function RefreshedAll(cfg: Config, bs: seq<nat>, sh: seq<Shadow>, head: nat): seq<Shadow>
    requires |sh| == |bs|
  {
    seq(|sh|, k requires 0 <= k < |sh| =>
      if Grouped(cfg, head, bs[k]) then Refreshed(cfg, sh[k], bs[k], bs[k] == head) else sh[k])
  }

  lemma InGroupIs(cfg: Config, head: nat, bank: nat)
    requires cfg.Valid() && head + cfg.perRefresh <= cfg.banks && bank < cfg.banks
    ensures Channel.InGroup(cfg, 0, head, Id(cfg, bank)) <==> Grouped(cfg, head, bank)
    ensures BankOf(cfg, Id(cfg, bank)) == bank && (Id(cfg, bank) == QueueId(cfg, 0, head) <==> bank == head)
  {
    Channel.BankOfQueueId(cfg, 0, bank);
    Channel.QueueIdIsBijective(cfg, 0, bank, 0, head);
    if Channel.InGroup(cfg, 0, head, Id(cfg, bank)) {
      var b: nat :| head <= b < head + cfg.perRefresh && Id(cfg, bank) == QueueId(cfg, 0, b);
      Channel.QueueIdIsBijective(cfg, 0, bank, 0, b);
    }
    if Grouped(cfg, head, bank) {
      assert head <= bank < head + cfg.perRefresh && Id(cfg, bank) == QueueId(cfg, 0, bank);
    }
  }

  lemma RefreshedInChannel(p: Timing, cfg: Config, c: Channel.State, head: nat)
    requires c.cleanupAt != Some(c.now) && Channel.IsGroup(cfg, 0, head)
    ensures var c' := W.Refreshed(p, cfg, c, 0, head);
      && c' == c.(shadows := c'.shadows) && |c'.shadows| == |c.shadows|
      && forall k | 0 <= k < |c.shadows| :: c'.shadows[k] ==
           if Channel.InGroup(cfg, 0, head, k) then
             Refreshed(cfg, c.shadows[k], BankOf(cfg, k), k == QueueId(cfg, 0, head))
           else c.shadows[k]
  {
    hide QueueRefresh, QueueId, BankOf, Channel.InGroup;
  }

  lemma RefreshedShape(cfg: Config, sh: Shadow, bank: nat, isHead: bool)
    ensures Sized(cfg, sh) ==> Sized(cfg, Refreshed(cfg, sh, bank, isHead))
    ensures !sh.activateQueued && !isHead ==>
      var sh' := Refreshed(cfg, sh, bank, isHead); sh'.queue == sh.queue && !sh'.activateQueued
  {}

  lemma RefreshTracks(p: Timing, cfg: Config, bs: seq<nat>, s: W.State, f: Facts, j: nat)
    requires Used(cfg, bs) && Tracks(cfg, bs, s, f) && f.cleanupAt != Some(f.now)
    requires j < |bs| && Channel.IsGroup(cfg, 0, bs[j])
    ensures Tracks(cfg, bs, s.(channel := W.Refreshed(p, cfg, s.channel, 0, bs[j])),
                   f.(sh := RefreshedAll(cfg, bs, f.sh, bs[j])))
  {
    hide QueueId, BankOf, Channel.InGroup, Refreshed, W.Refreshed;
    var c, c' := s.channel, W.Refreshed(p, cfg, s.channel, 0, bs[j]);
    var sh' := RefreshedAll(cfg, bs, f.sh, bs[j]);
    RefreshedInChannel(p, cfg, c, bs[j]);
    forall k | 0 <= k < |bs| ensures Holds(cfg, bs[k], c', sh'[k], f.dev[k]) {
      HeldIs(cfg, bs, s, f, k);
      InGroupIs(cfg, bs[j], bs[k]);
      RefreshedShape(cfg, f.sh[k], bs[k], bs[k] == bs[j]);
    }
    forall k | 0 <= k < |c'.shadows| && Unused(cfg, bs, k) ensures IsIdle(cfg, c', k) {
      assert IsIdle(cfg, c, k);
      assert k != Id(cfg, bs[j]);
      RefreshedShape(cfg, c.shadows[k], BankOf(cfg, k), k == QueueId(cfg, 0, bs[j]));
    }
  }

  function Pulsed(cfg: Config, interval: nat, f: Facts, sh: seq<Shadow>, g: nat, least: Option<nat>): Facts
    requires g < |f.pulseAt|
  {
    f.(sh := sh, wakes := f.wakes + W.WakeSet(W.Clipped(least, f.now)), handled := Some(f.now), ranAt := Some(f.now),
       pulseAt := f.pulseAt[g := f.now + interval])
  }

  /** A pulse that reaches the threshold queues a refresh for the group that starts at bank `j`. */
  lemma Pulses(p: Timing, cfg: Config, interval: nat, bs: seq<nat>, t: T.State, f: Facts, j: nat, least: Option<nat>)
    returns (t': T.State)
    requires Used(cfg, bs) && Shows(cfg, bs, t, f) && f.cleanupAt != Some(f.now) && CompletionsDone(f)
    requires cfg.useRefresh && cfg.refreshThreshold == 1 && j < |bs| && Channel.IsGroup(cfg, 0, bs[j])
    requires GroupIndex(cfg, 0, bs[j]) < |f.pulseAt| && f.pulseAt[GroupIndex(cfg, 0, bs[j])] == f.now
    requires AsksLeast(RefreshedAll(cfg, bs, f.sh, bs[j]), f.dev, least)
    ensures Links(p, cfg, interval, t, W.Pulse(0, bs[j]), t') && !t'.handingOver
    ensures Shows(cfg, bs, t', Pulsed(cfg, interval, f, RefreshedAll(cfg, bs, f.sh, bs[j]),
      GroupIndex(cfg, 0, bs[j]), least))
  {
    hide Holds, IsIdle, QueueId, BankRuns.NothingBefore, AsksLeast, RefreshedAll, W.NextWake, W.Refreshed;
    var s, g := t.controller, GroupIndex(cfg, 0, bs[j]);
    NothingPendsBefore(cfg, bs, s, f, f.now + 1);
    GroupInRange(cfg, 0, bs[j]);
    RefreshTracks(p, cfg, bs, s, f, j);
    RefreshKeepsRest(p, cfg, s.channel, bs[j]);
    var s1 := s.(channel := W.Refreshed(p, cfg, s.channel, 0, bs[j]));
    var f1 := f.(sh := RefreshedAll(cfg, bs, f.sh, bs[j]));
    NextWakeIs(cfg, bs, s1, f1, least);
    assert Over(cfg, s.delayed[g := s.delayed[g] + 1], g);
    t' := T.Apply(p, cfg, interval, t, W.Pulse(0, bs[j]));
    RestMoves(cfg, bs, s1, f1, t'.controller, Pulsed(cfg, interval, f, f1.sh, g, least));
  }

  lemma RefreshKeepsRest(p: Timing, cfg: Config, c: Channel.State, head: nat)
    requires c.cleanupAt != Some(c.now) && Channel.IsGroup(cfg, 0, head)
    ensures var c' := W.Refreshed(p, cfg, c, 0, head); c' == c.(shadows := c'.shadows)
  {}
}
