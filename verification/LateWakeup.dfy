/**
  When timings are not prompt: a run, by the timetable and under first-ready first-come-first-served
  scheduling, in which a command can be sent and the controller sleeps on.
 */
module LateWakeup {
  import opened Commands
  import opened ControllerSpec
  import opened RefreshSpec
  import opened Driving
  import opened Opening
  import W = Wakeups
  import T = Timetable
  import Channel
  import Bank = BankSpec
  import BankRuns

  /** How long a command `op` of `b` bursts keeps its row open. */
  function KeepsOpen(p: Timing, op: Op, b: positive): int {
    if op.Read? then p.Span(b - 1) + p.al + p.burst + p.rtp - p.ccd
    else p.Span(b - 1) + p.al + p.cwd + p.burst + p.wr
  }

  /**
    The first bank of a refresh group and two banks outside of it have row 0 open, and nothing else
    goes on. The precharge behind a command `op` of `b` bursts for the first bank will be late; reads
    of `n` bursts keep the other two banks busy.
   */
  datatype Scene = Scene(p: Timing, cfg: Config, interval: nat, f: Facts, op: Op, b: positive, n: positive)
  {
    function Banks(): seq<nat> { [0, cfg.perRefresh, cfg.perRefresh + 1] }

    function Make(k: nat, op: Op, j: nat, bursts: positive, at: nat): Request
      requires j < 3
    {
      Transaction(f.ids + k, op, Banks()[j], bursts, at)
    }

    // the transactions of the run, in the order in which they come
    function Long1(): Request { Make(0, Op.Read, 1, n, f.now) }
    function Long2(): Request { Make(1, Op.Read, 2, n, f.now) }
    function Column(): Request { Make(2, op, 0, b, f.now) }
    function Short1(): Request { Make(3, Op.Read, 1, 1, f.now) }
    function Short2(): Request { Make(4, Op.Read, 2, 1, f.now) }
    function Extra0(): Request { Make(5, Op.Read, 0, 1, f.now + 2) }
    function Extra2(): Request { Make(6, Op.Read, 2, 1, f.now + 3) }

    /** What the refresh pulse queues behind the column command. */
    function Closing(): Request { MakeCommand(Op.PrechargeAll, 0, 0, 0, 0) }
    function Refreshing(): Request { MakeCommand(Op.Refresh, 0, 0, 0, 0) }

    /** The banks after the reads and after the column command. */
    ghost function Device(j: nat, r: Request, at: nat): Bank.State
      requires j < |f.dev| && Bank.Routed(f.dev[j], r)
    {
      Bank.IssueCommand(p, f.dev[j], r, Moment(at, 0, NotBounced)).state
    }

    /** A pulse is due in three cycles; until then and for some time after it there is no other. */
    ghost predicate Valid(d: nat) {
      && cfg.Valid() && cfg.useRefresh && cfg.closePage == 0 && cfg.refreshThreshold == 1
        && cfg.perRefresh + 2 <= cfg.banks
      && Calm(cfg, Banks(), f) && Serve() && (op.Read? || (op.Write? && !p.pausing))
      && 0 < |f.pulseAt| && f.pulseAt[0] == f.now + 3 && 1 + d < interval
      && (forall g | 0 < g < |f.pulseAt| :: f.now + 4 + d < f.pulseAt[g])
      && 1 <= d < p.Span(b) && d + 3 < p.Span(n) && KeepsOpen(p, op, b) <= d
    }

    ghost predicate Serve() {
      |f.sh| == |f.dev| == 3 && forall j | 0 <= j < 3 ::
        Sized(cfg, f.sh[j]) && f.sh[j].queue == [] && IsServing(cfg, f.sh[j], f.dev[j], f.now)
        && !f.sh[j].needRefresh && !f.sh[j].refreshQueued
    }
  }

  // ---------------------------------------------------------------- tables and heads

  /** Row 0 is open in the tables. */
  ghost predicate Serves(cfg: Config, sh: Shadow) {
    && Sized(cfg, sh) && sh.activateQueued && sh.active[0] && sh.row[0] == 0 && sh.mux[0] == 0
    && !sh.needRefresh && !sh.refreshQueued
  }

  /** The tables once another hit was scheduled. */
  function Hit(sh: Shadow, queue: seq<Request>): Shadow
    requires |sh.starvation| > 0
  {
    sh.(starvation := sh.starvation[0 := sh.starvation[0] + 1], queue := queue)
  }

  lemma HitIsExpanded(cfg: Config, sh: Shadow, r: Request)
    requires Serves(cfg, sh) && sh.queue == [] && Plain(r)
    ensures Expanded(cfg, sh, r) == Hit(sh, [r]) && Serves(cfg, Hit(sh, [r]))
    ensures forall now: nat | now != r.arrival :: Selects(cfg, RowBufferHit, sh, r, now)
  {
    assert 0 / cfg.rowBuffer == 0;
  }

  /** Every transaction that waits is for row 0 of one of the banks. */
  predicate AllPlain(cfg: Config, bs: seq<nat>, queue: seq<Request>) {
    ForUsed(cfg, bs, queue) && forall i | 0 <= i < |queue| :: Plain(queue[i])
  }

  lemma NoneStarves(cfg: Config, bs: seq<nat>, f: Facts)
    requires |f.sh| == |bs| && AllPlain(cfg, bs, f.queue)
    requires forall j | 0 <= j < |bs| :: Sized(cfg, f.sh[j]) && (f.sh[j].queue != [] || Serves(cfg, f.sh[j]))
    ensures NoneSelected(cfg, bs, f, Starved)
  {
    assert 0 / cfg.rowBuffer == 0;
  }

  // ---------------------------------------------------------------- the states of the run

  function Turned(cfg: Config, cur: nat): nat { if cur + 1 > cfg.ranks * cfg.banks then 0 else cur + 1 }

  function Marked(r: Request): Request { r.(issued := true) }

  /** The host has handed over five transactions in the previous cycle. */
  ghost function Told(s: Scene): Facts {
    s.f.(queue := [s.Long1(), s.Long2(), s.Column(), s.Short1(), s.Short2()], ids := s.f.ids + 5,
         cycles := multiset{s.f.now + 1}, now := s.f.now + 1, ranAt := Some(s.f.now))
  }

  /** The first long read was sent in the previous cycle. */
  ghost function Sent1(s: Scene): Facts
    requires s.Serve()
  {
    s.f.(queue := [s.Long2(), s.Column(), s.Short1(), s.Short2()], ids := s.f.ids + 5,
         sh := s.f.sh[1 := Hit(s.f.sh[1], [])], dev := s.f.dev[1 := s.Device(1, s.Long1(), s.f.now + 1)],
         now := s.f.now + 2, lastIssue := s.f.now + 1, wakes := {s.f.now + 2}, cycles := multiset{s.f.now + 2},
         ranAt := Some(s.f.now + 1), cur := Turned(s.cfg, s.f.cur))
  }

  /** When the second long read asks to be tried again. */
  function Asked2(s: Scene): nat { s.f.now + 2 + s.p.Span(s.n) }

  ghost function Devices2(s: Scene): seq<Bank.State>
    requires s.Serve()
  {
    [s.f.dev[0], s.Device(1, s.Long1(), s.f.now + 1), s.Device(2, s.Long2(), s.f.now + 2)]
  }

  /** The second long read was sent in this cycle. */
  ghost function Sent2(s: Scene): Facts
    requires s.Serve()
  {
    s.f.(queue := [s.Column(), s.Short1(), s.Short2()], ids := s.f.ids + 5,
         sh := [s.f.sh[0], Hit(s.f.sh[1], []), Hit(s.f.sh[2], [Marked(s.Long2())])], dev := Devices2(s),
         now := s.f.now + 2, lastIssue := s.f.now + 2, cleanupAt := Some(s.f.now + 3),
         wakes := {s.f.now + 2, s.f.now + 3}, cycles := multiset{s.f.now + 3},
         ranAt := Some(s.f.now + 2), cur := Turned(s.cfg, Turned(s.cfg, s.f.cur)))
  }

  /** A cycle event after it has queued the column command. */
  ghost function Waiting(s: Scene): Facts
    requires s.Serve()
  {
    Sent2(s).(queue := [s.Short1(), s.Short2(), s.Extra0()], ids := s.f.ids + 6,
              sh := [Hit(s.f.sh[0], [s.Column()]), Hit(s.f.sh[1], []), Hit(s.f.sh[2], [Marked(s.Long2())])],
              wakes := {s.f.now + 3, Asked2(s)})
  }

  /** The refresh pulse has queued its commands behind the column command. */
  ghost function Pulsing(s: Scene): Facts
    requires s.Serve() && 0 < |s.f.pulseAt|
  {
    Waiting(s).(sh := [Held(s), Hit(s.f.sh[1], []), Hit(s.f.sh[2], [])], now := s.f.now + 3, cleanupAt := None,
                wakes := {s.f.now + 3, Asked2(s), s.f.now + 4}, handled := Some(s.f.now + 3),
                ranAt := Some(s.f.now + 3), pulseAt := s.f.pulseAt[0 := s.f.now + 3 + s.interval])
  }

  /** The tables of the first bank after the pulse. */
  ghost function Held(s: Scene): Shadow
    requires s.Serve()
  {
    Refreshed(s.cfg, Hit(s.f.sh[0], [s.Column()]), 0, true)
  }

  /** In the cycle of the pulse, one cycle event has queued one short read, and another one the other. */
  ghost function Queueing(s: Scene): Facts
    requires s.Serve() && 0 < |s.f.pulseAt|
  {
    Pulsing(s).(queue := [s.Extra0(), s.Extra2()], ids := s.f.ids + 7,
                sh := [Held(s), Twice(s.f.sh[1], s.Short1()), Twice(s.f.sh[2], s.Short2())],
                wakes := {Asked2(s), s.f.now + 4}, cycles := multiset{s.f.now + 4})
  }

  function Twice(sh: Shadow, r: Request): Shadow
    requires |sh.starvation| > 0
  {
    Hit(Hit(sh, []), [r])
  }

  /** The column command was sent, and the callback of that cycle has run after it. */
  ghost function Asleep(s: Scene, least: nat): Facts
    requires s.Serve() && 0 < |s.f.pulseAt|
  {
    Queueing(s).(sh := [Held(s).(queue := [Marked(s.Column()), s.Closing(), s.Refreshing()]),
                        Twice(s.f.sh[1], s.Short1()), Twice(s.f.sh[2], s.Short2())],
                 dev := Devices2(s)[0 := s.Device(0, s.Column(), s.f.now + 4)],
                 now := s.f.now + 4, lastIssue := s.f.now + 4, cleanupAt := Some(s.f.now + 5),
                 wakes := {Asked2(s), least}, cycles := multiset{}, ranAt := Some(s.f.now + 4),
                 cur := Turned(s.cfg, Turned(s.cfg, Turned(s.cfg, s.f.cur))))
  }

  // ---------------------------------------------------------------- the host

  /** The host hands over `rs`, each for one of the banks, once a cycle event is scheduled. */
  lemma {:induction false} AcceptsAll(p: Timing, cfg: Config, interval: nat, bs: seq<nat>, t: T.State, f: Facts,
                                      rs: seq<Request>)
    returns (steps: seq<W.Step>, t': T.State)
    requires Used(cfg, bs) && Shows(cfg, bs, t, f) && t.handingOver && f.cleanupAt != Some(f.now) && f.now in f.cycles
    requires |f.sh| == |bs| && ForUsed(cfg, bs, rs)
    requires forall i | 0 <= i < |rs| :: rs[i].id == f.ids + i && rs[i].arrival == f.now
    ensures Runs(p, cfg, interval, t, steps, t') && Shows(cfg, bs, t', f.(queue := f.queue + rs, ids := f.ids + |rs|))
    decreases |rs|
  {
    hide Runs, Links, Tracks, Used;
    if rs == [] {
      assert f.queue + rs == f.queue;
      steps, t' := [], t;
      RunsNone(p, cfg, interval, t);
    } else {
      var j :| 0 <= j < |bs| && For(cfg, bs[j], rs[0]);
      var t1 := Accepts(p, cfg, interval, bs, t, f, j, rs[0]);
      var f1 := f.(queue := f.queue + [rs[0]], ids := f.ids + 1);
      var more;
      more, t' := AcceptsAll(p, cfg, interval, bs, t1, f1, rs[1..]);
      assert f.queue + [rs[0]] + rs[1..] == f.queue + rs;
      RunsOne(p, cfg, interval, t, W.Accept(0, rs[0]), t1);
      RunsOn(p, cfg, interval, t, [W.Accept(0, rs[0])], t1, more, t');
      steps := [W.Accept(0, rs[0])] + more;
    }
  }

  lemma TransactionsAre(s: Scene, d: nat)
    requires s.Valid(d)
    ensures For(s.cfg, s.Banks()[1], s.Long1()) && For(s.cfg, s.Banks()[1], s.Short1())
    ensures For(s.cfg, s.Banks()[2], s.Long2()) && For(s.cfg, s.Banks()[2], s.Short2())
    ensures For(s.cfg, s.Banks()[2], s.Extra2()) && For(s.cfg, s.Banks()[0], s.Extra0())
    ensures For(s.cfg, s.Banks()[0], s.Column())
    ensures AllPlain(s.cfg, s.Banks(), [s.Long1(), s.Long2(), s.Column(), s.Short1(), s.Short2()])
    ensures AllPlain(s.cfg, s.Banks(), [s.Long2(), s.Column(), s.Short1(), s.Short2()])
    ensures AllPlain(s.cfg, s.Banks(), [s.Column(), s.Short1(), s.Short2(), s.Extra0()])
    ensures AllPlain(s.cfg, s.Banks(), [s.Short1(), s.Short2(), s.Extra0()])
    ensures AllPlain(s.cfg, s.Banks(), [s.Short2(), s.Extra0(), s.Extra2()])
    ensures AllPlain(s.cfg, s.Banks(), [s.Extra0(), s.Extra2()])
    ensures forall j | 0 <= j < 3 :: Serves(s.cfg, s.f.sh[j]) && |s.f.dev[j].subs| == s.cfg.subarrays
  {}

  lemma TellsFive(s: Scene, d: nat, t: T.State) returns (steps: seq<W.Step>, t': T.State)
    requires s.Valid(d) && Shows(s.cfg, s.Banks(), t, s.f)
    ensures Runs(s.p, s.cfg, s.interval, t, steps, t')
    ensures Shows(s.cfg, s.Banks(), t', Told(s).(now := s.f.now, ranAt := s.f.ranAt, cycles := multiset{s.f.now}))
  {
    hide Runs, Links, Tracks, Resting, IsServing, BankRuns.NothingBefore;
    TransactionsAre(s, d);
    RestsQuietly(s.cfg, s.Banks(), s.f, s.f.now + 1);
    var bs, rs := s.Banks(), [s.Long2(), s.Column(), s.Short1(), s.Short2()];
    var t1 := Accepts(s.p, s.cfg, s.interval, bs, t, s.f, 1, s.Long1());
    var f1 := s.f.(queue := [s.Long1()], ids := s.f.ids + 1, cycles := multiset{s.f.now});
    assert s.f.queue + [s.Long1()] == [s.Long1()] && s.f.cycles + multiset{s.f.now} == multiset{s.f.now};
    assert Accepted(s.f, 1, s.Long1()) == f1;
    var more;
    more, t' := AcceptsAll(s.p, s.cfg, s.interval, bs, t1, f1, rs);
    RunsOne(s.p, s.cfg, s.interval, t, W.Accept(0, s.Long1()), t1);
    RunsOn(s.p, s.cfg, s.interval, t, [W.Accept(0, s.Long1())], t1, more, t');
    steps := [W.Accept(0, s.Long1())] + more;
    assert [s.Long1()] + rs == Told(s).queue;
  }

  /** All transactions are for banks that are busy, or have come in this cycle. */
  ghost predicate Unready(cfg: Config, bs: seq<nat>, f: Facts)
    requires |f.sh| == |bs|
  {
    && (forall j | 0 <= j < |bs| :: Sized(cfg, f.sh[j]))
    && forall i, j | 0 <= i < |f.queue| && 0 <= j < |bs| && For(cfg, bs[j], f.queue[i]) ::
         f.sh[j].queue != [] || f.queue[i].arrival == f.now
  }

  lemma UnreadyIsNotSelected(cfg: Config, bs: seq<nat>, f: Facts)
    requires |f.sh| == |bs| && Unready(cfg, bs, f)
    ensures forall sel :: NoneSelected(cfg, bs, f, sel)
  {}

  /** Five transactions have come, and the cycle event has found them too young. */
  lemma Tells(s: Scene, d: nat, t: T.State) returns (steps: seq<W.Step>, t': T.State)
    requires s.Valid(d) && Shows(s.cfg, s.Banks(), t, s.f)
    ensures Runs(s.p, s.cfg, s.interval, t, steps, t') && Shows(s.cfg, s.Banks(), t', Told(s)) && !t'.handingOver
  {
    hide Runs, Links, Tracks, Resting, IsServing, BankRuns.NothingBefore, NoneSelected, HeadsAtHome, Serves, Sized;
    hide Again;
    TransactionsAre(s, d);
    var bs := s.Banks();
    var s1, t1 := TellsFive(s, d, t);
    var f1 := Told(s).(now := s.f.now, ranAt := s.f.ranAt, cycles := multiset{s.f.now});
    UnreadyIsNotSelected(s.cfg, bs, f1);
    NoHeads(s.p, s.cfg, bs, f1);
    var t2 := CyclesIdly(s.p, s.cfg, s.interval, bs, t1, f1);
    ToldGoesOn(s, d, f1);
    RestsQuietly(s.cfg, bs, s.f, s.f.now + 1);
    t' := Passes(s.p, s.cfg, s.interval, bs, t2, Told(s).(now := s.f.now), s.f.now + 1);
    Then(s.p, s.cfg, s.interval, t, s1, t1, W.Cycle(None, 0, NotBounced), t2);
    Then(s.p, s.cfg, s.interval, t, s1 + [W.Cycle(None, 0, NotBounced)], t2, W.Advance(s.f.now + 1), t');
    steps := s1 + [W.Cycle(None, 0, NotBounced)] + [W.Advance(s.f.now + 1)];
  }

  lemma ToldGoesOn(s: Scene, d: nat, f1: Facts)
    requires s.Valid(d) && f1 == Told(s).(now := s.f.now, ranAt := s.f.ranAt, cycles := multiset{s.f.now})
    ensures Again(s.cfg, s.Banks(), Begun(f1)) == Told(s).(now := s.f.now)
  {
    TransactionsAre(s, d);
    assert multiset{s.f.now} - multiset{s.f.now} + multiset{s.f.now + 1} == multiset{s.f.now + 1};
    assert Begun(f1).queue[0] == s.Long1() && Pending(f1.sh[1].queue) == [];
    assert Waits(s.cfg, s.Banks(), Begun(f1));
  }

  // ---------------------------------------------------------------- row buffer hits

  /** The first transaction is a hit in bank `j`, which is idle, and was not handed over in this cycle. */
  ghost predicate HitIsFirst(p: Timing, cfg: Config, bs: seq<nat>, f: Facts, j: nat)
    requires |f.sh| == |f.dev| == |bs|
  {
    && cfg.closePage == 0 && Used(cfg, bs) && AllPlain(cfg, bs, f.queue) && f.queue != [] && j < |bs|
    && For(cfg, bs[j], f.queue[0]) && (p.pausing ==> f.queue[0].op.Read?) && f.queue[0].arrival != f.now
    && (forall k | 0 <= k < |bs| :: Serves(cfg, f.sh[k]) || (Sized(cfg, f.sh[k]) && f.sh[k].queue != []))
    && Serves(cfg, f.sh[j]) && f.sh[j].queue == [] && (forall k | 0 <= k < |bs| :: |f.dev[k].subs| == cfg.subarrays)
    && RowIsOpen(f.dev[j], cfg.subarrays) && Rested(f.dev[j].subs[0])
  }

  lemma HitIsPicked(p: Timing, cfg: Config, bs: seq<nat>, f: Facts, j: nat)
    requires |f.sh| == |f.dev| == |bs| && HitIsFirst(p, cfg, bs, f, j)
    ensures forall k | 0 <= k < |bs| :: Sized(cfg, f.sh[k])
    ensures PicksFirst(p, cfg, bs, f, j, RowBufferHit)
    ensures Expanded(cfg, f.sh[j], f.queue[0]) == Hit(f.sh[j], [f.queue[0]])
  {
    hide Selects;
    HitIsExpanded(cfg, f.sh[j], f.queue[0]);
    NoneStarves(cfg, bs, f);
  }

  /** When no other bank has anything queued, the hit is sent at once. */
  lemma HitIsReady(p: Timing, cfg: Config, bs: seq<nat>, f: Facts, j: nat) returns (least: nat)
    requires |f.sh| == |f.dev| == |bs| && HitIsFirst(p, cfg, bs, f, j) && ColumnsReady(f.dev[j], cfg.subarrays, f.now)
    requires f.now in f.cycles && f.cleanupAt != Some(f.now) && Driving.PulsesDone(f)
    ensures MayCycle(cfg, bs, f)
    requires (forall k | 0 <= k < |bs| :: f.sh[k].queue == []) && f.handled != Some(f.now) && f.lastIssue != f.now
    ensures PicksFirst(p, cfg, bs, f, j, RowBufferHit)
    ensures Expanded(cfg, f.sh[j], f.queue[0]) == Hit(f.sh[j], [f.queue[0]])
    ensures least <= f.now && AsksLeast(f.sh[j := Expanded(cfg, f.sh[j], f.queue[0])], f.dev, Some(least))
    ensures SendsOnly(p, bs, Queued(cfg, Begun(f), j, Some(least)), j)
    ensures HeadsAtHome(cfg, bs, Queued(cfg, Begun(f), j, Some(least)))
  {
    hide Expanded, PicksFirst, Serves;
    HitIsPicked(p, cfg, bs, f, j);
    var r := f.queue[0];
    assert Plain(r);
    least := Bank.NextIssuable(f.dev[j], r);
    assert HeadAsk(f.sh[j := Expanded(cfg, f.sh[j], r)][j], f.dev[j]) == Some(least);
    assert Bank.IsIssuable(p, f.dev[j], r, f.now);
    hide Bank.NextIssuable, Bank.IsIssuable;
    NoHeads(p, cfg, bs, f);
  }

  // ---------------------------------------------------------------- the two long reads

  /** A transaction that waits for bank `j`. */
  lemma WaitsFor(cfg: Config, bs: seq<nat>, queue: seq<Request>, i: nat, j: nat)
    requires i < |queue| && j < |bs| && For(cfg, bs[j], queue[i])
    ensures W.Available(cfg, [queue], Id(cfg, bs[j]))
  {
    assert IdOf(cfg, [queue][0][i]) == Id(cfg, bs[j]);
  }

  lemma FirstIsSent(s: Scene, d: nat, least: nat, sent: Facts)
    requires s.Valid(d) && least <= s.f.now + 1 && var f := Told(s);
      && Expanded(s.cfg, f.sh[1], f.queue[0]) == Hit(f.sh[1], [f.queue[0]])
      && SendsOnly(s.p, s.Banks(), Queued(s.cfg, Begun(f), 1, Some(least)), 1)
      && sent == Sent(s.p, s.cfg, s.Banks(), Queued(s.cfg, Begun(f), 1, Some(least)), 1)
    ensures Again(s.cfg, s.Banks(), sent) == sent && Cleaned(sent.(now := s.f.now + 2)) == Sent1(s)
    ensures sent.cleanupAt == Some(s.f.now + 2) && sent.wakes == {s.f.now + 2} && sent.cycles == multiset{s.f.now + 2}
    ensures sent.dev == Sent1(s).dev && sent.pulseAt == s.f.pulseAt && sent.now == s.f.now + 1
  {
    hide Expanded, Bank.IssueCommand, Bank.IsIssuable, IsReady, W.Available, IsServing, Resting, Waits, For, Plain;
    TransactionsAre(s, d);
    WaitsFor(s.cfg, s.Banks(), [s.Long2(), s.Column(), s.Short1(), s.Short2()], 2, 1);
    assert multiset{s.f.now + 1} - multiset{s.f.now + 1} + multiset{s.f.now + 2} == multiset{s.f.now + 2};
    assert {} + {s.f.now + 2} == {s.f.now + 2};
    assert MarkIssued([s.Long1()]) == [Marked(s.Long1())];
    assert Cleaned(sent).sh == s.f.sh[1 := Hit(s.f.sh[1], [])];
  }

  /** The banks after a long read: it asks to be tried again much later, and so does the next read. */
  lemma AfterLong(s: Scene, d: nat, j: nat, r: Request, at: nat)
    requires s.Valid(d) && 1 <= j < 3 && Plain(r) && r.op.Read? && r.bursts == s.n && s.f.now <= at
    ensures Bank.Routed(s.f.dev[j], r)
    ensures var dev := s.Device(j, r, at);
      && |dev.subs| == s.cfg.subarrays && RowIsOpen(dev, s.cfg.subarrays) && Rested(dev.subs[0])
      && forall q: Request | q.op.Read? && q.subarray == 0 ::
           && Bank.Routed(dev, q) && Bank.NextIssuable(dev, q) == at + s.p.Span(s.n)
           && forall now: nat | now < at + s.p.Span(s.n) :: !Bank.IsIssuable(s.p, dev, q, now)
  {
    hide Bank.IssueCommand;
    var dev := ColumnOnOpen(s.p, s.f.dev[j], s.cfg.subarrays, s.f.now, r, at);
  }

  lemma RowRests(dev: Bank.State, n: nat, to: nat)
    requires RowIsOpen(dev, n) && Rested(dev.subs[0])
    ensures forall x | 0 <= x < |dev.subs| :: BankRuns.NothingBefore(dev.subs[x], to)
  {}

  /** No bank has a completion pending while only reads were sent. */
  lemma AllRest(s: Scene, d: nat, to: nat)
    requires s.Valid(d)
    ensures forall j | 0 <= j < 3 :: forall x | 0 <= x < |s.f.dev[j].subs| ::
      BankRuns.NothingBefore(s.f.dev[j].subs[x], to)
    ensures forall j | 0 <= j < 3 :: forall x | 0 <= x < |Sent1(s).dev[j].subs| ::
      BankRuns.NothingBefore(Sent1(s).dev[j].subs[x], to)
    ensures forall j | 0 <= j < 3 :: |Sent1(s).dev[j].subs| == |Devices2(s)[j].subs| == s.cfg.subarrays
    ensures forall j | 0 <= j < 3 :: forall x | 0 <= x < |Devices2(s)[j].subs| ::
      BankRuns.NothingBefore(Devices2(s)[j].subs[x], to)
    ensures forall j | 0 <= j < 3 :: RowIsOpen(Devices2(s)[j], s.cfg.subarrays) && Rested(Devices2(s)[j].subs[0])
  {
    hide Bank.IssueCommand, BankRuns.NothingBefore, Resting;
    RestsQuietly(s.cfg, s.Banks(), s.f, to);
    AfterLong(s, d, 1, s.Long1(), s.f.now + 1);
    AfterLong(s, d, 2, s.Long2(), s.f.now + 2);
    RowRests(s.Device(1, s.Long1(), s.f.now + 1), s.cfg.subarrays, to);
    RowRests(s.Device(2, s.Long2(), s.f.now + 2), s.cfg.subarrays, to);
  }

  /** The first long read is scheduled, sent and cleaned up. */
  lemma SendsFirst(s: Scene, d: nat, t: T.State) returns (steps: seq<W.Step>, t': T.State)
    requires s.Valid(d) && Shows(s.cfg, s.Banks(), t, Told(s))
    ensures Runs(s.p, s.cfg, s.interval, t, steps, t') && Shows(s.cfg, s.Banks(), t', Sent1(s)) && !t'.handingOver
  {
    hide Runs, Links, Shows, Resting, BankRuns.NothingBefore, MayCycle, Again, PicksFirst, SendsOnly, AsksLeast;
    hide Bank.IssueCommand, Expanded, Sent, Cleaned, IsServing, HeadsAtHome, W.Available;
    TransactionsAre(s, d);
    var bs, f := s.Banks(), Told(s);
    var least := FirstIsNext(s, d);
    var t1 := CyclesToScheduleAndSend(s.p, s.cfg, s.interval, bs, t, f, 1, RowBufferHit, Some(least));
    var sent := Sent(s.p, s.cfg, bs, Queued(s.cfg, Begun(f), 1, Some(least)), 1);
    FirstIsSent(s, d, least, sent);
    AllRest(s, d, s.f.now + 2);
    var t2 := Passes(s.p, s.cfg, s.interval, bs, t1, sent, s.f.now + 2);
    t' := Cleans(s.p, s.cfg, s.interval, bs, t2, sent.(now := s.f.now + 2));
    var cycle := W.Cycle(Some(W.Choice(0, RowBufferHit, false)), 0, NotBounced);
    ThreeRun(s.p, s.cfg, s.interval, t, cycle, t1, W.Advance(s.f.now + 2), t2, W.Cleanup, t');
    steps := [cycle, W.Advance(s.f.now + 2), W.Cleanup];
  }

  lemma FirstIsNext(s: Scene, d: nat) returns (least: nat)
    requires s.Valid(d)
    ensures MayCycle(s.cfg, s.Banks(), Told(s)) && Bank.Routed(s.f.dev[1], s.Long1()) && least <= s.f.now + 1
    ensures forall k | 0 <= k < 3 :: Sized(s.cfg, Told(s).sh[k]) && |Told(s).dev[k].subs| == s.cfg.subarrays
    ensures var f := Told(s);
      && PicksFirst(s.p, s.cfg, s.Banks(), f, 1, RowBufferHit)
      && Expanded(s.cfg, f.sh[1], f.queue[0]) == Hit(f.sh[1], [f.queue[0]])
      && AsksLeast(f.sh[1 := Expanded(s.cfg, f.sh[1], f.queue[0])], f.dev, Some(least))
      && SendsOnly(s.p, s.Banks(), Queued(s.cfg, Begun(f), 1, Some(least)), 1)
      && HeadsAtHome(s.cfg, s.Banks(), Queued(s.cfg, Begun(f), 1, Some(least)))
  {
    hide Expanded, PicksFirst, SendsOnly, AsksLeast, MayCycle, HeadsAtHome, Resting, For, Plain;
    TransactionsAre(s, d);
    least := HitIsReady(s.p, s.cfg, s.Banks(), Told(s), 1);
  }

  lemma SecondIsNext(s: Scene, d: nat) returns (least: nat)
    requires s.Valid(d)
    ensures MayCycle(s.cfg, s.Banks(), Sent1(s)) && Bank.Routed(s.f.dev[2], s.Long2()) && least <= s.f.now + 2
    ensures forall k | 0 <= k < 3 :: Sized(s.cfg, Sent1(s).sh[k]) && |Sent1(s).dev[k].subs| == s.cfg.subarrays
    ensures var f := Sent1(s);
      && PicksFirst(s.p, s.cfg, s.Banks(), f, 2, RowBufferHit)
      && Expanded(s.cfg, f.sh[2], f.queue[0]) == Hit(f.sh[2], [f.queue[0]])
      && AsksLeast(f.sh[2 := Expanded(s.cfg, f.sh[2], f.queue[0])], f.dev, Some(least))
      && SendsOnly(s.p, s.Banks(), Queued(s.cfg, Begun(f), 2, Some(least)), 2)
      && HeadsAtHome(s.cfg, s.Banks(), Queued(s.cfg, Begun(f), 2, Some(least)))
  {
    hide Expanded, PicksFirst, SendsOnly, AsksLeast, MayCycle, HeadsAtHome, Resting, For, Plain, Bank.IssueCommand;
    TransactionsAre(s, d);
    AllRest(s, d, 0);
    least := HitIsReady(s.p, s.cfg, s.Banks(), Sent1(s), 2);
  }

  lemma SecondIsSent(s: Scene, d: nat, least: nat, sent: Facts)
    requires s.Valid(d) && least <= s.f.now + 2 && var f := Sent1(s);
      && Expanded(s.cfg, f.sh[2], f.queue[0]) == Hit(f.sh[2], [f.queue[0]])
      && SendsOnly(s.p, s.Banks(), Queued(s.cfg, Begun(f), 2, Some(least)), 2)
      && sent == Sent(s.p, s.cfg, s.Banks(), Queued(s.cfg, Begun(f), 2, Some(least)), 2)
    ensures Again(s.cfg, s.Banks(), sent) == sent == Sent2(s)
  {
    hide Expanded, Bank.IssueCommand, Bank.IsIssuable, IsReady, W.Available, IsServing, Resting, For, Plain, Waits;
    TransactionsAre(s, d);
    WaitsFor(s.cfg, s.Banks(), [s.Column(), s.Short1(), s.Short2()], 2, 2);
    assert multiset{s.f.now + 2} - multiset{s.f.now + 2} + multiset{s.f.now + 3} == multiset{s.f.now + 3};
    assert {s.f.now + 2} + {s.f.now + 3} == {s.f.now + 2, s.f.now + 3};
    assert MarkIssued([s.Long2()]) == [Marked(s.Long2())];
    assert sent.sh == Sent2(s).sh && sent.dev == Sent2(s).dev;
  }

  /** So is the second one, in the next cycle. */
  lemma SendsSecond(s: Scene, d: nat, t: T.State) returns (steps: seq<W.Step>, t': T.State)
    requires s.Valid(d) && Shows(s.cfg, s.Banks(), t, Sent1(s))
    ensures Runs(s.p, s.cfg, s.interval, t, steps, t') && Shows(s.cfg, s.Banks(), t', Sent2(s)) && !t'.handingOver
  {
    hide Runs, Links, Shows, Resting, MayCycle, Again, PicksFirst, SendsOnly, AsksLeast;
    hide Bank.IssueCommand, Expanded, Sent, IsServing, HeadsAtHome, W.Available;
    TransactionsAre(s, d);
    var f := Sent1(s);
    var least := SecondIsNext(s, d);
    t' := CyclesToScheduleAndSend(s.p, s.cfg, s.interval, s.Banks(), t, f, 2, RowBufferHit, Some(least));
    SecondIsSent(s, d, least, Sent(s.p, s.cfg, s.Banks(), Queued(s.cfg, Begun(f), 2, Some(least)), 2));
    var cycle := W.Cycle(Some(W.Choice(0, RowBufferHit, false)), 0, NotBounced);
    RunsOne(s.p, s.cfg, s.interval, t, cycle, t');
    steps := [cycle];
  }

  // ---------------------------------------------------------------- the column command waits

  /** The second long read asks to be tried again much later. */
  lemma SecondAsks(s: Scene, d: nat)
    requires s.Valid(d)
    ensures AsksLeast(Sent2(s).sh, Sent2(s).dev, Some(Asked2(s)))
  {
    hide Bank.IssueCommand, Bank.NextIssuable, IsServing, Calm;
    AfterLong(s, d, 2, s.Long2(), s.f.now + 2);
    assert HeadAsk(Sent2(s).sh[2], Sent2(s).dev[2]) == Some(Asked2(s));
  }

  lemma SecondMayWake(s: Scene, d: nat)
    requires s.Valid(d)
    ensures MayWake(s.cfg, s.Banks(), Sent2(s))
    ensures Woken(Sent2(s), Some(Asked2(s))) == Sent2(s).(wakes := {s.f.now + 3, Asked2(s)})
  {
    hide Bank.IssueCommand, BankRuns.NothingBefore, IsServing, Resting;
    AllRest(s, d, s.f.now + 3);
    assert {s.f.now + 2, s.f.now + 3} - {s.f.now + 2} + {Asked2(s)} == {s.f.now + 3, Asked2(s)};
  }

  /** When the column command could be sent, were nothing in its way. */
  ghost function Asked0(s: Scene): nat
    requires s.Serve()
  {
    Bank.NextIssuable(s.f.dev[0], s.Column())
  }

  lemma ColumnIsAsked(s: Scene, d: nat)
    requires s.Valid(d)
    ensures Bank.Routed(s.f.dev[0], s.Column()) && Asked0(s) <= s.f.now
  {}

  /** While the column command is at the head of its queue, no other head asks for an earlier cycle. */
  lemma ColumnAsksFirst(s: Scene, d: nat, sh: seq<Shadow>, f: Facts)
    requires s.Valid(d) && |sh| == 3 && sh[0].queue != [] && sh[0].queue[0] == s.Column() && f.sh == sh
    requires forall j | 1 <= j < 3 && sh[j].queue != [] ::
      var r := sh[j].queue[0]; r.op.Read? && r.subarray == 0 && r.rank == 0 && r.bank == s.Banks()[j]
    ensures AsksLeast(sh, Devices2(s), Some(Asked0(s))) && HeadsAtHome(s.cfg, s.Banks(), f)
  {
    hide Bank.IssueCommand, Bank.IsIssuable, Bank.NextIssuable, RowIsOpen, IsServing, Resting;
    AfterLong(s, d, 1, s.Long1(), s.f.now + 1);
    AfterLong(s, d, 2, s.Long2(), s.f.now + 2);
    ColumnIsAsked(s, d);
    assert HeadAsk(sh[0], Devices2(s)[0]) == Some(Asked0(s));
    forall j | 1 <= j < 3 && sh[j].queue != []
      ensures HeadAsk(sh[j], Devices2(s)[j]) == Some(s.f.now + j + s.p.Span(s.n)) {
      var r := sh[j].queue[0];
      assert Bank.Routed(Devices2(s)[j], r) && Bank.NextIssuable(Devices2(s)[j], r) == s.f.now + j + s.p.Span(s.n);
    }
  }

  /** The state in which a cycle event finds the column command. */
  ghost function Extra(s: Scene): Facts
    requires s.Serve()
  {
    Sent2(s).(queue := [s.Column(), s.Short1(), s.Short2(), s.Extra0()], ids := s.f.ids + 6,
              wakes := {s.f.now + 3, Asked2(s)}, cycles := multiset{s.f.now + 2, s.f.now + 3})
  }

  lemma ColumnIsNext(s: Scene, d: nat)
    requires s.Valid(d)
    ensures MayCycle(s.cfg, s.Banks(), Extra(s))
    ensures forall k | 0 <= k < 3 :: Sized(s.cfg, Extra(s).sh[k]) && |Extra(s).dev[k].subs| == s.cfg.subarrays
    ensures var f := Extra(s);
      && PicksFirst(s.p, s.cfg, s.Banks(), f, 0, RowBufferHit)
      && Expanded(s.cfg, f.sh[0], f.queue[0]) == Hit(f.sh[0], [f.queue[0]])
  {
    hide Expanded, PicksFirst, Resting, For, Bank.IssueCommand, Bank.IsIssuable, Plain;
    TransactionsAre(s, d);
    AllRest(s, d, 0);
    HitIsPicked(s.p, s.cfg, s.Banks(), Extra(s), 0);
  }

  lemma ColumnWaits(s: Scene, d: nat)
    requires s.Valid(d)
    requires Sized(s.cfg, Extra(s).sh[0])
    requires Expanded(s.cfg, Extra(s).sh[0], s.Column()) == Hit(Extra(s).sh[0], [s.Column()])
    ensures Extra(s).sh[0 := Hit(Extra(s).sh[0], [s.Column()])] == Waiting(s).sh
    ensures Queued(s.cfg, Begun(Extra(s)), 0, Some(Asked0(s))) == Waiting(s)
  {
    hide Expanded, For, Bank.IssueCommand, Bank.IsIssuable, Bank.NextIssuable, IsServing, Calm, Plain, Transaction;
    ColumnIsAsked(s, d);
    assert multiset{s.f.now + 2, s.f.now + 3} - multiset{s.f.now + 2} == multiset{s.f.now + 3};
    assert {s.f.now + 3, Asked2(s)} + {s.f.now + 3} == {s.f.now + 3, Asked2(s)};
    assert Extra(s).sh[0 := Hit(Extra(s).sh[0], [s.Column()])] == Waiting(s).sh;
  }

  /** The callback sleeps, and the host hands over another transaction. */
  lemma TellsExtra(s: Scene, d: nat, t: T.State) returns (steps: seq<W.Step>, t': T.State)
    requires s.Valid(d) && Shows(s.cfg, s.Banks(), t, Sent2(s)) && !t.handingOver
    ensures Runs(s.p, s.cfg, s.interval, t, steps, t') && Shows(s.cfg, s.Banks(), t', Extra(s))
  {
    hide Runs, Links, Shows, Resting, BankRuns.NothingBefore, MayWake, AsksLeast, Bank.IssueCommand, IsServing;
    TransactionsAre(s, d);
    AllRest(s, d, s.f.now + 3);
    SecondAsks(s, d);
    SecondMayWake(s, d);
    var t1 := WakesIdly(s.p, s.cfg, s.interval, s.Banks(), t, Sent2(s), Some(Asked2(s)));
    var f1 := Sent2(s).(wakes := {s.f.now + 3, Asked2(s)});
    t' := Accepts(s.p, s.cfg, s.interval, s.Banks(), t1, f1, 0, s.Extra0());
    assert [s.Column(), s.Short1(), s.Short2()] + [s.Extra0()] == Extra(s).queue;
    assert multiset{s.f.now + 3} + multiset{s.f.now + 2} == multiset{s.f.now + 2, s.f.now + 3};
    RunsOne(s.p, s.cfg, s.interval, t, W.Wake(0, NotBounced), t1);
    Then(s.p, s.cfg, s.interval, t, [W.Wake(0, NotBounced)], t1, W.Accept(0, s.Extra0()), t');
    steps := [W.Wake(0, NotBounced)] + [W.Accept(0, s.Extra0())];
  }

  /** A second cycle event in the same cycle queues the column command. */
  lemma QueuesColumn(s: Scene, d: nat, t: T.State) returns (steps: seq<W.Step>, t': T.State)
    requires s.Valid(d) && Shows(s.cfg, s.Banks(), t, Extra(s))
    ensures Runs(s.p, s.cfg, s.interval, t, steps, t') && Shows(s.cfg, s.Banks(), t', Waiting(s))
  {
    hide Runs, Links, Shows, Calm, MayCycle, Waits, PicksFirst, AsksLeast, Expanded, Bank.IssueCommand, IsServing;
    hide HeadsAtHome;
    var cycle := W.Cycle(Some(W.Choice(0, RowBufferHit, false)), 0, NotBounced);
    ColumnIsNext(s, d);
    ColumnWaits(s, d);
    ColumnIsAsked(s, d);
    ColumnAsksFirst(s, d, Waiting(s).sh, Waiting(s));
    t' := CyclesToSchedule(s.p, s.cfg, s.interval, s.Banks(), t, Extra(s), 0, RowBufferHit, Some(Asked0(s)));
    RunsOne(s.p, s.cfg, s.interval, t, cycle, t');
    steps := [cycle];
  }

  // ---------------------------------------------------------------- the refresh pulse

  lemma HeldQueue(s: Scene, d: nat)
    requires s.Valid(d)
    ensures Sized(s.cfg, Held(s)) && Held(s).queue == [s.Column(), s.Closing(), s.Refreshing()]
    ensures Bank.Routed(s.f.dev[0], s.Column()) && Asked0(s) <= s.f.now
  {
    hide Bank.NextIssuable;
    ColumnIsAsked(s, d);
    assert [s.Column()] + [s.Closing()] + [s.Refreshing()] == [s.Column(), s.Closing(), s.Refreshing()];
  }

  /** The state in which the pulse comes. */
  ghost function PulseDue(s: Scene): Facts
    requires s.Serve()
  {
    Waiting(s).(sh := [Hit(s.f.sh[0], [s.Column()]), Hit(s.f.sh[1], []), Hit(s.f.sh[2], [])],
                now := s.f.now + 3, cleanupAt := None)
  }

  lemma WaitingIsCleaned(s: Scene, d: nat)
    requires s.Valid(d)
    ensures Cleaned(Waiting(s).(now := s.f.now + 3)) == PulseDue(s)
  {
    hide Bank.IssueCommand, Bank.NextIssuable, Resting, IsServing;
    assert Pending([s.Column()]) == [s.Column()] && Pending([Marked(s.Long2())]) == [] && Pending([]) == [];
    var f := Waiting(s);
    forall j | 0 <= j < 3 ensures Cleaned(f).sh[j] == PulseDue(s).sh[j] {
      assert Cleaned(f).sh[j] == f.sh[j].(queue := Pending(f.sh[j].queue));
    }
    assert Cleaned(f).sh == PulseDue(s).sh;
  }

  lemma PulseIsNext(s: Scene, d: nat)
    requires s.Valid(d)
    ensures Channel.IsGroup(s.cfg, 0, 0) && GroupIndex(s.cfg, 0, 0) == 0
    ensures RefreshedAll(s.cfg, s.Banks(), PulseDue(s).sh, 0) == Pulsing(s).sh
    ensures AsksLeast(Pulsing(s).sh, PulseDue(s).dev, Some(Asked0(s)))
    ensures Pulsed(s.cfg, s.interval, PulseDue(s), Pulsing(s).sh, 0, Some(Asked0(s))) == Pulsing(s)
  {
    hide Refreshed, Bank.IssueCommand, Bank.NextIssuable, Resting, IsServing;
    HeldQueue(s, d);
    var sh := RefreshedAll(s.cfg, s.Banks(), PulseDue(s).sh, 0);
    assert sh == Pulsing(s).sh;
    ColumnAsksFirst(s, d, sh, Pulsing(s));
    assert {s.f.now + 3, Asked2(s)} + {s.f.now + 4} == {s.f.now + 3, Asked2(s), s.f.now + 4};
  }

  /** The pulse comes, before the cycle event of its cycle, and queues a refresh behind the column command. */
  lemma QueuesRefresh(s: Scene, d: nat, t: T.State) returns (steps: seq<W.Step>, t': T.State)
    requires s.Valid(d) && Shows(s.cfg, s.Banks(), t, Waiting(s))
    ensures Runs(s.p, s.cfg, s.interval, t, steps, t') && Shows(s.cfg, s.Banks(), t', Pulsing(s)) && !t'.handingOver
  {
    hide Runs, Links, Shows, Resting, BankRuns.NothingBefore, AsksLeast, Bank.IssueCommand, IsServing, Cleaned;
    hide RefreshedAll;
    var bs := s.Banks();
    AllRest(s, d, s.f.now + 3);
    var t1 := Passes(s.p, s.cfg, s.interval, bs, t, Waiting(s), s.f.now + 3);
    var t2 := Cleans(s.p, s.cfg, s.interval, bs, t1, Waiting(s).(now := s.f.now + 3));
    WaitingIsCleaned(s, d);
    PulseIsNext(s, d);
    AllRest(s, d, s.f.now + 4);
    t' := Pulses(s.p, s.cfg, s.interval, bs, t2, PulseDue(s), 0, Some(Asked0(s)));
    ThreeRun(s.p, s.cfg, s.interval, t, W.Advance(s.f.now + 3), t1, W.Cleanup, t2, W.Pulse(0, 0), t');
    steps := [W.Advance(s.f.now + 3), W.Cleanup, W.Pulse(0, 0)];
  }

  // ---------------------------------------------------------------- the two short reads

  /** The first short read is queued; nothing is sent in the cycle of a refresh. */
  ghost function Queued1(s: Scene): Facts
    requires s.Serve() && 0 < |s.f.pulseAt|
  {
    Pulsing(s).(queue := [s.Short2(), s.Extra0()],
                sh := [Held(s), Twice(s.f.sh[1], s.Short1()), Hit(s.f.sh[2], [])], cycles := multiset{s.f.now + 4})
  }

  lemma ShortIsNext(s: Scene, d: nat, f: Facts, j: nat)
    requires s.Valid(d) && ((f == Pulsing(s) && j == 1) || (f == Second(s) && j == 2))
    ensures MayCycle(s.cfg, s.Banks(), f)
    ensures forall k | 0 <= k < 3 :: Sized(s.cfg, f.sh[k]) && |f.dev[k].subs| == s.cfg.subarrays
    ensures PicksFirst(s.p, s.cfg, s.Banks(), f, j, RowBufferHit)
    ensures Expanded(s.cfg, f.sh[j], f.queue[0]) == Hit(f.sh[j], [f.queue[0]])
  {
    hide Expanded, PicksFirst, Resting, For, Bank.IssueCommand, Bank.IsIssuable, Held, Plain, RowIsOpen;
    TransactionsAre(s, d);
    HeldQueue(s, d);
    AllRest(s, d, 0);
    HitIsPicked(s.p, s.cfg, s.Banks(), f, j);
  }

  /** A second cycle event in the cycle of the pulse finds the second short read. */
  ghost function Second(s: Scene): Facts
    requires s.Serve() && 0 < |s.f.pulseAt|
  {
    Queued1(s).(queue := [s.Short2(), s.Extra0(), s.Extra2()], ids := s.f.ids + 7,
                wakes := {Asked2(s), s.f.now + 4}, cycles := multiset{s.f.now + 3, s.f.now + 4})
  }

  lemma FirstShort(s: Scene, d: nat)
    requires s.Valid(d) && Expanded(s.cfg, Pulsing(s).sh[1], s.Short1()) == Hit(Pulsing(s).sh[1], [s.Short1()])
    requires Sized(s.cfg, Pulsing(s).sh[1])
    ensures Pulsing(s).sh[1 := Hit(Pulsing(s).sh[1], [s.Short1()])] == Queued1(s).sh
    ensures Queued(s.cfg, Begun(Pulsing(s)), 1, Some(Asked0(s))) == Queued1(s).(cycles := multiset{})
  {
    hide Expanded, For, Bank.IssueCommand, Bank.NextIssuable, Held, IsServing, Calm;
    HeldQueue(s, d);
    assert multiset{s.f.now + 3} - multiset{s.f.now + 3} == multiset{};
    assert {s.f.now + 3, Asked2(s), s.f.now + 4} + {s.f.now + 4} == {s.f.now + 3, Asked2(s), s.f.now + 4};
    assert Pulsing(s).sh[1 := Hit(Pulsing(s).sh[1], [s.Short1()])] == Queued1(s).sh;
  }

  /** The second short read still waits for a bank that has nothing left to send. */
  lemma AnotherCycle(s: Scene, d: nat)
    requires s.Valid(d)
    ensures Again(s.cfg, s.Banks(), Queued1(s).(cycles := multiset{})) == Queued1(s)
  {
    hide Bank.IssueCommand, Bank.NextIssuable, Held, IsServing, Calm;
    TransactionsAre(s, d);
    assert multiset{} + multiset{s.f.now + 4} == multiset{s.f.now + 4};
    assert Queued1(s).queue[0] == s.Short2() && Pending(Queued1(s).sh[2].queue) == [];
  }

  lemma CallbackWaits(s: Scene, d: nat)
    requires s.Valid(d)
    ensures MayWake(s.cfg, s.Banks(), Queued1(s))
    ensures Woken(Queued1(s), Some(Asked0(s))) == Queued1(s).(wakes := {Asked2(s), s.f.now + 4})
  {
    hide Resting, Bank.IssueCommand, Held, IsServing, Bank.NextIssuable, BankRuns.NothingBefore;
    HeldQueue(s, d);
    AllRest(s, d, s.f.now + 4);
    assert {s.f.now + 3, Asked2(s), s.f.now + 4} - {s.f.now + 3} + {s.f.now + 4} == {Asked2(s), s.f.now + 4};
  }

  lemma SecondShort(s: Scene, d: nat)
    requires s.Valid(d) && Expanded(s.cfg, Second(s).sh[2], s.Short2()) == Hit(Second(s).sh[2], [s.Short2()])
    requires Sized(s.cfg, Second(s).sh[2])
    ensures Second(s).sh[2 := Hit(Second(s).sh[2], [s.Short2()])] == Queueing(s).sh
    ensures Queued(s.cfg, Begun(Second(s)), 2, Some(Asked0(s))) == Queueing(s)
    ensures Again(s.cfg, s.Banks(), Queueing(s)) == Queueing(s)
  {
    hide Expanded, For, Bank.IssueCommand, Bank.NextIssuable, Held, IsServing, Calm, Waits;
    HeldQueue(s, d);
    assert multiset{s.f.now + 3, s.f.now + 4} - multiset{s.f.now + 3} == multiset{s.f.now + 4};
    assert {Asked2(s), s.f.now + 4} + {s.f.now + 4} == {Asked2(s), s.f.now + 4};
    assert Second(s).sh[2 := Hit(Second(s).sh[2], [s.Short2()])] == Queueing(s).sh;
  }

  /** The first short read is queued, and the callback of the cycle finds that a refresh was handled. */
  lemma QueuesFirstShort(s: Scene, d: nat, t: T.State) returns (steps: seq<W.Step>, t': T.State)
    requires s.Valid(d) && Shows(s.cfg, s.Banks(), t, Pulsing(s))
    ensures Runs(s.p, s.cfg, s.interval, t, steps, t')
    ensures Shows(s.cfg, s.Banks(), t', Queued1(s).(wakes := {Asked2(s), s.f.now + 4})) && !t'.handingOver
  {
    hide Runs, Links, Shows, Resting, MayCycle, MayWake, Again, PicksFirst, AsksLeast, Expanded, Bank.IssueCommand;
    hide IsServing, HeadsAtHome, Held;
    var bs, cycle := s.Banks(), W.Cycle(Some(W.Choice(0, RowBufferHit, false)), 0, NotBounced);
    ShortIsNext(s, d, Pulsing(s), 1);
    FirstShort(s, d);
    AnotherCycle(s, d);
    HeldQueue(s, d);
    ColumnAsksFirst(s, d, Queued1(s).sh, Queued1(s).(cycles := multiset{}));
    var t1 := CyclesToSchedule(s.p, s.cfg, s.interval, bs, t, Pulsing(s), 1, RowBufferHit, Some(Asked0(s)));
    CallbackWaits(s, d);
    t' := WakesIdly(s.p, s.cfg, s.interval, bs, t1, Queued1(s), Some(Asked0(s)));
    RunsOne(s.p, s.cfg, s.interval, t, cycle, t1);
    Then(s.p, s.cfg, s.interval, t, [cycle], t1, W.Wake(0, NotBounced), t');
    steps := [cycle] + [W.Wake(0, NotBounced)];
  }

  /** The host hands over another transaction. */
  lemma TellsLast(s: Scene, d: nat, t: T.State) returns (steps: seq<W.Step>, t': T.State)
    requires s.Valid(d)
    requires Shows(s.cfg, s.Banks(), t, Queued1(s).(wakes := {Asked2(s), s.f.now + 4})) && !t.handingOver
    ensures Runs(s.p, s.cfg, s.interval, t, steps, t') && Shows(s.cfg, s.Banks(), t', Second(s))
  {
    hide Runs, Links, Shows, Resting, Bank.IssueCommand, IsServing, Held, BankRuns.NothingBefore, Serves, AllPlain;
    TransactionsAre(s, d);
    AllRest(s, d, s.f.now + 4);
    var f := Queued1(s).(wakes := {Asked2(s), s.f.now + 4});
    t' := Accepts(s.p, s.cfg, s.interval, s.Banks(), t, f, 2, s.Extra2());
    assert [s.Short2(), s.Extra0()] + [s.Extra2()] == Second(s).queue;
    assert multiset{s.f.now + 4} + multiset{s.f.now + 3} == multiset{s.f.now + 3, s.f.now + 4};
    RunsOne(s.p, s.cfg, s.interval, t, W.Accept(0, s.Extra2()), t');
    steps := [W.Accept(0, s.Extra2())];
  }

  /** A second cycle event in the same cycle queues the second short read. */
  lemma QueuesSecondShort(s: Scene, d: nat, t: T.State) returns (steps: seq<W.Step>, t': T.State)
    requires s.Valid(d) && Shows(s.cfg, s.Banks(), t, Second(s))
    ensures Runs(s.p, s.cfg, s.interval, t, steps, t') && Shows(s.cfg, s.Banks(), t', Queueing(s))
  {
    hide Runs, Links, Shows, Calm, MayCycle, Again, PicksFirst, AsksLeast, Expanded, Bank.IssueCommand, IsServing;
    hide HeadsAtHome;
    hide Held;
    var cycle := W.Cycle(Some(W.Choice(0, RowBufferHit, false)), 0, NotBounced);
    ShortIsNext(s, d, Second(s), 2);
    SecondShort(s, d);
    HeldQueue(s, d);
    ColumnAsksFirst(s, d, Queueing(s).sh, Queueing(s));
    t' := CyclesToSchedule(s.p, s.cfg, s.interval, s.Banks(), t, Second(s), 2, RowBufferHit, Some(Asked0(s)));
    RunsOne(s.p, s.cfg, s.interval, t, cycle, t');
    steps := [cycle];
  }

  // ---------------------------------------------------------------- asleep

  /** The first bank after the column command: it asks to be tried again late, but its row can be closed soon. */
  lemma AfterColumn(s: Scene, d: nat)
    requires s.Valid(d)
    ensures Bank.Routed(s.f.dev[0], s.Column()) && Bank.IsIssuable(s.p, s.f.dev[0], s.Column(), s.f.now + 4)
    ensures var dev := s.Device(0, s.Column(), s.f.now + 4);
      && |dev.subs| == s.cfg.subarrays && RowIsOpen(dev, s.cfg.subarrays)
      && Bank.Routed(dev, s.Column()) && Bank.NextIssuable(dev, Marked(s.Column())) == s.f.now + 4 + s.p.Span(s.b)
      && Bank.Routed(dev, s.Closing()) && Bank.IsIssuable(s.p, dev, s.Closing(), s.f.now + 4 + d)
      && forall x, to: nat | 0 <= x < |dev.subs| && to <= s.f.now + 5 + d :: BankRuns.NothingBefore(dev.subs[x], to)
  {
    hide Bank.IssueCommand, Parameters.Span;
    var dev := ColumnOnOpen(s.p, s.f.dev[0], s.cfg.subarrays, s.f.now, s.Column(), s.f.now + 4);
    assert RowReady(dev, s.cfg.subarrays, s.f.now + 4 + d);
  }

  /** The cycle event after the pulse has nothing to schedule, and finds one head that can be sent. */
  lemma ColumnIsReady(s: Scene, d: nat)
    requires s.Valid(d)
    ensures var f := Queueing(s).(now := s.f.now + 4);
      && MayCycle(s.cfg, s.Banks(), f) && Unready(s.cfg, s.Banks(), f) && SendsOnly(s.p, s.Banks(), f, 0)
  {
    hide Resting, For, Bank.IssueCommand, Bank.IsIssuable, Held, Plain, RowIsOpen, IsServing;
    var f := Queueing(s).(now := s.f.now + 4);
    TransactionsAre(s, d);
    HeldQueue(s, d);
    AllRest(s, d, 0);
    AfterColumn(s, d);
    NotReadyAgain(s, d);
    forall i, j | 0 <= i < 2 && 0 <= j < 3 && For(s.cfg, s.Banks()[j], f.queue[i]) ensures f.sh[j].queue != [] {}
  }

  lemma NotReadyAgain(s: Scene, d: nat)
    requires s.Valid(d)
    ensures forall j | 1 <= j < 3 ::
      && !IsReady(s.p, Queueing(s).sh[j], Queueing(s).dev[j], s.f.now + 4)
      && HeadAsk(Queueing(s).sh[j], Queueing(s).dev[j]) == Some(s.f.now + j + s.p.Span(s.n))
  {
    hide Resting, Bank.IssueCommand, Bank.IsIssuable, Held, RowIsOpen, IsServing, Bank.NextIssuable;
    AfterLong(s, d, 1, s.Long1(), s.f.now + 1);
    AfterLong(s, d, 2, s.Long2(), s.f.now + 2);
  }

  /** When the callback that follows wants to be woken. */
  function Next(s: Scene): nat {
    if s.p.Span(s.b) + 4 <= s.p.Span(s.n) + 1 then s.f.now + 4 + s.p.Span(s.b) else s.f.now + 1 + s.p.Span(s.n)
  }

  lemma NoneWaits(s: Scene, d: nat, f: Facts)
    requires s.Valid(d) && f.queue == [s.Extra0(), s.Extra2()] && |f.sh| == 3
    requires Pending(f.sh[0].queue) != [] && Pending(f.sh[2].queue) != []
    ensures Again(s.cfg, s.Banks(), f) == f
  {
    hide Calm, Pending;
    forall i, j | 0 <= i < 2 && 0 <= j < 3 && For(s.cfg, s.Banks()[j], f.queue[i])
      ensures Pending(f.sh[j].queue) != [] {}
  }

  lemma ColumnIsSent(s: Scene, d: nat, sent: Facts)
    requires s.Valid(d) && var f := Queueing(s).(now := s.f.now + 4);
      && SendsOnly(s.p, s.Banks(), f, 0) && sent == Sent(s.p, s.cfg, s.Banks(), Begun(f), 0)
    ensures Again(s.cfg, s.Banks(), sent) == sent && Woken(sent, Some(Next(s))) == Asleep(s, Next(s))
    ensures sent == Asleep(s, Next(s)).(wakes := {Asked2(s), s.f.now + 4})
  {
    hide Resting, Bank.IssueCommand, Bank.IsIssuable, Held, RowIsOpen, IsServing, Bank.NextIssuable, IsReady, Calm;
    hide Waits, Again;
    HeldQueue(s, d);
    assert MarkIssued(Held(s).queue) == [Marked(s.Column()), s.Closing(), s.Refreshing()];
    assert multiset{s.f.now + 4} - multiset{s.f.now + 4} == multiset{};
    assert {Asked2(s), s.f.now + 4} - {s.f.now + 4} + {Next(s)} == {Asked2(s), Next(s)};
    assert sent.sh == Asleep(s, Next(s)).sh;
    NoneWaits(s, d, sent);
  }

  lemma CallbackSleeps(s: Scene, d: nat)
    requires s.Valid(d)
    ensures var sent := Asleep(s, Next(s)).(wakes := {Asked2(s), s.f.now + 4});
      && MayWake(s.cfg, s.Banks(), sent) && AsksLeast(sent.sh, sent.dev, Some(Next(s))) && SendsNothing(s.p, sent)
  {
    hide Resting, Bank.IssueCommand, Bank.IsIssuable, Held, RowIsOpen, IsServing, Bank.NextIssuable, IsReady;
    hide BankRuns.NothingBefore, Parameters.Span;
    var sent := Asleep(s, Next(s)).(wakes := {Asked2(s), s.f.now + 4});
    HeldQueue(s, d);
    AfterColumn(s, d);
    AllRest(s, d, s.f.now + 5);
    NotReadyAgain(s, d);
    assert HeadAsk(sent.sh[0], sent.dev[0]) == Some(s.f.now + 4 + s.p.Span(s.b));
    assert HeadAsk(sent.sh[1], sent.dev[1]) == Some(s.f.now + 1 + s.p.Span(s.n));
    assert HeadAsk(sent.sh[2], sent.dev[2]) == Some(Asked2(s));
  }

  /** In the next cycle, the cycle event sends the column command, and the callback after it sleeps. */
  lemma SendsColumn(s: Scene, d: nat, t: T.State) returns (steps: seq<W.Step>, t': T.State)
    requires s.Valid(d) && Shows(s.cfg, s.Banks(), t, Queueing(s))
    ensures Runs(s.p, s.cfg, s.interval, t, steps, t') && Shows(s.cfg, s.Banks(), t', Asleep(s, Next(s)))
  {
    hide Runs, Links, Shows, Resting, MayCycle, MayWake, Again, AsksLeast, Bank.IssueCommand, IsServing, NoneSelected;
    hide HeadsAtHome, Held, SendsOnly, Sent, Asleep, SendsNothing, Unready, BankRuns.NothingBefore;
    var bs, f := s.Banks(), Queueing(s).(now := s.f.now + 4);
    AllRest(s, d, s.f.now + 4);
    var t1 := Passes(s.p, s.cfg, s.interval, bs, t, Queueing(s), s.f.now + 4);
    ColumnIsReady(s, d);
    HeldQueue(s, d);
    UnreadyIsNotSelected(s.cfg, bs, f);
    var t2 := CyclesToSend(s.p, s.cfg, s.interval, bs, t1, f, 0);
    var sent := Sent(s.p, s.cfg, bs, Begun(f), 0);
    ColumnIsSent(s, d, sent);
    CallbackSleeps(s, d);
    t' := WakesIdly(s.p, s.cfg, s.interval, bs, t2, sent, Some(Next(s)));
    var wait, cycle, wake := W.Advance(s.f.now + 4), W.Cycle(None, 0, NotBounced), W.Wake(0, NotBounced);
    ThreeRun(s.p, s.cfg, s.interval, t, wait, t1, cycle, t2, wake, t');
    steps := [wait, cycle, wake];
  }

  /** What is left once the column command was cleaned up. */
  ghost function Ended(s: Scene, now: nat): Facts
    requires s.Serve() && 0 < |s.f.pulseAt|
  {
    Asleep(s, Next(s)).(sh := [Held(s).(queue := [s.Closing(), s.Refreshing()]),
                               Twice(s.f.sh[1], s.Short1()), Twice(s.f.sh[2], s.Short2())],
                        now := now, cleanupAt := None)
  }

  lemma AsleepIsCleaned(s: Scene, d: nat)
    requires s.Valid(d)
    ensures Cleaned(Asleep(s, Next(s)).(now := s.f.now + 5)) == Ended(s, s.f.now + 5)
  {
    hide Bank.IssueCommand, Bank.NextIssuable, Bank.IsIssuable, Resting, IsServing, Held, Calm;
    var f := Asleep(s, Next(s));
    forall j | 0 <= j < 3 ensures Cleaned(f).sh[j] == Ended(s, 0).sh[j] {
      assert Cleaned(f).sh[j] == f.sh[j].(queue := Pending(f.sh[j].queue));
    }
    assert Cleaned(f).sh == Ended(s, 0).sh;
  }

  lemma AsleepRests(s: Scene, d: nat, to: nat)
    requires s.Valid(d) && to <= s.f.now + 5 + d
    ensures forall j | 0 <= j < 3 :: forall x | 0 <= x < |Asleep(s, Next(s)).dev[j].subs| ::
      BankRuns.NothingBefore(Asleep(s, Next(s)).dev[j].subs[x], to)
  {
    hide Bank.IssueCommand, Bank.NextIssuable, Bank.IsIssuable, Resting, IsServing, Held, BankRuns.NothingBefore;
    hide RowIsOpen;
    AfterColumn(s, d);
    AllRest(s, d, to);
  }

  /** Time passes until the row could be closed. */
  lemma Sleeps(s: Scene, d: nat, t: T.State) returns (steps: seq<W.Step>, t': T.State)
    requires s.Valid(d) && Shows(s.cfg, s.Banks(), t, Asleep(s, Next(s)))
    ensures Runs(s.p, s.cfg, s.interval, t, steps, t') && Shows(s.cfg, s.Banks(), t', Ended(s, s.f.now + 4 + d))
  {
    hide Runs, Links, Shows, Resting, Bank.IssueCommand, IsServing, Held, BankRuns.NothingBefore, Cleaned;
    var bs := s.Banks();
    AsleepIsCleaned(s, d);
    AsleepRests(s, d, s.f.now + 5);
    AsleepRests(s, d, s.f.now + 4 + d);
    var t1 := Passes(s.p, s.cfg, s.interval, bs, t, Asleep(s, Next(s)), s.f.now + 5);
    t' := Cleans(s.p, s.cfg, s.interval, bs, t1, Asleep(s, Next(s)).(now := s.f.now + 5));
    RunsOne(s.p, s.cfg, s.interval, t, W.Advance(s.f.now + 5), t1);
    Then(s.p, s.cfg, s.interval, t, [W.Advance(s.f.now + 5)], t1, W.Cleanup, t');
    steps := [W.Advance(s.f.now + 5)] + [W.Cleanup];
    if 1 < d {
      var t2 := t';
      t' := Passes(s.p, s.cfg, s.interval, bs, t2, Ended(s, s.f.now + 5), s.f.now + 4 + d);
      Then(s.p, s.cfg, s.interval, t, steps, t2, W.Advance(s.f.now + 4 + d), t');
      steps := steps + [W.Advance(s.f.now + 4 + d)];
    }
  }

  lemma ClosingIsReady(s: Scene, d: nat)
    requires s.Valid(d)
    ensures var f := Ended(s, s.f.now + 4 + d);
      IsReady(s.p, f.sh[0], f.dev[0], f.now) && HeadsAtHome(s.cfg, s.Banks(), f)
  {
    hide Resting, Bank.IssueCommand, Bank.IsIssuable, IsServing, Held;
    AfterColumn(s, d);
  }

  /** The row can be closed, and nothing is scheduled that would look at it. */
  lemma EndIsLate(s: Scene, d: nat, t: T.State)
    requires s.Valid(d) && Shows(s.cfg, s.Banks(), t, Ended(s, s.f.now + 4 + d))
    ensures T.Late(s.p, s.cfg, t, Id(s.cfg, 0))
  {
    hide Resting, Bank.IssueCommand, IsReady, IsServing, Held, BankRuns.NothingBefore, Holds, IsIdle, HeadsAtHome;
    hide W.CanSend;
    var bs, f := s.Banks(), Ended(s, s.f.now + 4 + d);
    AsleepRests(s, d, s.f.now + 5 + d);
    ClosingIsReady(s, d);
    HeldIs(s.cfg, bs, t.controller, f, 0);
    ReadyCanBeSent(s.p, s.cfg, bs, t.controller, f, 0);
    NothingPendsBefore(s.cfg, bs, t.controller, f, f.now + 1);
  }

  /** From the scene a run leads to a state in which the controller is late. */
  lemma GoesLate(s: Scene, d: nat, t: T.State) returns (steps: seq<W.Step>, t': T.State)
    requires s.Valid(d) && Shows(s.cfg, s.Banks(), t, s.f)
    ensures Runs(s.p, s.cfg, s.interval, t, steps, t') && T.Late(s.p, s.cfg, t', Id(s.cfg, 0))
  {
    hide Runs, Shows, Scene.Valid, T.Late;
    var a, t1 := Tells(s, d, t);
    var b, t2 := SendsFirst(s, d, t1);
    var c, t3 := SendsSecond(s, d, t2);
    var e, t4 := TellsExtra(s, d, t3);
    var g, t5 := QueuesColumn(s, d, t4);
    var h, t6 := QueuesRefresh(s, d, t5);
    var i, t7 := QueuesFirstShort(s, d, t6);
    var j, t8 := TellsLast(s, d, t7);
    var k, t9 := QueuesSecondShort(s, d, t8);
    var abc := ThreeRuns(s.p, s.cfg, s.interval, t, a, t1, b, t2, c, t3);
    var egh := ThreeRuns(s.p, s.cfg, s.interval, t3, e, t4, g, t5, h, t6);
    var ijk := ThreeRuns(s.p, s.cfg, s.interval, t6, i, t7, j, t8, k, t9);
    var l := ThreeRuns(s.p, s.cfg, s.interval, t, abc, t3, egh, t6, ijk, t9);
    var m, t10 := SendsColumn(s, d, t9);
    var n;
    n, t' := Sleeps(s, d, t10);
    EndIsLate(s, d, t');
    steps := ThreeRuns(s.p, s.cfg, s.interval, t, l, t9, m, t10, n, t');
  }
}
