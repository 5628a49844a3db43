/** Runs that open a row: from a quiet state a read to a closed bank is accepted and served, and all comes to rest. */
module Opening {
  import opened Commands
  import opened ControllerSpec
  import opened Driving
  import W = Wakeups
  import T = Timetable
  import Bank = BankSpec
  import Sub = SubArraySpec
  import BankRuns

  // ---------------------------------------------------------------- banks with an open row

  /** Row 0 of subarray 0 is open, no completion is pending, and all timers have passed by cycle `due`. */
  ghost predicate IsOpen(dev: Bank.State, n: nat, due: nat) {
    RowIsOpen(dev, n) && Rested(dev.subs[0]) && ColumnsReady(dev, n, due) && RowReady(dev, n, due)
  }

  /** The columns can be read and written from cycle `due` on. */
  ghost predicate ColumnsReady(dev: Bank.State, n: nat, due: nat)
    requires RowIsOpen(dev, n)
  {
    dev.next.read <= due && dev.next.write <= due && dev.subs[0].next.read <= due && dev.subs[0].next.write <= due
  }

  /** The row can be precharged from cycle `due` on. */
  ghost predicate RowReady(dev: Bank.State, n: nat, due: nat)
    requires RowIsOpen(dev, n)
  {
    dev.next.precharge <= due && dev.subs[0].next.precharge <= due
  }

  ghost predicate RowIsOpen(dev: Bank.State, n: nat) {
    && dev.mode == Bank.Open && dev.active == [0] && |dev.subs| == n && 0 < n
    && dev.subs[0].phase == Sub.Open && dev.subs[0].openRow == 0
    && forall i | 0 < i < n :: dev.subs[i] == Sub.Initial()
  }

  predicate Rested(s: Sub.State) { s.closing == Sub.NothingDue && s.writing == Sub.NotWriting }

  /** How long after a read of `n` bursts all its timers have passed. */
  function Settle(p: Timing, n: positive): nat {
    p.Span(n) + p.al + p.burst + p.rtp + p.cas + p.rtrs + p.ras + p.rcd
  }

  /** A transaction for row 0 of subarray 0. */
  predicate Plain(r: Request) {
    && r.rank == 0 && r.row == 0 && r.col == 0 && r.subarray == 0 && (r.op.Read? || r.op.Write?)
    && !r.last && !r.forced && !r.issued
  }

  function Transaction(id: nat, op: Op, bank: nat, bursts: positive, arrival: nat): Request {
    Request(id, op, 0, 0, bank, 0, 0, bursts, arrival, false, false, false, false)
  }

  /** What a column command leaves of a bank with an open row. */
  lemma ColumnOnOpen(p: Timing, dev: Bank.State, n: nat, due: nat, r: Request, now: nat) returns (dev': Bank.State)
    requires RowIsOpen(dev, n) && Rested(dev.subs[0]) && ColumnsReady(dev, n, now) && RowReady(dev, n, due) && Plain(r)
    ensures Bank.Routed(dev, r) && Bank.IsIssuable(p, dev, r, now)
    ensures dev' == Bank.IssueCommand(p, dev, r, Moment(now, 0, NotBounced)).state && RowIsOpen(dev', n)
    ensures Bank.Routed(dev', r) && Bank.NextIssuable(dev', r) == now + p.Span(r.bursts)
    ensures dev'.next.precharge <= due && dev'.subs[0].closing == Sub.NothingDue
    ensures r.op.Read? ==>
      && Rested(dev'.subs[0]) && dev'.next.read == now + p.Span(r.bursts)
      && dev'.subs[0].next.precharge <= Max(due, now + p.Span(r.bursts - 1) + p.al + p.burst + p.rtp - p.ccd)
    ensures r.op.Write? ==>
      && (dev'.subs[0].writing.Writing? ==> dev'.subs[0].writing.doneAt == now + p.cwd + p.Span(r.bursts))
      && dev'.subs[0].next.precharge <= Max(due, now + p.Span(r.bursts - 1) + p.al + p.cwd + p.burst + p.wr)
  {
    hide Parameters.Span;
    dev' := Bank.IssueCommand(p, dev, r, Moment(now, 0, NotBounced)).state;
  }

  lemma ReadSettles(p: Timing, dev: Bank.State, n: nat, due: nat, r: Request, now: nat)
    requires RowIsOpen(dev, n) && Rested(dev.subs[0]) && ColumnsReady(dev, n, now) && RowReady(dev, n, due)
    requires Plain(r) && r.op.Read? && due <= now + p.ras + p.rcd
    ensures Bank.Routed(dev, r)
    ensures IsOpen(Bank.IssueCommand(p, dev, r, Moment(now, 0, NotBounced)).state, n, now + Settle(p, r.bursts))
  {
    var dev' := ColumnOnOpen(p, dev, n, due, r, now);
    SpanGrows(p, r.bursts - 1, r.bursts);
    hide Parameters.Span;
  }

  lemma SpanGrows(p: Timing, m: nat, n: nat)
    requires m <= n
    ensures p.Span(m) <= p.Span(n)
  {
    var s := Max(p.burst, p.ccd);
    assert s * n == s * m + s * (n - m);
  }

  /** An activate of an untouched bank. */
  lemma ActivateUntouched(p: Timing, n: positive, act: Request, now: nat) returns (dev: Bank.State)
    requires act.op == Op.Activate && act.row == 0 && act.subarray == 0
    ensures var b := Bank.Initial(n, false); Bank.Routed(b, act) && Bank.IsIssuable(p, b, act, now)
    ensures dev == Bank.IssueCommand(p, Bank.Initial(n, false), act, Moment(now, 0, NotBounced)).state
    ensures RowIsOpen(dev, n) && Rested(dev.subs[0])
    ensures dev.next.precharge == dev.next.read == dev.next.write == 0
    ensures dev.subs[0].next.precharge == now + Max(p.rcd, p.ras)
    ensures dev.subs[0].next.read == dev.subs[0].next.write == now + p.rcd - p.al
    ensures Bank.NextIssuable(Bank.Initial(n, false), act) == 0
  {
    dev := Bank.IssueCommand(p, Bank.Initial(n, false), act, Moment(now, 0, NotBounced)).state;
  }

  // ---------------------------------------------------------------- quiet states

  /** Nothing is queued for the bank; its row 0 is open, or the bank was never used. */
  ghost predicate Resting(cfg: Config, sh: Shadow, dev: Bank.State, now: nat) {
    && Sized(cfg, sh) && sh.queue == [] && !sh.needRefresh && !sh.refreshQueued
    && (IsUnused(cfg, sh, dev) || IsServing(cfg, sh, dev, now))
  }

  ghost predicate IsUnused(cfg: Config, sh: Shadow, dev: Bank.State) {
    !sh.activateQueued && dev == Bank.Initial(cfg.subarrays, false)
  }

  ghost predicate IsServing(cfg: Config, sh: Shadow, dev: Bank.State, now: nat)
    requires Sized(cfg, sh)
  {
    sh.activateQueued && sh.active[0] && sh.row[0] == 0 && sh.mux[0] == 0 && IsOpen(dev, cfg.subarrays, now)
  }

  /** Nothing waits, nothing is queued, nothing is scheduled. */
  ghost predicate Calm(cfg: Config, bs: seq<nat>, f: Facts) {
    && Used(cfg, bs) && |f.sh| == |f.dev| == |bs|
    && f.queue == [] && f.wakes == {} && f.cycles == multiset{} && f.cleanupAt == None && f.handled == None
    && f.lastIssue < f.now && PulsesDone(f)
    && forall j | 0 <= j < |bs| :: Resting(cfg, f.sh[j], f.dev[j], f.now)
  }

  lemma RestsQuietly(cfg: Config, bs: seq<nat>, f: Facts, to: nat)
    requires Calm(cfg, bs, f)
    ensures forall j | 0 <= j < |f.dev| :: forall x | 0 <= x < |f.dev[j].subs| ::
      BankRuns.NothingBefore(f.dev[j].subs[x], to)
    ensures forall j | 0 <= j < |bs| :: |f.dev[j].subs| == cfg.subarrays
  {
    forall j | 0 <= j < |f.dev| ensures |f.dev[j].subs| == cfg.subarrays
      ensures forall x | 0 <= x < |f.dev[j].subs| :: BankRuns.NothingBefore(f.dev[j].subs[x], to) {
      assert Resting(cfg, f.sh[j], f.dev[j], f.now);
    }
  }

  /** The next transaction that the host hands over, for row 0 of `bank`. */
  predicate NextFor(f: Facts, bank: nat, r: Request) {
    r == Transaction(f.ids, r.op, bank, 1, f.now) && (r.op.Read? || r.op.Write?)
  }

  /** The host hands a transaction over, and the cycle event that follows finds it too young. */
  lemma Hears(p: Timing, cfg: Config, interval: nat, bs: seq<nat>, t: T.State, f: Facts, k: nat, r: Request)
    returns (steps: seq<W.Step>, t': T.State)
    requires Shows(cfg, bs, t, f) && Calm(cfg, bs, f) && k < |bs|
    requires NextFor(f, bs[k], r) && forall g | 0 <= g < |f.pulseAt| :: f.now < f.pulseAt[g]
    ensures Runs(p, cfg, interval, t, steps, t') && Shows(cfg, bs, t', Heard(f, r)) && !t'.handingOver
  {
    hide Runs, Links, Tracks, Resting, HeadsAtHome, NoneSelected, Waits, ForUsed, Sized, SendsNothing;
    hide BankRuns.NothingBefore;
    RestsQuietly(cfg, bs, f, f.now + 1);
    var f1 := f.(queue := [r], ids := r.id + 1, cycles := multiset{f.now});
    var t1 := Accepts(p, cfg, interval, bs, t, f, k, r);
    HearsTooYoung(cfg, bs, f, f1, k, r);
    var t2 := CyclesIdly(p, cfg, interval, bs, t1, f1);
    assert multiset{f.now} - multiset{f.now} + multiset{f.now + 1} == multiset{f.now + 1};
    var f2 := Begun(f1).(cycles := multiset{f.now + 1});
    assert Again(cfg, bs, Begun(f1)) == f2 by { assert f.now + 1 !in Begun(f1).cycles; }
    t' := Passes(p, cfg, interval, bs, t2, f2, f.now + 1);
    var c1, c2, c3 := W.Accept(0, r), W.Cycle(None, 0, NotBounced), W.Advance(f.now + 1);
    ThreeRun(p, cfg, interval, t, c1, t1, c2, t2, c3, t');
    steps := [c1, c2, c3];
  }

  function Heard(f: Facts, r: Request): Facts {
    f.(queue := [r], ids := r.id + 1, cycles := multiset{f.now + 1}, now := f.now + 1, ranAt := Some(f.now))
  }

  lemma HearsTooYoung(cfg: Config, bs: seq<nat>, f: Facts, f1: Facts, k: nat, r: Request)
    requires Calm(cfg, bs, f) && k < |bs| && NextFor(f, bs[k], r)
    requires f1 == f.(queue := [r], ids := r.id + 1, cycles := multiset{f.now})
    ensures ForUsed(cfg, bs, f1.queue) && HeadsAtHome(cfg, bs, f1) && (forall j | 0 <= j < |bs| :: Sized(cfg, f1.sh[j]))
    ensures (forall sel :: NoneSelected(cfg, bs, f1, sel)) && (forall p: Timing :: SendsNothing(p, f1))
    ensures Waits(cfg, bs, Begun(f1)) && f1 == Accepted(f, k, r)
  {
    assert For(cfg, bs[k], r);
    forall j | 0 <= j < |bs| ensures f1.sh[j].queue == [] && Sized(cfg, f1.sh[j]) {
      assert Resting(cfg, f.sh[j], f.dev[j], f.now);
    }
    assert f.queue + [r] == [r] && f.cycles + multiset{f.now} == multiset{f.now};
    hide Resting, Sized;
    assert Begun(f1).queue[0] == r && Pending(f1.sh[k].queue) == [];
  }

  // ---------------------------------------------------------------- the activate

  function Activating(r: Request): Request { MakeActivate(r, false) }

  /** The tables of a bank whose row is to be opened for `r`. */
  function OpenFor(cfg: Config, sh: Shadow, r: Request, queue: seq<Request>): Shadow
    requires Sized(cfg, sh) && r.subarray < cfg.subarrays
  {
    OpenEntry(cfg, sh, r).(starvation := sh.starvation[r.subarray := 0], queue := queue)
  }

  ghost function AfterActivate(p: Timing, cfg: Config, r: Request, now: nat): Bank.State
    requires r.subarray < cfg.subarrays
  {
    Bank.IssueCommand(p, Bank.Initial(cfg.subarrays, false), Activating(r), Moment(now, 0, NotBounced)).state
  }

  /** The activate for `r` was sent in the previous cycle. */
  ghost function Activated(p: Timing, cfg: Config, f: Facts, k: nat, r: Request): Facts
    requires k < |f.sh| && k < |f.dev| && Sized(cfg, f.sh[k]) && r.subarray < cfg.subarrays
  {
    f.(sh := f.sh[k := OpenFor(cfg, f.sh[k], r, [r])], dev := f.dev[k := AfterActivate(p, cfg, r, f.now + 1)],
       now := f.now + 2, lastIssue := f.now + 1, wakes := {f.now + 2}, ranAt := Some(f.now + 1), ids := r.id + 1,
       cur := if f.cur + 1 > cfg.ranks * cfg.banks then 0 else f.cur + 1)
  }

  /** What must be known of the state in which the activate is queued. */
  lemma ActivateIsNext(p: Timing, cfg: Config, bs: seq<nat>, f: Facts, k: nat, r: Request)
    requires Calm(cfg, bs, f) && k < |bs| && NextFor(f, bs[k], r)
    requires Sized(cfg, f.sh[k]) && IsUnused(cfg, f.sh[k], f.dev[k]) && cfg.closePage == 0 && (p.pausing ==> r.op.Read?)
    ensures Expanded(cfg, f.sh[k], r) == OpenFor(cfg, f.sh[k], r, [Activating(r), r])
    ensures forall j | 0 <= j < |bs| :: Sized(cfg, f.sh[j]) && |f.dev[j].subs| == cfg.subarrays
    ensures ForUsed(cfg, bs, [r]) && HeadsAtHome(cfg, bs, Heard(f, r))
    ensures PicksFirst(p, cfg, bs, Heard(f, r), k, ClosedBank)
  {
    forall j | 0 <= j < |bs| ensures f.sh[j].queue == [] && Sized(cfg, f.sh[j]) && |f.dev[j].subs| == cfg.subarrays {
      assert Resting(cfg, f.sh[j], f.dev[j], f.now);
    }
    assert For(cfg, bs[k], r);
    forall j | 0 <= j < |bs| && For(cfg, bs[j], r) ensures j == k { assert bs[j] == bs[k]; }
  }

  /** It is the only head, and ready. */
  lemma ActivateIsReady(p: Timing, cfg: Config, bs: seq<nat>, f: Facts, k: nat, r: Request)
    requires Calm(cfg, bs, f) && k < |bs| && NextFor(f, bs[k], r)
    requires Sized(cfg, f.sh[k]) && IsUnused(cfg, f.sh[k], f.dev[k])
    requires Expanded(cfg, f.sh[k], r) == OpenFor(cfg, f.sh[k], r, [Activating(r), r])
    ensures AsksLeast(f.sh[k := Expanded(cfg, f.sh[k], r)], f.dev, Some(0))
    ensures SendsOnly(p, bs, Queued(cfg, Begun(Heard(f, r)), k, Some(0)), k)
    ensures HeadsAtHome(cfg, bs, Queued(cfg, Begun(Heard(f, r)), k, Some(0)))
  {
    hide Expanded, Bank.IsIssuable, Bank.NextIssuable;
    forall j | 0 <= j < |bs| ensures f.sh[j].queue == [] { assert Resting(cfg, f.sh[j], f.dev[j], f.now); }
    var dev := ActivateUntouched(p, cfg.subarrays, Activating(r), f.now + 1);
    assert HeadAsk(f.sh[k := Expanded(cfg, f.sh[k], r)][k], f.dev[k]) == Some(0);
  }

  lemma ActivateLeaves(p: Timing, cfg: Config, bs: seq<nat>, f: Facts, k: nat, r: Request, sent: Facts)
    requires Calm(cfg, bs, f) && k < |bs| && NextFor(f, bs[k], r)
    requires Sized(cfg, f.sh[k]) && IsUnused(cfg, f.sh[k], f.dev[k])
    requires Expanded(cfg, f.sh[k], r) == OpenFor(cfg, f.sh[k], r, [Activating(r), r])
    requires SendsOnly(p, bs, Queued(cfg, Begun(Heard(f, r)), k, Some(0)), k)
    requires sent == Sent(p, cfg, bs, Queued(cfg, Begun(Heard(f, r)), k, Some(0)), k)
    ensures Again(cfg, bs, sent) == sent && sent.queue == [] && sent.cleanupAt == Some(f.now + 2)
    ensures sent.now == f.now + 1 && sent.wakes == {f.now + 2} && sent.cycles == multiset{} && sent.pulseAt == f.pulseAt
    ensures Cleaned(sent.(now := f.now + 2)) == Activated(p, cfg, f, k, r)
    ensures |sent.dev| == |bs| && forall j | 0 <= j < |bs| && j != k :: sent.dev[j] == f.dev[j]
    ensures sent.dev[k] == AfterActivate(p, cfg, r, f.now + 1)
  {
    hide Expanded, Bank.IssueCommand, Bank.IsIssuable, IsReady, OpenEntry;
    var sh := OpenFor(cfg, f.sh[k], r, [Activating(r), r]);
    assert MarkIssued(sh.queue) == [Activating(r).(issued := true), r];
    assert multiset{f.now + 1} - multiset{f.now + 1} == multiset{};
    forall j | 0 <= j < |bs| ensures f.sh[j].queue == [] { assert Resting(cfg, f.sh[j], f.dev[j], f.now); }
    assert Cleaned(sent).sh == f.sh[k := OpenFor(cfg, f.sh[k], r, [r])];
  }

  /** The cycle event that follows queues the commands for the transaction and sends the activate. */
  lemma Activates(p: Timing, cfg: Config, interval: nat, bs: seq<nat>, t: T.State, f: Facts, k: nat, r: Request)
    returns (steps: seq<W.Step>, t': T.State)
    requires Calm(cfg, bs, f) && k < |bs| && NextFor(f, bs[k], r)
    requires Sized(cfg, f.sh[k]) && IsUnused(cfg, f.sh[k], f.dev[k]) && cfg.closePage == 0 && (p.pausing ==> r.op.Read?)
    requires Shows(cfg, bs, t, Heard(f, r)) && forall g | 0 <= g < |f.pulseAt| :: f.now + 2 <= f.pulseAt[g]
    ensures Runs(p, cfg, interval, t, steps, t') && Shows(cfg, bs, t', Activated(p, cfg, f, k, r)) && !t'.handingOver
  {
    hide Runs, Links, Tracks, HeadsAtHome, NoneSelected, Waits, Again, SendsNothing, BankRuns.NothingBefore, Resting;
    hide PicksFirst, AsksLeast, SendsOnly, Expanded, Bank.IssueCommand;
    var h := Heard(f, r);
    ActivateIsNext(p, cfg, bs, f, k, r);
    ActivateIsReady(p, cfg, bs, f, k, r);
    var t1 := CyclesToScheduleAndSend(p, cfg, interval, bs, t, h, k, ClosedBank, Some(0));
    var sent := Sent(p, cfg, bs, Queued(cfg, Begun(h), k, Some(0)), k);
    ActivateLeaves(p, cfg, bs, f, k, r, sent);
    RestsQuietly(cfg, bs, f, f.now + 2);
    ActivateRests(p, cfg, r, f.now + 1, f.now + 2);
    var t2 := Passes(p, cfg, interval, bs, t1, sent, f.now + 2);
    t' := Cleans(p, cfg, interval, bs, t2, sent.(now := f.now + 2));
    var c1, c2 := W.Cycle(Some(W.Choice(0, ClosedBank, false)), 0, NotBounced), W.Advance(f.now + 2);
    ThreeRun(p, cfg, interval, t, c1, t1, c2, t2, W.Cleanup, t');
    steps := [c1, c2, W.Cleanup];
  }

  lemma ActivateRests(p: Timing, cfg: Config, r: Request, now: nat, to: nat)
    requires r.row == 0 && r.subarray == 0
    ensures var dev := AfterActivate(p, cfg, r, now);
      && RowIsOpen(dev, cfg.subarrays) && Rested(dev.subs[0])
      && dev.next.precharge == dev.next.read == dev.next.write == 0
      && dev.subs[0].next.precharge == now + Max(p.rcd, p.ras)
      && dev.subs[0].next.read == dev.subs[0].next.write == now + p.rcd - p.al
    ensures forall x | 0 <= x < |AfterActivate(p, cfg, r, now).subs| ::
      BankRuns.NothingBefore(AfterActivate(p, cfg, r, now).subs[x], to)
  {
    hide Bank.IssueCommand;
    var dev := ActivateUntouched(p, cfg.subarrays, Activating(r), now);
  }

  // ---------------------------------------------------------------- the read

  /** The cycle in which the column command behind an activate sent after cycle `now` can be sent. */
  function ColumnAt(p: Timing, now: nat): nat { Max(now + 2, now + 1 + p.rcd - p.al) }

  lemma HeadIsColumn(p: Timing, cfg: Config, bs: seq<nat>, f: Facts, k: nat, r: Request, a: Facts, to: nat)
    requires Calm(cfg, bs, f) && k < |bs| && NextFor(f, bs[k], r)
    requires Sized(cfg, f.sh[k]) && a.sh == Activated(p, cfg, f, k, r).sh && a.dev == Activated(p, cfg, f, k, r).dev
    ensures HeadsAtHome(cfg, bs, a) && AsksLeast(a.sh, a.dev, Some(f.now + 1 + p.rcd - p.al))
    ensures forall j | 0 <= j < |bs| && j != k :: !IsReady(p, a.sh[j], a.dev[j], a.now)
    ensures a.sh[k].queue == [r] && (IsReady(p, a.sh[k], a.dev[k], a.now) <==> f.now + 1 + p.rcd - p.al <= a.now)
    ensures forall j | 0 <= j < |a.dev| :: forall x | 0 <= x < |a.dev[j].subs| ::
      BankRuns.NothingBefore(a.dev[j].subs[x], to)
  {
    hide Bank.IssueCommand;
    forall j | 0 <= j < |bs| ensures f.sh[j].queue == [] { assert Resting(cfg, f.sh[j], f.dev[j], f.now); }
    ActivateRests(p, cfg, r, f.now + 1, to);
    RestsQuietly(cfg, bs, f, to);
    assert HeadAsk(a.sh[k], a.dev[k]) == Some(f.now + 1 + p.rcd - p.al);
  }

  /** The callbacks wait until the columns of the row are ready. */
  lemma ComesToColumn(p: Timing, cfg: Config, interval: nat, bs: seq<nat>, t: T.State, f: Facts, k: nat, r: Request)
    returns (steps: seq<W.Step>, t': T.State, a: Facts)
    requires Calm(cfg, bs, f) && k < |bs| && NextFor(f, bs[k], r) && Sized(cfg, f.sh[k])
    requires Shows(cfg, bs, t, Activated(p, cfg, f, k, r)) && !t.handingOver
    requires forall g | 0 <= g < |f.pulseAt| :: ColumnAt(p, f.now) < f.pulseAt[g]
    ensures var x := ColumnAt(p, f.now); a == Activated(p, cfg, f, k, r).(now := x, wakes := {x}, ranAt := a.ranAt)
    ensures Runs(p, cfg, interval, t, steps, t') && Shows(cfg, bs, t', a) && !t'.handingOver
  {
    hide Runs, Links, Tracks, Resting, HeadsAtHome, AsksLeast, IsReady, BankRuns.NothingBefore;
    var f0, x := Activated(p, cfg, f, k, r), ColumnAt(p, f.now);
    if x == f0.now {
      steps, t', a := [], t, f0;
      RunsNone(p, cfg, interval, t);
    } else {
      HeadIsColumn(p, cfg, bs, f, k, r, f0, f0.now + 1);
      var t1 := WakesIdly(p, cfg, interval, bs, t, f0, Some(x));
      var f1 := Woken(f0, Some(x));
      HeadIsColumn(p, cfg, bs, f, k, r, f1, x);
      assert f1.wakes == {x};
      t' := Passes(p, cfg, interval, bs, t1, f1, x);
      a := f1.(now := x);
      RunsOne(p, cfg, interval, t, W.Wake(0, NotBounced), t1);
      Then(p, cfg, interval, t, [W.Wake(0, NotBounced)], t1, W.Advance(x), t');
      steps := [W.Wake(0, NotBounced)] + [W.Advance(x)];
    }
  }

  lemma RunsNone(p: Timing, cfg: Config, interval: nat, t: T.State)
    ensures Runs(p, cfg, interval, t, [], t)
  {
    hide T.Enabled, T.Apply, Follows;
  }

  /** Bank `k` has been read once, and nothing is left to do. */
  ghost function Opened(p: Timing, cfg: Config, f: Facts, k: nat, r: Request, a: Facts): Facts
    requires k < |f.sh| == |a.sh| && k < |a.dev| && Sized(cfg, f.sh[k]) && r.subarray < cfg.subarrays
    requires Bank.Routed(a.dev[k], r)
  {
    a.(sh := f.sh[k := OpenFor(cfg, f.sh[k], r, [])], lastIssue := a.now, now := a.now + 1, wakes := {},
       dev := a.dev[k := Bank.IssueCommand(p, a.dev[k], r, Moment(a.now, 0, NotBounced)).state],
       ranAt := Some(a.now + 1), cur := if a.cur + 1 > cfg.ranks * cfg.banks then 0 else a.cur + 1)
  }

  /** A transaction for an unused bank is handed over, its activate is sent, and its column command can be sent now. */
  lemma ComesToHead(p: Timing, cfg: Config, interval: nat, bs: seq<nat>, t: T.State, f: Facts, k: nat, r: Request)
    returns (steps: seq<W.Step>, t': T.State, a: Facts)
    requires Shows(cfg, bs, t, f) && Calm(cfg, bs, f) && k < |bs| && NextFor(f, bs[k], r)
    requires Sized(cfg, f.sh[k]) && IsUnused(cfg, f.sh[k], f.dev[k]) && cfg.closePage == 0 && (p.pausing ==> r.op.Read?)
    requires forall g | 0 <= g < |f.pulseAt| :: ColumnAt(p, f.now) < f.pulseAt[g]
    ensures var x := ColumnAt(p, f.now); a == Activated(p, cfg, f, k, r).(now := x, wakes := {x}, ranAt := a.ranAt)
    ensures Runs(p, cfg, interval, t, steps, t') && Shows(cfg, bs, t', a) && !t'.handingOver
  {
    hide Runs, Links, Shows, Calm, Activated, IsUnused;
    var s1, t1 := Hears(p, cfg, interval, bs, t, f, k, r);
    var s2, t2 := Activates(p, cfg, interval, bs, t1, f, k, r);
    var s3;
    s3, t', a := ComesToColumn(p, cfg, interval, bs, t2, f, k, r);
    RunsOn(p, cfg, interval, t, s1, t1, s2, t2);
    RunsOn(p, cfg, interval, t, s1 + s2, t2, s3, t');
    steps := s1 + s2 + s3;
  }

  /** What is left once the read was sent and cleaned up. */
  ghost function AfterRead(p: Timing, cfg: Config, f: Facts, k: nat, r: Request, a: Facts): Facts
    requires k < |f.sh| == |a.sh| && k < |a.dev| && Sized(cfg, f.sh[k]) && r.subarray < cfg.subarrays
    requires Bank.Routed(a.dev[k], r)
  {
    Opened(p, cfg, f, k, r, a).(wakes := {a.now + 1}, ranAt := Some(a.now))
  }

  lemma ReadLeaves(p: Timing, cfg: Config, bs: seq<nat>, f: Facts, k: nat, r: Request, a: Facts, least: Option<nat>)
    requires Calm(cfg, bs, f) && k < |bs| && r == Transaction(f.ids, Op.Read, bs[k], 1, f.now) && Sized(cfg, f.sh[k])
    requires a == Activated(p, cfg, f, k, r).(now := a.now, wakes := {a.now}, ranAt := a.ranAt)
    requires least == Some(f.now + 1 + p.rcd - p.al) && least.value <= a.now
    ensures Bank.Routed(a.dev[k], r) && a.sh[k].queue == [r]
    ensures var sent := Sent(p, cfg, bs, Woken(a, least), k);
      && sent.now == a.now && sent.wakes == {a.now + 1} && sent.cycles == multiset{} && sent.pulseAt == f.pulseAt
      && sent.cleanupAt == Some(a.now + 1) && sent.dev == Opened(p, cfg, f, k, r, a).dev
      && Cleaned(sent.(now := a.now + 1)) == AfterRead(p, cfg, f, k, r, a)
    ensures forall j | 0 <= j < |bs| :: Opened(p, cfg, f, k, r, a).sh[j].queue == []
    ensures IsOpen(Opened(p, cfg, f, k, r, a).dev[k], cfg.subarrays, a.now + Settle(p, 1))
    ensures forall j | 0 <= j < |bs| && j != k :: Opened(p, cfg, f, k, r, a).dev[j] == f.dev[j]
  {
    hide Bank.IssueCommand, OpenEntry;
    ActivateRests(p, cfg, r, f.now + 1, 0);
    ReadSettles(p, a.dev[k], cfg.subarrays, f.now + 1 + Max(p.rcd, p.ras), r, a.now);
    var sent := Sent(p, cfg, bs, Woken(a, least), k);
    assert MarkIssued([r]) == [r.(issued := true)];
    forall j | 0 <= j < |bs| ensures f.sh[j].queue == [] { assert Resting(cfg, f.sh[j], f.dev[j], f.now); }
    assert Cleaned(sent).sh == f.sh[k := OpenFor(cfg, f.sh[k], r, [])];
    assert {a.now} - {a.now} + {a.now + 1} == {a.now + 1};
  }

  lemma OpenedRests(p: Timing, cfg: Config, bs: seq<nat>, f: Facts, k: nat, r: Request, a: Facts, to: nat)
    requires Calm(cfg, bs, f) && k < |bs| == |a.dev| == |a.sh| && r.subarray < cfg.subarrays && Sized(cfg, f.sh[k])
    requires Bank.Routed(a.dev[k], r) && forall j | 0 <= j < |bs| && j != k :: a.dev[j] == f.dev[j]
    requires IsOpen(Opened(p, cfg, f, k, r, a).dev[k], cfg.subarrays, a.now + Settle(p, 1))
    ensures forall j | 0 <= j < |bs| :: forall x | 0 <= x < |Opened(p, cfg, f, k, r, a).dev[j].subs| ::
      BankRuns.NothingBefore(Opened(p, cfg, f, k, r, a).dev[j].subs[x], to)
  {
    hide BankRuns.NothingBefore, IsOpen, Resting, Bank.IssueCommand;
    RestsQuietly(cfg, bs, f, to);
    OpenRests(Opened(p, cfg, f, k, r, a).dev[k], cfg.subarrays, a.now + Settle(p, 1), to);
  }

  lemma SendsRead(p: Timing, cfg: Config, interval: nat, bs: seq<nat>, t: T.State, f: Facts, k: nat, r: Request,
                  a: Facts)
    returns (steps: seq<W.Step>, t': T.State)
    requires Calm(cfg, bs, f) && k < |bs| && r == Transaction(f.ids, Op.Read, bs[k], 1, f.now) && Sized(cfg, f.sh[k])
    requires a == Activated(p, cfg, f, k, r).(now := a.now, wakes := {a.now}, ranAt := a.ranAt)
    requires Shows(cfg, bs, t, a) && !t.handingOver && f.now + 1 + p.rcd - p.al <= a.now && f.now + 2 <= a.now
    requires forall g | 0 <= g < |f.pulseAt| :: a.now + 1 < f.pulseAt[g]
    ensures Bank.Routed(a.dev[k], r)
    ensures Runs(p, cfg, interval, t, steps, t') && Shows(cfg, bs, t', AfterRead(p, cfg, f, k, r, a)) && !t'.handingOver
  {
    hide Runs, Links, Tracks, Resting, HeadsAtHome, AsksLeast, IsReady, BankRuns.NothingBefore, IsOpen;
    hide Bank.IssueCommand;
    hide Settle, Sized, OpenEntry, Cleaned, W.Available, OpenFor, Opened;
    var least := Some(f.now + 1 + p.rcd - p.al);
    HeadIsColumn(p, cfg, bs, f, k, r, a, a.now + 1);
    ReadLeaves(p, cfg, bs, f, k, r, a, least);
    var t1 := WakesToSend(p, cfg, interval, bs, t, a, least, k);
    var sent := Sent(p, cfg, bs, Woken(a, least), k);
    OpenedRests(p, cfg, bs, f, k, r, a, a.now + 1);
    var t2 := Passes(p, cfg, interval, bs, t1, sent, a.now + 1);
    t' := Cleans(p, cfg, interval, bs, t2, sent.(now := a.now + 1));
    var wake, wait := W.Wake(0, NotBounced), W.Advance(a.now + 1);
    ThreeRun(p, cfg, interval, t, wake, t1, wait, t2, W.Cleanup, t');
    steps := [wake, wait, W.Cleanup];
  }

  /** The read is sent, and the callback after it finds nothing to do. */
  lemma ReadsAlone(p: Timing, cfg: Config, interval: nat, bs: seq<nat>, t: T.State, f: Facts, k: nat, r: Request,
                   a: Facts)
    returns (steps: seq<W.Step>, t': T.State)
    requires Calm(cfg, bs, f) && k < |bs| && r == Transaction(f.ids, Op.Read, bs[k], 1, f.now) && Sized(cfg, f.sh[k])
    requires a == Activated(p, cfg, f, k, r).(now := a.now, wakes := {a.now}, ranAt := a.ranAt)
    requires Shows(cfg, bs, t, a) && !t.handingOver && f.now + 1 + p.rcd - p.al <= a.now && f.now + 2 <= a.now
    requires forall g | 0 <= g < |f.pulseAt| :: a.now + 1 < f.pulseAt[g]
    ensures Bank.Routed(a.dev[k], r)
    ensures Runs(p, cfg, interval, t, steps, t') && Shows(cfg, bs, t', Opened(p, cfg, f, k, r, a)) && !t'.handingOver
  {
    hide Runs, Links, Tracks, Resting, HeadsAtHome, AsksLeast, IsReady, BankRuns.NothingBefore, IsOpen;
    hide Bank.IssueCommand;
    hide Settle, Sized, OpenEntry;
    ReadLeaves(p, cfg, bs, f, k, r, a, Some(f.now + 1 + p.rcd - p.al));
    var s1, t1 := SendsRead(p, cfg, interval, bs, t, f, k, r, a);
    var f1 := AfterRead(p, cfg, f, k, r, a);
    OpenedRests(p, cfg, bs, f, k, r, a, a.now + 2);
    NoHeads(p, cfg, bs, f1);
    t' := WakesIdly(p, cfg, interval, bs, t1, f1, None);
    assert {a.now + 1} - {a.now + 1} + {} == {};
    Then(p, cfg, interval, t, s1, t1, W.Wake(0, NotBounced), t');
    steps := s1 + [W.Wake(0, NotBounced)];
  }

  lemma NoHeads(p: Timing, cfg: Config, bs: seq<nat>, f: Facts)
    requires |f.sh| == |f.dev| == |bs| && forall j | 0 <= j < |bs| :: f.sh[j].queue == []
    ensures HeadsAtHome(cfg, bs, f) && AsksLeast(f.sh, f.dev, None) && SendsNothing(p, f)
  {}

  lemma OpenRests(dev: Bank.State, n: nat, due: nat, to: nat)
    requires IsOpen(dev, n, due)
    ensures forall x | 0 <= x < |dev.subs| :: BankRuns.NothingBefore(dev.subs[x], to)
  {}

  // ---------------------------------------------------------------- opening a row

  /** How long it takes at most until a row is open and all its timers have passed. */
  function Setup(p: Timing): nat { p.rcd + Settle(p, 1) + 4 }

  lemma OpenedIsCalm(p: Timing, cfg: Config, bs: seq<nat>, f: Facts, k: nat, r: Request, a: Facts, to: nat, f': Facts)
    requires Calm(cfg, bs, f) && k < |bs| && r == Transaction(f.ids, Op.Read, bs[k], 1, f.now) && Sized(cfg, f.sh[k])
    requires a == Activated(p, cfg, f, k, r).(now := a.now, wakes := {a.now}, ranAt := a.ranAt)
    requires Bank.Routed(a.dev[k], r)
    requires f' == Opened(p, cfg, f, k, r, a).(now := to) && a.now + Settle(p, 1) <= to && a.now + 1 < to && f.now < to
    requires IsOpen(f'.dev[k], cfg.subarrays, a.now + Settle(p, 1)) && PulsesDone(f')
    ensures Calm(cfg, bs, f') && Sized(cfg, f'.sh[k]) && IsServing(cfg, f'.sh[k], f'.dev[k], to)
  {
    hide Bank.IssueCommand;
    assert Resting(cfg, f.sh[k], f.dev[k], f.now);
    forall j | 0 <= j < |bs| ensures Resting(cfg, f'.sh[j], f'.dev[j], to) {
      assert Resting(cfg, f.sh[j], f.dev[j], f.now);
    }
  }

  /** From a quiet state a run opens row 0 of bank `k`, and leads to a quiet state again. */
  lemma OpensBank(p: Timing, cfg: Config, interval: nat, bs: seq<nat>, t: T.State, f: Facts, k: nat, to: nat)
    returns (steps: seq<W.Step>, t': T.State, f': Facts)
    requires Shows(cfg, bs, t, f) && Calm(cfg, bs, f) && k < |bs| && cfg.closePage == 0
    requires Sized(cfg, f.sh[k]) && IsUnused(cfg, f.sh[k], f.dev[k])
    requires f.now + Setup(p) <= to && forall g | 0 <= g < |f.pulseAt| :: to < f.pulseAt[g]
    ensures Runs(p, cfg, interval, t, steps, t') && Shows(cfg, bs, t', f') && Calm(cfg, bs, f')
    ensures f'.now == to && f'.pulseAt == f.pulseAt
    ensures Sized(cfg, f'.sh[k]) && IsServing(cfg, f'.sh[k], f'.dev[k], to)
    ensures forall j | 0 <= j < |bs| && j != k :: f'.sh[j] == f.sh[j] && f'.dev[j] == f.dev[j]
  {
    hide Runs, Links, Shows, Resting, IsOpen, Bank.IssueCommand, BankRuns.NothingBefore, OpenEntry, IsServing;
    var r := Transaction(f.ids, Op.Read, bs[k], 1, f.now);
    var s1, t1, a := ComesToHead(p, cfg, interval, bs, t, f, k, r);
    var s2, t2 := ReadsAlone(p, cfg, interval, bs, t1, f, k, r, a);
    ReadLeaves(p, cfg, bs, f, k, r, a, Some(f.now + 1 + p.rcd - p.al));
    var o := Opened(p, cfg, f, k, r, a);
    OpenedRests(p, cfg, bs, f, k, r, a, to);
    t' := Passes(p, cfg, interval, bs, t2, o, to);
    f' := o.(now := to);
    OpenedIsCalm(p, cfg, bs, f, k, r, a, to, f');
    RunsOn(p, cfg, interval, t, s1, t1, s2, t2);
    Then(p, cfg, interval, t, s1 + s2, t2, W.Advance(to), t');
    steps := s1 + s2 + [W.Advance(to)];
  }

  // ---------------------------------------------------------------- power-on

  /** What a run has seen at power-on. */
  function PowerOn(cfg: Config, bs: seq<nat>, interval: nat): Facts
    requires cfg.Valid()
  {
    Facts([], seq(|bs|, _ => InitialShadow(cfg)), seq(|bs|, _ => Bank.Initial(cfg.subarrays, false)),
          0, 0, None, {}, multiset{}, None, None, 0, 0, T.FirstPulses(cfg, interval))
  }

  lemma PowerOnShows(cfg: Config, bs: seq<nat>, interval: nat)
    requires Used(cfg, bs)
    ensures Shows(cfg, bs, T.Initial(cfg, 1, interval), PowerOn(cfg, bs, interval))
  {
    hide T.FirstPulses;
    var t, f := T.Initial(cfg, 1, interval), PowerOn(cfg, bs, interval);
    var c := t.controller.channel;
    assert c.queues == [[]];
    forall j | 0 <= j < |bs| ensures Holds(cfg, bs[j], c, f.sh[j], f.dev[j]) { IdsDiffer(cfg, bs, j, j); }
    forall k | 0 <= k < |c.shadows| && Unused(cfg, bs, k) ensures IsIdle(cfg, c, k) {}
  }

  /** One cycle after power-on nothing has happened yet. */
  lemma StartsCalm(p: Timing, cfg: Config, interval: nat, bs: seq<nat>) returns (t: T.State)
    requires Used(cfg, bs) && forall g | 0 <= g < |T.FirstPulses(cfg, interval)| :: 1 < T.FirstPulses(cfg, interval)[g]
    ensures var f := PowerOn(cfg, bs, interval).(now := 1);
      && Runs(p, cfg, interval, T.Initial(cfg, 1, interval), [W.Advance(1)], t) && Shows(cfg, bs, t, f)
        && Calm(cfg, bs, f)
      && forall j | 0 <= j < |bs| :: Sized(cfg, f.sh[j]) && IsUnused(cfg, f.sh[j], f.dev[j])
  {
    hide T.FirstPulses, Runs, Links, Shows;
    var f := PowerOn(cfg, bs, interval);
    PowerOnShows(cfg, bs, interval);
    t := Passes(p, cfg, interval, bs, T.Initial(cfg, 1, interval), f, 1);
    RunsOne(p, cfg, interval, T.Initial(cfg, 1, interval), W.Advance(1), t);
  }
}
