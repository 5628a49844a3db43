/**
  The event-driven controller is never late: while a command can be sent, the controller is
  awake or about to be woken. Exactly which timings this depends on is part of the result.
 */
module WakeupRuns {
  import opened Commands
  import opened ControllerSpec
  import opened RefreshSpec
  import opened Wakeups
  import Channel
  import Bank = BankSpec
  import Sub = SubArraySpec
  import BankRuns

  // ---------------------------------------------------------------- the timing condition

  /**
    When column command `first` was sent to a bank of `n` subarrays, `next` is never ready before
    the next column command would be.
   */
  predicate PairPrompt(p: Timing, n: nat, first: Op, next: Op) {
    var span := p.Span(1);
    || span == 0
    || (next.PrechargeAll? && first.Read? && span + p.ccd <= p.al + p.burst + p.rtp)
    || (next.PrechargeAll? && first.Write? && span <= p.al + p.cwd + p.burst + p.wr)
    || (next.Refresh? && n == 1 && first.ReadPrecharge? && span <= p.al + p.rtp + p.rp)
    || (next.Refresh? && n == 1 && first.WritePrecharge? && span <= p.al + p.cwd + p.burst + p.wr + p.rp)
  }

  /** The timings for which no wake-up comes too late. */
  ghost predicate Prompt(p: Timing, cfg: Config) {
    forall first: Op, next: Op | MayFollow(cfg, first, next) :: PairPrompt(p, cfg.subarrays, first, next)
  }

  /** That is: all timings without refreshes; otherwise it depends on the page policy and the subarrays. */
  predicate PromptTimings(p: Timing, cfg: Config) {
    !cfg.useRefresh || p.Span(1) == 0 ||
    (&& (cfg.closePage != 2 ==>
           p.Span(1) + p.ccd <= p.al + p.burst + p.rtp && p.Span(1) <= p.al + p.cwd + p.burst + p.wr)
     && (cfg.closePage != 0 ==>
           cfg.subarrays == 1 && p.Span(1) <= p.al + p.rtp + p.rp && p.Span(1) <= p.al + p.cwd + p.burst + p.wr + p.rp))
  }

  lemma PromptIs(p: Timing, cfg: Config)
    ensures Prompt(p, cfg) <==> PromptTimings(p, cfg)
  {
    if Prompt(p, cfg) {
      assert MayFollow(cfg, Op.Read, Op.PrechargeAll) ==> PairPrompt(p, cfg.subarrays, Op.Read, Op.PrechargeAll);
      assert MayFollow(cfg, Op.Write, Op.PrechargeAll) ==> PairPrompt(p, cfg.subarrays, Op.Write, Op.PrechargeAll);
      assert MayFollow(cfg, Op.ReadPrecharge, Op.Refresh) ==>
        PairPrompt(p, cfg.subarrays, Op.ReadPrecharge, Op.Refresh);
      assert MayFollow(cfg, Op.WritePrecharge, Op.Refresh) ==>
        PairPrompt(p, cfg.subarrays, Op.WritePrecharge, Op.Refresh);
    }
  }

  // ---------------------------------------------------------------- what may follow a column command

  /** What can be queued behind a column command: only what a refresh needs. */
  predicate MayFollow(cfg: Config, op: Op, next: Op) {
    cfg.useRefresh && op.IsColumn()
    && if op.Closes() then cfg.closePage != 0 && (next.Refresh? || (next.PrechargeAll? && 1 < cfg.subarrays))
       else cfg.closePage != 2 && next.PrechargeAll?
  }

  predicate EndOk(cfg: Config, op: Op, activateQueued: bool) {
    && (op.Read? || op.Write? ==> activateQueued && cfg.closePage != 2)
    && (op.ReadPrecharge? || op.WritePrecharge? ==> cfg.closePage != 0 && (cfg.subarrays == 1 ==> !activateQueued))
  }

  predicate ShapeOk(cfg: Config, sh: Shadow) {
    && (forall i | 0 <= i < |sh.queue| - 1 && sh.queue[i].op.IsColumn() ::
      MayFollow(cfg, sh.queue[i].op, sh.queue[i + 1].op))
    && (sh.queue != [] ==> EndOk(cfg, sh.queue[|sh.queue| - 1].op, sh.activateQueued))
  }

  ghost predicate ShapesOk(cfg: Config, shadows: seq<Shadow>) {
    forall k | 0 <= k < |shadows| :: ShapeOk(cfg, shadows[k])
  }

  lemma ExpandShapeOk(cfg: Config, sh: Shadow, r: Request, writing: bool)
    requires Sized(cfg, sh) && r.subarray < cfg.subarrays && sh.queue == [] && (r.op.Read? || r.op.Write?)
    requires (r.last ==> cfg.closePage != 0) && (cfg.closePage == 2 ==> r.last) && ClosePageHolds(cfg, sh)
    ensures ShapeOk(cfg, Expand(cfg, sh, r, false, writing).shadow)
  {
    Channel.ExpandShape(cfg, sh, r, false, writing);
  }

  lemma RefreshShapeOk(cfg: Config, sh: Shadow, rank: nat, bank: nat, isHead: bool)
    requires ShapeOk(cfg, sh) && cfg.useRefresh
    ensures ShapeOk(cfg, QueueRefresh(cfg, sh, rank, bank, isHead))
  {
    var closed := CloseForRefresh(cfg, sh, rank, bank);
    CloseShapeOk(cfg, sh, rank, bank);
    if isHead {
      AppendShapeOk(cfg, closed, QueueRefresh(cfg, sh, rank, bank, isHead), MakeCommand(Op.Refresh, 0, bank, rank, 0));
    }
  }

  lemma CloseShapeOk(cfg: Config, sh: Shadow, rank: nat, bank: nat)
    requires ShapeOk(cfg, sh) && cfg.useRefresh
    ensures ShapeOk(cfg, CloseForRefresh(cfg, sh, rank, bank)) && !CloseForRefresh(cfg, sh, rank, bank).activateQueued
  {
    if sh.activateQueued {
      AppendShapeOk(cfg, sh, CloseForRefresh(cfg, sh, rank, bank), MakeCommand(Op.PrechargeAll, 0, bank, rank, 0));
    }
  }

  lemma AppendShapeOk(cfg: Config, sh: Shadow, sh': Shadow, r: Request)
    requires ShapeOk(cfg, sh) && sh'.queue == sh.queue + [r] && cfg.useRefresh
    requires (r.op.PrechargeAll? && sh.activateQueued) || (r.op.Refresh? && !sh.activateQueued)
    ensures ShapeOk(cfg, sh')
  {
    forall i | 0 <= i < |sh'.queue| - 1 && sh'.queue[i].op.IsColumn()
      ensures MayFollow(cfg, sh'.queue[i].op, sh'.queue[i + 1].op) {
      if i < |sh.queue| - 1 { assert MayFollow(cfg, sh.queue[i].op, sh.queue[i + 1].op); }
    }
  }

  // ---------------------------------------------------------------- how long a head is held back

  /** Some timer holds `r` back until cycle `w`. */
  ghost predicate HeldUntil(b: Bank.State, r: Request, w: nat) {
    || w <= Bank.TimerOf(b.next, r.op)
    || (if r.op.PrechargeAll? then exists x :: x in b.active && x < |b.subs| && w <= b.subs[x].next.precharge
        else r.subarray < |b.subs| && w <= Sub.TimerOf(b.subs[r.subarray].next, r.op))
  }

  lemma HeldIsNotIssuable(p: Timing, b: Bank.State, r: Request, w: nat, now: nat)
    requires Bank.Routed(b, r) && r.op.IsArray() && Bank.IsIssuable(p, b, r, now) && HeldUntil(b, r, w)
    ensures w <= now
  {}

  /** What NextIssuable answers is never later than the first cycle at which the command could go. */
  lemma AskedIsHeld(b: Bank.State, r: Request)
    requires Bank.Routed(b, r) && r.op.IsArray()
    ensures HeldUntil(b, r, Bank.NextIssuable(b, r))
  {}

  lemma HeldEarlier(b: Bank.State, r: Request, v: nat, w: nat)
    requires HeldUntil(b, r, w) && v <= w
    ensures HeldUntil(b, r, v)
  {}

  /** Timers that do not go back and rows that stay active hold a command as long as before. */
  lemma HeldStays(b: Bank.State, b': Bank.State, r: Request, w: nat)
    requires HeldUntil(b, r, w) && BankRuns.TimersAdvance(b, b') && b'.active == b.active
    ensures HeldUntil(b', r, w)
  {
    if w <= Bank.TimerOf(b.next, r.op) {
      assert Bank.TimerOf(b.next, r.op) <= Bank.TimerOf(b'.next, r.op);
    } else if r.op.PrechargeAll? {
      var x :| x in b.active && x < |b.subs| && w <= b.subs[x].next.precharge;
      assert Sub.NotBefore(b.subs[x].next, b'.subs[x].next);
    } else {
      assert Sub.NotBefore(b.subs[r.subarray].next, b'.subs[r.subarray].next);
    }
  }

  // ---------------------------------------------------------------- covered queues

  /** Some scheduled callback comes before the head could be sent; or the controller runs now and in the next cycle. */
  ghost predicate HeadCovered(b: Bank.State, h: Request, wakes: set<nat>, now: nat, ran: bool) {
    exists w :: w in wakes && (w <= now || HeldUntil(b, h, w) || (ran && w == now + 1))
  }

  /** A command sent at `t`, still at the head, asks for a wake-up in time for whatever may follow it. */
  ghost predicate HandsOver(cfg: Config, b: Bank.State, h: Request, t: nat) {
    Bank.Routed(b, h) &&
    (Bank.NextIssuable(b, h) <= t + 1
     || (h.op.IsColumn() && forall r: Request | MayFollow(cfg, h.op, r.op) && (r.op.Refresh? ==> r.subarray == 0) ::
           HeldUntil(b, r, Bank.NextIssuable(b, h))))
  }

  /** What waits behind a head that was sent at `t` will be covered once the head is dropped. */
  ghost predicate NextCovered(b: Bank.State, next: Request, wakes: set<nat>, now: nat, t: nat) {
    t + 1 in wakes || (now == t && now in wakes) || exists w :: w in wakes && HeldUntil(b, next, w)
  }

  ghost predicate QueueCovered(cfg: Config, q: seq<Request>, b: Bank.State, wakes: set<nat>, now: nat, ran: bool,
                               lastIssue: nat) {
    q != [] ==>
      if q[0].issued then
        HandsOver(cfg, b, q[0], lastIssue) && (|q| > 1 ==> NextCovered(b, q[1], wakes, now, lastIssue))
      else
        HeadCovered(b, q[0], wakes, now, ran)
  }

  ghost predicate Covered(cfg: Config, s: State) {
    |s.channel.shadows| == |s.channel.devices|
    && forall k | 0 <= k < |s.channel.shadows| ::
         QueueCovered(cfg, s.channel.shadows[k].queue, s.channel.devices[k], s.wakes, s.channel.now,
                      s.ranAt == Some(s.channel.now), s.channel.lastIssue)
  }

  /** No callback is scheduled for a cycle that has passed, and none has run in one still to come. */
  ghost predicate NothingPast(s: State) {
    && (forall w | w in s.wakes :: s.channel.now <= w) && (forall c | c in s.cycles :: s.channel.now <= c)
    && (s.ranAt.Some? ==> s.ranAt.value <= s.channel.now)
  }

  /** What holds whatever the timings. */
  ghost predicate Valid(p: Timing, cfg: Config, s: State) {
    && cfg.Valid() && Channel.Inv(p, cfg, s.channel)
    && |s.delayed| == cfg.ranks * cfg.Groups() && NoneDue(cfg, s.delayed)
    && NothingPast(s)
    && ShapesOk(cfg, s.channel.shadows)
  }

  // ---------------------------------------------------------------- scheduling a wake-up covers every queue

  ghost predicate AllHandOver(cfg: Config, c: Channel.State) {
    |c.shadows| == |c.devices|
    && forall k | 0 <= k < |c.shadows| && c.shadows[k].queue != [] && c.shadows[k].queue[0].issued ::
         HandsOver(cfg, c.devices[k], c.shadows[k].queue[0], c.lastIssue) && c.now == c.lastIssue
  }

  ghost predicate HeadsOk(cfg: Config, c: Channel.State) {
    |c.shadows| == |c.devices| == cfg.ranks * cfg.banks
    && forall k | 0 <= k < |c.shadows| && c.shadows[k].queue != [] ::
         Bank.Routed(c.devices[k], c.shadows[k].queue[0]) && c.shadows[k].queue[0].op.IsArray()
         && (|c.shadows[k].queue| > 1 && c.shadows[k].queue[1].op.Refresh? ==> c.shadows[k].queue[1].subarray == 0)
  }

  lemma InvHeadsOk(p: Timing, cfg: Config, c: Channel.State)
    requires Channel.Inv(p, cfg, c)
    ensures HeadsOk(cfg, c)
  {
    forall k | 0 <= k < |c.shadows| && c.shadows[k].queue != []
      ensures Bank.Routed(c.devices[k], c.shadows[k].queue[0]) && c.shadows[k].queue[0].op.IsArray()
      ensures |c.shadows[k].queue| > 1 && c.shadows[k].queue[1].op.Refresh? ==> c.shadows[k].queue[1].subarray == 0 {
      assert Channel.BankOk(p, cfg, k, c.shadows[k], c.devices[k], c);
      assert Channel.CommandOk(p, cfg, k, c.shadows[k].queue[0]);
      if |c.shadows[k].queue| > 1 { assert Channel.CommandOk(p, cfg, k, c.shadows[k].queue[1]); }
    }
  }

  /** One wake-up, no later than a head asks for, covers its queue. */
  lemma OneWakeCovers(cfg: Config, q: seq<Request>, b: Bank.State, wakes: set<nat>, w: nat, now: nat, lastIssue: nat)
    requires q != [] && Bank.Routed(b, q[0]) && q[0].op.IsArray()
    requires w in wakes && now < w <= Max(Bank.NextIssuable(b, q[0]), now + 1)
    requires q[0].issued ==> HandsOver(cfg, b, q[0], lastIssue) && now == lastIssue
    requires |q| > 1 ==>
      && (q[0].op.IsColumn() ==> MayFollow(cfg, q[0].op, q[1].op))
      && (q[1].op.Refresh? ==> q[1].subarray == 0)
    ensures QueueCovered(cfg, q, b, wakes, now, true, lastIssue)
  {
    if w != now + 1 {
      AskedIsHeld(b, q[0]);
      HeldEarlier(b, q[0], w, Bank.NextIssuable(b, q[0]));
      if q[0].issued && |q| > 1 {
        assert HeldUntil(b, q[1], Bank.NextIssuable(b, q[0]));
        HeldEarlier(b, q[1], w, Bank.NextIssuable(b, q[0]));
      }
    }
  }

  /** Scheduling a wake-up covers every queue, whatever was scheduled before. */
  lemma WokenCovers(cfg: Config, s: State)
    requires HeadsOk(cfg, s.channel) && ShapesOk(cfg, s.channel.shadows) && AllHandOver(cfg, s.channel)
    requires s.ranAt == Some(s.channel.now)
    ensures Covered(cfg, Woken(cfg, s))
  {
    hide QueueCovered, HandsOver, ShapeOk, Soonest, Bank.NextIssuable, Bank.Routed;
    var c, woken := s.channel, Woken(cfg, s);
    SoonestIsLeast(cfg, c.shadows, c.devices);
    forall k | 0 <= k < |c.shadows|
      ensures QueueCovered(cfg, c.shadows[k].queue, c.devices[k], woken.wakes, c.now, true, c.lastIssue) {
      var q := c.shadows[k].queue;
      if q == [] {
        EmptyIsCovered(cfg, c.devices[k], woken.wakes, c.now, true, c.lastIssue);
      } else {
        assert Asks(c.shadows, c.devices, k).Some?;
        var w := NextWake(cfg, c.shadows, c.devices, c.now).value;
        assert ShapeOk(cfg, c.shadows[k]);
        if |q| > 1 { ShapeFirst(cfg, c.shadows[k]); }
        OneWakeCovers(cfg, q, c.devices[k], woken.wakes, w, c.now, c.lastIssue);
      }
    }
  }

  lemma EmptyIsCovered(cfg: Config, b: Bank.State, wakes: set<nat>, now: nat, ran: bool, lastIssue: nat)
    ensures QueueCovered(cfg, [], b, wakes, now, ran, lastIssue)
  {}

  lemma ShapeFirst(cfg: Config, sh: Shadow)
    requires ShapeOk(cfg, sh) && |sh.queue| > 1
    ensures sh.queue[0].op.IsColumn() ==> MayFollow(cfg, sh.queue[0].op, sh.queue[1].op)
  {}

  // ---------------------------------------------------------------- sending hands over to what follows

  lemma SpanStep(p: Timing, n: positive)
    ensures p.Span(n) == p.Span(n - 1) + p.Span(1)
  {
    var s := Max(p.burst, p.ccd);
    assert s * n == s * (n - 1) + s * 1;
  }

  /** What a bank and its subarray agree to carry out, as the handover needs it. */
  ghost predicate Sendable(p: Timing, n: nat, b: Bank.State, h: Request, m: Moment) {
    && Bank.Inv(p, b, m.now) && Bank.Routed(b, h) && Sub.Sendable(p, h) && |b.subs| == n
    && h.op.IsArray() && Bank.IsIssuable(p, b, h, m.now)
  }

  /** The bank once it has carried `h` out. */
  lemma SentBank(p: Timing, n: nat, b: Bank.State, h: Request, m: Moment) returns (b': Bank.State)
    requires Sendable(p, n, b, h, m)
    ensures b' == Bank.IssueCommand(p, b, h, m).state && Bank.Routed(b', h)
  {
    b' := Bank.IssueCommand(p, b, h, m).state;
    Bank.GuardIsComplete(p, b, h, m);
    BankRuns.IssueAdvancesTimers(p, b, h, m);
  }

  lemma RowCommandHandsOver(p: Timing, n: nat, b: Bank.State, h: Request, m: Moment, b': Bank.State)
    requires Sendable(p, n, b, h, m) && !h.op.IsColumn() && !h.op.PrechargeAll?
    requires b' == Bank.IssueCommand(p, b, h, m).state && Bank.Routed(b', h)
    ensures Bank.NextIssuable(b', h) <= m.now + 1
  {
    BankRuns.SentState(p, b, h, m);
  }

  lemma PrechargeAllHandsOver(p: Timing, n: nat, b: Bank.State, h: Request, m: Moment, b': Bank.State)
    requires Sendable(p, n, b, h, m) && h.op.PrechargeAll?
    requires b' == Bank.IssueCommand(p, b, h, m).state && Bank.Routed(b', h)
    ensures Bank.NextIssuable(b', h) <= m.now + 1
  {
    var timed := b.(next := b.next.(powerDown := Max(b.next.powerDown, m.now + p.rp)));
    Bank.PrechargeActiveSucceeds(p, timed, h, m);
  }

  /** The timers that matter for the handover after a column command. */
  lemma ColumnTimers(p: Timing, n: nat, b: Bank.State, h: Request, m: Moment) returns (b': Bank.State)
    requires Sendable(p, n, b, h, m) && h.op.IsColumn()
    ensures b' == Bank.IssueCommand(p, b, h, m).state && Bank.Routed(b', h)
    ensures var s' := b'.subs[h.subarray];
      var last := m.now + p.Span(h.bursts - 1) + m.latency;
      match h.op
      case Read =>
        && Bank.NextIssuable(b', h) <= m.now + p.Span(h.bursts) && h.subarray in b'.active
        && last + p.al + p.burst + p.rtp - p.ccd <= s'.next.precharge
      case Write =>
        && Bank.NextIssuable(b', h) <= m.now + p.Span(h.bursts) + m.latency && h.subarray in b'.active
        && last + p.al + p.cwd + p.burst + p.wr <= s'.next.precharge
      case ReadPrecharge =>
        Bank.NextIssuable(b', h) <= m.now + p.Span(h.bursts) && last + p.al + p.rtp + p.rp <= s'.next.activate
      case _ =>
        Bank.NextIssuable(b', h) <= m.now + p.Span(h.bursts)
          && last + p.al + p.cwd + p.burst + p.wr + p.rp <= s'.next.activate
  {
    b' := SentBank(p, n, b, h, m);
    BankRuns.SentState(p, b, h, m);
    assert h.subarray in b.active;
    if h.op.IsRead() { ReadTimers(p, b, h, m); } else { WriteTimers(p, b, h, m); }
  }

  lemma ReadTimers(p: Timing, b: Bank.State, h: Request, m: Moment)
    requires Bank.Inv(p, b, m.now) && Bank.Routed(b, h) && h.op.IsRead() && Bank.IsIssuable(p, b, h, m.now)
    ensures var b' := Bank.ReadStep(p, b, h, m).state;
      && b'.next.read <= m.now + p.Span(h.bursts) && (h.op.Read? ==> b'.active == b.active)
  {}

  lemma WriteTimers(p: Timing, b: Bank.State, h: Request, m: Moment)
    requires Bank.Inv(p, b, m.now) && Bank.Routed(b, h) && h.op.IsWrite() && Bank.IsIssuable(p, b, h, m.now)
    ensures var b' := Bank.WriteStep(p, b, h, m).state;
      && b'.next.write <= m.now + p.Span(h.bursts) && (h.op.Write? ==> b'.active == b.active)
  {}

  /** A column command asks for a wake-up no later than anything behind it is ready, given prompt timings. */
  lemma ColumnHandsOver(p: Timing, n: nat, b: Bank.State, h: Request, m: Moment, r: Request)
    requires Sendable(p, n, b, h, m) && h.op.IsColumn() && PairPrompt(p, n, h.op, r.op) && p.Span(1) != 0
    requires r.op.Refresh? ==> r.subarray == 0
    ensures var b' := Bank.IssueCommand(p, b, h, m).state;
      Bank.Routed(b', h) && HeldUntil(b', r, Bank.NextIssuable(b', h))
  {
    hide Bank.IssueCommand, Bank.NextIssuable, Sendable;
    var b' := ColumnTimers(p, n, b, h, m);
    SpanStep(p, h.bursts);
    ColumnSubarray(p, n, b, h, m);
  }

  lemma ColumnSubarray(p: Timing, n: nat, b: Bank.State, h: Request, m: Moment)
    requires Sendable(p, n, b, h, m)
    ensures n == 1 ==> h.subarray == 0
  {}

  /** With prompt timings, a command that was sent asks for a wake-up in time for what follows it. */
  lemma SendHandsOver(p: Timing, cfg: Config, b: Bank.State, h: Request, m: Moment)
    requires Sendable(p, cfg.subarrays, b, h, m) && Prompt(p, cfg)
    ensures HandsOver(cfg, Bank.IssueCommand(p, b, h, m).state, h, m.now)
  {
    hide Bank.IssueCommand, Bank.NextIssuable, Sendable;
    var b' := SentBank(p, cfg.subarrays, b, h, m);
    SendIsArray(p, cfg.subarrays, b, h, m);
    if h.op.PrechargeAll? {
      PrechargeAllHandsOver(p, cfg.subarrays, b, h, m, b');
    } else if !h.op.IsColumn() {
      RowCommandHandsOver(p, cfg.subarrays, b, h, m, b');
    } else if p.Span(1) == 0 {
      NoSpanHandsOver(p, cfg, b, h, m, b');
    } else {
      forall r: Request | MayFollow(cfg, h.op, r.op) && (r.op.Refresh? ==> r.subarray == 0)
        ensures HeldUntil(b', r, Bank.NextIssuable(b', h)) {
        ColumnHandsOver(p, cfg.subarrays, b, h, m, r);
      }
    }
  }

  lemma SendIsArray(p: Timing, n: nat, b: Bank.State, h: Request, m: Moment)
    requires Sendable(p, n, b, h, m)
    ensures h.op.IsArray()
  {}

  /** Bursts that take no time hand over at once, except that a write may be slowed down. */
  lemma NoSpanHandsOver(p: Timing, cfg: Config, b: Bank.State, h: Request, m: Moment, b': Bank.State)
    requires Sendable(p, cfg.subarrays, b, h, m) && h.op.IsColumn() && p.Span(1) == 0
    requires b' == Bank.IssueCommand(p, b, h, m).state
    ensures HandsOver(cfg, b', h, m.now)
  {
    hide Bank.IssueCommand, Bank.NextIssuable, Sendable;
    var b1 := ColumnTimers(p, cfg.subarrays, b, h, m);
    NoSpan(p, h.bursts);
    NoSpan(p, h.bursts - 1);
  }

  /** The same for one pair of commands, whatever the configuration. */
  lemma PairHandsOver(p: Timing, n: nat, b: Bank.State, h: Request, m: Moment, r: Request)
    requires Sendable(p, n, b, h, m) && h.op.IsColumn() && PairPrompt(p, n, h.op, r.op)
    requires r.op.PrechargeAll? || (h.op.Closes() && r.op.Refresh? && r.subarray == 0)
    ensures var b' := Bank.IssueCommand(p, b, h, m).state;
      Bank.Routed(b', h) && (Bank.NextIssuable(b', h) <= m.now + 1 || HeldUntil(b', r, Bank.NextIssuable(b', h)))
  {
    hide Bank.IssueCommand, Bank.NextIssuable, Sendable;
    if p.Span(1) != 0 {
      ColumnHandsOver(p, n, b, h, m, r);
    } else {
      var b1 := ColumnTimers(p, n, b, h, m);
      NoSpan(p, h.bursts);
      NoSpan(p, h.bursts - 1);
    }
  }

  lemma NoSpan(p: Timing, n: nat)
    requires p.Span(1) == 0
    ensures p.Span(n) == 0
  {}

  // ---------------------------------------------------------------- sending keeps every queue covered

  /** A head that can be sent has a wake-up now or in the next cycle. */
  lemma IssuableIsAttended(p: Timing, b: Bank.State, h: Request, wakes: set<nat>, now: nat, ran: bool)
    requires Bank.Routed(b, h) && h.op.IsArray() && Bank.IsIssuable(p, b, h, now)
    requires HeadCovered(b, h, wakes, now, ran) && forall w | w in wakes :: now <= w
    ensures now in wakes || (ran && now + 1 in wakes)
  {
    var w :| w in wakes && (w <= now || HeldUntil(b, h, w) || (ran && w == now + 1));
    if HeldUntil(b, h, w) { HeldIsNotIssuable(p, b, h, w, now); }
  }

  lemma SentQueueCovered(p: Timing, cfg: Config, q: seq<Request>, b: Bank.State, m: Moment, wakes: set<nat>,
                         ran: bool, lastIssue: nat)
    requires q != [] && !q[0].issued && Sendable(p, cfg.subarrays, b, q[0], m) && Prompt(p, cfg)
    requires QueueCovered(cfg, q, b, wakes, m.now, ran, lastIssue) && forall w | w in wakes :: m.now <= w
    ensures QueueCovered(cfg, MarkIssued(q), Bank.IssueCommand(p, b, q[0], m).state, wakes, m.now, ran, m.now)
  {
    hide Bank.IssueCommand, Bank.NextIssuable;
    SendHandsOver(p, cfg, b, q[0], m);
    IssuableIsAttended(p, b, q[0], wakes, m.now, ran);
    MarkedHandsOver(cfg, Bank.IssueCommand(p, b, q[0], m).state, q[0], m.now);
  }

  lemma MarkedHandsOver(cfg: Config, b: Bank.State, h: Request, t: nat)
    requires HandsOver(cfg, b, h, t)
    ensures HandsOver(cfg, b, h.(issued := true), t)
  {}

  /** A refresh sent to the group of a bank moves its timers on and leaves its active rows alone. */
  lemma RefreshKeepsCovered(p: Timing, cfg: Config, q: seq<Request>, b: Bank.State, r: Request, m: Moment,
                            wakes: set<nat>, ran: bool, lastIssue: nat)
    requires Sendable(p, cfg.subarrays, b, r, m) && r.op.Refresh? && (q != [] ==> !q[0].issued)
    requires QueueCovered(cfg, q, b, wakes, m.now, ran, lastIssue)
    ensures QueueCovered(cfg, q, Bank.IssueCommand(p, b, r, m).state, wakes, m.now, ran, m.now)
  {
    var b' := Bank.IssueCommand(p, b, r, m).state;
    BankRuns.IssueAdvancesTimers(p, b, r, m);
    RefreshKeepsActive(p, b, r, m);
    if q != [] {
      var w :| w in wakes && (w <= m.now || HeldUntil(b, q[0], w) || (ran && w == m.now + 1));
      if HeldUntil(b, q[0], w) { HeldStays(b, b', q[0], w); }
    }
  }

  lemma RefreshKeepsActive(p: Timing, b: Bank.State, r: Request, m: Moment)
    requires Bank.Routed(b, r) && r.op.Refresh?
    ensures Bank.IssueCommand(p, b, r, m).state.active == b.active
  {}

  /** An unsent queue stays covered while nothing reaches its bank. */
  lemma UnreachedStaysCovered(cfg: Config, q: seq<Request>, b: Bank.State, wakes: set<nat>, now: nat, ran: bool,
                              t: nat, t': nat)
    requires QueueCovered(cfg, q, b, wakes, now, ran, t) && (q != [] ==> !q[0].issued)
    ensures QueueCovered(cfg, q, b, wakes, now, ran, t')
  {}

  lemma ReachedIsSendable(p: Timing, cfg: Config, c: Channel.State, id: nat, r: Request, m: Moment, k: nat)
    requires Channel.BanksOk(p, cfg, c) && k < |c.shadows| && m.now == c.now && id < |c.shadows|
    requires Channel.CommandOk(p, cfg, id, r) && Channel.Issuable(p, cfg, c.devices, r, c.now)
    requires Channel.Reaches(cfg, r, k)
    ensures Sendable(p, cfg.subarrays, c.devices[k], r, m)
  {
    assert Channel.BankOk(p, cfg, k, c.shadows[k], c.devices[k], c);
  }

  lemma SendKeepsQueueCovered(p: Timing, cfg: Config, s: State, id: nat, r: Request, m: Moment, k: nat, b': Bank.State)
    requires Prompt(p, cfg) && Channel.BanksOk(p, cfg, s.channel) && Covered(cfg, s) && m.now == s.channel.now
    requires id < |s.channel.shadows| && k < |s.channel.shadows| && s.channel.shadows[id].queue != []
    requires r == s.channel.shadows[id].queue[0] && Channel.CommandOk(p, cfg, id, r)
    requires Channel.Issuable(p, cfg, s.channel.devices, r, s.channel.now)
    requires forall j | 0 <= j < |s.channel.shadows| && s.channel.shadows[j].queue != [] ::
      !s.channel.shadows[j].queue[0].issued
    requires forall w | w in s.wakes :: s.channel.now <= w
    requires Channel.Reaches(cfg, r, k) ==> Bank.Routed(s.channel.devices[k], r)
    requires b' == Channel.DeviceAfter(p, cfg, s.channel.devices, r, m, k)
    ensures var q := s.channel.shadows[k].queue;
      QueueCovered(cfg, if k == id then MarkIssued(q) else q, b', s.wakes, m.now, s.ranAt == Some(m.now), m.now)
  {
    hide QueueCovered, Channel.BanksOk, Channel.Issuable, Bank.IssueCommand, Sendable;
    var q, b := s.channel.shadows[k].queue, s.channel.devices[k];
    Channel.OwnBankIsReached(p, cfg, id, r);
    if Channel.Reaches(cfg, r, k) {
      ReachedIsSendable(p, cfg, s.channel, id, r, m, k);
      if k == id {
        SentQueueCovered(p, cfg, q, b, m, s.wakes, s.ranAt == Some(m.now), s.channel.lastIssue);
      } else {
        RefreshKeepsCovered(p, cfg, q, b, r, m, s.wakes, s.ranAt == Some(m.now), s.channel.lastIssue);
      }
    } else {
      UnreachedStaysCovered(cfg, q, b, s.wakes, m.now, s.ranAt == Some(m.now), s.channel.lastIssue, m.now);
    }
  }

  lemma SendingCovers(p: Timing, cfg: Config, s: State, latency: nat, bounce: Bounce)
    requires Prompt(p, cfg) && Channel.Inv(p, cfg, s.channel) && Covered(cfg, s) && ReadyToRun(s)
    requires NothingPast(s)
    ensures Covered(cfg, Sending(p, cfg, s, latency, bounce))
  {
    hide QueueCovered, Channel.Inv, Channel.Apply, Channel.Enabled, ToSend, Channel.DeviceAfter, Channel.ShadowAfter;
    hide Channel.BanksOk, Channel.Issuable, Channel.CommandOk, Channel.Reaches, Prompt;
    if ToSend(p, cfg, s).Some? {
      SendIsEnabled(p, cfg, s, latency, bounce);
      var id := ToSend(p, cfg, s).value;
      var step := Channel.IssueHead(id, latency, bounce);
      var r, m := Channel.IssueEffect(p, cfg, s.channel, step);
      var c' := Channel.Apply(p, cfg, s.channel, step);
      InvHasBanks(p, cfg, s.channel);
      SentIsAHead(p, cfg, s);
      forall k | 0 <= k < |c'.shadows|
        ensures QueueCovered(cfg, c'.shadows[k].queue, c'.devices[k], s.wakes, c'.now,
                             s.ranAt == Some(c'.now), c'.lastIssue) {
        Channel.SendMarksHead(cfg, s.channel.shadows, id, r, k);
        SendKeepsQueueCovered(p, cfg, s, id, r, m, k, c'.devices[k]);
      }
    }
  }

  lemma InvHasBanks(p: Timing, cfg: Config, c: Channel.State)
    requires Channel.Inv(p, cfg, c)
    ensures Channel.BanksOk(p, cfg, c) && |c.shadows| == |c.devices| == cfg.ranks * cfg.banks
  {}

  lemma SentIsAHead(p: Timing, cfg: Config, s: State)
    requires ToSend(p, cfg, s).Some?
    ensures ToSend(p, cfg, s).value < |s.channel.shadows| && s.channel.shadows[ToSend(p, cfg, s).value].queue != []
  {
    var c := s.channel;
    FirstTurnCanSend(p, cfg, c.shadows, c.devices, s.curQueue, 0, c.now);
  }

  // ---------------------------------------------------------------- every step keeps Valid

  lemma ShapeStep(p: Timing, cfg: Config, c: Channel.State, step: Channel.Step)
    requires Channel.Inv(p, cfg, c) && Channel.Enabled(p, cfg, c, step) && ShapesOk(cfg, c.shadows)
    requires step.RefreshGroup? ==> cfg.useRefresh
    ensures ShapesOk(cfg, Channel.Apply(p, cfg, c, step).shadows)
  {
    hide Channel.Inv, Channel.Enabled, Channel.Apply, ShapesOk;
    match step
    case Schedule(_, _, _) => ScheduleShape(p, cfg, c, step);
    case RefreshGroup(rank, head) => RefreshShape(p, cfg, c, step);
    case IssueHead(_, _, _) => SendShape(p, cfg, c, step);
    case Cleanup => CleanupShape(p, cfg, c, step);
    case _ => SameShape(p, cfg, c, step);
  }

  lemma CleanupShape(p: Timing, cfg: Config, c: Channel.State, step: Channel.Step)
    requires Channel.Enabled(p, cfg, c, step) && ShapesOk(cfg, c.shadows) && step.Cleanup?
    ensures ShapesOk(cfg, Channel.Apply(p, cfg, c, step).shadows)
  {
    var after := Channel.Apply(p, cfg, c, step).shadows;
    forall k | 0 <= k < |after| ensures ShapeOk(cfg, after[k]) { assert ShapeOk(cfg, c.shadows[k]); }
  }

  lemma SameShape(p: Timing, cfg: Config, c: Channel.State, step: Channel.Step)
    requires Channel.Enabled(p, cfg, c, step) && ShapesOk(cfg, c.shadows)
    requires step.Accept? || step.MarkRefresh? || step.Event? || step.Advance?
    ensures ShapesOk(cfg, Channel.Apply(p, cfg, c, step).shadows)
  {
    var after := Channel.Apply(p, cfg, c, step).shadows;
    forall k | 0 <= k < |after| ensures ShapeOk(cfg, after[k]) { assert ShapeOk(cfg, c.shadows[k]); }
  }

  lemma ScheduleShape(p: Timing, cfg: Config, c: Channel.State, step: Channel.Step)
    requires Channel.Inv(p, cfg, c) && Channel.Enabled(p, cfg, c, step) && ShapesOk(cfg, c.shadows) && step.Schedule?
    ensures ShapesOk(cfg, Channel.Apply(p, cfg, c, step).shadows)
  {
    hide ShapeOk, Channel.Enabled, Channel.Apply;
    var i, r, id, writing := Channel.ScheduleEffect(p, cfg, c, step);
    ScheduledLast(p, cfg, c, step);
    assert Channel.BankOk(p, cfg, id, c.shadows[id], c.devices[id], c);
    ExpandShapeOk(cfg, c.shadows[id], r, writing);
  }

  /** A transaction is only the last of its row when rows are closed. */
  lemma ScheduledLast(p: Timing, cfg: Config, c: Channel.State, step: Channel.Step)
    requires Channel.Inv(p, cfg, c) && Channel.Enabled(p, cfg, c, step) && step.Schedule?
    ensures var i := FirstMatch(cfg, c.shadows, c.now, step.sel, c.queues[step.queue]);
      && i < |c.queues[step.queue]|
      && (Channel.Picked(cfg, step.force, c.queues[step.queue], i).last ==> cfg.closePage != 0)
  {
    var i := FirstMatch(cfg, c.shadows, c.now, step.sel, c.queues[step.queue]);
    assert Channel.TransactionOk(cfg, c.queues[step.queue][i]);
  }

  lemma RefreshShape(p: Timing, cfg: Config, c: Channel.State, step: Channel.Step)
    requires Channel.Enabled(p, cfg, c, step) && ShapesOk(cfg, c.shadows) && step.RefreshGroup? && cfg.useRefresh
    ensures ShapesOk(cfg, Channel.Apply(p, cfg, c, step).shadows)
  {
    hide ShapeOk;
    var after := Channel.Apply(p, cfg, c, step).shadows;
    forall k | 0 <= k < |after| ensures ShapeOk(cfg, after[k]) {
      assert ShapeOk(cfg, c.shadows[k]);
      RefreshShapeOk(cfg, c.shadows[k], step.rank, BankOf(cfg, k), k == QueueId(cfg, step.rank, step.head));
    }
  }

  lemma SendShape(p: Timing, cfg: Config, c: Channel.State, step: Channel.Step)
    requires Channel.Enabled(p, cfg, c, step) && ShapesOk(cfg, c.shadows) && step.IssueHead?
    ensures ShapesOk(cfg, Channel.Apply(p, cfg, c, step).shadows)
  {
    hide Channel.Issuable, Channel.DeviceAfter;
    var after := Channel.Apply(p, cfg, c, step).shadows;
    forall k | 0 <= k < |after| ensures ShapeOk(cfg, after[k]) {
      assert ShapeOk(cfg, c.shadows[k]);
      assert after[k].queue == (if k == step.id then MarkIssued(c.shadows[k].queue) else c.shadows[k].queue);
    }
  }

  lemma {:induction false} ShapeRun(p: Timing, cfg: Config, c: Channel.State, steps: seq<Channel.Step>)
    requires Channel.Inv(p, cfg, c) && ShapesOk(cfg, c.shadows) && Channel.Execute(p, cfg, c, steps).Some?
    requires forall i | 0 <= i < |steps| :: steps[i].RefreshGroup? ==> cfg.useRefresh
    ensures ShapesOk(cfg, Channel.Execute(p, cfg, c, steps).value.shadows)
    ensures Channel.Inv(p, cfg, Channel.Execute(p, cfg, c, steps).value)
    decreases |steps|
  {
    hide Channel.Inv, Channel.Enabled, Channel.Apply, ShapesOk;
    if steps != [] {
      Channel.StepKeepsInv(p, cfg, c, steps[0]);
      ShapeStep(p, cfg, c, steps[0]);
      ShapeRun(p, cfg, Channel.Apply(p, cfg, c, steps[0]), steps[1..]);
    }
  }

  lemma TraceRefreshes(p: Timing, cfg: Config, s: State, step: Step)
    requires Enabled(p, cfg, s, step)
    ensures forall i | 0 <= i < |Trace(p, cfg, s, step)| :: Trace(p, cfg, s, step)[i].RefreshGroup? ==> cfg.useRefresh
  {
    hide Channel.Enabled, Channel.Apply, ToSend, NextWake;
  }

  lemma WokenKeepsFuture(cfg: Config, s: State)
    requires NothingPast(s)
    ensures NothingPast(Woken(cfg, s))
  {
    hide Soonest;
  }

  lemma SendingKeepsFuture(p: Timing, cfg: Config, s: State, latency: nat, bounce: Bounce)
    requires NothingPast(s) && ReadyToRun(s)
    ensures NothingPast(Sending(p, cfg, s, latency, bounce))
  {
    hide ToSend, Channel.Issuable, Available;
  }

  lemma RescheduledKeepsFuture(cfg: Config, s: State)
    requires NothingPast(s)
    ensures NothingPast(Rescheduled(cfg, s))
  {
    hide Attends;
  }

  lemma RefreshedKeepsNow(p: Timing, cfg: Config, c: Channel.State, rank: nat, head: nat)
    requires c.cleanupAt != Some(c.now) && Channel.IsGroup(cfg, rank, head)
    ensures Refreshed(p, cfg, c, rank, head).now == c.now
  {}

  lemma CycleKeepsFuture(p: Timing, cfg: Config, s: State, step: Step)
    requires Enabled(p, cfg, s, step) && NothingPast(s) && (step.Cycle? || step.Wake?)
    ensures NothingPast(Apply(p, cfg, s, step))
  {
    hide NextWake, Sending, Rescheduled, Channel.Enabled;
    if step.Cycle? {
      var begun := s.(cycles := s.cycles - multiset{s.channel.now}, ranAt := Some(s.channel.now));
      ScheduleKeepsReady(p, cfg, begun, step.choice);
      var scheduled := Scheduled(p, cfg, begun, step.choice);
      if step.choice.Some? {
        WokenKeepsFuture(cfg, begun.(channel := Channel.Apply(p, cfg, s.channel, ScheduleOf(step.choice.value))));
      }
      SendingKeepsFuture(p, cfg, scheduled, step.latency, step.bounce);
      RescheduledKeepsFuture(cfg, Sending(p, cfg, scheduled, step.latency, step.bounce));
    } else {
      var begun := s.(wakes := s.wakes - {s.channel.now}, ranAt := Some(s.channel.now));
      WokenKeepsFuture(cfg, begun);
      SendingKeepsFuture(p, cfg, Woken(cfg, begun), step.latency, step.bounce);
    }
  }

  /** Callbacks schedule nothing in the past, and time does not pass what is scheduled. */
  lemma StepKeepsFuture(p: Timing, cfg: Config, s: State, step: Step)
    requires Enabled(p, cfg, s, step) && NothingPast(s)
    ensures NothingPast(Apply(p, cfg, s, step))
  {
    hide NextWake, Sending, Scheduled, Rescheduled, Refreshed, Over, EffectivelyEmpty, NothingPast;
    match step
    case Cycle(_, _, _) => CycleKeepsFuture(p, cfg, s, step);
    case Wake(_, _) => CycleKeepsFuture(p, cfg, s, step);
    case Pulse(rank, head) => PulseKeepsFuture(p, cfg, s, rank, head);
    case _ => OtherKeepsFuture(p, cfg, s, step);
  }

  lemma PulseKeepsFuture(p: Timing, cfg: Config, s: State, rank: nat, head: nat)
    requires Enabled(p, cfg, s, Pulse(rank, head)) && NothingPast(s)
    ensures NothingPast(Apply(p, cfg, s, Pulse(rank, head)))
  {
    hide NextWake, Refreshed, Over, Channel.IsGroup, GroupIndex, Woken;
    RefreshedKeepsNow(p, cfg, s.channel, rank, head);
    WokenKeepsFuture(cfg, s.(channel := Refreshed(p, cfg, s.channel, rank, head), handled := Some(s.channel.now),
                             ranAt := Some(s.channel.now)));
  }

  lemma OtherKeepsFuture(p: Timing, cfg: Config, s: State, step: Step)
    requires Enabled(p, cfg, s, step) && NothingPast(s)
    requires step.Accept? || step.Cleanup? || step.Event? || step.Advance?
    ensures NothingPast(Apply(p, cfg, s, step))
  {
    hide EffectivelyEmpty, BankRuns.Apply;
  }

  lemma DelayedStays(p: Timing, cfg: Config, s: State, step: Step)
    requires Enabled(p, cfg, s, step) && NoneDue(cfg, s.delayed)
    ensures |Apply(p, cfg, s, step).delayed| == |s.delayed| && NoneDue(cfg, Apply(p, cfg, s, step).delayed)
  {
    hide ToSend, Soonest, Channel.Enabled, Channel.Apply, Attends, Available;
    if step.Pulse? {
      var g := GroupIndex(cfg, step.rank, step.head);
      var counted := s.delayed[g := s.delayed[g] + 1];
      assert forall i | 0 <= i < |s.delayed| :: !Over(cfg, s.delayed, i);
      if !Over(cfg, counted, g) {
        forall i | 0 <= i < |counted| ensures !Over(cfg, counted, i) { assert !Over(cfg, s.delayed, i); }
      }
    }
  }

  lemma StepKeepsValid(p: Timing, cfg: Config, s: State, step: Step)
    requires Valid(p, cfg, s) && Enabled(p, cfg, s, step)
    ensures Valid(p, cfg, Apply(p, cfg, s, step))
  {
    hide Channel.Inv, Enabled, Apply, ShapesOk, Trace, NoneDue;
    StepIsRun(p, cfg, s, step);
    TraceRefreshes(p, cfg, s, step);
    ShapeRun(p, cfg, s.channel, Trace(p, cfg, s, step));
    StepKeepsFuture(p, cfg, s, step);
    DelayedStays(p, cfg, s, step);
  }

  // ---------------------------------------------------------------- every step keeps every queue covered

  /** When callbacks may run, a head that was sent was sent in this very cycle. */
  lemma SentNow(p: Timing, cfg: Config, s: State)
    requires Channel.Inv(p, cfg, s.channel) && Covered(cfg, s) && ReadyToRun(s)
    ensures AllHandOver(cfg, s.channel)
  {
    var c := s.channel;
    forall k | 0 <= k < |c.shadows| && c.shadows[k].queue != [] && c.shadows[k].queue[0].issued
      ensures HandsOver(cfg, c.devices[k], c.shadows[k].queue[0], c.lastIssue) && c.now == c.lastIssue {
      assert Channel.BankOk(p, cfg, k, c.shadows[k], c.devices[k], c);
      assert QueueCovered(cfg, c.shadows[k].queue, c.devices[k], s.wakes, c.now, s.ranAt == Some(c.now), c.lastIssue);
    }
  }

  lemma ScheduleKeepsHandOver(p: Timing, cfg: Config, c: Channel.State, step: Channel.Step)
    requires Channel.Inv(p, cfg, c) && Channel.Enabled(p, cfg, c, step) && step.Schedule? && AllHandOver(cfg, c)
    ensures AllHandOver(cfg, Channel.Apply(p, cfg, c, step))
  {
    hide HandsOver, Channel.Enabled, Channel.Apply;
    var i, r, id, writing := Channel.ScheduleEffect(p, cfg, c, step);
    Channel.ExpandKeepsCommands(p, cfg, c.shadows[id], r, writing, id);
  }

  lemma ScheduledCovers(p: Timing, cfg: Config, s: State, choice: Option<Choice>)
    requires Channel.Inv(p, cfg, s.channel) && ShapesOk(cfg, s.channel.shadows) && Covered(cfg, s) && ReadyToRun(s)
    requires s.ranAt == Some(s.channel.now) && NothingPast(s) && Schedulable(p, cfg, s, choice)
    ensures var s' := Scheduled(p, cfg, s, choice);
      Channel.Inv(p, cfg, s'.channel) && Covered(cfg, s') && NothingPast(s') && ReadyToRun(s')
  {
    hide Channel.Inv, Channel.Enabled, Channel.Apply, ShapesOk, Covered, Woken, AllHandOver, HeadsOk;
    ScheduleKeepsReady(p, cfg, s, choice);
    if choice.Some? {
      var step := ScheduleOf(choice.value);
      var c' := Channel.Apply(p, cfg, s.channel, step);
      SentNow(p, cfg, s);
      Channel.StepKeepsInv(p, cfg, s.channel, step);
      ShapeStep(p, cfg, s.channel, step);
      ScheduleKeepsHandOver(p, cfg, s.channel, step);
      InvHeadsOk(p, cfg, c');
      ScheduleKeepsNow(p, cfg, s.channel, step);
      WokenCovers(cfg, s.(channel := c'));
      WokenKeepsFuture(cfg, s.(channel := c'));
      WokenKeepsChannel(cfg, s.(channel := c'));
    }
  }

  lemma ScheduleKeepsNow(p: Timing, cfg: Config, c: Channel.State, step: Channel.Step)
    requires Channel.Enabled(p, cfg, c, step) && step.Schedule?
    ensures Channel.Apply(p, cfg, c, step).now == c.now
  {}

  lemma WokenKeepsChannel(cfg: Config, s: State)
    ensures Woken(cfg, s).channel == s.channel && Woken(cfg, s).ranAt == s.ranAt
  {}

  lemma RunningStaysCovered(cfg: Config, s: State, s': State)
    requires Covered(cfg, s) && s'.channel == s.channel && s'.wakes == s.wakes
    requires s'.ranAt == s.ranAt || s'.ranAt == Some(s.channel.now)
    ensures Covered(cfg, s')
  {
    hide HandsOver, HeldUntil;
    forall k | 0 <= k < |s.channel.shadows|
      ensures QueueCovered(cfg, s.channel.shadows[k].queue, s.channel.devices[k], s'.wakes, s.channel.now,
                           s'.ranAt == Some(s.channel.now), s.channel.lastIssue) {
      assert QueueCovered(cfg, s.channel.shadows[k].queue, s.channel.devices[k], s.wakes, s.channel.now,
                          s.ranAt == Some(s.channel.now), s.channel.lastIssue);
    }
  }

  lemma CycleCovers(p: Timing, cfg: Config, s: State, step: Step)
    requires Prompt(p, cfg) && Valid(p, cfg, s) && Covered(cfg, s) && Enabled(p, cfg, s, step) && step.Cycle?
    ensures Covered(cfg, Apply(p, cfg, s, step))
  {
    hide Channel.Inv, Channel.Enabled, Channel.Apply, ShapesOk, Covered, Prompt, NoneDue, Scheduled, Sending,
      Rescheduled;
    var begun := s.(cycles := s.cycles - multiset{s.channel.now}, ranAt := Some(s.channel.now));
    RunningStaysCovered(cfg, s, begun);
    ScheduledCovers(p, cfg, begun, step.choice);
    var scheduled := Scheduled(p, cfg, begun, step.choice);
    SendingCovers(p, cfg, scheduled, step.latency, step.bounce);
    var sent := Sending(p, cfg, scheduled, step.latency, step.bounce);
    RescheduledSame(cfg, sent);
    RunningStaysCovered(cfg, sent, Rescheduled(cfg, sent));
  }

  lemma RescheduledSame(cfg: Config, s: State)
    ensures var s' := Rescheduled(cfg, s); s'.channel == s.channel && s'.wakes == s.wakes && s'.ranAt == s.ranAt
  {}

  lemma WakeCovers(p: Timing, cfg: Config, s: State, step: Step)
    requires Prompt(p, cfg) && Valid(p, cfg, s) && Covered(cfg, s) && Enabled(p, cfg, s, step) && step.Wake?
    ensures Covered(cfg, Apply(p, cfg, s, step))
  {
    hide Channel.Inv, ShapesOk, Covered, Prompt, NoneDue, Sending, Woken, AllHandOver, HeadsOk;
    var begun := s.(wakes := s.wakes - {s.channel.now}, ranAt := Some(s.channel.now));
    SentNow(p, cfg, s);
    InvHeadsOk(p, cfg, s.channel);
    WokenCovers(cfg, begun);
    WokenKeepsFuture(cfg, begun);
    WokenKeepsChannel(cfg, begun);
    SendingCovers(p, cfg, Woken(cfg, begun), step.latency, step.bounce);
  }

  lemma RefreshKeepsHandOver(p: Timing, cfg: Config, c: Channel.State, rank: nat, head: nat)
    requires c.cleanupAt != Some(c.now) && Channel.IsGroup(cfg, rank, head) && AllHandOver(cfg, c)
    ensures AllHandOver(cfg, Refreshed(p, cfg, c, rank, head)) && Refreshed(p, cfg, c, rank, head).now == c.now
  {
    hide HandsOver;
    var c' := Refreshed(p, cfg, c, rank, head);
    forall k | 0 <= k < |c'.shadows| && c'.shadows[k].queue != [] && c'.shadows[k].queue[0].issued
      ensures HandsOver(cfg, c'.devices[k], c'.shadows[k].queue[0], c'.lastIssue) && c'.now == c'.lastIssue {
      assert c.shadows[k].queue <= c'.shadows[k].queue;
    }
  }

  lemma PulseCovers(p: Timing, cfg: Config, s: State, step: Step)
    requires Valid(p, cfg, s) && Covered(cfg, s) && Enabled(p, cfg, s, step) && step.Pulse?
    ensures Covered(cfg, Apply(p, cfg, s, step))
  {
    hide Channel.Inv, ShapesOk, NoneDue, Woken, AllHandOver, HeadsOk, Refreshed, Over, GroupIndex, Covered;
    StepKeepsValid(p, cfg, s, step);
    var c' := Refreshed(p, cfg, s.channel, step.rank, step.head);
    var queued := s.(channel := c', handled := Some(s.channel.now), ranAt := Some(s.channel.now));
    WokenKeepsChannel(cfg, queued);
    if Apply(p, cfg, s, step) == Woken(cfg, queued) {
      SentNow(p, cfg, s);
      RefreshKeepsHandOver(p, cfg, s.channel, step.rank, step.head);
      InvHeadsOk(p, cfg, c');
      WokenCovers(cfg, queued);
    } else {
      RunningStaysCovered(cfg, s, Apply(p, cfg, s, step));
    }
  }

  lemma CleanupCovers(p: Timing, cfg: Config, s: State, step: Step)
    requires Valid(p, cfg, s) && Covered(cfg, s) && Enabled(p, cfg, s, step) && step.Cleanup?
    ensures Covered(cfg, Apply(p, cfg, s, step))
  {
    hide HandsOver, HeldUntil, ShapesOk, NoneDue;
    var c, c' := s.channel, Apply(p, cfg, s, step).channel;
    forall k | 0 <= k < |c'.shadows|
      ensures QueueCovered(cfg, c'.shadows[k].queue, c'.devices[k], s.wakes, c'.now,
                             s.ranAt == Some(c'.now), c'.lastIssue) {
      assert QueueCovered(cfg, c.shadows[k].queue, c.devices[k], s.wakes, c.now, s.ranAt == Some(c.now), c.lastIssue);
      assert Channel.BankOk(p, cfg, k, c.shadows[k], c.devices[k], c);
      CleanedQueueCovered(cfg, c.shadows[k].queue, c.devices[k], s.wakes, c.now, s.ranAt == Some(c.now), c.lastIssue);
    }
  }

  lemma CleanedQueueCovered(cfg: Config, q: seq<Request>, b: Bank.State, wakes: set<nat>, now: nat, ran: bool, t: nat)
    requires QueueCovered(cfg, q, b, wakes, now, ran, t) && forall i | 0 < i < |q| :: !q[i].issued
    requires now == t + 1
    ensures QueueCovered(cfg, Pending(q), b, wakes, now, ran, t)
  {
    if q != [] && q[0].issued && |q| > 1 {
      assert NextCovered(b, q[1], wakes, now, t);
    }
  }

  /** Completion events change no timer, so no queue loses its cover. */
  lemma QuietBankStaysCovered(cfg: Config, q: seq<Request>, b: Bank.State, b': Bank.State, wakes: set<nat>, now: nat,
                              ran: bool, t: nat)
    requires QueueCovered(cfg, q, b, wakes, now, ran, t) && BankRuns.SameTimers(b, b')
    ensures QueueCovered(cfg, q, b', wakes, now, ran, t)
  {
    hide MayFollow;
    forall r: Request, w: nat ensures HeldUntil(b, r, w) ==> HeldUntil(b', r, w) { SameTimersHold(b, b', r, w); }
    if q != [] && q[0].issued { assert Bank.NextIssuable(b', q[0]) == Bank.NextIssuable(b, q[0]); }
  }

  lemma SameTimersHold(b: Bank.State, b': Bank.State, r: Request, w: nat)
    requires BankRuns.SameTimers(b, b')
    ensures HeldUntil(b, r, w) ==> HeldUntil(b', r, w)
  {}

  lemma EventCovers(p: Timing, cfg: Config, s: State, step: Step)
    requires Valid(p, cfg, s) && Covered(cfg, s) && Enabled(p, cfg, s, step) && step.Event?
    ensures Covered(cfg, Apply(p, cfg, s, step))
  {
    hide QueueCovered, ShapesOk, NoneDue;
    var c, c' := s.channel, Apply(p, cfg, s, step).channel;
    var b := BankRuns.Config(c.devices[step.id], c.now, []);
    assert Channel.BankOk(p, cfg, step.id, c.shadows[step.id], c.devices[step.id], c);
    assert BankRuns.Execute(p, b, [step.e]) == Some(BankRuns.Apply(p, b, step.e));
    BankRuns.QuietRunKeepsTimers(p, b, [step.e]);
    forall k | 0 <= k < |c'.shadows|
      ensures QueueCovered(cfg, c'.shadows[k].queue, c'.devices[k], s.wakes, c'.now,
                             s.ranAt == Some(c'.now), c'.lastIssue) {
      if k == step.id {
        QuietBankStaysCovered(cfg, c.shadows[k].queue, c.devices[k], c'.devices[k], s.wakes, c.now,
          s.ranAt == Some(c.now), c.lastIssue);
      }
    }
  }

  lemma LaterStaysCovered(cfg: Config, q: seq<Request>, b: Bank.State, wakes: set<nat>, now: nat, ran: bool, t: nat,
                          to: nat)
    requires QueueCovered(cfg, q, b, wakes, now, ran, t) && now < to && forall w | w in wakes :: to <= w
    ensures QueueCovered(cfg, q, b, wakes, to, false, t)
  {
    hide HandsOver, HeldUntil;
  }

  lemma AdvanceCovers(p: Timing, cfg: Config, s: State, step: Step)
    requires Covered(cfg, s) && Enabled(p, cfg, s, step) && step.Advance?
    requires s.ranAt.Some? ==> s.ranAt.value <= s.channel.now
    ensures Covered(cfg, Apply(p, cfg, s, step))
  {
    hide QueueCovered, BankRuns.Enabled;
    var c := s.channel;
    forall k | 0 <= k < |c.shadows|
      ensures QueueCovered(cfg, c.shadows[k].queue, c.devices[k], s.wakes, step.to,
                             s.ranAt == Some(step.to), c.lastIssue) {
      LaterStaysCovered(cfg, c.shadows[k].queue, c.devices[k], s.wakes, c.now,
          s.ranAt == Some(c.now), c.lastIssue, step.to);
    }
  }

  /** Every step keeps every queue covered, given prompt timings. */
  lemma StepKeepsCovered(p: Timing, cfg: Config, s: State, step: Step)
    requires Prompt(p, cfg) && Valid(p, cfg, s) && Covered(cfg, s) && Enabled(p, cfg, s, step)
    ensures Covered(cfg, Apply(p, cfg, s, step))
  {
    hide Prompt, Valid, Enabled, Apply, Covered;
    match step
    case Accept(_, _) => AcceptCovers(p, cfg, s, step);
    case Cycle(_, _, _) => CycleCovers(p, cfg, s, step);
    case Wake(_, _) => WakeCovers(p, cfg, s, step);
    case Pulse(_, _) => PulseCovers(p, cfg, s, step);
    case Cleanup => CleanupCovers(p, cfg, s, step);
    case Event(_, _) => EventCovers(p, cfg, s, step);
    case Advance(_) => RanInThePast(p, cfg, s); AdvanceCovers(p, cfg, s, step);
  }

  lemma AcceptCovers(p: Timing, cfg: Config, s: State, step: Step)
    requires Covered(cfg, s) && Enabled(p, cfg, s, step) && step.Accept?
    ensures Covered(cfg, Apply(p, cfg, s, step))
  {
    hide QueueCovered, EffectivelyEmpty;
  }

  lemma RanInThePast(p: Timing, cfg: Config, s: State)
    requires Valid(p, cfg, s)
    ensures s.ranAt.Some? ==> s.ranAt.value <= s.channel.now
  {}

  // ---------------------------------------------------------------- results

  lemma InitialOk(p: Timing, cfg: Config, queues: nat)
    requires cfg.Valid()
    ensures Valid(p, cfg, Initial(cfg, queues)) && Covered(cfg, Initial(cfg, queues))
  {
    Channel.InitialInv(p, cfg, queues);
  }

  lemma {:induction false} RunKeepsValid(p: Timing, cfg: Config, s: State, steps: seq<Step>)
    requires Valid(p, cfg, s) && Execute(p, cfg, s, steps).Some?
    ensures Valid(p, cfg, Execute(p, cfg, s, steps).value)
    ensures Prompt(p, cfg) && Covered(cfg, s) ==> Covered(cfg, Execute(p, cfg, s, steps).value)
    decreases |steps|
  {
    hide Valid, Covered, Enabled, Apply, Prompt;
    if steps != [] {
      StepKeepsValid(p, cfg, s, steps[0]);
      if Prompt(p, cfg) && Covered(cfg, s) { StepKeepsCovered(p, cfg, s, steps[0]); }
      RunKeepsValid(p, cfg, Apply(p, cfg, s, steps[0]), steps[1..]);
    }
  }

  /**
    The event-driven controller is never late. In every state that it reaches, if the head of some
    queue can be sent now, then a command-queue callback is still to come in this very cycle; or
    one has looked at the heads in this cycle and the next callback comes in the next cycle.
   */
  lemma NeverOversleeps(p: Timing, cfg: Config, queues: nat, steps: seq<Step>, s: State, k: nat)
    requires cfg.Valid() && Prompt(p, cfg) && Reached(p, cfg, queues, steps, s)
    requires CanSend(p, cfg, s.channel.shadows, s.channel.devices, k, s.channel.now)
    requires !s.channel.shadows[k].queue[0].issued
    ensures s.channel.now in s.wakes || (s.ranAt == Some(s.channel.now) && s.channel.now + 1 in s.wakes)
  {
    hide Prompt, Covered, Valid, Execute, CanSend;
    InitialOk(p, cfg, queues);
    RunKeepsValid(p, cfg, Initial(cfg, queues), steps);
    SendableIsAttended(p, cfg, s, k);
  }

  lemma SendableIsAttended(p: Timing, cfg: Config, s: State, k: nat)
    requires Valid(p, cfg, s) && Covered(cfg, s)
    requires CanSend(p, cfg, s.channel.shadows, s.channel.devices, k, s.channel.now)
    requires !s.channel.shadows[k].queue[0].issued
    ensures s.channel.now in s.wakes || (s.ranAt == Some(s.channel.now) && s.channel.now + 1 in s.wakes)
  {
    hide Predicts, Channel.Conserved, Channel.TransactionsOk;
    var c, h := s.channel, s.channel.shadows[k].queue[0];
    assert Channel.BankOk(p, cfg, k, c.shadows[k], c.devices[k], c);
    assert Channel.CommandOk(p, cfg, k, h);
    Channel.OwnBankIsReached(p, cfg, k, h);
    assert QueueCovered(cfg, c.shadows[k].queue, c.devices[k], s.wakes, c.now, s.ranAt == Some(c.now), c.lastIssue);
    IssuableIsAttended(p, c.devices[k], h, s.wakes, c.now, s.ranAt == Some(c.now));
  }

  /** Every run of the event-driven controller is a run of the channel, so all channel results hold for it. */
  lemma {:induction false} RunsAreChannelRuns(p: Timing, cfg: Config, s: State, steps: seq<Step>)
    returns (trace: seq<Channel.Step>)
    requires Execute(p, cfg, s, steps).Some?
    ensures Channel.Execute(p, cfg, s.channel, trace) == Some(Execute(p, cfg, s, steps).value.channel)
    decreases |steps|
  {
    hide Enabled, Apply, Channel.Execute, Trace;
    if steps == [] {
      trace := [];
      NoStep(p, cfg, s.channel);
    } else {
      StepIsRun(p, cfg, s, steps[0]);
      var rest := RunsAreChannelRuns(p, cfg, Apply(p, cfg, s, steps[0]), steps[1..]);
      trace := Trace(p, cfg, s, steps[0]) + rest;
      Channel.ExecuteAppend(p, cfg, s.channel, Trace(p, cfg, s, steps[0]), rest);
    }
  }

  // ---------------------------------------------------------------- transactions

  /** While a transaction waits for a queue with nothing left to send, a cycle event comes in this cycle or the next. */
  ghost predicate Attended(cfg: Config, s: State) {
    Attends(cfg, s.channel) ==> s.channel.now in s.cycles || s.channel.now + 1 in s.cycles
  }

  /** Fewer queues are empty and no more transactions wait. */
  lemma AttendsEarlier(cfg: Config, c: Channel.State, c': Channel.State)
    requires Attends(cfg, c') && c'.queues == c.queues && |c'.shadows| == |c.shadows|
    requires forall k | 0 <= k < |c.shadows| && Pending(c'.shadows[k].queue) == [] :: Pending(c.shadows[k].queue) == []
    ensures Attends(cfg, c)
  {
    var id: nat :| EffectivelyEmpty(c'.shadows, id) && Available(cfg, c'.queues, id);
    assert EffectivelyEmpty(c.shadows, id) && Available(cfg, c.queues, id);
  }

  lemma AcceptAttends(p: Timing, cfg: Config, s: State, step: Step)
    requires Attended(cfg, s) && Enabled(p, cfg, s, step) && step.Accept?
    ensures Attended(cfg, Apply(p, cfg, s, step))
  {
    var c, c' := s.channel, Apply(p, cfg, s, step).channel;
    if Attends(cfg, c') {
      var id: nat :| EffectivelyEmpty(c'.shadows, id) && Available(cfg, c'.queues, id);
      var q: nat, i: nat :| q < |c'.queues| && i < |c'.queues[q]| && IdOf(cfg, c'.queues[q][i]) == id;
      if q == step.queue && i == |c.queues[q]| {
        assert id == IdOf(cfg, step.r);
      } else {
        assert c'.queues[q][i] == c.queues[q][i];
        assert EffectivelyEmpty(c.shadows, id) && Available(cfg, c.queues, id);
      }
    }
  }

  lemma SendingAttends(p: Timing, cfg: Config, s: State, latency: nat, bounce: Bounce)
    requires Channel.Inv(p, cfg, s.channel) && Attended(cfg, s) && ReadyToRun(s)
    ensures Attended(cfg, Sending(p, cfg, s, latency, bounce))
  {
    hide Channel.Inv, Channel.Apply, Channel.Enabled, ToSend, Channel.DeviceAfter, Channel.ShadowAfter;
    hide Channel.Issuable, Channel.CommandOk, Channel.Reaches;
    var s' := Sending(p, cfg, s, latency, bounce);
    if ToSend(p, cfg, s).Some? && Attends(cfg, s'.channel) {
      SendIsEnabled(p, cfg, s, latency, bounce);
      var id := ToSend(p, cfg, s).value;
      var r, m := Channel.IssueEffect(p, cfg, s.channel, Channel.IssueHead(id, latency, bounce));
      var k: nat :| EffectivelyEmpty(s'.channel.shadows, k) && Available(cfg, s'.channel.queues, k);
      SentIsAHead(p, cfg, s);
      Channel.SendMarksHead(cfg, s.channel.shadows, id, r, k);
      if k != id { assert EffectivelyEmpty(s.channel.shadows, k) && Available(cfg, s.channel.queues, k); }
    }
  }

  lemma PulseAttends(p: Timing, cfg: Config, s: State, step: Step)
    requires Attended(cfg, s) && Enabled(p, cfg, s, step) && step.Pulse?
    ensures Attended(cfg, Apply(p, cfg, s, step))
  {
    hide Apply, Enabled, Attends;
    PulseChanges(p, cfg, s, step);
    var c, c' := s.channel, Apply(p, cfg, s, step).channel;
    if Attends(cfg, c') { AttendsEarlier(cfg, c, c'); }
  }

  /** A pulse only adds commands, and keeps the clock and the cycle events. */
  lemma PulseChanges(p: Timing, cfg: Config, s: State, step: Step)
    requires Enabled(p, cfg, s, step) && step.Pulse?
    ensures var s' := Apply(p, cfg, s, step);
      && s'.cycles == s.cycles && s'.channel.now == s.channel.now && s'.channel.queues == s.channel.queues
      && |s'.channel.shadows| == |s.channel.shadows|
      && forall k | 0 <= k < |s.channel.shadows| && Pending(s'.channel.shadows[k].queue) == [] ::
           Pending(s.channel.shadows[k].queue) == []
  {
    hide NextWake, Over;
    var c, c' := s.channel, Apply(p, cfg, s, step).channel;
    forall k | 0 <= k < |c.shadows| && Pending(c'.shadows[k].queue) == [] ensures Pending(c.shadows[k].queue) == [] {
      assert c.shadows[k].queue <= c'.shadows[k].queue;
    }
  }

  lemma CleanupAttends(p: Timing, cfg: Config, s: State, step: Step)
    requires Channel.Inv(p, cfg, s.channel) && Attended(cfg, s) && Enabled(p, cfg, s, step) && step.Cleanup?
    ensures Attended(cfg, Apply(p, cfg, s, step))
  {
    hide Available, Channel.Conserved, Channel.TransactionsOk, Attends;
    var c, c' := s.channel, Apply(p, cfg, s, step).channel;
    if Attends(cfg, c') {
      forall k | 0 <= k < |c.shadows| && Pending(c'.shadows[k].queue) == [] ensures Pending(c.shadows[k].queue) == [] {
        assert Channel.BankOk(p, cfg, k, c.shadows[k], c.devices[k], c);
      }
      AttendsEarlier(cfg, c, c');
    }
  }

  lemma QuietAttends(p: Timing, cfg: Config, s: State, step: Step)
    requires Attended(cfg, s) && Enabled(p, cfg, s, step) && (step.Event? || step.Advance?)
    ensures Attended(cfg, Apply(p, cfg, s, step))
  {
    hide Available, BankRuns.Enabled, BankRuns.Apply, Attends;
    if Attends(cfg, Apply(p, cfg, s, step).channel) { AttendsEarlier(cfg, s.channel, Apply(p, cfg, s, step).channel); }
  }

  lemma StepKeepsAttended(p: Timing, cfg: Config, s: State, step: Step)
    requires Valid(p, cfg, s) && Attended(cfg, s) && Enabled(p, cfg, s, step)
    ensures Attended(cfg, Apply(p, cfg, s, step))
  {
    hide Channel.Inv, Channel.Enabled, Channel.Apply, ShapesOk, NoneDue, Sending, Scheduled, Refreshed, Attends,
      NextWake;
    match step
    case Accept(_, _) => AcceptAttends(p, cfg, s, step);
    case Cycle(_, _, _) =>
    case Wake(latency, bounce) =>
      var begun := s.(wakes := s.wakes - {s.channel.now}, ranAt := Some(s.channel.now));
      SendingAttends(p, cfg, Woken(cfg, begun), latency, bounce);
    case Pulse(_, _) => PulseAttends(p, cfg, s, step);
    case Cleanup => CleanupAttends(p, cfg, s, step);
    case _ => QuietAttends(p, cfg, s, step);
  }

  lemma {:induction false} RunKeepsAttended(p: Timing, cfg: Config, s: State, steps: seq<Step>)
    requires Valid(p, cfg, s) && Attended(cfg, s) && Execute(p, cfg, s, steps).Some?
    ensures Attended(cfg, Execute(p, cfg, s, steps).value)
    decreases |steps|
  {
    hide Valid, Attended, Enabled, Apply;
    if steps != [] {
      StepKeepsValid(p, cfg, s, steps[0]);
      StepKeepsAttended(p, cfg, s, steps[0]);
      RunKeepsAttended(p, cfg, Apply(p, cfg, s, steps[0]), steps[1..]);
    }
  }

  lemma InitialAttended(cfg: Config, queues: nat)
    ensures Attended(cfg, Initial(cfg, queues))
  {}

  /**
    No transaction is forgotten. In every state that the event-driven controller reaches, while a
    transaction waits for a queue with nothing left to send, a cycle event comes in this cycle or
    in the next one, whatever the timings.
   */
  lemma TransactionsAreAttended(p: Timing, cfg: Config, queues: nat, steps: seq<Step>, s: State, id: nat)
    requires cfg.Valid() && Reached(p, cfg, queues, steps, s)
    requires EffectivelyEmpty(s.channel.shadows, id) && Available(cfg, s.channel.queues, id)
    ensures s.channel.now in s.cycles || s.channel.now + 1 in s.cycles
  {
    hide Valid, Covered, Execute;
    InitialOk(p, cfg, queues);
    InitialAttended(cfg, queues);
    RunKeepsAttended(p, cfg, Initial(cfg, queues), steps);
  }
}
