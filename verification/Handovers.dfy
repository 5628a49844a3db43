/**
  Why the timing condition for wake-ups is what it is: for each pair of commands of which the
  second can wait behind the first, a wake-up asked for by the first is in time for the second in
  every run of a bank, if and only if the timings meet the condition for that pair.
 */
module Handovers {
  import opened Commands
  import opened BankSpec
  import opened BankRuns
  import opened WakeupRuns
  import opened Arithmetic
  import ControllerSpec
  import Sub = SubArraySpec

  /**
    A handover: a run of a bank of `n` subarrays reaches a state in which `first` is sent; while
    nothing else is sent to the bank, `second` can go at some later cycle.
   */
  datatype Handover = Handover(n: positive, before: seq<Step>, first: Request, latency: nat, bounce: Bounce,
                               quiet: seq<Step>, second: Request)
  {
    function Sending(): Step { Issue(first, latency, bounce) }

    ghost predicate Valid(p: Timing) {
      && Execute(p, Start(n, false), before).Some?
      && (var c := Execute(p, Start(n, false), before).value;
          Enabled(p, c, Sending()) && AllQuiet(quiet) && Execute(p, Apply(p, c, Sending()), quiet).Some?
          && c.now < Later(p).now && Routed(Later(p).bank, second) && Routed(Apply(p, c, Sending()).bank, first)
          && IsIssuable(p, Later(p).bank, second, Later(p).now))
    }

    /** When `first` is sent. */
    ghost function Sent(p: Timing): Config
      requires Execute(p, Start(n, false), before).Some?
    {
      Execute(p, Start(n, false), before).value
    }

    /** When `second` can go. */
    ghost function Later(p: Timing): Config
      requires Execute(p, Start(n, false), before).Some? && Enabled(p, Sent(p), Sending())
      requires Execute(p, Apply(p, Sent(p), Sending()), quiet).Some?
    {
      Execute(p, Apply(p, Sent(p), Sending()), quiet).value
    }

    /** The wake-up that `first` asks for once it was sent comes no later than `second` can go. */
    ghost predicate InTime(p: Timing)
      requires Valid(p)
    {
      NextIssuable(Apply(p, Sent(p), Sending()).bank, first) <= Later(p).now
    }
  }

  /** All handovers of these kinds are in time. */
  ghost predicate AllInTime(p: Timing, n: positive, first: Op, second: Op) {
    forall h: Handover | h.n == n && h.first.op == first && h.second.op == second && h.second.subarray == 0
      && h.Valid(p) :: h.InTime(p)
  }

  // ---------------------------------------------------------------- the condition suffices

  lemma SentFacts(p: Timing, h: Handover)
    requires h.Valid(p) && h.first.op.IsArray()
    ensures var c := h.Sent(p);
      && Inv(p, c.bank, c.now) && |c.bank.subs| == h.n && Sub.Sendable(p, h.first)
      && Routed(c.bank, h.first) && IsIssuable(p, c.bank, h.first, c.now)
  {
    InitialInv(p, h.n, false);
    RunKeepsGood(p, Start(h.n, false), h.before);
    RunKeepsSize(p, Start(h.n, false), h.before);
  }

  lemma {:induction false} RunKeepsSize(p: Timing, c: Config, steps: seq<Step>)
    requires Good(p, c) && Execute(p, c, steps).Some?
    ensures |Execute(p, c, steps).value.bank.subs| == |c.bank.subs|
    decreases |steps|
  {
    if steps != [] {
      var c' := Apply(p, c, steps[0]);
      if steps[0].Issue? {
        IssueKeepsGood(p, c, steps[0]);
        IssueAdvancesTimers(p, c.bank, steps[0].r, Moment(c.now, steps[0].latency, steps[0].bounce));
      } else {
        QuietKeepsGood(p, c, steps[0]);
      }
      RunKeepsSize(p, c', steps[1..]);
    }
  }

  /** The configuration matters to the handover only in its number of subarrays. */
  lemma SentHandover(p: Timing, h: Handover) returns (b: State)
    requires h.Valid(p) && h.first.op.IsColumn() && PairPrompt(p, h.n, h.first.op, h.second.op)
    requires h.second.op.PrechargeAll? || (h.first.op.Closes() && h.second.op.Refresh? && h.second.subarray == 0)
    ensures b == Apply(p, h.Sent(p), h.Sending()).bank && Routed(b, h.first) && Inv(p, b, h.Sent(p).now)
    ensures NextIssuable(b, h.first) <= h.Sent(p).now + 1 || HeldUntil(b, h.second, NextIssuable(b, h.first))
  {
    SentFacts(p, h);
    var c, m := h.Sent(p), Moment(h.Sent(p).now, h.latency, h.bounce);
    b := Apply(p, c, h.Sending()).bank;
    GuardIsComplete(p, c.bank, h.first, m);
    PairHandsOver(p, h.n, c.bank, h.first, m, h.second);
  }

  /** If the pair is prompt, every handover is in time. */
  lemma PromptIsInTime(p: Timing, h: Handover)
    requires h.Valid(p) && h.first.op.IsColumn() && PairPrompt(p, h.n, h.first.op, h.second.op)
    requires h.second.op.PrechargeAll? || (h.first.op.Closes() && h.second.op.Refresh? && h.second.subarray == 0)
    ensures h.InTime(p)
  {
    var b := SentHandover(p, h);
    var c := Apply(p, h.Sent(p), h.Sending());
    var later := h.Later(p);
    QuietRunKeepsTimers(p, c, h.quiet);
    if HeldUntil(b, h.second, NextIssuable(b, h.first)) {
      SameTimersHold(b, later.bank, h.second, NextIssuable(b, h.first));
      HeldIsNotIssuable(p, later.bank, h.second, NextIssuable(b, h.first), later.now);
    }
  }

  // ---------------------------------------------------------------- the condition is necessary

  function Command(op: Op, subarray: nat, bursts: positive): Request {
    Request(0, op, 0, 0, 0, 0, subarray, bursts, 0, false, true, false, false)
  }

  /** A row is open and its columns are ready. */
  ghost predicate Opened(p: Timing, n: positive, x: nat, c: Config) {
    && x < n && c.now == p.rcd - p.al + 1 && |c.bank.subs| == n
    && c.bank.mode == Open && c.bank.active == [x]
    && c.bank.next == BankSpec.Timers(0, 0, 0, 0, p.rcd, 0)
    && (forall i | 0 <= i < n && i != x :: c.bank.subs[i] == Sub.Initial())
    && var s := c.bank.subs[x];
       s.phase == Sub.Open && s.openRow == 0 && s.closing == Sub.NothingDue && s.writing == Sub.NotWriting
       && s.next.activate == 0 && s.next.precharge == Max(p.rcd, p.ras)
       && s.next.read == s.next.write == p.rcd - p.al
  }

  /** Activating subarray `x` at power-on and waiting opens its row. */
  lemma OpensRow(p: Timing, n: positive, x: nat) returns (steps: seq<Step>, c: Config)
    requires x < n
    ensures Execute(p, Start(n, false), steps) == Some(c) && Opened(p, n, x, c)
  {
    var act, wait := Issue(Command(Op.Activate, x, 1), 0, NotBounced), Advance(p.rcd - p.al + 1);
    var c0 := Start(n, false);
    assert Enabled(p, c0, act);
    var c1 := Apply(p, c0, act);
    assert Enabled(p, c1, wait);
    c := Apply(p, c1, wait);
    steps := [act, wait];
    assert steps[1..] == [wait] && [wait][1..] == [];
    assert Execute(p, c1, [wait]) == Execute(p, c, []) == Some(c);
  }

  /** An open row whose columns are ready accepts every column command. */
  lemma OpenedAccepts(p: Timing, n: positive, x: nat, c: Config, r: Request)
    requires Opened(p, n, x, c) && r.op.IsColumn() && !r.op.CachedRead? && !r.op.CachedWrite?
    requires r == Command(r.op, x, r.bursts)
    ensures Enabled(p, c, Issue(r, 0, NotBounced))
  {}

  /** A handover put together from its parts that comes late. */
  lemma LateHandover(p: Timing, h: Handover, c: Config, c1: Config, c2: Config)
    requires Execute(p, Start(h.n, false), h.before) == Some(c)
    requires Enabled(p, c, h.Sending()) && c1 == Apply(p, c, h.Sending())
    requires AllQuiet(h.quiet) && Execute(p, c1, h.quiet) == Some(c2) && c.now < c2.now
    requires Routed(c1.bank, h.first) && Routed(c2.bank, h.second) && IsIssuable(p, c2.bank, h.second, c2.now)
    requires c2.now < NextIssuable(c1.bank, h.first)
    ensures h.Valid(p) && !h.InTime(p)
  {
    hide Execute, Enabled, Apply, IsIssuable, NextIssuable;
  }

  /** Bursts that take so long that everything the activate demands has passed. */
  function ManyBursts(p: Timing): positive { p.rcd + p.ras + 2 }

  lemma ManyBurstsTakeLong(p: Timing)
    requires p.Span(1) != 0
    ensures p.rcd + p.ras < p.Span(ManyBursts(p) - 1) && p.Span(ManyBursts(p)) == p.Span(ManyBursts(p) - 1) + p.Span(1)
  {
    var s, k := Max(p.burst, p.ccd), ManyBursts(p) - 1;
    assert 1 <= s;
    assert k <= s * k by { MulMonotone(k, 1, s); }
    SpanStep(p, ManyBursts(p));
  }

  /** A read or write that is followed by a precharge of all rows too early for the timings. */
  lemma ColumnIsLate(p: Timing, n: positive, op: Op) returns (h: Handover)
    requires op.Read? || op.Write?
    requires !PairPrompt(p, n, op, Op.PrechargeAll)
    ensures h.n == n && h.first.op == op && h.second.op == Op.PrechargeAll && h.second.subarray == 0
    ensures h.Valid(p) && !h.InTime(p)
  {
    var steps, c := OpensRow(p, n, 0);
    var r := Command(op, 0, ManyBursts(p));
    var pre := Command(Op.PrechargeAll, 0, 1);
    ManyBurstsTakeLong(p);
    var c1, to := ColumnAfterOpen(p, n, c, r);
    assert Enabled(p, c1, Advance(to));
    var c2 := Apply(p, c1, Advance(to));
    assert [Advance(to)][1..] == [];
    assert Execute(p, c1, [Advance(to)]) == Execute(p, c2, []) == Some(c2);
    h := Handover(n, steps, r, 0, NotBounced, [Advance(to)], pre);
    LateHandover(p, h, c, c1, c2);
  }

  /** What the column command leaves, and when the rows could be precharged. */
  lemma ColumnAfterOpen(p: Timing, n: positive, c: Config, r: Request) returns (c1: Config, to: nat)
    requires Opened(p, n, 0, c) && (r.op.Read? || r.op.Write?) && r == Command(r.op, 0, ManyBursts(p))
    requires p.Span(1) != 0 && !PairPrompt(p, n, r.op, Op.PrechargeAll)
    ensures Enabled(p, c, Issue(r, 0, NotBounced)) && c1 == Apply(p, c, Issue(r, 0, NotBounced))
    ensures c1.now == c.now < to && |c1.bank.subs| == n && c1.bank.active == [0] && c1.bank.mode == Open
    ensures c1.bank.next.precharge == 0
    ensures forall i | 0 < i < n :: c1.bank.subs[i] == Sub.Initial()
    ensures var s := c1.bank.subs[0];
      && s.phase == Sub.Open && s.closing == Sub.NothingDue && s.next.precharge <= to
      && (s.writing.Writing? ==> to <= s.writing.doneAt)
    ensures to < NextIssuable(c1.bank, r)
  {
    ManyBurstsTakeLong(p);
    assert Enabled(p, c, Issue(r, 0, NotBounced));
    c1 := Apply(p, c, Issue(r, 0, NotBounced));
    to := c1.bank.subs[0].next.precharge;
    if r.op.Read? {
      assert to == c.now + p.Span(ManyBursts(p) - 1) + p.al + p.burst + p.rtp - p.ccd;
    } else {
      assert to == c.now + p.Span(ManyBursts(p) - 1) + p.al + p.cwd + p.burst + p.wr;
    }
  }

  /** Reads and writes hand over in time to a precharge if and only if the timings are prompt for the pair. */
  lemma ColumnsInTimeIff(p: Timing, n: positive, op: Op)
    requires op.Read? || op.Write?
    ensures AllInTime(p, n, op, Op.PrechargeAll) <==> PairPrompt(p, n, op, Op.PrechargeAll)
  {
    if PairPrompt(p, n, op, Op.PrechargeAll) {
      forall h: Handover | h.n == n && h.first.op == op && h.second.op == Op.PrechargeAll && h.second.subarray == 0
        && h.Valid(p)
        ensures h.InTime(p) {
        PromptIsInTime(p, h);
      }
    } else {
      var h := ColumnIsLate(p, n, op);
    }
  }

  /** A column command with implicit precharge that is followed at once by something its subarray does not hold back. */
  lemma CloseIsLateAtOnce(p: Timing, n: positive, op: Op, second: Op) returns (h: Handover)
    requires op.ReadPrecharge? || op.WritePrecharge?
    requires p.Span(1) != 0 && (second.PrechargeAll? || (second.Refresh? && 1 < n))
    ensures h.n == n && h.first.op == op && h.second.op == second && h.second.subarray == 0
    ensures h.Valid(p) && !h.InTime(p)
  {
    var x := if second.Refresh? then 1 else 0;
    var steps, c := OpensRow(p, n, x);
    var r, next, wait := Command(op, x, 2), Command(second, 0, 1), Advance(c.now + 1);
    SpanStep(p, 2);
    OpenedAccepts(p, n, x, c, r);
    hide Enabled, Apply, Execute, IsIssuable;
    var c1 := Apply(p, c, Issue(r, 0, NotBounced));
    ClosedAtOnce(p, n, x, c, r, c1);
    NextAtOnce(p, n, x, c1, next);
    h := Handover(n, steps, r, 0, NotBounced, [wait], next);
    LateHandover(p, h, c, c1, c1.(now := c1.now + 1));
  }

  lemma NextAtOnce(p: Timing, n: positive, x: nat, c: Config, next: Request)
    requires |c.bank.subs| == n && c.bank.active == [] && c.bank.mode == BankSpec.Closed && x < n
    requires c.bank.next.precharge == c.bank.next.activate == 0
    requires forall i | 0 <= i < n && i != x :: c.bank.subs[i] == Sub.Initial()
    requires NothingBefore(c.bank.subs[x], c.now + 1)
    requires next == Command(next.op, 0, 1) && (next.op.PrechargeAll? || (next.op.Refresh? && x == 1))
    ensures Execute(p, c, [Advance(c.now + 1)]) == Some(c.(now := c.now + 1))
    ensures IsIssuable(p, c.bank, next, c.now + 1)
  {
    var wait := Advance(c.now + 1);
    assert Enabled(p, c, wait);
    var c' := Apply(p, c, wait);
    assert [wait][1..] == [];
    assert Execute(p, c, [wait]) == Execute(p, c', []) == Some(c');
  }

  lemma ClosedAtOnce(p: Timing, n: positive, x: nat, c: Config, r: Request, c1: Config)
    requires Opened(p, n, x, c) && (r.op.ReadPrecharge? || r.op.WritePrecharge?) && r == Command(r.op, x, 2)
    requires Enabled(p, c, Issue(r, 0, NotBounced)) && c1 == Apply(p, c, Issue(r, 0, NotBounced))
    requires p.Span(2) == p.Span(1) + p.Span(1) && p.Span(1) != 0
    ensures c1.now == c.now && |c1.bank.subs| == n && c1.bank.active == [] && c1.bank.mode == BankSpec.Closed
    ensures c1.bank.next.precharge == c1.bank.next.activate == 0
    ensures forall i | 0 <= i < n && i != x :: c1.bank.subs[i] == Sub.Initial()
    ensures NothingBefore(c1.bank.subs[x], c.now + 1)
    ensures c.now + 1 < NextIssuable(c1.bank, r)
  {}

  /** How long a closing command keeps its subarray busy before the precharge begins. */
  function Closing(p: Timing, op: Op): nat {
    if op.ReadPrecharge? then p.al + p.rtp else p.al + p.cwd + p.burst + p.wr
  }

  /** In a bank of one subarray, a refresh can follow once the implicit precharge is over. */
  lemma CloseIsLate(p: Timing, op: Op) returns (h: Handover)
    requires op.ReadPrecharge? || op.WritePrecharge?
    requires Closing(p, op) + p.rp < p.Span(1)
    ensures h.n == 1 && h.first.op == op && h.second.op == Op.Refresh && h.second.subarray == 0
    ensures h.Valid(p) && !h.InTime(p)
  {
    var steps, c := OpensRow(p, 1, 0);
    var r, next := Command(op, 0, 1), Command(Op.Refresh, 0, 1);
    OpenedAccepts(p, 1, 0, c, r);
    hide Enabled, Apply, Execute;
    var c1 := Apply(p, c, Issue(r, 0, NotBounced));
    var begin := c.now + Closing(p, op);
    ClosingBank(p, c, r, c1);
    var quiet, c2 := ClosesRow(p, c1, begin);
    h := Handover(1, steps, r, 0, NotBounced, quiet, next);
    LateHandover(p, h, c, c1, c2);
  }

  lemma ClosingBank(p: Timing, c: Config, r: Request, c1: Config)
    requires Opened(p, 1, 0, c) && (r.op.ReadPrecharge? || r.op.WritePrecharge?) && r == Command(r.op, 0, 1)
    requires Enabled(p, c, Issue(r, 0, NotBounced)) && c1 == Apply(p, c, Issue(r, 0, NotBounced))
    requires Closing(p, r.op) + p.rp < p.Span(1)
    ensures c1.now == c.now && |c1.bank.subs| == 1 && c1.bank.active == [] && c1.bank.mode == BankSpec.Closed
    ensures c1.bank.next.activate == 0
    ensures var s, begin := c1.bank.subs[0], c.now + Closing(p, r.op);
      && s.closing == Sub.AutoPrechargeAt(begin) && s.next.activate == begin + p.rp
      && (s.writing.Writing? ==> begin + p.rp <= s.writing.doneAt)
      && begin + p.rp < NextIssuable(c1.bank, r)
  {}

  /** The implicit precharge begins, and ends `rp` cycles later. */
  lemma ClosesRow(p: Timing, c: Config, begin: nat) returns (quiet: seq<Step>, c': Config)
    requires c.now <= begin && |c.bank.subs| == 1 && c.bank.subs[0].closing == Sub.AutoPrechargeAt(begin)
    requires c.bank.subs[0].writing.Writing? ==> begin + p.rp <= c.bank.subs[0].writing.doneAt
    ensures AllQuiet(quiet) && Execute(p, c, quiet) == Some(c') && c'.now == begin + p.rp
    ensures c'.bank.next == c.bank.next && c'.bank.mode == c.bank.mode && c'.bank.active == c.bank.active
    ensures |c'.bank.subs| == 1 && c'.bank.subs[0].phase == Sub.Closed && c'.bank.subs[0].next == c.bank.subs[0].next
    decreases begin - c.now
  {
    if c.now < begin {
      var wait := Advance(begin);
      assert Enabled(p, c, wait);
      var rest;
      rest, c' := ClosesRow(p, Apply(p, c, wait), begin);
      quiet := [wait] + rest;
    } else {
      var event := BankRuns.CompleteClosing(0);
      var c1 := Apply(p, c, event);
      var wait := Advance(begin + p.rp);
      assert Enabled(p, c1, wait);
      var c2 := Apply(p, c1, wait);
      assert Enabled(p, c2, event);
      c' := Apply(p, c2, event);
      quiet := [event, wait, event];
      assert quiet[1..] == [wait, event] && quiet[1..][1..] == [event] && [event][1..] == [];
      assert Execute(p, c2, [event]) == Execute(p, c', []) == Some(c');
      assert Execute(p, c1, [wait, event]) == Execute(p, c2, [event]);
    }
  }

  /** The same for column commands with implicit precharge and what may follow them. */
  lemma ClosesInTimeIff(p: Timing, n: positive, op: Op, second: Op)
    requires (op.ReadPrecharge? || op.WritePrecharge?) && (second.PrechargeAll? || second.Refresh?)
    ensures AllInTime(p, n, op, second) <==> PairPrompt(p, n, op, second)
  {
    if PairPrompt(p, n, op, second) {
      forall h: Handover | h.n == n && h.first.op == op && h.second.op == second && h.second.subarray == 0 && h.Valid(p)
        ensures h.InTime(p) {
        PromptIsInTime(p, h);
      }
    } else if second.PrechargeAll? || 1 < n {
      var h := CloseIsLateAtOnce(p, n, op, second);
    } else {
      var h := CloseIsLate(p, op);
    }
  }

  /**
    The timing condition is exact: it holds if and only if, for every two commands of which the
    second can be queued behind the first, every handover between them is in time.
   */
  lemma PromptIsExact(p: Timing, cfg: ControllerSpec.Config)
    ensures PromptTimings(p, cfg) <==>
      forall first: Op, next: Op | MayFollow(cfg, first, next) :: AllInTime(p, cfg.subarrays, first, next)
  {
    PromptIs(p, cfg);
    forall first: Op, next: Op | MayFollow(cfg, first, next)
      ensures AllInTime(p, cfg.subarrays, first, next) <==> PairPrompt(p, cfg.subarrays, first, next) {
      if first.Closes() {
        ClosesInTimeIff(p, cfg.subarrays, first, next);
      } else {
        ColumnsInTimeIff(p, cfg.subarrays, first);
      }
    }
  }
}
