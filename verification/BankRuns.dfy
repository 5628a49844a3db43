/**
  Runs of a bank: accepted commands, completion events and the passing of time.
  Timing safety, the separation of activates, wake-up times and progress are stated over
  every run from power-on.
 */
module BankRuns {
  import opened Commands
  import opened BankSpec
  import Sub = SubArraySpec

  /** One command that reached a subarray, or the bank; `slow` if it finds a slow-exit power-down. */
  datatype Entry = Entry(at: nat, sub: nat, op: Op, row: nat, bursts: positive, latency: nat, slow: bool)

  datatype Config = Config(bank: State, now: nat, log: seq<Entry>)

  datatype Step =
    | Issue(r: Request, latency: nat, bounce: Bounce)
    | CompleteClosing(sub: nat)
    | CompleteWrite(sub: nat)
    | Advance(to: nat)
  {
    predicate IsQuiet() { !Issue? }
  }

  function Start(n: positive, down: bool): Config { Config(Initial(n, down), 0, []) }

  // ---------------------------------------------------------------- steps

  /** No completion event of `s` is due before cycle `to`. */
  predicate NothingBefore(s: Sub.State, to: nat) {
    && (s.closing != Sub.NothingDue ==> to <= s.closing.at)
    && (s.writing.Writing? ==> to <= s.writing.doneAt)
  }

  ghost predicate Enabled(p: Timing, c: Config, step: Step) {
    match step
    case Issue(r, _, _) =>
      Routed(c.bank, r) && Sub.Sendable(p, r) && IsIssuable(p, c.bank, r, c.now)
    case CompleteClosing(i) =>
      i < |c.bank.subs| && c.bank.subs[i].closing != Sub.NothingDue && c.bank.subs[i].closing.at == c.now
    case CompleteWrite(i) =>
      i < |c.bank.subs| && c.bank.subs[i].writing.Writing? && c.bank.subs[i].writing.doneAt == c.now
    case Advance(to) =>
      c.now < to && forall i | 0 <= i < |c.bank.subs| :: NothingBefore(c.bank.subs[i], to)
  }

  /** The subarray commands that `r` amounts to. */
  function Entries(b: State, r: Request, now: nat, latency: nat): seq<Entry> {
    if r.op.PrechargeAll? then
      seq(|b.active|, k requires 0 <= k < |b.active| =>
        Entry(now, b.active[k], r.op, r.row, r.bursts, latency, b.mode.DownSlow?))
    else
      [Entry(now, r.subarray, r.op, r.row, r.bursts, latency, b.mode.DownSlow?)]
  }

  function WithSub(b: State, i: nat, s: Sub.State): State
    requires i < |b.subs|
  {
    b.(subs := b.subs[i := s])
  }

  ghost function Apply(p: Timing, c: Config, step: Step): Config
    requires Enabled(p, c, step)
  {
    match step
    case Issue(r, latency, bounce) =>
      Config(IssueCommand(p, c.bank, r, Moment(c.now, latency, bounce)).state, c.now,
             c.log + Entries(c.bank, r, c.now, latency))
    case CompleteClosing(i) =>
      c.(bank := WithSub(c.bank, i, Sub.CompleteClosing(p, c.bank.subs[i], c.now)))
    case CompleteWrite(i) =>
      c.(bank := WithSub(c.bank, i, Sub.CompleteWrite(c.bank.subs[i])))
    case Advance(to) => c.(now := to)
  }

  /** The configuration after `steps`, if each of them is enabled when its turn comes. */
  ghost function Execute(p: Timing, c: Config, steps: seq<Step>): Option<Config>
    decreases |steps|
  {
    if steps == [] then Some(c)
    else if Enabled(p, c, steps[0]) then
      Execute(p, Apply(p, c, steps[0]), steps[1..])
    else
      None
  }

  // ---------------------------------------------------------------- minimum distances

  /** The distance that `e` demands of a later `op` to the same subarray. */
  function SubGap(p: Timing, e: Entry, op: Op): nat {
    var span := p.Span(e.bursts - 1) + e.latency;
    if !op.IsArray() then 0
    else match e.op
      case Activate =>
        if op.IsColumn() then p.rcd - p.al else if op.IsPrecharge() then Max(p.rcd, p.ras) else 0
      case Read =>
        if op.IsPrecharge() then span + p.al + p.burst + p.rtp - p.ccd
        else if op.IsRead() then p.Span(e.bursts)
        else if op.IsWrite() then span + p.cas + p.burst + p.rtrs - p.cwd
        else 0
      case Write =>
        if op.IsPrecharge() then span + p.al + p.cwd + p.burst + p.wr
        else if op.IsRead() then span + p.cwd + p.burst + p.wtr
        else if op.IsWrite() then p.Span(e.bursts) + e.latency
        else 0
      case ReadPrecharge => span + p.al + p.rtp + p.rp
      case WritePrecharge => span + p.al + p.cwd + p.burst + p.wr + p.rp
      case Precharge | PrechargeAll => if op.Activate? || op.Refresh? then Max(1, p.rp) else 0
      case Refresh => if op.Activate? || op.Refresh? then p.rfc else 0
      case _ => 0
  }

  /** The distance that `e` demands of a later `op` to any subarray of the bank. */
  function BankGap(p: Timing, e: Entry, op: Op): nat {
    var span := p.Span(e.bursts - 1);
    if e.op.IsRead() && op.IsRead() then p.Span(e.bursts)
    else if e.op.IsRead() && op.IsWrite() then span + p.cas + p.burst + p.rtrs - p.cwd
    else if e.op.IsWrite() && op.IsRead() then span + p.cwd + p.burst + p.wtr
    else if e.op.IsWrite() && op.IsWrite() then p.Span(e.bursts)
    else if e.op.PowerUp? && op.IsRead() then (if e.slow then p.xpdll else p.xp)
    else if e.op.PowerUp? && op.IsArray() then p.xp
    else 0
  }

  /** Every two accepted commands, however far apart, keep their distance. */
  ghost predicate Spaced(p: Timing, log: seq<Entry>) {
    forall i, j | 0 <= i < j < |log| ::
      && log[i].at + BankGap(p, log[i], log[j].op) <= log[j].at
      && (log[i].sub == log[j].sub ==> log[i].at + SubGap(p, log[i], log[j].op) <= log[j].at)
  }

  /** Some command between entries `i` and `j` closes the subarray of entry `i`. */
  ghost predicate ClosedBetween(log: seq<Entry>, i: nat, j: nat)
    requires i < j <= |log|
  {
    exists k | i < k < j :: log[k].sub == log[i].sub && log[k].op.Closes()
  }

  ghost predicate ActivatesSeparated(log: seq<Entry>) {
    forall i, j | 0 <= i < j < |log| && log[i].op.Activate? && log[j].op.Activate? && log[i].sub == log[j].sub ::
      ClosedBetween(log, i, j)
  }

  // ---------------------------------------------------------------- invariant of runs

  /** The timers already enforce every distance that entry `e` will ever demand. */
  ghost predicate Enforced(p: Timing, b: State, e: Entry) {
    && e.sub < |b.subs|
    && (forall op: Op :: e.at + SubGap(p, e, op) <= Sub.TimerOf(b.subs[e.sub].next, op) || SubGap(p, e, op) == 0)
    && (forall op: Op :: e.at + BankGap(p, e, op) <= TimerOf(b.next, op) || BankGap(p, e, op) == 0)
  }

  /** A row that was activated and not closed since is held by its subarray. */
  ghost predicate OpenRowsHeld(b: State, log: seq<Entry>) {
    forall i | 0 <= i < |log| && log[i].op.Activate? && !ClosedBetween(log, i, |log|) ::
      log[i].sub < |b.subs| && Sub.HoldsRow(b.subs[log[i].sub])
  }

  ghost predicate Good(p: Timing, c: Config) {
    && Inv(p, c.bank, c.now)
    && (forall i | 0 <= i < |c.log| :: c.log[i].at <= c.now && Enforced(p, c.bank, c.log[i]))
    && Spaced(p, c.log)
    && ActivatesSeparated(c.log)
    && OpenRowsHeld(c.bank, c.log)
  }

  // ---------------------------------------------------------------- one command

  /** Timers of the subarrays and of the bank (other than power-down) only move forward. */
  ghost predicate TimersAdvance(b: State, b': State) {
    && |b'.subs| == |b.subs|
    && (forall i | 0 <= i < |b.subs| :: Sub.NotBefore(b.subs[i].next, b'.subs[i].next))
    && forall op: Op :: TimerOf(b.next, op) <= TimerOf(b'.next, op)
  }

  /** What a command other than PrechargeAll or a power command leaves in its subarray. */
  lemma SentState(p: Timing, b: State, r: Request, m: Moment)
    requires Inv(p, b, m.now) && Routed(b, r) && IsIssuable(p, b, r, m.now) && !r.op.PrechargeAll?
    ensures var b' := IssueCommand(p, b, r, m).state;
      && |b'.subs| == |b.subs|
      && (!r.op.IsPower() ==> b'.subs[r.subarray] == Sub.IssueCommand(p, b.subs[r.subarray], r, m).state)
      && forall i | 0 <= i < |b.subs| && (i != r.subarray || r.op.IsPower()) :: b'.subs[i] == b.subs[i]
  {}

  /** What PrechargeAll leaves. */
  lemma PrechargedState(p: Timing, b: State, r: Request, m: Moment)
    requires Inv(p, b, m.now) && Routed(b, r) && IsIssuable(p, b, r, m.now) && r.op.PrechargeAll?
    ensures var b' := IssueCommand(p, b, r, m).state;
      && |b'.subs| == |b.subs| && b'.next == b.next.(powerDown := Max(b.next.powerDown, m.now + p.rp))
      && forall i | 0 <= i < |b.subs| ::
           b'.subs[i] == if i in b.active then Sub.PrechargeStep(p, b.subs[i], m).state else b.subs[i]
  {
    var timed := b.(next := b.next.(powerDown := Max(b.next.powerDown, m.now + p.rp)));
    PrechargeActiveSucceeds(p, timed, r, m);
  }

  lemma BankTimersAdvance(p: Timing, b: State, r: Request, m: Moment, op: Op)
    requires Inv(p, b, m.now) && Routed(b, r) && IsIssuable(p, b, r, m.now) && !r.op.PrechargeAll?
    ensures TimerOf(b.next, op) <= TimerOf(IssueCommand(p, b, r, m).state.next, op)
  {
    hide Sub.IssueCommand, Sub.IsIssuable, Sub.Inv, ActiveIsExact;
  }

  lemma IssueAdvancesTimers(p: Timing, b: State, r: Request, m: Moment)
    requires Inv(p, b, m.now) && Routed(b, r) && Sub.Sendable(p, r) && IsIssuable(p, b, r, m.now)
    ensures TimersAdvance(b, IssueCommand(p, b, r, m).state)
  {
    if r.op.PrechargeAll? {
      PrechargedState(p, b, r, m);
    } else {
      hide IssueCommand, IsIssuable, Sub.IssueCommand, Sub.IsIssuable;
      SentState(p, b, r, m);
      if !r.op.IsPower() { Sub.IssueKeepsInv(p, b.subs[r.subarray], r, m); }
      forall op: Op ensures TimerOf(b.next, op) <= TimerOf(IssueCommand(p, b, r, m).state.next, op) {
        BankTimersAdvance(p, b, r, m, op);
      }
    }
  }

  lemma EnforcedStays(p: Timing, b: State, b': State, e: Entry)
    requires Enforced(p, b, e) && TimersAdvance(b, b')
    ensures Enforced(p, b', e)
  {
    forall op: Op | SubGap(p, e, op) != 0
      ensures e.at + SubGap(p, e, op) <= Sub.TimerOf(b'.subs[e.sub].next, op) {
      assert Sub.NotBefore(b.subs[e.sub].next, b'.subs[e.sub].next);
    }
    forall op: Op | BankGap(p, e, op) != 0
      ensures e.at + BankGap(p, e, op) <= TimerOf(b'.next, op) {
      assert TimerOf(b.next, op) <= TimerOf(b'.next, op);
    }
  }

  lemma ReadEnforces(p: Timing, s: Sub.State, r: Request, m: Moment, sub: nat, op: Op, slow: bool)
    requires Sub.Inv(p, s, m.now) && r.op.IsRead() && Sub.IsIssuable(p, s, r, m.now)
    ensures var e := Entry(m.now, sub, r.op, r.row, r.bursts, m.latency, slow);
      op.IsArray() && SubGap(p, e, op) != 0 ==>
        m.now + SubGap(p, e, op) <= Sub.TimerOf(Sub.ReadStep(p, s, r, m).state.next, op)
  {
    hide Parameters.Span;
  }

  lemma WriteEnforces(p: Timing, s: Sub.State, r: Request, m: Moment, sub: nat, op: Op, slow: bool)
    requires Sub.Inv(p, s, m.now) && r.op.IsWrite() && Sub.IsIssuable(p, s, r, m.now)
    ensures var e := Entry(m.now, sub, r.op, r.row, r.bursts, m.latency, slow);
      op.IsArray() && SubGap(p, e, op) != 0 ==>
        m.now + SubGap(p, e, op) <= Sub.TimerOf(Sub.WriteStep(p, s, r, m).state.next, op)
  {
    hide Parameters.Span;
  }

  lemma RowCommandEnforces(p: Timing, s: Sub.State, r: Request, m: Moment, sub: nat, op: Op, slow: bool)
    requires Sub.Inv(p, s, m.now) && !r.op.IsColumn() && Sub.IsIssuable(p, s, r, m.now)
    ensures var e := Entry(m.now, sub, r.op, r.row, r.bursts, m.latency, slow);
      op.IsArray() && SubGap(p, e, op) != 0 ==>
        m.now + SubGap(p, e, op) <= Sub.TimerOf(Sub.IssueCommand(p, s, r, m).state.next, op)
  {}

  lemma SubArrayEnforces(p: Timing, s: Sub.State, r: Request, m: Moment, sub: nat, op: Op, slow: bool)
    requires Sub.Inv(p, s, m.now) && Sub.Sendable(p, r) && Sub.IsIssuable(p, s, r, m.now)
    ensures var e := Entry(m.now, sub, r.op, r.row, r.bursts, m.latency, slow);
      SubGap(p, e, op) != 0 ==>
        m.now + SubGap(p, e, op) <= Sub.TimerOf(Sub.IssueCommand(p, s, r, m).state.next, op)
  {
    if r.op.IsRead() {
      ReadEnforces(p, s, r, m, sub, op, slow);
    } else if r.op.IsWrite() {
      WriteEnforces(p, s, r, m, sub, op, slow);
    } else {
      RowCommandEnforces(p, s, r, m, sub, op, slow);
    }
  }

  lemma ReadKeepsBankGap(p: Timing, b: State, r: Request, m: Moment, sub: nat, op: Op)
    requires Routed(b, r) && r.op.IsRead() && b.next.read <= m.now && b.mode.Open?
    ensures var e := Entry(m.now, sub, r.op, r.row, r.bursts, m.latency, b.mode.DownSlow?);
      BankGap(p, e, op) != 0 ==> m.now + BankGap(p, e, op) <= TimerOf(ReadStep(p, b, r, m).state.next, op)
  {
    hide Parameters.Span, Sub.IssueCommand;
  }

  lemma WriteKeepsBankGap(p: Timing, b: State, r: Request, m: Moment, sub: nat, op: Op)
    requires Routed(b, r) && r.op.IsWrite() && b.next.write <= m.now && b.mode.Open?
    ensures var e := Entry(m.now, sub, r.op, r.row, r.bursts, m.latency, b.mode.DownSlow?);
      BankGap(p, e, op) != 0 ==> m.now + BankGap(p, e, op) <= TimerOf(WriteStep(p, b, r, m).state.next, op)
  {
    hide Parameters.Span, Sub.IssueCommand;
  }

  /** Of the other commands only PowerUp asks a distance of the whole bank. */
  lemma WakingKeepsBankGap(p: Timing, b: State, r: Request, m: Moment, sub: nat, op: Op)
    requires !r.op.IsRead() && !r.op.IsWrite()
    requires r.op.PowerUp? ==> b.next.powerUp <= m.now && !b.mode.Open? && !b.mode.Closed?
    ensures var e := Entry(m.now, sub, r.op, r.row, r.bursts, m.latency, b.mode.DownSlow?);
      BankGap(p, e, op) != 0 ==>
        r.op.PowerUp? && m.now + BankGap(p, e, op) <= TimerOf(PowerUpStep(p, b, m).state.next, op)
  {}

  lemma BankEnforces(p: Timing, b: State, r: Request, m: Moment, sub: nat, op: Op)
    requires Inv(p, b, m.now) && Routed(b, r) && IsIssuable(p, b, r, m.now)
    requires !r.op.PrechargeAll?
    ensures var e := Entry(m.now, sub, r.op, r.row, r.bursts, m.latency, b.mode.DownSlow?);
      BankGap(p, e, op) != 0 ==> m.now + BankGap(p, e, op) <= TimerOf(IssueCommand(p, b, r, m).state.next, op)
  {
    hide Inv, ReadStep, WriteStep, PowerUpStep, BankGap;
    if r.op.IsRead() {
      ReadKeepsBankGap(p, b, r, m, sub, op);
    } else if r.op.IsWrite() {
      WriteKeepsBankGap(p, b, r, m, sub, op);
    } else {
      WakingKeepsBankGap(p, b, r, m, sub, op);
    }
  }

  lemma PrechargeAllEnforces(p: Timing, b: State, r: Request, m: Moment, e: Entry)
    requires Inv(p, b, m.now) && Routed(b, r) && IsIssuable(p, b, r, m.now) && r.op.PrechargeAll?
    requires e in Entries(b, r, m.now, m.latency)
    ensures Enforced(p, IssueCommand(p, b, r, m).state, e)
  {
    PrechargedState(p, b, r, m);
    hide IssueCommand;
    assert e.sub in b.active;
  }

  /** After `r`, the timers enforce every distance that `r` demands. */
  lemma IssueEnforces(p: Timing, b: State, r: Request, m: Moment, e: Entry)
    requires Inv(p, b, m.now) && Routed(b, r) && Sub.Sendable(p, r) && IsIssuable(p, b, r, m.now)
    requires e in Entries(b, r, m.now, m.latency)
    ensures Enforced(p, IssueCommand(p, b, r, m).state, e)
  {
    var b' := IssueCommand(p, b, r, m).state;
    if r.op.PrechargeAll? {
      PrechargeAllEnforces(p, b, r, m, e);
    } else {
      hide IssueCommand, IsIssuable;
      assert e == Entry(m.now, r.subarray, r.op, r.row, r.bursts, m.latency, b.mode.DownSlow?);
      forall op: Op | BankGap(p, e, op) != 0 ensures m.now + BankGap(p, e, op) <= TimerOf(b'.next, op) {
        BankEnforces(p, b, r, m, e.sub, op);
      }
      forall op: Op | SubGap(p, e, op) != 0
        ensures m.now + SubGap(p, e, op) <= Sub.TimerOf(b'.subs[e.sub].next, op) {
        SentState(p, b, r, m);
        SubArrayEnforces(p, b.subs[e.sub], r, m, e.sub, op, e.slow);
      }
    }
  }

  /** Issuable commands find the timers that guard them expired. */
  lemma IssuableIsDue(p: Timing, b: State, r: Request, m: Moment, e: Entry)
    requires Inv(p, b, m.now) && Routed(b, r) && IsIssuable(p, b, r, m.now)
    requires e in Entries(b, r, m.now, m.latency)
    ensures e.sub < |b.subs| && e.at == m.now && e.op == r.op
    ensures e.op.IsArray() ==> TimerOf(b.next, e.op) <= m.now && Sub.TimerOf(b.subs[e.sub].next, e.op) <= m.now
    ensures e.op.Activate? ==> !Sub.HoldsRow(b.subs[e.sub])
  {
    if r.op.PrechargeAll? {
      assert e.sub in b.active;
    }
  }

  lemma ActiveIsListed(b: State, r: Request, now: nat, latency: nat, i: nat)
    requires i in b.active && r.op.PrechargeAll?
    ensures exists e :: e in Entries(b, r, now, latency) && e.sub == i && e.op.Closes()
  {
    var k :| 0 <= k < |b.active| && b.active[k] == i;
    assert Entries(b, r, now, latency)[k] in Entries(b, r, now, latency);
  }

  /** A row that was held is still held, unless one of the entries closes it. */
  lemma IssueHoldsRows(p: Timing, b: State, r: Request, m: Moment, i: nat)
    requires Inv(p, b, m.now) && Routed(b, r) && Sub.Sendable(p, r) && IsIssuable(p, b, r, m.now)
    requires i < |b.subs|
    requires forall e | e in Entries(b, r, m.now, m.latency) :: e.sub == i ==> !e.op.Closes()
    requires Sub.HoldsRow(b.subs[i]) || (r.op.Activate? && r.subarray == i)
    ensures var b' := IssueCommand(p, b, r, m).state; i < |b'.subs| && Sub.HoldsRow(b'.subs[i])
  {
    if r.op.PrechargeAll? {
      ActiveIsListed(b, r, m.now, m.latency, i);
      assert false;
    } else {
      assert Entries(b, r, m.now, m.latency)[0] in Entries(b, r, m.now, m.latency);
      SentState(p, b, r, m);
      if r.subarray == i && !r.op.IsPower() { Sub.IssueKeepsInv(p, b.subs[i], r, m); }
    }
  }

  // ---------------------------------------------------------------- whole runs

  lemma AppendStaysSpaced(p: Timing, b: State, now: nat, log: seq<Entry>, es: seq<Entry>)
    requires Spaced(p, log) && forall i | 0 <= i < |log| :: log[i].at <= now && Enforced(p, b, log[i])
    requires forall e | e in es :: e.sub < |b.subs| && e.at == now
    requires forall e | e in es && e.op.IsArray() ::
      TimerOf(b.next, e.op) <= now && Sub.TimerOf(b.subs[e.sub].next, e.op) <= now
    requires forall k, l | 0 <= k < l < |es| :: es[k].sub != es[l].sub && es[k].op.PrechargeAll?
    ensures Spaced(p, log + es)
  {
    var all := log + es;
    forall i, j | 0 <= i < j < |all|
      ensures all[i].at + BankGap(p, all[i], all[j].op) <= all[j].at
      ensures all[i].sub == all[j].sub ==> all[i].at + SubGap(p, all[i], all[j].op) <= all[j].at
    {
      if j >= |log| {
        assert all[j] in es;
        if i < |log| { assert Enforced(p, b, log[i]); }
      }
    }
  }

  lemma AppendStaysSeparated(log: seq<Entry>, es: seq<Entry>)
    requires ActivatesSeparated(log)
    requires forall e | e in es && e.op.Activate? :: es == [e]
    requires forall i, e | 0 <= i < |log| && e in es && log[i].op.Activate? && e.op.Activate? && e.sub == log[i].sub ::
      ClosedBetween(log, i, |log|)
    ensures ActivatesSeparated(log + es)
  {
    var all := log + es;
    forall i, j | 0 <= i < j < |all| && all[i].op.Activate? && all[j].op.Activate? && all[i].sub == all[j].sub
      ensures ClosedBetween(all, i, j)
    {
      if j >= |log| {
        assert all[j] in es;
        if i < |log| {
          assert ClosedBetween(log, i, |log|);
          var k :| i < k < |log| && log[k].sub == log[i].sub && log[k].op.Closes();
          assert all[k] == log[k];
        }
      } else {
        assert ClosedBetween(log, i, j);
        var k :| i < k < j && log[k].sub == log[i].sub && log[k].op.Closes();
        assert all[k] == log[k];
      }
    }
  }

  lemma ClosedStays(log: seq<Entry>, es: seq<Entry>, i: nat)
    requires i < |log|
    ensures ClosedBetween(log, i, |log|) ==> ClosedBetween(log + es, i, |log + es|)
  {
    if ClosedBetween(log, i, |log|) {
      var k :| i < k < |log| && log[k].sub == log[i].sub && log[k].op.Closes();
      assert (log + es)[k] == log[k];
    }
  }

  lemma AppendHoldsRows(p: Timing, b: State, r: Request, m: Moment, log: seq<Entry>)
    requires Inv(p, b, m.now) && Routed(b, r) && Sub.Sendable(p, r) && IsIssuable(p, b, r, m.now)
    requires OpenRowsHeld(b, log)
    ensures OpenRowsHeld(IssueCommand(p, b, r, m).state, log + Entries(b, r, m.now, m.latency))
  {
    var b' := IssueCommand(p, b, r, m).state;
    var es := Entries(b, r, m.now, m.latency);
    var all := log + es;
    forall i | 0 <= i < |all| && all[i].op.Activate? && !ClosedBetween(all, i, |all|)
      ensures all[i].sub < |b'.subs| && Sub.HoldsRow(b'.subs[all[i].sub]) {
      if i < |log| { ClosedStays(log, es, i); } else { assert all[i] in es; }
      forall e | e in es ensures e.sub == all[i].sub ==> !e.op.Closes() {
        var k :| 0 <= k < |es| && es[k] == e;
        assert all[|log| + k] == e;
      }
      IssueHoldsRows(p, b, r, m, all[i].sub);
    }
  }

  lemma IssueKeepsGood(p: Timing, c: Config, step: Step)
    requires Good(p, c) && step.Issue? && Enabled(p, c, step)
    ensures Good(p, Apply(p, c, step))
  {
    var b, r, m := c.bank, step.r, Moment(c.now, step.latency, step.bounce);
    var b' := IssueCommand(p, b, r, m).state;
    var es := Entries(b, r, c.now, step.latency);
    var all := c.log + es;
    GuardIsComplete(p, b, r, m);
    IssueAdvancesTimers(p, b, r, m);
    AppendHoldsRows(p, b, r, m, c.log);
    forall e | e in es
      ensures e.sub < |b.subs| && e.at == c.now && e.op == r.op && Enforced(p, b', e)
      ensures e.op.IsArray() ==> TimerOf(b.next, e.op) <= c.now && Sub.TimerOf(b.subs[e.sub].next, e.op) <= c.now
      ensures e.op.Activate? ==> !Sub.HoldsRow(b.subs[e.sub]) {
      IssuableIsDue(p, b, r, m, e);
      IssueEnforces(p, b, r, m, e);
    }
    AppendStaysSpaced(p, b, c.now, c.log, es);
    AppendStaysSeparated(c.log, es);
    forall i | 0 <= i < |all| ensures all[i].at <= c.now && Enforced(p, b', all[i]) {
      if i < |c.log| { EnforcedStays(p, b, b', c.log[i]); } else { assert all[i] in es; }
    }
  }

  lemma QuietKeepsGood(p: Timing, c: Config, step: Step)
    requires Good(p, c) && step.IsQuiet() && Enabled(p, c, step)
    ensures Good(p, Apply(p, c, step))
  {
    var c' := Apply(p, c, step);
    if !step.Advance? {
      Sub.CompleteKeepsInv(p, c.bank.subs[step.sub], c.now);
    }
    assert TimersAdvance(c.bank, c'.bank);
    forall i | 0 <= i < |c.log| ensures Enforced(p, c'.bank, c.log[i]) {
      EnforcedStays(p, c.bank, c'.bank, c.log[i]);
    }
  }

  lemma {:induction false} RunKeepsGood(p: Timing, c: Config, steps: seq<Step>)
    requires Good(p, c) && Execute(p, c, steps).Some?
    ensures Good(p, Execute(p, c, steps).value)
    decreases |steps|
  {
    if steps != [] {
      if steps[0].Issue? { IssueKeepsGood(p, c, steps[0]); } else { QuietKeepsGood(p, c, steps[0]); }
      RunKeepsGood(p, Apply(p, c, steps[0]), steps[1..]);
    }
  }

  // ---------------------------------------------------------------- timing safety

  /**
    Timing safety. In the log of any run from power-on, any two accepted commands keep the
    distance that the timers promise; and two activates of one subarray are separated by a
    closing command, so that their distance is at least the sum along that path.
   */
  lemma TimingSafety(p: Timing, n: positive, down: bool, steps: seq<Step>)
    requires Execute(p, Start(n, down), steps).Some?
    ensures var log := Execute(p, Start(n, down), steps).value.log;
      && Spaced(p, log)
      && ActivatesSeparated(log)
      && forall i, j | 0 <= i < j < |log| && log[i].op.Activate? && log[j].op.Activate? && log[i].sub == log[j].sub ::
           exists k | i < k < j :: (log[k].op.Closes()
             && log[i].at + SubGap(p, log[i], log[k].op) + SubGap(p, log[k], Op.Activate) <= log[j].at)
  {
    InitialInv(p, n, down);
    RunKeepsGood(p, Start(n, down), steps);
    var log := Execute(p, Start(n, down), steps).value.log;
    forall i, j | 0 <= i < j < |log| && log[i].op.Activate? && log[j].op.Activate? && log[i].sub == log[j].sub
      ensures exists k | i < k < j :: (log[k].op.Closes()
        && log[i].at + SubGap(p, log[i], log[k].op) + SubGap(p, log[k], Op.Activate) <= log[j].at) {
      assert ClosedBetween(log, i, j);
      var k :| i < k < j && log[k].sub == log[i].sub && log[k].op.Closes();
      assert log[i].at + SubGap(p, log[i], log[k].op) <= log[k].at;
      assert log[k].at + SubGap(p, log[k], log[j].op) <= log[j].at;
    }
  }

  /** An implicit precharge in progress keeps every array command out until the row is closed. */
  lemma PendingCloseBlocks(p: Timing, b: State, r: Request, now: nat)
    requires Inv(p, b, now) && Routed(b, r) && r.op.IsArray() && !r.op.PrechargeAll?
    requires b.subs[r.subarray].closing != Sub.NothingDue
    ensures !IsIssuable(p, b, r, now)
  {}

  // ---------------------------------------------------------------- wake-up times

  /** Events and the passing of time change no timer, no mode, no active queue and no held row. */
  ghost predicate SameTimers(b: State, b': State) {
    && b'.next == b.next && b'.mode == b.mode && b'.active == b.active && |b'.subs| == |b.subs|
    && forall i | 0 <= i < |b.subs| ::
         && b'.subs[i].next == b.subs[i].next
         && Sub.HoldsRow(b'.subs[i]) == Sub.HoldsRow(b.subs[i])
         && (Sub.HoldsRow(b.subs[i]) ==> b'.subs[i].openRow == b.subs[i].openRow)
  }

  ghost predicate AllQuiet(steps: seq<Step>) { forall k | 0 <= k < |steps| :: steps[k].IsQuiet() }

  lemma QuietStepKeepsTimers(p: Timing, c: Config, step: Step)
    requires Inv(p, c.bank, c.now) && step.IsQuiet() && Enabled(p, c, step)
    ensures var c' := Apply(p, c, step);
      Inv(p, c'.bank, c'.now) && c.now <= c'.now && SameTimers(c.bank, c'.bank)
  {
    if !step.Advance? { Sub.CompleteKeepsInv(p, c.bank.subs[step.sub], c.now); }
  }

  lemma {:induction false} QuietRunKeepsTimers(p: Timing, c: Config, steps: seq<Step>)
    requires Inv(p, c.bank, c.now) && AllQuiet(steps) && Execute(p, c, steps).Some?
    ensures var c' := Execute(p, c, steps).value;
      Inv(p, c'.bank, c'.now) && c.now <= c'.now && SameTimers(c.bank, c'.bank)
    decreases |steps|
  {
    hide Inv, Enabled, Apply;
    if steps != [] {
      QuietStepKeepsTimers(p, c, steps[0]);
      QuietRunKeepsTimers(p, Apply(p, c, steps[0]), steps[1..]);
    }
  }

  lemma IssuableAfterNextIssuable(p: Timing, b: State, r: Request, now: nat)
    requires Inv(p, b, now) && Routed(b, r) && IsIssuable(p, b, r, now)
    ensures NextIssuable(b, r) <= now
  {}

  /**
    A wake-up computed at `c` is never late: whatever events happen before the next command,
    a head that is issuable at some later cycle was due no later than that cycle.
   */
  lemma NeverSleepsPast(p: Timing, c: Config, steps: seq<Step>, head: Request)
    requires Inv(p, c.bank, c.now) && Routed(c.bank, head)
    requires AllQuiet(steps) && Execute(p, c, steps).Some?
    ensures var c' := Execute(p, c, steps).value;
      && Routed(c'.bank, head)
      && (IsIssuable(p, c'.bank, head, c'.now) ==> NextIssuable(c.bank, head) <= c'.now)
  {
    QuietRunKeepsTimers(p, c, steps);
    var c' := Execute(p, c, steps).value;
    if IsIssuable(p, c'.bank, head, c'.now) {
      IssuableAfterNextIssuable(p, c'.bank, head, c'.now);
    }
  }

  // ---------------------------------------------------------------- starting powered down

  ghost predicate IsDown(b: State) { !b.mode.Open? && !b.mode.Closed? }

  /** The commands sent are those that the memory controller makes: none of them wakes a bank. */
  ghost predicate OnlyArrayCommands(steps: seq<Step>) {
    forall k | 0 <= k < |steps| && steps[k].Issue? :: steps[k].r.op.IsArray()
  }

  /** A powered-down bank accepts none of the controller's commands, so a run has none in it and the mode stays. */
  lemma {:induction false} DownStaysDown(p: Timing, c: Config, steps: seq<Step>)
    requires IsDown(c.bank) && OnlyArrayCommands(steps) && Execute(p, c, steps).Some?
    ensures AllQuiet(steps) && Execute(p, c, steps).value.log == c.log
    ensures Execute(p, c, steps).value.bank.mode == c.bank.mode
    decreases |steps|
  {
    if steps != [] {
      assert steps[0].IsQuiet();
      DownStaysDown(p, Apply(p, c, steps[0]), steps[1..]);
    }
  }

  /** A bank that starts powered down never accepts a command of the controller, in any run. */
  lemma NeverWoken(p: Timing, n: positive, steps: seq<Step>, r: Request)
    requires OnlyArrayCommands(steps) && Execute(p, Start(n, true), steps).Some? && r.op.IsArray()
    ensures var c := Execute(p, Start(n, true), steps).value;
      && c.bank.mode == DownFast && c.log == []
      && (Routed(c.bank, r) ==> !IsIssuable(p, c.bank, r, c.now))
  {
    DownStaysDown(p, Start(n, true), steps);
  }
}
