/**
  When a bank may be powered down: the distances that its commands demand, which of them a WRITE_PRECHARGE
  makes the bank forget, and a refresh that is cut short because of it.
 */
module PowerDowns {
  import opened Commands
  import opened BankSpec
  import opened BankRuns
  import BankLaw
  import Sub = SubArraySpec
  import opened Sequences

  predicate IsDown(op: Op) { op.PowerDownActive? || op.PowerDownFast? || op.PowerDownSlow? }

  /** The distance that `e` demands of a power-down, by its subarray. */
  function SubDownGap(p: Timing, e: Entry): nat {
    var span := p.Span(e.bursts - 1) + e.latency;
    match e.op
    case Activate => Max(p.rcd, p.ras)
    case Read | ReadPrecharge => span + p.cas + p.al + p.burst + 1
    case Write => span + p.al + p.cwd + p.burst + p.wr
    case WritePrecharge => span + p.al + p.cwd + p.burst + p.wr + p.rp
    case _ => 0
  }

  /** The distance that `e` demands of a power-down, by the bank. */
  function BankDownGap(p: Timing, e: Entry): nat {
    var span := p.Span(e.bursts - 1);
    match e.op
    case Activate => p.rcd
    case Read => span + p.rdpden
    case ReadPrecharge => span + p.al + p.rtp + p.rp
    case Write => span + p.wrpden
    case WritePrecharge => span + p.al + p.cwd + p.burst + p.wr + p.rp
    case Precharge | PrechargeAll => p.rp
    case Refresh => p.rfc
    case PowerUp => p.xp
    case _ => 0
  }

  // ---------------------------------------------------------------- one command

  /**
    How a command moves the power-down timer of its subarray: to its distance, and a write also to the
    cycle of the next precharge.
   */
  lemma SubDownTimerIs(p: Timing, s: Sub.State, r: Request, m: Moment, e: Entry)
    requires Sub.Inv(p, s, m.now) && Sub.IsIssuable(p, s, r, m.now) && (r.op.IsColumn() ==> s.next.activate <= m.now)
    requires BankLaw.IsEntryOf(e, r, m) && (r.op.IsArray() || r.op.IsPower())
    ensures Sub.IssueCommand(p, s, r, m).state.next.powerDown ==
      Max(if r.op.IsWrite() then Max(s.next.powerDown, s.next.precharge) else s.next.powerDown,
          if r.op.Activate? || r.op.IsColumn() then m.now + SubDownGap(p, e) else 0)
  {
    hide Parameters.Span;
    if r.op.IsWrite() { WriteDownTimerIs(p, s, r, m, e); }
  }

  lemma WriteDownTimerIs(p: Timing, s: Sub.State, r: Request, m: Moment, e: Entry)
    requires Sub.IsIssuable(p, s, r, m.now) && r.op.IsWrite() && s.next.activate <= m.now
    requires BankLaw.IsEntryOf(e, r, m)
    ensures Sub.WriteStep(p, s, r, m).state.next.powerDown ==
      Max(Max(s.next.powerDown, s.next.precharge), m.now + SubDownGap(p, e))
  {
    hide Parameters.Span;
  }

  lemma SubDownTimerIsAtLeast(p: Timing, s: Sub.State, r: Request, m: Moment, e: Entry)
    requires Sub.Inv(p, s, m.now) && Sub.IsIssuable(p, s, r, m.now)
    requires BankLaw.IsEntryOf(e, r, m) && (r.op.IsArray() || r.op.IsPower())
    ensures SubDownGap(p, e) != 0 ==>
      m.now + SubDownGap(p, e) <= Sub.IssueCommand(p, s, r, m).state.next.powerDown
  {
    hide Parameters.Span;
  }

  /**
    How a command moves the power-down timer of the bank: to its distance; but WRITE_PRECHARGE starts from
    the activate timer, and so forgets what other commands demanded.
   */
  lemma BankDownTimerIs(p: Timing, b: State, r: Request, m: Moment, e: Entry)
    requires Inv(p, b, m.now) && Routed(b, r) && IsIssuable(p, b, r, m.now)
    requires BankLaw.IsEntryOf(e, r, m) && (r.op.IsArray() || r.op.IsPower())
    ensures IssueCommand(p, b, r, m).state.next.powerDown ==
      Max(if r.op.WritePrecharge? then b.next.activate else b.next.powerDown,
          if IsDown(r.op) then 0 else m.now + BankDownGap(p, e))
  {
    if r.op.PrechargeAll? {
      PrechargedState(p, b, r, m);
    } else {
      hide Parameters.Span, Sub.IssueCommand, Sub.IsIssuable, Sub.Inv, ActiveIsExact;
    }
  }

  // ---------------------------------------------------------------- runs

  /** No WRITE_PRECHARGE came after entry `k`, which is none itself or is the latest. */
  ghost predicate Remembered(log: seq<Entry>, k: nat) {
    forall j | k < j < |log| :: !log[j].op.WritePrecharge?
  }

  ghost predicate Delays(p: Timing, b: State, log: seq<Entry>, k: nat)
    requires k < |log|
  {
    var e := log[k];
    && e.sub < |b.subs|
    && (SubDownGap(p, e) != 0 ==> e.at + SubDownGap(p, e) <= b.subs[e.sub].next.powerDown)
    && (Remembered(log, k) && !IsDown(e.op) ==> e.at + BankDownGap(p, e) <= b.next.powerDown)
  }

  ghost predicate AllDelay(p: Timing, b: State, log: seq<Entry>) { forall k | 0 <= k < |log| :: Delays(p, b, log, k) }

  lemma OldDelays(p: Timing, b: State, b': State, log: seq<Entry>, es: seq<Entry>, k: nat)
    requires k < |log| && Delays(p, b, log, k) && TimersAdvance(b, b')
    requires b.next.powerDown <= b'.next.powerDown || exists e :: e in es && e.op.WritePrecharge?
    ensures Delays(p, b', log + es, k)
  {
    hide SubDownGap, BankDownGap;
    assert (log + es)[k] == log[k];
    assert Sub.NotBefore(b.subs[log[k].sub].next, b'.subs[log[k].sub].next);
    if Remembered(log + es, k) {
      forall j | k < j < |log| ensures !log[j].op.WritePrecharge? { assert (log + es)[j] == log[j]; }
      forall e | e in es ensures !e.op.WritePrecharge? {
        var i :| 0 <= i < |es| && es[i] == e;
        assert (log + es)[|log| + i] == e;
      }
    }
  }

  lemma NewDelays(p: Timing, b: State, r: Request, m: Moment, e: Entry)
    requires Inv(p, b, m.now) && Routed(b, r) && Sub.Sendable(p, r) && IsIssuable(p, b, r, m.now)
    requires e in Entries(b, r, m.now, m.latency)
    ensures var b' := IssueCommand(p, b, r, m).state;
      && e.sub < |b'.subs|
      && (SubDownGap(p, e) != 0 ==> e.at + SubDownGap(p, e) <= b'.subs[e.sub].next.powerDown)
      && (!IsDown(e.op) ==> e.at + BankDownGap(p, e) <= b'.next.powerDown)
  {
    hide SubDownGap, BankDownGap, IssueCommand, Sub.IssueCommand;
    BankLaw.IssuableKinds(p, b, r, m.now);
    BankDownTimerIs(p, b, r, m, e);
    IssueAdvancesTimers(p, b, r, m);
    if r.op.IsArray() && !r.op.PrechargeAll? {
      BankLaw.SubIsIssuable(p, b, r, m.now);
      SentState(p, b, r, m);
      SubDownTimerIsAtLeast(p, b.subs[e.sub], r, m, e);
    } else {
      NoSubGap(p, b, r, m, e);
    }
  }

  lemma NoSubGap(p: Timing, b: State, r: Request, m: Moment, e: Entry)
    requires e in Entries(b, r, m.now, m.latency) && Inv(p, b, m.now) && Routed(b, r)
    requires r.op.PrechargeAll? || r.op.IsPower()
    ensures e.sub < |b.subs| && SubDownGap(p, e) == 0
  {}

  lemma SubDelays(p: Timing, b: State, r: Request, m: Moment)
    requires Inv(p, b, m.now) && Routed(b, r) && IsIssuable(p, b, r, m.now) && !r.op.WritePrecharge?
    ensures b.next.powerDown <= IssueCommand(p, b, r, m).state.next.powerDown
  {
    BankLaw.IssuableKinds(p, b, r, m.now);
    hide IssueCommand, IsIssuable;
    BankDownTimerIs(p, b, r, m, Entry(m.now, r.subarray, r.op, r.row, r.bursts, m.latency, false));
  }

  /** What a run keeps: the law of the bank, and the timers that hold a power-down back. */
  ghost predicate Kept(p: Timing, down: bool, c: Config) {
    BankLaw.Law(p, down, c) && AllDelay(p, c.bank, c.log)
  }

  lemma IssueKeepsDelays(p: Timing, c: Config, step: Step)
    requires Good(p, c) && AllDelay(p, c.bank, c.log) && step.Issue? && Enabled(p, c, step)
    ensures AllDelay(p, Apply(p, c, step).bank, Apply(p, c, step).log)
  {
    var b, r, m := c.bank, step.r, Moment(c.now, step.latency, step.bounce);
    var b', es := IssueCommand(p, b, r, m).state, Entries(b, r, m.now, m.latency);
    hide IssueCommand, IsIssuable, SubDownGap, BankDownGap, Delays, Enforced, Spaced, ActivatesSeparated, OpenRowsHeld;
    IssueAdvancesTimers(p, b, r, m);
    if r.op.WritePrecharge? {
      assert es[0] in es && es[0].op.WritePrecharge?;
    } else {
      SubDelays(p, b, r, m);
    }
    forall k | 0 <= k < |c.log + es| ensures Delays(p, b', c.log + es, k) {
      if k < |c.log| {
        OldDelays(p, b, b', c.log, es, k);
      } else {
        assert es[k - |c.log|] in es;
        NewDelays(p, b, r, m, es[k - |c.log|]);
        NowDelays(p, b', c.log + es, k);
      }
    }
  }

  lemma NowDelays(p: Timing, b: State, log: seq<Entry>, k: nat)
    requires k < |log| && log[k].sub < |b.subs|
    requires SubDownGap(p, log[k]) != 0 ==> log[k].at + SubDownGap(p, log[k]) <= b.subs[log[k].sub].next.powerDown
    requires !IsDown(log[k].op) ==> log[k].at + BankDownGap(p, log[k]) <= b.next.powerDown
    ensures Delays(p, b, log, k)
  {}

  lemma QuietKeepsDelays(p: Timing, c: Config, step: Step)
    requires Good(p, c) && AllDelay(p, c.bank, c.log) && step.IsQuiet() && Enabled(p, c, step)
    ensures AllDelay(p, Apply(p, c, step).bank, Apply(p, c, step).log)
  {
    hide SubDownGap, BankDownGap;
    forall k | 0 <= k < |c.log| ensures Delays(p, Apply(p, c, step).bank, c.log, k) {
      assert Delays(p, c.bank, c.log, k);
    }
  }

  lemma {:induction false} RunKeeps(p: Timing, down: bool, c: Config, steps: seq<Step>)
    requires Kept(p, down, c) && Execute(p, c, steps).Some?
    ensures Kept(p, down, Execute(p, c, steps).value)
    decreases |steps|
  {
    hide Enabled, Apply, AllDelay, Good, BankLaw.BankTight, BankLaw.SubLaw;
    if steps != [] {
      if steps[0].Issue? {
        BankLaw.IssueKeepsLaw(p, down, c, steps[0]);
        IssueKeepsDelays(p, c, steps[0]);
      } else {
        BankLaw.QuietKeepsLaw(p, down, c, steps[0]);
        QuietKeepsDelays(p, c, steps[0]);
      }
      RunKeeps(p, down, Apply(p, c, steps[0]), steps[1..]);
    }
  }

  /**
    Power-down safety. In every run from power-on, when a bank accepts a power-down it is up, no write is
    in progress, no row is open unless it goes to active power-down, and every distance has passed that a
    command demands by its subarray, or demands by the bank and no later WRITE_PRECHARGE made it forget.
   */
  lemma PowerDownIsSafe(p: Timing, n: positive, down: bool, steps: seq<Step>, r: Request)
    requires Execute(p, Start(n, down), steps).Some? && IsDown(r.op) && r.subarray < n
    ensures var c := Execute(p, Start(n, down), steps).value;
      && Routed(c.bank, r)
      && (IsIssuable(p, c.bank, r, c.now) ==>
            && BankLaw.Up(c.log, down)
            && (forall k | 0 <= k < |c.log| :: c.log[k].at + SubDownGap(p, c.log[k]) <= c.now)
            && (forall k | 0 <= k < |c.log| && Remembered(c.log, k) && !IsDown(c.log[k].op) ::
                  c.log[k].at + BankDownGap(p, c.log[k]) <= c.now)
            && (forall x: nat | x < n && BankLaw.LastWrite(c.log, x).Some? ::
                  BankLaw.WrittenAt(p, BankLaw.LastWrite(c.log, x).value) <= c.now)
            && (!r.op.PowerDownActive? ==> forall x: nat | x < n && BankLaw.Last(c.log, x).Some? ::
                  !BankLaw.Opens(BankLaw.Last(c.log, x).value.op)))
  {
    ReachedIsKept(p, n, down, steps);
    hide *;
    AcceptedIsSafe(p, n, down, Execute(p, Start(n, down), steps).value, r);
  }

  lemma ReachedIsKept(p: Timing, n: positive, down: bool, steps: seq<Step>)
    requires Execute(p, Start(n, down), steps).Some?
    ensures Kept(p, down, Execute(p, Start(n, down), steps).value)
    ensures |Execute(p, Start(n, down), steps).value.bank.subs| == n
  {
    hide Kept, Execute, BankLaw.Law;
    BankLaw.RunFollowsLaw(p, n, down, steps);
    StartIsKept(p, n, down);
    RunKeeps(p, down, Start(n, down), steps);
  }

  lemma StartIsKept(p: Timing, n: positive, down: bool)
    ensures Kept(p, down, Start(n, down))
  {
    hide BankLaw.Law;
    BankLaw.RunFollowsLaw(p, n, down, []);
  }

  lemma AcceptedIsSafe(p: Timing, n: positive, down: bool, c: Config, r: Request)
    requires Kept(p, down, c) && IsDown(r.op) && r.subarray < n == |c.bank.subs|
    ensures Routed(c.bank, r)
    ensures IsIssuable(p, c.bank, r, c.now) ==>
      && BankLaw.Up(c.log, down)
      && (forall k | 0 <= k < |c.log| :: c.log[k].at + SubDownGap(p, c.log[k]) <= c.now)
      && (forall k | 0 <= k < |c.log| && Remembered(c.log, k) && !IsDown(c.log[k].op) ::
            c.log[k].at + BankDownGap(p, c.log[k]) <= c.now)
      && (forall x: nat | x < n && BankLaw.LastWrite(c.log, x).Some? ::
            BankLaw.WrittenAt(p, BankLaw.LastWrite(c.log, x).value) <= c.now)
      && (!r.op.PowerDownActive? ==> forall x: nat | x < n && BankLaw.Last(c.log, x).Some? ::
            !BankLaw.Opens(BankLaw.Last(c.log, x).value.op))
  {
    hide SubDownGap, BankDownGap, BankLaw.Up, BankLaw.Last, BankLaw.LastWrite, BankLaw.WrittenAt, BankLaw.BankTight,
      BankLaw.SubTight, Enforced, Spaced, ActivatesSeparated, OpenRowsHeld, Remembered;
    if IsIssuable(p, c.bank, r, c.now) {
      forall k | 0 <= k < |c.log|
        ensures c.log[k].at + SubDownGap(p, c.log[k]) <= c.now
        ensures Remembered(c.log, k) && !IsDown(c.log[k].op) ==> c.log[k].at + BankDownGap(p, c.log[k]) <= c.now {
        assert Delays(p, c.bank, c.log, k) && c.log[k].at <= c.now;
      }
      forall x: nat | x < n
        ensures BankLaw.LastWrite(c.log, x).Some? ==> BankLaw.WrittenAt(p, BankLaw.LastWrite(c.log, x).value) <= c.now
        ensures !r.op.PowerDownActive? && BankLaw.Last(c.log, x).Some? ==>
          !BankLaw.Opens(BankLaw.Last(c.log, x).value.op) {
        assert BankLaw.SubLaw(p, c.bank.subs[x], c.log, x, c.now);
        BankLaw.ActiveIffOpen(p, down, c, x);
      }
    }
  }

  // ---------------------------------------------------------------- power modes

  /** The latest power command. */
  function LastPower(log: seq<Entry>): Option<Entry> {
    if log == [] then None
    else if log[|log| - 1].op.IsPower() then Some(log[|log| - 1])
    else LastPower(log[..|log| - 1])
  }

  /** The latest power-down. */
  function LastDown(log: seq<Entry>): Option<Entry> {
    if log == [] then None
    else if IsDown(log[|log| - 1].op) then Some(log[|log| - 1])
    else LastDown(log[..|log| - 1])
  }

  /** The mode and the power-up timer are what the latest power commands say. */
  ghost predicate ModeMatches(p: Timing, down: bool, b: State, log: seq<Entry>) {
    && b.next.powerUp == (if LastDown(log).Some? then LastDown(log).value.at + p.pd else 0)
    && match LastPower(log)
       case None => if down then b.mode.DownFast? else b.mode.Open? || b.mode.Closed?
       case Some(e) =>
         if e.op.PowerUp? then b.mode.Open? || b.mode.Closed?
         else if b.active != [] then b.mode.DownActive?
         else if e.op.PowerDownSlow? then b.mode.DownSlow?
         else b.mode.DownFast?
  }

  lemma PowerAppend(log: seq<Entry>, e: Entry)
    ensures LastPower(log + [e]) == if e.op.IsPower() then Some(e) else LastPower(log)
    ensures LastDown(log + [e]) == if IsDown(e.op) then Some(e) else LastDown(log)
  {
    assert (log + [e])[..|log|] == log;
  }

  lemma {:induction false} PowerSkips(log: seq<Entry>, es: seq<Entry>)
    requires forall e | e in es :: !e.op.IsPower()
    ensures LastPower(log + es) == LastPower(log) && LastDown(log + es) == LastDown(log)
    decreases |es|
  {
    if es == [] {
      assert log + es == log;
    } else {
      var n := |es| - 1;
      PowerSkips(log, es[..n]);
      PowerAppend(log + es[..n], es[n]);
      assert log + es == log + es[..n] + [es[n]];
    }
  }

  lemma ArrayKeepsPower(p: Timing, b: State, r: Request, m: Moment)
    requires Inv(p, b, m.now) && Routed(b, r) && IsIssuable(p, b, r, m.now) && r.op.IsArray()
    ensures IssueCommand(p, b, r, m).state.next.powerUp == b.next.powerUp
  {
    if r.op.PrechargeAll? {
      PrechargedState(p, b, r, m);
    } else {
      hide Parameters.Span, Sub.IssueCommand, Sub.IsIssuable, Sub.Inv, ActiveIsExact;
    }
  }

  lemma IssueKeepsMode(p: Timing, down: bool, c: Config, step: Step)
    requires Good(p, c) && ModeMatches(p, down, c.bank, c.log) && step.Issue? && Enabled(p, c, step)
    requires forall k | 0 <= k < |c.log| :: c.log[k].at <= c.now
    ensures ModeMatches(p, down, Apply(p, c, step).bank, Apply(p, c, step).log)
  {
    var m := Moment(c.now, step.latency, step.bounce);
    BankLaw.IssuableKinds(p, c.bank, step.r, c.now);
    hide ModeMatches, IssueCommand, IsIssuable, Entries, Enforced, Spaced, ActivatesSeparated, OpenRowsHeld;
    if step.r.op.IsArray() {
      ArrayKeepsMode(p, down, c.bank, step.r, m, c.log);
    } else {
      LastDownIsEarlier(c.log, c.now);
      PowerKeepsMode(p, down, c.bank, step.r, m, c.log);
    }
  }

  lemma ArrayKeepsMode(p: Timing, down: bool, b: State, r: Request, m: Moment, log: seq<Entry>)
    requires Inv(p, b, m.now) && Routed(b, r) && IsIssuable(p, b, r, m.now) && r.op.IsArray()
    requires ModeMatches(p, down, b, log)
    ensures ModeMatches(p, down, IssueCommand(p, b, r, m).state, log + Entries(b, r, m.now, m.latency))
  {
    BankLaw.IssuableKinds(p, b, r, m.now);
    BankLaw.SentMode(p, b, r, m);
    ArrayKeepsPower(p, b, r, m);
    hide LastPower, LastDown, IssueCommand, IsIssuable;
    PowerSkips(log, Entries(b, r, m.now, m.latency));
  }

  lemma PowerKeepsMode(p: Timing, down: bool, b: State, r: Request, m: Moment, log: seq<Entry>)
    requires Inv(p, b, m.now) && Routed(b, r) && IsIssuable(p, b, r, m.now) && r.op.IsPower()
    requires ModeMatches(p, down, b, log) && (LastDown(log).Some? ==> LastDown(log).value.at <= m.now)
    ensures ModeMatches(p, down, IssueCommand(p, b, r, m).state, log + Entries(b, r, m.now, m.latency))
  {
    hide LastPower, LastDown, IssueCommand, IsIssuable, Inv;
    PowerAppend(log, Entries(b, r, m.now, m.latency)[0]);
    PowerIsCarriedOut(p, b, r, m);
  }

  lemma {:induction false} LastDownIsEarlier(log: seq<Entry>, now: nat)
    requires forall k | 0 <= k < |log| :: log[k].at <= now
    ensures LastDown(log).Some? ==> LastDown(log).value.at <= now
  {
    if log != [] { LastDownIsEarlier(log[..|log| - 1], now); }
  }

  lemma PowerIsCarriedOut(p: Timing, b: State, r: Request, m: Moment)
    requires Inv(p, b, m.now) && Routed(b, r) && IsIssuable(p, b, r, m.now) && r.op.IsPower()
    ensures var b' := IssueCommand(p, b, r, m).state;
      && b'.active == b.active
      && (r.op.PowerUp? ==> (b'.mode.Open? || b'.mode.Closed?) && b'.next.powerUp == b.next.powerUp)
      && (!r.op.PowerUp? ==>
            && b'.next.powerUp == Max(b.next.powerUp, m.now + p.pd)
            && if b.active != [] then b'.mode.DownActive?
               else if r.op.PowerDownSlow? then b'.mode.DownSlow? else b'.mode.DownFast?)
  {
    hide Sub.Inv, Sub.IsIssuable, ActiveIsExact;
  }

  lemma QuietKeepsMode(p: Timing, down: bool, c: Config, step: Step)
    requires ModeMatches(p, down, c.bank, c.log) && step.IsQuiet() && Enabled(p, c, step)
    ensures ModeMatches(p, down, Apply(p, c, step).bank, Apply(p, c, step).log)
  {}

  lemma {:induction false} RunKeepsMode(p: Timing, down: bool, c: Config, steps: seq<Step>)
    requires Good(p, c) && ModeMatches(p, down, c.bank, c.log) && Execute(p, c, steps).Some?
    ensures Good(p, Execute(p, c, steps).value)
    ensures ModeMatches(p, down, Execute(p, c, steps).value.bank, Execute(p, c, steps).value.log)
    decreases |steps|
  {
    if steps != [] {
      GoodIsEarlier(p, c);
      hide Enabled, Apply, ModeMatches, Good;
      if steps[0].Issue? {
        IssueKeepsGood(p, c, steps[0]);
        IssueKeepsMode(p, down, c, steps[0]);
      } else {
        QuietKeepsGood(p, c, steps[0]);
        QuietKeepsMode(p, down, c, steps[0]);
      }
      RunKeepsMode(p, down, Apply(p, c, steps[0]), steps[1..]);
    }
  }

  lemma GoodIsEarlier(p: Timing, c: Config)
    requires Good(p, c)
    ensures forall k | 0 <= k < |c.log| :: c.log[k].at <= c.now
  {}

  /**
    Power modes. In every run from power-on, a bank that was powered down is in active power-down if a row is
    open, in slow-exit power-down if that was asked for, and else in fast-exit power-down; and it accepts
    PowerUp if and only if it is down and tPD has passed since its latest power-down.
   */
  lemma PowerUpAcceptedIff(p: Timing, n: positive, down: bool, steps: seq<Step>, r: Request)
    requires Execute(p, Start(n, down), steps).Some? && r.op.PowerUp? && r.subarray < n
    ensures var c := Execute(p, Start(n, down), steps).value;
      && ModeMatches(p, down, c.bank, c.log) && Routed(c.bank, r)
      && (IsIssuable(p, c.bank, r, c.now) <==>
            && (if LastPower(c.log).Some? then !LastPower(c.log).value.op.PowerUp? else down)
            && (LastDown(c.log).Some? ==> LastDown(c.log).value.at + p.pd <= c.now))
  {
    InitialInv(p, n, down);
    RunKeepsMode(p, down, Start(n, down), steps);
    BankLaw.RunFollowsLaw(p, n, down, steps);
    hide Execute, BankLaw.Law, LastPower, LastDown, Enforced, Spaced, ActivatesSeparated, OpenRowsHeld;
  }

  // ---------------------------------------------------------------- a refresh that is cut short

  /** Timings of one cycle each, with a refresh of 100 cycles. */
  const P: Parameters := Parameters(1, 1, 1, 0, 0, 1, 1, 1, 1, 0, 0, 0, 100, 0, 0, 0, 0, 0, 1, false)

  function Command(op: Op, sub: nat): Request { Request(0, op, 0, 0, 0, 0, sub, 1, 0, false, false, false, false) }

  function Send(op: Op, sub: nat): Step { Issue(Command(op, sub), 0, NotBounced) }

  lemma OneStep(c: Config, step: Step, rest: seq<Step>)
    requires P.Valid() && Enabled(P, c, step)
    ensures Execute(P, c, [step] + rest) == Execute(P, Apply(P, c, step), rest)
  {
    assert ([step] + rest)[1..] == rest;
  }

  /** The subarray that is refreshed. */
  const REFRESHING: Sub.State :=
    Sub.Initial().(phase := Sub.Refreshing, next := Sub.Timers(100, 0, 0, 0, 0), closing := Sub.ClosedAt(100))

  lemma Refreshes(c: Config, c': Config)
    requires c == Start(2, false) && c'.log == c.log + Entries(c.bank, Command(Op.Refresh, 1), 0, 0)
    requires c'.now == 0 && c'.bank == State(Mode.Closed, Timers(0, 0, 0, 0, 100, 0), [], [Sub.Initial(), REFRESHING])
    ensures P.Valid() && Enabled(P, c, Send(Op.Refresh, 1)) && Apply(P, c, Send(Op.Refresh, 1)) == c'
  {
    assert c.bank.subs == [Sub.Initial(), Sub.Initial()];
  }

  /** The other subarray with its row open. */
  const OPENED: Sub.State := Sub.Initial().(phase := Sub.Open, next := Sub.Timers(0, 1, 1, 1, 1))

  lemma Opens(c: Config, c': Config)
    requires c.now == 0 && c.bank == State(Mode.Closed, Timers(0, 0, 0, 0, 100, 0), [], [Sub.Initial(), REFRESHING])
    requires c' == Config(State(Mode.Open, Timers(0, 0, 0, 0, 100, 0), [0], [OPENED, REFRESHING]), 0, c'.log)
    requires c'.log == c.log + Entries(c.bank, Command(Op.Activate, 0), 0, 0)
    ensures P.Valid() && Enabled(P, c, Send(Op.Activate, 0)) && Apply(P, c, Send(Op.Activate, 0)) == c'
  {}

  /** The row was written at cycle 1, and will be closed. */
  const WRITTEN: Sub.State :=
    Sub.State(Sub.Open, 0, Sub.Timers(4, 4, 4, 4, 4), Sub.Timers(0, 1, 1, 1, 1),
              Sub.AutoPrechargeAt(3), Sub.Writing(0, false, 3, NotBounced))

  lemma Writes(c: Config, c': Config)
    requires c.now == 1 && c.bank == State(Mode.Open, Timers(0, 0, 0, 0, 100, 0), [0], [OPENED, REFRESHING])
    requires c' == Config(State(Mode.Closed, Timers(0, 0, 3, 2, 4, 0), [], [WRITTEN, REFRESHING]), 1, c'.log)
    requires c'.log == c.log + Entries(c.bank, Command(Op.WritePrecharge, 0), 1, 0)
    ensures P.Valid() && Enabled(P, c, Send(Op.WritePrecharge, 0)) && Apply(P, c, Send(Op.WritePrecharge, 0)) == c'
  {
    assert Erase([0], 0) == [];
  }

  lemma Waits(c: Config, to: nat)
    requires |c.bank.subs| == 2 && c.now < to
    requires NothingBefore(c.bank.subs[0], to) && NothingBefore(c.bank.subs[1], to)
    ensures P.Valid() && Enabled(P, c, Advance(to)) && Apply(P, c, Advance(to)) == c.(now := to)
  {}

  lemma Completes(c: Config) returns (c': Config)
    requires c.now == 3 && c.bank == State(Mode.Closed, Timers(0, 0, 3, 2, 4, 0), [], [WRITTEN, REFRESHING])
    ensures P.Valid()
    ensures Execute(P, c, [CompleteWrite(0), CompleteClosing(0), Advance(4), CompleteClosing(0)]) == Some(c')
    ensures c'.now == 4 && c'.bank.mode.Closed? && c'.bank.next.powerDown == 4 && c'.bank.active == []
    ensures |c'.bank.subs| == 2 && c'.bank.subs[1] == REFRESHING
    ensures c'.bank.subs[0].next.powerDown == 4 && c'.bank.subs[0].writing.NotWriting?
  {
    hide Execute;
    var c1 := Apply(P, c, CompleteWrite(0));
    var c2 := Apply(P, c1, CompleteClosing(0));
    Waits(c2, 4);
    var c3 := c2.(now := 4);
    c' := Apply(P, c3, CompleteClosing(0));
    RunOfFour(c, CompleteWrite(0), c1, CompleteClosing(0), c2, Advance(4), c3, CompleteClosing(0), c');
  }

  lemma RunOfFour(c: Config, s1: Step, c1: Config, s2: Step, c2: Config, s3: Step, c3: Config, s4: Step, c4: Config)
    requires P.Valid() && Enabled(P, c, s1) && c1 == Apply(P, c, s1) && Enabled(P, c1, s2) && c2 == Apply(P, c1, s2)
    requires Enabled(P, c2, s3) && c3 == Apply(P, c2, s3) && Enabled(P, c3, s4) && c4 == Apply(P, c3, s4)
    ensures Execute(P, c, [s1, s2, s3, s4]) == Some(c4)
  {
    hide Execute, Enabled, Apply;
    OneStep(c, s1, [s2, s3, s4]);
    OneStep(c1, s2, [s3, s4]);
    OneStep(c2, s3, [s4]);
    OneStep(c3, s4, []);
    NoStep(c4);
    assert [s1] + [s2, s3, s4] == [s1, s2, s3, s4] && [s2] + [s3, s4] == [s2, s3, s4];
    assert [s3] + [s4] == [s3, s4] && [s4] + [] == [s4];
  }

  lemma NoStep(c: Config)
    requires P.Valid()
    ensures Execute(P, c, []) == Some(c)
  {}

  lemma {:induction false} RunJoins(c: Config, a: seq<Step>, b: seq<Step>)
    requires P.Valid() && Execute(P, c, a).Some?
    ensures Execute(P, c, a + b) == Execute(P, Execute(P, c, a).value, b)
    decreases |a|
  {
    hide Enabled, Apply;
    if a == [] {
      assert a + b == b;
    } else {
      assert (a + b)[1..] == a[1..] + b;
      RunJoins(Apply(P, c, a[0]), a[1..], b);
    }
  }

  lemma WritesInRefresh() returns (c: Config)
    ensures P.Valid() && c.now == 1
    ensures c.bank == State(Mode.Closed, Timers(0, 0, 3, 2, 4, 0), [], [WRITTEN, REFRESHING])
    ensures Some(c) == Execute(P, Start(2, false), [Send(Op.Refresh, 1), Send(Op.Activate, 0), Advance(1),
                                                    Send(Op.WritePrecharge, 0)])
  {
    hide Entries;
    var c0, b1 := Start(2, false), State(Mode.Closed, Timers(0, 0, 0, 0, 100, 0), [], [Sub.Initial(), REFRESHING]);
    var c1 := Config(b1, 0, c0.log + Entries(c0.bank, Command(Op.Refresh, 1), 0, 0));
    Refreshes(c0, c1);
    var b2 := State(Mode.Open, Timers(0, 0, 0, 0, 100, 0), [0], [OPENED, REFRESHING]);
    var c2 := Config(b2, 0, c1.log + Entries(b1, Command(Op.Activate, 0), 0, 0));
    Opens(c1, c2);
    Waits(c2, 1);
    var c3 := c2.(now := 1);
    var b4 := State(Mode.Closed, Timers(0, 0, 3, 2, 4, 0), [], [WRITTEN, REFRESHING]);
    c := Config(b4, 1, c3.log + Entries(b2, Command(Op.WritePrecharge, 0), 1, 0));
    Writes(c3, c);
    RunOfFour(c0, Send(Op.Refresh, 1), c1, Send(Op.Activate, 0), c2, Advance(1), c3, Send(Op.WritePrecharge, 0), c);
  }

  /**
    A bank that refreshes one subarray and writes another with implicit precharge accepts a power-down
    while the refresh goes on.
   */
  lemma RefreshIsCutShort()
    ensures P.Valid()
    ensures var run := [Send(Op.Refresh, 1), Send(Op.Activate, 0), Advance(1), Send(Op.WritePrecharge, 0)]
                       + [Advance(3), CompleteWrite(0), CompleteClosing(0), Advance(4), CompleteClosing(0)];
      var c := Execute(P, Start(2, false), run);
      && c.Some? && c.value.now == 4 && |c.value.bank.subs| == 2
      && c.value.bank.subs[1].phase.Refreshing? && c.value.bank.subs[1].closing == Sub.ClosedAt(100)
      && Routed(c.value.bank, Command(Op.PowerDownFast, 0))
      && IsIssuable(P, c.value.bank, Command(Op.PowerDownFast, 0), 4)
  {
    hide Execute, Enabled, Apply;
    var c := WritesInRefresh();
    Waits(c, 3);
    var end := Completes(c.(now := 3));
    var rest := [CompleteWrite(0), CompleteClosing(0), Advance(4), CompleteClosing(0)];
    OneStep(c, Advance(3), rest);
    RunJoins(Start(2, false), [Send(Op.Refresh, 1), Send(Op.Activate, 0), Advance(1), Send(Op.WritePrecharge, 0)],
             [Advance(3)] + rest);
    assert [Advance(3)] + rest == [Advance(3), CompleteWrite(0), CompleteClosing(0), Advance(4), CompleteClosing(0)];
  }
}
