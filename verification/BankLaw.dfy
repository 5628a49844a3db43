/**
  When a bank accepts a command, said over the log of a run and the timing parameters alone: which rows
  are open, when a closing row is closed and a write is done, and which distances have passed. In every
  run from power-on the bank accepts exactly the commands that this law allows.
 */
module BankLaw {
  import opened Commands
  import opened BankSpec
  import opened BankRuns
  import Sub = SubArraySpec

  // ---------------------------------------------------------------- what a log says

  /** The latest array command to subarray `i`. */
  function Last(log: seq<Entry>, i: nat): Option<Entry> {
    if log == [] then None
    else
      var e := log[|log| - 1];
      if e.sub == i && e.op.IsArray() then Some(e) else Last(log[..|log| - 1], i)
  }

  /** The latest write to subarray `i`. */
  function LastWrite(log: seq<Entry>, i: nat): Option<Entry> {
    if log == [] then None
    else
      var e := log[|log| - 1];
      if e.sub == i && e.op.IsWrite() then Some(e) else LastWrite(log[..|log| - 1], i)
  }

  /** The bank, which started powered down if `down`, is not powered down. */
  predicate Up(log: seq<Entry>, down: bool) {
    if log == [] then !down
    else
      var op := log[|log| - 1].op;
      if op.IsPower() then op.PowerUp? else Up(log[..|log| - 1], down)
  }

  /** Commands that leave a row open. */
  predicate Opens(op: Op) { op.Activate? || op.Read? || op.Write? }

  /** When the implicit precharge of a column command begins. */
  function PrechargesAt(p: Timing, e: Entry): nat {
    e.at + p.Span(e.bursts - 1) + e.latency + p.al + if e.op.IsRead() then p.rtp else p.cwd + p.burst + p.wr
  }

  /** When a command that closes its subarray has closed it. */
  function ClosesAt(p: Timing, e: Entry): nat {
    if e.op.IsColumn() then PrechargesAt(p, e) + p.rp
    else if e.op.Refresh? then e.at + p.rfc
    else e.at + Max(1, p.rp)
  }

  /** When a write has programmed its cells. */
  function WrittenAt(p: Timing, e: Entry): nat { e.at + p.cwd + p.Span(e.bursts) + e.latency }

  /** Row commands need a closed row, column commands their row, precharges a subarray that is not busy. */
  predicate RowFits(p: Timing, last: Option<Entry>, r: Request, now: nat) {
    match last
    case None => !r.op.IsColumn()
    case Some(e) =>
      if r.op.IsColumn() then Opens(e.op) && e.row == r.row
      else if r.op.IsPrecharge() then Opens(e.op) || ClosesAt(p, e) <= now
      else !Opens(e.op)
  }

  /** With write pausing, activates and reads wait for a forced write. */
  predicate WriteFits(p: Timing, last: Option<Entry>, r: Request, now: nat) {
    p.pausing && (r.op.Activate? || r.op.IsRead()) && last.Some? ==> WrittenAt(p, last.value) <= now
  }

  /** Every distance that the log demands of `op` to subarray `x` has passed. */
  ghost predicate Passed(p: Timing, log: seq<Entry>, x: nat, op: Op, now: nat) {
    forall k | 0 <= k < |log| && log[k].sub == x :: log[k].at + SubGap(p, log[k], op) <= now
  }

  ghost predicate BankPassed(p: Timing, log: seq<Entry>, op: Op, now: nat) {
    forall k | 0 <= k < |log| :: log[k].at + BankGap(p, log[k], op) <= now
  }

  /** The commands that a bank of `n` subarrays has to accept after `log`. */
  ghost predicate Allowed(p: Timing, n: nat, down: bool, log: seq<Entry>, r: Request, now: nat) {
    && Up(log, down) && BankPassed(p, log, r.op, now)
    && if r.op.PrechargeAll? then
         forall x: nat | x < n && Last(log, x).Some? && Opens(Last(log, x).value.op) :: Passed(p, log, x, r.op, now)
       else
         && Passed(p, log, r.subarray, r.op, now) && RowFits(p, Last(log, r.subarray), r, now)
         && WriteFits(p, LastWrite(log, r.subarray), r, now)
  }

  // ---------------------------------------------------------------- the state is what the log says

  ghost predicate RowMatches(p: Timing, s: Sub.State, last: Option<Entry>, now: nat) {
    match last
    case None => s.phase.Closed? && s.closing.NothingDue?
    case Some(e) =>
      if Opens(e.op) then
        s.phase.Open? && s.closing.NothingDue? && s.openRow == e.row && s.next.activate <= now
      else
        || (s.phase.Closed? && s.closing.NothingDue? && ClosesAt(p, e) <= now)
        || s.closing == Sub.ClosedAt(ClosesAt(p, e))
        || (e.op.IsColumn() && s.phase.Open? && s.closing == Sub.AutoPrechargeAt(PrechargesAt(p, e)))
  }

  ghost predicate WriteMatches(p: Timing, s: Sub.State, last: Option<Entry>, now: nat) {
    match last
    case None => s.writing.NotWriting?
    case Some(e) =>
      if s.writing.Writing? then s.writing.doneAt == WrittenAt(p, e) else WrittenAt(p, e) <= now
  }

  /** No timer of subarray `i` is later than the latest distance that the log demands. */
  ghost predicate SubTight(p: Timing, s: Sub.State, log: seq<Entry>, i: nat) {
    forall op: Op | op.IsArray() && Sub.TimerOf(s.next, op) != 0 ::
      exists k :: 0 <= k < |log| && log[k].sub == i && Sub.TimerOf(s.next, op) <= log[k].at + SubGap(p, log[k], op)
  }

  ghost predicate BankTight(p: Timing, n: Timers, log: seq<Entry>) {
    forall op: Op | op.IsArray() && TimerOf(n, op) != 0 ::
      exists k :: 0 <= k < |log| && TimerOf(n, op) <= log[k].at + BankGap(p, log[k], op)
  }

  ghost predicate SubLaw(p: Timing, s: Sub.State, log: seq<Entry>, i: nat, now: nat) {
    RowMatches(p, s, Last(log, i), now) && WriteMatches(p, s, LastWrite(log, i), now) && SubTight(p, s, log, i)
  }

  ghost predicate Law(p: Timing, down: bool, c: Config) {
    && Good(p, c) && BankTight(p, c.bank.next, c.log)
    && (Up(c.log, down) <==> c.bank.mode.Open? || c.bank.mode.Closed?)
    && forall i | 0 <= i < |c.bank.subs| :: SubLaw(p, c.bank.subs[i], c.log, i, c.now)
  }

  // ---------------------------------------------------------------- commands to one subarray

  lemma AppendOne(log: seq<Entry>, e: Entry, i: nat)
    ensures Last(log + [e], i) == if e.sub == i && e.op.IsArray() then Some(e) else Last(log, i)
    ensures LastWrite(log + [e], i) == if e.sub == i && e.op.IsWrite() then Some(e) else LastWrite(log, i)
    ensures forall down :: Up(log + [e], down) <==> if e.op.IsPower() then e.op.PowerUp? else Up(log, down)
  {
    assert (log + [e])[..|log|] == log;
  }

  lemma TightStays(p: Timing, s: Sub.State, log: seq<Entry>, es: seq<Entry>, i: nat)
    requires SubTight(p, s, log, i)
    ensures SubTight(p, s, log + es, i)
  {
    forall op: Op | op.IsArray() && Sub.TimerOf(s.next, op) != 0
      ensures exists k :: (0 <= k < |log + es| && (log + es)[k].sub == i
                           && Sub.TimerOf(s.next, op) <= (log + es)[k].at + SubGap(p, (log + es)[k], op)) {
      var k :| 0 <= k < |log| && log[k].sub == i && Sub.TimerOf(s.next, op) <= log[k].at + SubGap(p, log[k], op);
      assert (log + es)[k] == log[k];
    }
  }

  /** A timer that `r` moves is moved to the distance that `r` demands. */
  lemma SentTimer(p: Timing, s: Sub.State, r: Request, m: Moment, e: Entry, op: Op)
    requires Sub.Inv(p, s, m.now) && Sub.IsIssuable(p, s, r, m.now) && op.IsArray() && r.op.IsArray()
    requires e.at == m.now && e.op == r.op && e.bursts == r.bursts && e.latency == m.latency
    requires r.op.IsColumn() ==> s.next.activate <= m.now
    ensures var t := Sub.TimerOf(Sub.IssueCommand(p, s, r, m).state.next, op);
      t == Sub.TimerOf(s.next, op) || t <= e.at + SubGap(p, e, op)
  {
    hide Parameters.Span;
    if r.op.IsRead() {
      ReadTimer(p, s, r, m, e, op);
    } else if r.op.IsWrite() {
      WriteTimer(p, s, r, m, e, op);
    }
  }

  lemma ReadTimer(p: Timing, s: Sub.State, r: Request, m: Moment, e: Entry, op: Op)
    requires Sub.Inv(p, s, m.now) && Sub.IsIssuable(p, s, r, m.now) && op.IsArray() && r.op.IsRead()
    requires e.at == m.now && e.op == r.op && e.bursts == r.bursts && e.latency == m.latency
    requires s.next.activate <= m.now
    ensures var t := Sub.TimerOf(Sub.ReadStep(p, s, r, m).state.next, op);
      t == Sub.TimerOf(s.next, op) || t <= e.at + SubGap(p, e, op)
  {
    hide Parameters.Span;
    if r.op.ReadPrecharge? {
      assert Sub.TimerOf(Sub.ReadStep(p, s, r, m).state.next, op) == Sub.TimerOf(s.next, op)
        || Sub.TimerOf(Sub.ReadStep(p, s, r, m).state.next, op) <= e.at + SubGap(p, e, op);
    }
  }

  lemma WriteTimer(p: Timing, s: Sub.State, r: Request, m: Moment, e: Entry, op: Op)
    requires Sub.Inv(p, s, m.now) && Sub.IsIssuable(p, s, r, m.now) && op.IsArray() && r.op.IsWrite()
    requires e.at == m.now && e.op == r.op && e.bursts == r.bursts && e.latency == m.latency
    requires s.next.activate <= m.now
    ensures var t := Sub.TimerOf(Sub.WriteStep(p, s, r, m).state.next, op);
      t == Sub.TimerOf(s.next, op) || t <= e.at + SubGap(p, e, op)
  {
    hide Parameters.Span;
    if r.op.WritePrecharge? {
      assert Sub.TimerOf(Sub.WriteStep(p, s, r, m).state.next, op) == Sub.TimerOf(s.next, op)
        || Sub.TimerOf(Sub.WriteStep(p, s, r, m).state.next, op) <= e.at + SubGap(p, e, op);
    }
  }

  /** `e` is the entry of `r`, sent at `m`. */
  predicate IsEntryOf(e: Entry, r: Request, m: Moment) {
    e.at == m.now && e.op == r.op && e.row == r.row && e.bursts == r.bursts && e.latency == m.latency
  }

  /** The row that a command leaves is what its entry says. */
  lemma SentRow(p: Timing, s: Sub.State, r: Request, m: Moment, e: Entry)
    requires Sub.Inv(p, s, m.now) && Sub.IsIssuable(p, s, r, m.now) && r.op.IsArray() && IsEntryOf(e, r, m)
    requires s.closing.NothingDue? && Sub.Sendable(p, r) && (r.op.IsColumn() ==> s.next.activate <= m.now)
    ensures RowMatches(p, Sub.IssueCommand(p, s, r, m).state, Some(e), m.now)
  {
    hide Parameters.Span;
  }

  lemma SentWrite(p: Timing, s: Sub.State, r: Request, m: Moment, e: Entry, last: Option<Entry>)
    requires Sub.Inv(p, s, m.now) && Sub.IsIssuable(p, s, r, m.now) && r.op.IsArray() && IsEntryOf(e, r, m)
    requires WriteMatches(p, s, last, m.now) && Sub.Sendable(p, r)
    ensures WriteMatches(p, Sub.IssueCommand(p, s, r, m).state, if r.op.IsWrite() then Some(e) else last, m.now)
  {
    hide Parameters.Span;
  }

  lemma SentTight(p: Timing, s: Sub.State, r: Request, m: Moment, log: seq<Entry>, e: Entry, i: nat)
    requires Sub.Inv(p, s, m.now) && Sub.IsIssuable(p, s, r, m.now) && r.op.IsArray() && IsEntryOf(e, r, m)
    requires SubTight(p, s, log, i) && e.sub == i && e in log && (r.op.IsColumn() ==> s.next.activate <= m.now)
    ensures SubTight(p, Sub.IssueCommand(p, s, r, m).state, log, i)
  {
    hide Sub.IssueCommand, Sub.IsIssuable, SubGap;
    var s' := Sub.IssueCommand(p, s, r, m).state;
    var j :| 0 <= j < |log| && log[j] == e;
    forall op: Op | op.IsArray() && Sub.TimerOf(s'.next, op) != 0
      ensures exists k :: (0 <= k < |log| && log[k].sub == i
                           && Sub.TimerOf(s'.next, op) <= log[k].at + SubGap(p, log[k], op)) {
      SentTimer(p, s, r, m, e, op);
      if Sub.TimerOf(s'.next, op) == Sub.TimerOf(s.next, op) {
        var k :| 0 <= k < |log| && log[k].sub == i && Sub.TimerOf(s.next, op) <= log[k].at + SubGap(p, log[k], op);
      }
    }
  }

  /** A command sent to subarray `i` keeps the law there; `log` ends in its entry. */
  lemma SentSubLaw(p: Timing, s: Sub.State, r: Request, m: Moment, log: seq<Entry>, e: Entry, i: nat)
    requires Sub.Inv(p, s, m.now) && Sub.IsIssuable(p, s, r, m.now) && r.op.IsArray() && IsEntryOf(e, r, m)
    requires SubLaw(p, s, log, i, m.now) && e.sub == i && Sub.Sendable(p, r)
    ensures SubLaw(p, Sub.IssueCommand(p, s, r, m).state, log + [e], i, m.now)
  {
    hide Sub.IssueCommand, SubTight, SubGap, Last, LastWrite;
    AppendOne(log, e, i);
    TightStays(p, s, log, [e], i);
    Sub.IssueKeepsInv(p, s, r, m);
    OpenRowIsActivated(p, s, r, m, Last(log, i));
    SentRow(p, s, r, m, e);
    SentWrite(p, s, r, m, e, LastWrite(log, i));
    SentTight(p, s, r, m, log + [e], e, i);
  }

  lemma OpenRowIsActivated(p: Timing, s: Sub.State, r: Request, m: Moment, last: Option<Entry>)
    requires Sub.IsIssuable(p, s, r, m.now) && RowMatches(p, s, last, m.now) && s.closing.NothingDue?
    ensures r.op.IsColumn() ==> s.next.activate <= m.now
  {}

  // ---------------------------------------------------------------- every step of a bank

  /** Entries of other subarrays, and of power commands, say nothing about subarray `i`. */
  lemma {:induction false} OthersKeepSubLaw(p: Timing, s: Sub.State, log: seq<Entry>, es: seq<Entry>, i: nat, now: nat)
    requires SubLaw(p, s, log, i, now) && forall e | e in es && e.sub == i :: !e.op.IsArray()
    ensures SubLaw(p, s, log + es, i, now)
    decreases |es|
  {
    hide RowMatches, WriteMatches, SubTight, Last, LastWrite;
    if es == [] {
      assert log + es == log;
    } else {
      var n := |es| - 1;
      OthersKeepSubLaw(p, s, log, es[..n], i, now);
      AppendOne(log + es[..n], es[n], i);
      TightStays(p, s, log + es[..n], [es[n]], i);
      assert log + es == log + es[..n] + [es[n]];
    }
  }

  /** A bank timer that `r` moves is moved to the distance that `r` demands of the whole bank. */
  lemma SentBankTimer(p: Timing, b: State, r: Request, m: Moment, e: Entry, op: Op)
    requires Inv(p, b, m.now) && Routed(b, r) && IsIssuable(p, b, r, m.now) && !r.op.PrechargeAll?
    requires IsEntryOf(e, r, m) && e.slow == b.mode.DownSlow? && op.IsArray()
    ensures var t := TimerOf(IssueCommand(p, b, r, m).state.next, op);
      t == TimerOf(b.next, op) || t <= e.at + BankGap(p, e, op)
  {
    hide Parameters.Span, Sub.IssueCommand, Sub.IsIssuable, Sub.Inv, ActiveIsExact;
  }

  lemma BankTightStays(p: Timing, n: Timers, n': Timers, log: seq<Entry>, es: seq<Entry>)
    requires BankTight(p, n, log)
    requires forall op: Op | op.IsArray() :: (TimerOf(n', op) == TimerOf(n, op)
      || (es != [] && TimerOf(n', op) <= es[0].at + BankGap(p, es[0], op)))
    ensures BankTight(p, n', log + es)
  {
    hide BankGap;
    forall op: Op | op.IsArray() && TimerOf(n', op) != 0
      ensures exists k :: (0 <= k < |log + es|
                           && TimerOf(n', op) <= (log + es)[k].at + BankGap(p, (log + es)[k], op)) {
      if TimerOf(n', op) == TimerOf(n, op) {
        var k :| 0 <= k < |log| && TimerOf(n, op) <= log[k].at + BankGap(p, log[k], op);
        assert (log + es)[k] == log[k];
      } else {
        assert (log + es)[|log|] == es[0];
      }
    }
  }

  lemma SentBank(p: Timing, b: State, r: Request, m: Moment, log: seq<Entry>)
    requires Inv(p, b, m.now) && Routed(b, r) && IsIssuable(p, b, r, m.now) && BankTight(p, b.next, log)
    ensures BankTight(p, IssueCommand(p, b, r, m).state.next, log + Entries(b, r, m.now, m.latency))
  {
    var es := Entries(b, r, m.now, m.latency);
    if r.op.PrechargeAll? {
      PrechargedState(p, b, r, m);
      hide IssueCommand, IsIssuable;
      BankTightStays(p, b.next, IssueCommand(p, b, r, m).state.next, log, es);
    } else {
      hide IssueCommand, IsIssuable, BankTight, BankGap;
      forall op: Op | op.IsArray()
        ensures TimerOf(IssueCommand(p, b, r, m).state.next, op) == TimerOf(b.next, op)
          || TimerOf(IssueCommand(p, b, r, m).state.next, op) <= es[0].at + BankGap(p, es[0], op) {
        SentBankTimer(p, b, r, m, es[0], op);
      }
      BankTightStays(p, b.next, IssueCommand(p, b, r, m).state.next, log, es);
    }
  }

  lemma IssuableKinds(p: Timing, b: State, r: Request, now: nat)
    requires Routed(b, r) && IsIssuable(p, b, r, now)
    ensures (r.op.IsArray() || r.op.IsPower()) && (r.op.IsArray() ==> b.mode.Open? || b.mode.Closed?)
  {}

  lemma SentMode(p: Timing, b: State, r: Request, m: Moment)
    requires Inv(p, b, m.now) && Routed(b, r) && IsIssuable(p, b, r, m.now)
    ensures var b' := IssueCommand(p, b, r, m).state;
      && (r.op.IsArray() ==> b'.mode.Open? || b'.mode.Closed?)
      && (r.op.IsPower() ==> ((b'.mode.Open? || b'.mode.Closed?) <==> r.op.PowerUp?))
  {
    IssuableKinds(p, b, r, m.now);
    if r.op.PrechargeAll? {
      PrechargeActiveSucceeds(p, b.(next := b.next.(powerDown := Max(b.next.powerDown, m.now + p.rp))), r, m);
    } else {
      hide Sub.Inv, Parameters.Span, Sub.IssueCommand, PrechargeActive, Sub.IsIssuable;
    }
  }

  /** What a command to a single subarray, or a power command, leaves of the law. */
  lemma OneKeepsSubLaw(p: Timing, b: State, r: Request, m: Moment, log: seq<Entry>, i: nat)
    requires Inv(p, b, m.now) && Routed(b, r) && IsIssuable(p, b, r, m.now) && Sub.Sendable(p, r) && !r.op.PrechargeAll?
    requires i < |b.subs| && SubLaw(p, b.subs[i], log, i, m.now)
    ensures i < |IssueCommand(p, b, r, m).state.subs|
    ensures SubLaw(p, IssueCommand(p, b, r, m).state.subs[i], log + Entries(b, r, m.now, m.latency), i, m.now)
  {
    hide SubLaw, IssueCommand, Sub.IssueCommand;
    IssuableKinds(p, b, r, m.now);
    SentState(p, b, r, m);
    var es := Entries(b, r, m.now, m.latency);
    if i == r.subarray && r.op.IsArray() {
      SubIsIssuable(p, b, r, m.now);
      SentSubLaw(p, b.subs[i], r, m, log, es[0], i);
    } else {
      OthersKeepSubLaw(p, b.subs[i], log, es, i, m.now);
    }
  }

  lemma SubIsIssuable(p: Timing, b: State, r: Request, now: nat)
    requires Inv(p, b, now) && Routed(b, r) && IsIssuable(p, b, r, now) && r.op.IsArray() && !r.op.PrechargeAll?
    ensures Sub.IsIssuable(p, b.subs[r.subarray], r, now) && Sub.Inv(p, b.subs[r.subarray], now)
  {}

  /** What a precharge of all active subarrays leaves of the law. */
  lemma AllKeepSubLaw(p: Timing, b: State, r: Request, m: Moment, log: seq<Entry>, i: nat)
    requires Inv(p, b, m.now) && Routed(b, r) && IsIssuable(p, b, r, m.now) && Sub.Sendable(p, r) && r.op.PrechargeAll?
    requires i < |b.subs| && SubLaw(p, b.subs[i], log, i, m.now)
    ensures i < |IssueCommand(p, b, r, m).state.subs|
    ensures SubLaw(p, IssueCommand(p, b, r, m).state.subs[i], log + Entries(b, r, m.now, m.latency), i, m.now)
  {
    PrechargedState(p, b, r, m);
    hide SubLaw, IssueCommand, Sub.IssueCommand, Sub.IsIssuable, Entries, Sub.PrechargeStep, Sub.Inv;
    var es := Entries(b, r, m.now, m.latency);
    if i in b.active {
      var k := PrechargeEntry(p, b, r, m, i);
      SentAmongOthers(p, b.subs[i], r, m, log, es, k, i);
    } else {
      OtherEntries(b, r, m, i);
      OthersKeepSubLaw(p, b.subs[i], log, es, i, m.now);
    }
  }

  lemma OtherEntries(b: State, r: Request, m: Moment, i: nat)
    requires r.op.PrechargeAll? && i !in b.active && Routed(b, r)
    ensures forall e | e in Entries(b, r, m.now, m.latency) :: e.sub != i
  {}

  /** The one entry that a precharge of all leaves for the active subarray `i`. */
  lemma PrechargeEntry(p: Timing, b: State, r: Request, m: Moment, i: nat) returns (k: nat)
    requires Inv(p, b, m.now) && Routed(b, r) && IsIssuable(p, b, r, m.now) && r.op.PrechargeAll? && i < |b.subs|
    requires i in b.active
    ensures var es := Entries(b, r, m.now, m.latency);
      && k < |es| && es[k].sub == i && IsEntryOf(es[k], r, m)
      && (forall j | 0 <= j < |es| && j != k :: es[j].sub != i)
    ensures Sub.Inv(p, b.subs[i], m.now) && Sub.IsIssuable(p, b.subs[i], r, m.now)
  {
    k :| 0 <= k < |b.active| && b.active[k] == i;
  }

  lemma SentAmongOthers(p: Timing, s: Sub.State, r: Request, m: Moment, log: seq<Entry>, es: seq<Entry>, k: nat, i: nat)
    requires Sub.Inv(p, s, m.now) && Sub.IsIssuable(p, s, r, m.now) && r.op.PrechargeAll?
    requires k < |es| && es[k].sub == i && IsEntryOf(es[k], r, m)
    requires forall j | 0 <= j < |es| && j != k :: es[j].sub != i
    requires SubLaw(p, s, log, i, m.now)
    ensures SubLaw(p, Sub.PrechargeStep(p, s, m).state, log + es, i, m.now)
  {
    hide SubLaw;
    var s' := Sub.PrechargeStep(p, s, m).state;
    OthersKeepSubLaw(p, s, log, es[..k], i, m.now);
    SentSubLaw(p, s, r, m, log + es[..k], es[k], i);
    SubPrecharges(p, s, r, m);
    hide Sub.PrechargeStep;
    OthersKeepSubLaw(p, s', log + es[..k] + [es[k]], es[k + 1..], i, m.now);
    assert log + es[..k] + [es[k]] + es[k + 1..] == log + es;
  }

  lemma SubPrecharges(p: Timing, s: Sub.State, r: Request, m: Moment)
    requires r.op.PrechargeAll? && Sub.IsIssuable(p, s, r, m.now)
    ensures Sub.IssueCommand(p, s, r, m).state == Sub.PrechargeStep(p, s, m).state
  {}

  lemma IssueKeepsLaw(p: Timing, down: bool, c: Config, step: Step)
    requires Law(p, down, c) && step.Issue? && Enabled(p, c, step)
    ensures Law(p, down, Apply(p, c, step))
  {
    var b, r, m := c.bank, step.r, Moment(c.now, step.latency, step.bounce);
    var c' := Apply(p, c, step);
    IssueKeepsGood(p, c, step);
    hide SubLaw, BankTight, Up, IssueCommand, IsIssuable, Spaced, ActivatesSeparated, OpenRowsHeld, Enforced;
    SentBank(p, b, r, m, c.log);
    SentMode(p, b, r, m);
    IssuableKinds(p, b, r, c.now);
    UpAfter(c.log, b, r, m, down);
    IssueAdvancesTimers(p, b, r, m);
    forall i | 0 <= i < |c'.bank.subs| ensures SubLaw(p, c'.bank.subs[i], c'.log, i, c.now) {
      if r.op.PrechargeAll? { AllKeepSubLaw(p, b, r, m, c.log, i); } else { OneKeepsSubLaw(p, b, r, m, c.log, i); }
    }
  }

  lemma {:induction false} UpSkips(log: seq<Entry>, es: seq<Entry>, down: bool)
    requires forall e | e in es :: !e.op.IsPower()
    ensures Up(log + es, down) <==> Up(log, down)
    decreases |es|
  {
    if es == [] {
      assert log + es == log;
    } else {
      assert (log + es)[..|log + es| - 1] == log + es[..|es| - 1];
      UpSkips(log, es[..|es| - 1], down);
    }
  }

  lemma UpAfter(log: seq<Entry>, b: State, r: Request, m: Moment, down: bool)
    ensures Up(log + Entries(b, r, m.now, m.latency), down) <==> if r.op.IsPower() then r.op.PowerUp? else Up(log, down)
  {
    var es := Entries(b, r, m.now, m.latency);
    if r.op.IsPower() { AppendOne(log, es[0], 0); } else { UpSkips(log, es, down); }
  }

  lemma CompletionKeepsSubLaw(p: Timing, s: Sub.State, log: seq<Entry>, i: nat, now: nat)
    requires SubLaw(p, s, log, i, now)
    ensures s.closing != Sub.NothingDue && s.closing.at == now ==>
      SubLaw(p, Sub.CompleteClosing(p, s, now), log, i, now)
    ensures s.writing.Writing? && s.writing.doneAt == now ==> SubLaw(p, Sub.CompleteWrite(s), log, i, now)
  {
    hide Last, LastWrite;
  }

  lemma TimeKeepsSubLaw(p: Timing, s: Sub.State, log: seq<Entry>, i: nat, now: nat, to: nat)
    requires SubLaw(p, s, log, i, now) && now <= to
    ensures SubLaw(p, s, log, i, to)
  {
    hide SubTight, Last, LastWrite;
  }

  lemma QuietKeepsLaw(p: Timing, down: bool, c: Config, step: Step)
    requires Law(p, down, c) && step.IsQuiet() && Enabled(p, c, step)
    ensures Law(p, down, Apply(p, c, step))
  {
    QuietKeepsGood(p, c, step);
    hide SubLaw, BankTight, Up, Good;
    var c' := Apply(p, c, step);
    forall i | 0 <= i < |c'.bank.subs| ensures SubLaw(p, c'.bank.subs[i], c'.log, i, c'.now) {
      CompletionKeepsSubLaw(p, c.bank.subs[i], c.log, i, c.now);
      TimeKeepsSubLaw(p, c.bank.subs[i], c.log, i, c.now, c'.now);
    }
  }

  lemma {:induction false} RunKeepsLaw(p: Timing, down: bool, c: Config, steps: seq<Step>)
    requires Law(p, down, c) && Execute(p, c, steps).Some?
    ensures Law(p, down, Execute(p, c, steps).value)
    ensures |Execute(p, c, steps).value.bank.subs| == |c.bank.subs|
    decreases |steps|
  {
    hide Law, Enabled;
    if steps != [] {
      if steps[0].Issue? { IssueKeepsLaw(p, down, c, steps[0]); } else { QuietKeepsLaw(p, down, c, steps[0]); }
      StepKeepsSize(p, down, c, steps[0]);
      RunKeepsLaw(p, down, Apply(p, c, steps[0]), steps[1..]);
    }
  }

  lemma StepKeepsSize(p: Timing, down: bool, c: Config, step: Step)
    requires Law(p, down, c) && Enabled(p, c, step)
    ensures |Apply(p, c, step).bank.subs| == |c.bank.subs|
  {
    if step.Issue? { IssueAdvancesTimers(p, c.bank, step.r, Moment(c.now, step.latency, step.bounce)); }
  }

  // ---------------------------------------------------------------- results

  lemma RunFollowsLaw(p: Timing, n: positive, down: bool, steps: seq<Step>)
    requires Execute(p, Start(n, down), steps).Some?
    ensures Law(p, down, Execute(p, Start(n, down), steps).value)
    ensures |Execute(p, Start(n, down), steps).value.bank.subs| == n
  {
    InitialInv(p, n, down);
    RunKeepsLaw(p, down, Start(n, down), steps);
  }

  predicate Timed(p: Timing, s: Sub.State, last: Option<Entry>, write: Option<Entry>) {
    && (s.closing.AutoPrechargeAt? ==>
          && last.Some? && last.value.op.IsColumn() && last.value.op.Closes()
          && s.closing.at == PrechargesAt(p, last.value))
    && (s.closing.ClosedAt? ==> last.Some? && !Opens(last.value.op) && s.closing.at == ClosesAt(p, last.value))
    && (s.writing.Writing? ==> write.Some? && s.writing.doneAt == WrittenAt(p, write.value))
  }

  /**
    Completion events come when the log says: a row that is being closed is closed max(1, tRP) after
    its precharge, tRFC after its refresh, or tRP after its implicit precharge began; and a write is
    done when its bursts and its latency have passed.
   */
  lemma CompletionsAreTimed(p: Timing, n: positive, down: bool, steps: seq<Step>, i: nat)
    requires Execute(p, Start(n, down), steps).Some? && i < n
    ensures i < |Execute(p, Start(n, down), steps).value.bank.subs|
    ensures var c := Execute(p, Start(n, down), steps).value;
      Timed(p, c.bank.subs[i], Last(c.log, i), LastWrite(c.log, i))
  {
    RunFollowsLaw(p, n, down, steps);
    assert SubLaw(p, Execute(p, Start(n, down), steps).value.bank.subs[i],
                  Execute(p, Start(n, down), steps).value.log, i, Execute(p, Start(n, down), steps).value.now);
  }

  /** All completion events that are due have come. */
  ghost predicate CompletionsDone(c: Config) {
    forall i | 0 <= i < |c.bank.subs| :: NothingBefore(c.bank.subs[i], c.now + 1)
  }

  /** Timers have run out exactly when the distances have passed. */
  lemma SubTimerIsDue(p: Timing, b: State, log: seq<Entry>, i: nat, op: Op, now: nat)
    requires i < |b.subs| && op.IsArray() && SubTight(p, b.subs[i], log, i)
    requires forall k | 0 <= k < |log| :: log[k].at <= now && Enforced(p, b, log[k])
    ensures Sub.TimerOf(b.subs[i].next, op) <= now <==> Passed(p, log, i, op, now)
  {
    hide SubGap, BankGap;
    if Sub.TimerOf(b.subs[i].next, op) <= now {
      forall k | 0 <= k < |log| && log[k].sub == i ensures log[k].at + SubGap(p, log[k], op) <= now {
        assert Enforced(p, b, log[k]);
      }
    }
  }

  lemma BankTimerIsDue(p: Timing, b: State, log: seq<Entry>, op: Op, now: nat)
    requires op.IsArray() && BankTight(p, b.next, log)
    requires forall k | 0 <= k < |log| :: log[k].at <= now && Enforced(p, b, log[k])
    ensures TimerOf(b.next, op) <= now <==> BankPassed(p, log, op, now)
  {
    hide SubGap, BankGap;
    if TimerOf(b.next, op) <= now {
      forall k | 0 <= k < |log| ensures log[k].at + BankGap(p, log[k], op) <= now { assert Enforced(p, b, log[k]); }
    }
  }

  /** What the subarray itself asks of a command. */
  lemma SubAccepts(p: Timing, s: Sub.State, log: seq<Entry>, i: nat, r: Request, now: nat)
    requires SubLaw(p, s, log, i, now) && Sub.Inv(p, s, now) && NothingBefore(s, now + 1) && r.op.IsArray()
    requires !r.op.PrechargeAll?
    ensures Sub.IsIssuable(p, s, r, now) <==>
      Sub.TimerOf(s.next, r.op) <= now && RowFits(p, Last(log, i), r, now) && WriteFits(p, LastWrite(log, i), r, now)
  {
    hide SubTight, Last, LastWrite;
  }

  lemma ActiveIffOpen(p: Timing, down: bool, c: Config, x: nat)
    requires Law(p, down, c) && x < |c.bank.subs|
    ensures x in c.bank.active <==> Last(c.log, x).Some? && Opens(Last(c.log, x).value.op)
  {
    hide Last, LastWrite, SubTight, BankTight;
    assert SubLaw(p, c.bank.subs[x], c.log, x, c.now);
  }

  lemma OneIsAllowedIff(p: Timing, down: bool, c: Config, r: Request)
    requires Law(p, down, c) && CompletionsDone(c) && r.op.IsArray() && !r.op.PrechargeAll? && Routed(c.bank, r)
    ensures IsIssuable(p, c.bank, r, c.now) <==> Allowed(p, |c.bank.subs|, down, c.log, r, c.now)
  {
    hide Last, LastWrite, SubTight, BankTight, Enforced, RowFits, WriteFits, Passed, BankPassed, Up, Sub.IsIssuable;
    var b, x := c.bank, r.subarray;
    BankTimerIsDue(p, b, c.log, r.op, c.now);
    SubTimerIsDue(p, b, c.log, x, r.op, c.now);
    SubAccepts(p, b.subs[x], c.log, x, r, c.now);
    ActiveIffOpen(p, down, c, x);
    ColumnNeedsRow(p, Last(c.log, x), r, c.now);
  }

  lemma ColumnNeedsRow(p: Timing, last: Option<Entry>, r: Request, now: nat)
    ensures r.op.IsColumn() && RowFits(p, last, r, now) ==> last.Some? && Opens(last.value.op)
  {}

  lemma AllIsAllowedIff(p: Timing, down: bool, c: Config, r: Request)
    requires Law(p, down, c) && CompletionsDone(c) && r.op.PrechargeAll? && Routed(c.bank, r)
    ensures IsIssuable(p, c.bank, r, c.now) <==> Allowed(p, |c.bank.subs|, down, c.log, r, c.now)
  {
    hide Last, LastWrite, SubTight, BankTight, Enforced, Passed, BankPassed, Up;
    var b := c.bank;
    BankTimerIsDue(p, b, c.log, r.op, c.now);
    forall x: nat | x < |b.subs|
      ensures x in b.active ==> (Sub.IsIssuable(p, b.subs[x], r, c.now) <==> Passed(p, c.log, x, r.op, c.now))
      ensures x in b.active <==> Last(c.log, x).Some? && Opens(Last(c.log, x).value.op) {
      SubTimerIsDue(p, b, c.log, x, r.op, c.now);
      ActiveIffOpen(p, down, c, x);
    }
  }

  /**
    In every run from power-on, once the completion events that are due have come, the bank accepts an
    array command if and only if the log allows it: the bank is up, the distances that the commands so
    far demand have passed, and the row is as the command needs it.
   */
  lemma AcceptedIffAllowed(p: Timing, n: positive, down: bool, steps: seq<Step>, r: Request)
    requires Execute(p, Start(n, down), steps).Some? && r.op.IsArray() && r.subarray < n
    requires CompletionsDone(Execute(p, Start(n, down), steps).value)
    ensures var c := Execute(p, Start(n, down), steps).value;
      Routed(c.bank, r) && (IsIssuable(p, c.bank, r, c.now) <==> Allowed(p, n, down, c.log, r, c.now))
  {
    hide Allowed, IsIssuable, CompletionsDone;
    RunFollowsLaw(p, n, down, steps);
    var c := Execute(p, Start(n, down), steps).value;
    if r.op.PrechargeAll? { AllIsAllowedIff(p, down, c, r); } else { OneIsAllowedIff(p, down, c, r); }
  }

  /**
    When the bank asks to be woken. In every run, NextIssuable names the first cycle at which all distances
    to the bank have passed, and for plain column and row commands all those to the subarray as well.
   */
  lemma NextIssuableIsLatest(p: Timing, n: positive, down: bool, steps: seq<Step>, r: Request, t: nat)
    requires Execute(p, Start(n, down), steps).Some? && r.op.IsArray() && r.subarray < n
    requires Execute(p, Start(n, down), steps).value.now <= t
    ensures var c := Execute(p, Start(n, down), steps).value;
      && Routed(c.bank, r)
      && (NextIssuable(c.bank, r) <= t <==>
            && BankPassed(p, c.log, r.op, t)
            && (r.op.Activate? || r.op.Read? || r.op.Write? || r.op.Precharge? ==>
                  Passed(p, c.log, r.subarray, r.op, t)))
  {
    hide BankPassed, Passed, SubTight, BankTight, Enforced, TimerOf, Sub.TimerOf, Last, LastWrite, Up;
    RunFollowsLaw(p, n, down, steps);
    hide Execute;
    var c := Execute(p, Start(n, down), steps).value;
    assert SubLaw(p, c.bank.subs[r.subarray], c.log, r.subarray, c.now);
    BankTimerIsDue(p, c.bank, c.log, r.op, t);
    SubTimerIsDue(p, c.bank, c.log, r.subarray, r.op, t);
    AsksForTimers(c.bank, r, t);
  }

  lemma AsksForTimers(b: State, r: Request, t: nat)
    requires Routed(b, r) && r.op.IsArray()
    ensures NextIssuable(b, r) <= t <==>
      TimerOf(b.next, r.op) <= t
      && (r.op.Activate? || r.op.Read? || r.op.Write? || r.op.Precharge? ==>
            Sub.TimerOf(b.subs[r.subarray].next, r.op) <= t)
  {}
}
