/**
  The open rows of a bank and what a queue of commands makes of them. A queue that replays
  is a queue whose every command finds the row state it needs when its turn comes.
 */
module Replay {
  import opened Commands
  import opened BankSpec
  import opened BankRuns
  import Sub = SubArraySpec

  /** For each subarray, the row it holds open. */
  type View = seq<Option<nat>>

  function RowOf(s: Sub.State): Option<nat> { if Sub.HoldsRow(s) then Some(s.openRow) else None }

  function ViewOf(b: State): View { seq(|b.subs|, i requires 0 <= i < |b.subs| => RowOf(b.subs[i])) }

  function AllClosed(n: nat): View { seq(n, _ => None) }

  /** The row state that `r` needs. */
  predicate Legal(v: View, r: Request) {
    && r.subarray < |v|
    && r.op.IsArray()
    && (r.op.Activate? || r.op.Refresh? ==> v[r.subarray].None?)
    && (r.op.IsColumn() ==> v[r.subarray] == Some(r.row))
  }

  /** The row state that `r` leaves. */
  function After(v: View, r: Request): View
    requires Legal(v, r)
  {
    if r.op.Activate? then v[r.subarray := Some(r.row)]
    else if r.op.PrechargeAll? then AllClosed(|v|)
    else if r.op.Closes() then v[r.subarray := None]
    else v
  }

  /** The row state after `q`, provided every command is legal in its turn. */
  function Run(v: View, q: seq<Request>): Option<View>
    decreases |q|
  {
    if q == [] then Some(v)
    else if Legal(v, q[0]) then Run(After(v, q[0]), q[1..])
    else None
  }

  lemma {:induction false} RunAppend(v: View, q: seq<Request>, r: seq<Request>)
    requires Run(v, q).Some?
    ensures Run(v, q + r) == Run(Run(v, q).value, r)
    decreases |q|
  {
    if q == [] {
      assert q + r == r;
    } else {
      assert (q + r)[1..] == q[1..] + r;
      RunAppend(After(v, q[0]), q[1..], r);
    }
  }

  // ---------------------------------------------------------------- the device follows the replay

  lemma PrechargeAllCloses(p: Timing, b: State, r: Request, m: Moment)
    requires Inv(p, b, m.now) && Routed(b, r) && IsIssuable(p, b, r, m.now) && r.op.PrechargeAll?
    ensures ViewOf(IssueCommand(p, b, r, m).state) == AllClosed(|b.subs|)
  {
    var b' := IssueCommand(p, b, r, m).state;
    PrechargedState(p, b, r, m);
    hide IssueCommand;
    forall i | 0 <= i < |b.subs| ensures RowOf(b'.subs[i]) == None {
      assert i in b.active <==> Sub.HoldsRow(b.subs[i]);
    }
  }

  /** An issuable array command is legal, and the bank ends in the row state of the replay. */
  lemma IssueFollowsReplay(p: Timing, b: State, r: Request, m: Moment)
    requires Inv(p, b, m.now) && Routed(b, r) && Sub.Sendable(p, r)
    requires IsIssuable(p, b, r, m.now) && r.op.IsArray()
    ensures Legal(ViewOf(b), r)
    ensures ViewOf(IssueCommand(p, b, r, m).state) == After(ViewOf(b), r)
  {
    if r.op.PrechargeAll? {
      PrechargeAllCloses(p, b, r, m);
    } else {
      var v, b' := ViewOf(b), IssueCommand(p, b, r, m).state;
      SentState(p, b, r, m);
      hide IssueCommand, ActiveIsExact;
      Sub.IssueKeepsInv(p, b.subs[r.subarray], r, m);
      forall i | 0 <= i < |b.subs| ensures ViewOf(b')[i] == After(v, r)[i] {}
    }
  }

  /** Events and the passing of time do not change the row state. */
  lemma QuietRunKeepsView(p: Timing, c: Config, steps: seq<Step>)
    requires Inv(p, c.bank, c.now) && AllQuiet(steps) && Execute(p, c, steps).Some?
    ensures ViewOf(Execute(p, c, steps).value.bank) == ViewOf(c.bank)
  {
    QuietRunKeepsTimers(p, c, steps);
  }

  // ---------------------------------------------------------------- progress

  /** Every timer and every pending completion lies at or before cycle `d`. */
  predicate SettledBy(p: Timing, b: State, d: nat) {
    && b.next.activate <= d && b.next.precharge <= d && b.next.read <= d && b.next.write <= d
    && forall i | 0 <= i < |b.subs| :: SubSettledBy(p, b.subs[i], d)
  }

  predicate SubSettledBy(p: Timing, s: Sub.State, d: nat) {
    && s.next.activate <= d && s.next.precharge <= d && s.next.read <= d && s.next.write <= d
    && (s.closing.AutoPrechargeAt? ==> s.closing.at + p.rp <= d)
    && (s.closing.ClosedAt? ==> s.closing.at <= d)
    && (s.writing.Writing? ==> s.writing.doneAt <= d)
  }

  /** There is such a cycle for every bank. */
  lemma {:induction false} SettlesEventually(p: Timing, b: State)
    ensures exists d: nat :: SettledBy(p, b, d)
    decreases |b.subs|
  {
    var own := Max(Max(b.next.activate, b.next.precharge), Max(b.next.read, b.next.write));
    if b.subs == [] {
      assert SettledBy(p, b, own);
    } else {
      var k := |b.subs| - 1;
      var rest := b.(subs := b.subs[..k]);
      SettlesEventually(p, rest);
      var d: nat :| SettledBy(p, rest, d);
      var s := b.subs[k];
      var timers := s.next.activate + s.next.precharge + s.next.read + s.next.write;
      var events := (if s.closing == Sub.NothingDue then 0 else s.closing.at + p.rp)
                    + (if s.writing.Writing? then s.writing.doneAt else 0);
      var all := d + timers + events;
      forall i | 0 <= i < |b.subs| ensures SubSettledBy(p, b.subs[i], all) {
        if i < k { assert b.subs[i] == rest.subs[i] && SubSettledBy(p, rest.subs[i], d); }
      }
      assert SettledBy(p, b, all);
    }
  }

  lemma QuietStepStaysSettled(p: Timing, c: Config, step: Step, d: nat)
    requires Inv(p, c.bank, c.now) && step.IsQuiet() && Enabled(p, c, step) && SettledBy(p, c.bank, d)
    ensures SettledBy(p, Apply(p, c, step).bank, d)
  {
    if !step.Advance? { Sub.CompleteKeepsInv(p, c.bank.subs[step.sub], c.now); }
  }

  lemma {:induction false} QuietRunStaysSettled(p: Timing, c: Config, steps: seq<Step>, d: nat)
    requires Inv(p, c.bank, c.now) && AllQuiet(steps) && Execute(p, c, steps).Some?
    requires SettledBy(p, c.bank, d)
    ensures SettledBy(p, Execute(p, c, steps).value.bank, d)
    decreases |steps|
  {
    hide Inv, Enabled, Apply, SettledBy;
    if steps != [] {
      QuietStepKeepsTimers(p, c, steps[0]);
      QuietStepStaysSettled(p, c, steps[0], d);
      QuietRunStaysSettled(p, Apply(p, c, steps[0]), steps[1..], d);
    }
  }

  /** A bank whose timers and events have all passed accepts what is legal, unless it is powered down. */
  lemma SettledIsIssuable(p: Timing, b: State, head: Request, d: nat, now: nat)
    requires Inv(p, b, now) && SettledBy(p, b, d) && d < now && Legal(ViewOf(b), head)
    ensures Routed(b, head) && (IsIssuable(p, b, head, now) <==> b.mode.Open? || b.mode.Closed?)
  {
    assert ViewOf(b)[head.subarray] == RowOf(b.subs[head.subarray]);
    assert SubSettledBy(p, b.subs[head.subarray], d);
    assert forall x | x in b.active :: SubSettledBy(p, b.subs[x], d) && Sub.HoldsRow(b.subs[x]);
    if head.op.IsColumn() { assert head.subarray in b.active; }
  }

  /**
    No stuck queue head. Once the timers and pending events known at `c` have passed, a legal
    head is issuable exactly if the bank is not powered down.
   */
  lemma HeadBecomesIssuable(p: Timing, c: Config, steps: seq<Step>, head: Request, d: nat)
    requires Inv(p, c.bank, c.now) && SettledBy(p, c.bank, d)
    requires AllQuiet(steps) && Execute(p, c, steps).Some?
    requires d < Execute(p, c, steps).value.now
    requires Legal(ViewOf(c.bank), head)
    ensures var c' := Execute(p, c, steps).value;
      && Routed(c'.bank, head)
      && (IsIssuable(p, c'.bank, head, c'.now) <==> c.bank.mode.Open? || c.bank.mode.Closed?)
  {
    QuietRunKeepsTimers(p, c, steps);
    QuietRunKeepsView(p, c, steps);
    QuietRunStaysSettled(p, c, steps, d);
    var c' := Execute(p, c, steps).value;
    SettledIsIssuable(p, c'.bank, head, d, c'.now);
  }

  /** The number of completion events due at cycle `now`. */
  function Due(subs: seq<Sub.State>, now: nat): nat
    decreases |subs|
  {
    if subs == [] then 0
    else
      var s := subs[|subs| - 1];
      Due(subs[..|subs| - 1], now)
      + (if s.closing != Sub.NothingDue && s.closing.at == now then 1 else 0)
      + (if s.writing.Writing? && s.writing.doneAt == now then 1 else 0)
  }

  lemma {:induction false} DueDrops(subs: seq<Sub.State>, i: nat, s: Sub.State, now: nat)
    requires i < |subs|
    requires Due([s], now) < Due([subs[i]], now)
    ensures Due(subs[i := s], now) < Due(subs, now)
    decreases |subs|
  {
    var k := |subs| - 1;
    assert [s][..0] == [] == [subs[i]][..0];
    if i < k {
      assert subs[i := s][..k] == subs[..k][i := s];
      DueDrops(subs[..k], i, s, now);
    } else {
      assert subs[i := s][..k] == subs[..k];
    }
  }

  /** A completion event that is due now, after which one less is due; if none is, time may pass. */
  lemma NextQuietStep(p: Timing, c: Config) returns (step: Step)
    requires Inv(p, c.bank, c.now)
    ensures step.IsQuiet() && Enabled(p, c, step)
    ensures if step.Advance? then step.to == c.now + 1
            else Due(Apply(p, c, step).bank.subs, c.now) < Due(c.bank.subs, c.now)
  {
    var subs := c.bank.subs;
    step := Advance(c.now + 1);
    if i: nat :| i < |subs| && subs[i].closing != Sub.NothingDue && subs[i].closing.at == c.now {
      step := CompleteClosing(i);
      assert [subs[i]][..0] == [];
      DueDrops(subs, i, Sub.CompleteClosing(p, subs[i], c.now), c.now);
      Sub.CompleteKeepsInv(p, subs[i], c.now);
    } else if i: nat :| i < |subs| && subs[i].writing.Writing? && subs[i].writing.doneAt == c.now {
      step := CompleteWrite(i);
      assert [subs[i]][..0] == [];
      DueDrops(subs, i, Sub.CompleteWrite(subs[i]), c.now);
      Sub.CompleteKeepsInv(p, subs[i], c.now);
    } else {
      forall i | 0 <= i < |subs| ensures NothingBefore(subs[i], c.now + 1) {
        assert Sub.Inv(p, subs[i], c.now);
      }
    }
  }

  /** Events can always be worked off, so that time gets past any cycle `d`. */
  lemma {:induction false} TimePasses(p: Timing, c: Config, d: nat) returns (steps: seq<Step>)
    requires Inv(p, c.bank, c.now)
    ensures AllQuiet(steps) && Execute(p, c, steps).Some? && d < Execute(p, c, steps).value.now
    decreases d + 1 - c.now, Due(c.bank.subs, c.now)
  {
    if d < c.now { return []; }
    var step := NextQuietStep(p, c);
    var c' := Apply(p, c, step);
    QuietRunKeepsTimers(p, c, [step]);
    var rest := TimePasses(p, c', d);
    steps := [step] + rest;
  }

  /** A legal head of a bank that is not powered down can always be brought to issue. */
  lemma HeadIsNeverStuck(p: Timing, c: Config, head: Request)
    requires Inv(p, c.bank, c.now) && Legal(ViewOf(c.bank), head)
    requires c.bank.mode.Open? || c.bank.mode.Closed?
    ensures exists steps: seq<Step> :: (AllQuiet(steps) && Execute(p, c, steps).Some?
      && Routed(Execute(p, c, steps).value.bank, head)
      && IsIssuable(p, Execute(p, c, steps).value.bank, head, Execute(p, c, steps).value.now))
  {
    SettlesEventually(p, c.bank);
    var d: nat :| SettledBy(p, c.bank, d);
    var steps := TimePasses(p, c, d);
    HeadBecomesIssuable(p, c, steps, head, d);
  }
}
