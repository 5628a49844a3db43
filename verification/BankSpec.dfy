/**
  A DDR3 bank over its subarrays: bank-wide timers, the power mode and the queue of
  subarrays that hold an open row.
 */
module BankSpec {
  import opened Commands
  import opened Sequences
  import Sub = SubArraySpec

  /** Closed, open, or powered down (fast exit, active, slow exit). */
  datatype Mode = Closed | Open | DownFast | DownActive | DownSlow

  datatype Timers = Timers(
    activate: nat, precharge: nat, read: nat, write: nat, powerDown: nat, powerUp: nat)

  datatype State = State(mode: Mode, next: Timers, active: seq<nat>, subs: seq<Sub.State>)

  datatype Outcome = Outcome(ok: bool, state: State)

  ghost predicate ActiveInRange(b: State) { forall k | 0 <= k < |b.active| :: b.active[k] < |b.subs| }

  /** `r` can be routed to one of the subarrays. */
  ghost predicate Routed(b: State, r: Request) { ActiveInRange(b) && r.subarray < |b.subs| }

  // ---------------------------------------------------------------- specification

  predicate IsIssuable(p: Timing, b: State, r: Request, now: nat)
    requires Routed(b, r)
  {
    match r.op
    case Activate =>
      && b.next.activate <= now && (b.mode.Open? || b.mode.Closed?)
      && Sub.IsIssuable(p, b.subs[r.subarray], r, now)
    case Read | ReadPrecharge =>
      b.next.read <= now && b.mode.Open? && Sub.IsIssuable(p, b.subs[r.subarray], r, now)
    case Write | WritePrecharge =>
      b.next.write <= now && b.mode.Open? && Sub.IsIssuable(p, b.subs[r.subarray], r, now)
    case Precharge =>
      && b.next.precharge <= now && (b.mode.Open? || b.mode.Closed?)
      && Sub.IsIssuable(p, b.subs[r.subarray], r, now)
    case PrechargeAll =>
      && b.next.precharge <= now && (b.mode.Open? || b.mode.Closed?)
      && forall x | x in b.active :: Sub.IsIssuable(p, b.subs[x], r, now)
    case PowerDownActive | PowerDownFast | PowerDownSlow =>
      && b.next.powerDown <= now && (b.mode.Open? || b.mode.Closed?)
      && (r.op.PowerDownActive? || !b.mode.Open?)
      && forall i | 0 <= i < |b.subs| :: Sub.IsIssuable(p, b.subs[i], r, now)
    case PowerUp =>
      && b.next.powerUp <= now && !b.mode.Open? && !b.mode.Closed?
      && forall i | 0 <= i < |b.subs| :: Sub.IsIssuable(p, b.subs[i], r, now)
    case Refresh =>
      && b.next.activate <= now && (b.mode.Open? || b.mode.Closed?)
      && Sub.IsIssuable(p, b.subs[r.subarray], r, now)
    case _ => Sub.IsIssuable(p, b.subs[r.subarray], r, now)
  }

  /** The bank timer that guards `op`; 0 for commands without one. */
  function TimerOf(n: Timers, op: Op): nat {
    if op.Activate? || op.Refresh? then n.activate
    else if op.IsRead() then n.read
    else if op.IsWrite() then n.write
    else if op.IsPrecharge() then n.precharge
    else 0
  }

  function NextIssuable(b: State, r: Request): nat
    requires Routed(b, r)
  {
    Max(Sub.NextIssuable(b.subs[r.subarray], r), TimerOf(b.next, r.op))
  }

  /** `b` once subarray `x` is no longer active. */
  function Deactivate(b: State, x: nat): State {
    var active := Erase(b.active, x);
    b.(active := active, mode := if active == [] then Closed else b.mode)
  }

  /** Passes `r` on to its subarray. */
  function ToSubArray(p: Timing, b: State, r: Request, m: Moment): Outcome
    requires r.subarray < |b.subs|
  {
    var out := Sub.IssueCommand(p, b.subs[r.subarray], r, m);
    Outcome(out.ok, b.(subs := b.subs[r.subarray := out.state]))
  }

  function ActivateStep(p: Timing, b: State, r: Request, m: Moment): Outcome
    requires Routed(b, r)
  {
    if b.next.activate > m.now || (!b.mode.Closed? && b.active == []) then Outcome(false, b)
    else
      var n := b.next.(powerDown := Max(b.next.powerDown, m.now + p.rcd));
      var out := ToSubArray(p, b.(next := n), r, m);
      if out.ok then out.(state := out.state.(mode := Open, active := [r.subarray] + b.active))
      else out
  }

  function ReadStep(p: Timing, b: State, r: Request, m: Moment): Outcome
    requires Routed(b, r)
  {
    if b.next.read > m.now || !b.mode.Open? then Outcome(false, b)
    else
      var last := m.now + p.Span(r.bursts - 1);
      var down := if r.op.ReadPrecharge? then last + p.al + p.rtp + p.rp else last + p.rdpden;
      var n := b.next.(
        powerDown := Max(b.next.powerDown, down),
        read := Max(b.next.read, m.now + p.Span(r.bursts)),
        write := Max(b.next.write, last + p.cas + p.burst + p.rtrs - p.cwd));
      var out := ToSubArray(p, b.(next := n), r, m);
      if out.ok && r.op.ReadPrecharge? then out.(state := Deactivate(out.state, r.subarray)) else out
  }

  function WriteStep(p: Timing, b: State, r: Request, m: Moment): Outcome
    requires Routed(b, r)
  {
    if b.next.write > m.now || !b.mode.Open? then Outcome(false, b)
    else
      var last := m.now + p.Span(r.bursts - 1);
      var down := if r.op.WritePrecharge? then
          Max(b.next.activate, last + p.al + p.cwd + p.burst + p.wr + p.rp)
        else
          Max(b.next.powerDown, last + p.wrpden);
      var n := b.next.(
        powerDown := down,
        read := Max(b.next.read, last + p.cwd + p.burst + p.wtr),
        write := Max(b.next.write, m.now + p.Span(r.bursts)));
      var out := ToSubArray(p, b.(next := n), r, m);
      if out.ok && r.op.WritePrecharge? then out.(state := Deactivate(out.state, r.subarray)) else out
  }

  /** Precharges the subarrays of `b.active` from the front and stops at the first failure. */
  function PrechargeActive(p: Timing, b: State, r: Request, m: Moment): (out: Outcome)
    requires ActiveInRange(b)
    ensures out.ok ==> out.state.active == []
    decreases |b.active|
  {
    if b.active == [] then Outcome(true, b)
    else
      var x := b.active[0];
      var out := Sub.IssueCommand(p, b.subs[x], r, m);
      var b' := b.(active := b.active[1..], subs := b.subs[x := out.state]);
      if out.ok then PrechargeActive(p, b', r, m) else Outcome(false, b')
  }

  function PrechargeStep(p: Timing, b: State, r: Request, m: Moment): Outcome
    requires Routed(b, r)
  {
    if b.next.precharge > m.now || !(b.mode.Closed? || b.mode.Open?) then Outcome(false, b)
    else
      var timed := b.(next := b.next.(powerDown := Max(b.next.powerDown, m.now + p.rp)));
      if r.op.PrechargeAll? then
        var out := PrechargeActive(p, timed, r, m);
        if out.ok then out.(state := out.state.(mode := Closed)) else out
      else
        var out := ToSubArray(p, timed, r, m);
        if out.ok then out.(state := Deactivate(out.state, r.subarray)) else out
  }

  function RefreshStep(p: Timing, b: State, r: Request, m: Moment): Outcome
    requires Routed(b, r)
  {
    if b.next.activate > m.now then Outcome(false, b)
    else ToSubArray(p, b.(next := b.next.(powerDown := Max(b.next.powerDown, m.now + p.rfc))), r, m)
  }

  function PowerDownStep(p: Timing, b: State, r: Request, m: Moment): Outcome {
    if b.next.powerDown > m.now || !(b.mode.Open? || b.mode.Closed?) then Outcome(false, b)
    else
      var mode := if b.mode.Open? then DownActive
                  else if r.op.PowerDownSlow? then DownSlow
                  else DownFast;
      Outcome(true, b.(mode := mode, next := b.next.(powerUp := Max(b.next.powerUp, m.now + p.pd))))
  }

  function PowerUpStep(p: Timing, b: State, m: Moment): Outcome {
    if b.next.powerUp > m.now || b.mode.Open? || b.mode.Closed? then Outcome(false, b)
    else
      var up := m.now + p.xp;
      var n := b.next.(
        powerDown := Max(b.next.powerDown, up),
        activate := Max(b.next.activate, up),
        precharge := Max(b.next.precharge, up),
        write := Max(b.next.write, up),
        read := Max(b.next.read, if b.mode.DownSlow? then m.now + p.xpdll else up));
      Outcome(true, b.(next := n, mode := if b.mode.DownActive? then Open else Closed))
  }

  function IssueCommand(p: Timing, b: State, r: Request, m: Moment): Outcome
    requires Routed(b, r)
  {
    if !IsIssuable(p, b, r, m.now) then Outcome(false, b)
    else match r.op
      case Activate => ActivateStep(p, b, r, m)
      case Read | ReadPrecharge => ReadStep(p, b, r, m)
      case Write | WritePrecharge => WriteStep(p, b, r, m)
      case Precharge | PrechargeAll => PrechargeStep(p, b, r, m)
      case Refresh => RefreshStep(p, b, r, m)
      case PowerDownActive | PowerDownFast | PowerDownSlow => PowerDownStep(p, b, r, m)
      case PowerUp => PowerUpStep(p, b, m)
      case _ => ToSubArray(p, b, r, m)
  }

  // ---------------------------------------------------------------- invariant

  ghost predicate NoDuplicates(q: seq<nat>) { forall i, j | 0 <= i < j < |q| :: q[i] != q[j] }

  /** The active queue lists exactly the subarrays that hold a row, each once. */
  ghost predicate ActiveIsExact(b: State) {
    && ActiveInRange(b)
    && NoDuplicates(b.active)
    && forall i | 0 <= i < |b.subs| :: i in b.active <==> Sub.HoldsRow(b.subs[i])
  }

  ghost predicate SubsInv(p: Timing, b: State, now: nat) {
    forall i | 0 <= i < |b.subs| :: Sub.Inv(p, b.subs[i], now)
  }

  ghost predicate Inv(p: Timing, b: State, now: nat) {
    && SubsInv(p, b, now)
    && ActiveIsExact(b)
    && (b.active != [] <==> b.mode.Open? || b.mode.DownActive?)
  }

  /** A bank of `n` closed subarrays, powered down if `down`. */
  function Initial(n: positive, down: bool): State {
    State(if down then DownFast else Closed, Timers(0, 0, 0, 0, 0, 0), [], seq(n, _ => Sub.Initial()))
  }

  lemma InitialInv(p: Timing, n: positive, down: bool)
    ensures Inv(p, Initial(n, down), 0)
  {}

  lemma {:induction false} EraseRemoves(q: seq<nat>, x: nat)
    requires NoDuplicates(q)
    ensures NoDuplicates(Erase(q, x))
    ensures forall y :: y in Erase(q, x) <==> y in q && y != x
  {
    if q != [] && q[0] != x {
      assert q == [q[0]] + q[1..];
      EraseRemoves(q[1..], x);
      assert q[0] !in Erase(q[1..], x);
    }
  }

  // ---------------------------------------------------------------- IsIssuable is a complete guard

  /** The first active subarray is precharged, and the others are left as they are. */
  lemma PrechargeOneSucceeds(p: Timing, b: State, r: Request, m: Moment) returns (b': State)
    requires SubsInv(p, b, m.now) && ActiveIsExact(b) && r.op.PrechargeAll? && b.active != []
    requires Sub.IsIssuable(p, b.subs[b.active[0]], r, m.now)
    ensures var x := b.active[0];
      && b' == b.(active := b.active[1..], subs := b.subs[x := Sub.PrechargeStep(p, b.subs[x], m).state])
      && Sub.IssueCommand(p, b.subs[x], r, m) == Sub.Outcome(true, b'.subs[x])
      && SubsInv(p, b', m.now) && ActiveIsExact(b') && (forall y :: y in b.active <==> y == x || y in b'.active)
      && x !in b'.active
  {
    var x := b.active[0];
    assert b.active == [x] + b.active[1..];
    Sub.IssueKeepsInv(p, b.subs[x], r, m);
    b' := b.(active := b.active[1..], subs := b.subs[x := Sub.PrechargeStep(p, b.subs[x], m).state]);
  }

  /** Precharging every active subarray succeeds, and touches no other subarray. */
  lemma {:induction false} PrechargeActiveSucceeds(p: Timing, b: State, r: Request, m: Moment)
    requires SubsInv(p, b, m.now) && ActiveIsExact(b) && r.op.PrechargeAll?
    requires forall x | x in b.active :: Sub.IsIssuable(p, b.subs[x], r, m.now)
    ensures var out := PrechargeActive(p, b, r, m);
      && out.ok && out.state == b.(active := [], subs := out.state.subs)
      && |out.state.subs| == |b.subs| && SubsInv(p, out.state, m.now) && ActiveIsExact(out.state)
      && forall i | 0 <= i < |b.subs| ::
           out.state.subs[i] == if i in b.active then Sub.PrechargeStep(p, b.subs[i], m).state else b.subs[i]
    decreases |b.active|
  {
    if b.active != [] {
      hide Sub.IssueCommand, Sub.Inv;
      var b' := PrechargeOneSucceeds(p, b, r, m);
      PrechargeActiveSucceeds(p, b', r, m);
    }
  }

  /** A command to one subarray succeeds there and keeps the invariant of every subarray. */
  lemma ToSubArraySucceeds(p: Timing, b: State, r: Request, m: Moment)
    requires SubsInv(p, b, m.now) && Routed(b, r) && Sub.Sendable(p, r)
    requires Sub.IsIssuable(p, b.subs[r.subarray], r, m.now)
    ensures var out := ToSubArray(p, b, r, m);
      && out.ok && SubsInv(p, out.state, m.now)
      && out.state.subs[r.subarray] == Sub.IssueCommand(p, b.subs[r.subarray], r, m).state
      && (!r.op.IsPower() ==> b.subs[r.subarray].closing.NothingDue?)
  {
    Sub.IssueKeepsInv(p, b.subs[r.subarray], r, m);
    Sub.GuardIsComplete(p, b.subs[r.subarray], r, m);
  }

  lemma DeactivateIsExact(b: State, x: nat)
    requires x < |b.subs| && ActiveInRange(b) && NoDuplicates(b.active)
    requires !Sub.HoldsRow(b.subs[x])
    requires forall i | 0 <= i < |b.subs| && i != x :: i in b.active <==> Sub.HoldsRow(b.subs[i])
    ensures ActiveIsExact(Deactivate(b, x))
  {
    EraseRemoves(b.active, x);
    var d := Deactivate(b, x);
    forall k | 0 <= k < |d.active| ensures d.active[k] < |d.subs| {
      assert d.active[k] in b.active;
    }
  }

  lemma ActivateIsComplete(p: Timing, b: State, r: Request, m: Moment)
    requires Inv(p, b, m.now) && Routed(b, r) && r.op.Activate? && IsIssuable(p, b, r, m.now)
    ensures ActivateStep(p, b, r, m).ok && Inv(p, ActivateStep(p, b, r, m).state, m.now)
  {
    ToSubArraySucceeds(p, b, r, m);
  }

  lemma ColumnIsComplete(p: Timing, b: State, r: Request, m: Moment)
    requires Inv(p, b, m.now) && Routed(b, r) && r.op.IsColumn() && Sub.Sendable(p, r)
    requires IsIssuable(p, b, r, m.now)
    ensures IssueCommand(p, b, r, m).ok && Inv(p, IssueCommand(p, b, r, m).state, m.now)
  {
    ToSubArraySucceeds(p, b, r, m);
    if r.op.Closes() {
      DeactivateIsExact(ToSubArray(p, b, r, m).state, r.subarray);
    }
  }

  lemma PrechargeIsComplete(p: Timing, b: State, r: Request, m: Moment)
    requires Inv(p, b, m.now) && Routed(b, r) && r.op.IsPrecharge() && IsIssuable(p, b, r, m.now)
    ensures PrechargeStep(p, b, r, m).ok && Inv(p, PrechargeStep(p, b, r, m).state, m.now)
  {
    var timed := b.(next := b.next.(powerDown := Max(b.next.powerDown, m.now + p.rp)));
    if r.op.PrechargeAll? {
      PrechargeActiveSucceeds(p, timed, r, m);
    } else {
      ToSubArraySucceeds(p, timed, r, m);
      DeactivateIsExact(ToSubArray(p, timed, r, m).state, r.subarray);
    }
  }

  /**
    Whenever IsIssuable holds, IssueCommand succeeds in the bank and in the subarray, so the
    sanity checks behind the guard are dead; and the bank keeps its invariant.
   */
  lemma GuardIsComplete(p: Timing, b: State, r: Request, m: Moment)
    requires Inv(p, b, m.now) && Routed(b, r) && Sub.Sendable(p, r)
    ensures IsIssuable(p, b, r, m.now) <==> IssueCommand(p, b, r, m).ok
    ensures Inv(p, IssueCommand(p, b, r, m).state, m.now)
  {
    if IsIssuable(p, b, r, m.now) {
      if r.op.Activate? {
        ActivateIsComplete(p, b, r, m);
      } else if r.op.IsColumn() {
        ColumnIsComplete(p, b, r, m);
      } else if r.op.IsPrecharge() {
        PrechargeIsComplete(p, b, r, m);
      } else if r.op.Refresh? {
        ToSubArraySucceeds(p, b, r, m);
      }
    }
  }
}
