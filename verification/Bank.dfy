/** The bank as the source keeps it: timers, mode and active queue updated in place. */
module Banks {
  import opened Commands
  import opened Sequences
  import opened SubArrays
  import Sub = SubArraySpec
  import Spec = BankSpec
  import opened BankSpec

  class Bank {
    const p: Timing
    const subs: seq<SubArray>
    var mode: Mode
    var active: seq<nat>
    var nextActivate: nat
    var nextPrecharge: nat
    var nextRead: nat
    var nextWrite: nat
    var nextPowerDown: nat
    var nextPowerUp: nat

    ghost predicate Valid() {
      && (forall i | 0 <= i < |subs| :: subs[i].p == p)
      && forall i, j | 0 <= i < j < |subs| :: subs[i] != subs[j]
    }

    ghost function SubStates(): (s: seq<Sub.State>)
      reads subs
    {
      seq(|subs|, i requires 0 <= i < |subs| reads subs => subs[i].State())
    }

    ghost function State(): Spec.State
      reads this, subs
    {
      Spec.State(mode,
        Timers(nextActivate, nextPrecharge, nextRead, nextWrite, nextPowerDown, nextPowerUp),
        active, SubStates())
    }

    constructor (p: Timing, n: positive, down: bool)
      ensures Valid() && fresh(subs) && this.p == p
      ensures State() == Initial(n, down)
    {
      var list: seq<SubArray> := [];
      for i := 0 to n
        invariant |list| == i && fresh(list)
        invariant forall k | 0 <= k < i :: list[k].p == p && list[k].State() == Sub.Initial()
        invariant forall k, l | 0 <= k < l < i :: list[k] != list[l]
      {
        var sub := new SubArray(p);
        list := list + [sub];
      }
      this.p := p;
      subs := list;
      mode := if down then DownFast else Mode.Closed;
      active := [];
      nextActivate, nextPrecharge, nextRead, nextWrite, nextPowerDown, nextPowerUp := 0, 0, 0, 0, 0, 0;
    }

    method IsIssuable(r: Request, now: nat) returns (issuable: bool)
      requires Valid() && Routed(State(), r)
      ensures issuable == Spec.IsIssuable(p, State(), r, now)
    {
      hide Sub.IsIssuable;
      issuable := true;
      var child := subs[r.subarray];
      assert child.State() == State().subs[r.subarray];
      if r.op == Op.Activate {
        if nextActivate > now || mode == DownFast || mode == DownSlow || mode == DownActive {
          issuable := false;
        } else {
          issuable := child.IsIssuable(r, now);
        }
      } else if r.op == Op.Read || r.op == Op.ReadPrecharge {
        if nextRead > now || mode != Mode.Open {
          issuable := false;
        } else {
          issuable := child.IsIssuable(r, now);
        }
      } else if r.op == Op.Write || r.op == Op.WritePrecharge {
        if nextWrite > now || mode != Mode.Open {
          issuable := false;
        } else {
          issuable := child.IsIssuable(r, now);
        }
      } else if r.op == Op.Precharge || r.op == Op.PrechargeAll {
        if nextPrecharge > now || (mode != Mode.Closed && mode != Mode.Open) {
          issuable := false;
        } else if r.op == Op.PrechargeAll {
          issuable := ActiveIssuable(r, now);
        } else {
          issuable := child.IsIssuable(r, now);
        }
      } else if r.op.IsPower() {
        issuable := PowerIssuable(r, now);
      } else if r.op == Op.Refresh {
        if nextActivate > now || (mode != Mode.Closed && mode != Mode.Open) {
          issuable := false;
        } else {
          issuable := child.IsIssuable(r, now);
        }
      } else {
        issuable := child.IsIssuable(r, now);
      }
    }

    method PowerIssuable(r: Request, now: nat) returns (issuable: bool)
      requires Valid() && Routed(State(), r) && r.op.IsPower()
      ensures issuable == Spec.IsIssuable(p, State(), r, now)
    {
      issuable := true;
      if r.op == Op.PowerUp {
        if nextPowerUp > now || (mode != DownFast && mode != DownSlow && mode != DownActive) {
          issuable := false;
        }
      } else if nextPowerDown > now || (mode != Mode.Closed && mode != Mode.Open)
           || ((r.op == Op.PowerDownFast || r.op == Op.PowerDownSlow) && mode == Mode.Open) {
        issuable := false;
      }
      var children := AllIssuable(r, now);
      issuable := issuable && children;
    }

    method ActiveIssuable(r: Request, now: nat) returns (all: bool)
      requires Valid() && ActiveInRange(State())
      ensures all <==> forall x | x in active :: Sub.IsIssuable(p, State().subs[x], r, now)
    {
      for k := 0 to |active|
        invariant forall l | 0 <= l < k :: Sub.IsIssuable(p, State().subs[active[l]], r, now)
      {
        var one := subs[active[k]].IsIssuable(r, now);
        if !one {
          assert active[k] in active;
          return false;
        }
      }
      return true;
    }

    method AllIssuable(r: Request, now: nat) returns (all: bool)
      requires Valid()
      ensures all <==> forall i | 0 <= i < |subs| :: Sub.IsIssuable(p, State().subs[i], r, now)
    {
      for i := 0 to |subs|
        invariant forall k | 0 <= k < i :: Sub.IsIssuable(p, State().subs[k], r, now)
      {
        var one := subs[i].IsIssuable(r, now);
        if !one {
          assert !Sub.IsIssuable(p, State().subs[i], r, now);
          return false;
        }
      }
      return true;
    }

    method NextIssuable(r: Request) returns (cycle: nat)
      requires Valid() && Routed(State(), r)
      ensures cycle == Spec.NextIssuable(State(), r)
    {
      var mine := 0;
      if r.op == Op.Activate || r.op == Op.Refresh { mine := nextActivate; }
      else if r.op == Op.Read || r.op == Op.ReadPrecharge { mine := nextRead; }
      else if r.op == Op.Write || r.op == Op.WritePrecharge { mine := nextWrite; }
      else if r.op == Op.Precharge || r.op == Op.PrechargeAll { mine := nextPrecharge; }
      var child := subs[r.subarray].NextIssuable(r);
      return Max(child, mine);
    }

    /** Sends `r` to subarray `x`; every other subarray stays as it is. */
    method Send(x: nat, r: Request, m: Moment) returns (ok: bool)
      requires Valid() && x < |subs|
      modifies subs[x]
      ensures var out := Sub.IssueCommand(p, old(State()).subs[x], r, m);
        && ok == out.ok
        && State() == old(State()).(subs := old(State()).subs[x := out.state])
    {
      ghost var before := State();
      ok := subs[x].IssueCommand(r, m);
      assert State().subs == before.subs[x := State().subs[x]];
    }

    method Deactivate(x: nat)
      modifies this
      ensures State() == Spec.Deactivate(old(State()), x)
    {
      var i := 0;
      while i < |active| && active[i] != x
        invariant i <= |active| && active == old(active)
        invariant unchanged(this)
        invariant Erase(active, x) == active[..i] + Erase(active[i..], x)
      {
        assert active[..i + 1] == active[..i] + [active[i]];
        i := i + 1;
      }
      if i < |active| {
        active := active[..i] + active[i + 1..];
      } else {
        assert active[i..] == [] && active[..i] == active;
      }
      if active == [] { mode := Mode.Closed; }
    }

    method Activate(r: Request, m: Moment) returns (ok: bool)
      requires Valid() && Routed(State(), r)
      modifies this, subs
      ensures Outcome(ok, State()) == ActivateStep(p, old(State()), r, m)
    {
      if nextActivate > m.now { return false; }
      if mode != Mode.Closed {
        if active == [] { return false; }
      }
      nextPowerDown := Max(nextPowerDown, m.now + p.rcd);
      ok := Send(r.subarray, r, m);
      if ok {
        mode := Mode.Open;
        active := [r.subarray] + active;
      }
    }

    method Read(r: Request, m: Moment) returns (ok: bool)
      requires Valid() && Routed(State(), r)
      modifies this, subs
      ensures Outcome(ok, State()) == ReadStep(p, old(State()), r, m)
    {
      hide Parameters.Span, Sub.IssueCommand;
      if nextRead > m.now { return false; }
      if mode != Mode.Open { return false; }
      var last := m.now + p.Span(r.bursts - 1);
      if r.op == Op.ReadPrecharge {
        nextPowerDown := Max(nextPowerDown, last + p.al + p.rtp + p.rp);
      } else {
        nextPowerDown := Max(nextPowerDown, last + p.rdpden);
      }
      nextRead := Max(nextRead, m.now + p.Span(r.bursts));
      nextWrite := Max(nextWrite, last + p.cas + p.burst + p.rtrs - p.cwd);
      ghost var timed := State();
      ok := Send(r.subarray, r, m);
      assert Outcome(ok, State()) == ToSubArray(p, timed, r, m);
      if ok && r.op == Op.ReadPrecharge { Deactivate(r.subarray); }
    }

    method Write(r: Request, m: Moment) returns (ok: bool)
      requires Valid() && Routed(State(), r)
      modifies this, subs
      ensures Outcome(ok, State()) == WriteStep(p, old(State()), r, m)
    {
      hide Parameters.Span, Sub.IssueCommand;
      if nextWrite > m.now { return false; }
      if mode != Mode.Open { return false; }
      var last := m.now + p.Span(r.bursts - 1);
      if r.op == Op.WritePrecharge {
        nextPowerDown := Max(nextActivate, last + p.al + p.cwd + p.burst + p.wr + p.rp);
      } else {
        nextPowerDown := Max(nextPowerDown, last + p.wrpden);
      }
      nextRead := Max(nextRead, last + p.cwd + p.burst + p.wtr);
      nextWrite := Max(nextWrite, m.now + p.Span(r.bursts));
      ghost var timed := State();
      ok := Send(r.subarray, r, m);
      assert Outcome(ok, State()) == ToSubArray(p, timed, r, m);
      if ok && r.op == Op.WritePrecharge { Deactivate(r.subarray); }
    }

    /** Precharges the active subarrays from the front of the queue; the last one gets `r` itself. */
    method PrechargeEach(r: Request, m: Moment) returns (ok: bool)
      requires Valid() && ActiveInRange(State()) && active != []
      modifies this, subs
      ensures Outcome(ok, State()) == PrechargeActive(p, old(State()), r, m)
    {
      ghost var goal := PrechargeActive(p, State(), r, m);
      while |active| > 1
        invariant ActiveInRange(State()) && active != []
        invariant PrechargeActive(p, State(), r, m) == goal
        decreases |active|
      {
        ok := PrechargeFront(r, m);
        if !ok { return false; }
      }
      ok := PrechargeFront(r, m);
    }

    method PrechargeFront(r: Request, m: Moment) returns (ok: bool)
      requires Valid() && ActiveInRange(State()) && active != []
      modifies this, subs
      ensures ActiveInRange(State()) && active == old(active)[1..]
      ensures PrechargeActive(p, old(State()), r, m) ==
        if ok then PrechargeActive(p, State(), r, m) else Outcome(false, State())
    {
      var x := active[0];
      active := active[1..];
      ok := Send(x, r, m);
    }

    method Precharge(r: Request, m: Moment) returns (ok: bool)
      requires Valid() && Routed(State(), r) && r.op.IsPrecharge()
      modifies this, subs
      ensures Outcome(ok, State()) == PrechargeStep(p, old(State()), r, m)
    {
      if nextPrecharge > m.now { return false; }
      if mode != Mode.Closed && mode != Mode.Open { return false; }
      nextPowerDown := Max(nextPowerDown, m.now + p.rp);
      if r.op == Op.Precharge {
        ok := Send(r.subarray, r, m);
        if !ok { return false; }
        Deactivate(r.subarray);
      } else {
        if active != [] {
          ok := PrechargeEach(r, m);
          if !ok { return false; }
        }
      }
      if active == [] { mode := Mode.Closed; }
      return true;
    }

    method Refresh(r: Request, m: Moment) returns (ok: bool)
      requires Valid() && Routed(State(), r)
      modifies this, subs
      ensures Outcome(ok, State()) == RefreshStep(p, old(State()), r, m)
    {
      if nextActivate > m.now { return false; }
      nextPowerDown := Max(nextPowerDown, m.now + p.rfc);
      ok := Send(r.subarray, r, m);
    }

    method PowerDown(r: Request, m: Moment) returns (ok: bool)
      modifies this
      ensures Outcome(ok, State()) == PowerDownStep(p, old(State()), r, m)
    {
      ok := false;
      if nextPowerDown <= m.now && (mode == Mode.Open || mode == Mode.Closed) {
        nextPowerUp := Max(nextPowerUp, m.now + p.pd);
        if mode == Mode.Open {
          mode := DownActive;
        } else if r.op == Op.PowerDownSlow {
          mode := DownSlow;
        } else {
          mode := DownFast;
        }
        ok := true;
      }
    }

    method PowerUp(m: Moment) returns (ok: bool)
      modifies this
      ensures Outcome(ok, State()) == PowerUpStep(p, old(State()), m)
    {
      ok := false;
      if nextPowerUp <= m.now && (mode == DownFast || mode == DownSlow || mode == DownActive) {
        nextPowerDown := Max(nextPowerDown, m.now + p.xp);
        nextActivate := Max(nextActivate, m.now + p.xp);
        nextPrecharge := Max(nextPrecharge, m.now + p.xp);
        nextWrite := Max(nextWrite, m.now + p.xp);
        nextRead := Max(nextRead, if mode == DownSlow then m.now + p.xpdll else m.now + p.xp);
        mode := if mode == DownActive then Mode.Open else Mode.Closed;
        ok := true;
      }
    }

    method IssueCommand(r: Request, m: Moment) returns (ok: bool)
      requires Valid() && Routed(State(), r)
      modifies this, subs
      ensures Outcome(ok, State()) == Spec.IssueCommand(p, old(State()), r, m)
    {
      var issuable := IsIssuable(r, m.now);
      ok := false;
      if !issuable { return; }
      match r.op
      case Activate => ok := Activate(r, m);
      case Read | ReadPrecharge => ok := Read(r, m);
      case Write | WritePrecharge => ok := Write(r, m);
      case Precharge | PrechargeAll => ok := Precharge(r, m);
      case Refresh => ok := Refresh(r, m);
      case PowerDownActive | PowerDownFast | PowerDownSlow => ok := PowerDown(r, m);
      case PowerUp => ok := PowerUp(m);
      case _ =>
        // No other command is ever issuable, so the source's fall-through to the subarray is dead.
        assert false;
    }

    /** The completion event of a precharge or a refresh in subarray `x`. */
    method CompleteClosing(x: nat, now: nat)
      requires Valid() && x < |subs|
      modifies subs
      ensures State() == old(State()).(subs := old(SubStates())[x := Sub.CompleteClosing(p, old(SubStates())[x], now)])
    {
      assert subs[x] in subs;
      subs[x].CompleteClosing(now);
      assert forall i | 0 <= i < |subs| && i != x :: subs[i] != subs[x] && unchanged(subs[i]);
      assert SubStates() == old(SubStates())[x := Sub.CompleteClosing(p, old(SubStates())[x], now)];
    }

    /** The completion event of the latest write to subarray `x`. */
    method CompleteWrite(x: nat)
      requires Valid() && x < |subs| && subs[x].writing.Writing?
      modifies subs
      ensures State() == old(State()).(subs := old(SubStates())[x := Sub.CompleteWrite(old(SubStates())[x])])
    {
      assert subs[x] in subs;
      subs[x].CompleteWrite(subs[x].writing.id);
      assert forall i | 0 <= i < |subs| && i != x :: subs[i] != subs[x] && unchanged(subs[i]);
      assert SubStates() == old(SubStates())[x := Sub.CompleteWrite(old(SubStates())[x])];
    }
  }
}
