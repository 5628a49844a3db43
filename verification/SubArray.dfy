/** The subarray as the source keeps it: a record of timers updated in place by its methods. */
module SubArrays {
  import opened Commands
  import Spec = SubArraySpec
  import opened SubArraySpec

  class SubArray {
    const p: Timing
    var phase: Phase
    var openRow: nat
    var nextActivate: nat
    var nextPrecharge: nat
    var nextRead: nat
    var nextWrite: nat
    var nextPowerDown: nat
    var beforeWrite: Timers
    var closing: Closing
    var writing: WriteState

    ghost function Next(): Timers
      reads this
    {
      Timers(nextActivate, nextPrecharge, nextRead, nextWrite, nextPowerDown)
    }

    ghost function State(): State
      reads this
    {
      Spec.State(phase, openRow, Next(), beforeWrite, closing, writing)
    }

    constructor (p: Timing)
      ensures this.p == p && State() == Initial()
    {
      this.p := p;
      phase, openRow := Closed, 0;
      nextActivate, nextPrecharge, nextRead, nextWrite, nextPowerDown := 0, 0, 0, 0, 0;
      beforeWrite := Timers(0, 0, 0, 0, 0);
      closing, writing := NothingDue, NotWriting;
    }

    method IsIssuable(r: Request, now: nat) returns (issuable: bool)
      ensures issuable == Spec.IsIssuable(p, State(), r, now)
    {
      issuable := true;
      match r.op
      case Activate =>
        if nextActivate > now || phase != Closed
           || (p.pausing && writing.Writing? && writing.forced)
           || (p.pausing && writing.Writing? && !r.priority) {
          issuable := false;
        }
      case Read | ReadPrecharge =>
        if nextRead > now || phase != Open || r.row != openRow
           || (p.pausing && writing.Writing? && writing.forced) {
          issuable := false;
        }
      case Write | WritePrecharge =>
        if nextWrite > now || phase != Open || r.row != openRow { issuable := false; }
      case Precharge | PrechargeAll =>
        if nextPrecharge > now || (phase != Open && phase != Closed) { issuable := false; }
      case PowerDownActive | PowerDownFast | PowerDownSlow =>
        if nextPowerDown > now || writing.Writing? { issuable := false; }
      case PowerUp =>
      case Refresh =>
        if nextActivate > now || phase != Closed { issuable := false; }
      case _ =>
        issuable := false;
    }

    method NextIssuable(r: Request) returns (cycle: nat)
      ensures cycle == Spec.NextIssuable(State(), r)
    {
      cycle := 0;
      if r.op == Op.Activate { cycle := nextActivate; }
      else if r.op == Op.Read { cycle := nextRead; }
      else if r.op == Op.Write { cycle := nextWrite; }
      else if r.op == Op.Precharge { cycle := nextPrecharge; }
    }

    method CheckWritePausing(m: Moment)
      modifies this
      ensures State() == Spec.CheckWritePausing(p, old(State()), m)
    {
      if p.pausing && writing.Writing? {
        writing := writing.(doneAt := m.now + 1, bounce := m.bounce);
        nextActivate := beforeWrite.activate;
        nextPrecharge := beforeWrite.precharge;
        nextRead := beforeWrite.read;
        nextWrite := beforeWrite.write;
        nextPowerDown := beforeWrite.powerDown;
      }
    }

    method Activate(r: Request, m: Moment) returns (ok: bool)
      modifies this
      ensures Outcome(ok, State()) == ActivateStep(p, old(State()), r, m)
    {
      CheckWritePausing(m);
      if nextActivate > m.now { return false; }
      if phase != Closed { return false; }
      nextPrecharge := Max(nextPrecharge, m.now + Max(p.rcd, p.ras));
      nextRead := Max(nextRead, m.now + p.rcd - p.al);
      nextWrite := Max(nextWrite, m.now + p.rcd - p.al);
      nextPowerDown := Max(nextPowerDown, m.now + Max(p.rcd, p.ras));
      openRow := r.row;
      phase := Open;
      return true;
    }

    method Read(r: Request, m: Moment) returns (ok: bool)
      modifies this
      ensures Outcome(ok, State()) == ReadStep(p, old(State()), r, m)
    {
      CheckWritePausing(m);
      if nextRead > m.now { return false; }
      if phase != Open { return false; }
      if r.row != openRow { return false; }
      var last := m.now + p.Span(r.bursts - 1) + m.latency;
      if r.op == Op.ReadPrecharge {
        nextActivate := Max(nextActivate, last + p.al + p.rtp + p.rp);
        nextPrecharge := Max(nextPrecharge, nextActivate);
        nextRead := Max(nextRead, nextActivate);
        nextWrite := Max(nextWrite, nextActivate);
        closing := AutoPrechargeAt(last + p.al + p.rtp);
      } else {
        nextPrecharge := Max(nextPrecharge, last + p.al + p.burst + p.rtp - p.ccd);
        nextRead := Max(nextRead, m.now + p.Span(r.bursts));
        nextWrite := Max(nextWrite, last + p.cas + p.burst + p.rtrs - p.cwd);
      }
      nextPowerDown := Max(nextPowerDown, last + p.cas + p.al + p.burst + 1);
      return true;
    }

    method Write(r: Request, m: Moment) returns (ok: bool)
      modifies this
      ensures Outcome(ok, State()) == WriteStep(p, old(State()), r, m)
    {
      if nextWrite > m.now { return false; }
      if phase != Open { return false; }
      if r.row != openRow { return false; }
      beforeWrite := Timers(nextActivate, nextPrecharge, nextRead, nextWrite, nextPowerDown);
      var last := m.now + p.Span(r.bursts - 1) + m.latency;
      var recovered := last + p.al + p.cwd + p.burst + p.wr;
      if r.op == Op.WritePrecharge {
        nextActivate := Max(nextActivate, recovered + p.rp);
        nextPrecharge := Max(nextPrecharge, nextActivate);
        nextRead := Max(nextRead, nextActivate);
        nextWrite := Max(nextWrite, nextActivate);
        closing := AutoPrechargeAt(recovered);
      } else {
        nextPrecharge := Max(nextPrecharge, recovered);
        nextRead := Max(nextRead, last + p.cwd + p.burst + p.wtr);
        nextWrite := Max(nextWrite, m.now + p.Span(r.bursts) + m.latency);
      }
      nextPowerDown := Max(nextPowerDown, nextPrecharge);
      writing := Writing(r.id, r.forced, m.now + p.cwd + p.Span(r.bursts) + m.latency, NotBounced);
      return true;
    }

    method Precharge(m: Moment) returns (ok: bool)
      modifies this
      ensures Outcome(ok, State()) == PrechargeStep(p, old(State()), m)
    {
      if nextPrecharge > m.now { return false; }
      if phase != Closed && phase != Open { return false; }
      var timer := Max(1, p.rp);
      nextActivate := Max(nextActivate, m.now + timer);
      closing := ClosedAt(m.now + timer);
      phase := Precharging;
      return true;
    }

    method Refresh(m: Moment) returns (ok: bool)
      modifies this
      ensures Outcome(ok, State()) == RefreshStep(p, old(State()), m)
    {
      if nextActivate > m.now { return false; }
      if phase != Closed { return false; }
      nextActivate := Max(nextActivate, m.now + p.rfc);
      closing := ClosedAt(m.now + p.rfc);
      phase := Refreshing;
      return true;
    }

    method IssueCommand(r: Request, m: Moment) returns (ok: bool)
      modifies this
      ensures Outcome(ok, State()) == Spec.IssueCommand(p, old(State()), r, m)
    {
      var issuable := IsIssuable(r, m.now);
      if !issuable { return false; }
      match r.op
      case Activate => ok := Activate(r, m);
      case Read | ReadPrecharge => ok := Read(r, m);
      case Write | WritePrecharge => ok := Write(r, m);
      case Precharge | PrechargeAll => ok := Precharge(m);
      case Refresh => ok := Refresh(m);
      case _ => ok := true;
    }

    /** The completion event of an implicit precharge, a precharge or a refresh. */
    method CompleteClosing(now: nat)
      modifies this
      ensures State() == Spec.CompleteClosing(p, old(State()), now)
    {
      match closing
      case NothingDue =>
      case AutoPrechargeAt(_) =>
        phase := Precharging;
        closing := ClosedAt(now + p.rp);
      case ClosedAt(_) =>
        phase := Closed;
        openRow := p.rows;
        closing := NothingDue;
    }

    /** The completion event of write `id`; only the latest write ends the writing state. */
    method CompleteWrite(id: nat)
      modifies this
      ensures State() ==
        if old(writing.Writing? && writing.id == id) then Spec.CompleteWrite(old(State())) else old(State())
    {
      if writing.Writing? && writing.id == id {
        writing := NotWriting;
      }
    }
  }
}
