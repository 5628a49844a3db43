/**
  One subarray: the row state, the distributed next-command timers and the completion
  events that the subarray has scheduled for itself.
 */
module SubArraySpec {
  import opened Commands

  datatype Phase = Closed | Open | Precharging | Refreshing

  /** The pending completion event that will change the row state. */
  datatype Closing = NothingDue | AutoPrechargeAt(at: nat) | ClosedAt(at: nat)

  /** The latest write whose completion event is still pending. */
  datatype WriteState = NotWriting | Writing(id: nat, forced: bool, doneAt: nat, bounce: Bounce)

  /** Earliest cycles of the next command of each kind. */
  datatype Timers = Timers(activate: nat, precharge: nat, read: nat, write: nat, powerDown: nat)

  datatype State = State(
    phase: Phase, openRow: nat, next: Timers, beforeWrite: Timers,
    closing: Closing, writing: WriteState)

  datatype Outcome = Outcome(ok: bool, state: State)

  function Initial(): State {
    State(Closed, 0, Timers(0, 0, 0, 0, 0), Timers(0, 0, 0, 0, 0), NothingDue, NotWriting)
  }

  // ---------------------------------------------------------------- specification

  /** Whether `r` may be issued at cycle `now`. */
  predicate IsIssuable(p: Timing, s: State, r: Request, now: nat) {
    match r.op
    case Activate =>
      && s.next.activate <= now && s.phase.Closed?
      && !(p.pausing && s.writing.Writing? && (s.writing.forced || !r.priority))
    case Read | ReadPrecharge =>
      && s.next.read <= now && s.phase.Open? && r.row == s.openRow
      && !(p.pausing && s.writing.Writing? && s.writing.forced)
    case Write | WritePrecharge =>
      s.next.write <= now && s.phase.Open? && r.row == s.openRow
    case Precharge | PrechargeAll =>
      s.next.precharge <= now && (s.phase.Open? || s.phase.Closed?)
    case PowerDownActive | PowerDownFast | PowerDownSlow =>
      s.next.powerDown <= now && s.writing.NotWriting?
    case PowerUp => true
    case Refresh => s.next.activate <= now && s.phase.Closed?
    case _ => false
  }

  /** The cycle at which the subarray asks for `r` to be tried again. */
  function NextIssuable(s: State, r: Request): nat {
    match r.op
    case Activate => s.next.activate
    case Read => s.next.read
    case Write => s.next.write
    case Precharge => s.next.precharge
    case _ => 0
  }

  /** Interrupts the write in progress, if there is one and writes can be paused. */
  function CheckWritePausing(p: Timing, s: State, m: Moment): State {
    if p.pausing && s.writing.Writing? then
      s.(next := s.beforeWrite, writing := s.writing.(doneAt := m.now + 1, bounce := m.bounce))
    else
      s
  }

  function ActivateStep(p: Timing, before: State, r: Request, m: Moment): Outcome {
    var s := CheckWritePausing(p, before, m);
    if s.next.activate > m.now || !s.phase.Closed? then Outcome(false, s)
    else
      var row := m.now + Max(p.rcd, p.ras);
      var column := m.now + p.rcd - p.al;
      Outcome(true, s.(
        phase := Open, openRow := r.row,
        next := s.next.(
          precharge := Max(s.next.precharge, row),
          read := Max(s.next.read, column),
          write := Max(s.next.write, column),
          powerDown := Max(s.next.powerDown, row))))
  }

  /** Timers after a column command with implicit precharge: all wait for `activate`. */
  function AfterAutoPrecharge(n: Timers, activate: nat): (n': Timers) {
    var a := Max(n.activate, activate);
    n.(activate := a, precharge := Max(n.precharge, a), read := Max(n.read, a), write := Max(n.write, a))
  }

  function ReadStep(p: Timing, before: State, r: Request, m: Moment): Outcome {
    var s := CheckWritePausing(p, before, m);
    if s.next.read > m.now || !s.phase.Open? || r.row != s.openRow then Outcome(false, s)
    else
      var last := m.now + p.Span(r.bursts - 1) + m.latency;
      var powerDown := Max(s.next.powerDown, last + p.cas + p.al + p.burst + 1);
      if r.op.ReadPrecharge? then
        Outcome(true, s.(
          next := AfterAutoPrecharge(s.next, last + p.al + p.rtp + p.rp).(powerDown := powerDown),
          closing := AutoPrechargeAt(last + p.al + p.rtp)))
      else
        Outcome(true, s.(next := s.next.(
          precharge := Max(s.next.precharge, last + p.al + p.burst + p.rtp - p.ccd),
          read := Max(s.next.read, m.now + p.Span(r.bursts)),
          write := Max(s.next.write, last + p.cas + p.burst + p.rtrs - p.cwd),
          powerDown := powerDown)))
  }

  function WriteStep(p: Timing, s: State, r: Request, m: Moment): Outcome {
    if s.next.write > m.now || !s.phase.Open? || r.row != s.openRow then Outcome(false, s)
    else
      var last := m.now + p.Span(r.bursts - 1) + m.latency;
      var recovered := last + p.al + p.cwd + p.burst + p.wr;
      var n := if r.op.WritePrecharge? then
          AfterAutoPrecharge(s.next, recovered + p.rp)
        else
          s.next.(
            precharge := Max(s.next.precharge, recovered),
            read := Max(s.next.read, last + p.cwd + p.burst + p.wtr),
            write := Max(s.next.write, m.now + p.Span(r.bursts) + m.latency));
      Outcome(true, s.(
        beforeWrite := s.next,
        next := n.(powerDown := Max(n.powerDown, n.precharge)),
        closing := if r.op.WritePrecharge? then AutoPrechargeAt(recovered) else s.closing,
        writing := Writing(r.id, r.forced, m.now + p.cwd + p.Span(r.bursts) + m.latency, NotBounced)))
  }

  function PrechargeStep(p: Timing, s: State, m: Moment): Outcome {
    if s.next.precharge > m.now || !(s.phase.Closed? || s.phase.Open?) then Outcome(false, s)
    else
      var closed := m.now + Max(1, p.rp);
      Outcome(true, s.(
        phase := Precharging,
        next := s.next.(activate := Max(s.next.activate, closed)),
        closing := ClosedAt(closed)))
  }

  function RefreshStep(p: Timing, s: State, m: Moment): Outcome {
    if s.next.activate > m.now || !s.phase.Closed? then Outcome(false, s)
    else
      Outcome(true, s.(
        phase := Refreshing,
        next := s.next.(activate := Max(s.next.activate, m.now + p.rfc)),
        closing := ClosedAt(m.now + p.rfc)))
  }

  function IssueCommand(p: Timing, s: State, r: Request, m: Moment): Outcome {
    if !IsIssuable(p, s, r, m.now) then Outcome(false, s)
    else match r.op
      case Activate => ActivateStep(p, s, r, m)
      case Read | ReadPrecharge => ReadStep(p, s, r, m)
      case Write | WritePrecharge => WriteStep(p, s, r, m)
      case Precharge | PrechargeAll => PrechargeStep(p, s, m)
      case Refresh => RefreshStep(p, s, m)
      case _ => Outcome(true, s)
  }

  /** The completion event that changes the row state fires. */
  function CompleteClosing(p: Timing, s: State, now: nat): State {
    match s.closing
    case NothingDue => s
    case AutoPrechargeAt(_) => s.(phase := Precharging, closing := ClosedAt(now + p.rp))
    case ClosedAt(_) => s.(phase := Closed, openRow := p.rows, closing := NothingDue)
  }

  /** The completion event of the latest write fires. */
  function CompleteWrite(s: State): State { s.(writing := NotWriting) }

  // ---------------------------------------------------------------- invariant

  /** No write was or can be interrupted: pausing is off, or the write in progress is forced. */
  ghost predicate PauseFree(p: Timing, s: State) {
    s.writing.Writing? ==> s.writing.bounce.NotBounced? && (p.pausing ==> s.writing.forced)
  }

  /** Interrupting the write in progress moves no timer forward. */
  ghost predicate Restorable(s: State) { s.writing.Writing? ==> NotBefore(s.beforeWrite, s.next) }

  /** What every subarray keeps between commands and events at cycle `now`. */
  ghost predicate Inv(p: Timing, s: State, now: nat) {
    && PauseFree(p, s)
    && Restorable(s)
    && (s.writing.Writing? ==> now <= s.writing.doneAt)
    && match s.closing
       case NothingDue => s.phase.Closed? || s.phase.Open?
       case AutoPrechargeAt(t) =>
         && s.phase.Open? && now <= t
         && t + p.rp <= s.next.activate && t + p.rp <= s.next.precharge
         && t + p.rp <= s.next.read && t + p.rp <= s.next.write
       case ClosedAt(t) =>
         && (s.phase.Precharging? || s.phase.Refreshing?) && now <= t <= s.next.activate
  }

  /** The row is open and no implicit precharge will close it. */
  predicate HoldsRow(s: State) { s.phase.Open? && !s.closing.AutoPrechargeAt? }

  /** A write that is sent to a device with pausing enabled must be forced. */
  ghost predicate Sendable(p: Timing, r: Request) { p.pausing && r.op.IsWrite() ==> r.forced }

  /** The timer that guards `op`. */
  function TimerOf(n: Timers, op: Op): nat {
    if op.Activate? || op.Refresh? then n.activate
    else if op.IsRead() then n.read
    else if op.IsWrite() then n.write
    else if op.IsPrecharge() then n.precharge
    else 0
  }

  ghost predicate NotBefore(n: Timers, n': Timers) {
    && n.activate <= n'.activate && n.precharge <= n'.precharge
    && n.read <= n'.read && n.write <= n'.write && n.powerDown <= n'.powerDown
  }

  // ---------------------------------------------------------------- results

  /** Interrupting a write takes back what it did to the timers, and its completion comes in the next cycle. */
  lemma InterruptUndoesWrite(p: Timing, s: State, r: Request, m: Moment, later: Moment)
    requires p.pausing && r.op.IsWrite() && WriteStep(p, s, r, m).ok
    ensures var written := WriteStep(p, s, r, m).state;
      CheckWritePausing(p, written, later)
      == written.(next := s.next, writing := Writing(r.id, r.forced, later.now + 1, later.bounce))
  {}

  /** IsIssuable is a complete guard: none of the sanity checks behind it can fail, paused writes or not. */
  lemma GuardIsComplete(p: Timing, s: State, r: Request, m: Moment)
    requires Restorable(s)
    ensures IsIssuable(p, s, r, m.now) <==> IssueCommand(p, s, r, m).ok
  {}

  lemma ReadKeepsRestorable(p: Timing, s: State, r: Request, m: Moment)
    requires Restorable(s)
    ensures Restorable(ReadStep(p, s, r, m).state)
  {}

  lemma WriteKeepsRestorable(p: Timing, s: State, r: Request, m: Moment)
    requires Restorable(s)
    ensures Restorable(WriteStep(p, s, r, m).state)
  {}

  lemma RowCommandKeepsRestorable(p: Timing, s: State, r: Request, m: Moment)
    requires Restorable(s) && !r.op.IsColumn()
    ensures Restorable(IssueCommand(p, s, r, m).state)
  {}

  /** What the guard relies on holds at power-on and after every command and event, paused writes or not. */
  lemma EverythingKeepsRestorable(p: Timing, s: State, r: Request, m: Moment)
    requires Restorable(s)
    ensures Restorable(Initial()) && Restorable(IssueCommand(p, s, r, m).state)
    ensures Restorable(CompleteClosing(p, s, m.now)) && Restorable(CompleteWrite(s))
  {
    hide ReadStep, WriteStep;
    if r.op.IsRead() {
      ReadKeepsRestorable(p, s, r, m);
    } else if r.op.IsWrite() {
      WriteKeepsRestorable(p, s, r, m);
    } else {
      RowCommandKeepsRestorable(p, s, r, m);
    }
  }

  lemma ReadKeepsInv(p: Timing, s: State, r: Request, m: Moment)
    requires Inv(p, s, m.now) && r.op.IsRead() && IsIssuable(p, s, r, m.now)
    ensures Inv(p, ReadStep(p, s, r, m).state, m.now)
    ensures NotBefore(s.next, ReadStep(p, s, r, m).state.next)
  {}

  lemma WriteKeepsInv(p: Timing, s: State, r: Request, m: Moment)
    requires Inv(p, s, m.now) && r.op.IsWrite() && IsIssuable(p, s, r, m.now) && Sendable(p, r)
    ensures Inv(p, WriteStep(p, s, r, m).state, m.now)
    ensures NotBefore(s.next, WriteStep(p, s, r, m).state.next)
  {}

  lemma RowCommandKeepsInv(p: Timing, s: State, r: Request, m: Moment)
    requires Inv(p, s, m.now) && !r.op.IsColumn()
    ensures Inv(p, IssueCommand(p, s, r, m).state, m.now)
    ensures NotBefore(s.next, IssueCommand(p, s, r, m).state.next)
  {}

  /** A command keeps the invariant, and a completion event is never overwritten by another. */
  lemma IssueKeepsInv(p: Timing, s: State, r: Request, m: Moment)
    requires Inv(p, s, m.now) && Sendable(p, r)
    ensures Inv(p, IssueCommand(p, s, r, m).state, m.now)
    ensures NotBefore(s.next, IssueCommand(p, s, r, m).state.next)
    ensures IsIssuable(p, s, r, m.now) && !r.op.IsPower() ==> s.closing.NothingDue?
  {
    if !IsIssuable(p, s, r, m.now) {
    } else if r.op.IsRead() {
      ReadKeepsInv(p, s, r, m);
    } else if r.op.IsWrite() {
      WriteKeepsInv(p, s, r, m);
    } else {
      RowCommandKeepsInv(p, s, r, m);
    }
  }

  lemma CompleteKeepsInv(p: Timing, s: State, now: nat)
    requires Inv(p, s, now)
    ensures s.closing != NothingDue && s.closing.at == now ==> Inv(p, CompleteClosing(p, s, now), now)
    ensures s.writing.Writing? ==> Inv(p, CompleteWrite(s), now)
    ensures HoldsRow(CompleteClosing(p, s, now)) == HoldsRow(s)
    ensures CompleteClosing(p, s, now).next == CompleteWrite(s).next == s.next
  {}
}
