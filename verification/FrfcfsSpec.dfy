/**
  First-ready first-come-first-served scheduling: starved requests, then row buffer hits, then
  the oldest ready request, then requests to closed banks.
 */
module FrfcfsSpec {
  import opened Commands
  import opened Sequences
  import opened ControllerSpec
  import Channel
  import Wakeups

  /** The selector that schedules next from `q`. */
  ghost function Choice(cfg: Config, shadows: seq<Shadow>, now: nat, q: seq<Request>): Option<Selector> {
    if Found(cfg, shadows, now, Starved, q) then Some(Starved)
    else if Found(cfg, shadows, now, RowBufferHit, q) then Some(RowBufferHit)
    else if Found(cfg, shadows, now, OldestReady, q) then Some(OldestReady)
    else if Found(cfg, shadows, now, ClosedBank, q) then Some(ClosedBank)
    else None
  }

  /** The choice that a cycle event of this policy makes from queue `id`. */
  ghost function CycleChoice(cfg: Config, shadows: seq<Shadow>, now: nat, id: nat, q: seq<Request>, force: bool)
    : Option<Wakeups.Choice>
  {
    var sel := Choice(cfg, shadows, now, q);
    if sel.Some? then Some(Wakeups.Choice(id, sel.value, force)) else None
  }

  ghost predicate Found(cfg: Config, shadows: seq<Shadow>, now: nat, sel: Selector, q: seq<Request>) {
    FirstMatch(cfg, shadows, now, sel, q) < |q|
  }

  /** What a scheduling round takes out of a queue, and what it leaves. */
  datatype Selection = Selection(found: Option<Request>, rest: seq<Request>)

  ghost function Pick(cfg: Config, shadows: seq<Shadow>, now: nat, q: seq<Request>): Selection {
    match Choice(cfg, shadows, now, q)
    case None => Selection(None, q)
    case Some(sel) =>
      var i := FirstMatch(cfg, shadows, now, sel, q);
      Selection(Some(Taken(cfg, q, i)), Without(q, i))
  }

  /** `r` is a transaction whose bank has an empty command queue, so its expansion is not refused. */
  ghost predicate Ready(cfg: Config, shadows: seq<Shadow>, r: Request) {
    InRange(cfg, r) && (r.op.Read? || r.op.Write?) && IdOf(cfg, r) < |shadows| && shadows[IdOf(cfg, r)].queue == []
  }

  /** The transaction picked is one of the queue, it is ready, and the others keep their order. */
  lemma PickTakesOne(cfg: Config, shadows: seq<Shadow>, now: nat, q: seq<Request>) returns (i: nat)
    requires forall k | 0 <= k < |q| :: q[k].op.Read? || q[k].op.Write?
    ensures var out := Pick(cfg, shadows, now, q);
      if out.found.None? then
        out.rest == q && forall k | 0 <= k < |q| :: forall sel :: !Matches(cfg, shadows, now, sel, q[k])
      else
        && i < |q| && out.found == Some(Taken(cfg, q, i)) && out.rest == Without(q, i)
        && Ready(cfg, shadows, out.found.value)
  {
    var choice := Choice(cfg, shadows, now, q);
    i := 0;
    if choice.Some? {
      i := FirstMatch(cfg, shadows, now, choice.value, q);
    } else {
      forall k, sel | 0 <= k < |q| ensures !Matches(cfg, shadows, now, sel, q[k]) {
        assert !Found(cfg, shadows, now, sel, q);
      }
    }
  }

  // ---------------------------------------------------------------- priorities

  /** `r` may be scheduled: it came in an earlier cycle, and its bank is idle and not about to be refreshed. */
  ghost predicate Eligible(cfg: Config, shadows: seq<Shadow>, now: nat, r: Request) {
    && r.rank < cfg.ranks && r.bank < cfg.banks && r.subarray < cfg.subarrays && IdOf(cfg, r) < |shadows|
    && var sh := shadows[IdOf(cfg, r)];
    && |sh.active| == |sh.row| == |sh.mux| == |sh.starvation| == cfg.subarrays
    && sh.queue == [] && !sh.needRefresh && !sh.refreshQueued && r.arrival != now
  }

  /** The class of a transaction: starved conflicts, then row buffer hits, then open banks, then closed ones. */
  ghost function Class(cfg: Config, shadows: seq<Shadow>, now: nat, r: Request): nat
    requires Eligible(cfg, shadows, now, r)
  {
    var sh, x := shadows[IdOf(cfg, r)], r.subarray;
    if !sh.activateQueued then 3
    else if sh.active[x] && sh.row[x] == r.row && sh.mux[x] == r.col / cfg.rowBuffer then 1
    else if cfg.starvationThreshold <= sh.starvation[x] then 0
    else 2
  }

  /**
    What is picked, over the tables and the arrival cycles alone: the oldest transaction of the most urgent
    class of which one may be scheduled; nothing only if none may.
   */
  lemma PickIsOldestOfBestClass(cfg: Config, shadows: seq<Shadow>, now: nat, q: seq<Request>) returns (i: nat)
    ensures var out := Pick(cfg, shadows, now, q);
      if out.found.None? then
        out.rest == q && forall k | 0 <= k < |q| :: !Eligible(cfg, shadows, now, q[k])
      else
        && i < |q| && out.rest == q[..i] + q[i + 1..] && out.found.value.(last := q[i].last) == q[i]
        && Eligible(cfg, shadows, now, q[i])
        && (forall k | 0 <= k < |q| && Eligible(cfg, shadows, now, q[k]) ::
              Class(cfg, shadows, now, q[i]) <= Class(cfg, shadows, now, q[k]))
        && forall k | 0 <= k < i && Eligible(cfg, shadows, now, q[k]) ::
             Class(cfg, shadows, now, q[i]) < Class(cfg, shadows, now, q[k])
  {
    var choice := Choice(cfg, shadows, now, q);
    i := if choice.Some? then FirstMatch(cfg, shadows, now, choice.value, q) else 0;
    forall k | 0 <= k < |q| ensures MatchesByClass(cfg, shadows, now, q[k]) { ClassesMatch(cfg, shadows, now, q[k]); }
    hide Eligible, Class, Matches;
    forall k, sel | 0 <= k < |q| && Matches(cfg, shadows, now, sel, q[k]) ensures Found(cfg, shadows, now, sel, q) {}
  }

  /** The selectors that match a transaction, by its class; a starved one is also among those of an open bank. */
  ghost predicate MatchesByClass(cfg: Config, shadows: seq<Shadow>, now: nat, r: Request) {
    forall sel :: Matches(cfg, shadows, now, sel, r) <==>
      && Eligible(cfg, shadows, now, r)
      && var n := Class(cfg, shadows, now, r);
      match sel
      case Starved => n == 0
      case RowBufferHit => n == 1
      case OldestReady => n <= 2
      case ClosedBank => n == 3
  }

  lemma ClassesMatch(cfg: Config, shadows: seq<Shadow>, now: nat, r: Request)
    ensures MatchesByClass(cfg, shadows, now, r)
  {}

  // ---------------------------------------------------------------- bounded bypass

  /** Transaction `r` belongs to subarray `x` of queue `id`. */
  predicate To(cfg: Config, r: Request, id: nat, x: nat) { IdOf(cfg, r) == id && r.subarray == x }

  /** What step `step` schedules, if it schedules anything. */
  ghost function Scheduled(cfg: Config, s: Channel.State, step: Channel.Step): Option<Request> {
    if step.Schedule? && step.queue < |s.queues|
       && FirstMatch(cfg, s.shadows, s.now, step.sel, s.queues[step.queue]) < |s.queues[step.queue]| then
      Some(s.queues[step.queue][FirstMatch(cfg, s.shadows, s.now, step.sel, s.queues[step.queue])])
    else
      None
  }

  /** `step` schedules a row buffer hit of subarray `x` of queue `id`. */
  ghost predicate SchedulesHit(cfg: Config, s: Channel.State, step: Channel.Step, id: nat, x: nat) {
    match Scheduled(cfg, s, step)
    case None => false
    case Some(r) =>
      && To(cfg, r, id, x) && id < |s.shadows| && Sized(cfg, s.shadows[id]) && x < cfg.subarrays
      && Hits(cfg, s.shadows[id], r)
  }

  /** `step` schedules something else for subarray `x` of queue `id`. */
  ghost predicate SchedulesMiss(cfg: Config, s: Channel.State, step: Channel.Step, id: nat, x: nat) {
    match Scheduled(cfg, s, step)
    case None => false
    case Some(r) => To(cfg, r, id, x) && !SchedulesHit(cfg, s, step, id, x)
  }

  /** A request for subarray `x` of queue `id` that is no hit has waited in `q` since an earlier cycle. */
  ghost predicate ConflictWaits(cfg: Config, s: Channel.State, q: nat, id: nat, x: nat) {
    && q < |s.queues| && id < |s.shadows| && Sized(cfg, s.shadows[id])
    && exists i :: 0 <= i < |s.queues[q]| && Conflicts(cfg, s, s.queues[q][i], id, x)
  }

  ghost predicate Conflicts(cfg: Config, s: Channel.State, c: Request, id: nat, x: nat)
    requires id < |s.shadows| && Sized(cfg, s.shadows[id])
  {
    InRange(cfg, c) && To(cfg, c, id, x) && c.arrival != s.now && !Hits(cfg, s.shadows[id], c)
  }

  /** The scheduling steps of a run follow the policy on queue `q`. */
  ghost predicate FollowsPolicy(cfg: Config, s: Channel.State, step: Channel.Step, q: nat) {
    step.Schedule? ==> step.queue == q && q < |s.queues| && Choice(cfg, s.shadows, s.now, s.queues[q]) == Some(step.sel)
  }

  /** A waiting conflict lets a hit of its subarray through only below the starvation threshold. */
  lemma HitOnlyBelowThreshold(p: Timing, cfg: Config, s: Channel.State, step: Channel.Step, q: nat, id: nat, x: nat)
    requires Channel.Enabled(p, cfg, s, step) && FollowsPolicy(cfg, s, step, q)
    requires SchedulesHit(cfg, s, step, id, x) && ConflictWaits(cfg, s, q, id, x)
    ensures s.shadows[id].starvation[x] < cfg.starvationThreshold
  {
    var r := Scheduled(cfg, s, step).value;
    assert Matches(cfg, s.shadows, s.now, step.sel, r);
    var i :| 0 <= i < |s.queues[q]| && Conflicts(cfg, s, s.queues[q][i], id, x);
    var c := s.queues[q][i];
    assert s.shadows[id].starvation[x] >= cfg.starvationThreshold ==> Matches(cfg, s.shadows, s.now, Starved, c);
  }

  lemma ExpandCounts(cfg: Config, sh: Shadow, r: Request, writing: bool, x: nat)
    requires Sized(cfg, sh) && r.subarray < cfg.subarrays && x < cfg.subarrays
    ensures var sh' := Expand(cfg, sh, r, false, writing).shadow;
      && Sized(cfg, sh')
      && (r.subarray != x ==> sh'.starvation[x] == sh.starvation[x])
      && (Hits(cfg, sh, r) ==> sh'.starvation[r.subarray] == sh.starvation[r.subarray] + 1)
      && (sh.queue == [] && !Hits(cfg, sh, r) ==> sh'.starvation[r.subarray] == 0)
  {}

  /** Expanding `r` into its shadow counts it if it is a hit of subarray `x` of queue `id`, else it resets the count. */
  lemma PickCounts(cfg: Config, shadows: seq<Shadow>, r: Request, writing: bool, id: nat, x: nat)
    requires IdOf(cfg, r) < |shadows| && id < |shadows| && Sized(cfg, shadows[id]) && Sized(cfg, shadows[IdOf(cfg, r)])
    requires r.subarray < cfg.subarrays && x < cfg.subarrays && shadows[IdOf(cfg, r)].queue == []
    ensures var after := shadows[IdOf(cfg, r) := Expand(cfg, shadows[IdOf(cfg, r)], r, false, writing).shadow];
      && Sized(cfg, after[id])
      && after[id].starvation[x] ==
         if !To(cfg, r, id, x) then shadows[id].starvation[x]
         else if Hits(cfg, shadows[id], r) then shadows[id].starvation[x] + 1
         else 0
  {
    ExpandCounts(cfg, shadows[IdOf(cfg, r)], r, writing, x);
  }

  lemma ScheduleCounts(p: Timing, cfg: Config, s: Channel.State, step: Channel.Step, id: nat, x: nat)
    requires Channel.Inv(p, cfg, s) && Channel.Enabled(p, cfg, s, step) && step.Schedule?
    requires id < |s.shadows| && x < cfg.subarrays && Sized(cfg, s.shadows[id])
    ensures var s' := Channel.Apply(p, cfg, s, step);
      && id < |s'.shadows| && Sized(cfg, s'.shadows[id])
      && s'.shadows[id].starvation[x] ==
         if SchedulesHit(cfg, s, step, id, x) then s.shadows[id].starvation[x] + 1
         else if SchedulesMiss(cfg, s, step, id, x) then 0
         else s.shadows[id].starvation[x]
  {
    var r, writing := PickIs(p, cfg, s, step, id, x);
    PickCounts(cfg, s.shadows, r, writing, id, x);
  }

  lemma PickIs(p: Timing, cfg: Config, s: Channel.State, step: Channel.Step, id: nat, x: nat)
    returns (r: Request, writing: bool)
    requires Channel.Inv(p, cfg, s) && Channel.Enabled(p, cfg, s, step) && step.Schedule?
    requires id < |s.shadows| && x < cfg.subarrays && Sized(cfg, s.shadows[id])
    ensures IdOf(cfg, r) < |s.shadows| && Sized(cfg, s.shadows[IdOf(cfg, r)]) && r.subarray < cfg.subarrays
    ensures s.shadows[IdOf(cfg, r)].queue == []
    ensures SchedulesHit(cfg, s, step, id, x) <==> To(cfg, r, id, x) && Hits(cfg, s.shadows[id], r)
    ensures SchedulesMiss(cfg, s, step, id, x) <==> To(cfg, r, id, x) && !Hits(cfg, s.shadows[id], r)
    ensures Channel.Apply(p, cfg, s, step).shadows
      == s.shadows[IdOf(cfg, r) := Expand(cfg, s.shadows[IdOf(cfg, r)], r, false, writing).shadow]
  {
    var i, id';
    i, r, id', writing := Channel.ScheduleEffect(p, cfg, s, step);
    assert Scheduled(cfg, s, step) == Some(s.queues[step.queue][i]);
  }

  lemma OthersKeepStarvation(p: Timing, cfg: Config, s: Channel.State, step: Channel.Step, id: nat)
    requires Channel.Enabled(p, cfg, s, step) && !step.Schedule? && id < |s.shadows|
    ensures var s' := Channel.Apply(p, cfg, s, step);
      |s'.shadows| == |s.shadows| && s'.shadows[id].starvation == s.shadows[id].starvation
  {}

  /** The starvation counter counts the hits since the last other request of its subarray, which resets it. */
  lemma StarvationCounts(p: Timing, cfg: Config, s: Channel.State, step: Channel.Step, id: nat, x: nat)
    requires Channel.Inv(p, cfg, s) && Channel.Enabled(p, cfg, s, step)
    requires id < |s.shadows| && x < cfg.subarrays
    ensures Sized(cfg, s.shadows[id])
    ensures var s' := Channel.Apply(p, cfg, s, step);
      && id < |s'.shadows| && Sized(cfg, s'.shadows[id])
      && s'.shadows[id].starvation[x] ==
         if SchedulesHit(cfg, s, step, id, x) then s.shadows[id].starvation[x] + 1
         else if SchedulesMiss(cfg, s, step, id, x) then 0
         else s.shadows[id].starvation[x]
  {
    assert Channel.BankOk(p, cfg, id, s.shadows[id], s.devices[id], s);
    if step.Schedule? {
      ScheduleCounts(p, cfg, s, step, id, x);
    } else {
      OthersKeepStarvation(p, cfg, s, step, id);
      KeepsSized(p, cfg, s, step, id);
    }
  }

  lemma KeepsSized(p: Timing, cfg: Config, s: Channel.State, step: Channel.Step, id: nat)
    requires Channel.Inv(p, cfg, s) && Channel.Enabled(p, cfg, s, step) && id < |s.shadows|
    ensures var s' := Channel.Apply(p, cfg, s, step); id < |s'.shadows| && Sized(cfg, s'.shadows[id])
  {
    Channel.StepKeepsInv(p, cfg, s, step);
    var s' := Channel.Apply(p, cfg, s, step);
    assert Channel.BankOk(p, cfg, id, s'.shadows[id], s'.devices[id], s');
  }

  /** Hits of subarray `x` of queue `id` scheduled during a run. */
  ghost function HitsDuring(p: Timing, cfg: Config, s: Channel.State, steps: seq<Channel.Step>, id: nat, x: nat): nat
    decreases |steps|
  {
    if steps == [] || !Channel.Enabled(p, cfg, s, steps[0]) then 0
    else (if SchedulesHit(cfg, s, steps[0], id, x) then 1 else 0)
         + HitsDuring(p, cfg, Channel.Apply(p, cfg, s, steps[0]), steps[1..], id, x)
  }

  /** The run follows the policy, schedules nothing but hits for the subarray, and a conflict waits throughout. */
  ghost predicate BypassRun(p: Timing, cfg: Config, s: Channel.State, steps: seq<Channel.Step>, q: nat, id: nat, x: nat)
    decreases |steps|
  {
    steps != [] ==>
      && Channel.Enabled(p, cfg, s, steps[0]) && FollowsPolicy(cfg, s, steps[0], q)
      && !SchedulesMiss(cfg, s, steps[0], id, x)
      && (SchedulesHit(cfg, s, steps[0], id, x) ==> ConflictWaits(cfg, s, q, id, x))
      && BypassRun(p, cfg, Channel.Apply(p, cfg, s, steps[0]), steps[1..], q, id, x)
  }

  /**
    Bounded bypass. While a conflicting request waits, no more hits of its subarray are
    scheduled than the starvation threshold still allows, before a request that is no hit.
   */
  lemma {:induction false} BoundedBypass(p: Timing, cfg: Config, s: Channel.State, steps: seq<Channel.Step>,
                                         q: nat, id: nat, x: nat)
    requires Channel.Inv(p, cfg, s) && id < |s.shadows| && x < cfg.subarrays
    requires BypassRun(p, cfg, s, steps, q, id, x)
    ensures Sized(cfg, s.shadows[id])
    ensures HitsDuring(p, cfg, s, steps, id, x) == 0
      || s.shadows[id].starvation[x] + HitsDuring(p, cfg, s, steps, id, x) <= cfg.starvationThreshold
    decreases |steps|
  {
    assert Channel.BankOk(p, cfg, id, s.shadows[id], s.devices[id], s);
    if steps != [] {
      var s' := Channel.Apply(p, cfg, s, steps[0]);
      Channel.StepKeepsInv(p, cfg, s, steps[0]);
      StarvationCounts(p, cfg, s, steps[0], id, x);
      BoundedBypass(p, cfg, s', steps[1..], q, id, x);
      if SchedulesHit(cfg, s, steps[0], id, x) { HitOnlyBelowThreshold(p, cfg, s, steps[0], q, id, x); }
    }
  }
}
