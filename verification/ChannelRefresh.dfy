/**
  Refreshes over runs of the channel: how many of a bank group are queued and not yet sent, and
  the flag by which the controller remembers that one is queued.
 */
module ChannelRefresh {
  import opened Arithmetic
  import opened Commands
  import opened ControllerSpec
  import opened Channel

  // ---------------------------------------------------------------- groups

  /** The queues of a bank group: one for each of its banks, the first of them carrying the REFRESH. */
  ghost predicate GroupQueues(cfg: Config, shadows: seq<Shadow>, rank: nat, head: nat) {
    IsGroup(cfg, rank, head) && |shadows| == cfg.ranks * cfg.banks
  }

  lemma GroupHeadInRange(cfg: Config, shadows: seq<Shadow>, rank: nat, head: nat)
    requires GroupQueues(cfg, shadows, rank, head)
    ensures QueueId(cfg, rank, head) < |shadows| && InGroup(cfg, rank, head, QueueId(cfg, rank, head))
  {
    QueueIdInRange(cfg, rank, head);
  }

  lemma HeadOfBank(per: positive, head: nat, bank: nat)
    requires head % per == 0 && head <= bank < head + per
    ensures head == bank / per * per
  {
    DivModParts(head, per);
    DivUnique(bank, per, head / per);
  }

  /** A bank belongs to one group only. */
  lemma GroupsAreDisjoint(cfg: Config, rank: nat, head: nat, rank': nat, head': nat, k: nat)
    requires IsGroup(cfg, rank, head) && IsGroup(cfg, rank', head')
    requires InGroup(cfg, rank, head, k) && InGroup(cfg, rank', head', k)
    ensures rank == rank' && head == head'
  {
    hide QueueId;
    var bank: nat :| head <= bank < head + cfg.perRefresh && k == QueueId(cfg, rank, bank);
    var bank': nat :| head' <= bank' < head' + cfg.perRefresh && k == QueueId(cfg, rank', bank');
    QueueIdIsBijective(cfg, rank, bank, rank', bank');
    HeadOfBank(cfg.perRefresh, head, bank);
    HeadOfBank(cfg.perRefresh, head', bank);
  }

  // ---------------------------------------------------------------- outstanding refreshes

  function Refreshes(q: seq<Request>): nat {
    if q == [] then 0 else (if q[0].op.Refresh? then 1 else 0) + Refreshes(q[1..])
  }

  lemma {:induction false} RefreshesAppend(q: seq<Request>, r: seq<Request>)
    ensures Refreshes(q + r) == Refreshes(q) + Refreshes(r)
  {
    if q == [] {
      assert q + r == r;
    } else {
      assert (q + r)[1..] == q[1..] + r;
      RefreshesAppend(q[1..], r);
    }
  }

  lemma {:induction false} NoRefreshes(q: seq<Request>)
    requires forall i | 0 <= i < |q| :: !q[i].op.Refresh?
    ensures Refreshes(q) == 0
  {
    if q != [] { NoRefreshes(q[1..]); }
  }

  /** Refreshes of the group that are queued and not yet sent. */
  ghost function Outstanding(cfg: Config, shadows: seq<Shadow>, rank: nat, head: nat): nat
    requires GroupQueues(cfg, shadows, rank, head)
  {
    GroupHeadInRange(cfg, shadows, rank, head);
    Refreshes(Pending(shadows[QueueId(cfg, rank, head)].queue))
  }

  ghost predicate Flagged(cfg: Config, shadows: seq<Shadow>, rank: nat, head: nat)
    requires GroupQueues(cfg, shadows, rank, head)
  {
    GroupHeadInRange(cfg, shadows, rank, head);
    shadows[QueueId(cfg, rank, head)].refreshQueued
  }

  /** What the source asserts of every bank of the group when a REFRESH is sent. */
  ghost predicate AllFlagged(cfg: Config, shadows: seq<Shadow>, rank: nat, head: nat) {
    forall k | 0 <= k < |shadows| && InGroup(cfg, rank, head, k) :: shadows[k].refreshQueued
  }

  /** The flag is the same for every bank of the group, and only set while a refresh is outstanding. */
  ghost predicate FlagsOk(cfg: Config, shadows: seq<Shadow>, rank: nat, head: nat)
    requires GroupQueues(cfg, shadows, rank, head)
  {
    && (forall k | 0 <= k < |shadows| && InGroup(cfg, rank, head, k) ::
          shadows[k].refreshQueued == Flagged(cfg, shadows, rank, head))
    && (Flagged(cfg, shadows, rank, head) ==> 1 <= Outstanding(cfg, shadows, rank, head))
  }

  lemma FlaggedIsAll(cfg: Config, shadows: seq<Shadow>, rank: nat, head: nat)
    requires GroupQueues(cfg, shadows, rank, head) && FlagsOk(cfg, shadows, rank, head)
    ensures Flagged(cfg, shadows, rank, head) <==> AllFlagged(cfg, shadows, rank, head)
  {
    GroupHeadInRange(cfg, shadows, rank, head);
  }

  // ---------------------------------------------------------------- steps

  /** What a step means to a bank group. */
  datatype Move = Nothing | Queues | Sends

  ghost function MoveOf(s: State, step: Step, rank: nat, head: nat): Move {
    match step
    case RefreshGroup(r, h) => if r == rank && h == head then Queues else Nothing
    case IssueHead(id, _, _) =>
      if id < |s.shadows| && SendsRefresh(s.shadows[id].queue, rank, head) then Sends else Nothing
    case _ => Nothing
  }

  predicate SendsRefresh(q: seq<Request>, rank: nat, head: nat) {
    q != [] && q[0].op.Refresh? && q[0].rank == rank && q[0].bank == head
  }

  /** The count and the flag of the group after a step of kind `move`. */
  ghost predicate Moved(cfg: Config, before: seq<Shadow>, after: seq<Shadow>, rank: nat, head: nat, move: Move)
    requires GroupQueues(cfg, before, rank, head) && GroupQueues(cfg, after, rank, head)
  {
    var n, n' := Outstanding(cfg, before, rank, head), Outstanding(cfg, after, rank, head);
    match move
    case Nothing => n' == n && (Flagged(cfg, after, rank, head) <==> Flagged(cfg, before, rank, head))
    case Queues => n' == n + 1 && Flagged(cfg, after, rank, head)
    case Sends => 1 <= n && n' == n - 1 && !Flagged(cfg, after, rank, head)
  }

  /** A step that keeps every pending queue and every flag of the group does not move it. */
  lemma SameDoesNotMove(cfg: Config, before: seq<Shadow>, after: seq<Shadow>, rank: nat, head: nat)
    requires GroupQueues(cfg, before, rank, head) && |after| == |before| && FlagsOk(cfg, before, rank, head)
    requires forall k | 0 <= k < |before| :: after[k].refreshQueued == before[k].refreshQueued
    requires forall k | 0 <= k < |before| :: Refreshes(Pending(after[k].queue)) == Refreshes(Pending(before[k].queue))
    ensures Moved(cfg, before, after, rank, head, Nothing) && FlagsOk(cfg, after, rank, head)
  {
    GroupHeadInRange(cfg, before, rank, head);
  }

  lemma ScheduleMoves(p: Timing, cfg: Config, s: State, step: Step, rank: nat, head: nat)
    requires Inv(p, cfg, s) && Enabled(p, cfg, s, step) && step.Schedule?
    requires GroupQueues(cfg, s.shadows, rank, head) && FlagsOk(cfg, s.shadows, rank, head)
    ensures var after := Apply(p, cfg, s, step).shadows;
      && GroupQueues(cfg, after, rank, head) && FlagsOk(cfg, after, rank, head)
      && Moved(cfg, s.shadows, after, rank, head, Nothing)
  {
    var i, r, id, writing := ScheduleEffect(p, cfg, s, step);
    ExpandKeepsFlag(cfg, s.shadows[id], r, writing, id);
    var after := s.shadows[id := Expand(cfg, s.shadows[id], r, false, writing).shadow];
    SameDoesNotMove(cfg, s.shadows, after, rank, head);
  }

  lemma ExpandKeepsFlag(cfg: Config, sh: Shadow, r: Request, writing: bool, id: nat)
    requires Sized(cfg, sh) && InRange(cfg, r) && id == IdOf(cfg, r) && sh.queue == []
    requires (r.op.Read? || r.op.Write?) && !r.issued
    ensures var sh' := Expand(cfg, sh, r, false, writing).shadow;
      sh'.refreshQueued == sh.refreshQueued && Refreshes(Pending(sh'.queue)) == 0 == Refreshes(Pending(sh.queue))
  {
    ExpandRoutesToBank(cfg, sh, r, writing, id);
    NoRefreshes(Expand(cfg, sh, r, false, writing).shadow.queue);
  }

  lemma QueueMoves(cfg: Config, before: seq<Shadow>, after: seq<Shadow>, r: nat, h: nat, rank: nat, head: nat)
    requires GroupQueues(cfg, before, rank, head) && FlagsOk(cfg, before, rank, head) && IsGroup(cfg, r, h)
    requires |after| == |before|
    requires forall k | 0 <= k < |before| ::
      after[k] == (if InGroup(cfg, r, h, k) then
                     QueueRefresh(cfg, before[k], r, BankOf(cfg, k), k == QueueId(cfg, r, h))
                   else before[k])
    ensures FlagsOk(cfg, after, rank, head)
    ensures Moved(cfg, before, after, rank, head, if r == rank && h == head then Queues else Nothing)
  {
    var id := QueueId(cfg, rank, head);
    GroupHeadInRange(cfg, before, rank, head);
    if r == rank && h == head {
      QueueRefreshCounts(cfg, before[id], rank, BankOf(cfg, id));
    } else {
      forall k | 0 <= k < |before| && InGroup(cfg, rank, head, k) ensures after[k] == before[k] {
        if InGroup(cfg, r, h, k) { GroupsAreDisjoint(cfg, r, h, rank, head, k); }
      }
    }
  }

  /** The group head gets exactly one REFRESH. */
  lemma QueueRefreshCounts(cfg: Config, sh: Shadow, rank: nat, bank: nat)
    ensures Refreshes(Pending(QueueRefresh(cfg, sh, rank, bank, true).queue)) == Refreshes(Pending(sh.queue)) + 1
  {
    var refresh := MakeCommand(Op.Refresh, 0, bank, rank, 0);
    var close := if sh.activateQueued then [MakeCommand(Op.PrechargeAll, 0, bank, rank, 0)] else [];
    assert QueueRefresh(cfg, sh, rank, bank, true).queue == sh.queue + (close + [refresh]);
    hide QueueRefresh, Pending;
    PendingAppend(sh.queue, close + [refresh]);
    RefreshesAppend(Pending(sh.queue), close + [refresh]);
    RefreshesAppend(close, [refresh]);
    NoRefreshes(close);
    assert [refresh][1..] == [];
  }

  lemma PendingAppend(q: seq<Request>, added: seq<Request>)
    requires added != [] && !added[0].issued
    ensures Pending(q + added) == Pending(q) + added
  {}

  lemma SendMoves(p: Timing, cfg: Config, s: State, step: Step, rank: nat, head: nat)
    requires Inv(p, cfg, s) && Enabled(p, cfg, s, step) && step.IssueHead?
    requires GroupQueues(cfg, s.shadows, rank, head) && FlagsOk(cfg, s.shadows, rank, head)
    ensures var after := Apply(p, cfg, s, step).shadows;
      && GroupQueues(cfg, after, rank, head) && FlagsOk(cfg, after, rank, head)
      && Moved(cfg, s.shadows, after, rank, head, MoveOf(s, step, rank, head))
  {
    hide Inv, Apply, Issuable, DeviceAfter, ShadowAfter, CommandOk, FlagsOk, Moved, Reaches, Outstanding, Flagged;
    var r, m := IssueEffect(p, cfg, s, step);
    SentMoves(cfg, p, s.shadows, Apply(p, cfg, s, step).shadows, step.id, r, rank, head);
  }

  lemma SentMoves(cfg: Config, p: Timing, before: seq<Shadow>, after: seq<Shadow>, id: nat, r: Request, rank: nat,
                  head: nat)
    requires GroupQueues(cfg, before, rank, head) && FlagsOk(cfg, before, rank, head)
    requires id < |before| && before[id].queue != [] && r == before[id].queue[0] && CommandOk(p, cfg, id, r)
    requires !r.issued
    requires |after| == |before| && forall k | 0 <= k < |before| :: after[k] == ShadowAfter(cfg, before, id, r, k)
    ensures FlagsOk(cfg, after, rank, head)
    ensures Moved(cfg, before, after, rank, head, if SendsRefresh(before[id].queue, rank, head) then Sends else Nothing)
  {
    var q, g := before[id].queue, QueueId(cfg, rank, head);
    GroupHeadInRange(cfg, before, rank, head);
    assert Pending(MarkIssued(q)) == q[1..] && Pending(q) == q;
    if r.op.Refresh? {
      QueueIdIsBijective(cfg, r.rank, r.bank, rank, head);
      if SendsRefresh(q, rank, head) {
        assert forall k | 0 <= k < |after| && InGroup(cfg, rank, head, k) :: !after[k].refreshQueued;
      } else {
        forall k | 0 <= k < |before| && InGroup(cfg, rank, head, k)
          ensures after[k].refreshQueued == before[k].refreshQueued {
          if InGroup(cfg, r.rank, r.bank, k) { GroupsAreDisjoint(cfg, r.rank, r.bank, rank, head, k); }
        }
      }
    }
  }

  lemma CleanupMoves(p: Timing, cfg: Config, s: State, step: Step, rank: nat, head: nat)
    requires Inv(p, cfg, s) && Enabled(p, cfg, s, step) && step.Cleanup?
    requires GroupQueues(cfg, s.shadows, rank, head) && FlagsOk(cfg, s.shadows, rank, head)
    ensures var after := Apply(p, cfg, s, step).shadows;
      && GroupQueues(cfg, after, rank, head) && FlagsOk(cfg, after, rank, head)
      && Moved(cfg, s.shadows, after, rank, head, Nothing)
  {
    var after := Apply(p, cfg, s, step).shadows;
    forall k | 0 <= k < |after| ensures Pending(after[k].queue) == Pending(s.shadows[k].queue) {
      assert BankOk(p, cfg, k, s.shadows[k], s.devices[k], s);
    }
    SameDoesNotMove(cfg, s.shadows, after, rank, head);
  }

  /** Every step moves every group as MoveOf says. */
  lemma StepMoves(p: Timing, cfg: Config, s: State, step: Step, rank: nat, head: nat)
    requires Inv(p, cfg, s) && Enabled(p, cfg, s, step)
    requires GroupQueues(cfg, s.shadows, rank, head) && FlagsOk(cfg, s.shadows, rank, head)
    ensures var after := Apply(p, cfg, s, step).shadows;
      && GroupQueues(cfg, after, rank, head) && FlagsOk(cfg, after, rank, head)
      && Moved(cfg, s.shadows, after, rank, head, MoveOf(s, step, rank, head))
  {
    hide Inv, FlagsOk, Moved;
    match step
    case Schedule(_, _, _) => ScheduleMoves(p, cfg, s, step, rank, head);
    case IssueHead(_, _, _) => SendMoves(p, cfg, s, step, rank, head);
    case Cleanup => CleanupMoves(p, cfg, s, step, rank, head);
    case RefreshGroup(r, h) => QueueMoves(cfg, s.shadows, Apply(p, cfg, s, step).shadows, r, h, rank, head);
    case _ => SameDoesNotMove(cfg, s.shadows, Apply(p, cfg, s, step).shadows, rank, head);
  }

  // ---------------------------------------------------------------- the assertion over runs

  /** Whenever a REFRESH of the group is sent, the source's assertion holds: all its banks are flagged. */
  ghost predicate SendsFindFlag(p: Timing, cfg: Config, s: State, steps: seq<Step>, rank: nat, head: nat)
    decreases |steps|
  {
    steps != [] && Enabled(p, cfg, s, steps[0]) ==>
      && (MoveOf(s, steps[0], rank, head).Sends? ==> AllFlagged(cfg, s.shadows, rank, head))
      && SendsFindFlag(p, cfg, Apply(p, cfg, s, steps[0]), steps[1..], rank, head)
  }

  /** Whenever a refresh is queued for the group, its banks are not flagged. */
  ghost predicate QueuesUnflagged(p: Timing, cfg: Config, s: State, steps: seq<Step>, rank: nat, head: nat)
    decreases |steps|
  {
    steps != [] && Enabled(p, cfg, s, steps[0]) ==>
      && (MoveOf(s, steps[0], rank, head).Queues? ==> !AllFlagged(cfg, s.shadows, rank, head))
      && QueuesUnflagged(p, cfg, Apply(p, cfg, s, steps[0]), steps[1..], rank, head)
  }

  /** Queueing only when the group is not flagged keeps at most one refresh outstanding. */
  lemma {:induction false} UnflaggedKeepsOne(p: Timing, cfg: Config, s: State, steps: seq<Step>, rank: nat, head: nat)
    requires Inv(p, cfg, s) && Execute(p, cfg, s, steps).Some?
    requires GroupQueues(cfg, s.shadows, rank, head) && FlagsOk(cfg, s.shadows, rank, head)
    requires Outstanding(cfg, s.shadows, rank, head) == if Flagged(cfg, s.shadows, rank, head) then 1 else 0
    requires QueuesUnflagged(p, cfg, s, steps, rank, head)
    ensures SendsFindFlag(p, cfg, s, steps, rank, head)
    ensures var s' := Execute(p, cfg, s, steps).value;
      && GroupQueues(cfg, s'.shadows, rank, head) && FlagsOk(cfg, s'.shadows, rank, head)
      && Outstanding(cfg, s'.shadows, rank, head) == if Flagged(cfg, s'.shadows, rank, head) then 1 else 0
    decreases |steps|
  {
    hide Inv, Enabled, Apply, FlagsOk, AllFlagged, GroupQueues, MoveOf, Outstanding, Flagged;
    if steps != [] {
      StepKeepsInv(p, cfg, s, steps[0]);
      StepMoves(p, cfg, s, steps[0], rank, head);
      FlaggedIsAll(cfg, s.shadows, rank, head);
      UnflaggedKeepsOne(p, cfg, Apply(p, cfg, s, steps[0]), steps[1..], rank, head);
    }
  }

  /** As long as every send finds the flag, the number outstanding never again drops by more than one. */
  lemma {:induction false} NeverDropsByTwo(p: Timing, cfg: Config, s: State, steps: seq<Step>, rank: nat, head: nat)
    requires Inv(p, cfg, s) && Execute(p, cfg, s, steps).Some?
    requires GroupQueues(cfg, s.shadows, rank, head) && FlagsOk(cfg, s.shadows, rank, head)
    requires SendsFindFlag(p, cfg, s, steps, rank, head)
    ensures var s' := Execute(p, cfg, s, steps).value;
      && GroupQueues(cfg, s'.shadows, rank, head)
      && Outstanding(cfg, s.shadows, rank, head)
         <= Outstanding(cfg, s'.shadows, rank, head) + (if Flagged(cfg, s.shadows, rank, head) then 1 else 0)
      && (!QueuesUnflagged(p, cfg, s, steps, rank, head) ==> 1 <= Outstanding(cfg, s'.shadows, rank, head))
    decreases |steps|
  {
    hide Inv, Enabled, Apply, AllFlagged, GroupQueues, MoveOf, Outstanding, Flagged;
    if steps != [] {
      var s1 := Apply(p, cfg, s, steps[0]);
      StepKeepsInv(p, cfg, s, steps[0]);
      StepMoves(p, cfg, s, steps[0], rank, head);
      FlaggedIsAll(cfg, s.shadows, rank, head);
      NeverDropsByTwo(p, cfg, s1, steps[1..], rank, head);
      assert Moved(cfg, s.shadows, s1.shadows, rank, head, MoveOf(s, steps[0], rank, head));
      if MoveOf(s, steps[0], rank, head).Queues? && AllFlagged(cfg, s.shadows, rank, head) {
        assert 2 <= Outstanding(cfg, s1.shadows, rank, head);
      }
    }
  }

  lemma InitiallyNone(p: Timing, cfg: Config, queues: nat, rank: nat, head: nat)
    requires IsGroup(cfg, rank, head)
    ensures var s := Initial(cfg, queues);
      && GroupQueues(cfg, s.shadows, rank, head) && FlagsOk(cfg, s.shadows, rank, head)
      && !Flagged(cfg, s.shadows, rank, head) && Outstanding(cfg, s.shadows, rank, head) == 0
  {
    GroupHeadInRange(cfg, Initial(cfg, queues).shadows, rank, head);
  }

  /**
    The assertion on sending a REFRESH. If refreshes of a group are only queued while the group
    is not flagged, every REFRESH that is sent finds the flag set in all banks of the group, and
    no more than one is ever outstanding.
   */
  lemma UnflaggedQueueingSuffices(p: Timing, cfg: Config, queues: nat, steps: seq<Step>, s: State, rank: nat, head: nat)
    requires Reached(p, cfg, queues, steps, s) && IsGroup(cfg, rank, head)
    requires QueuesUnflagged(p, cfg, Initial(cfg, queues), steps, rank, head)
    ensures SendsFindFlag(p, cfg, Initial(cfg, queues), steps, rank, head)
    ensures GroupQueues(cfg, s.shadows, rank, head)
    ensures Outstanding(cfg, s.shadows, rank, head) == if AllFlagged(cfg, s.shadows, rank, head) then 1 else 0
  {
    InitialInv(p, cfg, queues);
    InitiallyNone(p, cfg, queues, rank, head);
    UnflaggedKeepsOne(p, cfg, Initial(cfg, queues), steps, rank, head);
    FlaggedIsAll(cfg, s.shadows, rank, head);
  }

  /**
    Over any run of the channel after which no refresh of the group is outstanding, the assertion
    held at every send if and only if no refresh was queued while the group was flagged.
   */
  lemma AssertionHoldsIff(p: Timing, cfg: Config, queues: nat, steps: seq<Step>, s: State, rank: nat, head: nat)
    requires Reached(p, cfg, queues, steps, s) && IsGroup(cfg, rank, head)
    requires GroupQueues(cfg, s.shadows, rank, head) ==> Outstanding(cfg, s.shadows, rank, head) == 0
    ensures SendsFindFlag(p, cfg, Initial(cfg, queues), steps, rank, head)
      <==> QueuesUnflagged(p, cfg, Initial(cfg, queues), steps, rank, head)
  {
    var s0 := Initial(cfg, queues);
    InitialInv(p, cfg, queues);
    InitiallyNone(p, cfg, queues, rank, head);
    if SendsFindFlag(p, cfg, s0, steps, rank, head) {
      NeverDropsByTwo(p, cfg, s0, steps, rank, head);
    }
    if QueuesUnflagged(p, cfg, s0, steps, rank, head) {
      UnflaggedKeepsOne(p, cfg, s0, steps, rank, head);
    }
  }
}
