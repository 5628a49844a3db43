/**
  One channel: transaction queues, the controller's shadow of every bank, and the banks
  themselves. A run interleaves the controller's actions with completion events and time.
 */
module Channel {
  import opened Arithmetic
  import opened Commands
  import opened Sequences
  import opened ControllerSpec
  import Bank = BankSpec
  import Sub = SubArraySpec
  import BankRuns
  import Replay

  datatype Sent = Sent(at: nat, r: Request)

  datatype State = State(
    queues: seq<seq<Request>>, shadows: seq<Shadow>, devices: seq<Bank.State>,
    now: nat, lastIssue: nat, cleanupAt: Option<nat>,
    accepted: multiset<nat>, sent: seq<Sent>)

  datatype Step =
    | Accept(queue: nat, r: Request)                 // the host hands over a transaction
    | Schedule(queue: nat, sel: Selector, force: bool) // a selector picks one and it is expanded
    | IssueHead(id: nat, latency: nat, bounce: Bounce) // the head of a command queue is sent
    | Cleanup                                        // heads already sent are dropped
    | MarkRefresh(rank: nat, head: nat, need: bool)  // a bank group needs a refresh, or no longer does
    | RefreshGroup(rank: nat, head: nat)             // refresh commands are queued for a bank group
    | Event(id: nat, e: BankRuns.Step)               // a completion event of one bank
    | Advance(to: nat)

  // ---------------------------------------------------------------- routing

  lemma QueueIdInRange(cfg: Config, rank: nat, bank: nat)
    requires rank < cfg.ranks && bank < cfg.banks
    ensures QueueId(cfg, rank, bank) < cfg.ranks * cfg.banks
  {
    if cfg.rankFirst {
      MulMonotone(cfg.ranks, bank + 1, cfg.banks);
    } else {
      MulMonotone(cfg.banks, rank + 1, cfg.ranks);
    }
  }

  /** Every bank has its own command queue, and the queue number stays below the queue count. */
  lemma QueueIdIsBijective(cfg: Config, rank: nat, bank: nat, rank': nat, bank': nat)
    requires rank < cfg.ranks && bank < cfg.banks && rank' < cfg.ranks && bank' < cfg.banks
    ensures QueueId(cfg, rank, bank) < cfg.ranks * cfg.banks
    ensures QueueId(cfg, rank, bank) == QueueId(cfg, rank', bank') <==> rank == rank' && bank == bank'
  {
    QueueIdInRange(cfg, rank, bank);
    if QueueId(cfg, rank, bank) == QueueId(cfg, rank', bank') {
      if cfg.rankFirst {
        MixedRadixIsInjective(cfg.ranks, bank, rank, bank', rank');
      } else {
        MixedRadixIsInjective(cfg.banks, rank, bank, rank', bank');
      }
    }
  }

  /** Scheme 1 numbers the queues bank by bank, scheme 2 rank by rank: the round robin goes in this order. */
  lemma QueueIdOrder(cfg: Config, rank: nat, bank: nat, rank': nat, bank': nat)
    requires rank < cfg.ranks && bank < cfg.banks && rank' < cfg.ranks && bank' < cfg.banks
    ensures QueueId(cfg, rank, bank) < QueueId(cfg, rank', bank') <==>
      if cfg.rankFirst then bank < bank' || (bank == bank' && rank < rank')
      else rank < rank' || (rank == rank' && bank < bank')
  {
    if cfg.rankFirst {
      MixedRadixOrder(cfg.ranks, bank, rank, bank', rank');
    } else {
      MixedRadixOrder(cfg.banks, rank, bank, rank', bank');
    }
  }

  lemma QueueIdIsOnto(cfg: Config, k: nat) returns (rank: nat, bank: nat)
    requires k < cfg.ranks * cfg.banks
    ensures rank < cfg.ranks && bank < cfg.banks && QueueId(cfg, rank, bank) == k
  {
    if cfg.rankFirst {
      rank, bank := k % cfg.ranks, k / cfg.ranks;
      if bank >= cfg.banks { MulMonotone(cfg.ranks, cfg.banks, bank); }
    } else {
      rank, bank := k / cfg.banks, k % cfg.banks;
      if rank >= cfg.ranks { MulMonotone(cfg.banks, cfg.ranks, rank); }
    }
  }

  lemma BankOfQueueId(cfg: Config, rank: nat, bank: nat)
    requires rank < cfg.ranks && bank < cfg.banks
    ensures BankOf(cfg, QueueId(cfg, rank, bank)) == bank
  {
    if cfg.rankFirst { DivModOfRadix(cfg.ranks, bank, rank); } else { DivModOfRadix(cfg.banks, rank, bank); }
  }

  lemma BankOfGroup(cfg: Config, rank: nat, head: nat, id: nat)
    requires rank < cfg.ranks && head + cfg.perRefresh <= cfg.banks && InGroup(cfg, rank, head, id)
    ensures head <= BankOf(cfg, id) < head + cfg.perRefresh && id == QueueId(cfg, rank, BankOf(cfg, id))
    ensures id == QueueId(cfg, rank, head) ==> BankOf(cfg, id) == head
  {
    var bank: nat :| head <= bank < head + cfg.perRefresh && id == QueueId(cfg, rank, bank);
    BankOfQueueId(cfg, rank, bank);
    BankOfQueueId(cfg, rank, head);
  }

  /** Queue `id` belongs to one of the `n` banks of `rank` that start at `head`. */
  ghost predicate InFirst(cfg: Config, rank: nat, head: nat, n: nat, id: nat) {
    exists bank: nat :: head <= bank < head + n && id == QueueId(cfg, rank, bank)
  }

  /** Queue `id` belongs to the refresh group that starts at `head`. */
  ghost predicate InGroup(cfg: Config, rank: nat, head: nat, id: nat) {
    InFirst(cfg, rank, head, cfg.perRefresh, id)
  }

  /** A refresh group begins at bank `head` of `rank`. */
  ghost predicate IsGroup(cfg: Config, rank: nat, head: nat) {
    rank < cfg.ranks && head + cfg.perRefresh <= cfg.banks && head % cfg.perRefresh == 0
  }

  lemma InFirstGrows(cfg: Config, rank: nat, head: nat, n: nat)
    ensures forall k: nat ::
      InFirst(cfg, rank, head, n + 1, k) <==> InFirst(cfg, rank, head, n, k) || k == QueueId(cfg, rank, head + n)
  {
    forall k: nat
      ensures InFirst(cfg, rank, head, n + 1, k)
        <==> InFirst(cfg, rank, head, n, k) || k == QueueId(cfg, rank, head + n) {
      if InFirst(cfg, rank, head, n + 1, k) {
        var bank: nat :| head <= bank < head + n + 1 && k == QueueId(cfg, rank, bank);
        assert bank < head + n || bank == head + n;
      }
    }
  }

  /** The banks that `r` reaches: its own, or the whole group for a refresh. */
  ghost predicate Reaches(cfg: Config, r: Request, id: nat) {
    if r.op.Refresh? then InGroup(cfg, r.rank, r.bank, id) else id == IdOf(cfg, r)
  }

  // ---------------------------------------------------------------- steps

  /** The transaction that is scheduled, with the flags it is scheduled with. */
  function Picked(cfg: Config, force: bool, q: seq<Request>, i: nat): Request
    requires i < |q|
  {
    Taken(cfg, q, i).(forced := q[i].forced || force)
  }

  ghost predicate Enabled(p: Timing, cfg: Config, s: State, step: Step) {
    && (s.cleanupAt == Some(s.now) ==> step.Cleanup?)
    && match step
       case Accept(q, r) =>
         && q < |s.queues| && InRange(cfg, r) && (r.op.Read? || r.op.Write?)
         && !r.issued && !r.last && r.id !in s.accepted
       case Schedule(q, sel, force) =>
         && q < |s.queues|
         && var i := FirstMatch(cfg, s.shadows, s.now, sel, s.queues[q]);
         && i < |s.queues[q]|
         && (p.pausing && s.queues[q][i].op.Write? ==> force)
       case IssueHead(id, _, _) =>
         && id < |s.shadows| && s.shadows[id].queue != [] && s.now != s.lastIssue
         && Issuable(p, cfg, s.devices, s.shadows[id].queue[0], s.now)
       case Cleanup => s.cleanupAt == Some(s.now)
       case MarkRefresh(rank, head, _) => IsGroup(cfg, rank, head)
       case RefreshGroup(rank, head) => IsGroup(cfg, rank, head)
       case Event(id, e) =>
         && id < |s.devices| && e.IsQuiet() && !e.Advance?
         && BankRuns.Enabled(p, BankRuns.Config(s.devices[id], s.now, []), e)
       case Advance(to) =>
         && s.now < to && (s.cleanupAt.Some? ==> to <= s.cleanupAt.value)
         && forall k | 0 <= k < |s.devices| ::
              BankRuns.Enabled(p, BankRuns.Config(s.devices[k], s.now, []), BankRuns.Advance(to))
  }

  /** Every bank that `r` reaches accepts it. */
  ghost predicate Issuable(p: Timing, cfg: Config, devices: seq<Bank.State>, r: Request, now: nat) {
    forall k | 0 <= k < |devices| && Reaches(cfg, r, k) ::
      Bank.Routed(devices[k], r) && Bank.IsIssuable(p, devices[k], r, now)
  }

  ghost predicate ServedFromCache(p: Timing, s: State, id: nat, r: Request) {
    && id < |s.devices| && Bank.Routed(s.devices[id], r)
    && Bank.IsIssuable(p, s.devices[id], MakeCached(r), s.now)
  }

  ghost predicate IsProgramming(s: State, id: nat, x: nat) {
    id < |s.devices| && x < |s.devices[id].subs| && s.devices[id].subs[x].writing.Writing?
  }

  /** Bank `k` after `r` was sent. */
  ghost function DeviceAfter(p: Timing, cfg: Config, devices: seq<Bank.State>, r: Request, m: Moment,
                             k: nat): Bank.State
    requires k < |devices| && (Reaches(cfg, r, k) ==> Bank.Routed(devices[k], r))
  {
    if Reaches(cfg, r, k) then Bank.IssueCommand(p, devices[k], r, m).state else devices[k]
  }

  /** Shadow `k` after `r`, the head of queue `id`, was sent. */
  ghost function ShadowAfter(cfg: Config, shadows: seq<Shadow>, id: nat, r: Request, k: nat): Shadow
    requires id < |shadows| && shadows[id].queue != [] && k < |shadows|
  {
    var marked := if k == id then shadows[k].(queue := MarkIssued(shadows[k].queue)) else shadows[k];
    if r.op.Refresh? && Reaches(cfg, r, k) then marked.(refreshQueued := false) else marked
  }

  ghost function Apply(p: Timing, cfg: Config, s: State, step: Step): State
    requires Enabled(p, cfg, s, step)
  {
    match step
    case Accept(q, r) =>
      s.(queues := s.queues[q := s.queues[q] + [r.(arrival := s.now)]], accepted := s.accepted + multiset{r.id})
    case Schedule(q, sel, force) =>
      var i := FirstMatch(cfg, s.shadows, s.now, sel, s.queues[q]);
      var r := Picked(cfg, force, s.queues[q], i);
      var id := IdOf(cfg, r);
      var cached := ServedFromCache(p, s, id, r);
      var writing := IsProgramming(s, id, r.subarray);
      s.(queues := s.queues[q := Without(s.queues[q], i)],
         shadows := s.shadows[id := Expand(cfg, s.shadows[id], r, cached, writing).shadow])
    case IssueHead(id, latency, bounce) =>
      var r := s.shadows[id].queue[0];
      var m := Moment(s.now, latency, bounce);
      s.(devices := seq(|s.devices|, k requires 0 <= k < |s.devices| => DeviceAfter(p, cfg, s.devices, r, m, k)),
         shadows := seq(|s.shadows|, k requires 0 <= k < |s.shadows| => ShadowAfter(cfg, s.shadows, id, r, k)),
         lastIssue := s.now, cleanupAt := Some(s.now + 1), sent := s.sent + [Sent(s.now, r)])
    case Cleanup =>
      s.(shadows := seq(|s.shadows|, k requires 0 <= k < |s.shadows| =>
           s.shadows[k].(queue := Pending(s.shadows[k].queue))),
         cleanupAt := None)
    case MarkRefresh(rank, head, need) =>
      s.(shadows := seq(|s.shadows|, k requires 0 <= k < |s.shadows| =>
           if InGroup(cfg, rank, head, k) then s.shadows[k].(needRefresh := need) else s.shadows[k]))
    case RefreshGroup(rank, head) =>
      s.(shadows := seq(|s.shadows|, k requires 0 <= k < |s.shadows| =>
           if InGroup(cfg, rank, head, k) then
             QueueRefresh(cfg, s.shadows[k], rank, BankOf(cfg, k), k == QueueId(cfg, rank, head))
           else s.shadows[k]))
    case Event(id, e) =>
      s.(devices := s.devices[id := BankRuns.Apply(p, BankRuns.Config(s.devices[id], s.now, []), e).bank])
    case Advance(to) => s.(now := to)
  }

  // ---------------------------------------------------------------- conservation

  /** The transactions in `q`; commands made by the controller are not transactions. */
  function Ids(q: seq<Request>): multiset<nat> {
    if q == [] then multiset{}
    else (if q[0].op.IsColumn() then multiset{q[0].id} else multiset{}) + Ids(q[1..])
  }

  function AllIds(qs: seq<seq<Request>>): multiset<nat> {
    if qs == [] then multiset{} else Ids(qs[0]) + AllIds(qs[1..])
  }

  function SentIds(log: seq<Sent>): multiset<nat> {
    Ids(seq(|log|, i requires 0 <= i < |log| => log[i].r))
  }

  function Pendings(shadows: seq<Shadow>): seq<seq<Request>> {
    seq(|shadows|, k requires 0 <= k < |shadows| => Pending(shadows[k].queue))
  }

  /** Every accepted transaction is in exactly one place: waiting, queued as a command, or sent. */
  ghost predicate Conserved(s: State) {
    && AllIds(s.queues) + AllIds(Pendings(s.shadows)) + SentIds(s.sent) == s.accepted
    && forall id :: s.accepted[id] <= 1
  }

  // ---------------------------------------------------------------- invariant

  ghost predicate TransactionOk(cfg: Config, r: Request) {
    InRange(cfg, r) && (r.op.Read? || r.op.Write?) && !r.issued && !r.last
  }

  ghost predicate CommandOk(p: Timing, cfg: Config, k: nat, r: Request) {
    && InRange(cfg, r) && IdOf(cfg, r) == k && r.op.IsArray() && Sub.Sendable(p, r)
    && (r.op.Refresh? ==> IsGroup(cfg, r.rank, r.bank) && r.subarray == 0)
  }

  /** Bank `k` with its shadow: the device invariant, and an exact prediction. */
  ghost predicate BankOk(p: Timing, cfg: Config, k: nat, sh: Shadow, b: Bank.State, s: State) {
    && Bank.Inv(p, b, s.now)
    && |b.subs| == cfg.subarrays
    && (b.mode.Open? || b.mode.Closed?)
    && Predicts(cfg, sh, Replay.ViewOf(b))
    && ClosePageHolds(cfg, sh)
    && (sh.refreshQueued ==> !sh.activateQueued)
    && (forall i | 0 <= i < |sh.queue| :: CommandOk(p, cfg, k, sh.queue[i]))
    && (sh.queue != [] && sh.queue[0].issued ==>
          s.cleanupAt == Some(s.lastIssue + 1) && s.now <= s.lastIssue + 1)
  }

  ghost predicate BanksOk(p: Timing, cfg: Config, s: State) {
    && |s.shadows| == |s.devices| == cfg.ranks * cfg.banks
    && forall k | 0 <= k < |s.shadows| :: BankOk(p, cfg, k, s.shadows[k], s.devices[k], s)
  }

  ghost predicate TransactionsOk(cfg: Config, s: State) {
    forall q | 0 <= q < |s.queues| :: forall i | 0 <= i < |s.queues[q]| :: TransactionOk(cfg, s.queues[q][i])
  }

  ghost predicate SentInOrder(s: State) {
    && s.lastIssue <= s.now
    && (s.cleanupAt.Some? ==> s.cleanupAt.value == s.lastIssue + 1 && s.now <= s.lastIssue + 1)
    && (forall i | 0 <= i < |s.sent| :: s.sent[i].at <= s.lastIssue)
    && forall i, j | 0 <= i < j < |s.sent| :: s.sent[i].at < s.sent[j].at
  }

  ghost predicate Inv(p: Timing, cfg: Config, s: State) {
    BanksOk(p, cfg, s) && TransactionsOk(cfg, s) && SentInOrder(s) && Conserved(s)
  }

  // ---------------------------------------------------------------- counting

  lemma {:induction false} IdsAppend(q: seq<Request>, r: seq<Request>)
    ensures Ids(q + r) == Ids(q) + Ids(r)
  {
    if q == [] {
      assert q + r == r;
    } else {
      assert (q + r)[1..] == q[1..] + r;
      IdsAppend(q[1..], r);
    }
  }

  lemma IdsRemove(q: seq<Request>, i: nat)
    requires i < |q|
    ensures Ids(q) == Ids(Without(q, i)) + Ids([q[i]])
  {
    hide Ids;
    assert q == q[..i] + ([q[i]] + q[i + 1..]);
    IdsAppend(q[..i], [q[i]] + q[i + 1..]);
    IdsAppend([q[i]], q[i + 1..]);
    IdsAppend(q[..i], q[i + 1..]);
  }

  lemma AddToBoth(a: multiset<nat>, b: multiset<nat>, c: multiset<nat>, d: multiset<nat>, e: multiset<nat>)
    requires b + c == d + e
    ensures (a + b) + c == (a + d) + e
  {
    assert (a + b) + c == a + (b + c) && (a + d) + e == a + (d + e);
  }

  lemma {:induction false} AllIdsUpdate(qs: seq<seq<Request>>, k: nat, q: seq<Request>)
    requires k < |qs|
    ensures AllIds(qs[k := q]) + Ids(qs[k]) == AllIds(qs) + Ids(q)
  {
    var qs' := qs[k := q];
    assert AllIds(qs') == Ids(qs'[0]) + AllIds(qs'[1..]);
    assert AllIds(qs) == Ids(qs[0]) + AllIds(qs[1..]);
    if k > 0 {
      assert qs'[1..] == qs[1..][k - 1 := q] && qs[1..][k - 1] == qs[k];
      AllIdsUpdate(qs[1..], k - 1, q);
      AddToBoth(Ids(qs[0]), AllIds(qs'[1..]), Ids(qs[k]), AllIds(qs[1..]), Ids(q));
    } else {
      assert qs'[1..] == qs[1..];
    }
  }

  lemma {:induction false} AllIdsSame(qs: seq<seq<Request>>, qs': seq<seq<Request>>)
    requires |qs| == |qs'| && forall k | 0 <= k < |qs| :: Ids(qs[k]) == Ids(qs'[k])
    ensures AllIds(qs) == AllIds(qs')
  {
    if qs != [] {
      assert Ids(qs[0]) == Ids(qs'[0]);
      AllIdsSame(qs[1..], qs'[1..]);
    }
  }

  lemma SentIdsAppend(log: seq<Sent>, e: Sent)
    ensures SentIds(log + [e]) == SentIds(log) + Ids([e.r])
  {
    var rs := seq(|log|, i requires 0 <= i < |log| => log[i].r);
    assert seq(|log + [e]|, i requires 0 <= i < |log + [e]| => (log + [e])[i].r) == rs + [e.r];
    IdsAppend(rs, [e.r]);
  }

  /** The commands for a transaction end in its column command, the only one among them. */
  lemma ExpandShape(cfg: Config, sh: Shadow, r: Request, cached: bool, writing: bool)
    requires Sized(cfg, sh) && r.subarray < cfg.subarrays && sh.queue == [] && (r.op.Read? || r.op.Write?)
    ensures var out := Expand(cfg, sh, r, cached, writing);
      && out.ok && 1 <= |out.shadow.queue| <= 3
      && (forall k | 0 <= k < |out.shadow.queue| - 1 :: !out.shadow.queue[k].op.IsColumn())
      && out.shadow.queue[|out.shadow.queue| - 1].op.IsColumn()
      && out.shadow.queue[|out.shadow.queue| - 1].id == r.id
  {
    hide OpenEntry, CloseEntry;
  }

  /** Expanding a transaction on an empty queue queues it exactly once. */
  lemma ExpandQueuesOnce(cfg: Config, sh: Shadow, r: Request, cached: bool, writing: bool)
    requires Sized(cfg, sh) && r.subarray < cfg.subarrays && sh.queue == [] && (r.op.Read? || r.op.Write?)
    ensures Expand(cfg, sh, r, cached, writing).ok
    ensures Ids(Expand(cfg, sh, r, cached, writing).shadow.queue) == multiset{r.id}
  {
    ExpandShape(cfg, sh, r, cached, writing);
    OneColumn(Expand(cfg, sh, r, cached, writing).shadow.queue, r.id);
  }

  lemma {:induction false} OneColumn(q: seq<Request>, id: nat)
    requires q != [] && q[|q| - 1].op.IsColumn() && q[|q| - 1].id == id
    requires forall k | 0 <= k < |q| - 1 :: !q[k].op.IsColumn()
    ensures Ids(q) == multiset{id}
  {
    if |q| > 1 { OneColumn(q[1..], id); }
  }

  // ---------------------------------------------------------------- each step keeps the invariant

  lemma BankOkStays(p: Timing, cfg: Config, k: nat, sh: Shadow, b: Bank.State, s: State, s': State)
    requires BankOk(p, cfg, k, sh, b, s)
    requires s'.now == s.now && s'.lastIssue == s.lastIssue && s'.cleanupAt == s.cleanupAt
    ensures BankOk(p, cfg, k, sh, b, s')
  {}

  /** Banks that a step leaves alone at the same cycle stay in order. */
  lemma BanksOkStay(p: Timing, cfg: Config, s: State, s': State)
    requires BanksOk(p, cfg, s)
    requires |s'.shadows| == |s.shadows| && |s'.devices| == |s.devices|
    requires s'.now == s.now && s'.lastIssue == s.lastIssue && s'.cleanupAt == s.cleanupAt
    requires forall k | 0 <= k < |s.shadows| ::
      (s'.shadows[k] == s.shadows[k] && s'.devices[k] == s.devices[k])
      || BankOk(p, cfg, k, s'.shadows[k], s'.devices[k], s)
    ensures BanksOk(p, cfg, s')
  {
    forall k | 0 <= k < |s'.shadows| ensures BankOk(p, cfg, k, s'.shadows[k], s'.devices[k], s') {
      BankOkStays(p, cfg, k, s'.shadows[k], s'.devices[k], s, s');
    }
  }

  lemma AcceptConserves(s: State, s': State, q: nat, r: Request)
    requires Conserved(s) && q < |s.queues| && r.op.IsColumn() && r.id !in s.accepted
    requires s' == s.(queues := s.queues[q := s.queues[q] + [r]], accepted := s.accepted + multiset{r.id})
    ensures Conserved(s')
  {
    AllIdsUpdate(s.queues, q, s.queues[q] + [r]);
    IdsAppend(s.queues[q], [r]);
    assert Ids([r]) == multiset{r.id};
    Cancel(AllIds(s.queues), Ids(s.queues[q]), Ids([r]), AllIds(s'.queues));
    AddOne(AllIds(s.queues), AllIds(s'.queues), AllIds(Pendings(s.shadows)), SentIds(s.sent), s.accepted,
      multiset{r.id});
  }

  lemma AddOne(a: multiset<nat>, a': multiset<nat>, b: multiset<nat>, c: multiset<nat>, d: multiset<nat>,
               x: multiset<nat>)
    requires a + x == a' && a + b + c == d
    ensures a' + b + c == d + x
  {}

  lemma AcceptKeepsInv(p: Timing, cfg: Config, s: State, step: Step)
    requires Inv(p, cfg, s) && Enabled(p, cfg, s, step) && step.Accept?
    ensures Inv(p, cfg, Apply(p, cfg, s, step))
  {
    var s' := Apply(p, cfg, s, step);
    AcceptConserves(s, s', step.queue, step.r.(arrival := s.now));
    BanksOkStay(p, cfg, s, s');
  }

  /** A plain DDR3 bank never serves a request from a cache. */
  lemma CachedIsNeverIssuable(p: Timing, b: Bank.State, r: Request, now: nat)
    requires Bank.Routed(b, r) && (r.op.Read? || r.op.Write?)
    ensures !Bank.IsIssuable(p, b, MakeCached(r), now)
  {}

  lemma ExpandKeepsCommands(p: Timing, cfg: Config, sh: Shadow, r: Request, writing: bool, id: nat)
    requires Sized(cfg, sh) && InRange(cfg, r) && id == IdOf(cfg, r) && sh.queue == []
    requires (r.op.Read? || r.op.Write?) && !r.issued && Sub.Sendable(p, r)
    ensures var q := Expand(cfg, sh, r, false, writing).shadow.queue;
      && |q| >= 1 && !q[0].issued
      && forall i | 0 <= i < |q| :: CommandOk(p, cfg, id, q[i])
  {
    var q := Expand(cfg, sh, r, false, writing).shadow.queue;
    ExpandRoutesToBank(cfg, sh, r, writing, id);
    forall i | 0 <= i < |q| ensures CommandOk(p, cfg, id, q[i]) {}
  }

  /** Every command that a transaction expands into is for its bank, and writes keep its flags. */
  lemma ExpandRoutesToBank(cfg: Config, sh: Shadow, r: Request, writing: bool, id: nat)
    requires Sized(cfg, sh) && InRange(cfg, r) && id == IdOf(cfg, r) && sh.queue == []
    requires (r.op.Read? || r.op.Write?) && !r.issued
    ensures var q := Expand(cfg, sh, r, false, writing).shadow.queue;
      && |q| >= 1 && !q[0].issued
      && forall i | 0 <= i < |q| ::
           && q[i].rank == r.rank && q[i].bank == r.bank && q[i].subarray == r.subarray
           && q[i].op.IsArray() && !q[i].op.Refresh?
           && (q[i].op.IsWrite() ==> r.op.Write? && q[i].forced == r.forced)
  {
    hide QueueId, OpenEntry, CloseEntry;
  }

  lemma ScheduleKeepsBank(p: Timing, cfg: Config, s: State, sel: Selector, r: Request, writing: bool, id: nat)
    requires BanksOk(p, cfg, s) && InRange(cfg, r) && id == IdOf(cfg, r) < |s.shadows|
    requires (r.op.Read? || r.op.Write?) && !r.issued && Sub.Sendable(p, r)
    requires cfg.closePage == 2 ==> r.last
    requires Selects(cfg, sel, s.shadows[id], r, s.now)
    ensures Expand(cfg, s.shadows[id], r, false, writing).ok
    ensures BankOk(p, cfg, id, Expand(cfg, s.shadows[id], r, false, writing).shadow, s.devices[id], s)
  {
    assert BankOk(p, cfg, id, s.shadows[id], s.devices[id], s);
    ExpandKeepsPrediction(cfg, sel, s.shadows[id], r, writing, s.now, Replay.ViewOf(s.devices[id]));
    ExpandKeepsCommands(p, cfg, s.shadows[id], r, writing, id);
  }

  lemma Move(a: multiset<nat>, a': multiset<nat>, b: multiset<nat>, b': multiset<nat>, c: multiset<nat>,
             x: multiset<nat>)
    requires a' + x == a && b' == b + x
    ensures a' + b' + c == a + b + c
  {}

  lemma TakeFromQueue(qs: seq<seq<Request>>, q: nat, i: nat)
    requires q < |qs| && i < |qs[q]|
    ensures AllIds(qs[q := Without(qs[q], i)]) + Ids([qs[q][i]]) == AllIds(qs)
  {
    var rest := Without(qs[q], i);
    IdsRemove(qs[q], i);
    AllIdsUpdate(qs, q, rest);
    Cancel(AllIds(qs[q := rest]), Ids(rest), Ids([qs[q][i]]), AllIds(qs));
  }

  lemma Cancel(a: multiset<nat>, b: multiset<nat>, x: multiset<nat>, d: multiset<nat>)
    requires a + (b + x) == d + b
    ensures a + x == d
  {
    assert (a + x) + b == d + b;
    assert a + x == ((a + x) + b) - b;
    assert d == (d + b) - b;
  }

  /** Replacing an empty pending queue adds its transactions. */
  lemma FillPending(shadows: seq<Shadow>, id: nat, sh: Shadow)
    requires id < |shadows| && Pending(shadows[id].queue) == []
    ensures AllIds(Pendings(shadows[id := sh])) == AllIds(Pendings(shadows)) + Ids(Pending(sh.queue))
  {
    AllIdsUpdate(Pendings(shadows), id, Pending(sh.queue));
    assert Pendings(shadows[id := sh]) == Pendings(shadows)[id := Pending(sh.queue)];
    assert Ids(Pendings(shadows)[id]) == multiset{};
  }

  lemma ScheduleConserves(s: State, s': State, q: nat, i: nat, id: nat, sh: Shadow)
    requires Conserved(s) && q < |s.queues| && i < |s.queues[q]| && id < |s.shadows|
    requires s' == s.(queues := s.queues[q := Without(s.queues[q], i)],
                      shadows := s.shadows[id := sh])
    requires s.shadows[id].queue == []
    requires Ids(Pending(sh.queue)) == Ids([s.queues[q][i]])
    ensures Conserved(s')
  {
    TakeFromQueue(s.queues, q, i);
    FillPending(s.shadows, id, sh);
    Move(AllIds(s.queues), AllIds(s'.queues), AllIds(Pendings(s.shadows)), AllIds(Pendings(s'.shadows)),
         SentIds(s.sent), Ids([s.queues[q][i]]));
  }

  /** What Schedule picks, and what it changes. */
  lemma ScheduleEffect(p: Timing, cfg: Config, s: State, step: Step)
    returns (i: nat, r: Request, id: nat, writing: bool)
    requires Inv(p, cfg, s) && Enabled(p, cfg, s, step) && step.Schedule?
    ensures i == FirstMatch(cfg, s.shadows, s.now, step.sel, s.queues[step.queue])
    ensures i < |s.queues[step.queue]| && r == Picked(cfg, step.force, s.queues[step.queue], i)
    ensures InRange(cfg, r) && id == IdOf(cfg, r) < |s.shadows| && s.shadows[id].queue == []
    ensures Sized(cfg, s.shadows[id]) && Selects(cfg, step.sel, s.shadows[id], r, s.now)
    ensures (r.op.Read? || r.op.Write?) && !r.issued && Sub.Sendable(p, r) && (cfg.closePage == 2 ==> r.last)
    ensures r.id == s.queues[step.queue][i].id && r.op == s.queues[step.queue][i].op
    ensures writing == IsProgramming(s, id, r.subarray)
    ensures Apply(p, cfg, s, step) == s.(
      queues := s.queues[step.queue := Without(s.queues[step.queue], i)],
      shadows := s.shadows[id := Expand(cfg, s.shadows[id], r, false, writing).shadow])
  {
    var q := s.queues[step.queue];
    i := FirstMatch(cfg, s.shadows, s.now, step.sel, q);
    r := Picked(cfg, step.force, q, i);
    id := IdOf(cfg, r);
    assert TransactionOk(cfg, q[i]) && Matches(cfg, s.shadows, s.now, step.sel, q[i]);
    assert BankOk(p, cfg, id, s.shadows[id], s.devices[id], s);
    CachedIsNeverIssuable(p, s.devices[id], r, s.now);
    writing := IsProgramming(s, id, r.subarray);
  }

  /** A transaction found by a selector is never refused; it moves to one command queue. */
  lemma ScheduleKeepsInv(p: Timing, cfg: Config, s: State, step: Step)
    requires Inv(p, cfg, s) && Enabled(p, cfg, s, step) && step.Schedule?
    ensures Inv(p, cfg, Apply(p, cfg, s, step))
  {
    var i, r, id, writing := ScheduleEffect(p, cfg, s, step);
    ScheduleKeepsBank(p, cfg, s, step.sel, r, writing, id);
    ExpandQueuesOnce(cfg, s.shadows[id], r, false, writing);
    ExpandKeepsCommands(p, cfg, s.shadows[id], r, writing, id);
    MoveKeepsInv(p, cfg, s, Apply(p, cfg, s, step), step.queue, i, id,
                 Expand(cfg, s.shadows[id], r, false, writing).shadow);
  }

  lemma MoveKeepsInv(p: Timing, cfg: Config, s: State, s': State, q: nat, i: nat, id: nat, sh: Shadow)
    requires Inv(p, cfg, s) && q < |s.queues| && i < |s.queues[q]| && id < |s.shadows|
    requires s' == s.(queues := s.queues[q := Without(s.queues[q], i)],
                      shadows := s.shadows[id := sh])
    requires BankOk(p, cfg, id, sh, s.devices[id], s)
    requires s.shadows[id].queue == [] && sh.queue != [] && !sh.queue[0].issued
    requires Ids(sh.queue) == multiset{s.queues[q][i].id}
    ensures Inv(p, cfg, s')
  {
    assert TransactionOk(cfg, s.queues[q][i]);
    assert Ids([s.queues[q][i]]) == multiset{s.queues[q][i].id};
    BanksOkStay(p, cfg, s, s');
    ScheduleConserves(s, s', q, i, id, sh);
    RemoveKeepsTransactions(cfg, s, s', q, i);
  }

  lemma RemoveKeepsTransactions(cfg: Config, s: State, s': State, q: nat, i: nat)
    requires TransactionsOk(cfg, s) && q < |s.queues| && i < |s.queues[q]|
    requires s'.queues == s.queues[q := Without(s.queues[q], i)]
    ensures TransactionsOk(cfg, s')
  {
    forall j | 0 <= j < |s'.queues[q]| ensures TransactionOk(cfg, s'.queues[q][j]) {
      assert s'.queues[q][j] == s.queues[q][if j < i then j else j + 1];
    }
  }

  /** Cleanup runs first at its cycle and only one head is sent per cycle, so no sent head is seen again. */
  lemma NoHeadIsSentTwice(p: Timing, cfg: Config, s: State, step: Step, k: nat)
    requires Inv(p, cfg, s) && Enabled(p, cfg, s, step) && step.IssueHead?
    requires k < |s.shadows| && s.shadows[k].queue != []
    ensures !s.shadows[k].queue[0].issued
  {
    assert BankOk(p, cfg, k, s.shadows[k], s.devices[k], s);
  }

  lemma ArrayCommandKeepsShape(p: Timing, b: Bank.State, r: Request, m: Moment)
    requires Bank.Inv(p, b, m.now) && Bank.Routed(b, r) && Sub.Sendable(p, r) && r.op.IsArray()
    requires Bank.IsIssuable(p, b, r, m.now) && (b.mode.Open? || b.mode.Closed?)
    ensures var b' := Bank.IssueCommand(p, b, r, m).state;
      |b'.subs| == |b.subs| && (b'.mode.Open? || b'.mode.Closed?)
  {
    BankRuns.IssueAdvancesTimers(p, b, r, m);
    Bank.GuardIsComplete(p, b, r, m);
  }

  /** The device side of sending `r` to one of the banks it reaches. */
  lemma SendToDevice(p: Timing, cfg: Config, s: State, k: nat, r: Request, m: Moment)
    requires BanksOk(p, cfg, s) && k < |s.devices| && m.now == s.now
    requires r.op.IsArray() && Sub.Sendable(p, r)
    requires Bank.Routed(s.devices[k], r) && Bank.IsIssuable(p, s.devices[k], r, s.now)
    ensures var b, b' := s.devices[k], Bank.IssueCommand(p, s.devices[k], r, m).state;
      && Bank.Inv(p, b', s.now) && |b'.subs| == cfg.subarrays && (b'.mode.Open? || b'.mode.Closed?)
      && Replay.Legal(Replay.ViewOf(b), r)
      && Replay.ViewOf(b') == Replay.After(Replay.ViewOf(b), r)
  {
    assert BankOk(p, cfg, k, s.shadows[k], s.devices[k], s);
    Bank.GuardIsComplete(p, s.devices[k], r, m);
    Replay.IssueFollowsReplay(p, s.devices[k], r, m);
    ArrayCommandKeepsShape(p, s.devices[k], r, m);
  }

  lemma IssueKeepsBank(p: Timing, cfg: Config, s: State, s': State, id: nat, r: Request, m: Moment, k: nat)
    requires BanksOk(p, cfg, s) && id < |s.shadows| && k < |s.shadows| && m.now == s.now == s'.now
    requires forall j | 0 <= j < |s.shadows| && s.shadows[j].queue != [] :: !s.shadows[j].queue[0].issued
    requires s.shadows[id].queue != [] && r == s.shadows[id].queue[0] && CommandOk(p, cfg, id, r)
    requires Issuable(p, cfg, s.devices, r, s.now)
    requires s'.lastIssue == s.now && s'.cleanupAt == Some(s.now + 1)
    ensures BankOk(p, cfg, k, ShadowAfter(cfg, s.shadows, id, r, k), DeviceAfter(p, cfg, s.devices, r, m, k), s')
  {
    if k == id {
      IssueKeepsOwnBank(p, cfg, s, s', r, m, k);
    } else {
      IssueKeepsOtherBank(p, cfg, s, s', id, r, m, k);
    }
  }

  lemma IssueKeepsOwnBank(p: Timing, cfg: Config, s: State, s': State, r: Request, m: Moment, k: nat)
    requires BanksOk(p, cfg, s) && k < |s.shadows| && m.now == s.now == s'.now
    requires s.shadows[k].queue != [] && !s.shadows[k].queue[0].issued
    requires r == s.shadows[k].queue[0] && CommandOk(p, cfg, k, r) && Issuable(p, cfg, s.devices, r, s.now)
    requires s'.lastIssue == s.now && s'.cleanupAt == Some(s.now + 1)
    ensures BankOk(p, cfg, k, ShadowAfter(cfg, s.shadows, k, r, k), DeviceAfter(p, cfg, s.devices, r, m, k), s')
  {
    hide Predicts, QueueId, InGroup, Bank.Inv;
    var sh, b := s.shadows[k], s.devices[k];
    assert BankOk(p, cfg, k, sh, b, s);
    OwnBankIsReached(p, cfg, k, r);
    SendToDevice(p, cfg, s, k, r, m);
    SendKeepsPrediction(cfg, sh, Replay.ViewOf(b));
  }

  lemma IssueKeepsOtherBank(p: Timing, cfg: Config, s: State, s': State, id: nat, r: Request, m: Moment, k: nat)
    requires BanksOk(p, cfg, s) && id < |s.shadows| && k < |s.shadows| && id != k && m.now == s.now == s'.now
    requires s.shadows[k].queue != [] ==> !s.shadows[k].queue[0].issued
    requires s.shadows[id].queue != [] && r == s.shadows[id].queue[0] && CommandOk(p, cfg, id, r)
    requires Issuable(p, cfg, s.devices, r, s.now)
    requires s'.lastIssue == s.now && s'.cleanupAt == Some(s.now + 1)
    ensures BankOk(p, cfg, k, ShadowAfter(cfg, s.shadows, id, r, k), DeviceAfter(p, cfg, s.devices, r, m, k), s')
  {
    assert BankOk(p, cfg, k, s.shadows[k], s.devices[k], s);
    OwnBankIsReached(p, cfg, id, r);
    if Reaches(cfg, r, k) { SendToDevice(p, cfg, s, k, r, m); }
  }

  lemma IssueConserves(s: State, s': State, id: nat)
    requires Conserved(s) && id < |s.shadows| && s.shadows[id].queue != [] && !s.shadows[id].queue[0].issued
    requires s'.queues == s.queues && s'.accepted == s.accepted
    requires s'.sent == s.sent + [Sent(s.now, s.shadows[id].queue[0])]
    requires |s'.shadows| == |s.shadows|
    requires forall k | 0 <= k < |s.shadows| ::
      s'.shadows[k].queue == if k == id then MarkIssued(s.shadows[k].queue) else s.shadows[k].queue
    ensures Conserved(s')
  {
    var q := s.shadows[id].queue;
    assert Pending(q) == q && Pending(MarkIssued(q)) == q[1..] && q == [q[0]] + q[1..];
    IdsAppend([q[0]], q[1..]);
    SentIdsAppend(s.sent, Sent(s.now, q[0]));
    var before, after := Pendings(s.shadows), Pendings(s'.shadows);
    assert after == before[id := q[1..]];
    AllIdsUpdate(before, id, q[1..]);
    Transfer(AllIds(before), AllIds(after), SentIds(s.sent), SentIds(s'.sent), AllIds(s.queues), Ids([q[0]]),
      Ids(q[1..]));
  }

  lemma Transfer(b: multiset<nat>, b': multiset<nat>, c: multiset<nat>, c': multiset<nat>, a: multiset<nat>,
                 x: multiset<nat>, y: multiset<nat>)
    requires b' + (x + y) == b + y && c' == c + x
    ensures a + b' + c' == a + b + c
  {
    Cancel(b', y, x, b);
  }

  /** A command reaches the bank of its own queue; only a refresh reaches others. */
  lemma OwnBankIsReached(p: Timing, cfg: Config, id: nat, r: Request)
    requires CommandOk(p, cfg, id, r)
    ensures Reaches(cfg, r, id)
    ensures !r.op.Refresh? ==> forall k: nat :: Reaches(cfg, r, k) <==> k == id
  {}

  /** What IssueHead changes. */
  lemma IssueEffect(p: Timing, cfg: Config, s: State, step: Step) returns (r: Request, m: Moment)
    requires Inv(p, cfg, s) && Enabled(p, cfg, s, step) && step.IssueHead?
    ensures r == s.shadows[step.id].queue[0] && m == Moment(s.now, step.latency, step.bounce)
    ensures CommandOk(p, cfg, step.id, r)
    ensures Issuable(p, cfg, s.devices, r, s.now) && s.lastIssue < s.now
    ensures forall k | 0 <= k < |s.shadows| && s.shadows[k].queue != [] :: !s.shadows[k].queue[0].issued
    ensures var s' := Apply(p, cfg, s, step);
      && s' == s.(shadows := s'.shadows, devices := s'.devices, lastIssue := s.now, cleanupAt := Some(s.now + 1),
                  sent := s.sent + [Sent(s.now, r)])
      && |s'.shadows| == |s'.devices| == |s.shadows|
      && forall k | 0 <= k < |s.shadows| ::
           && (Reaches(cfg, r, k) ==> Bank.Routed(s.devices[k], r))
           && s'.shadows[k] == ShadowAfter(cfg, s.shadows, step.id, r, k)
           && s'.devices[k] == DeviceAfter(p, cfg, s.devices, r, m, k)
  {
    hide Inv, CommandOk, Reaches, DeviceAfter, ShadowAfter;
    r, m := s.shadows[step.id].queue[0], Moment(s.now, step.latency, step.bounce);
    HeadsAreUnsent(p, cfg, s, step);
  }

  lemma HeadsAreUnsent(p: Timing, cfg: Config, s: State, step: Step)
    requires Inv(p, cfg, s) && Enabled(p, cfg, s, step) && step.IssueHead?
    ensures forall k | 0 <= k < |s.shadows| && s.shadows[k].queue != [] :: !s.shadows[k].queue[0].issued
    ensures CommandOk(p, cfg, step.id, s.shadows[step.id].queue[0]) && s.lastIssue < s.now && |s.devices| == |s.shadows|
    ensures forall k | 0 <= k < |s.shadows| && Reaches(cfg, s.shadows[step.id].queue[0], k) ::
      Bank.Routed(s.devices[k], s.shadows[step.id].queue[0])
  {
    assert BankOk(p, cfg, step.id, s.shadows[step.id], s.devices[step.id], s);
    forall k | 0 <= k < |s.shadows| && s.shadows[k].queue != [] ensures !s.shadows[k].queue[0].issued {
      NoHeadIsSentTwice(p, cfg, s, step, k);
    }
  }

  lemma IssueKeepsInv(p: Timing, cfg: Config, s: State, step: Step)
    requires Inv(p, cfg, s) && Enabled(p, cfg, s, step) && step.IssueHead?
    ensures Inv(p, cfg, Apply(p, cfg, s, step))
  {
    var r, m := IssueEffect(p, cfg, s, step);
    SendKeepsInv(p, cfg, s, Apply(p, cfg, s, step), step.id, r, m);
  }

  lemma SendKeepsInv(p: Timing, cfg: Config, s: State, s': State, id: nat, r: Request, m: Moment)
    requires Inv(p, cfg, s) && id < |s.shadows| && m.now == s.now
    requires forall j | 0 <= j < |s.shadows| && s.shadows[j].queue != [] :: !s.shadows[j].queue[0].issued
    requires s.shadows[id].queue != [] && r == s.shadows[id].queue[0] && CommandOk(p, cfg, id, r)
    requires Issuable(p, cfg, s.devices, r, s.now) && s.lastIssue < s.now
    requires |s'.shadows| == |s'.devices| == |s.shadows|
    requires s' == s.(shadows := s'.shadows, devices := s'.devices, lastIssue := s.now, cleanupAt := Some(s.now + 1),
                      sent := s.sent + [Sent(s.now, r)])
    requires forall k | 0 <= k < |s.shadows| ::
      && (Reaches(cfg, r, k) ==> Bank.Routed(s.devices[k], r))
      && s'.shadows[k] == ShadowAfter(cfg, s.shadows, id, r, k)
      && s'.devices[k] == DeviceAfter(p, cfg, s.devices, r, m, k)
    ensures Inv(p, cfg, s')
  {
    hide BanksOk, BankOk, ShadowAfter, DeviceAfter, CommandOk, Issuable, Reaches, Conserved;
    SendKeepsBanks(p, cfg, s, s', id, r, m);
    forall k | 0 <= k < |s.shadows|
      ensures s'.shadows[k].queue == if k == id then MarkIssued(s.shadows[k].queue) else s.shadows[k].queue {
      SendMarksHead(cfg, s.shadows, id, r, k);
    }
    IssueConserves(s, s', id);
  }

  lemma SendMarksHead(cfg: Config, shadows: seq<Shadow>, id: nat, r: Request, k: nat)
    requires id < |shadows| && shadows[id].queue != [] && k < |shadows|
    ensures ShadowAfter(cfg, shadows, id, r, k).queue == if k == id then MarkIssued(shadows[k].queue)
      else shadows[k].queue
  {}

  lemma SendKeepsBanks(p: Timing, cfg: Config, s: State, s': State, id: nat, r: Request, m: Moment)
    requires BanksOk(p, cfg, s) && id < |s.shadows| && m.now == s.now == s'.now
    requires forall j | 0 <= j < |s.shadows| && s.shadows[j].queue != [] :: !s.shadows[j].queue[0].issued
    requires s.shadows[id].queue != [] && r == s.shadows[id].queue[0] && CommandOk(p, cfg, id, r)
    requires Issuable(p, cfg, s.devices, r, s.now)
    requires |s'.shadows| == |s'.devices| == |s.shadows| && s'.lastIssue == s.now && s'.cleanupAt == Some(s.now + 1)
    requires forall k | 0 <= k < |s.shadows| ::
      && (Reaches(cfg, r, k) ==> Bank.Routed(s.devices[k], r))
      && s'.shadows[k] == ShadowAfter(cfg, s.shadows, id, r, k)
      && s'.devices[k] == DeviceAfter(p, cfg, s.devices, r, m, k)
    ensures BanksOk(p, cfg, s')
  {
    hide BankOk, ShadowAfter, DeviceAfter, CommandOk, Issuable, Reaches;
    forall k | 0 <= k < |s.shadows| ensures BankOk(p, cfg, k, s'.shadows[k], s'.devices[k], s') {
      IssueKeepsBank(p, cfg, s, s', id, r, m, k);
    }
  }

  /** Shadows that keep their pending transactions keep conservation. */
  lemma SamePendingConserves(s: State, s': State)
    requires Conserved(s) && s'.queues == s.queues && s'.accepted == s.accepted && s'.sent == s.sent
    requires |s'.shadows| == |s.shadows|
    requires forall k | 0 <= k < |s.shadows| :: Ids(Pending(s'.shadows[k].queue)) == Ids(Pending(s.shadows[k].queue))
    ensures Conserved(s')
  {
    AllIdsSame(Pendings(s.shadows), Pendings(s'.shadows));
  }

  lemma CleanupKeepsBank(p: Timing, cfg: Config, k: nat, sh: Shadow, b: Bank.State, s: State, s': State)
    requires BankOk(p, cfg, k, sh, b, s) && s'.now == s.now && s'.lastIssue == s.lastIssue
    ensures BankOk(p, cfg, k, sh.(queue := Pending(sh.queue)), b, s')
    ensures Pending(Pending(sh.queue)) == Pending(sh.queue)
  {
    hide CommandOk;
    CleanupKeepsPrediction(cfg, sh, Replay.ViewOf(b));
  }

  lemma CleanupKeepsInv(p: Timing, cfg: Config, s: State, step: Step)
    requires Inv(p, cfg, s) && Enabled(p, cfg, s, step) && step.Cleanup?
    ensures Inv(p, cfg, Apply(p, cfg, s, step))
  {
    hide BankOk, Conserved, Pending;
    var s' := Apply(p, cfg, s, step);
    forall k | 0 <= k < |s.shadows|
      ensures BankOk(p, cfg, k, s'.shadows[k], s'.devices[k], s')
      ensures Pending(s'.shadows[k].queue) == Pending(s.shadows[k].queue) {
      CleanupKeepsBank(p, cfg, k, s.shadows[k], s.devices[k], s, s');
    }
    SamePendingConserves(s, s');
  }

  lemma RefreshFlagKeepsBank(p: Timing, cfg: Config, k: nat, sh: Shadow, b: Bank.State, s: State, need: bool)
    requires BankOk(p, cfg, k, sh, b, s)
    ensures BankOk(p, cfg, k, sh.(needRefresh := need), b, s)
  {}

  lemma MarkRefreshKeepsInv(p: Timing, cfg: Config, s: State, step: Step)
    requires Inv(p, cfg, s) && Enabled(p, cfg, s, step) && step.MarkRefresh?
    ensures Inv(p, cfg, Apply(p, cfg, s, step))
  {
    hide BankOk, Conserved;
    var s' := Apply(p, cfg, s, step);
    forall k | 0 <= k < |s.shadows| ensures BankOk(p, cfg, k, s'.shadows[k], s'.devices[k], s) {
      RefreshFlagKeepsBank(p, cfg, k, s.shadows[k], s.devices[k], s, step.need);
    }
    BanksOkStay(p, cfg, s, s');
    assert Conserved(s') by { SamePendingConserves(s, s'); }
  }

  /** The commands that a refresh adds are legal for the bank, and carry no transaction. */
  lemma QueueRefreshAdds(p: Timing, cfg: Config, sh: Shadow, rank: nat, bank: nat, isHead: bool, k: nat)
    returns (added: seq<Request>)
    requires rank < cfg.ranks && bank < cfg.banks && k == QueueId(cfg, rank, bank)
    requires isHead ==> IsGroup(cfg, rank, bank)
    ensures QueueRefresh(cfg, sh, rank, bank, isHead).queue == sh.queue + added
    ensures forall i | 0 <= i < |added| :: CommandOk(p, cfg, k, added[i]) && !added[i].op.IsColumn() && !added[i].issued
  {
    added := (if sh.activateQueued then [MakeCommand(Op.PrechargeAll, 0, bank, rank, 0)] else [])
             + (if isHead then [MakeCommand(Op.Refresh, 0, bank, rank, 0)] else []);
  }

  lemma QueueRefreshKeepsBank(p: Timing, cfg: Config, s: State, rank: nat, head: nat, k: nat)
    requires BanksOk(p, cfg, s) && k < |s.shadows| && IsGroup(cfg, rank, head) && InGroup(cfg, rank, head, k)
    ensures var sh' := QueueRefresh(cfg, s.shadows[k], rank, BankOf(cfg, k), k == QueueId(cfg, rank, head));
      && BankOk(p, cfg, k, sh', s.devices[k], s)
      && Ids(Pending(sh'.queue)) == Ids(Pending(s.shadows[k].queue))
  {
    var sh, bank, isHead := s.shadows[k], BankOf(cfg, k), k == QueueId(cfg, rank, head);
    var sh' := QueueRefresh(cfg, sh, rank, bank, isHead);
    BankOfGroup(cfg, rank, head, k);
    var added := QueueRefreshAdds(p, cfg, sh, rank, bank, isHead, k);
    assert BankOk(p, cfg, k, sh, s.devices[k], s);
    QueueRefreshKeepsPrediction(cfg, sh, rank, bank, isHead, Replay.ViewOf(s.devices[k]));
    AppendKeepsBank(p, cfg, k, sh, sh', s.devices[k], s, added);
    AppendAddsNoIds(sh.queue, added);
  }

  lemma AppendKeepsBank(p: Timing, cfg: Config, k: nat, sh: Shadow, sh': Shadow, b: Bank.State, s: State,
                        added: seq<Request>)
    requires BankOk(p, cfg, k, sh, b, s) && sh'.queue == sh.queue + added
    requires Predicts(cfg, sh', Replay.ViewOf(b)) && !sh'.activateQueued
    requires forall i | 0 <= i < |added| :: CommandOk(p, cfg, k, added[i]) && !added[i].issued
    ensures BankOk(p, cfg, k, sh', b, s)
  {}

  lemma AppendAddsNoIds(q: seq<Request>, added: seq<Request>)
    requires forall i | 0 <= i < |added| :: !added[i].op.IsColumn() && !added[i].issued
    ensures Ids(Pending(q + added)) == Ids(Pending(q))
  {
    assert Pending(q + added) == Pending(q) + added;
    IdsAppend(Pending(q), added);
    NoColumns(added);
  }

  lemma {:induction false} NoColumns(q: seq<Request>)
    requires forall k | 0 <= k < |q| :: !q[k].op.IsColumn()
    ensures Ids(q) == multiset{}
  {
    if q != [] { NoColumns(q[1..]); }
  }

  lemma RefreshGroupKeepsInv(p: Timing, cfg: Config, s: State, step: Step)
    requires Inv(p, cfg, s) && Enabled(p, cfg, s, step) && step.RefreshGroup?
    ensures Inv(p, cfg, Apply(p, cfg, s, step))
  {
    hide BankOk, Conserved, QueueRefresh;
    var s' := Apply(p, cfg, s, step);
    forall k | 0 <= k < |s.shadows|
      ensures s'.shadows[k] == s.shadows[k] || BankOk(p, cfg, k, s'.shadows[k], s.devices[k], s)
      ensures Ids(Pending(s'.shadows[k].queue)) == Ids(Pending(s.shadows[k].queue)) {
      if InGroup(cfg, step.rank, step.head, k) { QueueRefreshKeepsBank(p, cfg, s, step.rank, step.head, k); }
    }
    BanksOkStay(p, cfg, s, s');
    SamePendingConserves(s, s');
  }

  lemma EventKeepsBank(p: Timing, cfg: Config, k: nat, sh: Shadow, b: Bank.State, s: State, e: BankRuns.Step)
    requires BankOk(p, cfg, k, sh, b, s) && e.IsQuiet() && !e.Advance?
    requires BankRuns.Enabled(p, BankRuns.Config(b, s.now, []), e)
    ensures BankOk(p, cfg, k, sh, BankRuns.Apply(p, BankRuns.Config(b, s.now, []), e).bank, s)
  {
    hide CommandOk, ClosePageHolds;
    var c := BankRuns.Config(b, s.now, []);
    assert BankRuns.Execute(p, c, [e]) == Some(BankRuns.Apply(p, c, e));
    BankRuns.QuietRunKeepsTimers(p, c, [e]);
    Replay.QuietRunKeepsView(p, c, [e]);
  }

  lemma EventKeepsInv(p: Timing, cfg: Config, s: State, step: Step)
    requires Inv(p, cfg, s) && Enabled(p, cfg, s, step) && step.Event?
    ensures Inv(p, cfg, Apply(p, cfg, s, step))
  {
    hide BankOk, Conserved, BankRuns.Apply;
    var s' := Apply(p, cfg, s, step);
    EventKeepsBank(p, cfg, step.id, s.shadows[step.id], s.devices[step.id], s, step.e);
    BanksOkStay(p, cfg, s, s');
    SamePendingConserves(s, s');
  }

  lemma TimeKeepsBank(p: Timing, cfg: Config, k: nat, sh: Shadow, b: Bank.State, s: State, to: nat)
    requires BankOk(p, cfg, k, sh, b, s) && s.now < to && (s.cleanupAt.Some? ==> to <= s.cleanupAt.value)
    requires BankRuns.Enabled(p, BankRuns.Config(b, s.now, []), BankRuns.Advance(to))
    ensures BankOk(p, cfg, k, sh, b, s.(now := to))
  {
    hide Predicts, CommandOk, ClosePageHolds;
    var c := BankRuns.Config(b, s.now, []);
    assert BankRuns.Execute(p, c, [BankRuns.Advance(to)]) == Some(BankRuns.Apply(p, c, BankRuns.Advance(to)));
    BankRuns.QuietRunKeepsTimers(p, c, [BankRuns.Advance(to)]);
  }

  lemma AdvanceKeepsInv(p: Timing, cfg: Config, s: State, step: Step)
    requires Inv(p, cfg, s) && Enabled(p, cfg, s, step) && step.Advance?
    ensures Inv(p, cfg, Apply(p, cfg, s, step))
  {
    hide BankOk, Conserved, BankRuns.Enabled;
    var s' := Apply(p, cfg, s, step);
    forall k | 0 <= k < |s.shadows| ensures BankOk(p, cfg, k, s'.shadows[k], s'.devices[k], s') {
      TimeKeepsBank(p, cfg, k, s.shadows[k], s.devices[k], s, step.to);
    }
    SamePendingConserves(s, s');
  }

  lemma StepKeepsInv(p: Timing, cfg: Config, s: State, step: Step)
    requires Inv(p, cfg, s) && Enabled(p, cfg, s, step)
    ensures Inv(p, cfg, Apply(p, cfg, s, step))
  {
    match step
    case Accept(_, _) => AcceptKeepsInv(p, cfg, s, step);
    case Schedule(_, _, _) => ScheduleKeepsInv(p, cfg, s, step);
    case IssueHead(_, _, _) => IssueKeepsInv(p, cfg, s, step);
    case Cleanup => CleanupKeepsInv(p, cfg, s, step);
    case MarkRefresh(_, _, _) => MarkRefreshKeepsInv(p, cfg, s, step);
    case RefreshGroup(_, _) => RefreshGroupKeepsInv(p, cfg, s, step);
    case Event(_, _) => EventKeepsInv(p, cfg, s, step);
    case Advance(_) => AdvanceKeepsInv(p, cfg, s, step);
  }

  // ---------------------------------------------------------------- whole runs

  function Initial(cfg: Config, queues: nat): State {
    State(seq(queues, _ => []), seq(cfg.ranks * cfg.banks, _ => InitialShadow(cfg)),
          seq(cfg.ranks * cfg.banks, _ => Bank.Initial(cfg.subarrays, false)), 0, 0, None, multiset{}, [])
  }

  ghost function Execute(p: Timing, cfg: Config, s: State, steps: seq<Step>): Option<State>
    decreases |steps|
  {
    if steps == [] then Some(s)
    else if Enabled(p, cfg, s, steps[0]) then
      Execute(p, cfg, Apply(p, cfg, s, steps[0]), steps[1..])
    else
      None
  }

  lemma {:induction false} ExecuteAppend(p: Timing, cfg: Config, s: State, a: seq<Step>, b: seq<Step>)
    requires Execute(p, cfg, s, a).Some?
    ensures Execute(p, cfg, s, a + b) == Execute(p, cfg, Execute(p, cfg, s, a).value, b)
    decreases |a|
  {
    hide Enabled, Apply;
    if a == [] {
      assert a + b == b;
    } else {
      assert (a + b)[1..] == a[1..] + b;
      ExecuteAppend(p, cfg, Apply(p, cfg, s, a[0]), a[1..], b);
    }
  }

  lemma ExecuteOne(p: Timing, cfg: Config, s: State, step: Step)
    requires Enabled(p, cfg, s, step)
    ensures Execute(p, cfg, s, [step]) == Some(Apply(p, cfg, s, step))
  {
    hide Enabled, Apply;
    assert [step][1..] == [];
  }

  lemma {:induction false} NoIds(qs: seq<seq<Request>>)
    requires forall k | 0 <= k < |qs| :: qs[k] == []
    ensures AllIds(qs) == multiset{}
  {
    if qs != [] { NoIds(qs[1..]); }
  }

  lemma InitialInv(p: Timing, cfg: Config, queues: nat)
    ensures Inv(p, cfg, Initial(cfg, queues))
  {
    var s := Initial(cfg, queues);
    forall k | 0 <= k < |s.shadows| ensures BankOk(p, cfg, k, s.shadows[k], s.devices[k], s) {
      Bank.InitialInv(p, cfg.subarrays, false);
      assert ShadowView(s.shadows[k]) == Replay.ViewOf(s.devices[k]);
    }
    NoIds(s.queues);
    NoIds(Pendings(s.shadows));
  }

  lemma {:induction false} RunKeepsInv(p: Timing, cfg: Config, s: State, steps: seq<Step>)
    requires Inv(p, cfg, s) && Execute(p, cfg, s, steps).Some?
    ensures Inv(p, cfg, Execute(p, cfg, s, steps).value)
    decreases |steps|
  {
    if steps != [] {
      StepKeepsInv(p, cfg, s, steps[0]);
      RunKeepsInv(p, cfg, Apply(p, cfg, s, steps[0]), steps[1..]);
    }
  }

  // ---------------------------------------------------------------- results

  /** A state that a run reaches from power-on. */
  ghost predicate Reached(p: Timing, cfg: Config, queues: nat, steps: seq<Step>, s: State) {
    Execute(p, cfg, Initial(cfg, queues), steps) == Some(s)
  }

  lemma ReachedInv(p: Timing, cfg: Config, queues: nat, steps: seq<Step>, s: State)
    requires Reached(p, cfg, queues, steps, s)
    ensures Inv(p, cfg, s)
  {
    InitialInv(p, cfg, queues);
    RunKeepsInv(p, cfg, Initial(cfg, queues), steps);
  }

  /**
    Shadow-state simulation. In every reachable state and for every bank, replaying the
    commands not yet sent on the real row state meets no illegal command and ends exactly in
    the controller's tables; and activateQueued holds iff some subarray is active.
   */
  lemma ShadowSimulatesDevice(p: Timing, cfg: Config, queues: nat, steps: seq<Step>, s: State, k: nat)
    requires Reached(p, cfg, queues, steps, s) && k < cfg.ranks * cfg.banks
    ensures |s.shadows| == |s.devices| == cfg.ranks * cfg.banks
    ensures var sh, v := s.shadows[k], Replay.ViewOf(s.devices[k]);
      && |v| == |sh.active| == |sh.row|
      && Replay.Run(v, Pending(sh.queue)) == Some(ShadowView(sh))
      && (sh.activateQueued <==> exists i :: 0 <= i < |sh.active| && sh.active[i])
  {
    ReachedInv(p, cfg, queues, steps, s);
    assert BankOk(p, cfg, k, s.shadows[k], s.devices[k], s);
  }

  /** The request that a selector finds is accepted by the expansion, as its callers rely on. */
  lemma SelectedIsNeverRefused(p: Timing, cfg: Config, queues: nat, steps: seq<Step>, s: State, step: Step)
    requires Reached(p, cfg, queues, steps, s) && step.Schedule? && Enabled(p, cfg, s, step)
    ensures var i := FirstMatch(cfg, s.shadows, s.now, step.sel, s.queues[step.queue]);
      var r := Picked(cfg, step.force, s.queues[step.queue], i);
      && IdOf(cfg, r) < |s.shadows|
      && Sized(cfg, s.shadows[IdOf(cfg, r)]) && r.subarray < cfg.subarrays
      && forall cached, writing :: Expand(cfg, s.shadows[IdOf(cfg, r)], r, cached, writing).ok
  {
    ReachedInv(p, cfg, queues, steps, s);
    var i, r, id, writing := ScheduleEffect(p, cfg, s, step);
  }

  /**
    Exactly once. Every accepted transaction is in exactly one place: a transaction queue, a
    command queue, or the log of sent commands; and at most one command is sent per cycle.
   */
  lemma ExactlyOnce(p: Timing, cfg: Config, queues: nat, steps: seq<Step>, s: State, id: nat)
    requires Reached(p, cfg, queues, steps, s)
    ensures AllIds(s.queues)[id] + AllIds(Pendings(s.shadows))[id] + SentIds(s.sent)[id] == s.accepted[id] <= 1
    ensures forall i, j | 0 <= i < j < |s.sent| :: s.sent[i].at < s.sent[j].at
  {
    ReachedInv(p, cfg, queues, steps, s);
    assert (AllIds(s.queues) + AllIds(Pendings(s.shadows)) + SentIds(s.sent))[id] == s.accepted[id];
  }

  /** Under restricted close-page no row buffer hit is ever scheduled, as the source asserts. */
  lemma RestrictedClosePageNeverHits(p: Timing, cfg: Config, queues: nat, steps: seq<Step>, s: State, k: nat,
                                     r: Request)
    requires Reached(p, cfg, queues, steps, s) && cfg.closePage == 2
    requires k < |s.shadows| && Sized(cfg, s.shadows[k]) && r.subarray < cfg.subarrays
    ensures !Hits(cfg, s.shadows[k], r)
  {
    ReachedInv(p, cfg, queues, steps, s);
    assert BankOk(p, cfg, k, s.shadows[k], s.devices[k], s);
  }

  /** A refresh is legal in every bank of its group whose own queue has been carried out. */
  lemma RefreshIsLegalForGroup(p: Timing, cfg: Config, queues: nat, steps: seq<Step>, s: State, k: nat, r: Request)
    requires Reached(p, cfg, queues, steps, s) && k < |s.shadows| && k < |s.devices|
    requires s.shadows[k].refreshQueued && Pending(s.shadows[k].queue) == []
    requires r.op.Refresh? && r.subarray < cfg.subarrays
    ensures Replay.Legal(Replay.ViewOf(s.devices[k]), r)
  {
    ReachedInv(p, cfg, queues, steps, s);
    var sh := s.shadows[k];
    assert BankOk(p, cfg, k, sh, s.devices[k], s);
    assert ShadowView(sh)[r.subarray] == None;
  }
}
