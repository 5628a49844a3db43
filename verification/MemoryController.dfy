/**
  The memory controller: transaction queues, one command queue and one row table per bank,
  refresh bookkeeping and wake-ups, all updated in place.
 */
module MemoryControllers {
  import opened Arithmetic
  import opened Commands
  import opened Sequences
  import opened ControllerSpec
  import opened Memories
  import opened RefreshSpec
  import Channel
  import ChannelRefresh
  import BankSpec
  import BankRuns
  import Wakeups
  import WakeupRuns

  class MemoryController {
    const cfg: Config
    const memory: Memory
    const refreshInterval: nat        // cycles between two refresh pulses of a bank group
    var transactionQueues: seq<seq<Request>>
    var shadows: seq<Shadow>          // indexed by command queue
    var lastIssueCycle: nat
    var cleanupAt: Option<nat>        // the pending cleanup callback
    var curQueue: nat
    var handledRefresh: Option<nat>
    var delayedRefreshCounter: seq<nat>   // indexed by bank group
    var nextRefreshRank: nat
    var nextRefreshBank: nat
    var wakes: set<nat>               // cycles of the scheduled command-queue callbacks
    var cycles: multiset<nat>         // cycles of the scheduled cycle events
    var pulseAt: seq<nat>             // cycle of the next refresh pulse, per bank group
    ghost var accepted: multiset<nat> // the transactions taken in
    ghost var log: seq<Channel.Sent>  // the commands sent
    ghost var ranAt: Option<nat>      // the last cycle in which a callback looked at the queue heads
    ghost var pulses: seq<nat>        // refresh pulses processed, per bank group
    ghost var refreshes: seq<nat>     // REFRESH commands queued, per bank group

    ghost predicate Valid()
      reads this`transactionQueues, this`shadows
    {
      && cfg.Valid()
      && |shadows| == cfg.ranks * cfg.banks
      && (forall k | 0 <= k < |shadows| :: Sized(cfg, shadows[k]))
      && forall q | 0 <= q < |transactionQueues| :: AllInRange(cfg, transactionQueues[q])
    }

    static ghost predicate AllInRange(cfg: Config, q: seq<Request>) { forall i | 0 <= i < |q| :: InRange(cfg, q[i]) }

    /** The controller and the banks behind it at cycle `now`. */
    ghost function State(now: nat): Wakeups.State
      reads this, memory.banks, memory.Subs()
    {
      Wakeups.State(Channel.State(transactionQueues, shadows, memory.States(), now, lastIssueCycle, cleanupAt,
        accepted, log),
                    wakes, cycles, handledRefresh, curQueue, delayedRefreshCounter, ranAt)
    }

    /** What the controller and its banks keep from callback to callback. */
    ghost predicate Coherent(now: nat)
      reads this, memory.banks, memory.Subs()
    {
      && RefreshValid() && memory.Valid() && memory.cfg == cfg
      && WakeupRuns.Valid(memory.p, cfg, State(now))
    }

    /** A callback may run: the commands sent in the cycle before were dropped. */
    ghost predicate MayRun(now: nat)
      reads this, memory.banks, memory.Subs()
    {
      Coherent(now) && cleanupAt != Some(now)
    }

    lemma CoherentFacts(now: nat)
      requires Coherent(now)
      ensures Backed(memory.States()) && HeadsRoute(cfg, shadows) && NoneDue(cfg, delayedRefreshCounter)
      ensures |memory.States()| == |shadows|
      ensures forall k | 0 <= k < |shadows| :: BankSpec.Inv(memory.p, memory.States()[k], now)
    {
      ChannelFacts(memory.p, cfg, State(now).channel);
    }

    /** The first refresh pulses of the bank groups are spread over the refresh interval. */
    constructor (memory: Memory, queues: nat, refreshInterval: nat)
      requires memory.cfg.Valid()
      ensures this.memory == memory && cfg == memory.cfg && this.refreshInterval == refreshInterval
      ensures memory.Valid() && memory.States() == Channel.Initial(cfg, queues).devices ==>
        Coherent(0) && State(0) == Wakeups.Initial(cfg, queues)
      ensures var n := cfg.ranks * cfg.Groups();
        |pulseAt| == n && forall g | 0 <= g < n :: pulseAt[g] == refreshInterval + g * (refreshInterval / n)
    {
      var cfg := memory.cfg;
      this.memory, this.cfg, this.refreshInterval := memory, cfg, refreshInterval;
      transactionQueues := seq(queues, _ => []);
      shadows := seq(cfg.ranks * cfg.banks, _ => InitialShadow(cfg));
      lastIssueCycle, cleanupAt, curQueue, handledRefresh := 0, None, 0, None;
      var n: nat := cfg.ranks * cfg.Groups();
      GroupInRange(cfg, 0, 0);
      delayedRefreshCounter := seq(n, _ => 0);
      pulses, refreshes := seq(n, _ => 0), seq(n, _ => 0);
      nextRefreshRank, nextRefreshBank, wakes, cycles := 0, 0, {}, multiset{};
      accepted, log, ranAt := multiset{}, [], None;
      var slice := refreshInterval / n;
      pulseAt := seq(n, g requires 0 <= g < n => refreshInterval + g * slice);
      new;
      WakeupRuns.InitialOk(memory.p, cfg, queues);
    }

    // -------------------------------------------------------------- transaction queues

    /**
      A new transaction goes to the back of queue `q`; if nothing is left to send for its bank, a cycle event
      follows.
     */
    method Enqueue(q: nat, r: Request, now: nat)
      requires Coherent(now) && r.arrival == now
      requires Wakeups.Enabled(memory.p, cfg, State(now), Wakeups.Accept(q, r))
      modifies this`transactionQueues, this`cycles, this`accepted
      ensures Coherent(now) && State(now) == Wakeups.Apply(memory.p, cfg, old(State(now)), Wakeups.Accept(q, r))
    {
      hide WakeupRuns.Valid, Wakeups.Enabled, Wakeups.Apply, Valid, RefreshValid, QueueId, Wakeups.EffectivelyEmpty;
      ghost var before := State(now);
      AcceptEffect(memory.p, cfg, before, q, r);
      WakeupRuns.StepKeepsValid(memory.p, cfg, before, Wakeups.Accept(q, r));
      Append(q, r, now);
      ghost var after := Wakeups.Apply(memory.p, cfg, before, Wakeups.Accept(q, r));
      assert memory.States() == before.channel.devices;
      assert State(now).channel == after.channel;
      assert State(now) == after;
    }

    method Append(q: nat, r: Request, now: nat)
      requires RefreshValid() && q < |transactionQueues| && InRange(cfg, r)
      modifies this`transactionQueues, this`cycles, this`accepted
      ensures RefreshValid() && accepted == old(accepted) + multiset{r.id}
      ensures transactionQueues == old(transactionQueues)[q := old(transactionQueues)[q] + [r]]
      ensures cycles == if Wakeups.EffectivelyEmpty(shadows, IdOf(cfg, r)) && now !in old(cycles) then
        old(cycles) + multiset{now} else old(cycles)
    {
      PushBack(q, r);
      accepted := accepted + multiset{r.id};
      CycleFor(r, now);
    }

    /** If nothing is left to send for the bank of `r`, a cycle event comes in this cycle. */
    method CycleFor(r: Request, now: nat)
      requires Valid() && InRange(cfg, r)
      modifies this`cycles
      ensures cycles == if Wakeups.EffectivelyEmpty(shadows, IdOf(cfg, r)) && now !in old(cycles) then
        old(cycles) + multiset{now} else old(cycles)
    {
      Channel.QueueIdIsBijective(cfg, r.rank, r.bank, r.rank, r.bank);
      var empty := EffectivelyEmpty(QueueId(cfg, r.rank, r.bank));
      if empty && now !in cycles { cycles := cycles + multiset{now}; }
    }

    method PushBack(q: nat, r: Request)
      requires Valid() && q < |transactionQueues| && InRange(cfg, r)
      modifies this`transactionQueues
      ensures Valid() && transactionQueues == old(transactionQueues)[q := old(transactionQueues)[q] + [r]]
    {
      transactionQueues := transactionQueues[q := transactionQueues[q] + [r]];
    }

    /** Whether some transaction waits for queue `id`. */
    method TransactionAvailable(id: nat) returns (available: bool)
      ensures available <==> Wakeups.Available(cfg, transactionQueues, id)
    {
      for q := 0 to |transactionQueues|
        invariant forall k | 0 <= k < q :: forall i | 0 <= i < |transactionQueues[k]| ::
          IdOf(cfg, transactionQueues[k][i]) != id
      {
        var queue := transactionQueues[q];
        for i := 0 to |queue|
          invariant forall l | 0 <= l < i :: IdOf(cfg, queue[l]) != id
        {
          if QueueId(cfg, queue[i].rank, queue[i].bank) == id { return true; }
        }
      }
      return false;
    }

    /** An interrupted write goes to the front of queue `q`. */
    method Prequeue(q: nat, r: Request)
      requires Valid() && q < |transactionQueues| && InRange(cfg, r)
      modifies this`transactionQueues
      ensures Valid() && transactionQueues == old(transactionQueues)[q := [r] + old(transactionQueues)[q]]
    {
      transactionQueues := transactionQueues[q := [r] + transactionQueues[q]];
    }

    // -------------------------------------------------------------- selectors

    /** The conditions of the four selectors. */
    method Test(sel: Selector, r: Request, now: nat) returns (selected: bool)
      requires Valid() && InRange(cfg, r)
      ensures selected == Matches(cfg, shadows, now, sel, r)
    {
      Channel.QueueIdIsBijective(cfg, r.rank, r.bank, r.rank, r.bank);
      var sh := shadows[QueueId(cfg, r.rank, r.bank)];
      if sh.queue != [] { return false; }
      var muxLevel := r.col / cfg.rowBuffer;
      var x := r.subarray;
      var common := !sh.needRefresh && !sh.refreshQueued && r.arrival != now;
      match sel
      case Starved =>
        selected := sh.activateQueued
          && (!sh.active[x] || sh.row[x] != r.row || sh.mux[x] != muxLevel)
          && sh.starvation[x] >= cfg.starvationThreshold && common;
      case RowBufferHit =>
        selected := sh.activateQueued && sh.active[x] && sh.row[x] == r.row && sh.mux[x] == muxLevel && common;
      case OldestReady => selected := sh.activateQueued && common;
      case ClosedBank => selected := !sh.activateQueued && common;
    }

    method LastRequest(rest: seq<Request>, r: Request) returns (last: bool)
      ensures last == IsLastRequest(cfg, rest, r)
    {
      last := true;
      if cfg.closePage == 0 {
        last := false;
      } else if cfg.closePage == 1 {
        for i := 0 to |rest|
          invariant forall k | 0 <= k < i :: !SameRow(rest[k], r)
        {
          if rest[i].rank == r.rank && rest[i].bank == r.bank && rest[i].row == r.row
             && rest[i].subarray == r.subarray {
            return false;
          }
        }
      }
    }

    /** Takes the first transaction that `sel` selects out of queue `q`, and flags a last request. */
    method Find(q: nat, sel: Selector, now: nat) returns (found: Option<Request>)
      requires Valid() && q < |transactionQueues|
      modifies this`transactionQueues
      ensures Valid()
      ensures var old_q := old(transactionQueues)[q];
        var i := FirstMatch(cfg, shadows, now, sel, old_q);
        if i == |old_q| then found == None && transactionQueues == old(transactionQueues)
        else found == Some(Taken(cfg, old_q, i))
             && transactionQueues == old(transactionQueues)[q := Without(old_q, i)]
    {
      var queue := transactionQueues[q];
      for i := 0 to |queue|
        invariant transactionQueues == old(transactionQueues)
        invariant forall k | 0 <= k < i :: !Matches(cfg, shadows, now, sel, queue[k])
      {
        assert InRange(cfg, queue[i]);
        var selected := Test(sel, queue[i], now);
        if selected {
          FirstMatchIs(cfg, shadows, now, sel, queue, i);
          var rest := queue[..i] + queue[i + 1..];
          transactionQueues := transactionQueues[q := rest];
          var last := LastRequest(rest, queue[i]);
          return Some(queue[i].(last := queue[i].last || last));
        }
      }
      FirstMatchIs(cfg, shadows, now, sel, queue, |queue|);
      return None;
    }

    // -------------------------------------------------------------- expansion

    /** Expands transaction `r` into its command queue. */
    method QueueCommands(r: Request, cached: bool, writing: bool) returns (ok: bool)
      requires Valid() && InRange(cfg, r)
      modifies this`shadows
      ensures Valid()
      ensures IdOf(cfg, r) < |shadows|
      ensures var out := Expand(cfg, old(shadows)[IdOf(cfg, r)], r, cached, writing);
        ok == out.ok && shadows == old(shadows)[IdOf(cfg, r) := out.shadow]
    {
      Channel.QueueIdIsBijective(cfg, r.rank, r.bank, r.rank, r.bank);
      var id := QueueId(cfg, r.rank, r.bank);
      var sh := shadows[id];
      var x := r.subarray;
      var miss := !sh.active[x] || sh.row[x] != r.row || sh.mux[x] != r.col / cfg.rowBuffer;
      if cached && (!sh.activateQueued || miss) {
        sh := sh.(queue := sh.queue + [r]);
      } else if !sh.activateQueued && sh.queue == [] {
        sh := OpenBank(sh, r, writing);
      } else if sh.activateQueued && miss && sh.queue == [] {
        sh := ReplaceRow(sh, r, writing);
      } else if sh.activateQueued && !miss {
        sh := HitRow(sh, r);
      } else {
        return false;
      }
      shadows := shadows[id := sh];
      return true;
    }

    /** QueueCommands, for a queue that is empty: the commands can be routed. */
    method QueueRouted(r: Request, cached: bool, writing: bool) returns (ok: bool)
      requires Valid() && HeadsRoute(cfg, shadows) && InRange(cfg, r) && (r.op.Read? || r.op.Write?)
      requires IdOf(cfg, r) < |shadows| && shadows[IdOf(cfg, r)].queue == []
      modifies this`shadows
      ensures Valid() && HeadsRoute(cfg, shadows)
      ensures var out := Expand(cfg, old(shadows)[IdOf(cfg, r)], r, cached, writing);
        ok == out.ok && shadows == old(shadows)[IdOf(cfg, r) := out.shadow]
    {
      ExpandRoutes(cfg, shadows[IdOf(cfg, r)], r, cached, writing);
      ok := QueueCommands(r, cached, writing);
      forall k | 0 <= k < |shadows| && shadows[k].queue != [] ensures HeadRoutes(cfg, shadows[k].queue[0], k) {
        assert k != IdOf(cfg, r) ==> shadows[k] == old(shadows)[k];
      }
    }

    /** Expands transaction `r` and schedules a wake-up for its commands; every caller ignores the result. */
    method IssueMemoryCommands(r: Request, cached: bool, writing: bool, now: nat,
                               ghost states: seq<BankSpec.State>)
      returns (ok: bool)
      requires RefreshValid() && Backed(states) && HeadsRoute(cfg, shadows) && InRange(cfg, r)
      requires IdOf(cfg, r) < |shadows| && shadows[IdOf(cfg, r)].queue == [] && (r.op.Read? || r.op.Write?)
      modifies this
      ensures RefreshValid() && HeadsRoute(cfg, shadows)
      ensures transactionQueues == old(transactionQueues) && lastIssueCycle == old(lastIssueCycle)
      ensures var out := Expand(cfg, old(shadows)[IdOf(cfg, r)], r, cached, writing);
        && ok == out.ok
        && AllExtend(cfg, old(shadows)[IdOf(cfg, r) := out.shadow], shadows)
        && (old(NoneDue(cfg, delayedRefreshCounter)) ==> shadows == old(shadows)[IdOf(cfg, r) := out.shadow])
      ensures ok && (!cached || Hits(cfg, old(shadows)[IdOf(cfg, r)], r)) ==>
        Covered(shadows, states, wakes, None, now)
      ensures var hit := Hits(cfg, old(shadows)[IdOf(cfg, r)], r);
        ok && old(NoneDue(cfg, delayedRefreshCounter)) && (cached ==> hit) ==>
        OnlyExpands() && wakes == old(wakes) + Wakeups.WakeSet(Wakeups.NextWake(cfg, shadows, states, now))
    {
      hide Expand, Sized, AllInRange, HeadsRoute, Covered, NoneDue, TakenFromDue, Shaped;
      var served := cached && !Hits(cfg, shadows[QueueId(cfg, r.rank, r.bank)], r);
      ok := QueueRouted(r, cached, writing);
      ExtendsReflexive(cfg, shadows);
      if ok && !served { ScheduleCommandWake(now, states); }
    }

    method OpenBank(before: Shadow, r: Request, writing: bool) returns (sh: Shadow)
      requires Sized(cfg, before) && r.subarray < cfg.subarrays && !before.activateQueued && before.queue == []
      ensures Sized(cfg, sh) && sh == Expand(cfg, before, r, false, writing).shadow
    {
      sh := before;
      var x := r.subarray;
      sh := sh.(activateQueued := true, active := sh.active[x := true], row := sh.row[x := r.row],
                mux := sh.mux[x := r.col / cfg.rowBuffer], starvation := sh.starvation[x := 0]);
      sh := sh.(queue := [MakeActivate(r, writing)]);
      if r.last {
        sh := sh.(queue := sh.queue + [MakeImplicitPrecharge(r)], active := sh.active[x := false],
                  row := sh.row[x := cfg.rows], mux := sh.mux[x := cfg.rows], activateQueued := false);
      } else {
        sh := sh.(queue := sh.queue + [r]);
      }
      assert sh.queue == Expand(cfg, before, r, false, writing).shadow.queue;
    }

    method ReplaceRow(before: Shadow, r: Request, writing: bool) returns (sh: Shadow)
      requires Sized(cfg, before) && r.subarray < cfg.subarrays && before.activateQueued && before.queue == []
      requires !Hits(cfg, before, r)
      ensures Sized(cfg, sh) && sh == Expand(cfg, before, r, false, writing).shadow
    {
      sh := before;
      var x := r.subarray;
      sh := sh.(starvation := sh.starvation[x := 0]);
      if sh.active[x] {
        sh := sh.(queue := [MakeCommand(Op.Precharge, sh.row[x], r.bank, r.rank, x)]);
      }
      sh := sh.(queue := sh.queue + [MakeActivate(r, writing)]);
      sh := sh.(queue := sh.queue + [r], active := sh.active[x := true], row := sh.row[x := r.row],
                mux := sh.mux[x := r.col / cfg.rowBuffer]);
      assert sh.queue == Expand(cfg, before, r, false, writing).shadow.queue;
    }

    method HitRow(before: Shadow, r: Request) returns (sh: Shadow)
      requires Sized(cfg, before) && r.subarray < cfg.subarrays && Hits(cfg, before, r)
      ensures Sized(cfg, sh)
      ensures forall cached, writing :: sh == Expand(cfg, before, r, cached, writing).shadow
    {
      sh := before;
      var x := r.subarray;
      sh := sh.(starvation := sh.starvation[x := sh.starvation[x] + 1]);
      if r.last {
        sh := sh.(queue := sh.queue + [MakeImplicitPrecharge(r)], active := sh.active[x := false],
                  row := sh.row[x := cfg.rows], mux := sh.mux[x := cfg.rows]);
        var idle := AllIdle(sh.active);
        if idle { sh := sh.(activateQueued := false); }
      } else {
        sh := sh.(queue := sh.queue + [r]);
      }
    }

    method AllIdle(active: seq<bool>) returns (idle: bool)
      ensures idle <==> !exists i :: 0 <= i < |active| && active[i]
    {
      for i := 0 to |active|
        invariant forall k | 0 <= k < i :: !active[k]
      {
        if active[i] { return false; }
      }
      return true;
    }

    // -------------------------------------------------------------- sending commands

    /** The commands in the queues can be routed. */
    ghost predicate QueuesRoute()
      reads this, memory.banks, memory.Subs()
    {
      memory.Valid() && memory.cfg == cfg && Shaped(cfg, memory.States()) && HeadsRoute(cfg, shadows)
    }

    /** The head of queue `k` may be sent now. */
    ghost predicate HeadIssuable(k: nat, now: nat)
      reads this, memory.banks, memory.Subs()
    {
      Wakeups.CanSend(memory.p, cfg, shadows, memory.States(), k, now)
    }

    method TestHead(k: nat, now: nat) returns (issuable: bool)
      requires Valid() && QueuesRoute() && k < |shadows|
      ensures issuable <==> lastIssueCycle != now && Wakeups.CanSend(memory.p, cfg, shadows, memory.States(), k, now)
    {
      issuable := false;
      if shadows[k].queue != [] && lastIssueCycle != now {
        assert HeadRoutes(cfg, shadows[k].queue[0], k);
        issuable := memory.IsIssuable(shadows[k].queue[0], now);
      }
    }

    /** The first issuable head in round-robin order, unless a command was sent in this cycle. */
    method NextToSend(now: nat) returns (id: Option<nat>)
      requires Valid() && QueuesRoute() && handledRefresh != Some(now)
      ensures id == Wakeups.ToSend(memory.p, cfg, State(now))
      ensures id.Some? ==> lastIssueCycle != now && HeadIssuable(id.value, now)
      ensures id.Some? ==> exists i: nat :: (i < |shadows| && id.value == Wakeups.Turn(curQueue, i, |shadows|)
        && Wakeups.NoneBefore(memory.p, cfg, shadows, memory.States(), curQueue, i, now))
      ensures id.None? && lastIssueCycle != now ==> forall k | 0 <= k < |shadows| :: !HeadIssuable(k, now)
    {
      hide Channel.Issuable, Wakeups.CanSend, Wakeups.NoneBefore, Wakeups.ToSend, HeadsRoute, Shaped, AllInRange, Sized;
      ghost var s := State(now);
      NothingTested(memory.p, cfg, s);
      for i := 0 to |shadows|
        invariant s == State(now)
        invariant lastIssueCycle != now ==>
          Wakeups.NoneBefore(memory.p, cfg, s.channel.shadows, s.channel.devices, s.curQueue, i, now)
      {
        var k := Wakeups.Turn(curQueue, i, |shadows|);
        var issuable := TestHead(k, now);
        assert s == State(now) && memory.States() == s.channel.devices;
        if lastIssueCycle != now { TestedOne(memory.p, cfg, s, i); }
        if issuable {
          ToSendIs(memory.p, cfg, s, i);
          assert k == Wakeups.Turn(curQueue, i, |shadows|)
            && Wakeups.NoneBefore(memory.p, cfg, shadows, memory.States(), curQueue, i, now);
          return Some(k);
        }
      }
      if lastIssueCycle != now {
        ToSendIs(memory.p, cfg, s, |shadows|);
        NoneAtAll(memory.p, cfg, shadows, s.channel.devices, curQueue, now);
      }
      return None;
    }

    /** If queue `id` is about to run empty and a transaction waits for it, a cycle event follows. */
    method WakeTransactions(id: nat, now: nat)
      requires id < |shadows|
      modifies this`cycles
      ensures cycles ==
        if |shadows[id].queue| == 1 && Wakeups.Available(cfg, transactionQueues, id)
          then old(cycles) + multiset{now + 1}
        else old(cycles)
    {
      if |shadows[id].queue| == 1 {
        var available := TransactionAvailable(id);
        if available { cycles := cycles + multiset{now + 1}; }
      }
    }

    /**
      Sends the head of queue `id`, marks it, and schedules the cleanup for the next cycle. If the
      queue runs empty and a transaction waits for it, a cycle event follows.
     */
    method SendHead(id: nat, m: Moment)
      requires Valid() && QueuesRoute() && HeadIssuable(id, m.now)
      modifies this`shadows, this`lastIssueCycle, this`cleanupAt, this`curQueue, this`cycles, this`log
      modifies memory.banks, memory.Subs()
      ensures Valid() && HeadsRoute(cfg, shadows)
      ensures lastIssueCycle == m.now && cleanupAt == Some(m.now + 1)
      ensures curQueue == if old(curQueue) + 1 > |shadows| then 0 else old(curQueue) + 1
      ensures AfterSend(memory.p, cfg, old(shadows), shadows, old(memory.States()), memory.States(), id, m)
      ensures log == old(log) + [Channel.Sent(m.now, old(shadows)[id].queue[0])]
      ensures cycles ==
        if |old(shadows)[id].queue| == 1 && Wakeups.Available(cfg, transactionQueues, id)
          then old(cycles) + multiset{m.now + 1}
        else old(cycles)
    {
      hide Channel.Issuable, AfterSend, HeadsRoute, Shaped, Wakeups.Available;
      var head := shadows[id].queue[0];
      Deliver(id, m);
      lastIssueCycle := m.now;
      cleanupAt := Some(m.now + 1);
      log := log + [Channel.Sent(m.now, head)];
      curQueue := curQueue + 1;
      if curQueue > |shadows| { curQueue := 0; }
    }

    /** The head of queue `id` goes to the banks that it reaches, and is marked. */
    method Deliver(id: nat, m: Moment)
      requires Valid() && QueuesRoute() && HeadIssuable(id, m.now)
      modifies this`shadows, this`cycles, memory.banks, memory.Subs()
      ensures Valid() && HeadsRoute(cfg, shadows)
      ensures AfterSend(memory.p, cfg, old(shadows), shadows, old(memory.States()), memory.States(), id, m)
      ensures cycles ==
        if |old(shadows)[id].queue| == 1 && Wakeups.Available(cfg, transactionQueues, id)
          then old(cycles) + multiset{m.now + 1}
        else old(cycles)
    {
      hide Channel.Issuable, Sized, AllInRange, Wakeups.Available;
      assert HeadRoutes(cfg, shadows[id].queue[0], id);
      WakeTransactions(id, m.now);
      memory.IssueCommand(shadows[id].queue[0], m);
      MarkSent(id);
      AfterSendRoutes(cfg, old(shadows), shadows, id);
    }

    /** Flags the head of queue `id` as sent; a refresh lets its bank group take transactions again. */
    method MarkSent(id: nat)
      requires Valid() && id < |shadows| && shadows[id].queue != []
      requires ValidRefresh(cfg, shadows[id].queue[0])
      modifies this`shadows
      ensures Valid() && |shadows| == |old(shadows)|
      ensures forall k | 0 <= k < |shadows| ::
        shadows[k] == Channel.ShadowAfter(cfg, old(shadows), id, old(shadows)[id].queue[0], k)
    {
      var head := shadows[id].queue[0];
      shadows := shadows[id := shadows[id].(queue := [head.(issued := true)] + shadows[id].queue[1..])];
      if head.op == Op.Refresh { var held := ResetRefreshQueued(head.rank, head.bank); }
    }

    /**
      Clears the refresh-queued flag of every bank of the group that starts at `head`. The source
      asserts of each that it was set; `held` tells whether that is so.
     */
    method ResetRefreshQueued(rank: nat, head: nat) returns (held: bool)
      requires Valid() && rank < cfg.ranks && head + cfg.perRefresh <= cfg.banks
      modifies this`shadows
      ensures Valid() && |shadows| == |old(shadows)|
      ensures held <==> ChannelRefresh.AllFlagged(cfg, old(shadows), rank, head)
      ensures forall k | 0 <= k < |shadows| ::
        shadows[k] == FlagCleared(old(shadows)[k], Channel.InGroup(cfg, rank, head, k))
    {
      held := true;
      for t := 0 to cfg.perRefresh
        invariant Valid() && |shadows| == |old(shadows)|
        invariant held <==> forall k | 0 <= k < |shadows| && Channel.InFirst(cfg, rank, head, t, k) ::
          old(shadows)[k].refreshQueued
        invariant forall k | 0 <= k < |shadows| ::
          shadows[k] == FlagCleared(old(shadows)[k], Channel.InFirst(cfg, rank, head, t, k))
      {
        Channel.QueueIdIsBijective(cfg, rank, head + t, rank, head);
        Channel.InFirstGrows(cfg, rank, head, t);
        NotInFirst(cfg, rank, head, t);
        var id := QueueId(cfg, rank, head + t);
        if !shadows[id].refreshQueued { held := false; }
        shadows := shadows[id := shadows[id].(refreshQueued := false)];
      }
    }

    /**
      Sends at most one command: the first issuable head in round-robin order. Nothing is sent in
      the cycle of a refresh, and nothing twice in a cycle.
     */
    method CycleCommandQueues(m: Moment) returns (sent: Option<nat>)
      requires Valid() && QueuesRoute() && cleanupAt != Some(m.now)
      modifies this`shadows, this`lastIssueCycle, this`cleanupAt, this`curQueue, this`cycles, this`log
      modifies memory.banks, memory.Subs()
      ensures Valid() && HeadsRoute(cfg, shadows)
      ensures State(m.now) == Wakeups.Sending(memory.p, cfg, old(State(m.now)), m.latency, m.bounce)
      ensures sent.None? ==> unchanged(this) && memory.States() == old(memory.States())
      ensures sent.None? && handledRefresh != Some(m.now) && lastIssueCycle != m.now ==>
        forall k | 0 <= k < |shadows| :: !HeadIssuable(k, m.now)
      ensures sent.Some? ==>
        && old(handledRefresh) != Some(m.now) && old(lastIssueCycle) != m.now
        && lastIssueCycle == m.now && cleanupAt == Some(m.now + 1)
        && old(HeadIssuable(sent.value, m.now))
        && AfterSend(memory.p, cfg, old(shadows), shadows, old(memory.States()), memory.States(), sent.value, m)
        && exists i: nat :: (i < |shadows| && sent.value == Wakeups.Turn(old(curQueue), i, |shadows|)
             && Wakeups.NoneBefore(memory.p, cfg, old(shadows), old(memory.States()), old(curQueue), i, m.now))
    {
      hide Channel.Issuable, Sized, AllInRange, HeadsRoute, Shaped, AfterSend, Wakeups.ToSend, Wakeups.NoneBefore,
        Wakeups.CanSend;
      if handledRefresh == Some(m.now) {
        NothingToSend(memory.p, cfg, State(m.now));
        return None;
      }
      ghost var before := State(m.now);
      sent := NextToSend(m.now);
      if sent.Some? {
        SendHead(sent.value, m);
        SendIsSending(memory.p, cfg, before, State(m.now), sent.value, m);
      }
    }

    // -------------------------------------------------------------- refresh

    /** Per bank group: pulses processed are the refreshes queued plus those still delayed. */
    ghost predicate RefreshValid()
      reads this`transactionQueues, this`shadows, this`delayedRefreshCounter, this`pulses, this`refreshes, this`pulseAt
      reads this`nextRefreshRank, this`nextRefreshBank
    {
      && Valid()
      && |delayedRefreshCounter| == |pulses| == |refreshes| == |pulseAt| == cfg.ranks * cfg.Groups()
      && (forall g | 0 <= g < |pulses| :: pulses[g] == refreshes[g] + delayedRefreshCounter[g])
      && nextRefreshRank < cfg.ranks && IsHead(cfg, nextRefreshBank)
    }

    ghost function Books(): RefreshBooks
      reads this
    {
      RefreshBooks(shadows, delayedRefreshCounter)
    }

    /** What refresh handling leaves alone, and how it moves the tables and counters. */
    twostate predicate OnlyRefreshes()
      reads this
    {
      && transactionQueues == old(transactionQueues) && lastIssueCycle == old(lastIssueCycle)
      && cleanupAt == old(cleanupAt) && curQueue == old(curQueue) && pulses == old(pulses)
      && cycles == old(cycles) && pulseAt == old(pulseAt)
      && accepted == old(accepted) && log == old(log) && ranAt == old(ranAt)
      && old(wakes) <= wakes
      && Progress(cfg, old(Books()), Books())
    }

    /** Nothing changed but the wake-ups that are scheduled. */
    twostate predicate OnlyWakes()
      reads this
    {
      && transactionQueues == old(transactionQueues) && shadows == old(shadows)
      && lastIssueCycle == old(lastIssueCycle) && cleanupAt == old(cleanupAt) && curQueue == old(curQueue)
      && handledRefresh == old(handledRefresh) && delayedRefreshCounter == old(delayedRefreshCounter)
      && nextRefreshRank == old(nextRefreshRank) && nextRefreshBank == old(nextRefreshBank)
      && pulses == old(pulses) && refreshes == old(refreshes) && cycles == old(cycles) && pulseAt == old(pulseAt)
      && accepted == old(accepted) && log == old(log) && ranAt == old(ranAt)
    }

    /** One refresh of the group was taken, and with it everything that was due. */
    twostate predicate RefreshedOne(rank: nat, head: nat, now: nat, states: seq<BankSpec.State>)
      reads this
    {
      && delayedRefreshCounter == TakeOne(old(delayedRefreshCounter), GroupIndex(cfg, rank, head))
      && handledRefresh == Some(now)
      && shadows == GroupFlagged(cfg, GroupQueued(cfg, old(shadows), rank, head), rank, head, false)
      && wakes == old(wakes) + Wakeups.WakeSet(Wakeups.NextWake(cfg, shadows, states, now))
    }

    /** Nothing changed but the command queues with their tables, and the wake-ups. */
    twostate predicate OnlyExpands()
      reads this
    {
      && transactionQueues == old(transactionQueues)
      && lastIssueCycle == old(lastIssueCycle) && cleanupAt == old(cleanupAt) && curQueue == old(curQueue)
      && handledRefresh == old(handledRefresh) && delayedRefreshCounter == old(delayedRefreshCounter)
      && cycles == old(cycles) && accepted == old(accepted) && log == old(log) && ranAt == old(ranAt)
    }

    method NeedRefresh(rank: nat, bank: nat) returns (need: bool)
      requires RefreshValid() && rank < cfg.ranks && bank < cfg.banks
      ensures need == NeedsRefresh(cfg, delayedRefreshCounter, rank, bank)
      ensures GroupIndex(cfg, rank, bank) < |delayedRefreshCounter|
    {
      GroupInRange(cfg, rank, bank);
      need := cfg.useRefresh && delayedRefreshCounter[GroupIndex(cfg, rank, bank)] >= cfg.refreshThreshold;
    }

    /** Sets or clears the need-refresh flag of a bank group. */
    method FlagGroup(rank: nat, head: nat, need: bool)
      requires Valid() && rank < cfg.ranks && head + cfg.perRefresh <= cfg.banks
      modifies this`shadows
      ensures Valid() && |shadows| == |old(shadows)|
      ensures forall k | 0 <= k < |shadows| ::
        shadows[k] == NeedFlag(old(shadows)[k], Channel.InGroup(cfg, rank, head, k), need)
    {
      for t := 0 to cfg.perRefresh
        invariant Valid() && |shadows| == |old(shadows)|
        invariant forall k | 0 <= k < |shadows| ::
          shadows[k] == NeedFlag(old(shadows)[k], Channel.InFirst(cfg, rank, head, t, k), need)
      {
        Channel.QueueIdIsBijective(cfg, rank, head + t, rank, head);
        Channel.InFirstGrows(cfg, rank, head, t);
        var id := QueueId(cfg, rank, head + t);
        shadows := shadows[id := shadows[id].(needRefresh := need)];
      }
    }

    /** Queues a refresh for a bank group: open rows are closed first, the head gets REFRESH. */
    method QueueGroup(rank: nat, head: nat)
      requires Valid() && rank < cfg.ranks && head + cfg.perRefresh <= cfg.banks
      modifies this`shadows
      ensures Valid() && shadows == GroupQueued(cfg, old(shadows), rank, head)
    {
      CloseGroup(rank, head);
      Channel.QueueIdIsBijective(cfg, rank, head, rank, head);
      Channel.BankOfQueueId(cfg, rank, head);
      var own := QueueId(cfg, rank, head);
      shadows := shadows[own := shadows[own].(queue := shadows[own].queue
        + [MakeCommand(Op.Refresh, 0, head, rank, 0)])];
      MarkGroupQueued(rank, head);
    }

    /** Queues the precharges that a refresh of the group needs. */
    method CloseGroup(rank: nat, head: nat)
      requires Valid() && rank < cfg.ranks && head + cfg.perRefresh <= cfg.banks
      modifies this`shadows
      ensures Valid() && |shadows| == |old(shadows)|
      ensures forall k | 0 <= k < |shadows| ::
        shadows[k] == if Channel.InGroup(cfg, rank, head, k) then
          CloseForRefresh(cfg, old(shadows)[k], rank, BankOf(cfg, k)) else old(shadows)[k]
    {
      hide QueueId, BankOf;
      for t := 0 to cfg.perRefresh
        invariant Valid() && |shadows| == |old(shadows)|
        invariant forall k | 0 <= k < |shadows| ::
          shadows[k] == if Channel.InFirst(cfg, rank, head, t, k) then
            CloseForRefresh(cfg, old(shadows)[k], rank, BankOf(cfg, k)) else old(shadows)[k]
      {
        Channel.QueueIdIsBijective(cfg, rank, head + t, rank, head);
        Channel.BankOfQueueId(cfg, rank, head + t);
        Channel.InFirstGrows(cfg, rank, head, t);
        var id := QueueId(cfg, rank, head + t);
        NotInFirst(cfg, rank, head, t);
        if shadows[id].activateQueued {
          shadows := shadows[id := CloseForRefresh(cfg, shadows[id], rank, head + t)];
        }
      }
    }

    /** Notes that a refresh is queued for every bank of the group. */
    method MarkGroupQueued(rank: nat, head: nat)
      requires Valid() && rank < cfg.ranks && head + cfg.perRefresh <= cfg.banks
      modifies this`shadows
      ensures Valid() && |shadows| == |old(shadows)|
      ensures forall k | 0 <= k < |shadows| ::
        shadows[k] == if Channel.InGroup(cfg, rank, head, k) then old(shadows)[k].(refreshQueued := true)
          else old(shadows)[k]
    {
      hide QueueId;
      for t := 0 to cfg.perRefresh
        invariant Valid() && |shadows| == |old(shadows)|
        invariant forall k | 0 <= k < |shadows| ::
          shadows[k] == if Channel.InFirst(cfg, rank, head, t, k) then old(shadows)[k].(refreshQueued := true)
            else old(shadows)[k]
      {
        Channel.QueueIdIsBijective(cfg, rank, head + t, rank, head);
        Channel.InFirstGrows(cfg, rank, head, t);
        var id := QueueId(cfg, rank, head + t);
        shadows := shadows[id := shadows[id].(refreshQueued := true)];
      }
    }

    /** Empty, or holding nothing but a command that was sent. */
    method EffectivelyEmpty(id: nat) returns (empty: bool)
      requires id < |shadows|
      ensures empty <==> Wakeups.EffectivelyEmpty(shadows, id)
    {
      empty := shadows[id].queue == [] || (|shadows[id].queue| == 1 && shadows[id].queue[0].issued);
    }

    /** Whether every queue of the group of `bank` is effectively empty. */
    method IsRefreshBankQueueEmpty(rank: nat, bank: nat) returns (empty: bool)
      requires Valid() && rank < cfg.ranks && bank < cfg.banks
      ensures empty <==> GroupEmpty(cfg, shadows, rank, GroupHead(cfg, bank), cfg.perRefresh)
    {
      var head := GroupHead(cfg, bank);
      GroupFits(cfg, bank);
      for i := 0 to cfg.perRefresh
        invariant GroupEmpty(cfg, shadows, rank, head, i)
      {
        Channel.QueueIdIsBijective(cfg, rank, head + i, rank, head);
        var one := EffectivelyEmpty(QueueId(cfg, rank, head + i));
        if !one {
          assert !QueueEmpty(cfg, shadows, rank, head + i);
          return false;
        }
      }
      return true;
    }

    /** Counts one refresh of a due group as queued. */
    method DecrementRefreshCounter(rank: nat, head: nat)
      requires RefreshValid() && rank < cfg.ranks && head < cfg.banks
      requires NeedsRefresh(cfg, delayedRefreshCounter, rank, head)
      modifies this`delayedRefreshCounter, this`refreshes
      ensures RefreshValid() && TakenFromDue(cfg, old(delayedRefreshCounter), delayedRefreshCounter)
      ensures Sum(delayedRefreshCounter) < Sum(old(delayedRefreshCounter))
      ensures var g := GroupIndex(cfg, rank, head);
        && g < |refreshes| && g < |delayedRefreshCounter| && 0 < old(delayedRefreshCounter)[g]
        && refreshes == old(refreshes)[g := old(refreshes)[g] + 1]
        && delayedRefreshCounter == old(delayedRefreshCounter)[g := old(delayedRefreshCounter)[g] - 1]
    {
      var g := GroupIndex(cfg, rank, head);
      GroupInRange(cfg, rank, head);
      SumUpdate(delayedRefreshCounter, g, delayedRefreshCounter[g] - 1);
      delayedRefreshCounter := delayedRefreshCounter[g := delayedRefreshCounter[g] - 1];
      refreshes := refreshes[g := refreshes[g] + 1];
    }

    method AdvanceRoundRobin()
      requires RefreshValid()
      modifies this`nextRefreshBank, this`nextRefreshRank
      ensures RefreshValid()
      ensures (nextRefreshRank, nextRefreshBank) == NextTurn(cfg, old(nextRefreshRank), old(nextRefreshBank))
    {
      nextRefreshBank := nextRefreshBank + cfg.perRefresh;
      NextHead(cfg, nextRefreshBank);
      if nextRefreshBank >= cfg.banks {
        nextRefreshBank := 0;
        nextRefreshRank := nextRefreshRank + 1;
        if nextRefreshRank == cfg.ranks { nextRefreshRank := 0; }
      }
    }

    /** Queues the refresh commands of a group. */
    method QueueRefreshCommands(rank: nat, head: nat)
      requires Valid() && HeadsRoute(cfg, shadows) && rank < cfg.ranks && IsHead(cfg, head)
      modifies this`shadows
      ensures Valid() && HeadsRoute(cfg, shadows) && AllExtend(cfg, old(shadows), shadows)
      ensures shadows == GroupQueued(cfg, old(shadows), rank, head)
    {
      HeadFits(cfg, head);
      GroupQueuedExtends(cfg, shadows, rank, head);
      QueueGroup(rank, head);
    }

    /** Clears the need-refresh flag of a group that is no longer due. */
    method ResetRefreshIfDone(rank: nat, head: nat)
      requires RefreshValid() && HeadsRoute(cfg, shadows) && rank < cfg.ranks && IsHead(cfg, head)
      modifies this`shadows
      ensures Valid() && HeadsRoute(cfg, shadows) && AllExtend(cfg, old(shadows), shadows)
      ensures shadows == if NeedsRefresh(cfg, delayedRefreshCounter, rank, head) then old(shadows)
                         else GroupFlagged(cfg, old(shadows), rank, head, false)
    {
      HeadFits(cfg, head);
      var still := NeedRefresh(rank, head);
      if !still {
        FlagGroup(rank, head, false);
        FlagsExtend(cfg, old(shadows), shadows, rank, head, false);
      } else {
        ExtendsReflexive(cfg, shadows);
      }
    }

    /** Takes one refresh of the group that starts at `head`, which is due. */
    method TakeRefresh(rank: nat, head: nat, now: nat)
      requires RefreshValid() && HeadsRoute(cfg, shadows)
      requires rank < cfg.ranks && IsHead(cfg, head) && NeedsRefresh(cfg, delayedRefreshCounter, rank, head)
      modifies this
      ensures RefreshValid() && OnlyRefreshes() && HeadsRoute(cfg, shadows)
      ensures handledRefresh == Some(now) && wakes == old(wakes)
      ensures Sum(delayedRefreshCounter) < Sum(old(delayedRefreshCounter))
      ensures var g := GroupIndex(cfg, rank, head);
        && g < |refreshes| && g < |delayedRefreshCounter| && 0 < old(delayedRefreshCounter)[g]
        && refreshes == old(refreshes)[g := old(refreshes)[g] + 1]
        && delayedRefreshCounter == old(delayedRefreshCounter)[g := old(delayedRefreshCounter)[g] - 1]
      ensures var queued := GroupQueued(cfg, old(shadows), rank, head);
        shadows == if NeedsRefresh(cfg, delayedRefreshCounter, rank, head) then queued
                   else GroupFlagged(cfg, queued, rank, head, false)
      ensures (nextRefreshRank, nextRefreshBank) == NextTurn(cfg, old(nextRefreshRank), old(nextRefreshBank))
    {
      hide GroupQueued, GroupFlagged, AllExtend, NextTurn, TakenFromDue, HeadsRoute;
      QueueAndCount(rank, head);
      AdvanceRoundRobin();
      handledRefresh := Some(now);
    }

    /** Queues one refresh of the group, counts it, and clears the group's flag if no more are due. */
    method QueueAndCount(rank: nat, head: nat)
      requires RefreshValid() && HeadsRoute(cfg, shadows)
      requires rank < cfg.ranks && IsHead(cfg, head) && NeedsRefresh(cfg, delayedRefreshCounter, rank, head)
      modifies this`shadows, this`delayedRefreshCounter, this`refreshes
      ensures RefreshValid() && HeadsRoute(cfg, shadows) && AllExtend(cfg, old(shadows), shadows)
      ensures TakenFromDue(cfg, old(delayedRefreshCounter), delayedRefreshCounter)
      ensures Sum(delayedRefreshCounter) < Sum(old(delayedRefreshCounter))
      ensures var g := GroupIndex(cfg, rank, head);
        && g < |refreshes| && g < |delayedRefreshCounter| && 0 < old(delayedRefreshCounter)[g]
        && refreshes == old(refreshes)[g := old(refreshes)[g] + 1]
        && delayedRefreshCounter == old(delayedRefreshCounter)[g := old(delayedRefreshCounter)[g] - 1]
      ensures var queued := GroupQueued(cfg, old(shadows), rank, head);
        shadows == if NeedsRefresh(cfg, delayedRefreshCounter, rank, head) then queued
                   else GroupFlagged(cfg, queued, rank, head, false)
    {
      hide GroupQueued, GroupFlagged, AllExtend, TakenFromDue, HeadsRoute;
      QueueRefreshCommands(rank, head);
      ghost var queued := shadows;
      DecrementRefreshCounter(rank, head);
      ResetRefreshIfDone(rank, head);
      ExtendsTransitive(cfg, old(shadows), queued, shadows);
    }

    /** The banks behind the controller are in `states`. */
    ghost predicate Backed(states: seq<BankSpec.State>)
      reads memory.banks, memory.Subs()
    {
      memory.Valid() && memory.cfg == cfg && memory.States() == states && Shaped(cfg, states)
    }

    /**
      Looks at every bank group once, from the round-robin position on, and takes one refresh of
      the first group that is due.
     */
    method HandleRefresh(now: nat, ghost states: seq<BankSpec.State>)
      returns (handled: bool, ghost group: Option<(nat, nat)>)
      requires RefreshValid() && Backed(states) && HeadsRoute(cfg, shadows)
      modifies this
      ensures RefreshValid() && OnlyRefreshes() && HeadsRoute(cfg, shadows)
      ensures handled == group.Some?
      ensures group.Some? ==>
        && FirstDue(cfg, old(delayedRefreshCounter), old(nextRefreshRank), old(nextRefreshBank), group.value.0,
          group.value.1)
        && (NoneDue(cfg, TakeOne(old(delayedRefreshCounter), GroupIndex(cfg, group.value.0, group.value.1))) ==>
              RefreshedOne(group.value.0, group.value.1, now, states))
      ensures !handled ==> unchanged(this) && NoneDue(cfg, delayedRefreshCounter)
      ensures handled ==> Sum(delayedRefreshCounter) < Sum(old(delayedRefreshCounter))
      ensures handled ==> Covered(shadows, states, wakes, None, now)
      decreases Sum(delayedRefreshCounter), 1
    {
      var due := FindDue();
      match due
      case Some(first) =>
        RefreshAndWake(first.0, first.1, now, states);
        return true, due;
      case None =>
        ExtendsReflexive(cfg, shadows);
        return false, None;
    }

    /** The first bank group in round-robin order, ranks before banks, that needs a refresh. */
    method FindDue() returns (due: Option<(nat, nat)>)
      requires RefreshValid()
      ensures due.None? ==> NoneDue(cfg, delayedRefreshCounter)
      ensures due.Some? ==> FirstDue(cfg, delayedRefreshCounter, nextRefreshRank, nextRefreshBank, due.value.0,
        due.value.1)
    {
      var groups := cfg.Groups();
      for rankIdx := 0 to cfg.ranks
        invariant forall r: nat | r < rankIdx ::
          RankScanned(cfg, delayedRefreshCounter, Wakeups.Turn(nextRefreshRank, r, cfg.ranks), nextRefreshBank, groups)
      {
        var i := Wakeups.Turn(nextRefreshRank, rankIdx, cfg.ranks);
        for bankIdx := 0 to groups
          invariant RankScanned(cfg, delayedRefreshCounter, i, nextRefreshBank, bankIdx)
        {
          var j := Scan(cfg, nextRefreshBank, bankIdx);
          ScanIsHead(cfg, nextRefreshBank, bankIdx);
          var need := NeedRefresh(i, j);
          if need { return Some((i, j)); }
        }
      }
      ScannedNoneDue(cfg, delayedRefreshCounter, nextRefreshRank, nextRefreshBank);
      return None;
    }

    method RefreshAndWake(rank: nat, head: nat, now: nat, ghost states: seq<BankSpec.State>)
      requires RefreshValid() && Backed(states) && HeadsRoute(cfg, shadows)
      requires rank < cfg.ranks && IsHead(cfg, head) && NeedsRefresh(cfg, delayedRefreshCounter, rank, head)
      modifies this
      ensures RefreshValid() && OnlyRefreshes() && HeadsRoute(cfg, shadows)
      ensures Sum(delayedRefreshCounter) < Sum(old(delayedRefreshCounter))
      ensures Covered(shadows, states, wakes, None, now)
      ensures NoneDue(cfg, TakeOne(old(delayedRefreshCounter), GroupIndex(cfg, rank, head))) ==>
        RefreshedOne(rank, head, now, states)
      decreases Sum(delayedRefreshCounter), 0
    {
      hide GroupQueued, GroupFlagged, Covered, NextTurn, HeadsRoute, Valid;
      TakeRefresh(rank, head, now);
      ghost var books := Books();
      assert delayedRefreshCounter == TakeOne(old(delayedRefreshCounter), GroupIndex(cfg, rank, head));
      TakenIsNotDue(cfg, old(delayedRefreshCounter), rank, head);
      ScheduleCommandWake(now, states);
      ProgressShrinks(cfg, books, Books());
      ProgressTransitive(cfg, old(Books()), books, Books());
    }

    /** A due bank group whose queues are empty is refreshed, unless a command was sent in this cycle. */
    method RefreshFirst(rank: nat, bank: nat, before: Option<nat>, now: nat, ghost states: seq<BankSpec.State>)
      returns (best: Option<nat>)
      requires RefreshValid() && Backed(states) && HeadsRoute(cfg, shadows)
      requires rank < cfg.ranks && bank < cfg.banks
      modifies this
      ensures RefreshValid() && OnlyRefreshes() && HeadsRoute(cfg, shadows)
      ensures StaysCovered(states, old(shadows), old(wakes), before, shadows, wakes, best, now)
      ensures old(NoneDue(cfg, delayedRefreshCounter)) ==> unchanged(this) && best == before
      decreases Sum(delayedRefreshCounter), 2
    {
      best := before;
      ExtendsReflexive(cfg, shadows);
      var need := NeedRefresh(rank, bank);
      if need {
        var empty := IsRefreshBankQueueEmpty(rank, bank);
        if empty {
          if lastIssueCycle != now {
            var handled;
            ghost var group;
            handled, group := HandleRefresh(now, states);
          } else {
            best := Some(now + 1);
          }
        }
      }
    }

    /** The head of queue `id`, if any, is tried no later than it asks for. */
    method VisitHead(id: nat, before: Option<nat>, now: nat, ghost states: seq<BankSpec.State>)
      returns (best: Option<nat>)
      requires Valid() && Backed(states) && HeadsRoute(cfg, shadows) && id < |shadows|
      ensures id < |states| && QueueCovered(shadows[id], states[id], wakes, best, now)
      ensures StaysCovered(states, shadows, wakes, before, shadows, wakes, best, now)
      ensures best == Wakeups.Earlier(before, Wakeups.Asks(shadows, states, id))
    {
      best := before;
      if shadows[id].queue == [] { return; }
      var head := shadows[id].queue[0];
      assert HeadRoutes(cfg, head, id);
      var next := memory.NextIssuable(head);
      best := Some(if best.Some? && best.value < next then best.value else next);
    }

    /** Looks at one bank: refreshes come first, then the head of its queue. */
    method VisitBank(rank: nat, bank: nat, before: Option<nat>, now: nat, ghost states: seq<BankSpec.State>)
      returns (best: Option<nat>)
      requires RefreshValid() && Backed(states) && HeadsRoute(cfg, shadows)
      requires rank < cfg.ranks && bank < cfg.banks
      modifies this
      ensures RefreshValid() && OnlyRefreshes() && HeadsRoute(cfg, shadows)
      ensures QueueId(cfg, rank, bank) < |shadows| == |states|
      ensures QueueCovered(shadows[QueueId(cfg, rank, bank)], states[QueueId(cfg, rank, bank)], wakes, best, now)
      ensures StaysCovered(states, old(shadows), old(wakes), before, shadows, wakes, best, now)
      ensures old(NoneDue(cfg, delayedRefreshCounter)) ==>
        unchanged(this) && best == Wakeups.Earlier(before, Wakeups.Asks(shadows, states, QueueId(cfg, rank, bank)))
      decreases Sum(delayedRefreshCounter), 3
    {
      Channel.QueueIdIsBijective(cfg, rank, bank, rank, bank);
      best := RefreshFirst(rank, bank, before, now, states);
      best := VisitHead(QueueId(cfg, rank, bank), best, now, states);
    }

    /** Looks at the banks of one rank. */
    method VisitRank(rank: nat, before: Option<nat>, now: nat, ghost states: seq<BankSpec.State>)
      returns (best: Option<nat>)
      requires RefreshValid() && Backed(states) && HeadsRoute(cfg, shadows) && rank < cfg.ranks
      modifies this
      ensures RefreshValid() && OnlyRefreshes() && HeadsRoute(cfg, shadows)
      ensures BanksCovered(cfg, shadows, states, wakes, best, rank, cfg.banks, now)
      ensures StaysCovered(states, old(shadows), old(wakes), before, shadows, wakes, best, now)
      ensures old(NoneDue(cfg, delayedRefreshCounter)) ==>
        unchanged(this) && best == Wakeups.Earlier(before, Wakeups.SoonestOfRank(cfg, shadows, states, rank, cfg.banks))
      decreases Sum(delayedRefreshCounter), 4
    {
      hide HeadsRoute, Valid, Wakeups.Asks, QueueCovered, BanksCovered, StaysCovered, Progress, NoneDue;
      best := before;
      StaysCoveredReflexive(states, shadows, wakes, best, now);
      NoBanksCovered(cfg, shadows, states, wakes, best, rank, now);
      ProgressReflexive(cfg, Books());
      for bank := 0 to cfg.banks
        invariant RefreshValid() && OnlyRefreshes() && HeadsRoute(cfg, shadows)
        invariant BanksCovered(cfg, shadows, states, wakes, best, rank, bank, now)
        invariant StaysCovered(states, old(shadows), old(wakes), before, shadows, wakes, best, now)
        invariant old(NoneDue(cfg, delayedRefreshCounter)) ==>
          unchanged(this) && best == Wakeups.Earlier(before, Wakeups.SoonestOfRank(cfg, shadows, states, rank, bank))
      {
        ghost var sh, books, was, wakes0 := shadows, Books(), best, wakes;
        ProgressShrinks(cfg, old(Books()), books);
        best := VisitBank(rank, bank, best, now, states);
        ProgressTransitive(cfg, old(Books()), books, Books());
        BanksStayCovered(cfg, states, sh, wakes0, was, shadows, wakes, best, rank, bank, now);
        OneMoreBank(cfg, shadows, states, wakes, best, rank, bank, now);
        StaysCoveredTransitive(states, old(shadows), old(wakes), before, sh, wakes0, was, shadows, wakes, best, now);
      }
    }

    /** Looks at every bank of every rank. */
    method VisitRanks(now: nat, ghost states: seq<BankSpec.State>) returns (best: Option<nat>)
      requires RefreshValid() && Backed(states) && HeadsRoute(cfg, shadows)
      modifies this
      ensures RefreshValid() && OnlyRefreshes() && HeadsRoute(cfg, shadows)
      ensures RanksCovered(cfg, shadows, states, wakes, best, cfg.ranks, now)
      ensures old(NoneDue(cfg, delayedRefreshCounter)) ==>
        unchanged(this) && best == Wakeups.Soonest(cfg, shadows, states, cfg.ranks)
      decreases Sum(delayedRefreshCounter), 5
    {
      hide HeadsRoute, Sized, AllInRange, BanksCovered, StaysCovered, Extends, TakenFromDue, NoneDue,
        Wakeups.SoonestOfRank;
      best := None;
      ExtendsReflexive(cfg, shadows);
      ProgressReflexive(cfg, Books());
      for rank := 0 to cfg.ranks
        invariant RefreshValid() && OnlyRefreshes() && HeadsRoute(cfg, shadows)
        invariant RanksCovered(cfg, shadows, states, wakes, best, rank, now)
        invariant old(NoneDue(cfg, delayedRefreshCounter)) ==>
          unchanged(this) && best == Wakeups.Soonest(cfg, shadows, states, rank)
      {
        ghost var sh, books, was, wakes0 := shadows, Books(), best, wakes;
        ProgressShrinks(cfg, old(Books()), books);
        best := VisitRank(rank, best, now, states);
        ProgressTransitive(cfg, old(Books()), books, Books());
        RanksStayCovered(cfg, states, sh, wakes0, was, shadows, wakes, best, rank, now);
      }
    }

    /** The next cycle at which some head asks to be tried, clipped to the cycle after `now`. */
    method NextIssuable(now: nat, ghost states: seq<BankSpec.State>) returns (best: Option<nat>)
      requires RefreshValid() && Backed(states) && HeadsRoute(cfg, shadows)
      modifies this
      ensures RefreshValid() && OnlyRefreshes() && HeadsRoute(cfg, shadows)
      ensures best.Some? ==> now < best.value
      ensures Covered(shadows, states, wakes, best, now)
      ensures old(NoneDue(cfg, delayedRefreshCounter)) ==>
        unchanged(this) && best == Wakeups.NextWake(cfg, shadows, states, now)
      decreases Sum(delayedRefreshCounter), 6
    {
      best := VisitRanks(now, states);
      AllRanksCovered(cfg, shadows, states, wakes, best, now);
      if best.Some? && best.value <= now {
        ghost var was := best;
        best := Some(now + 1);
        ClippedCovers(shadows, states, wakes, was, now);
      }
    }

    /** Schedules a command-queue callback for the next issuable cycle, once. */
    method ScheduleCommandWake(now: nat, ghost states: seq<BankSpec.State>)
      requires RefreshValid() && Backed(states) && HeadsRoute(cfg, shadows)
      modifies this
      ensures RefreshValid() && OnlyRefreshes() && HeadsRoute(cfg, shadows)
      ensures Covered(shadows, states, wakes, None, now)
      ensures old(NoneDue(cfg, delayedRefreshCounter)) ==>
        OnlyWakes() && wakes == old(wakes) + Wakeups.WakeSet(Wakeups.NextWake(cfg, shadows, states, now))
      decreases Sum(delayedRefreshCounter), 7
    {
      var next := NextIssuable(now, states);
      if next.Some? && next.value !in wakes {
        wakes := wakes + {next.value};
      }
    }

    /** One refresh pulse of the group that starts at `head`; the next one follows after the refresh interval. */
    method ProcessRefreshPulse(rank: nat, head: nat, now: nat)
      requires RefreshValid() && HeadsRoute(cfg, shadows) && rank < cfg.ranks && IsHead(cfg, head)
      modifies this`shadows, this`delayedRefreshCounter, this`pulses, this`pulseAt
      ensures RefreshValid() && HeadsRoute(cfg, shadows) && AllExtend(cfg, old(shadows), shadows)
      ensures var g := GroupIndex(cfg, rank, head);
        && g < |pulses| && pulses == old(pulses)[g := old(pulses)[g] + 1]
        && delayedRefreshCounter == old(delayedRefreshCounter)[g := old(delayedRefreshCounter)[g] + 1]
        && pulseAt == old(pulseAt)[g := now + refreshInterval]
      ensures shadows == if NeedsRefresh(cfg, delayedRefreshCounter, rank, head)
                         then GroupFlagged(cfg, old(shadows), rank, head, true) else old(shadows)
    {
      GroupInRange(cfg, rank, head);
      HeadFits(cfg, head);
      var g := GroupIndex(cfg, rank, head);
      delayedRefreshCounter := delayedRefreshCounter[g := delayedRefreshCounter[g] + 1];
      pulses := pulses[g := pulses[g] + 1];
      var need := NeedRefresh(rank, head);
      ExtendsReflexive(cfg, shadows);
      if need {
        FlagGroup(rank, head, true);
        FlagsExtend(cfg, old(shadows), shadows, rank, head, true);
      }
      pulseAt := pulseAt[g := now + refreshInterval];
    }

    lemma RefreshFacts()
      requires RefreshValid()
      ensures cfg.Valid() && |delayedRefreshCounter| == |pulses| == |refreshes| == |pulseAt| == cfg.ranks * cfg.Groups()
    {}

    /** A refresh pulse is counted, and a refresh taken if the group has reached the threshold. */
    method PulseAndHandle(rank: nat, head: nat, now: nat, ghost states: seq<BankSpec.State>) returns (handled: bool)
      requires RefreshValid() && Backed(states) && HeadsRoute(cfg, shadows) && NoneDue(cfg, delayedRefreshCounter)
      requires rank < cfg.ranks && IsHead(cfg, head)
      modifies this
      ensures RefreshValid() && HeadsRoute(cfg, shadows)
      ensures var g := GroupIndex(cfg, rank, head);
        && g < |pulses| && g < |old(delayedRefreshCounter)|
        && pulses == old(pulses)[g := old(pulses)[g] + 1] && pulseAt == old(pulseAt)[g := now + refreshInterval]
        && handled == Over(cfg, old(delayedRefreshCounter)[g := old(delayedRefreshCounter)[g] + 1], g)
        && delayedRefreshCounter ==
             if handled then old(delayedRefreshCounter)
               else old(delayedRefreshCounter)[g := old(delayedRefreshCounter)[g] + 1]
      ensures shadows ==
        if handled then GroupFlagged(cfg, GroupQueued(cfg, GroupFlagged(cfg, old(shadows), rank, head, true), rank,
          head), rank, head, false)
        else old(shadows)
      ensures wakes == if handled then old(wakes) + Wakeups.WakeSet(Wakeups.NextWake(cfg, shadows, states, now))
        else old(wakes)
      ensures handledRefresh == if handled then Some(now) else old(handledRefresh)
      ensures ranAt == if handled then Some(now) else old(ranAt)
      ensures transactionQueues == old(transactionQueues) && lastIssueCycle == old(lastIssueCycle)
      ensures cleanupAt == old(cleanupAt) && curQueue == old(curQueue) && cycles == old(cycles)
      ensures accepted == old(accepted) && log == old(log)
      ensures handled ==> Covered(shadows, states, wakes, None, now)
    {
      hide Progress, HeadsRoute, Covered, GroupFlagged, GroupQueued, Valid, RefreshValid, NoneDue, Over, GroupIndex;
      hide IsHead, Wakeups.NextWake, Wakeups.WakeSet, AllExtend, Shaped, FirstDue, TakeOne, Sum, NeedsRefresh;
      ghost var before := delayedRefreshCounter;
      RefreshFacts();
      ProcessRefreshPulse(rank, head, now);
      ghost var counted := delayedRefreshCounter;
      ghost var group;
      handled, group := HandleRefresh(now, states);
      if handled {
        ranAt := Some(now);
        FirstDueIsDue(cfg, counted, group.value.0, group.value.1);
        PulseIsTaken(cfg, before, rank, head, counted, group.value.0, group.value.1);
      } else {
        PulseIsQuiet(cfg, before, rank, head, counted);
      }
    }

    /** A refresh pulse and its handling: afterwards no group is due, as none was due before. */
    method RefreshCallback(rank: nat, head: nat, now: nat) returns (handled: bool)
      requires MayRun(now) && cfg.useRefresh && rank < cfg.ranks && IsHead(cfg, head)
      modifies this
      ensures Wakeups.Enabled(memory.p, cfg, old(State(now)), Wakeups.Pulse(rank, head))
      ensures Coherent(now) && State(now) == Wakeups.Apply(memory.p, cfg, old(State(now)), Wakeups.Pulse(rank, head))
      ensures var g := GroupIndex(cfg, rank, head);
        && g < |pulses| && pulses == old(pulses)[g := old(pulses)[g] + 1]
        && pulseAt == old(pulseAt)[g := now + refreshInterval]
      ensures handled ==> Covered(shadows, memory.States(), wakes, None, now)
    {
      hide HeadsRoute, Covered, GroupFlagged, GroupQueued, Valid, WakeupRuns.Valid, NoneDue, Over, GroupIndex;
      hide Wakeups.Enabled, Wakeups.Apply, IsHead, Wakeups.NextWake, Shaped;
      ghost var before, states := State(now), memory.States();
      CoherentFacts(now);
      PulseEffect(memory.p, cfg, before, rank, head);
      WakeupRuns.StepKeepsValid(memory.p, cfg, before, Wakeups.Pulse(rank, head));
      handled := PulseAndHandle(rank, head, now, states);
      ghost var after := Wakeups.Apply(memory.p, cfg, before, Wakeups.Pulse(rank, head));
      assert memory.States() == states;
      assert State(now).channel == after.channel;
      assert State(now) == after;
    }

    /** Schedules the next wake-up, while no refresh is due: nothing else changes. */
    method ScheduleWake(now: nat, ghost states: seq<BankSpec.State>)
      requires RefreshValid() && Backed(states) && HeadsRoute(cfg, shadows) && NoneDue(cfg, delayedRefreshCounter)
      modifies this
      ensures RefreshValid() && HeadsRoute(cfg, shadows) && OnlyWakes() && Covered(shadows, states, wakes, None, now)
      ensures State(now) == Wakeups.Woken(cfg, old(State(now)))
    {
      hide Progress, HeadsRoute, Covered, Valid, RefreshValid, NoneDue, Shaped, Wakeups.NextWake;
      ScheduleCommandWake(now, states);
      assert memory.States() == states;
    }

    /**
      A command-queue wake-up: the next one is scheduled, then at most one command is sent. Every
      head is covered afterwards; if one was sent, the next wake-up follows its cleanup at once.
     */
    method CommandQueueCallback(m: Moment) returns (sent: Option<nat>)
      requires MayRun(m.now) && m.now in wakes
      modifies this, memory.banks, memory.Subs()
      ensures Wakeups.Enabled(memory.p, cfg, old(State(m.now)), Wakeups.Wake(m.latency, m.bounce))
      ensures Coherent(m.now)
      ensures State(m.now) == Wakeups.Apply(memory.p, cfg, old(State(m.now)), Wakeups.Wake(m.latency, m.bounce))
      ensures sent.Some? ==> old(lastIssueCycle) != m.now && lastIssueCycle == m.now && cleanupAt == Some(m.now + 1)
      ensures sent.Some? ==> m.now + 1 in wakes
      ensures Covered(shadows, memory.States(), wakes, None, m.now)
    {
      hide AfterSend, Wakeups.CanSend, Covered, HeadsRoute, Valid, NoneDue, WakeupRuns.Valid, Wakeups.Woken,
        Wakeups.Sending;
      hide Wakeups.NoneBefore, Shaped, Wakeups.Enabled, Wakeups.Apply;
      ghost var before, states := State(m.now), memory.States();
      CoherentFacts(m.now);
      WakeEffect(memory.p, cfg, before, m);
      WakeupRuns.StepKeepsValid(memory.p, cfg, before, Wakeups.Wake(m.latency, m.bounce));
      BeginWake(m.now, states);
      sent := SendCovered(m, states);
      assert State(m.now) == Wakeups.Apply(memory.p, cfg, before, Wakeups.Wake(m.latency, m.bounce));
    }

    /** Sending a head that was covered leaves a wake-up for the next cycle, and so every head covered. */
    method SendCovered(m: Moment, ghost states: seq<BankSpec.State>) returns (sent: Option<nat>)
      requires Valid() && Backed(states) && HeadsRoute(cfg, shadows) && cleanupAt != Some(m.now)
      requires Covered(shadows, states, wakes, None, m.now)
      requires forall k | 0 <= k < |states| :: BankSpec.Inv(memory.p, states[k], m.now)
      modifies this`shadows, this`lastIssueCycle, this`cleanupAt, this`curQueue, this`cycles, this`log
      modifies memory.banks, memory.Subs()
      ensures Valid() && HeadsRoute(cfg, shadows)
      ensures State(m.now) == Wakeups.Sending(memory.p, cfg, old(State(m.now)), m.latency, m.bounce)
      ensures sent.Some? ==> old(lastIssueCycle) != m.now && lastIssueCycle == m.now && cleanupAt == Some(m.now + 1)
      ensures sent.Some? ==> m.now + 1 in wakes
      ensures Covered(shadows, memory.States(), wakes, None, m.now)
    {
      hide AfterSend, Wakeups.CanSend, Covered, HeadsRoute, Wakeups.Sending, Wakeups.NoneBefore, AllInRange, Sized;
      ghost var queued, scheduled := shadows, wakes;
      sent := CycleCommandQueues(m);
      if sent.Some? {
        CanSendIsQueue(memory.p, cfg, queued, states, sent.value, m.now);
        SentHeadIsCovered(memory.p, cfg, queued, states, scheduled, sent.value, m.now);
        CoveredAtOnce(shadows, memory.States(), wakes, m.now);
      }
    }

    /** The wake-up that is running is dropped, and the next one scheduled. */
    method BeginWake(now: nat, ghost states: seq<BankSpec.State>)
      requires RefreshValid() && Backed(states) && HeadsRoute(cfg, shadows) && NoneDue(cfg, delayedRefreshCounter)
      modifies this
      ensures RefreshValid() && HeadsRoute(cfg, shadows) && Backed(states) && Covered(shadows, states, wakes, None, now)
      ensures State(now) == Wakeups.Woken(cfg, old(State(now)).(wakes := old(wakes) - {now}, ranAt := Some(now)))
      ensures Valid() && shadows == old(shadows) && cleanupAt == old(cleanupAt) && lastIssueCycle == old(lastIssueCycle)
    {
      hide Covered, HeadsRoute, Valid, NoneDue, Shaped, Wakeups.Woken;
      ghost var before := State(now);
      wakes := wakes - {now};
      ranAt := Some(now);
      assert memory.States() == states;
      assert State(now) == before.(wakes := before.wakes - {now}, ranAt := Some(now));
      ScheduleWake(now, states);
      assert memory.States() == states;
    }

    /** Drops every command that was sent. */
    method CleanupCallback(now: nat)
      requires Coherent(now) && cleanupAt == Some(now)
      modifies this`shadows, this`cleanupAt
      ensures Wakeups.Enabled(memory.p, cfg, old(State(now)), Wakeups.Cleanup)
      ensures Coherent(now) && State(now) == Wakeups.Apply(memory.p, cfg, old(State(now)), Wakeups.Cleanup)
    {
      hide WakeupRuns.Valid;
      ghost var before := State(now);
      OnlyHeadsWereSent(now);
      WakeupRuns.StepKeepsValid(memory.p, cfg, before, Wakeups.Cleanup);
      RemoveSent();
      assert memory.States() == before.channel.devices;
      assert shadows == Wakeups.Apply(memory.p, cfg, before, Wakeups.Cleanup).channel.shadows;
      assert State(now) == Wakeups.Apply(memory.p, cfg, before, Wakeups.Cleanup);
    }

    lemma OnlyHeadsWereSent(now: nat)
      requires Coherent(now)
      ensures forall k | 0 <= k < |shadows| :: Unissued(shadows[k].queue) == Pending(shadows[k].queue)
    {
      var c := State(now).channel;
      forall k | 0 <= k < |shadows| ensures Unissued(shadows[k].queue) == Pending(shadows[k].queue) {
        assert Channel.BankOk(memory.p, cfg, k, c.shadows[k], c.devices[k], c);
        UnissuedIsPending(shadows[k].queue);
      }
    }

    method RemoveSent()
      requires RefreshValid()
      modifies this`shadows, this`cleanupAt
      ensures RefreshValid() && cleanupAt == None && |shadows| == |old(shadows)|
      ensures forall k | 0 <= k < |shadows| ::
        shadows[k] == old(shadows)[k].(queue := Unissued(old(shadows)[k].queue))
    {
      cleanupAt := None;
      for id := 0 to |shadows|
        invariant |shadows| == |old(shadows)| && cleanupAt == None
        invariant forall k | 0 <= k < id :: shadows[k] == old(shadows)[k].(queue := Unissued(old(shadows)[k].queue))
        invariant forall k | id <= k < |shadows| :: shadows[k] == old(shadows)[k]
      {
        var kept := RemoveIssued(shadows[id].queue);
        shadows := shadows[id := shadows[id].(queue := kept)];
      }
    }

    /** A cycle event follows in the next cycle while transactions wait for queues with nothing left to send. */
    method Reschedule(now: nat)
      requires Valid()
      modifies this`cycles
      ensures State(now) == Wakeups.Rescheduled(cfg, old(State(now)))
    {
      hide Wakeups.Available, Wakeups.EffectivelyEmpty, Valid;
      if now + 1 in cycles { return; }
      for id := 0 to |shadows|
        invariant unchanged(this) && State(now) == old(State(now))
        invariant forall k: nat | k < id ::
          !(Wakeups.EffectivelyEmpty(shadows, k) && Wakeups.Available(cfg, transactionQueues, k))
      {
        var empty := EffectivelyEmpty(id);
        var available := TransactionAvailable(id);
        if empty && available {
          cycles := cycles + multiset{now + 1};
          return;
        }
      }
      NoneBeyond(cfg, State(now).channel);
    }

    // -------------------------------------------------------------- the world around the controller

    /** A completion event of one subarray fires. */
    method CompleteEvent(id: nat, e: BankRuns.Step, now: nat)
      requires Coherent(now) && Wakeups.Enabled(memory.p, cfg, State(now), Wakeups.Event(id, e))
      modifies memory.banks, memory.Subs()
      ensures Coherent(now) && State(now) == Wakeups.Apply(memory.p, cfg, old(State(now)), Wakeups.Event(id, e))
    {
      hide WakeupRuns.Valid, BankRuns.Enabled;
      ghost var before := State(now);
      WakeupRuns.StepKeepsValid(memory.p, cfg, before, Wakeups.Event(id, e));
      EventIsAtSubArray(memory.p, memory.States(), id, e, now);
      memory.Complete(id, e, now);
      assert State(now) == Wakeups.Apply(memory.p, cfg, before, Wakeups.Event(id, e));
    }

    /** Time passes up to the next event: nothing changes but the clock. */
    lemma TimePasses(now: nat, to: nat)
      requires Coherent(now) && Wakeups.Enabled(memory.p, cfg, State(now), Wakeups.Advance(to))
      ensures Coherent(to) && State(to) == Wakeups.Apply(memory.p, cfg, State(now), Wakeups.Advance(to))
    {
      WakeupRuns.StepKeepsValid(memory.p, cfg, State(now), Wakeups.Advance(to));
    }

    method RemoveIssued(q: seq<Request>) returns (kept: seq<Request>)
      ensures kept == Unissued(q)
    {
      kept := [];
      for i := 0 to |q|
        invariant kept + Unissued(q[i..]) == Unissued(q)
      {
        if !q[i].issued { kept := kept + [q[i]]; }
      }
    }
  }

  function NeedFlag(sh: Shadow, inGroup: bool, need: bool): Shadow { if inGroup then sh.(needRefresh := need) else sh }

  ghost predicate QueueEmpty(cfg: Config, shadows: seq<Shadow>, rank: nat, bank: nat) {
    QueueId(cfg, rank, bank) < |shadows| && Pending(shadows[QueueId(cfg, rank, bank)].queue) == []
  }

  /** The queues of the first `n` banks from `head` are effectively empty. */
  ghost predicate GroupEmpty(cfg: Config, shadows: seq<Shadow>, rank: nat, head: nat, n: nat) {
    forall bank | head <= bank < head + n :: QueueEmpty(cfg, shadows, rank, bank)
  }

  lemma NextHead(cfg: Config, bank: nat)
    requires cfg.Valid() && bank >= cfg.perRefresh && (bank - cfg.perRefresh) % cfg.perRefresh == 0
    ensures bank % cfg.perRefresh == 0
  {
    var q := (bank - cfg.perRefresh) / cfg.perRefresh;
    assert bank == (q + 1) * cfg.perRefresh + 0;
    DivModOfRadix(cfg.perRefresh, q + 1, 0);
  }

  lemma FlagsExtend(cfg: Config, before: seq<Shadow>, after: seq<Shadow>, rank: nat, head: nat, need: bool)
    requires |after| == |before| && HeadsRoute(cfg, before)
    requires forall k | 0 <= k < |before| :: after[k] == NeedFlag(before[k], Channel.InGroup(cfg, rank, head, k), need)
    ensures AllExtend(cfg, before, after) && HeadsRoute(cfg, after)
  {
    forall k | 0 <= k < |before| ensures Extends(cfg, before[k], after[k]) {
      FlagExtends(cfg, before[k], need);
    }
    forall k | 0 <= k < |after| && after[k].queue != [] ensures HeadRoutes(cfg, after[k].queue[0], k) {
      assert HeadRoutes(cfg, before[k].queue[0], k);
    }
  }

  /** None of the first `n` groups in scan order from `start` is due in `rank`. */
  ghost predicate RankScanned(cfg: Config, delayed: seq<nat>, rank: nat, start: nat, n: nat) {
    forall b: nat | b < n :: !NeedsRefresh(cfg, delayed, rank, Scan(cfg, start, b))
  }

  /** Group `head` of `rank` needs a refresh, and none that the round-robin meets before it does. */
  ghost predicate FirstDue(cfg: Config, delayed: seq<nat>, startRank: nat, start: nat, rank: nat, head: nat) {
    && rank < cfg.ranks && IsHead(cfg, head) && NeedsRefresh(cfg, delayed, rank, head)
    && exists r: nat, b: nat :: (r < cfg.ranks && b < cfg.Groups()
         && rank == Wakeups.Turn(startRank, r, cfg.ranks) && head == Scan(cfg, start, b)
         && RankScanned(cfg, delayed, rank, start, b)
         && forall q: nat | q < r :: RankScanned(cfg, delayed, Wakeups.Turn(startRank, q, cfg.ranks), start,
           cfg.Groups()))
  }

  lemma FirstDueIsDue(cfg: Config, delayed: seq<nat>, rank: nat, head: nat)
    ensures forall startRank, start :: FirstDue(cfg, delayed, startRank, start, rank, head) ==>
      IsHead(cfg, head) && NeedsRefresh(cfg, delayed, rank, head)
  {}

  /** The round-robin position after one refresh: the next group, then the next rank. */
  function NextTurn(cfg: Config, rank: nat, bank: nat): (nat, nat) {
    if bank + cfg.perRefresh < cfg.banks then (rank, bank + cfg.perRefresh)
    else (if rank + 1 == cfg.ranks then 0 else rank + 1, 0)
  }

  /** The banks of the group are flagged as needing a refresh, or no longer. */
  ghost function GroupFlagged(cfg: Config, before: seq<Shadow>, rank: nat, head: nat, need: bool): seq<Shadow> {
    seq(|before|, k requires 0 <= k < |before| => NeedFlag(before[k], Channel.InGroup(cfg, rank, head, k), need))
  }

  lemma ScanIsHead(cfg: Config, start: nat, i: nat)
    requires cfg.Valid() && IsHead(cfg, start) && i < cfg.Groups()
    ensures IsHead(cfg, Scan(cfg, start, i))
  {
    var s := HeadIndex(cfg, start);
    ScanIs(cfg, s, i);
    var k := if s + i < cfg.Groups() then s + i else s + i - cfg.Groups();
    DivModOfRadix(cfg.perRefresh, k, 0);
  }

  lemma ScannedNoneDue(cfg: Config, delayed: seq<nat>, startRank: nat, start: nat)
    requires cfg.Valid() && IsHead(cfg, start) && |delayed| == cfg.ranks * cfg.Groups()
    requires forall r: nat | r < cfg.ranks ::
      RankScanned(cfg, delayed, Wakeups.Turn(startRank, r, cfg.ranks), start, cfg.Groups())
    ensures NoneDue(cfg, delayed)
  {
    forall g | 0 <= g < |delayed| ensures !Over(cfg, delayed, g) {
      var n := cfg.Groups();
      var rank, h := g / n, g % n;
      assert g == rank * n + h;
      if rank >= cfg.ranks { MulMonotone(n, cfg.ranks, rank); }
      var r := Wakeups.TurnCovers(startRank, cfg.ranks, rank);
      assert RankScanned(cfg, delayed, rank, start, n);
      HeadOfGroup(cfg, h);
      var b := ScanVisitsEachHeadOnce(cfg, start, h * cfg.perRefresh);
      assert !NeedsRefresh(cfg, delayed, rank, Scan(cfg, start, b));
    }
  }

  lemma HeadOfGroup(cfg: Config, h: nat)
    requires cfg.Valid() && h < cfg.Groups()
    ensures IsHead(cfg, h * cfg.perRefresh) && h * cfg.perRefresh / cfg.perRefresh == h
  {
    GroupsTimes(cfg);
    MulMonotone(cfg.perRefresh, h + 1, cfg.Groups());
    DivModOfRadix(cfg.perRefresh, h, 0);
  }

  /** Every queue with a head is woken for in time, by `wakes` or by `best`. */
  ghost predicate Covered(shadows: seq<Shadow>, states: seq<BankSpec.State>, wakes: set<nat>, best: Option<nat>,
                          now: nat) {
    forall k | 0 <= k < |shadows| && k < |states| :: QueueCovered(shadows[k], states[k], wakes, best, now)
  }

  ghost predicate QueueCovered(sh: Shadow, b: BankSpec.State, wakes: set<nat>, best: Option<nat>, now: nat) {
    sh.queue != [] && BankSpec.Routed(b, sh.queue[0]) ==>
      Covers(wakes, best, BankSpec.NextIssuable(b, sh.queue[0]), now)
  }

  lemma CanSendIsQueue(p: Timing, cfg: Config, shadows: seq<Shadow>, states: seq<BankSpec.State>, k: nat, now: nat)
    requires Wakeups.CanSend(p, cfg, shadows, states, k, now)
    ensures k < |shadows|
  {}

  /** A head that may be sent now has asked for a wake-up in the next cycle. */
  lemma SentHeadIsCovered(p: Timing, cfg: Config, shadows: seq<Shadow>, states: seq<BankSpec.State>, wakes: set<nat>,
                          k: nat, now: nat)
    requires Covered(shadows, states, wakes, None, now) && HeadsRoute(cfg, shadows)
    requires |shadows| == |states| && k < |shadows|
    requires Wakeups.CanSend(p, cfg, shadows, states, k, now) && BankSpec.Inv(p, states[k], now)
    ensures now + 1 in wakes
  {
    var head := shadows[k].queue[0];
    assert HeadRoutes(cfg, head, k);
    HeadReachesOwnBank(cfg, head, k);
    BankRuns.IssuableAfterNextIssuable(p, states[k], head, now);
    assert QueueCovered(shadows[k], states[k], wakes, None, now);
  }

  /** A command reaches the bank of its own queue, a refresh as the head of its group. */
  lemma HeadReachesOwnBank(cfg: Config, head: Request, k: nat)
    requires HeadRoutes(cfg, head, k)
    ensures Channel.Reaches(cfg, head, k)
  {}

  /** A wake-up in the next cycle covers everything. */
  lemma CoveredAtOnce(shadows: seq<Shadow>, states: seq<BankSpec.State>, wakes: set<nat>, now: nat)
    requires now + 1 in wakes
    ensures Covered(shadows, states, wakes, None, now)
  {}

  /** The first `n` banks of `rank` are woken for in time. */
  ghost predicate BanksCovered(cfg: Config, shadows: seq<Shadow>, states: seq<BankSpec.State>, wakes: set<nat>,
                               best: Option<nat>, rank: nat, n: nat, now: nat)
  {
    forall bank: nat | bank < n ::
      && QueueId(cfg, rank, bank) < |shadows| && QueueId(cfg, rank, bank) < |states|
      && QueueCovered(shadows[QueueId(cfg, rank, bank)], states[QueueId(cfg, rank, bank)], wakes, best, now)
  }

  ghost predicate RanksCovered(cfg: Config, shadows: seq<Shadow>, states: seq<BankSpec.State>, wakes: set<nat>,
                               best: Option<nat>, n: nat, now: nat)
  {
    forall rank: nat | rank < n :: BanksCovered(cfg, shadows, states, wakes, best, rank, cfg.banks, now)
  }

  /** Whatever was woken for in time still is. */
  ghost predicate StaysCovered(states: seq<BankSpec.State>, sh: seq<Shadow>, wakes: set<nat>, best: Option<nat>,
                               sh': seq<Shadow>, wakes': set<nat>, best': Option<nat>, now: nat)
  {
    && |sh'| == |sh|
    && forall k | 0 <= k < |sh| && k < |states| && QueueCovered(sh[k], states[k], wakes, best, now) ::
         QueueCovered(sh'[k], states[k], wakes', best', now)
  }

  lemma BanksStayCovered(cfg: Config, states: seq<BankSpec.State>, sh: seq<Shadow>, wakes: set<nat>, best: Option<nat>,
                         sh': seq<Shadow>, wakes': set<nat>, best': Option<nat>, rank: nat, n: nat, now: nat)
    requires StaysCovered(states, sh, wakes, best, sh', wakes', best', now)
    requires BanksCovered(cfg, sh, states, wakes, best, rank, n, now)
    ensures BanksCovered(cfg, sh', states, wakes', best', rank, n, now)
  {}

  lemma NoBanksCovered(cfg: Config, shadows: seq<Shadow>, states: seq<BankSpec.State>, wakes: set<nat>,
                       best: Option<nat>, rank: nat, now: nat)
    ensures BanksCovered(cfg, shadows, states, wakes, best, rank, 0, now)
  {}

  lemma OneMoreBank(cfg: Config, shadows: seq<Shadow>, states: seq<BankSpec.State>, wakes: set<nat>,
                    best: Option<nat>, rank: nat, n: nat, now: nat)
    requires BanksCovered(cfg, shadows, states, wakes, best, rank, n, now)
    requires QueueId(cfg, rank, n) < |shadows| == |states|
    requires QueueCovered(shadows[QueueId(cfg, rank, n)], states[QueueId(cfg, rank, n)], wakes, best, now)
    ensures BanksCovered(cfg, shadows, states, wakes, best, rank, n + 1, now)
  {}

  lemma StaysCoveredReflexive(states: seq<BankSpec.State>, sh: seq<Shadow>, wakes: set<nat>, best: Option<nat>,
                              now: nat)
    ensures StaysCovered(states, sh, wakes, best, sh, wakes, best, now)
  {}

  lemma StaysCoveredTransitive(states: seq<BankSpec.State>, sh: seq<Shadow>, wakes: set<nat>, best: Option<nat>,
                               sh1: seq<Shadow>, wakes1: set<nat>, best1: Option<nat>,
                               sh2: seq<Shadow>, wakes2: set<nat>, best2: Option<nat>, now: nat)
    requires StaysCovered(states, sh, wakes, best, sh1, wakes1, best1, now)
    requires StaysCovered(states, sh1, wakes1, best1, sh2, wakes2, best2, now)
    ensures StaysCovered(states, sh, wakes, best, sh2, wakes2, best2, now)
  {}

  lemma RanksStayCovered(cfg: Config, states: seq<BankSpec.State>, sh: seq<Shadow>, wakes: set<nat>, best: Option<nat>,
                         sh': seq<Shadow>, wakes': set<nat>, best': Option<nat>, n: nat, now: nat)
    requires StaysCovered(states, sh, wakes, best, sh', wakes', best', now)
    requires RanksCovered(cfg, sh, states, wakes, best, n, now)
    ensures RanksCovered(cfg, sh', states, wakes', best', n, now)
  {
    forall rank: nat | rank < n ensures BanksCovered(cfg, sh', states, wakes', best', rank, cfg.banks, now) {
      BanksStayCovered(cfg, states, sh, wakes, best, sh', wakes', best', rank, cfg.banks, now);
    }
  }

  lemma ClippedCovers(shadows: seq<Shadow>, states: seq<BankSpec.State>, wakes: set<nat>, best: Option<nat>, now: nat)
    requires Covered(shadows, states, wakes, best, now)
    ensures Covered(shadows, states, wakes, Some(now + 1), now)
  {
    forall k | 0 <= k < |shadows| && k < |states|
      ensures QueueCovered(shadows[k], states[k], wakes, Some(now + 1), now) {
      assert QueueCovered(shadows[k], states[k], wakes, best, now);
    }
  }

  lemma AllRanksCovered(cfg: Config, shadows: seq<Shadow>, states: seq<BankSpec.State>, wakes: set<nat>,
                        best: Option<nat>, now: nat)
    requires |shadows| == cfg.ranks * cfg.banks && RanksCovered(cfg, shadows, states, wakes, best, cfg.ranks, now)
    ensures Covered(shadows, states, wakes, best, now)
  {
    forall k | 0 <= k < |shadows| && k < |states| ensures QueueCovered(shadows[k], states[k], wakes, best, now) {
      var rank, bank := Channel.QueueIdIsOnto(cfg, k);
      assert BanksCovered(cfg, shadows, states, wakes, best, rank, cfg.banks, now);
    }
  }

  lemma ExpandRoutes(cfg: Config, sh: Shadow, r: Request, cached: bool, writing: bool)
    requires Sized(cfg, sh) && InRange(cfg, r) && sh.queue == [] && (r.op.Read? || r.op.Write?)
    ensures var q := Expand(cfg, sh, r, cached, writing).shadow.queue;
      q != [] ==> HeadRoutes(cfg, q[0], IdOf(cfg, r))
  {}

  /** The tables and counters that refresh handling changes. */
  datatype RefreshBooks = RefreshBooks(shadows: seq<Shadow>, delayed: seq<nat>)

  /** Refreshes were queued, for due groups only; with none due nothing changed. */
  ghost predicate Progress(cfg: Config, a: RefreshBooks, b: RefreshBooks) {
    && AllExtend(cfg, a.shadows, b.shadows)
    && TakenFromDue(cfg, a.delayed, b.delayed)
    && (NoneDue(cfg, a.delayed) ==> b == a)
  }

  lemma ProgressReflexive(cfg: Config, a: RefreshBooks)
    ensures Progress(cfg, a, a)
  {
    ExtendsReflexive(cfg, a.shadows);
  }

  lemma ProgressShrinks(cfg: Config, a: RefreshBooks, b: RefreshBooks)
    requires Progress(cfg, a, b)
    ensures Sum(b.delayed) <= Sum(a.delayed)
  {
    SumMonotone(a.delayed, b.delayed);
  }

  lemma ProgressTransitive(cfg: Config, a: RefreshBooks, b: RefreshBooks, c: RefreshBooks)
    requires Progress(cfg, a, b) && Progress(cfg, b, c)
    ensures Progress(cfg, a, c)
  {
    ExtendsTransitive(cfg, a.shadows, b.shadows, c.shadows);
  }

  lemma ExtendsReflexive(cfg: Config, shadows: seq<Shadow>)
    ensures AllExtend(cfg, shadows, shadows)
  {}

  lemma NotInFirst(cfg: Config, rank: nat, head: nat, t: nat)
    requires rank < cfg.ranks && head + t < cfg.banks
    ensures !Channel.InFirst(cfg, rank, head, t, QueueId(cfg, rank, head + t))
  {
    forall bank: nat | head <= bank < head + t ensures QueueId(cfg, rank, bank) != QueueId(cfg, rank, head + t) {
      Channel.QueueIdIsBijective(cfg, rank, bank, rank, head + t);
    }
  }

  function FlagCleared(sh: Shadow, clear: bool): Shadow { if clear then sh.(refreshQueued := false) else sh }

  ghost predicate ValidRefresh(cfg: Config, r: Request) {
    r.op.Refresh? ==> r.rank < cfg.ranks && r.bank + cfg.perRefresh <= cfg.banks
  }

  /** Tables and banks after the head of queue `id` was sent: one IssueHead step of the channel. */
  ghost predicate AfterSend(p: Timing, cfg: Config, before: seq<Shadow>, after: seq<Shadow>,
                            devices: seq<BankSpec.State>, devices': seq<BankSpec.State>, id: nat, m: Moment) {
    && id < |before| && before[id].queue != []
    && |after| == |before| == |devices| == |devices'|
    && forall k | 0 <= k < |before| ::
         && after[k] == Channel.ShadowAfter(cfg, before, id, before[id].queue[0], k)
         && (Channel.Reaches(cfg, before[id].queue[0], k) ==> BankSpec.Routed(devices[k], before[id].queue[0]))
         && devices'[k] == Channel.DeviceAfter(p, cfg, devices, before[id].queue[0], m, k)
  }

  /** Every bank has the configured subarrays, and its active queue names some of them. */
  ghost predicate Shaped(cfg: Config, states: seq<BankSpec.State>) {
    forall k | 0 <= k < |states| :: BankSpec.ActiveInRange(states[k]) && |states[k].subs| == cfg.subarrays
  }

  lemma AfterSendRoutes(cfg: Config, before: seq<Shadow>, after: seq<Shadow>, id: nat)
    requires HeadsRoute(cfg, before) && id < |before| == |after| && before[id].queue != []
    requires forall k | 0 <= k < |before| ::
      after[k] == Channel.ShadowAfter(cfg, before, id, before[id].queue[0], k)
    ensures HeadsRoute(cfg, after)
  {
    forall k | 0 <= k < |after| && after[k].queue != [] ensures HeadRoutes(cfg, after[k].queue[0], k) {
      assert HeadRoutes(cfg, before[k].queue[0], k);
    }
  }

  lemma NoneAtAll(p: Timing, cfg: Config, shadows: seq<Shadow>, states: seq<BankSpec.State>, start: nat, now: nat)
    requires Wakeups.NoneBefore(p, cfg, shadows, states, start, |shadows|, now)
    ensures forall k | 0 <= k < |shadows| :: !Wakeups.CanSend(p, cfg, shadows, states, k, now)
  {
    forall k | 0 <= k < |shadows| ensures !Wakeups.CanSend(p, cfg, shadows, states, k, now) {
      var i := Wakeups.TurnCovers(start, |shadows|, k);
    }
  }

  lemma FirstMatchIs(cfg: Config, shadows: seq<Shadow>, now: nat, sel: Selector, q: seq<Request>, i: nat)
    requires i <= |q| && forall k | 0 <= k < i :: !Matches(cfg, shadows, now, sel, q[k])
    requires i < |q| ==> Matches(cfg, shadows, now, sel, q[i])
    ensures FirstMatch(cfg, shadows, now, sel, q) == i
  {
    var j := FirstMatch(cfg, shadows, now, sel, q);
  }

  lemma ChannelFacts(p: Timing, cfg: Config, c: Channel.State)
    requires Channel.Inv(p, cfg, c)
    ensures |c.shadows| == |c.devices| == cfg.ranks * cfg.banks && Shaped(cfg, c.devices) && HeadsRoute(cfg, c.shadows)
    ensures forall k | 0 <= k < |c.shadows| :: BankSpec.Inv(p, c.devices[k], c.now)
  {
    forall k | 0 <= k < |c.shadows|
      ensures BankSpec.Inv(p, c.devices[k], c.now) && |c.devices[k].subs| == cfg.subarrays
      ensures c.shadows[k].queue != [] ==> HeadRoutes(cfg, c.shadows[k].queue[0], k) {
      assert Channel.BankOk(p, cfg, k, c.shadows[k], c.devices[k], c);
      if c.shadows[k].queue != [] { assert Channel.CommandOk(p, cfg, k, c.shadows[k].queue[0]); }
    }
  }

  lemma NoneBeyond(cfg: Config, c: Channel.State)
    requires forall k: nat | k < |c.shadows| ::
      !(Wakeups.EffectivelyEmpty(c.shadows, k) && Wakeups.Available(cfg, c.queues, k))
    ensures !Wakeups.Attends(cfg, c)
  {}

  lemma EventIsAtSubArray(p: Timing, devices: seq<BankSpec.State>, id: nat, e: BankRuns.Step, now: nat)
    requires id < |devices| && e.IsQuiet() && !e.Advance?
    requires BankRuns.Enabled(p, BankRuns.Config(devices[id], now, []), e)
    ensures (e.CompleteClosing? || e.CompleteWrite?) && e.sub < |devices[id].subs|
    ensures e.CompleteWrite? ==> devices[id].subs[e.sub].writing.Writing?
  {}

  /** The counters once a refresh of group `g` was taken. */
  function TakeOne(delayed: seq<nat>, g: nat): seq<nat> {
    if g < |delayed| && 0 < delayed[g] then delayed[g := delayed[g] - 1] else delayed
  }

  lemma TakenIsNotDue(cfg: Config, delayed: seq<nat>, rank: nat, head: nat)
    ensures NoneDue(cfg, TakeOne(delayed, GroupIndex(cfg, rank, head))) ==>
      !NeedsRefresh(cfg, TakeOne(delayed, GroupIndex(cfg, rank, head)), rank, head)
  {}

  /** Group heads have counters of their own. */
  lemma GroupIndexIsInjective(cfg: Config, rank: nat, head: nat, rank': nat, head': nat)
    requires cfg.Valid() && IsHead(cfg, head) && IsHead(cfg, head')
    requires GroupIndex(cfg, rank, head) == GroupIndex(cfg, rank', head')
    ensures rank == rank' && head == head'
  {
    var h := HeadIndex(cfg, head);
    var h' := HeadIndex(cfg, head');
    DivModOfRadix(cfg.perRefresh, h, 0);
    DivModOfRadix(cfg.perRefresh, h', 0);
    MixedRadixIsInjective(cfg.Groups(), rank, h, rank', h');
  }

  /** After a pulse no group but the one that was pulsed can be due. */
  lemma OnlyPulsedIsDue(cfg: Config, before: seq<nat>, rank: nat, head: nat, rank': nat, head': nat)
    requires cfg.Valid() && IsHead(cfg, head) && IsHead(cfg, head') && NoneDue(cfg, before)
    requires GroupIndex(cfg, rank, head) < |before|
    requires var g := GroupIndex(cfg, rank, head); NeedsRefresh(cfg, before[g := before[g] + 1], rank', head')
    ensures rank == rank' && head == head'
  {
    var g, g' := GroupIndex(cfg, rank, head), GroupIndex(cfg, rank', head');
    var pulsed := before[g := before[g] + 1];
    forall i | 0 <= i < |pulsed| && i != g ensures !Over(cfg, pulsed, i) { assert !Over(cfg, before, i); }
    GroupIndexIsInjective(cfg, rank, head, rank', head');
  }

  /** What a wake-up does to the state of the specification. */
  lemma WakeEffect(p: Timing, cfg: Config, s: Wakeups.State, m: Moment)
    requires Wakeups.ReadyToRun(s) && s.channel.now in s.wakes && m.now == s.channel.now
    ensures Wakeups.Enabled(p, cfg, s, Wakeups.Wake(m.latency, m.bounce))
    ensures var woken := Wakeups.Woken(cfg, s.(wakes := s.wakes - {m.now}, ranAt := Some(m.now)));
      && Wakeups.ReadyToRun(woken)
      && Wakeups.Apply(p, cfg, s, Wakeups.Wake(m.latency, m.bounce))
        == Wakeups.Sending(p, cfg, woken, m.latency, m.bounce)
  {}

  lemma PulseIsQuiet(cfg: Config, before: seq<nat>, rank: nat, head: nat, counted: seq<nat>)
    requires GroupIndex(cfg, rank, head) < |before| && NoneDue(cfg, counted)
    requires counted == before[GroupIndex(cfg, rank, head) := before[GroupIndex(cfg, rank, head)] + 1]
    ensures !NeedsRefresh(cfg, counted, rank, head)
  {}

  /** The refresh that is handled is the one that the pulse asked for, and nothing else is due. */
  lemma PulseIsTaken(cfg: Config, before: seq<nat>, rank: nat, head: nat, counted: seq<nat>, rank': nat, head': nat)
    requires cfg.Valid() && GroupIndex(cfg, rank, head) < |before| && IsHead(cfg, head) && IsHead(cfg, head')
    requires NoneDue(cfg, before) && NeedsRefresh(cfg, counted, rank', head')
    requires counted == before[GroupIndex(cfg, rank, head) := before[GroupIndex(cfg, rank, head)] + 1]
    ensures rank == rank' && head == head' && NeedsRefresh(cfg, counted, rank, head)
    ensures TakeOne(counted, GroupIndex(cfg, rank, head)) == before
  {
    OnlyPulsedIsDue(cfg, before, rank, head, rank', head');
  }

  /** What a pulse does to the state of the specification. */
  lemma PulseEffect(p: Timing, cfg: Config, s: Wakeups.State, rank: nat, head: nat)
    requires WakeupRuns.Valid(p, cfg, s) && Wakeups.ReadyToRun(s) && cfg.useRefresh && rank < cfg.ranks
    requires IsHead(cfg, head)
    ensures Wakeups.Enabled(p, cfg, s, Wakeups.Pulse(rank, head)) && GroupIndex(cfg, rank, head) < |s.delayed|
    ensures NoneDue(cfg, s.delayed) && Channel.IsGroup(cfg, rank, head)
    ensures var g := GroupIndex(cfg, rank, head);
      var counted := s.delayed[g := s.delayed[g] + 1];
      var c := s.channel.(shadows := GroupFlagged(cfg,
        GroupQueued(cfg, GroupFlagged(cfg, s.channel.shadows, rank, head, true),
                                                                   rank, head), rank, head, false));
      Wakeups.Apply(p, cfg, s, Wakeups.Pulse(rank, head)) ==
        if !Over(cfg, counted, g) then s.(delayed := counted)
        else Wakeups.Woken(cfg, s.(channel := c, handled := Some(s.channel.now), ranAt := Some(s.channel.now)))
  {
    HeadFits(cfg, head);
    GroupInRange(cfg, rank, head);
    RefreshedShadows(p, cfg, s.channel, rank, head);
  }

  lemma RefreshedShadows(p: Timing, cfg: Config, c: Channel.State, rank: nat, head: nat)
    requires c.cleanupAt != Some(c.now) && Channel.IsGroup(cfg, rank, head)
    ensures Wakeups.Refreshed(p, cfg, c, rank, head) == c.(shadows :=
      GroupFlagged(cfg, GroupQueued(cfg, GroupFlagged(cfg, c.shadows, rank, head, true), rank, head), rank, head,
        false))
  {
    hide QueueRefresh;
    var c1 := Channel.Apply(p, cfg, c, Channel.MarkRefresh(rank, head, true));
    var c2 := Channel.Apply(p, cfg, c1, Channel.RefreshGroup(rank, head));
    assert c1.shadows == GroupFlagged(cfg, c.shadows, rank, head, true);
    assert c2.shadows == GroupQueued(cfg, c1.shadows, rank, head);
    assert Channel.Apply(p, cfg, c2, Channel.MarkRefresh(rank, head, false)).shadows
      == GroupFlagged(cfg, c2.shadows, rank, head, false);
  }

  /** Accepting changes the transaction queues and the cycle events. */
  lemma AcceptEffect(p: Timing, cfg: Config, s: Wakeups.State, q: nat, r: Request)
    requires Wakeups.Enabled(p, cfg, s, Wakeups.Accept(q, r)) && r.arrival == s.channel.now
    ensures InRange(cfg, r) && q < |s.channel.queues|
    ensures Wakeups.Apply(p, cfg, s, Wakeups.Accept(q, r)) == s.(
      channel := s.channel.(queues := s.channel.queues[q := s.channel.queues[q] + [r]],
                            accepted := s.channel.accepted + multiset{r.id}),
      cycles := if Wakeups.EffectivelyEmpty(s.channel.shadows, IdOf(cfg, r)) && s.channel.now !in s.cycles then
        s.cycles + multiset{s.channel.now} else s.cycles)
  {
    assert r.(arrival := s.channel.now) == r;
  }

  lemma NothingToSend(p: Timing, cfg: Config, s: Wakeups.State)
    requires s.handled == Some(s.channel.now) || s.channel.lastIssue == s.channel.now
    ensures Wakeups.ToSend(p, cfg, s) == None
  {}

  lemma NothingTested(p: Timing, cfg: Config, s: Wakeups.State)
    ensures Wakeups.NoneBefore(p, cfg, s.channel.shadows, s.channel.devices, s.curQueue, 0, s.channel.now)
    ensures s.channel.lastIssue == s.channel.now || s.channel.shadows == [] ==> Wakeups.ToSend(p, cfg, s) == None
  {}

  lemma TestedOne(p: Timing, cfg: Config, s: Wakeups.State, i: nat)
    requires i < |s.channel.shadows|
    requires Wakeups.NoneBefore(p, cfg, s.channel.shadows, s.channel.devices, s.curQueue, i, s.channel.now)
    ensures Wakeups.NoneBefore(p, cfg, s.channel.shadows, s.channel.devices, s.curQueue, i + 1, s.channel.now)
      <==> !Wakeups.CanSend(p, cfg, s.channel.shadows, s.channel.devices,
        Wakeups.Turn(s.curQueue, i, |s.channel.shadows|), s.channel.now)
  {}

  /** The head that the search stops at is the one to be sent. */
  lemma ToSendIs(p: Timing, cfg: Config, s: Wakeups.State, i: nat)
    requires s.handled != Some(s.channel.now) && s.channel.lastIssue != s.channel.now && i <= |s.channel.shadows|
    requires Wakeups.NoneBefore(p, cfg, s.channel.shadows, s.channel.devices, s.curQueue, i, s.channel.now)
    requires i < |s.channel.shadows| ==>
      Wakeups.CanSend(p, cfg, s.channel.shadows, s.channel.devices, Wakeups.Turn(s.curQueue, i, |s.channel.shadows|),
        s.channel.now)
    ensures Wakeups.ToSend(p, cfg, s) ==
      if i < |s.channel.shadows| then Some(Wakeups.Turn(s.curQueue, i, |s.channel.shadows|)) else None
  {
    Wakeups.FirstTurnIs(p, cfg, s.channel.shadows, s.channel.devices, s.curQueue, 0, i, s.channel.now);
  }

  /** What SendHead leaves is what the specification says of sending. */
  lemma SendIsSending(p: Timing, cfg: Config, s: Wakeups.State, s': Wakeups.State, id: nat, m: Moment)
    requires Wakeups.ReadyToRun(s) && Wakeups.ToSend(p, cfg, s) == Some(id) && m.now == s.channel.now
    requires AfterSend(p, cfg, s.channel.shadows, s'.channel.shadows, s.channel.devices, s'.channel.devices, id, m)
    requires s'.channel == s.channel.(shadows := s'.channel.shadows, devices := s'.channel.devices, lastIssue := m.now,
      cleanupAt := Some(m.now + 1), sent := s.channel.sent + [Channel.Sent(m.now, s.channel.shadows[id].queue[0])])
    requires s' == s.(channel := s'.channel,
      curQueue := if s.curQueue + 1 > |s.channel.shadows| then 0 else s.curQueue + 1,
      cycles := if |s.channel.shadows[id].queue| == 1 && Wakeups.Available(cfg, s.channel.queues, id) then
        s.cycles + multiset{m.now + 1} else s.cycles)
    ensures s' == Wakeups.Sending(p, cfg, s, m.latency, m.bounce)
  {
    hide Wakeups.ToSend, Channel.Issuable, Channel.DeviceAfter, Channel.ShadowAfter, Wakeups.Available;
    Wakeups.SendIsEnabled(p, cfg, s, m.latency, m.bounce);
    var c := Channel.Apply(p, cfg, s.channel, Channel.IssueHead(id, m.latency, m.bounce));
    assert c.shadows == s'.channel.shadows;
    assert c.devices == s'.channel.devices;
  }
}
