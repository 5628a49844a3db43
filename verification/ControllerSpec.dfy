/**
  The memory controller's shadow of one bank: the command queue, and what the row state will
  be once the queue has been carried out. Transactions are chosen by selectors and expanded
  into activate, precharge and column commands.
 */
module ControllerSpec {
  import opened Commands
  import opened Sequences
  import Replay

  datatype Config = Config(
    ranks: positive, banks: positive, subarrays: positive, rows: nat, rowBuffer: positive,
    closePage: nat, starvationThreshold: nat, rankFirst: bool,
    useRefresh: bool, perRefresh: positive, refreshThreshold: positive)
  {
    /** The banks of a rank divide into refresh groups of equal size. */
    predicate Valid() { perRefresh <= banks && banks % perRefresh == 0 }

    function Groups(): nat { banks / perRefresh }
  }

  datatype Shadow = Shadow(
    queue: seq<Request>, activateQueued: bool,
    active: seq<bool>, row: seq<nat>, mux: seq<nat>, starvation: seq<nat>,
    needRefresh: bool, refreshQueued: bool)

  datatype Outcome = Outcome(ok: bool, shadow: Shadow)

  datatype Selector = Starved | RowBufferHit | OldestReady | ClosedBank

  // ---------------------------------------------------------------- tables

  ghost predicate Sized(cfg: Config, sh: Shadow) {
    |sh.active| == |sh.row| == |sh.mux| == |sh.starvation| == cfg.subarrays
  }

  function InitialShadow(cfg: Config): Shadow {
    Shadow([], false, seq(cfg.subarrays, _ => false), seq(cfg.subarrays, _ => cfg.rows),
           seq(cfg.subarrays, _ => cfg.rows), seq(cfg.subarrays, _ => 0), false, false)
  }

  function MuxLevel(cfg: Config, r: Request): nat { r.col / cfg.rowBuffer }

  /** The command queue of a bank; `rankFirst` is schedule scheme 1, otherwise scheme 2. */
  function QueueId(cfg: Config, rank: nat, bank: nat): nat {
    if cfg.rankFirst then bank * cfg.ranks + rank else rank * cfg.banks + bank
  }

  /** The bank whose command queue is `id`. */
  function BankOf(cfg: Config, id: nat): nat { if cfg.rankFirst then id / cfg.ranks else id % cfg.banks }

  /** The subarray of `r` has, in the shadow, the row and the column group of `r` open. */
  predicate Hits(cfg: Config, sh: Shadow, r: Request)
    requires Sized(cfg, sh) && r.subarray < cfg.subarrays
  {
    && sh.activateQueued && sh.active[r.subarray]
    && sh.row[r.subarray] == r.row && sh.mux[r.subarray] == MuxLevel(cfg, r)
  }

  // ---------------------------------------------------------------- selectors

  predicate Selects(cfg: Config, sel: Selector, sh: Shadow, r: Request, now: nat)
    requires Sized(cfg, sh) && r.subarray < cfg.subarrays
  {
    && sh.queue == [] && !sh.needRefresh && !sh.refreshQueued && r.arrival != now
    && match sel
       case Starved =>
         && sh.activateQueued && !Hits(cfg, sh, r)
         && cfg.starvationThreshold <= sh.starvation[r.subarray]
       case RowBufferHit => Hits(cfg, sh, r)
       case OldestReady => sh.activateQueued
       case ClosedBank => !sh.activateQueued
  }

  ghost predicate InRange(cfg: Config, r: Request) {
    r.rank < cfg.ranks && r.bank < cfg.banks && r.subarray < cfg.subarrays
  }

  function IdOf(cfg: Config, r: Request): nat { QueueId(cfg, r.rank, r.bank) }

  /** `sel` selects transaction `r` at cycle `now`. */
  ghost predicate Matches(cfg: Config, shadows: seq<Shadow>, now: nat, sel: Selector, r: Request) {
    && InRange(cfg, r) && IdOf(cfg, r) < |shadows|
    && Sized(cfg, shadows[IdOf(cfg, r)])
    && Selects(cfg, sel, shadows[IdOf(cfg, r)], r, now)
  }

  /** The first request of `q` that `sel` selects, or the length of `q`. */
  ghost function FirstMatch(cfg: Config, shadows: seq<Shadow>, now: nat, sel: Selector, q: seq<Request>): (i: nat)
    ensures i <= |q|
    ensures i < |q| ==> Matches(cfg, shadows, now, sel, q[i])
    ensures forall k | 0 <= k < i :: !Matches(cfg, shadows, now, sel, q[k])
  {
    if q == [] || Matches(cfg, shadows, now, sel, q[0]) then 0 else 1 + FirstMatch(cfg, shadows, now, sel, q[1..])
  }

  predicate SameRow(a: Request, b: Request) {
    a.rank == b.rank && a.bank == b.bank && a.row == b.row && a.subarray == b.subarray
  }

  /** Whether `r` should close its row: never (open page), if no hit is left, or always. */
  predicate IsLastRequest(cfg: Config, rest: seq<Request>, r: Request) {
    cfg.closePage != 0 && (cfg.closePage == 1 ==> forall k | 0 <= k < |rest| :: !SameRow(rest[k], r))
  }

  /** Element `i` of `q` with the last-request flag it gets when it is taken out. */
  function Taken(cfg: Config, q: seq<Request>, i: nat): Request
    requires i < |q|
  {
    q[i].(last := q[i].last || IsLastRequest(cfg, Without(q, i), q[i]))
  }

  // ---------------------------------------------------------------- expansion

  function MakeCached(r: Request): Request {
    r.(op := if r.op.Read? then CachedRead else CachedWrite)
  }

  function MakeActivate(r: Request, priority: bool): Request {
    r.(op := Op.Activate, bursts := 1, arrival := 0,
       last := false, forced := false, priority := priority, issued := false)
  }

  function MakeCommand(op: Op, row: nat, bank: nat, rank: nat, subarray: nat): Request {
    Request(0, op, row, 0, bank, rank, subarray, 1, 0, false, false, false, false)
  }

  function MakeImplicitPrecharge(r: Request): Request {
    if r.op.Read? then r.(op := Op.ReadPrecharge)
    else if r.op.Write? then r.(op := Op.WritePrecharge)
    else r
  }

  /** The tables once subarray `x` is to be closed, its row table set to `rows`. */
  function CloseEntry(cfg: Config, sh: Shadow, x: nat): Shadow
    requires Sized(cfg, sh) && x < cfg.subarrays
  {
    sh.(active := sh.active[x := false], row := sh.row[x := cfg.rows], mux := sh.mux[x := cfg.rows])
  }

  /** The tables once the row of `r` is to be opened. */
  function OpenEntry(cfg: Config, sh: Shadow, r: Request): Shadow
    requires Sized(cfg, sh) && r.subarray < cfg.subarrays
  {
    sh.(activateQueued := true, active := sh.active[r.subarray := true], row := sh.row[r.subarray := r.row],
        mux := sh.mux[r.subarray := MuxLevel(cfg, r)])
  }

  /**
    Queues the commands for transaction `r`. `cached` tells whether the child could serve `r`
    from a cache, `writing` whether the subarray is programming cells.
   */
  function Expand(cfg: Config, sh: Shadow, r: Request, cached: bool, writing: bool): Outcome
    requires Sized(cfg, sh) && r.subarray < cfg.subarrays
  {
    var x := r.subarray;
    if cached && !Hits(cfg, sh, r) then
      Outcome(true, sh.(queue := sh.queue + [r]))
    else if !sh.activateQueued && sh.queue == [] then
      var filled := OpenEntry(cfg, sh, r).(starvation := sh.starvation[x := 0]);
      var act := MakeActivate(r, writing);
      if r.last then
        Outcome(true, CloseEntry(cfg, filled, x).(
          queue := [act, MakeImplicitPrecharge(r)], activateQueued := false))
      else
        Outcome(true, filled.(queue := [act, r]))
    else if sh.activateQueued && !Hits(cfg, sh, r) && sh.queue == [] then
      var close := if sh.active[x] then [MakeCommand(Op.Precharge, sh.row[x], r.bank, r.rank, x)] else [];
      Outcome(true, OpenEntry(cfg, sh, r).(
        starvation := sh.starvation[x := 0], queue := close + [MakeActivate(r, writing), r]))
    else if Hits(cfg, sh, r) then
      var counted := sh.(starvation := sh.starvation[x := sh.starvation[x] + 1]);
      if r.last then
        var closed := CloseEntry(cfg, counted, x);
        Outcome(true, closed.(
          queue := sh.queue + [MakeImplicitPrecharge(r)],
          activateQueued := exists i | 0 <= i < |closed.active| :: closed.active[i]))
      else
        Outcome(true, counted.(queue := sh.queue + [r]))
    else
      Outcome(false, sh)
  }

  /** Closes every open row before a refresh. */
  function CloseForRefresh(cfg: Config, sh: Shadow, rank: nat, bank: nat): Shadow {
    if sh.activateQueued then
      sh.(queue := sh.queue + [MakeCommand(Op.PrechargeAll, 0, bank, rank, 0)],
          active := seq(cfg.subarrays, _ => false), row := seq(cfg.subarrays, _ => cfg.rows),
          mux := seq(cfg.subarrays, _ => cfg.rows), activateQueued := false)
    else
      sh
  }

  /** The bank is to be refreshed: open rows are closed and, at the group head, REFRESH queued. */
  function QueueRefresh(cfg: Config, sh: Shadow, rank: nat, bank: nat, isHead: bool): Shadow {
    var closed := CloseForRefresh(cfg, sh, rank, bank);
    closed.(
      queue := if isHead then closed.queue + [MakeCommand(Op.Refresh, 0, bank, rank, 0)] else closed.queue,
      refreshQueued := true)
  }

  /** The queue without the head that was already sent. */
  function Pending(q: seq<Request>): seq<Request> { if q != [] && q[0].issued then q[1..] else q }

  /** `q` without the commands that were sent. */
  function Unissued(q: seq<Request>): seq<Request> {
    if q == [] then [] else (if q[0].issued then [] else [q[0]]) + Unissued(q[1..])
  }

  lemma {:induction false} UnissuedKeepsAll(q: seq<Request>)
    requires forall k | 0 <= k < |q| :: !q[k].issued
    ensures Unissued(q) == q
  {
    if q != [] { UnissuedKeepsAll(q[1..]); }
  }

  /** When only the head was sent, cleanup leaves exactly the pending commands. */
  lemma UnissuedIsPending(q: seq<Request>)
    requires forall k | 0 < k < |q| :: !q[k].issued
    ensures Unissued(q) == Pending(q)
  {
    if q != [] { UnissuedKeepsAll(q[1..]); }
  }

  function MarkIssued(q: seq<Request>): seq<Request>
    requires q != []
  {
    [q[0].(issued := true)] + q[1..]
  }

  // ---------------------------------------------------------------- the shadow predicts the device

  function ShadowView(sh: Shadow): Replay.View
    requires |sh.active| == |sh.row|
  {
    seq(|sh.active|, i requires 0 <= i < |sh.active| => if sh.active[i] then Some(sh.row[i]) else None)
  }

  /** Replaying the commands not yet sent, on row state `v`, gives exactly the shadow tables. */
  ghost predicate Predicts(cfg: Config, sh: Shadow, v: Replay.View) {
    && Sized(cfg, sh) && |v| == cfg.subarrays
    && Replay.Run(v, Pending(sh.queue)) == Some(ShadowView(sh))
    && (sh.activateQueued <==> exists i :: 0 <= i < |sh.active| && sh.active[i])
    && forall k | 0 < k < |sh.queue| :: !sh.queue[k].issued
  }

  /** Restricted close-page never leaves a row open in the shadow. */
  ghost predicate ClosePageHolds(cfg: Config, sh: Shadow) { cfg.closePage == 2 ==> !sh.activateQueued }

  /** Expanding on an empty queue, in each of the three branches. */
  lemma ExpandClosedBank(cfg: Config, sh: Shadow, r: Request, writing: bool, v: Replay.View)
    requires Predicts(cfg, sh, v) && r.subarray < cfg.subarrays && sh.queue == []
    requires (r.op.Read? || r.op.Write?) && !r.issued && !sh.activateQueued
    ensures Expand(cfg, sh, r, false, writing).ok
    ensures Predicts(cfg, Expand(cfg, sh, r, false, writing).shadow, v)
  {
    var sh' := Expand(cfg, sh, r, false, writing).shadow;
    assert v == ShadowView(sh);
    ReplayThree(v, sh'.queue);
    if r.last {
      assert ShadowView(sh') == v[r.subarray := Some(r.row)][r.subarray := None];
    } else {
      assert sh'.active[r.subarray];
      assert ShadowView(sh') == v[r.subarray := Some(r.row)];
    }
  }

  lemma ExpandMiss(cfg: Config, sh: Shadow, r: Request, writing: bool, v: Replay.View)
    requires Predicts(cfg, sh, v) && r.subarray < cfg.subarrays && sh.queue == []
    requires (r.op.Read? || r.op.Write?) && !r.issued && sh.activateQueued && !Hits(cfg, sh, r)
    ensures Expand(cfg, sh, r, false, writing).ok
    ensures Predicts(cfg, Expand(cfg, sh, r, false, writing).shadow, v)
  {
    var sh' := Expand(cfg, sh, r, false, writing).shadow;
    assert v == ShadowView(sh);
    ReplayThree(v, sh'.queue);
    assert sh'.active[r.subarray];
    assert ShadowView(sh') == v[r.subarray := Some(r.row)] == v[r.subarray := None][r.subarray := Some(r.row)];
  }

  lemma ExpandHit(cfg: Config, sh: Shadow, r: Request, writing: bool, v: Replay.View)
    requires Predicts(cfg, sh, v) && r.subarray < cfg.subarrays && sh.queue == []
    requires (r.op.Read? || r.op.Write?) && !r.issued && Hits(cfg, sh, r)
    ensures Expand(cfg, sh, r, false, writing).ok
    ensures Predicts(cfg, Expand(cfg, sh, r, false, writing).shadow, v)
  {
    var sh' := Expand(cfg, sh, r, false, writing).shadow;
    assert v == ShadowView(sh);
    ReplayThree(v, sh'.queue);
    if r.last {
      assert ShadowView(sh') == v[r.subarray := None];
    } else {
      assert sh'.active[r.subarray];
      assert ShadowView(sh') == v;
    }
  }

  /** A request found by a selector is never refused, and the prediction stays exact. */
  lemma ExpandKeepsPrediction(cfg: Config, sel: Selector, sh: Shadow, r: Request, writing: bool, now: nat,
                              v: Replay.View)
    requires Predicts(cfg, sh, v) && r.subarray < cfg.subarrays && Selects(cfg, sel, sh, r, now)
    requires (r.op.Read? || r.op.Write?) && !r.issued
    ensures Expand(cfg, sh, r, false, writing).ok
    ensures Predicts(cfg, Expand(cfg, sh, r, false, writing).shadow, v)
  {
    if !sh.activateQueued {
      ExpandClosedBank(cfg, sh, r, writing, v);
    } else if Hits(cfg, sh, r) {
      ExpandHit(cfg, sh, r, writing, v);
    } else {
      ExpandMiss(cfg, sh, r, writing, v);
    }
  }

  lemma ReplayThree(v: Replay.View, q: seq<Request>)
    requires 1 <= |q| <= 3
    ensures Replay.Run(v, q) ==
      if !Replay.Legal(v, q[0]) then None
      else
        var v1 := Replay.After(v, q[0]);
        if |q| == 1 then Some(v1)
        else if !Replay.Legal(v1, q[1]) then None
        else
          var v2 := Replay.After(v1, q[1]);
          if |q| == 2 then Some(v2)
          else if !Replay.Legal(v2, q[2]) then None
          else Some(Replay.After(v2, q[2]))
  {
    if Replay.Legal(v, q[0]) {
      var v1 := Replay.After(v, q[0]);
      assert Replay.Run(v, q) == Replay.Run(v1, q[1..]);
      if |q| > 1 && Replay.Legal(v1, q[1]) {
        var v2 := Replay.After(v1, q[1]);
        assert Replay.Run(v1, q[1..]) == Replay.Run(v2, q[1..][1..]);
        assert q[1..][1..] == q[2..];
        if |q| > 2 && Replay.Legal(v2, q[2]) {
          assert Replay.Run(v2, q[2..]) == Replay.Run(Replay.After(v2, q[2]), q[2..][1..]);
        }
      }
    }
  }

  /** Appending a command that is legal after the queue keeps the prediction. */
  lemma AppendKeepsPrediction(cfg: Config, sh: Shadow, sh': Shadow, r: Request, v: Replay.View)
    requires Predicts(cfg, sh, v) && Replay.Legal(ShadowView(sh), r) && !r.issued
    requires Sized(cfg, sh') && sh'.queue == sh.queue + [r]
    requires ShadowView(sh') == Replay.After(ShadowView(sh), r)
    requires sh'.activateQueued <==> exists i :: 0 <= i < |sh'.active| && sh'.active[i]
    ensures Predicts(cfg, sh', v)
  {
    assert Pending(sh'.queue) == Pending(sh.queue) + [r];
    Replay.RunAppend(v, Pending(sh.queue), [r]);
    ReplayThree(ShadowView(sh), [r]);
  }

  lemma QueueRefreshKeepsPrediction(cfg: Config, sh: Shadow, rank: nat, bank: nat, isHead: bool, v: Replay.View)
    requires Predicts(cfg, sh, v)
    ensures Predicts(cfg, QueueRefresh(cfg, sh, rank, bank, isHead), v)
    ensures !QueueRefresh(cfg, sh, rank, bank, isHead).activateQueued
  {
    var closed := CloseForRefresh(cfg, sh, rank, bank);
    if sh.activateQueued {
      assert ShadowView(closed) == Replay.AllClosed(cfg.subarrays);
      AppendKeepsPrediction(cfg, sh, closed, MakeCommand(Op.PrechargeAll, 0, bank, rank, 0), v);
    }
    if isHead {
      AppendKeepsPrediction(cfg, closed, QueueRefresh(cfg, sh, rank, bank, isHead),
                            MakeCommand(Op.Refresh, 0, bank, rank, 0), v);
    }
  }

  /** Sending the head moves the device one step along the replay. */
  lemma SendKeepsPrediction(cfg: Config, sh: Shadow, v: Replay.View)
    requires Predicts(cfg, sh, v) && sh.queue != [] && !sh.queue[0].issued
    ensures Replay.Legal(v, sh.queue[0])
    ensures Predicts(cfg, sh.(queue := MarkIssued(sh.queue)), Replay.After(v, sh.queue[0]))
    ensures Predicts(cfg, sh.(queue := MarkIssued(sh.queue), refreshQueued := false), Replay.After(v, sh.queue[0]))
  {}

  lemma CleanupKeepsPrediction(cfg: Config, sh: Shadow, v: Replay.View)
    requires Predicts(cfg, sh, v)
    ensures Predicts(cfg, sh.(queue := Pending(sh.queue)), v)
  {}
}
