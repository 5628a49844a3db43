/**
  Which transactions are row buffer hits, and what transactions expand into, said over requests and the
  commands that were sent: the row and the column group of the last command to the subarray.
 */
module RowHits {
  import opened Commands
  import opened Sequences
  import opened ControllerSpec
  import Channel

  // ---------------------------------------------------------------- one transaction after another

  /** An activate is queued for the bank exactly if some row of it is open, as in every reachable state. */
  ghost predicate Tallied(sh: Shadow) { sh.activateQueued <==> exists i :: 0 <= i < |sh.active| && sh.active[i] }

  /** The rows and columns of both requests share a row buffer. */
  predicate SharesBuffer(cfg: Config, a: Request, b: Request) {
    a.row == b.row && a.col / cfg.rowBuffer == b.col / cfg.rowBuffer
  }

  /** A precharge of the subarray of `r`. */
  predicate Precharges(c: Request, r: Request) {
    c.op.Precharge? && c.rank == r.rank && c.bank == r.bank && c.subarray == r.subarray && !c.issued
  }

  /** An activate of the row of `r`, prioritized if cells of the subarray are being written. */
  predicate Activates(c: Request, r: Request, writing: bool) {
    && c.op.Activate? && c.rank == r.rank && c.bank == r.bank && c.subarray == r.subarray && c.row == r.row
    && c.col == r.col && c.priority == writing && !c.last && !c.issued
  }

  /** The column command of `r`, with an implicit precharge if `closing`. */
  predicate Serves(c: Request, r: Request, closing: bool) {
    c == r.(op := if !closing then r.op else if r.op.Read? then Op.ReadPrecharge else Op.WritePrecharge)
  }

  /** What a transaction to an idle bank is expanded into. */
  ghost predicate ExpandsInto(r: Request, writing: bool, bankOpen: bool, rowOpen: bool, hit: bool, q: seq<Request>) {
    if hit then |q| == 1 && Serves(q[0], r, r.last)
    else if !bankOpen then |q| == 2 && Activates(q[0], r, writing) && Serves(q[1], r, r.last)
    else if !rowOpen then |q| == 2 && Activates(q[0], r, writing) && Serves(q[1], r, false)
    else |q| == 3 && Precharges(q[0], r) && Activates(q[1], r, writing) && Serves(q[2], r, false)
  }

  lemma ExpansionIs(cfg: Config, sh: Shadow, r: Request, writing: bool)
    requires Sized(cfg, sh) && r.subarray < cfg.subarrays && sh.queue == [] && (r.op.Read? || r.op.Write?)
    ensures var rowOpen := sh.activateQueued && sh.active[r.subarray];
      var hit := rowOpen && sh.row[r.subarray] == r.row && sh.mux[r.subarray] == r.col / cfg.rowBuffer;
      ExpandsInto(r, writing, sh.activateQueued, rowOpen, hit, Expand(cfg, sh, r, false, writing).shadow.queue)
  {}

  /** What expanding a transaction makes of the tables of its subarray. */
  lemma ExpansionOpens(cfg: Config, sh: Shadow, r: Request, writing: bool)
    requires Sized(cfg, sh) && r.subarray < cfg.subarrays && sh.queue == [] && (r.op.Read? || r.op.Write?)
    requires Tallied(sh)
    ensures var x, sh' := r.subarray, Expand(cfg, sh, r, false, writing).shadow;
      var hit := sh.active[x] && sh.row[x] == r.row && sh.mux[x] == r.col / cfg.rowBuffer;
      && Sized(cfg, sh')
      && (sh'.active[x] <==> !r.last || (sh.activateQueued && !hit))
      && (sh'.active[x] ==> sh'.activateQueued && sh'.row[x] == r.row && sh'.mux[x] == r.col / cfg.rowBuffer)
      && forall y | 0 <= y < cfg.subarrays && y != x ::
           sh'.active[y] == sh.active[y] && sh'.row[y] == sh.row[y] && sh'.mux[y] == sh.mux[y]
  {}

  /**
    After a transaction `a` that does not close its row, a transaction `b` for the same subarray is found
    by the hit selector, and is a column command alone, if and only if it shares the row buffer of `a`;
    otherwise no hit is found, and its commands begin with PRECHARGE and ACTIVATE.
   */
  lemma NextIsHitIff(cfg: Config, sh: Shadow, a: Request, b: Request, writing: bool, writing': bool, now: nat)
    requires Sized(cfg, sh) && a.subarray == b.subarray < cfg.subarrays && sh.queue == [] && !a.last
    requires Tallied(sh)
    requires (a.op.Read? || a.op.Write?) && (b.op.Read? || b.op.Write?) && b.arrival != now
    requires !sh.needRefresh && !sh.refreshQueued
    ensures var emptied := Expand(cfg, sh, a, false, writing).shadow.(queue := []);
      && Sized(cfg, emptied)
      && (Selects(cfg, RowBufferHit, emptied, b, now) <==> SharesBuffer(cfg, a, b))
      && ExpandsInto(b, writing', true, true, SharesBuffer(cfg, a, b),
                     Expand(cfg, emptied, b, false, writing').shadow.queue)
  {
    var emptied := Expand(cfg, sh, a, false, writing).shadow.(queue := []);
    ExpansionOpens(cfg, sh, a, writing);
    RefreshFlagsStay(cfg, sh, a, writing);
    hide Expand;
    ExpansionIs(cfg, emptied, b, writing');
  }

  /**
    A transaction that no cache serves is refused if and only if commands wait for its bank and it is no hit,
    and then nothing changes; one that a cache serves, and that is no hit, is queued as it is.
   */
  lemma RefusedIff(cfg: Config, sh: Shadow, r: Request, cached: bool, writing: bool)
    requires Sized(cfg, sh) && r.subarray < cfg.subarrays
    ensures var x, out := r.subarray, Expand(cfg, sh, r, cached, writing);
      var hit := sh.activateQueued && sh.active[x] && sh.row[x] == r.row && sh.mux[x] == r.col / cfg.rowBuffer;
      && (!out.ok <==> !cached && sh.queue != [] && !hit)
      && (!out.ok ==> out.shadow == sh)
      && (cached && !hit ==> out.shadow == sh.(queue := sh.queue + [r]))
  {}

  lemma RefreshFlagsStay(cfg: Config, sh: Shadow, r: Request, writing: bool)
    requires Sized(cfg, sh) && r.subarray < cfg.subarrays
    ensures var sh' := Expand(cfg, sh, r, false, writing).shadow;
      sh'.needRefresh == sh.needRefresh && sh'.refreshQueued == sh.refreshQueued
  {}

  // ---------------------------------------------------------------- closing rows

  /**
    The row policies. Open page never flags a last request, restricted close-page always does, and relaxed
    close-page (1) if and only if no other waiting transaction is for the same row.
   */
  lemma LastFlagIff(cfg: Config, q: seq<Request>, i: nat)
    requires i < |q| && !q[i].last
    ensures Taken(cfg, q, i) == q[i].(last := Taken(cfg, q, i).last)
    ensures cfg.closePage == 0 ==> !Taken(cfg, q, i).last
    ensures cfg.closePage >= 2 ==> Taken(cfg, q, i).last
    ensures cfg.closePage == 1 ==> (Taken(cfg, q, i).last <==> forall k | 0 <= k < |q| && k != i ::
      !(q[k].rank == q[i].rank && q[k].bank == q[i].bank && q[k].subarray == q[i].subarray && q[k].row == q[i].row))
  {
    var rest := Without(q, i);
    forall k | 0 <= k < |q| && k != i ensures q[k] == rest[if k < i then k else k - 1] {}
    forall k | 0 <= k < |rest| ensures rest[k] == q[if k < i then k else k + 1] {}
  }

  /**
    Under relaxed close-page the row of a scheduled transaction is closed behind it if and only if no other
    waiting transaction is for that row, and it found either no row of the bank open or its own: a
    transaction that opens a row beside or instead of another leaves it open.
   */
  lemma RelaxedClosesIff(cfg: Config, sh: Shadow, q: seq<Request>, i: nat, writing: bool)
    requires cfg.closePage == 1 && i < |q| && !q[i].last && (q[i].op.Read? || q[i].op.Write?)
    requires Sized(cfg, sh) && q[i].subarray < cfg.subarrays && sh.queue == []
    requires Tallied(sh)
    ensures var r, x := Taken(cfg, q, i), q[i].subarray;
      var hit := sh.active[x] && sh.row[x] == r.row && sh.mux[x] == r.col / cfg.rowBuffer;
      && r.subarray == x && Sized(cfg, Expand(cfg, sh, r, false, writing).shadow)
      && (Expand(cfg, sh, r, false, writing).shadow.active[x] <==>
            || (sh.activateQueued && !hit)
            || exists k | 0 <= k < |q| && k != i ::
                 && q[k].rank == q[i].rank && q[k].bank == q[i].bank
                 && q[k].subarray == q[i].subarray && q[k].row == q[i].row)
  {
    LastFlagIff(cfg, q, i);
    ExpansionOpens(cfg, sh, Taken(cfg, q, i), writing);
    hide Expand, Taken;
  }

  // ---------------------------------------------------------------- the commands sent decide

  /** The latest command for subarray `x` of queue `id`; PRECHARGE_ALL is for every subarray. */
  function Latest(cfg: Config, log: seq<Request>, id: nat, x: nat): Option<Request> {
    if log == [] then None
    else
      var r := log[|log| - 1];
      if IdOf(cfg, r) == id && (r.subarray == x || r.op.PrechargeAll?) then Some(r)
      else Latest(cfg, log[..|log| - 1], id, x)
  }

  function CommandsOf(sent: seq<Channel.Sent>): seq<Request> {
    seq(|sent|, i requires 0 <= i < |sent| => sent[i].r)
  }

  /** The tables of a subarray, once everything queued has been sent, are what its latest command says. */
  ghost predicate TellsOpen(cfg: Config, sh: Shadow, x: nat, latest: Option<Request>)
    requires Sized(cfg, sh) && x < cfg.subarrays
  {
    match latest
    case None => !sh.active[x]
    case Some(c) =>
      && !c.op.Activate? && (sh.active[x] <==> c.op.Read? || c.op.Write?)
      && (sh.active[x] ==> sh.row[x] == c.row && sh.mux[x] == c.col / cfg.rowBuffer)
  }

  ghost predicate ShadowTells(cfg: Config, sh: Shadow, id: nat, sent: seq<Request>) {
    Sized(cfg, sh) && forall x: nat | x < cfg.subarrays ::
      TellsOpen(cfg, sh, x, Latest(cfg, sent + Pending(sh.queue), id, x))
  }

  ghost predicate Told(cfg: Config, s: Channel.State) {
    forall k | 0 <= k < |s.shadows| :: ShadowTells(cfg, s.shadows[k], k, CommandsOf(s.sent))
  }

  lemma {:induction false} LatestAppend(cfg: Config, log: seq<Request>, more: seq<Request>, id: nat, x: nat)
    ensures Latest(cfg, log + more, id, x) ==
      if Latest(cfg, more, id, x).Some? then Latest(cfg, more, id, x) else Latest(cfg, log, id, x)
    decreases |more|
  {
    if more == [] {
      assert log + more == log;
    } else {
      var n := |more| - 1;
      assert (log + more)[..|log + more| - 1] == log + more[..n];
      LatestAppend(cfg, log, more[..n], id, x);
    }
  }

  lemma {:induction false} LatestOfOthers(cfg: Config, log: seq<Request>, id: nat, x: nat)
    requires forall k | 0 <= k < |log| :: IdOf(cfg, log[k]) != id || (log[k].subarray != x && !log[k].op.PrechargeAll?)
    ensures Latest(cfg, log, id, x) == None
  {
    if log != [] { LatestOfOthers(cfg, log[..|log| - 1], id, x); }
  }

  lemma LatestIsLast(cfg: Config, log: seq<Request>, id: nat, x: nat)
    requires log != [] && IdOf(cfg, log[|log| - 1]) == id
    requires log[|log| - 1].subarray == x || log[|log| - 1].op.PrechargeAll?
    ensures Latest(cfg, log, id, x) == Some(log[|log| - 1])
  {}

  /** Sending a command moves it from the queue to the log. */
  lemma SendKeepsTold(cfg: Config, sh: Shadow, id: nat, sent: seq<Request>)
    requires ShadowTells(cfg, sh, id, sent) && sh.queue != [] && !sh.queue[0].issued
    ensures ShadowTells(cfg, sh.(queue := MarkIssued(sh.queue)), id, sent + [sh.queue[0]])
    ensures ShadowTells(cfg, sh.(queue := MarkIssued(sh.queue), refreshQueued := false), id, sent + [sh.queue[0]])
  {
    hide Latest, TellsOpen;
    var marked := sh.(queue := MarkIssued(sh.queue));
    var log, log' := sent + Pending(sh.queue), sent + [sh.queue[0]] + Pending(marked.queue);
    assert Pending(marked.queue) == sh.queue[1..];
    assert log == log';
    TellsSame(cfg, sh, marked);
    TellsSame(cfg, sh, marked.(refreshQueued := false));
  }

  lemma OtherSendKeepsTold(cfg: Config, sh: Shadow, id: nat, sent: seq<Request>, r: Request, b: bool)
    requires ShadowTells(cfg, sh, id, sent) && IdOf(cfg, r) != id
    ensures ShadowTells(cfg, sh, id, sent + [r]) && ShadowTells(cfg, sh.(refreshQueued := b), id, sent + [r])
  {
    hide TellsOpen, Latest;
    var q := Pending(sh.queue);
    forall x: nat | x < cfg.subarrays
      ensures Latest(cfg, sent + [r] + q, id, x) == Latest(cfg, sent + q, id, x) {
      LatestAppend(cfg, sent + [r], q, id, x);
      LatestAppend(cfg, sent, q, id, x);
      LatestAppend(cfg, sent, [r], id, x);
      LatestOfOthers(cfg, [r], id, x);
    }
    TellsSame(cfg, sh, sh.(refreshQueued := b));
  }

  lemma TellsSame(cfg: Config, sh: Shadow, sh': Shadow)
    requires Sized(cfg, sh) && sh'.active == sh.active && sh'.row == sh.row && sh'.mux == sh.mux
    ensures Sized(cfg, sh') <==> |sh'.starvation| == cfg.subarrays
    ensures Sized(cfg, sh') ==> forall x: nat, latest | x < cfg.subarrays ::
      TellsOpen(cfg, sh', x, latest) == TellsOpen(cfg, sh, x, latest)
  {}

  /** All commands of a transaction are for its subarray, and the column command comes last. */
  lemma ExpansionIsFor(cfg: Config, sh: Shadow, r: Request, writing: bool)
    requires Sized(cfg, sh) && r.subarray < cfg.subarrays && sh.queue == []
    requires (r.op.Read? || r.op.Write?) && !r.issued
    ensures var q := Expand(cfg, sh, r, false, writing).shadow.queue;
      && q != [] && Pending(q) == q && Serves(q[|q| - 1], r, r.last && (!sh.activateQueued || Hits(cfg, sh, r)))
      && forall k | 0 <= k < |q| ::
           q[k].rank == r.rank && q[k].bank == r.bank && q[k].subarray == r.subarray && !q[k].op.PrechargeAll?
  {
    ExpansionIs(cfg, sh, r, writing);
    hide Expand, ExpandsInto;
    var rowOpen := sh.activateQueued && sh.active[r.subarray];
    var q := Expand(cfg, sh, r, false, writing).shadow.queue;
    ShapeIsFor(r, writing, sh.activateQueued, rowOpen, Hits(cfg, sh, r), q);
  }

  lemma ShapeIsFor(r: Request, writing: bool, bankOpen: bool, rowOpen: bool, hit: bool, q: seq<Request>)
    requires ExpandsInto(r, writing, bankOpen, rowOpen, hit, q) && (r.op.Read? || r.op.Write?) && !r.issued
    ensures q != [] && Serves(q[|q| - 1], r, r.last && (!bankOpen || hit)) && !q[0].issued
    ensures forall k | 0 <= k < |q| ::
      q[k].rank == r.rank && q[k].bank == r.bank && q[k].subarray == r.subarray && !q[k].op.PrechargeAll?
  {}

  /** The latest command for a subarray, once a transaction was expanded. */
  lemma LatestExpanded(cfg: Config, sh: Shadow, sent: seq<Request>, r: Request, writing: bool, id: nat, x: nat)
    requires Sized(cfg, sh) && r.subarray < cfg.subarrays && sh.queue == []
    requires (r.op.Read? || r.op.Write?) && !r.issued && IdOf(cfg, r) == id
    ensures var q := Expand(cfg, sh, r, false, writing).shadow.queue;
      && q != []
      && Latest(cfg, sent + Pending(q), id, x) == if x == r.subarray then Some(q[|q| - 1]) else Latest(cfg, sent, id, x)
  {
    ExpansionIsFor(cfg, sh, r, writing);
    var q := Expand(cfg, sh, r, false, writing).shadow.queue;
    hide Expand, QueueId, Serves, Hits;
    LatestAppend(cfg, sent, q, id, x);
    if x == r.subarray { LatestIsLast(cfg, q, id, x); } else { LatestOfOthers(cfg, q, id, x); }
  }

  /** Expanding a transaction appends commands that end in its column command, and sets the tables by it. */
  lemma ScheduleKeepsTold(cfg: Config, sh: Shadow, id: nat, sent: seq<Request>, r: Request, writing: bool)
    requires ShadowTells(cfg, sh, id, sent) && InRange(cfg, r) && IdOf(cfg, r) == id && sh.queue == []
    requires (r.op.Read? || r.op.Write?) && !r.issued
    requires Tallied(sh)
    ensures ShadowTells(cfg, Expand(cfg, sh, r, false, writing).shadow, id, sent)
  {
    ExpansionOpens(cfg, sh, r, writing);
    ExpansionIsFor(cfg, sh, r, writing);
    var sh' := Expand(cfg, sh, r, false, writing).shadow;
    hide Expand, QueueId, Latest, Pending, Tallied, TellsOpen;
    assert sent + Pending(sh.queue) == sent by { EmptyIsPending(); }
    forall x: nat | x < cfg.subarrays
      ensures TellsOpen(cfg, sh', x, Latest(cfg, sent + Pending(sh'.queue), id, x)) {
      LatestExpanded(cfg, sh, sent, r, writing, id, x);
      var latest := Latest(cfg, sent, id, x);
      assert TellsOpen(cfg, sh, x, latest);
      if x == r.subarray {
        OpenedTells(cfg, sh', r, sh'.queue[|sh'.queue| - 1]);
      } else {
        OneTellsSame(cfg, sh, sh', x, latest);
      }
    }
  }

  lemma OpenedTells(cfg: Config, sh: Shadow, r: Request, c: Request)
    requires Sized(cfg, sh) && r.subarray < cfg.subarrays && (r.op.Read? || r.op.Write?)
    requires Serves(c, r, !sh.active[r.subarray])
    requires sh.active[r.subarray] ==> sh.row[r.subarray] == r.row && sh.mux[r.subarray] == r.col / cfg.rowBuffer
    ensures TellsOpen(cfg, sh, r.subarray, Some(c))
  {}

  lemma OneTellsSame(cfg: Config, sh: Shadow, sh': Shadow, x: nat, latest: Option<Request>)
    requires Sized(cfg, sh) && Sized(cfg, sh') && x < cfg.subarrays && TellsOpen(cfg, sh, x, latest)
    requires sh'.active[x] == sh.active[x] && sh'.row[x] == sh.row[x] && sh'.mux[x] == sh.mux[x]
    ensures TellsOpen(cfg, sh', x, latest)
  {}

  lemma EmptyIsPending()
    ensures Pending([]) == []
  {}

  lemma RefreshKeepsTold(cfg: Config, sh: Shadow, id: nat, sent: seq<Request>, rank: nat, bank: nat, isHead: bool)
    requires ShadowTells(cfg, sh, id, sent) && QueueId(cfg, rank, bank) == id
    requires Tallied(sh)
    ensures ShadowTells(cfg, QueueRefresh(cfg, sh, rank, bank, isHead), id, sent)
  {
    hide QueueId, TellsOpen, Latest;
    var close := MakeCommand(Op.PrechargeAll, 0, bank, rank, 0);
    var closed := CloseForRefresh(cfg, sh, rank, bank);
    if sh.activateQueued {
      forall x: nat | x < cfg.subarrays ensures TellsOpen(cfg, closed, x, Some(close)) {
        NowClosed(cfg, closed, x, close);
      }
      AppendKeepsTold(cfg, sh, closed, id, sent, close);
    } else {
      TellsSame(cfg, sh, closed);
    }
    var refresh := MakeCommand(Op.Refresh, 0, bank, rank, 0);
    var sh' := QueueRefresh(cfg, sh, rank, bank, isHead);
    TellsSame(cfg, closed, sh');
    if isHead {
      NowClosed(cfg, sh', 0, refresh);
      AppendKeepsTold(cfg, closed, sh', id, sent, refresh);
    }
  }

  lemma NowClosed(cfg: Config, sh: Shadow, x: nat, c: Request)
    requires Sized(cfg, sh) && x < cfg.subarrays && !sh.active[x] && !c.op.Activate? && !c.op.Read? && !c.op.Write?
    ensures TellsOpen(cfg, sh, x, Some(c))
  {}

  /** A command is queued: the tables of the subarrays it is for are as it says, all others as before. */
  lemma AppendKeepsTold(cfg: Config, sh: Shadow, sh': Shadow, id: nat, sent: seq<Request>, c: Request)
    requires ShadowTells(cfg, sh, id, sent) && Sized(cfg, sh') && sh'.queue == sh.queue + [c] && !c.issued
    requires IdOf(cfg, c) == id
    requires forall x: nat | x < cfg.subarrays ::
      if x == c.subarray || c.op.PrechargeAll? then TellsOpen(cfg, sh', x, Some(c))
      else sh'.active[x] == sh.active[x] && sh'.row[x] == sh.row[x] && sh'.mux[x] == sh.mux[x]
    ensures ShadowTells(cfg, sh', id, sent)
  {
    hide Latest, QueueId;
    assert Pending(sh'.queue) == Pending(sh.queue) + [c];
    forall x: nat | x < cfg.subarrays ensures TellsOpen(cfg, sh', x, Latest(cfg, sent + Pending(sh'.queue), id, x)) {
      assert sent + Pending(sh'.queue) == sent + Pending(sh.queue) + [c];
      LatestAppend(cfg, sent + Pending(sh.queue), [c], id, x);
      if x == c.subarray || c.op.PrechargeAll? {
        LatestIsLast(cfg, [c], id, x);
      } else {
        LatestOfOthers(cfg, [c], id, x);
      }
    }
  }

  lemma CommandsAppend(sent: seq<Channel.Sent>, e: Channel.Sent)
    ensures CommandsOf(sent + [e]) == CommandsOf(sent) + [e.r]
  {}

  // ---------------------------------------------------------------- every step of the channel

  lemma IssueKeepsTold(p: Timing, cfg: Config, s: Channel.State, step: Channel.Step)
    requires Channel.Inv(p, cfg, s) && Told(cfg, s) && Channel.Enabled(p, cfg, s, step) && step.IssueHead?
    ensures Told(cfg, Channel.Apply(p, cfg, s, step))
  {
    hide Channel.Inv, Channel.Apply, Channel.Issuable, Channel.Reaches, Channel.DeviceAfter, ShadowTells, QueueId;
    var r, m := Channel.IssueEffect(p, cfg, s, step);
    var s' := Channel.Apply(p, cfg, s, step);
    CommandsAppend(s.sent, Channel.Sent(s.now, r));
    forall k | 0 <= k < |s'.shadows| ensures ShadowTells(cfg, s'.shadows[k], k, CommandsOf(s'.sent)) {
      assert ShadowTells(cfg, s.shadows[k], k, CommandsOf(s.sent));
      if k == step.id {
        SendKeepsTold(cfg, s.shadows[k], k, CommandsOf(s.sent));
      } else {
        OtherSendKeepsTold(cfg, s.shadows[k], k, CommandsOf(s.sent), r, false);
      }
    }
  }

  lemma SchedulingKeepsTold(p: Timing, cfg: Config, s: Channel.State, step: Channel.Step)
    requires Channel.Inv(p, cfg, s) && Told(cfg, s) && Channel.Enabled(p, cfg, s, step) && step.Schedule?
    ensures Told(cfg, Channel.Apply(p, cfg, s, step))
  {
    var i, r, id, writing := Channel.ScheduleEffect(p, cfg, s, step);
    hide Channel.Apply, ShadowTells, Expand;
    assert Channel.BankOk(p, cfg, id, s.shadows[id], s.devices[id], s);
    ScheduleKeepsTold(cfg, s.shadows[id], id, CommandsOf(s.sent), r, writing);
  }

  lemma CleanupKeepsTold(cfg: Config, sh: Shadow, id: nat, sent: seq<Request>)
    requires ShadowTells(cfg, sh, id, sent) && Pending(Pending(sh.queue)) == Pending(sh.queue)
    ensures ShadowTells(cfg, sh.(queue := Pending(sh.queue)), id, sent)
  {}

  lemma RefreshingKeepsTold(p: Timing, cfg: Config, s: Channel.State, step: Channel.Step)
    requires Channel.Inv(p, cfg, s) && Told(cfg, s) && Channel.Enabled(p, cfg, s, step) && step.RefreshGroup?
    ensures Told(cfg, Channel.Apply(p, cfg, s, step))
  {
    hide Channel.Enabled, ShadowTells, QueueRefresh, Predicts, Channel.InGroup, QueueId, BankOf;
    var s' := Channel.Apply(p, cfg, s, step);
    forall k | 0 <= k < |s'.shadows| ensures ShadowTells(cfg, s'.shadows[k], k, CommandsOf(s'.sent)) {
      assert ShadowTells(cfg, s.shadows[k], k, CommandsOf(s.sent));
      if Channel.InGroup(cfg, step.rank, step.head, k) {
        GroupIsRouted(p, cfg, s, step, k);
        RefreshKeepsTold(cfg, s.shadows[k], k, CommandsOf(s.sent), step.rank, BankOf(cfg, k),
                         k == QueueId(cfg, step.rank, step.head));
      }
    }
  }

  lemma GroupIsRouted(p: Timing, cfg: Config, s: Channel.State, step: Channel.Step, k: nat)
    requires Channel.Inv(p, cfg, s) && Channel.Enabled(p, cfg, s, step) && step.RefreshGroup?
    requires k < |s.shadows| && Channel.InGroup(cfg, step.rank, step.head, k)
    ensures QueueId(cfg, step.rank, BankOf(cfg, k)) == k
    ensures Tallied(s.shadows[k])
  {
    Channel.BankOfGroup(cfg, step.rank, step.head, k);
    assert Channel.BankOk(p, cfg, k, s.shadows[k], s.devices[k], s);
  }

  lemma OtherKeepsTold(p: Timing, cfg: Config, s: Channel.State, step: Channel.Step)
    requires Channel.Inv(p, cfg, s) && Told(cfg, s) && Channel.Enabled(p, cfg, s, step)
    requires !step.Schedule? && !step.IssueHead? && !step.RefreshGroup?
    ensures Told(cfg, Channel.Apply(p, cfg, s, step))
  {
    hide ShadowTells;
    var s' := Channel.Apply(p, cfg, s, step);
    forall k | 0 <= k < |s'.shadows| ensures ShadowTells(cfg, s'.shadows[k], k, CommandsOf(s'.sent)) {
      assert ShadowTells(cfg, s.shadows[k], k, CommandsOf(s.sent));
      if step.Cleanup? {
        assert Channel.BankOk(p, cfg, k, s.shadows[k], s.devices[k], s);
        CleanupKeepsTold(cfg, s.shadows[k], k, CommandsOf(s.sent));
      } else {
        MarkKeepsTold(cfg, s.shadows[k], k, CommandsOf(s.sent), s'.shadows[k].needRefresh);
      }
    }
  }

  lemma MarkKeepsTold(cfg: Config, sh: Shadow, id: nat, sent: seq<Request>, need: bool)
    requires ShadowTells(cfg, sh, id, sent)
    ensures ShadowTells(cfg, sh.(needRefresh := need), id, sent)
  {}

  lemma {:induction false} RunKeepsTold(p: Timing, cfg: Config, s: Channel.State, steps: seq<Channel.Step>)
    requires Channel.Inv(p, cfg, s) && Told(cfg, s) && Channel.Execute(p, cfg, s, steps).Some?
    ensures Told(cfg, Channel.Execute(p, cfg, s, steps).value)
    decreases |steps|
  {
    hide Channel.Inv, Told, Channel.Enabled, Channel.Apply;
    if steps != [] {
      Channel.StepKeepsInv(p, cfg, s, steps[0]);
      if steps[0].Schedule? {
        SchedulingKeepsTold(p, cfg, s, steps[0]);
      } else if steps[0].IssueHead? {
        IssueKeepsTold(p, cfg, s, steps[0]);
      } else if steps[0].RefreshGroup? {
        RefreshingKeepsTold(p, cfg, s, steps[0]);
      } else {
        OtherKeepsTold(p, cfg, s, steps[0]);
      }
      RunKeepsTold(p, cfg, Channel.Apply(p, cfg, s, steps[0]), steps[1..]);
    }
  }

  /**
    Row buffer hits. In every reachable state, a transaction that may be scheduled is a hit if and only if
    the last command that was sent to its subarray is a read or write that leaves its row open, of the same
    row and the same column group.
   */
  lemma HitIffLastSent(p: Timing, cfg: Config, queues: nat, steps: seq<Channel.Step>, s: Channel.State, r: Request)
    requires Channel.Reached(p, cfg, queues, steps, s) && InRange(cfg, r) && r.arrival != s.now
    requires IdOf(cfg, r) < |s.shadows| && s.shadows[IdOf(cfg, r)].queue == []
    requires !s.shadows[IdOf(cfg, r)].needRefresh && !s.shadows[IdOf(cfg, r)].refreshQueued
    ensures var last := Latest(cfg, CommandsOf(s.sent), IdOf(cfg, r), r.subarray);
      Matches(cfg, s.shadows, s.now, RowBufferHit, r) <==>
        last.Some? && (last.value.op.Read? || last.value.op.Write?) && SharesBuffer(cfg, last.value, r)
  {
    Channel.ReachedInv(p, cfg, queues, steps, s);
    Channel.InitialInv(p, cfg, queues);
    InitiallyTold(cfg, queues);
    RunKeepsTold(p, cfg, Channel.Initial(cfg, queues), steps);
    var id := IdOf(cfg, r);
    hide QueueId, Latest;
    assert Channel.BankOk(p, cfg, id, s.shadows[id], s.devices[id], s);
    assert ShadowTells(cfg, s.shadows[id], id, CommandsOf(s.sent));
    assert CommandsOf(s.sent) + Pending(s.shadows[id].queue) == CommandsOf(s.sent);
    assert TellsOpen(cfg, s.shadows[id], r.subarray, Latest(cfg, CommandsOf(s.sent), id, r.subarray));
  }

  lemma InitiallyTold(cfg: Config, queues: nat)
    ensures Told(cfg, Channel.Initial(cfg, queues))
  {}
}
