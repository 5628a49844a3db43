/** Refresh bookkeeping: counters of delayed refreshes per bank group and the round-robin scan. */
module RefreshSpec {
  import opened Arithmetic
  import opened Commands
  import opened ControllerSpec
  import Channel

  // ---------------------------------------------------------------- counters

  /** The counter of the group of `bank`. */
  function GroupIndex(cfg: Config, rank: nat, bank: nat): nat { rank * cfg.Groups() + bank / cfg.perRefresh }

  /** The first bank of the group of `bank`. */
  function GroupHead(cfg: Config, bank: nat): nat { bank / cfg.perRefresh * cfg.perRefresh }

  lemma GroupsTimes(cfg: Config)
    requires cfg.Valid()
    ensures cfg.banks == cfg.Groups() * cfg.perRefresh
  {}

  lemma GroupInRange(cfg: Config, rank: nat, bank: nat)
    requires cfg.Valid() && rank < cfg.ranks && bank < cfg.banks
    ensures GroupIndex(cfg, rank, bank) < cfg.ranks * cfg.Groups()
  {
    GroupsTimes(cfg);
    var g := bank / cfg.perRefresh;
    if g >= cfg.Groups() { MulMonotone(cfg.perRefresh, cfg.Groups(), g); }
    MulMonotone(cfg.Groups(), rank + 1, cfg.ranks);
  }

  lemma GroupFits(cfg: Config, bank: nat)
    requires cfg.Valid() && bank < cfg.banks
    ensures GroupHead(cfg, bank) + cfg.perRefresh <= cfg.banks
  {
    GroupsTimes(cfg);
    var g := bank / cfg.perRefresh;
    if g >= cfg.Groups() { MulMonotone(cfg.perRefresh, cfg.Groups(), g); }
    MulMonotone(cfg.perRefresh, g + 1, cfg.Groups());
  }

  lemma HeadFits(cfg: Config, head: nat)
    requires cfg.Valid() && IsHead(cfg, head)
    ensures head + cfg.perRefresh <= cfg.banks
  {
    GroupFits(cfg, head);
    assert head == GroupHead(cfg, head);
  }

  predicate Over(cfg: Config, delayed: seq<nat>, g: nat) {
    cfg.useRefresh && g < |delayed| && cfg.refreshThreshold <= delayed[g]
  }

  /** Whether the group of `bank` has reached the threshold of delayed refreshes. */
  predicate NeedsRefresh(cfg: Config, delayed: seq<nat>, rank: nat, bank: nat) {
    Over(cfg, delayed, GroupIndex(cfg, rank, bank))
  }

  ghost predicate NoneDue(cfg: Config, delayed: seq<nat>) { forall g | 0 <= g < |delayed| :: !Over(cfg, delayed, g) }

  function Sum(s: seq<nat>): nat { if s == [] then 0 else s[0] + Sum(s[1..]) }

  lemma {:induction false} SumUpdate(s: seq<nat>, i: nat, x: nat)
    requires i < |s|
    ensures Sum(s[i := x]) + s[i] == Sum(s) + x
  {
    if i > 0 {
      assert s[i := x][1..] == s[1..][i - 1 := x];
      SumUpdate(s[1..], i - 1, x);
    } else {
      assert s[i := x][1..] == s[1..];
    }
  }

  lemma {:induction false} SumMonotone(s: seq<nat>, t: seq<nat>)
    requires |s| == |t| && forall g | 0 <= g < |s| :: t[g] <= s[g]
    ensures Sum(t) <= Sum(s)
    ensures Sum(t) == Sum(s) ==> t == s
  {
    if s != [] {
      SumMonotone(s[1..], t[1..]);
      assert s == [s[0]] + s[1..] && t == [t[0]] + t[1..];
    }
  }

  /** `after` has refreshes taken from groups that were due, and from no others. */
  ghost predicate TakenFromDue(cfg: Config, before: seq<nat>, after: seq<nat>) {
    && |after| == |before|
    && forall g | 0 <= g < |before| ::
         && after[g] <= before[g]
         && (after[g] < before[g] ==> Over(cfg, before, g) && cfg.refreshThreshold - 1 <= after[g])
  }

  /** A pulse to a system in which nothing is due, and one refresh taken, leave nothing due. */
  lemma OneRefreshIsEnough(cfg: Config, before: seq<nat>, g: nat, after: seq<nat>)
    requires NoneDue(cfg, before) && g < |before|
    requires TakenFromDue(cfg, before[g := before[g] + 1], after)
    requires Sum(after) < Sum(before[g := before[g] + 1]) || NoneDue(cfg, before[g := before[g] + 1])
    ensures NoneDue(cfg, after)
  {
    var pulsed := before[g := before[g] + 1];
    assert forall i | 0 <= i < |before| && i != g :: !Over(cfg, before, i) && pulsed[i] == before[i];
    if after[g] == pulsed[g] {
      assert forall i | 0 <= i < |before| :: after[i] == pulsed[i];
      assert after == pulsed;
    }
    assert !Over(cfg, before, g);
  }

  // ---------------------------------------------------------------- the scan

  /** The bank group head looked at in position `i` of a scan that begins at `start`. */
  function Scan(cfg: Config, start: nat, i: nat): nat { (start + i * cfg.perRefresh) % cfg.banks }

  ghost predicate IsHead(cfg: Config, bank: nat) { bank < cfg.banks && bank % cfg.perRefresh == 0 }

  /** A scan from the `s`-th head goes up to the last head and around. */
  lemma ScanIs(cfg: Config, s: nat, i: nat)
    requires cfg.Valid() && s < cfg.Groups() && i < cfg.Groups()
    ensures var n := cfg.Groups();
      Scan(cfg, s * cfg.perRefresh, i) == (if s + i < n then s + i else s + i - n) * cfg.perRefresh
  {
    GroupsTimes(cfg);
    WrapMultiple(cfg.perRefresh, cfg.Groups(), s, i);
  }

  lemma HeadIndex(cfg: Config, bank: nat) returns (h: nat)
    requires cfg.Valid() && IsHead(cfg, bank)
    ensures h < cfg.Groups() && bank == h * cfg.perRefresh
  {
    h := bank / cfg.perRefresh;
    GroupsTimes(cfg);
    if h >= cfg.Groups() { MulMonotone(cfg.perRefresh, cfg.Groups(), h); }
  }

  /** The scan visits every bank group head exactly once. */
  lemma ScanVisitsEachHeadOnce(cfg: Config, start: nat, head: nat) returns (i: nat)
    requires cfg.Valid() && IsHead(cfg, start) && IsHead(cfg, head)
    ensures i < cfg.Groups() && Scan(cfg, start, i) == head
    ensures forall j: nat | j < cfg.Groups() && Scan(cfg, start, j) == head :: j == i
  {
    var n, per := cfg.Groups(), cfg.perRefresh;
    var s := HeadIndex(cfg, start);
    var h := HeadIndex(cfg, head);
    i := if s <= h then h - s else h + n - s;
    ScanIs(cfg, s, i);
    forall j: nat | j < n && Scan(cfg, start, j) == head ensures j == i {
      ScanIs(cfg, s, j);
      var k := if s + j < n then s + j else s + j - n;
      MixedRadixIsInjective(per, k, 0, h, 0);
    }
  }

  // ---------------------------------------------------------------- effect on the shadows

  /** The group that starts at `head` after its refresh was queued. */
  ghost function GroupQueued(cfg: Config, before: seq<Shadow>, rank: nat, head: nat): seq<Shadow> {
    seq(|before|, k requires 0 <= k < |before| =>
      if Channel.InGroup(cfg, rank, head, k) then
        QueueRefresh(cfg, before[k], rank, BankOf(cfg, k), k == QueueId(cfg, rank, head))
      else before[k])
  }

  /** Shadow `sh'` comes from `sh` by queueing refreshes: every exact prediction stays exact. */
  ghost predicate Extends(cfg: Config, sh: Shadow, sh': Shadow) {
    && sh.queue <= sh'.queue
    && (Sized(cfg, sh) ==> Sized(cfg, sh'))
    && forall v | Predicts(cfg, sh, v) :: Predicts(cfg, sh', v)
  }

  lemma QueueRefreshExtends(cfg: Config, sh: Shadow, rank: nat, bank: nat, isHead: bool)
    ensures Extends(cfg, sh, QueueRefresh(cfg, sh, rank, bank, isHead))
  {
    forall v | Predicts(cfg, sh, v) ensures Predicts(cfg, QueueRefresh(cfg, sh, rank, bank, isHead), v) {
      QueueRefreshKeepsPrediction(cfg, sh, rank, bank, isHead, v);
    }
  }

  /** Every queue head is addressed to the bank of its queue. */
  ghost predicate HeadsRoute(cfg: Config, shadows: seq<Shadow>) {
    forall k | 0 <= k < |shadows| && shadows[k].queue != [] :: HeadRoutes(cfg, shadows[k].queue[0], k)
  }

  ghost predicate HeadRoutes(cfg: Config, head: Request, k: nat) {
    && InRange(cfg, head) && IdOf(cfg, head) == k
    && (head.op.Refresh? ==> head.bank + cfg.perRefresh <= cfg.banks)
  }

  ghost predicate AllExtend(cfg: Config, before: seq<Shadow>, after: seq<Shadow>) {
    |after| == |before| && forall k | 0 <= k < |before| :: Extends(cfg, before[k], after[k])
  }

  lemma GroupQueuedExtends(cfg: Config, before: seq<Shadow>, rank: nat, head: nat)
    requires rank < cfg.ranks && head + cfg.perRefresh <= cfg.banks && HeadsRoute(cfg, before)
    ensures AllExtend(cfg, before, GroupQueued(cfg, before, rank, head))
    ensures HeadsRoute(cfg, GroupQueued(cfg, before, rank, head))
  {
    var after := GroupQueued(cfg, before, rank, head);
    forall k | 0 <= k < |before|
      ensures Extends(cfg, before[k], after[k])
      ensures after[k].queue != [] ==> HeadRoutes(cfg, after[k].queue[0], k) {
      if Channel.InGroup(cfg, rank, head, k) {
        Channel.BankOfGroup(cfg, rank, head, k);
        QueueRefreshExtends(cfg, before[k], rank, BankOf(cfg, k), k == QueueId(cfg, rank, head));
      }
      if before[k].queue != [] { assert HeadRoutes(cfg, before[k].queue[0], k); }
    }
  }

  lemma FlagExtends(cfg: Config, sh: Shadow, need: bool)
    ensures Extends(cfg, sh, sh.(needRefresh := need))
  {
    forall v | Predicts(cfg, sh, v) ensures Predicts(cfg, sh.(needRefresh := need), v) {
      assert ShadowView(sh.(needRefresh := need)) == ShadowView(sh);
    }
  }

  lemma ExtendsTransitive(cfg: Config, a: seq<Shadow>, b: seq<Shadow>, c: seq<Shadow>)
    requires AllExtend(cfg, a, b) && AllExtend(cfg, b, c)
    ensures AllExtend(cfg, a, c)
  {
    forall k | 0 <= k < |a| ensures Extends(cfg, a[k], c[k]) {
      assert Extends(cfg, a[k], b[k]) && Extends(cfg, b[k], c[k]);
    }
  }

  // ---------------------------------------------------------------- wake-ups

  /** Some scheduled wake-up, or the candidate `best`, comes no later than head `k` asks for. */
  ghost predicate Covers(wakes: set<nat>, best: Option<nat>, next: nat, now: nat) {
    || (best.Some? && best.value <= Max(now + 1, next))
    || exists w :: w in wakes && now < w <= Max(now + 1, next)
  }
}
