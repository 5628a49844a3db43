/**
  The banks behind the controller. The interconnect and the ranks pass commands through to the
  bank they address; a rank sends a refresh to every bank of the group.
 */
module Memories {
  import opened Commands
  import opened Banks
  import opened SubArrays
  import BankRuns
  import Channel
  import Spec = BankSpec
  import Control = ControllerSpec

  class Memory {
    const p: Timing
    const cfg: Control.Config
    const banks: seq<Bank>   // indexed by command queue

    ghost predicate Valid() {
      && |banks| == cfg.ranks * cfg.banks
      && (forall k | 0 <= k < |banks| :: banks[k].p == p && banks[k].Valid())
      && forall k, l | 0 <= k < l < |banks| :: banks[k] != banks[l] && Apart(banks[k], banks[l])
    }

    static ghost predicate Apart(a: Bank, b: Bank) { forall x | x in a.subs :: x !in b.subs }

    ghost function Subs(): set<SubArray> { set k, i | 0 <= k < |banks| && 0 <= i < |banks[k].subs| :: banks[k].subs[i] }

    ghost function States(): (s: seq<Spec.State>)
      reads banks, Subs()
    {
      seq(|banks|, k requires 0 <= k < |banks| reads banks, Subs() => banks[k].State())
    }

    /** `r` can be routed in every bank. */
    ghost predicate Routes(r: Request)
      reads banks, Subs()
    {
      && Control.InRange(cfg, r)
      && (r.op.Refresh? ==> r.bank + cfg.perRefresh <= cfg.banks)
      && AllRouted(States(), r)
    }

    method IsIssuable(r: Request, now: nat) returns (issuable: bool)
      requires Valid() && Routes(r)
      ensures issuable == Channel.Issuable(p, cfg, States(), r, now)
    {
      if r.op == Op.Refresh {
        issuable := GroupIssuable(r, now);
      } else {
        Channel.QueueIdIsBijective(cfg, r.rank, r.bank, r.rank, r.bank);
        issuable := BankIssuable(Control.QueueId(cfg, r.rank, r.bank), r, now);
        assert Channel.Reaches(cfg, r, Control.QueueId(cfg, r.rank, r.bank));
      }
    }

    method BankIssuable(id: nat, r: Request, now: nat) returns (issuable: bool)
      requires Valid() && Routes(r) && id < |banks|
      ensures Spec.Routed(States()[id], r) && issuable == Spec.IsIssuable(p, States()[id], r, now)
    {
      assert States()[id] == banks[id].State();
      issuable := banks[id].IsIssuable(r, now);
    }

    method GroupIssuable(r: Request, now: nat) returns (issuable: bool)
      requires Valid() && Routes(r) && r.op.Refresh?
      ensures issuable == Channel.Issuable(p, cfg, States(), r, now)
    {
      ghost var states := States();
      for t := 0 to cfg.perRefresh
        invariant states == States()
        invariant forall u | r.bank <= u < r.bank + t :: Accepts(p, cfg, states, r, now, u)
      {
        Channel.QueueIdIsBijective(cfg, r.rank, r.bank + t, r.rank, r.bank);
        issuable := BankIssuable(Control.QueueId(cfg, r.rank, r.bank + t), r, now);
        if !issuable {
          GroupRefuses(p, cfg, states, r, now, r.bank + t);
          return;
        }
      }
      GroupAccepts(p, cfg, states, r, now);
      return true;
    }

    /** Whether the subarray of `r` is programming cells. */
    method IsWriting(r: Request) returns (writing: bool)
      requires Valid() && Routes(r)
      ensures Control.IdOf(cfg, r) < |States()| && r.subarray < |States()[Control.IdOf(cfg, r)].subs|
      ensures writing == States()[Control.IdOf(cfg, r)].subs[r.subarray].writing.Writing?
    {
      Channel.QueueIdIsBijective(cfg, r.rank, r.bank, r.rank, r.bank);
      var id := Control.QueueId(cfg, r.rank, r.bank);
      assert States()[id] == banks[id].State() && Spec.Routed(States()[id], r);
      writing := banks[id].subs[r.subarray].writing.Writing?;
    }

    /** The cycle at which the bank of `r` asks for it to be tried again. */
    method NextIssuable(r: Request) returns (cycle: nat)
      requires Valid() && Routes(r)
      ensures Control.IdOf(cfg, r) < |States()| && Spec.Routed(States()[Control.IdOf(cfg, r)], r)
      ensures cycle == Spec.NextIssuable(States()[Control.IdOf(cfg, r)], r)
    {
      Channel.QueueIdIsBijective(cfg, r.rank, r.bank, r.rank, r.bank);
      var id := Control.QueueId(cfg, r.rank, r.bank);
      assert States()[id] == banks[id].State();
      cycle := banks[id].NextIssuable(r);
    }

    /** Sends `r` to bank `id`; every other bank stays as it is. */
    method SendTo(id: nat, r: Request, m: Moment) returns (ok: bool)
      requires Valid() && id < |banks| && Spec.Routed(States()[id], r)
      modifies banks, Subs()
      ensures var out := Spec.IssueCommand(p, old(States())[id], r, m);
        ok == out.ok && States() == old(States())[id := out.state]
    {
      ghost var before := States();
      assert banks[id] in banks;
      ok := banks[id].IssueCommand(r, m);
      forall k | 0 <= k < |banks| && k != id ensures States()[k] == before[k] {
        if k < id { assert Apart(banks[k], banks[id]); } else { assert Apart(banks[id], banks[k]); }
        assert forall i | 0 <= i < |banks[k].subs| :: banks[k].subs[i] !in banks[id].subs;
        assert unchanged(banks[k]) && forall i | 0 <= i < |banks[k].subs| :: unchanged(banks[k].subs[i]);
        assert banks[k].SubStates() == old(banks[k].SubStates());
      }
    }

    /** A completion event of bank `id` fires; every other bank stays as it is. */
    method Complete(id: nat, e: BankRuns.Step, now: nat)
      requires Valid() && id < |banks| && (e.CompleteClosing? || e.CompleteWrite?)
      requires BankRuns.Enabled(p, BankRuns.Config(States()[id], now, []), e)
      modifies banks, Subs()
      ensures States() == old(States())[id := BankRuns.Apply(p, BankRuns.Config(old(States())[id], now, []), e).bank]
    {
      ghost var before := States();
      assert banks[id] in banks && before[id] == banks[id].State();
      if e.CompleteClosing? {
        banks[id].CompleteClosing(e.sub, now);
      } else {
        banks[id].CompleteWrite(e.sub);
      }
      forall k | 0 <= k < |banks| && k != id ensures States()[k] == before[k] {
        if k < id { assert Apart(banks[k], banks[id]); } else { assert Apart(banks[id], banks[k]); }
        assert forall i | 0 <= i < |banks[k].subs| :: banks[k].subs[i] !in banks[id].subs;
        assert unchanged(banks[k]) && forall i | 0 <= i < |banks[k].subs| :: unchanged(banks[k].subs[i]);
        assert banks[k].SubStates() == old(banks[k].SubStates());
      }
    }

    method IssueCommand(r: Request, m: Moment)
      requires Valid() && Routes(r)
      modifies banks, Subs()
      ensures |States()| == |old(States())|
      ensures forall k | 0 <= k < |banks| :: States()[k] == Channel.DeviceAfter(p, cfg, old(States()), r, m, k)
    {
      Channel.QueueIdIsBijective(cfg, r.rank, r.bank, r.rank, r.bank);
      if r.op != Op.Refresh {
        var ok := SendTo(Control.QueueId(cfg, r.rank, r.bank), r, m);
        return;
      }
      ghost var before := States();
      for t := 0 to cfg.perRefresh
        invariant GroupSent(p, cfg, before, States(), r, m, t)
      {
        var id := Control.QueueId(cfg, r.rank, r.bank + t);
        GroupSentNext(p, cfg, before, States(), r, m, t);
        var ok := SendTo(id, r, m);
      }
      GroupSentAll(p, cfg, before, States(), r, m);
    }
  }

  ghost predicate AllRouted(states: seq<Spec.State>, r: Request) {
    forall k | 0 <= k < |states| :: Spec.Routed(states[k], r)
  }

  /** Bank `u` of the rank that `r` addresses accepts it. */
  ghost predicate Accepts(p: Timing, cfg: Control.Config, states: seq<Spec.State>, r: Request, now: nat, u: nat) {
    var id := Control.QueueId(cfg, r.rank, u);
    id < |states| && Spec.Routed(states[id], r) && Spec.IsIssuable(p, states[id], r, now)
  }

  lemma GroupAccepts(p: Timing, cfg: Control.Config, states: seq<Spec.State>, r: Request, now: nat)
    requires r.op.Refresh? && forall u | r.bank <= u < r.bank + cfg.perRefresh :: Accepts(p, cfg, states, r, now, u)
    ensures Channel.Issuable(p, cfg, states, r, now)
  {
    forall k | 0 <= k < |states| && Channel.Reaches(cfg, r, k)
      ensures Spec.Routed(states[k], r) && Spec.IsIssuable(p, states[k], r, now) {
      var bank: nat :| r.bank <= bank < r.bank + cfg.perRefresh && k == Control.QueueId(cfg, r.rank, bank);
      assert Accepts(p, cfg, states, r, now, bank);
    }
  }

  lemma GroupRefuses(p: Timing, cfg: Control.Config, states: seq<Spec.State>, r: Request, now: nat, u: nat)
    requires r.op.Refresh? && r.bank <= u < r.bank + cfg.perRefresh
    requires Control.QueueId(cfg, r.rank, u) < |states| && !Accepts(p, cfg, states, r, now, u)
    ensures !Channel.Issuable(p, cfg, states, r, now)
  {
    assert Channel.Reaches(cfg, r, Control.QueueId(cfg, r.rank, u));
  }

  /** `states` is `before` once the first `t` banks of the group have received `r`. */
  ghost predicate GroupSent(p: Timing, cfg: Control.Config, before: seq<Spec.State>, states: seq<Spec.State>,
                            r: Request, m: Moment, t: nat) {
    && |states| == |before| == cfg.ranks * cfg.banks
    && Control.InRange(cfg, r) && r.op.Refresh? && r.bank + cfg.perRefresh <= cfg.banks && t <= cfg.perRefresh
    && forall k | 0 <= k < |before| ::
         && Spec.Routed(before[k], r)
         && states[k] ==
              if Channel.InFirst(cfg, r.rank, r.bank, t, k) then Spec.IssueCommand(p, before[k], r, m).state
                else before[k]
  }

  lemma GroupSentNext(p: Timing, cfg: Control.Config, before: seq<Spec.State>, states: seq<Spec.State>,
                      r: Request, m: Moment, t: nat)
    requires GroupSent(p, cfg, before, states, r, m, t) && t < cfg.perRefresh
    ensures var id := Control.QueueId(cfg, r.rank, r.bank + t);
      && id < |states| && states[id] == before[id] && Spec.Routed(states[id], r)
      && GroupSent(p, cfg, before, states[id := Spec.IssueCommand(p, states[id], r, m).state], r, m, t + 1)
  {
    var id := Control.QueueId(cfg, r.rank, r.bank + t);
    Channel.QueueIdIsBijective(cfg, r.rank, r.bank + t, r.rank, r.bank);
    forall u | r.bank <= u < r.bank + t ensures Control.QueueId(cfg, r.rank, u) != id {
      Channel.QueueIdIsBijective(cfg, r.rank, u, r.rank, r.bank + t);
    }
    Channel.InFirstGrows(cfg, r.rank, r.bank, t);
  }

  lemma GroupSentAll(p: Timing, cfg: Control.Config, before: seq<Spec.State>, states: seq<Spec.State>, r: Request,
                     m: Moment)
    requires GroupSent(p, cfg, before, states, r, m, cfg.perRefresh)
    ensures forall k | 0 <= k < |before| :: states[k] == Channel.DeviceAfter(p, cfg, before, r, m, k)
  {}
}
