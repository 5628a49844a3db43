/** Requests, commands and timing parameters shared by the whole command path. */
module Commands {

  datatype Option<+T> = None | Some(value: T)

  /** Operation types of a request, in the order of include/NVMainRequest.h. */
  datatype Op =
    | Nop | Activate | Read | ReadPrecharge | Write | WritePrecharge
    | Precharge | PrechargeAll
    | PowerDownActive | PowerDownFast | PowerDownSlow | PowerUp
    | Refresh | BusRead | BusWrite | CachedRead | CachedWrite
  {
    predicate IsRead() { Read? || ReadPrecharge? }
    predicate IsWrite() { Write? || WritePrecharge? }
    predicate IsColumn() { IsRead() || IsWrite() }
    predicate IsPrecharge() { Precharge? || PrechargeAll? }
    predicate IsPower() { PowerDownActive? || PowerDownFast? || PowerDownSlow? || PowerUp? }
    /** Commands that a subarray carries out, each guarded by one of its timers. */
    predicate IsArray() { Activate? || Refresh? || IsColumn() || IsPrecharge() }
    /** Commands that lead to a closed row, at once or by an implicit precharge. */
    predicate Closes() { ReadPrecharge? || WritePrecharge? || IsPrecharge() }
  }

  type positive = n: nat | 1 <= n witness 1

  datatype Request = Request(
    id: nat, op: Op,
    row: nat, col: nat, bank: nat, rank: nat, subarray: nat,
    bursts: positive, arrival: nat,
    last: bool, forced: bool, priority: bool, issued: bool)

  function Max(a: nat, b: nat): nat { if a < b then b else a }

  /** The timing parameters in cycles, the row count, and whether writes can be paused. */
  datatype Parameters = Parameters(
    rcd: nat, ras: nat, rp: nat, al: nat, rtp: nat, burst: nat, ccd: nat,
    cas: nat, cwd: nat, rtrs: nat, wtr: nat, wr: nat, rfc: nat,
    pd: nat, xp: nat, xpdll: nat, rdpden: nat, wrpden: nat,
    rows: nat, pausing: bool)
  {
    /** No unsigned subtraction of the source goes below zero, and a precharge takes time. */
    predicate Valid() {
      && 1 <= rp
      && al <= rcd
      && ccd <= al + burst + rtp
      && cwd <= cas + burst + rtrs
    }

    /** The cycles taken by `n` back-to-back bursts. */
    function Span(n: nat): nat { Max(burst, ccd) * n }
  }

  type Timing = p: Parameters | p.Valid()
    witness Parameters(1, 1, 1, 0, 0, 1, 1, 1, 1, 0, 0, 0, 1, 0, 0, 0, 0, 0, 1, false)

  /** Outcome of interrupting a write in progress. */
  datatype Bounce = NotBounced | Paused | Cancelled

  /**
    What a command finds when it is issued: the current cycle, the latency that the data adds
    (cell programming, encoding, endurance) and what an interrupted write would become.
   */
  datatype Moment = Moment(now: nat, latency: nat, bounce: Bounce)
}
