// The operation row: the columns of the hot table and of its slim history,
// and what each single-row SQL statement of the store does to one of them.
module Rows {
  import opened Options

  type Id = nat
  type Time = int

  datatype OpType = CREATE | UPDATE | DELETE | ADD_VALUES | REMOVE_VALUES

  datatype Priority = Interactive | Batch

  datatype Outcome = SUCCEEDED | REJECTED_PRE_DISPATCH | FAILED_CONFIRMED | INDETERMINATE

  // A row is terminal exactly when its status is an outcome; the schema's
  // generated `terminal` column is the discriminator `Final?`.
  datatype Status = PENDING | RUNNING | AWAITING_READBACK | Final(outcome: Outcome)

  // The columns enqueue writes and nothing changes afterwards.
  datatype Op = Op(
    instance: string, opType: OpType, priority: Priority, laneKey: string,
    uid: Option<string>, name: Option<string>, createdAt: Time, key: string)

  // The jsonb result, of which the store itself reads only `uid`.
  datatype Result = Result(uid: Option<string>)

  datatype Row = Row(
    op: Op, status: Status, attemptCount: nat,
    claimedAt: Option<Time>, notBefore: Option<Time>, finalizedAt: Option<Time>,
    result: Option<Result>, errorCode: Option<string>)
  {
    predicate Terminal() { status.Final? }
  }

  datatype Hist = Hist(op: Op, outcome: Outcome, uid: Option<string>, errorCode: Option<string>, finalizedAt: Time)

  type Table = map<Id, Row>

  function NewRow(op: Op): Row {
    Row(op, PENDING, 0, None, None, None, None, None)
  }

  function ClaimRow(r: Row, now: Time): Row {
    r.(status := RUNNING, claimedAt := Some(now), notBefore := None)
  }

  function RequeueRow(r: Row): Row {
    r.(status := PENDING, claimedAt := None, attemptCount := r.attemptCount + 1)
  }

  function DeferRow(r: Row, notBefore: Time): Row {
    r.(status := AWAITING_READBACK, claimedAt := None, notBefore := Some(notBefore))
  }

  function FinalizeRow(r: Row, outcome: Outcome, result: Option<Result>, errorCode: Option<string>, now: Time): Row {
    r.(status := Final(outcome), result := if result.Some? then result else r.result,
       errorCode := errorCode, finalizedAt := Some(now))
  }

  function FirstOf<T>(a: Option<T>, b: Option<T>): Option<T> {
    if a.Some? then a else b
  }

  function ResultUid(r: Option<Result>): Option<string> {
    if r.Some? then r.value.uid else None
  }

  // The history row written in the transaction that finalizes `r`.
  function HistoryOf(r: Row): Hist
    requires r.Terminal() && r.finalizedAt.Some?
  {
    Hist(r.op, r.status.outcome, FirstOf(r.op.uid, ResultUid(r.result)), r.errorCode, r.finalizedAt.value)
  }

  // claimed_at < now() - threshold, on a RUNNING row.
  predicate Stale(r: Row, now: Time, threshold: int) {
    r.status == RUNNING && r.claimedAt.Some? && r.claimedAt.value < now - threshold
  }

  // The reaper's two UPDATEs: creates wait for a read-back, the rest go back.
  function ReapRow(r: Row, now: Time, delay: int): Row {
    if r.op.opType == CREATE
    then DeferRow(r, now + delay)
    else r.(status := PENDING, claimedAt := None, notBefore := None)
  }

  // What getStatus reports of an operation, from either table.
  datatype Report = Report(
    op: Op, status: Status, attemptCount: nat, uid: Option<string>, errorCode: Option<string>,
    finalizedAt: Option<Time>, fromHistory: bool)

  // History rows report a uid only when it is a non-empty string.
  function NonEmpty(uid: Option<string>): Option<string> {
    if uid.Some? && uid.value == "" then None else uid
  }

  function HotReport(r: Row): Report {
    Report(r.op, r.status, r.attemptCount, ResultUid(r.result), r.errorCode, r.finalizedAt, false)
  }

  function ColdReport(h: Hist): Report {
    Report(h.op, Final(h.outcome), 0, NonEmpty(h.uid), h.errorCode, Some(h.finalizedAt), true)
  }

  function StatusOf(hot: Option<Row>, cold: Option<Hist>): Option<Report> {
    if hot.Some? then Some(HotReport(hot.value))
    else if cold.Some? then Some(ColdReport(cold.value))
    else None
  }
}
