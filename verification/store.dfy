// The store's SQL statements as functions on the two tables.
module Store {
  import opened Options
  import opened Rows
  import opened ClaimSpec

  datatype Db = Db(hot: Table, history: map<Id, Hist>)

  // What the dispatcher is handed for a claimed row.
  datatype Claimed = Claimed(id: Id, op: Op, attemptCount: nat, prior: Status)

  function ToClaimed(id: Id, r: Row): Claimed {
    Claimed(id, r.op, r.attemptCount, r.status)
  }

  // The row as it was before the claim: its status tells a read-back from a fresh attempt.
  predicate HandsOver(c: Claimed, r: Row) {
    c.op == r.op && c.attemptCount == r.attemptCount && c.prior == r.status
  }

  // UPDATE ... FROM locked, with the whole claim taken as one atomic step.
  function SqlClaim(db: Db, q: Query): Db {
    db.(hot := map id | id in db.hot :: if Picked(db.hot, q, id) then ClaimRow(db.hot[id], q.now) else db.hot[id])
  }

  function SqlFinalize(db: Db, id: Id, outcome: Outcome, result: Option<Result>, errorCode: Option<string>, now: Time)
    : (Db, bool)
  {
    if id in db.hot && !db.hot[id].Terminal() then
      var r := FinalizeRow(db.hot[id], outcome, result, errorCode, now);
      // ON CONFLICT (id) DO NOTHING
      var history := if id in db.history then db.history else db.history[id := HistoryOf(r)];
      (Db(db.hot[id := r], history), true)
    else (db, false)
  }

  predicate IsRunning(t: Table, id: Id) { id in t && t[id].status == RUNNING }

  function SqlRequeue(db: Db, id: Id): (Db, bool) {
    if IsRunning(db.hot, id) then (db.(hot := db.hot[id := RequeueRow(db.hot[id])]), true) else (db, false)
  }

  function SqlDefer(db: Db, id: Id, notBefore: Time): (Db, bool) {
    if IsRunning(db.hot, id) then (db.(hot := db.hot[id := DeferRow(db.hot[id], notBefore)]), true) else (db, false)
  }

  function SqlReap(db: Db, now: Time, threshold: int, delay: int): Db {
    db.(hot := map id | id in db.hot :: if Stale(db.hot[id], now, threshold) then ReapRow(db.hot[id], now, delay) else db.hot[id])
  }

  // Rows whose status counts as backlog, of one instance and class.
  function Backlog(t: Table, i: string, p: Priority): set<Id> {
    set id | id in t && t[id].op.instance == i && t[id].op.priority == p
             && (t[id].status == PENDING || t[id].status == AWAITING_READBACK)
  }

  function Lookup<V>(m: map<Id, V>, id: Id): Option<V> { if id in m then Some(m[id]) else None }

  function SqlStatus(db: Db, id: Id): Option<Report> {
    StatusOf(Lookup(db.hot, id), Lookup(db.history, id))
  }

  // Partitions are days of created_at, in milliseconds.
  const DAY: int := 86_400_000

  function DayOf(op: Op): int { op.createdAt / DAY }

  // drop_operations_partition: the day's rows go, unless one of them is live.
  predicate Droppable(t: Table, day: int) {
    forall id :: id in t && DayOf(t[id].op) == day ==> t[id].Terminal()
  }

  function SqlDrop(t: Table, day: int): Table {
    if Droppable(t, day) then map id | id in t && DayOf(t[id].op) != day :: t[id] else t
  }
}
