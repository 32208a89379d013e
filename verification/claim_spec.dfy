// CLAIM_SQL as a specification: which rows one claim cycle takes. Each
// row_number() is the number of rows before this one in its partition, plus one.
module ClaimSpec {
  import opened Rows

  datatype Availability = Availability(batchFree: int, totalFree: int)
  datatype Cap = Cap(total: nat, batch: nat)

  // One call of claimBatch: its arguments, and now().
  datatype Query = Query(limit: int, active: set<string>, available: map<string, Availability>, now: Time)

  function Min(a: int, b: int): int { if a <= b then a else b }
  function Max(a: int, b: int): int { if a <= b then b else a }

  // The caps CTE: instances with no free slot are left out.
  function Caps(available: map<string, Availability>): map<string, Cap> {
    map i | i in available && available[i].totalFree > 0
      :: Cap(available[i].totalFree, Max(0, Min(available[i].batchFree, available[i].totalFree)))
  }

  predicate SameLane(a: Row, b: Row) {
    a.op.instance == b.op.instance && a.op.laneKey == b.op.laneKey
  }

  // A row that occupies its lane: an attempt in flight, or a read-back not yet due.
  predicate Occupies(r: Row, now: Time) {
    r.status == RUNNING || (r.status == AWAITING_READBACK && r.notBefore.Some? && r.notBefore.value > now)
  }

  predicate Due(r: Row, now: Time) {
    r.status == PENDING || (r.status == AWAITING_READBACK && r.notBefore.Some? && r.notBefore.value <= now)
  }

  predicate LaneBlocked(t: Table, r: Row, now: Time) {
    exists x :: x in t && SameLane(t[x], r) && Occupies(t[x], now)
  }

  // ORDER BY (priority = 'interactive') DESC, created_at
  predicate Before(a: Row, b: Row) {
    (a.op.priority.Interactive? && b.op.priority.Batch?)
    || (a.op.priority == b.op.priority && a.op.createdAt < b.op.createdAt)
  }

  predicate Eligible(t: Table, q: Query, id: Id) {
    id in t
    && Due(t[id], q.now)
    && t[id].op.instance in Caps(q.available)
    && t[id].op.laneKey !in q.active
    && !LaneBlocked(t, t[id], q.now)
  }

  // lane_rn - 1
  function LanePeersBefore(t: Table, q: Query, id: Id): set<Id>
    requires id in t
  {
    set x | x in t && Eligible(t, q, x) && SameLane(t[x], t[id]) && Before(t[x], t[id])
  }

  predicate Leader(t: Table, q: Query, id: Id) {
    Eligible(t, q, id) && |LanePeersBefore(t, q, id)| + 1 == 1
  }

  // rn - 1: leaders of the instance before this one
  function InstancePeersBefore(t: Table, q: Query, id: Id): set<Id>
    requires id in t
  {
    set x | x in t && Leader(t, q, x) && t[x].op.instance == t[id].op.instance && Before(t[x], t[id])
  }

  // class_rn - 1: leaders of the instance and class before this one
  function ClassPeersBefore(t: Table, q: Query, id: Id): set<Id>
    requires id in t
  {
    set x | x in t && Leader(t, q, x) && t[x].op.instance == t[id].op.instance
            && t[x].op.priority == t[id].op.priority && Before(t[x], t[id])
  }

  // The picked CTE before its LIMIT.
  predicate WithinCaps(t: Table, q: Query, id: Id) {
    Leader(t, q, id)
    && var cap := Caps(q.available)[t[id].op.instance];
       |InstancePeersBefore(t, q, id)| + 1 <= cap.total
       && (t[id].op.priority.Interactive? || |ClassPeersBefore(t, q, id)| + 1 <= cap.batch)
  }

  function PickedBefore(t: Table, q: Query, id: Id): set<Id>
    requires id in t
  {
    set x | x in t && WithinCaps(t, q, x) && Before(t[x], t[id])
  }

  predicate Picked(t: Table, q: Query, id: Id) {
    WithinCaps(t, q, id) && |PickedBefore(t, q, id)| < q.limit
  }

  function PickedSet(t: Table, q: Query): set<Id> {
    set x | x in t && Picked(t, q, x)
  }

  // Creation stamps are distinct, so every ORDER BY above is total.
  predicate DistinctStamps(t: Table) {
    forall a, b :: a in t && b in t && a != b ==> t[a].op.createdAt != t[b].op.createdAt
  }

  // No lane key is used by claimable rows of two instances.
  predicate LanesUnshared(t: Table, q: Query) {
    forall a, b :: a in t && b in t && Eligible(t, q, a) && Eligible(t, q, b) && t[a].op.laneKey == t[b].op.laneKey ==>
      t[a].op.instance == t[b].op.instance
  }
}
