// The in-memory store, with its greedy claim loop, proved to do what the SQL
// statements do.
module MemoryStore {
  import opened Options
  import opened Rows
  import opened ClaimSpec
  import opened GreedyCounts
  import opened ClaimRanks
  import opened ClaimProof
  import opened ClaimTheorems
  import opened Store

  ghost predicate Consistent(rows: Table, history: map<Id, Hist>) {
    forall id :: id in rows ==>
      && (rows[id].status == RUNNING ==> rows[id].claimedAt.Some?)
      && (rows[id].status == AWAITING_READBACK ==> rows[id].notBefore.Some?)
      && (id in history ==> rows[id].Terminal())
  }

  // Every hot row is found under its idempotency key, and ids are still fresh from seqNo on.
  ghost predicate Indexed(rows: Table, history: map<Id, Hist>, byKey: map<string, Id>, seqNo: nat) {
    && (forall id :: id in rows || id in history ==> id < seqNo)
    && (forall id :: id in rows ==> rows[id].op.key in byKey && byKey[rows[id].op.key] == id)
    && (forall k :: k in byKey ==> byKey[k] < seqNo)
  }

  class MemoryOperationStore {
    var rows: map<Id, Row>
    var history: map<Id, Hist>
    var byIdempotencyKey: map<string, Id>
    var seqNo: nat

    ghost function Tables(): Db
      reads this
    {
      Db(rows, history)
    }

    ghost predicate Valid()
      reads this
    {
      Consistent(rows, history) && Indexed(rows, history, byIdempotencyKey, seqNo)
    }

    constructor ()
      ensures Valid() && Tables() == Db(map[], map[])
    {
      rows, history, byIdempotencyKey, seqNo := map[], map[], map[], 0;
    }

    // Keys are remembered for good here, so a key deduplicates even after its
    // row has left the hot table; the SQL store looks in the hot table only.
    method Enqueue(op: Op) returns (id: Id, deduplicated: bool)
      requires Valid()
      modifies this
      ensures Valid() && history == old(history)
      ensures deduplicated <==> op.key in old(byIdempotencyKey)
      ensures deduplicated ==> rows == old(rows) && id == old(byIdempotencyKey)[op.key]
      ensures !deduplicated ==> id !in old(rows) && id !in history
      ensures !deduplicated ==> rows == old(rows)[id := Row(op, PENDING, 0, None, None, None, None, None)]
      ensures byIdempotencyKey == old(byIdempotencyKey)[op.key := id]
      ensures forall x :: x in old(rows) && old(rows)[x].op.key == op.key ==> id == x
    {
      if op.key in byIdempotencyKey {
        id, deduplicated := byIdempotencyKey[op.key], true;
        assert byIdempotencyKey == byIdempotencyKey[op.key := id];
        return;
      }
      id, deduplicated := seqNo, false;
      seqNo := seqNo + 1;
      rows := rows[id := NewRow(op)];
      byIdempotencyKey := byIdempotencyKey[op.key := id];
    }

    method Finalize(id: Id, outcome: Outcome, result: Option<Result>, errorCode: Option<string>, now: Time) returns (ok: bool)
      requires Valid()
      modifies this`rows, this`history
      ensures Valid()
      ensures (Tables(), ok) == SqlFinalize(old(Tables()), id, outcome, result, errorCode, now)
      ensures ok <==> id in old(rows) && !old(rows)[id].status.Final?
      ensures !ok ==> rows == old(rows) && history == old(history)
      ensures ok ==>
        var r := old(rows)[id];
        var kept := if result.Some? then result else r.result;
        var uid := if r.op.uid.Some? then r.op.uid else if kept.Some? then kept.value.uid else None;
        && rows == old(rows)[id := r.(status := Final(outcome), result := kept, errorCode := errorCode, finalizedAt := Some(now))]
        && history == old(history)[id := Hist(r.op, outcome, uid, errorCode, now)]
    {
      if id !in rows || rows[id].Terminal() { return false; }
      var kept := if result.Some? then result else rows[id].result;
      var row := rows[id].(status := Final(outcome), result := kept, errorCode := errorCode, finalizedAt := Some(now));
      var uid := if row.op.uid.Some? then row.op.uid else if kept.Some? then kept.value.uid else None;
      var record := Hist(row.op, outcome, uid, errorCode, now);
      FinalizeWrites(Tables(), byIdempotencyKey, seqNo, id, outcome, result, errorCode, now, row, record);
      rows := rows[id := row];
      history := history[id := record];
      ok := true;
    }

    // Leaves claimedAt set, which only a RUNNING row's reader ever looks at.
    method Requeue(id: Id) returns (ok: bool)
      requires Valid()
      modifies this`rows
      ensures Valid()
      ensures !ok ==> SqlRequeue(old(Tables()), id) == (old(Tables()), false)
      ensures ok ==> id in rows && SqlRequeue(old(Tables()), id) == (Db(rows[id := rows[id].(claimedAt := None)], history), true)
      ensures ok <==> id in old(rows) && old(rows)[id].status == RUNNING
      ensures rows == if !ok then old(rows)
        else old(rows)[id := old(rows)[id].(status := PENDING, attemptCount := old(rows)[id].attemptCount + 1)]
    {
      if id !in rows || rows[id].status != RUNNING { return false; }
      rows := rows[id := rows[id].(status := PENDING, attemptCount := rows[id].attemptCount + 1)];
      ok := true;
      assert rows[id := rows[id].(claimedAt := None)] == SqlRequeue(old(Tables()), id).0.hot;
    }

    method DeferForReadback(id: Id, notBefore: Time) returns (ok: bool)
      requires Valid()
      modifies this`rows
      ensures Valid()
      ensures (Tables(), ok) == SqlDefer(old(Tables()), id, notBefore)
      ensures ok <==> id in old(rows) && old(rows)[id].status == RUNNING
      ensures rows == if !ok then old(rows)
        else old(rows)[id := old(rows)[id].(status := AWAITING_READBACK, claimedAt := None, notBefore := Some(notBefore))]
    {
      if id !in rows || rows[id].status != RUNNING { return false; }
      rows := rows[id := rows[id].(status := AWAITING_READBACK, claimedAt := None, notBefore := Some(notBefore))];
      ok := true;
    }

    // Reaps at age >= threshold where the SQL reaps at age > threshold: on whole
    // milliseconds, the SQL reaper set one lower. Counts what took each route.
    method ReapStale(now: Time, threshold: int, delay: int) returns (deferred: nat, requeued: nat)
      requires Valid()
      modifies this`rows
      ensures Valid()
      ensures Tables() == SqlReap(old(Tables()), now, threshold - 1, delay)
      ensures deferred == |StaleRows(old(rows), now, threshold - 1, true)|
      ensures requeued == |StaleRows(old(rows), now, threshold - 1, false)|
      ensures rows.Keys == old(rows).Keys && forall id :: id in rows ==> Reaped(old(rows)[id], rows[id], now, threshold, delay)
    {
      deferred, requeued := 0, 0;
      ghost var t, late := rows, threshold - 1;
      ghost var creates, others := StaleRows(t, now, late, true), StaleRows(t, now, late, false);
      var todo := rows.Keys;
      VisitEnds(creates, todo);
      VisitEnds(others, todo);
      assert rows == Reaping(t, t.Keys - todo, now, late, delay);
      while todo != {}
        invariant todo <= t.Keys
        invariant rows == Reaping(t, t.Keys - todo, now, late, delay)
        invariant deferred == |Visited(creates, todo)| && requeued == |Visited(others, todo)|
        decreases todo
      {
        var id :| id in todo;
        ReapOne(t, todo, id, now, late, delay);
        VisitOne(creates, todo, id);
        VisitOne(others, todo, id);
        var r := rows[id];
        todo := todo - {id};
        if r.status == RUNNING && r.claimedAt.Some? && now - r.claimedAt.value >= threshold {
          if r.op.opType == CREATE {
            rows := rows[id := r.(status := AWAITING_READBACK, claimedAt := None, notBefore := Some(now + delay))];
            deferred := deferred + 1;
          } else {
            rows := rows[id := r.(status := PENDING, claimedAt := None, notBefore := None)];
            requeued := requeued + 1;
          }
        }
      }
      AllReaped(Db(t, history), now, late, delay);
      EachReaped(Db(t, history), now, threshold, delay);
    }

    method PendingCounts(i: string) returns (interactive: nat, batch: nat)
      ensures interactive == |Backlog(rows, i, Interactive)| && batch == |Backlog(rows, i, Batch)|
    {
      interactive, batch := 0, 0;
      ghost var inter, bat := Backlog(rows, i, Interactive), Backlog(rows, i, Batch);
      var todo := rows.Keys;
      VisitEnds(inter, todo);
      VisitEnds(bat, todo);
      while todo != {}
        invariant todo <= rows.Keys
        invariant interactive == |Visited(inter, todo)| && batch == |Visited(bat, todo)|
        decreases todo
      {
        var id :| id in todo;
        VisitOne(inter, todo, id);
        VisitOne(bat, todo, id);
        var r := rows[id];
        todo := todo - {id};
        if r.op.instance == i && (r.status == PENDING || r.status == AWAITING_READBACK) {
          if r.op.priority == Interactive { interactive := interactive + 1; } else { batch := batch + 1; }
        }
      }
    }

    method GetStatus(id: Id) returns (r: Option<Report>)
      ensures r == SqlStatus(Tables(), id)
      ensures r.Some? <==> id in rows || id in history
      ensures id in rows ==>
        var row := rows[id];
        var uid := if row.result.Some? then row.result.value.uid else None;
        r == Some(Report(row.op, row.status, row.attemptCount, uid, row.errorCode, row.finalizedAt, false))
      ensures id !in rows && id in history ==>
        var h := history[id];
        var uid := if h.uid == Some("") then None else h.uid;
        r == Some(Report(h.op, Final(h.outcome), 0, uid, h.errorCode, Some(h.finalizedAt), true))
    {
      if id in rows {
        return Some(HotReport(rows[id]));
      }
      if id !in history { return None; }
      r := Some(ColdReport(history[id]));
    }

    // The first two loops of claimBatch: both caps per instance.
    method CapsOf(available: map<string, Availability>) returns (remaining: map<string, int>, batchRemaining: map<string, int>)
      ensures AreCaps(remaining, batchRemaining, Caps(available))
    {
      remaining, batchRemaining := map[], map[];
      var todo := available.Keys;
      while todo != {}
        invariant todo <= available.Keys
        invariant remaining.Keys == batchRemaining.Keys == Caps(available).Keys - todo
        invariant forall i :: i in remaining ==>
          remaining[i] == Caps(available)[i].total && batchRemaining[i] == Caps(available)[i].batch
        decreases todo
      {
        var i :| i in todo;
        var a := available[i];
        if a.totalFree > 0 {
          remaining := remaining[i := a.totalFree];
          batchRemaining := batchRemaining[i := Max(0, Min(a.batchFree, a.totalFree))];
        }
        todo := todo - {i};
      }
    }

    // Lanes occupied by work that is not claimable.
    method BlockedLanes(now: Time) returns (blocked: set<(string, string)>)
      requires Valid()
      ensures forall id :: id in rows ==>
        ((rows[id].op.instance, rows[id].op.laneKey) in blocked <==> LaneBlocked(rows, rows[id], now))
    {
      blocked := {};
      var todo := rows.Keys;
      while todo != {}
        invariant todo <= rows.Keys
        invariant forall i, l :: (i, l) in blocked <==>
          exists x :: x in rows.Keys - todo && Occupies(rows[x], now) && rows[x].op.instance == i && rows[x].op.laneKey == l
        decreases todo
      {
        var x :| x in todo;
        var r := rows[x];
        if r.status == RUNNING {
          blocked := blocked + {(r.op.instance, r.op.laneKey)};
        } else if r.status == AWAITING_READBACK && r.notBefore.Some? && r.notBefore.value > now {
          blocked := blocked + {(r.op.instance, r.op.laneKey)};
        }
        todo := todo - {x};
      }
    }

    // The filters and the sort.
    method CandidatesOf(q: Query, remaining: map<string, int>) returns (cs: seq<Id>)
      requires Valid() && DistinctStamps(rows) && remaining.Keys == Caps(q.available).Keys
      ensures Enumerates(rows, q, cs)
    {
      var blocked := BlockedLanes(q.now);
      cs := [];
      var todo := rows.Keys;
      while todo != {}
        invariant todo <= rows.Keys
        invariant Ordered(rows, cs)
        invariant forall x :: x in cs <==> x in rows.Keys - todo && Eligible(rows, q, x)
        decreases todo
      {
        var x :| x in todo;
        var r := rows[x];
        if (r.status == PENDING || (r.status == AWAITING_READBACK && (r.notBefore.None? || r.notBefore.value <= q.now)))
           && r.op.instance in remaining && r.op.laneKey !in q.active
           && (r.op.instance, r.op.laneKey) !in blocked
        {
          cs := InsertByClaimOrder(rows, cs, x);
        }
        todo := todo - {x};
      }
    }

    // The claim loop itself, over the sorted candidates.
    method TakeCandidates(q: Query, cs: seq<Id>, total: map<string, int>, batch: map<string, int>)
      returns (claimed: seq<Claimed>)
      requires Enumerates(rows, q, cs) && AreCaps(total, batch, Caps(q.available))
      modifies this`rows
      ensures ClaimMade(old(rows), history, q, rows, claimed)
    {
      EligibleCanTurn(rows, q, cs, total, batch);
      ghost var first := First(rows, total, batch);
      var remaining, batchRemaining := total, batch;
      var takenLanes: set<string> := {};
      claimed := [];
      var k := 0;
      while k < |cs| && |claimed| < q.limit
        invariant k <= |cs| && (k > 0 ==> |Turns(first, cs, k - 1, q.now).claimed| < q.limit)
        invariant LoopState(claimed, rows, takenLanes, remaining, batchRemaining) == Turns(first, cs, k, q.now)
      {
        OneTurn(old(rows), cs, total, batch, k, q.now);
        var row := rows[cs[k]];
        var i := row.op.instance;
        if remaining[i] > 0 && row.op.laneKey !in takenLanes {
          if row.op.priority != Batch || batchRemaining[i] > 0 {
            if row.op.priority == Batch {
              batchRemaining := batchRemaining[i := batchRemaining[i] - 1];
            }
            rows := rows[cs[k] := ClaimRow(row, q.now)];
            remaining := remaining[i := remaining[i] - 1];
            takenLanes := takenLanes + {row.op.laneKey};
            claimed := claimed + [ToClaimed(cs[k], row)];
          }
        }
        k := k + 1;
      }
      ClaimIsDone(old(rows), history, q, cs, total, batch, k);
    }

    // Claim up to limit rows: those CLAIM_SQL picks, in claim order, exactly when these
    // share no lane key across instances.
    method ClaimBatch(q: Query) returns (claimed: seq<Claimed>)
      requires Valid() && DistinctStamps(rows)
      modifies this`rows
      ensures Valid()
      ensures ClaimMade(old(rows), history, q, rows, claimed)
    {
      ghost var t := rows;
      var remaining, batchRemaining := CapsOf(q.available);
      var cs := CandidatesOf(q, remaining);
      claimed := TakeCandidates(q, cs, remaining, batchRemaining);
      StillValid(t, history, rows, byIdempotencyKey, seqNo);
    }
  }

  lemma FinalizeWrites(db: Db, byKey: map<string, Id>, seqNo: nat, id: Id, outcome: Outcome, result: Option<Result>,
      errorCode: Option<string>, now: Time, row: Row, record: Hist)
    requires Consistent(db.hot, db.history) && Indexed(db.hot, db.history, byKey, seqNo) && id in db.hot && !db.hot[id].Terminal()
    requires row == FinalizeRow(db.hot[id], outcome, result, errorCode, now) && record == HistoryOf(row)
    ensures SqlFinalize(db, id, outcome, result, errorCode, now) == (Db(db.hot[id := row], db.history[id := record]), true)
    ensures Consistent(db.hot[id := row], db.history[id := record])
    ensures Indexed(db.hot[id := row], db.history[id := record], byKey, seqNo)
  {
  }

  ghost function StaleRows(t: Table, now: Time, threshold: int, create: bool): set<Id> {
    set id | id in t && Stale(t[id], now, threshold) && (t[id].op.opType == CREATE) == create
  }

  // A row whose attempt is that old loses its claim: a create waits for its read-back,
  // anything else is pending again, and neither counts as an attempt.
  ghost predicate Reaped(r: Row, r': Row, now: Time, threshold: int, delay: int) {
    var stale := r.status == RUNNING && r.claimedAt.Some? && now - r.claimedAt.value >= threshold;
    && (!stale ==> r' == r)
    && (stale && r.op.opType == CREATE ==> r' == r.(status := AWAITING_READBACK, claimedAt := None, notBefore := Some(now + delay)))
    && (stale && r.op.opType != CREATE ==> r' == r.(status := PENDING, claimedAt := None, notBefore := None))
  }

  ghost function Reaping(t: Table, done: set<Id>, now: Time, threshold: int, delay: int): Table {
    map id | id in t :: if id in done && Stale(t[id], now, threshold) then ReapRow(t[id], now, delay) else t[id]
  }

  // The members of s already visited.
  ghost function Visited(s: set<Id>, todo: set<Id>): set<Id> {
    set x | x in s && x !in todo
  }

  lemma VisitOne(s: set<Id>, todo: set<Id>, id: Id)
    requires id in todo
    ensures |Visited(s, todo - {id})| == |Visited(s, todo)| + if id in s then 1 else 0
  {
    assert Visited(s, todo - {id}) == if id in s then Visited(s, todo) + {id} else Visited(s, todo);
  }

  lemma VisitEnds(s: set<Id>, todo: set<Id>)
    requires s <= todo
    ensures Visited(s, todo) == {} && Visited(s, {}) == s
  {
  }

  lemma ReapOne(t: Table, todo: set<Id>, id: Id, now: Time, threshold: int, delay: int)
    requires id in todo && todo <= t.Keys
    ensures Reaping(t, t.Keys - (todo - {id}), now, threshold, delay)
         == Reaping(t, t.Keys - todo, now, threshold, delay)
              [id := if Stale(t[id], now, threshold) then ReapRow(t[id], now, delay) else t[id]]
    ensures Reaping(t, t.Keys - todo, now, threshold, delay)[id] == t[id]
  {
  }

  lemma AllReaped(db: Db, now: Time, threshold: int, delay: int)
    ensures Reaping(db.hot, db.hot.Keys - {}, now, threshold, delay) == SqlReap(db, now, threshold, delay).hot
    ensures Consistent(db.hot, db.history) ==> Consistent(SqlReap(db, now, threshold, delay).hot, db.history)
    ensures forall b, n :: Indexed(db.hot, db.history, b, n) ==> Indexed(SqlReap(db, now, threshold, delay).hot, db.history, b, n)
  {
  }

  lemma EachReaped(db: Db, now: Time, threshold: int, delay: int)
    ensures SqlReap(db, now, threshold - 1, delay).hot.Keys == db.hot.Keys
    ensures forall id :: id in db.hot ==> Reaped(db.hot[id], SqlReap(db, now, threshold - 1, delay).hot[id], now, threshold, delay)
  {
  }

  lemma ClaimingIsSql(db: Db, q: Query)
    ensures SqlClaim(db, q).hot == Claiming(db.hot, PickedSet(db.hot, q), q.now)
  {
  }

  lemma ClaimingKeeps(db: Db, w: set<Id>, now: Time)
    requires forall id :: id in w && id in db.hot ==> !db.hot[id].Terminal()
    ensures Consistent(db.hot, db.history) ==> Consistent(Claiming(db.hot, w, now), db.history)
    ensures forall b, n :: Indexed(db.hot, db.history, b, n) ==> Indexed(Claiming(db.hot, w, now), db.history, b, n)
  {
  }

  ghost predicate AreCaps(total: map<string, int>, batch: map<string, int>, caps: map<string, Cap>) {
    && total.Keys == batch.Keys == caps.Keys
    && forall i :: i in total ==> total[i] == caps[i].total && batch[i] == caps[i].batch
  }

  // ---- the claim loop, turn by turn ---------------------------------------

  // The loop's variables.
  datatype LoopState = LoopState(
    claimed: seq<Claimed>, rows: Table, lanes: set<string>, remaining: map<string, int>, batchRemaining: map<string, int>)

  function First(t: Table, total: map<string, int>, batch: map<string, int>): LoopState {
    LoopState([], t, {}, total, batch)
  }

  predicate CanTurn(s: LoopState, id: Id) {
    id in s.rows && s.rows[id].op.instance in s.remaining && s.rows[id].op.instance in s.batchRemaining
  }

  ghost predicate AllCanTurn(t: Table, cs: seq<Id>, total: map<string, int>, batch: map<string, int>) {
    forall j :: 0 <= j < |cs| ==> cs[j] in t && t[cs[j]].op.instance in total && t[cs[j]].op.instance in batch
  }

  // There is room for the row: for its instance, on its lane, and for its class.
  predicate HasRoom(s: LoopState, id: Id)
    requires CanTurn(s, id)
  {
    var r := s.rows[id].op;
    s.remaining[r.instance] > 0 && r.laneKey !in s.lanes && (r.priority != Batch || s.batchRemaining[r.instance] > 0)
  }

  function Turned(s: LoopState, id: Id, now: Time): LoopState {
    if CanTurn(s, id) && HasRoom(s, id) then
      var r := s.rows[id];
      var i := r.op.instance;
      LoopState(
        s.claimed + [ToClaimed(id, r)], s.rows[id := ClaimRow(r, now)], s.lanes + {r.op.laneKey},
        s.remaining[i := s.remaining[i] - 1],
        if r.op.priority == Batch then s.batchRemaining[i := s.batchRemaining[i] - 1] else s.batchRemaining)
    else s
  }

  function Turns(s: LoopState, cs: seq<Id>, k: nat, now: Time): LoopState
    requires k <= |cs|
  {
    if k == 0 then s else Turned(Turns(s, cs, k - 1, now), cs[k - 1], now)
  }

  lemma {:induction false} TurnsKeep(s: LoopState, cs: seq<Id>, k: nat, now: Time)
    requires k <= |cs|
    ensures var u := Turns(s, cs, k, now);
      && u.rows.Keys == s.rows.Keys && u.remaining.Keys == s.remaining.Keys && u.batchRemaining.Keys == s.batchRemaining.Keys
      && forall id :: id in s.rows ==> u.rows[id].op == s.rows[id].op
  {
    if k > 0 { TurnsKeep(s, cs, k - 1, now); }
  }

  lemma OneTurn(t: Table, cs: seq<Id>, total: map<string, int>, batch: map<string, int>, k: nat, now: Time)
    requires AllCanTurn(t, cs, total, batch) && k < |cs|
    ensures var s := Turns(First(t, total, batch), cs, k, now);
      CanTurn(s, cs[k]) && Turns(First(t, total, batch), cs, k + 1, now) == Turned(s, cs[k], now)
  {
    TurnsKeep(First(t, total, batch), cs, k, now);
  }

  lemma {:induction false} TurnsGrow(s: LoopState, cs: seq<Id>, j: nat, k: nat, now: Time)
    requires j <= k <= |cs|
    ensures |Turns(s, cs, j, now).claimed| <= |Turns(s, cs, k, now).claimed|
    decreases k
  {
    if j < k { TurnsGrow(s, cs, j, k - 1, now); }
  }

  lemma EligibleCanTurn(t: Table, q: Query, cs: seq<Id>, total: map<string, int>, batch: map<string, int>)
    requires Enumerates(t, q, cs) && AreCaps(total, batch, Caps(q.available))
    ensures AllCanTurn(t, cs, total, batch)
  {
    forall j | 0 <= j < |cs| ensures t[cs[j]].op.instance in Caps(q.available) { assert Eligible(t, q, cs[j]); }
  }

  ghost function IdsIn(claimed: seq<Claimed>): set<Id> {
    set c | c in claimed :: c.id
  }

  // No two of these rows have one lane key, whatever their instances.
  ghost predicate LanesApart(t: Table, s: set<Id>) {
    forall a, b :: a in s && b in s && a in t && b in t && a != b ==> t[a].op.laneKey != t[b].op.laneKey
  }

  // What the loop has done after k candidates, whatever the table.
  ghost predicate Took(t: Table, cs: seq<Id>, k: nat, now: Time, s: LoopState)
    requires InTable(t, cs) && k <= |cs|
  {
    var w := IdsIn(s.claimed);
    && (forall x :: x in w ==> x in cs[..k] && x in t)
    && s.rows == Claiming(t, w, now) && s.lanes == LanesOf(t, w) && LanesApart(t, w) && Lists(t, w, s.claimed)
  }

  lemma {:induction false} TurnsTake(t: Table, cs: seq<Id>, first: LoopState, k: nat, now: Time)
    requires Ordered(t, cs) && k <= |cs| && Took(t, cs, 0, now, first)
    ensures Took(t, cs, k, now, Turns(first, cs, k, now))
  {
    if k > 0 {
      var j := k - 1;
      TurnsTake(t, cs, first, j, now);
      TakeNext(t, cs, j, now, Turns(first, cs, j, now));
      assert Turns(first, cs, k, now) == Turned(Turns(first, cs, j, now), cs[j], now) && k == j + 1;
    }
  }

  lemma TookNothing(t: Table, cs: seq<Id>, total: map<string, int>, batch: map<string, int>, now: Time)
    requires InTable(t, cs)
    ensures Took(t, cs, 0, now, First(t, total, batch))
  {
    assert IdsIn([]) == {} && Claiming(t, {}, now) == t && LanesOf(t, {}) == {};
  }

  lemma TakeNext(t: Table, cs: seq<Id>, k: nat, now: Time, s: LoopState)
    requires Ordered(t, cs) && k < |cs| && Took(t, cs, k, now, s)
    ensures Took(t, cs, k + 1, now, Turned(s, cs[k], now))
  {
    var w, x := IdsIn(s.claimed), cs[k];
    PrefixMember(t, cs, k, x);
    assert cs[..k + 1] == cs[..k] + [x];
    assert x !in w;
    if CanTurn(s, x) && HasRoom(s, x) {
      var more := s.claimed + [ToClaimed(x, t[x])];
      IdsOneMore(s.claimed, ToClaimed(x, t[x]));
      ClaimOneMore(t, w, x, now);
      LanesOneMore(t, w, x);
      forall y | y in w ensures Before(t[y], t[x]) { PrefixMember(t, cs, k, y); }
      ListOneMore(t, w, s.claimed, x);
      forall y | y in w ensures t[y].op.laneKey != t[x].op.laneKey { assert t[y].op.laneKey in LanesOf(t, w); }
    }
  }

  lemma IdsOneMore(claimed: seq<Claimed>, c: Claimed)
    ensures IdsIn(claimed + [c]) == IdsIn(claimed) + {c.id}
  {
    assert c in claimed + [c];
    forall d | d in claimed ensures d in claimed + [c] {}
  }

  // The loop takes only eligible rows, no two of one lane key.
  lemma LoopTook(t: Table, q: Query, cs: seq<Id>, total: map<string, int>, batch: map<string, int>, k: nat)
    requires Enumerates(t, q, cs) && k <= |cs|
    ensures var s := Turns(First(t, total, batch), cs, k, q.now);
      && (forall x :: x in IdsIn(s.claimed) ==> Eligible(t, q, x))
      && s.rows == Claiming(t, IdsIn(s.claimed), q.now) && LanesApart(t, IdsIn(s.claimed))
      && IdsIn(s.claimed) <= t.Keys && Lists(t, IdsIn(s.claimed), s.claimed)
  {
    TookNothing(t, cs, total, batch, q.now);
    TurnsTake(t, cs, First(t, total, batch), k, q.now);
    var w := IdsIn(Turns(First(t, total, batch), cs, k, q.now).claimed);
    forall x | x in w ensures Eligible(t, q, x) && x in t { assert x in cs[..k] && x in cs; }
  }

  // So a claim that equals the statement's picked no lane key twice.
  lemma SameAsSql(t: Table, history: map<Id, Hist>, q: Query, s: LoopState)
    requires s.rows == Claiming(t, IdsIn(s.claimed), q.now) && LanesApart(t, IdsIn(s.claimed))
    ensures s.rows == SqlClaim(Db(t, history), q).hot ==> LanesApart(t, PickedSet(t, q))
  {
    if s.rows == SqlClaim(Db(t, history), q).hot {
      forall x | x in PickedSet(t, q) ensures x in IdsIn(s.claimed) {
        assert t[x].status != RUNNING && s.rows[x].status == RUNNING;
      }
    }
  }

  // And one where the statement picks no lane key twice takes exactly its rows.
  lemma LoopIsClaim(t: Table, q: Query, cs: seq<Id>, total: map<string, int>, batch: map<string, int>, k: nat)
    requires Enumerates(t, q, cs) && LanesApart(t, PickedSet(t, q)) && AreCaps(total, batch, Caps(q.available)) && k <= |cs|
    requires k == |cs| || |Turns(First(t, total, batch), cs, k, q.now).claimed| >= q.limit
    requires k > 0 ==> |Turns(First(t, total, batch), cs, k - 1, q.now).claimed| < q.limit
    ensures var s := Turns(First(t, total, batch), cs, k, q.now);
      s.rows == Claiming(t, PickedSet(t, q), q.now) && Lists(t, PickedSet(t, q), s.claimed)
  {
    var w, v, caps := AllTaken(t, q), Candidates(t, q, cs), Caps(q.available);
    FollowsPicks(t, q, cs, total, batch, k);
    if k > 0 { FollowsPicks(t, q, cs, total, batch, k - 1); }
    StoppedIsClaim(t, q, cs, k);
  }

  // The rows in w are RUNNING from now on, and nothing else has changed.
  ghost predicate Starts(t: Table, w: set<Id>, now: Time, t': Table) {
    t'.Keys == t.Keys && forall x :: x in t ==>
      t'[x] == if x in w then t[x].(status := RUNNING, claimedAt := Some(now), notBefore := None) else t[x]
  }

  ghost predicate HandedOut(t: Table, claimed: seq<Claimed>) {
    forall c :: c in claimed ==> c.id in t && HandsOver(c, t[c.id])
  }

  lemma ListsHandOut(t: Table, w: set<Id>, now: Time, claimed: seq<Claimed>)
    requires w <= t.Keys && Lists(t, w, claimed)
    ensures Starts(t, w, now, Claiming(t, w, now)) && HandedOut(t, claimed)
  {
  }

  // What claimBatch has done: it has claimed claimable rows of pairwise different lane
  // keys, within the limit and each instance's caps, handed each out as it was, and changed
  // nothing else. That is what the statement does if and only if the rows it picks have
  // pairwise different lane keys.
  ghost predicate ClaimMade(t: Table, history: map<Id, Hist>, q: Query, t': Table, claimed: seq<Claimed>) {
    ClaimTaken(t, q, t', claimed) && ClaimMatches(t, history, q, t', claimed) && StaysValid(t, history, t')
  }

  ghost predicate ClaimTaken(t: Table, q: Query, t': Table, claimed: seq<Claimed>) {
    var w := IdsIn(claimed);
    && w <= t.Keys && Lists(t, w, claimed) && LanesApart(t, w) && t' == Claiming(t, w, q.now)
    && Starts(t, w, q.now, t') && HandedOut(t, claimed)
    && |claimed| <= Max(0, q.limit) && Allowed(t, q, w) && Greedy(t, q, w)
  }

  ghost predicate ClaimMatches(t: Table, history: map<Id, Hist>, q: Query, t': Table, claimed: seq<Claimed>) {
    var apart := LanesApart(t, PickedSet(t, q));
    && (Db(t', history) == SqlClaim(Db(t, history), q) <==> apart)
    && (apart ==> Lists(t, PickedSet(t, q), claimed))
  }

  // Claimable rows, as many as the caps admit.
  ghost predicate Allowed(t: Table, q: Query, w: set<Id>) {
    (forall x :: x in w ==> Eligible(t, q, x)) && KeepsCaps(t, q, w)
  }

  ghost function RowsOf(t: Table, w: set<Id>, i: string): set<Id> {
    set x | x in w && x in t && t[x].op.instance == i
  }

  ghost function BatchRowsOf(t: Table, w: set<Id>, i: string): set<Id> {
    set x | x in w && x in t && t[x].op.instance == i && t[x].op.priority == Batch
  }

  ghost predicate KeepsCaps(t: Table, q: Query, w: set<Id>) {
    forall i :: i in Caps(q.available) ==> WithinCap(t, w, i, Caps(q.available)[i])
  }

  ghost predicate WithinCap(t: Table, w: set<Id>, i: string, cap: Cap) {
    |RowsOf(t, w, i)| <= cap.total && |BatchRowsOf(t, w, i)| <= cap.batch
  }

  // The loop's counters are what the caps have left.
  ghost predicate Spent(t: Table, total: map<string, int>, batch: map<string, int>, s: LoopState) {
    SpentOf(t, IdsIn(s.claimed), total, s.remaining) && BatchSpentOf(t, IdsIn(s.claimed), batch, s.batchRemaining)
  }

  ghost predicate SpentOf(t: Table, w: set<Id>, total: map<string, int>, left: map<string, int>) {
    left.Keys == total.Keys && forall i :: i in total ==> left[i] == total[i] - |RowsOf(t, w, i)| && left[i] >= 0
  }

  ghost predicate BatchSpentOf(t: Table, w: set<Id>, batch: map<string, int>, left: map<string, int>) {
    left.Keys == batch.Keys && forall i :: i in batch ==> left[i] == batch[i] - |BatchRowsOf(t, w, i)| && left[i] >= 0
  }

  lemma OneMoreOf(t: Table, w: set<Id>, x: Id, i: string)
    requires x in t && x !in w
    ensures |RowsOf(t, w + {x}, i)| == |RowsOf(t, w, i)| + if t[x].op.instance == i then 1 else 0
  {
    assert RowsOf(t, w + {x}, i) == RowsOf(t, w, i) + if t[x].op.instance == i then {x} else {};
  }

  lemma OneMoreBatchOf(t: Table, w: set<Id>, x: Id, i: string)
    requires x in t && x !in w
    ensures |BatchRowsOf(t, w + {x}, i)| == |BatchRowsOf(t, w, i)| + if t[x].op.instance == i && t[x].op.priority == Batch then 1 else 0
  {
    assert BatchRowsOf(t, w + {x}, i)
      == BatchRowsOf(t, w, i) + if t[x].op.instance == i && t[x].op.priority == Batch then {x} else {};
  }

  lemma SlotSpent(t: Table, w: set<Id>, total: map<string, int>, left: map<string, int>, x: Id)
    requires SpentOf(t, w, total, left) && x in t && x !in w && t[x].op.instance in left && left[t[x].op.instance] > 0
    ensures SpentOf(t, w + {x}, total, left[t[x].op.instance := left[t[x].op.instance] - 1])
  {
    forall i | i in total ensures |RowsOf(t, w + {x}, i)| == |RowsOf(t, w, i)| + if t[x].op.instance == i then 1 else 0 {
      OneMoreOf(t, w, x, i);
    }
  }

  lemma BatchSlotSpent(t: Table, w: set<Id>, batch: map<string, int>, left: map<string, int>, x: Id)
    requires BatchSpentOf(t, w, batch, left) && x in t && x !in w && t[x].op.instance in left
    requires t[x].op.priority == Batch ==> left[t[x].op.instance] > 0
    ensures BatchSpentOf(t, w + {x}, batch,
      if t[x].op.priority == Batch then left[t[x].op.instance := left[t[x].op.instance] - 1] else left)
  {
    forall i | i in batch
      ensures |BatchRowsOf(t, w + {x}, i)|
        == |BatchRowsOf(t, w, i)| + if t[x].op.instance == i && t[x].op.priority == Batch then 1 else 0
    {
      OneMoreBatchOf(t, w, x, i);
    }
  }

  lemma TurnSpends(t: Table, total: map<string, int>, batch: map<string, int>, s: LoopState, x: Id, now: Time)
    requires Spent(t, total, batch, s) && x in t && x !in IdsIn(s.claimed) && x in s.rows && s.rows[x] == t[x]
    ensures Spent(t, total, batch, Turned(s, x, now))
  {
    if CanTurn(s, x) && HasRoom(s, x) {
      IdsOneMore(s.claimed, ToClaimed(x, t[x]));
      SlotSpent(t, IdsIn(s.claimed), total, s.remaining, x);
      BatchSlotSpent(t, IdsIn(s.claimed), batch, s.batchRemaining, x);
    }
  }

  lemma {:induction false} TurnsSpend(t: Table, cs: seq<Id>, total: map<string, int>, batch: map<string, int>, k: nat, now: Time)
    requires Ordered(t, cs) && k <= |cs|
    requires (forall i :: i in total ==> total[i] >= 0) && forall i :: i in batch ==> batch[i] >= 0
    ensures Spent(t, total, batch, Turns(First(t, total, batch), cs, k, now))
  {
    var first := First(t, total, batch);
    if k == 0 {
      assert IdsIn([]) == {};
      assert forall i :: RowsOf(t, {}, i) == {} && BatchRowsOf(t, {}, i) == {};
    } else {
      var s := Turns(first, cs, k - 1, now);
      TurnsSpend(t, cs, total, batch, k - 1, now);
      TookNothing(t, cs, total, batch, now);
      TurnsTake(t, cs, first, k - 1, now);
      NotYetTaken(t, cs, k - 1, now, s);
      TurnSpends(t, total, batch, s, cs[k - 1], now);
    }
  }

  lemma NotYetTaken(t: Table, cs: seq<Id>, k: nat, now: Time, s: LoopState)
    requires Ordered(t, cs) && k < |cs| && Took(t, cs, k, now, s)
    ensures cs[k] !in IdsIn(s.claimed) && cs[k] in s.rows && s.rows[cs[k]] == t[cs[k]]
  {
    PrefixMember(t, cs, k, cs[k]);
  }

  lemma CapsAreKept(t: Table, q: Query, cs: seq<Id>, total: map<string, int>, batch: map<string, int>, k: nat)
    requires Ordered(t, cs) && AreCaps(total, batch, Caps(q.available)) && k <= |cs|
    ensures KeepsCaps(t, q, IdsIn(Turns(First(t, total, batch), cs, k, q.now).claimed))
  {
    TurnsSpend(t, cs, total, batch, k, q.now);
  }

  lemma LimitIsKept(s: LoopState, cs: seq<Id>, k: nat, now: Time, limit: int)
    requires k <= |cs| && s.claimed == [] && (k > 0 ==> |Turns(s, cs, k - 1, now).claimed| < limit)
    ensures |Turns(s, cs, k, now).claimed| <= Max(0, limit)
  {
  }

  // ---- which rows are taken, on any table ----------------------------------

  // The rows of w that come before x in claim order.
  ghost function Ahead(t: Table, w: set<Id>, x: Id): set<Id>
    requires x in t
  {
    set y | y in w && y in t && Before(t[y], t[x])
  }

  // Behind the rows in a there is still room for x: under the limit, for its instance,
  // for its class, and on its lane key.
  ghost predicate RoomBehind(t: Table, q: Query, a: set<Id>, x: Id)
    requires x in t && t[x].op.instance in Caps(q.available)
  {
    var op := t[x].op;
    var cap := Caps(q.available)[op.instance];
    && |a| < q.limit && |RowsOf(t, a, op.instance)| < cap.total
    && (op.priority == Batch ==> |BatchRowsOf(t, a, op.instance)| < cap.batch)
    && forall y :: y in a && y in t ==> t[y].op.laneKey != op.laneKey
  }

  // A claimable row is taken exactly when those taken before it leave room.
  ghost predicate Greedy(t: Table, q: Query, w: set<Id>) {
    forall x :: Eligible(t, q, x) ==> (x in w <==> RoomBehind(t, q, Ahead(t, w, x), x))
  }

  ghost function TakenBy(first: LoopState, cs: seq<Id>, k: nat, now: Time): set<Id>
    requires k <= |cs|
  {
    IdsIn(Turns(first, cs, k, now).claimed)
  }

  // What holds after k turns.
  lemma AfterTurns(t: Table, q: Query, cs: seq<Id>, total: map<string, int>, batch: map<string, int>, k: nat)
    requires Enumerates(t, q, cs) && AreCaps(total, batch, Caps(q.available)) && k <= |cs|
    ensures var s := Turns(First(t, total, batch), cs, k, q.now);
      Took(t, cs, k, q.now, s) && Spent(t, total, batch, s) && |IdsIn(s.claimed)| == |s.claimed|
  {
    var s := Turns(First(t, total, batch), cs, k, q.now);
    TookNothing(t, cs, total, batch, q.now);
    TurnsTake(t, cs, First(t, total, batch), k, q.now);
    TurnsSpend(t, cs, total, batch, k, q.now);
    ListedOnce(t, IdsIn(s.claimed), s.claimed);
    AllDistinct(s.claimed);
  }

  lemma ListedOnce(t: Table, w: set<Id>, claimed: seq<Claimed>)
    requires w <= t.Keys && Lists(t, w, claimed)
    ensures forall i, j :: 0 <= i < j < |claimed| ==> claimed[i].id != claimed[j].id
  {
  }

  lemma {:induction false} AllDistinct(claimed: seq<Claimed>)
    requires forall i, j :: 0 <= i < j < |claimed| ==> claimed[i].id != claimed[j].id
    ensures |IdsIn(claimed)| == |claimed|
  {
    if claimed != [] {
      var n := |claimed| - 1;
      AllDistinct(claimed[..n]);
      assert claimed == claimed[..n] + [claimed[n]];
      IdsOneMore(claimed[..n], claimed[n]);
      forall c | c in claimed[..n] ensures c.id != claimed[n].id { var i :| 0 <= i < n && claimed[i] == c; }
    }
  }

  // Turn j decides on its own candidate only.
  lemma TurnTakes(t: Table, q: Query, cs: seq<Id>, total: map<string, int>, batch: map<string, int>, j: nat)
    requires Enumerates(t, q, cs) && AreCaps(total, batch, Caps(q.available)) && j < |cs|
    ensures var first := First(t, total, batch);
      && CanTurn(Turns(first, cs, j, q.now), cs[j])
      && TakenBy(first, cs, j + 1, q.now)
         == TakenBy(first, cs, j, q.now) + if HasRoom(Turns(first, cs, j, q.now), cs[j]) then {cs[j]} else {}
  {
    var s := Turns(First(t, total, batch), cs, j, q.now);
    EligibleCanTurn(t, q, cs, total, batch);
    OneTurn(t, cs, total, batch, j, q.now);
    IdsOneMore(s.claimed, ToClaimed(cs[j], s.rows[cs[j]]));
  }

  // By the room that the rows taken so far leave it.
  lemma TurnFindsRoom(t: Table, q: Query, cs: seq<Id>, total: map<string, int>, batch: map<string, int>, j: nat)
    requires Enumerates(t, q, cs) && AreCaps(total, batch, Caps(q.available)) && j < |cs|
    requires |Turns(First(t, total, batch), cs, j, q.now).claimed| < q.limit
    ensures var first := First(t, total, batch);
      && CanTurn(Turns(first, cs, j, q.now), cs[j]) && Eligible(t, q, cs[j])
      && (HasRoom(Turns(first, cs, j, q.now), cs[j]) <==> RoomBehind(t, q, TakenBy(first, cs, j, q.now), cs[j]))
  {
    var s := Turns(First(t, total, batch), cs, j, q.now);
    TurnTakes(t, q, cs, total, batch, j);
    AfterTurns(t, q, cs, total, batch, j);
    NotYetTaken(t, cs, j, q.now, s);
    assert cs[j] in cs;
    RoomIsLeft(t, q, total, batch, s, cs[j]);
  }

  lemma RoomIsLeft(t: Table, q: Query, total: map<string, int>, batch: map<string, int>, s: LoopState, x: Id)
    requires AreCaps(total, batch, Caps(q.available)) && Eligible(t, q, x) && CanTurn(s, x) && s.rows[x] == t[x]
    requires Spent(t, total, batch, s) && s.lanes == LanesOf(t, IdsIn(s.claimed))
    requires |IdsIn(s.claimed)| == |s.claimed| < q.limit
    ensures HasRoom(s, x) <==> RoomBehind(t, q, IdsIn(s.claimed), x)
  {
  }

  // The rows taken by turn j are the early ones of those taken later.
  lemma {:induction false} TakenEarlier(t: Table, q: Query, cs: seq<Id>, total: map<string, int>, batch: map<string, int>, j: nat, k: nat)
    requires Enumerates(t, q, cs) && AreCaps(total, batch, Caps(q.available)) && j <= k <= |cs|
    ensures forall y :: y in TakenBy(First(t, total, batch), cs, j, q.now) <==>
      y in TakenBy(First(t, total, batch), cs, k, q.now) && y in cs[..j]
    decreases k
  {
    if j == k {
      AfterTurns(t, q, cs, total, batch, j);
    } else {
      TakenEarlier(t, q, cs, total, batch, j, k - 1);
      TurnTakes(t, q, cs, total, batch, k - 1);
      PrefixMember(t, cs, k - 1, cs[k - 1]);
      assert cs[..j] <= cs[..k - 1];
    }
  }

  lemma TakenAhead(t: Table, q: Query, cs: seq<Id>, total: map<string, int>, batch: map<string, int>, j: nat, k: nat)
    requires Enumerates(t, q, cs) && AreCaps(total, batch, Caps(q.available)) && j < |cs| && k <= |cs|
    ensures Ahead(t, TakenBy(First(t, total, batch), cs, k, q.now), cs[j])
         == TakenBy(First(t, total, batch), cs, if j < k then j else k, q.now)
  {
    var w := TakenBy(First(t, total, batch), cs, k, q.now);
    AfterTurns(t, q, cs, total, batch, k);
    if j < k { TakenEarlier(t, q, cs, total, batch, j, k); }
    forall y | y in w ensures y in t && (y in cs[..j] <==> Before(t[y], t[cs[j]])) { PrefixMember(t, cs, j, y); }
    if k <= j { assert cs[..k] <= cs[..j]; }
  }

  lemma VisitedByRoom(t: Table, q: Query, cs: seq<Id>, total: map<string, int>, batch: map<string, int>, j: nat, k: nat)
    requires Enumerates(t, q, cs) && AreCaps(total, batch, Caps(q.available)) && j < k <= |cs|
    requires |Turns(First(t, total, batch), cs, k - 1, q.now).claimed| < q.limit
    ensures var w := TakenBy(First(t, total, batch), cs, k, q.now);
      Eligible(t, q, cs[j]) && (cs[j] in w <==> RoomBehind(t, q, Ahead(t, w, cs[j]), cs[j]))
  {
    TurnsGrow(First(t, total, batch), cs, j, k - 1, q.now);
    TurnFindsRoom(t, q, cs, total, batch, j);
    TurnTakes(t, q, cs, total, batch, j);
    TakenAhead(t, q, cs, total, batch, j, k);
    TakenEarlier(t, q, cs, total, batch, j, k);
    TakenEarlier(t, q, cs, total, batch, j + 1, k);
    PrefixMember(t, cs, j, cs[j]);
    assert cs[..j + 1][j] == cs[j];
  }

  lemma UnvisitedByLimit(t: Table, q: Query, cs: seq<Id>, total: map<string, int>, batch: map<string, int>, j: nat, k: nat)
    requires Enumerates(t, q, cs) && AreCaps(total, batch, Caps(q.available)) && k <= j < |cs|
    requires |Turns(First(t, total, batch), cs, k, q.now).claimed| >= q.limit
    ensures var w := TakenBy(First(t, total, batch), cs, k, q.now);
      Eligible(t, q, cs[j]) && cs[j] !in w && !RoomBehind(t, q, Ahead(t, w, cs[j]), cs[j])
  {
    TakenInPrefix(t, q, cs, total, batch, k);
    TakenAhead(t, q, cs, total, batch, j, k);
    PrefixMember(t, cs, j, cs[j]);
    assert cs[..k] <= cs[..j] && cs[j] in cs;
  }

  lemma TakenInPrefix(t: Table, q: Query, cs: seq<Id>, total: map<string, int>, batch: map<string, int>, k: nat)
    requires Enumerates(t, q, cs) && AreCaps(total, batch, Caps(q.available)) && k <= |cs|
    ensures var w := TakenBy(First(t, total, batch), cs, k, q.now);
      |w| == |Turns(First(t, total, batch), cs, k, q.now).claimed| && forall y :: y in w ==> y in cs[..k]
  {
    AfterTurns(t, q, cs, total, batch, k);
  }

  // Wherever the loop stops, it has taken the rows it found room for, in claim order.
  lemma LoopIsGreedy(t: Table, q: Query, cs: seq<Id>, total: map<string, int>, batch: map<string, int>, k: nat)
    requires Enumerates(t, q, cs) && AreCaps(total, batch, Caps(q.available)) && k <= |cs|
    requires k == |cs| || |Turns(First(t, total, batch), cs, k, q.now).claimed| >= q.limit
    requires k > 0 ==> |Turns(First(t, total, batch), cs, k - 1, q.now).claimed| < q.limit
    ensures Greedy(t, q, TakenBy(First(t, total, batch), cs, k, q.now))
  {
    var w := TakenBy(First(t, total, batch), cs, k, q.now);
    forall x | Eligible(t, q, x) ensures x in w <==> RoomBehind(t, q, Ahead(t, w, x), x) {
      var j := Position(t, q, cs, x);
      if j < k { VisitedByRoom(t, q, cs, total, batch, j, k); } else { UnvisitedByLimit(t, q, cs, total, batch, j, k); }
    }
  }

  // Nothing else is greedy: the rows a claim takes are determined, on any table.
  lemma OneGreedySet(t: Table, q: Query, cs: seq<Id>, v: set<Id>, w: set<Id>)
    requires Enumerates(t, q, cs) && Greedy(t, q, v) && Greedy(t, q, w)
    requires forall x :: x in v || x in w ==> x in cs
    ensures v == w
  {
    var k := FirstDifference(cs, v, w);
    if k < |cs| { SameAt(t, q, cs, v, w, k); }
  }

  // Up to there they agree on the candidates.
  lemma FirstDifference(cs: seq<Id>, v: set<Id>, w: set<Id>) returns (k: nat)
    requires forall x :: x in v || x in w ==> x in cs
    ensures k <= |cs| && forall j :: 0 <= j < k ==> (cs[j] in v <==> cs[j] in w)
    ensures k < |cs| ==> !(cs[k] in v <==> cs[k] in w)
    ensures k == |cs| ==> v == w
  {
    k := 0;
    while k < |cs| && (cs[k] in v <==> cs[k] in w)
      invariant k <= |cs| && forall j :: 0 <= j < k ==> (cs[j] in v <==> cs[j] in w)
    {
      k := k + 1;
    }
    if k == |cs| {
      forall x | x in cs ensures x in v <==> x in w {
        var j :| 0 <= j < |cs| && cs[j] == x;
      }
    }
  }

  lemma SameAt(t: Table, q: Query, cs: seq<Id>, v: set<Id>, w: set<Id>, k: nat)
    requires Enumerates(t, q, cs) && Greedy(t, q, v) && Greedy(t, q, w) && k < |cs|
    requires forall x :: x in v || x in w ==> x in cs
    requires forall j :: 0 <= j < k ==> (cs[j] in v <==> cs[j] in w)
    ensures cs[k] in v <==> cs[k] in w
  {
    SameAhead(t, q, cs, v, w, k);
    assert cs[k] in cs && Eligible(t, q, cs[k]);
    SameRoom(t, q, v, w, cs[k]);
  }

  lemma SameRoom(t: Table, q: Query, v: set<Id>, w: set<Id>, x: Id)
    requires Greedy(t, q, v) && Greedy(t, q, w) && Eligible(t, q, x) && Ahead(t, v, x) == Ahead(t, w, x)
    ensures x in v <==> x in w
  {
  }

  lemma SameAhead(t: Table, q: Query, cs: seq<Id>, v: set<Id>, w: set<Id>, k: nat)
    requires Enumerates(t, q, cs) && k < |cs| && forall x :: x in v || x in w ==> x in cs
    requires forall j :: 0 <= j < k ==> (cs[j] in v <==> cs[j] in w)
    ensures Ahead(t, v, cs[k]) == Ahead(t, w, cs[k])
  {
    forall y | (y in v || y in w) && Before(t[y], t[cs[k]]) ensures y in v <==> y in w {
      PrefixMember(t, cs, k, y);
      var j :| 0 <= j < k && cs[..k][j] == y;
    }
  }

  ghost predicate StaysValid(t: Table, history: map<Id, Hist>, t': Table) {
    && (Consistent(t, history) ==> Consistent(t', history))
    && (forall b, n :: Indexed(t, history, b, n) ==> Indexed(t', history, b, n))
  }

  lemma StillValid(t: Table, history: map<Id, Hist>, t': Table, byKey: map<string, Id>, seqNo: nat)
    requires StaysValid(t, history, t') && Consistent(t, history) && Indexed(t, history, byKey, seqNo)
    ensures Consistent(t', history) && Indexed(t', history, byKey, seqNo)
  {
  }

  // What a claim leaves behind, wherever the loop stopped.
  lemma ClaimIsDone(t: Table, history: map<Id, Hist>, q: Query, cs: seq<Id>, total: map<string, int>, batch: map<string, int>, k: nat)
    requires Enumerates(t, q, cs) && AreCaps(total, batch, Caps(q.available)) && k <= |cs|
    requires k == |cs| || |Turns(First(t, total, batch), cs, k, q.now).claimed| >= q.limit
    requires k > 0 ==> |Turns(First(t, total, batch), cs, k - 1, q.now).claimed| < q.limit
    ensures var s := Turns(First(t, total, batch), cs, k, q.now); ClaimMade(t, history, q, s.rows, s.claimed)
  {
    var s := Turns(First(t, total, batch), cs, k, q.now);
    LoopTook(t, q, cs, total, batch, k);
    CapsAreKept(t, q, cs, total, batch, k);
    LimitIsKept(First(t, total, batch), cs, k, q.now, q.limit);
    LoopIsGreedy(t, q, cs, total, batch, k);
    if LanesApart(t, PickedSet(t, q)) { LoopIsClaim(t, q, cs, total, batch, k); }
    ListsHandOut(t, IdsIn(s.claimed), q.now, s.claimed);
    TakenIsMade(t, history, q, s);
  }

  lemma TakenIsMade(t: Table, history: map<Id, Hist>, q: Query, s: LoopState)
    requires ClaimTaken(t, q, s.rows, s.claimed)
    requires LanesApart(t, PickedSet(t, q)) ==>
      s.rows == Claiming(t, PickedSet(t, q), q.now) && Lists(t, PickedSet(t, q), s.claimed)
    ensures ClaimMade(t, history, q, s.rows, s.claimed)
  {
    SameAsSql(t, history, q, s);
    ClaimingIsSql(Db(t, history), q);
    ClaimKeepsValid(t, history, q, IdsIn(s.claimed));
  }

  lemma ClaimKeepsValid(t: Table, history: map<Id, Hist>, q: Query, w: set<Id>)
    requires forall x :: x in w ==> Eligible(t, q, x)
    ensures StaysValid(t, history, Claiming(t, w, q.now))
  {
    ClaimingKeeps(Db(t, history), w, q.now);
  }

  // While the limit is not reached, the loop's state is that of taking the rows within the caps.
  lemma {:induction false} FollowsPicks(t: Table, q: Query, cs: seq<Id>, total: map<string, int>, batch: map<string, int>, k: nat)
    requires Enumerates(t, q, cs) && LanesApart(t, PickedSet(t, q)) && AreCaps(total, batch, Caps(q.available)) && k <= |cs|
    requires k > 0 ==> |Turns(First(t, total, batch), cs, k - 1, q.now).claimed| < q.limit
    ensures Turns(First(t, total, batch), cs, k, q.now)
         == StateBy(t, AllTaken(t, q), Candidates(t, q, cs), Caps(q.available), q.now, cs, k)
  {
    var w, v, caps := AllTaken(t, q), Candidates(t, q, cs), Caps(q.available);
    if k == 0 {
      FirstState(t, w, v, caps, q.now, cs, total, batch);
    } else {
      if k > 1 { TurnsGrow(First(t, total, batch), cs, k - 2, k - 1, q.now); }
      FollowsPicks(t, q, cs, total, batch, k - 1);
      Decide(t, q, cs, k - 1);
      Advance(t, w, v, caps, q.now, cs, k - 1);
    }
  }

  lemma FirstState(t: Table, w: set<Id>, v: seq<Candidate>, caps: map<string, Cap>, now: Time, cs: seq<Id>,
      total: map<string, int>, batch: map<string, int>)
    requires InTable(t, cs) && |cs| == |v| && AreCaps(total, batch, caps)
    ensures StateBy(t, w, v, caps, now, cs, 0) == First(t, total, batch)
  {
    assert RemainingBy(v, caps, 0) == total && BatchRemainingBy(v, caps, 0) == batch;
  }

  lemma StoppedIsClaim(t: Table, q: Query, cs: seq<Id>, k: nat)
    requires Enumerates(t, q, cs) && k <= |cs|
    requires k == |cs| || |ClaimedBy(t, AllTaken(t, q), cs, k)| >= q.limit
    requires k == 0 || |ClaimedBy(t, AllTaken(t, q), cs, k - 1)| < q.limit
    ensures RowsBy(t, AllTaken(t, q), q.now, cs, k) == Claiming(t, PickedSet(t, q), q.now)
    ensures Lists(t, PickedSet(t, q), ClaimedBy(t, AllTaken(t, q), cs, k))
  {
    Finish(t, q, cs, k);
    RowsSoFar(t, AllTaken(t, q), q.now, cs, k);
    ClaimedLists(t, AllTaken(t, q), cs, k);
  }

  // If no lane key is used by claimable rows of two instances, the picked rows share none.
  lemma UnsharedIsApart(t: Table, q: Query)
    requires DistinctStamps(t) && LanesUnshared(t, q)
    ensures LanesApart(t, PickedSet(t, q))
  {
    forall a, b | a in PickedSet(t, q) && b in PickedSet(t, q) && a != b ensures t[a].op.laneKey != t[b].op.laneKey {
      assert Eligible(t, q, a) && Eligible(t, q, b);
      OnePerLane(t, q, a, b);
    }
  }

  // ---- the loop's variables, if it takes exactly the candidates in w -------

  ghost predicate InTable(t: Table, cs: seq<Id>) {
    forall j :: 0 <= j < |cs| ==> cs[j] in t
  }

  ghost function ClaimedBy(t: Table, w: set<Id>, cs: seq<Id>, k: nat): seq<Claimed>
    requires InTable(t, cs) && k <= |cs|
  {
    if k == 0 then []
    else if cs[k - 1] in w then ClaimedBy(t, w, cs, k - 1) + [ToClaimed(cs[k - 1], t[cs[k - 1]])]
    else ClaimedBy(t, w, cs, k - 1)
  }

  ghost function RowsBy(t: Table, w: set<Id>, now: Time, cs: seq<Id>, k: nat): Table
    requires InTable(t, cs) && k <= |cs|
  {
    if k == 0 then t
    else if cs[k - 1] in w then RowsBy(t, w, now, cs, k - 1)[cs[k - 1] := ClaimRow(t[cs[k - 1]], now)]
    else RowsBy(t, w, now, cs, k - 1)
  }

  ghost function LanesBy(t: Table, w: set<Id>, cs: seq<Id>, k: nat): set<string>
    requires InTable(t, cs) && k <= |cs|
  {
    if k == 0 then {}
    else if cs[k - 1] in w then LanesBy(t, w, cs, k - 1) + {t[cs[k - 1]].op.laneKey}
    else LanesBy(t, w, cs, k - 1)
  }

  ghost function RemainingBy(v: seq<Candidate>, caps: map<string, Cap>, k: nat): map<string, int>
    requires k <= |v|
  {
    map i | i in caps :: caps[i].total - Got(v, caps, k, i, Interactive) - Got(v, caps, k, i, Batch)
  }

  ghost function BatchRemainingBy(v: seq<Candidate>, caps: map<string, Cap>, k: nat): map<string, int>
    requires k <= |v|
  {
    map i | i in caps :: caps[i].batch - Got(v, caps, k, i, Batch)
  }

  ghost function Claiming(t: Table, w: set<Id>, now: Time): Table {
    map id | id in t :: if id in w then ClaimRow(t[id], now) else t[id]
  }

  lemma {:induction false} RowsSoFar(t: Table, w: set<Id>, now: Time, cs: seq<Id>, k: nat)
    requires InTable(t, cs) && k <= |cs|
    ensures RowsBy(t, w, now, cs, k) == Claiming(t, Among(cs, k, w), now)
  {
    if k > 0 {
      RowsSoFar(t, w, now, cs, k - 1);
      AmongMore(cs, k - 1, w);
      ClaimOneMore(t, Among(cs, k - 1, w), cs[k - 1], now);
    }
  }

  lemma ClaimOneMore(t: Table, s: set<Id>, x: Id, now: Time)
    requires x in t
    ensures Claiming(t, s + {x}, now) == Claiming(t, s, now)[x := ClaimRow(t[x], now)]
  {
  }

  ghost function LanesOf(t: Table, s: set<Id>): set<string> {
    set x | x in s && x in t :: t[x].op.laneKey
  }

  lemma {:induction false} LanesSoFar(t: Table, w: set<Id>, cs: seq<Id>, k: nat)
    requires Ordered(t, cs) && k <= |cs|
    ensures LanesBy(t, w, cs, k) == LanesOf(t, Among(cs, k, w))
  {
    if k > 0 {
      LanesSoFar(t, w, cs, k - 1);
      AmongMore(cs, k - 1, w);
      LanesOneMore(t, Among(cs, k - 1, w), cs[k - 1]);
    }
  }

  lemma {:induction false} SizeSoFar(t: Table, w: set<Id>, cs: seq<Id>, k: nat)
    requires Ordered(t, cs) && k <= |cs|
    ensures |ClaimedBy(t, w, cs, k)| == |Among(cs, k, w)|
  {
    if k > 0 {
      SizeSoFar(t, w, cs, k - 1);
      PrefixMember(t, cs, k - 1, cs[k - 1]);
      AmongStep(cs, k - 1, w);
    }
  }

  lemma LanesOneMore(t: Table, s: set<Id>, x: Id)
    requires x in t
    ensures LanesOf(t, s + {x}) == LanesOf(t, s) + {t[x].op.laneKey}
  {
  }

  // The loop's tests accept the k-th candidate exactly when it is in w.
  ghost predicate Decides(t: Table, w: set<Id>, v: seq<Candidate>, caps: map<string, Cap>, now: Time, cs: seq<Id>, k: nat)
    requires InTable(t, cs) && k < |cs| == |v|
  {
    var r := t[cs[k]].op;
    && cs[k] in RowsBy(t, w, now, cs, k) && RowsBy(t, w, now, cs, k)[cs[k]] == t[cs[k]]
    && r.instance in caps && v[k].instance == r.instance && v[k].priority == r.priority
    && (cs[k] in w <==> Within(v, caps, k))
    && (cs[k] in w <==>
         && RemainingBy(v, caps, k)[r.instance] > 0
         && r.laneKey !in LanesBy(t, w, cs, k)
         && (r.priority != Batch || BatchRemainingBy(v, caps, k)[r.instance] > 0))
  }

  ghost function StateBy(t: Table, w: set<Id>, v: seq<Candidate>, caps: map<string, Cap>, now: Time, cs: seq<Id>, k: nat): LoopState
    requires InTable(t, cs) && k <= |cs| == |v|
  {
    LoopState(ClaimedBy(t, w, cs, k), RowsBy(t, w, now, cs, k), LanesBy(t, w, cs, k), RemainingBy(v, caps, k), BatchRemainingBy(v, caps, k))
  }

  lemma Advance(t: Table, w: set<Id>, v: seq<Candidate>, caps: map<string, Cap>, now: Time, cs: seq<Id>, k: nat)
    requires InTable(t, cs) && k < |cs| == |v| && Decides(t, w, v, caps, now, cs, k)
    ensures StateBy(t, w, v, caps, now, cs, k + 1) == Turned(StateBy(t, w, v, caps, now, cs, k), cs[k], now)
  {
    AdvanceTotal(v, caps, k);
    AdvanceBatch(v, caps, k);
  }

  // Below the limit a row within the caps is a picked row, as are those taken before it.
  lemma Decide(t: Table, q: Query, cs: seq<Id>, k: nat)
    requires Enumerates(t, q, cs) && k < |cs| && LanesApart(t, PickedSet(t, q))
    requires |ClaimedBy(t, AllTaken(t, q), cs, k)| < q.limit
    ensures Decides(t, AllTaken(t, q), Candidates(t, q, cs), Caps(q.available), q.now, cs, k)
  {
    var w := AllTaken(t, q);
    PrefixMember(t, cs, k, cs[k]);
    RowsSoFar(t, w, q.now, cs, k);
    GreedyTest(t, q, cs, k);
    WithinAt(t, q, cs, k);
    assert cs[k] !in Among(cs, k, w);
    if cs[k] in w { LaneIsOpen(t, q, cs, k); } else { LanesSoFar(t, w, cs, k); }
  }

  lemma LaneIsOpen(t: Table, q: Query, cs: seq<Id>, k: nat)
    requires Enumerates(t, q, cs) && k < |cs| && LanesApart(t, PickedSet(t, q)) && cs[k] in AllTaken(t, q)
    requires |ClaimedBy(t, AllTaken(t, q), cs, k)| < q.limit
    ensures t[cs[k]].op.laneKey !in LanesBy(t, AllTaken(t, q), cs, k)
  {
    var w := AllTaken(t, q);
    LanesSoFar(t, w, cs, k);
    PickedBelowLimit(t, q, cs, k, k);
    forall x | x in Among(cs, k, w) ensures t[x].op.laneKey != t[cs[k]].op.laneKey {
      var j :| 0 <= j < k && cs[j] == x;
      PickedBelowLimit(t, q, cs, j, k);
      PrefixMember(t, cs, k, cs[k]);
    }
  }

  lemma PickedBelowLimit(t: Table, q: Query, cs: seq<Id>, j: nat, k: nat)
    requires Enumerates(t, q, cs) && j <= k < |cs| && cs[j] in AllTaken(t, q)
    requires |ClaimedBy(t, AllTaken(t, q), cs, k)| < q.limit
    ensures cs[j] in PickedSet(t, q)
  {
    PickedIffFewer(t, q, cs, j);
    SizeSoFar(t, AllTaken(t, q), cs, j);
    ClaimedGrows(t, AllTaken(t, q), cs, j, k);
  }

  // A row within the caps costs its instance a slot, and its class one if batch.
  lemma AdvanceTotal(v: seq<Candidate>, caps: map<string, Cap>, k: nat)
    requires k < |v| && v[k].instance in caps
    ensures var m, i := RemainingBy(v, caps, k), v[k].instance;
      RemainingBy(v, caps, k + 1) == if Within(v, caps, k) then m[i := m[i] - 1] else m
  {
    var within, i := Within(v, caps, k), v[k].instance;
    forall j | j in caps ensures RemainingBy(v, caps, k + 1)[j]
      == RemainingBy(v, caps, k)[j] - if within && i == j then 1 else 0
    {
      GotStep(v, caps, k, j, Interactive);
      GotStep(v, caps, k, j, Batch);
    }
  }

  lemma AdvanceBatch(v: seq<Candidate>, caps: map<string, Cap>, k: nat)
    requires k < |v| && v[k].instance in caps
    ensures var b, i := BatchRemainingBy(v, caps, k), v[k].instance;
      BatchRemainingBy(v, caps, k + 1) == if Within(v, caps, k) && v[k].priority == Batch then b[i := b[i] - 1] else b
  {
    var within, i := Within(v, caps, k), v[k].instance;
    forall j | j in caps ensures BatchRemainingBy(v, caps, k + 1)[j]
      == BatchRemainingBy(v, caps, k)[j] - if within && v[k].priority == Batch && i == j then 1 else 0
    {
      GotStep(v, caps, k, j, Batch);
    }
  }

  lemma GotStep(v: seq<Candidate>, caps: map<string, Cap>, k: nat, i: string, p: Priority)
    requires k < |v|
    ensures Got(v, caps, k + 1, i, p)
         == Got(v, caps, k, i, p) + if Within(v, caps, k) && v[k].instance == i && v[k].priority == p then 1 else 0
  {
  }

  lemma {:induction false} ClaimedGrows(t: Table, w: set<Id>, cs: seq<Id>, j: nat, k: nat)
    requires InTable(t, cs) && j <= k <= |cs|
    ensures |ClaimedBy(t, w, cs, j)| <= |ClaimedBy(t, w, cs, k)|
    decreases k
  {
    if j < k { ClaimedGrows(t, w, cs, j, k - 1); }
  }

  // Stopping at the limit after k candidates keeps those with fewer than limit before them.
  lemma StopsAtLimit(t: Table, w: set<Id>, cs: seq<Id>, k: nat, j: nat, limit: int)
    requires Ordered(t, cs) && k <= |cs| && (k == |cs| || |ClaimedBy(t, w, cs, k)| >= limit)
    requires k == 0 || |ClaimedBy(t, w, cs, k - 1)| < limit
    requires j < |cs|
    ensures |Among(cs, j, w)| < limit <==> cs[j] in cs[..k]
  {
    SizeSoFar(t, w, cs, j);
    if j < k {
      ClaimedGrows(t, w, cs, j, k - 1);
      assert cs[..k][j] == cs[j];
    } else {
      ClaimedGrows(t, w, cs, k, j);
      PrefixMember(t, cs, j, cs[j]);
      assert cs[..k] <= cs[..j];
    }
  }

  // When the loop stops it has the picked rows.
  lemma Finish(t: Table, q: Query, cs: seq<Id>, k: nat)
    requires Enumerates(t, q, cs) && k <= |cs|
    requires k == |cs| || |ClaimedBy(t, AllTaken(t, q), cs, k)| >= q.limit
    requires k == 0 || |ClaimedBy(t, AllTaken(t, q), cs, k - 1)| < q.limit
    ensures Among(cs, k, AllTaken(t, q)) == PickedSet(t, q)
  {
    var w := AllTaken(t, q);
    forall x | x in w ensures Picked(t, q, x) <==> x in cs[..k] {
      var j := Position(t, q, cs, x);
      PickedIffFewer(t, q, cs, j);
      StopsAtLimit(t, w, cs, k, j, q.limit);
    }
  }

  lemma Position(t: Table, q: Query, cs: seq<Id>, x: Id) returns (j: nat)
    requires Enumerates(t, q, cs) && Eligible(t, q, x)
    ensures j < |cs| && cs[j] == x
  {
    j :| 0 <= j < |cs| && cs[j] == x;
  }

  // The claimed list is the taken rows as they were, in claim order.
  ghost predicate Lists(t: Table, taken: set<Id>, claimed: seq<Claimed>)
    requires taken <= t.Keys
  {
    && (forall c :: c in claimed ==> c.id in taken && c == ToClaimed(c.id, t[c.id]))
    && (forall x :: x in taken ==> ToClaimed(x, t[x]) in claimed)
    && (forall i, j :: 0 <= i < j < |claimed| ==>
          claimed[i].id in t && claimed[j].id in t && Before(t[claimed[i].id], t[claimed[j].id]))
  }

  lemma {:induction false} ClaimedLists(t: Table, w: set<Id>, cs: seq<Id>, k: nat)
    requires Ordered(t, cs) && k <= |cs|
    ensures Among(cs, k, w) <= t.Keys && Lists(t, Among(cs, k, w), ClaimedBy(t, w, cs, k))
  {
    if k > 0 {
      ClaimedLists(t, w, cs, k - 1);
      var x, s := cs[k - 1], Among(cs, k - 1, w);
      PrefixMember(t, cs, k - 1, x);
      AmongMore(cs, k - 1, w);
      forall y | y in s ensures Before(t[y], t[x]) { PrefixMember(t, cs, k - 1, y); }
      ListOneMore(t, s, ClaimedBy(t, w, cs, k - 1), x);
    }
  }

  lemma ListOneMore(t: Table, s: set<Id>, claimed: seq<Claimed>, x: Id)
    requires s <= t.Keys && Lists(t, s, claimed) && x in t && forall y :: y in s ==> Before(t[y], t[x])
    ensures Lists(t, s + {x}, claimed + [ToClaimed(x, t[x])])
  {
    forall i | 0 <= i < |claimed| ensures claimed[i].id in s { assert claimed[i] in claimed; }
    var more := claimed + [ToClaimed(x, t[x])];
    assert more[|claimed|] == ToClaimed(x, t[x]);
    forall y | y in s ensures ToClaimed(y, t[y]) in more { assert ToClaimed(y, t[y]) in claimed; }
  }

  // One step of sorting by compareClaimOrder.
  method InsertByClaimOrder(t: Table, cs: seq<Id>, x: Id) returns (r: seq<Id>)
    requires Ordered(t, cs) && x in t && x !in cs && DistinctStamps(t)
    ensures Ordered(t, r) && forall y :: y in r <==> y in cs || y == x
  {
    var k := 0;
    while k < |cs| && Before(t[cs[k]], t[x])
      invariant 0 <= k <= |cs|
      invariant forall j :: 0 <= j < k ==> Before(t[cs[j]], t[x])
    {
      k := k + 1;
    }
    r := cs[..k] + [x] + cs[k..];
    Inserted(t, cs, x, k);
  }

  lemma Inserted(t: Table, cs: seq<Id>, x: Id, k: nat)
    requires Ordered(t, cs) && x in t && x !in cs && DistinctStamps(t) && k <= |cs|
    requires forall j :: 0 <= j < k ==> Before(t[cs[j]], t[x])
    requires k < |cs| ==> !Before(t[cs[k]], t[x])
    ensures var r := cs[..k] + [x] + cs[k..]; Ordered(t, r) && forall y :: y in r <==> y in cs || y == x
  {
    forall j | k <= j < |cs| ensures Before(t[x], t[cs[j]]) {
      assert cs[k] in cs && Before(t[x], t[cs[k]]);
      assert j > k ==> Before(t[cs[k]], t[cs[j]]);
    }
    var r := cs[..k] + [x] + cs[k..];
    forall i, j | 0 <= i < j < |r| ensures Before(t[r[i]], t[r[j]]) {
      assert r[i] == if i < k then cs[i] else if i == k then x else cs[i - 1];
      assert r[j] == if j < k then cs[j] else if j == k then x else cs[j - 1];
    }
    assert cs == cs[..k] + cs[k..];
  }

  // Two claimable rows of different instances can share a lane key and both be picked.
  lemma SharedLanesCanBePicked(a: Row, b: Row, q: Query)
    requires a.status == b.status == PENDING && a.op.instance != b.op.instance && Before(a, b) && a.op.laneKey == b.op.laneKey
    requires q.limit >= 2 && a.op.laneKey !in q.active
    requires a.op.instance in Caps(q.available) && Caps(q.available)[a.op.instance].batch >= 1
    requires b.op.instance in Caps(q.available) && Caps(q.available)[b.op.instance].batch >= 1
    ensures var t := map[0 := a, 1 := b]; PickedSet(t, q) == {0, 1} && !LanesApart(t, PickedSet(t, q))
  {
    var t := map[0 := a, 1 := b];
    assert Eligible(t, q, 0) && Eligible(t, q, 1);
    forall x | x in t ensures Picked(t, q, x) {
      assert LanePeersBefore(t, q, x) == {};
      assert InstancePeersBefore(t, q, x) == {} && ClassPeersBefore(t, q, x) == {};
      assert PickedBefore(t, q, x) <= {0};
      Subset(PickedBefore(t, q, x), {0});
    }
  }
}
