// The enqueue-side gate: lane keys, and how far concurrent callers can push the
// backlog past its cap.
module Admission {
  import opened Options
  import opened Rows
  import opened ClaimSpec
  import opened Store
  import opened MemoryStore

  // ---- lane keys ---------------------------------------------------------

  datatype Laned = Lane(key: string) | NoName | NoUid

  function LaneKeyFor(opType: OpType, objectClass: string, uid: Option<string>, name: Option<string>): Laned {
    if opType == CREATE then
      if name.None? || name.value == "" then NoName
      else Lane("create:" + objectClass + ":" + name.value)
    else
      if uid.None? || uid.value == "" then NoUid
      else Lane("uid:" + objectClass + ":" + uid.value)
  }

  // What a lane is meant to be: one object, under the name a create knows it by or
  // under the uid everything else knows it by.
  function IdentityOf(opType: OpType, uid: Option<string>, name: Option<string>): Option<string> {
    if opType == CREATE then name else uid
  }

  lemma SplitAtColon(c: string, d: string, m: string, n: string)
    requires ':' !in c && ':' !in d && c + ":" + m == d + ":" + n
    ensures c == d && m == n
  {
    var s := c + ":" + m;
    assert s == d + ":" + n;
    assert s[|c|] == ':' && s[|d|] == ':';
    if |c| < |d| { assert false; }
    if |d| < |c| { assert false; }
    assert s[..|c|] == c && s[..|d|] == d;
    assert s[|c| + 1..] == m && s[|d| + 1..] == n;
  }

  lemma Unprefixed(p: string, c: string, d: string, m: string, n: string)
    requires p + c + ":" + m == p + d + ":" + n
    ensures c + ":" + m == d + ":" + n
  {
    assert p + c + ":" + m == p + (c + ":" + m);
    assert (p + c + ":" + m)[|p|..] == c + ":" + m;
    assert p + d + ":" + n == p + (d + ":" + n);
    assert (p + d + ":" + n)[|p|..] == d + ":" + n;
  }

  // Two operations share a lane exactly when they name one object the same way, as
  // long as no object class holds a colon.
  lemma LanesAreObjects(
      t1: OpType, c1: string, u1: Option<string>, n1: Option<string>,
      t2: OpType, c2: string, u2: Option<string>, n2: Option<string>)
    requires LaneKeyFor(t1, c1, u1, n1).Lane? && LaneKeyFor(t2, c2, u2, n2).Lane?
    requires ':' !in c1 && ':' !in c2
    ensures LaneKeyFor(t1, c1, u1, n1) == LaneKeyFor(t2, c2, u2, n2) <==>
      (t1 == CREATE <==> t2 == CREATE) && c1 == c2 && IdentityOf(t1, u1, n1) == IdentityOf(t2, u2, n2)
  {
    var i1, i2 := IdentityOf(t1, u1, n1).value, IdentityOf(t2, u2, n2).value;
    var k1, k2 := LaneKeyFor(t1, c1, u1, n1).key, LaneKeyFor(t2, c2, u2, n2).key;
    if k1 == k2 {
      assert k1[0] == if t1 == CREATE then 'c' else 'u';
      assert k2[0] == if t2 == CREATE then 'c' else 'u';
      Unprefixed(if t1 == CREATE then "create:" else "uid:", c1, c2, i1, i2);
      SplitAtColon(c1, c2, i1, i2);
    }
  }

  // Every class with a colon shares keys with another class: splitting it there and
  // moving the rest into the name gives the same lane, for creates and for uids alike.
  lemma ColonsCollide(t: OpType, a: string, b: string, n: string)
    requires n != ""
    ensures LaneKeyFor(t, a + ":" + b, Some(n), Some(n)).Lane?
    ensures LaneKeyFor(t, a + ":" + b, Some(n), Some(n)) == LaneKeyFor(t, a, Some(b + ":" + n), Some(b + ":" + n))
  {
    var p := if t == CREATE then "create:" else "uid:";
    assert p + (a + ":" + b) + ":" + n == p + a + ":" + (b + ":" + n);
  }

  // An operation has a lane exactly when it says which object it is for.
  lemma LaneNeedsIdentity(t: OpType, c: string, u: Option<string>, n: Option<string>)
    ensures LaneKeyFor(t, c, u, n).Lane? <==> NonEmpty(IdentityOf(t, u, n)).Some?
    ensures LaneKeyFor(t, c, u, n).NoName? <==> t == CREATE && NonEmpty(n).None?
  {
  }

  // ---- the gate ----------------------------------------------------------

  // What a caller asks for; the class and the lane key may be left open.
  datatype Request = Request(
    instance: string, opType: OpType, objectClass: string, priority: Option<Priority>, laneKey: Option<string>,
    uid: Option<string>, name: Option<string>, createdAt: Time, key: string)

  datatype Admitted = Accepted(id: Id, deduplicated: bool) | BacklogFull(priority: Priority, depth: nat, cap: nat) | NoLane(why: Laned)

  datatype Limits = Limits(batch: Option<nat>, interactive: Option<nat>)

  function CapOf(l: Limits, p: Priority): nat {
    match p
    case Interactive => if l.interactive.Some? then l.interactive.value else 1_000
    case Batch => if l.batch.Some? then l.batch.value else 10_000
  }

  // The operation a request is for, on its lane.
  function OpFor(r: Request, p: Priority, lane: string): Op {
    Op(r.instance, r.opType, p, lane, r.uid, r.name, r.createdAt, r.key)
  }

  // One caller alone: a backlog at its cap refuses the request and says how deep it is,
  // even if the operation is known already, and nothing is kept of a refused request.
  method AdmitAndEnqueue(store: MemoryOperationStore, r: Request, l: Limits) returns (a: Admitted)
    requires store.Valid()
    modifies store
    ensures store.Valid() && store.history == old(store.history)
    ensures
      var p := if r.priority == Some(Interactive) then Interactive else Batch;
      var depth := |set id | id in old(store.rows) && OfClass(old(store.rows)[id].op, r.instance, p)
                       && old(store.rows)[id].status in {PENDING, AWAITING_READBACK}|;
      var cap := if p == Batch then (if l.batch.Some? then l.batch.value else 10_000)
                 else if l.interactive.Some? then l.interactive.value else 1_000;
      var lane := if r.laneKey.Some? then Lane(r.laneKey.value) else LaneKeyFor(r.opType, r.objectClass, r.uid, r.name);
      && (depth >= cap ==> a == BacklogFull(p, depth, cap))
      && (depth < cap && !lane.Lane? ==> a == NoLane(lane))
      && (depth < cap && lane.Lane? ==>
            && a.Accepted? && a.deduplicated == (r.key in old(store.byIdempotencyKey))
            && (a.deduplicated ==> a.id == old(store.byIdempotencyKey)[r.key] && store.rows == old(store.rows))
            && (!a.deduplicated ==> a.id !in old(store.rows) && store.rows == old(store.rows)[a.id := NewRow(OpFor(r, p, lane.key))]))
    ensures !a.Accepted? ==> store.rows == old(store.rows) && store.byIdempotencyKey == old(store.byIdempotencyKey)
  {
    var p := if r.priority.Some? then r.priority.value else Batch;
    var interactive, batch := store.PendingCounts(r.instance);
    DepthIs(store.rows, r.instance, p);
    var depth := if p == Interactive then interactive else batch;
    var cap := CapOf(l, p);
    if depth >= cap { return BacklogFull(p, depth, cap); }
    var lane := if r.laneKey.Some? then Lane(r.laneKey.value) else LaneKeyFor(r.opType, r.objectClass, r.uid, r.name);
    if !lane.Lane? { return NoLane(lane); }
    var id, known := store.Enqueue(OpFor(r, p, lane.key));
    a := Accepted(id, known);
  }

  lemma DepthIs(t: Table, i: string, p: Priority)
    ensures |Backlog(t, i, p)| == |set id | id in t && OfClass(t[id].op, i, p) && t[id].status in {PENDING, AWAITING_READBACK}|
  {
    assert Backlog(t, i, p) == set id | id in t && OfClass(t[id].op, i, p) && t[id].status in {PENDING, AWAITING_READBACK};
  }

  // What concurrent callers do: read the depth, and only later insert.
  datatype State = State(db: Db, passed: map<nat, Op>)

  datatype Action =
    | Check(c: nat, op: Op)
    | Insert(c: nat, id: Id)                 // a row of its own
    | Deduplicated(c: nat)                   // or the id of an older one, or an error
    | Claim(q: Query)
    | Finalize(f: Id, outcome: Outcome, result: Option<Result>, errorCode: Option<string>, now: Time)
    | Requeue(r: Id)
    | Defer(d: Id, notBefore: Time)
    | Reap(reapedAt: Time, threshold: int, delay: int)
    | Drop(day: int)

  predicate Enabled(l: Limits, s: State, a: Action) {
    match a
    case Check(c, op) => c !in s.passed && |Backlog(s.db.hot, op.instance, op.priority)| < CapOf(l, op.priority)
    case Insert(c, id) => c in s.passed && id !in s.db.hot
    case Deduplicated(c) => c in s.passed
    case _ => true
  }

  function Next(s: State, a: Action): State {
    match a
    case Check(c, op) => s.(passed := s.passed[c := op])
    case Insert(c, id) =>
      if c !in s.passed then s
      else State(s.db.(hot := s.db.hot[id := NewRow(s.passed[c])]), s.passed - {c})
    case Deduplicated(c) => s.(passed := s.passed - {c})
    case Claim(q) => s.(db := SqlClaim(s.db, q))
    case Finalize(id, o, r, e, now) => s.(db := SqlFinalize(s.db, id, o, r, e, now).0)
    case Requeue(id) => s.(db := SqlRequeue(s.db, id).0)
    case Defer(id, nb) => s.(db := SqlDefer(s.db, id, nb).0)
    case Reap(now, th, d) => s.(db := SqlReap(s.db, now, th, d))
    case Drop(day) => s.(db := s.db.(hot := SqlDrop(s.db.hot, day)))
  }

  // One instance and class at a time.
  predicate OfClass(op: Op, i: string, p: Priority) { op.instance == i && op.priority == p }

  function Waiting(passed: map<nat, Op>, i: string, p: Priority): set<nat> {
    set c | c in passed && OfClass(passed[c], i, p)
  }

  function InFlight(t: Table, i: string, p: Priority): set<Id> {
    set id | id in t && OfClass(t[id].op, i, p) && t[id].status == RUNNING
  }

  function Live(t: Table, i: string, p: Priority): set<Id> {
    set id | id in t && OfClass(t[id].op, i, p) && !t[id].Terminal()
  }

  predicate Crowd(s: State, i: string, p: Priority, callers: nat, running: nat) {
    |Waiting(s.passed, i, p)| <= callers && |InFlight(s.db.hot, i, p)| <= running
  }

  function Bound(cap: nat, callers: nat, running: nat): nat {
    if cap == 0 || callers == 0 then 0 else cap - 1 + callers + running
  }

  ghost predicate Held(l: Limits, s: State, i: string, p: Priority, callers: nat, running: nat) {
    |Live(s.db.hot, i, p)| + |Waiting(s.passed, i, p)| <= Bound(CapOf(l, p), callers, running)
  }

  lemma SmallerSet(a: set<nat>, b: set<nat>)
    requires a <= b
    ensures |a| <= |b|
  {
    var c := set x | x in b && x !in a;
    assert b == a + c;
  }

  lemma LiveSplits(t: Table, i: string, p: Priority)
    ensures |Live(t, i, p)| == |Backlog(t, i, p)| + |InFlight(t, i, p)|
  {
    assert Live(t, i, p) == Backlog(t, i, p) + InFlight(t, i, p);
    assert Backlog(t, i, p) !! InFlight(t, i, p);
  }

  lemma OneMoreCaller(passed: map<nat, Op>, c: nat, op: Op, i: string, p: Priority)
    requires c !in passed
    ensures |Waiting(passed[c := op], i, p)| == |Waiting(passed, i, p)| + if OfClass(op, i, p) then 1 else 0
  {
    assert Waiting(passed[c := op], i, p) == Waiting(passed, i, p) + if OfClass(op, i, p) then {c} else {};
  }

  lemma OneMoreRow(t: Table, id: Id, op: Op, i: string, p: Priority)
    requires id !in t
    ensures |Live(t[id := NewRow(op)], i, p)| == |Live(t, i, p)| + if OfClass(op, i, p) then 1 else 0
  {
    assert Live(t[id := NewRow(op)], i, p) == Live(t, i, p) + if OfClass(op, i, p) then {id} else {};
  }

  lemma CheckHolds(l: Limits, s: State, a: Action, i: string, p: Priority, k: nat, r: nat)
    requires a.Check? && Enabled(l, s, a) && Crowd(s, i, p, k, r) && Crowd(Next(s, a), i, p, k, r) && Held(l, s, i, p, k, r)
    ensures Held(l, Next(s, a), i, p, k, r)
  {
    LiveSplits(s.db.hot, i, p);
    OneMoreCaller(s.passed, a.c, a.op, i, p);
  }

  lemma InsertHolds(l: Limits, s: State, a: Action, i: string, p: Priority, k: nat, r: nat)
    requires a.Insert? && Enabled(l, s, a) && Held(l, s, i, p, k, r)
    ensures Held(l, Next(s, a), i, p, k, r)
  {
    var op, rest := s.passed[a.c], s.passed - {a.c};
    assert s.passed == rest[a.c := op];
    OneMoreCaller(rest, a.c, op, i, p);
    OneMoreRow(s.db.hot, a.id, op, i, p);
  }

  // Every other step only moves rows between backlog, running and done: a row that
  // comes back to the backlog was still being counted.
  lemma OthersHold(l: Limits, s: State, a: Action, i: string, p: Priority, k: nat, r: nat)
    requires !a.Check? && !a.Insert? && Held(l, s, i, p, k, r)
    ensures Held(l, Next(s, a), i, p, k, r)
  {
    var t := Next(s, a);
    forall id | id in Live(t.db.hot, i, p) ensures id in Live(s.db.hot, i, p) {}
    SmallerSet(Live(t.db.hot, i, p), Live(s.db.hot, i, p));
    SmallerSet(Waiting(t.passed, i, p), Waiting(s.passed, i, p));
  }

  // The running rows that a step puts back into the backlog.
  function Returning(t: Table, a: Action, i: string, p: Priority): set<Id> {
    set id | id in InFlight(t, i, p) && PutsBack(t[id], id, a)
  }

  predicate PutsBack(r: Row, id: Id, a: Action) {
    match a
    case Requeue(x) => id == x
    case Defer(x, _) => id == x
    case Reap(now, threshold, _) => r.claimedAt.Some? && r.claimedAt.value < now - threshold
    case _ => false
  }

  // The rows that a step takes out of the backlog.
  function Leaving(t: Table, a: Action): set<Id> {
    match a
    case Claim(q) => PickedSet(t, q)
    case Finalize(f, _, _, _, _) => {f}
    case _ => {}
  }

  function RowsOn(t: Table, day: int): set<Id> { set id | id in t && DayOf(t[id].op) == day }

  // What each step moves, exactly: only a finalize ends live work, of its own row; a claim
  // takes the rows it picks out of the backlog, and only running rows come back to it.
  lemma StepMoves(s: State, a: Action, i: string, p: Priority)
    requires !a.Check? && !a.Insert?
    ensures Live(Next(s, a).db.hot, i, p) == Live(s.db.hot, i, p) - (if a.Finalize? then {a.f} else {})
    ensures Backlog(Next(s, a).db.hot, i, p) == Backlog(s.db.hot, i, p) - Leaving(s.db.hot, a) + Returning(s.db.hot, a, i, p)
    ensures Waiting(Next(s, a).passed, i, p) == Waiting(s.passed, i, p) - (if a.Deduplicated? then {a.c} else {})
    ensures Next(s, a).db.hot.Keys
      == s.db.hot.Keys - (if a.Drop? && Droppable(s.db.hot, a.day) then RowsOn(s.db.hot, a.day) else {})
  {
    LiveMoves(s, a, i, p);
    BacklogMoves(s, a, i, p);
  }

  lemma LiveMoves(s: State, a: Action, i: string, p: Priority)
    requires !a.Check? && !a.Insert?
    ensures Live(Next(s, a).db.hot, i, p) == Live(s.db.hot, i, p) - (if a.Finalize? then {a.f} else {})
  {
    if a.Claim? {
      forall id | id in s.db.hot && Picked(s.db.hot, a.q, id) ensures !s.db.hot[id].Terminal() { assert Eligible(s.db.hot, a.q, id); }
    }
  }

  lemma BacklogMoves(s: State, a: Action, i: string, p: Priority)
    requires !a.Check? && !a.Insert?
    ensures Backlog(Next(s, a).db.hot, i, p) == Backlog(s.db.hot, i, p) - Leaving(s.db.hot, a) + Returning(s.db.hot, a, i, p)
  {
    if a.Claim? {
      ClaimLeaves(s.db, a.q, i, p);
    } else if a.Finalize? {
      RowEnds(s, a, i, p);
    } else if a.Requeue? || a.Defer? || a.Reap? {
      RowsReturn(s, a, i, p);
    }
  }

  lemma ClaimLeaves(db: Db, q: Query, i: string, p: Priority)
    ensures Backlog(SqlClaim(db, q).hot, i, p) == Backlog(db.hot, i, p) - PickedSet(db.hot, q)
  {
  }

  lemma RowEnds(s: State, a: Action, i: string, p: Priority)
    requires a.Finalize?
    ensures Backlog(Next(s, a).db.hot, i, p) == Backlog(s.db.hot, i, p) - {a.f} && Returning(s.db.hot, a, i, p) == {}
  {
  }

  lemma RowsReturn(s: State, a: Action, i: string, p: Priority)
    requires a.Requeue? || a.Defer? || a.Reap?
    ensures Backlog(Next(s, a).db.hot, i, p) == Backlog(s.db.hot, i, p) - Leaving(s.db.hot, a) + Returning(s.db.hot, a, i, p)
  {
  }

  function After(s: State, run: seq<Action>): State
    decreases |run|
  {
    if run == [] then s else After(Next(s, run[0]), run[1..])
  }

  // Every step enabled, and never more than so many callers and running rows.
  predicate Possible(l: Limits, s: State, run: seq<Action>, i: string, p: Priority, k: nat, r: nat)
    decreases |run|
  {
    && Crowd(s, i, p, k, r)
    && (run == [] || (Enabled(l, s, run[0]) && Possible(l, Next(s, run[0]), run[1..], i, p, k, r)))
  }

  lemma {:induction false} RunHolds(l: Limits, s: State, run: seq<Action>, i: string, p: Priority, k: nat, r: nat)
    requires Held(l, s, i, p, k, r) && Possible(l, s, run, i, p, k, r)
    ensures Held(l, After(s, run), i, p, k, r)
    decreases |run|
  {
    if run != [] {
      var t := Next(s, run[0]);
      assert Possible(l, t, run[1..], i, p, k, r);
      if run[0].Check? { CheckHolds(l, s, run[0], i, p, k, r); }
      else if run[0].Insert? { InsertHolds(l, s, run[0], i, p, k, r); }
      else { OthersHold(l, s, run[0], i, p, k, r); }
      RunHolds(l, t, run[1..], i, p, k, r);
    }
  }

  function Start(): State { State(Db(map[], map[]), map[]) }

  // The overshoot: at most one row per caller between check and insert, and one per
  // row that was running when the last of them checked.
  lemma OvershootIsBounded(l: Limits, run: seq<Action>, i: string, p: Priority, k: nat, r: nat)
    requires Possible(l, Start(), run, i, p, k, r)
    ensures |Backlog(After(Start(), run).db.hot, i, p)| <= Bound(CapOf(l, p), k, r)
  {
    assert Live(Start().db.hot, i, p) == {} && Waiting(Start().passed, i, p) == {};
    RunHolds(l, Start(), run, i, p, k, r);
    LiveSplits(After(Start(), run).db.hot, i, p);
  }
}
