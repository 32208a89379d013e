// Lane serialization across the whole table, and the table the cells make up.
module Lanes {
  import opened Options
  import opened Rows
  import opened ClaimSpec
  import opened ClaimTheorems
  import opened Protocol
  import opened CellLaws
  import opened Runs
  import opened Resolution
  import opened Store

  // ---- the actions on the table are the store's statements ----------------

  // The history rows the cells hold.
  function Cold(w: World): map<Id, Hist> {
    map id | id in w.cells && w.cells[id].hist.Some? :: w.cells[id].hist.value
  }

  function TablesOf(w: World): Db { Db(Hot(w), Cold(w)) }

  // The tables of a world whose cells hold their rows.
  lemma TablesAre(w: World, db: Db)
    requires forall id :: id in w.cells ==> w.cells[id].row == Lookup(db.hot, id) && w.cells[id].hist == Lookup(db.history, id)
    requires db.hot.Keys <= w.cells.Keys && db.history.Keys <= w.cells.Keys
    ensures TablesOf(w) == db
  {
    HotIs(w, db.hot);
    ColdIs(w, db.history);
  }

  lemma HotIs(w: World, t: Table)
    requires t.Keys <= w.cells.Keys && forall id :: id in w.cells ==> w.cells[id].row == Lookup(t, id)
    ensures Hot(w) == t
  {
    forall id | id in t ensures id in Hot(w) && Hot(w)[id] == t[id] { assert w.cells[id].row == Some(t[id]); }
  }

  lemma ColdIs(w: World, h: map<Id, Hist>)
    requires h.Keys <= w.cells.Keys && forall id :: id in w.cells ==> w.cells[id].hist == Lookup(h, id)
    ensures Cold(w) == h
  {
    forall id | id in h ensures id in Cold(w) && Cold(w)[id] == h[id] { assert w.cells[id].hist == Some(h[id]); }
  }

  lemma ClaimCycleIsSql(env: Env, strict: bool, w: World, q: Query)
    requires Can(env, strict, w, ClaimCycle(q))
    ensures TablesOf(Next(env, w, ClaimCycle(q))) == SqlClaim(TablesOf(w), q)
  {
    var w', db := Next(env, w, ClaimCycle(q)), SqlClaim(TablesOf(w), q);
    forall id | id in w.cells ensures w'.cells[id].row == Lookup(db.hot, id) && w'.cells[id].hist == Lookup(db.history, id) {
      assert Picked(Hot(w), q, id) ==> Enabled(env, w.now, w.cells[id], Take);
    }
    TablesAre(w', db);
  }

  // An attempt is started on what the claim handed out: whether it searches and how far
  // it backs off depend on the row's status and count before the claim.
  lemma AttemptsAreHandedOut(env: Env, strict: bool, w: World, q: Query, id: Id)
    requires Can(env, strict, w, ClaimCycle(q)) && Picked(Hot(w), q, id)
    ensures var c', h := Next(env, w, ClaimCycle(q)).cells[id], ToClaimed(id, Hot(w)[id]);
      && HandsOver(h, Hot(w)[id])
      && c'.claims == w.cells[id].claims + [Claim(h.prior, h.attemptCount)]
      && c'.live == w.cells[id].live[|w.cells[id].claims| := Phase.Claimed]
  {
    assert Enabled(env, w.now, w.cells[id], Take);
  }

  lemma ReapIsSql(env: Env, w: World)
    ensures TablesOf(Next(env, w, Reap)) == SqlReap(TablesOf(w), w.now, env.reapThreshold, env.reapDelay)
  {
    var w', db := Next(env, w, Reap), SqlReap(TablesOf(w), w.now, env.reapThreshold, env.reapDelay);
    forall id | id in w.cells ensures w'.cells[id].row == Lookup(db.hot, id) && w'.cells[id].hist == Lookup(db.history, id) { }
    TablesAre(w', db);
  }

  lemma DropIsSql(env: Env, w: World, day: int)
    requires RowsOk(w)
    ensures TablesOf(Next(env, w, Drop(day))) == Db(SqlDrop(Hot(w), day), Cold(w))
  {
    var w', db := Next(env, w, Drop(day)), Db(SqlDrop(Hot(w), day), Cold(w));
    forall id | id in w.cells ensures w'.cells[id].row == Lookup(db.hot, id) && w'.cells[id].hist == Lookup(db.history, id) {
      DropRow(env, w, day, id);
    }
    TablesAre(w', db);
  }

  lemma DropRow(env: Env, w: World, day: int, id: Id)
    requires id in w.cells && RowOk(w.cells[id])
    requires Droppable(Hot(w), day) && w.cells[id].row.Some? && DayOf(w.cells[id].op) == day ==> Hot(w)[id].Terminal()
    ensures Next(env, w, Drop(day)).cells[id].row == Lookup(SqlDrop(Hot(w), day), id)
    ensures Next(env, w, Drop(day)).cells[id].hist == w.cells[id].hist
  {
    var c, gone := w.cells[id], Droppable(Hot(w), day) && DayOf(w.cells[id].op) == day;
    assert c.row.Some? ==> id in Hot(w) && Hot(w)[id] == c.row.value && c.row.value.op == c.op;
    assert Next(env, w, Drop(day)).cells[id].row == if gone then None else c.row;
  }

  lemma EnqueueInserts(env: Env, strict: bool, w: World, id: Id, op: Op, present: bool)
    requires Can(env, strict, w, Enqueue(id, op, present))
    ensures TablesOf(Next(env, w, Enqueue(id, op, present))) == Db(Hot(w)[id := NewRow(op)], Cold(w))
  {
    TablesAre(Next(env, w, Enqueue(id, op, present)), Db(Hot(w)[id := NewRow(op)], Cold(w)));
  }

  // The store call a decided attempt makes.
  function Written(db: Db, id: Id, r: Resolution, now: Time): Db {
    match r
    case Finish(outcome, result, code) => SqlFinalize(db, id, outcome, result, code, now).0
    case Requeue(_, _) => SqlRequeue(db, id).0
    case DeferReadback(delay) => SqlDefer(db, id, now + delay).0
  }

  // The write-back of an attempt is that store call: the first outcome stands, and only
  // a running row goes back or waits.
  lemma WriteIsSql(env: Env, strict: bool, w: World, id: Id, n: nat)
    requires Can(env, strict, w, Local(id, Write(n))) && Recorded(w.cells[id])
    ensures TablesOf(Next(env, w, Local(id, Write(n)))) == Written(TablesOf(w), id, w.cells[id].live[n].r, w.now)
  {
    var c, r := w.cells[id], w.cells[id].live[n].r;
    var w', db := Next(env, w, Local(id, Write(n))), Written(TablesOf(w), id, r, w.now);
    RowWritten(w.now, c.(live := c.live - {n}), r, TablesOf(w), id);
    WrittenOnly(TablesOf(w), id, r, w.now);
    forall x | x in w.cells ensures w'.cells[x].row == Lookup(db.hot, x) && w'.cells[x].hist == Lookup(db.history, x) { }
    TablesAre(w', db);
  }

  lemma RowWritten(now: Time, c: Cell, r: Resolution, db: Db, id: Id)
    requires Recorded(c) && c.row == Lookup(db.hot, id) && c.hist == Lookup(db.history, id)
    ensures var c', db' := WriteBack(now, c, r), Written(db, id, r, now);
      c'.row == Lookup(db'.hot, id) && c'.hist == Lookup(db'.history, id)
  {
  }

  lemma WrittenOnly(db: Db, id: Id, r: Resolution, now: Time)
    ensures var db' := Written(db, id, r, now);
      && db'.hot.Keys == db.hot.Keys && db'.history.Keys <= db.history.Keys + db.hot.Keys
      && (forall x :: x != id ==> Lookup(db'.hot, x) == Lookup(db.hot, x) && Lookup(db'.history, x) == Lookup(db.history, x))
  {
  }

  // No other step of a dispatcher or a target changes the tables.
  lemma OthersLeaveTables(env: Env, strict: bool, w: World, id: Id, act: Act)
    requires Can(env, strict, w, Local(id, act)) && !act.Write?
    ensures TablesOf(Next(env, w, Local(id, act))) == TablesOf(w)
  {
    OthersWriteNothing(env, w.now, w.cells[id], act);
    TablesAre(Next(env, w, Local(id, act)), TablesOf(w));
  }

  lemma OthersWriteNothing(env: Env, now: Time, c: Cell, act: Act)
    requires Enabled(env, now, c, act) && IsLocal(act) && !act.Write?
    ensures Perform(env, now, c, act).row == c.row && Perform(env, now, c, act).hist == c.hist
  {
  }

  // ---- lane occupancy ----------------------------------------------------

  ghost predicate OccupiesLane(w: World, id: Id) {
    id in w.cells && w.cells[id].row.Some? && Occupies(w.cells[id].row.value, w.now)
  }

  // At most one row per lane runs or waits out its read-back.
  ghost predicate OneOccupant(w: World) {
    forall a, b :: OccupiesLane(w, a) && OccupiesLane(w, b) ==> !Clash(w, a, b)
  }

  ghost predicate Clash(w: World, a: Id, b: Id)
    requires OccupiesLane(w, a) && OccupiesLane(w, b)
  {
    a != b && SameLane(w.cells[a].row.value, w.cells[b].row.value)
  }

  ghost predicate StampsDiffer(w: World) {
    forall a, b :: a in w.cells && b in w.cells && a != b ==> w.cells[a].op.createdAt != w.cells[b].op.createdAt
  }

  // Only a claim makes a row occupy its lane.
  lemma OccupiedBefore(env: Env, strict: bool, w: World, a: Action, id: Id)
    requires Inv(env, strict, w) && Can(env, strict, w, a) && OccupiesLane(Next(env, w, a), id)
    requires !Claims(w, a, id)
    ensures OccupiesLane(w, id) && Next(env, w, a).cells[id].row.value.op == w.cells[id].row.value.op
  {
    if id in w.cells {
      var c, c' := w.cells[id], Next(env, w, a).cells[id];
      CellStep(env, strict, w, a, id);
      if c' != c {
        var act :| Enabled(env, w.now, c, act) && c' == Perform(env, w.now, c, act) && (act.Take? ==> Claims(w, a, id));
        OccupiedBeforeAct(env, w.now, c, act);
      }
    }
  }

  lemma OccupiedBeforeAct(env: Env, now: Time, c: Cell, act: Act)
    requires Basic(env, c) && Enabled(env, now, c, act) && !act.Take?
    ensures var c' := Perform(env, now, c, act);
      c'.row.Some? ==> c.row.Some? && c'.row.value.op == c.row.value.op
                       && (Occupies(c'.row.value, now) ==> Occupies(c.row.value, now))
  {
  }

  lemma PickedRow(env: Env, strict: bool, w: World, q: Query, id: Id)
    requires Can(env, strict, w, ClaimCycle(q)) && Picked(Hot(w), q, id)
    ensures id in w.cells && w.cells[id].row.Some?
    ensures var c' := Next(env, w, ClaimCycle(q)).cells[id]; c'.row.Some? && c'.row.value.op == w.cells[id].row.value.op
  {
  }

  lemma OneOccupantKept(env: Env, strict: bool, w: World, a: Action)
    requires Inv(env, strict, w) && Can(env, strict, w, a) && OneOccupant(w) && StampsDiffer(w)
    ensures OneOccupant(Next(env, w, a)) && StampsDiffer(Next(env, w, a))
  {
    var w' := Next(env, w, a);
    forall x, y | OccupiesLane(w', x) && OccupiesLane(w', y) ensures !Clash(w', x, y) {
      if SameLane(w'.cells[x].row.value, w'.cells[y].row.value) { PairKept(env, strict, w, a, x, y); }
    }
    StampsKept(env, strict, w, a);
  }

  lemma StampsKept(env: Env, strict: bool, w: World, a: Action)
    requires Can(env, strict, w, a) && StampsDiffer(w)
    ensures StampsDiffer(Next(env, w, a))
  {
    forall id | id in w.cells ensures id in Next(env, w, a).cells && Next(env, w, a).cells[id].op == w.cells[id].op {
      OpKept(env, strict, w, a, id);
    }
  }

  lemma OpKept(env: Env, strict: bool, w: World, a: Action, id: Id)
    requires Can(env, strict, w, a) && id in w.cells
    ensures id in Next(env, w, a).cells && Next(env, w, a).cells[id].op == w.cells[id].op
  {
    CellStep(env, strict, w, a, id);
  }

  lemma HotStampsDiffer(env: Env, strict: bool, w: World)
    requires Inv(env, strict, w) && StampsDiffer(w)
    ensures DistinctStamps(Hot(w))
  {
    var t := Hot(w);
    forall id | id in t ensures t[id].op == w.cells[id].op { assert RowOk(w.cells[id]); }
  }

  // An occupant was on its lane before: just claimed, or occupying it already.
  lemma WasOnLane(env: Env, strict: bool, w: World, a: Action, x: Id)
    requires Inv(env, strict, w) && Can(env, strict, w, a) && OccupiesLane(Next(env, w, a), x)
    ensures x in Hot(w) && x in w.cells && w.cells[x].row == Some(Hot(w)[x])
    ensures Hot(w)[x].op == Next(env, w, a).cells[x].row.value.op
    ensures Claims(w, a, x) || OccupiesLane(w, x)
  {
    if Claims(w, a, x) { PickedRow(env, strict, w, a.q, x); } else { OccupiedBefore(env, strict, w, a, x); }
  }

  lemma PairKept(env: Env, strict: bool, w: World, a: Action, x: Id, y: Id)
    requires Inv(env, strict, w) && Can(env, strict, w, a) && OneOccupant(w) && StampsDiffer(w)
    requires var w' := Next(env, w, a);
      OccupiesLane(w', x) && OccupiesLane(w', y) && SameLane(w'.cells[x].row.value, w'.cells[y].row.value)
    ensures x == y
  {
    HotStampsDiffer(env, strict, w);
    WasOnLane(env, strict, w, a, x);
    WasOnLane(env, strict, w, a, y);
    PairApart(w, a, x, y);
  }

  lemma PairApart(w: World, a: Action, x: Id, y: Id)
    requires OneOccupant(w) && DistinctStamps(Hot(w)) && (a.ClaimCycle? ==> a.q.now == w.now)
    requires x in Hot(w) && x in w.cells && w.cells[x].row == Some(Hot(w)[x])
    requires y in Hot(w) && y in w.cells && w.cells[y].row == Some(Hot(w)[y])
    requires SameLane(Hot(w)[x], Hot(w)[y])
    requires Claims(w, a, x) || OccupiesLane(w, x)
    requires Claims(w, a, y) || OccupiesLane(w, y)
    ensures x == y
  {
    if Claims(w, a, x) { OnePerLane(Hot(w), a.q, x, y); }
    if Claims(w, a, y) { OnePerLane(Hot(w), a.q, y, x); }
    if OccupiesLane(w, x) && OccupiesLane(w, y) { assert !Clash(w, x, y); }
  }

  // In every reachable state, whoever claims, crashes, defers or reaps.
  lemma {:induction false} LanesSerialize(env: Env, strict: bool, w: World, acts: seq<Action>)
    requires Inv(env, strict, w) && OneOccupant(w) && StampsDiffer(w) && Possible(env, strict, w, acts)
    ensures OneOccupant(After(env, w, acts))
    decreases |acts|
  {
    if acts != [] {
      OneOccupantKept(env, strict, w, acts[0]);
      NextKeeps(env, strict, w, acts[0]);
      LanesSerialize(env, strict, Next(env, w, acts[0]), acts[1..]);
    }
  }
}
