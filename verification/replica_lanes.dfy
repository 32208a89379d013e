// Lanes when the claim is split between replicas: the recheck under the lock covers a
// row's own status only, so a row that enters its lane ahead of a picked one lets two
// rows of the lane run. Without such entries one row at a time occupies a lane.
module ReplicaLanes {
  import opened Rows
  import opened ClaimSpec
  import opened ClaimTheorems
  import opened Replicas

  datatype Timed = Timed(at: Time, act: Action)

  ghost predicate OpenPick(s: State, id: Id) { exists r :: r in s.picked && id in s.picked[r] }

  // A new row with its own stamp, and not ahead of a row of its lane that some replica
  // has picked and not yet claimed.
  ghost predicate EntersBehind(s: State, op: Op) {
    forall x :: x in s.rows && !s.rows[x].Terminal() && OpenPick(s, x) && SameLane(s.rows[x], NewRow(op)) ==>
      Before(s.rows[x], NewRow(op))
  }

  ghost predicate NewStamp(s: State, op: Op) {
    forall x :: x in s.rows ==> s.rows[x].op.createdAt != op.createdAt
  }

  // Claims see their own time, and it never goes back.
  ghost predicate CanAct(s: State, now: Time, t: Timed) {
    && now <= t.at && Enabled(s, t.act)
    && (t.act.Snapshot? ==> t.act.q.now == t.at)
    && (t.act.Insert? ==> NewStamp(s, t.act.op))
  }

  ghost predicate Behind(s: State, t: Timed) { t.act.Insert? ==> EntersBehind(s, t.act.op) }

  ghost predicate Plays(s: State, now: Time, run: seq<Timed>, behind: bool)
    decreases |run|
  {
    run == []
    || (CanAct(s, now, run[0]) && (behind ==> Behind(s, run[0])) && Plays(Next(s, run[0].act), run[0].at, run[1..], behind))
  }

  ghost function Ends(s: State, now: Time, run: seq<Timed>, behind: bool): State
    requires Plays(s, now, run, behind)
    decreases |run|
  {
    if run == [] then s else Ends(Next(s, run[0].act), run[0].at, run[1..], behind)
  }

  function EndTime(now: Time, run: seq<Timed>): Time { if run == [] then now else run[|run| - 1].at }

  // ---- one occupant -----------------------------------------------------------

  // Picked and not yet claimed, or running, or waiting out a read-back.
  ghost predicate Engaged(s: State, now: Time, id: Id) {
    id in s.rows && (Occupies(s.rows[id], now) || (OpenPick(s, id) && !s.rows[id].Terminal()))
  }

  ghost predicate OneEngaged(s: State, now: Time) {
    forall x, y :: Engaged(s, now, x) && Engaged(s, now, y) && SameLane(s.rows[x], s.rows[y]) ==> x == y
  }

  // What is picked leads its lane, whatever enters later.
  ghost predicate PicksLead(s: State) {
    forall x, y :: x in s.rows && y in s.rows && x != y && OpenPick(s, x) && Leading(s.rows[x], s.rows[y]) ==> Before(s.rows[x], s.rows[y])
  }

  predicate Leading(a: Row, b: Row) { !a.Terminal() && !b.Terminal() && SameLane(a, b) }

  // A read-back has a time, and locks are on picks.
  ghost predicate Shape(s: State) {
    && (forall id :: id in s.rows && s.rows[id].status == AWAITING_READBACK ==> s.rows[id].notBefore.Some?)
    && (forall id :: id in s.locks ==> s.locks[id] in s.picked && id in s.picked[s.locks[id]])
  }

  ghost predicate LaneInv(s: State, now: Time) {
    DistinctStamps(s.rows) && Shape(s) && Inv(s) && PicksLead(s) && OneEngaged(s, now)
  }

  lemma ShapeKept(s: State, a: Action)
    requires Shape(s) && Enabled(s, a)
    ensures Shape(Next(s, a))
  {
  }

  // ---- time ---------------------------------------------------------------------

  lemma LaterOne(s: State, now: Time, later: Time)
    requires OneEngaged(s, now) && now <= later
    ensures OneEngaged(s, later)
  {
    forall x, y | Engaged(s, later, x) && Engaged(s, later, y) && SameLane(s.rows[x], s.rows[y]) ensures x == y {
      assert Engaged(s, now, x) && Engaged(s, now, y);
    }
  }

  // ---- a snapshot -------------------------------------------------------------------

  // What a snapshot picks leads its lane there and then, and nobody else is engaged on it.
  lemma PickedLeads(s: State, q: Query, x: Id, y: Id)
    requires DistinctStamps(s.rows) && Shape(s) && Picked(s.rows, q, x) && y in s.rows && x != y
    requires Leading(s.rows[x], s.rows[y])
    ensures !Occupies(s.rows[y], q.now) && Before(s.rows[x], s.rows[y])
  {
    OnePerLane(s.rows, q, x, y);
    assert Due(s.rows[y], q.now);
    assert SameLane(s.rows[y], s.rows[x]);
    assert Eligible(s.rows, q, y);
    assert LanePeersBefore(s.rows, q, x) == {};
    assert y !in LanePeersBefore(s.rows, q, x);
  }

  lemma SnapshotEngages(s: State, now: Time, r: nat, q: Query, x: Id)
    requires Enabled(s, Snapshot(r, q)) && Engaged(Next(s, Snapshot(r, q)), now, x)
    ensures Engaged(s, now, x) || (x in s.rows && Picked(s.rows, q, x))
  {
    var s' := Next(s, Snapshot(r, q));
    if OpenPick(s', x) {
      var p :| p in s'.picked && x in s'.picked[p];
      if p != r { assert p in s.picked && x in s.picked[p]; }
    }
  }

  lemma SnapshotOne(s: State, now: Time, r: nat, q: Query)
    requires LaneInv(s, now) && Enabled(s, Snapshot(r, q)) && q.now == now
    ensures OneEngaged(Next(s, Snapshot(r, q)), now) && PicksLead(Next(s, Snapshot(r, q)))
  {
    var s' := Next(s, Snapshot(r, q));
    forall x, y | Engaged(s', now, x) && Engaged(s', now, y) && SameLane(s'.rows[x], s'.rows[y]) ensures x == y {
      SnapshotEngages(s, now, r, q, x);
      SnapshotEngages(s, now, r, q, y);
      if Picked(s.rows, q, x) { PickMeets(s, now, q, x, y); }
      else if Picked(s.rows, q, y) { PickMeets(s, now, q, y, x); }
    }
    forall x, y | x in s'.rows && y in s'.rows && x != y && OpenPick(s', x) && Leading(s'.rows[x], s'.rows[y])
      ensures Before(s'.rows[x], s'.rows[y])
    {
      var p :| p in s'.picked && x in s'.picked[p];
      if p == r { PickedLeads(s, q, x, y); } else { assert OpenPick(s, x); }
    }
  }

  lemma PickMeets(s: State, now: Time, q: Query, x: Id, y: Id)
    requires LaneInv(s, now) && q.now == now && x in s.rows && Picked(s.rows, q, x) && y in s.rows && SameLane(s.rows[x], s.rows[y])
    requires Engaged(s, now, y) || Picked(s.rows, q, y)
    ensures x == y
  {
    if x != y {
      assert !s.rows[x].Terminal() && !s.rows[y].Terminal();
      PickedLeads(s, q, x, y);
      if Picked(s.rows, q, y) {
        PickedLeads(s, q, y, x);
      } else {
        assert OpenPick(s, y) && Leading(s.rows[y], s.rows[x]);
      }
      assert false;
    }
  }

  // ---- the other steps ---------------------------------------------------------------

  // Nobody becomes engaged, and lanes and picks stay.
  ghost predicate Fewer(s: State, s': State, now: Time) {
    && (forall x :: Engaged(s', now, x) ==> Engaged(s, now, x) && s'.rows[x].op == s.rows[x].op)
    && (forall x :: x in s'.rows ==> x in s.rows && s'.rows[x].op == s.rows[x].op && (s.rows[x].Terminal() ==> s'.rows[x].Terminal()))
    && (forall x :: OpenPick(s', x) ==> OpenPick(s, x))
  }

  lemma FewerKeeps(s: State, s': State, now: Time)
    requires OneEngaged(s, now) && PicksLead(s) && Fewer(s, s', now)
    ensures OneEngaged(s', now) && PicksLead(s')
  {
    forall x, y | Engaged(s', now, x) && Engaged(s', now, y) && SameLane(s'.rows[x], s'.rows[y]) ensures x == y {
      assert SameLane(s.rows[x], s.rows[y]);
    }
    forall x, y | x in s'.rows && y in s'.rows && x != y && OpenPick(s', x) && Leading(s'.rows[x], s'.rows[y])
      ensures Before(s'.rows[x], s'.rows[y])
    {
      assert OpenPick(s, x) && Leading(s.rows[x], s.rows[y]);
    }
  }

  lemma PicksStay(s: State, a: Action)
    requires Enabled(s, a) && !a.Snapshot?
    ensures forall x :: OpenPick(Next(s, a), x) ==> OpenPick(s, x)
  {
    var s' := Next(s, a);
    forall x | OpenPick(s', x) ensures OpenPick(s, x) {
      var p :| p in s'.picked && x in s'.picked[p];
      assert p in s.picked && s.picked[p] == s'.picked[p];
    }
  }

  // A replica claims only what it had picked.
  lemma CommitFewer(s: State, r: nat, at: Time, now: Time)
    requires Shape(s) && Inv(s) && Enabled(s, Commit(r, at))
    ensures Fewer(s, Next(s, Commit(r, at)), now)
  {
    var s' := Next(s, Commit(r, at));
    PicksStay(s, Commit(r, at));
    forall x | Engaged(s', now, x) ensures Engaged(s, now, x) && s'.rows[x].op == s.rows[x].op {
      if HeldBy(s, r, x) {
        assert OpenPick(s, x) && !s.rows[x].Terminal();
      } else {
        assert s'.rows[x] == s.rows[x];
      }
    }
  }

  // What is let go was running.
  lemma LetGoFewer(s: State, id: Id, how: Release, now: Time)
    requires Enabled(s, LetGo(id, how))
    ensures Fewer(s, Next(s, LetGo(id, how)), now)
  {
    PicksStay(s, LetGo(id, how));
  }

  lemma RestFewer(s: State, a: Action, now: Time)
    requires Enabled(s, a) && (a.Lock? || a.Abort? || a.Finalize? || a.Drop?)
    ensures Fewer(s, Next(s, a), now)
  {
    PicksStay(s, a);
  }

  // A new row is neither picked nor running, and enters behind what is picked.
  lemma InsertKeeps(s: State, now: Time, id: Id, op: Op)
    requires LaneInv(s, now) && Enabled(s, Insert(id, op)) && EntersBehind(s, op) && NotPicked(s, id)
    ensures OneEngaged(Next(s, Insert(id, op)), now) && PicksLead(Next(s, Insert(id, op)))
  {
    var s' := Next(s, Insert(id, op));
    PicksStay(s, Insert(id, op));
    assert !OpenPick(s, id);
    forall x | Engaged(s', now, x) ensures x != id && Engaged(s, now, x) {}
  }

  ghost predicate NotPicked(s: State, id: Id) { forall r :: r in s.picked ==> id !in s.picked[r] }

  // Only rows that exist, or did, are picked.
  ghost predicate PicksAreRows(s: State) { forall r :: r in s.picked ==> s.picked[r] <= s.past.Keys }

  lemma PicksAreRowsKept(s: State, a: Action)
    requires Inv(s) && PicksAreRows(s) && Enabled(s, a)
    ensures PicksAreRows(Next(s, a))
  {
    assert s.past.Keys <= Next(s, a).past.Keys;
  }

  lemma StampsStay(s: State, now: Time, t: Timed)
    requires DistinctStamps(s.rows) && CanAct(s, now, t)
    ensures DistinctStamps(Next(s, t.act).rows)
  {
    var s' := Next(s, t.act);
    forall x | x in s'.rows && x in s.rows ensures s'.rows[x].op == s.rows[x].op || (t.act.Insert? && x == t.act.id) { }
  }

  lemma StepKeepsLanes(s: State, now: Time, t: Timed)
    requires LaneInv(s, now) && PicksAreRows(s) && CanAct(s, now, t) && Behind(s, t)
    ensures LaneInv(Next(s, t.act), t.at) && PicksAreRows(Next(s, t.act))
  {
    LaterOne(s, now, t.at);
    StampsStay(s, now, t);
    ShapeKept(s, t.act);
    NextKeeps(s, t.act);
    PicksAreRowsKept(s, t.act);
    match t.act
    case Snapshot(r, q) => SnapshotOne(s, t.at, r, q);
    case Insert(id, op) => InsertKeeps(s, t.at, id, op);
    case Commit(r, at) =>
      CommitFewer(s, r, at, t.at);
      FewerKeeps(s, Next(s, t.act), t.at);
    case LetGo(id, how) =>
      LetGoFewer(s, id, how, t.at);
      FewerKeeps(s, Next(s, t.act), t.at);
    case _ =>
      RestFewer(s, t.act, t.at);
      FewerKeeps(s, Next(s, t.act), t.at);
  }

  lemma {:induction false} PlayKeepsLanes(s: State, now: Time, run: seq<Timed>)
    requires LaneInv(s, now) && PicksAreRows(s) && Plays(s, now, run, true)
    ensures LaneInv(Ends(s, now, run, true), EndTime(now, run))
    decreases |run|
  {
    if run != [] {
      StepKeepsLanes(s, now, run[0]);
      PlayKeepsLanes(Next(s, run[0].act), run[0].at, run[1..]);
    }
  }

  // Any number of replicas, their claims taken apart: as long as no row enters its lane
  // ahead of one that is picked and not yet claimed, a lane has one occupant at a time.
  lemma SplitClaimsSerialize(now: Time, run: seq<Timed>, x: Id, y: Id)
    requires Plays(EMPTY, now, run, true)
    requires var s := Ends(EMPTY, now, run, true);
      x in s.rows && y in s.rows && SameLane(s.rows[x], s.rows[y])
        && Occupies(s.rows[x], EndTime(now, run)) && Occupies(s.rows[y], EndTime(now, run))
    ensures x == y
  {
    assert LaneInv(EMPTY, now);
    PlayKeepsLanes(EMPTY, now, run);
    var s := Ends(EMPTY, now, run, true);
    assert Engaged(s, EndTime(now, run), x) && Engaged(s, EndTime(now, run), y);
  }

  // ---- and what happens otherwise -----------------------------------------------------

  function OneSlot(op: Op, now: Time): Query {
    Query(1, {}, map[op.instance := Availability(1, 1)], now)
  }

  // A batch row is picked, an interactive row enters its lane and is picked too, and both are claimed.
  function Overtake(a: Op, b: Op, now: Time): seq<Timed> {
    [Timed(now, Insert(0, a)), Timed(now, Snapshot(0, OneSlot(a, now))), Timed(now, Insert(1, b)),
     Timed(now, Snapshot(1, OneSlot(a, now))), Timed(now, Lock(0, 0)), Timed(now, Lock(1, 1)),
     Timed(now, Commit(0, now)), Timed(now, Commit(1, now))]
  }

  lemma FirstPick(a: Op, now: Time)
    ensures 0 in PickedSet(map[0 := NewRow(a)], OneSlot(a, now))
  {
    var t, q := map[0 := NewRow(a)], OneSlot(a, now);
    assert Eligible(t, q, 0);
    assert LanePeersBefore(t, q, 0) == {};
    assert InstancePeersBefore(t, q, 0) == {} && ClassPeersBefore(t, q, 0) == {} && PickedBefore(t, q, 0) == {};
  }

  lemma SecondPick(a: Op, b: Op, now: Time)
    requires a.instance == b.instance && a.laneKey == b.laneKey && a.priority == Batch && b.priority == Interactive
    ensures 1 in PickedSet(map[0 := NewRow(a), 1 := NewRow(b)], OneSlot(a, now))
  {
    var t, q := map[0 := NewRow(a), 1 := NewRow(b)], OneSlot(a, now);
    assert Eligible(t, q, 1) && !Before(t[0], t[1]);
    assert LanePeersBefore(t, q, 1) == {};
    assert InstancePeersBefore(t, q, 1) == {} && ClassPeersBefore(t, q, 1) == {} && PickedBefore(t, q, 1) == {};
  }

  lemma PlaysOn(s: State, now: Time, t: Timed, rest: seq<Timed>)
    requires CanAct(s, now, t) && Plays(Next(s, t.act), t.at, rest, false)
    ensures Plays(s, now, [t] + rest, false) && Ends(s, now, [t] + rest, false) == Ends(Next(s, t.act), t.at, rest, false)
  {
    assert ([t] + rest)[1..] == rest;
  }

  // Split claims alone do not serialize a lane: for every batch and interactive operation of
  // one lane there is such a run, and it ends with both of them running.
  lemma SplitClaimsOverlap(a: Op, b: Op, now: Time)
    requires a.instance == b.instance && a.laneKey == b.laneKey && a.priority == Batch && b.priority == Interactive
    requires a.createdAt != b.createdAt
    ensures Plays(EMPTY, now, Overtake(a, b, now), false)
    ensures var s := Ends(EMPTY, now, Overtake(a, b, now), false);
      0 in s.rows && 1 in s.rows && SameLane(s.rows[0], s.rows[1]) && s.rows[0].status == RUNNING && s.rows[1].status == RUNNING
  {
    var q, ra, rb := OneSlot(a, now), NewRow(a), NewRow(b);
    var p0, p1 := PickedSet(map[0 := ra], q), PickedSet(map[0 := ra, 1 := rb], q);
    FirstPick(a, now);
    SecondPick(a, b, now);
    var s1 := State(map[0 := ra], map[], map[], map[0 := []]);
    var s2 := s1.(picked := map[0 := p0]);
    var s3 := State(map[0 := ra, 1 := rb], map[0 := p0], map[], map[0 := [], 1 := []]);
    var s4 := s3.(picked := map[0 := p0, 1 := p1]);
    assert Next(EMPTY, Insert(0, a)) == s1 && Next(s1, Snapshot(0, q)) == s2;
    assert Next(s2, Insert(1, b)) == s3 && Next(s3, Snapshot(1, q)) == s4;
    OverlapEnds(s4, now, ra, rb);
    var last := [Timed(now, Lock(0, 0)), Timed(now, Lock(1, 1)), Timed(now, Commit(0, now)), Timed(now, Commit(1, now))];
    PlaysOn(s3, now, Timed(now, Snapshot(1, q)), last);
    PlaysOn(s2, now, Timed(now, Insert(1, b)), [Timed(now, Snapshot(1, q))] + last);
    PlaysOn(s1, now, Timed(now, Snapshot(0, q)), [Timed(now, Insert(1, b))] + ([Timed(now, Snapshot(1, q))] + last));
    var rest := [Timed(now, Snapshot(0, q))] + ([Timed(now, Insert(1, b))] + ([Timed(now, Snapshot(1, q))] + last));
    PlaysOn(EMPTY, now, Timed(now, Insert(0, a)), rest);
    assert Overtake(a, b, now) == [Timed(now, Insert(0, a))] + rest;
  }

  // A replica that holds one lock claims one row.
  lemma CommitOne(s: State, r: nat, now: Time, id: Id)
    requires r in s.picked && id in s.rows && forall x :: HeldBy(s, r, x) <==> x == id
    ensures var t := Next(s, Commit(r, now));
      t.rows == s.rows[id := ClaimRow(s.rows[id], now)] && t.locks == s.locks - {id} && t.picked == s.picked - {r}
  {
    var t := Next(s, Commit(r, now));
    forall x | x in s.rows ensures t.rows[x] == if x == id then ClaimRow(s.rows[x], now) else s.rows[x] {
      assert HeldBy(s, r, x) <==> x == id;
    }
    forall x | x in s.locks ensures x in t.locks <==> x != id { assert HeldBy(s, r, x) <==> x == id; }
    assert HeldBy(s, r, id);
  }

  lemma CommitStates(s: State, now: Time, ra: Row, rb: Row)
    requires s.rows == map[0 := ra, 1 := rb] && s.locks == map[0 := 0, 1 := 1] && s.picked.Keys == {0, 1}
    ensures var t := Next(s, Commit(0, now));
      && t.picked.Keys == {1}
      && Next(t, Commit(1, now)).rows == map[0 := ClaimRow(ra, now), 1 := ClaimRow(rb, now)]
  {
    var t := Next(s, Commit(0, now));
    CommitOne(s, 0, now, 0);
    CommitOne(t, 1, now, 1);
  }

  lemma BothCommit(s: State, now: Time, ra: Row, rb: Row)
    requires s.rows == map[0 := ra, 1 := rb] && s.locks == map[0 := 0, 1 := 1] && s.picked.Keys == {0, 1}
    ensures var last := [Timed(now, Commit(0, now)), Timed(now, Commit(1, now))];
      Plays(s, now, last, false)
      && Ends(s, now, last, false).rows == map[0 := ClaimRow(ra, now), 1 := ClaimRow(rb, now)]
  {
    CommitStates(s, now, ra, rb);
    var t := Next(s, Commit(0, now));
    var u := Next(t, Commit(1, now));
    var none: seq<Timed> := [];
    assert Plays(u, now, none, false) && Ends(u, now, none, false) == u;
    PlaysOn(t, now, Timed(now, Commit(1, now)), none);
    PlaysOn(s, now, Timed(now, Commit(0, now)), [Timed(now, Commit(1, now))] + none);
    assert [Timed(now, Commit(0, now)), Timed(now, Commit(1, now))] == [Timed(now, Commit(0, now))] + ([Timed(now, Commit(1, now))] + none);
  }

  lemma OverlapEnds(s: State, now: Time, ra: Row, rb: Row)
    requires s.rows == map[0 := ra, 1 := rb] && s.locks == map[] && ra.status == PENDING && rb.status == PENDING
    requires s.picked.Keys == {0, 1} && 0 in s.picked[0] && 1 in s.picked[1]
    ensures var last := [Timed(now, Lock(0, 0)), Timed(now, Lock(1, 1)), Timed(now, Commit(0, now)), Timed(now, Commit(1, now))];
      Plays(s, now, last, false)
      && Ends(s, now, last, false).rows == map[0 := ClaimRow(ra, now), 1 := ClaimRow(rb, now)]
  {
    var s1 := Next(s, Lock(0, 0));
    var s2 := Next(s1, Lock(1, 1));
    var commits := [Timed(now, Commit(0, now)), Timed(now, Commit(1, now))];
    BothCommit(s2, now, ra, rb);
    PlaysOn(s1, now, Timed(now, Lock(1, 1)), commits);
    PlaysOn(s, now, Timed(now, Lock(0, 0)), [Timed(now, Lock(1, 1))] + commits);
    assert [Timed(now, Lock(0, 0)), Timed(now, Lock(1, 1)), Timed(now, Commit(0, now)), Timed(now, Commit(1, now))]
      == [Timed(now, Lock(0, 0))] + ([Timed(now, Lock(1, 1))] + commits);
  }
}
