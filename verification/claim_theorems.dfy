// What a claim cycle guarantees, whatever the table: its lanes, its exact size,
// the reserved slice, and that it never comes back empty-handed needlessly.
module ClaimTheorems {
  import opened Rows
  import opened ClaimSpec
  import opened GreedyCounts
  import opened ClaimRanks

  lemma {:induction false} Least(t: Table, s: set<Id>) returns (m: Id)
    requires DistinctStamps(t) && s != {} && s <= t.Keys
    ensures m in s && forall x :: x in s && x != m ==> Before(t[m], t[x])
    decreases |s|
  {
    m :| m in s;
    if s != {m} {
      var n := Least(t, s - {m});
      if Before(t[n], t[m]) { m := n; }
    }
  }

  lemma {:induction false} Latest(t: Table, s: set<Id>) returns (m: Id)
    requires DistinctStamps(t) && s != {} && s <= t.Keys
    ensures m in s && forall x :: x in s && x != m ==> Before(t[x], t[m])
    decreases |s|
  {
    m :| m in s;
    if s != {m} {
      var n := Latest(t, s - {m});
      if Before(t[m], t[n]) { m := n; }
    }
  }

  lemma {:induction false} Sort(t: Table, s: set<Id>) returns (cs: seq<Id>)
    requires DistinctStamps(t) && s <= t.Keys
    ensures Ordered(t, cs) && forall x :: x in cs <==> x in s
    decreases |s|
  {
    if s == {} {
      cs := [];
    } else {
      var m := Least(t, s);
      cs := Sort(t, s - {m});
      forall j | 0 <= j < |cs| ensures Before(t[m], t[cs[j]]) { assert cs[j] in cs; }
      cs := [m] + cs;
    }
  }

  lemma Enumerate(t: Table, q: Query) returns (cs: seq<Id>)
    requires DistinctStamps(t)
    ensures Enumerates(t, q, cs)
  {
    cs := Sort(t, set x | x in t && Eligible(t, q, x));
  }

  ghost function PickedOf(t: Table, q: Query, i: string, p: Priority): set<Id> {
    set x | x in t && Picked(t, q, x) && t[x].op.instance == i && t[x].op.priority == p
  }

  // ---- what may be claimed -----------------------------------------------

  // A row that runs, or waits for a read-back that is not due.
  predicate HoldsLane(r: Row, now: Time) {
    r.status == RUNNING || (r.status == AWAITING_READBACK && r.notBefore.Some? && now < r.notBefore.value)
  }

  // A row may be claimed when it is pending or its read-back is due, its instance has a
  // free slot, its lane key is not active, and no row of its instance and lane key holds it.
  lemma ClaimableIff(t: Table, q: Query, id: Id)
    ensures Eligible(t, q, id) <==>
      && id in t
      && var r := t[id];
      && (r.status == PENDING || (r.status == AWAITING_READBACK && r.notBefore.Some? && r.notBefore.value <= q.now))
      && r.op.instance in q.available && q.available[r.op.instance].totalFree >= 1
      && r.op.laneKey !in q.active
      && forall x :: x in t && HoldsLane(t[x], q.now) ==> t[x].op.instance != r.op.instance || t[x].op.laneKey != r.op.laneKey
  {
    if id in t && !LaneBlocked(t, t[id], q.now) {
      forall x | x in t && HoldsLane(t[x], q.now)
        ensures t[x].op.instance != t[id].op.instance || t[x].op.laneKey != t[id].op.laneKey
      {
        assert Occupies(t[x], q.now);
      }
    }
  }

  // Interactive work before batch work, and the older before the newer.
  predicate Older(a: Op, b: Op) {
    if a.priority == b.priority then a.createdAt < b.createdAt else a.priority == Interactive
  }

  // A lane is led by the first of its claimable rows.
  lemma LeaderIff(t: Table, q: Query, id: Id)
    requires DistinctStamps(t)
    ensures Leader(t, q, id) <==>
      && Eligible(t, q, id)
      && forall x :: Eligible(t, q, x) && x != id && SameLane(t[x], t[id]) ==> Older(t[id].op, t[x].op)
  {
    if Leader(t, q, id) {
      forall x | Eligible(t, q, x) && x != id && SameLane(t[x], t[id]) ensures Older(t[id].op, t[x].op) {
        assert x !in LanePeersBefore(t, q, id);
      }
    }
    if Eligible(t, q, id) && forall x :: Eligible(t, q, x) && x != id && SameLane(t[x], t[id]) ==> Older(t[id].op, t[x].op) {
      assert LanePeersBefore(t, q, id) == {};
    }
  }

  // ---- lanes -------------------------------------------------------------

  // A cycle takes at most one row of a lane, and none from an occupied lane.
  lemma OnePerLane(t: Table, q: Query, a: Id, b: Id)
    requires DistinctStamps(t) && Picked(t, q, a)
    ensures b in t && SameLane(t[b], t[a]) ==> !Occupies(t[b], q.now)
    ensures Picked(t, q, b) && SameLane(t[b], t[a]) ==> a == b
  {
    assert LanePeersBefore(t, q, a) == {};
    assert b !in LanePeersBefore(t, q, a);
    if Picked(t, q, b) {
      assert LanePeersBefore(t, q, b) == {};
      assert a !in LanePeersBefore(t, q, b);
    }
  }

  // A due read-back is not passed by a later row of its lane, unless that row is
  // interactive and the read-back is batch work.
  lemma ResumeGoesFirst(t: Table, q: Query, a: Id, b: Id)
    requires Eligible(t, q, a) && Picked(t, q, b) && SameLane(t[a], t[b]) && t[a].op.createdAt < t[b].op.createdAt
    ensures t[a].op.priority.Batch? && t[b].op.priority.Interactive?
  {
    assert LanePeersBefore(t, q, b) == {};
    assert a !in LanePeersBefore(t, q, b);
  }

  // The claimable rows of the lane.
  ghost function OnLane(t: Table, q: Query, a: Row): set<Id> {
    set x | x in t && Eligible(t, q, x) && SameLane(t[x], a)
  }

  ghost predicate LedByLater(t: Table, q: Query, a: Id)
    requires a in t
  {
    exists b :: Leader(t, q, b) && SameLane(t[b], t[a]) && t[a].op.createdAt < t[b].op.createdAt
  }

  ghost predicate LaterInteractiveOnly(t: Table, q: Query, a: Id)
    requires a in t
  {
    && (exists x :: x in OnLane(t, q, t[a]) && t[x].op.priority.Interactive?)
    && (forall x :: x in OnLane(t, q, t[a]) && t[x].op.priority.Interactive? ==> t[a].op.createdAt < t[x].op.createdAt)
  }

  // When exactly a due read-back's lane is led by a row enqueued after it: the
  // read-back is batch work, interactive rows wait on the lane, and all are later.
  lemma ResumeIsOvertakenIff(t: Table, q: Query, a: Id)
    requires DistinctStamps(t) && Eligible(t, q, a) && t[a].status == AWAITING_READBACK
    ensures LedByLater(t, q, a) <==> t[a].op.priority.Batch? && LaterInteractiveOnly(t, q, a)
  {
    var s := OnLane(t, q, t[a]);
    assert a in s;
    var e := Least(t, s);
    assert LanePeersBefore(t, q, e) == {};
    if LedByLater(t, q, a) {
      var b :| Leader(t, q, b) && SameLane(t[b], t[a]) && t[a].op.createdAt < t[b].op.createdAt;
      assert LanePeersBefore(t, q, b) == {};
      assert b in s && a !in LanePeersBefore(t, q, b);
      forall x | x in s && t[x].op.priority.Interactive? ensures t[a].op.createdAt < t[x].op.createdAt {
        assert x !in LanePeersBefore(t, q, b);
      }
    }
    if t[a].op.priority.Batch? && LaterInteractiveOnly(t, q, a) {
      assert Leader(t, q, e) && t[e].op.priority.Interactive?;
    }
  }

  // As two rows show: a due read-back of batch work, and an interactive row queued later on its lane.
  lemma ReadBackIsOvertaken(a: Row, b: Row, q: Query)
    requires a.status == AWAITING_READBACK && Due(a, q.now) && a.op.priority.Batch?
    requires b.status == PENDING && b.op.priority.Interactive? && SameLane(a, b) && a.op.createdAt < b.op.createdAt
    requires a.op.instance in Caps(q.available) && a.op.laneKey !in q.active
    ensures LedByLater(map[0 := a, 1 := b], q, 0)
  {
    var t := map[0 := a, 1 := b];
    assert Eligible(t, q, 0) && Eligible(t, q, 1);
    assert 1 in OnLane(t, q, t[0]);
    ResumeIsOvertakenIff(t, q, 0);
  }

  // ---- how many rows -----------------------------------------------------

  lemma TakenSizes(t: Table, q: Query, i: string)
    requires DistinctStamps(t) && i in Caps(q.available)
    ensures var cap, n := Caps(q.available)[i], |Leaders(t, q, i, Interactive)|;
      && |Taken(t, q, i, Interactive)| == AdmittedInteractive(cap, n)
      && |Taken(t, q, i, Batch)| == AdmittedBatch(cap, n, |Leaders(t, q, i, Batch)|)
  {
    var cs := Enumerate(t, q);
    var n := |cs|;
    WholeCounts(t, q, cs, i, Interactive);
    WholeCounts(t, q, cs, i, Batch);
    GotIsAdmitted(Candidates(t, q, cs), Caps(q.available), n, i);
  }

  lemma WholeCounts(t: Table, q: Query, cs: seq<Id>, i: string, p: Priority)
    requires Enumerates(t, q, cs)
    ensures |Leaders(t, q, i, p)| == Led(Candidates(t, q, cs), |cs|, i, p)
    ensures |Taken(t, q, i, p)| == Got(Candidates(t, q, cs), Caps(q.available), |cs|, i, p)
  {
    assert cs[..|cs|] == cs;
    LedCounts(t, q, cs, |cs|, i, p);
    GotCounts(t, q, cs, |cs|, i, p);
    assert Among(cs, |cs|, Leaders(t, q, i, p)) == Leaders(t, q, i, p);
    assert Among(cs, |cs|, Taken(t, q, i, p)) == Taken(t, q, i, p);
  }

  // When the limit does not bind, an instance with I interactive and B batch
  // leaders yields min(cap, I) and min(batchCap, B, cap - min(cap, I)) rows.
  lemma ExactClaim(t: Table, q: Query, i: string)
    requires DistinctStamps(t) && i in Caps(q.available) && |AllTaken(t, q)| <= q.limit
    ensures var cap, I, B := Caps(q.available)[i], |Leaders(t, q, i, Interactive)|, |Leaders(t, q, i, Batch)|;
      && |PickedOf(t, q, i, Interactive)| == Min(cap.total, I)
      && |PickedOf(t, q, i, Batch)| == Min(Min(cap.batch, B), cap.total - Min(cap.total, I))
  {
    AllArePicked(t, q);
    assert PickedOf(t, q, i, Interactive) == Taken(t, q, i, Interactive);
    assert PickedOf(t, q, i, Batch) == Taken(t, q, i, Batch);
    TakenSizes(t, q, i);
  }

  lemma AllArePicked(t: Table, q: Query)
    requires |AllTaken(t, q)| <= q.limit
    ensures forall x :: x in t && WithinCaps(t, q, x) ==> Picked(t, q, x)
  {
    forall x | x in t && WithinCaps(t, q, x) ensures Picked(t, q, x) {
      assert PickedBefore(t, q, x) <= AllTaken(t, q) - {x};
      Subset(PickedBefore(t, q, x), AllTaken(t, q) - {x});
    }
  }

  lemma {:induction false} Subset(a: set<Id>, b: set<Id>)
    requires a <= b
    ensures |a| <= |b|
  {
    if a != {} {
      var x :| x in a;
      Subset(a - {x}, b - {x});
    }
  }

  // The limit, each instance's budget and each instance's batch cap are never exceeded.
  lemma ClaimIsBounded(t: Table, q: Query, i: string)
    requires DistinctStamps(t)
    ensures |PickedSet(t, q)| <= Max(0, q.limit)
    ensures i in Caps(q.available) ==>
      && |PickedOf(t, q, i, Interactive)| + |PickedOf(t, q, i, Batch)| <= Caps(q.available)[i].total
      && |PickedOf(t, q, i, Batch)| <= Caps(q.available)[i].batch
    ensures i !in Caps(q.available) ==> PickedOf(t, q, i, Interactive) == PickedOf(t, q, i, Batch) == {}
  {
    LimitHolds(t, q);
    if i in Caps(q.available) { CapsHold(t, q, i); }
  }

  lemma LimitHolds(t: Table, q: Query)
    requires DistinctStamps(t)
    ensures |PickedSet(t, q)| <= Max(0, q.limit)
  {
    if PickedSet(t, q) != {} {
      var last := Latest(t, PickedSet(t, q));
      Subset(PickedSet(t, q) - {last}, PickedBefore(t, q, last));
    }
  }

  lemma CapsHold(t: Table, q: Query, i: string)
    requires DistinctStamps(t) && i in Caps(q.available)
    ensures |PickedOf(t, q, i, Interactive)| + |PickedOf(t, q, i, Batch)| <= Caps(q.available)[i].total
    ensures |PickedOf(t, q, i, Batch)| <= Caps(q.available)[i].batch
  {
    TakenSizes(t, q, i);
    PickedIsTaken(t, q, i, Interactive);
    PickedIsTaken(t, q, i, Batch);
  }

  lemma PickedIsTaken(t: Table, q: Query, i: string, p: Priority)
    ensures |PickedOf(t, q, i, p)| <= |Taken(t, q, i, p)|
  {
    Subset(PickedOf(t, q, i, p), Taken(t, q, i, p));
  }

  // A claimed batch row means no interactive leader of its instance was left out.
  lemma BatchComesLast(t: Table, q: Query, b: Id, x: Id)
    requires Picked(t, q, b) && t[b].op.priority.Batch?
    requires Leader(t, q, x) && t[x].op.priority.Interactive? && t[x].op.instance == t[b].op.instance
    ensures Picked(t, q, x)
  {
    assert Before(t[x], t[b]);
    Subset(InstancePeersBefore(t, q, x), InstancePeersBefore(t, q, b));
    Subset(PickedBefore(t, q, x), PickedBefore(t, q, b));
  }

  // ---- the reserved slice ------------------------------------------------

  ghost function Earlier(t: Table, s: set<Id>, x: Id): set<Id>
    requires s <= t.Keys && x in t
  {
    set y | y in s && Before(t[y], t[x])
  }

  ghost function FirstFew(t: Table, s: set<Id>, m: nat): set<Id>
    requires s <= t.Keys
  {
    set x | x in s && |Earlier(t, s, x)| < m
  }

  lemma {:induction false} FirstFewSize(t: Table, s: set<Id>, m: nat)
    requires DistinctStamps(t) && s <= t.Keys
    ensures |FirstFew(t, s, m)| == Min(m, |s|)
    decreases |s|
  {
    if s == {} {
      assert FirstFew(t, s, m) == {};
    } else {
      var g := Latest(t, s);
      FirstFewSize(t, s - {g}, m);
      FirstFewStep(t, s, m, g);
    }
  }

  lemma FirstFewStep(t: Table, s: set<Id>, m: nat, g: Id)
    requires s <= t.Keys && g in s && forall x :: x in s && x != g ==> Before(t[x], t[g])
    ensures FirstFew(t, s, m) == FirstFew(t, s - {g}, m) + if |s| - 1 < m then {g} else {}
  {
    forall x | x in s - {g} ensures Earlier(t, s, x) == Earlier(t, s - {g}, x) { }
    assert Earlier(t, s, g) == s - {g};
  }

  // Interactive rows other instances contribute to the cycle.
  ghost function InteractiveElsewhere(t: Table, q: Query, i: string): set<Id> {
    set x | x in t && WithinCaps(t, q, x) && t[x].op.priority.Interactive? && t[x].op.instance != i
  }

  // m slots of the budget, left over by other instances' interactive rows under
  // the limit, go to the first m interactive leaders whatever batch is queued.
  lemma InteractiveGetsItsSlots(t: Table, q: Query, i: string, m: nat)
    requires DistinctStamps(t) && i in Caps(q.available) && m <= Caps(q.available)[i].total
    requires |InteractiveElsewhere(t, q, i)| + m <= q.limit
    ensures |PickedOf(t, q, i, Interactive)| >= Min(m, |Leaders(t, q, i, Interactive)|)
  {
    var s := Leaders(t, q, i, Interactive);
    forall x | x in FirstFew(t, s, m) ensures x in PickedOf(t, q, i, Interactive) {
      assert InstancePeersBefore(t, q, x) == Earlier(t, s, x);
      var others := InteractiveElsewhere(t, q, i);
      Subset(PickedBefore(t, q, x), others + Earlier(t, s, x));
      assert |others + Earlier(t, s, x)| <= |others| + |Earlier(t, s, x)|;
    }
    FirstFewSize(t, s, m);
    Subset(FirstFew(t, s, m), PickedOf(t, q, i, Interactive));
  }

  // ---- progress ----------------------------------------------------------

  // With a limit of at least one and a batch slot wherever a batch row waits,
  // a cycle that could take something takes something.
  lemma NeverIdle(t: Table, q: Query)
    requires DistinctStamps(t) && q.limit >= 1
    requires exists x :: Eligible(t, q, x)
    requires forall x :: Eligible(t, q, x) && t[x].op.priority.Batch? ==> Caps(q.available)[t[x].op.instance].batch >= 1
    ensures exists x :: Picked(t, q, x)
  {
    var all := set x | x in t && Eligible(t, q, x);
    var some :| Eligible(t, q, some);
    assert some in all;
    var e := Least(t, all);
    assert LanePeersBefore(t, q, e) == {};
    assert InstancePeersBefore(t, q, e) == {} && ClassPeersBefore(t, q, e) == {} && PickedBefore(t, q, e) == {};
    assert Picked(t, q, e);
  }
}
