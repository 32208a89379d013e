// With no new work and no crashes the backlog drains: every claim, reap and
// write-back uses up potential, and on a quiet table a reap or a claim always does.
module Drain {
  import opened Rows
  import opened ClaimSpec
  import opened ClaimTheorems
  import opened Resolution
  import opened Protocol
  import opened CellLaws
  import opened StrictLaws
  import opened Runs
  import opened Lanes

  // ---- sums over finite maps ---------------------------------------------

  ghost function Sum(f: map<Id, nat>): nat {
    if f == map[] then 0 else var k :| k in f; f[k] + Sum(f - {k})
  }

  lemma {:induction false} SumPick(f: map<Id, nat>, k: Id)
    requires k in f
    ensures Sum(f) == f[k] + Sum(f - {k})
  {
    var j :| j in f && Sum(f) == f[j] + Sum(f - {j});
    if j != k {
      SumPick(f - {j}, k);
      SumPick(f - {k}, j);
      assert f - {j} - {k} == f - {k} - {j};
    }
  }

  lemma {:induction false} SumMonotone(f: map<Id, nat>, g: map<Id, nat>)
    requires f.Keys == g.Keys && forall k :: k in f ==> f[k] <= g[k]
    ensures Sum(f) <= Sum(g)
    ensures (exists k :: k in f && f[k] < g[k]) ==> Sum(f) < Sum(g)
  {
    if f != map[] {
      var k :| k in f;
      if j :| j in f && f[j] < g[j] { k := j; }
      SumPick(f, k);
      SumPick(g, k);
      SumMonotone(f - {k}, g - {k});
    }
  }

  // ---- the potential of one operation ------------------------------------

  function RequeuesLeft(env: Env, c: Cell): int { Max(1, env.cfg.maxAttempts - 1) - c.requeues }

  // Each status is worth more than any it can turn into.
  ghost function Potential(env: Env, c: Cell): (p: int)
    ensures Counted(env, c) ==> p >= 0 && (p == 0 <==> Over(c))
  {
    if Over(c) then 0 else 5 * RequeuesLeft(env, c) + Rank(c)
  }

  ghost function Rank(c: Cell): nat
    requires c.row.Some?
  {
    match c.row.value.status
    case PENDING => 4
    case AWAITING_READBACK => 2
    case _ => if c.live == map[] then 5 else if c.claims != [] && Searches(LastClaim(c).prior) then 1 else 3
  }

  predicate Consumes(a: Act) { a.Take? || a.Recover? || a.Write? }

  lemma PotentialDrops(env: Env, now: Time, c: Cell, a: Act)
    requires CellInv(env, true, now, c) && StrictlyEnabled(env, now, c, a) && !a.Lose?
    ensures var p, p' := Potential(env, c), Potential(env, Perform(env, now, c, a));
      p' <= p && (Consumes(a) ==> p' < p)
  {
    match a
    case Write(n) =>
      assert Shaped(env, c.op, LastClaim(c), c.live[n].r);
      WriteDrops(env, now, c, n);
    case Take => assert |c.claims| in Perform(env, now, c, a).live;
    case _ => OthersKeepPotential(env, now, c, a);
  }

  lemma WriteDrops(env: Env, now: Time, c: Cell, n: nat)
    requires RowOk(c) && Counted(env, c) && n in c.live && c.live[n].Decided? && HasStatus(c, RUNNING)
    requires c.claims != [] && Shaped(env, c.op, LastClaim(c), c.live[n].r)
    requires ClaimOk(c, LastClaim(c)) && LastClaim(c).attemptCount == c.requeues
    ensures Potential(env, Perform(env, now, c, Write(n))) < Potential(env, c)
  {
    CountedAfterWrite(env, now, c, n);
  }

  lemma OthersKeepPotential(env: Env, now: Time, c: Cell, a: Act)
    requires RowOk(c) && Counted(env, c) && StrictlyEnabled(env, now, c, a) && !a.Lose? && !a.Write? && !a.Take?
    ensures Potential(env, Perform(env, now, c, a)) <= Potential(env, c)
    ensures a.Recover? ==> Potential(env, Perform(env, now, c, a)) < Potential(env, c)
  {
    match a
    case Skip(n, r) => assert n in Perform(env, now, c, a).live;
    case Send(n) => assert n in Perform(env, now, c, a).live;
    case Reply(n, ans) => assert n in Perform(env, now, c, a).live;
    case _ =>
  }

  // ---- the potential of the table ----------------------------------------

  ghost function Potentials(env: Env, w: World): map<Id, nat>
    requires Inv(env, true, w)
  {
    map id | id in w.cells :: assert CellInv(env, true, w.now, w.cells[id]); Potential(env, w.cells[id])
  }

  ghost function TablePotential(env: Env, w: World): nat
    requires Inv(env, true, w)
  {
    Sum(Potentials(env, w))
  }

  // No new work, and no attempt dies.
  predicate DrainAction(a: Action) {
    !a.Enqueue? && (a.Local? ==> !a.act.Lose?)
  }

  // An action that claims, reaps or writes back something.
  ghost predicate Works(env: Env, w: World, a: Action) {
    exists id :: id in w.cells && UsesUp(env, w, a, id)
  }

  ghost predicate UsesUp(env: Env, w: World, a: Action, id: Id)
    requires id in w.cells
  {
    var o := ActOf(env, w, a, id);
    o.Some? && Consumes(o.value) && Enabled(env, w.now, w.cells[id], o.value)
  }

  lemma CellDrains(env: Env, w: World, a: Action, id: Id)
    requires Inv(env, true, w) && Can(env, true, w, a) && DrainAction(a) && id in w.cells
    ensures id in Next(env, w, a).cells
    ensures Potential(env, Next(env, w, a).cells[id]) <= Potential(env, w.cells[id])
    ensures UsesUp(env, w, a, id) ==> Potential(env, Next(env, w, a).cells[id]) < Potential(env, w.cells[id])
  {
    var o := ActOf(env, w, a, id);
    if o.Some? && Enabled(env, w.now, w.cells[id], o.value) {
      assert !a.Tick?;
      PotentialDrops(env, w.now, w.cells[id], o.value);
    }
  }

  lemma DrainKeys(env: Env, w: World, a: Action)
    requires DrainAction(a)
    ensures Next(env, w, a).cells.Keys == w.cells.Keys
  {
  }

  lemma PotentialsAt(env: Env, w: World, id: Id)
    requires Inv(env, true, w) && id in w.cells
    ensures id in Potentials(env, w) && Potentials(env, w)[id] == Potential(env, w.cells[id])
  {
  }

  lemma StepDrains(env: Env, w: World, a: Action)
    requires Inv(env, true, w) && Can(env, true, w, a) && DrainAction(a)
    ensures Inv(env, true, Next(env, w, a))
    ensures TablePotential(env, Next(env, w, a)) <= TablePotential(env, w)
    ensures Works(env, w, a) ==> TablePotential(env, Next(env, w, a)) < TablePotential(env, w)
  {
    NextKeeps(env, true, w, a);
    PotentialsDrop(env, w, a);
    SumMonotone(Potentials(env, Next(env, w, a)), Potentials(env, w));
  }

  lemma PotentialsDrop(env: Env, w: World, a: Action)
    requires Inv(env, true, w) && Can(env, true, w, a) && DrainAction(a) && Inv(env, true, Next(env, w, a))
    ensures var f, g := Potentials(env, Next(env, w, a)), Potentials(env, w);
      && f.Keys == g.Keys && (forall id :: id in f ==> f[id] <= g[id])
      && (Works(env, w, a) ==> exists id :: id in f && f[id] < g[id])
  {
    DrainKeys(env, w, a);
    forall id | id in w.cells
      ensures Potentials(env, Next(env, w, a))[id] <= Potentials(env, w)[id]
      ensures UsesUp(env, w, a, id) ==> Potentials(env, Next(env, w, a))[id] < Potentials(env, w)[id]
    {
      CellDrains(env, w, a, id);
      PotentialsAt(env, w, id);
      PotentialsAt(env, Next(env, w, a), id);
    }
  }

  // ---- any interleaving does finitely much work ---------------------------

  ghost predicate DrainRun(env: Env, w: World, acts: seq<Action>) {
    Possible(env, true, w, acts) && forall a :: a in acts ==> DrainAction(a)
  }

  ghost function WorkIn(env: Env, w: World, acts: seq<Action>): nat
    decreases |acts|
  {
    if acts == [] then 0
    else (if Works(env, w, acts[0]) then 1 else 0) + WorkIn(env, Next(env, w, acts[0]), acts[1..])
  }

  lemma {:induction false} WorkIsBounded(env: Env, w: World, acts: seq<Action>)
    requires Inv(env, true, w) && DrainRun(env, w, acts)
    ensures Inv(env, true, After(env, w, acts))
    ensures WorkIn(env, w, acts) + TablePotential(env, After(env, w, acts)) <= TablePotential(env, w)
    decreases |acts|
  {
    if acts != [] {
      StepDrains(env, w, acts[0]);
      WorkIsBounded(env, Next(env, w, acts[0]), acts[1..]);
    }
  }

  // ---- a full cycle on a quiet table works --------------------------------

  // No attempt is running and every wait, read-back or reap, is over.
  ghost predicate Idle(env: Env, now: Time, c: Cell) {
    && c.live == map[]
    && (Over(c) || Due(c.row.value, now) || Stale(c.row.value, now, env.reapThreshold))
  }

  ghost predicate Quiet(env: Env, w: World) {
    forall id :: id in w.cells ==> Idle(env, w.now, w.cells[id])
  }

  // The claim offers every waiting row's instance a slot, and a batch slot if it is batch work.
  ghost predicate Offers(w: World, q: Query) {
    && q.now == w.now && q.limit >= 1 && q.active == {}
    && forall id :: id in w.cells && !Over(w.cells[id]) ==>
         && w.cells[id].op.instance in Caps(q.available)
         && (w.cells[id].op.priority.Batch? ==> Caps(q.available)[w.cells[id].op.instance].batch >= 1)
  }

  ghost predicate Drained(w: World) { forall id :: id in w.cells ==> Over(w.cells[id]) }

  // With nothing to reap, a quiet table that is not drained has a row to claim.
  lemma QuietClaims(env: Env, w: World, q: Query)
    requires Inv(env, true, w) && StampsDiffer(w) && Quiet(env, w) && Offers(w, q) && !Drained(w)
    requires !Works(env, w, Reap)
    ensures Works(env, w, ClaimCycle(q))
  {
    var x :| x in w.cells && !Over(w.cells[x]);
    InvIsRowsOk(env, true, w);
    QuietEligible(env, w, q, x);
    var p := SomePicked(env, w, q, x);
    PickedUsesUp(env, w, q, p);
  }

  lemma SomePicked(env: Env, w: World, q: Query, x: Id) returns (p: Id)
    requires Inv(env, true, w) && StampsDiffer(w) && Offers(w, q) && Eligible(Hot(w), q, x)
    ensures Picked(Hot(w), q, p)
  {
    HotStampsDiffer(env, true, w);
    var t := Hot(w);
    forall id | Eligible(t, q, id) ensures t[id].op.priority.Batch? ==> Caps(q.available)[t[id].op.instance].batch >= 1 {
      OfferedSlot(env, w, q, id);
    }
    NeverIdle(t, q);
    p :| Picked(t, q, p);
  }

  lemma PickedUsesUp(env: Env, w: World, q: Query, p: Id)
    requires q.now == w.now && Picked(Hot(w), q, p)
    ensures p in w.cells && UsesUp(env, w, ClaimCycle(q), p)
  {
  }

  lemma OfferedSlot(env: Env, w: World, q: Query, id: Id)
    requires Inv(env, true, w) && Offers(w, q) && id in Hot(w) && Due(Hot(w)[id], q.now)
    ensures Hot(w)[id].op.instance in Caps(q.available)
    ensures Hot(w)[id].op.priority.Batch? ==> Caps(q.available)[Hot(w)[id].op.instance].batch >= 1
  {
    assert RowOk(w.cells[id]);
  }

  lemma NotOccupying(env: Env, w: World, x: Id)
    requires x in w.cells && w.cells[x].row.Some? && RowOk(w.cells[x]) && Idle(env, w.now, w.cells[x]) && !UsesUp(env, w, Reap, x)
    ensures var r := w.cells[x].row.value; r.op == w.cells[x].op && !Occupies(r, w.now) && (r.Terminal() || Due(r, w.now))
  {
  }

  lemma QuietEligible(env: Env, w: World, q: Query, id: Id)
    requires RowsOk(w) && Quiet(env, w) && Offers(w, q) && !Works(env, w, Reap) && id in Hot(w)
    ensures Hot(w)[id].Terminal() || Eligible(Hot(w), q, id)
  {
    forall x | x in Hot(w)
      ensures Hot(w)[x].op == w.cells[x].op && !Occupies(Hot(w)[x], w.now) && (Hot(w)[x].Terminal() || Due(Hot(w)[x], w.now))
    {
      assert !UsesUp(env, w, Reap, x);
      NotOccupying(env, w, x);
    }
  }

  ghost function PhaseRank(p: Phase): nat {
    match p case Claimed => 3 case Calling => 2 case Decided(_) => 1
  }

  ghost predicate MovesOn(env: Env, now: Time, c: Cell, n: nat, a: Act)
    requires n in c.live
  {
    && Enabled(env, now, c, a) && !a.Lose?
    && var after := Perform(env, now, c, a).live;
       n in after ==> PhaseRank(after[n]) < PhaseRank(c.live[n])
  }

  // No attempt is ever stuck: something other than dying moves it on, until it is written back.
  lemma AttemptMovesOn(env: Env, now: Time, c: Cell, n: nat)
    requires Basic(env, c) && n in c.live
    ensures exists a :: MovesOn(env, now, c, n, a)
  {
    var a := match c.live[n]
      case Claimed => if CanSend(c, c.claims[n].prior) then Send(n) else Skip(n, DispatchError())
      case Calling => Reply(n, Threw(Fault(false, "", false, true)))
      case Decided(_) => Write(n);
    assert MovesOn(env, now, c, n, a);
  }

  // ---- pieces for whole rounds -------------------------------------------

  lemma ReapingNothing(env: Env, w: World)
    requires !Works(env, w, Reap)
    ensures Next(env, w, Reap) == w
  {
    forall id | id in w.cells ensures Next(env, w, Reap).cells[id] == w.cells[id] { assert !UsesUp(env, w, Reap, id); }
  }

  lemma {:induction false} StampsKeptRun(env: Env, strict: bool, w: World, acts: seq<Action>)
    requires Possible(env, strict, w, acts) && StampsDiffer(w)
    ensures StampsDiffer(After(env, w, acts))
    decreases |acts|
  {
    if acts != [] {
      StampsKept(env, strict, w, acts[0]);
      StampsKeptRun(env, strict, Next(env, w, acts[0]), acts[1..]);
    }
  }

  lemma DrainedHasNoPotential(env: Env, w: World, id: Id)
    requires Inv(env, true, w) && id in w.cells && !Over(w.cells[id])
    ensures TablePotential(env, w) > 0
  {
    PotentialsAt(env, w, id);
    assert CellInv(env, true, w.now, w.cells[id]);
    SumPick(Potentials(env, w), id);
  }

  lemma {:induction false} StaysDrained(env: Env, w: World, acts: seq<Action>)
    requires Inv(env, true, w) && DrainRun(env, w, acts) && Drained(w)
    ensures Drained(After(env, w, acts))
    decreases |acts|
  {
    if acts != [] {
      var w' := Next(env, w, acts[0]);
      NextKeeps(env, true, w, acts[0]);
      forall id | id in w'.cells ensures Over(w'.cells[id]) {
        DrainKeys(env, w, acts[0]);
        CellDrains(env, w, acts[0], id);
        assert CellInv(env, true, w.now, w.cells[id]) && CellInv(env, true, w'.now, w'.cells[id]);
      }
      StaysDrained(env, w', acts[1..]);
    }
  }
}
