// The laws of one operation, over whole runs of the claim loop: any number of
// dispatchers, interleaved with crashes, reaps, partition drops and the clock.
module Runs {
  import opened Rows
  import opened ClaimSpec
  import opened Protocol
  import opened CellLaws
  import opened Evidence
  import opened StrictLaws

  ghost predicate CellInv(env: Env, strict: bool, now: Time, c: Cell) {
    && Basic(env, c) && Recorded(c) && OneTry(env, c) && RejectsUncalled(c)
    && Grounded(env, c) && (env.honest ==> AppliedLanded(c))
    && (IsCreate(c) ==> OncePerCount(c))
    && (strict ==> OneAttempt(c) && Counted(env, c) && Waited(env, c) && (IsCreate(c) && ValidEnv(env) ==> CreateSafe(env, now, c)))
  }

  ghost predicate Inv(env: Env, strict: bool, w: World) {
    forall id :: id in w.cells ==> CellInv(env, strict, w.now, w.cells[id])
  }

  // Every row is its operation's.
  ghost predicate RowsOk(w: World) { forall id :: id in w.cells ==> RowOk(w.cells[id]) }

  lemma InvIsRowsOk(env: Env, strict: bool, w: World)
    requires Inv(env, strict, w)
    ensures RowsOk(w)
  {
    forall id | id in w.cells ensures RowOk(w.cells[id]) { assert CellInv(env, strict, w.now, w.cells[id]); }
  }

  // One live attempt at a time, as every strict run keeps it.
  ghost predicate OneEach(w: World) {
    forall id :: id in w.cells ==> OneAttempt(w.cells[id]) && RowOk(w.cells[id])
  }

  lemma InvIsOneEach(env: Env, w: World)
    requires Inv(env, true, w)
    ensures OneEach(w)
  {
    forall id | id in w.cells ensures OneAttempt(w.cells[id]) && RowOk(w.cells[id]) { assert CellInv(env, true, w.now, w.cells[id]); }
  }

  lemma CellInvKept(env: Env, strict: bool, now: Time, c: Cell, a: Act)
    requires CellInv(env, strict, now, c) && Enabled(env, now, c, a)
    requires strict && a.Recover? ==> c.live == map[]
    ensures CellInv(env, strict, now, Perform(env, now, c, a))
  {
    BasicKept(env, now, c, a);
    RecordedKept(env, now, c, a);
    OneTryKept(env, now, c, a);
    RejectsUncalledKept(env, now, c, a);
    GroundedKept(env, now, c, a);
    if env.honest { AppliedLandedKept(env, now, c, a); }
    if IsCreate(c) { OncePerCountKept(env, now, c, a); }
    if strict {
      OneAttemptKept(env, now, c, a);
      CountedKept(env, now, c, a);
      WaitedKept(env, now, c, a);
      if IsCreate(c) && ValidEnv(env) { CreateSafeKept(env, now, c, a); }
    }
    assert Perform(env, now, c, a).op == c.op;
  }

  ghost predicate Claims(w: World, a: Action, id: Id) { a.ClaimCycle? && Picked(Hot(w), a.q, id) }

  // What an action does to one cell: one enabled act, or nothing.
  lemma CellStep(env: Env, strict: bool, w: World, a: Action, id: Id)
    requires Can(env, strict, w, a) && id in w.cells
    ensures id in Next(env, w, a).cells
    ensures var c, c' := w.cells[id], Next(env, w, a).cells[id];
      c' == c || exists act :: Enabled(env, w.now, c, act) && c' == Perform(env, w.now, c, act)
                               && (strict && act.Recover? ==> c.live == map[])
                               && (act.Take? ==> Claims(w, a, id))
  {
    if !a.Enqueue? && !a.Tick? {
      var o := ActOf(env, w, a, id);
      if o.Some? && Enabled(env, w.now, w.cells[id], o.value) {
        assert Next(env, w, a).cells[id] == Perform(env, w.now, w.cells[id], o.value);
      }
    }
  }

  lemma CellKept(env: Env, strict: bool, w: World, a: Action, id: Id)
    requires id in w.cells && CellInv(env, strict, w.now, w.cells[id]) && Can(env, strict, w, a)
    ensures id in Next(env, w, a).cells && CellInv(env, strict, Next(env, w, a).now, Next(env, w, a).cells[id])
  {
    var c, c' := w.cells[id], Next(env, w, a).cells[id];
    CellStep(env, strict, w, a, id);
    if c' != c {
      var act :| Enabled(env, w.now, c, act) && c' == Perform(env, w.now, c, act)
                 && (strict && act.Recover? ==> c.live == map[]);
      CellInvKept(env, strict, w.now, c, act);
    } else if a.Tick? && IsCreate(c) && strict && ValidEnv(env) {
      CreateSafeLater(env, w.now, c, a.later);
    }
  }

  lemma NewCellOk(env: Env, strict: bool, now: Time, op: Op, present: bool)
    ensures CellInv(env, strict, now, NewCell(op, present))
  {
  }

  lemma NextKeeps(env: Env, strict: bool, w: World, a: Action)
    requires Inv(env, strict, w) && Can(env, strict, w, a)
    ensures Inv(env, strict, Next(env, w, a))
  {
    var w' := Next(env, w, a);
    forall id | id in w'.cells ensures CellInv(env, strict, w'.now, w'.cells[id]) {
      if id in w.cells {
        CellKept(env, strict, w, a, id);
      } else {
        NewCellOk(env, strict, w.now, a.op, a.present);
      }
    }
  }

  lemma {:induction false} RunKeeps(env: Env, strict: bool, w: World, acts: seq<Action>)
    requires Inv(env, strict, w) && Possible(env, strict, w, acts)
    ensures Inv(env, strict, After(env, w, acts))
    decreases |acts|
  {
    if acts != [] {
      NextKeeps(env, strict, w, acts[0]);
      RunKeeps(env, strict, Next(env, w, acts[0]), acts[1..]);
    }
  }
}
