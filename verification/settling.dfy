// Attempts settle by themselves: whatever the target answers, only so many steps
// can be taken before every attempt is over, and some step is always open until
// then. So quiet tables keep coming back.
module Settling {
  import opened Rows
  import opened ClaimSpec
  import opened Resolution
  import opened Protocol
  import opened CellLaws
  import opened StrictLaws
  import opened Runs
  import opened Drain

  // ---- what is still under way for one operation --------------------------

  ghost function Flying(calls: map<nat, Call>): set<nat> {
    set n | n in calls && calls[n].InFlight?
  }

  // The steps an attempt may still take, its call's own settling included.
  function StepsLeft(p: Phase): nat {
    match p case Claimed => 4 case Calling => 2 case Decided(_) => 1
  }

  ghost function Busy(c: Cell): nat {
    var n := |c.claims| - 1;
    (if n in c.live then StepsLeft(c.live[n]) else 0) + |Flying(c.calls)|
  }

  predicate Settles(a: Act) { IsLocal(a) && !a.Foreign? }

  lemma OneMoreFlies(calls: map<nat, Call>, n: nat, due: Time)
    ensures |Flying(calls[n := InFlight(due)])| <= |Flying(calls)| + 1
  {
    assert Flying(calls[n := InFlight(due)]) == Flying(calls) + {n};
  }

  lemma OneFewerFlies(calls: map<nat, Call>, n: nat, how: Call)
    requires n in calls && calls[n].InFlight? && !how.InFlight?
    ensures |Flying(calls[n := how])| == |Flying(calls)| - 1
  {
    assert Flying(calls) == Flying(calls[n := how]) + {n};
  }

  lemma SettlingUsesUp(env: Env, now: Time, c: Cell, a: Act)
    requires OneAttempt(c) && Enabled(env, now, c, a) && Settles(a)
    ensures Busy(Perform(env, now, c, a)) < Busy(c)
  {
    match a
    case Send(n) => OneMoreFlies(c.calls, n, now + SettleTime(env, c.op));
    case Land(n) => OneFewerFlies(c.calls, n, Landed);
    case Fizzle(n) => OneFewerFlies(c.calls, n, Failed);
    case _ =>
  }

  ghost predicate CanSettle(env: Env, now: Time, c: Cell, a: Act) {
    Enabled(env, now, c, a) && Settles(a) && !a.Lose?
  }

  // While anything is under way some step is open, and it is not a death.
  lemma SomethingIsOpen(env: Env, now: Time, c: Cell)
    requires Basic(env, c) && Busy(c) > 0
    ensures exists a :: CanSettle(env, now, c, a)
  {
    var n := |c.claims| - 1;
    if n in c.live {
      var a := match c.live[n]
        case Claimed => if CanSend(c, c.claims[n].prior) then Send(n) else Skip(n, DispatchError())
        case Calling => Reply(n, Threw(Fault(false, "", false, true)))
        case Decided(_) => Write(n);
      assert CanSettle(env, now, c, a);
    } else {
      var m :| m in Flying(c.calls);
      assert CanSettle(env, now, c, Fizzle(m));
    }
  }

  // ---- and for the whole table -------------------------------------------

  ghost function BusyAll(w: World): map<Id, nat> {
    map id | id in w.cells :: Busy(w.cells[id])
  }

  ghost function TableBusy(w: World): nat { Sum(BusyAll(w)) }

  predicate SettlingAction(a: Action) { a.Local? && Settles(a.act) }

  ghost predicate SettlingRun(env: Env, w: World, acts: seq<Action>) {
    Possible(env, true, w, acts) && forall a :: a in acts ==> SettlingAction(a)
  }

  lemma OnlyOneCell(env: Env, w: World, a: Action)
    requires a.Local? && a.id in w.cells && Enabled(env, w.now, w.cells[a.id], a.act)
    ensures Next(env, w, a).cells == w.cells[a.id := Perform(env, w.now, w.cells[a.id], a.act)]
  {
  }

  lemma LessBusy(w: World, id: Id, c: Cell)
    requires id in w.cells && Busy(c) < Busy(w.cells[id])
    ensures TableBusy(w.(cells := w.cells[id := c])) < TableBusy(w)
  {
    var f, g := BusyAll(w.(cells := w.cells[id := c])), BusyAll(w);
    assert f == g[id := Busy(c)] && id in f && f[id] < g[id];
    SumMonotone(f, g);
  }

  lemma StepSettles(env: Env, w: World, a: Action)
    requires Inv(env, true, w) && Can(env, true, w, a) && SettlingAction(a)
    ensures TableBusy(Next(env, w, a)) < TableBusy(w)
  {
    var c' := Perform(env, w.now, w.cells[a.id], a.act);
    assert CellInv(env, true, w.now, w.cells[a.id]);
    SettlingUsesUp(env, w.now, w.cells[a.id], a.act);
    OnlyOneCell(env, w, a);
    LessBusy(w, a.id, c');
    assert Next(env, w, a) == w.(cells := w.cells[a.id := c']);
  }

  // However the dispatchers and the target interleave: settling takes boundedly many steps.
  lemma {:induction false} SettlingIsShort(env: Env, w: World, acts: seq<Action>)
    requires Inv(env, true, w) && SettlingRun(env, w, acts)
    ensures |acts| + TableBusy(After(env, w, acts)) <= TableBusy(w)
    decreases |acts|
  {
    if acts != [] {
      StepSettles(env, w, acts[0]);
      NextKeeps(env, true, w, acts[0]);
      SettlingIsShort(env, Next(env, w, acts[0]), acts[1..]);
    }
  }

  ghost predicate AtRest(w: World) {
    forall id :: id in w.cells ==> w.cells[id].live == map[] && Flying(w.cells[id].calls) == {}
  }

  // Nothing left to settle means exactly that no attempt and no call is under way.
  lemma RestIsNoneBusy(w: World)
    requires OneEach(w)
    ensures AtRest(w) <==> TableBusy(w) == 0
  {
    forall id | id in w.cells ensures Busy(w.cells[id]) == 0 <==> w.cells[id].live == map[] && Flying(w.cells[id].calls) == {} {
      var c := w.cells[id];
      assert forall n :: n in c.live ==> n == |c.claims| - 1;
    }
    if AtRest(w) {
      assert forall id :: id in BusyAll(w) ==> BusyAll(w)[id] == 0;
      SumOfZeros(BusyAll(w));
    } else {
      var id :| id in w.cells && !(w.cells[id].live == map[] && Flying(w.cells[id].calls) == {});
      SumPick(BusyAll(w), id);
    }
  }

  lemma {:induction false} SumOfZeros(f: map<Id, nat>)
    requires forall k :: k in f ==> f[k] == 0
    ensures Sum(f) == 0
  {
    if f != map[] {
      var k :| k in f;
      SumPick(f, k);
      SumOfZeros(f - {k});
    }
  }

  // Until then a settling step is always open.
  lemma UntilRest(env: Env, w: World) returns (a: Action)
    requires Inv(env, true, w) && !AtRest(w)
    ensures Can(env, true, w, a) && SettlingAction(a) && DrainAction(a)
  {
    var id :| id in w.cells && !(w.cells[id].live == map[] && Flying(w.cells[id].calls) == {});
    assert CellInv(env, true, w.now, w.cells[id]);
    UntilCellRests(env, w.now, w.cells[id]);
    var act :| CanSettle(env, w.now, w.cells[id], act);
    a := Local(id, act);
  }

  lemma UntilCellRests(env: Env, now: Time, c: Cell)
    requires Basic(env, c) && OneAttempt(c) && !(c.live == map[] && Flying(c.calls) == {})
    ensures exists act :: CanSettle(env, now, c, act)
  {
    if c.live != map[] {
      var n :| n in c.live;
      assert n == |c.claims| - 1;
    }
    SomethingIsOpen(env, now, c);
  }

  // ---- runs put together -------------------------------------------------

  lemma {:induction false} Concat(env: Env, w: World, first: seq<Action>, rest: seq<Action>)
    requires DrainRun(env, w, first) && DrainRun(env, After(env, w, first), rest)
    ensures DrainRun(env, w, first + rest) && After(env, w, first + rest) == After(env, After(env, w, first), rest)
    decreases |first|
  {
    if first == [] {
      assert first + rest == rest;
    } else {
      Concat(env, Next(env, w, first[0]), first[1..], rest);
      assert (first + rest)[1..] == first[1..] + rest;
    }
  }

  lemma Single(env: Env, w: World, a: Action)
    requires Can(env, true, w, a) && DrainAction(a)
    ensures DrainRun(env, w, [a]) && After(env, w, [a]) == Next(env, w, a)
  {
    assert [a][1..] == [];
    assert After(env, Next(env, w, a), []) == Next(env, w, a);
    assert Possible(env, true, Next(env, w, a), []);
  }

  lemma {:induction false} ComesToRest(env: Env, w: World) returns (acts: seq<Action>)
    requires Inv(env, true, w)
    ensures DrainRun(env, w, acts) && AtRest(After(env, w, acts))
    decreases TableBusy(w)
  {
    if AtRest(w) {
      acts := [];
    } else {
      var a := UntilRest(env, w);
      StepSettles(env, w, a);
      NextKeeps(env, true, w, a);
      var rest := ComesToRest(env, Next(env, w, a));
      Single(env, w, a);
      Concat(env, w, [a], rest);
      acts := [a] + rest;
    }
  }

  // ---- and the clock goes past every wait ---------------------------------

  // When a row stops waiting, if it waits at all.
  function WaitOf(env: Env, c: Cell): Time {
    if c.row.None? then 0
    else if c.row.value.status == AWAITING_READBACK && c.row.value.notBefore.Some? then c.row.value.notBefore.value
    else if c.row.value.status == RUNNING && c.row.value.claimedAt.Some? then c.row.value.claimedAt.value + env.reapThreshold + 1
    else 0
  }

  lemma {:induction false} AfterAllWaits(env: Env, cells: map<Id, Cell>, from: Time) returns (t: Time)
    ensures from <= t && forall id :: id in cells ==> WaitOf(env, cells[id]) <= t
  {
    if cells == map[] {
      t := from;
    } else {
      var id :| id in cells;
      var rest := AfterAllWaits(env, cells - {id}, from);
      t := Max(rest, WaitOf(env, cells[id]));
      forall k | k in cells ensures WaitOf(env, cells[k]) <= t {
        if k != id { assert k in cells - {id}; }
      }
    }
  }

  lemma IdleAfterWait(env: Env, now: Time, c: Cell, t: Time)
    requires CellInv(env, true, now, c) && c.live == map[] && WaitOf(env, c) <= t
    ensures Idle(env, t, c)
  {}

  // From any reachable table, without a death, a quiet one can be reached.
  lemma BecomesQuiet(env: Env, w: World) returns (acts: seq<Action>)
    requires Inv(env, true, w)
    ensures DrainRun(env, w, acts) && Quiet(env, After(env, w, acts))
  {
    var first := ComesToRest(env, w);
    var mid := After(env, w, first);
    RunKeeps(env, true, w, first);
    var t := AfterAllWaits(env, mid.cells, mid.now);
    forall id | id in mid.cells ensures CallsOutlast(mid.cells[id], t) && Idle(env, t, mid.cells[id]) {
      assert CellInv(env, true, mid.now, mid.cells[id]);
      assert Flying(mid.cells[id].calls) == {};
      NoneFlying(mid.cells[id].calls);
      IdleAfterWait(env, mid.now, mid.cells[id], t);
    }
    Single(env, mid, Tick(t));
    Concat(env, w, first, [Tick(t)]);
    acts := first + [Tick(t)];
  }

  lemma NoneFlying(calls: map<nat, Call>)
    requires Flying(calls) == {}
    ensures forall n :: n in calls ==> !calls[n].InFlight?
  {
    forall n | n in calls ensures !calls[n].InFlight? {
      assert n !in Flying(calls);
    }
  }
}
