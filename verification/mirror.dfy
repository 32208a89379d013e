// The dispatcher's attempts in flight and its held lanes keep step with the table:
// through its own claims and write-backs, and whatever else goes on.
module Mirror {
  import opened Rows
  import opened ClaimSpec
  import opened Resolution
  import opened Protocol
  import opened CellLaws
  import opened StrictLaws
  import opened Runs
  import opened Dispatching
  import opened DispatchTheorems
  import opened Rounds
  import Store

  // ---- claims ---------------------------------------------------------------

  // All the picked rows, each once.
  ghost predicate ReturnsAll(w: World, q: Query, claimed: seq<Store.Claimed>) {
    && (forall j, k :: 0 <= j < k < |claimed| ==> claimed[j].id != claimed[k].id)
    && (forall c :: c in claimed ==> Picked(Hot(w), q, c.id) && Store.HandsOver(c, Hot(w)[c.id]))
    && (forall id :: id in Hot(w) && Picked(Hot(w), q, id) ==> ReturnedIn(claimed, id))
  }

  ghost predicate ReturnedIn(claimed: seq<Store.Claimed>, id: Id) { exists k :: 0 <= k < |claimed| && claimed[k].id == id }

  lemma {:induction false} LaunchedHas(fl: Flights, n: nat, claimed: seq<Store.Claimed>, k: nat, j: nat)
    requires j < k <= |claimed|
    ensures n + j in Launched(fl, n, claimed, k)
  {
    if j < k - 1 { LaunchedHas(fl, n, claimed, k - 1, j); }
  }

  function Working(w: World): set<Id> {
    set id | id in w.cells && AtWork(w.cells[id])
  }

  // The operations of w are those of w', apart from new ones that are not at work.
  ghost predicate SameOps(w: World, w': World) {
    && (forall id :: id in w.cells ==> id in w'.cells && w'.cells[id].op == w.cells[id].op)
    && (forall id :: id in Working(w') ==> id in w.cells)
    && (forall id :: id in Working(w) && id in Working(w') ==> w'.cells[id].claims == w.cells[id].claims)
  }

  ghost predicate SameWork(c: Cell, c': Cell, works: bool) {
    c'.op == c.op && (AtWork(c') <==> works) && (works && AtWork(c) ==> c'.claims == c.claims)
  }

  // What an action does to who is at work, by cell.
  ghost predicate CellWork(w: World, w': World, id: Id, works: bool) {
    id in w.cells ==> id in w'.cells && SameWork(w.cells[id], w'.cells[id], works)
  }

  lemma TakeWorks(env: Env, now: Time, c: Cell)
    requires OneAttempt(c) && RowOk(c) && Enabled(env, now, c, Take)
    ensures !AtWork(c) && AtWork(Perform(env, now, c, Take)) && Perform(env, now, c, Take).op == c.op && c.row.value.op == c.op
  {
    assert !HasStatus(c, RUNNING);
    assert c.live.Keys == {};
    assert |c.claims| in Perform(env, now, c, Take).live;
  }

  // The row's last claim says what the row said before it.
  ghost predicate Starting(w: World, w': World, id: Id) {
    id in Hot(w) && id in w'.cells && w'.cells[id].claims != []
    && LastClaim(w'.cells[id]) == Claim(Hot(w)[id].status, Hot(w)[id].attemptCount)
  }

  lemma ClaimWorks(env: Env, w: World, q: Query, id: Id)
    requires id in w.cells && OneAttempt(w.cells[id]) && RowOk(w.cells[id]) && Can(env, true, w, ClaimCycle(q))
    ensures CellWork(w, Next(env, w, ClaimCycle(q)), id, AtWork(w.cells[id]) || Picked(Hot(w), q, id))
    ensures Picked(Hot(w), q, id) ==> !AtWork(w.cells[id]) && Hot(w)[id].op == w.cells[id].op
    ensures Picked(Hot(w), q, id) ==> Starting(w, Next(env, w, ClaimCycle(q)), id)
  {
    var c := w.cells[id];
    if Picked(Hot(w), q, id) {
      assert c.row.value == Hot(w)[id];
      TakeWorks(env, w.now, c);
    }
  }

  lemma ClaimWorksAll(env: Env, w: World, q: Query)
    requires OneEach(w) && Can(env, true, w, ClaimCycle(q))
    ensures SameOps(w, Next(env, w, ClaimCycle(q)))
    ensures Working(Next(env, w, ClaimCycle(q))) == Working(w) + PickedSet(Hot(w), q)
    ensures forall id :: id in PickedSet(Hot(w), q) ==> id in w.cells && id !in Working(w) && Hot(w)[id].op == w.cells[id].op
    ensures forall id :: id in PickedSet(Hot(w), q) ==> Starting(w, Next(env, w, ClaimCycle(q)), id)
  {
    var w' := Next(env, w, ClaimCycle(q));
    forall id | id in w.cells
      ensures CellWork(w, w', id, AtWork(w.cells[id]) || Picked(Hot(w), q, id))
      ensures Picked(Hot(w), q, id) ==> Starting(w, w', id)
      ensures Picked(Hot(w), q, id) ==> !AtWork(w.cells[id]) && Hot(w)[id].op == w.cells[id].op
    {
      ClaimWorks(env, w, q, id);
    }
    WorkingIs(w, w', Working(w) + PickedSet(Hot(w), q));
  }

  lemma WorkingIs(w: World, w': World, busy: set<Id>)
    requires w'.cells.Keys == w.cells.Keys && busy <= w.cells.Keys
    requires forall id :: id in w.cells ==> CellWork(w, w', id, id in busy)
    ensures SameOps(w, w') && Working(w') == busy
  {
  }

  // The dispatcher launches what its claim returned.
  lemma MirrorsClaim(env: Env, w: World, q: Query, fl: Flights, n: nat, claimed: seq<Store.Claimed>)
    requires OneEach(w) && Can(env, true, w, ClaimCycle(q)) && Mirrors(fl, w) && ReturnsAll(w, q, claimed)
    requires forall m :: m in fl ==> m < n
    ensures Mirrors(Launched(fl, n, claimed, |claimed|), Next(env, w, ClaimCycle(q)))
  {
    ClaimWorksAll(env, w, q);
    MirrorsMore(fl, w, Next(env, w, ClaimCycle(q)), n, claimed, PickedSet(Hot(w), q));
  }

  lemma MirrorsMore(fl: Flights, w: World, w': World, n: nat, claimed: seq<Store.Claimed>, picked: set<Id>)
    requires Mirrors(fl, w) && SameOps(w, w') && Working(w') == Working(w) + picked
    requires (forall m :: m in fl ==> m < n) && forall id :: id in picked ==> id in w.cells && id !in Working(w)
    requires forall j, k :: 0 <= j < k < |claimed| ==> claimed[j].id != claimed[k].id
    requires forall k :: 0 <= k < |claimed| ==> claimed[k].id in picked && Knows(claimed[k], w'.cells[claimed[k].id])
    requires forall id :: id in picked ==> ReturnedIn(claimed, id)
    ensures Mirrors(Launched(fl, n, claimed, |claimed|), w')
  {
    var fl' := Launched(fl, n, claimed, |claimed|);
    LaunchedTickets(fl, n, claimed, |claimed|);
    forall m | m in fl ensures KnowsAt(fl[m], w) {}
    forall m | m in fl' ensures KnowsAt(fl'[m], w') {
      TicketKnows(fl, w, w', n, claimed, picked, m);
    }
    forall l, m | l in fl' && m in fl' && l != m ensures fl'[l].id != fl'[m].id {
      NoTwoTickets(fl, w, n, claimed, picked, l, m);
    }
    forall id | id in Working(w') ensures InFlightFor(fl', id) { HasTicket(fl, w, n, claimed, picked, id); }
    assert forall id :: id in w'.cells && AtWork(w'.cells[id]) ==> id in Working(w');
  }

  lemma TicketKnows(fl: Flights, w: World, w': World, n: nat, claimed: seq<Store.Claimed>, picked: set<Id>, m: nat)
    requires SameOps(w, w') && Working(w') == Working(w) + picked && forall m :: m in fl ==> m < n
    requires forall k :: k in fl ==> KnowsAt(fl[k], w)
    requires forall k :: 0 <= k < |claimed| ==> claimed[k].id in picked && Knows(claimed[k], w'.cells[claimed[k].id])
    requires m in Launched(fl, n, claimed, |claimed|)
    ensures KnowsAt(Launched(fl, n, claimed, |claimed|)[m], w')
  {
    LaunchedTickets(fl, n, claimed, |claimed|);
    if m < n { StillKnows(fl[m], w, w'); }
  }

  ghost predicate KnowsAt(c: Store.Claimed, w: World) { c.id in Working(w) && Knows(c, w.cells[c.id]) }

  lemma StillKnows(c: Store.Claimed, w: World, w': World)
    requires KnowsAt(c, w) && SameOps(w, w') && c.id in Working(w')
    ensures KnowsAt(c, w')
  {
  }

  lemma NoTwoTickets(fl: Flights, w: World, n: nat, claimed: seq<Store.Claimed>, picked: set<Id>, l: nat, m: nat)
    requires Mirrors(fl, w) && (forall m :: m in fl ==> m < n) && forall id :: id in picked ==> id !in Working(w)
    requires forall j, k :: 0 <= j < k < |claimed| ==> claimed[j].id != claimed[k].id
    requires forall k :: 0 <= k < |claimed| ==> claimed[k].id in picked
    requires l in Launched(fl, n, claimed, |claimed|) && m in Launched(fl, n, claimed, |claimed|) && l != m
    ensures Launched(fl, n, claimed, |claimed|)[l].id != Launched(fl, n, claimed, |claimed|)[m].id
  {
    LaunchedTickets(fl, n, claimed, |claimed|);
  }

  lemma HasTicket(fl: Flights, w: World, n: nat, claimed: seq<Store.Claimed>, picked: set<Id>, id: Id)
    requires Mirrors(fl, w) && id in Working(w) + picked && (forall m :: m in fl ==> m < n)
    requires id in picked ==> ReturnedIn(claimed, id)
    ensures InFlightFor(Launched(fl, n, claimed, |claimed|), id)
  {
    var fl' := Launched(fl, n, claimed, |claimed|);
    LaunchedTickets(fl, n, claimed, |claimed|);
    if id in picked {
      var k :| 0 <= k < |claimed| && claimed[k].id == id;
      LaunchedHas(fl, n, claimed, |claimed|, k);
      assert fl'[n + k].id == id;
    } else {
      assert InFlightFor(fl, id);
      var m :| m in fl && fl[m].id == id;
      assert m in fl' && fl'[m].id == id;
    }
  }

  // What the dispatcher's attempt makes of an answer is what the protocol makes of it.
  lemma ResolvesAlike(env: Env, w: World, fl: Flights, n: nat, m: nat, ans: Answer)
    requires Mirrors(fl, w) && n in fl && OneAttempt(w.cells[fl[n].id])
    requires Can(env, true, w, Local(fl[n].id, Reply(m, ans)))
    ensures Answerable(fl[n], ans)
    ensures Next(env, w, Local(fl[n].id, Reply(m, ans))).cells[fl[n].id].live[m] == Decided(ResolutionOf(env, fl[n], ans))
  {
  }

  // ---- ends of attempts -------------------------------------------------------

  predicate Ends(a: Action) { a.Local? && (a.act.Write? || a.act.Lose?) }

  // An attempt ends, and its ticket is released.
  lemma MirrorsEnd(env: Env, w: World, a: Action, fl: Flights, n: nat)
    requires Can(env, true, w, a) && Ends(a) && OneAttempt(w.cells[a.id]) && Mirrors(fl, w) && n in fl && fl[n].id == a.id
    ensures Mirrors(fl - {n}, Next(env, w, a))
  {
    EndsAttempt(env, w.now, w.cells[a.id], a.act);
    OneCellChanges(env, w, a);
    WorkingIs(w, Next(env, w, a), Working(w) - {a.id});
    MirrorsFewer(fl, w, Next(env, w, a), n);
  }

  lemma OneCellChanges(env: Env, w: World, a: Action)
    requires a.Local? && Can(env, true, w, a)
    ensures Next(env, w, a).cells == w.cells[a.id := Perform(env, w.now, w.cells[a.id], a.act)]
  {
  }

  lemma MirrorsFewer(fl: Flights, w: World, w': World, n: nat)
    requires Mirrors(fl, w) && n in fl && SameOps(w, w') && Working(w') == Working(w) - {fl[n].id}
    ensures Mirrors(fl - {n}, w')
  {
    forall m | m in fl && m != n ensures KnowsAt(fl[m], w') {
      assert KnowsAt(fl[m], w);
      StillKnows(fl[m], w, w');
    }
    forall id | id in Working(w') ensures InFlightFor(fl - {n}, id) {
      assert InFlightFor(fl, id);
      StillInFlight(fl, n, id);
    }
    assert forall id :: id in w'.cells && AtWork(w'.cells[id]) ==> id in Working(w');
  }

  lemma StillInFlight(fl: Flights, n: nat, id: Id)
    requires n in fl && fl[n].id != id && InFlightFor(fl, id)
    ensures InFlightFor(fl - {n}, id)
  {
    var m :| m in fl && fl[m].id == id;
    assert (fl - {n})[m].id == id;
  }

  lemma EndsAttempt(env: Env, now: Time, c: Cell, act: Act)
    requires OneAttempt(c) && Enabled(env, now, c, act) && (act.Write? || act.Lose?)
    ensures !AtWork(Perform(env, now, c, act)) && Perform(env, now, c, act).op == c.op
  {
    assert c.live.Keys == {act.n};
  }

  // ---- everything else -----------------------------------------------------------

  lemma MirrorsKept(env: Env, w: World, a: Action, fl: Flights)
    requires Can(env, true, w, a) && !a.ClaimCycle? && !Ends(a) && Mirrors(fl, w)
    ensures Mirrors(fl, Next(env, w, a))
  {
    var w' := Next(env, w, a);
    forall id | id in w.cells ensures CellWork(w, w', id, id in Working(w)) { OthersWork(env, w, a, id); }
    if a.Enqueue? {
      assert Working(w') == Working(w);
    } else {
      WorkingIs(w, w', Working(w));
    }
    MirrorsSame(fl, w, w');
  }

  lemma OthersWork(env: Env, w: World, a: Action, id: Id)
    requires Can(env, true, w, a) && !a.ClaimCycle? && !Ends(a) && id in w.cells
    ensures CellWork(w, Next(env, w, a), id, AtWork(w.cells[id]))
  {
    var o := ActOf(env, w, a, id);
    if o.Some? && Enabled(env, w.now, w.cells[id], o.value) { OthersKeepWork(env, w.now, w.cells[id], o.value); }
  }

  lemma MirrorsSame(fl: Flights, w: World, w': World)
    requires Mirrors(fl, w) && SameOps(w, w') && Working(w') == Working(w)
    ensures Mirrors(fl, w')
  {
    forall m | m in fl ensures KnowsAt(fl[m], w') {
      assert KnowsAt(fl[m], w);
      StillKnows(fl[m], w, w');
    }
    assert forall id :: id in w'.cells && AtWork(w'.cells[id]) ==> id in Working(w);
  }

  lemma OthersKeepWork(env: Env, now: Time, c: Cell, act: Act)
    requires Enabled(env, now, c, act) && !act.Take? && !act.Write? && !act.Lose?
    ensures Perform(env, now, c, act).op == c.op && (AtWork(Perform(env, now, c, act)) <==> AtWork(c))
    ensures Perform(env, now, c, act).claims == c.claims
  {
    assert Perform(env, now, c, act).live.Keys == c.live.Keys && Perform(env, now, c, act).claims == c.claims;
  }

  // ---- whole runs -----------------------------------------------------------------

  // The dispatcher's tickets, and the next one.
  datatype Desk = Desk(flights: Flights, next: nat)

  // An action of the table, with what the claim returned if it is one.
  datatype Move = Move(act: Action, returned: seq<Store.Claimed>)

  ghost function Without(fl: Flights, id: Id): Flights {
    map n | n in fl && fl[n].id != id :: fl[n]
  }

  ghost function DeskNext(d: Desk, m: Move): Desk {
    if m.act.ClaimCycle? then Desk(Launched(d.flights, d.next, m.returned, |m.returned|), d.next + |m.returned|)
    else if Ends(m.act) then d.(flights := Without(d.flights, m.act.id))
    else d
  }

  ghost predicate CanMove(env: Env, w: World, m: Move) {
    Can(env, true, w, m.act) && (m.act.ClaimCycle? ==> ReturnsAll(w, m.act.q, m.returned))
  }

  ghost predicate Moves(env: Env, w: World, moves: seq<Move>)
    decreases |moves|
  {
    moves == [] || (CanMove(env, w, moves[0]) && Moves(env, Next(env, w, moves[0].act), moves[1..]))
  }

  ghost function AfterMoves(env: Env, w: World, moves: seq<Move>): World
    decreases |moves|
  {
    if moves == [] then w else AfterMoves(env, Next(env, w, moves[0].act), moves[1..])
  }

  ghost function DeskAfter(d: Desk, moves: seq<Move>): Desk
    decreases |moves|
  {
    if moves == [] then d else DeskAfter(DeskNext(d, moves[0]), moves[1..])
  }

  ghost predicate InStep(d: Desk, w: World) {
    Mirrors(d.flights, w) && forall n :: n in d.flights ==> n < d.next
  }

  lemma MoveKeepsStep(env: Env, w: World, d: Desk, m: Move)
    requires OneEach(w) && InStep(d, w) && CanMove(env, w, m)
    ensures InStep(DeskNext(d, m), Next(env, w, m.act))
  {
    if m.act.ClaimCycle? {
      MirrorsClaim(env, w, m.act.q, d.flights, d.next, m.returned);
      LaunchedTickets(d.flights, d.next, m.returned, |m.returned|);
    } else if Ends(m.act) {
      var n := TicketOf(d.flights, w, m.act);
      assert Without(d.flights, m.act.id) == d.flights - {n};
      MirrorsEnd(env, w, m.act, d.flights, n);
    } else {
      MirrorsKept(env, w, m.act, d.flights);
    }
  }

  // A live attempt has its ticket.
  lemma TicketOf(fl: Flights, w: World, a: Action) returns (n: nat)
    requires Mirrors(fl, w) && Ends(a) && a.id in w.cells && a.act.n in w.cells[a.id].live
    ensures n in fl && fl[n].id == a.id
  {
    assert InFlightFor(fl, a.id);
    n :| n in fl && fl[n].id == a.id;
  }

  // Over every strict run, the dispatcher's attempts in flight are the table's live ones.
  lemma {:induction false} RunsStayInStep(env: Env, w: World, d: Desk, moves: seq<Move>)
    requires Inv(env, true, w) && InStep(d, w) && Moves(env, w, moves)
    ensures InStep(DeskAfter(d, moves), AfterMoves(env, w, moves))
    decreases |moves|
  {
    if moves != [] {
      InvIsOneEach(env, w);
      MoveKeepsStep(env, w, d, moves[0]);
      NextKeeps(env, true, w, moves[0].act);
      RunsStayInStep(env, Next(env, w, moves[0].act), DeskNext(d, moves[0]), moves[1..]);
    }
  }

  lemma {:induction false} ListOf(w: World, s: set<Id>) returns (claimed: seq<Store.Claimed>)
    requires s <= Hot(w).Keys
    ensures forall j, k :: 0 <= j < k < |claimed| ==> claimed[j].id != claimed[k].id
    ensures forall c :: c in claimed ==> c.id in s && Store.HandsOver(c, Hot(w)[c.id])
    ensures forall id :: id in s ==> ReturnedIn(claimed, id)
    decreases |s|
  {
    if s == {} {
      claimed := [];
    } else {
      var x :| x in s;
      var rest := ListOf(w, s - {x});
      claimed := rest + [Store.ToClaimed(x, Hot(w)[x])];
      assert claimed[|rest|].id == x;
      forall j | 0 <= j < |rest| ensures claimed[j].id != x { assert rest[j] in rest; }
      forall id | id in s ensures ReturnedIn(claimed, id) {
        if id != x {
          assert ReturnedIn(rest, id);
          var k :| 0 <= k < |rest| && rest[k].id == id;
          assert claimed[k].id == id;
        }
      }
    }
  }

  // And every strict run is such a run, for some lists its claims return.
  lemma {:induction false} EveryRunMoves(env: Env, w: World, acts: seq<Action>) returns (moves: seq<Move>)
    requires Possible(env, true, w, acts)
    ensures Moves(env, w, moves) && AfterMoves(env, w, moves) == After(env, w, acts)
    decreases |acts|
  {
    moves := [];
    if acts != [] {
      var returned: seq<Store.Claimed> := [];
      if acts[0].ClaimCycle? { returned := ListOf(w, PickedSet(Hot(w), acts[0].q)); }
      var rest := EveryRunMoves(env, Next(env, w, acts[0]), acts[1..]);
      moves := [Move(acts[0], returned)] + rest;
      assert moves[1..] == rest;
    }
  }

  // Writing back a resolution and settling it in the dispatcher hold the same lanes.
  method SettleHolds(d: Dispatcher, ghost w: World, n: nat, ghost m: nat, r: Resolution, now: Time)
    requires d.Valid() && n in d.inFlight && n !in d.settled && d.clock <= now == w.now && Mirrors(d.inFlight, w)
    requires m in w.cells[d.inFlight[n].id].live && w.cells[d.inFlight[n].id].live[m] == Decided(r)
    modifies d
    ensures d.Valid() && d.inFlight == old(d.inFlight)
    ensures d.laneDeferredUntil == HeldNext(w, old(d.laneDeferredUntil), Local(d.inFlight[n].id, Write(m)))
  {
    d.Settle(n, r, now);
  }
}
