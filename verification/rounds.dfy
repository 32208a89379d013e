// One dispatcher driving the table: the claims it makes are its own, from its
// configuration, its budgets, its active lanes and its backoffs. Rounds of letting
// attempts end and waits pass, then reaping and claiming, drain any table.
module Rounds {
  import opened Rows
  import opened ClaimSpec
  import opened Protocol
  import opened StrictLaws
  import opened Runs
  import opened Lanes
  import opened Drain
  import opened Settling
  import opened Dispatching
  import Store

  // ---- the claim a dispatcher makes ---------------------------------------

  // A dispatcher's configuration: its instances, their budgets, its claim batch size.
  datatype Setup = Setup(ids: seq<string>, runtime: map<string, Runtime>, limit: int)

  predicate AtWork(c: Cell) { c.live != map[] }

  function LiveOf(w: World, i: string): set<Id> {
    set id | id in w.cells && AtWork(w.cells[id]) && w.cells[id].op.instance == i
  }

  function LiveBatchOf(w: World, i: string): set<Id> {
    set id | id in w.cells && AtWork(w.cells[id]) && w.cells[id].op.instance == i && w.cells[id].op.priority == Batch
  }

  function LiveLanes(w: World): set<string> {
    set id | id in w.cells && AtWork(w.cells[id]) :: w.cells[id].op.laneKey
  }

  function OwnOffer(s: Setup, w: World, tokens: set<string>): map<string, Availability> {
    map i | i in s.ids && i in s.runtime && i in tokens && s.runtime[i].mutationConcurrency - |LiveOf(w, i)| > 0
      :: Free(s.runtime[i], |LiveOf(w, i)|, |LiveBatchOf(w, i)|)
  }

  // The lanes still inside a backoff.
  function HeldLanes(held: map<string, Time>, now: Time): set<string> {
    set l | l in held && now < held[l]
  }

  function OwnQuery(s: Setup, w: World, held: map<string, Time>, tokens: set<string>): Query {
    Query(s.limit, LiveLanes(w) + HeldLanes(held, w.now), OwnOffer(s, w, tokens), w.now)
  }

  // What the dispatcher knows of the attempt is what the row's last claim said.
  ghost predicate Knows(c: Store.Claimed, cell: Cell) {
    c.op == cell.op && cell.claims != [] && LastClaim(cell) == Claim(c.prior, c.attemptCount)
  }

  // The dispatcher's attempts in flight are the table's live attempts, one an operation.
  ghost predicate Mirrors(fl: Flights, w: World) {
    && (forall n :: n in fl ==> fl[n].id in w.cells && AtWork(w.cells[fl[n].id]) && Knows(fl[n], w.cells[fl[n].id]))
    && (forall m, n :: m in fl && n in fl && m != n ==> fl[m].id != fl[n].id)
    && (forall id :: id in w.cells && AtWork(w.cells[id]) ==> InFlightFor(fl, id))
  }

  ghost predicate InFlightFor(fl: Flights, id: Id) { exists n :: n in fl && fl[n].id == id }

  // As many tickets as operations, when tickets and operations match one to one.
  lemma {:induction false} OneToOne(fl: Flights, tickets: set<nat>, ids: set<Id>)
    requires forall n :: n in tickets ==> n in fl && fl[n].id in ids
    requires forall m, n :: m in tickets && n in tickets && m != n ==> fl[m].id != fl[n].id
    requires forall id :: id in ids ==> exists n :: n in tickets && fl[n].id == id
    ensures |tickets| == |ids|
    decreases |tickets|
  {
    if tickets == {} {
      assert ids == {};
    } else {
      var n :| n in tickets;
      forall id | id in ids - {fl[n].id} ensures exists m :: m in tickets - {n} && fl[m].id == id {
        var m :| m in tickets && fl[m].id == id;
        assert m in tickets - {n};
      }
      OneToOne(fl, tickets - {n}, ids - {fl[n].id});
    }
  }

  lemma MirrorCounts(fl: Flights, w: World, i: string)
    requires Mirrors(fl, w)
    ensures |Of(fl, i)| == |LiveOf(w, i)| && |BatchOf(fl, i)| == |LiveBatchOf(w, i)|
  {
    forall id | id in LiveOf(w, i) ensures exists n :: n in Of(fl, i) && fl[n].id == id {
      assert InFlightFor(fl, id);
      var n :| n in fl && fl[n].id == id;
      assert n in Of(fl, i);
    }
    OneToOne(fl, Of(fl, i), LiveOf(w, i));
    forall id | id in LiveBatchOf(w, i) ensures exists n :: n in BatchOf(fl, i) && fl[n].id == id {
      assert InFlightFor(fl, id);
      var n :| n in fl && fl[n].id == id;
      assert n in BatchOf(fl, i);
    }
    OneToOne(fl, BatchOf(fl, i), LiveBatchOf(w, i));
  }

  lemma MirrorLanes(active: set<string>, fl: Flights, w: World)
    requires Mirrors(fl, w) && LanesActive(active, fl)
    ensures active == LiveLanes(w)
  {
    forall l | l in active ensures l in LiveLanes(w) {
      assert HasLane(fl, l);
      var n :| n in fl && fl[n].op.laneKey == l;
      assert w.cells[fl[n].id].op.laneKey == l;
    }
    forall l | l in LiveLanes(w) ensures l in active {
      var id :| id in w.cells && AtWork(w.cells[id]) && w.cells[id].op.laneKey == l;
      assert InFlightFor(fl, id);
      var n :| n in fl && fl[n].id == id;
      assert fl[n].op.laneKey == l;
    }
  }

  lemma OffersOwn(d: Dispatcher, s: Setup, w: World, tokens: set<string>)
    requires d.Budgeted() && Mirrors(d.inFlight, w) && s.ids == d.ids && s.runtime == d.runtime
    ensures d.Offer(tokens) == OwnOffer(s, w, tokens)
  {
    forall i ensures Get(d.running, i, 0) == |LiveOf(w, i)| && Get(d.runningBatch, i, 0) == |LiveBatchOf(w, i)| {
      assert Get(d.running, i, 0) == |Of(d.inFlight, i)|;
      MirrorCounts(d.inFlight, w, i);
    }
  }

  // The two steps of a cycle that lead to its claim, and the query it sends.
  method AskClaim(d: Dispatcher, ghost s: Setup, ghost w: World, tokens: set<string>, limit: int, now: Time)
    returns (q: Query)
    requires d.Valid() && d.cycle.NoCycle? && d.clock <= now == w.now && d.Offer(tokens) != map[]
    requires Mirrors(d.inFlight, w) && s == Setup(d.ids, d.runtime, limit)
    modifies d
    ensures d.Valid() && q == OwnQuery(s, w, old(d.laneDeferredUntil), tokens)
  {
    OffersOwn(d, s, w, tokens);
    ghost var held := d.laneDeferredUntil;
    var started := d.StartCycle(tokens);
    var offer := d.cycle.available;
    MirrorLanes(d.activeLanes, d.inFlight, w);
    var excluded := d.ExcludedLanes(now);
    assert d.laneDeferredUntil.Keys == HeldLanes(held, now);
    q := Query(limit, excluded, offer, now);
  }

  // ---- what is held back ---------------------------------------------------

  // A retry with a delay holds its lane in the dispatcher.
  function HeldNext(w: World, held: map<string, Time>, a: Action): map<string, Time> {
    if a.Local? && a.id in w.cells && a.act.Write? && a.act.n in w.cells[a.id].live then
      match w.cells[a.id].live[a.act.n]
      case Decided(Requeue(_, delay)) => if delay > 0 then held[w.cells[a.id].op.laneKey := w.now + delay] else held
      case _ => held
    else held
  }

  function HeldAfter(env: Env, w: World, held: map<string, Time>, acts: seq<Action>): map<string, Time>
    decreases |acts|
  {
    if acts == [] then held else HeldAfter(env, Next(env, w, acts[0]), HeldNext(w, held, acts[0]), acts[1..])
  }

  // ---- a configuration that serves the table ---------------------------------

  predicate Served(s: Setup, op: Op) {
    && op.instance in s.ids && op.instance in s.runtime && s.runtime[op.instance].mutationConcurrency >= 1
    && (op.priority.Batch? ==> s.runtime[op.instance].batchSlots >= 1)
  }

  ghost predicate Serves(s: Setup, w: World) {
    s.limit >= 1 && forall id :: id in w.cells && !Over(w.cells[id]) ==> Served(s, w.cells[id].op)
  }

  function AllIds(s: Setup): set<string> { set i | i in s.ids }

  // With nothing in flight, every backoff over and every token granted, the
  // dispatcher's own claim offers every waiting row a slot.
  lemma OwnQueryOffers(s: Setup, w: World, held: map<string, Time>)
    requires Serves(s, w) && (forall id :: id in w.cells ==> w.cells[id].live == map[])
    requires forall l :: l in held ==> held[l] <= w.now
    ensures Offers(w, OwnQuery(s, w, held, AllIds(s)))
  {
    var q := OwnQuery(s, w, held, AllIds(s));
    assert q.active == {};
    forall id | id in w.cells && !Over(w.cells[id]) ensures OfferedTo(q, w.cells[id].op) {
      var i := w.cells[id].op.instance;
      assert Served(s, w.cells[id].op);
      assert LiveOf(w, i) == {} && LiveBatchOf(w, i) == {};
    }
  }

  predicate OfferedTo(q: Query, op: Op) {
    && op.instance in Caps(q.available)
    && (op.priority.Batch? ==> Caps(q.available)[op.instance].batch >= 1)
  }

  // ---- a round that does nothing leaves the table as it was --------------------

  ghost predicate Unworked(c: Cell, c': Cell) {
    && c'.live.Keys == c.live.Keys && c'.op == c.op
    && (c'.row == c.row || (Over(c) && Over(c')))
  }

  lemma IdleAct(env: Env, now: Time, c: Cell, a: Act)
    requires Enabled(env, now, c, a) && !Consumes(a) && !a.Lose?
    ensures Unworked(c, Perform(env, now, c, a))
  {
  }

  lemma WriteWorks(env: Env, w: World, a: Action)
    requires Can(env, true, w, a) && a.Local? && a.act.Write?
    ensures Works(env, w, a)
  {
    assert UsesUp(env, w, a, a.id);
  }

  lemma IdleStep(env: Env, w: World, held: map<string, Time>, a: Action)
    requires Can(env, true, w, a) && DrainAction(a) && !Works(env, w, a)
    ensures Next(env, w, a).cells.Keys == w.cells.Keys && HeldNext(w, held, a) == held
    ensures forall id :: id in w.cells ==> Unworked(w.cells[id], Next(env, w, a).cells[id])
  {
    DrainKeys(env, w, a);
    forall id | id in w.cells ensures Unworked(w.cells[id], Next(env, w, a).cells[id]) { IdleCell(env, w, a, id); }
    if a.Local? && a.act.Write? {
      WriteWorks(env, w, a);
      assert false;
    }
  }

  lemma IdleCell(env: Env, w: World, a: Action, id: Id)
    requires Can(env, true, w, a) && DrainAction(a) && !Works(env, w, a) && id in w.cells
    ensures id in Next(env, w, a).cells && Unworked(w.cells[id], Next(env, w, a).cells[id])
  {
    var o := ActOf(env, w, a, id);
    if o.Some? && Enabled(env, w.now, w.cells[id], o.value) {
      assert !UsesUp(env, w, a, id);
      IdleAct(env, w.now, w.cells[id], o.value);
    }
  }

  lemma {:induction false} IdleRun(env: Env, w: World, held: map<string, Time>, acts: seq<Action>)
    requires DrainRun(env, w, acts) && WorkIn(env, w, acts) == 0
    ensures After(env, w, acts).cells.Keys == w.cells.Keys && HeldAfter(env, w, held, acts) == held
    ensures forall id :: id in w.cells ==> Unworked(w.cells[id], After(env, w, acts).cells[id])
    decreases |acts|
  {
    if acts != [] {
      IdleStep(env, w, held, acts[0]);
      IdleRun(env, Next(env, w, acts[0]), held, acts[1..]);
    }
  }

  lemma {:induction false} RunKeepsOps(env: Env, w: World, acts: seq<Action>)
    requires DrainRun(env, w, acts)
    ensures After(env, w, acts).cells.Keys == w.cells.Keys
    ensures forall id :: id in w.cells ==> After(env, w, acts).cells[id].op == w.cells[id].op
    decreases |acts|
  {
    if acts != [] {
      var w' := Next(env, w, acts[0]);
      DrainKeys(env, w, acts[0]);
      forall id | id in w.cells ensures w'.cells[id].op == w.cells[id].op { CellStep(env, true, w, acts[0], id); }
      RunKeepsOps(env, w', acts[1..]);
    }
  }

  // ---- rounds -------------------------------------------------------------------

  // The waits present at the start are over: abandoned rows can be reaped, read-backs
  // are due, held lanes are free.
  ghost predicate WaitsPassed(env: Env, w: World, held: map<string, Time>, now: Time) {
    && (forall id :: id in w.cells && w.cells[id].live == map[] ==> WaitOf(env, w.cells[id]) <= now)
    && (forall l :: l in held ==> held[l] <= now)
  }

  ghost predicate AttemptsEnded(w: World, w': World) {
    forall id, n :: id in w.cells && n in w.cells[id].live ==> id in w'.cells && n !in w'.cells[id].live
  }

  // One round: whatever goes on first, then the dispatcher reaps and makes its claim.
  function RoundOf(env: Env, s: Setup, w: World, held: map<string, Time>, pre: seq<Action>): seq<Action> {
    pre + LastTwo(env, s, After(env, w, pre), HeldAfter(env, w, held, pre))
  }

  function LastTwo(env: Env, s: Setup, w: World, held: map<string, Time>): seq<Action> {
    [Reap, ClaimCycle(OwnQuery(s, Next(env, w, Reap), held, AllIds(s)))]
  }

  // From any state of the table and the dispatcher, whatever goes on first goes on until
  // the attempts live at the start have ended and the waits present at the start are over.
  ghost predicate Round(env: Env, s: Setup, w: World, held: map<string, Time>, pre: seq<Action>) {
    && DrainRun(env, w, RoundOf(env, s, w, held, pre))
    && AttemptsEnded(w, After(env, w, pre)) && WaitsPassed(env, w, held, After(env, w, pre).now)
  }

  lemma {:induction false} SplitRun(env: Env, w: World, first: seq<Action>, rest: seq<Action>)
    requires DrainRun(env, w, first + rest)
    ensures DrainRun(env, w, first) && DrainRun(env, After(env, w, first), rest)
    ensures After(env, w, first + rest) == After(env, After(env, w, first), rest)
    ensures WorkIn(env, w, first + rest) == WorkIn(env, w, first) + WorkIn(env, After(env, w, first), rest)
    decreases |first|
  {
    if first == [] {
      assert first + rest == rest;
    } else {
      assert (first + rest)[1..] == first[1..] + rest && (first + rest)[0] == first[0];
      forall a | a in first[1..] + rest ensures DrainAction(a) { assert a in first + rest; }
      forall a | a in first ensures DrainAction(a) { assert a in first + rest; }
      SplitRun(env, Next(env, w, first[0]), first[1..], rest);
    }
  }

  lemma QuietCell(env: Env, now: Time, c: Cell, c': Cell)
    requires Unworked(c, c') && CellInv(env, true, now, c') && (forall n :: n in c.live ==> n !in c'.live)
    requires c.live == map[] ==> WaitOf(env, c) <= now
    ensures c'.live == map[] && Idle(env, now, c')
  {
    assert c.live.Keys == {} && c'.live.Keys == {};
    if !Over(c') { IdleAfterWait(env, now, c', now); }
  }

  // If nothing worked until the reap, the table is quiet by then.
  lemma QuietBy(env: Env, s: Setup, w: World, held: map<string, Time>, pre: seq<Action>)
    requires Inv(env, true, w) && DrainRun(env, w, pre) && WorkIn(env, w, pre) == 0
    requires AttemptsEnded(w, After(env, w, pre)) && WaitsPassed(env, w, held, After(env, w, pre).now)
    ensures Quiet(env, After(env, w, pre)) && HeldAfter(env, w, held, pre) == held
    ensures forall id :: id in After(env, w, pre).cells ==> After(env, w, pre).cells[id].live == map[]
  {
    var mid := After(env, w, pre);
    IdleRun(env, w, held, pre);
    RunKeeps(env, true, w, pre);
    forall id | id in mid.cells ensures Idle(env, mid.now, mid.cells[id]) && mid.cells[id].live == map[] {
      QuietCell(env, mid.now, w.cells[id], mid.cells[id]);
    }
  }

  lemma TwoWork(env: Env, w: World, a: Action, b: Action)
    ensures WorkIn(env, w, [a, b]) > 0 <==> Works(env, w, a) || Works(env, Next(env, w, a), b)
  {
    assert [a, b][1..] == [b] && [b][1..] == [];
    assert WorkIn(env, Next(env, w, a), [b]) == (if Works(env, Next(env, w, a), b) then 1 else 0) + WorkIn(env, Next(env, Next(env, w, a), b), []);
  }

  // On a quiet table with no backoff left, the dispatcher's reap or its claim works.
  lemma ReapOrClaimWorks(env: Env, s: Setup, w: World, held: map<string, Time>)
    requires Inv(env, true, w) && StampsDiffer(w) && Serves(s, w) && Quiet(env, w) && !Drained(w)
    requires (forall id :: id in w.cells ==> w.cells[id].live == map[]) && forall l :: l in held ==> held[l] <= w.now
    ensures WorkIn(env, w, LastTwo(env, s, w, held)) > 0
  {
    if !Works(env, w, Reap) {
      ReapingNothing(env, w);
      OwnQueryOffers(s, w, held);
      QuietClaims(env, w, OwnQuery(s, w, held, AllIds(s)));
    }
    TwoWork(env, w, Reap, ClaimCycle(OwnQuery(s, Next(env, w, Reap), held, AllIds(s))));
  }

  // A round from a table that is not drained works.
  lemma RoundWorks(env: Env, s: Setup, w: World, held: map<string, Time>, pre: seq<Action>)
    requires Inv(env, true, w) && StampsDiffer(w) && Serves(s, w) && Round(env, s, w, held, pre) && !Drained(w)
    ensures WorkIn(env, w, RoundOf(env, s, w, held, pre)) > 0
  {
    SplitRun(env, w, pre, LastTwo(env, s, After(env, w, pre), HeldAfter(env, w, held, pre)));
    if WorkIn(env, w, pre) == 0 {
      QuietBy(env, s, w, held, pre);
      RunKeeps(env, true, w, pre);
      StampsKeptRun(env, true, w, pre);
      StillServed(env, s, w, held, pre);
      ReapOrClaimWorks(env, s, After(env, w, pre), held);
    }
  }

  lemma StillServed(env: Env, s: Setup, w: World, held: map<string, Time>, pre: seq<Action>)
    requires DrainRun(env, w, pre) && WorkIn(env, w, pre) == 0 && Serves(s, w) && !Drained(w)
    ensures Serves(s, After(env, w, pre)) && !Drained(After(env, w, pre))
  {
    IdleRun(env, w, held, pre);
    var id :| id in w.cells && !Over(w.cells[id]);
    assert Unworked(w.cells[id], After(env, w, pre).cells[id]);
    forall x | x in w.cells && !Over(After(env, w, pre).cells[x]) ensures Served(s, After(env, w, pre).cells[x].op) {
      assert Unworked(w.cells[x], After(env, w, pre).cells[x]);
    }
  }

  ghost predicate Rounds(env: Env, s: Setup, w: World, held: map<string, Time>, pres: seq<seq<Action>>)
    decreases |pres|
  {
    if pres == [] then true
    else
      var acts := RoundOf(env, s, w, held, pres[0]);
      Round(env, s, w, held, pres[0]) && Rounds(env, s, After(env, w, acts), HeldAfter(env, w, held, acts), pres[1..])
  }

  ghost function AfterRounds(env: Env, s: Setup, w: World, held: map<string, Time>, pres: seq<seq<Action>>): World
    decreases |pres|
  {
    if pres == [] then w
    else
      var acts := RoundOf(env, s, w, held, pres[0]);
      AfterRounds(env, s, After(env, w, acts), HeldAfter(env, w, held, acts), pres[1..])
  }

  lemma OverStays(env: Env, w: World, a: Action, id: Id)
    requires Can(env, true, w, a) && id in w.cells && Over(w.cells[id])
    ensures id in Next(env, w, a).cells && Over(Next(env, w, a).cells[id])
  {
  }

  // A finished row stays finished, whoever still serves its instance.
  lemma {:induction false} StaysOver(env: Env, w: World, acts: seq<Action>, id: Id)
    requires DrainRun(env, w, acts) && id in w.cells && Over(w.cells[id])
    ensures id in After(env, w, acts).cells && Over(After(env, w, acts).cells[id])
    decreases |acts|
  {
    if acts != [] {
      OverStays(env, w, acts[0], id);
      StaysOver(env, Next(env, w, acts[0]), acts[1..], id);
    }
  }

  lemma RoundKeeps(env: Env, s: Setup, w: World, held: map<string, Time>, acts: seq<Action>)
    requires Inv(env, true, w) && StampsDiffer(w) && Serves(s, w) && DrainRun(env, w, acts)
    ensures Inv(env, true, After(env, w, acts)) && StampsDiffer(After(env, w, acts)) && Serves(s, After(env, w, acts))
  {
    RunKeeps(env, true, w, acts);
    StampsKeptRun(env, true, w, acts);
    RunKeepsOps(env, w, acts);
    forall id | id in w.cells && !Over(After(env, w, acts).cells[id]) ensures Served(s, After(env, w, acts).cells[id].op) {
      if Over(w.cells[id]) { StaysOver(env, w, acts, id); }
    }
  }

  // One dispatcher whose budgets serve the table drains it, from any reachable state of
  // both and whatever the target answers, in as many rounds as the table has potential.
  lemma {:induction false} DrainTerminates(env: Env, s: Setup, w: World, held: map<string, Time>, pres: seq<seq<Action>>)
    requires Inv(env, true, w) && StampsDiffer(w) && Serves(s, w) && Rounds(env, s, w, held, pres)
    ensures |pres| >= TablePotential(env, w) ==> Drained(AfterRounds(env, s, w, held, pres))
    ensures Drained(w) ==> Drained(AfterRounds(env, s, w, held, pres))
    decreases |pres|
  {
    if pres == [] {
      if x :| x in w.cells && !Over(w.cells[x]) { DrainedHasNoPotential(env, w, x); }
    } else {
      var acts := RoundOf(env, s, w, held, pres[0]);
      RoundKeeps(env, s, w, held, acts);
      WorkIsBounded(env, w, acts);
      if Drained(w) { StaysDrained(env, w, acts); } else { RoundWorks(env, s, w, held, pres[0]); }
      DrainTerminates(env, s, After(env, w, acts), HeldAfter(env, w, held, acts), pres[1..]);
    }
  }

  // ---- rounds can always be made -------------------------------------------------

  lemma {:induction false} PastHeld(held: map<string, Time>, from: Time) returns (t: Time)
    ensures from <= t && forall l :: l in held ==> held[l] <= t
    decreases held.Keys
  {
    if held == map[] {
      t := from;
    } else {
      var l :| l in held;
      var rest := PastHeld(held - {l}, from);
      t := Max(rest, held[l]);
      forall k | k in held ensures held[k] <= t {
        if k != l { assert k in held - {l}; }
      }
    }
  }

  lemma RestsUntil(env: Env, w: World, held: map<string, Time>) returns (pre: seq<Action>)
    requires Inv(env, true, w)
    ensures DrainRun(env, w, pre) && AtRest(After(env, w, pre)) && WaitsPassed(env, w, held, After(env, w, pre).now)
  {
    var first := ComesToRest(env, w);
    var mid := After(env, w, first);
    var t1 := AfterAllWaits(env, w.cells, mid.now);
    var t := PastHeld(held, t1);
    forall id | id in mid.cells ensures CallsOutlast(mid.cells[id], t) { NoneFlying(mid.cells[id].calls); }
    Single(env, mid, Tick(t));
    Concat(env, w, first, [Tick(t)]);
    pre := first + [Tick(t)];
  }

  lemma RoundExists(env: Env, s: Setup, w: World, held: map<string, Time>) returns (pre: seq<Action>)
    requires Inv(env, true, w)
    ensures Round(env, s, w, held, pre)
  {
    pre := RestsUntil(env, w, held);
    var mid := After(env, w, pre);
    RunKeepsOps(env, w, pre);
    var reaped := Next(env, mid, Reap);
    var claim := ClaimCycle(OwnQuery(s, reaped, HeldAfter(env, w, held, pre), AllIds(s)));
    Single(env, mid, Reap);
    Single(env, reaped, claim);
    Concat(env, mid, [Reap], [claim]);
    assert [Reap] + [claim] == LastTwo(env, s, mid, HeldAfter(env, w, held, pre));
    Concat(env, w, pre, [Reap] + [claim]);
  }

  lemma {:induction false} RoundsExist(env: Env, s: Setup, w: World, held: map<string, Time>, k: nat) returns (pres: seq<seq<Action>>)
    requires Inv(env, true, w)
    ensures |pres| == k && Rounds(env, s, w, held, pres)
    decreases k
  {
    pres := [];
    if k > 0 {
      var pre := RoundExists(env, s, w, held);
      var acts := RoundOf(env, s, w, held, pre);
      RunKeeps(env, true, w, acts);
      var rest := RoundsExist(env, s, After(env, w, acts), HeldAfter(env, w, held, acts), k - 1);
      pres := [pre] + rest;
      assert pres[1..] == rest;
    }
  }

  // From any reachable table, whatever its dispatcher holds back, rounds of its own
  // claims lead to a table of terminal rows.
  lemma CanDrain(env: Env, s: Setup, w: World, held: map<string, Time>) returns (pres: seq<seq<Action>>)
    requires Inv(env, true, w) && StampsDiffer(w) && Serves(s, w)
    ensures Rounds(env, s, w, held, pres) && Drained(AfterRounds(env, s, w, held, pres))
  {
    pres := RoundsExist(env, s, w, held, TablePotential(env, w));
    DrainTerminates(env, s, w, held, pres);
  }
}
