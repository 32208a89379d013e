// The dispatcher's in-memory state between and during claim cycles: budgets,
// active lanes and backoffs. A cycle is suspended at its store calls, and
// attempts complete at any point in between.
module Dispatching {
  import opened Rows
  import opened ClaimSpec
  import opened Store
  import opened Resolution

  // The resolved settings of one instance.
  datatype Runtime = Runtime(mutationConcurrency: int, batchSlots: int)

  // The local variables of a suspended runCycle.
  datatype Cycle = NoCycle | Computed(available: map<string, Availability>)
    | Asked(available: map<string, Availability>, excluded: set<string>, askedAt: Time)

  datatype Event = Requeued(lane: string, at: Time, delay: int) | Taken(lane: string, at: Time)

  function Get(m: map<string, int>, k: string, default: int): int { if k in m then m[k] else default }

  type Flights = map<nat, Claimed>

  ghost function Of(fl: Flights, i: string): set<nat> {
    set n | n in fl && fl[n].op.instance == i
  }

  ghost function BatchOf(fl: Flights, i: string): set<nat> {
    set n | n in fl && fl[n].op.instance == i && fl[n].op.priority == Batch
  }

  function One(b: bool): nat { if b then 1 else 0 }

  predicate IsOf(c: Claimed, i: string) { c.op.instance == i }
  predicate IsBatchOf(c: Claimed, i: string) { c.op.instance == i && c.op.priority == Batch }

  lemma Added(fl: Flights, n: nat, c: Claimed, i: string)
    requires n !in fl
    ensures |Of(fl[n := c], i)| == |Of(fl, i)| + One(IsOf(c, i))
    ensures |BatchOf(fl[n := c], i)| == |BatchOf(fl, i)| + One(IsBatchOf(c, i))
  {
    assert Of(fl[n := c], i) == if IsOf(c, i) then Of(fl, i) + {n} else Of(fl, i);
    BatchAdded(fl, n, c, i);
  }

  lemma BatchAdded(fl: Flights, n: nat, c: Claimed, i: string)
    requires n !in fl
    ensures |BatchOf(fl[n := c], i)| == |BatchOf(fl, i)| + One(IsBatchOf(c, i))
  {
    assert BatchOf(fl[n := c], i) == if IsBatchOf(c, i) then BatchOf(fl, i) + {n} else BatchOf(fl, i);
  }

  lemma Removed(fl: Flights, n: nat, i: string)
    requires n in fl
    ensures |Of(fl, i)| == |Of(fl - {n}, i)| + One(IsOf(fl[n], i))
    ensures |BatchOf(fl, i)| == |BatchOf(fl - {n}, i)| + One(IsBatchOf(fl[n], i))
  {
    Added(fl - {n}, n, fl[n], i);
    assert (fl - {n})[n := fl[n]] == fl;
  }

  // Rows of one instance, and its batch rows, among the first k claimed.
  function Count(claimed: seq<Claimed>, k: nat, i: string): nat
    requires k <= |claimed|
  {
    if k == 0 then 0 else Count(claimed, k - 1, i) + One(IsOf(claimed[k - 1], i))
  }

  function CountBatch(claimed: seq<Claimed>, k: nat, i: string): nat
    requires k <= |claimed|
  {
    if k == 0 then 0 else CountBatch(claimed, k - 1, i) + One(IsBatchOf(claimed[k - 1], i))
  }

  // What a claim made with these arguments may return.
  ghost predicate FitsOffer(claimed: seq<Claimed>, available: map<string, Availability>, excluded: set<string>) {
    FitsSlots(claimed, available) && FitsLanes(claimed, excluded)
  }

  ghost predicate FitsSlots(claimed: seq<Claimed>, available: map<string, Availability>) {
    && (forall i :: Count(claimed, |claimed|, i) <= (if i in available then available[i].totalFree else 0))
    && (forall i :: CountBatch(claimed, |claimed|, i) <= (if i in available then available[i].batchFree else 0))
  }

  ghost predicate FitsLanes(claimed: seq<Claimed>, excluded: set<string>) {
    && (forall k :: 0 <= k < |claimed| ==> claimed[k].op.laneKey !in excluded)
    && (forall j, k :: 0 <= j < k < |claimed| ==> claimed[j].op.laneKey != claimed[k].op.laneKey)
  }

  // Free slots given what is in flight.
  function Free(r: Runtime, inFlight: int, batchInFlight: int): Availability {
    var totalFree := r.mutationConcurrency - inFlight;
    Availability(Max(0, Min(r.batchSlots - batchInFlight, totalFree)), totalFree)
  }

  // ---- the invariants, on values -----------------------------------------

  // In-flight counters are the true counts, within both budgets.
  ghost predicate Counters(running: map<string, int>, runningBatch: map<string, int>, fl: Flights) {
    forall i {:trigger Get(running, i, 0)} :: Get(running, i, 0) == |Of(fl, i)| && Get(runningBatch, i, 0) == |BatchOf(fl, i)|
  }

  ghost predicate WithinBudgets(runtime: map<string, Runtime>, fl: Flights) {
    forall i {:trigger i in runtime} :: i in runtime ==>
      |Of(fl, i)| <= Max(0, runtime[i].mutationConcurrency) && |BatchOf(fl, i)| <= Max(0, runtime[i].batchSlots)
  }

  ghost predicate HasLane(fl: Flights, l: string) { exists n :: n in fl && fl[n].op.laneKey == l }

  // The active lanes are those of the attempts in flight, one each.
  ghost predicate LanesActive(active: set<string>, fl: Flights) {
    && (forall n :: n in fl ==> fl[n].op.laneKey in active)
    && (forall l :: l in active ==> HasLane(fl, l))
    && (forall m, n :: m in fl && n in fl && m != n ==> fl[m].op.laneKey != fl[n].op.laneKey)
  }

  // A suspended cycle's offer is still free to take.
  ghost predicate OfferStands(runtime: map<string, Runtime>, available: map<string, Availability>, fl: Flights) {
    forall i {:trigger i in available} :: i in available ==>
      && i in runtime
      && |Of(fl, i)| + available[i].totalFree <= runtime[i].mutationConcurrency
      && |BatchOf(fl, i)| + available[i].batchFree <= Max(runtime[i].batchSlots, |BatchOf(fl, i)|)
  }

  // Every backoff of the lane is over by t.
  ghost predicate OverBy(events: seq<Event>, lane: string, t: Time) {
    forall e :: e in events && e.Requeued? && e.lane == lane ==> e.at + e.delay <= t
  }

  // A lane requeued with a backoff is not taken again before it is over.
  ghost predicate BackoffsKept(events: seq<Event>) {
    forall i, j :: 0 <= i < j < |events| && events[i].Requeued? && events[j].Taken? && events[i].lane == events[j].lane ==>
      events[j].at >= events[i].at + events[i].delay
  }

  ghost predicate Spaced(events: seq<Event>, clock: Time, deferred: map<string, Time>) {
    && BackoffsKept(events)
    && forall l :: OverBy(events, l, clock) || (l in deferred && OverBy(events, l, deferred[l]))
  }

  ghost predicate AttemptsDue(events: seq<Event>, clock: Time, fl: Flights, settled: set<nat>) {
    forall n :: n in fl && n !in settled ==> OverBy(events, fl[n].op.laneKey, clock)
  }

  ghost predicate CycleOk(cycle: Cycle, active: set<string>, events: seq<Event>, clock: Time) {
    cycle.Asked? ==>
      && active <= cycle.excluded && cycle.askedAt <= clock
      && forall l :: l !in cycle.excluded ==> OverBy(events, l, cycle.askedAt)
  }

  function OfferOf(ids: seq<string>, runtime: map<string, Runtime>, running: map<string, int>, runningBatch: map<string, int>,
      tokens: set<string>): map<string, Availability>
  {
    map i | i in ids && i in runtime && i in tokens && runtime[i].mutationConcurrency - Get(running, i, 0) > 0
      :: Free(runtime[i], Get(running, i, 0), Get(runningBatch, i, 0))
  }

  ghost function Restricted(m: map<string, Availability>, ks: seq<string>, k: nat): map<string, Availability>
    requires k <= |ks|
  {
    map i | i in m && i in ks[..k] :: m[i]
  }

  // What computeAvailability's loop adds for one instance.
  function OfferMore(out: map<string, Availability>, runtime: map<string, Runtime>, running: map<string, int>,
      runningBatch: map<string, int>, tokens: set<string>, i: string): map<string, Availability>
  {
    if i in runtime && runtime[i].mutationConcurrency - Get(running, i, 0) > 0 && i in tokens
    then out[i := Free(runtime[i], Get(running, i, 0), Get(runningBatch, i, 0))]
    else out
  }

  lemma OfferStep(ids: seq<string>, runtime: map<string, Runtime>, running: map<string, int>, runningBatch: map<string, int>,
      tokens: set<string>, ks: seq<string>, k: nat, out: map<string, Availability>)
    requires k < |ks| && ks[k] in ids && out == Restricted(OfferOf(ids, runtime, running, runningBatch, tokens), ks, k)
    ensures Restricted(OfferOf(ids, runtime, running, runningBatch, tokens), ks, k + 1)
         == OfferMore(out, runtime, running, runningBatch, tokens, ks[k])
  {
    assert ks[..k + 1] == ks[..k] + [ks[k]];
  }

  lemma RestrictedAll(m: map<string, Availability>, ks: seq<string>)
    requires forall i :: i in m ==> i in ks
    ensures Restricted(m, ks, |ks|) == m
  {
    assert ks[..|ks|] == ks;
  }

  function Rotate(ids: seq<string>, offset: nat): (r: seq<string>)
    requires offset <= |ids|
    ensures |r| == |ids| && forall i :: i in ids <==> i in r
  {
    assert ids == ids[..offset] + ids[offset..];
    ids[offset..] + ids[..offset]
  }

  class Dispatcher {
    const ids: seq<string>
    const runtime: map<string, Runtime>
    var activeLanes: set<string>
    var running: map<string, int>
    var runningBatch: map<string, int>
    var laneDeferredUntil: map<string, Time>
    var roundRobinCursor: nat
    var cycle: Cycle
    var inFlight: Flights
    var settled: set<nat>
    var nextTicket: nat
    ghost var clock: Time
    ghost var events: seq<Event>

    // Counters are true and budgets held, whatever the lanes of the claims were.
    ghost predicate Budgeted()
      reads this
    {
      && Counters(running, runningBatch, inFlight) && WithinBudgets(runtime, inFlight)
      && (forall n :: n in inFlight ==> n < nextTicket) && settled <= inFlight.Keys
      && (!cycle.NoCycle? ==> OfferStands(runtime, cycle.available, inFlight))
    }

    // One attempt a lane, and every backoff respected.
    ghost predicate Orderly()
      reads this
    {
      && LanesActive(activeLanes, inFlight) && CycleOk(cycle, activeLanes, events, clock)
      && Spaced(events, clock, laneDeferredUntil) && AttemptsDue(events, clock, inFlight, settled)
    }

    ghost predicate Valid()
      reads this
    {
      Budgeted() && Orderly()
    }

    constructor (ids: seq<string>, runtime: map<string, Runtime>)
      ensures Valid() && this.ids == ids && this.runtime == runtime
      ensures inFlight == map[] && events == [] && cycle == NoCycle
    {
      this.ids, this.runtime := ids, runtime;
      activeLanes, running, runningBatch, laneDeferredUntil := {}, map[], map[], map[];
      roundRobinCursor, cycle, inFlight, settled, nextTicket := 0, NoCycle, map[], {}, 0;
      clock, events := 0, [];
    }

    // computeAvailability as a function of the counters: the rotation changes nothing.
    function Offer(tokens: set<string>): map<string, Availability>
      reads this
    {
      OfferOf(ids, runtime, running, runningBatch, tokens)
    }

    method ComputeAvailability(tokens: set<string>) returns (out: map<string, Availability>)
      modifies this`roundRobinCursor
      ensures out == Offer(tokens)
    {
      out := map[];
      if |ids| == 0 { return; }
      ghost var offer := Offer(tokens);
      var ordered := Rotate(ids, roundRobinCursor % |ids|);
      roundRobinCursor := roundRobinCursor + 1;
      var k := 0;
      while k < |ordered|
        invariant k <= |ordered|
        invariant out == Restricted(offer, ordered, k)
      {
        var i := ordered[k];
        OfferStep(ids, runtime, running, runningBatch, tokens, ordered, k, out);
        out := OfferMore(out, runtime, running, runningBatch, tokens, i);
        k := k + 1;
      }
      RestrictedAll(offer, ordered);
    }

    // The first part of runCycle. A cycle under way is not overlapped.
    method StartCycle(tokens: set<string>) returns (started: bool)
      requires Budgeted()
      modifies this`roundRobinCursor, this`cycle
      ensures Budgeted() && (old(Orderly()) ==> Orderly())
      ensures started <==> old(cycle).NoCycle? && Offer(tokens) != map[]
      ensures cycle == if started then Computed(Offer(tokens)) else old(cycle)
    {
      if !cycle.NoCycle? { return false; }
      var available := ComputeAvailability(tokens);
      if available == map[] { return false; }
      OfferIsFree(tokens);
      cycle := Computed(available);
      started := true;
    }

    lemma OfferIsFree(tokens: set<string>)
      requires Budgeted()
      ensures OfferStands(runtime, Offer(tokens), inFlight)
    {
      forall i | i in Offer(tokens)
        ensures |Of(inFlight, i)| + Offer(tokens)[i].totalFree <= runtime[i].mutationConcurrency
        ensures |BatchOf(inFlight, i)| + Offer(tokens)[i].batchFree <= Max(runtime[i].batchSlots, |BatchOf(inFlight, i)|)
      {
        assert Get(running, i, 0) == |Of(inFlight, i)| && Get(runningBatch, i, 0) == |BatchOf(inFlight, i)|;
      }
    }

    method ForgetBackoffs(now: Time)
      modifies this`laneDeferredUntil
      ensures laneDeferredUntil == map l | l in old(laneDeferredUntil) && now < old(laneDeferredUntil)[l] :: old(laneDeferredUntil)[l]
    {
      var todo := laneDeferredUntil.Keys;
      ghost var before := laneDeferredUntil;
      while todo != {}
        invariant todo <= before.Keys
        invariant laneDeferredUntil == map l | l in before && (l in todo || now < before[l]) :: before[l]
        decreases todo
      {
        var l :| l in todo;
        todo := todo - {l};
        if now >= laneDeferredUntil[l] {
          laneDeferredUntil := laneDeferredUntil - {l};
        }
      }
    }

    // excludedLanes, as the claim is sent: backoffs that are over are forgotten.
    method ExcludedLanes(now: Time) returns (excluded: set<string>)
      requires Budgeted() && cycle.Computed? && clock <= now
      modifies this`laneDeferredUntil, this`cycle, this`clock
      ensures Budgeted() && (old(Orderly()) ==> Orderly()) && clock == now
      ensures laneDeferredUntil == map l | l in old(laneDeferredUntil) && now < old(laneDeferredUntil)[l] :: old(laneDeferredUntil)[l]
      ensures excluded == activeLanes + laneDeferredUntil.Keys
      ensures cycle == Asked(old(cycle).available, excluded, now)
    {
      ghost var orderly, before := Orderly(), laneDeferredUntil;
      ForgetBackoffs(now);
      if orderly {
        LaterOk(events, clock, before, inFlight, settled, now);
        ForgottenOk(events, clock, before, laneDeferredUntil, now);
      }
      excluded := activeLanes + laneDeferredUntil.Keys;
      clock := now;
      cycle := Asked(cycle.available, excluded, now);
    }

    // The claim failed: the cycle is abandoned.
    method AbandonCycle()
      requires Budgeted()
      modifies this`cycle
      ensures Budgeted() && (old(Orderly()) ==> Orderly()) && cycle == NoCycle
    {
      cycle := NoCycle;
    }

    // The claimed rows start their attempts.
    method Launch(claimed: seq<Claimed>, now: Time)
      requires Counters(running, runningBatch, inFlight) && forall n :: n in inFlight ==> n < nextTicket
      modifies this`nextTicket, this`inFlight, this`activeLanes, this`events, this`running, this`runningBatch
      ensures nextTicket == old(nextTicket) + |claimed|
      ensures inFlight == Launched(old(inFlight), old(nextTicket), claimed, |claimed|)
      ensures activeLanes == LanesAfter(old(activeLanes), claimed, |claimed|)
      ensures events == old(events) + TakenAll(claimed, |claimed|, now)
      ensures Counters(running, runningBatch, inFlight)
    {
      ghost var fl0, lanes0, events0, n0 := inFlight, activeLanes, events, nextTicket;
      var k := 0;
      while k < |claimed|
        invariant k <= |claimed| && nextTicket == n0 + k
        invariant inFlight == Launched(fl0, n0, claimed, k)
        invariant activeLanes == LanesAfter(lanes0, claimed, k)
        invariant events == events0 + TakenAll(claimed, k, now)
        invariant Counters(running, runningBatch, inFlight)
      {
        var c := claimed[k];
        var i := c.op.instance;
        LaunchedTickets(fl0, n0, claimed, k);
        CountersAdded(running, runningBatch, inFlight, nextTicket, c);
        activeLanes := activeLanes + {c.op.laneKey};
        running := Bump(running, i, 1);
        if c.op.priority == Batch {
          runningBatch := Bump(runningBatch, i, 1);
        }
        inFlight := inFlight[nextTicket := c];
        events := events + [Taken(c.op.laneKey, now)];
        nextTicket := nextTicket + 1;
        k := k + 1;
      }
    }

    lemma SlotsLast(claimed: seq<Claimed>)
      requires Budgeted() && cycle.Asked? && FitsSlots(claimed, cycle.available)
      ensures var fl := Launched(inFlight, nextTicket, claimed, |claimed|);
        WithinBudgets(runtime, fl) && (forall m :: m in fl ==> m < nextTicket + |claimed|) && settled <= fl.Keys
    {
      LaunchedBudgets(runtime, cycle.available, inFlight, nextTicket, claimed);
      LaunchedTickets(inFlight, nextTicket, claimed, |claimed|);
    }

    lemma StaysOrderly(claimed: seq<Claimed>, now: Time)
      requires Valid() && cycle.Asked? && clock <= now && FitsLanes(claimed, cycle.excluded)
      ensures var fl, log := Launched(inFlight, nextTicket, claimed, |claimed|), events + TakenAll(claimed, |claimed|, now);
        && LanesActive(LanesAfter(activeLanes, claimed, |claimed|), fl)
        && Spaced(log, now, laneDeferredUntil) && AttemptsDue(log, now, fl, settled)
    {
      FinishOk(activeLanes, events, clock, laneDeferredUntil, cycle, inFlight, settled, nextTicket, claimed, now);
    }

    // The rest of runCycle, when the claim comes back. Budgets need only its slots to
    // fit; one attempt a lane needs its lanes to fit as well.
    method FinishCycle(claimed: seq<Claimed>, now: Time)
      requires Budgeted() && cycle.Asked? && clock <= now && FitsSlots(claimed, cycle.available)
      modifies this
      ensures Budgeted() && (old(Orderly()) && FitsLanes(claimed, old(cycle).excluded) ==> Orderly())
      ensures cycle == NoCycle && clock == now && nextTicket == old(nextTicket) + |claimed|
      ensures inFlight == Launched(old(inFlight), old(nextTicket), claimed, |claimed|)
      ensures activeLanes == LanesAfter(old(activeLanes), claimed, |claimed|)
      ensures events == old(events) + TakenAll(claimed, |claimed|, now)
      ensures settled == old(settled) && laneDeferredUntil == old(laneDeferredUntil)
    {
      SlotsLast(claimed);
      if Orderly() && FitsLanes(claimed, cycle.excluded) { StaysOrderly(claimed, now); }
      Launch(claimed, now);
      clock := now;
      cycle := NoCycle;
    }

    // finalize(): a requeue with a delay holds the lane before the row goes back.
    method Settle(n: nat, r: Resolution, now: Time)
      requires Budgeted() && n in inFlight && n !in settled && clock <= now
      modifies this`laneDeferredUntil, this`settled, this`clock, this`events
      ensures Budgeted() && (old(Orderly()) ==> Orderly()) && clock == now && settled == old(settled) + {n}
      ensures var l := inFlight[n].op.laneKey;
        if r.Requeue? && r.delay > 0
        then laneDeferredUntil == old(laneDeferredUntil)[l := now + r.delay] && events == old(events) + [Requeued(l, now, r.delay)]
        else laneDeferredUntil == old(laneDeferredUntil) && events == old(events)
    {
      ghost var l := inFlight[n].op.laneKey;
      if r.Requeue? && r.delay > 0 {
        if Orderly() {
          SettleOk(this.events, this.clock, laneDeferredUntil, inFlight, settled, n, now, r.delay);
          CycleSettled(cycle, activeLanes, events, clock, l, now, r.delay);
        }
        laneDeferredUntil := laneDeferredUntil[inFlight[n].op.laneKey := now + r.delay];
        events := events + [Requeued(l, now, r.delay)];
      } else if Orderly() {
        LaterOk(events, clock, laneDeferredUntil, inFlight, settled, now);
      }
      settled := settled + {n};
      clock := now;
    }

    // The counters are never below one here, so the guards never act.
    method LowerCounters(c: Claimed)
      requires Get(running, c.op.instance, 0) >= 1 && (c.op.priority == Batch ==> Get(runningBatch, c.op.instance, 0) >= 1)
      modifies this`running, this`runningBatch
      ensures running == Bump(old(running), c.op.instance, -1)
      ensures runningBatch == if c.op.priority == Batch then Bump(old(runningBatch), c.op.instance, -1) else old(runningBatch)
    {
      var i := c.op.instance;
      running := running[i := Max(0, Get(running, i, 1) - 1)];
      if c.op.priority == Batch {
        runningBatch := runningBatch[i := Max(0, Get(runningBatch, i, 1) - 1)];
      }
    }

    lemma SlotFreed(n: nat)
      requires Budgeted() && n in inFlight
      ensures var c, fl := inFlight[n], inFlight - {n};
        && Get(running, c.op.instance, 0) >= 1 && (c.op.priority == Batch ==> Get(runningBatch, c.op.instance, 0) >= 1)
        && Counters(Bump(running, c.op.instance, -1),
             if c.op.priority == Batch then Bump(runningBatch, c.op.instance, -1) else runningBatch, fl)
        && WithinBudgets(runtime, fl) && (!cycle.NoCycle? ==> OfferStands(runtime, cycle.available, fl))
        && (forall m :: m in fl ==> m < nextTicket) && settled - {n} <= fl.Keys
    {
      CountersRemoved(running, runningBatch, inFlight, n);
      FewerFlights(inFlight, n);
      if !cycle.NoCycle? { OfferStandsStill(runtime, cycle.available, inFlight, n); }
    }

    lemma LaneFreed(n: nat)
      requires n in inFlight
      ensures var active, fl := activeLanes - {inFlight[n].op.laneKey}, inFlight - {n};
        Orderly() ==>
        && LanesActive(active, fl) && CycleOk(cycle, active, events, clock)
        && Spaced(events, clock, laneDeferredUntil) && AttemptsDue(events, clock, fl, settled - {n})
    {
      if Orderly() { LaneRemoved(activeLanes, inFlight, n); }
    }

    // The attempt's finally block.
    method Release(n: nat)
      requires Budgeted() && n in inFlight && n in settled
      modifies this`activeLanes, this`running, this`runningBatch, this`inFlight, this`settled
      ensures Budgeted() && (old(Orderly()) ==> Orderly())
      ensures inFlight == old(inFlight) - {n} && settled == old(settled) - {n}
      ensures activeLanes == old(activeLanes) - {old(inFlight)[n].op.laneKey}
      ensures running == Bump(old(running), old(inFlight)[n].op.instance, -1)
      ensures runningBatch == if old(inFlight)[n].op.priority == Batch
        then Bump(old(runningBatch), old(inFlight)[n].op.instance, -1) else old(runningBatch)
    {
      var c := inFlight[n];
      SlotFreed(n);
      LaneFreed(n);
      activeLanes := activeLanes - {c.op.laneKey};
      LowerCounters(c);
      inFlight := inFlight - {n};
      settled := settled - {n};
    }
  }

  ghost function Launched(fl: Flights, n: nat, claimed: seq<Claimed>, k: nat): Flights
    requires k <= |claimed|
  {
    if k == 0 then fl else Launched(fl, n, claimed, k - 1)[n + k - 1 := claimed[k - 1]]
  }

  ghost function TakenAll(claimed: seq<Claimed>, k: nat, now: Time): seq<Event>
    requires k <= |claimed|
  {
    if k == 0 then [] else TakenAll(claimed, k - 1, now) + [Taken(claimed[k - 1].op.laneKey, now)]
  }

  // What starting the claimed rows adds: a ticket each, in order, and an entry in the log.
  lemma {:induction false} LaunchAddsEach(fl: Flights, n: nat, claimed: seq<Claimed>, k: nat, now: Time)
    requires k <= |claimed| && forall m :: m in fl ==> m < n
    ensures forall m :: m in Launched(fl, n, claimed, k) <==> m in fl || n <= m < n + k
    ensures forall m :: m in fl ==> Launched(fl, n, claimed, k)[m] == fl[m]
    ensures forall j :: 0 <= j < k ==> Launched(fl, n, claimed, k)[n + j] == claimed[j]
    ensures |TakenAll(claimed, k, now)| == k
    ensures forall j :: 0 <= j < k ==> TakenAll(claimed, k, now)[j] == Taken(claimed[j].op.laneKey, now)
  {
    if k > 0 { LaunchAddsEach(fl, n, claimed, k - 1, now); }
  }

  lemma LaunchedBelow(fl: Flights, n: nat, claimed: seq<Claimed>, k: nat)
    requires k <= |claimed| && forall m :: m in fl ==> m < n
    ensures n + k !in Launched(fl, n, claimed, k)
  {
    LaunchedTickets(fl, n, claimed, k);
  }

  lemma {:induction false} LaunchedTickets(fl: Flights, n: nat, claimed: seq<Claimed>, k: nat)
    requires k <= |claimed| && forall m :: m in fl ==> m < n
    ensures forall m :: m in Launched(fl, n, claimed, k) ==> m < n + k
    ensures fl.Keys <= Launched(fl, n, claimed, k).Keys
    ensures forall m :: m in Launched(fl, n, claimed, k) ==>
      if m < n then m in fl && Launched(fl, n, claimed, k)[m] == fl[m] else Launched(fl, n, claimed, k)[m] == claimed[m - n]
  {
    if k > 0 { LaunchedTickets(fl, n, claimed, k - 1); }
  }

  lemma {:induction false} LaunchedCounts(fl: Flights, n: nat, claimed: seq<Claimed>, k: nat, i: string)
    requires k <= |claimed| && forall m :: m in fl ==> m < n
    ensures |Of(Launched(fl, n, claimed, k), i)| == |Of(fl, i)| + Count(claimed, k, i)
    ensures |BatchOf(Launched(fl, n, claimed, k), i)| == |BatchOf(fl, i)| + CountBatch(claimed, k, i)
  {
    if k > 0 {
      LaunchedCounts(fl, n, claimed, k - 1, i);
      LaunchedTickets(fl, n, claimed, k - 1);
      Added(Launched(fl, n, claimed, k - 1), n + k - 1, claimed[k - 1], i);
    }
  }

  lemma CountersAdded(running: map<string, int>, runningBatch: map<string, int>, fl: Flights, n: nat, c: Claimed)
    requires Counters(running, runningBatch, fl) && n !in fl
    ensures Counters(Bump(running, c.op.instance, 1),
      if c.op.priority == Batch then Bump(runningBatch, c.op.instance, 1) else runningBatch, fl[n := c])
  {
    forall j ensures Get(Bump(running, c.op.instance, 1), j, 0) == |Of(fl[n := c], j)|
      && Get(if c.op.priority == Batch then Bump(runningBatch, c.op.instance, 1) else runningBatch, j, 0) == |BatchOf(fl[n := c], j)|
    {
      Added(fl, n, c, j);
      assert Get(running, j, 0) == |Of(fl, j)| && Get(runningBatch, j, 0) == |BatchOf(fl, j)|;
    }
  }

  function Bump(m: map<string, int>, k: string, d: int): map<string, int> { m[k := Get(m, k, 0) + d] }

  lemma CountersRemoved(running: map<string, int>, runningBatch: map<string, int>, fl: Flights, n: nat)
    requires Counters(running, runningBatch, fl) && n in fl
    ensures var i := fl[n].op.instance;
      && Get(running, i, 0) >= 1 && (fl[n].op.priority == Batch ==> Get(runningBatch, i, 0) >= 1)
    ensures Counters(Bump(running, fl[n].op.instance, -1),
      if fl[n].op.priority == Batch then Bump(runningBatch, fl[n].op.instance, -1) else runningBatch, fl - {n})
  {
    var i := fl[n].op.instance;
    Removed(fl, n, i);
    assert Get(running, i, 0) == |Of(fl, i)| && Get(runningBatch, i, 0) == |BatchOf(fl, i)|;
    forall j ensures Get(Bump(running, i, -1), j, 0) == |Of(fl - {n}, j)|
      && Get(if fl[n].op.priority == Batch then Bump(runningBatch, i, -1) else runningBatch, j, 0) == |BatchOf(fl - {n}, j)|
    {
      Removed(fl, n, j);
      assert Get(running, j, 0) == |Of(fl, j)| && Get(runningBatch, j, 0) == |BatchOf(fl, j)|;
    }
  }

  // A claim that fits the offer keeps both budgets and one attempt a lane.
  lemma LaunchedBudgets(runtime: map<string, Runtime>, available: map<string, Availability>, fl: Flights, n: nat, claimed: seq<Claimed>)
    requires WithinBudgets(runtime, fl) && OfferStands(runtime, available, fl) && forall m :: m in fl ==> m < n
    requires forall i :: Count(claimed, |claimed|, i) <= (if i in available then available[i].totalFree else 0)
    requires forall i :: CountBatch(claimed, |claimed|, i) <= (if i in available then available[i].batchFree else 0)
    ensures WithinBudgets(runtime, Launched(fl, n, claimed, |claimed|))
  {
    forall i | i in runtime
      ensures |Of(Launched(fl, n, claimed, |claimed|), i)| <= Max(0, runtime[i].mutationConcurrency)
      ensures |BatchOf(Launched(fl, n, claimed, |claimed|), i)| <= Max(0, runtime[i].batchSlots)
    {
      LaunchedCounts(fl, n, claimed, |claimed|, i);
    }
  }

  ghost function LanesAfter(active: set<string>, claimed: seq<Claimed>, k: nat): set<string>
    requires k <= |claimed|
  {
    if k == 0 then active else LanesAfter(active, claimed, k - 1) + {claimed[k - 1].op.laneKey}
  }

  lemma {:induction false} LanesAfterMember(active: set<string>, claimed: seq<Claimed>, k: nat, l: string)
    requires k <= |claimed|
    ensures l in LanesAfter(active, claimed, k) <==> l in active || exists j :: 0 <= j < k && claimed[j].op.laneKey == l
  {
    if k > 0 { LanesAfterMember(active, claimed, k - 1, l); }
  }

  lemma LaneIsNew(active: set<string>, claimed: seq<Claimed>, k: nat)
    requires k < |claimed| && claimed[k].op.laneKey !in active
    requires forall i :: 0 <= i < k ==> claimed[i].op.laneKey != claimed[k].op.laneKey
    ensures claimed[k].op.laneKey !in LanesAfter(active, claimed, k)
  {
    LanesAfterMember(active, claimed, k, claimed[k].op.laneKey);
  }

  ghost predicate AllNew(active: set<string>, claimed: seq<Claimed>, k: nat)
    requires k <= |claimed|
  {
    k == 0 || (AllNew(active, claimed, k - 1) && claimed[k - 1].op.laneKey !in LanesAfter(active, claimed, k - 1))
  }

  lemma {:induction false} AllAreNew(active: set<string>, claimed: seq<Claimed>, k: nat)
    requires k <= |claimed| && forall j :: 0 <= j < |claimed| ==> claimed[j].op.laneKey !in active
    requires forall i, j :: 0 <= i < j < |claimed| ==> claimed[i].op.laneKey != claimed[j].op.laneKey
    ensures AllNew(active, claimed, k)
  {
    if k > 0 {
      AllAreNew(active, claimed, k - 1);
      LaneIsNew(active, claimed, k - 1);
    }
  }

  lemma {:induction false} LaunchedLanes(active: set<string>, fl: Flights, n: nat, claimed: seq<Claimed>, k: nat)
    requires LanesActive(active, fl) && k <= |claimed| && forall m :: m in fl ==> m < n
    requires AllNew(active, claimed, k)
    ensures LanesActive(LanesAfter(active, claimed, k), Launched(fl, n, claimed, k))
  {
    if k > 0 {
      LaunchedLanes(active, fl, n, claimed, k - 1);
      LaunchedBelow(fl, n, claimed, k - 1);
      LaneAdded(LanesAfter(active, claimed, k - 1), Launched(fl, n, claimed, k - 1), n + k - 1, claimed[k - 1]);
    }
  }

  lemma LaneAdded(active: set<string>, fl: Flights, n: nat, c: Claimed)
    requires LanesActive(active, fl) && n !in fl && c.op.laneKey !in active
    ensures LanesActive(active + {c.op.laneKey}, fl[n := c])
  {
    forall l | l in active + {c.op.laneKey} ensures HasLane(fl[n := c], l) {
      if l in active {
        var m :| m in fl && fl[m].op.laneKey == l;
        assert fl[n := c][m].op.laneKey == l;
      } else {
        assert fl[n := c][n].op.laneKey == l;
      }
    }
  }

  lemma LaneRemoved(active: set<string>, fl: Flights, n: nat)
    requires LanesActive(active, fl) && n in fl
    ensures LanesActive(active - {fl[n].op.laneKey}, fl - {n})
  {
    forall l | l in active - {fl[n].op.laneKey} ensures HasLane(fl - {n}, l) {
      var m :| m in fl && fl[m].op.laneKey == l;
      assert (fl - {n})[m].op.laneKey == l;
    }
  }

  // ---- the event log -----------------------------------------------------

  lemma OverByMore(events: seq<Event>, e: Event, l: string, t: Time)
    ensures OverBy(events + [e], l, t) <==> OverBy(events, l, t) && (e.Requeued? && e.lane == l ==> e.at + e.delay <= t)
  {
    assert e in events + [e];
    forall x | x in events ensures x in events + [e] { }
  }

  lemma KeptMore(events: seq<Event>, e: Event)
    requires BackoffsKept(events) && (e.Taken? ==> OverBy(events, e.lane, e.at))
    ensures BackoffsKept(events + [e])
  {
  }

  lemma {:induction false} TakenKeeps(events: seq<Event>, claimed: seq<Claimed>, k: nat, now: Time)
    requires BackoffsKept(events) && k <= |claimed|
    requires forall j :: 0 <= j < |claimed| ==> OverBy(events, claimed[j].op.laneKey, now)
    ensures BackoffsKept(events + TakenAll(claimed, k, now))
    ensures forall l, t :: OverBy(events + TakenAll(claimed, k, now), l, t) <==> OverBy(events, l, t)
  {
    if k == 0 {
      assert events + [] == events;
    } else {
      TakenKeeps(events, claimed, k - 1, now);
      var before, e := events + TakenAll(claimed, k - 1, now), Taken(claimed[k - 1].op.laneKey, now);
      assert events + TakenAll(claimed, k, now) == before + [e];
      KeptMore(before, e);
      forall l, t ensures OverBy(before + [e], l, t) <==> OverBy(before, l, t) { OverByMore(before, e, l, t); }
    }
  }

  // What a settled requeue leaves of the backoff invariants.
  lemma SettleOk(events: seq<Event>, clock: Time, deferred: map<string, Time>, fl: Flights, settled: set<nat>,
      n: nat, now: Time, delay: int)
    requires Spaced(events, clock, deferred) && AttemptsDue(events, clock, fl, settled) && clock <= now && delay > 0
    requires n in fl && n !in settled && forall m :: m in fl && m != n ==> fl[m].op.laneKey != fl[n].op.laneKey
    ensures var l := fl[n].op.laneKey; var events' := events + [Requeued(l, now, delay)];
      Spaced(events', now, deferred[l := now + delay]) && AttemptsDue(events', now, fl, settled + {n})
  {
    var l, e := fl[n].op.laneKey, Requeued(fl[n].op.laneKey, now, delay);
    KeptMore(events, e);
    forall x, t ensures OverBy(events + [e], x, t) <==> OverBy(events, x, t) && (x == l ==> now + delay <= t) {
      OverByMore(events, e, x, t);
    }
    assert OverBy(events, l, now + delay);
  }

  lemma LaterOk(events: seq<Event>, clock: Time, deferred: map<string, Time>, fl: Flights, settled: set<nat>, now: Time)
    requires Spaced(events, clock, deferred) && AttemptsDue(events, clock, fl, settled) && clock <= now
    ensures Spaced(events, now, deferred) && AttemptsDue(events, now, fl, settled)
  {
  }

  lemma ForgottenOk(events: seq<Event>, clock: Time, before: map<string, Time>, after: map<string, Time>, now: Time)
    requires Spaced(events, clock, before) && clock <= now
    requires forall l :: l in before && now < before[l] ==> l in after && after[l] == before[l]
    ensures Spaced(events, now, after) && forall l :: l !in after ==> OverBy(events, l, now)
  {
    forall l ensures OverBy(events, l, now) || (l in after && OverBy(events, l, after[l])) {
      if !OverBy(events, l, clock) { assert l in before && OverBy(events, l, before[l]); }
    }
    forall l | l !in after ensures OverBy(events, l, now) {
      if !OverBy(events, l, clock) { assert l in before && OverBy(events, l, before[l]); }
    }
  }

  lemma CycleSettled(cycle: Cycle, active: set<string>, events: seq<Event>, clock: Time, lane: string, now: Time, delay: int)
    requires CycleOk(cycle, active, events, clock) && clock <= now && lane in active
    ensures CycleOk(cycle, active, events + [Requeued(lane, now, delay)], now)
  {
    if cycle.Asked? {
      forall l | l !in cycle.excluded ensures OverBy(events + [Requeued(lane, now, delay)], l, cycle.askedAt) {
        OverByMore(events, Requeued(lane, now, delay), l, cycle.askedAt);
      }
    }
  }

  lemma FewerFlights(fl: Flights, n: nat)
    requires n in fl
    ensures forall i :: |Of(fl, i)| >= |Of(fl - {n}, i)| && |BatchOf(fl, i)| >= |BatchOf(fl - {n}, i)|
  {
    forall i ensures |Of(fl, i)| >= |Of(fl - {n}, i)| && |BatchOf(fl, i)| >= |BatchOf(fl - {n}, i)| { Removed(fl, n, i); }
  }

  lemma OfferStandsStill(runtime: map<string, Runtime>, available: map<string, Availability>, fl: Flights, n: nat)
    requires OfferStands(runtime, available, fl) && n in fl
    ensures OfferStands(runtime, available, fl - {n})
  {
    FewerFlights(fl, n);
  }

  lemma TakenOk(events: seq<Event>, clock: Time, deferred: map<string, Time>, cycle: Cycle, fl: Flights, settled: set<nat>,
      n: nat, claimed: seq<Claimed>, now: Time)
    requires Spaced(events, clock, deferred) && AttemptsDue(events, clock, fl, settled) && clock <= now && cycle.Asked?
    requires cycle.askedAt <= clock && forall l :: l !in cycle.excluded ==> OverBy(events, l, cycle.askedAt)
    requires forall k :: 0 <= k < |claimed| ==> claimed[k].op.laneKey !in cycle.excluded
    requires forall m :: m in fl ==> m < n
    ensures var events' := events + TakenAll(claimed, |claimed|, now);
      Spaced(events', now, deferred) && AttemptsDue(events', now, Launched(fl, n, claimed, |claimed|), settled)
  {
    LaterOk(events, clock, deferred, fl, settled, now);
    TakenKeeps(events, claimed, |claimed|, now);
    LaunchedTickets(fl, n, claimed, |claimed|);
  }

  lemma FinishOk(active: set<string>, events: seq<Event>, clock: Time, deferred: map<string, Time>, cycle: Cycle, fl: Flights,
      settled: set<nat>, n: nat, claimed: seq<Claimed>, now: Time)
    requires LanesActive(active, fl) && CycleOk(cycle, active, events, clock)
    requires Spaced(events, clock, deferred) && AttemptsDue(events, clock, fl, settled) && clock <= now && cycle.Asked?
    requires FitsLanes(claimed, cycle.excluded) && forall m :: m in fl ==> m < n
    ensures var fl' := Launched(fl, n, claimed, |claimed|);
      && LanesActive(LanesAfter(active, claimed, |claimed|), fl')
      && Spaced(events + TakenAll(claimed, |claimed|, now), now, deferred)
      && AttemptsDue(events + TakenAll(claimed, |claimed|, now), now, fl', settled)
  {
    AllAreNew(active, claimed, |claimed|);
    LaunchedLanes(active, fl, n, claimed, |claimed|);
    TakenOk(events, clock, deferred, cycle, fl, settled, n, claimed, now);
  }
}
