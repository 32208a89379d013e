// The dispatcher and the claim together: a claim made with the dispatcher's
// offer fits it, and the reserved slice reaches interactive work.
module DispatchTheorems {
  import opened Options
  import opened Rows
  import opened ClaimSpec
  import opened ClaimRanks
  import opened ClaimTheorems
  import opened Store
  import opened Scheduling
  import opened Dispatching
  import opened Resolution
  import Protocol
  import CellLaws
  import MemoryStore

  // The ids of one instance, or of its batch rows, among the first k claimed.
  ghost function IdsOf(claimed: seq<Claimed>, k: nat, i: string, batchOnly: bool): set<Id>
    requires k <= |claimed|
  {
    set c | c in claimed[..k] && (if batchOnly then IsBatchOf(c, i) else IsOf(c, i)) :: c.id
  }

  ghost predicate DistinctIds(claimed: seq<Claimed>) {
    forall j, k :: 0 <= j < k < |claimed| ==> claimed[j].id != claimed[k].id
  }

  lemma {:induction false} CountsAreIds(claimed: seq<Claimed>, k: nat, i: string)
    requires DistinctIds(claimed) && k <= |claimed|
    ensures Count(claimed, k, i) == |IdsOf(claimed, k, i, false)|
    ensures CountBatch(claimed, k, i) == |IdsOf(claimed, k, i, true)|
  {
    if k > 0 {
      CountsAreIds(claimed, k - 1, i);
      IdsStep(claimed, k - 1, i, false);
      IdsStep(claimed, k - 1, i, true);
    }
  }

  lemma IdsStep(claimed: seq<Claimed>, k: nat, i: string, batchOnly: bool)
    requires DistinctIds(claimed) && k < |claimed|
    ensures var c, s := claimed[k], IdsOf(claimed, k, i, batchOnly);
      |IdsOf(claimed, k + 1, i, batchOnly)| == |s| + One(if batchOnly then IsBatchOf(c, i) else IsOf(c, i))
  {
    var c, s := claimed[k], IdsOf(claimed, k, i, batchOnly);
    assert claimed[..k + 1] == claimed[..k] + [c];
    assert IdsOf(claimed, k + 1, i, batchOnly) == if (if batchOnly then IsBatchOf(c, i) else IsOf(c, i)) then s + {c.id} else s;
    assert c.id !in s by {
      forall d | d in claimed[..k] ensures d.id != c.id { var j :| 0 <= j < k && claimed[j] == d; }
    }
  }

  // The offers computeAvailability makes.
  ghost predicate ProperOffer(available: map<string, Availability>) {
    forall i :: i in available ==> 0 <= available[i].batchFree <= available[i].totalFree && 0 < available[i].totalFree
  }

  // Some of the picked rows, each once: what a claim returns when other replicas hold
  // the locks on the rest.
  ghost predicate SomeOf(t: Table, picked: set<Id>, claimed: seq<Claimed>) {
    DistinctIds(claimed) && forall c :: c in claimed ==> c.id in picked && c.id in t && HandsOver(c, t[c.id])
  }

  // Whatever a claim made with an offer returns fits the offer's slots, so that budgets
  // are held on every table; its lanes fit exactly when it returns no lane key twice.
  lemma ClaimFitsOffer(t: Table, q: Query, claimed: seq<Claimed>)
    requires DistinctStamps(t) && ProperOffer(q.available) && SomeOf(t, PickedSet(t, q), claimed)
    ensures FitsSlots(claimed, q.available)
    ensures FitsLanes(claimed, q.active) <==> MemoryStore.LanesApart(t, MemoryStore.IdsIn(claimed))
  {
    forall i
      ensures Count(claimed, |claimed|, i) <= (if i in q.available then q.available[i].totalFree else 0)
      ensures CountBatch(claimed, |claimed|, i) <= (if i in q.available then q.available[i].batchFree else 0)
    {
      InstanceFits(t, q, claimed, i);
    }
    forall k | 0 <= k < |claimed| ensures claimed[k].op.laneKey !in q.active {
      assert claimed[k] in claimed;
      assert Picked(t, q, claimed[k].id);
    }
    DistinctLanes(t, PickedSet(t, q), claimed);
  }

  lemma DistinctLanes(t: Table, picked: set<Id>, claimed: seq<Claimed>)
    requires SomeOf(t, picked, claimed)
    ensures MemoryStore.LanesApart(t, MemoryStore.IdsIn(claimed)) <==>
      forall j, k :: 0 <= j < k < |claimed| ==> claimed[j].op.laneKey != claimed[k].op.laneKey
  {
    if MemoryStore.LanesApart(t, MemoryStore.IdsIn(claimed)) {
      forall j, k | 0 <= j < k < |claimed| ensures claimed[j].op.laneKey != claimed[k].op.laneKey {
        assert claimed[j] in claimed && claimed[k] in claimed;
        assert claimed[j].id in MemoryStore.IdsIn(claimed) && claimed[k].id in MemoryStore.IdsIn(claimed);
      }
    }
    if forall j, k :: 0 <= j < k < |claimed| ==> claimed[j].op.laneKey != claimed[k].op.laneKey {
      forall a, b | a in MemoryStore.IdsIn(claimed) && b in MemoryStore.IdsIn(claimed) && a != b
        ensures t[a].op.laneKey != t[b].op.laneKey
      {
        var c :| c in claimed && c.id == a;
        var d :| d in claimed && d.id == b;
        var j :| 0 <= j < |claimed| && claimed[j] == c;
        var k :| 0 <= k < |claimed| && claimed[k] == d;
        assert j != k;
      }
    }
  }

  // The in-memory store's own claim fits its offer on every table.
  lemma MemoryClaimFits(t: Table, q: Query, t': Table, claimed: seq<Claimed>)
    requires ProperOffer(q.available) && MemoryStore.ClaimTaken(t, q, t', claimed)
    ensures FitsOffer(claimed, q.available, q.active)
  {
    TakenFits(t, q, claimed);
  }

  lemma TakenFits(t: Table, q: Query, claimed: seq<Claimed>)
    requires ProperOffer(q.available) && DistinctIds(claimed) && MemoryStore.Allowed(t, q, MemoryStore.IdsIn(claimed))
    requires MemoryStore.HandedOut(t, claimed) && MemoryStore.LanesApart(t, MemoryStore.IdsIn(claimed))
    ensures FitsOffer(claimed, q.available, q.active)
  {
    forall i
      ensures Count(claimed, |claimed|, i) <= (if i in q.available then q.available[i].totalFree else 0)
      ensures CountBatch(claimed, |claimed|, i) <= (if i in q.available then q.available[i].batchFree else 0)
    {
      MemoryCounts(t, q, claimed, i);
    }
    forall k | 0 <= k < |claimed| ensures claimed[k].op.laneKey !in q.active {
      assert claimed[k] in claimed;
      assert Eligible(t, q, claimed[k].id);
    }
    DistinctLanes(t, MemoryStore.IdsIn(claimed), claimed);
  }

  lemma MemoryCounts(t: Table, q: Query, claimed: seq<Claimed>, i: string)
    requires ProperOffer(q.available) && DistinctIds(claimed) && MemoryStore.Allowed(t, q, MemoryStore.IdsIn(claimed))
    requires MemoryStore.HandedOut(t, claimed)
    ensures Count(claimed, |claimed|, i) <= (if i in q.available then q.available[i].totalFree else 0)
    ensures CountBatch(claimed, |claimed|, i) <= (if i in q.available then q.available[i].batchFree else 0)
  {
    CountsAreIds(claimed, |claimed|, i);
    IdsAreRows(t, claimed, i);
    RowsFit(t, q, MemoryStore.IdsIn(claimed), i);
  }

  lemma RowsFit(t: Table, q: Query, w: set<Id>, i: string)
    requires ProperOffer(q.available) && MemoryStore.Allowed(t, q, w)
    ensures |MemoryStore.RowsOf(t, w, i)| <= (if i in q.available then q.available[i].totalFree else 0)
    ensures |MemoryStore.BatchRowsOf(t, w, i)| <= (if i in q.available then q.available[i].batchFree else 0)
  {
    if i in q.available {
      assert MemoryStore.WithinCap(t, w, i, Caps(q.available)[i]);
    } else {
      assert MemoryStore.RowsOf(t, w, i) == {} && MemoryStore.BatchRowsOf(t, w, i) == {};
    }
  }

  lemma IdsAreRows(t: Table, claimed: seq<Claimed>, i: string)
    requires MemoryStore.HandedOut(t, claimed)
    ensures IdsOf(claimed, |claimed|, i, false) == MemoryStore.RowsOf(t, MemoryStore.IdsIn(claimed), i)
    ensures IdsOf(claimed, |claimed|, i, true) == MemoryStore.BatchRowsOf(t, MemoryStore.IdsIn(claimed), i)
  {
    assert claimed[..|claimed|] == claimed;
  }

  lemma InstanceFits(t: Table, q: Query, claimed: seq<Claimed>, i: string)
    requires DistinctStamps(t) && ProperOffer(q.available) && SomeOf(t, PickedSet(t, q), claimed)
    ensures Count(claimed, |claimed|, i) <= (if i in q.available then q.available[i].totalFree else 0)
    ensures CountBatch(claimed, |claimed|, i) <= (if i in q.available then q.available[i].batchFree else 0)
  {
    CountsAreIds(claimed, |claimed|, i);
    ClaimIsBounded(t, q, i);
    IdsArePicked(t, q, claimed, i);
    Subset(IdsOf(claimed, |claimed|, i, true), PickedOf(t, q, i, Batch));
    SubsetOfBoth(IdsOf(claimed, |claimed|, i, false), PickedOf(t, q, i, Interactive), PickedOf(t, q, i, Batch));
  }

  lemma IdsArePicked(t: Table, q: Query, claimed: seq<Claimed>, i: string)
    requires SomeOf(t, PickedSet(t, q), claimed)
    ensures IdsOf(claimed, |claimed|, i, true) <= PickedOf(t, q, i, Batch)
    ensures IdsOf(claimed, |claimed|, i, false) <= PickedOf(t, q, i, Interactive) + PickedOf(t, q, i, Batch)
  {
    assert claimed[..|claimed|] == claimed;
  }

  lemma SubsetOfBoth(s: set<Id>, a: set<Id>, b: set<Id>)
    requires s <= a + b
    ensures |s| <= |a| + |b|
  {
    Subset(s, a + b);
  }

  lemma OfferIsProper(d: Dispatcher, tokens: set<string>)
    ensures ProperOffer(d.Offer(tokens))
  {
  }

  // An offer is as large as what is in flight allows: every instance that may be claimed
  // for and has a slot left is in it, with all of its slots, and with each number of batch
  // slots that both budgets still hold.
  lemma OfferIsExact(d: Dispatcher, tokens: set<string>, i: string, b: nat)
    requires d.Budgeted()
    ensures i in d.Offer(tokens) <==>
      i in d.ids && i in d.runtime && i in tokens && |Of(d.inFlight, i)| < d.runtime[i].mutationConcurrency
    ensures i in d.Offer(tokens) ==> d.Offer(tokens)[i].totalFree == d.runtime[i].mutationConcurrency - |Of(d.inFlight, i)|
    ensures i in d.Offer(tokens) ==>
      (b <= d.Offer(tokens)[i].batchFree <==>
        || b == 0
        || (|BatchOf(d.inFlight, i)| + b <= d.runtime[i].batchSlots && |Of(d.inFlight, i)| + b <= d.runtime[i].mutationConcurrency))
  {
    assert Get(d.running, i, 0) == |Of(d.inFlight, i)| && Get(d.runningBatch, i, 0) == |BatchOf(d.inFlight, i)|;
  }

  // The reserved slice: on an instance with no interactive attempt in flight,
  // however much batch work runs or waits, the next cycle claims the first
  // interactive leaders up to the slice.
  lemma SliceIsReserved(d: Dispatcher, tokens: set<string>, i: string, raw: Option<real>, t: Table, q: Query)
    requires d.Budgeted() && i in d.ids && i in d.runtime && i in tokens && d.runtime[i].mutationConcurrency >= 2
    requires ParseSliceFraction(raw).Some? && ParseSliceFraction(raw).value > 0.0
    requires d.runtime[i].batchSlots == BatchSlots(d.runtime[i].mutationConcurrency, ParseSliceFraction(raw).value)
    requires Of(d.inFlight, i) == BatchOf(d.inFlight, i)
    requires DistinctStamps(t) && q.available == d.Offer(tokens)
    requires |InteractiveElsewhere(t, q, i)|
      + ComputeInteractiveSlots(d.runtime[i].mutationConcurrency, ParseSliceFraction(raw).value) <= q.limit
    ensures |PickedOf(t, q, i, Interactive)|
         >= Min(ComputeInteractiveSlots(d.runtime[i].mutationConcurrency, ParseSliceFraction(raw).value),
                |Leaders(t, q, i, Interactive)|)
  {
    var r := d.runtime[i];
    var slots := ComputeInteractiveSlots(r.mutationConcurrency, ParseSliceFraction(raw).value);
    SliceIsLeastCover(r.mutationConcurrency, raw, slots);
    assert Get(d.running, i, 0) == |Of(d.inFlight, i)|;
    assert r.mutationConcurrency - |Of(d.inFlight, i)| >= slots;
    InteractiveGetsItsSlots(t, q, i, slots);
  }

  // ---- backoff ---------------------------------------------------------------

  predicate Answerable(c: Claimed, ans: Answer) { Answers(c.prior, ans) }

  // What an attempt makes of its answer.
  function ResolutionOf(env: Protocol.Env, c: Claimed, ans: Answer): Resolution
    requires Answerable(c, ans)
  {
    Resolve(env.cfg, env.inst(c.op.instance), c.op, c.prior, c.attemptCount, ans)
  }

  // The end of execute(): the attempt's resolution is settled, and a retry is logged
  // with its delay.
  method SettleAnswer(d: Dispatcher, n: nat, env: Protocol.Env, ans: Answer, now: Time)
    requires d.Valid() && n in d.inFlight && n !in d.settled && d.clock <= now && Answerable(d.inFlight[n], ans)
    modifies d`laneDeferredUntil, d`settled, d`clock, d`events
    ensures d.Valid() && d.clock == now && d.settled == old(d.settled) + {n}
    ensures var c, r := d.inFlight[n], ResolutionOf(env, d.inFlight[n], ans);
      d.events == old(d.events) + if r.Requeue? && r.delay > 0 then [Requeued(c.op.laneKey, now, r.delay)] else []
  {
    d.Settle(n, ResolutionOf(env, d.inFlight[n], ans), now);
  }

  // A dispatcher does not take a lane again before the backoff that the failed
  // attempt earned is over: min(backoffMax, backoffBase * 2^attemptCount).
  lemma LaneWaitsOutItsBackoff(d: Dispatcher, env: Protocol.Env, c: Claimed, ans: Answer, at: Time, j: nat, k: nat)
    requires d.Valid() && Answerable(c, ans) && j < k < |d.events|
    requires ResolutionOf(env, c, ans).Requeue? && !Searches(c.prior)
    requires d.events[j] == Requeued(c.op.laneKey, at, ResolutionOf(env, c, ans).delay)
    requires d.events[k].Taken? && d.events[k].lane == c.op.laneKey
    ensures d.events[k].at >= at + Min(env.cfg.backoffMax, env.cfg.backoffBase * Pow2(c.attemptCount))
  {
    CellLaws.ResolveShaped(env, c.op, Protocol.Claim(c.prior, c.attemptCount), ans);
    assert BackoffsKept(d.events);
  }
}
