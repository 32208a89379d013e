// The candidates of one claim cycle in claim order, reduced to what the two
// caps look at, and the count of rows a greedy pass over them takes.
module GreedyCounts {
  import opened Rows
  import opened ClaimSpec

  datatype Candidate = Candidate(instance: string, priority: Priority, leads: bool)

  ghost predicate InteractiveFirst(v: seq<Candidate>) {
    forall i, j :: 0 <= i < j < |v| && v[j].priority.Interactive? ==> v[i].priority.Interactive?
  }

  ghost predicate Is(c: Candidate, i: string, p: Priority) {
    c.leads && c.instance == i && c.priority == p
  }

  // Lane leaders of one instance and class among the first k.
  ghost function Led(v: seq<Candidate>, k: nat, i: string, p: Priority): nat
    requires k <= |v|
  {
    if k == 0 then 0 else Led(v, k - 1, i, p) + if Is(v[k - 1], i, p) then 1 else 0
  }

  // Whether a leader with so many leaders of its instance ahead of it is within the caps.
  ghost predicate Fits(cap: Cap, p: Priority, interactive: nat, batch: nat) {
    interactive + batch + 1 <= cap.total && (p.Interactive? || batch + 1 <= cap.batch)
  }

  ghost predicate Within(v: seq<Candidate>, caps: map<string, Cap>, k: nat)
    requires k < |v|
  {
    v[k].leads && v[k].instance in caps
    && Fits(caps[v[k].instance], v[k].priority,
         Led(v, k, v[k].instance, Interactive), Led(v, k, v[k].instance, Batch))
  }

  ghost function Got(v: seq<Candidate>, caps: map<string, Cap>, k: nat, i: string, p: Priority): nat
    requires k <= |v|
  {
    if k == 0 then 0
    else Got(v, caps, k - 1, i, p) + if Within(v, caps, k - 1) && Is(v[k - 1], i, p) then 1 else 0
  }

  lemma {:induction false} NoBatchYet(v: seq<Candidate>, k: nat, i: string)
    requires k <= |v| && forall j :: 0 <= j < k ==> v[j].priority.Interactive?
    ensures Led(v, k, i, Batch) == 0
  {
    if k > 0 { NoBatchYet(v, k - 1, i); }
  }

  lemma {:induction false} LedGrows(v: seq<Candidate>, j: nat, k: nat, i: string, p: Priority)
    requires j <= k <= |v|
    ensures Led(v, j, i, p) <= Led(v, k, i, p)
    decreases k
  {
    if j < k { LedGrows(v, j, k - 1, i, p); }
  }

  // What the two caps leave of an instance's leaders: interactive rows may use
  // the whole budget, batch rows their own cap and what interactive rows left.
  ghost function AdmittedInteractive(cap: Cap, interactive: nat): nat {
    Min(cap.total, interactive)
  }

  ghost function AdmittedBatch(cap: Cap, interactive: nat, batch: nat): nat {
    Min(Min(cap.batch, batch), Max(0, cap.total - interactive))
  }

  lemma {:induction false} GotIsAdmitted(v: seq<Candidate>, caps: map<string, Cap>, k: nat, i: string)
    requires InteractiveFirst(v) && k <= |v| && i in caps
    ensures Got(v, caps, k, i, Interactive) == AdmittedInteractive(caps[i], Led(v, k, i, Interactive))
    ensures Got(v, caps, k, i, Batch) == AdmittedBatch(caps[i], Led(v, k, i, Interactive), Led(v, k, i, Batch))
  {
    if k > 0 {
      GotIsAdmitted(v, caps, k - 1, i);
      if v[k - 1].priority.Interactive? { NoBatchYet(v, k - 1, i); }
    }
  }

  // The greedy test: slots left for the instance, and for the row's class.
  ghost predicate SlotsLeft(v: seq<Candidate>, caps: map<string, Cap>, k: nat)
    requires k < |v| && v[k].instance in caps
  {
    var i, batch := v[k].instance, Got(v, caps, k, v[k].instance, Batch);
    && Got(v, caps, k, i, Interactive) + batch < caps[i].total
    && (v[k].priority.Interactive? || batch < caps[i].batch)
  }

  lemma LeaderTest(v: seq<Candidate>, caps: map<string, Cap>, k: nat)
    requires InteractiveFirst(v) && k < |v| && v[k].instance in caps && v[k].leads
    ensures Within(v, caps, k) <==> SlotsLeft(v, caps, k)
  {
    GotIsAdmitted(v, caps, k, v[k].instance);
    if v[k].priority.Interactive? { NoBatchYet(v, k, v[k].instance); }
  }

  // Once a leader does not fit, nothing of its instance behind it does.
  lemma NoSlotsBehind(v: seq<Candidate>, caps: map<string, Cap>, j: nat, k: nat)
    requires InteractiveFirst(v) && j < k < |v| && v[j].leads
    requires v[j].instance == v[k].instance && v[k].instance in caps && !Within(v, caps, j)
    ensures !SlotsLeft(v, caps, k)
  {
    var i := v[k].instance;
    GotIsAdmitted(v, caps, k, i);
    LedGrows(v, j + 1, k, i, v[j].priority);
    LedGrows(v, j, k, i, Interactive);
    if v[j].priority.Interactive? { NoBatchYet(v, j, i); }
  }
}
