// The claim specification read off the sorted candidates.
module ClaimRanks {
  import opened Rows
  import opened ClaimSpec
  import opened GreedyCounts

  ghost predicate Ordered(t: Table, cs: seq<Id>) {
    && (forall j :: 0 <= j < |cs| ==> cs[j] in t)
    && (forall i, j :: 0 <= i < j < |cs| ==> Before(t[cs[i]], t[cs[j]]))
  }

  // cs lists the eligible rows in claim order.
  ghost predicate Enumerates(t: Table, q: Query, cs: seq<Id>) {
    Ordered(t, cs) && forall id :: id in cs <==> Eligible(t, q, id)
  }

  ghost function CandidateOf(t: Table, q: Query, id: Id): Candidate
    requires id in t
  {
    Candidate(t[id].op.instance, t[id].op.priority, Leader(t, q, id))
  }

  ghost function Candidates(t: Table, q: Query, cs: seq<Id>): (v: seq<Candidate>)
    requires Ordered(t, cs)
    ensures |v| == |cs| && InteractiveFirst(v)
    ensures forall k :: 0 <= k < |v| ==> v[k] == CandidateOf(t, q, cs[k])
  {
    seq(|cs|, k requires 0 <= k < |cs| => CandidateOf(t, q, cs[k]))
  }

  // The leaders, and the rows within the caps, of one instance and class.
  ghost function Leaders(t: Table, q: Query, i: string, p: Priority): set<Id> {
    set x | x in t && Leader(t, q, x) && t[x].op.instance == i && t[x].op.priority == p
  }

  ghost function Taken(t: Table, q: Query, i: string, p: Priority): set<Id> {
    set x | x in t && WithinCaps(t, q, x) && t[x].op.instance == i && t[x].op.priority == p
  }

  ghost function AllTaken(t: Table, q: Query): set<Id> {
    set x | x in t && WithinCaps(t, q, x)
  }

  // The members of s among the first k of cs.
  ghost function Among(cs: seq<Id>, k: nat, s: set<Id>): set<Id>
    requires k <= |cs|
  {
    set x | x in cs[..k] && x in s
  }

  lemma AmongMore(cs: seq<Id>, k: nat, s: set<Id>)
    requires k < |cs|
    ensures Among(cs, k + 1, s) == if cs[k] in s then Among(cs, k, s) + {cs[k]} else Among(cs, k, s)
  {
    assert cs[..k + 1] == cs[..k] + [cs[k]];
  }

  lemma AmongStep(cs: seq<Id>, k: nat, s: set<Id>)
    requires k < |cs| && cs[k] !in cs[..k]
    ensures |Among(cs, k + 1, s)| == |Among(cs, k, s)| + if cs[k] in s then 1 else 0
  {
    AmongMore(cs, k, s);
  }

  lemma PrefixMember(t: Table, cs: seq<Id>, k: nat, x: Id)
    requires Ordered(t, cs) && k < |cs|
    ensures x in cs ==> (x in cs[..k] <==> Before(t[x], t[cs[k]]))
    ensures cs[k] !in cs[..k]
  {
  }

  ghost predicate Distinct(cs: seq<Id>) {
    forall j, k :: 0 <= j < k < |cs| ==> cs[j] != cs[k]
  }

  lemma OrderedIsDistinct(t: Table, cs: seq<Id>)
    requires Ordered(t, cs)
    ensures Distinct(cs)
  {
  }

  // s holds the lane leaders of this instance and class among the candidates.
  ghost predicate Leads(cs: seq<Id>, s: set<Id>, v: seq<Candidate>, i: string, p: Priority)
    requires |cs| == |v|
  {
    forall j :: 0 <= j < |cs| ==> (cs[j] in s <==> Is(v[j], i, p))
  }

  lemma {:induction false} LeadersCount(cs: seq<Id>, s: set<Id>, v: seq<Candidate>, i: string, p: Priority, k: nat)
    requires |cs| == |v| && Distinct(cs) && Leads(cs, s, v, i, p) && k <= |cs|
    ensures |Among(cs, k, s)| == Led(v, k, i, p)
  {
    if k > 0 {
      LeadersCount(cs, s, v, i, p, k - 1);
      assert cs[k - 1] !in cs[..k - 1];
      AmongStep(cs, k - 1, s);
    }
  }

  lemma LedCounts(t: Table, q: Query, cs: seq<Id>, k: nat, i: string, p: Priority)
    requires Ordered(t, cs) && k <= |cs|
    ensures |Among(cs, k, Leaders(t, q, i, p))| == Led(Candidates(t, q, cs), k, i, p)
  {
    OrderedIsDistinct(t, cs);
    assert Leads(cs, Leaders(t, q, i, p), Candidates(t, q, cs), i, p);
    LeadersCount(cs, Leaders(t, q, i, p), Candidates(t, q, cs), i, p, k);
  }

  lemma PeersAreAmong(t: Table, q: Query, cs: seq<Id>, k: nat)
    requires Enumerates(t, q, cs) && k < |cs|
    ensures var r := t[cs[k]].op;
      && ClassPeersBefore(t, q, cs[k]) == Among(cs, k, Leaders(t, q, r.instance, r.priority))
      && InstancePeersBefore(t, q, cs[k])
         == Among(cs, k, Leaders(t, q, r.instance, Interactive)) + Among(cs, k, Leaders(t, q, r.instance, Batch))
  {
    forall x | x in t && Leader(t, q, x) ensures x in cs[..k] <==> Before(t[x], t[cs[k]]) {
      PrefixMember(t, cs, k, x);
    }
  }

  // Both window ranks of the k-th candidate are counts over the prefix.
  lemma Ranks(t: Table, q: Query, cs: seq<Id>, k: nat)
    requires Enumerates(t, q, cs) && k < |cs|
    ensures var v, i := Candidates(t, q, cs), t[cs[k]].op.instance;
      && |ClassPeersBefore(t, q, cs[k])| == Led(v, k, i, t[cs[k]].op.priority)
      && |InstancePeersBefore(t, q, cs[k])| == Led(v, k, i, Interactive) + Led(v, k, i, Batch)
  {
    var i := t[cs[k]].op.instance;
    var a, b := Among(cs, k, Leaders(t, q, i, Interactive)), Among(cs, k, Leaders(t, q, i, Batch));
    PeersAreAmong(t, q, cs, k);
    LedCounts(t, q, cs, k, i, Interactive);
    LedCounts(t, q, cs, k, i, Batch);
    DisjointSizes(a, b);
  }

  lemma DisjointSizes(a: set<Id>, b: set<Id>)
    requires a !! b
    ensures |a + b| == |a| + |b|
  {
  }

  lemma WithinAt(t: Table, q: Query, cs: seq<Id>, k: nat)
    requires Enumerates(t, q, cs) && k < |cs|
    ensures WithinCaps(t, q, cs[k]) <==> Within(Candidates(t, q, cs), Caps(q.available), k)
  {
    assert Eligible(t, q, cs[k]);
    Ranks(t, q, cs, k);
    if t[cs[k]].op.priority.Interactive? { NoBatchYet(Candidates(t, q, cs), k, t[cs[k]].op.instance); }
  }

  // s holds the candidates that a greedy pass takes of this instance and class.
  ghost predicate Marks(cs: seq<Id>, s: set<Id>, v: seq<Candidate>, caps: map<string, Cap>, i: string, p: Priority)
    requires |cs| == |v|
  {
    forall j :: 0 <= j < |cs| ==> (cs[j] in s <==> Within(v, caps, j) && Is(v[j], i, p))
  }

  lemma {:induction false} MarkedCounts(cs: seq<Id>, s: set<Id>, v: seq<Candidate>, caps: map<string, Cap>, i: string, p: Priority, k: nat)
    requires |cs| == |v| && Distinct(cs) && Marks(cs, s, v, caps, i, p) && k <= |cs|
    ensures |Among(cs, k, s)| == Got(v, caps, k, i, p)
  {
    if k > 0 {
      MarkedCounts(cs, s, v, caps, i, p, k - 1);
      assert cs[k - 1] !in cs[..k - 1];
      AmongStep(cs, k - 1, s);
    }
  }

  lemma TakenMark(t: Table, q: Query, cs: seq<Id>, j: nat, i: string, p: Priority)
    requires Enumerates(t, q, cs) && j < |cs|
    ensures var v := Candidates(t, q, cs);
      cs[j] in Taken(t, q, i, p) <==> Within(v, Caps(q.available), j) && Is(v[j], i, p)
  {
    WithinAt(t, q, cs, j);
  }

  lemma GotCounts(t: Table, q: Query, cs: seq<Id>, k: nat, i: string, p: Priority)
    requires Enumerates(t, q, cs) && k <= |cs|
    ensures |Among(cs, k, Taken(t, q, i, p))| == Got(Candidates(t, q, cs), Caps(q.available), k, i, p)
  {
    var s, v, caps := Taken(t, q, i, p), Candidates(t, q, cs), Caps(q.available);
    OrderedIsDistinct(t, cs);
    forall j | 0 <= j < |cs| ensures cs[j] in s <==> Within(v, caps, j) && Is(v[j], i, p) { TakenMark(t, q, cs, j, i, p); }
    MarkedCounts(cs, s, v, caps, i, p, k);
  }
}
