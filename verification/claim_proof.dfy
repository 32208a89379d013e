// The greedy test at each candidate, and what it has to do with the ranks.
module ClaimProof {
  import opened Rows
  import opened ClaimSpec
  import opened GreedyCounts
  import opened ClaimRanks

  // Every non-leader has its lane's leader ahead of it.
  lemma {:induction false} LaneLeader(t: Table, q: Query, cs: seq<Id>, k: nat) returns (j: nat)
    requires Enumerates(t, q, cs) && k < |cs| && !Leader(t, q, cs[k])
    ensures j < k && Leader(t, q, cs[j]) && SameLane(t[cs[j]], t[cs[k]])
    decreases k
  {
    assert Eligible(t, q, cs[k]);
    var x :| x in LanePeersBefore(t, q, cs[k]);
    PrefixMember(t, cs, k, x);
    j :| 0 <= j < k && cs[j] == x;
    if !Leader(t, q, x) { j := LaneLeader(t, q, cs, j); }
  }

  // A candidate is within the caps iff its lane is free of rows taken before it
  // and it finds slots left: a leader shares its lane with nothing ahead of it,
  // and a follower's leader was either taken or had already run out of slots.
  lemma GreedyTest(t: Table, q: Query, cs: seq<Id>, k: nat)
    requires Enumerates(t, q, cs) && k < |cs|
    ensures t[cs[k]].op.instance in Caps(q.available)
    ensures WithinCaps(t, q, cs[k]) <==>
      && SlotsLeft(Candidates(t, q, cs), Caps(q.available), k)
      && forall x :: x in Among(cs, k, AllTaken(t, q)) ==> !SameLane(t[x], t[cs[k]])
  {
    assert Eligible(t, q, cs[k]);
    var v, caps := Candidates(t, q, cs), Caps(q.available);
    WithinAt(t, q, cs, k);
    if Leader(t, q, cs[k]) {
      LeaderTest(v, caps, k);
      forall x | x in Among(cs, k, AllTaken(t, q)) ensures !SameLane(t[x], t[cs[k]]) {
        PrefixMember(t, cs, k, x);
        assert LanePeersBefore(t, q, cs[k]) == {};
        assert x !in LanePeersBefore(t, q, cs[k]);
      }
    } else {
      var j := LaneLeader(t, q, cs, k);
      WithinAt(t, q, cs, j);
      if WithinCaps(t, q, cs[j]) {
        assert cs[j] in cs[..k];
        assert cs[j] in Among(cs, k, AllTaken(t, q));
      } else {
        NoSlotsBehind(v, caps, j, k);
      }
    }
  }

  lemma PickedIffFewer(t: Table, q: Query, cs: seq<Id>, k: nat)
    requires Enumerates(t, q, cs) && k < |cs|
    ensures PickedBefore(t, q, cs[k]) == Among(cs, k, AllTaken(t, q))
    ensures Picked(t, q, cs[k]) <==> cs[k] in AllTaken(t, q) && |Among(cs, k, AllTaken(t, q))| < q.limit
  {
    forall x | x in t && WithinCaps(t, q, x) ensures x in cs[..k] <==> Before(t[x], t[cs[k]]) {
      PrefixMember(t, cs, k, x);
    }
  }
}
