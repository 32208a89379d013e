// The overshoot bound of the admission gate is exact: for every cap, every number of
// callers and every number of running rows there is a run that reaches it.
module Overshoot {
  import opened Options
  import opened Rows
  import opened ClaimSpec
  import opened Store
  import opened Admission

  // ---- states of the run ----------------------------------------------------

  // Operations on lanes of their own, enqueued one after the other.
  function OpAt(i: string, p: Priority, j: nat): Op {
    var name := seq(j, k => 'x');
    Op(i, UPDATE, p, name, Some(name), None, j, name)
  }

  // The first z rows were requeued, those up to m are running, the rest are waiting.
  function RowAt(i: string, p: Priority, z: nat, m: nat, id: nat): Row {
    var r := NewRow(OpAt(i, p, id));
    if id < z then RequeueRow(ClaimRow(r, 0)) else if id < m then ClaimRow(r, 0) else r
  }

  function RowsAt(i: string, p: Priority, z: nat, m: nat, n: nat): Table {
    map id: nat | 0 <= id < n :: RowAt(i, p, z, m, id)
  }

  function CallersAt(i: string, p: Priority, n: nat, k: nat): map<nat, Op> {
    map c: nat | n <= c < n + k :: OpAt(i, p, c)
  }

  function At(i: string, p: Priority, z: nat, m: nat, n: nat, k: nat): State {
    State(Db(RowsAt(i, p, z, m, n), map[]), CallersAt(i, p, n, k))
  }

  // ---- how many ----------------------------------------------------------------

  function Upto(a: nat, b: nat): set<nat>
    decreases b
  {
    if a < b then Upto(a, b - 1) + {b - 1} else {}
  }

  lemma {:induction false} UptoIs(a: nat, b: nat)
    requires a <= b
    ensures |Upto(a, b)| == b - a && forall x: nat :: x in Upto(a, b) <==> a <= x < b
    decreases b
  {
    if a < b { UptoIs(a, b - 1); }
  }

  lemma WaitingSize(i: string, p: Priority, n: nat, k: nat)
    ensures |Waiting(CallersAt(i, p, n, k), i, p)| == k
  {
    UptoIs(n, n + k);
    assert Waiting(CallersAt(i, p, n, k), i, p) == Upto(n, n + k);
  }

  lemma InFlightSize(i: string, p: Priority, z: nat, m: nat, n: nat)
    requires z <= m <= n
    ensures |InFlight(RowsAt(i, p, z, m, n), i, p)| == m - z
  {
    UptoIs(z, m);
    assert InFlight(RowsAt(i, p, z, m, n), i, p) == Upto(z, m);
  }

  lemma LiveSize(i: string, p: Priority, z: nat, m: nat, n: nat)
    ensures |Live(RowsAt(i, p, z, m, n), i, p)| == n
  {
    UptoIs(0, n);
    assert Live(RowsAt(i, p, z, m, n), i, p) == Upto(0, n);
  }

  lemma BacklogSize(i: string, p: Priority, z: nat, m: nat, n: nat)
    requires z <= m <= n
    ensures |Backlog(RowsAt(i, p, z, m, n), i, p)| == n - m + z
  {
    LiveSplits(RowsAt(i, p, z, m, n), i, p);
    InFlightSize(i, p, z, m, n);
    LiveSize(i, p, z, m, n);
  }

  lemma CrowdAt(i: string, p: Priority, z: nat, m: nat, n: nat, c: nat, k: nat, r: nat)
    requires z <= m <= n && m - z <= r && c <= k
    ensures Crowd(At(i, p, z, m, n, c), i, p, k, r)
  {
    WaitingSize(i, p, n, c);
    InFlightSize(i, p, z, m, n);
  }

  // ---- steps -----------------------------------------------------------------------

  lemma AfterCheck(i: string, p: Priority, z: nat, m: nat, n: nat, k: nat)
    ensures Next(At(i, p, z, m, n, k), Check(n + k, OpAt(i, p, n + k))) == At(i, p, z, m, n, k + 1)
  {
    assert CallersAt(i, p, n, k + 1) == CallersAt(i, p, n, k)[n + k := OpAt(i, p, n + k)];
  }

  lemma AfterInsert(i: string, p: Priority, z: nat, m: nat, n: nat, k: nat)
    requires z <= m <= n && k > 0
    ensures Enabled(Limits(None, None), At(i, p, z, m, n, k), Insert(n, n))
    ensures Next(At(i, p, z, m, n, k), Insert(n, n)) == At(i, p, z, m, n + 1, k - 1)
  {
    assert RowsAt(i, p, z, m, n + 1) == RowsAt(i, p, z, m, n)[n := NewRow(OpAt(i, p, n))];
    assert CallersAt(i, p, n + 1, k - 1) == CallersAt(i, p, n, k) - {n};
  }

  function OneSlot(i: string): Query { Query(1, {}, map[i := Availability(1, 1)], 0) }

  // The one waiting row, on a lane no running row has, is the one claimed.
  lemma OnlyWaitingIsPicked(i: string, p: Priority, m: nat, id: nat)
    requires id <= m
    ensures Picked(RowsAt(i, p, 0, m, m + 1), OneSlot(i), id) <==> id == m
  {
    var t, q := RowsAt(i, p, 0, m, m + 1), OneSlot(i);
    forall x | x in t && SameLane(t[x], t[m]) ensures x == m { assert |t[x].op.laneKey| == x; }
    assert !LaneBlocked(t, t[m], 0);
    assert Eligible(t, q, m);
    forall x | Eligible(t, q, x) ensures x == m {}
    assert LanePeersBefore(t, q, m) == {};
    assert InstancePeersBefore(t, q, m) == {} && ClassPeersBefore(t, q, m) == {} && PickedBefore(t, q, m) == {};
  }

  lemma AfterClaim(i: string, p: Priority, m: nat)
    ensures Next(At(i, p, 0, m, m + 1, 0), Claim(OneSlot(i))) == At(i, p, 0, m + 1, m + 1, 0)
  {
    var t := RowsAt(i, p, 0, m, m + 1);
    forall id | id in t ensures SqlClaim(Db(t, map[]), OneSlot(i)).hot[id] == RowAt(i, p, 0, m + 1, id) {
      OnlyWaitingIsPicked(i, p, m, id);
    }
    assert SqlClaim(Db(t, map[]), OneSlot(i)).hot == RowsAt(i, p, 0, m + 1, m + 1);
    assert CallersAt(i, p, m + 1, 0) == map[];
  }

  lemma AfterRequeue(i: string, p: Priority, z: nat, m: nat, n: nat)
    requires z < m <= n
    ensures Next(At(i, p, z, m, n, 0), Requeue(z)) == At(i, p, z + 1, m, n, 0)
  {
    assert RowsAt(i, p, z + 1, m, n) == RowsAt(i, p, z, m, n)[z := RequeueRow(RowAt(i, p, z, m, z))];
  }

  // ---- the run ------------------------------------------------------------------------

  ghost predicate Reachable(l: Limits, i: string, p: Priority, k: nat, r: nat, s: State) {
    exists run :: Possible(l, Start(), run, i, p, k, r) && After(Start(), run) == s
  }

  lemma {:induction false} OneMore(l: Limits, s: State, run: seq<Action>, a: Action, i: string, p: Priority, k: nat, r: nat)
    requires Possible(l, s, run, i, p, k, r) && Enabled(l, After(s, run), a) && Crowd(Next(After(s, run), a), i, p, k, r)
    ensures Possible(l, s, run + [a], i, p, k, r) && After(s, run + [a]) == Next(After(s, run), a)
    decreases |run|
  {
    if run == [] {
      assert run + [a] == [a] && [a][1..] == [];
      assert Possible(l, Next(s, a), [], i, p, k, r);
      assert After(Next(s, a), []) == Next(s, a);
    } else {
      assert (run + [a])[1..] == run[1..] + [a];
      OneMore(l, Next(s, run[0]), run[1..], a, i, p, k, r);
    }
  }

  lemma Extend(l: Limits, i: string, p: Priority, k: nat, r: nat, s: State, a: Action)
    requires Reachable(l, i, p, k, r, s) && Enabled(l, s, a) && Crowd(Next(s, a), i, p, k, r)
    ensures Reachable(l, i, p, k, r, Next(s, a))
  {
    var run :| Possible(l, Start(), run, i, p, k, r) && After(Start(), run) == s;
    OneMore(l, Start(), run, a, i, p, k, r);
    assert Possible(l, Start(), run + [a], i, p, k, r) && After(Start(), run + [a]) == Next(s, a);
  }

  lemma DoCheck(l: Limits, i: string, p: Priority, k: nat, r: nat, m: nat, n: nat, c: nat)
    requires m <= n && m <= r && c < k && n - m < CapOf(l, p) && Reachable(l, i, p, k, r, At(i, p, 0, m, n, c))
    ensures Reachable(l, i, p, k, r, At(i, p, 0, m, n, c + 1))
  {
    BacklogSize(i, p, 0, m, n);
    AfterCheck(i, p, 0, m, n, c);
    CrowdAt(i, p, 0, m, n, c + 1, k, r);
    Extend(l, i, p, k, r, At(i, p, 0, m, n, c), Check(n + c, OpAt(i, p, n + c)));
  }

  lemma DoInsert(l: Limits, i: string, p: Priority, k: nat, r: nat, m: nat, n: nat, c: nat)
    requires m <= n && m <= r && 0 < c <= k && Reachable(l, i, p, k, r, At(i, p, 0, m, n, c))
    ensures Reachable(l, i, p, k, r, At(i, p, 0, m, n + 1, c - 1))
  {
    AfterInsert(i, p, 0, m, n, c);
    CrowdAt(i, p, 0, m, n + 1, c - 1, k, r);
    Extend(l, i, p, k, r, At(i, p, 0, m, n, c), Insert(n, n));
  }

  lemma DoClaim(l: Limits, i: string, p: Priority, k: nat, r: nat, m: nat)
    requires m < r && Reachable(l, i, p, k, r, At(i, p, 0, m, m + 1, 0))
    ensures Reachable(l, i, p, k, r, At(i, p, 0, m + 1, m + 1, 0))
  {
    AfterClaim(i, p, m);
    CrowdAt(i, p, 0, m + 1, m + 1, 0, k, r);
    Extend(l, i, p, k, r, At(i, p, 0, m, m + 1, 0), Claim(OneSlot(i)));
  }

  lemma DoRequeue(l: Limits, i: string, p: Priority, k: nat, r: nat, z: nat, n: nat)
    requires z < r <= n && Reachable(l, i, p, k, r, At(i, p, z, r, n, 0))
    ensures Reachable(l, i, p, k, r, At(i, p, z + 1, r, n, 0))
  {
    AfterRequeue(i, p, z, r, n);
    CrowdAt(i, p, z + 1, r, n, 0, k, r);
    Extend(l, i, p, k, r, At(i, p, z, r, n, 0), Requeue(z));
  }

  lemma StartReachable(l: Limits, i: string, p: Priority, k: nat, r: nat)
    ensures Reachable(l, i, p, k, r, At(i, p, 0, 0, 0, 0))
  {
    assert At(i, p, 0, 0, 0, 0) == Start();
    CrowdAt(i, p, 0, 0, 0, 0, k, r);
    assert Possible(l, Start(), [], i, p, k, r) && After(Start(), []) == Start();
  }

  lemma CheckAndInsert(l: Limits, i: string, p: Priority, k: nat, r: nat, m: nat, n: nat)
    requires k >= 1 && m <= n && m <= r && n - m < CapOf(l, p) && Reachable(l, i, p, k, r, At(i, p, 0, m, n, 0))
    ensures Reachable(l, i, p, k, r, At(i, p, 0, m, n + 1, 0))
  {
    DoCheck(l, i, p, k, r, m, n, 0);
    DoInsert(l, i, p, k, r, m, n, 1);
  }

  lemma OneRunning(l: Limits, i: string, p: Priority, k: nat, r: nat, m: nat)
    requires k >= 1 && m < r && CapOf(l, p) >= 1 && Reachable(l, i, p, k, r, At(i, p, 0, m, m, 0))
    ensures Reachable(l, i, p, k, r, At(i, p, 0, m + 1, m + 1, 0))
  {
    CheckAndInsert(l, i, p, k, r, m, m);
    DoClaim(l, i, p, k, r, m);
  }

  // First r rows are admitted and claimed, one by one.
  lemma {:induction false} ReachRunning(l: Limits, i: string, p: Priority, k: nat, r: nat, m: nat)
    requires k >= 1 && CapOf(l, p) >= 1 && m <= r
    ensures Reachable(l, i, p, k, r, At(i, p, 0, m, m, 0))
  {
    if m == 0 {
      StartReachable(l, i, p, k, r);
    } else {
      ReachRunning(l, i, p, k, r, m - 1);
      OneRunning(l, i, p, k, r, m - 1);
    }
  }

  // Then the backlog fills to one below the cap.
  lemma {:induction false} ReachBacklog(l: Limits, i: string, p: Priority, k: nat, r: nat, b: nat)
    requires k >= 1 && b < CapOf(l, p)
    ensures Reachable(l, i, p, k, r, At(i, p, 0, r, r + b, 0))
  {
    if b == 0 {
      ReachRunning(l, i, p, k, r, r);
    } else {
      ReachBacklog(l, i, p, k, r, b - 1);
      CheckAndInsert(l, i, p, k, r, r, r + b - 1);
    }
  }

  // Then all callers check before any of them inserts.
  lemma {:induction false} ReachCallers(l: Limits, i: string, p: Priority, k: nat, r: nat, c: nat)
    requires 1 <= k && CapOf(l, p) >= 1 && c <= k
    ensures Reachable(l, i, p, k, r, At(i, p, 0, r, r + CapOf(l, p) - 1, c))
  {
    if c == 0 {
      ReachBacklog(l, i, p, k, r, CapOf(l, p) - 1);
    } else {
      ReachCallers(l, i, p, k, r, c - 1);
      DoCheck(l, i, p, k, r, r, r + CapOf(l, p) - 1, c - 1);
    }
  }

  lemma {:induction false} ReachInserts(l: Limits, i: string, p: Priority, k: nat, r: nat, c: nat)
    requires 1 <= k && CapOf(l, p) >= 1 && c <= k
    ensures Reachable(l, i, p, k, r, At(i, p, 0, r, r + CapOf(l, p) - 1 + c, k - c))
  {
    if c == 0 {
      ReachCallers(l, i, p, k, r, k);
    } else {
      ReachInserts(l, i, p, k, r, c - 1);
      DoInsert(l, i, p, k, r, r, r + CapOf(l, p) - 1 + c - 1, k - c + 1);
    }
  }

  // And last the running rows come back.
  lemma {:induction false} ReachRequeues(l: Limits, i: string, p: Priority, k: nat, r: nat, z: nat)
    requires 1 <= k && CapOf(l, p) >= 1 && z <= r
    ensures Reachable(l, i, p, k, r, At(i, p, z, r, r + CapOf(l, p) - 1 + k, 0))
  {
    if z == 0 {
      ReachInserts(l, i, p, k, r, k);
    } else {
      ReachRequeues(l, i, p, k, r, z - 1);
      DoRequeue(l, i, p, k, r, z - 1, r + CapOf(l, p) - 1 + k);
    }
  }

  // Whatever the cap, the callers and the running rows, some run ends with exactly as
  // many waiting rows as the bound allows.
  lemma OvershootIsReached(l: Limits, i: string, p: Priority, k: nat, r: nat) returns (run: seq<Action>)
    ensures Possible(l, Start(), run, i, p, k, r)
    ensures |Backlog(After(Start(), run).db.hot, i, p)| == Bound(CapOf(l, p), k, r)
  {
    if k == 0 || CapOf(l, p) == 0 {
      StartReachable(l, i, p, k, r);
      BacklogSize(i, p, 0, 0, 0);
      run :| Possible(l, Start(), run, i, p, k, r) && After(Start(), run) == At(i, p, 0, 0, 0, 0);
    } else {
      var n := r + CapOf(l, p) - 1 + k;
      ReachRequeues(l, i, p, k, r, r);
      BacklogSize(i, p, r, r, n);
      run :| Possible(l, Start(), run, i, p, k, r) && After(Start(), run) == At(i, p, r, r, n, 0);
    }
  }
}
