// Day partitions of the operations table, and the maintenance pass over them.
module Partitions {
  import opened Options
  import opened Rows
  import opened Store

  // A row lies in the partition of the day it was created on.
  lemma DayHolds(op: Op, d: int)
    ensures DayOf(op) == d <==> d * 86_400_000 <= op.createdAt < (d + 1) * 86_400_000
  {}

  // ---- what a pass does, as functions of the state before it -------------

  predicate Within(d: int, today: int, lookahead: int) { today <= d <= today + lookahead }

  function Window(today: int, lookahead: int): set<int> {
    set d: int | today <= d <= today + lookahead && Within(d, today, lookahead)
  }

  function LiveRows(t: Table, day: int): set<Id> {
    set id | id in t && DayOf(t[id].op) == day && !t[id].Terminal()
  }

  lemma DroppableIffNoneLive(t: Table, day: int)
    ensures Droppable(t, day) <==> |LiveRows(t, day)| == 0
  {
    assert Droppable(t, day) <==> LiveRows(t, day) == {} by {
      if !Droppable(t, day) {
        var id :| id in t && DayOf(t[id].op) == day && !t[id].Terminal();
        assert id in LiveRows(t, day);
      }
    }
  }

  // The days past retention that a pass takes away.
  ghost function Expired(parts: set<int>, t: Table, cutoff: int): set<int> {
    set d | d in parts && d < cutoff && Droppable(t, d)
  }

  ghost function PassParts(parts: set<int>, t: Table, today: int, retention: int, lookahead: int): set<int> {
    var made := parts + Window(today, lookahead);
    made - Expired(made, t, today - retention)
  }

  ghost function PassHot(parts: set<int>, t: Table, today: int, retention: int, lookahead: int): Table {
    Without(t, Expired(parts + Window(today, lookahead), t, today - retention))
  }

  ghost function Without(t: Table, days: set<int>): Table {
    map id | id in t && DayOf(t[id].op) !in days :: t[id]
  }

  // Every row lies in an existing partition: there is no default one.
  predicate Routed(parts: set<int>, t: Table) {
    forall id :: id in t ==> DayOf(t[id].op) in parts
  }

  // The gauge: the longest run of present days from today on, as far as it probes.
  predicate IsDaysAhead(parts: set<int>, today: int, cap: int, n: nat) {
    && (forall d: int :: today <= d < today + n ==> d in parts)
    && (cap >= 0 ==> n <= cap + 1)
    && (cap < 0 ==> n == 0)
    && (n < cap + 1 ==> today + n !in parts)
  }

  // ---- what a pass means -------------------------------------------------

  // A row leaves only when it is terminal, past retention, and all of its day is terminal.
  lemma LeavesOnlyWhenDone(parts: set<int>, t: Table, today: int, retention: int, lookahead: int, id: Id)
    requires Routed(parts, t) && id in t
    ensures
      var u := PassHot(parts, t, today, retention, lookahead);
      && (id in u ==> u[id] == t[id])
      && (id !in u <==> DayOf(t[id].op) < today - retention && Droppable(t, DayOf(t[id].op)))
      && (id !in u ==> t[id].Terminal())
  {}

  // A day has a partition afterwards exactly when it had one or lies in the window, and it is
  // not past retention or still holds a live row.
  lemma PartitionStandsIff(parts: set<int>, t: Table, today: int, retention: int, lookahead: int, d: int)
    ensures d in PassParts(parts, t, today, retention, lookahead) <==>
      && (d in parts || today <= d <= today + lookahead)
      && (d >= today - retention || exists id :: id in t && DayOf(t[id].op) == d && !t[id].status.Final?)
  {}

  // Whatever survives past retention is pinned by a live row that also survives.
  lemma SurvivorsArePinned(parts: set<int>, t: Table, today: int, retention: int, lookahead: int, d: int)
    requires d in PassParts(parts, t, today, retention, lookahead) && d < today - retention
    ensures |LiveRows(PassHot(parts, t, today, retention, lookahead), d)| > 0
  {
    DroppableIffNoneLive(t, d);
    assert LiveRows(PassHot(parts, t, today, retention, lookahead), d) == LiveRows(t, d);
  }

  // Today and the lookahead have their partitions afterwards, unless a negative
  // retention makes the same pass drop one of them again.
  lemma WindowStandsIff(parts: set<int>, t: Table, today: int, retention: int, lookahead: int)
    ensures Window(today, lookahead) <= PassParts(parts, t, today, retention, lookahead) <==>
      forall d: int :: today <= d <= today + lookahead && d < today - retention ==> !Droppable(t, d)
  {
    var after := PassParts(parts, t, today, retention, lookahead);
    forall d | d in Window(today, lookahead)
      ensures d in after <==> !(d < today - retention && Droppable(t, d)) {}
    if Window(today, lookahead) <= after {
      forall d: int | today <= d <= today + lookahead && d < today - retention ensures !Droppable(t, d) {
        assert d in Window(today, lookahead);
      }
    }
  }

  // An empty day of today's window does fall to a negative retention.
  lemma NegativeRetentionDropsToday(parts: set<int>, today: int, lookahead: int)
    requires lookahead >= 0
    ensures today !in PassParts(parts, map[], today, -1, lookahead)
  {}

  // A second replica that waited for the lock finds nothing left to do.
  lemma SecondPassChangesNothing(parts: set<int>, t: Table, today: int, retention: int, lookahead: int)
    ensures
      var p := PassParts(parts, t, today, retention, lookahead);
      var u := PassHot(parts, t, today, retention, lookahead);
      PassParts(p, u, today, retention, lookahead) == p && PassHot(p, u, today, retention, lookahead) == u
  {
    var made := parts + Window(today, lookahead);
    var gone := Expired(made, t, today - retention);
    var p, u := made - gone, Without(t, gone);
    forall d | d in p && d < today - retention ensures !Droppable(u, d) {
      SurvivorsArePinned(parts, t, today, retention, lookahead, d);
      DroppableIffNoneLive(u, d);
    }
    forall d | d in gone ensures Droppable(u, d) {}
    var again := Expired(p + Window(today, lookahead), u, today - retention);
    assert forall d :: d in again ==> d in gone;
    assert PassParts(p, u, today, retention, lookahead) == p;
    assert Without(u, again) == u;
  }

  // History holds the answer of every terminal row, from the finalize that wrote it.
  predicate Chronicled(db: Db) {
    forall id :: id in db.hot && db.hot[id].Terminal() ==>
      id in db.history && db.history[id].op == db.hot[id].op
        && Final(db.history[id].outcome) == db.hot[id].status && db.history[id].errorCode == db.hot[id].errorCode
        && Some(db.history[id].finalizedAt) == db.hot[id].finalizedAt
  }

  lemma FinalizeChronicles(db: Db, id: Id, outcome: Outcome, result: Option<Result>, errorCode: Option<string>, now: Time)
    requires Chronicled(db) && forall k :: k in db.hot && k in db.history ==> db.hot[k].Terminal()
    ensures Chronicled(SqlFinalize(db, id, outcome, result, errorCode, now).0)
  {}

  // A history row is written once: nothing finalized later changes it.
  lemma HistoryStands(db: Db, id: Id, outcome: Outcome, result: Option<Result>, errorCode: Option<string>, now: Time, k: Id)
    requires k in db.history
    ensures var after := SqlFinalize(db, id, outcome, result, errorCode, now).0;
      k in after.history && after.history[k] == db.history[k]
  {}

  predicate SameAnswer(a: Option<Report>, b: Option<Report>) {
    match (a, b)
    case (Some(x), Some(y)) => x.op == y.op && x.status == y.status && x.errorCode == y.errorCode && x.finalizedAt == y.finalizedAt
    case _ => a == b
  }

  // No pass changes what is reported of any operation's identity, status or error.
  lemma PassKeepsAnswers(db: Db, parts: set<int>, today: int, retention: int, lookahead: int, id: Id)
    requires Chronicled(db)
    ensures
      var after := db.(hot := PassHot(parts, db.hot, today, retention, lookahead));
      SameAnswer(SqlStatus(db, id), SqlStatus(after, id))
  {}

  // ---- the catalogue and its two functions -------------------------------

  class Catalogue {
    var parts: set<int>
    var hot: Table

    ghost predicate Valid() reads this { Routed(parts, hot) }

    constructor ()
      ensures Valid() && parts == {} && hot == map[]
    {
      parts := {};
      hot := map[];
    }

    // create_operations_partition
    method Create(day: int)
      requires Valid()
      modifies this
      ensures Valid() && parts == old(parts) + {day} && hot == old(hot)
    {
      parts := parts + {day};
    }

    // drop_operations_partition
    method Drop(day: int) returns (dropped: bool)
      requires Valid()
      modifies this
      ensures Valid()
      ensures dropped <==> day in old(parts) && Droppable(old(hot), day)
      ensures dropped ==> parts == old(parts) - {day} && hot == SqlDrop(old(hot), day)
      ensures !dropped ==> parts == old(parts) && hot == old(hot)
    {
      if day !in parts { return false; }
      DroppableIffNoneLive(hot, day);
      if |LiveRows(hot, day)| > 0 { return false; }
      parts := parts - {day};
      hot := map id | id in hot && DayOf(hot[id].op) != day :: hot[id];
      return true;
    }

    // ROLLBACK to what the transaction found.
    method Restore(parts0: set<int>, hot0: Table)
      requires Routed(parts0, hot0)
      modifies this
      ensures Valid() && parts == parts0 && hot == hot0
    {
      parts, hot := parts0, hot0;
    }
  }

  // ---- the maintainer --------------------------------------------------------

  // A refusal that was logged: the day and how many live rows pin it.
  datatype Retained = Retained(day: int, live: nat)

  // ORDER BY day.
  predicate Ascending(days: seq<int>) { forall j, k :: 0 <= j < k < |days| ==> days[j] < days[k] }

  predicate IsLeast(m: int, s: set<int>) { m in s && forall x :: x in s ==> m <= x }

  lemma AnyOf<T>(s: set<T>) returns (m: T)
    requires s != {}
    ensures m in s
  {
    m :| m in s;
  }

  lemma {:induction false} HasLeast(s: set<int>) returns (m: int)
    requires s != {}
    ensures IsLeast(m, s)
    decreases |s|
  {
    m := AnyOf(s);
    var rest := s - {m};
    assert forall x :: x in s ==> x == m || x in rest;
    if rest != {} {
      var n := HasLeast(rest);
      if n < m { m := n; }
    }
  }

  function InOrder(s: set<int>): seq<int>
    decreases |s|
  {
    if s == {} then []
    else
      assert exists m :: IsLeast(m, s) by { var m := HasLeast(s); }
      var m :| IsLeast(m, s);
      [m] + InOrder(s - {m})
  }

  lemma {:induction false} InOrderLists(s: set<int>)
    ensures Ascending(InOrder(s)) && forall d :: d in InOrder(s) <==> d in s
    decreases |s|
  {
    if s != {} {
      var m := HasLeast(s);
      var rest := InOrder(s - {m});
      assert InOrder(s) == [m] + rest;
      InOrderLists(s - {m});
      forall k | 0 <= k < |rest| ensures m < rest[k] { assert rest[k] in rest; }
    }
  }

  function Candidates(parts: set<int>, cutoff: int): seq<int> {
    InOrder(set d | d in parts && d < cutoff)
  }

  // The warnings of one pass, in the order it meets the days.
  function Refusals(t: Table, days: seq<int>): seq<Retained> {
    if days == [] then []
    else
      var last := |days| - 1;
      Refusals(t, days[..last]) + if Droppable(t, days[last]) then [] else [Retained(days[last], |LiveRows(t, days[last])|)]
  }

  ghost function DroppedOf(t: Table, days: seq<int>): set<int> {
    set d | d in days && Droppable(t, d)
  }

  // The first k candidates have been looked at.
  ghost predicate DoneTo(parts0: set<int>, t0: Table, cutoff: int, k: nat, parts: set<int>, t: Table, found: seq<Retained>) {
    var days := Candidates(parts0, cutoff);
    && k <= |days|
    && parts == parts0 - DroppedOf(t0, days[..k])
    && t == Without(t0, DroppedOf(t0, days[..k]))
    && found == Refusals(t0, days[..k])
  }

  // Which statement of a pass fails, if any: making partitions, dropping them after
  // some have been looked at, probing, or the commit.
  datatype Fault = NoFault | InEnsure | InDrop(seen: nat) | InProbe | InCommit

  // How many of n candidates a pass looks at.
  function Looked(stopped: bool, fault: Fault, n: nat): nat {
    if stopped || fault == InEnsure then 0
    else if fault.InDrop? && fault.seen < n then fault.seen
    else n
  }

  class PartitionMaintainer {
    const retentionDays: int
    const lookaheadDays: int
    const daysAheadProbeCap: int
    const pool: Catalogue
    var stopped: bool
    var warned: seq<Retained>
    var daysAhead: Option<nat>
    var errors: nat

    constructor (pool: Catalogue, retentionDays: int, lookaheadDays: Option<int>, daysAheadProbeCap: Option<int>)
      ensures this.pool == pool && this.retentionDays == retentionDays
      ensures this.lookaheadDays == if lookaheadDays.Some? then lookaheadDays.value else 1
      ensures this.daysAheadProbeCap == if daysAheadProbeCap.Some? then daysAheadProbeCap.value else 30
      ensures !stopped && warned == [] && daysAhead == None && errors == 0
    {
      this.pool := pool;
      this.retentionDays := retentionDays;
      this.lookaheadDays := if lookaheadDays.Some? then lookaheadDays.value else 1;
      this.daysAheadProbeCap := if daysAheadProbeCap.Some? then daysAheadProbeCap.value else 30;
      stopped := false;
      warned := [];
      daysAhead := None;
      errors := 0;
    }

    method Ensure(today: int)
      requires pool.Valid()
      modifies pool
      ensures pool.Valid() && pool.hot == old(pool.hot)
      ensures pool.parts == old(pool.parts) + Window(today, lookaheadDays)
    {
      var d := today;
      while d <= today + lookaheadDays
        invariant pool.Valid() && pool.hot == old(pool.hot)
        invariant d == today || today < d <= today + lookaheadDays + 1
        invariant pool.parts == old(pool.parts) + Window(today, d - 1 - today)
      {
        pool.Create(d);
        d := d + 1;
      }
    }

    // The candidates in order, all of them or, if a statement fails, only the first few.
    method DropExpired(today: int, upTo: Option<nat>) returns (k: nat)
      requires pool.Valid()
      modifies this`warned, pool
      ensures pool.Valid()
      ensures var n := |Candidates(old(pool.parts), today - retentionDays)|;
        k == if upTo.Some? && upTo.value < n then upTo.value else n
      ensures upTo.None? ==>
        && pool.parts == old(pool.parts) - Expired(old(pool.parts), old(pool.hot), today - retentionDays)
        && pool.hot == Without(old(pool.hot), Expired(old(pool.parts), old(pool.hot), today - retentionDays))
      ensures warned == old(warned) + Refusals(old(pool.hot), Candidates(old(pool.parts), today - retentionDays)[..k])
    {
      ghost var parts0, hot0 := pool.parts, pool.hot;
      var cutoff := today - retentionDays;
      var days := Candidates(pool.parts, cutoff);
      ghost var found: seq<Retained> := [];
      var j := 0;
      assert DoneTo(parts0, hot0, cutoff, 0, pool.parts, pool.hot, found);
      while j < |days| && (upTo.Some? ==> j < upTo.value)
        invariant 0 <= j <= |days| && (upTo.Some? ==> j <= upTo.value)
        invariant pool.Valid()
        invariant DoneTo(parts0, hot0, cutoff, j, pool.parts, pool.hot, found)
        invariant warned == old(warned) + found
      {
        TakeOne(parts0, hot0, cutoff, j, pool.parts, pool.hot, found);
        var dropped := pool.Drop(days[j]);
        if !dropped {
          var retained := Retained(days[j], |LiveRows(pool.hot, days[j])|);
          warned := warned + [retained];
          found := found + [retained];
        }
        j := j + 1;
      }
      k := j;
      if upTo.None? { AllTaken(parts0, hot0, cutoff, pool.parts, pool.hot, found); }
    }

    method ComputeDaysAhead(today: int) returns (count: nat)
      ensures IsDaysAhead(pool.parts, today, daysAheadProbeCap, count)
    {
      count := 0;
      while count < daysAheadProbeCap + 1
        invariant 0 <= count && (daysAheadProbeCap >= 0 ==> count <= daysAheadProbeCap + 1)
        invariant daysAheadProbeCap < 0 ==> count == 0
        invariant forall d: int :: today <= d < today + count ==> d in pool.parts
      {
        if today + count !in pool.parts { break; }
        count := count + 1;
      }
    }

    // One pass in its transaction, which rolls back and is logged if a statement fails.
    method RunPass(today: int, fault: Fault)
      requires pool.Valid()
      modifies this`warned, this`daysAhead, this`errors, pool
      ensures pool.Valid()
      ensures stopped || fault != NoFault ==> pool.parts == old(pool.parts) && pool.hot == old(pool.hot)
      ensures !stopped && fault == NoFault ==>
        && pool.parts == PassParts(old(pool.parts), old(pool.hot), today, retentionDays, lookaheadDays)
        && pool.hot == PassHot(old(pool.parts), old(pool.hot), today, retentionDays, lookaheadDays)
        && daysAhead.Some? && IsDaysAhead(pool.parts, today, daysAheadProbeCap, daysAhead.value)
      ensures var days := Candidates(old(pool.parts) + Window(today, lookaheadDays), today - retentionDays);
        warned == old(warned) + Refusals(old(pool.hot), days[..Looked(stopped, fault, |days|)])
      ensures !stopped && fault == InCommit ==>
        && daysAhead.Some?
        && IsDaysAhead(PassParts(old(pool.parts), old(pool.hot), today, retentionDays, lookaheadDays), today, daysAheadProbeCap, daysAhead.value)
      ensures stopped || fault == InEnsure || fault.InDrop? || fault == InProbe ==> daysAhead == old(daysAhead)
      ensures errors == old(errors) + if !stopped && fault != NoFault then 1 else 0
    {
      ghost var days := Candidates(pool.parts + Window(today, lookaheadDays), today - retentionDays);
      assert days[..0] == [] && warned + [] == warned;
      if stopped { return; }
      var parts0, hot0 := pool.parts, pool.hot;
      if fault == InEnsure {
        errors := errors + 1;
        return;
      }
      Ensure(today);
      var k := DropExpired(today, if fault.InDrop? then Some(fault.seen) else None);
      assert k == Looked(stopped, fault, |days|);
      if fault != NoFault {
        if fault == InCommit {
          var m := ComputeDaysAhead(today);
          daysAhead := Some(m);
        }
        pool.Restore(parts0, hot0);
        errors := errors + 1;
        return;
      }
      var n := ComputeDaysAhead(today);
      daysAhead := Some(n);
    }
  }

  // One more candidate looked at, on the table the earlier drops left.
  lemma TakeOne(parts0: set<int>, t0: Table, cutoff: int, k: nat, parts: set<int>, t: Table, found: seq<Retained>)
    requires DoneTo(parts0, t0, cutoff, k, parts, t, found) && k < |Candidates(parts0, cutoff)|
    ensures
      var d := Candidates(parts0, cutoff)[k];
      && d in parts
      && (Droppable(t, d) ==> DoneTo(parts0, t0, cutoff, k + 1, parts - {d}, SqlDrop(t, d), found))
      && (!Droppable(t, d) ==> DoneTo(parts0, t0, cutoff, k + 1, parts, t, found + [Retained(d, |LiveRows(t, d)|)]))
  {
    NthCandidate(parts0, cutoff, k);
    SameAtDay(t0, Candidates(parts0, cutoff), k);
    if Droppable(t, Candidates(parts0, cutoff)[k]) {
      TakeDropped(parts0, t0, cutoff, k, parts, t, found);
    } else {
      TakeRefused(parts0, t0, cutoff, k, parts, t, found);
    }
  }

  lemma TakeDropped(parts0: set<int>, t0: Table, cutoff: int, k: nat, parts: set<int>, t: Table, found: seq<Retained>)
    requires DoneTo(parts0, t0, cutoff, k, parts, t, found) && k < |Candidates(parts0, cutoff)|
    requires var d := Candidates(parts0, cutoff)[k]; Droppable(t, d) && Droppable(t0, d)
    ensures var d := Candidates(parts0, cutoff)[k]; DoneTo(parts0, t0, cutoff, k + 1, parts - {d}, SqlDrop(t, d), found)
  {
    var days := Candidates(parts0, cutoff);
    OneMoreDay(t0, days, k);
    DropOneMore(t0, DroppedOf(t0, days[..k]), days[k]);
    assert parts - {days[k]} == parts0 - (DroppedOf(t0, days[..k]) + {days[k]});
  }

  lemma TakeRefused(parts0: set<int>, t0: Table, cutoff: int, k: nat, parts: set<int>, t: Table, found: seq<Retained>)
    requires DoneTo(parts0, t0, cutoff, k, parts, t, found) && k < |Candidates(parts0, cutoff)|
    requires var d := Candidates(parts0, cutoff)[k]; !Droppable(t0, d) && LiveRows(t, d) == LiveRows(t0, d)
    ensures var d := Candidates(parts0, cutoff)[k];
      DoneTo(parts0, t0, cutoff, k + 1, parts, t, found + [Retained(d, |LiveRows(t, d)|)])
  {
    OneMoreDay(t0, Candidates(parts0, cutoff), k);
  }

  lemma DropOneMore(t0: Table, gone: set<int>, d: int)
    requires Droppable(Without(t0, gone), d)
    ensures SqlDrop(Without(t0, gone), d) == Without(t0, gone + {d})
  {
  }

  lemma NthCandidate(parts: set<int>, cutoff: int, k: nat)
    requires k < |Candidates(parts, cutoff)|
    ensures Candidates(parts, cutoff)[k] in parts && Ascending(Candidates(parts, cutoff))
  {
    InOrderLists(set x | x in parts && x < cutoff);
    assert Candidates(parts, cutoff)[k] in Candidates(parts, cutoff);
  }

  // The day is still there, with the rows it had.
  lemma SameAtDay(t0: Table, days: seq<int>, k: nat)
    requires k < |days| && Ascending(days)
    ensures days[k] !in DroppedOf(t0, days[..k])
    ensures var t := Without(t0, DroppedOf(t0, days[..k]));
      LiveRows(t, days[k]) == LiveRows(t0, days[k]) && (Droppable(t, days[k]) <==> Droppable(t0, days[k]))
  {
    var t, d := Without(t0, DroppedOf(t0, days[..k])), days[k];
    assert d !in days[..k];
    assert LiveRows(t, d) == LiveRows(t0, d);
    DroppableIffNoneLive(t, d);
    DroppableIffNoneLive(t0, d);
  }

  lemma OneMoreDay(t0: Table, days: seq<int>, k: nat)
    requires k < |days|
    ensures DroppedOf(t0, days[..k + 1]) == DroppedOf(t0, days[..k]) + if Droppable(t0, days[k]) then {days[k]} else {}
    ensures Refusals(t0, days[..k + 1])
      == Refusals(t0, days[..k]) + if Droppable(t0, days[k]) then [] else [Retained(days[k], |LiveRows(t0, days[k])|)]
  {
    assert days[..k + 1] == days[..k] + [days[k]];
    assert days[..k + 1][..k] == days[..k];
  }

  lemma AllTaken(parts0: set<int>, t0: Table, cutoff: int, parts: set<int>, t: Table, found: seq<Retained>)
    requires DoneTo(parts0, t0, cutoff, |Candidates(parts0, cutoff)|, parts, t, found)
    ensures parts == parts0 - Expired(parts0, t0, cutoff) && t == Without(t0, Expired(parts0, t0, cutoff))
    ensures found == Refusals(t0, Candidates(parts0, cutoff))
  {
    var days := Candidates(parts0, cutoff);
    InOrderLists(set x | x in parts0 && x < cutoff);
    assert days[..|days|] == days;
    assert DroppedOf(t0, days) == Expired(parts0, t0, cutoff);
  }

  lemma {:induction false} RefusedOf(t: Table, days: seq<int>, r: Retained)
    ensures r in Refusals(t, days) <==> r.day in days && !Droppable(t, r.day) && r.live == |LiveRows(t, r.day)|
  {
    if days != [] {
      var last := |days| - 1;
      assert days == days[..last] + [days[last]];
      RefusedOf(t, days[..last], r);
    }
  }

  // Nothing is held back silently: the days warned about are exactly the partitions
  // that survive past retention, each with the number of live rows that pin it.
  lemma RetainedMeansWarned(parts: set<int>, t: Table, today: int, retention: int, lookahead: int, r: Retained)
    ensures
      var made := parts + Window(today, lookahead);
      r in Refusals(t, Candidates(made, today - retention)) <==>
        && r.day in PassParts(parts, t, today, retention, lookahead) && r.day < today - retention
        && r.live == |LiveRows(PassHot(parts, t, today, retention, lookahead), r.day)| && r.live > 0
  {
    var made := parts + Window(today, lookahead);
    var days := Candidates(made, today - retention);
    InOrderLists(set d | d in made && d < today - retention);
    RefusedOf(t, days, r);
    DroppableIffNoneLive(t, r.day);
    if r.day in made && r.day < today - retention && !Droppable(t, r.day) {
      assert LiveRows(PassHot(parts, t, today, retention, lookahead), r.day) == LiveRows(t, r.day);
    }
  }
}
