// The claim statement taken apart: replicas pick from a snapshot, lock what they
// can with a recheck of the row, and update. They coordinate through row locks
// alone, and still never return one row twice without its release in between.
module Replicas {
  import opened Options
  import opened Rows
  import opened ClaimSpec

  // What happened to a row: a claim returned it, or it was requeued, deferred or reaped.
  datatype Event = Returned(replica: nat) | Released

  datatype State = State(
    rows: Table,
    picked: map<nat, set<Id>>,   // replicas whose claim is under way, with their picks
    locks: map<Id, nat>,         // row locks, by holder
    past: map<Id, seq<Event>>)   // every id ever inserted

  datatype Release = Requeue | Defer(notBefore: Time) | Reap(now: Time, delay: int)

  datatype Action =
    | Insert(id: Id, op: Op)
    | Snapshot(r: nat, q: Query)
    | Lock(r: nat, id: Id)
    | Commit(r: nat, now: Time)
    | Abort(r: nat)
    | LetGo(id: Id, how: Release)
    | Finalize(id: Id, outcome: Outcome, now: Time)
    | Drop(id: Id)

  // The recheck of the locked CTE: the row's own status only.
  predicate Claimable(r: Row) { !r.Terminal() && r.status != RUNNING }

  predicate Enabled(s: State, a: Action) {
    match a
    case Insert(id, _) => id !in s.past
    case Snapshot(r, _) => r !in s.picked
    case Lock(r, id) => r in s.picked && id in s.picked[r] && id in s.rows && id !in s.locks && Claimable(s.rows[id])
    case Commit(r, _) => r in s.picked
    case Abort(r) => r in s.picked
    case LetGo(id, how) => id in s.rows && id !in s.locks && s.rows[id].status == RUNNING
    case Finalize(id, _, _) => id in s.rows && id !in s.locks && !s.rows[id].Terminal()
    case Drop(id) => id in s.rows && id !in s.locks && s.rows[id].Terminal()
  }

  predicate HeldBy(s: State, r: nat, id: Id) { id in s.locks && s.locks[id] == r }

  function Unlocked(locks: map<Id, nat>, r: nat): map<Id, nat> {
    map id | id in locks && locks[id] != r :: locks[id]
  }

  function Log(past: map<Id, seq<Event>>, id: Id, e: Event): map<Id, seq<Event>> {
    past[id := (if id in past then past[id] else []) + [e]]
  }

  function LetGoRow(r: Row, how: Release): Row {
    match how
    case Requeue => RequeueRow(r)
    case Defer(notBefore) => DeferRow(r, notBefore)
    case Reap(now, delay) => ReapRow(r, now, delay)
  }

  function Next(s: State, a: Action): State
    requires Enabled(s, a)
  {
    match a
    case Insert(id, op) => s.(rows := s.rows[id := NewRow(op)], past := s.past[id := []])
    case Snapshot(r, q) => s.(picked := s.picked[r := PickedSet(s.rows, q)])
    case Lock(r, id) => s.(locks := s.locks[id := r])
    case Commit(r, now) => s.(
      rows := map id | id in s.rows :: if HeldBy(s, r, id) then ClaimRow(s.rows[id], now) else s.rows[id],
      past := map id | id in s.past :: if HeldBy(s, r, id) then s.past[id] + [Returned(r)] else s.past[id],
      picked := s.picked - {r}, locks := Unlocked(s.locks, r))
    case Abort(r) => s.(picked := s.picked - {r}, locks := Unlocked(s.locks, r))
    case LetGo(id, how) => s.(rows := s.rows[id := LetGoRow(s.rows[id], how)], past := Log(s.past, id, Released))
    case Finalize(id, outcome, now) => s.(rows := s.rows[id := FinalizeRow(s.rows[id], outcome, None, None, now)])
    case Drop(id) => s.(rows := s.rows - {id})
  }

  // Between two returns of a row it was released.
  ghost predicate ReleasedBetween(es: seq<Event>) {
    forall i, j :: 0 <= i < j < |es| && es[i].Returned? && es[j].Returned? ==>
      exists m :: i < m < j && es[m].Released?
  }

  ghost predicate Inv(s: State) {
    && s.rows.Keys <= s.past.Keys
    && (forall id :: id in s.past ==> ReleasedBetween(s.past[id]))
    && (forall id :: id in s.rows && s.past[id] != [] && s.past[id][|s.past[id]| - 1].Returned? ==> !Claimable(s.rows[id]))
    && (forall id :: id in s.locks ==> id in s.rows && Claimable(s.rows[id]))
  }

  lemma MoreEvents(es: seq<Event>, e: Event)
    requires ReleasedBetween(es) && (e.Returned? ==> es == [] || es[|es| - 1].Released?)
    ensures ReleasedBetween(es + [e])
  {
    var more := es + [e];
    forall i, j | 0 <= i < j < |more| && more[i].Returned? && more[j].Returned?
      ensures exists m :: i < m < j && more[m].Released?
    {
      if j == |es| {
        assert more[|es| - 1].Released?;
      } else {
        var m :| i < m < j && es[m].Released?;
        assert more[m].Released?;
      }
    }
  }

  lemma NextKeeps(s: State, a: Action)
    requires Inv(s) && Enabled(s, a)
    ensures Inv(Next(s, a))
  {
    match a
    case Commit(r, now) => CommitKeeps(s, r, now);
    case LetGo(id, how) => LetGoKeeps(s, id, how);
    case _ =>
  }

  lemma CommitKeeps(s: State, r: nat, now: Time)
    requires Inv(s) && Enabled(s, Commit(r, now))
    ensures Inv(Next(s, Commit(r, now)))
  {
    forall id | id in s.past && HeldBy(s, r, id) ensures ReleasedBetween(s.past[id] + [Returned(r)]) {
      MoreEvents(s.past[id], Returned(r));
    }
  }

  lemma LetGoKeeps(s: State, id: Id, how: Release)
    requires Inv(s) && Enabled(s, LetGo(id, how))
    ensures Inv(Next(s, LetGo(id, how)))
  {
    MoreEvents(s.past[id], Released);
  }

  // A row that runs was returned, and not released since; a row that is locked is one
  // that its holder has picked and not yet committed or given up.
  ghost predicate Tracked(s: State) {
    && (forall id :: id in s.rows && s.rows[id].status == RUNNING ==> id in s.past && IsOut(s.past[id]))
    && (forall id :: id in s.locks ==> s.locks[id] in s.picked && id in s.picked[s.locks[id]])
  }

  predicate IsOut(es: seq<Event>) { es != [] && es[|es| - 1].Returned? }

  lemma TrackedKept(s: State, a: Action)
    requires s.rows.Keys <= s.past.Keys && Tracked(s) && Enabled(s, a)
    ensures Tracked(Next(s, a))
  {
  }

  predicate Runs(s: State, acts: seq<Action>)
    decreases |acts|
  {
    acts == [] || (Enabled(s, acts[0]) && Runs(Next(s, acts[0]), acts[1..]))
  }

  function After(s: State, acts: seq<Action>): State
    requires Runs(s, acts)
    decreases |acts|
  {
    if acts == [] then s else After(Next(s, acts[0]), acts[1..])
  }

  const EMPTY: State := State(map[], map[], map[], map[])

  lemma {:induction false} RunKeeps(s: State, acts: seq<Action>)
    requires Inv(s) && Tracked(s) && Runs(s, acts)
    ensures Inv(After(s, acts)) && Tracked(After(s, acts))
    decreases |acts|
  {
    if acts != [] {
      NextKeeps(s, acts[0]);
      TrackedKept(s, acts[0]);
      RunKeeps(Next(s, acts[0]), acts[1..]);
    }
  }

  // Any number of replicas, any interleaving: no row is returned by two claims
  // unless it was requeued, deferred or reaped between them, and none runs without
  // having been returned since.
  lemma ReplicasPartitionTheBacklog(acts: seq<Action>, id: Id)
    requires Runs(EMPTY, acts) && id in After(EMPTY, acts).past
    ensures var s := After(EMPTY, acts);
      && ReleasedBetween(s.past[id])
      && (id in s.rows && s.rows[id].status == RUNNING ==> IsOut(s.past[id]))
      && (id in s.locks ==> s.locks[id] in s.picked && id in s.picked[s.locks[id]])
  {
    RunKeeps(EMPTY, acts);
  }

  // A lock is its holder's until that replica commits or gives up.
  lemma LocksLast(s: State, a: Action, id: Id)
    requires Enabled(s, a) && id in s.locks
    requires (a.Commit? || a.Abort?) ==> a.r != s.locks[id]
    ensures id in Next(s, a).locks && Next(s, a).locks[id] == s.locks[id]
  {
  }

  // A dropped row is gone for good: its id is never handed out again.
  lemma DroppedStaysGone(s: State, id: Id, acts: seq<Action>)
    requires Inv(s) && Enabled(s, Drop(id)) && Runs(Next(s, Drop(id)), acts)
    ensures id !in After(Next(s, Drop(id)), acts).rows
  {
    GoneStaysGone(Next(s, Drop(id)), id, acts);
  }

  lemma {:induction false} GoneStaysGone(s: State, id: Id, acts: seq<Action>)
    requires id in s.past && id !in s.rows && Runs(s, acts)
    ensures id !in After(s, acts).rows
    decreases |acts|
  {
    if acts != [] { GoneStaysGone(Next(s, acts[0]), id, acts[1..]); }
  }
}
