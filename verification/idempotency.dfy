// Idempotent enqueue: every client locks the hash of its key, looks the key up in
// the hot table, and inserts only when nothing is there. Transactions interleave.
module Idempotency {
  import opened Rows

  // Where one client's enqueue transaction stands.
  datatype Tx = Idle | Locked(op: Op) | Found(op: Op, id: Id) | Absent(op: Op)

  // An answer given to a caller.
  datatype Answer = Answer(key: string, id: Id)

  datatype State = State(
    hot: Table,
    used: set<Id>,           // every id ever handed out
    clients: map<nat, Tx>,
    answers: seq<Answer>)

  datatype Action =
    | Begin(c: nat, op: Op)      // takes the advisory lock, once nobody else holds it
    | Look(c: nat, id: Id)       // finds the row with this id, or none
    | LookNone(c: nat)
    | Commit(c: nat, id: Id)     // inserts under a fresh id if absent, answers, releases the lock
    | Rollback(c: nat)
    | Change(id: Id, row: Row)   // any later life of the row
    | Age(id: Id)                // the row leaves the hot table

  function KeyOf(t: Tx): string
    requires !t.Idle?
  {
    t.op.key
  }

  predicate Holds(s: State, c: nat) { c in s.clients && !s.clients[c].Idle? }

  // pg_advisory_xact_lock on the key's hash: distinct keys may collide.
  ghost predicate LockFree(hash: string -> int, s: State, key: string) {
    forall d :: Holds(s, d) ==> hash(KeyOf(s.clients[d])) != hash(key)
  }

  ghost predicate Enabled(hash: string -> int, s: State, a: Action) {
    Ready(s, a) && (a.Begin? ==> LockFree(hash, s, a.op.key))
  }

  // What a step needs apart from the lock.
  ghost predicate Ready(s: State, a: Action) {
    match a
    case Begin(c, op) => !Holds(s, c)
    case Look(c, id) => c in s.clients && s.clients[c].Locked? && id in s.hot && s.hot[id].op.key == s.clients[c].op.key
    case LookNone(c) => c in s.clients && s.clients[c].Locked?
        && forall id :: id in s.hot ==> s.hot[id].op.key != s.clients[c].op.key
    case Commit(c, id) => c in s.clients &&
        ((s.clients[c].Found? && id == s.clients[c].id) || (s.clients[c].Absent? && id !in s.used))
    case Rollback(c) => Holds(s, c)
    case Change(id, row) => id in s.hot && row.op == s.hot[id].op
    case Age(id) => id in s.hot
  }

  function Next(s: State, a: Action): State {
    match a
    case Begin(c, op) => s.(clients := s.clients[c := Locked(op)])
    case Look(c, id) => if Holds(s, c) then s.(clients := s.clients[c := Found(s.clients[c].op, id)]) else s
    case LookNone(c) => if Holds(s, c) then s.(clients := s.clients[c := Absent(s.clients[c].op)]) else s
    case Commit(c, id) =>
      if !Holds(s, c) then s
      else
        var op := s.clients[c].op;
        s.(hot := if s.clients[c].Absent? then s.hot[id := NewRow(op)] else s.hot,
           used := s.used + {id}, clients := s.clients[c := Idle],
           answers := s.answers + [Answer(op.key, id)])
    case Rollback(c) => s.(clients := s.clients[c := Idle])
    case Change(id, row) => s.(hot := s.hot[id := row])
    case Age(id) => s.(hot := s.hot - {id})
  }

  // ---- invariant ---------------------------------------------------------

  ghost predicate OneRowPerKey(hot: Table) {
    forall a, b :: a in hot && b in hot && hot[a].op.key == hot[b].op.key ==> a == b
  }

  ghost predicate LocksExclude(hash: string -> int, s: State) {
    forall c, d :: Holds(s, c) && Holds(s, d) && c != d ==> hash(KeyOf(s.clients[c])) != hash(KeyOf(s.clients[d]))
  }

  ghost predicate NoRowWith(hot: Table, key: string) {
    forall id :: id in hot ==> hot[id].op.key != key
  }

  ghost predicate OnlyRowWith(hot: Table, key: string, only: Id) {
    forall id :: id in hot && hot[id].op.key == key ==> id == only
  }

  predicate Carries(hot: Table, id: Id, key: string) {
    id in hot ==> hot[id].op.key == key
  }

  // What a client looked up still stands: only the lock's holder could change it.
  ghost predicate Stands(s: State, t: Tx) {
    match t
    case Found(op, id) => id in s.used && Carries(s.hot, id, op.key) && OnlyRowWith(s.hot, op.key, id)
    case Absent(op) => NoRowWith(s.hot, op.key)
    case _ => true
  }

  ghost predicate LookupsStand(s: State) {
    forall c :: c in s.clients ==> Stands(s, s.clients[c])
  }

  ghost predicate AnswersCarry(s: State) {
    forall k :: 0 <= k < |s.answers| ==> s.answers[k].id in s.used && Carries(s.hot, s.answers[k].id, s.answers[k].key)
  }

  // While an answered row is hot, every later caller of its key is given it.
  ghost predicate AnswersAgree(s: State) {
    forall j, k :: 0 <= j < k < |s.answers| && s.answers[j].key == s.answers[k].key && s.answers[j].id in s.hot ==> s.answers[k].id == s.answers[j].id
  }

  ghost predicate Inv(hash: string -> int, s: State) {
    s.hot.Keys <= s.used && OneRowPerKey(s.hot) && LocksExclude(hash, s) && LookupsStand(s) && AnswersCarry(s) && AnswersAgree(s)
  }

  // ---- every step keeps it ----------------------------------------------

  lemma LocksKept(hash: string -> int, s: State, a: Action)
    requires LocksExclude(hash, s) && Enabled(hash, s, a)
    ensures LocksExclude(hash, Next(s, a))
  {
    var t := Next(s, a);
    forall c, d | Holds(t, c) && Holds(t, d) && c != d ensures hash(KeyOf(t.clients[c])) != hash(KeyOf(t.clients[d])) {
      assert Holds(s, c) || (a.Begin? && a.c == c);
      assert Holds(s, d) || (a.Begin? && a.c == d);
    }
  }

  // The one step that adds a row: nobody else holds a lookup of its key.
  lemma InsertKeepsLookups(hash: string -> int, s: State, c: nat, id: Id)
    requires Inv(hash, s) && Enabled(hash, s, Commit(c, id)) && s.clients[c].Absent?
    ensures LookupsStand(Next(s, Commit(c, id)))
  {
    var t := Next(s, Commit(c, id));
    forall d | d in t.clients && d != c ensures Stands(t, t.clients[d]) {
      assert Stands(s, s.clients[d]);
      assert Holds(s, c);
      if Holds(s, d) { assert KeyOf(s.clients[d]) != KeyOf(s.clients[c]); }
    }
  }

  lemma LookupsKept(hash: string -> int, s: State, a: Action)
    requires Inv(hash, s) && Enabled(hash, s, a)
    ensures LookupsStand(Next(s, a))
  {
    var t := Next(s, a);
    if a.Commit? && s.clients[a.c].Absent? {
      InsertKeepsLookups(hash, s, a.c, a.id);
    } else {
      forall d | d in t.clients ensures Stands(t, t.clients[d]) {
        if d in s.clients { assert Stands(s, s.clients[d]); }
      }
    }
  }

  lemma RowsKept(hash: string -> int, s: State, a: Action)
    requires Inv(hash, s) && Enabled(hash, s, a)
    ensures Next(s, a).hot.Keys <= Next(s, a).used && OneRowPerKey(Next(s, a).hot)
  {
    if a.Commit? { assert Stands(s, s.clients[a.c]); }
  }

  lemma AnswersKept(hash: string -> int, s: State, a: Action)
    requires Inv(hash, s) && Enabled(hash, s, a)
    ensures AnswersCarry(Next(s, a)) && AnswersAgree(Next(s, a))
  {
    var t := Next(s, a);
    if a.Commit? {
      assert Stands(s, s.clients[a.c]);
      forall k | 0 <= k < |t.answers|
        ensures t.answers[k].id in t.used && Carries(t.hot, t.answers[k].id, t.answers[k].key)
      {
        if k < |s.answers| { assert t.answers[k] == s.answers[k]; }
      }
      forall j, k | 0 <= j < k < |t.answers| && t.answers[j].key == t.answers[k].key && t.answers[j].id in t.hot
        ensures t.answers[k].id == t.answers[j].id
      {
        assert t.answers[j] == s.answers[j] && s.answers[j].id in s.used;
        assert Carries(s.hot, s.answers[j].id, s.answers[j].key);
        if k < |s.answers| { assert t.answers[k] == s.answers[k]; }
      }
    }
  }

  // ---- whole runs --------------------------------------------------------

  function Start(): State { State(map[], {}, map[], []) }

  function After(s: State, run: seq<Action>): State
    decreases |run|
  {
    if run == [] then s else After(Next(s, run[0]), run[1..])
  }

  ghost predicate Possible(hash: string -> int, s: State, run: seq<Action>)
    decreases |run|
  {
    run == [] || (Enabled(hash, s, run[0]) && Possible(hash, Next(s, run[0]), run[1..]))
  }

  lemma {:induction false} RunKeeps(hash: string -> int, s: State, run: seq<Action>)
    requires Inv(hash, s) && Possible(hash, s, run)
    ensures Inv(hash, After(s, run))
    decreases |run|
  {
    if run != [] {
      LocksKept(hash, s, run[0]);
      LookupsKept(hash, s, run[0]);
      RowsKept(hash, s, run[0]);
      AnswersKept(hash, s, run[0]);
      RunKeeps(hash, Next(s, run[0]), run[1..]);
    }
  }

  // However the clients interleave and whatever keys collide in the hash: one hot
  // row per key, and a key's callers agree on the id for as long as its row is hot.
  lemma EnqueueIsIdempotent(hash: string -> int, run: seq<Action>)
    requires Possible(hash, Start(), run)
    ensures OneRowPerKey(After(Start(), run).hot) && AnswersAgree(After(Start(), run))
  {
    RunKeeps(hash, Start(), run);
  }

  ghost predicate PossibleUnlocked(s: State, run: seq<Action>)
    decreases |run|
  {
    run == [] || (Ready(s, run[0]) && PossibleUnlocked(Next(s, run[0]), run[1..]))
  }

  // Two clients that both look before either inserts.
  function Race(op: Op, a: Id, b: Id): seq<Action> {
    [Begin(0, op), Begin(1, op), LookNone(0), LookNone(1), Commit(0, a), Commit(1, b)]
  }

  // A row lives on and leaves the hot table, and another caller of its key comes.
  function Again(op: Op, a: Id, b: Id, row: Row): seq<Action> {
    [Age(a), Begin(1, op), LookNone(1), Commit(1, b), Change(b, row)]
  }

  // A transaction that fails leaves nothing behind, not even its lock.
  function Twice(op: Op, a: Id): seq<Action> {
    [Begin(2, op), Rollback(2), Begin(0, op), LookNone(0), Commit(0, a)]
  }

  function Once(op: Op, a: Id): State { State(map[a := NewRow(op)], {a}, map[0 := Idle, 2 := Idle], [Answer(op.key, a)]) }

  // A key is free again once its row has left: for every operation there is a run, the
  // lock held as it must be, in which two callers of its key are given two ids.
  lemma AgedKeysAreReused(hash: string -> int, op: Op, a: Id, b: Id, row: Row)
    requires a != b && row.op == op
    ensures var run := Twice(op, a) + Again(op, a, b, row);
      && Possible(hash, Start(), run)
      && After(Start(), run).answers == [Answer(op.key, a), Answer(op.key, b)]
      && After(Start(), run).hot == map[b := row]
  {
    var rest := Again(op, a, b, row);
    var s1 := Next(Start(), Begin(2, op));
    var s2 := Next(s1, Rollback(2));
    var s3 := Next(s2, Begin(0, op));
    var s4 := Next(s3, LookNone(0));
    assert s2 == State(map[], {}, map[2 := Idle], []);
    assert Next(s4, Commit(0, a)) == Once(op, a);
    SecondCaller(hash, op, a, b, row);
    StepsTo(hash, s4, Commit(0, a), rest);
    StepsTo(hash, s3, LookNone(0), [Commit(0, a)] + rest);
    StepsTo(hash, s2, Begin(0, op), [LookNone(0)] + ([Commit(0, a)] + rest));
    StepsTo(hash, s1, Rollback(2), [Begin(0, op)] + ([LookNone(0)] + ([Commit(0, a)] + rest)));
    StepsTo(hash, Start(), Begin(2, op), [Rollback(2)] + ([Begin(0, op)] + ([LookNone(0)] + ([Commit(0, a)] + rest))));
    assert Twice(op, a) + rest == [Begin(2, op)] + ([Rollback(2)] + ([Begin(0, op)] + ([LookNone(0)] + ([Commit(0, a)] + rest))));
  }

  lemma SecondCaller(hash: string -> int, op: Op, a: Id, b: Id, row: Row)
    requires a != b && row.op == op
    ensures var s, run := Once(op, a), Again(op, a, b, row);
      && Possible(hash, s, run)
      && After(s, run).answers == [Answer(op.key, a), Answer(op.key, b)]
      && After(s, run).hot == map[b := row]
  {
    var s4 := Next(Once(op, a), Age(a));
    var s5 := Next(s4, Begin(1, op));
    var s6 := Next(s5, LookNone(1));
    var last := [Commit(1, b), Change(b, row)];
    assert s4 == State(map[], {a}, map[0 := Idle, 2 := Idle], [Answer(op.key, a)]);
    SecondCommits(hash, op, a, b, row, s6);
    StepsTo(hash, s5, LookNone(1), last);
    StepsTo(hash, s4, Begin(1, op), [LookNone(1)] + last);
    StepsTo(hash, Once(op, a), Age(a), [Begin(1, op)] + ([LookNone(1)] + last));
    assert Again(op, a, b, row) == [Age(a)] + ([Begin(1, op)] + ([LookNone(1)] + last));
  }

  lemma SecondCommits(hash: string -> int, op: Op, a: Id, b: Id, row: Row, s: State)
    requires a != b && row.op == op
    requires s == State(map[], {a}, map[0 := Idle, 1 := Absent(op), 2 := Idle], [Answer(op.key, a)])
    ensures var run := [Commit(1, b), Change(b, row)];
      && Possible(hash, s, run)
      && After(s, run).answers == [Answer(op.key, a), Answer(op.key, b)]
      && After(s, run).hot == map[b := row]
  {
    var s7 := Next(s, Commit(1, b));
    var s8 := Next(s7, Change(b, row));
    assert s8.hot == map[b := row];
    assert Possible(hash, s8, []) && After(s8, []) == s8;
    StepsTo(hash, s7, Change(b, row), []);
    StepsTo(hash, s, Commit(1, b), [Change(b, row)]);
  }

  lemma StepsTo(hash: string -> int, s: State, a: Action, rest: seq<Action>)
    requires Enabled(hash, s, a) && Possible(hash, Next(s, a), rest)
    ensures Possible(hash, s, [a] + rest) && After(s, [a] + rest) == After(Next(s, a), rest)
  {
    assert ([a] + rest)[1..] == rest;
  }

  // The lock is what does it: but for the lock every step of this run is enabled, and
  // it ends with two hot rows of one key.
  lemma TheLockIsNeeded(op: Op, a: Id, b: Id)
    requires a != b
    ensures PossibleUnlocked(Start(), Race(op, a, b)) && !OneRowPerKey(After(Start(), Race(op, a, b)).hot)
  {
    var s1 := Next(Start(), Begin(0, op));
    var s2 := Next(s1, Begin(1, op));
    var s3 := Next(s2, LookNone(0));
    var s4 := Next(s3, LookNone(1));
    var s5 := Next(s4, Commit(0, a));
    var s6 := Next(s5, Commit(1, b));
    assert s4 == State(map[], {}, map[0 := Absent(op), 1 := Absent(op)], []);
    assert s6.hot == map[a := NewRow(op), b := NewRow(op)];
    assert s6.hot[a].op.key == s6.hot[b].op.key;
    var run := Race(op, a, b);
    assert PossibleUnlocked(s6, []) && After(s6, []) == s6;
    Unlocked(s5, Commit(1, b), []);
    Unlocked(s4, Commit(0, a), [Commit(1, b)]);
    Unlocked(s3, LookNone(1), [Commit(0, a), Commit(1, b)]);
    Unlocked(s2, LookNone(0), [LookNone(1), Commit(0, a), Commit(1, b)]);
    Unlocked(s1, Begin(1, op), [LookNone(0), LookNone(1), Commit(0, a), Commit(1, b)]);
    Unlocked(Start(), Begin(0, op), [Begin(1, op), LookNone(0), LookNone(1), Commit(0, a), Commit(1, b)]);
  }

  lemma Unlocked(s: State, a: Action, rest: seq<Action>)
    requires Ready(s, a) && PossibleUnlocked(Next(s, a), rest)
    ensures PossibleUnlocked(s, [a] + rest) && After(s, [a] + rest) == After(Next(s, a), rest)
  {
    assert ([a] + rest)[1..] == rest;
  }
}
