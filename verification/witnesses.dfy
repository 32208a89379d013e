// Runs that show what the guarantees leave open: the bounds on claims and backoff are
// reached, an honest target is needed for one object a create, and a shown uid can be
// replaced when its partition is dropped.
module Witnesses {
  import opened Options
  import opened Rows
  import opened ClaimSpec
  import opened Resolution
  import opened Protocol
  import opened CellLaws
  import opened StrictLaws
  import opened Rejections
  import Store

  // ---- one operation between attempts ---------------------------------------

  // No attempt and no call under way, nothing made: so many requeues, claims and reaps so far.
  ghost predicate Between(c: Cell, op: Op, st: Status, k: nat, n: nat, r: nat, waited: int) {
    && c.op == op && c.row.Some? && c.row.value.op == op && c.row.value.status == st && c.row.value.attemptCount == k
    && (st == AWAITING_READBACK ==> c.row.value.notBefore.Some?)
    && c.live == map[] && c.hist.None? && !c.present && |c.claims| == n
    && c.requeues == k && c.reaps == r && c.waited == waited
    && forall m :: m in c.calls ==> m < n && !c.calls[m].InFlight?
  }

  lemma StartsBetween(op: Op)
    ensures Between(NewCell(op, false), op, PENDING, 0, 0, 0, 0)
  {
  }

  // Claimed, and called in vain.
  ghost predicate Tried(c: Cell, c': Cell, t: Time) {
    && c.row.Some? && |c.claims| !in c.calls
    && c' == c.(row := Some(ClaimRow(c.row.value, t)), claims := c.claims + [Claim(PENDING, c.row.value.attemptCount)],
                live := map[|c.claims| := Calling], calls := c.calls[|c.claims| := Failed], started := c.started + 1)
  }

  lemma TryCall(env: Env, t0: Time, c0: Cell, steps: seq<Step>, c: Cell, op: Op, k: nat, n: nat, r: nat, waited: int)
    returns (more: seq<Step>, c': Cell)
    requires Path(env, t0, c0, steps, c) && Between(c, op, PENDING, k, n, r, waited) && CanSend(NewCell(op, false), PENDING)
    ensures Path(env, t0, c0, more, c') && LastAt(t0, more) == LastAt(t0, steps) && Tried(c, c', LastAt(t0, steps))
  {
    var t := LastAt(t0, steps);
    var c1 := Perform(env, t, c, Take);
    Then(env, t0, c0, steps, c, Step(t, Take));
    more := steps + [Step(t, Take)];
    assert c1.live == map[n := Phase.Claimed];
    var c2 := Perform(env, t, c1, Send(n));
    Then(env, t0, c0, more, c1, Step(t, Send(n)));
    more := more + [Step(t, Send(n))];
    c' := Perform(env, t, c2, Fizzle(n));
    Then(env, t0, c0, more, c2, Step(t, Fizzle(n)));
    more := more + [Step(t, Fizzle(n))];
    assert c'.live == map[n := Calling] && c'.calls == c.calls[n := Failed];
  }

  // The answer arrives and its resolution is written back.
  lemma AnswerAndWrite(env: Env, t0: Time, c0: Cell, steps: seq<Step>, c: Cell, n: nat, ans: Answer) returns (more: seq<Step>, c': Cell)
    requires Path(env, t0, c0, steps, c) && Enabled(env, LastAt(t0, steps), c, Reply(n, ans))
    ensures Path(env, t0, c0, more, c') && LastAt(t0, more) == LastAt(t0, steps)
    ensures var r := Resolve(env.cfg, env.inst(c.op.instance), c.op, c.claims[n].prior, c.claims[n].attemptCount, ans);
      c' == WriteBack(LastAt(t0, steps), c.(live := c.live - {n}, answers := c.answers[n := ans]), r)
  {
    var t := LastAt(t0, steps);
    var c1 := Perform(env, t, c, Reply(n, ans));
    Then(env, t0, c0, steps, c, Step(t, Reply(n, ans)));
    more := steps + [Step(t, Reply(n, ans))];
    c' := Perform(env, t, c1, Write(n));
    Then(env, t0, c0, more, c1, Step(t, Write(n)));
    more := more + [Step(t, Write(n))];
    assert c1.(live := c1.live - {n}) == c.(live := c.live - {n}, answers := c.answers[n := ans]);
  }

  // ---- what can happen to it --------------------------------------------------

  // A retryable error below the ceiling.
  lemma Retry(env: Env, t0: Time, c0: Cell, steps: seq<Step>, c: Cell, op: Op, k: nat, n: nat, r: nat, waited: int)
    returns (more: seq<Step>, c': Cell)
    requires Path(env, t0, c0, steps, c) && Between(c, op, PENDING, k, n, r, waited) && CanSend(NewCell(op, false), PENDING)
    requires k + 1 < env.cfg.maxAttempts && !IsDelta(op.opType)
    ensures Path(env, t0, c0, more, c') && Between(c', op, PENDING, k + 1, n + 1, r, waited + Backoff(env.cfg, k))
  {
    var mid;
    more, mid := TryCall(env, t0, c0, steps, c, op, k, n, r, waited);
    RetryableAnswer(env, op, k);
    more, c' := AnswerAndWrite(env, t0, c0, more, mid, n, RETRYABLE);
    assert mid.live - {n} == map[];
  }

  lemma RetryableAnswer(env: Env, op: Op, k: nat)
    requires k + 1 < env.cfg.maxAttempts && !IsDelta(op.opType)
    ensures Resolve(env.cfg, env.inst(op.instance), op, PENDING, k, RETRYABLE)
         == Resolution.Requeue("CONNECTION_FAILED", Backoff(env.cfg, k))
  {
  }

  // A create times out and is deferred.
  lemma Defer(env: Env, t0: Time, c0: Cell, steps: seq<Step>, c: Cell, op: Op, k: nat, n: nat, r: nat, waited: int)
    returns (more: seq<Step>, c': Cell)
    requires Path(env, t0, c0, steps, c) && Between(c, op, PENDING, k, n, r, waited)
    requires op.opType == CREATE && op.name.Some? && env.inst(op.instance).equalitySearchOnName
    ensures Path(env, t0, c0, more, c') && Between(c', op, AWAITING_READBACK, k, n + 1, r, waited)
  {
    var mid;
    more, mid := TryCall(env, t0, c0, steps, c, op, k, n, r, waited);
    more, c' := AnswerAndWrite(env, t0, c0, more, mid, n, TIMEOUT);
    assert mid.live - {n} == map[];
  }

  function DueAt(c: Cell, t: Time): Time
    requires c.row.Some?
  {
    if c.row.value.status == AWAITING_READBACK && c.row.value.notBefore.Some? then Max(t, c.row.value.notBefore.value) else t
  }

  // Claimed once it is due.
  lemma TakeDue(env: Env, t0: Time, c0: Cell, steps: seq<Step>, c: Cell, op: Op, st: Status, k: nat, n: nat, r: nat, waited: int)
    returns (more: seq<Step>, c': Cell)
    requires Path(env, t0, c0, steps, c) && Between(c, op, st, k, n, r, waited) && (st == PENDING || st == AWAITING_READBACK)
    ensures Path(env, t0, c0, more, c') && LastAt(t0, more) == DueAt(c, LastAt(t0, steps))
    ensures c' == Perform(env, LastAt(t0, more), c, Take) && |c'.claims| == n + 1 && c'.live == map[n := Phase.Claimed]
  {
    var t := DueAt(c, LastAt(t0, steps));
    c' := Perform(env, t, c, Take);
    Then(env, t0, c0, steps, c, Step(t, Take));
    more := steps + [Step(t, Take)];
  }

  // A read-back finds nothing and the create goes back once.
  lemma Miss(env: Env, t0: Time, c0: Cell, steps: seq<Step>, c: Cell, op: Op, n: nat, r: nat, waited: int)
    returns (more: seq<Step>, c': Cell)
    requires Path(env, t0, c0, steps, c) && Between(c, op, AWAITING_READBACK, 0, n, r, waited) && op.name.Some?
    ensures Path(env, t0, c0, more, c') && Between(c', op, PENDING, 1, n + 1, r, waited)
  {
    var c1;
    more, c1 := TakeDue(env, t0, c0, steps, c, op, AWAITING_READBACK, 0, n, r, waited);
    var t := LastAt(t0, more);
    var c2 := c1.(live := map[n := Calling]);
    SearchSent(env, t, c1, n);
    Then(env, t0, c0, more, c1, Step(t, Send(n)));
    more := more + [Step(t, Send(n))];
    more, c' := AnswerAndWrite(env, t0, c0, more, c2, n, Missing);
    assert c2.live - {n} == map[];
  }

  lemma SearchSent(env: Env, t: Time, c: Cell, n: nat)
    requires c.live == map[n := Phase.Claimed] && n < |c.claims| && Searches(c.claims[n].prior) && c.op.name.Some?
    ensures Enabled(env, t, c, Send(n)) && Perform(env, t, c, Send(n)) == c.(live := map[n := Calling])
  {
  }

  // Its dispatcher dies and it is reaped.
  lemma Abandon(env: Env, t0: Time, c0: Cell, steps: seq<Step>, c: Cell, op: Op, st: Status, k: nat, n: nat, r: nat, waited: int)
    returns (more: seq<Step>, c': Cell)
    requires Path(env, t0, c0, steps, c) && Between(c, op, st, k, n, r, waited) && (st == PENDING || st == AWAITING_READBACK)
    ensures Path(env, t0, c0, more, c')
    ensures Between(c', op, if op.opType == CREATE then AWAITING_READBACK else PENDING, k, n + 1, r + 1, waited)
  {
    var c1;
    more, c1 := TakeDue(env, t0, c0, steps, c, op, st, k, n, r, waited);
    var t := LastAt(t0, more);
    var c2 := Perform(env, t, c1, Lose(n));
    Then(env, t0, c0, more, c1, Step(t, Lose(n)));
    more := more + [Step(t, Lose(n))];
    assert c2.live == map[];
    var later := Max(t, t + env.reapThreshold + 1);
    c' := Perform(env, later, c2, Recover);
    Then(env, t0, c0, more, c2, Step(later, Recover));
    more := more + [Step(later, Recover)];
  }

  // ---- over and over ------------------------------------------------------------

  lemma {:induction false} Abandons(env: Env, t0: Time, c0: Cell, steps: seq<Step>, c: Cell, op: Op, st: Status, n: nat, times: nat)
    returns (more: seq<Step>, c': Cell)
    requires Path(env, t0, c0, steps, c) && Between(c, op, st, 0, n, 0, 0)
    requires st == if op.opType == CREATE then AWAITING_READBACK else PENDING
    ensures Path(env, t0, c0, more, c') && Between(c', op, st, 0, n + times, times, 0)
    decreases times
  {
    if times == 0 {
      more, c' := steps, c;
    } else {
      var mid;
      more, mid := Abandons(env, t0, c0, steps, c, op, st, n, times - 1);
      more, c' := Abandon(env, t0, c0, more, mid, op, st, 0, n + times - 1, times - 1, 0);
    }
  }

  // Backoffs of the counts from k on.
  function Backoffs(cfg: Config, k: nat, times: nat): int {
    if times == 0 then 0 else Backoffs(cfg, k, times - 1) + Backoff(cfg, k + times - 1)
  }

  lemma {:induction false} Retries(env: Env, t0: Time, c0: Cell, steps: seq<Step>, c: Cell, op: Op, k: nat, n: nat, r: nat, times: nat)
    returns (more: seq<Step>, c': Cell)
    requires Path(env, t0, c0, steps, c) && Between(c, op, PENDING, k, n, r, 0) && CanSend(NewCell(op, false), PENDING)
    requires !IsDelta(op.opType) && (times > 0 ==> k + times < env.cfg.maxAttempts)
    ensures Path(env, t0, c0, more, c')
    ensures Between(c', op, PENDING, k + times, n + times, r, Backoffs(env.cfg, k, times))
    decreases times
  {
    if times == 0 {
      more, c' := steps, c;
    } else {
      var mid;
      more, mid := Retries(env, t0, c0, steps, c, op, k, n, r, times - 1);
      more, c' := Retry(env, t0, c0, more, mid, op, k + times - 1, n + times - 1, r, Backoffs(env.cfg, k, times - 1));
    }
  }

  lemma {:induction false} BackoffsFromZero(cfg: Config, times: nat)
    ensures Backoffs(cfg, 0, times) == BackoffSum(cfg, times)
  {
    if times > 0 { BackoffsFromZero(cfg, times - 1); }
  }

  // ---- the bounds are reached -----------------------------------------------------

  // An update: one claim a reap, one a retry, and the last; and every backoff waited.
  lemma UpdateReachesItsBounds(env: Env, t0: Time, op: Op, reaps: nat) returns (acts: seq<Action>, end: Cell)
    requires op.opType == UPDATE
    ensures Reaches(env, Start(t0), acts, end) && end.reaps == reaps
    ensures |end.claims| == end.reaps + Max(1, env.cfg.maxAttempts)
    ensures end.requeues == Max(0, env.cfg.maxAttempts - 1) && end.waited == BackoffSum(env.cfg, Max(0, env.cfg.maxAttempts - 1))
  {
    var c0 := NewCell(op, false);
    StartsBetween(op);
    var times: nat := Max(0, env.cfg.maxAttempts - 1);
    assert Path(env, t0, c0, [], c0);
    var steps, c := Abandons(env, t0, c0, [], c0, op, PENDING, 0, reaps);
    steps, c := Retries(env, t0, c0, steps, c, op, 0, reaps, reaps, times);
    BackoffsFromZero(env.cfg, times);
    steps, end := TakeDue(env, t0, c0, steps, c, op, PENDING, times, reaps + times, reaps, Backoffs(env.cfg, 0, times));
    acts := WholeRun(env, t0, op, steps, end);
  }

  // A create: deferred, reaped while resuming, missed, retried, deferred again, and resumed.
  lemma CreateReachesItsBounds(env: Env, t0: Time, op: Op, reaps: nat) returns (acts: seq<Action>, end: Cell)
    requires op.opType == CREATE && op.name.Some? && env.inst(op.instance).equalitySearchOnName
    ensures Reaches(env, Start(t0), acts, end) && end.reaps == reaps
    ensures |end.claims| == end.reaps + Max(2, env.cfg.maxAttempts) + 2
    ensures end.requeues == Max(1, env.cfg.maxAttempts - 1)
  {
    var c0 := NewCell(op, false);
    StartsBetween(op);
    var times: nat := Max(0, env.cfg.maxAttempts - 2);
    assert Path(env, t0, c0, [], c0);
    var steps, c := Defer(env, t0, c0, [], c0, op, 0, 0, 0, 0);
    steps, c := Abandons(env, t0, c0, steps, c, op, AWAITING_READBACK, 1, reaps);
    steps, c := Miss(env, t0, c0, steps, c, op, reaps + 1, reaps, 0);
    steps, c := Retries(env, t0, c0, steps, c, op, 1, reaps + 2, reaps, times);
    var w := Backoffs(env.cfg, 1, times);
    steps, c := Defer(env, t0, c0, steps, c, op, 1 + times, reaps + 2 + times, reaps, w);
    steps, end := TakeDue(env, t0, c0, steps, c, op, AWAITING_READBACK, 1 + times, reaps + 3 + times, reaps, w);
    acts := WholeRun(env, t0, op, steps, end);
  }

  // ---- a target that is not honest --------------------------------------------------

  // A retryable error after the create was applied.
  lemma AppliedButRetried(env: Env, t0: Time, op: Op) returns (steps: seq<Step>, c: Cell)
    requires !env.honest && op.opType == CREATE && env.cfg.maxAttempts >= 2
    ensures Path(env, t0, NewCell(op, false), steps, c) && LastAt(t0, steps) == t0 && c.op == op
    ensures c.live == map[] && HasStatus(c, PENDING) && c.row.value.op == op && |c.claims| == 1 && c.calls == map[0 := Landed]
  {
    steps := GetsSent(env, t0, op);
    var c1 := Perform(env, t0, Sent(env, t0, op), Land(0));
    Then(env, t0, NewCell(op, false), steps, Sent(env, t0, op), Step(t0, Land(0)));
    steps := steps + [Step(t0, Land(0))];
    RetryableAnswer(env, op, 0);
    steps, c := AnswerAndWrite(env, t0, NewCell(op, false), steps, c1, 0, RETRYABLE);
    assert c1.live - {0} == map[] && c1.calls == map[0 := Landed];
  }

  // The retry makes a second object.
  lemma TwoObjectsIfDishonest(env: Env, t0: Time, op: Op) returns (acts: seq<Action>, end: Cell)
    requires !env.honest && op.opType == CREATE && env.cfg.maxAttempts >= 2
    ensures Reaches(env, Start(t0), acts, end) && end.calls == map[0 := Landed, 1 := Landed]
  {
    var c0 := NewCell(op, false);
    var steps, c := AppliedButRetried(env, t0, op);
    var c1 := Perform(env, t0, c, Take);
    Then(env, t0, c0, steps, c, Step(t0, Take));
    steps := steps + [Step(t0, Take)];
    assert c1.live == map[1 := Phase.Claimed] && c1.claims[1].prior == PENDING && c1.calls == c.calls;
    var c2 := Perform(env, t0, c1, Send(1));
    Then(env, t0, c0, steps, c1, Step(t0, Send(1)));
    steps := steps + [Step(t0, Send(1))];
    end := Perform(env, t0, c2, Land(1));
    Then(env, t0, c0, steps, c2, Step(t0, Land(1)));
    steps := steps + [Step(t0, Land(1))];
    acts := WholeRun(env, t0, op, steps, end);
  }

  // ---- a hit that is someone else's object ---------------------------------------------

  // The create failed, its answer was lost, and the row waits for its read-back.
  lemma FailedAndDeferred(env: Env, t0: Time, op: Op) returns (steps: seq<Step>, c: Cell)
    requires op.opType == CREATE && op.name.Some? && env.inst(op.instance).equalitySearchOnName
    ensures Path(env, t0, NewCell(op, false), steps, c) && Between(c, op, AWAITING_READBACK, 0, 1, 0, 0)
    ensures c.calls == map[0 := Failed]
  {
    var c0 := NewCell(op, false);
    StartsBetween(op);
    assert Path(env, t0, c0, [], c0);
    var mid;
    steps, mid := TryCall(env, t0, c0, [], c0, op, 0, 0, 0, 0);
    steps, c := AnswerAndWrite(env, t0, c0, steps, mid, 0, TIMEOUT);
    assert mid.live - {0} == map[];
  }

  // Another makes an object of the name, and the read-back takes it for the create's own:
  // every create that can be read back has a run that ends SUCCEEDED with no call landed.
  lemma AnothersObjectIsFound(env: Env, t0: Time, op: Op, uid: string) returns (acts: seq<Action>, end: Cell)
    requires op.opType == CREATE && op.name.Some? && env.inst(op.instance).equalitySearchOnName
    ensures Reaches(env, Start(t0), acts, end) && end.calls == map[0 := Failed]
    ensures end.hist.Some? && end.hist.value.outcome == SUCCEEDED && end.hist.value.uid == FirstOf(op.uid, Some(uid))
  {
    var c0 := NewCell(op, false);
    var steps, c := FailedAndDeferred(env, t0, op);
    var c1;
    steps, c1 := TakeDue(env, t0, c0, steps, c, op, AWAITING_READBACK, 0, 1, 0, 0);
    var t := LastAt(t0, steps);
    var c2 := Perform(env, t, c1, Foreign);
    Then(env, t0, c0, steps, c1, Step(t, Foreign));
    steps := steps + [Step(t, Foreign)];
    var c3 := c2.(live := map[1 := Calling]);
    SearchSent(env, t, c2, 1);
    Then(env, t0, c0, steps, c2, Step(t, Send(1)));
    steps := steps + [Step(t, Send(1))];
    steps, end := AnswerAndWrite(env, t0, c0, steps, c3, 1, Found(uid));
    acts := WholeRun(env, t0, op, steps, end);
  }

  // ---- a uid that is replaced ----------------------------------------------------------

  lemma {:induction false} OneAfter(env: Env, w: World, acts: seq<Action>, a: Action)
    requires Possible(env, true, w, acts) && Can(env, true, After(env, w, acts), a)
    ensures Possible(env, true, w, acts + [a]) && After(env, w, acts + [a]) == Next(env, After(env, w, acts), a)
    decreases |acts|
  {
    if acts == [] {
      assert acts + [a] == [a] && [a][1..] == [];
      assert Possible(env, true, Next(env, w, a), []) && After(env, Next(env, w, a), []) == Next(env, w, a);
    } else {
      assert (acts + [a])[1..] == acts[1..] + [a];
      OneAfter(env, Next(env, w, acts[0]), acts[1..], a);
    }
  }

  lemma Finished(env: Env, t0: Time, op: Op, shown: string) returns (steps: seq<Step>, end: Cell)
    requires op.opType == UPDATE
    ensures Path(env, t0, NewCell(op, false), steps, end) && end.op == op && end.row.Some? && end.row.value.op == op
    ensures end.row.value.Terminal() && end.row.value.finalizedAt.Some? && end.row.value.result == Some(Result(Some(shown)))
    ensures end.hist == Some(HistoryOf(end.row.value))
  {
    var c0 := NewCell(op, false);
    steps := GetsSent(env, t0, op);
    var c1 := Perform(env, t0, Sent(env, t0, op), Land(0));
    Then(env, t0, c0, steps, Sent(env, t0, op), Step(t0, Land(0)));
    steps := steps + [Step(t0, Land(0))];
    steps, end := AnswerAndWrite(env, t0, c0, steps, c1, 0, Applied(shown));
  }

  lemma DropsTheOne(env: Env, w: World, c: Cell)
    requires w.cells == map[0 := c] && c.row.Some? && c.row.value.Terminal() && c.row.value.op == c.op
    ensures Next(env, w, Drop(Store.DayOf(c.op))).cells == map[0 := c.(row := None)]
  {
    assert Hot(w) == map[0 := c.row.value];
    assert Store.Droppable(Hot(w), Store.DayOf(c.op));
  }

  // An update on one uid that its target answers with another: callers see the new one
  // until the partition is dropped, and the old one ever after.
  lemma UidIsReplaced(env: Env, t0: Time, op: Op, asked: string, shown: string) returns (acts: seq<Action>, drop: Action)
    requires op.opType == UPDATE && op.uid == Some(asked) && asked != "" && shown != ""
    ensures Possible(env, true, Start(t0), acts + [drop])
    ensures var w, w' := After(env, Start(t0), acts), After(env, Start(t0), acts + [drop]);
      && 0 in w.cells && 0 in w'.cells && StatusOfCell(w.cells[0]).Some? && StatusOfCell(w'.cells[0]).Some?
      && StatusOfCell(w.cells[0]).value.uid == Some(shown) && StatusOfCell(w'.cells[0]).value.uid == Some(asked)
  {
    var steps, end := Finished(env, t0, op, shown);
    acts := WholeRun(env, t0, op, steps, end);
    drop := Drop(Store.DayOf(op));
    OneAfter(env, Start(t0), acts, drop);
    DropsTheOne(env, After(env, Start(t0), acts), end);
  }
}
