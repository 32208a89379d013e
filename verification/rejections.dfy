// REJECTED_PRE_DISPATCH is documented as never having reached the target. That holds
// for operations claimed once; here are, as whole runs, the ways to a second claim
// after which it does not: a reap, a requeue and a read-back.
module Rejections {
  import opened Options
  import opened Rows
  import opened ClaimSpec
  import opened Resolution
  import opened Protocol
  import opened StrictLaws

  // ---- one operation's history as a run of the table ----------------------

  datatype Step = Step(at: Time, act: Act)

  ghost predicate CanStep(env: Env, now: Time, c: Cell, s: Step) {
    && now <= s.at && (s.at == now || CallsOutlast(c, s.at))
    && StrictlyEnabled(env, s.at, c, s.act) && !s.act.Retire?
  }

  ghost predicate Path(env: Env, now: Time, c: Cell, steps: seq<Step>, end: Cell)
    decreases |steps|
  {
    if steps == [] then c == end
    else
      CanStep(env, now, c, steps[0]) && Path(env, steps[0].at, Perform(env, steps[0].at, c, steps[0].act), steps[1..], end)
  }

  function LastAt(now: Time, steps: seq<Step>): Time {
    if steps == [] then now else steps[|steps| - 1].at
  }

  lemma {:induction false} Then(env: Env, now: Time, c: Cell, steps: seq<Step>, mid: Cell, s: Step)
    requires Path(env, now, c, steps, mid) && CanStep(env, LastAt(now, steps), mid, s)
    ensures Path(env, now, c, steps + [s], Perform(env, s.at, mid, s.act))
    ensures LastAt(now, steps + [s]) == s.at
    decreases |steps|
  {
    var end := Perform(env, s.at, mid, s.act);
    if steps == [] {
      assert [s][1..] == [] && steps + [s] == [s];
      assert Path(env, s.at, end, [], end);
    } else {
      Then(env, steps[0].at, Perform(env, steps[0].at, c, steps[0].act), steps[1..], mid, s);
      assert (steps + [s])[1..] == steps[1..] + [s];
    }
  }

  // A claim that offers the row's instance one slot.
  function OneSlot(r: Row, now: Time): Query {
    Query(1, {}, map[r.op.instance := Availability(1, 1)], now)
  }

  lemma AloneIsPicked(r: Row, now: Time)
    requires Due(r, now)
    ensures Picked(map[0 := r], OneSlot(r, now), 0)
  {
    var t, q := map[0 := r], OneSlot(r, now);
    assert Eligible(t, q, 0);
    assert LanePeersBefore(t, q, 0) == {};
    assert InstancePeersBefore(t, q, 0) == {} && ClassPeersBefore(t, q, 0) == {} && PickedBefore(t, q, 0) == {};
  }

  function ActionOf(c: Cell, s: Step): Action
    requires c.row.Some?
  {
    match s.act
    case Take => ClaimCycle(OneSlot(c.row.value, s.at))
    case Recover => Reap
    case _ => Local(0, s.act)
  }

  lemma ActionDoesAct(env: Env, w: World, c: Cell, s: Step)
    requires w.cells == map[0 := c] && w.now == s.at && c.row.Some?
    requires StrictlyEnabled(env, s.at, c, s.act) && !s.act.Retire?
    ensures Can(env, true, w, ActionOf(c, s))
    ensures Next(env, w, ActionOf(c, s)) == World(s.at, map[0 := Perform(env, s.at, c, s.act)])
  {
    var a := ActionOf(c, s);
    assert Hot(w) == map[0 := c.row.value];
    if s.act.Take? { AloneIsPicked(c.row.value, s.at); }
    assert ActOf(env, w, a, 0) == Some(s.act);
    assert Next(env, w, a).cells.Keys == {0};
  }

  ghost predicate Reaches(env: Env, w: World, acts: seq<Action>, end: Cell) {
    Possible(env, true, w, acts) && After(env, w, acts).cells == map[0 := end]
  }

  lemma Prefixed(env: Env, w: World, a: Action, acts: seq<Action>, end: Cell)
    requires Can(env, true, w, a) && Reaches(env, Next(env, w, a), acts, end)
    ensures Reaches(env, w, [a] + acts, end)
  {
    assert ([a] + acts)[1..] == acts;
  }

  lemma {:induction false} PathIsRun(env: Env, w: World, c: Cell, steps: seq<Step>, end: Cell) returns (acts: seq<Action>)
    requires w.cells == map[0 := c] && c.row.Some? && Path(env, w.now, c, steps, end)
    ensures Reaches(env, w, acts, end)
    decreases |steps|
  {
    if steps == [] {
      acts := [];
    } else {
      var s := steps[0];
      var w' := World(s.at, w.cells);
      ActionDoesAct(env, w', c, s);
      KeepsRow(env, c, s);
      acts := PathIsRun(env, Next(env, w', ActionOf(c, s)), Perform(env, s.at, c, s.act), steps[1..], end);
      Prefixed(env, w', ActionOf(c, s), acts, end);
      acts := [ActionOf(c, s)] + acts;
      if s.at != w.now {
        Prefixed(env, w, Tick(s.at), acts, end);
        acts := [Tick(s.at)] + acts;
      }
    }
  }

  lemma KeepsRow(env: Env, c: Cell, s: Step)
    requires c.row.Some? && Enabled(env, s.at, c, s.act) && !s.act.Retire?
    ensures Perform(env, s.at, c, s.act).row.Some?
  {
  }

  // From an empty table: the operation is enqueued and goes through the steps.
  lemma WholeRun(env: Env, t0: Time, op: Op, steps: seq<Step>, end: Cell) returns (acts: seq<Action>)
    requires Path(env, t0, NewCell(op, false), steps, end)
    ensures Reaches(env, Start(t0), acts, end)
  {
    var w := World(t0, map[0 := NewCell(op, false)]);
    acts := PathIsRun(env, w, NewCell(op, false), steps, end);
    assert Next(env, Start(t0), Enqueue(0, op, false)) == w;
    Prefixed(env, Start(t0), Enqueue(0, op, false), acts, end);
    acts := [Enqueue(0, op, false)] + acts;
  }

  // ---- what the runs have in common ---------------------------------------

  // Claimed for the first time, with its call under way.
  function Sent(env: Env, t0: Time, op: Op): Cell {
    Cell(op, Some(ClaimRow(NewRow(op), t0)), None, [Claim(PENDING, 0)], map[0 := Calling],
         map[0 := InFlight(t0 + SettleTime(env, op))], map[], false, 1, 0, 0, 0, 0)
  }

  lemma GetsSent(env: Env, t0: Time, op: Op) returns (steps: seq<Step>)
    requires CanSend(NewCell(op, false), PENDING)
    ensures Path(env, t0, NewCell(op, false), steps, Sent(env, t0, op)) && LastAt(t0, steps) == t0
  {
    var c := NewCell(op, false);
    var c1 := Perform(env, t0, c, Take);
    Then(env, t0, c, [], c, Step(t0, Take));
    Then(env, t0, c, [] + [Step(t0, Take)], c1, Step(t0, Send(0)));
    steps := [] + [Step(t0, Take)] + [Step(t0, Send(0))];
    assert Perform(env, t0, c1, Send(0)) == Sent(env, t0, op);
  }

  function Rejected(): Resolution {
    Finish(REJECTED_PRE_DISPATCH, Some(Result(None)), Some("ACQUIRE_FAILED"))
  }

  // What a rejected second claim leaves, given the cell it was made on.
  ghost predicate RejectedAgain(before: Cell, end: Cell) {
    && end.hist.Some? && end.hist.value.outcome == REJECTED_PRE_DISPATCH
    && end.calls == before.calls && end.requeues == before.requeues && end.reaps == before.reaps
    && end.row.Some? && |end.claims| == |before.claims| + 1 && before.row.Some?
    && LastClaim(end).prior == before.row.value.status
  }

  // Whatever was called before, a due row can be claimed and the connector not be acquired.
  lemma GetsRejected(env: Env, now: Time, c0: Cell, steps: seq<Step>, c: Cell, due: Time) returns (more: seq<Step>, end: Cell)
    requires Path(env, now, c0, steps, c) && LastAt(now, steps) <= due && CallsOutlast(c, due)
    requires c.row.Some? && Due(c.row.value, due) && c.live == map[] && c.hist.None?
    ensures Path(env, now, c0, more, end) && RejectedAgain(c, end)
  {
    var n := |c.claims|;
    var c1 := Perform(env, due, c, Take);
    var c2 := Perform(env, due, c1, Skip(n, Rejected()));
    end := Perform(env, due, c2, Write(n));
    Then(env, now, c0, steps, c, Step(due, Take));
    more := steps + [Step(due, Take)];
    Then(env, now, c0, more, c1, Step(due, Skip(n, Rejected())));
    more := more + [Step(due, Skip(n, Rejected()))];
    Then(env, now, c0, more, c2, Step(due, Write(n)));
    more := more + [Step(due, Write(n))];
  }

  // ---- after a reap ---------------------------------------------------------

  // The call landed and the dispatcher died.
  function Abandoned(env: Env, t0: Time, op: Op): Cell {
    Sent(env, t0, op).(live := map[], calls := map[0 := Landed], present := true)
  }

  lemma GetsAbandoned(env: Env, t0: Time, op: Op) returns (steps: seq<Step>)
    requires CanSend(NewCell(op, false), PENDING)
    ensures Path(env, t0, NewCell(op, false), steps, Abandoned(env, t0, op)) && LastAt(t0, steps) == t0
  {
    steps := GetsSent(env, t0, op);
    var c1 := Perform(env, t0, Sent(env, t0, op), Land(0));
    Then(env, t0, NewCell(op, false), steps, Sent(env, t0, op), Step(t0, Land(0)));
    steps := steps + [Step(t0, Land(0))];
    Then(env, t0, NewCell(op, false), steps, c1, Step(t0, Lose(0)));
    steps := steps + [Step(t0, Lose(0))];
    assert Perform(env, t0, c1, Lose(0)) == Abandoned(env, t0, op);
  }

  // Any operation that calls its target, of any type, whatever the target can search
  // for: a call that landed before its dispatcher died can end rejected.
  lemma RejectedAfterReap(env: Env, t0: Time, op: Op) returns (acts: seq<Action>, end: Cell)
    requires CanSend(NewCell(op, false), PENDING)
    ensures Reaches(env, Start(t0), acts, end)
    ensures end.hist.Some? && end.hist.value.outcome == REJECTED_PRE_DISPATCH && end.calls == map[0 := Landed]
    ensures |end.claims| == 2 && end.reaps == 1 && end.requeues == 0
  {
    var c := Abandoned(env, t0, op);
    var t1 := Max(t0, t0 + env.reapThreshold + 1);
    var t2 := Max(t1, t1 + env.reapDelay);
    var steps := GetsAbandoned(env, t0, op);
    var reaped := Perform(env, t1, c, Recover);
    Then(env, t0, NewCell(op, false), steps, c, Step(t1, Recover));
    steps := steps + [Step(t1, Recover)];
    steps, end := GetsRejected(env, t0, NewCell(op, false), steps, reaped, t2);
    acts := WholeRun(env, t0, op, steps, end);
  }

  // ---- after a requeue --------------------------------------------------------

  const RETRYABLE: Answer := Threw(Fault(true, "CONNECTION_FAILED", true, false))

  // A retryable error: of a create it means that nothing was applied, of anything else it means nothing.
  function CallThen(op: Op): Act { if op.opType == CREATE then Fizzle(0) else Land(0) }

  function CallAfter(op: Op): Call { if op.opType == CREATE then Failed else Landed }

  function Answered(env: Env, t0: Time, op: Op): Cell {
    var r := Requeue("CONNECTION_FAILED", Backoff(env.cfg, 0));
    Sent(env, t0, op).(live := map[0 := Decided(r)], calls := map[0 := CallAfter(op)], answers := map[0 := RETRYABLE], present := op.opType != CREATE)
  }

  lemma GetsAnswered(env: Env, t0: Time, op: Op) returns (steps: seq<Step>)
    requires CanSend(NewCell(op, false), PENDING) && env.cfg.maxAttempts >= 2
    requires IsDelta(op.opType) ==> env.inst(op.instance).idempotentDelta
    ensures Path(env, t0, NewCell(op, false), steps, Answered(env, t0, op)) && LastAt(t0, steps) == t0
  {
    steps := GetsSent(env, t0, op);
    var c := Sent(env, t0, op);
    var c1 := Perform(env, t0, c, CallThen(op));
    Then(env, t0, NewCell(op, false), steps, c, Step(t0, CallThen(op)));
    steps := steps + [Step(t0, CallThen(op))];
    assert c1 == c.(calls := map[0 := CallAfter(op)], present := op.opType != CREATE);
    RetryableRequeues(env, t0, op, c1);
    Then(env, t0, NewCell(op, false), steps, c1, Step(t0, Reply(0, RETRYABLE)));
    steps := steps + [Step(t0, Reply(0, RETRYABLE))];
  }

  lemma RetryableRequeues(env: Env, t0: Time, op: Op, c: Cell)
    requires c == Sent(env, t0, op).(calls := map[0 := CallAfter(op)], present := op.opType != CREATE)
    requires env.cfg.maxAttempts >= 2 && (IsDelta(op.opType) ==> env.inst(op.instance).idempotentDelta)
    ensures Enabled(env, t0, c, Reply(0, RETRYABLE)) && Perform(env, t0, c, Reply(0, RETRYABLE)) == Answered(env, t0, op)
  {
  }

  // Any operation that is retried: its first call was made, and unless it was a
  // create may have landed, and the retry can end rejected.
  lemma RejectedAfterRequeue(env: Env, t0: Time, op: Op) returns (acts: seq<Action>, end: Cell)
    requires CanSend(NewCell(op, false), PENDING) && env.cfg.maxAttempts >= 2
    requires IsDelta(op.opType) ==> env.inst(op.instance).idempotentDelta
    ensures Reaches(env, Start(t0), acts, end)
    ensures end.hist.Some? && end.hist.value.outcome == REJECTED_PRE_DISPATCH && end.calls == map[0 := CallAfter(op)]
    ensures |end.claims| == 2 && end.reaps == 0 && end.requeues == 1 && LastClaim(end).prior == PENDING
  {
    var c := Answered(env, t0, op);
    var steps := GetsAnswered(env, t0, op);
    var back := Perform(env, t0, c, Write(0));
    Then(env, t0, NewCell(op, false), steps, c, Step(t0, Write(0)));
    steps := steps + [Step(t0, Write(0))];
    steps, end := GetsRejected(env, t0, NewCell(op, false), steps, back, t0);
    acts := WholeRun(env, t0, op, steps, end);
  }

  // ---- after a deferral -------------------------------------------------------

  const TIMEOUT: Answer := Threw(Fault(false, "", false, true))

  function TimedOutCell(env: Env, t0: Time, op: Op): Cell {
    Sent(env, t0, op).(live := map[0 := Decided(DeferReadback(SettleTime(env, op)))], calls := map[0 := Landed], answers := map[0 := TIMEOUT], present := true)
  }

  lemma GetsTimedOut(env: Env, t0: Time, op: Op) returns (steps: seq<Step>)
    requires op.opType == CREATE && op.name.Some? && env.inst(op.instance).equalitySearchOnName
    ensures Path(env, t0, NewCell(op, false), steps, TimedOutCell(env, t0, op)) && LastAt(t0, steps) == t0
  {
    steps := GetsSent(env, t0, op);
    var c := Sent(env, t0, op);
    var c1 := Perform(env, t0, c, Land(0));
    Then(env, t0, NewCell(op, false), steps, c, Step(t0, Land(0)));
    steps := steps + [Step(t0, Land(0))];
    assert c1 == c.(calls := map[0 := Landed], present := true);
    TimeoutDefers(env, t0, op, c1);
    Then(env, t0, NewCell(op, false), steps, c1, Step(t0, Reply(0, TIMEOUT)));
    steps := steps + [Step(t0, Reply(0, TIMEOUT))];
  }

  lemma TimeoutDefers(env: Env, t0: Time, op: Op, c: Cell)
    requires c == Sent(env, t0, op).(calls := map[0 := Landed], present := true)
    requires op.opType == CREATE && op.name.Some? && env.inst(op.instance).equalitySearchOnName
    ensures Enabled(env, t0, c, Reply(0, TIMEOUT)) && Perform(env, t0, c, Reply(0, TIMEOUT)) == TimedOutCell(env, t0, op)
  {
  }

  // Any create that can be read back: its call timed out and landed, and the
  // read-back can end rejected.
  lemma RejectedAfterReadBack(env: Env, t0: Time, op: Op) returns (acts: seq<Action>, end: Cell)
    requires op.opType == CREATE && op.name.Some? && env.inst(op.instance).equalitySearchOnName
    ensures Reaches(env, Start(t0), acts, end)
    ensures end.hist.Some? && end.hist.value.outcome == REJECTED_PRE_DISPATCH && end.calls == map[0 := Landed]
    ensures |end.claims| == 2 && end.reaps == 0 && end.requeues == 0 && LastClaim(end).prior == AWAITING_READBACK
  {
    var c := TimedOutCell(env, t0, op);
    var steps := GetsTimedOut(env, t0, op);
    var waiting := Perform(env, t0, c, Write(0));
    Then(env, t0, NewCell(op, false), steps, c, Step(t0, Write(0)));
    steps := steps + [Step(t0, Write(0))];
    steps, end := GetsRejected(env, t0, NewCell(op, false), steps, waiting, t0 + SettleTime(env, op));
    acts := WholeRun(env, t0, op, steps, end);
  }
}
