// What every act on one operation keeps.
module CellLaws {
  import opened Options
  import opened Rows
  import opened Resolution
  import opened Protocol

  // ---- the shape of resolutions ------------------------------------------

  ghost predicate Shaped(env: Env, op: Op, cl: Claim, r: Resolution) {
    && (r.DeferReadback? ==> op.opType == CREATE && !Searches(cl.prior) && r.delay == SettleTime(env, op))
    && (r.Requeue? ==> if Searches(cl.prior) then cl.attemptCount < 1 else cl.attemptCount + 1 < env.cfg.maxAttempts)
    && (r.Requeue? ==> r.delay == if Searches(cl.prior) then 0 else Backoff(env.cfg, cl.attemptCount))
    && (r.Requeue? && IsDelta(op.opType) && !Searches(cl.prior) ==> env.inst(op.instance).idempotentDelta)
  }

  lemma ResolveShaped(env: Env, op: Op, cl: Claim, ans: Answer)
    requires Answers(cl.prior, ans)
    ensures Shaped(env, op, cl, Resolve(env.cfg, env.inst(op.instance), op, cl.prior, cl.attemptCount, ans))
  {
  }

  // ---- any run -----------------------------------------------------------

  ghost predicate RowOk(c: Cell) {
    && (c.row.Some? ==> c.row.value.op == c.op && c.row.value.attemptCount == c.requeues)
    && (HasStatus(c, RUNNING) ==> c.row.value.claimedAt.Some?)
    && (HasStatus(c, AWAITING_READBACK) ==> c.row.value.notBefore.Some? && IsCreate(c))
  }

  ghost predicate ClaimsOk(c: Cell) {
    && |c.claims| == c.started + c.resumed
    && (forall n :: 0 <= n < |c.claims| ==> ClaimOk(c, c.claims[n]))
    && (forall n :: n in c.calls ==> n < |c.claims| && !Searches(c.claims[n].prior))
  }

  ghost predicate ClaimOk(c: Cell, cl: Claim) {
    && (cl.prior == PENDING || (cl.prior == AWAITING_READBACK && IsCreate(c)))
    && cl.attemptCount <= c.requeues
  }

  ghost predicate LiveOk(env: Env, c: Cell) {
    forall n :: n in c.live ==>
      && n < |c.claims|
      && (c.live[n].Claimed? ==> n !in c.calls)
      && (c.live[n].Calling? && !Searches(c.claims[n].prior) ==> n in c.calls)
      && (c.live[n].Decided? ==> Shaped(env, c.op, c.claims[n], c.live[n].r))
  }

  ghost predicate Basic(env: Env, c: Cell) {
    RowOk(c) && ClaimsOk(c) && LiveOk(env, c)
  }

  lemma LiveKept(env: Env, now: Time, c: Cell, a: Act)
    requires Basic(env, c) && Enabled(env, now, c, a)
    ensures LiveOk(env, Perform(env, now, c, a))
  {
    match a
    case Take => assert |c.claims| !in c.calls;
    case Reply(n, ans) => ReplyKeepsLive(env, now, c, n, ans);
    case _ => AttemptKeepsLive(env, now, c, a);
  }

  lemma ReplyKeepsLive(env: Env, now: Time, c: Cell, n: nat, ans: Answer)
    requires LiveOk(env, c) && Enabled(env, now, c, Reply(n, ans))
    ensures LiveOk(env, Perform(env, now, c, Reply(n, ans)))
  {
    ResolveShaped(env, c.op, c.claims[n], ans);
  }

  lemma AttemptKeepsLive(env: Env, now: Time, c: Cell, a: Act)
    requires LiveOk(env, c) && Enabled(env, now, c, a) && !a.Take? && !a.Reply?
    ensures LiveOk(env, Perform(env, now, c, a))
  {
  }

  lemma BasicKept(env: Env, now: Time, c: Cell, a: Act)
    requires Basic(env, c) && Enabled(env, now, c, a)
    ensures Basic(env, Perform(env, now, c, a))
  {
    LiveKept(env, now, c, a);
    RowKept(env, now, c, a);
    ClaimsKept(env, now, c, a);
  }

  lemma RowKept(env: Env, now: Time, c: Cell, a: Act)
    requires Basic(env, c) && Enabled(env, now, c, a)
    ensures RowOk(Perform(env, now, c, a))
  {
  }

  lemma ClaimsKept(env: Env, now: Time, c: Cell, a: Act)
    requires Basic(env, c) && Enabled(env, now, c, a)
    ensures ClaimsOk(Perform(env, now, c, a))
  {
    if a.Take? { TakeKeepsClaims(env, now, c); } else { NoTakeKeepsClaims(env, now, c, a); }
  }

  lemma TakeKeepsClaims(env: Env, now: Time, c: Cell)
    requires RowOk(c) && ClaimsOk(c) && Enabled(env, now, c, Take)
    ensures ClaimsOk(Perform(env, now, c, Take))
  {
  }

  lemma NoTakeKeepsClaims(env: Env, now: Time, c: Cell, a: Act)
    requires ClaimsOk(c) && Enabled(env, now, c, a) && !a.Take?
    ensures ClaimsOk(Perform(env, now, c, a))
  {
    var c' := Perform(env, now, c, a);
    assert c'.claims == c.claims && c'.started == c.started && c'.resumed == c.resumed && c'.requeues >= c.requeues;
    assert c'.op == c.op && forall n :: n in c'.calls ==> n in c.calls || (a.Send? && n == a.n && !Searches(c.claims[n].prior));
  }

  // The history row is written with the terminal status, and says the same.
  ghost predicate Recorded(c: Cell) {
    && (c.row.None? ==> c.hist.Some?)
    && (c.row.Some? ==> (c.hist.Some? <==> c.row.value.Terminal()))
    && (c.row.Some? && c.hist.Some? ==> c.row.value.finalizedAt.Some? && c.hist.value == HistoryOf(c.row.value))
  }

  lemma RecordedKept(env: Env, now: Time, c: Cell, a: Act)
    requires Recorded(c) && Enabled(env, now, c, a)
    ensures Recorded(Perform(env, now, c, a))
  {
  }

  function StatusOfCell(c: Cell): Option<Report> { StatusOf(c.row, c.hist) }

  // A reported answer stays: the id is never lost, and a terminal status keeps
  // its outcome and error code through every act, drops included.
  lemma AnswerStays(env: Env, now: Time, c: Cell, a: Act)
    requires Recorded(c) && Enabled(env, now, c, a)
    ensures StatusOfCell(c).Some? && StatusOfCell(Perform(env, now, c, a)).Some?
    ensures var r, r' := StatusOfCell(c).value, StatusOfCell(Perform(env, now, c, a)).value;
      r.status.Final? ==>
        && r'.status == r.status && r'.errorCode == r.errorCode && r'.op == r.op
        && r'.finalizedAt == r.finalizedAt
        && (!a.Retire? ==> r' == r)
  {
  }

  // The uid a caller was shown outlives the hot row unless the request carried
  // another one: the history row keeps the request's uid ahead of the result's.
  lemma UidOutlivesHotRow(env: Env, now: Time, c: Cell)
    requires Recorded(c) && RowOk(c) && Enabled(env, now, c, Retire)
    requires NonEmpty(StatusOfCell(c).value.uid).Some?
    ensures StatusOfCell(Perform(env, now, c, Retire)).value.uid == StatusOfCell(c).value.uid
      <==> c.op.uid.None? || c.op.uid == StatusOfCell(c).value.uid
  {
  }

  // ---- rejections ---------------------------------------------------------

  predicate IsRejection(r: Resolution) { r.Finish? && r.outcome == REJECTED_PRE_DISPATCH }

  // A rejecting attempt has called nothing, and is over once its verdict is written.
  ghost predicate RejectsUncalled(c: Cell) {
    && (forall n :: n in c.live && c.live[n].Decided? && IsRejection(c.live[n].r) ==> n !in c.calls)
    && (c.hist.Some? && c.hist.value.outcome == REJECTED_PRE_DISPATCH ==> exists n: nat :: OverUncalled(c, n))
  }

  predicate OverUncalled(c: Cell, n: nat) { n < |c.claims| && n !in c.live && n !in c.calls }

  lemma RejectsUncalledKept(env: Env, now: Time, c: Cell, a: Act)
    requires Basic(env, c) && Recorded(c) && RejectsUncalled(c) && Enabled(env, now, c, a)
    ensures RejectsUncalled(Perform(env, now, c, a))
  {
    var c' := Perform(env, now, c, a);
    if c.hist.Some? && c.hist.value.outcome == REJECTED_PRE_DISPATCH {
      var n: nat :| OverUncalled(c, n);
      assert OverUncalled(c', n);
    } else if a.Write? {
      assert a.n < |c.claims|;
      if IsRejection(c.live[a.n].r) { assert OverUncalled(c', a.n); }
    }
    AttemptsRejectUncalled(env, now, c, a);
  }

  lemma AttemptsRejectUncalled(env: Env, now: Time, c: Cell, a: Act)
    requires LiveOk(env, c) && ClaimsOk(c) && RejectsUncalled(c) && Enabled(env, now, c, a)
    ensures var c' := Perform(env, now, c, a);
      forall n :: n in c'.live && c'.live[n].Decided? && IsRejection(c'.live[n].r) ==> n !in c'.calls
  {
    if a.Reply? { assert !IsRejection(Resolve(env.cfg, env.inst(c.op.instance), c.op, c.claims[a.n].prior, c.claims[a.n].attemptCount, a.ans)); }
  }

  // ---- creates are never re-issued blind ---------------------------------

  ghost predicate OncePerCount(c: Cell) {
    && (forall i, j :: 0 <= i < j < |c.claims| && c.claims[i].prior == PENDING && c.claims[j].prior == PENDING ==>
          c.claims[i].attemptCount < c.claims[j].attemptCount)
    && (HasStatus(c, PENDING) ==> forall n :: 0 <= n < |c.claims| && c.claims[n].prior == PENDING ==>
          c.claims[n].attemptCount < c.requeues)
    && c.started <= c.requeues + if HasStatus(c, PENDING) then 0 else 1
  }

  // A create is claimed out of PENDING at most once per attempt count, even when
  // the reaper takes an attempt that is still alive.
  lemma OncePerCountKept(env: Env, now: Time, c: Cell, a: Act)
    requires IsCreate(c) && Basic(env, c) && OncePerCount(c) && Enabled(env, now, c, a)
    ensures OncePerCount(Perform(env, now, c, a))
  {
    match a
    case Take => TakeOnce(env, now, c);
    case _ => NoClaimKeepsOnce(env, now, c, a);
  }

  lemma TakeOnce(env: Env, now: Time, c: Cell)
    requires RowOk(c) && OncePerCount(c) && Enabled(env, now, c, Take)
    ensures OncePerCount(Perform(env, now, c, Take))
  {
  }

  // Only a requeue brings a create back to PENDING, at a count it was not claimed at.
  lemma NoClaimKeepsOnce(env: Env, now: Time, c: Cell, a: Act)
    requires IsCreate(c) && RowOk(c) && OncePerCount(c) && Enabled(env, now, c, a) && !a.Take?
    requires forall n :: 0 <= n < |c.claims| ==> c.claims[n].attemptCount <= c.requeues
    ensures OncePerCount(Perform(env, now, c, a))
  {
    var c' := Perform(env, now, c, a);
    assert c'.claims == c.claims && c'.started == c.started && c'.requeues >= c.requeues;
    if HasStatus(c', PENDING) && !HasStatus(c, PENDING) { assert c'.requeues == c.requeues + 1; }
  }

  // ---- deltas on list-valued targets -------------------------------------

  ghost predicate OneTry(env: Env, c: Cell) {
    IsDelta(c.op.opType) && !env.inst(c.op.instance).idempotentDelta ==>
      |c.claims| <= c.reaps + if HasStatus(c, PENDING) then 0 else 1
  }

  lemma OneTryKept(env: Env, now: Time, c: Cell, a: Act)
    requires Basic(env, c) && OneTry(env, c) && Enabled(env, now, c, a)
    ensures OneTry(env, Perform(env, now, c, a))
  {
  }
}
