// What a verdict rests on. Each resolution is read backwards, from the outcome to
// the answers that lead to it, and every recorded verdict is traced to one attempt.
module Evidence {
  import opened Options
  import opened Rows
  import opened ClaimSpec
  import opened Resolution
  import opened Protocol
  import opened CellLaws

  // ---- from a resolution back to the answer ---------------------------------

  // The target says the request can never be met. For a delete, an object that is
  // unknown is one that is gone.
  predicate Refuses(op: Op, f: Fault) {
    match op.opType
    case CREATE => CodedFault(f, "ALREADY_EXISTS") || !Retryable(f)
    case DELETE => !CodedFault(f, "UNKNOWN_UID") && !Retryable(f)
    case _ => CodedFault(f, "UNKNOWN_UID") || !Retryable(f)
  }

  predicate Met(op: Op, ans: Answer) {
    ans.Applied? || (ans.Threw? && op.opType == DELETE && CodedFault(ans.fault, "UNKNOWN_UID"))
  }

  // Neither met nor refused: the attempt may be made again.
  predicate Open(op: Op, ans: Answer) { ans.Threw? && !Met(op, ans) && !Refuses(op, ans.fault) }

  predicate CanLookUp(inst: Instance, op: Op) { inst.equalitySearchOnName && op.name.Some? }

  // Trying again cannot do harm: nothing was made, or making it twice is making it once.
  predicate Repeatable(inst: Instance, op: Op, f: Fault) {
    (op.opType == CREATE ==> !f.deadline) && (IsDelta(op.opType) ==> inst.idempotentDelta)
  }

  predicate Ends(r: Resolution, outcome: Outcome) { r.Finish? && r.outcome == outcome }

  // Each way an answered call can be resolved, exactly when it is.
  lemma CallMeans(cfg: Config, inst: Instance, op: Op, prior: Status, count: nat, ans: Answer)
    requires !Searches(prior) && Answers(prior, ans)
    ensures var r := Resolve(cfg, inst, op, prior, count, ans);
      && (Ends(r, SUCCEEDED) <==> Met(op, ans))
      && (Ends(r, FAILED_CONFIRMED) <==> ans.Threw? && Refuses(op, ans.fault))
      && (r.DeferReadback? <==> Open(op, ans) && op.opType == CREATE && ans.fault.deadline && CanLookUp(inst, op))
      && (r.Requeue? <==> Open(op, ans) && Repeatable(inst, op, ans.fault) && count + 1 < cfg.maxAttempts)
      && !Ends(r, REJECTED_PRE_DISPATCH)
  {
  }

  // Each way a search can be resolved, exactly when it is.
  lemma SearchMeans(cfg: Config, inst: Instance, op: Op, prior: Status, count: nat, ans: Answer)
    requires Searches(prior) && Answers(prior, ans)
    ensures var r := Resolve(cfg, inst, op, prior, count, ans);
      && (Ends(r, SUCCEEDED) <==> ans.Found?)
      && (r.Requeue? <==> ans.Missing? && count == 0)
      && (Ends(r, INDETERMINATE) <==> ans.Threw? || (ans.Missing? && count > 0))
  {
  }

  // The code a thrown error is reported by.
  function Named(f: Fault): string {
    if f.deadline then "DEADLINE_EXPIRED" else if f.connector then f.code else "UNKNOWN"
  }

  // Why an answer was no success.
  function Reason(inst: Instance, op: Op, prior: Status, ans: Answer): string {
    match ans
    case Threw(f) =>
      if Searches(prior) then "READBACK_FAILED:" + Named(f)
      else if Refuses(op, f) then (if f.connector then f.code else "UNKNOWN")
      else if IsDelta(op.opType) && !inst.idempotentDelta then "DELTA_NOT_IDEMPOTENT"
      else if op.opType == CREATE && f.deadline then (if inst.equalitySearchOnName then "DEADLINE_NO_NAME" else "DEADLINE_NO_READBACK")
      else Named(f)
    case _ => "READBACK_MISS"
  }

  // The uid that a success brought: the one the target answered with, and a delete's own.
  function UidOf(op: Op, ans: Answer): Option<string> {
    match ans
    case Found(uid) => Some(uid)
    case Applied(uid) => if op.opType == DELETE then op.uid else Some(uid)
    case _ => op.uid
  }

  // What is stored beside the outcome.
  lemma StoredWith(cfg: Config, inst: Instance, op: Op, prior: Status, count: nat, ans: Answer)
    requires Answers(prior, ans) && Resolve(cfg, inst, op, prior, count, ans).Finish?
    ensures var r := Resolve(cfg, inst, op, prior, count, ans);
      r == if r.outcome == SUCCEEDED
           then Finish(SUCCEEDED, Some(Result(UidOf(op, ans))), None)
           else Finish(r.outcome, None, Some(Reason(inst, op, prior, ans)))
  {
  }

  // A retry gives its reason as well.
  lemma RetriedFor(cfg: Config, inst: Instance, op: Op, prior: Status, count: nat, ans: Answer)
    requires Answers(prior, ans) && Resolve(cfg, inst, op, prior, count, ans).Requeue?
    ensures Resolve(cfg, inst, op, prior, count, ans).reason == Reason(inst, op, prior, ans)
  {
  }

  // What can happen to an attempt: it can die; until it is decided it can fail unexpectedly,
  // and at first for want of a connector; it calls unless its search has no name to look for
  // or its delta no uid to go to; a call can be answered in every way its kind allows.
  lemma AttemptMay(env: Env, now: Time, c: Cell, n: nat, ans: Answer)
    requires Basic(env, c) && n in c.live
    ensures Enabled(env, now, c, Lose(n))
    ensures Enabled(env, now, c, Write(n)) <==> c.live[n].Decided?
    ensures Enabled(env, now, c, Skip(n, DispatchError())) <==> !c.live[n].Decided?
    ensures c.live[n].Claimed? ==>
      && Enabled(env, now, c, Skip(n, Finish(REJECTED_PRE_DISPATCH, Some(Result(None)), Some("ACQUIRE_FAILED"))))
      && Enabled(env, now, c, Skip(n, Finish(REJECTED_PRE_DISPATCH, None, Some("UNKNOWN_INSTANCE"))))
    ensures Enabled(env, now, c, Send(n)) <==>
      && c.live[n].Claimed?
      && if c.claims[n].prior == AWAITING_READBACK then c.op.name.Some?
         else c.op.opType in {ADD_VALUES, REMOVE_VALUES} ==> NonEmpty(c.op.uid).Some?
    ensures !env.honest ==>
      (Enabled(env, now, c, Reply(n, ans)) <==>
        && c.live[n].Calling?
        && (ans.Threw? || if c.claims[n].prior == AWAITING_READBACK then ans.Found? || ans.Missing? else ans.Applied?))
  {
  }

  // ---- from a recorded verdict back to its attempt ---------------------------

  // The resolution of attempt n is that of its answer, or one that takes no answer.
  ghost predicate RestsOn(env: Env, c: Cell, n: nat, r: Resolution) {
    && n < |c.claims|
    && if n in c.answers
       then Answers(c.claims[n].prior, c.answers[n]) && r == Resolved(env, c.op, c.claims[n], c.answers[n])
       else Uncalled(c.op, c.claims[n].prior, r)
  }

  function Resolved(env: Env, op: Op, cl: Claim, ans: Answer): Resolution
    requires Answers(cl.prior, ans)
  {
    Resolve(env.cfg, env.inst(op.instance), op, cl.prior, cl.attemptCount, ans)
  }

  // The history row tells the verdict of attempt n, which is over.
  ghost predicate Tells(env: Env, c: Cell, n: nat, result: Option<Result>) {
    && c.hist.Some? && n !in c.live && RestsOn(env, c, n, Finish(c.hist.value.outcome, result, c.hist.value.errorCode))
    && c.hist.value.uid == FirstOf(c.op.uid, ResultUid(result))
  }

  ghost predicate Told(env: Env, c: Cell) { exists n: nat, result: Option<Result> :: Tells(env, c, n, result) }

  ghost predicate Grounded(env: Env, c: Cell) {
    && (forall n :: n in c.live && c.live[n].Decided? ==> RestsOn(env, c, n, c.live[n].r))
    && (forall n :: n in c.live && !c.live[n].Decided? ==> n !in c.answers)
    && (forall n :: n in c.answers ==> n < |c.claims|)
    && (c.row.Some? && !c.row.value.Terminal() ==> c.row.value.result.None?)
    && (c.hist.Some? ==> Told(env, c))
  }

  lemma TakeGrounds(env: Env, now: Time, c: Cell)
    requires Grounded(env, c) && Enabled(env, now, c, Take)
    ensures Grounded(env, Perform(env, now, c, Take))
  {
    var c' := Perform(env, now, c, Take);
    forall n | n in c'.live && c'.live[n].Decided? ensures RestsOn(env, c', n, c'.live[n].r) { assert RestsOn(env, c, n, c.live[n].r); }
    if c.hist.Some? {
      var n: nat, result :| Tells(env, c, n, result);
      assert Tells(env, c', n, result);
    }
  }

  lemma ReplyGrounds(env: Env, now: Time, c: Cell, n: nat, ans: Answer)
    requires Grounded(env, c) && Enabled(env, now, c, Reply(n, ans))
    ensures Grounded(env, Perform(env, now, c, Reply(n, ans)))
  {
    var c' := Perform(env, now, c, Reply(n, ans));
    forall m | m in c'.live && c'.live[m].Decided? ensures RestsOn(env, c', m, c'.live[m].r) {
      if m != n { assert RestsOn(env, c, m, c.live[m].r); }
    }
    if c.hist.Some? {
      var m: nat, result :| Tells(env, c, m, result);
      assert Tells(env, c', m, result);
    }
  }

  lemma WriteGrounds(env: Env, now: Time, c: Cell, n: nat)
    requires Grounded(env, c) && Recorded(c) && RowOk(c) && Enabled(env, now, c, Write(n))
    ensures Grounded(env, Perform(env, now, c, Write(n)))
  {
    var c', r := Perform(env, now, c, Write(n)), c.live[n].r;
    assert RestsOn(env, c, n, r);
    forall m | m in c'.live && c'.live[m].Decided? ensures RestsOn(env, c', m, c'.live[m].r) { assert RestsOn(env, c, m, c.live[m].r); }
    if c.hist.Some? {
      var m: nat, result :| Tells(env, c, m, result);
      assert Tells(env, c', m, result);
    } else if c'.hist.Some? {
      assert Tells(env, c', n, r.result);
    }
  }

  lemma OthersGround(env: Env, now: Time, c: Cell, a: Act)
    requires Grounded(env, c) && Enabled(env, now, c, a) && !a.Take? && !a.Reply? && !a.Write?
    ensures Grounded(env, Perform(env, now, c, a))
  {
    var c' := Perform(env, now, c, a);
    OthersRest(env, now, c, a);
    if c.hist.Some? {
      var m: nat, result :| Tells(env, c, m, result);
      assert Tells(env, c', m, result);
    }
  }

  lemma OthersRest(env: Env, now: Time, c: Cell, a: Act)
    requires Enabled(env, now, c, a) && !a.Take? && !a.Reply? && !a.Write?
    requires forall n :: n in c.live && c.live[n].Decided? ==> RestsOn(env, c, n, c.live[n].r)
    requires forall n :: n in c.live && !c.live[n].Decided? ==> n !in c.answers
    ensures forall n :: n in Perform(env, now, c, a).live && Perform(env, now, c, a).live[n].Decided? ==>
      RestsOn(env, Perform(env, now, c, a), n, Perform(env, now, c, a).live[n].r)
  {
    var c' := Perform(env, now, c, a);
    forall m | m in c'.live && c'.live[m].Decided? ensures RestsOn(env, c', m, c'.live[m].r) {
      if m in c.live && c.live[m].Decided? { assert RestsOn(env, c, m, c.live[m].r); }
    }
  }

  lemma GroundedKept(env: Env, now: Time, c: Cell, a: Act)
    requires Basic(env, c) && Recorded(c) && Grounded(env, c) && Enabled(env, now, c, a)
    ensures Grounded(env, Perform(env, now, c, a))
  {
    match a
    case Take => TakeGrounds(env, now, c);
    case Reply(n, ans) => ReplyGrounds(env, now, c, n, ans);
    case Write(n) => WriteGrounds(env, now, c, n);
    case _ => OthersGround(env, now, c, a);
  }

  // An honest target answers success only to a call that took effect.
  ghost predicate AppliedLanded(c: Cell) {
    && (forall n :: n in c.live && !c.live[n].Decided? ==> n !in c.answers)
    && forall n :: n in c.answers && c.answers[n].Applied? ==> n in c.calls && c.calls[n] == Landed
  }

  lemma AppliedLandedKept(env: Env, now: Time, c: Cell, a: Act)
    requires env.honest && ClaimsOk(c) && AppliedLanded(c) && Enabled(env, now, c, a)
    requires forall n :: n in c.answers ==> n < |c.claims|
    ensures AppliedLanded(Perform(env, now, c, a))
  {
  }

  // ---- what a recorded verdict means ------------------------------------------

  // Attempt n was answered that the operation is done.
  ghost predicate DoneBy(env: Env, c: Cell, n: nat) {
    && n < |c.claims| && n in c.answers
    && (if Searches(c.claims[n].prior) then c.answers[n].Found? else Met(c.op, c.answers[n]))
    && (env.honest && c.answers[n].Applied? ==> n in c.calls && c.calls[n] == Landed)
  }

  // Attempt n was refused for good by its call.
  ghost predicate RefusedBy(c: Cell, n: nat) {
    && n < |c.claims| && n in c.answers && !Searches(c.claims[n].prior)
    && c.answers[n].Threw? && Refuses(c.op, c.answers[n].fault)
  }

  // Attempt n left open what happened, and there is no way or no try left to find out.
  ghost predicate OpenAfter(env: Env, c: Cell, n: nat) {
    && n < |c.claims| && n in c.answers
    && var cl, ans, inst := c.claims[n], c.answers[n], env.inst(c.op.instance);
       if Searches(cl.prior) then ans.Threw? || (ans.Missing? && cl.attemptCount > 0)
       else
         && Open(c.op, ans)
         && !(c.op.opType == CREATE && ans.fault.deadline && CanLookUp(inst, c.op))
         && !(Repeatable(inst, c.op, ans.fault) && cl.attemptCount + 1 < env.cfg.maxAttempts)
  }

  // Attempt n ended without an answer.
  ghost predicate Unanswered(c: Cell, n: nat, code: Option<string>) {
    && n < |c.claims| && n !in c.answers
    && (code == Some("DISPATCH_ERROR") || (code == Some("DEADLINE_NO_NAME") && Searches(c.claims[n].prior) && c.op.name.None?))
  }

  // The history row says what attempt n met, by its outcome, its code and its uid.
  ghost predicate Explains(env: Env, c: Cell, n: nat)
    requires c.hist.Some?
  {
    var h := c.hist.value;
    match h.outcome
    case SUCCEEDED => DoneBy(env, c, n) && h.errorCode.None? && h.uid == FirstOf(c.op.uid, UidOf(c.op, c.answers[n]))
    case FAILED_CONFIRMED => RefusedBy(c, n) && Coded(env, c, n, h)
    case INDETERMINATE => (OpenAfter(env, c, n) && Coded(env, c, n, h)) || (Unanswered(c, n, h.errorCode) && h.uid == c.op.uid)
    case REJECTED_PRE_DISPATCH =>
      && n < |c.claims| && n !in c.answers && h.uid == c.op.uid
      && (h.errorCode == Some("ACQUIRE_FAILED") || h.errorCode == Some("UNKNOWN_INSTANCE")
          || (h.errorCode == Some("MISSING_UID") && IsDelta(c.op.opType) && NonEmpty(c.op.uid).None?))
  }

  ghost predicate Coded(env: Env, c: Cell, n: nat, h: Hist)
    requires n < |c.claims| && n in c.answers
  {
    h.errorCode == Some(Reason(env.inst(c.op.instance), c.op, c.claims[n].prior, c.answers[n])) && h.uid == c.op.uid
  }

  lemma TellsExplains(env: Env, c: Cell, n: nat, result: Option<Result>)
    requires Tells(env, c, n, result) && (env.honest ==> AppliedLanded(c))
    ensures Explains(env, c, n)
  {
    if n in c.answers {
      AnswerExplains(env, c, n, result);
    }
  }

  lemma AnswerExplains(env: Env, c: Cell, n: nat, result: Option<Result>)
    requires Tells(env, c, n, result) && (env.honest ==> AppliedLanded(c)) && n in c.answers
    ensures Explains(env, c, n)
  {
    var cl, ans, inst := c.claims[n], c.answers[n], env.inst(c.op.instance);
    StoredWith(env.cfg, inst, c.op, cl.prior, cl.attemptCount, ans);
    if Searches(cl.prior) {
      SearchMeans(env.cfg, inst, c.op, cl.prior, cl.attemptCount, ans);
    } else {
      CallMeans(env.cfg, inst, c.op, cl.prior, cl.attemptCount, ans);
    }
  }
}
