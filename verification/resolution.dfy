// The dispatcher's attempt: from what a claimed operation met to what is
// written back. Branches and error codes follow Dispatcher.attempt* in order.
module Resolution {
  import opened Options
  import opened Rows
  import opened ClaimSpec

  // One instance's settings, fixed for a run.
  datatype Instance = Instance(createDeadline: nat, equalitySearchOnName: bool, idempotentDelta: bool)

  datatype Config = Config(maxAttempts: int, backoffBase: nat, backoffMax: nat, readBackGrace: nat)

  // A thrown error, as isConnectorError / code / retryable / isDeadlineExpired see it.
  datatype Fault = Fault(connector: bool, code: string, retryable: bool, deadline: bool)

  // What one call of the facade came back with.
  datatype Answer = Applied(uid: string) | Threw(fault: Fault) | Found(uid: string) | Missing

  datatype Resolution =
    | Finish(outcome: Outcome, result: Option<Result>, errorCode: Option<string>)
    | Requeue(reason: string, delay: int)
    | DeferReadback(delay: int)

  function CodeOf(f: Fault): string {
    if f.deadline then "DEADLINE_EXPIRED" else if f.connector then f.code else "UNKNOWN"
  }

  function Pow2(n: nat): nat {
    if n == 0 then 1 else 2 * Pow2(n - 1)
  }

  function Backoff(cfg: Config, attemptCount: nat): int {
    Min(cfg.backoffMax, cfg.backoffBase * Pow2(attemptCount))
  }

  function BackoffOrGiveUp(cfg: Config, attemptCount: nat, code: string): Resolution {
    if attemptCount + 1 >= cfg.maxAttempts then Finish(INDETERMINATE, None, Some(code))
    else Requeue(code, Backoff(cfg, attemptCount))
  }

  predicate CodedFault(f: Fault, code: string) { f.connector && f.code == code }

  predicate Retryable(f: Fault) { f.deadline || (f.connector && f.retryable) }

  // A create that ran out of time without the target's refusal: outcome unknown.
  predicate TimedOut(f: Fault) { f.deadline && !CodedFault(f, "ALREADY_EXISTS") }

  function AfterDeadline(cfg: Config, inst: Instance, op: Op): Resolution {
    if !inst.equalitySearchOnName then Finish(INDETERMINATE, None, Some("DEADLINE_NO_READBACK"))
    else if op.name.None? then Finish(INDETERMINATE, None, Some("DEADLINE_NO_NAME"))
    else DeferReadback(inst.createDeadline + cfg.readBackGrace)
  }

  function AttemptCreate(cfg: Config, inst: Instance, op: Op, attemptCount: nat, ans: Answer): Resolution
    requires ans.Applied? || ans.Threw?
  {
    match ans
    case Applied(uid) => Finish(SUCCEEDED, Some(Result(Some(uid))), None)
    case Threw(f) =>
      if CodedFault(f, "ALREADY_EXISTS") then Finish(FAILED_CONFIRMED, None, Some("ALREADY_EXISTS"))
      else if f.deadline then AfterDeadline(cfg, inst, op)
      else if f.connector && f.retryable then BackoffOrGiveUp(cfg, attemptCount, f.code)
      else Finish(FAILED_CONFIRMED, None, Some(CodeOf(f)))
  }

  function ResumeReadBack(attemptCount: nat, ans: Answer): Resolution
    requires !ans.Applied?
  {
    match ans
    case Found(uid) => Finish(SUCCEEDED, Some(Result(Some(uid))), None)
    case Threw(f) => Finish(INDETERMINATE, None, Some("READBACK_FAILED:" + CodeOf(f)))
    case Missing =>
      if attemptCount < 1 then Requeue("READBACK_MISS", 0)
      else Finish(INDETERMINATE, None, Some("READBACK_MISS"))
  }

  function AttemptUpdate(cfg: Config, attemptCount: nat, ans: Answer): Resolution
    requires ans.Applied? || ans.Threw?
  {
    match ans
    case Applied(uid) => Finish(SUCCEEDED, Some(Result(Some(uid))), None)
    case Threw(f) =>
      if CodedFault(f, "UNKNOWN_UID") then Finish(FAILED_CONFIRMED, None, Some("UNKNOWN_UID"))
      else if !Retryable(f) then Finish(FAILED_CONFIRMED, None, Some(CodeOf(f)))
      else BackoffOrGiveUp(cfg, attemptCount, CodeOf(f))
  }

  function AttemptDelta(cfg: Config, inst: Instance, attemptCount: nat, ans: Answer): Resolution
    requires ans.Applied? || ans.Threw?
  {
    if ans.Threw? && !CodedFault(ans.fault, "UNKNOWN_UID") && Retryable(ans.fault) && !inst.idempotentDelta
    then Finish(INDETERMINATE, None, Some("DELTA_NOT_IDEMPOTENT"))
    else AttemptUpdate(cfg, attemptCount, ans)
  }

  function AttemptDelete(cfg: Config, op: Op, attemptCount: nat, ans: Answer): Resolution
    requires ans.Applied? || ans.Threw?
  {
    match ans
    case Applied(_) => Finish(SUCCEEDED, Some(Result(op.uid)), None)
    case Threw(f) =>
      if CodedFault(f, "UNKNOWN_UID") then Finish(SUCCEEDED, Some(Result(op.uid)), None)
      else if !Retryable(f) then Finish(FAILED_CONFIRMED, None, Some(CodeOf(f)))
      else BackoffOrGiveUp(cfg, attemptCount, CodeOf(f))
  }

  predicate IsDelta(t: OpType) { t == ADD_VALUES || t == REMOVE_VALUES }

  // attempt(): a row claimed out of AWAITING_READBACK searches, any other calls
  // the operation its type names.
  predicate Searches(prior: Status) { prior == AWAITING_READBACK }

  predicate Answers(prior: Status, ans: Answer) {
    if Searches(prior) then !ans.Applied? else ans.Applied? || ans.Threw?
  }

  function Resolve(cfg: Config, inst: Instance, op: Op, prior: Status, attemptCount: nat, ans: Answer): Resolution
    requires Answers(prior, ans)
  {
    if Searches(prior) then ResumeReadBack(attemptCount, ans)
    else match op.opType
      case CREATE => AttemptCreate(cfg, inst, op, attemptCount, ans)
      case UPDATE => AttemptUpdate(cfg, attemptCount, ans)
      case DELETE => AttemptDelete(cfg, op, attemptCount, ans)
      case _ => AttemptDelta(cfg, inst, attemptCount, ans)
  }

  // Resolutions reached without calling the target.
  predicate Uncalled(op: Op, prior: Status, r: Resolution) {
    || r == Finish(REJECTED_PRE_DISPATCH, Some(Result(None)), Some("ACQUIRE_FAILED"))
    || r == Finish(REJECTED_PRE_DISPATCH, None, Some("UNKNOWN_INSTANCE"))
    || (Searches(prior) && op.name.None? && r == Finish(INDETERMINATE, None, Some("DEADLINE_NO_NAME")))
    || (!Searches(prior) && IsDelta(op.opType) && (op.uid.None? || op.uid.value == "")
        && r == Finish(REJECTED_PRE_DISPATCH, None, Some("MISSING_UID")))
    || r == DispatchError()
  }

  function DispatchError(): Resolution {
    Finish(INDETERMINATE, Some(Result(None)), Some("DISPATCH_ERROR"))
  }

}
