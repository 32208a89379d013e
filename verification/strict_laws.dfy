// What every act keeps when the reaper takes only rows whose attempt is over:
// its threshold exceeds the longest attempt.
module StrictLaws {
  import opened Rows
  import opened ClaimSpec
  import opened Resolution
  import opened Protocol
  import opened CellLaws

  ghost predicate StrictlyEnabled(env: Env, now: Time, c: Cell, a: Act) {
    Enabled(env, now, c, a) && (a.Recover? ==> c.live == map[])
  }

  function LastClaim(c: Cell): Claim
    requires c.claims != []
  {
    c.claims[|c.claims| - 1]
  }

  // ---- one attempt at a time ---------------------------------------------

  ghost predicate OneAttempt(c: Cell) {
    && (HasStatus(c, RUNNING) ==> c.claims != [] && LastClaim(c).attemptCount == c.requeues)
    && (forall n :: n in c.live ==> n == |c.claims| - 1 && HasStatus(c, RUNNING))
  }

  lemma OneAttemptKept(env: Env, now: Time, c: Cell, a: Act)
    requires Basic(env, c) && OneAttempt(c) && StrictlyEnabled(env, now, c, a)
    ensures OneAttempt(Perform(env, now, c, a))
  {
    if a.Take? { TakeIsOne(env, now, c); } else { NoTakeIsOne(env, now, c, a); }
  }

  lemma TakeIsOne(env: Env, now: Time, c: Cell)
    requires RowOk(c) && OneAttempt(c) && Enabled(env, now, c, Take)
    ensures OneAttempt(Perform(env, now, c, Take))
  {
    assert c.live.Keys == {};
  }

  lemma NoTakeIsOne(env: Env, now: Time, c: Cell, a: Act)
    requires RowOk(c) && OneAttempt(c) && StrictlyEnabled(env, now, c, a) && !a.Take?
    ensures OneAttempt(Perform(env, now, c, a))
  {
    assert Perform(env, now, c, a).claims == c.claims;
  }

  // ---- how often a row is claimed ----------------------------------------

  ghost predicate Over(c: Cell) { c.row.None? || c.row.value.Terminal() }

  ghost predicate Resuming(c: Cell) {
    Over(c) || (HasStatus(c, RUNNING) && c.claims != [] && Searches(LastClaim(c).prior))
  }

  ghost predicate Counted(env: Env, c: Cell) {
    && c.requeues <= Max(if IsCreate(c) then 1 else 0, env.cfg.maxAttempts - 1)
    && (!IsCreate(c) ==> |c.claims| <= c.requeues + c.reaps + if HasStatus(c, PENDING) then 0 else 1)
    && (IsCreate(c) ==> c.resumed <= c.reaps + (if c.requeues >= 1 then 1 else 0) + if Resuming(c) then 1 else 0)
  }

  lemma CountedKept(env: Env, now: Time, c: Cell, a: Act)
    requires Basic(env, c) && OneAttempt(c) && Counted(env, c) && StrictlyEnabled(env, now, c, a)
    ensures Counted(env, Perform(env, now, c, a))
  {
    if a.Write? {
      assert Shaped(env, c.op, LastClaim(c), c.live[a.n].r);
      CountedAfterWrite(env, now, c, a.n);
    }
  }

  lemma CountedAfterWrite(env: Env, now: Time, c: Cell, n: nat)
    requires RowOk(c) && Counted(env, c) && n in c.live && c.live[n].Decided? && HasStatus(c, RUNNING)
    requires c.claims != [] && Shaped(env, c.op, LastClaim(c), c.live[n].r)
    requires ClaimOk(c, LastClaim(c)) && LastClaim(c).attemptCount == c.requeues
    ensures Counted(env, Perform(env, now, c, Write(n)))
  {
  }

  // With R reaps a row is claimed at most max(1, M) + R times, a create at most
  // max(2, M) + 2 + R times; its attempt count is its number of requeues.
  lemma ClaimsBounded(env: Env, c: Cell)
    requires Basic(env, c) && OneAttempt(c) && Counted(env, c) && (IsCreate(c) ==> OncePerCount(c))
    ensures c.row.Some? ==> c.row.value.attemptCount == c.requeues
    ensures c.requeues <= Max(1, env.cfg.maxAttempts - 1)
    ensures |c.claims| <= c.reaps + if IsCreate(c) then Max(2, env.cfg.maxAttempts) + 2 else Max(1, env.cfg.maxAttempts)
  {
  }

  // ---- how long it backs off ---------------------------------------------

  function BackoffSum(cfg: Config, k: nat): int {
    if k == 0 then 0 else BackoffSum(cfg, k - 1) + Backoff(cfg, k - 1)
  }

  function Retries(env: Env, c: Cell): nat { Max(0, Min(c.requeues, env.cfg.maxAttempts - 1)) }

  ghost predicate Waited(env: Env, c: Cell) { c.waited <= BackoffSum(env.cfg, Retries(env, c)) }

  lemma WaitedKept(env: Env, now: Time, c: Cell, a: Act)
    requires Basic(env, c) && OneAttempt(c) && Waited(env, c) && StrictlyEnabled(env, now, c, a)
    ensures Waited(env, Perform(env, now, c, a))
  {
    if a.Write? {
      assert Shaped(env, c.op, LastClaim(c), c.live[a.n].r);
      BackoffNonNegative(env.cfg, c.requeues);
    }
  }

  // The first backoff is the base, each further one twice the one before, and none above the ceiling.
  lemma BackoffDoubles(cfg: Config, k: nat)
    ensures Backoff(cfg, 0) == Min(cfg.backoffMax, cfg.backoffBase)
    ensures Backoff(cfg, k + 1) == Min(cfg.backoffMax, 2 * Backoff(cfg, k))
  {
    assert cfg.backoffBase * Pow2(k + 1) == 2 * (cfg.backoffBase * Pow2(k));
  }

  lemma {:induction false} Pow2Positive(k: nat)
    ensures Pow2(k) >= 1
  {
    if k > 0 { Pow2Positive(k - 1); }
  }

  lemma BackoffNonNegative(cfg: Config, k: nat)
    ensures 0 <= Backoff(cfg, k)
  {
    Pow2Positive(k);
    assert cfg.backoffBase * Pow2(k) >= 0;
  }

  lemma {:induction false} BackoffSumGrows(cfg: Config, k: nat, m: nat)
    requires k <= m
    ensures BackoffSum(cfg, k) <= BackoffSum(cfg, m)
    decreases m
  {
    if k < m {
      BackoffSumGrows(cfg, k, m - 1);
      BackoffNonNegative(cfg, m - 1);
    }
  }

  lemma {:induction false} BackoffSumBounded(cfg: Config, m: nat)
    ensures BackoffSum(cfg, m) <= m * cfg.backoffMax
    ensures BackoffSum(cfg, m) <= cfg.backoffBase * (Pow2(m) - 1)
  {
    if m > 0 {
      BackoffSumBounded(cfg, m - 1);
      Multiply(m - 1, cfg.backoffMax, cfg.backoffBase, Pow2(m - 1));
    }
  }

  lemma Multiply(m: nat, ceiling: nat, base: nat, x: nat)
    ensures m * ceiling + ceiling == (m + 1) * ceiling
    ensures base * (x - 1) + base * x == base * (2 * x - 1)
  {
  }

  // All of a row's backoffs together are at most (M-1) ceilings, and at most the whole geometric series.
  lemma BackoffsBounded(env: Env, c: Cell)
    requires Waited(env, c) && env.cfg.maxAttempts >= 1
    ensures var m := env.cfg.maxAttempts - 1;
      c.waited <= Min(m * env.cfg.backoffMax, env.cfg.backoffBase * (Pow2(m) - 1))
  {
    BackoffSumGrows(env.cfg, Retries(env, c), env.cfg.maxAttempts - 1);
    BackoffSumBounded(env.cfg, env.cfg.maxAttempts - 1);
  }

  // ---- what a create made ------------------------------------------------

  ghost predicate AllFailed(c: Cell) { forall n :: n in c.calls ==> c.calls[n] == Failed }

  ghost predicate NoneInFlight(c: Cell) { forall n :: n in c.calls ==> !c.calls[n].InFlight? }

  // Only the latest attempt to call create may have an outcome still open or positive.
  ghost predicate LastCallOpen(c: Cell) {
    forall n, m :: n in c.calls && c.calls[n] != Failed && n < m < |c.claims| ==> Searches(c.claims[m].prior)
  }

  ghost predicate CallsTimed(env: Env, now: Time, c: Cell) {
    forall n :: n in c.calls && c.calls[n].InFlight? ==> now < c.calls[n].settleBy <= now + SettleTime(env, c.op)
  }

  ghost predicate SettledBy(c: Cell, t: Time) {
    forall n :: n in c.calls && c.calls[n].InFlight? ==> c.calls[n].settleBy <= t
  }

  // Calls under way settle before the row can be claimed for its read-back.
  ghost predicate SettlesInTime(c: Cell) {
    && (HasStatus(c, PENDING) ==> AllFailed(c))
    && (HasStatus(c, AWAITING_READBACK) ==> c.row.value.notBefore.Some? && SettledBy(c, c.row.value.notBefore.value))
    && (HasStatus(c, RUNNING) && c.claims != [] && Searches(LastClaim(c).prior) ==> NoneInFlight(c))
  }

  // What a verdict of an attempt claimed from `prior` says about the target.
  ghost predicate Justified(c: Cell, prior: Status, o: Outcome) {
    match o
    case SUCCEEDED => c.present
    case FAILED_CONFIRMED => AllFailed(c)
    case REJECTED_PRE_DISPATCH => !Searches(prior) ==> AllFailed(c)
    case INDETERMINATE => true
  }

  ghost predicate AttemptJustified(c: Cell, n: nat)
    requires n in c.live && n < |c.claims|
  {
    match c.live[n]
    case Claimed => !Searches(c.claims[n].prior) ==> AllFailed(c)
    case Calling => !Searches(c.claims[n].prior) ==> n in c.calls
    case Decided(Finish(o, _, _)) => Justified(c, c.claims[n].prior, o)
    case Decided(Requeue(_, _)) => AllFailed(c)
    case Decided(DeferReadback(_)) => true
  }

  ghost predicate Verdicts(c: Cell) {
    && (forall n :: n in c.live ==> n < |c.claims| && AttemptJustified(c, n))
    && (c.hist.Some? ==> c.claims != [] && Justified(c, LastClaim(c).prior, c.hist.value.outcome))
  }

  ghost predicate LandedIsPresent(c: Cell) {
    forall n :: n in c.calls && c.calls[n] == Landed ==> c.present
  }

  ghost predicate CreateSafe(env: Env, now: Time, c: Cell) {
    && LastCallOpen(c) && CallsTimed(env, now, c) && SettlesInTime(c) && Verdicts(c)
    && LandedIsPresent(c)
  }

  ghost predicate Ready(env: Env, now: Time, c: Cell) {
    ValidEnv(env) && IsCreate(c) && Basic(env, c) && Recorded(c) && OneAttempt(c) && CreateSafe(env, now, c)
  }

  lemma LastCallOpenKept(env: Env, now: Time, c: Cell, a: Act)
    requires ClaimsOk(c) && OneAttempt(c) && LastCallOpen(c) && SettlesInTime(c) && Verdicts(c)
    requires StrictlyEnabled(env, now, c, a)
    ensures LastCallOpen(Perform(env, now, c, a))
  {
    match a
    case Take => TakeKeepsLast(env, now, c);
    case Send(n) => assert forall m :: m in c.calls && c.calls[m] != Failed ==> Searches(c.claims[n].prior);
    case _ => NoSendKeepsLast(env, now, c, a);
  }

  lemma TakeKeepsLast(env: Env, now: Time, c: Cell)
    requires ClaimsOk(c) && LastCallOpen(c) && SettlesInTime(c) && Enabled(env, now, c, Take)
    ensures LastCallOpen(Perform(env, now, c, Take))
  {
  }

  lemma NoSendKeepsLast(env: Env, now: Time, c: Cell, a: Act)
    requires ClaimsOk(c) && LastCallOpen(c) && Enabled(env, now, c, a) && !a.Take? && !a.Send?
    ensures LastCallOpen(Perform(env, now, c, a))
  {
    var c' := Perform(env, now, c, a);
    assert c'.claims == c.claims;
    assert forall n :: n in c'.calls && c'.calls[n] != Failed ==> n in c.calls && c.calls[n] != Failed;
  }

  lemma CallsTimedKept(env: Env, now: Time, c: Cell, a: Act)
    requires ValidEnv(env) && CallsTimed(env, now, c) && Enabled(env, now, c, a)
    ensures CallsTimed(env, now, Perform(env, now, c, a))
  {
  }

  lemma LandedIsPresentKept(env: Env, now: Time, c: Cell, a: Act)
    requires LandedIsPresent(c) && Enabled(env, now, c, a)
    ensures LandedIsPresent(Perform(env, now, c, a))
  {
  }

  lemma SettlingKept(env: Env, now: Time, c: Cell, a: Act)
    requires Ready(env, now, c) && StrictlyEnabled(env, now, c, a)
    ensures SettlesInTime(Perform(env, now, c, a))
  {
    if a.Take? || a.Recover? {
      RowTakenSettles(env, now, c, a);
    } else if a.Write? {
      WriteSettles(env, now, c, a.n);
    } else {
      OthersSettle(env, now, c, a);
    }
  }

  lemma OthersSettle(env: Env, now: Time, c: Cell, a: Act)
    requires ClaimsOk(c) && OneAttempt(c) && SettlesInTime(c) && Enabled(env, now, c, a) && !a.Take? && !a.Recover? && !a.Write?
    ensures SettlesInTime(Perform(env, now, c, a))
  {
  }

  lemma RowTakenSettles(env: Env, now: Time, c: Cell, a: Act)
    requires ValidEnv(env) && IsCreate(c) && RowOk(c) && CallsTimed(env, now, c) && SettlesInTime(c)
    requires (a.Take? || a.Recover?) && Enabled(env, now, c, a)
    ensures SettlesInTime(Perform(env, now, c, a))
  {
  }

  lemma WriteSettles(env: Env, now: Time, c: Cell, n: nat)
    requires IsCreate(c) && Basic(env, c) && OneAttempt(c) && CallsTimed(env, now, c) && SettlesInTime(c) && Verdicts(c)
    requires Enabled(env, now, c, Write(n))
    ensures SettlesInTime(Perform(env, now, c, Write(n)))
  {
  }

  lemma VerdictsKept(env: Env, now: Time, c: Cell, a: Act)
    requires Ready(env, now, c) && StrictlyEnabled(env, now, c, a)
    ensures Verdicts(Perform(env, now, c, a))
  {
    match a
    case Reply(n, ans) => ReplyJustified(env, now, c, n, ans);
    case Write(n) => WriteJustified(env, now, c, n);
    case Take => TakeJustified(env, now, c);
    case _ => OthersJustified(env, now, c, a);
  }

  lemma OthersJustified(env: Env, now: Time, c: Cell, a: Act)
    requires IsCreate(c) && ClaimsOk(c) && OneAttempt(c) && Recorded(c) && Verdicts(c) && StrictlyEnabled(env, now, c, a)
    requires !a.Reply? && !a.Write? && !a.Take?
    ensures Verdicts(Perform(env, now, c, a))
  {
  }

  lemma TakeJustified(env: Env, now: Time, c: Cell)
    requires Basic(env, c) && OneAttempt(c) && Recorded(c) && SettlesInTime(c) && Verdicts(c)
    requires Enabled(env, now, c, Take)
    ensures Verdicts(Perform(env, now, c, Take))
  {
    assert c.live == map[];
  }

  // A miss at the read-back finds no call under way and nothing there, so
  // nothing was made; a refusal leaves every call failed.
  lemma ReplyJustified(env: Env, now: Time, c: Cell, n: nat, ans: Answer)
    requires env.honest && IsCreate(c) && ClaimsOk(c) && OneAttempt(c) && CreateSafe(env, now, c) && Enabled(env, now, c, Reply(n, ans))
    ensures Verdicts(Perform(env, now, c, Reply(n, ans)))
  {
    assert n == |c.claims| - 1;
    if !Searches(c.claims[n].prior) && c.calls[n] == Failed { LastFailedAllFailed(c, n); }
  }

  lemma LastFailedAllFailed(c: Cell, n: nat)
    requires LastCallOpen(c) && n == |c.claims| - 1 && n in c.calls && c.calls[n] == Failed
    requires !Searches(c.claims[n].prior) && forall m :: m in c.calls ==> m < |c.claims|
    ensures AllFailed(c)
  {
  }

  lemma WriteJustified(env: Env, now: Time, c: Cell, n: nat)
    requires OneAttempt(c) && Recorded(c) && Verdicts(c) && Enabled(env, now, c, Write(n))
    ensures Verdicts(Perform(env, now, c, Write(n)))
  {
  }

  lemma CreateSafeKept(env: Env, now: Time, c: Cell, a: Act)
    requires Ready(env, now, c) && StrictlyEnabled(env, now, c, a)
    ensures CreateSafe(env, now, Perform(env, now, c, a))
  {
    LastCallOpenKept(env, now, c, a);
    CallsTimedKept(env, now, c, a);
    LandedIsPresentKept(env, now, c, a);
    SettlingKept(env, now, c, a);
    VerdictsKept(env, now, c, a);
  }

  lemma CreateSafeLater(env: Env, now: Time, c: Cell, later: Time)
    requires CreateSafe(env, now, c) && now <= later && CallsOutlast(c, later)
    ensures CreateSafe(env, later, c)
  {
  }

  // A create never makes two objects; SUCCEEDED means an object of that name
  // exists, FAILED_CONFIRMED that this operation made none and never will.
  lemma CreateVerdict(env: Env, now: Time, c: Cell)
    requires CreateSafe(env, now, c) && ClaimsOk(c)
    ensures forall n, m :: n in c.calls && m in c.calls && c.calls[n] == Landed && c.calls[m] == Landed ==> n == m
    ensures c.hist.Some? && c.hist.value.outcome == SUCCEEDED ==> c.present
    ensures c.hist.Some? && c.hist.value.outcome == FAILED_CONFIRMED ==> AllFailed(c)
    ensures c.hist.Some? && c.hist.value.outcome == REJECTED_PRE_DISPATCH && !Searches(LastClaim(c).prior) ==> AllFailed(c)
  {
  }
}
