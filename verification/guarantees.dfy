// What callers are promised, over every run from an empty table.
module Guarantees {
  import opened Rows
  import opened ClaimSpec
  import opened Resolution
  import opened Protocol
  import opened CellLaws
  import opened Evidence
  import opened StrictLaws
  import opened Runs

  lemma Reached(env: Env, strict: bool, t0: Time, acts: seq<Action>, id: Id)
    requires Possible(env, strict, Start(t0), acts) && id in After(env, Start(t0), acts).cells
    ensures var w := After(env, Start(t0), acts); CellInv(env, strict, w.now, w.cells[id])
  {
    RunKeeps(env, strict, Start(t0), acts);
  }

  // A create makes at most one object, over every run with crashes and reaps.
  // SUCCEEDED means an object of the name exists; FAILED_CONFIRMED, and a
  // rejection that was not met on the way to a read-back, mean it made none.
  lemma CreateIsSafe(env: Env, t0: Time, acts: seq<Action>, id: Id)
    requires ValidEnv(env) && Possible(env, true, Start(t0), acts) && id in After(env, Start(t0), acts).cells
    requires IsCreate(After(env, Start(t0), acts).cells[id])
    ensures var c := After(env, Start(t0), acts).cells[id];
      && (forall n, m :: n in c.calls && m in c.calls && c.calls[n] == Landed && c.calls[m] == Landed ==> n == m)
      && (c.hist.Some? && c.hist.value.outcome == SUCCEEDED ==> c.present)
      && (c.hist.Some? && c.hist.value.outcome == FAILED_CONFIRMED ==> AllFailed(c))
      && (c.hist.Some? && c.hist.value.outcome == REJECTED_PRE_DISPATCH ==>
            c.claims != [] && (LastClaim(c).prior == PENDING ==> AllFailed(c)))
  {
    Reached(env, true, t0, acts, id);
    var w := After(env, Start(t0), acts);
    CreateVerdict(env, w.now, w.cells[id]);
  }

  // Every recorded verdict, over every run and whatever the target does, is explained by
  // what one of the operation's attempts met.
  lemma VerdictsAreExplained(env: Env, strict: bool, t0: Time, acts: seq<Action>, id: Id)
    requires Possible(env, strict, Start(t0), acts) && id in After(env, Start(t0), acts).cells
    ensures var c := After(env, Start(t0), acts).cells[id];
      c.hist.Some? ==> exists n: nat :: Explains(env, c, n)
  {
    Reached(env, strict, t0, acts, id);
    var c := After(env, Start(t0), acts).cells[id];
    if c.hist.Some? {
      var n: nat, result :| Tells(env, c, n, result);
      TellsExplains(env, c, n, result);
    }
  }

  // With an honest target an update or a delta that SUCCEEDED took effect, and a delete
  // that did took effect or was told that there is no such object.
  lemma SuccessTookEffect(env: Env, strict: bool, t0: Time, acts: seq<Action>, id: Id) returns (n: nat)
    requires env.honest && Possible(env, strict, Start(t0), acts) && id in After(env, Start(t0), acts).cells
    requires var c := After(env, Start(t0), acts).cells[id];
      c.op.opType != CREATE && c.hist.Some? && c.hist.value.outcome == SUCCEEDED
    ensures var c := After(env, Start(t0), acts).cells[id];
      || (n in c.calls && c.calls[n] == Landed)
      || (c.op.opType == DELETE && n in c.answers && c.answers[n].Threw? && CodedFault(c.answers[n].fault, "UNKNOWN_UID"))
  {
    VerdictsAreExplained(env, strict, t0, acts, id);
    Reached(env, strict, t0, acts, id);
    var c := After(env, Start(t0), acts).cells[id];
    n :| Explains(env, c, n);
    assert ClaimOk(c, c.claims[n]);
  }

  // Claims are bounded by the retry ceiling and the reaps of the row; the
  // attempt count is the number of requeues.
  lemma ClaimsAreBounded(env: Env, t0: Time, acts: seq<Action>, id: Id)
    requires Possible(env, true, Start(t0), acts) && id in After(env, Start(t0), acts).cells
    ensures var c, M := After(env, Start(t0), acts).cells[id], env.cfg.maxAttempts;
      && (c.row.Some? ==> c.row.value.attemptCount == c.requeues)
      && c.requeues <= Max(1, M - 1)
      && |c.claims| <= c.reaps + if IsCreate(c) then Max(2, M) + 2 else Max(1, M)
  {
    Reached(env, true, t0, acts, id);
    ClaimsBounded(env, After(env, Start(t0), acts).cells[id]);
  }

  // Time spent backing off is bounded whatever the target answers.
  lemma BackoffIsBounded(env: Env, t0: Time, acts: seq<Action>, id: Id)
    requires Possible(env, true, Start(t0), acts) && id in After(env, Start(t0), acts).cells && env.cfg.maxAttempts >= 1
    ensures var c, m := After(env, Start(t0), acts).cells[id], env.cfg.maxAttempts - 1;
      c.waited <= Min(m * env.cfg.backoffMax, env.cfg.backoffBase * (Pow2(m) - 1))
  {
    Reached(env, true, t0, acts, id);
    BackoffsBounded(env, After(env, Start(t0), acts).cells[id]);
  }

  lemma {:induction false} Below(s: set<nat>, n: nat)
    requires forall k :: k in s ==> k < n
    ensures |s| <= n
  {
    if n - 1 in s {
      Below(s - {n - 1}, n - 1);
    } else if n > 0 {
      Below(s, n - 1);
    }
  }

  // Whatever the reaper takes, live attempts included: a create is called only
  // on a claim out of PENDING, at a higher attempt count each time.
  lemma NoBlindReissue(env: Env, strict: bool, t0: Time, acts: seq<Action>, id: Id)
    requires Possible(env, strict, Start(t0), acts) && id in After(env, Start(t0), acts).cells
    requires IsCreate(After(env, Start(t0), acts).cells[id])
    ensures var c := After(env, Start(t0), acts).cells[id];
      && (forall n :: n in c.calls ==> n < |c.claims| && c.claims[n].prior == PENDING && c.claims[n].attemptCount <= c.requeues)
      && (forall n, m :: n in c.calls && m in c.calls && n < m ==> c.claims[n].attemptCount < c.claims[m].attemptCount)
      && c.started <= c.requeues + 1
  {
    Reached(env, strict, t0, acts, id);
  }

  // A delta on a target that does not apply it as a set is called at most once
  // more than it is reaped.
  lemma DeltaIsNotReplayed(env: Env, strict: bool, t0: Time, acts: seq<Action>, id: Id)
    requires Possible(env, strict, Start(t0), acts) && id in After(env, Start(t0), acts).cells
    requires var op := After(env, Start(t0), acts).cells[id].op;
      IsDelta(op.opType) && !env.inst(op.instance).idempotentDelta
    ensures var c := After(env, Start(t0), acts).cells[id]; |c.calls| <= 1 + c.reaps
  {
    Reached(env, strict, t0, acts, id);
    var c := After(env, Start(t0), acts).cells[id];
    Below(c.calls.Keys, |c.claims|);
  }

  // From enqueue on an id always has a status, and a terminal one is final. A
  // uid once shown stays, given a request that carried no other.
  lemma {:induction false} AnswersArePermanent(env: Env, strict: bool, w: World, acts: seq<Action>, id: Id)
    requires Inv(env, strict, w) && Possible(env, strict, w, acts) && id in w.cells
    ensures id in After(env, w, acts).cells
    ensures var r, r' := StatusOfCell(w.cells[id]), StatusOfCell(After(env, w, acts).cells[id]);
      && r.Some? && r'.Some?
      && (r.value.status.Final? ==>
            && r'.value.op == r.value.op && r'.value.status == r.value.status && r'.value.errorCode == r.value.errorCode
            && r'.value.finalizedAt == r.value.finalizedAt
            && (NonEmpty(r.value.uid).Some? && (r.value.op.uid.None? || r.value.op.uid == r.value.uid) ==>
                  r'.value.uid == r.value.uid))
    decreases |acts|
  {
    if acts != [] {
      AnswerStaysNext(env, strict, w, acts[0], id);
      NextKeeps(env, strict, w, acts[0]);
      AnswersArePermanent(env, strict, Next(env, w, acts[0]), acts[1..], id);
    }
  }

  lemma AnswerStaysNext(env: Env, strict: bool, w: World, a: Action, id: Id)
    requires Inv(env, strict, w) && Can(env, strict, w, a) && id in w.cells
    ensures id in Next(env, w, a).cells
    ensures var r, r' := StatusOfCell(w.cells[id]), StatusOfCell(Next(env, w, a).cells[id]);
      && r.Some? && r'.Some?
      && (r.value.status.Final? ==>
            && r'.value.op == r.value.op && r'.value.status == r.value.status && r'.value.errorCode == r.value.errorCode
            && r'.value.finalizedAt == r.value.finalizedAt
            && (NonEmpty(r.value.uid).Some? && (r.value.op.uid.None? || r.value.op.uid == r.value.uid) ==>
                  r'.value.uid == r.value.uid))
  {
    var c, c' := w.cells[id], Next(env, w, a).cells[id];
    CellStep(env, strict, w, a, id);
    if c' != c {
      var act :| Enabled(env, w.now, c, act) && c' == Perform(env, w.now, c, act);
      AnswerStays(env, w.now, c, act);
    }
  }

  // A rejection never reached the target when the operation was claimed once: for
  // every type, over every run, even if the reaper takes live attempts. In general
  // at least one of the claims called nothing.
  lemma RejectedWhenFirstClaimed(env: Env, strict: bool, t0: Time, acts: seq<Action>, id: Id)
    requires Possible(env, strict, Start(t0), acts) && id in After(env, Start(t0), acts).cells
    requires var h := After(env, Start(t0), acts).cells[id].hist; h.Some? && h.value.outcome == REJECTED_PRE_DISPATCH
    ensures var c := After(env, Start(t0), acts).cells[id];
      |c.calls| < |c.claims| && (|c.claims| == 1 ==> c.calls == map[])
  {
    Reached(env, strict, t0, acts, id);
    var c := After(env, Start(t0), acts).cells[id];
    var n: nat :| OverUncalled(c, n);
    Below(c.calls.Keys + {n}, |c.claims|);
    assert |c.calls.Keys + {n}| == |c.calls| + 1;
    if |c.claims| == 1 { assert c.calls.Keys == {}; }
  }
}
