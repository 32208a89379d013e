# A verified model of the durable claim loop

This project models, in Dafny, how provisioning operations move through the
operations table: how they are enqueued, claimed, attempted against a target,
resolved, recovered, and finally kept as history while their day partition is
dropped. It also models the parser of the search filter. `dafny verify
dfyconfig.toml` checks everything.

| module | what it is |
|---|---|
| `Options`, `Rows`, `Store` | the row, its history record, and each SQL statement as a function on the two tables |
| `ClaimSpec`, `GreedyCounts`, `ClaimRanks`, `ClaimProof`, `ClaimTheorems` | the claim statement as ranks over sets, and what it guarantees |
| `MemoryStore` | the in-memory store as a class, proved equal to the statements |
| `Resolution` | what each attempt makes of each answer of the target |
| `Protocol`, `CellLaws`, `StrictLaws`, `Evidence`, `Runs` | the claim loop as one state machine that keeps every claim, call and answer, the invariants of one operation, and what its verdict rests on |
| `Guarantees`, `Rejections`, `Witnesses`, `Lanes`, `Drain`, `Settling`, `ReapDelay` | theorems over all runs: safety of creates, bounds, permanence, lane serialization, progress |
| `Dispatching`, `DispatchTheorems`, `Scheduling` | the dispatcher's in-memory maps as a class, its budgets, and the reserved slice |
| `Rounds`, `Mirror` | one dispatcher driving the table with its own claims: termination, and its maps in step with the table |
| `Replicas`, `ReplicaLanes`, `Idempotency`, `Admission`, `Overshoot` | the claim, the enqueue and the admission check split into steps that interleave |
| `Partitions` | the partition catalogue and the maintenance pass, as classes |
| `Filter`, `FilterPrinter`, `FilterGrammar` | tokenizer, literals and clause loop, a printer that parsing undoes, and the grammar as relations that the parser decides |

## What is assumed

- `createdAt` stamps are distinct (`DistinctStamps`), so that every ORDER BY is
  total. The claim is one atomic step, except in `Replicas` and `ReplicaLanes`,
  which take it apart: then a row is still not returned twice, but a lane is
  serialized only under the condition of `SplitClaimsSerialize`.
- Only `CreateIsSafe` and `SuccessTookEffect` need an honest target (`Env.honest`): success means the call
  took effect; for a create, any error but a timeout means it did not; a name
  search sees what is there, and nobody deletes the name (`Truthful`); a call
  settles within the create deadline plus the grace (`CallsOutlast`), which is
  positive (`ValidEnv`). `TwoObjectsIfDishonest` shows why. Every other theorem
  over runs holds for a target that answers anything and applies calls at any time.
- Theorems with `strict` set assume that the reaper takes only rows whose
  attempt is over, which is what `reaperThresholdMs` is documented to ensure.
  Those without it let the reaper take live attempts.
- Time never goes back, and each instance's configuration is fixed for a run.

## Where code and documentation differ

- `src/ops/types.ts:15` says REJECTED_PRE_DISPATCH never reached the target and is
  safe to retry. That holds for an operation claimed once
  (`RejectedWhenFirstClaimed`) and fails for each way to a second claim, because
  the connector can then fail to be acquired after an earlier call: after a reap
  for operations of every type (`RejectedAfterReap`), after a requeue
  (`RejectedAfterRequeue`) and after a deferral (`RejectedAfterReadBack`). For
  creates `CreateIsSafe` adds that a rejection on a claim out of PENDING made
  nothing, if the reaper takes only rows whose attempt is over.
- `src/ops/OperationStore.ts:474` says history prefers the result's uid; the
  statement prefers the request's (`UidOutlivesHotRow`, `UidIsReplaced`).
- `src/ops/OperationStore.ts:203` says a due read-back is not overtaken on its
  lane; interactive rows overtake a batch one (`ResumeIsOvertakenIff`,
  `ReadBackIsOvertaken`).
- `maxAttempts` of 0 still allows one claim, so the bound is `max(1, M)`.
- The in-memory store reaps at the threshold, the SQL store past it; it
  deduplicates keys for ever, the SQL store while the row is hot; it leaves
  `claimedAt` on requeue; its claim loop keys taken lanes without the instance
  (`ClaimMade` says when that matters, `LoopIsGreedy` what it then does).
- A negative `retentionDays` is accepted and can drop today's partition (`WindowStandsIff`).
- The operator table of the filter is a plain object, so the words
  `constructor` and `__proto__` are found in it; the model keeps them as
  `Inherited`. The fallback token rule lets some unterminated literals through;
  the model follows it.

## Model

| member | source | states |
|---|---|---|
| `ClaimTheorems.ClaimableIff` | src/ops/OperationStore.ts:161-214 | a row may be claimed iff it is pending or its read-back is due, its instance has a free slot, its lane key is not active, and no row of its instance and lane key runs or waits for a read-back that is not due |
| `ClaimTheorems.LeaderIff` | src/ops/OperationStore.ts:189-198 | a lane is led by its first claimable row: interactive before batch, then older before newer |
| `ClaimTheorems.OnePerLane` | src/ops/OperationStore.ts:170-214 | a cycle takes at most one row of a lane, and none from a lane where a row runs or still waits for its read-back |
| `ClaimTheorems.ExactClaim` | src/ops/OperationStore.ts:215-248 | when the limit does not bind, an instance with I interactive and B batch lane leaders yields min(cap, I) and min(batchCap, B, cap - min(cap, I)) rows |
| `ClaimTheorems.ClaimIsBounded` | src/ops/OperationStore.ts:161-248 | no claim exceeds the limit, an instance's free slots or its batch slots; an instance with no free slot yields nothing |
| `ClaimTheorems.BatchComesLast` | src/ops/OperationStore.ts:225-248 | a claimed batch row implies that every interactive lane leader of its instance was claimed |
| `ClaimTheorems.InteractiveGetsItsSlots` | src/ops/OperationStore.ts:215-248 | m free slots go to the first m interactive leaders, whatever batch is queued, if other instances' interactive rows leave m places under the limit |
| `ClaimTheorems.NeverIdle` | src/ops/OperationStore.ts:184-248 | with limit at least 1 and a batch slot wherever batch waits, an eligible row means a non-empty claim |
| `ClaimTheorems.ResumeGoesFirst` | src/ops/OperationStore.ts:195-208 | a due read-back is passed by a later row of its lane only if that row is interactive and the read-back is batch work |
| `ClaimTheorems.ResumeIsOvertakenIff` | src/ops/OperationStore.ts:195-208 | for any table, a due read-back's lane is led by a row enqueued after it if and only if the read-back is batch work, claimable interactive rows wait on its lane, and all of those are later: exactly then the comment that a resume is not overtaken fails |
| `ClaimTheorems.ReadBackIsOvertaken` | src/ops/OperationStore.ts:195-208 | and it happens: a due batch read-back with an interactive row queued later on its lane is overtaken |
| `GreedyCounts.GotIsAdmitted` | src/ops/OperationStore.ts:225-247 | both caps applied to ranks admit min(cap, I) interactive and min(batchCap, B, rest) batch rows at every prefix of the claim order |
| `GreedyCounts.LeaderTest` | test/harness/MemoryOperationStore.ts:182-203 | for a lane leader the loop's remaining-slot tests say the same as its ranks against both caps |
| `GreedyCounts.NoSlotsBehind` | test/harness/MemoryOperationStore.ts:182-203 | a later row of a lane whose leader was skipped finds no slot either, so skipping never lets the lane's second row through |
| `ClaimRanks.WithinAt` | src/ops/OperationStore.ts:215-245 | a row's window-function ranks equal the counts of leaders before it in claim order |
| `ClaimProof.GreedyTest` | test/harness/MemoryOperationStore.ts:182-203 | the loop's three tests at a candidate hold exactly when the statement's ranks keep it within the caps |
| `ClaimProof.PickedIffFewer` | src/ops/OperationStore.ts:246-247 | LIMIT keeps a candidate exactly when the caps do and fewer than that many rows the caps keep come before it |
| `MemoryStore.MemoryOperationStore.Enqueue` | test/harness/MemoryOperationStore.ts:99-130 | a new key inserts one PENDING row at attempt count 0, with no claim, wait, result or error, and leaves the rest; a known key returns its id and changes nothing |
| `MemoryStore.MemoryOperationStore.ClaimBatch` | test/harness/MemoryOperationStore.ts:132-206 | for any table: claims claimable rows of pairwise different lane keys, within the limit and each instance's caps; a claimable row is taken exactly when the rows taken before it leave room (`LoopIsGreedy`); each taken row is RUNNING from now on without a due time, and is returned once, in claim order, with the operation, attempt count and status it had before; nothing else changes; this is exactly what the claim statement does if and only if the rows the statement picks have pairwise different lane keys |
| `MemoryStore.MemoryOperationStore.TakeCandidates` | test/harness/MemoryOperationStore.ts:176-205 | the loop alone, from the sorted candidates: the same outcome |
| `MemoryStore.MemoryOperationStore.CandidatesOf` | test/harness/MemoryOperationStore.ts:152-174 | filtering and sorting lists the eligible rows, each once, in claim order |
| `MemoryStore.MemoryOperationStore.Finalize` | test/harness/MemoryOperationStore.ts:246-274 | first outcome wins: false and nothing changed for an unknown or terminal row, else the row gets outcome, result (kept if none is given), error code and time, and the history row is written with it, the request's uid ahead of the result's; same tables and answer as the finalize transaction |
| `MemoryStore.MemoryOperationStore.Requeue` | test/harness/MemoryOperationStore.ts:276-282 | only a RUNNING row goes back to PENDING, with one attempt more; the requeue statement gives the same answer and tables but for the row's claimed_at, which nothing reads outside RUNNING |
| `MemoryStore.MemoryOperationStore.DeferForReadback` | test/harness/MemoryOperationStore.ts:208-217 | only a RUNNING row starts to wait, until the given time, and its attempt count stays; same tables and answer as the defer statement |
| `MemoryStore.MemoryOperationStore.ReapStale` | test/harness/MemoryOperationStore.ts:219-244 | a row RUNNING for at least the threshold loses its claim, a create to wait for its read-back and anything else to PENDING, attempt counts unchanged; same tables and counts as the reaper's two statements with a threshold one smaller, which reap only past it |
| `MemoryStore.MemoryOperationStore.PendingCounts` | test/harness/MemoryOperationStore.ts:284-293 | counts exactly the PENDING and AWAITING_READBACK rows of the instance, per class |
| `MemoryStore.MemoryOperationStore.GetStatus` | test/harness/MemoryOperationStore.ts:295-328 | reports the hot row with its attempt count and result uid, else the history row with attempt count 0 and its uid unless that is empty, else nothing, and which it was; as the status lookup does |
| `MemoryStore.LoopTook` | test/harness/MemoryOperationStore.ts:182-203 | wherever the loop stops it has taken only claimable rows, no two of one lane key, and left every other row alone |
| `MemoryStore.CapsAreKept` | test/harness/MemoryOperationStore.ts:184-200 | and no more of any instance, or of its batch rows, than the caps allow: the loop's counters are what the caps have left |
| `MemoryStore.LoopIsClaim` | test/harness/MemoryOperationStore.ts:182-205 | where the picked rows share no lane key, the loop stops having taken exactly the picked rows |
| `MemoryStore.LoopIsGreedy` | test/harness/MemoryOperationStore.ts:180-205 | on any table the loop takes a claimable row exactly when the rows taken before it in claim order leave room: under the limit, for its instance, for its class, and on its lane key |
| `MemoryStore.OneGreedySet` | test/harness/MemoryOperationStore.ts:180-205 | and only one set of claimable rows is so taken: the claim is determined on any table |
| `MemoryStore.SameAsSql` | test/harness/MemoryOperationStore.ts:180-203 | where they share one, the loop does not do what the statement does |
| `MemoryStore.UnsharedIsApart` | src/ops/OperationStore.ts:195-198 | if no lane key is used by claimable rows of two instances, the picked rows share none |
| `MemoryStore.Finish` | test/harness/MemoryOperationStore.ts:182-205 | wherever the loop stops, the candidates it took are exactly the picked set |
| `MemoryStore.SharedLanesCanBePicked` | src/ops/OperationStore.ts:195-198 | two claimable rows of different instances with one lane key can both be picked |
| `MemoryStore.ClaimedLists` | test/harness/MemoryOperationStore.ts:196-202 | the returned list holds each taken row once and nothing else, in claim order |
| `MemoryStore.InsertByClaimOrder` | test/harness/MemoryOperationStore.ts:337-342 | inserting keeps the claim order and the members |
| `CellLaws.BasicKept` | src/ops/OperationStore.ts:564-665 | every act keeps: attempt count equals requeues, a RUNNING row has a claim time, only a create waits for a read-back and with a due time, every live attempt stems from a claim |
| `CellLaws.ResolveShaped` | src/ops/Dispatcher.ts:553-820 | for every answer: only a create outside a read-back defers, by deadline plus grace; a requeue stays under the retry ceiling, by exactly the capped backoff; a non-idempotent delta is never requeued |
| `Evidence.CallMeans` | src/ops/Dispatcher.ts:553-820 | each way an answered call is resolved, exactly when: SUCCEEDED iff applied or, for a delete, the uid is unknown; FAILED_CONFIRMED iff refused for good; deferred iff a create timed out that can be looked up; requeued iff open, harmless to repeat and under the ceiling; never rejected |
| `Evidence.SearchMeans` | src/ops/Dispatcher.ts:621-660 | each way a read-back's search is resolved, exactly when: SUCCEEDED iff found; requeued iff missing at attempt count 0; INDETERMINATE iff it failed or missed again |
| `Evidence.StoredWith` | src/ops/Dispatcher.ts:553-820 | what is stored with an outcome: a success has the uid of the answer, a delete its own, and no error code; anything else has no result and the code of its reason |
| `Evidence.RetriedFor` | src/ops/Dispatcher.ts:553-820 | a retry gives the code of its reason |
| `Evidence.AttemptMay` | src/ops/Dispatcher.ts:508-570 | what can happen to an attempt, exactly when: it dies at any time, fails unexpectedly until decided, is rejected only before it calls, calls unless its search has no name or its delta no uid, and is answered in every way its call allows |
| `Evidence.GroundedKept` | src/ops/Dispatcher.ts:508-526 | every act keeps: a decided attempt's resolution is that of the answer it got, or one that takes no answer, and the history row tells the verdict of one attempt that is over |
| `Evidence.AppliedLandedKept` | src/ops/Dispatcher.ts:720-812 | with an honest target every act keeps: an attempt answered with success has a call that took effect |
| `CellLaws.RecordedKept` | src/ops/OperationStore.ts:478-541 | the history row exists exactly from the terminal status on and says the same as the row, through every act |
| `CellLaws.AnswerStays` | src/ops/OperationStore.ts:703-755 | no act loses an id or changes a terminal status, its error code, its time or its operation |
| `CellLaws.UidOutlivesHotRow` | src/ops/OperationStore.ts:514-518 | the uid shown for a hot row is shown after its partition is dropped if and only if the request carried no other uid (the comment at 474-476 says the result's uid wins; COALESCE prefers the request's) |
| `Witnesses.UidIsReplaced` | src/ops/OperationStore.ts:514-518 | and it happens: every update on one uid that its target answers with another has a run in which the uid callers are shown changes when the partition is dropped |
| `CellLaws.OncePerCountKept` | src/ops/Dispatcher.ts:559-570 | a create is claimed out of PENDING at most once per attempt count, even when the reaper takes a live attempt |
| `CellLaws.OneTryKept` | src/ops/Dispatcher.ts:754-773 | a delta on a target without set semantics is claimed at most once more than it is reaped |
| `CellLaws.RejectsUncalledKept` | src/ops/Dispatcher.ts:508-522 | an attempt that rejects has called nothing, and is over when its verdict is written, through every act |
| `StrictLaws.OneAttemptKept` | src/ops/Dispatcher.ts:54-64 | with the reaper's threshold above the longest attempt, a row has at most one live attempt, that of its latest claim, and is RUNNING while it lives |
| `StrictLaws.CountedKept` | src/ops/Dispatcher.ts:654-681 | every act keeps the bounds on requeues, claims and resumed claims in terms of the ceiling and the reaps |
| `StrictLaws.WaitedKept` | src/ops/Dispatcher.ts:807-846 | every act keeps the backoff asked for so far under the sum of the capped steps |
| `StrictLaws.BackoffSumBounded` | src/ops/Dispatcher.ts:815-818 | the first m backoffs together are at most m ceilings and at most base * (2^m - 1) |
| `StrictLaws.BackoffDoubles` | src/ops/Dispatcher.ts:815-818 | the first backoff is the base and each further one twice the one before, none above the ceiling |
| `StrictLaws.CreateSafeKept` | src/ops/Dispatcher.ts:579-681 | every act keeps: at most the latest create call is open or landed, every call settles before its row's read-back is due, every verdict is justified by what the calls did |
| `StrictLaws.ReplyJustified` | src/ops/Dispatcher.ts:586-680 | each answer's resolution is justified: a hit means present, a miss or a refusal means that no call of this operation landed |
| `Runs.CellInvKept` | src/ops/OperationStore.ts:478-665 | all laws of one operation are kept by every act on it |
| `Runs.RunKeeps` | src/ops/Dispatcher.ts:271-339 | and over every run of enqueues, claim cycles, reaps, drops, attempts, crashes and ticks |
| `Guarantees.CreateIsSafe` | src/ops/Dispatcher.ts:579-681 | over every run with an honest target a create makes at most one object; SUCCEEDED means an object of the name exists; FAILED_CONFIRMED, and a rejection not met at a read-back, mean it made none |
| `Guarantees.VerdictsAreExplained` | src/ops/Dispatcher.ts:508-820 | over every run, whatever the target does: every recorded verdict, its error code and its uid are explained by what one attempt met: SUCCEEDED by a hit, by success, or for a delete by an unknown uid; FAILED_CONFIRMED by a refusal, never by a timeout or a retryable error outside the named codes; INDETERMINATE by an answer that leaves it open with no way or try left, or none; REJECTED_PRE_DISPATCH by none |
| `Guarantees.SuccessTookEffect` | src/ops/Dispatcher.ts:699-812 | over every run with an honest target: an update or delta that SUCCEEDED has a call that took effect, a delete one or the answer that its uid is unknown |
| `Witnesses.TwoObjectsIfDishonest` | src/ops/Dispatcher.ts:601-603 | the target's honesty is needed: with a retryable error after the create was applied, every create has a run that makes two objects |
| `Witnesses.AnothersObjectIsFound` | src/ops/Dispatcher.ts:621-647 | a hit at a read-back shows only that an object of the name exists: every create that can be read back has a run that ends SUCCEEDED, with the uid found, though its only call failed and another made the object |
| `Guarantees.ClaimsAreBounded` | src/ops/Dispatcher.ts:654-681 | whatever the target answers, with ceiling M and R reaps: at most max(1, M) + R claims, for a create max(2, M) + 2 + R; attempt_count is the number of requeues and at most max(1, M - 1) |
| `Witnesses.UpdateReachesItsBounds` | src/ops/Dispatcher.ts:807-820 | for every M and R an update has a run with exactly max(1, M) + R claims, M - 1 requeues and every capped backoff waited |
| `Witnesses.CreateReachesItsBounds` | src/ops/Dispatcher.ts:579-681 | for every M and R a create that can be read back has a run with exactly max(2, M) + 2 + R claims and max(1, M - 1) requeues |
| `Guarantees.BackoffIsBounded` | src/ops/Dispatcher.ts:807-820 | whatever the target answers, a row's backoffs together are at most min((M - 1) * backoffMax, backoffBase * (2^(M-1) - 1)) |
| `Guarantees.NoBlindReissue` | src/ops/Dispatcher.ts:559-570 | create is called only on claims out of PENDING, at strictly growing attempt counts, even if the reaper takes live attempts |
| `Guarantees.DeltaIsNotReplayed` | src/ops/Dispatcher.ts:736-775 | a delta on a target without set semantics is called at most 1 + R times |
| `Guarantees.AnswersArePermanent` | src/ops/OperationStore.ts:703-755 | from enqueue on an id always has a status; a terminal status, its error code and its time are final over every run; a uid once shown stays if the request carried no other |
| `Guarantees.RejectedWhenFirstClaimed` | src/ops/Dispatcher.ts:508-522 | REJECTED_PRE_DISPATCH is documented as never having reached the target: over every run, reaps of live attempts included, and for every operation type, that holds for an operation claimed once; in general fewer calls were made than claims |
| `Rejections.RejectedAfterReap` | src/ops/OperationStore.ts:617-639 | it fails after a reap: every operation that calls its target, of any type and on any target, has a run from an empty table that ends rejected on its second claim with its first call landed |
| `Rejections.RejectedAfterRequeue` | src/ops/Dispatcher.ts:807-820 | and after a requeue: every operation that is retried has a run that ends rejected with its first call made and, unless it is a create, landed |
| `Rejections.RejectedAfterReadBack` | src/ops/Dispatcher.ts:654-660 | and after a deferral: every create that can be read back has a run that ends rejected with its timed-out call landed |
| `Rejections.PathIsRun` | src/ops/Dispatcher.ts:271-339 | any sequence of acts on one operation, with calls settling in time, is a run of the whole claim loop |
| `Lanes.ClaimCycleIsSql` | src/ops/OperationStore.ts:238-269 | a claim cycle of the protocol changes the hot and the history table as the claim statement does |
| `Lanes.AttemptsAreHandedOut` | src/ops/OperationStore.ts:250-268 | each picked row starts one attempt, on the status and attempt count that the claim hands out, which are those before the claim |
| `Lanes.WriteIsSql` | src/ops/Dispatcher.ts:822-868 | a write-back of the protocol changes both tables as the finalize, requeue or defer statement does for the decided resolution: the first outcome stands, and only a RUNNING row goes back or waits |
| `Lanes.OthersLeaveTables` | src/ops/Dispatcher.ts:508-820 | no other step of a dispatcher or a target changes them |
| `Lanes.EnqueueInserts` | src/ops/OperationStore.ts:373-392 | an enqueue of the protocol inserts the row that the insert statement makes |
| `Lanes.ReapIsSql` | src/ops/OperationStore.ts:617-639 | a reap of the protocol changes both tables as the reaper's two statements do |
| `Lanes.DropIsSql` | sql/schema.sql:191-216 | a drop of the protocol changes both tables as drop_operations_partition does |
| `Lanes.OneOccupantKept` | src/ops/OperationStore.ts:170-214 | every action keeps at most one row per (instance, lane) RUNNING or waiting out a read-back |
| `Lanes.LanesSerialize` | src/ops/OperationStore.ts:170-214 | so it holds in every reachable state, with any number of replicas whose claims are atomic, crashes, reaps and restarts |
| `Drain.PotentialDrops` | src/ops/Dispatcher.ts:654-681 | each claim, reap and write-back strictly lowers an operation's potential, and no other step of a drain raises it, whatever the target answered |
| `Drain.WorkIsBounded` | src/ops/Dispatcher.ts:271-339 | any interleaving without new work and without deaths contains at most as many working actions as the table has potential |
| `Drain.QuietClaims` | src/ops/Dispatcher.ts:271-339 | on a table where nothing runs and every wait is over, with nothing to reap, the next claim takes something |
| `Drain.AttemptMovesOn` | src/ops/Dispatcher.ts:508-543 | a live attempt always has a step other than dying that moves it on |
| `Settling.SettlingIsShort` | src/ops/Dispatcher.ts:508-543 | however attempts, calls and answers interleave, only boundedly many steps can be taken before every attempt and call is over |
| `Settling.UntilRest` | src/ops/Dispatcher.ts:508-543 | and until then some step other than a death is open |
| `Settling.RestIsNoneBusy` | src/ops/Dispatcher.ts:508-543 | the bound is used up exactly when no attempt and no call is under way |
| `Settling.BecomesQuiet` | src/ops/Dispatcher.ts:508-543 | from every reachable table a quiet one is reachable without a death |
| `Rounds.DrainTerminates` | src/ops/Dispatcher.ts:271-339 | one dispatcher whose own offers serve the unfinished rows, from any reachable table and any backoffs: as many rounds as the table has potential leave every row terminal, whatever the target answers and however late its calls take effect; a round lets the attempts live at its start end and the waits present at its start pass, whatever else goes on, then reaps and makes the dispatcher's own claim |
| `Rounds.RoundWorks` | src/ops/Dispatcher.ts:271-339 | a round from a table that is not drained claims, reaps or writes back something |
| `Rounds.OwnQueryOffers` | src/ops/Dispatcher.ts:349-379 | with nothing in flight, backoffs over and tokens granted, the dispatcher's own claim offers every waiting row's instance a slot, and a batch slot where batch waits |
| `Rounds.AskClaim` | src/ops/Dispatcher.ts:278-289 | the query a dispatcher in step with the table sends is the one its configuration, the live attempts and its backoffs determine |
| `Rounds.CanDrain` | src/ops/Dispatcher.ts:271-339 | from any reachable table and any backoffs such rounds exist and end with every row terminal |
| `Mirror.MirrorsClaim` | src/ops/Dispatcher.ts:294-320 | launching what a claim returned keeps the dispatcher's attempts in flight equal to the table's live attempts, each knowing the prior status and attempt count of the row's last claim |
| `Mirror.MirrorsEnd` | src/ops/Dispatcher.ts:310-317 | so does releasing an attempt that ended |
| `Mirror.MirrorsKept` | src/ops/Dispatcher.ts:271-339 | and so does everything else that can happen to the table |
| `Mirror.RunsStayInStep` | src/ops/Dispatcher.ts:271-339 | so over every strict run the dispatcher's attempts in flight are exactly the table's live attempts, one ticket an operation, each with the status and count its row was claimed at |
| `Mirror.EveryRunMoves` | src/ops/Dispatcher.ts:271-339 | and every strict run is such a run for some lists its claims return |
| `Mirror.ResolvesAlike` | src/ops/Dispatcher.ts:508-543 | and what the dispatcher's attempt makes of an answer is what the protocol makes of it |
| `Mirror.SettleHolds` | src/ops/Dispatcher.ts:836-847 | settling a resolution in the dispatcher holds the lanes that writing it back is said to hold |
| `ReapDelay.ReadBackDelayCeiling` | src/ops/Dispatcher.ts:464-471 | the largest create deadline of the registered, configured instances, plus the grace: an upper bound, and reached |
| `ReapDelay.CeilingIsLongEnough` | src/ops/Dispatcher.ts:456-471 | that delay meets what the safety of creates asks of the reaper, with a grace of 0 too where the deadlines are positive |
| `Dispatching.Dispatcher.constructor` | src/ops/Dispatcher.ts:185-205 | a new dispatcher has nothing in flight and keeps the invariant |
| `Dispatching.Dispatcher.ComputeAvailability` | src/ops/Dispatcher.ts:349-379 | the loop makes the offer that its counters determine, whatever the rotation; `OfferIsExact` says how large that is |
| `Dispatching.Dispatcher.StartCycle` | src/ops/Dispatcher.ts:271-283 | a cycle starts only when none is under way and something is free, and its offer fits the budgets |
| `Dispatching.Dispatcher.OfferIsFree` | src/ops/Dispatcher.ts:360-376 | what is offered on top of what truly is in flight stays within both budgets |
| `Dispatching.Dispatcher.ExcludedLanes` | src/ops/Dispatcher.ts:500-506 | forgets exactly the backoffs that are over and excludes active lanes and the rest |
| `Dispatching.Dispatcher.FinishCycle` | src/ops/Dispatcher.ts:294-320 | launching a claim whose slots fit the offer keeps counters true and budgets held, whatever its lanes; if its lanes fit too, lanes stay single and backoffs kept, even if attempts ended while the claim was out |
| `Dispatching.Dispatcher.AbandonCycle` | src/ops/Dispatcher.ts:323-338 | a failed claim leaves the invariant and frees the next cycle |
| `Dispatching.Dispatcher.Settle` | src/ops/Dispatcher.ts:822-847 | a requeue with a delay holds its lane until that time, anything else holds nothing |
| `Dispatching.Dispatcher.Release` | src/ops/Dispatcher.ts:310-317 | the finally block lowers both counters by exactly one: the guards against going below zero never act |
| `Dispatching.LaunchedCounts` | src/ops/Dispatcher.ts:304-309 | in-flight counts grow by exactly the claimed rows of the instance and class |
| `Dispatching.LaunchAddsEach` | src/ops/Dispatcher.ts:294-320 | starting the claimed rows adds one ticket and one log entry for each, in order, and leaves the rest |
| `Dispatching.TakenKeeps` | src/ops/Dispatcher.ts:500-506 | taking rows only on lanes whose backoffs are over keeps every earlier backoff respected |
| `DispatchTheorems.ClaimFitsOffer` | src/ops/Dispatcher.ts:285-309 | whatever is in the table, any part of a claim made with an offer, as locks held elsewhere may leave, fits that offer's slots; its lanes fit if and only if it returns no lane key twice |
| `DispatchTheorems.MemoryClaimFits` | test/harness/MemoryOperationStore.ts:176-205 | the in-memory store's claim fits its offer, slots and lanes, on every table |
| `DispatchTheorems.SettleAnswer` | src/ops/Dispatcher.ts:524-526 | an attempt's answer is settled, and a retry with a delay logged with it |
| `DispatchTheorems.LaneWaitsOutItsBackoff` | src/ops/Dispatcher.ts:807-847 | a dispatcher does not take a lane again before min(backoffMax, backoffBase * 2^attemptCount) has passed since the attempt that earned it was requeued |
| `DispatchTheorems.OfferIsProper` | src/ops/Dispatcher.ts:363-376 | every offer has a free slot and no more batch than slots |
| `DispatchTheorems.OfferIsExact` | src/ops/Dispatcher.ts:349-379 | in terms of what truly is in flight: an instance is offered iff it is registered, configured, granted a token and below its concurrency; then all its free slots are offered, and b batch slots iff b more fit the batch slots and the concurrency |
| `DispatchTheorems.SliceIsReserved` | src/ops/Dispatcher.ts:349-379 | with budget n >= 2, a positive configured fraction and no interactive attempt in flight, the next claim takes at least min(interactive leaders, slice) interactive rows, however much batch runs or waits |
| `Scheduling.SliceIsLeastCover` | src/config/scheduling.ts:139-171 | a configured fraction is rejected exactly outside 0 to 1 and taken otherwise, 0.2 without one; a positive one on a budget of 2 or more reserves the least whole number of slots covering budget * fraction, between 1 and the budget, and batch keeps the most that fits the rest |
| `Scheduling.NoSlice` | src/config/scheduling.ts:159-171 | batch keeps the whole budget exactly when the budget is at most 1 or the fraction is not positive |
| `Replicas.NextKeeps` | src/ops/OperationStore.ts:249-265 | snapshot, lock with recheck, commit, release, finalize and drop keep: a row last returned and not released is not claimable, a locked row is |
| `Replicas.ReplicasPartitionTheBacklog` | src/ops/OperationStore.ts:238-268 | over any interleaving of any number of replicas, between two claims that return a row lies a requeue, defer or reap of it, a running row was returned and not released since, and a row lock is held by a claim under way that picked it |
| `Replicas.LocksLast` | src/ops/OperationStore.ts:249-260 | a row lock is its holder's until that replica's claim commits or is given up |
| `Replicas.DroppedStaysGone` | sql/schema.sql:191-216 | a dropped row is gone for good in every further run |
| `ReplicaLanes.SplitClaimsSerialize` | src/ops/OperationStore.ts:249-259 | with claims taken apart into snapshot, lock and update, over any interleaving of any number of replicas: one row at a time occupies a lane, as long as no row enters its lane ahead of one that is picked and not yet claimed |
| `ReplicaLanes.SplitClaimsOverlap` | src/ops/OperationStore.ts:249-259 | and otherwise not: for every batch and interactive operation of one lane there is a run of two replicas that ends with both running, because the recheck covers a row's own status only |
| `Idempotency.InsertKeepsLookups` | src/ops/OperationStore.ts:354-401 | an insert under the lock leaves every other client's lookup true, hash collisions included |
| `Idempotency.AnswersKept` | src/ops/OperationStore.ts:354-401 | every step keeps each answer's id and key together and later answers equal to earlier ones |
| `Idempotency.EnqueueIsIdempotent` | src/ops/OperationStore.ts:354-401 | over every interleaving and for every hash: at most one hot row per key, and all callers of a key get one id while its row stays hot |
| `Idempotency.AgedKeysAreReused` | src/ops/OperationStore.ts:365-370 | but a key is free again once its row has left: for every operation some run gives two callers of its key two ids, the lock held throughout; and a transaction that is rolled back leaves no lock |
| `Idempotency.TheLockIsNeeded` | src/ops/OperationStore.ts:134-136 | without the lock a run from an empty table, every other step of it enabled, inserts two rows with one key |
| `Admission.LanesAreObjects` | src/ops/admission.ts:62-82 | for classes without a colon two lane keys are equal exactly when both are creates or neither is, and class and identity agree |
| `Admission.ColonsCollide` | src/ops/admission.ts:62-82 | every class with a colon collides: class a:b with identity n has the key of class a with identity b:n, for creates and for uids |
| `Admission.OthersHold` | src/ops/admission.ts:95-113 | claims, finalizes, requeues, defers, reaps and drops never add to live plus waiting |
| `Admission.StepMoves` | src/ops/OperationStore.ts:561-665 | exactly what each step moves: only a finalize ends live work, of its own row; a claim takes its picks out of the backlog; a requeue, defer or reap brings running rows back to it; a drop takes the rows of a fully terminal day |
| `Admission.AdmitAndEnqueue` | src/ops/admission.ts:94-113 | refused with its depth and cap iff PENDING and AWAITING_READBACK rows of the instance and class reach the class's cap (10 000 for batch, 1 000 for interactive unless configured; batch if no class is given), known keys included; else refused iff it has no lane key and no identity to make one of; else enqueued on its lane; a refusal changes nothing |
| `Admission.LaneNeedsIdentity` | src/ops/admission.ts:62-82 | there is a lane key iff the identity, the name of a create and the uid of anything else, is there and not empty |
| `Admission.OvershootIsBounded` | src/ops/admission.ts:86-113 | with at most k callers between check and insert and at most R running rows of the class, the backlog never exceeds cap - 1 + k + R, and stays empty for k or cap 0 |
| `Overshoot.OvershootIsReached` | src/ops/admission.ts:86-113 | and for every cap, k and R some run ends with exactly that many waiting rows |
| `Partitions.Catalogue.Create` | sql/schema.sql:170-182 | makes the day present and changes nothing else, present before or not |
| `Partitions.Catalogue.Drop` | sql/schema.sql:191-216 | true exactly when the partition was there and all its rows terminal; then the day and its rows go, otherwise nothing changes |
| `Partitions.PartitionMaintainer.Ensure` | src/ops/PartitionMaintainer.ts:122-126 | today through the lookahead present, nothing else changed, also for a negative lookahead |
| `Partitions.PartitionMaintainer.DropExpired` | src/ops/PartitionMaintainer.ts:134-166 | drops exactly the present days before today - retention whose rows are all terminal, and warns of each other one in order with its number of live rows; if a statement fails it has warned of exactly those it looked at |
| `Partitions.PartitionMaintainer.ComputeDaysAhead` | src/ops/PartitionMaintainer.ts:187-201 | the longest run of present days from today, within the probed cap + 1 days |
| `Partitions.PartitionMaintainer.RunPass` | src/ops/PartitionMaintainer.ts:112-178 | one whole pass, as a function of the partitions and rows before it; a pass in which a statement fails leaves both as they were and logs one error, but keeps the warnings of the days it looked at and, if it was the commit, the gauge of the days it had made; a stopped maintainer does nothing |
| `Partitions.LeavesOnlyWhenDone` | sql/schema.sql:184-216 | a row leaves exactly when its day is past retention and fully terminal, so no non-terminal row ever leaves; others stay unchanged |
| `Partitions.PartitionStandsIff` | src/ops/PartitionMaintainer.ts:112-178 | a day has a partition after a pass iff it had one or lies between today and the lookahead, and it is not past retention or still holds a non-terminal row |
| `Partitions.SurvivorsArePinned` | src/ops/PartitionMaintainer.ts:144-166 | every partition that survives past retention still holds a non-terminal row |
| `Partitions.RetainedMeansWarned` | src/ops/PartitionMaintainer.ts:151-165 | the days warned about are exactly the survivors past retention, each with its positive number of live rows |
| `Partitions.WindowStandsIff` | src/ops/PartitionMaintainer.ts:122-148 | every day from today through the lookahead stands after the pass if and only if no day of that window lies before today - retention with all its rows terminal |
| `Partitions.NegativeRetentionDropsToday` | src/ops/PartitionMaintainer.ts:122-148 | an empty table with retentionDays -1 loses today's partition in the pass that made it |
| `Partitions.SecondPassChangesNothing` | src/ops/PartitionMaintainer.ts:8-14 | a replica that waited for the lock and runs the same pass changes nothing |
| `Partitions.PassKeepsAnswers` | sql/schema.sql:184-216 | a pass changes no reported operation, status, error code or time of finalization, given that finalize wrote history |
| `Partitions.FinalizeChronicles` | src/ops/OperationStore.ts:478-541 | finalize keeps that every terminal hot row has a history row of the same status and error |
| `Partitions.HistoryStands` | src/ops/OperationStore.ts:513-531 | no finalize changes a history row that is there |
| `Partitions.DayHolds` | sql/schema.sql:170-216 | a row lies in the partition of the day, in one fixed time zone, that its creation time falls in |
| `Filter.Tokenize` | src/http/filter.ts:54-62 | the scanning loop yields the tokens the suffix-recursive specification defines, for every input; `TokensIffScanned` says what these are |
| `Filter.ParseClauses` | src/http/filter.ts:93-134 | the clause loop yields the clauses, or the first error, that the recursive specification defines; `ClausesIffRead` and `ClausesIffFail` say what these are |
| `Filter.ParseFilterString` | src/http/filter.ts:86-138 | trim, tokens, clauses and the node, or the error, as the specification defines for every input; `ParseIffMeans` and `ParseIffWrong` say what these are |
| `FilterPrinter.WordsAreTokens` | src/http/filter.ts:54-62 | words separated by any blanks come back as exactly those tokens; quoted words may hold blanks, quotes and backslashes |
| `FilterPrinter.UnescapeEscape` | src/http/filter.ts:69 | unescaping undoes escaping of quotes and backslashes for every string |
| `FilterPrinter.ValueComesBack` | src/http/filter.ts:64-78 | every text, number token and boolean parses back from its printed form |
| `FilterPrinter.PathComesBack` | src/http/filter.ts:51-123 | every dotted path of identifiers splits back into its segments |
| `FilterPrinter.ClausesComeBack` | src/http/filter.ts:96-134 | the words of any clause list parse to those clauses, keywords in any letter case |
| `FilterPrinter.RoundTrip` | src/http/filter.ts:86-138 | any non-empty clause list printed with any blanks and keyword case parses to its single comparison or AND node |
| `FilterPrinter.ParsedClauses` | src/http/filter.ts:96-134 | every clause the parser accepts with a listed operator can be printed |
| `FilterPrinter.Reparse` | src/http/filter.ts:86-138 | for every accepted input whose operators are the listed ones, printing the node and parsing again gives the same node |
| `FilterGrammar.TokensIffScanned` | src/http/filter.ts:54-62 | a text has exactly one list of tokens, and the scanner finds it: in order, only blanks around them, each a quoted literal with every quote and backslash inside escaped or, where no such literal begins, all up to the next blank |
| `FilterGrammar.UnescapeEscaped` | src/http/filter.ts:69 | whichever characters are written with a backslash, unescaping gives the text back: no escape stands for another character |
| `FilterGrammar.EveryTextIsEscaped` | src/http/filter.ts:69 | and everything between quotes is some text so written |
| `FilterGrammar.NameCharacters` | src/http/filter.ts:51 | letters and the underscore start a name, digits go on it, and nothing else |
| `FilterGrammar.Spaces` | src/http/filter.ts:54-62 | the characters that separate tokens and are trimmed, one by one |
| `FilterGrammar.Lowering` | src/http/filter.ts:97-116 | keywords are compared with each capital letter taken for its small one |
| `FilterGrammar.ValueIffDenoted` | src/http/filter.ts:64-78 | a token parses as a value if and only if it denotes it |
| `FilterGrammar.PathIffText` | src/http/filter.ts:51-123 | a token splits into identifiers if and only if it is one text of name characters and single inner dots, with a letter or underscore first and after each dot |
| `FilterGrammar.OperatorIffNamed` | src/http/filter.ts:39-120 | an operator is accepted if and only if the word is its keyword in some letter case, or one of the two inherited names |
| `FilterGrammar.ClauseIffSpelt` | src/http/filter.ts:104-134 | a clause is taken if and only if the tokens spell it: its dotted path, its keyword, and a token that denotes its value unless it takes none |
| `FilterGrammar.ClausesIffRead` | src/http/filter.ts:93-134 | the parser returns a list of clauses if and only if the tokens spell them one after the other with an "and" in any letter case before each but the first |
| `FilterGrammar.ClausesIffFail` | src/http/filter.ts:93-134 | and an error if and only if some clauses read well and that is what is wrong at the first word that does not |
| `FilterGrammar.ParseIffMeans` | src/http/filter.ts:86-138 | an input is accepted with a node if and only if its text between blanks falls into tokens that spell a non-empty list of clauses, and the node is their comparison or AND |
| `FilterGrammar.ParseIffWrong` | src/http/filter.ts:86-138 | and refused with an error if and only if that is what is wrong first; the error for no clauses at all is never given |

## Left out

- MemoryStore.MemoryOperationStore.GetStatus: of a result only the uid is kept; the rest of the payload, which history drops, is not modelled.
- Rounds.DrainTerminates: no attempt dies during the drain; crashes are covered by the safety theorems, and what they leave behind by the reachable tables a drain may start from.
- Rounds.AskClaim: an attempt counts as in flight until it is written back, so the moments between a write-back and the release of its slot are not states of `Rounds`; they are states of `Dispatching`.
- Guarantees.CreateIsSafe: what a hit at a read-back proves is that an object of the name exists, not that this operation made it, because others may make one at any time (`Witnesses.AnothersObjectIsFound`).
- Dispatching.Dispatcher.ComputeAvailability: the rate limiter is a set of instances granted a token for the cycle, and the order of the offer, which no claim depends on, is not kept.
- Dispatching.Dispatcher.StartCycle: the reaper pass and the backlog sample inside a cycle are not part of it; the reaper is an action of its own in `Protocol`.
- Filter.ParseFilterString: `Number()` is an arbitrary predicate on tokens and numbers stay opaque tokens; lower-casing is over ASCII, which decides every keyword; characters are Unicode scalar values, of which no surrogate matters to the grammar.
- Scheduling.SliceIsLeastCover: fractions are exact reals; IEEE rounding of `Math.ceil(n * f)` is not modelled.
- Partitions.PartitionMaintainer.RunPass: the timer, the metrics sink and the connection itself are not modelled.
- Fairness between instances: round-robin order does not affect which rows a claim picks.
- Postgres itself: isolation levels, indexes, jsonb beyond the result's uid, SHA-256 of the lock key (an arbitrary hash instead), the UUID syntax check of ids.
- The dispatcher's timers, `start`, `stop` and its drain budget.
- The dispatcher's configuration cache, which is keyed by the budget only.
- HTTP routing, authentication, health probes, streaming, metrics, logging, configuration files, token providers, and the connector framework, which is not part of this model.
