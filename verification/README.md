# SauryCTF: a verified model

A Dafny model of five parts of the SauryCTF platform and proofs of what they promise, alone and together with the
processes that run beside them. `dafny verify dfyconfig.toml` checks the whole project.

**Instance-job queue** (`RetryPolicy`, `JobQueue`, `QueueProtocol`, `QueueRuns`, `QueueMeaning`, `QueueRepository`). Workers compete for
rows of `instance_jobs`. `JobQueue` states each SQL statement as a function on three tables. `QueueProtocol` lets the
statements, the clock, new jobs, raised generations and the reconciler's writes interleave freely and proves an
invariant of every step; `QueueRuns` proves safety over whole runs: fencing, the attempt ledger, terminal jobs, bounded
claims, observed generations. `QueueMeaning` says on the columns alone which rows each statement takes and what it writes.
`QueueRepository` is the repository class itself, whose methods are proved to do to its
tables what those functions say.

**Content objects** (`ContentObjects`, `ContentLifecycle`, `ContentMeaning`, `ContentService`). Uploads, commits, references and any number
of garbage collectors interleave between single statements and store calls, and stop anywhere. A claim acts on an
arbitrary, possibly stale, view of the references. `ContentMeaning` tells the statements by their columns and proves that
young objects are spared. `ContentService` is the service class with its loops and errors.

**Scoring** (`Ordering`, `Scoring`, `ScoringReplay`, `ReplayService`, `ScoringOrder`, `ScoringMeaning`,
`ScoringConservation`, `ScoringGrowth`, `ReplayMeaning`, `ReplayAcceptance`). `ScoringReplay` says when a fact log is consistent and which scores it determines; `ReplayService` is
the replay with its maps, sets and accumulators, proved to succeed exactly on consistent facts with exactly those scores.
The other modules prove that the order of the facts does not matter, what single fields mean, that points are conserved,
and what one more solve changes. `ReplayAcceptance` and `ReplayMeaning` say of the lists as they are given which facts are
accepted and what every field of a replay and of its boards is.

**Scoreboards** (`Scoreboard`, `ScoreboardFacts`, `ScoreboardView`, `BuildCoordinator`, `ScoreboardRuns`,
`ScoreboardFreeze`, `SmallBoards`, `ScoreboardLeak`). The builder, proved against a board function; the snapshot cache,
read while facts arrive and other replicas write; the key under which builds are shared. `ScoreboardView` is the service
class: a read looks at the clock, the contest row and then up to four times at the table, and is proved to answer truly
while everything else keeps `Evolves`, and to keep it. `ScoreboardRuns` interleaves time, facts, archiving and these looks,
builds and writes of any number of reads in several processes, from an empty table on; it proves that every step is such
an evolution, and carries the results to whole runs. `ScoreboardFreeze` says exactly which rows and which frozen answers
of a run keep to the freeze; `ScoreboardLeak` says from where a run can lead to one that does not, and gives such runs.

**Reconciler and names** (`Text`, `Providers`, `ReconcilePlan`, `Reconciler`, `ReconcileTheorems`,
`ReconcileConvergence`, `ReconcileMeaning`). One cycle with its two loops, proved to make exactly the calls of a plan; then when a resource
is destroyed or an instance ensured, independence from the listing order, counters, single writes and convergence; `ReconcileMeaning` tells every call by labels,
rows, answers and the clock.

## How the source appears

Ids, times and digests are integers, except where their text matters (labels, names, keys, scopes). A SQL statement or
transaction is one atomic step; `SKIP LOCKED` is an arbitrary set of locked rows, and each `clock_timestamp()` of
`ClaimBatch` is its own reading of a clock that never goes back. Calls to providers, stores and databases that may fail
are answered by parameters. `Math.exp((1 - n) / d)` is any function into [0, 1] that never rises with `n`, over `real`. Object references are guarded for all holders as `apps/web/server/db/migrations/postgresql/0018_content_object_lifecycle.sql:23-41`
guards them: lock the row, require `committed`, insert. Raising a generation may reset the observed columns of the
instance in any way. Division ids are never the word `overall`, which keys the overall scope.

What the proofs brought to light:

- `RetryPolicy.Delay` jumps to an odd `MaxDelay` one doubling early when the doubled delay is one unit below it, so it is
  the capped exponential exactly when `JumpsToCap` is false. Delays of 100ms up to 200000001ns show it at attempt 2
  (`OddCapIsReachedEarly`).
- `ParseInstanceKey` also accepts a generation with leading zeros; apart from that it accepts exactly the labels that
  `Labels` writes.
- A frozen board may show facts from after the freeze. One read does exactly when, at the first of its three lookups that
  finds a public row of its scope, a row past the freeze is stored (`Leaks`). Over runs, joined reads included, that is
  when such a row had been stored by a live or settled read whose contest row counted a fact from the freeze on
  (`FrozenAnswersLeak`). A row stored beforehand does not prevent it: from every read begun during the freeze a run leads
  to such an answer if one more fact can arrive (`LeakIsPossible`, `StoredRowDoesNotPreventLeak`).
- As long as the contest is not settled, all public rows keep to the freeze exactly when no live read stored one for a
  contest row that counted a fact from the freeze on (`FreezeIsKept`). A read looks at the clock before the contest row, so
  this can fail (`LateRowIsPossible`, `LateRowIsShown`). It cannot if contest rows are seen before the freeze whenever the
  clock was (`PromptReadsKeepFreeze`); then only a row found after the contest has settled leaks (`EarlyLookupsDoNotLeak`).
- A next official solve is refused only when the solver's sums or the fact version stop being exact integers.

## Model

| member | source | states |
|---|---|---|
| RetryPolicy.ComputeDelay | apps/worker/internal/jobs/failure.go:99-111 | the loop yields the delay in closed form, and no doubling leaves 64 bits |
| RetryPolicy.DelayIsMonotoneAndCapped | apps/worker/internal/jobs/failure.go:99-111 | a later attempt never waits less, and none waits longer than the cap |
| RetryPolicy.DelayIsCappedExponential | apps/worker/internal/jobs/failure.go:99-111 | the delay is min(Max, Initial·2^(n-1)) if and only if the rounded-down half of an odd cap does not show; otherwise one unit more |
| RetryPolicy.DelayFromEnds | apps/worker/internal/jobs/failure.go:104-110 | where the loop ends from any of its turns: at the capped exponential, or one unit above it under an odd cap |
| RetryPolicy.OddCapIsReachedEarly | apps/worker/internal/config/config.go:147-154 | two delays that the configuration admits and whose second attempt waits one unit more than the capped exponential |
| QueueProtocol.EndJobsKeepsTables | apps/worker/internal/jobs/repository.go:62-117 | ending stale or exhausted jobs keeps counters, ledger and lease columns right |
| QueueProtocol.ClaimKeepsTables | apps/worker/internal/jobs/repository.go:119-169 | claiming eligible jobs closes lost attempts, opens one each, and keeps the tables right |
| QueueProtocol.EnvironmentKeepsInv | apps/worker/internal/reconcile/postgres_store.go:142-166 | clock, new jobs, raised generations and the reconciler's guarded write keep the invariant |
| QueueProtocol.ClaimBatchKeepsInv | apps/worker/internal/jobs/repository.go:171-215 | a batch, rolled back or not, keeps the invariant and hands out leases only with fresh attempts |
| QueueProtocol.RenewKeepsInv | apps/worker/internal/jobs/repository.go:217-228 | a renewal keeps the invariant, and no lease that is not held is held after it |
| QueueProtocol.ObserveKeepsInv | apps/worker/internal/jobs/observation.go:138-164 | a fenced observation keeps the invariant and never lowers a generation |
| QueueProtocol.FinishMissesOnlyLostLeases | apps/worker/internal/jobs/repository.go:323-344 | a finalization that finds no row comes from a lease that is no longer held |
| QueueProtocol.FinishKeepsInv | apps/worker/internal/jobs/repository.go:311-399 | completing, failing and interrupting keep the invariant |
| QueueProtocol.ReportLostKeepsInv | apps/worker/internal/jobs/repository.go:401-413 | reporting a lost lease keeps the invariant, closes nothing but the running attempt of that lease, and that lease is not held and cannot be renewed |
| QueueProtocol.StepKeepsInv | apps/worker/internal/jobs/repository.go:62-413 | every step of workers, reconciler and environment keeps the invariant and only lets tokens, attempts and generations grow |
| QueueRuns.TokenCountsClaims | apps/worker/internal/jobs/repository.go:135-139 | in every run the fencing token of a job is the number of its claims |
| QueueRuns.AcceptedWritesAreFenced | apps/worker/internal/jobs/observation.go:138-164 | an accepted observation, completion or failure carries the token of the newest claim, under an unexpired lease |
| QueueRuns.AcceptedTokensNeverDecrease | apps/worker/internal/jobs/repository.go:311-399 | tokens of accepted writes never decrease along a run |
| QueueRuns.FinalizationsAreFenced | apps/worker/internal/jobs/repository.go:327-394 | every finalization that goes through, interruption included, has the newest token and closes the newest attempt |
| QueueRuns.LeasesExclude | apps/worker/internal/jobs/repository.go:119-169 | two different leases on a job are never both unexpired |
| QueueRuns.HeldLeaseFinishes | apps/worker/internal/jobs/repository.go:327-399 | completion and failure go through exactly under an unexpired lease, interruption at least then; the attempt number never mismatches |
| QueueRuns.FinishDecides | apps/worker/internal/jobs/repository.go:230-309 | which finalization of which job ends in which status: superseded first, then by kind of failure and attempts left |
| QueueRuns.ReleasedJobReturns | apps/worker/internal/jobs/repository.go:91-132 | a job given back is claimable exactly when its delay has passed and attempts are left, and exhausted exactly when none are |
| QueueRuns.TerminalIsForever | apps/worker/internal/jobs/repository.go:119-169 | a succeeded, dead, cancelled or superseded job never changes again, is never claimed, and no write on it is accepted |
| QueueRuns.ObservedGenerationIsMonotone | apps/worker/internal/reconcile/postgres_store.go:142-166 | the observed generation never decreases and never passes the desired one, whoever writes |
| QueueRuns.SuccessIsObserved | apps/worker/internal/execution/processor.go:33-50 | when a job becomes succeeded, its generation is the observed and the desired one |
| QueueRuns.OnlyCompleteSucceeds | apps/worker/internal/jobs/runner.go:129-169 | only a completion after a recorded observation makes a job succeed |
| QueueRuns.Ledger | apps/worker/internal/jobs/repository.go:135-162 | a job has exactly the attempts 1 to attempt_count, fenced by their number; only the newest runs, and it does under an unexpired lease |
| QueueRuns.OutcomeIsFinal | apps/worker/internal/jobs/repository.go:384-394 | the outcome of an attempt leaves running at most once |
| QueueRuns.ClaimsAreBounded | apps/worker/internal/jobs/repository.go:119-126 | a job is claimed at most max_attempts times in any run |
| QueueRuns.EveryMoveDescends | apps/worker/internal/jobs/repository.go:62-169 | every change of attempts or status lowers a measure of the job |
| QueueRuns.MovesAreBounded | apps/worker/internal/jobs/repository.go:62-169 | so a job changes only finitely often, however long the run |
| QueueRuns.PreparingKeepsEligible | apps/worker/internal/jobs/repository.go:178-183 | superseding and exhausting first takes nothing away from the claim and gives it nothing |
| QueueRuns.ClaimTakesTheLeast | apps/worker/internal/jobs/repository.go:119-132 | the claimed set is the one set of least eligible jobs by available_at, created_at, id up to the limit |
| QueueRuns.ClaimBatchLeavesNothingBehind | apps/worker/internal/jobs/repository.go:171-215 | without competing locks and with room for all, every job is terminal, leased and unexpired, or waiting for its time |
| QueueRuns.BatchDecides | apps/worker/internal/jobs/repository.go:62-215 | what a batch makes of each unlocked job: superseded, dead, leased to the caller with the next token, or untouched |
| QueueMeaning.ClaimedAreDue | apps/worker/internal/jobs/repository.go:119-132 | a batch claims rows with attempts left and the generation wanted that are waiting with available_at reached or leased with lease_until reached: the first of them by available_at, created_at and id, and all if they fit |
| QueueMeaning.ClaimsTakeNoHeldLease | apps/worker/internal/jobs/repository.go:119-132 | in every run a job is claimed only when no lease on it is held, by owner, token and lease_until |
| QueueMeaning.ClaimWritesAttempts | apps/worker/internal/jobs/repository.go:149-164 | each claimed job gets its next attempt, running under its token, and what was running on it is lost |
| QueueMeaning.SupersedesExactly | apps/worker/internal/jobs/repository.go:62-89 | superseded, and given up by its holder, if and only if unlocked, waiting or under a lease that ran out, and of another generation than wanted |
| QueueMeaning.ExhaustsExactly | apps/worker/internal/jobs/repository.go:91-117 | dead if and only if unlocked, waiting or under a lease that ran out, and without attempts left |
| QueueMeaning.RenewalExtends | apps/worker/internal/jobs/repository.go:217-226 | it moves lease_until to the duration from now and nothing else, so the lease is held until then |
| QueueMeaning.FinishLocksExactly | apps/worker/internal/jobs/repository.go:323-344 | the row found has the owner and token and is leased, unexpired unless the job is given back |
| QueueMeaning.FinishWrites | apps/worker/internal/jobs/repository.go:230-399 | status, available_at and outcome by kind of finalization, generation and attempts left; an unknown kind of failure, or one whose texts are not fit to be stored, counts as retryable; no other row changes |
| QueueRepository.SelectLeast | apps/worker/internal/jobs/repository.go:130-132 | ordering and limiting the candidates picks the least ones |
| QueueRepository.ReadLeases | apps/worker/internal/jobs/repository.go:190-210 | all claimed rows become leases, or the first that does not decode is the error |
| QueueRepository.PostgresRepository.ClaimBatch | apps/worker/internal/jobs/repository.go:171-215 | the batch changes the tables as specified and returns one lease a job, taken from rows that are due or under a lease that ran out, or changes nothing at all |
| QueueRepository.PostgresRepository.Renew | apps/worker/internal/jobs/repository.go:217-228 | extends exactly an unexpired lease of a current job to the duration from now, else reports it lost |
| QueueRepository.PostgresRepository.Complete | apps/worker/internal/jobs/repository.go:230-237 | finishes as succeeded, or as superseded |
| QueueRepository.PostgresRepository.Fail | apps/worker/internal/jobs/repository.go:239-269 | finishes as cancelled, dead or waiting for a retry, by kind and attempts left |
| QueueRepository.PostgresRepository.Interrupt | apps/worker/internal/jobs/repository.go:271-286 | makes the job ready again, also after the lease expired |
| QueueRepository.PostgresRepository.RunFinish | apps/worker/internal/jobs/repository.go:311-399 | the transaction: job and attempt change together or not at all |
| QueueRepository.PostgresRepository.ReportLeaseLost | apps/worker/internal/jobs/repository.go:401-413 | closes the running attempt of this token, and nothing else |
| QueueRepository.PostgresRepository.RecordObservation | apps/worker/internal/jobs/observation.go:138-164 | writes the instance's generation, state and resource id exactly under the fencing guard |
| ContentLifecycle.RegisterKeepsInv | apps/web/server/infrastructure/db/content-object-repository.ts:33-70 | registering, and discarding a duplicate's bytes, keeps every live row's bytes and content unique |
| ContentLifecycle.CommitKeepsInv | apps/web/server/infrastructure/db/content-object-repository.ts:88-101 | committing keeps the invariant |
| ContentLifecycle.ReferenceKeepsInv | apps/web/server/infrastructure/db/challenge-template-repository.ts:218-230 | locking, checking and inserting a reference keeps referenced objects out of reach of collectors |
| ContentLifecycle.ClaimKeepsInv | apps/web/server/infrastructure/db/content-object-repository.ts:103-141 | a claim on any view of the references, however stale, keeps the invariant |
| ContentLifecycle.ConfirmKeepsInv | apps/web/server/infrastructure/db/content-object-repository.ts:152-178 | a confirmation condemns only what nothing references, and restores the rest |
| ContentLifecycle.EraseKeepsInv | apps/web/server/domains/content/service.ts:205-214 | bytes are erased only of condemned objects |
| ContentLifecycle.MarkKeepsInv | apps/web/server/infrastructure/db/content-object-repository.ts:143-150 | marking as deleted keeps the invariant |
| ContentLifecycle.StepKeepsInv | apps/web/server/domains/content/service.ts:91-217 | every step of uploaders, committers, referencers and collectors keeps the invariant |
| ContentLifecycle.ReferencedBytesSurvive | apps/web/server/infrastructure/db/content-object-repository.ts:152-178 | in every run the bytes of a referenced object are in the store |
| ContentLifecycle.LiveBytesSurvive | apps/web/server/domains/content/service.ts:108-144 | in every run each temporary or committed row has its bytes in the store |
| ContentLifecycle.LiveContentIsUnique | apps/web/server/infrastructure/db/content-object-repository.ts:42-58 | at most one row that is not deleted exists per digest and size |
| ContentLifecycle.DeletedIsForever | apps/web/server/infrastructure/db/content-object-repository.ts:143-150 | a deleted row stays deleted |
| ContentLifecycle.CondemnedStays | apps/web/server/infrastructure/db/content-object-repository.ts:103-178 | a confirmed collection is never taken back, and the object gains no reference meanwhile |
| ContentLifecycle.StaleClaimIsUndone | apps/web/server/infrastructure/db/content-object-repository.ts:168-176 | a claim that overlooked a reference is undone exactly by its confirmation |
| ContentMeaning.InsertsExactly | apps/web/server/infrastructure/db/content-object-repository.ts:42-58 | inserted unless a row that is not deleted has that digest and size, or any row that key |
| ContentMeaning.YoungObjectsSurvive | apps/web/server/domains/content/service.ts:201 | in every run an object keeps its row and bytes for the grace period after its commit, or else its creation |
| ContentService.BoundedLimit | apps/web/server/domains/content/service.ts:200 | the limit used is 1 to 500, and the caller's when that is in range |
| ContentService.ContentObjectService.UploadTemporary | apps/web/server/domains/content/service.ts:91-145 | a new row with its bytes, the caller's or a committed row of the same content, or an error that leaves the tables alone, and the store too if the put fails |
| ContentService.ContentObjectService.CommitTemporary | apps/web/server/domains/content/service.ts:147-183 | succeeds exactly for the caller's own object with that digest, committed already or temporary with intact bytes |
| ContentService.ContentObjectService.CreateCommitted | apps/web/server/domains/content/service.ts:185-193 | success leaves a committed row of the uploaded content; fresh content always succeeds |
| ContentService.ContentObjectService.ReadCommitted | apps/web/server/domains/content/service.ts:228-248 | answers exactly committed objects whose bytes match the row |
| ContentService.ContentObjectService.CollectOne | apps/web/server/domains/content/service.ts:206-213 | confirm, erase, mark: kept, gone with row and bytes together, or failed at the call that throws, with the bytes gone exactly if marking does |
| ContentService.ContentObjectService.CollectGarbage | apps/web/server/domains/content/service.ts:199-217 | claims, in order up to the limit, rows claimed before and unreferenced ones whose creation or commit is a grace period ago; erases exactly what is confirmed and can be deleted, counts exactly what is marked too, and names exactly what failed |
| ContentService.CollectionSparesReferenced | apps/web/server/domains/content/service.ts:199-217 | a collection leaves a referenced committed object's bytes, and its row except that one whose confirmation throws stays claimed until it is given back as it was |
| ContentService.CollectionIsComplete | apps/web/server/domains/content/service.ts:199-217 | with room for all, what is left to collect of the rows past the grace period is exactly what a call threw for |
| Scoring.ScoreDecays | apps/web/server/domains/submissions/scoring.ts:18-37 | a value starts at the top, never rises with solves, and stays between minimum and initial points |
| Scoring.DecayedMonotone | apps/web/server/domains/submissions/scoring.ts:35-36 | rounding down and clamping keep the order of the decay factors |
| ReplayMeaning.ScoreIsWorth | apps/web/server/domains/submissions/scoring.ts:18-37 | the floor of minimum + (initial - minimum) * factor from the second solve on, initial before or when both are equal, the points of a fixed policy; refused exactly outside the schema's bounds |
| ReplayService.UniqueById | apps/web/server/domains/submissions/scoring-replay.ts:308-315 | a map of all facts if and only if no id repeats |
| ReplayService.ValidateSolves | apps/web/server/domains/submissions/scoring-replay.ts:144-178 | accepts exactly consistent official solves and groups them by challenge |
| ReplayService.ValidateSubmissions | apps/web/server/domains/submissions/scoring-replay.ts:179-192 | accepts exactly known submissions whose correct official ones have a solve |
| ReplayService.GroupStaysSorted | apps/web/server/domains/submissions/scoring-replay.ts:197 | grouping sorted solves leaves each group sorted |
| ReplayService.ScoreChallenges | apps/web/server/domains/submissions/scoring-replay.ts:194-219 | values every challenge, or fails exactly when an order has a gap or a policy is invalid |
| ReplayService.AccumulateSolves | apps/web/server/domains/submissions/scoring-replay.ts:221-241 | every participation gets its solves, their sum and the last time, unless a sum stops being exact |
| ReplayService.AccumulateAdjustments | apps/web/server/domains/submissions/scoring-replay.ts:242-259 | the same for adjustments, refusing unknown participations and zero deltas |
| ReplayService.ScoreParticipations | apps/web/server/domains/submissions/scoring-replay.ts:221-286 | both accumulations and the totals yield exactly the specified scores |
| ReplayService.ReplayContestScoring | apps/web/server/domains/submissions/scoring-replay.ts:137-306 | the replay succeeds exactly on consistent facts and yields the scores their normal form determines |
| ReplayAcceptance.ReplaysExactly | apps/web/server/domains/submissions/scoring-replay.ts:137-306 | success told of the lists: no id twice; each official solve known, made of a matching correct official submission, once a participation and challenge; each correct official submission solved; orders 1 to n; policies in bounds; deltas and sums exact |
| ReplayAcceptance.SolveSumMeans | apps/web/server/domains/submissions/scoring-replay.ts:231-241 | since no value is negative, adding solves up fails exactly when the whole sum is not exact |
| ReplayAcceptance.AdjustmentSumMeans | apps/web/server/domains/submissions/scoring-replay.ts:242-259 | adding adjustments up fails exactly when a running sum is not exact |
| ReplayMeaning.ChallengesAreScored | apps/web/server/domains/submissions/scoring-replay.ts:194-219 | an entry a challenge by ascending id: its number of official solves, what that is worth, and its solve of order 1 |
| ReplayMeaning.ParticipationsAreRecorded | apps/web/server/domains/submissions/scoring-replay.ts:221-286 | an entry a participation by ascending id: its own data, its official solves by ascending challenge, their current values, its deltas, the total, and the latest time |
| ReplayMeaning.RankingListsAccepted | apps/web/server/domains/submissions/scoring-replay.ts:288-298 | ranks 1 to n over exactly the accepted participations, each before those with fewer points, a later last score, a greater team or id |
| ScoringOrder.LedgerIgnoresOrder | apps/web/server/domains/submissions/scoring-replay.ts:317-326 | the comparators bring every order of the facts to one normal form |
| ScoringOrder.ReplayIgnoresOrder | apps/web/server/domains/submissions/scoring-replay.ts:137-306 | a replay succeeds on one order of its five lists exactly when on any other, with equal results |
| ScoringMeaning.FirstSolveHasOrderOne | apps/web/server/domains/submissions/scoring-replay.ts:203-218 | the first solve of a challenge is its solve of order 1, absent exactly when nobody solved it |
| ScoringMeaning.LastScoringIsLatest | apps/web/server/domains/submissions/scoring-replay.ts:231-259 | the last scoring time is the latest of a participation's solves and adjustments, absent exactly without any |
| ScoringMeaning.RankingOrder | apps/web/server/domains/submissions/scoring-replay.ts:328-341 | the comparator ranks by points, then earlier last score with none last, then team and participation |
| ScoringConservation.PointsByParticipation | apps/web/server/domains/submissions/scoring-replay.ts:231-259 | points, solves and adjustments of all participations add up to those of the facts |
| ScoringConservation.PointsByChallenge | apps/web/server/domains/submissions/scoring-replay.ts:194-219 | so do the values of all challenges times their solves |
| ScoringConservation.PointsAreConserved | apps/web/server/domains/submissions/scoring-replay.ts:144-306 | solve points equal challenge values times solve counts, counts agree both ways, factVersion is solves plus adjustments |
| ScoringConservation.SolvesMatchSubmissions | apps/web/server/domains/submissions/scoring-replay.ts:150-192 | official solves and correct official submissions correspond one to one |
| ScoringGrowth.NextSolveIsAccepted | apps/web/server/domains/submissions/scoring-replay.ts:137-306 | the next official solve of a challenge is accepted if and only if the solver's sums and the version stay exact |
| ScoringGrowth.NextSolveOnlyHelpsItsSolver | apps/web/server/domains/submissions/scoring-replay.ts:194-240 | it raises the version by one, raises nobody else's solve points, and keeps every value within its policy |
| Scoreboard.ValidateSolves | apps/web/server/domains/scoreboards/builder.ts:101-121 | accepts exactly summaries of the right number with known, distinct challenges |
| Scoreboard.Candidates | apps/web/server/domains/scoreboards/builder.ts:57-65 | the eligible scores in order, unless a participation comes twice, eligible or not |
| Scoreboard.Build | apps/web/server/domains/scoreboards/builder.ts:52-99 | a board exactly for buildable input, with ranked rows and sorted columns |
| Scoreboard.ReplaysAreBuildable | apps/web/server/domains/scoreboards/builder.ts:52-67 | a successful replay is accepted for exactly the scopes that are not blank |
| Scoreboard.OverallAgreesWithRanking | apps/web/server/domains/submissions/scoring-replay.ts:288-298 | overall rows agree rank by rank with rankingSummary |
| Scoreboard.RankCountsTheBetter | apps/web/server/domains/scoreboards/builder.ts:69-83 | rows are the eligible participations, each with one plus the number of eligible ones that beat it |
| Scoreboard.DivisionFiltersOverall | apps/web/server/domains/scoreboards/builder.ts:58-83 | a division board is the overall board filtered and renumbered, with the same columns |
| Scoreboard.BoardsAddUp | apps/web/server/domains/scoreboards/builder.ts:69-98 | on every board a row's solve points are the shown values of the challenges it lists, and its total adds its adjustments |
| Scoreboard.BoardIgnoresOrder | apps/web/server/domains/scoreboards/builder.ts:52-99 | the order of participations in a replay does not show |
| ReplayMeaning.BoardShowsReplay | apps/web/server/domains/scoreboards/builder.ts:52-99 | a column for each challenge with its first solver, and a numbered row for each accepted participation of the scope, best first, with all its fields |
| ReplayMeaning.BuildableMeans | apps/web/server/domains/scoreboards/builder.ts:52-121 | what the builder refuses: a blank division, a participation twice, summaries of the scope that miscount or list unknown or repeated challenges |
| ScoreboardFacts.VisibleIsPrefix | apps/web/server/infrastructure/db/scoring-replay-repository.ts:76-101 | a cutoff lets through exactly the facts from before it, and these come first in the log |
| ScoreboardFacts.LoadSeesPrefix | apps/web/server/infrastructure/db/scoring-replay-repository.ts:76-101 | the three time filters cut the fact log off at one place |
| ScoreboardFacts.VersionIsLength | apps/web/server/domains/submissions/scoring-replay.ts:302 | the version of a replay is the number of counting facts it saw |
| ScoreboardFacts.ReplayFacts | apps/web/server/domains/submissions/scoring-replay.ts:126-134 | a replay answers for the visible prefix whatever order the rows come in |
| ScoreboardFacts.ReplayAndBuild | apps/web/server/domains/scoreboards/view-service.ts:341-350 | a board exactly when the expected version is the visible one and the prefix has a board |
| ScoreboardView.NoConflict | apps/web/server/infrastructure/db/scoreboard-view-repository.ts:143-147 | replicas that store the same version store the same board |
| ScoreboardView.GeneratedIsWritable | apps/web/server/domains/scoreboards/view-service.ts:341-362 | a freshly built row is right for its version and has seen only facts from before the cutoff, also if facts arrived meanwhile |
| ScoreboardView.InsertKeepsValid | apps/web/server/infrastructure/db/scoreboard-view-repository.ts:116-149 | inserting such a row keeps every stored row right |
| ScoreboardView.StoredIsCorrect | apps/web/server/domains/scoreboards/view-service.ts:391-408 | projecting a stored row answers the read it is used for |
| ScoreboardView.LatestDecides | apps/web/server/infrastructure/db/scoreboard-view-repository.ts:67-82 | the newest public row has seen a fact from the freeze on if and only if any public row of the scope has |
| ScoreboardView.ScoreboardViewService.LatestSnapshot | apps/web/server/infrastructure/db/scoreboard-view-repository.ts:67-82 | the stored row of the greatest version |
| ScoreboardView.ScoreboardViewService.WriteSnapshot | apps/web/server/infrastructure/db/scoreboard-view-repository.ts:116-149 | inserts unless the version exists, and never conflicts |
| ScoreboardView.ScoreboardViewService.Generate | apps/web/server/domains/scoreboards/view-service.ts:341-363 | stores and answers the right board, of facts from before a cutoff, or fails exactly when it cannot be rebuilt |
| ScoreboardView.ScoreboardViewService.Materialize | apps/web/server/domains/scoreboards/view-service.ts:307-364 | the same after looking for another replica's row; a frozen board is past the freeze exactly if such a row is |
| ScoreboardView.ScoreboardViewService.RebuildOrFallback | apps/web/server/domains/scoreboards/view-service.ts:243-292 | falls back only if no rebuild was possible, and only to a strictly older board |
| ScoreboardView.ScoreboardViewService.CachedMaterialize | apps/web/server/domains/scoreboards/view-service.ts:214-241 | a row of the version wanted that is stored at the first lookup answers, else a build of one's own; joined builds are in `ScoreboardRuns` |
| ScoreboardView.ScoreboardViewService.ReadFrozen | apps/web/server/domains/scoreboards/view-service.ts:159-201 | the newest public row at the first lookup that finds one, or a board of exactly the loaded facts from before the freeze; past the freeze if and only if it leaks |
| ScoreboardView.ScoreboardViewService.Read | apps/web/server/domains/scoreboards/view-service.ts:105-212 | not found exactly for a wrong id or a public read of a draft or restricted contest, forbidden exactly for an internal read without the role, scope invalid exactly for an unknown division; otherwise a stored board in the state that clock and contest row say: current shows all facts, stale strictly fewer, frozen only facts from before the freeze if and only if the read does not leak |
| ScoreboardRuns.WorldEvolves | apps/web/server/domains/scoreboards/view-service.ts:105-364 | time, facts, publication changes and every step of every read leave stored rows and facts in place and right |
| ScoreboardRuns.SameKeySameBuild | apps/web/server/domains/scoreboards/view-service.ts:376-385 | two reads of a process with one build key want the same scope, state and version |
| ScoreboardRuns.BuiltIsWritable | apps/web/server/domains/scoreboards/view-service.ts:341-362 | what a read has built is right for its version, which is the one its contest row counts or, frozen, of facts from before the freeze |
| ScoreboardRuns.WriterAnswers | apps/web/server/infrastructure/db/scoreboard-view-repository.ts:116-149 | a writer never meets another board under its key, and its answer is true for the clock and the contest row it went by |
| ScoreboardRuns.JoinedIsAnswered | apps/web/server/domains/scoreboards/build-coordinator.ts:8-9 | the projection that answers the leader of a build is a true answer for whoever joined it |
| ScoreboardRuns.StepKeepsInv | apps/web/server/domains/scoreboards/view-service.ts:105-364 | every step keeps rows, their authors, reads in flight and the tables of running builds right |
| ScoreboardRuns.RowsStayTrue | apps/web/server/infrastructure/db/scoreboard-view-repository.ts:116-149 | in every run from an empty table a stored row never changes and is the board of its first facts |
| ScoreboardRuns.SeenInRun | apps/web/server/domains/scoreboards/view-service.ts:105-110 | what a read goes by are the clock of one moment of the run and the contest row of a later one |
| ScoreboardRuns.ReadsAreAnswered | apps/web/server/domains/scoreboards/view-service.ts:105-292 | in every run each answer, built, joined, stored or stale, is in the state, and shows the board of the facts, that the clock and the contest row its read went by call for |
| ScoreboardRuns.OneBuildPerKey | apps/web/server/domains/scoreboards/build-coordinator.ts:4-18 | in every run a process has at most one public build of a key under way |
| ScoreboardRuns.RunsAreSchedules | apps/web/server/domains/scoreboards/view-service.ts:159-292 | any moments of a run in order make a schedule, so that the contracts of the service hold in every run |
| ScoreboardFreeze.RowsKeepFreeze | apps/web/server/domains/scoreboards/view-service.ts:341-362 | in every run a public row has seen a fact from the freeze on if and only if a live or settled read stored it for a contest row counting one |
| ScoreboardFreeze.FreezeIsKept | apps/web/server/domains/scoreboards/view-service.ts:105-212 | until the contest settles, all public rows keep to the freeze if and only if every live read that stored one had a contest row counting only facts from before |
| ScoreboardFreeze.PromptReadsKeepFreeze | apps/web/server/domains/scoreboards/view-service.ts:105-110 | they do when every contest row is seen before the freeze whose clock was |
| ScoreboardFreeze.FrozenAnswersLeak | apps/web/server/domains/scoreboards/view-service.ts:159-201 | in every run a frozen answer, joined ones included, shows a fact from the freeze on if and only if the lookup that found its row met such a late row of the scope |
| ScoreboardFreeze.EarlyLookupsDoNotLeak | apps/web/server/domains/scoreboards/view-service.ts:159-201 | with prompt contest rows a frozen answer found before the contest settled, or built, holds only facts from before the freeze |
| ScoreboardLeak.NewcomerStores | apps/web/server/domains/scoreboards/view-service.ts:214-292 | the first read to want all facts finds no row, leads its build, finds none again and stores the board |
| ScoreboardLeak.LeakIsPossible | apps/web/server/domains/scoreboards/view-service.ts:159-201 | from every state with a frozen read at its first lookup, whatever is stored, a run leads to a late answer, if one more fact with a board can arrive |
| ScoreboardLeak.LateRowIsPossible | apps/web/server/domains/scoreboards/view-service.ts:106-110 | from every state with a public read that has only seen its clock, before the freeze, a run leads to a live row past the freeze, if a fact can arrive |
| ScoreboardLeak.StoredRowDoesNotPreventLeak | apps/web/server/domains/scoreboards/view-service.ts:142-174 | a run from an empty table: a public row is stored, a frozen read begins, and its answer shows a later fact |
| ScoreboardLeak.LateRowIsShown | apps/web/server/domains/scoreboards/view-service.ts:106-174 | a run from an empty table: before the contest settles a late live row is stored and a frozen read shows it |
| BuildCoordinator.BuildKeyInjective | apps/web/server/domains/scoreboards/view-service.ts:376-385 | different builds have different keys |
| BuildCoordinator.ScoreboardBuildCoordinator.Begin | apps/web/server/domains/scoreboards/build-coordinator.ts:4-11 | joins the running build of the key if there is one, else begins the only one |
| BuildCoordinator.ScoreboardBuildCoordinator.End | apps/web/server/domains/scoreboards/build-coordinator.ts:12-17 | ends it, so that the next caller begins anew |
| Providers.UuidHasGroups | apps/worker/internal/contracts/common_types.go:17 | groups of 8, 4, 4, 4 and 12 lower-case hexadecimal digits between dashes, version up to 8, variant 8 to b |
| Providers.PatternsMean | apps/worker/internal/providers/provider.go:31-32 | platform ids and resource names: 1 to 63 lower-case letters, digits and dashes, in platform ids dots, with a letter or digit at both ends |
| Providers.ParseInvertsLabels | apps/worker/internal/providers/provider.go:66-75 | parsing the labels of a valid key yields the key |
| Providers.ParseAcceptsItsNames | apps/worker/internal/providers/provider.go:96-122 | parsing yields a key if and only if the key is valid and the labels name it, up to leading zeros |
| Providers.IdentityKeyInjective | apps/worker/internal/providers/provider.go:77-79 | identity keys agree exactly when provider, instance and generation do |
| Providers.ResourceNameNeverFails | apps/worker/internal/providers/provider.go:84-94 | every valid key has a DNS-label name of at most 63 characters, reached exactly at 16-digit generations |
| Providers.ResourceNameInjective | apps/worker/internal/providers/provider.go:81-89 | on one platform names agree exactly when instance and generation do |
| Reconciler.Reconciler.ManageResources | apps/worker/internal/reconcile/reconciler.go:201-217 | sorts out foreign resources and counts each identity |
| Reconciler.Reconciler.IndexDesired | apps/worker/internal/reconcile/reconciler.go:193-199 | indexes the instances, or stops at the first invalid one |
| Reconciler.Reconciler.HandleResource | apps/worker/internal/reconcile/reconciler.go:222-302 | one resource: the calls, the counter, and whether it handles or blocks its instance |
| Reconciler.Reconciler.HandleCurrent | apps/worker/internal/reconcile/reconciler.go:265-302 | a resource of the current generation: destroyed if its instance should stop, inspected otherwise |
| Reconciler.Reconciler.HandleInstance | apps/worker/internal/reconcile/reconciler.go:304-336 | one instance that no resource settled: nothing, a write, or an ensure and a write |
| Reconciler.Reconciler.FirstLoop | apps/worker/internal/reconcile/reconciler.go:219-302 | all managed resources, their calls, counters and errors |
| Reconciler.Reconciler.SecondLoop | apps/worker/internal/reconcile/reconciler.go:304-336 | all desired instances, their calls, counters and errors |
| Reconciler.Reconciler.Cycle | apps/worker/internal/reconcile/reconciler.go:172-338 | the whole cycle does exactly what the plan says, or nothing; Failures is the number of collected errors |
| ReconcileTheorems.VerdictMeaning | apps/worker/internal/reconcile/reconciler.go:222-265 | when a resource is stale, current, or blocks its instance, in terms of labels and rows |
| ReconcileTheorems.DestroyedExactly | apps/worker/internal/reconcile/reconciler.go:228-279 | a key is destroyed if and only if its identity is unique, provider and owner match, and it is stale or should stop |
| ReconcileTheorems.SettledExactly | apps/worker/internal/reconcile/reconciler.go:304-307 | an instance is left to the second loop exactly when only older generations of it exist |
| ReconcileTheorems.EnsuredExactly | apps/worker/internal/reconcile/reconciler.go:304-336 | an instance is ensured if and only if it should run and nothing current, duplicate, mismatched or newer carries its name |
| ReconcileTheorems.ReportedExactly | apps/worker/internal/reconcile/reconciler.go:222-248 | a resource is reported if and only if it belongs to no desired instance or is newer than it; as unknown exactly without an instance |
| ReconcileTheorems.RecordsAreCurrent | apps/worker/internal/reconcile/reconciler.go:265-335 | a write is about the desired generation and carries what was observed of the current or the ensured resource, or stopped |
| ReconcileTheorems.CycleIgnoresOrder | apps/worker/internal/reconcile/reconciler.go:201-336 | the multiset of calls and all counters do not depend on listing order |
| ReconcileMeaning.CountersMean | apps/worker/internal/reconcile/reconciler.go:172-338 | each counter of a cycle is the number of resources or instances whose calls ended so: reported, inspected and written, gone and written, ensured and written, or none of these |
| ReconcileTheorems.ResourcesAreAccountedFor | apps/worker/internal/reconcile/reconciler.go:222-302 | Resources = Unmanaged + Orphans + Destroyed + Inspected + failures of the first loop |
| ReconcileTheorems.OneWritePerInstance | apps/worker/internal/reconcile/reconciler.go:222-337 | a cycle tries at most one observation write per instance |
| ReconcileMeaning.ManagedExactly | apps/worker/internal/reconcile/reconciler.go:201-217 | managed under a key if and only if the id has 1 to 255 characters without space around it and the six labels name that key of this platform and provider, of four UUIDs and a positive exact generation |
| ReconcileMeaning.UniqueIsAlone | apps/worker/internal/reconcile/reconciler.go:210-217 | an identity counts once exactly when no other listed resource has that provider, instance and generation |
| ReconcileMeaning.DestroysExactly | apps/worker/internal/reconcile/reconciler.go:40-42 | destroyed if and only if the only resource of its identity carries its instance's labels and is older, or current while the instance is stopped or expires at or before now |
| ReconcileMeaning.InspectsExactly | apps/worker/internal/reconcile/reconciler.go:265-302 | inspected if and only if current while the instance runs with no expiry or a later one |
| ReconcileMeaning.EnsuresExactly | apps/worker/internal/reconcile/reconciler.go:304-324 | ensured, under the instance's own key with its specification and expiry, if and only if it runs with no expiry or a later one and every resource of its name is its own and older |
| ReconcileMeaning.ReportsExactly | apps/worker/internal/reconcile/reconciler.go:222-248 | each reason in terms of labels and rows, the first that applies: unknown, duplicate, provider, owner, future generation |
| ReconcileMeaning.RecordsExactly | apps/worker/internal/reconcile/reconciler.go:265-336 | which observations of an instance are written, in both directions: stopped after a destruction, what was inspected, what was ensured, or stopped unless that is noted already |
| ReconcileMeaning.LeftExactly | apps/worker/internal/reconcile/reconciler.go:249-335 | the providers have afterwards what they had, but for what they confirmed to be destroyed, and what they confirmed to have ensured |
| ReconcileConvergence.WhatIsLeft | apps/worker/internal/reconcile/reconciler.go:249-335 | after a cycle the managed resources are those not removed and one per ensured instance |
| ReconcileConvergence.NothingToDestroy | apps/worker/internal/reconcile/reconciler.go:249-287 | none of them may be destroyed |
| ReconcileConvergence.NothingToEnsure | apps/worker/internal/reconcile/reconciler.go:304-324 | no instance lacks a resource |
| ReconcileConvergence.SecondCycleIsQuiet | apps/worker/internal/reconcile/reconciler.go:193-338 | after a cycle in which providers succeed, a second one calls neither Destroy nor Ensure |
| ReconcileConvergence.SecondCycleChangesNothing | apps/worker/internal/reconcile/reconciler.go:193-338 | and the providers' resources stay exactly as they are |
| ReconcileConvergence.CycleConverges | apps/worker/internal/reconcile/reconciler.go:172-338 | the same about two cycles as the method runs them, one after the other |
| ReconcileConvergence.RunningHasItsResource | apps/worker/internal/reconcile/reconciler.go:193-338 | each running instance that is not blocked then has exactly its current-generation resource |

## Left out

- ScoreboardView.ScoreboardViewService.Read: application servers and database share one clock here, and facts are committed in the order of their times; a fact with an earlier time that becomes visible later is not modelled.
- ScoreboardView.ScoreboardViewService.CachedMaterialize: a read that joins a running build is a step of `ScoreboardRuns`, not a branch of this method.
- BuildCoordinator.ScoreboardBuildCoordinator.Begin: what the joined caller receives is in `ScoreboardRuns.JoinedIsAnswered`; promises themselves are not modelled.
- ScoreboardView.ScoreboardViewService.Read: the fact log holds official solves with their submissions and adjustments; practice solves and other submissions, which do not count towards the version, are not part of it, and the roster and the policies do not change.
- ScoreboardView.ScoreboardViewService.LatestSnapshot: the checks of a stored payload against its key (`snapshotRecord`) are an invariant here, not a branch.
- ContentService.ContentObjectService.UploadTemporary: a call that throws is taken to have changed nothing.
- ContentService.ContentObjectService.CommitTemporary: a digest that is not 64 hexadecimal characters is not modelled, since digests are numbers.
- QueueRuns.AcceptedWritesAreFenced: says nothing of an interruption, which the source accepts after the lease expired; `FinalizationsAreFenced` covers its token.
- Reconciler.Reconciler.Cycle: a provider call that fails leaves the providers unchanged here, and lengths count characters where Go counts bytes.
- Scoring.DecayedMonotone: reals stand for doubles, as in `ScoreDecays`.
- QueueRepository.PostgresRepository.Complete: finished_at, the error columns and failing connections are not modelled.
- QueueRepository.PostgresRepository.Fail: error codes, summaries and failing connections are not modelled.
- QueueRepository.PostgresRepository.Interrupt: the reason text and failing connections are not modelled.
- QueueRepository.PostgresRepository.RunFinish: finished_at, the error columns and failing statements are not modelled.
- QueueRepository.PostgresRepository.RecordObservation: only generation, state and resource id are written, and `Observation.Validate`, which refuses before the tables are touched, is not modelled.
- ScoreboardFacts.LoadSeesPrefix: the log holds counting facts only; practice solves and submissions without a solve are not part of it.
- Scoring.ScoreDecays: rounding of `Math.exp` and of the products is not modelled; the factor is a real number.
- Error codes, summaries, entrypoints, ciphertext and the started, finished and last-observed columns.
- `ClassifyFailure` and the text checks of `validFailure` and `Observation.Validate`; a failure only says whether it passes them.
- The runner's slots, its poll loop and the renewal ticker; the protocol lets a worker renew, observe and finish in every order the runner can choose.
- Operational replay of dead jobs and the SQL that creates jobs and raises generations; they appear only as environment steps.
- File names and media types of uploads, and the bucket's own lifecycle rules.
- Invalid dates in scoring facts; times are integers.
- Reports of orphans beyond the call itself, telemetry and logging.
