/** What holds over every run of the queue: fencing, terminality, progress of observed generations,
    the attempt ledger, and the bound on the work one job can cause. */
module QueueRuns {
  import RetryPolicy
  import opened Wrappers
  import opened JobQueue
  import opened QueueProtocol

  ghost predicate IsRun(states: seq<State>, events: seq<Event>) {
    && |states| == |events| + 1
    && Init(states[0])
    && forall i | 0 <= i < |events| :: StepAt(states, events, i)
  }

  ghost predicate StepAt(states: seq<State>, events: seq<Event>, i: nat)
    requires |states| == |events| + 1 && i < |events|
  {
    Enabled(states[i], events[i]) && states[i + 1] == Apply(states[i], events[i])
  }

  lemma {:induction false} RunInv(states: seq<State>, events: seq<Event>, i: nat)
    requires IsRun(states, events) && i < |states|
    ensures Inv(states[i])
  {
    if i == 0 {
      InitInv(states[0]);
    } else {
      RunInv(states, events, i - 1);
      assert StepAt(states, events, i - 1);
      StepKeepsInv(states[i - 1], events[i - 1]);
    }
  }

  lemma RunStepGrows(states: seq<State>, events: seq<Event>, k: nat)
    requires IsRun(states, events) && k < |events|
    ensures Grows(states[k].db, states[k + 1].db)
  {
    RunInv(states, events, k);
    assert StepAt(states, events, k);
    StepKeepsInv(states[k], events[k]);
  }

  lemma {:induction false} RunGrows(states: seq<State>, events: seq<Event>, i: nat, k: nat)
    requires IsRun(states, events) && i <= k < |states|
    ensures Grows(states[i].db, states[k].db)
    decreases k
  {
    if i < k {
      RunGrows(states, events, i, k - 1);
      RunStepGrows(states, events, k - 1);
      GrowsTrans(states[i].db, states[k - 1].db, states[k].db);
    }
  }

  // ---- Fencing ----

  /** The step is a write under a lease on job `id` that the tables accept. */
  predicate AcceptedWrite(s: State, e: Event, id: JobId) {
    match e
    case Observe(lease, _, _) => lease.job == id && JobMayObserve(s.db, lease, s.now)
    case Finalize(lease, fin) => lease.job == id && !fin.InterruptJob? && Finish(s.db, lease, fin, s.now).1.Finished?
    case _ => false
  }

  predicate ClaimsJob(e: Event, id: JobId) {
    e.ClaimBatch? && e.decoded && id in e.picked
  }

  /** How often the job was claimed in the first `n` steps. */
  function Claims(events: seq<Event>, id: JobId, n: nat): nat
    requires n <= |events|
  {
    if n == 0 then 0 else Claims(events, id, n - 1) + (if ClaimsJob(events[n - 1], id) then 1 else 0)
  }

  /** The token of a job after one step: one more when the step claims it, unchanged otherwise. */
  lemma BatchToken(s: State, e: Event, id: JobId)
    requires Inv(s) && Enabled(s, e) && e.ClaimBatch? && id in Apply(s, e).db.jobs
    ensures id in s.db.jobs
    ensures Apply(s, e).db.jobs[id].token == s.db.jobs[id].token + (if ClaimsJob(e, id) then 1 else 0)
  {
    var db := Prepared(s.db, e.r1, e.r2);
    assert id in db.jobs <==> id in s.db.jobs;
    assert id in s.db.jobs ==> db.jobs[id].token == s.db.jobs[id].token;
  }

  lemma StepToken(s: State, e: Event, id: JobId)
    requires Inv(s) && Enabled(s, e)
    requires id in Apply(s, e).db.jobs
    ensures id !in s.db.jobs ==> Apply(s, e).db.jobs[id].token == 0 && !ClaimsJob(e, id)
    ensures id in s.db.jobs ==>
              Apply(s, e).db.jobs[id].token == s.db.jobs[id].token + (if ClaimsJob(e, id) then 1 else 0)
  {
    if e.ClaimBatch? {
      BatchToken(s, e, id);
    }
  }

  lemma {:induction false} TokenCountsClaims(states: seq<State>, events: seq<Event>, id: JobId, i: nat)
    requires IsRun(states, events) && i < |states|
    ensures Claims(events, id, i) == (if id in states[i].db.jobs then states[i].db.jobs[id].token else 0)
  {
    if i > 0 {
      TokenCountsClaims(states, events, id, i - 1);
      RunInv(states, events, i - 1);
      assert StepAt(states, events, i - 1);
      StepKeepsInv(states[i - 1], events[i - 1]);
      if id in states[i].db.jobs {
        StepToken(states[i - 1], events[i - 1], id);
      } else {
        assert id !in states[i - 1].db.jobs;
        assert !ClaimsJob(events[i - 1], id);
      }
    }
  }

  /** An accepted write carries the token of the job's newest claim, under the lease that claim gave out and that has
      not run out. */
  lemma AcceptedWritesAreFenced(states: seq<State>, events: seq<Event>, i: nat, id: JobId)
    requires IsRun(states, events) && i < |events|
    requires AcceptedWrite(states[i], events[i], id)
    ensures id in states[i].db.jobs
    ensures events[i].lease.token == states[i].db.jobs[id].token == Claims(events, id, i)
    ensures Holds(states[i].db, events[i].lease, states[i].now)
  {
    TokenCountsClaims(states, events, id, i);
  }

  /** So the tokens of accepted writes never decrease along a run. */
  lemma AcceptedTokensNeverDecrease(states: seq<State>, events: seq<Event>, i: nat, k: nat, id: JobId)
    requires IsRun(states, events) && i <= k < |events|
    requires AcceptedWrite(states[i], events[i], id) && AcceptedWrite(states[k], events[k], id)
    ensures events[i].lease.token <= events[k].lease.token
  {
    AcceptedWritesAreFenced(states, events, i, id);
    AcceptedWritesAreFenced(states, events, k, id);
    RunGrows(states, events, i, k);
  }

  /** Every finalization that goes through, an interruption included, carries the newest token and closes the newest attempt. */
  lemma FinalizationsAreFenced(states: seq<State>, events: seq<Event>, i: nat, lease: Lease, fin: Finalization)
    requires IsRun(states, events) && i < |states| && lease in states[i].phases
    requires Finish(states[i].db, lease, fin, states[i].now).1.Finished?
    ensures lease.token == states[i].db.jobs[lease.job].token == Claims(events, lease.job, i)
    ensures lease.attemptNumber == states[i].db.jobs[lease.job].attemptCount
    ensures !Finish(states[i].db, lease, fin, states[i].now).0.attempts[AttemptKey(lease.job, lease.attemptNumber)].outcome.Running?
  {
    TokenCountsClaims(states, events, lease.job, i);
  }

  /** Two workers never hold the same job at once. */
  lemma LeasesExclude(states: seq<State>, events: seq<Event>, i: nat, a: Lease, b: Lease)
    requires IsRun(states, events) && i < |states|
    requires a in states[i].phases && b in states[i].phases && a.job == b.job
    requires Holds(states[i].db, a, states[i].now) && Holds(states[i].db, b, states[i].now)
    ensures a == b
  {
    RunInv(states, events, i);
    assert LeaseOk(states[i].db, a) && LeaseOk(states[i].db, b);
  }

  /** Under an unexpired lease a finalization goes through: its attempt is the newest one and still running. */
  lemma HeldLeaseFinishes(states: seq<State>, events: seq<Event>, i: nat, lease: Lease, fin: Finalization)
    requires IsRun(states, events) && i < |states|
    requires lease in states[i].phases
    ensures Holds(states[i].db, lease, states[i].now) ==> Finish(states[i].db, lease, fin, states[i].now).1.Finished?
    ensures !fin.InterruptJob? ==>
              (Finish(states[i].db, lease, fin, states[i].now).1.Finished? <==> Holds(states[i].db, lease, states[i].now))
    ensures Finish(states[i].db, lease, fin, states[i].now).1 != AttemptMismatch
  {
    var s := states[i];
    RunInv(states, events, i);
    assert LeaseOk(s.db, lease);
    assert JobOk(s.db, lease.job) && LeaseRuns(s.db, lease.job, s.now);
  }

  /** Where a finalization leaves its job, said case by case. */
  lemma FinishDecides(db: Db, lease: Lease, fin: Finalization, now: Time)
    requires Finish(db, lease, fin, now).1.Finished?
    ensures var before, after := db.jobs[lease.job], Finish(db, lease, fin, now).0.jobs[lease.job];
            var outdated := Outdated(db, before);
            && after.leaseOwner.None? && after.leaseUntil.None?
            && after.token == before.token && after.attemptCount == before.attemptCount
            && (after.status.Superseded? <==> outdated)
            && (after.status.Succeeded? <==> !outdated && fin.CompleteJob?)
            && (after.status.Ready? <==> !outdated && fin.InterruptJob?)
            && (after.status.Cancelled? <==> !outdated && fin.FailJob? && NormalizeFailure(fin.failure).kind.Cancel?)
            && (after.status.RetryWait? <==>
                  !outdated && fin.FailJob? && NormalizeFailure(fin.failure).kind.Retryable?
                  && before.attemptCount < before.maxAttempts)
            && (after.status.Dead? <==>
                  && !outdated && fin.FailJob?
                  && (NormalizeFailure(fin.failure).kind.Permanent?
                      || (NormalizeFailure(fin.failure).kind.Retryable? && before.attemptCount >= before.maxAttempts)))
  {
  }

  /** A job given back by a finalization can be claimed again exactly when its time has come and attempts are left; without
      attempts the next batch ends it. */
  lemma ReleasedJobReturns(db: Db, lease: Lease, fin: Finalization, now: Time, r: Reading)
    requires Finish(db, lease, fin, now).1.Finished?
    requires lease.job !in r.locked
    ensures var db' := Finish(db, lease, fin, now).0;
            var job := db.jobs[lease.job];
            var wait := if fin.FailJob? then RetryPolicy.Delay(fin.policy, job.attemptCount) else 0;
            var released := Waiting(db'.jobs[lease.job]);
            && (released ==> lease.job !in Stale(db', r))
            && (lease.job in Eligible(db', r) <==> released && job.attemptCount < job.maxAttempts && now + wait <= r.now)
            && (lease.job in Exhausted(db', r) <==> released && job.attemptCount >= job.maxAttempts)
  {
    FinishDecides(db, lease, fin, now);
  }

  // ---- Terminal jobs ----

  lemma BatchSparesTerminal(s: State, e: Event, id: JobId)
    requires Enabled(s, e) && e.ClaimBatch? && id in s.db.jobs && Terminal(s.db.jobs[id].status)
    ensures id in Apply(s, e).db.jobs && Apply(s, e).db.jobs[id] == s.db.jobs[id]
  {
  }

  lemma TerminalStays(s: State, e: Event, id: JobId)
    requires Inv(s) && Enabled(s, e)
    requires id in s.db.jobs && Terminal(s.db.jobs[id].status)
    ensures id in Apply(s, e).db.jobs && Apply(s, e).db.jobs[id] == s.db.jobs[id]
    ensures !AcceptedWrite(s, e, id)
  {
    assert JobOk(s.db, id);
    if e.ClaimBatch? {
      BatchSparesTerminal(s, e, id);
    }
  }

  lemma RunTerminalStep(states: seq<State>, events: seq<Event>, k: nat, id: JobId)
    requires IsRun(states, events) && k < |events|
    requires id in states[k].db.jobs && Terminal(states[k].db.jobs[id].status)
    ensures id in states[k + 1].db.jobs && states[k + 1].db.jobs[id] == states[k].db.jobs[id]
    ensures !AcceptedWrite(states[k], events[k], id) && !ClaimsJob(events[k], id)
  {
    RunInv(states, events, k);
    assert StepAt(states, events, k);
    TerminalStays(states[k], events[k], id);
    StepToken(states[k], events[k], id);
  }

  /** After a job succeeded, died, was cancelled or superseded, its row never changes and no write on it is accepted. */
  lemma {:induction false} TerminalIsForever(states: seq<State>, events: seq<Event>, i: nat, k: nat, id: JobId)
    requires IsRun(states, events) && i <= k < |states|
    requires id in states[i].db.jobs && Terminal(states[i].db.jobs[id].status)
    ensures id in states[k].db.jobs && states[k].db.jobs[id] == states[i].db.jobs[id]
    ensures k < |events| ==> !AcceptedWrite(states[k], events[k], id) && !ClaimsJob(events[k], id)
    decreases k
  {
    if i < k {
      TerminalIsForever(states, events, i, k - 1, id);
      RunTerminalStep(states, events, k - 1, id);
    }
    if k < |events| {
      RunTerminalStep(states, events, k, id);
    }
  }

  // ---- Generations ----

  /** `observed_generation` never decreases and never runs ahead of `desired_generation`. */
  lemma ObservedGenerationIsMonotone(states: seq<State>, events: seq<Event>, i: nat, k: nat, instance: InstanceId)
    requires IsRun(states, events) && i <= k < |states|
    requires instance in states[i].db.instances
    ensures instance in states[k].db.instances
    ensures states[i].db.instances[instance].observed <= states[k].db.instances[instance].observed
    ensures states[k].db.instances[instance].observed <= states[k].db.instances[instance].desired
  {
    RunGrows(states, events, i, k);
    RunInv(states, events, k);
    assert InstanceOk(states[k].db, instance);
  }

  /** At the step where a job becomes succeeded, its generation is both the desired and the observed one. */
  lemma SuccessIsObserved(states: seq<State>, events: seq<Event>, i: nat, id: JobId)
    requires IsRun(states, events) && i < |events|
    requires id in states[i].db.jobs && !states[i].db.jobs[id].status.Succeeded?
    requires id in states[i + 1].db.jobs && states[i + 1].db.jobs[id].status.Succeeded?
    ensures var db := states[i + 1].db;
            && db.jobs[id].instance in db.instances
            && db.instances[db.jobs[id].instance].observed == db.jobs[id].generation
            && db.instances[db.jobs[id].instance].desired == db.jobs[id].generation
  {
    var s, e := states[i], events[i];
    RunInv(states, events, i);
    assert StepAt(states, events, i);
    assert JobOk(s.db, id);
    OnlyCompleteSucceeds(s, e, id);
    assert LeaseOk(s.db, e.lease) && PhaseOk(s, e.lease);
    assert InstanceOk(s.db, s.db.jobs[id].instance);
  }

  lemma BatchMakesNoneSucceed(s: State, e: Event, id: JobId)
    requires Enabled(s, e) && e.ClaimBatch? && id in s.db.jobs && !s.db.jobs[id].status.Succeeded?
    ensures id in Apply(s, e).db.jobs && !Apply(s, e).db.jobs[id].status.Succeeded?
  {
  }

  lemma OnlyBatchesAndFinishesDecide(s: State, e: Event, id: JobId)
    requires Enabled(s, e) && !e.ClaimBatch? && !e.Finalize? && id in s.db.jobs
    ensures id in Apply(s, e).db.jobs && Apply(s, e).db.jobs[id].status == s.db.jobs[id].status
  {
  }

  lemma SuccessComesFromComplete(s: State, e: Event, id: JobId)
    requires Inv(s) && Enabled(s, e)
    requires id in s.db.jobs && !s.db.jobs[id].status.Succeeded?
    requires id in Apply(s, e).db.jobs && Apply(s, e).db.jobs[id].status.Succeeded?
    ensures e.Finalize? && e.fin.CompleteJob? && e.lease.job == id
  {
    if e.ClaimBatch? {
      BatchMakesNoneSucceed(s, e, id);
    } else if !e.Finalize? {
      OnlyBatchesAndFinishesDecide(s, e, id);
    }
  }

  lemma OnlyCompleteSucceeds(s: State, e: Event, id: JobId)
    requires Inv(s) && Enabled(s, e)
    requires id in s.db.jobs && !s.db.jobs[id].status.Succeeded?
    requires id in Apply(s, e).db.jobs && Apply(s, e).db.jobs[id].status.Succeeded?
    ensures e.Finalize? && e.fin.CompleteJob? && e.lease.job == id && s.phases[e.lease].Recorded?
    ensures !Outdated(s.db, s.db.jobs[id]) && Apply(s, e).db.instances == s.db.instances
    ensures Apply(s, e).db.jobs[id].generation == s.db.jobs[id].generation
    ensures Apply(s, e).db.jobs[id].instance == s.db.jobs[id].instance
  {
    SuccessComesFromComplete(s, e, id);
  }

  // ---- The attempt ledger ----

  /** The attempts of a job are exactly 1..attempt_count, each fenced by its own number; only the newest can run, only
      while the job is leased, and it does run as long as the lease has not expired. */
  lemma Ledger(states: seq<State>, events: seq<Event>, i: nat, id: JobId)
    requires IsRun(states, events) && i < |states|
    requires id in states[i].db.jobs
    ensures var job, attempts := states[i].db.jobs[id], states[i].db.attempts;
            && (forall n: nat :: AttemptKey(id, n) in attempts <==> 1 <= n <= job.attemptCount)
            && (forall n: nat | 1 <= n <= job.attemptCount :: attempts[AttemptKey(id, n)].token == n)
            && job.token == job.attemptCount <= job.maxAttempts
            && (forall n: nat | 1 <= n <= job.attemptCount && attempts[AttemptKey(id, n)].outcome.Running? ::
                  n == job.attemptCount && job.status.Leased?)
            && (job.status.Leased? && Unexpired(job, states[i].now) ==>
                  1 <= job.attemptCount && attempts[AttemptKey(id, job.attemptCount)].outcome.Running?)
  {
    RunInv(states, events, i);
    var db := states[i].db;
    assert JobOk(db, id) && AttemptsPresent(db, id) && LeaseRuns(db, id, states[i].now);
    forall n: nat
      ensures AttemptKey(id, n) in db.attempts ==> AttemptOk(db, AttemptKey(id, n))
    {
    }
  }

  lemma ClosedAttemptStays(s: State, e: Event, key: AttemptKey)
    requires Inv(s) && Enabled(s, e)
    requires key in s.db.attempts && !s.db.attempts[key].outcome.Running?
    ensures key in Apply(s, e).db.attempts && Apply(s, e).db.attempts[key] == s.db.attempts[key]
  {
    assert AttemptOk(s.db, key);
    if e.ClaimBatch? {
      ClosedAttemptOutlivesBatch(s, e, key);
    } else if e.Finalize? {
      assert Finish(s.db, e.lease, e.fin, s.now).0.attempts[key] == s.db.attempts[key];
    }
  }

  lemma ClosedAttemptOutlivesBatch(s: State, e: Event, key: AttemptKey)
    requires Inv(s) && Enabled(s, e) && e.ClaimBatch?
    requires key in s.db.attempts && !s.db.attempts[key].outcome.Running?
    ensures key in Apply(s, e).db.attempts && Apply(s, e).db.attempts[key] == s.db.attempts[key]
  {
    if e.decoded {
      EndingKeepsClosed(s.db, Stale(s.db, e.r1), Superseded, CancelledAttempt, key);
      EndingKeepsClosed(MarkSuperseded(s.db, e.r1), Exhausted(MarkSuperseded(s.db, e.r1), e.r2), Dead, LeaseLost, key);
      PreparingKeepsCounts(s.db, e.r1, e.r2, key.job);
      ClaimKeepsClosed(Prepared(s.db, e.r1, e.r2), e.picked, e.owner, e.r3.now + e.duration, key);
    }
  }

  lemma EndingKeepsClosed(db: Db, ids: set<JobId>, status: Status, outcome: Outcome, key: AttemptKey)
    requires key in db.attempts && !db.attempts[key].outcome.Running?
    ensures key in EndJobs(db, ids, status, outcome).attempts
    ensures EndJobs(db, ids, status, outcome).attempts[key] == db.attempts[key]
  {
  }

  lemma ClaimKeepsClosed(db: Db, picked: set<JobId>, owner: WorkerId, until: Time, key: AttemptKey)
    requires picked <= db.jobs.Keys && key in db.attempts && !db.attempts[key].outcome.Running?
    requires key.job in db.jobs && key.number <= db.jobs[key.job].attemptCount
    ensures key in Claim(db, picked, owner, until).attempts && Claim(db, picked, owner, until).attempts[key] == db.attempts[key]
  {
  }

  lemma PreparingKeepsCounts(db: Db, r1: Reading, r2: Reading, id: JobId)
    requires id in db.jobs
    ensures id in Prepared(db, r1, r2).jobs && Prepared(db, r1, r2).jobs[id].attemptCount == db.jobs[id].attemptCount
  {
  }

  lemma ClosedAttemptStaysInRun(states: seq<State>, events: seq<Event>, i: nat, key: AttemptKey)
    requires IsRun(states, events) && i < |events|
    requires key in states[i].db.attempts && !states[i].db.attempts[key].outcome.Running?
    ensures key in states[i + 1].db.attempts && states[i + 1].db.attempts[key] == states[i].db.attempts[key]
  {
    RunInv(states, events, i);
    assert StepAt(states, events, i);
    ClosedAttemptStays(states[i], events[i], key);
  }

  /** The outcome of an attempt is written once. */
  lemma {:induction false} OutcomeIsFinal(states: seq<State>, events: seq<Event>, i: nat, k: nat, key: AttemptKey)
    requires IsRun(states, events) && i <= k < |states|
    requires key in states[i].db.attempts && !states[i].db.attempts[key].outcome.Running?
    ensures key in states[k].db.attempts && states[k].db.attempts[key] == states[i].db.attempts[key]
    decreases k
  {
    if i < k {
      OutcomeIsFinal(states, events, i, k - 1, key);
      ClosedAttemptStaysInRun(states, events, k - 1, key);
    }
  }

  /** A job is claimed at most `max_attempts` times, however long the run. */
  lemma ClaimsAreBounded(states: seq<State>, events: seq<Event>, i: nat, id: JobId)
    requires IsRun(states, events) && i < |states| && id in states[i].db.jobs
    ensures Claims(events, id, i) <= states[i].db.jobs[id].maxAttempts
  {
    TokenCountsClaims(states, events, id, i);
    RunInv(states, events, i);
    assert JobOk(states[i].db, id);
  }

  // ---- Termination ----

  function Rank(status: Status): nat {
    match status
    case Leased => 2
    case Ready => 1
    case RetryWait => 1
    case _ => 0
  }

  /** Attempts left, then how far the status is from the end. */
  function Measure(job: Job): int {
    3 * (job.maxAttempts - job.attemptCount) + Rank(job.status)
  }

  /** The step claims the job or changes its status. */
  predicate Moves(s: State, s': State, id: JobId) {
    id in s.db.jobs && id in s'.db.jobs
    && (s.db.jobs[id].status != s'.db.jobs[id].status || s.db.jobs[id].token != s'.db.jobs[id].token)
  }

  lemma ClaimDescends(s: State, e: Event, id: JobId)
    requires Inv(s) && Enabled(s, e) && id in s.db.jobs && e.ClaimBatch?
    ensures id in Apply(s, e).db.jobs
    ensures Moves(s, Apply(s, e), id) ==> Measure(Apply(s, e).db.jobs[id]) < Measure(s.db.jobs[id])
    ensures !Moves(s, Apply(s, e), id) ==> Measure(Apply(s, e).db.jobs[id]) == Measure(s.db.jobs[id])
  {
    var mid, db := MarkSuperseded(s.db, e.r1), Prepared(s.db, e.r1, e.r2);
    assert mid.jobs[id] == s.db.jobs[id] || mid.jobs[id] == Released(s.db.jobs[id], Superseded);
    assert db.jobs[id] == mid.jobs[id] || db.jobs[id] == Released(mid.jobs[id], Dead);
    assert id in e.picked ==> !Terminal(db.jobs[id].status);
  }

  lemma EveryMoveDescends(s: State, e: Event, id: JobId)
    requires Inv(s) && Enabled(s, e) && id in s.db.jobs
    ensures id in Apply(s, e).db.jobs
    ensures Moves(s, Apply(s, e), id) ==> Measure(Apply(s, e).db.jobs[id]) < Measure(s.db.jobs[id])
    ensures !Moves(s, Apply(s, e), id) ==> Measure(Apply(s, e).db.jobs[id]) == Measure(s.db.jobs[id])
  {
    if e.ClaimBatch? {
      ClaimDescends(s, e, id);
    }
  }

  function MoveCount(states: seq<State>, id: JobId, i: nat, k: nat): nat
    requires i <= k < |states|
  {
    if i == k then 0
    else MoveCount(states, id, i, k - 1) + (if Moves(states[k - 1], states[k], id) then 1 else 0)
  }

  /** Claims and status changes of one job are bounded by its measure, so only finitely many ever happen to it. */
  lemma {:induction false} MovesAreBounded(states: seq<State>, events: seq<Event>, i: nat, k: nat, id: JobId)
    requires IsRun(states, events) && i <= k < |states| && id in states[i].db.jobs
    ensures id in states[k].db.jobs
    ensures MoveCount(states, id, i, k) + Measure(states[k].db.jobs[id]) <= Measure(states[i].db.jobs[id])
    ensures MoveCount(states, id, i, k) <= 3 * states[i].db.jobs[id].maxAttempts + 2
    decreases k
  {
    RunInv(states, events, i);
    assert JobOk(states[i].db, id);
    if i < k {
      MovesAreBounded(states, events, i, k - 1, id);
      RunInv(states, events, k - 1);
      assert StepAt(states, events, k - 1);
      EveryMoveDescends(states[k - 1], events[k - 1], id);
    }
    RunInv(states, events, k);
    assert JobOk(states[k].db, id);
  }

  // ---- What one ClaimBatch achieves ----

  /** Superseding and exhausting take nothing away from the claim and add nothing to it. */
  lemma PreparingKeepsEligible(db: Db, r1: Reading, r2: Reading, r3: Reading)
    ensures Eligible(Prepared(db, r1, r2), r3) == Eligible(db, r3)
    ensures forall id | id in Eligible(db, r3) :: Prepared(db, r1, r2).jobs[id] == db.jobs[id]
  {
    var mid := MarkSuperseded(db, r1);
    assert forall id | id in Stale(db, r1) :: id !in Eligible(db, r3);
    assert forall id | id in Exhausted(mid, r2) :: id !in Eligible(mid, r3);
    EndingKeepsEligible(db, Stale(db, r1), Superseded, CancelledAttempt, r3);
    EndingKeepsEligible(mid, Exhausted(mid, r2), Dead, LeaseLost, r3);
  }

  lemma EndingKeepsEligible(db: Db, ids: set<JobId>, status: Status, outcome: Outcome, r: Reading)
    requires Terminal(status) && ids !! Eligible(db, r)
    ensures Eligible(EndJobs(db, ids, status, outcome), r) == Eligible(db, r)
    ensures forall id | id in Eligible(db, r) :: EndJobs(db, ids, status, outcome).jobs[id] == db.jobs[id]
  {
    var db' := EndJobs(db, ids, status, outcome);
    forall id
      ensures id in Eligible(db', r) <==> id in Eligible(db, r)
    {
      if id in db.jobs && id !in ids {
        assert db'.jobs[id] == db.jobs[id];
      }
    }
  }

  /** The claimed jobs are exactly the `limit` least eligible jobs of the tables the batch started from, by
      (available_at, created_at, id), and that determines them. */
  lemma ClaimTakesTheLeast(s: State, e: Event, other: set<JobId>)
    requires Inv(s) && Enabled(s, e) && e.ClaimBatch?
    ensures Eligible(s.db, e.r3) <= s.db.jobs.Keys
    ensures LeastOf(s.db.jobs, Eligible(s.db, e.r3), e.limit, other) <==> other == e.picked
  {
    var ids := Eligible(s.db, e.r3);
    PreparingKeepsEligible(s.db, e.r1, e.r2, e.r3);
    assert LeastOf(s.db.jobs, ids, e.limit, e.picked) by {
      forall p, q | p in e.picked && q in ids - e.picked
        ensures Before(s.db.jobs, p, q)
      {
        assert Before(Prepared(s.db, e.r1, e.r2).jobs, p, q);
      }
    }
    if LeastOf(s.db.jobs, ids, e.limit, other) {
      LeastIsUnique(s.db.jobs, ids, e.limit, e.picked, other);
    }
  }

  lemma LeastIsUnique(jobs: map<JobId, Job>, ids: set<JobId>, limit: nat, a: set<JobId>, b: set<JobId>)
    requires ids <= jobs.Keys
    requires LeastOf(jobs, ids, limit, a) && LeastOf(jobs, ids, limit, b)
    ensures a == b
  {
    if a != b {
      var p := MissingFrom(a, b);
      var q := MissingFrom(b, a);
      BeforeIsAsymmetric(jobs, p, q);
    }
  }

  lemma BeforeIsAsymmetric(jobs: map<JobId, Job>, a: JobId, b: JobId)
    requires a in jobs && b in jobs
    ensures !(Before(jobs, a, b) && Before(jobs, b, a))
  {
  }

  lemma SubsetOfSameSize<T>(a: set<T>, b: set<T>)
    requires a <= b && |a| == |b|
    ensures a == b
  {
    assert b == a + (b - a);
    assert |b - a| == 0;
  }

  lemma MissingFrom<T>(a: set<T>, b: set<T>) returns (x: T)
    requires a != b && |a| == |b|
    ensures x in a && x !in b
  {
    if a <= b {
      SubsetOfSameSize(a, b);
    }
    x :| x in a && x !in b;
  }

  /** Where a batch leaves a job: at the end of its life, under a lease that had not expired when the batch
      began or was handed out by it, or waiting for its time. */
  predicate Settled(job: Job, began: Time, ended: Time) {
    || Terminal(job.status)
    || (job.status.Leased? && Unexpired(job, began))
    || (Waiting(job) && job.availableAt > ended)
  }

  /** With no competing locks, decodable payloads and room for every eligible job, a batch leaves no job behind. */
  lemma ClaimBatchLeavesNothingBehind(s: State, e: Event, id: JobId)
    requires Inv(s) && Enabled(s, e) && e.ClaimBatch?
    requires e.decoded && e.duration > 0
    requires e.r1.locked == {} && e.r2.locked == {} && e.r3.locked == {}
    requires |Eligible(s.db, e.r3)| <= e.limit
    requires id in s.db.jobs
    ensures Settled(Apply(s, e).db.jobs[id], e.r1.now, e.r3.now)
  {
    PreparingKeepsEligible(s.db, e.r1, e.r2, e.r3);
    var ids := Eligible(s.db, e.r3);
    SubsetOfSameSize(e.picked, ids);
    PreparedIsSettledOrEligible(s, e.r1, e.r2, e.r3, id);
  }

  /** Superseding and exhausting leave only what can be claimed unsettled. */
  lemma PreparedIsSettledOrEligible(s: State, r1: Reading, r2: Reading, r3: Reading, id: JobId)
    requires Inv(s) && id in s.db.jobs
    requires r1.now <= r2.now <= r3.now && r1.locked == {} && r2.locked == {} && r3.locked == {}
    ensures id in Prepared(s.db, r1, r2).jobs
    ensures id in Eligible(Prepared(s.db, r1, r2), r3) || Settled(Prepared(s.db, r1, r2).jobs[id], r1.now, r3.now)
  {
    assert JobOk(s.db, id);
  }

  /** What a batch makes of one job that nobody else has locked, case by case. */
  lemma BatchDecides(s: State, e: Event, id: JobId)
    requires Inv(s) && Enabled(s, e) && e.ClaimBatch? && e.decoded && id in s.db.jobs
    requires id !in e.r1.locked && id !in e.r2.locked && id !in e.r3.locked
    ensures var job, after := s.db.jobs[id], Apply(s, e).db.jobs[id];
            var stale := Outdated(s.db, job) && Reclaimable(job, e.r1.now);
            var exhausted := !stale && job.attemptCount >= job.maxAttempts && Reclaimable(job, e.r2.now);
            && (stale ==> after == Released(job, Superseded) && id !in e.picked)
            && (exhausted ==> after == Released(job, Dead) && id !in e.picked)
            && (id in e.picked ==>
                  && after.status.Leased? && after.leaseOwner == Some(e.owner)
                  && after.leaseUntil == Some(e.r3.now + e.duration)
                  && after.token == job.token + 1 && after.attemptCount == job.attemptCount + 1
                  && Current(s.db, job) && job.attemptCount < job.maxAttempts)
            && (!stale && !exhausted && id !in e.picked ==> after == job)
  {
    assert JobOk(s.db, id);
    MiddleDecides(s.db, e.r1, e.r2, id);
  }

  lemma MiddleDecides(db: Db, r1: Reading, r2: Reading, id: JobId)
    requires JobsOk(db) && id in db.jobs && id !in r1.locked && id !in r2.locked
    ensures var job, mid := db.jobs[id], Prepared(db, r1, r2);
            var stale := Outdated(db, job) && Reclaimable(job, r1.now);
            var exhausted := !stale && job.attemptCount >= job.maxAttempts && Reclaimable(job, r2.now);
            && id in mid.jobs && mid.instances == db.instances
            && mid.jobs[id] == if stale then Released(job, Superseded) else if exhausted then Released(job, Dead) else job
  {
    assert JobOk(db, id);
  }
}
