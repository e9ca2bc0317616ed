/** The queue in terms of its columns: which rows each statement takes, and what it writes into them. */
module QueueMeaning {
  import RetryPolicy
  import opened Wrappers
  import opened JobQueue
  import opened QueueProtocol
  import opened QueueRuns

  // ---- Claiming ----

  /** The rows of the claim query: attempts left, the generation its instance wants, and due, or under a lease that ran out. */
  function Due(db: Db, r: Reading): set<JobId> {
    set id | id in db.jobs && id !in r.locked
             && db.jobs[id].attemptCount < db.jobs[id].maxAttempts
             && db.jobs[id].instance in db.instances
             && db.instances[db.jobs[id].instance].desired == db.jobs[id].generation
             && (((db.jobs[id].status == Ready || db.jobs[id].status == RetryWait) && db.jobs[id].availableAt <= r.now)
                 || (db.jobs[id].status == Leased && db.jobs[id].leaseUntil.Some? && db.jobs[id].leaseUntil.value <= r.now))
  }

  /** The row sorts before the other by available_at, created_at and id. */
  predicate SortsBefore(db: Db, p: JobId, q: JobId)
    requires p in db.jobs && q in db.jobs
  {
    if db.jobs[p].availableAt != db.jobs[q].availableAt then db.jobs[p].availableAt < db.jobs[q].availableAt
    else if db.jobs[p].createdAt != db.jobs[q].createdAt then db.jobs[p].createdAt < db.jobs[q].createdAt
    else p < q
  }

  lemma DueIsEligible(db: Db, r: Reading)
    ensures Eligible(db, r) == Due(db, r)
  {
    assert forall id :: id in Eligible(db, r) <==> id in Due(db, r);
  }

  /**
    * A batch claims rows that were due, or under a lease that had run out, before it superseded and exhausted others; the
    * first of them in order, up to the limit.
    */
  lemma ClaimedAreDue(db: Db, r1: Reading, r2: Reading, r3: Reading, limit: nat, picked: set<JobId>)
    requires LeastOf(Prepared(db, r1, r2).jobs, Eligible(Prepared(db, r1, r2), r3), limit, picked)
    ensures picked <= Due(db, r3)
    ensures |picked| == if |Due(db, r3)| <= limit then |Due(db, r3)| else limit
    ensures |Due(db, r3)| <= limit ==> picked == Due(db, r3)
    ensures forall p, q | p in picked && q in Due(db, r3) - picked :: SortsBefore(db, p, q)
  {
    PreparingKeepsEligible(db, r1, r2, r3);
    DueIsEligible(db, r3);
    if |Due(db, r3)| <= limit {
      SubsetOfSameSize(picked, Due(db, r3));
    }
    forall p, q | p in picked && q in Due(db, r3) - picked
      ensures SortsBefore(db, p, q)
    {
      assert Before(Prepared(db, r1, r2).jobs, p, q);
    }
  }

  /** In every run, a step that claims a job does so when no lease on it is held any more. */
  lemma ClaimsTakeNoHeldLease(states: seq<State>, events: seq<Event>, i: nat, id: JobId, lease: Lease)
    requires IsRun(states, events) && i < |events| && events[i].ClaimBatch? && events[i].decoded && id in events[i].picked
    requires lease in states[i].phases && lease.job == id
    ensures id in states[i].db.jobs
    ensures var job := states[i].db.jobs[id];
            !(job.status == Leased && job.leaseOwner == Some(lease.owner) && job.token == lease.token
              && job.leaseUntil.Some? && job.leaseUntil.value > events[i].r3.now)
  {
    var s, e := states[i], events[i];
    assert StepAt(states, events, i);
    BatchPicks(s, e);
    PreparingKeepsEligible(s.db, e.r1, e.r2, e.r3);
    DueIsEligible(s.db, e.r3);
  }

  /** What a claim writes into the rows it picks, and into no others. */
  lemma ClaimWrites(db: Db, picked: set<JobId>, owner: WorkerId, until: Time, id: JobId)
    requires picked <= db.jobs.Keys && id in db.jobs
    ensures id in Claim(db, picked, owner, until).jobs
    ensures var before, after := db.jobs[id], Claim(db, picked, owner, until).jobs[id];
            if id in picked
            then && after.status == Leased && after.leaseOwner == Some(owner) && after.leaseUntil == Some(until)
                 && after.token == before.token + 1 && after.attemptCount == before.attemptCount + 1
                 && after.instance == before.instance && after.generation == before.generation
                 && after.availableAt == before.availableAt && after.createdAt == before.createdAt
                 && after.maxAttempts == before.maxAttempts
            else after == before
    ensures Claim(db, picked, owner, until).instances == db.instances
  {
  }

  /** It opens the next attempt of each picked job and marks what was still running on it as lost. */
  lemma ClaimWritesAttempts(db: Db, picked: set<JobId>, owner: WorkerId, until: Time, key: AttemptKey)
    requires picked <= db.jobs.Keys
    ensures var after := Claim(db, picked, owner, until).attempts;
            if key.job in picked && key.number == db.jobs[key.job].attemptCount + 1
            then key in after && after[key].worker == owner && after[key].token == db.jobs[key.job].token + 1
                 && after[key].outcome == Running
            else
              && (key in after <==> key in db.attempts)
              && (key in db.attempts ==>
                    && after[key].worker == db.attempts[key].worker && after[key].token == db.attempts[key].token
                    && after[key].outcome == if key.job in picked && db.attempts[key].outcome == Running then LeaseLost
                                             else db.attempts[key].outcome)
  {
    if key.job in picked && key.number == db.jobs[key.job].attemptCount + 1 {
      assert key == NextKey(db, key.job);
    }
  }

  /** What a worker is handed says which job, for which generation, under which token and attempt number. */
  lemma LeaseSays(jobs: map<JobId, Job>, ids: set<JobId>, owner: WorkerId, lease: Lease)
    requires ids <= jobs.Keys
    ensures lease in LeasesOf(jobs, ids, owner) <==>
              && lease.job in ids && lease.owner == owner
              && lease.instance == jobs[lease.job].instance && lease.generation == jobs[lease.job].generation
              && lease.token == jobs[lease.job].token && lease.attemptNumber == jobs[lease.job].attemptCount
  {
    assert lease.job in ids ==> LeaseOf(jobs, lease.job, owner) in LeasesOf(jobs, ids, owner);
  }

  // ---- Superseding and exhausting ----

  /** A job that nobody works on and whose instance wants another generation is superseded, and no other. */
  lemma SupersedesExactly(db: Db, r: Reading, id: JobId)
    requires id in db.jobs
    ensures id in MarkSuperseded(db, r).jobs
    ensures var before, after := db.jobs[id], MarkSuperseded(db, r).jobs[id];
            if && id !in r.locked && before.instance in db.instances
               && db.instances[before.instance].desired != before.generation
               && (before.status == Ready || before.status == RetryWait
                   || (before.status == Leased && before.leaseUntil.Some? && before.leaseUntil.value <= r.now))
            then after == before.(status := Superseded, leaseOwner := None, leaseUntil := None)
            else after == before
  {
  }

  /** A job that nobody works on and that has no attempts left is dead, and no other. */
  lemma ExhaustsExactly(db: Db, r: Reading, id: JobId)
    requires id in db.jobs
    ensures id in MarkExhausted(db, r).jobs
    ensures var before, after := db.jobs[id], MarkExhausted(db, r).jobs[id];
            if && id !in r.locked && before.attemptCount >= before.maxAttempts
               && (before.status == Ready || before.status == RetryWait
                   || (before.status == Leased && before.leaseUntil.Some? && before.leaseUntil.value <= r.now))
            then after == before.(status := Dead, leaseOwner := None, leaseUntil := None)
            else after == before
  {
  }

  /** The newest attempt of such a job, if it was running, is cancelled when superseded and lost when exhausted. */
  lemma EndsNewestAttempt(db: Db, r: Reading, key: AttemptKey)
    requires key in db.attempts && key.job in db.jobs
    ensures key in MarkSuperseded(db, r).attempts && key in MarkExhausted(db, r).attempts
    ensures var before := db.attempts[key];
            var newest := key.number == db.jobs[key.job].attemptCount && before.outcome == Running;
            && MarkSuperseded(db, r).attempts[key]
               == (if newest && MarkSuperseded(db, r).jobs[key.job].status == Superseded
                      && db.jobs[key.job].status != Superseded
                   then Attempt(before.worker, before.token, CancelledAttempt) else before)
            && MarkExhausted(db, r).attempts[key]
               == (if newest && MarkExhausted(db, r).jobs[key.job].status == Dead && db.jobs[key.job].status != Dead
                   then Attempt(before.worker, before.token, LeaseLost) else before)
  {
  }

  // ---- Renewing ----

  /** A renewal is accepted for the very lease, unexpired, of a job whose instance still wants its generation. */
  lemma RenewsExactly(db: Db, lease: Lease, now: Time)
    ensures CanRenew(db, lease, now) <==>
              && lease.job in db.jobs && db.jobs[lease.job].instance in db.instances
              && db.instances[db.jobs[lease.job].instance].desired == db.jobs[lease.job].generation
              && db.jobs[lease.job].status == Leased && db.jobs[lease.job].leaseOwner == Some(lease.owner)
              && db.jobs[lease.job].token == lease.token
              && db.jobs[lease.job].leaseUntil.Some? && db.jobs[lease.job].leaseUntil.value > now
  {
  }

  /** It moves the end of the lease, and nothing else; so a worker that renews in time still holds its lease. */
  lemma RenewalExtends(s: State, e: Event, lease: Lease)
    requires Inv(s) && Enabled(s, e) && e.Renew? && e.lease == lease && CanRenew(s.db, lease, s.now)
    ensures lease.job in s.db.jobs && lease.job in Apply(s, e).db.jobs
    ensures Apply(s, e).db.jobs[lease.job].leaseUntil == Some(s.now + e.duration)
    ensures Apply(s, e).db.jobs[lease.job].(leaseUntil := s.db.jobs[lease.job].leaseUntil) == s.db.jobs[lease.job]
    ensures forall id | id in s.db.jobs && id != lease.job :: id in Apply(s, e).db.jobs && Apply(s, e).db.jobs[id] == s.db.jobs[id]
    ensures Apply(s, e).db.attempts == s.db.attempts && Apply(s, e).db.instances == s.db.instances
    ensures e.duration > 0 ==> Holds(Apply(s, e).db, lease, s.now)
  {
  }

  // ---- Finishing ----

  /** The row `finish` locks: the very lease, unexpired unless it is given back. */
  lemma FinishLocksExactly(db: Db, lease: Lease, fin: Finalization, now: Time)
    ensures FinishFinds(db, lease, fin, now) <==>
              && lease.job in db.jobs && db.jobs[lease.job].instance in db.instances
              && db.jobs[lease.job].status == Leased && db.jobs[lease.job].leaseOwner == Some(lease.owner)
              && db.jobs[lease.job].token == lease.token
              && (fin == InterruptJob || (db.jobs[lease.job].leaseUntil.Some? && db.jobs[lease.job].leaseUntil.value > now))
    ensures Finish(db, lease, fin, now).1 == LeaseGone <==> !FinishFinds(db, lease, fin, now)
    ensures Finish(db, lease, fin, now).1 == AttemptMismatch <==>
              FinishFinds(db, lease, fin, now) && db.jobs[lease.job].attemptCount != lease.attemptNumber
    ensures Finish(db, lease, fin, now).1 == AttemptNotRunning <==>
              && FinishFinds(db, lease, fin, now) && db.jobs[lease.job].attemptCount == lease.attemptNumber
              && var key := AttemptKey(lease.job, lease.attemptNumber);
                 !(key in db.attempts && db.attempts[key].token == lease.token && db.attempts[key].outcome == Running)
    ensures !Finish(db, lease, fin, now).1.Finished? ==> Finish(db, lease, fin, now).0 == db
  {
  }

  /** How a failure counts: as its kind says, but as retryable if the kind is unknown or its texts are not fit to be stored. */
  function Counts(failure: JobFailure): FailureKind {
    if failure.kind == Unrecognized || !failure.safe then Retryable else failure.kind
  }

  /** The status a finalization leaves, in terms of its kind, the generation wanted and the attempts left. */
  function FinalStatus(fin: Finalization, outdated: bool, attemptCount: nat, maxAttempts: nat): Status {
    if outdated then Superseded
    else if fin.CompleteJob? then Succeeded
    else if fin.InterruptJob? then Ready
    else if Counts(fin.failure) == Cancel then Cancelled
    else if Counts(fin.failure) == Permanent || attemptCount >= maxAttempts then Dead
    else RetryWait
  }

  /** The outcome it gives the attempt. */
  function FinalOutcome(fin: Finalization, outdated: bool): Outcome {
    if outdated || fin.InterruptJob? then CancelledAttempt
    else if fin.CompleteJob? then Completed
    else if Counts(fin.failure) == Cancel then CancelledAttempt
    else if Counts(fin.failure) == Permanent then PermanentError
    else RetryableError
  }

  /** What a finalization that goes through writes into the job, the attempt, and no other row. */
  lemma FinishWrites(db: Db, lease: Lease, fin: Finalization, now: Time)
    requires Finish(db, lease, fin, now).1.Finished?
    ensures var job := db.jobs[lease.job];
            var outdated := db.instances[job.instance].desired != job.generation;
            var status := FinalStatus(fin, outdated, job.attemptCount, job.maxAttempts);
            var key := AttemptKey(lease.job, job.attemptCount);
            && Finish(db, lease, fin, now).1.status == status
            && key in db.attempts
            && Finish(db, lease, fin, now).0
               == Db(db.jobs[lease.job := job.(
                       status := status, leaseOwner := None, leaseUntil := None,
                       availableAt := if status == RetryWait then now + RetryPolicy.Delay(fin.policy, job.attemptCount)
                                      else if status == Ready then now else job.availableAt)],
                     db.attempts[key := db.attempts[key].(outcome := FinalOutcome(fin, outdated))],
                     db.instances)
  {
  }

  /** The report of a lost lease closes the running attempt with its number and token as lost, and only that. */
  lemma ReportWrites(db: Db, lease: Lease)
    ensures var key := AttemptKey(lease.job, lease.attemptNumber);
            RecordLeaseLost(db, lease)
            == if key in db.attempts && db.attempts[key].token == lease.token && db.attempts[key].outcome == Running
               then Db(db.jobs, db.attempts[key := Attempt(db.attempts[key].worker, db.attempts[key].token, LeaseLost)], db.instances)
               else db
  {
  }

  // ---- Observing ----

  /** An observation is accepted from the very lease, unexpired, for the generation wanted, which no later one has passed. */
  lemma ObservesExactly(db: Db, lease: Lease, now: Time)
    ensures JobMayObserve(db, lease, now) <==>
              && lease.job in db.jobs && lease.instance in db.instances && db.jobs[lease.job].instance == lease.instance
              && db.jobs[lease.job].status == Leased && db.jobs[lease.job].leaseOwner == Some(lease.owner)
              && db.jobs[lease.job].token == lease.token
              && db.jobs[lease.job].leaseUntil.Some? && db.jobs[lease.job].leaseUntil.value > now
              && db.jobs[lease.job].generation == lease.generation
              && db.instances[lease.instance].desired == lease.generation
              && db.instances[lease.instance].observed <= lease.generation
  {
  }

  /** The reconciler's observation is accepted for the generation wanted, and for the resource it expected if one is known. */
  lemma ReconcilerObservesExactly(db: Db, instance: InstanceId, generation: nat, expected: string)
    ensures ReconcilerMayObserve(db, instance, generation, expected) <==>
              && instance in db.instances && db.instances[instance].desired == generation
              && (db.instances[instance].resourceId == None
                  || (expected != "" && db.instances[instance].resourceId == Some(expected)))
  {
  }

  /** An accepted observation is what the instance shows afterwards. */
  lemma ObservationIsShown(db: Db, instance: InstanceId, generation: nat, obs: Observation)
    requires instance in db.instances
    ensures var after := Observed(db, instance, generation, obs);
            && after.jobs == db.jobs && after.attempts == db.attempts && after.instances.Keys == db.instances.Keys
            && after.instances[instance]
               == Instance(db.instances[instance].desired, generation, obs.state, obs.resourceId)
            && forall i | i in db.instances && i != instance :: after.instances[i] == db.instances[i]
  {
  }
}
