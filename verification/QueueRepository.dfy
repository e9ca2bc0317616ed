/** The repository the workers call: three tables, changed in place by one transaction per call. */
module QueueRepository {
  import opened Wrappers
  import opened JobQueue
  import opened QueueMeaning
  import RetryPolicy

  datatype ClaimError = UndecodablePayload(id: JobId)

  datatype QueueError = ErrLeaseLost | ErrAttemptMismatch | ErrAttemptNotRunning | ErrObservationRejected

  /** `ORDER BY available_at, created_at, id LIMIT limit`. */
  method SelectLeast(jobs: map<JobId, Job>, ids: set<JobId>, limit: nat) returns (picked: set<JobId>)
    requires ids <= jobs.Keys
    ensures LeastOf(jobs, ids, limit, picked)
  {
    picked := {};
    var rest := ids;
    while |picked| < limit && rest != {}
      invariant picked !! rest && picked + rest == ids
      invariant |picked| <= limit && |picked| + |rest| == |ids|
      invariant forall p, q | p in picked && q in rest :: Before(jobs, p, q)
      decreases rest
    {
      var first := SelectFirst(jobs, rest);
      picked := picked + {first};
      rest := rest - {first};
    }
    assert rest == ids - picked;
  }

  /** The row that sorts before all others. */
  method SelectFirst(jobs: map<JobId, Job>, ids: set<JobId>) returns (first: JobId)
    requires ids <= jobs.Keys && ids != {}
    ensures first in ids
    ensures forall q | q in ids - {first} :: Before(jobs, first, q)
  {
    ghost var _ := Member(ids);
    first :| first in ids;
    var rest := ids - {first};
    while rest != {}
      invariant first in ids && first !in rest && rest <= ids
      invariant forall q | q in ids - rest - {first} :: Before(jobs, first, q)
      decreases rest
    {
      ghost var _ := Member(rest);
      var next :| next in rest;
      ghost var seen := ids - rest - {first};
      rest := rest - {next};
      var lesser := if Before(jobs, next, first) then next else first;
      forall q | q in ids - rest - {lesser}
        ensures Before(jobs, lesser, q)
      {
        assert q == next || q == first || q in seen;
        if q in seen {
          assert Before(jobs, first, q);
        }
      }
      first := lesser;
    }
  }

  lemma OneMoreLease(jobs: map<JobId, Job>, ids: set<JobId>, id: JobId, leases: seq<Lease>, owner: WorkerId)
    requires ids <= jobs.Keys && id in jobs
    requires (set lease | lease in leases) == LeasesOf(jobs, ids, owner)
    ensures (set lease | lease in leases + [LeaseOf(jobs, id, owner)]) == LeasesOf(jobs, ids + {id}, owner)
  {
    var next := LeaseOf(jobs, id, owner);
    assert LeasesOf(jobs, ids + {id}, owner) == LeasesOf(jobs, ids, owner) + {next} by {
      assert id in ids + {id};
    }
    assert (set lease | lease in leases + [next]) == (set lease | lease in leases) + {next};
  }

  /** The loop over the claimed rows; the first payload that does not decode ends it. */
  method ReadLeases(jobs: map<JobId, Job>, ids: set<JobId>, owner: WorkerId, decodable: set<JobId>)
    returns (result: Result<seq<Lease>, ClaimError>)
    requires ids <= jobs.Keys
    ensures result.Success? <==> ids <= decodable
    ensures result.Success? ==>
              (set lease | lease in result.value) == LeasesOf(jobs, ids, owner) && |result.value| == |ids|
    ensures result.Failure? ==> result.error.id in ids - decodable
  {
    var leases := [];
    var rows := ids;
    while rows != {}
      invariant rows <= ids && ids - rows <= decodable
      invariant (set lease | lease in leases) == LeasesOf(jobs, ids - rows, owner)
      invariant |leases| + |rows| == |ids|
      decreases rows
    {
      ghost var _ := Member(rows);
      var id :| id in rows;
      if id !in decodable {
        return Failure(UndecodablePayload(id));
      }
      assert ids - (rows - {id}) == (ids - rows) + {id};
      OneMoreLease(jobs, ids - rows, id, leases, owner);
      leases := leases + [LeaseOf(jobs, id, owner)];
      rows := rows - {id};
    }
    assert ids - rows == ids;
    return Success(leases);
  }

  class PostgresRepository {
    var jobs: map<JobId, Job>
    var attempts: map<AttemptKey, Attempt>
    var instances: map<InstanceId, Instance>

    constructor ()
      ensures Tables() == Db(map[], map[], map[])
    {
      jobs, attempts, instances := map[], map[], map[];
    }

    function Tables(): Db
      reads this
    {
      Db(jobs, attempts, instances)
    }

    method Store(db: Db)
      modifies this
      ensures Tables() == db
    {
      jobs, attempts, instances := db.jobs, db.attempts, db.instances;
    }

    /** Supersede, exhaust, claim, and decode what was claimed; a payload that does not decode rolls everything back. */
    method ClaimBatch(owner: WorkerId, limit: nat, duration: nat, r1: Reading, r2: Reading, r3: Reading,
                      decodable: set<JobId>)
      returns (result: Result<seq<Lease>, ClaimError>, ghost picked: set<JobId>)
      modifies this
      ensures var db := Prepared(old(Tables()), r1, r2);
              LeastOf(db.jobs, Eligible(db, r3), limit, picked)
      ensures picked <= Due(old(Tables()), r3)
      ensures |picked| == if |Due(old(Tables()), r3)| <= limit then |Due(old(Tables()), r3)| else limit
      ensures result.Success? <==> picked <= decodable
      ensures result.Success? ==>
                && Tables() == Claim(Prepared(old(Tables()), r1, r2), picked, owner, r3.now + duration)
                && (set lease | lease in result.value) == LeasesOf(jobs, picked, owner)
                && |result.value| == |picked|
      ensures result.Failure? ==> Tables() == old(Tables()) && result.error.id in picked - decodable
    {
      var snapshot := Tables();
      Store(MarkSuperseded(Tables(), r1));
      Store(MarkExhausted(Tables(), r2));
      var ids := SelectLeast(jobs, Eligible(Tables(), r3), limit);
      picked := ids;
      ClaimedAreDue(snapshot, r1, r2, r3, limit, picked);
      Store(Claim(Tables(), ids, owner, r3.now + duration));
      var leases := ReadLeases(jobs, ids, owner, decodable);
      if leases.Failure? {
        Store(snapshot);
      }
      return leases, picked;
    }

    method Renew(lease: Lease, duration: nat, now: Time) returns (result: Result<(), QueueError>)
      modifies this
      ensures result == if CanRenew(old(Tables()), lease, now) then Success(()) else Failure(ErrLeaseLost)
      ensures Tables() == if result.Success? then Renewed(old(Tables()), lease, now + duration) else old(Tables())
      ensures result.Success? ==> lease.job in jobs && jobs[lease.job].leaseUntil == Some(now + duration)
    {
      if lease.job !in jobs {
        return Failure(ErrLeaseLost);
      }
      var job := jobs[lease.job];
      if job.instance !in instances || job.generation != instances[job.instance].desired {
        return Failure(ErrLeaseLost);
      }
      if !job.status.Leased? || job.leaseOwner != Some(lease.owner) || job.token != lease.token || !Unexpired(job, now) {
        return Failure(ErrLeaseLost);
      }
      jobs := jobs[lease.job := job.(leaseUntil := Some(now + duration))];
      return Success(());
    }

    method Complete(lease: Lease, now: Time) returns (result: Result<Status, QueueError>)
      modifies this
      ensures FinishContract(old(Tables()), lease, CompleteJob, now, Tables(), result)
    {
      result := RunFinish(lease, CompleteJob, now);
    }

    method Fail(lease: Lease, failure: JobFailure, policy: RetryPolicy.Policy, now: Time)
      returns (result: Result<Status, QueueError>)
      modifies this
      ensures FinishContract(old(Tables()), lease, FailJob(failure, policy), now, Tables(), result)
    {
      result := RunFinish(lease, FailJob(failure, policy), now);
    }

    method Interrupt(lease: Lease, now: Time) returns (result: Result<Status, QueueError>)
      modifies this
      ensures FinishContract(old(Tables()), lease, InterruptJob, now, Tables(), result)
    {
      result := RunFinish(lease, InterruptJob, now);
    }

    /** The locking read, the two updates, and the report of a lost lease. */
    method RunFinish(lease: Lease, fin: Finalization, now: Time) returns (result: Result<Status, QueueError>)
      modifies this
      ensures FinishContract(old(Tables()), lease, fin, now, Tables(), result)
    {
      if !FinishFinds(Tables(), lease, fin, now) {
        ReportLeaseLost(lease);
        return Failure(ErrLeaseLost);
      }
      var job := jobs[lease.job];
      if job.attemptCount != lease.attemptNumber {
        return Failure(ErrAttemptMismatch);
      }
      var superseded := job.generation != instances[job.instance].desired;
      var plan := PlanFor(fin, job.attemptCount, job.maxAttempts, superseded);
      var rollback := jobs;
      jobs := jobs[lease.job := FinishedJob(job, plan, now)];
      if !RunningAttempt(Tables(), lease) {
        jobs := rollback;
        return Failure(ErrAttemptNotRunning);
      }
      var key := AttemptKey(lease.job, lease.attemptNumber);
      attempts := attempts[key := attempts[key].(outcome := plan.outcome)];
      return Success(plan.status);
    }

    method ReportLeaseLost(lease: Lease)
      modifies this
      ensures Tables() == RecordLeaseLost(old(Tables()), lease)
    {
      var key := AttemptKey(lease.job, lease.attemptNumber);
      if key in attempts && attempts[key].token == lease.token && attempts[key].outcome.Running? {
        attempts := attempts[key := attempts[key].(outcome := LeaseLost)];
      }
    }

    method RecordObservation(lease: Lease, obs: Observation, now: Time) returns (result: Result<(), QueueError>)
      modifies this
      ensures result == if JobMayObserve(old(Tables()), lease, now) then Success(()) else Failure(ErrObservationRejected)
      ensures Tables() == if result.Success? then Observed(old(Tables()), lease.instance, lease.generation, obs)
                          else old(Tables())
      ensures result.Success? ==>
                && lease.instance in instances && instances[lease.instance].observed == lease.generation
                && instances[lease.instance].state == obs.state && instances[lease.instance].resourceId == obs.resourceId
    {
      if lease.job !in jobs || lease.instance !in instances {
        return Failure(ErrObservationRejected);
      }
      var job, instance := jobs[lease.job], instances[lease.instance];
      if job.instance != lease.instance || !job.status.Leased? || job.leaseOwner != Some(lease.owner)
         || job.token != lease.token || !Unexpired(job, now) {
        return Failure(ErrObservationRejected);
      }
      if job.generation != lease.generation || instance.desired != lease.generation || instance.observed > lease.generation {
        return Failure(ErrObservationRejected);
      }
      instances := instances[lease.instance := instances[lease.instance].(
        observed := lease.generation, state := obs.state, resourceId := obs.resourceId)];
      return Success(());
    }
  }

  /** What a finalization returns and leaves behind. */
  predicate FinishContract(before: Db, lease: Lease, fin: Finalization, now: Time, after: Db,
                           result: Result<Status, QueueError>) {
    var (db, outcome) := Finish(before, lease, fin, now);
    match outcome
    case Finished(status) => result == Success(status) && after == db
    case LeaseGone => result == Failure(ErrLeaseLost) && after == RecordLeaseLost(before, lease)
    case AttemptMismatch => result == Failure(ErrAttemptMismatch) && after == before
    case AttemptNotRunning => result == Failure(ErrAttemptNotRunning) && after == before
  }
}
