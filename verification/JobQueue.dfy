/** The instance-job queue tables and the SQL statements the worker runs on them.

    Every statement is a function from the tables before to the tables after. `clock_timestamp()` is an
    argument, and so is the set of rows that `SKIP LOCKED` passes over. */
module JobQueue {
  import opened Wrappers
  import RetryPolicy

  type JobId = int
  type InstanceId = int
  type WorkerId = int
  type Time = int

  datatype Status = Ready | Leased | RetryWait | Succeeded | Dead | Cancelled | Superseded

  datatype Outcome = Running | Completed | RetryableError | PermanentError | CancelledAttempt | LeaseLost

  datatype ObservedState = Pending | Starting | Live | Stopping | Stopped | Failed | Unknown

  datatype Job = Job(
    instance: InstanceId, generation: nat, status: Status,
    availableAt: Time, createdAt: Time,
    leaseOwner: Option<WorkerId>, leaseUntil: Option<Time>,
    token: nat, attemptCount: nat, maxAttempts: nat)

  /** The unique key of the attempts table. */
  datatype AttemptKey = AttemptKey(job: JobId, number: nat)

  datatype Attempt = Attempt(worker: WorkerId, token: nat, outcome: Outcome)

  datatype Instance = Instance(desired: nat, observed: nat, state: ObservedState, resourceId: Option<string>)

  datatype Db = Db(
    jobs: map<JobId, Job>,
    attempts: map<AttemptKey, Attempt>,
    instances: map<InstanceId, Instance>)

  /** What a worker holds after a claim. */
  datatype Lease = Lease(job: JobId, instance: InstanceId, generation: nat, owner: WorkerId, token: nat, attemptNumber: nat)

  /** What one statement sees of its surroundings: the clock, and the job rows other transactions have locked. */
  datatype Reading = Reading(now: Time, locked: set<JobId>)

  predicate Terminal(status: Status) {
    status.Succeeded? || status.Dead? || status.Cancelled? || status.Superseded?
  }

  predicate Waiting(job: Job) {
    job.status.Ready? || job.status.RetryWait?
  }

  /** `lease_until <= now`; a NULL column makes the comparison untrue. */
  predicate Expired(job: Job, now: Time) {
    job.leaseUntil.Some? && job.leaseUntil.value <= now
  }

  /** `lease_until > now`; a NULL column makes the comparison untrue. */
  predicate Unexpired(job: Job, now: Time) {
    job.leaseUntil.Some? && job.leaseUntil.value > now
  }

  /** Nobody works on the job: it waits, or its lease ran out. */
  predicate Reclaimable(job: Job, now: Time) {
    Waiting(job) || (job.status.Leased? && Expired(job, now))
  }

  /** The job's generation differs from its instance's; the join drops a job without an instance. */
  predicate Outdated(db: Db, job: Job) {
    job.instance in db.instances && job.generation != db.instances[job.instance].desired
  }

  predicate Current(db: Db, job: Job) {
    job.instance in db.instances && job.generation == db.instances[job.instance].desired
  }

  // ---- ClaimBatch, statement by statement ----

  function Stale(db: Db, r: Reading): set<JobId> {
    set id | id in db.jobs && id !in r.locked && Outdated(db, db.jobs[id]) && Reclaimable(db.jobs[id], r.now)
  }

  function Exhausted(db: Db, r: Reading): set<JobId> {
    set id | id in db.jobs && id !in r.locked
             && db.jobs[id].attemptCount >= db.jobs[id].maxAttempts && Reclaimable(db.jobs[id], r.now)
  }

  /** The jobs the claim query may hand out. */
  function Eligible(db: Db, r: Reading): set<JobId> {
    set id | id in db.jobs && id !in r.locked && Claimable(db, db.jobs[id], r.now)
  }

  predicate Claimable(db: Db, job: Job, now: Time) {
    && job.attemptCount < job.maxAttempts
    && Current(db, job)
    && ((Waiting(job) && job.availableAt <= now) || (job.status.Leased? && Expired(job, now)))
  }

  function Released(job: Job, status: Status): Job {
    job.(status := status, leaseOwner := None, leaseUntil := None)
  }

  /** Ends the given jobs, and the attempt each of them was running last. */
  function EndJobs(db: Db, ids: set<JobId>, status: Status, outcome: Outcome): Db {
    db.(jobs := map id | id in db.jobs :: if id in ids then Released(db.jobs[id], status) else db.jobs[id],
        attempts := map key | key in db.attempts ::
          if key.job in ids && key.job in db.jobs && key.number == db.jobs[key.job].attemptCount
             && db.attempts[key].outcome.Running?
          then db.attempts[key].(outcome := outcome) else db.attempts[key])
  }

  function MarkSuperseded(db: Db, r: Reading): Db {
    EndJobs(db, Stale(db, r), Superseded, CancelledAttempt)
  }

  function MarkExhausted(db: Db, r: Reading): Db {
    EndJobs(db, Exhausted(db, r), Dead, LeaseLost)
  }

  /** `ORDER BY available_at, created_at, id`. */
  predicate Before(jobs: map<JobId, Job>, a: JobId, b: JobId)
    requires a in jobs && b in jobs
  {
    var x, y := jobs[a], jobs[b];
    || x.availableAt < y.availableAt
    || (x.availableAt == y.availableAt && x.createdAt < y.createdAt)
    || (x.availableAt == y.availableAt && x.createdAt == y.createdAt && a < b)
  }

  /** `picked` is what `ORDER BY … LIMIT limit` leaves of `ids`. */
  ghost predicate LeastOf(jobs: map<JobId, Job>, ids: set<JobId>, limit: nat, picked: set<JobId>)
    requires ids <= jobs.Keys
  {
    && picked <= ids
    && |picked| == (if |ids| <= limit then |ids| else limit)
    && forall p, q | p in picked && q in ids - picked :: Before(jobs, p, q)
  }

  function NextKey(db: Db, id: JobId): AttemptKey
    requires id in db.jobs
  {
    AttemptKey(id, db.jobs[id].attemptCount + 1)
  }

  function ClaimedJob(job: Job, owner: WorkerId, until: Time): Job {
    job.(status := Leased, leaseOwner := Some(owner), leaseUntil := Some(until),
         token := job.token + 1, attemptCount := job.attemptCount + 1)
  }

  /** The claim query: lease the picked rows, close what was still running on them, and open their next attempts. */
  function Claim(db: Db, picked: set<JobId>, owner: WorkerId, until: Time): Db
    requires picked <= db.jobs.Keys
  {
    var closed := map key | key in db.attempts ::
      if key.job in picked && db.attempts[key].outcome.Running?
      then db.attempts[key].(outcome := LeaseLost) else db.attempts[key];
    var created := map key | key in (set id | id in picked :: NextKey(db, id)) ::
      Attempt(owner, db.jobs[key.job].token + 1, Running);
    db.(jobs := map id | id in db.jobs :: if id in picked then ClaimedJob(db.jobs[id], owner, until) else db.jobs[id],
        attempts := closed + created)
  }

  /** The lease the claim query returns for a row. */
  function LeaseOf(jobs: map<JobId, Job>, id: JobId, owner: WorkerId): Lease
    requires id in jobs
  {
    var job := jobs[id];
    Lease(id, job.instance, job.generation, owner, job.token, job.attemptCount)
  }

  function LeasesOf(jobs: map<JobId, Job>, ids: set<JobId>, owner: WorkerId): set<Lease>
    requires ids <= jobs.Keys
  {
    set id | id in ids :: LeaseOf(jobs, id, owner)
  }

  /** The first two statements of a claim. */
  function Prepared(db: Db, r1: Reading, r2: Reading): Db {
    MarkExhausted(MarkSuperseded(db, r1), r2)
  }

  // ---- Renew ----

  /** The rows that carry this very lease. */
  predicate Owns(job: Job, lease: Lease) {
    job.status.Leased? && job.leaseOwner == Some(lease.owner) && job.token == lease.token
  }

  predicate CanRenew(db: Db, lease: Lease, now: Time) {
    && lease.job in db.jobs
    && Current(db, db.jobs[lease.job])
    && Owns(db.jobs[lease.job], lease)
    && Unexpired(db.jobs[lease.job], now)
  }

  function Renewed(db: Db, lease: Lease, until: Time): Db
    requires lease.job in db.jobs
  {
    db.(jobs := db.jobs[lease.job := db.jobs[lease.job].(leaseUntil := Some(until))])
  }

  // ---- Complete, Fail, Interrupt ----

  datatype FailureKind = Retryable | Permanent | Cancel | Unrecognized

  /** `safe` stands for the checks on code and summary in `validFailure`. */
  datatype JobFailure = JobFailure(kind: FailureKind, safe: bool)

  function NormalizeFailure(failure: JobFailure): JobFailure {
    if !failure.kind.Unrecognized? && failure.safe then failure else JobFailure(Retryable, true)
  }

  datatype Finalization =
    | CompleteJob
    | FailJob(failure: JobFailure, policy: RetryPolicy.Policy)
    | InterruptJob

  datatype Plan = Plan(status: Status, outcome: Outcome, retryDelay: int)

  /** The plan builders passed to `finish`. */
  function PlanFor(fin: Finalization, attemptNumber: nat, maxAttempts: nat, superseded: bool): Plan {
    if superseded then Plan(Superseded, CancelledAttempt, 0)
    else match fin
      case CompleteJob => Plan(Succeeded, Completed, 0)
      case InterruptJob => Plan(Ready, CancelledAttempt, 0)
      case FailJob(failure, policy) =>
        match NormalizeFailure(failure).kind
        case Cancel => Plan(Cancelled, CancelledAttempt, 0)
        case Permanent => Plan(Dead, PermanentError, 0)
        case Retryable =>
          if attemptNumber >= maxAttempts then Plan(Dead, RetryableError, 0)
          else Plan(RetryWait, RetryableError, RetryPolicy.Delay(policy, attemptNumber))
        case Unrecognized => Plan(Dead, PermanentError, 0)
  }

  datatype FinishResult = Finished(status: Status) | LeaseGone | AttemptMismatch | AttemptNotRunning

  /** The locking SELECT of `finish` finds the row. */
  predicate FinishFinds(db: Db, lease: Lease, fin: Finalization, now: Time) {
    && lease.job in db.jobs
    && db.jobs[lease.job].instance in db.instances
    && Owns(db.jobs[lease.job], lease)
    && (fin.InterruptJob? || Unexpired(db.jobs[lease.job], now))
  }

  function FinishedJob(job: Job, plan: Plan, now: Time): Job {
    Released(job, plan.status).(availableAt :=
      if plan.status.RetryWait? then now + plan.retryDelay
      else if plan.status.Ready? then now
      else job.availableAt)
  }

  /** The attempt row that `finish` and `recordLeaseLost` update. */
  predicate RunningAttempt(db: Db, lease: Lease) {
    var key := AttemptKey(lease.job, lease.attemptNumber);
    key in db.attempts && db.attempts[key].token == lease.token && db.attempts[key].outcome.Running?
  }

  function CloseAttempt(db: Db, lease: Lease, outcome: Outcome): Db
    requires RunningAttempt(db, lease)
  {
    var key := AttemptKey(lease.job, lease.attemptNumber);
    db.(attempts := db.attempts[key := db.attempts[key].(outcome := outcome)])
  }

  /** The `finish` transaction; every result but `Finished` leaves the tables alone. */
  function Finish(db: Db, lease: Lease, fin: Finalization, now: Time): (Db, FinishResult) {
    if !FinishFinds(db, lease, fin, now) then (db, LeaseGone)
    else
      var job := db.jobs[lease.job];
      if job.attemptCount != lease.attemptNumber then (db, AttemptMismatch)
      else if !RunningAttempt(db, lease) then (db, AttemptNotRunning)
      else
        var plan := PlanFor(fin, job.attemptCount, job.maxAttempts, Outdated(db, job));
        (CloseAttempt(db, lease, plan.outcome).(jobs := db.jobs[lease.job := FinishedJob(job, plan, now)]),
         Finished(plan.status))
  }

  /** The statement a worker runs after `finish` found no row. */
  function RecordLeaseLost(db: Db, lease: Lease): Db {
    if RunningAttempt(db, lease) then CloseAttempt(db, lease, LeaseLost) else db
  }

  // ---- Observations ----

  datatype Observation = Observation(state: ObservedState, resourceId: Option<string>)

  predicate JobMayObserve(db: Db, lease: Lease, now: Time) {
    && lease.job in db.jobs
    && db.jobs[lease.job].instance == lease.instance
    && lease.instance in db.instances
    && Owns(db.jobs[lease.job], lease)
    && Unexpired(db.jobs[lease.job], now)
    && db.jobs[lease.job].generation == lease.generation == db.instances[lease.instance].desired
    && db.instances[lease.instance].observed <= lease.generation
  }

  /** The reconciler's guard. A NULL resource id accepts any expectation, and an empty expectation matches only NULL. */
  predicate ReconcilerMayObserve(db: Db, instance: InstanceId, generation: nat, expected: string) {
    && instance in db.instances
    && db.instances[instance].desired == generation
    && (db.instances[instance].resourceId.None?
        || (expected != "" && db.instances[instance].resourceId == Some(expected)))
  }

  function Observed(db: Db, instance: InstanceId, generation: nat, obs: Observation): Db
    requires instance in db.instances
  {
    db.(instances := db.instances[instance :=
          db.instances[instance].(observed := generation, state := obs.state, resourceId := obs.resourceId)])
  }
}
