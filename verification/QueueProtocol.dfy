/** The queue as a state machine: any number of workers, the control plane and the reconciler take steps on the
    same tables, in any order, under a database clock that never runs backwards. A crashed worker is one that
    takes no more steps. */
module QueueProtocol {
  import opened Wrappers
  import opened JobQueue

  /** Where the runner stands with one lease. */
  datatype Phase =
    | Working    // the provider operation runs
    | Recorded   // the observation was accepted, so processing succeeded
    | Rejected   // processing failed
    | Losing     // finish found no row; recordLeaseLost is still to come
    | Closed

  datatype State = State(now: Time, db: Db, phases: map<Lease, Phase>)

  datatype Event =
    // environment
    | Tick(to: Time)
    | AddInstance(instance: InstanceId)
    | RaiseGeneration(instance: InstanceId, generation: nat, state: ObservedState, resourceId: Option<string>)
    | InsertJob(id: JobId, instance: InstanceId, availableAt: Time, maxAttempts: nat)
    // worker
    | ClaimBatch(owner: WorkerId, limit: nat, duration: nat, r1: Reading, r2: Reading, r3: Reading,
                 picked: set<JobId>, decoded: bool)
    | Renew(lease: Lease, duration: nat)
    | Observe(lease: Lease, obs: Observation, seen: bool)   // whether the worker learns that the write was accepted
    | ProcessingFails(lease: Lease)
    | Finalize(lease: Lease, fin: Finalization)
    | ReportLost(lease: Lease)
    // reconciler
    | Reconcile(instance: InstanceId, generation: nat, expected: string, obs: Observation)

  ghost predicate Init(s: State) {
    s.db.jobs == map[] && s.db.attempts == map[] && s.db.instances == map[] && s.phases == map[]
  }

  /** When the step may be taken. */
  ghost predicate Enabled(s: State, e: Event) {
    match e
    case Tick(to) => s.now <= to
    case AddInstance(i) => i !in s.db.instances
    case RaiseGeneration(i, to, _, _) => i in s.db.instances && s.db.instances[i].desired <= to
    case InsertJob(id, i, _, maxAttempts) => id !in s.db.jobs && i in s.db.instances && maxAttempts > 0
    case ClaimBatch(_, limit, _, r1, r2, r3, picked, _) =>
      && s.now <= r1.now <= r2.now <= r3.now
      && var db := Prepared(s.db, r1, r2);
         LeastOf(db.jobs, Eligible(db, r3), limit, picked)
    case Renew(lease, _) => lease in s.phases
    case Observe(lease, _, _) => lease in s.phases && s.phases[lease].Working?
    case ProcessingFails(lease) => lease in s.phases && s.phases[lease].Working?
    case Finalize(lease, fin) =>
      && lease in s.phases
      && (match fin
          case CompleteJob => s.phases[lease].Recorded?
          case FailJob(_, _) => s.phases[lease].Rejected?
          case InterruptJob => s.phases[lease].Recorded? || s.phases[lease].Rejected?)
    case ReportLost(lease) => lease in s.phases && s.phases[lease].Losing?
    case Reconcile(_, _, _, _) => true
  }

  function Hired(phases: map<Lease, Phase>, leases: set<Lease>): map<Lease, Phase> {
    phases + map lease | lease in leases :: Working
  }

  function AfterFinish(result: FinishResult): Phase {
    if result.LeaseGone? then Losing else Closed
  }

  /** The state after the step. */
  ghost function Apply(s: State, e: Event): State
    requires Enabled(s, e)
  {
    match e
    case Tick(to) => s.(now := to)
    case AddInstance(i) =>
      s.(db := s.db.(instances := s.db.instances[i := Instance(1, 0, Pending, None)]))
    case RaiseGeneration(i, to, state, resourceId) =>
      s.(db := s.db.(instances := s.db.instances[i :=
           s.db.instances[i].(desired := to, state := state, resourceId := resourceId)]))
    case InsertJob(id, i, availableAt, maxAttempts) =>
      s.(db := s.db.(jobs := s.db.jobs[id :=
           Job(i, s.db.instances[i].desired, Ready, availableAt, s.now, None, None, 0, 0, maxAttempts)]))
    case ClaimBatch(owner, _, duration, r1, r2, r3, picked, decoded) =>
      if !decoded then s.(now := r3.now)
      else
        var db := Claim(Prepared(s.db, r1, r2), picked, owner, r3.now + duration);
        State(r3.now, db, Hired(s.phases, LeasesOf(db.jobs, picked, owner)))
    case Renew(lease, duration) =>
      if CanRenew(s.db, lease, s.now) then s.(db := Renewed(s.db, lease, s.now + duration)) else s
    case Observe(lease, obs, seen) =>
      if JobMayObserve(s.db, lease, s.now)
      then s.(db := Observed(s.db, lease.instance, lease.generation, obs),
              phases := s.phases[lease := if seen then Recorded else Rejected])
      else s.(phases := s.phases[lease := Rejected])
    case ProcessingFails(lease) => s.(phases := s.phases[lease := Rejected])
    case Finalize(lease, fin) =>
      var (db, result) := Finish(s.db, lease, fin, s.now);
      s.(db := db, phases := s.phases[lease := AfterFinish(result)])
    case ReportLost(lease) => s.(db := RecordLeaseLost(s.db, lease), phases := s.phases[lease := Closed])
    case Reconcile(i, generation, expected, obs) =>
      if ReconcilerMayObserve(s.db, i, generation, expected) then s.(db := Observed(s.db, i, generation, obs)) else s
  }

  // ---- The invariant ----

  /** Lease columns, counters and the foreign key of one job row. */
  ghost predicate JobOk(db: Db, id: JobId)
    requires id in db.jobs
  {
    var job := db.jobs[id];
    && job.instance in db.instances
    && job.generation <= db.instances[job.instance].desired
    && (job.status.Leased? <==> job.leaseOwner.Some?)
    && (job.status.Leased? <==> job.leaseUntil.Some?)
    && (job.status.Leased? ==> job.attemptCount >= 1)
    && job.token == job.attemptCount <= job.maxAttempts
  }

  /** Attempts are numbered and fenced 1..attempt_count, and only the newest attempt of a leased job can be running. */
  ghost predicate AttemptOk(db: Db, key: AttemptKey)
    requires key in db.attempts
  {
    && key.job in db.jobs
    && 1 <= key.number <= db.jobs[key.job].attemptCount
    && db.attempts[key].token == key.number
    && (db.attempts[key].outcome.Running? ==>
          key.number == db.jobs[key.job].attemptCount && db.jobs[key.job].status.Leased?)
  }

  ghost predicate AttemptsPresent(db: Db, id: JobId)
    requires id in db.jobs
  {
    forall n: nat :: 1 <= n <= db.jobs[id].attemptCount ==> AttemptKey(id, n) in db.attempts
  }

  /** The newest attempt of a leased job belongs to the lease owner, and runs as long as the lease does. */
  ghost predicate LeaseRuns(db: Db, id: JobId, now: Time)
    requires id in db.jobs
  {
    var job := db.jobs[id];
    job.status.Leased? ==>
      var key := AttemptKey(id, job.attemptCount);
      && key in db.attempts
      && job.leaseOwner == Some(db.attempts[key].worker)
      && (Unexpired(job, now) ==> db.attempts[key].outcome.Running?)
  }

  ghost predicate InstanceOk(db: Db, i: InstanceId)
    requires i in db.instances
  {
    db.instances[i].observed <= db.instances[i].desired
  }

  /** A lease a worker holds, or once held, was handed out with the attempt of the same number. */
  ghost predicate LeaseOk(db: Db, lease: Lease) {
    && lease.job in db.jobs
    && var job := db.jobs[lease.job];
       && lease.instance == job.instance
       && lease.generation == job.generation
       && 1 <= lease.token == lease.attemptNumber <= job.token
       && var key := AttemptKey(lease.job, lease.token);
          key in db.attempts && db.attempts[key].worker == lease.owner
  }

  /** The job's newest lease is this one, and it has not run out. */
  predicate Holds(db: Db, lease: Lease, now: Time) {
    lease.job in db.jobs && Owns(db.jobs[lease.job], lease) && Unexpired(db.jobs[lease.job], now)
  }

  ghost predicate PhaseOk(s: State, lease: Lease)
    requires lease in s.phases
  {
    && (s.phases[lease].Losing? ==> !Holds(s.db, lease, s.now))
    && (s.phases[lease].Recorded? ==>
          lease.instance in s.db.instances && s.db.instances[lease.instance].observed >= lease.generation)
  }

  ghost predicate JobsOk(db: Db) {
    forall id | id in db.jobs :: JobOk(db, id) && AttemptsPresent(db, id)
  }

  ghost predicate AttemptsOk(db: Db) {
    forall key | key in db.attempts :: AttemptOk(db, key)
  }

  ghost predicate LeasesRun(db: Db, now: Time) {
    forall id | id in db.jobs :: LeaseRuns(db, id, now)
  }

  ghost predicate InstancesOk(db: Db) {
    forall i | i in db.instances :: InstanceOk(db, i)
  }

  ghost predicate PhasesOk(s: State) {
    forall lease | lease in s.phases :: LeaseOk(s.db, lease) && PhaseOk(s, lease)
  }

  ghost predicate TablesOk(db: Db, now: Time) {
    JobsOk(db) && AttemptsOk(db) && LeasesRun(db, now) && InstancesOk(db)
  }

  ghost predicate Inv(s: State) {
    TablesOk(s.db, s.now) && PhasesOk(s)
  }

  // ---- Preservation ----

  lemma InitInv(s: State)
    requires Init(s)
    ensures Inv(s)
  {
  }

  lemma LaterKeepsTables(db: Db, now: Time, later: Time)
    requires TablesOk(db, now) && now <= later
    ensures TablesOk(db, later)
  {
    forall id | id in db.jobs
      ensures LeaseRuns(db, id, later)
    {
      assert LeaseRuns(db, id, now);
    }
  }

  lemma EndJobsKeepsTables(db: Db, ids: set<JobId>, status: Status, outcome: Outcome, now: Time)
    requires TablesOk(db, now)
    requires Terminal(status) && !outcome.Running?
    requires forall id | id in ids :: id in db.jobs && Reclaimable(db.jobs[id], now)
    ensures TablesOk(EndJobs(db, ids, status, outcome), now)
  {
    var db' := EndJobs(db, ids, status, outcome);
    assert db'.jobs.Keys == db.jobs.Keys && db'.attempts.Keys == db.attempts.Keys;
    forall id | id in db'.jobs
      ensures JobOk(db', id) && AttemptsPresent(db', id) && LeaseRuns(db', id, now)
    {
      assert JobOk(db, id) && AttemptsPresent(db, id) && LeaseRuns(db, id, now);
    }
    forall key | key in db'.attempts
      ensures AttemptOk(db', key)
    {
      assert AttemptOk(db, key) && JobOk(db, key.job);
    }
    forall i | i in db'.instances
      ensures InstanceOk(db', i)
    {
      assert InstanceOk(db, i);
    }
  }

  lemma PreparedKeepsTables(db: Db, r1: Reading, r2: Reading, now: Time)
    requires TablesOk(db, now) && now <= r1.now <= r2.now
    ensures TablesOk(Prepared(db, r1, r2), r2.now)
  {
    LaterKeepsTables(db, now, r1.now);
    EndJobsKeepsTables(db, Stale(db, r1), Superseded, CancelledAttempt, r1.now);
    var mid := MarkSuperseded(db, r1);
    LaterKeepsTables(mid, r1.now, r2.now);
    EndJobsKeepsTables(mid, Exhausted(mid, r2), Dead, LeaseLost, r2.now);
  }

  lemma ClaimedJobOk(db: Db, r: Reading, picked: set<JobId>, owner: WorkerId, until: Time, id: JobId)
    requires JobsOk(db) && picked <= Eligible(db, r) && id in picked
    ensures var db' := Claim(db, picked, owner, until);
            id in db'.jobs && JobOk(db', id) && AttemptsPresent(db', id) && LeaseRuns(db', id, r.now)
  {
    assert JobOk(db, id) && AttemptsPresent(db, id);
    assert NextKey(db, id) in Claim(db, picked, owner, until).attempts;
  }

  lemma UnclaimedJobOk(db: Db, r: Reading, picked: set<JobId>, owner: WorkerId, until: Time, id: JobId)
    requires TablesOk(db, r.now) && picked <= Eligible(db, r) && id in db.jobs && id !in picked
    ensures var db' := Claim(db, picked, owner, until);
            id in db'.jobs && JobOk(db', id) && AttemptsPresent(db', id) && LeaseRuns(db', id, r.now)
  {
    var db' := Claim(db, picked, owner, until);
    assert JobOk(db, id) && AttemptsPresent(db, id) && LeaseRuns(db, id, r.now);
    assert forall key: AttemptKey | key.job == id :: key in db'.attempts <==> key in db.attempts;
  }

  lemma ClaimKeepsAttempts(db: Db, r: Reading, picked: set<JobId>, owner: WorkerId, until: Time)
    requires JobsOk(db) && AttemptsOk(db) && picked <= Eligible(db, r)
    ensures AttemptsOk(Claim(db, picked, owner, until))
  {
    var db' := Claim(db, picked, owner, until);
    forall key | key in db'.attempts
      ensures AttemptOk(db', key)
    {
      if key in db.attempts {
        assert AttemptOk(db, key);
        if key.job in picked {
          assert key != NextKey(db, key.job);
        }
      }
    }
  }

  lemma ClaimKeepsTables(db: Db, r: Reading, picked: set<JobId>, owner: WorkerId, until: Time)
    requires TablesOk(db, r.now)
    requires picked <= Eligible(db, r)
    ensures TablesOk(Claim(db, picked, owner, until), r.now)
  {
    var db' := Claim(db, picked, owner, until);
    assert db'.jobs.Keys == db.jobs.Keys;
    forall id | id in db'.jobs
      ensures JobOk(db', id) && AttemptsPresent(db', id) && LeaseRuns(db', id, r.now)
    {
      if id in picked {
        ClaimedJobOk(db, r, picked, owner, until, id);
      } else {
        UnclaimedJobOk(db, r, picked, owner, until, id);
      }
    }
    ClaimKeepsAttempts(db, r, picked, owner, until);
    assert forall i | i in db.instances :: InstanceOk(db, i);
  }

  /** Tokens and generations of a lease stay put while its job row keeps its instance and its attempts. */
  ghost predicate Grows(db: Db, db': Db) {
    && (forall id | id in db.jobs ::
          && id in db'.jobs
          && db'.jobs[id].instance == db.jobs[id].instance
          && db'.jobs[id].generation == db.jobs[id].generation
          && db'.jobs[id].maxAttempts == db.jobs[id].maxAttempts
          && db.jobs[id].token <= db'.jobs[id].token)
    && (forall key | key in db.attempts ::
          key in db'.attempts && db'.attempts[key].worker == db.attempts[key].worker
          && db'.attempts[key].token == db.attempts[key].token)
    && (forall i | i in db.instances ::
          && i in db'.instances
          && db.instances[i].desired <= db'.instances[i].desired
          && db.instances[i].observed <= db'.instances[i].observed)
  }

  /** No lease that is not held now is ever held again. */
  ghost predicate NoRevival(db: Db, now: Time, db': Db, now': Time) {
    forall id | id in db.jobs && id in db'.jobs && db'.jobs[id].status.Leased? && Unexpired(db'.jobs[id], now') ::
      || db'.jobs[id].token > db.jobs[id].token
      || (db'.jobs[id].token == db.jobs[id].token && db.jobs[id].status.Leased? && Unexpired(db.jobs[id], now)
          && db'.jobs[id].leaseOwner == db.jobs[id].leaseOwner)
  }

  lemma PhasesCarryOver(s: State, s': State)
    requires PhasesOk(s)
    requires Grows(s.db, s'.db) && NoRevival(s.db, s.now, s'.db, s'.now)
    ensures forall lease | lease in s.phases && lease in s'.phases && s'.phases[lease] == s.phases[lease] ::
              LeaseOk(s'.db, lease) && PhaseOk(s', lease)
    ensures forall lease | lease in s.phases :: LeaseOk(s'.db, lease)
  {
    forall lease | lease in s.phases
      ensures LeaseOk(s'.db, lease)
      ensures lease in s'.phases && s'.phases[lease] == s.phases[lease] ==> PhaseOk(s', lease)
    {
      assert LeaseOk(s.db, lease) && PhaseOk(s, lease);
    }
  }

  /** One lease moves to a new phase while the tables change as they may. */
  lemma PhaseMoves(s: State, s': State, lease: Lease)
    requires Inv(s) && lease in s.phases && lease in s'.phases
    requires s'.phases == s.phases[lease := s'.phases[lease]]
    requires TablesOk(s'.db, s'.now)
    requires Grows(s.db, s'.db) && NoRevival(s.db, s.now, s'.db, s'.now)
    requires PhaseOk(s', lease)
    ensures Inv(s')
  {
    PhasesCarryOver(s, s');
  }

  lemma EnvironmentKeepsInv(s: State, e: Event)
    requires Inv(s) && Enabled(s, e)
    requires e.Tick? || e.AddInstance? || e.RaiseGeneration? || e.InsertJob? || e.Reconcile?
    ensures Inv(Apply(s, e)) && Grows(s.db, Apply(s, e).db)
  {
    var s' := Apply(s, e);
    forall id | id in s'.db.jobs
      ensures JobOk(s'.db, id) && AttemptsPresent(s'.db, id) && LeaseRuns(s'.db, id, s'.now)
    {
      if id in s.db.jobs {
        assert JobOk(s.db, id) && AttemptsPresent(s.db, id) && LeaseRuns(s.db, id, s.now);
      }
    }
    forall key | key in s'.db.attempts
      ensures AttemptOk(s'.db, key)
    {
      assert AttemptOk(s.db, key);
    }
    forall i | i in s'.db.instances
      ensures InstanceOk(s'.db, i)
    {
      if i in s.db.instances {
        assert InstanceOk(s.db, i);
      }
    }
    assert Grows(s.db, s'.db);
    PhasesCarryOver(s, s');
  }

  lemma NewLeaseOk(db: Db, r: Reading, picked: set<JobId>, owner: WorkerId, until: Time, lease: Lease)
    requires JobsOk(db) && picked <= Eligible(db, r)
    requires lease in LeasesOf(Claim(db, picked, owner, until).jobs, picked, owner)
    ensures LeaseOk(Claim(db, picked, owner, until), lease)
    ensures lease.job in picked
  {
    var db' := Claim(db, picked, owner, until);
    var id :| id in picked && lease == LeaseOf(db'.jobs, id, owner);
    assert JobOk(db, id);
    assert NextKey(db, id) in db'.attempts;
  }

  lemma EndJobsGrows(db: Db, ids: set<JobId>, status: Status, outcome: Outcome, now: Time)
    requires Terminal(status)
    ensures Grows(db, EndJobs(db, ids, status, outcome))
    ensures NoRevival(db, now, EndJobs(db, ids, status, outcome), now)
  {
  }

  lemma GrowsTrans(a: Db, b: Db, c: Db)
    requires Grows(a, b) && Grows(b, c)
    ensures Grows(a, c)
  {
  }

  lemma NoRevivalTrans(a: Db, t: Time, b: Db, u: Time, c: Db, v: Time)
    requires NoRevival(a, t, b, u) && NoRevival(b, u, c, v)
    requires Grows(a, b) && Grows(b, c)
    ensures NoRevival(a, t, c, v)
  {
  }

  lemma PreparedGrows(db: Db, r1: Reading, r2: Reading, now: Time)
    requires now <= r1.now <= r2.now
    ensures Grows(db, Prepared(db, r1, r2))
    ensures NoRevival(db, now, Prepared(db, r1, r2), r2.now)
  {
    var mid := MarkSuperseded(db, r1);
    EndJobsGrows(db, Stale(db, r1), Superseded, CancelledAttempt, now);
    EndJobsGrows(mid, Exhausted(mid, r2), Dead, LeaseLost, now);
    GrowsTrans(db, mid, Prepared(db, r1, r2));
    NoRevivalTrans(db, now, mid, now, Prepared(db, r1, r2), now);
  }

  lemma ClaimGrows(db: Db, r: Reading, picked: set<JobId>, owner: WorkerId, until: Time, now: Time)
    requires TablesOk(db, now) && now <= r.now
    requires picked <= Eligible(db, r)
    ensures Grows(db, Claim(db, picked, owner, until))
    ensures NoRevival(db, now, Claim(db, picked, owner, until), r.now)
  {
    var db' := Claim(db, picked, owner, until);
    forall key | key in db.attempts
      ensures key in db'.attempts && db'.attempts[key].worker == db.attempts[key].worker
      ensures db'.attempts[key].token == db.attempts[key].token
    {
      assert AttemptOk(db, key);
    }
  }

  lemma ClaimBatchTables(start: Db, db: Db, db': Db, now: Time, r1: Reading, r2: Reading, r3: Reading,
                         picked: set<JobId>, owner: WorkerId, until: Time)
    requires TablesOk(start, now) && now <= r1.now <= r2.now <= r3.now
    requires db == Prepared(start, r1, r2) && picked <= Eligible(db, r3)
    requires db' == Claim(db, picked, owner, until)
    ensures TablesOk(db, r3.now) && TablesOk(db', r3.now)
    ensures Grows(start, db) && Grows(db, db') && Grows(start, db')
    ensures NoRevival(start, now, db', r3.now)
  {
    assert TablesOk(db, r2.now) by {
      PreparedKeepsTables(start, r1, r2, now);
    }
    assert TablesOk(db, r3.now) by {
      LaterKeepsTables(db, r2.now, r3.now);
    }
    assert TablesOk(db', r3.now) by {
      ClaimKeepsTables(db, r3, picked, owner, until);
    }
    assert Grows(start, db) && NoRevival(start, now, db, r2.now) by {
      PreparedGrows(start, r1, r2, now);
    }
    assert Grows(db, db') && NoRevival(db, r2.now, db', r3.now) by {
      ClaimGrows(db, r3, picked, owner, until, r2.now);
    }
    GrowsTrans(start, db, db');
    NoRevivalTrans(start, now, db, r2.now, db', r3.now);
  }

  lemma NewLeasesOk(db: Db, r: Reading, picked: set<JobId>, owner: WorkerId, until: Time)
    requires JobsOk(db) && picked <= Eligible(db, r)
    ensures var db' := Claim(db, picked, owner, until);
            forall lease | lease in LeasesOf(db'.jobs, picked, owner) :: LeaseOk(db', lease)
  {
    var db' := Claim(db, picked, owner, until);
    forall lease | lease in LeasesOf(db'.jobs, picked, owner)
      ensures LeaseOk(db', lease)
    {
      NewLeaseOk(db, r, picked, owner, until, lease);
    }
  }

  /** A batch that is rolled back has only taken time. */
  lemma RollbackKeepsInv(s: State, later: Time)
    requires Inv(s) && s.now <= later
    ensures Inv(s.(now := later)) && Grows(s.db, s.db)
  {
    LaterKeepsTables(s.db, s.now, later);
    PhasesCarryOver(s, s.(now := later));
  }

  lemma BatchPicks(s: State, e: Event)
    requires Enabled(s, e) && e.ClaimBatch?
    ensures s.now <= e.r1.now <= e.r2.now <= e.r3.now && e.picked <= Eligible(Prepared(s.db, e.r1, e.r2), e.r3)
  {
  }

  lemma CommittedBatchKeepsInv(s: State, e: Event)
    requires Inv(s) && Enabled(s, e) && e.ClaimBatch? && e.decoded
    ensures Inv(Apply(s, e)) && Grows(s.db, Apply(s, e).db)
  {
    var s' := Apply(s, e);
    var db := Prepared(s.db, e.r1, e.r2);
    assert e.picked <= Eligible(db, e.r3) by {
      BatchPicks(s, e);
    }
    ClaimBatchTables(s.db, db, s'.db, s.now, e.r1, e.r2, e.r3, e.picked, e.owner, e.r3.now + e.duration);
    NewLeasesOk(db, e.r3, e.picked, e.owner, e.r3.now + e.duration);
    HiringKeepsPhases(s, s', LeasesOf(s'.db.jobs, e.picked, e.owner));
  }

  lemma ClaimBatchKeepsInv(s: State, e: Event)
    requires Inv(s) && Enabled(s, e) && e.ClaimBatch?
    ensures Inv(Apply(s, e)) && Grows(s.db, Apply(s, e).db)
  {
    if e.decoded {
      CommittedBatchKeepsInv(s, e);
    } else {
      RollbackKeepsInv(s, e.r3.now);
    }
  }

  lemma HiringKeepsPhases(s: State, s': State, leases: set<Lease>)
    requires PhasesOk(s) && s'.phases == Hired(s.phases, leases)
    requires Grows(s.db, s'.db) && NoRevival(s.db, s.now, s'.db, s'.now)
    requires forall lease | lease in leases :: LeaseOk(s'.db, lease)
    ensures PhasesOk(s')
  {
    PhasesCarryOver(s, s');
  }

  lemma RenewKeepsTables(db: Db, lease: Lease, now: Time, until: Time)
    requires TablesOk(db, now) && CanRenew(db, lease, now)
    ensures TablesOk(Renewed(db, lease, until), now)
    ensures Grows(db, Renewed(db, lease, until)) && NoRevival(db, now, Renewed(db, lease, until), now)
  {
    var db' := Renewed(db, lease, until);
    forall id | id in db'.jobs
      ensures JobOk(db', id) && AttemptsPresent(db', id) && LeaseRuns(db', id, now)
    {
      assert JobOk(db, id) && AttemptsPresent(db, id) && LeaseRuns(db, id, now);
    }
    forall key | key in db'.attempts
      ensures AttemptOk(db', key)
    {
      assert AttemptOk(db, key);
    }
    assert forall i | i in db.instances :: InstanceOk(db, i);
  }

  lemma ObservedKeepsTables(db: Db, i: InstanceId, generation: nat, obs: Observation, now: Time)
    requires TablesOk(db, now)
    requires i in db.instances && db.instances[i].observed <= generation == db.instances[i].desired
    ensures TablesOk(Observed(db, i, generation, obs), now)
    ensures Grows(db, Observed(db, i, generation, obs)) && NoRevival(db, now, Observed(db, i, generation, obs), now)
  {
    var db' := Observed(db, i, generation, obs);
    forall id | id in db'.jobs
      ensures JobOk(db', id) && AttemptsPresent(db', id) && LeaseRuns(db', id, now)
    {
      assert JobOk(db, id) && AttemptsPresent(db, id) && LeaseRuns(db, id, now);
    }
    assert forall key | key in db'.attempts :: AttemptOk(db, key);
    assert forall i | i in db.instances :: InstanceOk(db, i);
  }

  lemma RenewedKeepsInv(s: State, lease: Lease, until: Time)
    requires Inv(s) && CanRenew(s.db, lease, s.now)
    ensures Inv(s.(db := Renewed(s.db, lease, until))) && Grows(s.db, Renewed(s.db, lease, until))
    ensures NoRevival(s.db, s.now, Renewed(s.db, lease, until), s.now)
  {
    RenewKeepsTables(s.db, lease, s.now, until);
    PhasesCarryOver(s, s.(db := Renewed(s.db, lease, until)));
  }

  lemma GrowsRefl(db: Db)
    ensures Grows(db, db)
  {
  }

  lemma NoRevivalRefl(db: Db, now: Time)
    ensures NoRevival(db, now, db, now)
  {
  }

  /** Nor does a renewal, accepted or not, bring back a lease that is not held. */
  lemma RenewKeepsInv(s: State, e: Event)
    requires Inv(s) && Enabled(s, e) && e.Renew?
    ensures Inv(Apply(s, e)) && Grows(s.db, Apply(s, e).db)
    ensures NoRevival(s.db, s.now, Apply(s, e).db, s.now)
    ensures forall lease: Lease | !Holds(s.db, lease, s.now) :: !Holds(Apply(s, e).db, lease, s.now)
  {
    var lease, until := e.lease, s.now + e.duration;
    var next := s.(db := if CanRenew(s.db, lease, s.now) then Renewed(s.db, lease, until) else s.db);
    assert Inv(next) && Grows(s.db, next.db) && NoRevival(s.db, s.now, next.db, s.now) by {
      if CanRenew(s.db, lease, s.now) {
        RenewedKeepsInv(s, lease, until);
      } else {
        GrowsRefl(s.db);
        NoRevivalRefl(s.db, s.now);
      }
    }
    assert Apply(s, e) == next;
  }

  lemma ObserveKeepsInv(s: State, e: Event)
    requires Inv(s) && Enabled(s, e) && e.Observe?
    ensures Inv(Apply(s, e)) && Grows(s.db, Apply(s, e).db)
  {
    if JobMayObserve(s.db, e.lease, s.now) {
      ObservedKeepsTables(s.db, e.lease.instance, e.lease.generation, e.obs, s.now);
    }
    PhaseMoves(s, Apply(s, e), e.lease);
  }

  lemma ProcessingFailsKeepsInv(s: State, e: Event)
    requires Inv(s) && Enabled(s, e) && e.ProcessingFails?
    ensures Inv(Apply(s, e)) && Grows(s.db, Apply(s, e).db)
  {
    PhaseMoves(s, Apply(s, e), e.lease);
  }

  /** `finish` finds no row only for a lease that is no longer held. */
  lemma FinishMissesOnlyLostLeases(s: State, lease: Lease, fin: Finalization)
    requires Inv(s) && lease in s.phases
    requires !FinishFinds(s.db, lease, fin, s.now)
    ensures !Holds(s.db, lease, s.now)
  {
    assert LeaseOk(s.db, lease);
    assert JobOk(s.db, lease.job);
  }

  lemma FinishKeepsJobs(db: Db, lease: Lease, fin: Finalization, now: Time)
    requires TablesOk(db, now) && Finish(db, lease, fin, now).1.Finished?
    ensures var db' := Finish(db, lease, fin, now).0;
            JobsOk(db') && LeasesRun(db', now)
  {
    var db' := Finish(db, lease, fin, now).0;
    forall id | id in db'.jobs
      ensures JobOk(db', id) && AttemptsPresent(db', id) && LeaseRuns(db', id, now)
    {
      assert JobOk(db, id) && AttemptsPresent(db, id) && LeaseRuns(db, id, now);
    }
  }

  lemma FinishKeepsAttempts(db: Db, lease: Lease, fin: Finalization, now: Time)
    requires TablesOk(db, now) && Finish(db, lease, fin, now).1.Finished?
    ensures AttemptsOk(Finish(db, lease, fin, now).0)
  {
    var db' := Finish(db, lease, fin, now).0;
    forall key | key in db'.attempts
      ensures AttemptOk(db', key)
    {
      assert AttemptOk(db, key);
    }
  }

  lemma FinishGrows(db: Db, lease: Lease, fin: Finalization, now: Time)
    requires Finish(db, lease, fin, now).1.Finished?
    ensures var db' := Finish(db, lease, fin, now).0;
            Grows(db, db') && NoRevival(db, now, db', now)
  {
  }

  lemma FinishKeepsTables(db: Db, lease: Lease, fin: Finalization, now: Time)
    requires TablesOk(db, now)
    ensures var db' := Finish(db, lease, fin, now).0;
            TablesOk(db', now) && Grows(db, db') && NoRevival(db, now, db', now)
  {
    if Finish(db, lease, fin, now).1.Finished? {
      FinishKeepsJobs(db, lease, fin, now);
      FinishKeepsAttempts(db, lease, fin, now);
      FinishGrows(db, lease, fin, now);
      assert forall i | i in db.instances :: InstanceOk(db, i);
    } else {
      GrowsRefl(db);
    }
  }

  lemma FinishKeepsInv(s: State, e: Event)
    requires Inv(s) && Enabled(s, e) && e.Finalize?
    ensures Inv(Apply(s, e)) && Grows(s.db, Apply(s, e).db)
  {
    var s' := Apply(s, e);
    FinishKeepsTables(s.db, e.lease, e.fin, s.now);
    if Finish(s.db, e.lease, e.fin, s.now).1.LeaseGone? {
      FinishMissesOnlyLostLeases(s, e.lease, e.fin);
    }
    PhaseMoves(s, s', e.lease);
  }

  lemma ReportLostKeepsTables(db: Db, lease: Lease, now: Time)
    requires TablesOk(db, now) && LeaseOk(db, lease) && !Holds(db, lease, now)
    ensures TablesOk(RecordLeaseLost(db, lease), now)
    ensures Grows(db, RecordLeaseLost(db, lease)) && NoRevival(db, now, RecordLeaseLost(db, lease), now)
  {
    var db' := RecordLeaseLost(db, lease);
    forall id | id in db'.jobs
      ensures JobOk(db', id) && AttemptsPresent(db', id) && LeaseRuns(db', id, now)
    {
      assert JobOk(db, id) && AttemptsPresent(db, id) && LeaseRuns(db, id, now);
    }
    forall key | key in db'.attempts
      ensures AttemptOk(db', key)
    {
      assert AttemptOk(db, key);
    }
    assert forall i | i in db.instances :: InstanceOk(db, i);
  }

  /** What a report of a lost lease may close is the attempt of that lease, and only as lost. */
  ghost predicate ClosesOnly(db: Db, lease: Lease, db': Db) {
    && db'.jobs == db.jobs && db'.instances == db.instances && db'.attempts.Keys == db.attempts.Keys
    && forall key | key in db.attempts && db'.attempts[key] != db.attempts[key] ::
         && key == AttemptKey(lease.job, lease.attemptNumber) && db.attempts[key].outcome.Running?
         && db'.attempts[key] == db.attempts[key].(outcome := LeaseLost)
  }

  /** The lease of the attempt it closes is not held and can be neither renewed nor finished any more. */
  lemma ReportLostKeepsInv(s: State, e: Event)
    requires Inv(s) && Enabled(s, e) && e.ReportLost?
    ensures Inv(Apply(s, e)) && Grows(s.db, Apply(s, e).db)
    ensures ClosesOnly(s.db, e.lease, Apply(s, e).db)
    ensures !Holds(Apply(s, e).db, e.lease, s.now) && !CanRenew(Apply(s, e).db, e.lease, s.now)
  {
    assert LeaseOk(s.db, e.lease) && PhaseOk(s, e.lease);
    ReportLostKeepsTables(s.db, e.lease, s.now);
    PhaseMoves(s, Apply(s, e), e.lease);
  }

  lemma StepKeepsInv(s: State, e: Event)
    requires Inv(s) && Enabled(s, e)
    ensures Inv(Apply(s, e)) && Grows(s.db, Apply(s, e).db)
  {
    match e
    case ClaimBatch(_, _, _, _, _, _, _, _) => ClaimBatchKeepsInv(s, e);
    case Renew(_, _) => RenewKeepsInv(s, e);
    case Observe(_, _, _) => ObserveKeepsInv(s, e);
    case ProcessingFails(_) => ProcessingFailsKeepsInv(s, e);
    case Finalize(_, _) => FinishKeepsInv(s, e);
    case ReportLost(_) => ReportLostKeepsInv(s, e);
    case Tick(_) => EnvironmentKeepsInv(s, e);
    case AddInstance(_) => EnvironmentKeepsInv(s, e);
    case RaiseGeneration(_, _, _, _) => EnvironmentKeepsInv(s, e);
    case InsertJob(_, _, _, _) => EnvironmentKeepsInv(s, e);
    case Reconcile(_, _, _, _) => EnvironmentKeepsInv(s, e);
  }
}
