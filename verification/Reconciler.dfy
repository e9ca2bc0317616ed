/** The reconciler: one cycle over the listed resources and the desired instances, calling providers and store. */
module Reconciler {
  import opened Wrappers
  import opened Ordering
  import opened Providers
  import opened ReconcilePlan

  datatype FailedStep = OnResource(managed: Managed) | OnInstance(id: string)

  datatype CycleError =
    | DesiredUnavailable | ResourcesUnavailable | InvalidDesired(id: string) | Failures(steps: seq<FailedStep>)

  function CountIn(counts: map<string, nat>, key: string): nat {
    if key in counts then counts[key] else 0
  }

  /** The counters agree with the resources seen. */
  ghost predicate Counts(counts: map<string, nat>, managed: seq<Managed>) {
    forall key: string :: CountIn(counts, key) == IdentityCount(managed, key)
  }

  lemma CountsStep(counts: map<string, nat>, managed: seq<Managed>, m: Managed)
    requires Counts(counts, managed)
    ensures Counts(counts[Identity(m) := CountIn(counts, Identity(m)) + 1], managed + [m])
  {
    forall key: string
      ensures IdentityCount(managed + [m], key) == IdentityCount(managed, key) + (if key == Identity(m) then 1 else 0)
    {
      FilterAppend(managed, m, HasIdentity(key));
    }
  }

  /** The identity whose destruction is confirmed while one resource is handled. */
  function RemovedBy(ctx: Context, answers: Answers, m: Managed): set<string> {
    if (VerdictOf(ctx, m).DestroyStale? || VerdictOf(ctx, m).DestroyCurrent?)
       && answers.observes(DestroyCall(m.ownership)) == Some(Stopped)
    then {Identity(m)} else {}
  }

  lemma SurvivesTwice(platform: string, resources: seq<Resource>, a: set<string>, b: set<string>)
    ensures Filter(Filter(resources, Survives(platform, a)), Survives(platform, b)) == Filter(resources, Survives(platform, a + b))
  {
    FilterTwice(resources, Survives(platform, a), Survives(platform, b), Survives(platform, a + b));
  }

  lemma AllSurvive(platform: string, resources: seq<Resource>)
    ensures Filter(resources, Survives(platform, {})) == resources
  {
    FilterAll(resources, Survives(platform, {}));
  }

  /** How far the loop over the managed resources has come. */
  ghost predicate ResourcesHandled(ctx: Context, answers: Answers, start: seq<Resource>, done: seq<Managed>,
                                   handled: set<string>, blocked: set<string>, calls: seq<Call>, resources: seq<Resource>) {
    && handled == HandledBy(ctx, done) && blocked == BlockedBy(ctx, done)
    && calls == Flat(done, ResourceCalls(ctx, answers))
    && resources == Filter(start, Survives(ctx.platform, Removed(ctx, answers, done)))
  }

  lemma NothingHandled(ctx: Context, answers: Answers, start: seq<Resource>)
    ensures ResourcesHandled(ctx, answers, start, [], {}, {}, [], start)
  {
    assert Removed(ctx, answers, []) == {};
    AllSurvive(ctx.platform, start);
  }

  lemma MarkedStep(ctx: Context, done: seq<Managed>, m: Managed)
    ensures HandledBy(ctx, done + [m])
            == HandledBy(ctx, done) + (if Handles(VerdictOf(ctx, m)) then {m.ownership.instance} else {})
    ensures BlockedBy(ctx, done + [m]) == BlockedBy(ctx, done) + (if Blocks(VerdictOf(ctx, m)) then {m.ownership.instance} else {})
  {
    assert forall x :: x in done + [m] <==> x in done || x == m;
  }

  lemma RemovedStep(ctx: Context, answers: Answers, done: seq<Managed>, m: Managed)
    ensures Removed(ctx, answers, done + [m]) == Removed(ctx, answers, done) + RemovedBy(ctx, answers, m)
  {
    assert forall x :: x in done + [m] <==> x in done || x == m;
  }

  lemma ResourceStep(ctx: Context, answers: Answers, start: seq<Resource>, done: seq<Managed>, m: Managed,
                     handled: set<string>, blocked: set<string>, calls: seq<Call>, resources: seq<Resource>,
                     handles: bool, blocks: bool, resourcesNow: seq<Resource>)
    requires ResourcesHandled(ctx, answers, start, done, handled, blocked, calls, resources)
    requires handles == Handles(VerdictOf(ctx, m)) && blocks == Blocks(VerdictOf(ctx, m))
    requires resourcesNow == Filter(resources, Survives(ctx.platform, RemovedBy(ctx, answers, m)))
    ensures ResourcesHandled(
              ctx, answers, start, done + [m],
              if handles then handled + {m.ownership.instance} else handled,
              if blocks then blocked + {m.ownership.instance} else blocked,
              calls + ResourceCalls(ctx, answers)(m), resourcesNow)
  {
    assert (done + [m])[..|done|] == done;
    MarkedStep(ctx, done, m);
    RemovedStep(ctx, answers, done, m);
    SurvivesTwice(ctx.platform, start, Removed(ctx, answers, done), RemovedBy(ctx, answers, m));
  }

  /** The counters of the loop over the managed resources. */
  predicate ResourcesTallied(ctx: Context, answers: Answers, done: seq<Managed>, start: CycleResult, result: CycleResult,
                             failures: seq<FailedStep>) {
    && result == start.(orphans := ResourceTallies(ctx, answers, done, Orphan),
                        destroyed := ResourceTallies(ctx, answers, done, Destroyed),
                        inspected := ResourceTallies(ctx, answers, done, Inspected),
                        failures := ResourceTallies(ctx, answers, done, FailedResource))
    && |failures| == result.failures
  }

  function Tallied(result: CycleResult, tally: Tally): CycleResult {
    match tally
    case Orphan => result.(orphans := result.orphans + 1)
    case Destroyed => result.(destroyed := result.destroyed + 1)
    case Inspected => result.(inspected := result.inspected + 1)
    case FailedResource => result.(failures := result.failures + 1)
  }

  lemma TallyStep(ctx: Context, answers: Answers, done: seq<Managed>, m: Managed, start: CycleResult, result: CycleResult,
                  failures: seq<FailedStep>)
    requires ResourcesTallied(ctx, answers, done, start, result, failures)
    ensures var tally := ResourceTally(ctx, answers)(m);
            ResourcesTallied(ctx, answers, done + [m], start, Tallied(result, tally),
                             if tally.FailedResource? then failures + [OnResource(m)] else failures)
  {
    FilterAppend(done, m, TallyIs(ctx, answers, Orphan));
    FilterAppend(done, m, TallyIs(ctx, answers, Destroyed));
    FilterAppend(done, m, TallyIs(ctx, answers, Inspected));
    FilterAppend(done, m, TallyIs(ctx, answers, FailedResource));
  }

  /** How far the loop over the desired instances has come. */
  ghost predicate InstancesHandled(ctx: Context, answers: Answers, naming: Naming, settled: set<string>,
                                   done: seq<DesiredInstance>, calls: seq<Call>, added: seq<Resource>) {
    && calls == Flat(done, InstanceCalls(ctx, answers, settled))
    && added == Map(Filter(done, IsEnsured(ctx, answers, settled)), Created(ctx.platform, naming))
  }

  lemma InstanceStep(ctx: Context, answers: Answers, naming: Naming, settled: set<string>, all: seq<DesiredInstance>,
                     i: nat, calls: seq<Call>, added: seq<Resource>)
    requires i < |all| && InstancesHandled(ctx, answers, naming, settled, all[..i], calls, added)
    ensures InstancesHandled(
              ctx, answers, naming, settled, all[..i + 1], calls + InstanceCalls(ctx, answers, settled)(all[i]),
              added + (if IsEnsured(ctx, answers, settled)(all[i]) then [Created(ctx.platform, naming)(all[i])] else []))
  {
    var done, d := all[..i], all[i];
    assert all[..i + 1] == done + [d] && (done + [d])[..|done|] == done;
    FilterAppend(done, d, IsEnsured(ctx, answers, settled));
    if IsEnsured(ctx, answers, settled)(d) {
      MapAppend(Filter(done, IsEnsured(ctx, answers, settled)), d, Created(ctx.platform, naming));
    } else {
      assert Filter(done + [d], IsEnsured(ctx, answers, settled)) == Filter(done, IsEnsured(ctx, answers, settled));
    }
  }

  predicate InstancesTallied(ctx: Context, answers: Answers, settled: set<string>, done: seq<DesiredInstance>,
                             start: CycleResult, result: CycleResult, failures: seq<FailedStep>) {
    && result == start.(ensured := InstanceTallies(ctx, answers, settled, done, Ensured),
                        failures := start.failures + InstanceTallies(ctx, answers, settled, done, FailedInstance))
    && |failures| == result.failures
  }

  function InstanceTallied(result: CycleResult, tally: InstanceTally): CycleResult {
    match tally
    case Skipped => result
    case Ensured => result.(ensured := result.ensured + 1)
    case FailedInstance => result.(failures := result.failures + 1)
  }

  lemma InstanceTallyStep(ctx: Context, answers: Answers, settled: set<string>, all: seq<DesiredInstance>,
                          i: nat, start: CycleResult, result: CycleResult, failures: seq<FailedStep>)
    requires i < |all| && InstancesTallied(ctx, answers, settled, all[..i], start, result, failures)
    ensures var tally := TallyOfInstance(ctx, answers, settled)(all[i]);
            InstancesTallied(ctx, answers, settled, all[..i + 1], start, InstanceTallied(result, tally),
                             if tally.FailedInstance? then failures + [OnInstance(all[i].id)] else failures)
  {
    var done, d := all[..i], all[i];
    assert all[..i + 1] == done + [d];
    FilterAppend(done, d, InstanceTallyIs(ctx, answers, settled, Ensured));
    FilterAppend(done, d, InstanceTallyIs(ctx, answers, settled, FailedInstance));
  }

  /** Both loops together. */
  lemma CountersAreComplete(ctx: Context, answers: Answers, listed: seq<Resource>, managed: seq<Managed>,
                            desired: seq<DesiredInstance>, start: CycleResult, middle: CycleResult, result: CycleResult,
                            early: seq<FailedStep>, failures: seq<FailedStep>)
    requires |managed| <= |listed| && start == CycleResult(|desired|, |listed|, 0, 0, 0, 0, |listed| - |managed|, 0)
    requires ResourcesTallied(ctx, answers, managed, start, middle, early)
    requires InstancesTallied(ctx, answers, Settled(ctx, managed), desired, middle, result, failures)
    ensures result == ResultOf(ctx, answers, listed, managed, desired)
    ensures |failures| == result.failures
  {
  }

  lemma CallsComplete(ctx: Context, naming: Naming, answers: Answers, desired: seq<DesiredInstance>, managed: seq<Managed>,
                      handled: set<string>, blocked: set<string>, resources: seq<Resource>, calls: seq<Call>, made: seq<Call>,
                      resourcesThen: seq<Resource>, added: seq<Resource>, later: seq<Call>)
    requires ResourcesHandled(ctx, answers, resources, managed, handled, blocked, made, resourcesThen)
    requires InstancesHandled(ctx, answers, naming, Settled(ctx, managed), desired, later, added)
    ensures calls + made + later == calls + CycleCalls(ctx, answers, managed, desired)
  {
    assert calls + made + later == calls + (made + later);
  }

  lemma ResourcesComplete(ctx: Context, naming: Naming, answers: Answers, desired: seq<DesiredInstance>, managed: seq<Managed>,
                          handled: set<string>, blocked: set<string>, resources: seq<Resource>, made: seq<Call>,
                          resourcesThen: seq<Resource>, added: seq<Resource>, later: seq<Call>)
    requires ResourcesHandled(ctx, answers, resources, managed, handled, blocked, made, resourcesThen)
    requires InstancesHandled(ctx, answers, naming, Settled(ctx, managed), desired, later, added)
    ensures resourcesThen + added == ResourcesAfter(ctx, answers, naming, resources, managed, desired)
  {
  }

  lemma LoopsComplete(ctx: Context, naming: Naming, answers: Answers, desired: seq<DesiredInstance>,
                      managed: seq<Managed>, handled: set<string>, blocked: set<string>, resources: seq<Resource>,
                      calls: seq<Call>, made: seq<Call>, resourcesThen: seq<Resource>, added: seq<Resource>,
                      resourcesNow: seq<Resource>, later: seq<Call>, callsNow: seq<Call>)
    requires ResourcesHandled(ctx, answers, resources, managed, handled, blocked, made, resourcesThen)
    requires InstancesHandled(ctx, answers, naming, Settled(ctx, managed), desired, later, added)
    requires callsNow == calls + made + later && resourcesNow == resourcesThen + added
    ensures callsNow == calls + CycleCalls(ctx, answers, managed, desired)
    ensures resourcesNow == ResourcesAfter(ctx, answers, naming, resources, managed, desired)
  {
    assert callsNow == calls + CycleCalls(ctx, answers, managed, desired) by {
      CallsComplete(ctx, naming, answers, desired, managed, handled, blocked, resources, calls, made, resourcesThen, added, later);
    }
    ResourcesComplete(ctx, naming, answers, desired, managed, handled, blocked, resources, made, resourcesThen, added, later);
  }

  class Reconciler {
    const platformId: string
    const naming: Naming
    /** What the providers run, and every call made so far. */
    var resources: seq<Resource>
    var calls: seq<Call>

    constructor (platformId: string, naming: Naming, resources: seq<Resource>)
      ensures this.platformId == platformId && this.naming == naming && this.resources == resources && calls == []
    {
      this.platformId := platformId;
      this.naming := naming;
      this.resources := resources;
      calls := [];
    }

    // ---- Providers and store ----

    method CallDestroy(answers: Answers, key: InstanceKey) returns (state: Option<ObservedState>)
      modifies this`calls, this`resources
      ensures state == answers.observes(DestroyCall(key))
      ensures calls == old(calls) + [DestroyCall(key)]
      ensures resources == if state == Some(Stopped)
                           then Filter(old(resources), Survives(platformId, {IdentityKey(key)})) else old(resources)
    {
      state := answers.observes(DestroyCall(key));
      calls := calls + [DestroyCall(key)];
      if state == Some(Stopped) {
        resources := Filter(resources, Survives(platformId, {IdentityKey(key)}));
      }
    }

    method CallEnsure(answers: Answers, d: DesiredInstance, call: Call) returns (state: Option<ObservedState>)
      modifies this`calls, this`resources
      ensures state == answers.observes(call)
      ensures calls == old(calls) + [call]
      ensures resources == old(resources) + (if state.Some? then [Created(platformId, naming)(d)] else [])
    {
      state := answers.observes(call);
      calls := calls + [call];
      if state.Some? {
        resources := resources + [Created(platformId, naming)(d)];
      }
    }

    /** A write to the store: a recorded observation or a reported orphan. */
    method Write(answers: Answers, call: Call) returns (accepted: bool)
      modifies this`calls
      ensures accepted == answers.accepts(call)
      ensures calls == old(calls) + [call]
    {
      accepted := answers.accepts(call);
      calls := calls + [call];
    }

    method ReportOrphan(answers: Answers, m: Managed, reason: Reason) returns (tally: Tally)
      modifies this`calls
      ensures calls == old(calls) + [ReportCall(m, reason)]
      ensures tally == if answers.accepts(ReportCall(m, reason)) then Orphan else FailedResource
    {
      var accepted := Write(answers, ReportCall(m, reason));
      tally := if accepted then Orphan else FailedResource;
    }

    // ---- The cycle ----

    /** Sorts out what is not ours and counts identities. */
    method ManageResources(listed: seq<Resource>)
      returns (managed: seq<Managed>, identityCounts: map<string, nat>, unmanaged: nat)
      ensures managed == ManagedOf(platformId, listed)
      ensures Counts(identityCounts, managed)
      ensures unmanaged + |managed| == |listed|
    {
      managed, identityCounts, unmanaged := [], map[], 0;
      for i := 0 to |listed|
        invariant managed == ManagedOf(platformId, listed[..i])
        invariant Counts(identityCounts, managed)
        invariant unmanaged + |managed| == i
      {
        assert listed[..i + 1][..i] == listed[..i];
        var m := Manage(platformId, listed[i]);
        if m.None? {
          unmanaged := unmanaged + 1;
        } else {
          CountsStep(identityCounts, managed, m.value);
          managed := managed + [m.value];
          identityCounts := identityCounts[Identity(m.value) := CountIn(identityCounts, Identity(m.value)) + 1];
        }
      }
      assert listed[..|listed|] == listed;
    }

    /** Indexes the desired instances, or stops at the first invalid one. */
    method IndexDesired(desired: seq<DesiredInstance>) returns (result: Result<map<string, DesiredInstance>, string>)
      ensures result.Success? <==> forall d | d in desired :: DesiredOk(d)
      ensures result.Success? ==> result.value == DesiredById(desired)
      ensures result.Failure? ==>
                exists i | 0 <= i < |desired| ::
                  !DesiredOk(desired[i]) && result.error == desired[i].id && forall d | d in desired[..i] :: DesiredOk(d)
    {
      var byId: map<string, DesiredInstance> := map[];
      for i := 0 to |desired|
        invariant forall d | d in desired[..i] :: DesiredOk(d)
        invariant byId == DesiredById(desired[..i])
      {
        assert desired[..i + 1] == desired[..i] + [desired[i]];
        if !DesiredOk(desired[i]) {
          assert desired[i] in desired;
          return Failure(desired[i].id);
        }
        byId := byId[desired[i].id := desired[i]];
      }
      assert desired[..|desired|] == desired;
      return Success(byId);
    }

    /** One turn of the first loop. */
    method HandleResource(ghost ctx: Context, answers: Answers, byId: map<string, DesiredInstance>,
                          identityCounts: map<string, nat>, now: int, m: Managed)
      returns (tally: Tally, handles: bool, blocks: bool)
      requires ctx == Context(platformId, byId, ctx.duplicates, now)
      requires CountIn(identityCounts, Identity(m)) > 1 <==> Identity(m) in ctx.duplicates
      modifies this`calls, this`resources
      ensures tally == ResourceTally(ctx, answers)(m)
      ensures handles == Handles(VerdictOf(ctx, m)) && blocks == Blocks(VerdictOf(ctx, m))
      ensures calls == old(calls) + ResourceCalls(ctx, answers)(m)
      ensures resources == Filter(old(resources), Survives(platformId, RemovedBy(ctx, answers, m)))
    {
      handles, blocks := false, false;
      AllSurvive(platformId, resources);
      if m.ownership.instance !in byId {
        assert VerdictOf(ctx, m) == Report(UnknownInstance);
        tally := ReportOrphan(answers, m, UnknownInstance);
        return;
      }
      var d := byId[m.ownership.instance];
      var reason := if CountIn(identityCounts, Identity(m)) > 1 then Some(DuplicateIdentity)
                    else if m.resource.provider != d.provider then Some(ProviderMismatch)
                    else if !SameOwner(m.ownership, OwnershipOf(platformId, d)) then Some(IdentityMismatch)
                    else if m.ownership.generation > d.desiredGeneration then Some(FutureGeneration)
                    else None;
      if reason.Some? {
        blocks := true;
        assert VerdictOf(ctx, m) == Report(reason.value);
        tally := ReportOrphan(answers, m, reason.value);
        return;
      }
      if m.ownership.generation < d.desiredGeneration {
        var state := CallDestroy(answers, m.ownership);
        tally := if state == Some(Stopped) then Destroyed else FailedResource;
        return;
      }
      handles := true;
      tally := HandleCurrent(ctx, answers, d, now, m);
    }

    /** A resource of the current generation is destroyed when its instance should stop, and else inspected. */
    method HandleCurrent(ghost ctx: Context, answers: Answers, d: DesiredInstance, now: int, m: Managed) returns (tally: Tally)
      requires ctx.platform == platformId && ctx.now == now && m.ownership.instance in ctx.byId
      requires d == ctx.byId[m.ownership.instance]
      requires VerdictOf(ctx, m) == if ShouldStop(d, now) then DestroyCurrent else Inspect
      modifies this`calls, this`resources
      ensures tally == ResourceTally(ctx, answers)(m)
      ensures calls == old(calls) + ResourceCalls(ctx, answers)(m)
      ensures resources == Filter(old(resources), Survives(platformId, RemovedBy(ctx, answers, m)))
    {
      AllSurvive(platformId, resources);
      if ShouldStop(d, now) {
        var state := CallDestroy(answers, m.ownership);
        if state != Some(Stopped) {
          return FailedResource;
        }
        var accepted := Write(answers, Record(d, m.resource.resourceId, Stopped));
        tally := if accepted then Destroyed else FailedResource;
      } else {
        var state := answers.observes(InspectCall(m.ownership));
        calls := calls + [InspectCall(m.ownership)];
        if state.None? {
          return FailedResource;
        }
        var accepted := Write(answers, Record(d, m.resource.resourceId, state.value));
        tally := if accepted then Inspected else FailedResource;
      }
    }

    /** One turn of the second loop. */
    method HandleInstance(ghost ctx: Context, answers: Answers, now: int, handled: set<string>, blocked: set<string>,
                          d: DesiredInstance)
      returns (tally: InstanceTally)
      requires ctx.platform == platformId && ctx.now == now && DesiredOk(d)
      modifies this`calls, this`resources
      ensures tally == TallyOfInstance(ctx, answers, handled + blocked)(d)
      ensures calls == old(calls) + InstanceCalls(ctx, answers, handled + blocked)(d)
      ensures resources == old(resources)
                           + (if IsEnsured(ctx, answers, handled + blocked)(d) then [Created(platformId, naming)(d)] else [])
    {
      if d.id in handled || d.id in blocked {
        return Skipped;
      }
      if ShouldStop(d, now) {
        if AlreadyRecorded(d) {
          return Skipped;
        }
        var accepted := Write(answers, Record(d, d.providerResourceId, Stopped));
        tally := if accepted then Skipped else FailedInstance;
        return;
      }
      var call := EnsureCall(OwnershipOf(platformId, d), d.runtimeSpec.value, d.expiresAt);
      assert call == Ensure(ctx, d);
      var state := CallEnsure(answers, d, call);
      if state.None? {
        return FailedInstance;
      }
      var accepted := Write(answers, Record(d, d.providerResourceId, state.value));
      tally := if accepted then Ensured else FailedInstance;
    }

    /** The turn with its marks. */
    method MarkInstance(ghost ctx: Context, answers: Answers, byId: map<string, DesiredInstance>,
                        identityCounts: map<string, nat>, now: int, m: Managed, handled: set<string>, blocked: set<string>,
                        ghost origin: seq<Resource>, ghost done: seq<Managed>, ghost made: seq<Call>)
      returns (tally: Tally, handledNow: set<string>, blockedNow: set<string>)
      requires ctx == Context(platformId, byId, ctx.duplicates, now)
      requires CountIn(identityCounts, Identity(m)) > 1 <==> Identity(m) in ctx.duplicates
      requires ResourcesHandled(ctx, answers, origin, done, handled, blocked, made, resources)
      modifies this`calls, this`resources
      ensures tally == ResourceTally(ctx, answers)(m)
      ensures ResourcesHandled(ctx, answers, origin, done + [m], handledNow, blockedNow, made + ResourceCalls(ctx, answers)(m),
                               resources)
      ensures calls == old(calls) + ResourceCalls(ctx, answers)(m)
    {
      ghost var resourcesThen := resources;
      var handles, blocks;
      tally, handles, blocks := HandleResource(ctx, answers, byId, identityCounts, now, m);
      ResourceStep(ctx, answers, origin, done, m, handled, blocked, made, resourcesThen, handles, blocks, resources);
      handledNow := if handles then handled + {m.ownership.instance} else handled;
      blockedNow := if blocks then blocked + {m.ownership.instance} else blocked;
    }

    /** The counter of the turn, and its error. */
    method CountResource(ghost ctx: Context, ghost answers: Answers, m: Managed, tally: Tally, ghost done: seq<Managed>,
                         ghost start: CycleResult, result: CycleResult, failures: seq<FailedStep>)
      returns (resultNow: CycleResult, failuresNow: seq<FailedStep>)
      requires tally == ResourceTally(ctx, answers)(m) && ResourcesTallied(ctx, answers, done, start, result, failures)
      ensures ResourcesTallied(ctx, answers, done + [m], start, resultNow, failuresNow)
    {
      TallyStep(ctx, answers, done, m, start, result, failures);
      resultNow := Tallied(result, tally);
      failuresNow := if tally.FailedResource? then failures + [OnResource(m)] else failures;
    }

    /** The turn with its bookkeeping. */
    method TakeResource(ghost ctx: Context, answers: Answers, byId: map<string, DesiredInstance>,
                        identityCounts: map<string, nat>, now: int, m: Managed, handled: set<string>, blocked: set<string>,
                        result: CycleResult, failures: seq<FailedStep>, ghost start: CycleResult, ghost origin: seq<Resource>,
                        ghost done: seq<Managed>, ghost before: seq<Call>, ghost made: seq<Call>)
      returns (handledNow: set<string>, blockedNow: set<string>, resultNow: CycleResult, failuresNow: seq<FailedStep>,
               ghost madeNow: seq<Call>)
      requires ctx == Context(platformId, byId, ctx.duplicates, now)
      requires CountIn(identityCounts, Identity(m)) > 1 <==> Identity(m) in ctx.duplicates
      requires ResourcesHandled(ctx, answers, origin, done, handled, blocked, made, resources) && calls == before + made
      requires ResourcesTallied(ctx, answers, done, start, result, failures)
      modifies this`calls, this`resources
      ensures ResourcesHandled(ctx, answers, origin, done + [m], handledNow, blockedNow, madeNow, resources)
      ensures calls == before + madeNow
      ensures ResourcesTallied(ctx, answers, done + [m], start, resultNow, failuresNow)
    {
      var tally;
      tally, handledNow, blockedNow := MarkInstance(
        ctx, answers, byId, identityCounts, now, m, handled, blocked, origin, done, made);
      madeNow := made + ResourceCalls(ctx, answers)(m);
      resultNow, failuresNow := CountResource(ctx, answers, m, tally, done, start, result, failures);
    }

    /** The same for the next resource of a list. */
    method TakeNext(ghost ctx: Context, answers: Answers, byId: map<string, DesiredInstance>,
                    identityCounts: map<string, nat>, now: int, managed: seq<Managed>, i: nat, handled: set<string>,
                    blocked: set<string>, result: CycleResult, failures: seq<FailedStep>, ghost start: CycleResult,
                    ghost origin: seq<Resource>, ghost before: seq<Call>, ghost made: seq<Call>)
      returns (handledNow: set<string>, blockedNow: set<string>, resultNow: CycleResult, failuresNow: seq<FailedStep>,
               ghost madeNow: seq<Call>)
      requires i < |managed| && ctx == Context(platformId, byId, Duplicates(managed), now) && Counts(identityCounts, managed)
      requires ResourcesHandled(ctx, answers, origin, managed[..i], handled, blocked, made, resources) && calls == before + made
      requires ResourcesTallied(ctx, answers, managed[..i], start, result, failures)
      modifies this`calls, this`resources
      ensures ResourcesHandled(ctx, answers, origin, managed[..i + 1], handledNow, blockedNow, madeNow, resources)
      ensures calls == before + madeNow
      ensures ResourcesTallied(ctx, answers, managed[..i + 1], start, resultNow, failuresNow)
    {
      assert managed[i] in managed;
      assert managed[..i + 1] == managed[..i] + [managed[i]];
      DuplicatesCount(managed, managed[i]);
      handledNow, blockedNow, resultNow, failuresNow, madeNow := TakeResource(
        ctx, answers, byId, identityCounts, now, managed[i], handled, blocked, result, failures, start, origin, managed[..i],
        before, made);
    }

    method FirstLoop(ghost ctx: Context, answers: Answers, byId: map<string, DesiredInstance>,
                     identityCounts: map<string, nat>, now: int, managed: seq<Managed>, start: CycleResult)
      returns (result: CycleResult, failures: seq<FailedStep>, handled: set<string>, blocked: set<string>,
               ghost made: seq<Call>)
      requires ctx == Context(platformId, byId, Duplicates(managed), now) && Counts(identityCounts, managed)
      requires start.orphans == start.destroyed == start.inspected == start.failures == 0
      modifies this`calls, this`resources
      ensures ResourcesHandled(ctx, answers, old(resources), managed, handled, blocked, made, resources)
      ensures calls == old(calls) + made
      ensures ResourcesTallied(ctx, answers, managed, start, result, failures)
    {
      result, failures, handled, blocked, made := start, [], {}, {}, [];
      ghost var before, origin := calls, resources;
      NothingHandled(ctx, answers, resources);
      assert managed[..0] == [];
      for i := 0 to |managed|
        invariant ResourcesHandled(ctx, answers, origin, managed[..i], handled, blocked, made, resources)
        invariant calls == before + made
        invariant ResourcesTallied(ctx, answers, managed[..i], start, result, failures)
      {
        handled, blocked, result, failures, made := TakeNext(
          ctx, answers, byId, identityCounts, now, managed, i, handled, blocked, result, failures, start, origin, before, made);
      }
      assert managed[..|managed|] == managed;
    }

    /** The turn of the second loop with its bookkeeping. */
    method TakeInstance(ghost ctx: Context, answers: Answers, now: int, desired: seq<DesiredInstance>, i: nat,
                        handled: set<string>, blocked: set<string>, result: CycleResult, failures: seq<FailedStep>,
                        ghost start: CycleResult, ghost before: seq<Call>, ghost origin: seq<Resource>, ghost made: seq<Call>,
                        ghost added: seq<Resource>)
      returns (resultNow: CycleResult, failuresNow: seq<FailedStep>, ghost madeNow: seq<Call>, ghost addedNow: seq<Resource>)
      requires i < |desired| && ctx.platform == platformId && ctx.now == now && DesiredOk(desired[i])
      requires InstancesHandled(ctx, answers, naming, handled + blocked, desired[..i], made, added)
      requires calls == before + made && resources == origin + added
      requires InstancesTallied(ctx, answers, handled + blocked, desired[..i], start, result, failures)
      modifies this`calls, this`resources
      ensures InstancesHandled(ctx, answers, naming, handled + blocked, desired[..i + 1], madeNow, addedNow)
      ensures calls == before + madeNow && resources == origin + addedNow
      ensures InstancesTallied(ctx, answers, handled + blocked, desired[..i + 1], start, resultNow, failuresNow)
    {
      var d := desired[i];
      ghost var settled := handled + blocked;
      InstanceStep(ctx, answers, naming, settled, desired, i, made, added);
      InstanceTallyStep(ctx, answers, settled, desired, i, start, result, failures);
      var tally := HandleInstance(ctx, answers, now, handled, blocked, d);
      madeNow := made + InstanceCalls(ctx, answers, settled)(d);
      addedNow := added + (if IsEnsured(ctx, answers, settled)(d) then [Created(platformId, naming)(d)] else []);
      resultNow := InstanceTallied(result, tally);
      failuresNow := if tally.FailedInstance? then failures + [OnInstance(d.id)] else failures;
    }

    method SecondLoop(ghost ctx: Context, answers: Answers, now: int, desired: seq<DesiredInstance>,
                      handled: set<string>, blocked: set<string>, start: CycleResult, sofar: seq<FailedStep>)
      returns (result: CycleResult, failures: seq<FailedStep>, ghost made: seq<Call>, ghost added: seq<Resource>)
      requires ctx.platform == platformId && ctx.now == now && forall d | d in desired :: DesiredOk(d)
      requires start.ensured == 0 && start.failures == |sofar|
      modifies this`calls, this`resources
      ensures InstancesHandled(ctx, answers, naming, handled + blocked, desired, made, added)
      ensures calls == old(calls) + made && resources == old(resources) + added
      ensures InstancesTallied(ctx, answers, handled + blocked, desired, start, result, failures)
    {
      result, failures, made, added := start, sofar, [], [];
      ghost var settled := handled + blocked;
      ghost var before, origin := calls, resources;
      assert desired[..0] == [];
      for i := 0 to |desired|
        invariant InstancesHandled(ctx, answers, naming, settled, desired[..i], made, added)
        invariant calls == before + made && resources == origin + added
        invariant InstancesTallied(ctx, answers, settled, desired[..i], start, result, failures)
      {
        assert desired[i] in desired;
        result, failures, made, added := TakeInstance(
          ctx, answers, now, desired, i, handled, blocked, result, failures, start, before, origin, made, added);
      }
      assert desired[..|desired|] == desired;
    }

    /** Both loops over valid input. */
    method RunLoops(desired: seq<DesiredInstance>, byId: map<string, DesiredInstance>, answers: Answers, now: int)
      returns (result: CycleResult, failures: seq<FailedStep>)
      requires byId == DesiredById(desired) && forall d | d in desired :: DesiredOk(d)
      modifies this`calls, this`resources
      ensures Completed(platformId, naming, answers, desired, now, old(resources), old(calls), resources, calls, result)
      ensures |failures| == result.failures
    {
      var listed := resources;
      var managed, identityCounts, unmanaged := ManageResources(listed);
      var start := CycleResult(|desired|, |listed|, 0, 0, 0, 0, unmanaged, 0);
      ghost var ctx := ContextOf(platformId, desired, managed, now);
      var middle, early, handled, blocked;
      ghost var made;
      middle, early, handled, blocked, made := FirstLoop(ctx, answers, byId, identityCounts, now, managed, start);
      ghost var resourcesThen := resources;
      ghost var later, added;
      result, failures, later, added := SecondLoop(ctx, answers, now, desired, handled, blocked, middle, early);
      assert handled + blocked == Settled(ctx, managed);
      CountersAreComplete(ctx, answers, listed, managed, desired, start, middle, result, early, failures);
      LoopsComplete(ctx, naming, answers, desired, managed, handled, blocked, listed, old(calls), made, resourcesThen, added,
                    resources, later, calls);
    }

    /** One cycle; `None` stands for a listing that fails. */
    method Cycle(desired: Option<seq<DesiredInstance>>, listing: bool, answers: Answers, now: int)
      returns (result: CycleResult, error: Option<CycleError>)
      modifies this`calls, this`resources
      ensures error == Some(DesiredUnavailable) <==> desired.None?
      ensures error == Some(ResourcesUnavailable) <==> desired.Some? && !listing
      ensures desired.Some? && listing ==>
                ((exists d | d in desired.value :: !DesiredOk(d)) <==> error.Some? && error.value.InvalidDesired?)
      ensures Ran(desired, listing) ==>
                Completed(platformId, naming, answers, desired.value, now, old(resources), old(calls), resources, calls, result)
      ensures Ran(desired, listing) ==>
                if result.failures == 0 then error.None?
                else error.Some? && error.value.Failures? && |error.value.steps| == result.failures
      ensures !Ran(desired, listing) ==> calls == old(calls) && resources == old(resources)
    {
      result := CycleResult(0, 0, 0, 0, 0, 0, 0, 0);
      if desired.None? {
        return result, Some(DesiredUnavailable);
      }
      if !listing {
        return result, Some(ResourcesUnavailable);
      }
      result := result.(desired := |desired.value|, resources := |resources|);
      var byId := IndexDesired(desired.value);
      if byId.Failure? {
        return result, Some(InvalidDesired(byId.error));
      }
      var failures;
      result, failures := RunLoops(desired.value, byId.value, answers, now);
      error := if failures == [] then None else Some(Failures(failures));
    }
  }

  /** Both lists arrived and every desired instance is valid. */
  predicate Ran(desired: Option<seq<DesiredInstance>>, listing: bool) {
    desired.Some? && listing && forall d | d in desired.value :: DesiredOk(d)
  }

  /** The effect of a whole cycle, as the plan foresees it. */
  ghost predicate Completed(platform: string, naming: Naming, answers: Answers, desired: seq<DesiredInstance>, now: int,
                            resources: seq<Resource>, calls: seq<Call>, resourcesNow: seq<Resource>, callsNow: seq<Call>,
                            result: CycleResult) {
    var managed := ManagedOf(platform, resources);
    var ctx := ContextOf(platform, desired, managed, now);
    && callsNow == calls + CycleCalls(ctx, answers, managed, desired)
    && resourcesNow == ResourcesAfter(ctx, answers, naming, resources, managed, desired)
    && result == ResultOf(ctx, answers, resources, managed, desired)
  }
}
