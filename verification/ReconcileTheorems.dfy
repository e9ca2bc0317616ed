/** What a reconciliation cycle may do, and that a second one has nothing left to do. */
module ReconcileTheorems {
  import opened Wrappers
  import opened Ordering
  import opened Providers
  import opened ReconcilePlan

  // ---- Lists behind each other ----

  lemma {:induction false} FlatMembers<T, U>(s: seq<T>, f: T -> seq<U>, y: U)
    ensures y in Flat(s, f) <==> exists x | x in s :: y in f(x)
  {
    if s != [] {
      var front, last := s[..|s| - 1], s[|s| - 1];
      assert s == front + [last];
      assert forall x :: x in s <==> x in front || x == last;
      FlatMembers(front, f, y);
    }
  }

  lemma FlatAppend<T, U>(s: seq<T>, x: T, f: T -> seq<U>)
    ensures Flat(s + [x], f) == Flat(s, f) + f(x)
  {
    assert (s + [x])[..|s|] == s;
  }

  lemma {:induction false} FlatConcat<T, U>(s: seq<T>, t: seq<T>, f: T -> seq<U>)
    ensures Flat(s + t, f) == Flat(s, f) + Flat(t, f)
  {
    if t == [] {
      assert s + t == s;
    } else {
      var front, last := t[..|t| - 1], t[|t| - 1];
      FlatConcat(s, front, f);
      assert t == front + [last] && s + t == (s + front) + [last];
      FlatAppend(s + front, last, f);
      FlatAppend(front, last, f);
      assert Flat(s, f) + (Flat(front, f) + f(last)) == (Flat(s, f) + Flat(front, f)) + f(last);
    }
  }

  lemma {:induction false} FlatIgnoresOrder<T, U>(a: seq<T>, b: seq<T>, f: T -> seq<U>)
    requires multiset(a) == multiset(b)
    ensures multiset(Flat(a, f)) == multiset(Flat(b, f))
    decreases |a|
  {
    if a == [] {
      assert |multiset(b)| == 0;
    } else {
      var front, last := a[..|a| - 1], a[|a| - 1];
      var left, right := SplitAtLast(a, b);
      FlatIgnoresOrder(front, left + right, f);
      FlatConcat(left, right, f);
      FlatConcat(left + [last], right, f);
      FlatAppend(left, last, f);
    }
  }

  lemma {:induction false} FlatSelects<T, U>(s: seq<T>, f: T -> seq<U>, p: U -> bool, q: T -> bool)
    requires forall x | x in s :: |Filter(f(x), p)| <= if q(x) then 1 else 0
    ensures |Filter(Flat(s, f), p)| <= |Filter(s, q)|
  {
    if s != [] {
      var front, last := s[..|s| - 1], s[|s| - 1];
      assert s == front + [last];
      assert last in s;
      assert forall x | x in front :: x in s;
      FlatSelects(front, f, p, q);
      FilterConcat(Flat(front, f), f(last), p);
      FilterAppend(front, last, q);
    }
  }

  // ---- Facts about the plan ----

  ghost predicate DistinctInstances(desired: seq<DesiredInstance>) {
    forall i, j | 0 <= i < j < |desired| :: desired[i].id != desired[j].id
  }

  /** The index lists exactly the desired instances. */
  lemma {:induction false} IndexIsExact(desired: seq<DesiredInstance>)
    requires DistinctInstances(desired)
    ensures forall d | d in desired :: d.id in DesiredById(desired) && DesiredById(desired)[d.id] == d
    ensures forall id | id in DesiredById(desired) :: DesiredById(desired)[id] in desired && DesiredById(desired)[id].id == id
  {
    if desired != [] {
      var front, last := desired[..|desired| - 1], desired[|desired| - 1];
      assert desired == front + [last];
      IndexIsExact(front);
      assert forall d | d in front :: d.id != last.id;
    }
  }

  lemma {:induction false} ManagedAreParsed(platform: string, resources: seq<Resource>)
    ensures forall m | m in ManagedOf(platform, resources) ::
              m.resource in resources && Manage(platform, m.resource) == Some(m)
    ensures forall r | r in resources && Manage(platform, r).Some? :: Manage(platform, r).value in ManagedOf(platform, resources)
  {
    if resources != [] {
      assert resources == resources[..|resources| - 1] + [resources[|resources| - 1]];
      ManagedAreParsed(platform, resources[..|resources| - 1]);
    }
  }

  /** A parsed key is valid and carries the resource's own provider. */
  lemma ParsedKey(platform: string, r: Resource, m: Managed)
    requires Manage(platform, r) == Some(m)
    ensures m.resource == r && m.ownership.provider == r.provider && m.ownership.platform == platform && ValidKey(m.ownership)
  {
    ParseAcceptsItsNames(r.labels, platform, r.provider, m.ownership);
  }

  lemma {:induction false} CountedOnce<T>(s: seq<T>, f: T -> bool, x: T)
    requires x in s && f(x)
    ensures |Filter(s, f)| >= 1
  {
    FilterMembers(s, f);
    assert x in Filter(s, f);
  }

  /** All that the theorems need to know of the input of a cycle. */
  ghost predicate Sees(ctx: Context, desired: seq<DesiredInstance>, resources: seq<Resource>, managed: seq<Managed>) {
    && DistinctInstances(desired)
    && managed == ManagedOf(ctx.platform, resources)
    && ctx == ContextOf(ctx.platform, desired, managed, ctx.now)
  }

  /** The identity of a managed resource is its own alone. */
  predicate Unique(managed: seq<Managed>, m: Managed) {
    IdentityCount(managed, Identity(m)) == 1
  }

  lemma UniqueOrDuplicate(managed: seq<Managed>, m: Managed)
    requires m in managed
    ensures Unique(managed, m) <==> Identity(m) !in Duplicates(managed)
  {
    CountedOnce(managed, HasIdentity(Identity(m)), m);
  }

  // ---- When a resource is destroyed, when an instance is ensured ----

  /** The resource is exactly what the instance's labels say, apart from its generation. */
  predicate BelongsTo(managed: seq<Managed>, m: Managed, d: DesiredInstance) {
    && Unique(managed, m)
    && m.ownership.instance == d.id && m.resource.provider == d.provider
    && m.ownership.contest == d.contest && m.ownership.challenge == d.challenge && m.ownership.team == d.team
  }

  predicate MayDestroy(managed: seq<Managed>, m: Managed, d: DesiredInstance, now: int) {
    && BelongsTo(managed, m, d)
    && (m.ownership.generation < d.desiredGeneration || (m.ownership.generation == d.desiredGeneration && ShouldStop(d, now)))
  }

  lemma VerdictMeaning(ctx: Context, desired: seq<DesiredInstance>, resources: seq<Resource>, managed: seq<Managed>,
                       m: Managed, d: DesiredInstance)
    requires Sees(ctx, desired, resources, managed) && m in managed && d in desired && m.ownership.instance == d.id
    ensures VerdictOf(ctx, m).DestroyStale? <==> BelongsTo(managed, m, d) && m.ownership.generation < d.desiredGeneration
    ensures VerdictOf(ctx, m).DestroyCurrent? <==>
              BelongsTo(managed, m, d) && m.ownership.generation == d.desiredGeneration && ShouldStop(d, ctx.now)
    ensures VerdictOf(ctx, m).Inspect? <==>
              BelongsTo(managed, m, d) && m.ownership.generation == d.desiredGeneration && !ShouldStop(d, ctx.now)
    ensures !Blocks(VerdictOf(ctx, m)) <==> BelongsTo(managed, m, d) && m.ownership.generation <= d.desiredGeneration
  {
    IndexIsExact(desired);
    UniqueOrDuplicate(managed, m);
  }

  lemma VerdictUnknown(ctx: Context, desired: seq<DesiredInstance>, resources: seq<Resource>, managed: seq<Managed>, m: Managed)
    requires Sees(ctx, desired, resources, managed)
    ensures VerdictOf(ctx, m) == Report(UnknownInstance) <==> forall d | d in desired :: d.id != m.ownership.instance
  {
    IndexIsExact(desired);
  }

  /** A managed resource costs one call, and a write only as the second. */
  lemma ResourceCallShape(ctx: Context, answers: Answers, m: Managed)
    ensures var calls, v := ResourceCalls(ctx, answers)(m), VerdictOf(ctx, m);
            && 1 <= |calls| <= 2
            && (v.Report? ==> calls[0] == ReportCall(m, v.reason))
            && (v.DestroyStale? || v.DestroyCurrent? ==> calls[0] == DestroyCall(m.ownership))
            && (v.Inspect? ==> calls[0] == InspectCall(m.ownership))
            && (|calls| == 2 ==>
                  && Handles(v) && m.ownership.instance in ctx.byId && calls[1].RecordCall?
                  && calls[1] == Record(ctx.byId[m.ownership.instance], m.resource.resourceId, calls[1].state)
                  && (v.DestroyCurrent? ==> calls[1].state == Stopped)
                  && (v.Inspect? ==> Some(calls[1].state) == answers.observes(InspectCall(m.ownership))))
  {
  }

  /** So does an instance that is left to the second loop; one that should stop costs at most the write. */
  lemma InstanceCallShape(ctx: Context, answers: Answers, settled: set<string>, d: DesiredInstance)
    ensures var calls := InstanceCalls(ctx, answers, settled)(d);
            && (d.id in settled ==> calls == [])
            && (ShouldStop(d, ctx.now) ==> calls == [] || calls == [Record(d, d.providerResourceId, Stopped)])
            && (d.id !in settled && !ShouldStop(d, ctx.now) ==>
                  && 1 <= |calls| <= 2 && calls[0] == Ensure(ctx, d)
                  && (|calls| == 2 ==>
                        && calls[1].RecordCall? && calls[1] == Record(d, d.providerResourceId, calls[1].state)
                        && Some(calls[1].state) == answers.observes(Ensure(ctx, d))))
  {
  }

  lemma TwoCalls(calls: seq<Call>, call: Call)
    requires |calls| <= 2
    ensures call in calls <==> (|calls| >= 1 && calls[0] == call) || (|calls| == 2 && calls[1] == call)
  {
  }

  lemma DestroyCalls(ctx: Context, answers: Answers, m: Managed, key: InstanceKey)
    ensures DestroyCall(key) in ResourceCalls(ctx, answers)(m) <==>
              m.ownership == key && (VerdictOf(ctx, m).DestroyStale? || VerdictOf(ctx, m).DestroyCurrent?)
  {
    ResourceCallShape(ctx, answers, m);
    TwoCalls(ResourceCalls(ctx, answers)(m), DestroyCall(key));
  }

  lemma NoDestroyCalls(ctx: Context, answers: Answers, settled: set<string>, d: DesiredInstance, key: InstanceKey)
    ensures DestroyCall(key) !in InstanceCalls(ctx, answers, settled)(d)
  {
    InstanceCallShape(ctx, answers, settled, d);
  }

  /** A verdict to destroy means that the plan allows it, and the other way round. */
  lemma DestroyVerdict(ctx: Context, desired: seq<DesiredInstance>, resources: seq<Resource>, managed: seq<Managed>, m: Managed)
    requires Sees(ctx, desired, resources, managed) && m in managed
    ensures VerdictOf(ctx, m).DestroyStale? || VerdictOf(ctx, m).DestroyCurrent? <==>
              exists d | d in desired :: MayDestroy(managed, m, d, ctx.now)
  {
    IndexIsExact(desired);
    if m.ownership.instance in ctx.byId {
      VerdictMeaning(ctx, desired, resources, managed, m, ctx.byId[m.ownership.instance]);
    }
    forall d | d in desired && MayDestroy(managed, m, d, ctx.now)
      ensures VerdictOf(ctx, m).DestroyStale? || VerdictOf(ctx, m).DestroyCurrent?
    {
      VerdictMeaning(ctx, desired, resources, managed, m, d);
    }
  }

  /** A cycle destroys a key exactly when a uniquely labelled resource of it is stale or no longer wanted. */
  lemma DestroyedExactly(ctx: Context, answers: Answers, desired: seq<DesiredInstance>, resources: seq<Resource>,
                         managed: seq<Managed>, key: InstanceKey)
    requires Sees(ctx, desired, resources, managed)
    ensures DestroyCall(key) in CycleCalls(ctx, answers, managed, desired) <==>
              exists m | m in managed :: m.ownership == key && exists d | d in desired :: MayDestroy(managed, m, d, ctx.now)
  {
    var call := DestroyCall(key);
    FlatMembers(managed, ResourceCalls(ctx, answers), call);
    FlatMembers(desired, InstanceCalls(ctx, answers, Settled(ctx, managed)), call);
    forall m | m in managed
      ensures call in ResourceCalls(ctx, answers)(m) <==>
                m.ownership == key && exists d | d in desired :: MayDestroy(managed, m, d, ctx.now)
    {
      DestroyCalls(ctx, answers, m, key);
      DestroyVerdict(ctx, desired, resources, managed, m);
    }
    forall d | d in desired
      ensures call !in InstanceCalls(ctx, answers, Settled(ctx, managed))(d)
    {
      NoDestroyCalls(ctx, answers, Settled(ctx, managed), d, key);
    }
  }

  /** Every resource that names the instance is a uniquely labelled older generation of it. */
  ghost predicate OnlyOlderGenerations(managed: seq<Managed>, d: DesiredInstance) {
    forall m | m in managed && m.ownership.instance == d.id ::
      BelongsTo(managed, m, d) && m.ownership.generation < d.desiredGeneration
  }

  lemma SettledExactly(ctx: Context, desired: seq<DesiredInstance>, resources: seq<Resource>, managed: seq<Managed>,
                       d: DesiredInstance)
    requires Sees(ctx, desired, resources, managed) && d in desired
    ensures d.id !in Settled(ctx, managed) <==> OnlyOlderGenerations(managed, d)
  {
    forall m | m in managed && m.ownership.instance == d.id
      ensures (Handles(VerdictOf(ctx, m)) || Blocks(VerdictOf(ctx, m)))
              <==> !(BelongsTo(managed, m, d) && m.ownership.generation < d.desiredGeneration)
    {
      VerdictMeaning(ctx, desired, resources, managed, m, d);
    }
  }

  lemma EnsureCalls(ctx: Context, answers: Answers, settled: set<string>, d: DesiredInstance, call: Call)
    requires call.EnsureCall?
    ensures call in InstanceCalls(ctx, answers, settled)(d) <==>
              Ensure(ctx, d) == call && !ShouldStop(d, ctx.now) && d.id !in settled
  {
    InstanceCallShape(ctx, answers, settled, d);
    if d.id !in settled && !ShouldStop(d, ctx.now) {
      TwoCalls(InstanceCalls(ctx, answers, settled)(d), call);
    }
  }

  lemma NoEnsureCalls(ctx: Context, answers: Answers, m: Managed, call: Call)
    requires call.EnsureCall?
    ensures call !in ResourceCalls(ctx, answers)(m)
  {
    ResourceCallShape(ctx, answers, m);
    TwoCalls(ResourceCalls(ctx, answers)(m), call);
  }

  /** A cycle ensures an instance exactly when it should run and nothing current, doubtful or newer carries its name. */
  lemma EnsuredExactly(ctx: Context, answers: Answers, desired: seq<DesiredInstance>, resources: seq<Resource>,
                       managed: seq<Managed>, call: Call)
    requires Sees(ctx, desired, resources, managed) && call.EnsureCall?
    ensures call in CycleCalls(ctx, answers, managed, desired) <==>
              exists d | d in desired ::
                Ensure(ctx, d) == call && !ShouldStop(d, ctx.now) && OnlyOlderGenerations(managed, d)
  {
    var settled := Settled(ctx, managed);
    FlatMembers(managed, ResourceCalls(ctx, answers), call);
    FlatMembers(desired, InstanceCalls(ctx, answers, settled), call);
    forall m | m in managed
      ensures call !in ResourceCalls(ctx, answers)(m)
    {
      NoEnsureCalls(ctx, answers, m, call);
    }
    forall d | d in desired
      ensures call in InstanceCalls(ctx, answers, settled)(d) <==>
                Ensure(ctx, d) == call && !ShouldStop(d, ctx.now) && OnlyOlderGenerations(managed, d)
    {
      EnsureCalls(ctx, answers, settled, d, call);
      SettledExactly(ctx, desired, resources, managed, d);
    }
  }

  /** Every managed resource that belongs to no desired instance, or is newer than one, is reported, and no other. */
  lemma ReportedExactly(ctx: Context, answers: Answers, desired: seq<DesiredInstance>, resources: seq<Resource>,
                        managed: seq<Managed>, m: Managed)
    requires Sees(ctx, desired, resources, managed)
    ensures (exists reason :: ReportCall(m, reason) in CycleCalls(ctx, answers, managed, desired)) <==>
              m in managed && forall d | d in desired && d.id == m.ownership.instance ::
                !(BelongsTo(managed, m, d) && m.ownership.generation <= d.desiredGeneration)
    ensures ReportCall(m, UnknownInstance) in CycleCalls(ctx, answers, managed, desired) <==>
              m in managed && forall d | d in desired :: d.id != m.ownership.instance
  {
    forall reason
      ensures ReportCall(m, reason) in CycleCalls(ctx, answers, managed, desired) <==>
                m in managed && VerdictOf(ctx, m) == Report(reason)
    {
      ReportCalls(ctx, answers, managed, desired, m, reason);
    }
    if m in managed {
      ReportVerdict(ctx, desired, resources, managed, m);
    }
  }

  lemma ReportCalls(ctx: Context, answers: Answers, managed: seq<Managed>, desired: seq<DesiredInstance>, m: Managed,
                    reason: Reason)
    ensures ReportCall(m, reason) in CycleCalls(ctx, answers, managed, desired) <==>
              m in managed && VerdictOf(ctx, m) == Report(reason)
  {
    var call := ReportCall(m, reason);
    FlatMembers(managed, ResourceCalls(ctx, answers), call);
    FlatMembers(desired, InstanceCalls(ctx, answers, Settled(ctx, managed)), call);
    forall x | x in managed
      ensures call in ResourceCalls(ctx, answers)(x) <==> x == m && VerdictOf(ctx, x) == Report(reason)
    {
      OneReport(ctx, answers, x, m, reason);
    }
    forall d | d in desired
      ensures call !in InstanceCalls(ctx, answers, Settled(ctx, managed))(d)
    {
      NoReportCalls(ctx, answers, Settled(ctx, managed), d, call);
    }
  }

  lemma OneReport(ctx: Context, answers: Answers, x: Managed, m: Managed, reason: Reason)
    ensures ReportCall(m, reason) in ResourceCalls(ctx, answers)(x) <==> x == m && VerdictOf(ctx, x) == Report(reason)
  {
    ResourceCallShape(ctx, answers, x);
    TwoCalls(ResourceCalls(ctx, answers)(x), ReportCall(m, reason));
  }

  lemma NoReportCalls(ctx: Context, answers: Answers, settled: set<string>, d: DesiredInstance, call: Call)
    requires call.ReportCall?
    ensures call !in InstanceCalls(ctx, answers, settled)(d)
  {
    InstanceCallShape(ctx, answers, settled, d);
  }

  lemma ReportVerdict(ctx: Context, desired: seq<DesiredInstance>, resources: seq<Resource>, managed: seq<Managed>, m: Managed)
    requires Sees(ctx, desired, resources, managed) && m in managed
    ensures VerdictOf(ctx, m).Report? <==>
              forall d | d in desired && d.id == m.ownership.instance ::
                !(BelongsTo(managed, m, d) && m.ownership.generation <= d.desiredGeneration)
    ensures VerdictOf(ctx, m) == Report(UnknownInstance) <==> forall d | d in desired :: d.id != m.ownership.instance
  {
    VerdictUnknown(ctx, desired, resources, managed, m);
    forall d | d in desired && d.id == m.ownership.instance
      ensures VerdictOf(ctx, m).Report? <==> !(BelongsTo(managed, m, d) && m.ownership.generation <= d.desiredGeneration)
    {
      VerdictMeaning(ctx, desired, resources, managed, m, d);
    }
  }

  /** What a cycle writes about an instance is about its desired generation: the providers' answer for its current
      resource, or for the one just ensured; and stopped, once it should stop. */
  lemma RecordsAreCurrent(ctx: Context, answers: Answers, desired: seq<DesiredInstance>, resources: seq<Resource>,
                          managed: seq<Managed>, call: Call)
    requires Sees(ctx, desired, resources, managed) && call.RecordCall?
    requires call in CycleCalls(ctx, answers, managed, desired)
    ensures exists d | d in desired ::
              && call.instance == d.id && call.generation == d.desiredGeneration
              && (ShouldStop(d, ctx.now) ==> call.state == Stopped)
              && (!ShouldStop(d, ctx.now) ==>
                    Some(call.state) == answers.observes(InspectCall(OwnershipOf(ctx.platform, d)))
                    || Some(call.state) == answers.observes(Ensure(ctx, d)))
              && (call.expectedResourceId == d.providerResourceId
                  || exists m | m in managed ::
                       BelongsTo(managed, m, d) && m.ownership.generation == d.desiredGeneration
                       && call.expectedResourceId == m.resource.resourceId)
  {
    FlatMembers(managed, ResourceCalls(ctx, answers), call);
    FlatMembers(desired, InstanceCalls(ctx, answers, Settled(ctx, managed)), call);
    if m :| m in managed && call in ResourceCalls(ctx, answers)(m) {
      RecordedResource(ctx, answers, m, call);
      IndexIsExact(desired);
      var d := ctx.byId[m.ownership.instance];
      VerdictMeaning(ctx, desired, resources, managed, m, d);
      ManagedAreParsed(ctx.platform, resources);
      ParsedKey(ctx.platform, m.resource, m);
    } else {
      var d :| d in desired && call in InstanceCalls(ctx, answers, Settled(ctx, managed))(d);
      RecordedInstance(ctx, answers, Settled(ctx, managed), d, call);
    }
  }

  lemma RecordedResource(ctx: Context, answers: Answers, m: Managed, call: Call)
    requires call.RecordCall? && call in ResourceCalls(ctx, answers)(m)
    ensures VerdictOf(ctx, m).DestroyCurrent? || VerdictOf(ctx, m).Inspect?
    ensures m.ownership.instance in ctx.byId
    ensures call == Record(ctx.byId[m.ownership.instance], m.resource.resourceId, call.state)
    ensures VerdictOf(ctx, m).DestroyCurrent? ==> call.state == Stopped
    ensures VerdictOf(ctx, m).Inspect? ==> Some(call.state) == answers.observes(InspectCall(m.ownership))
  {
    ResourceCallShape(ctx, answers, m);
    var calls := ResourceCalls(ctx, answers)(m);
    var i :| 0 <= i < |calls| && calls[i] == call;
    assert i == 1;
  }

  lemma RecordedInstance(ctx: Context, answers: Answers, settled: set<string>, d: DesiredInstance, call: Call)
    requires call.RecordCall? && call in InstanceCalls(ctx, answers, settled)(d)
    ensures call == Record(d, d.providerResourceId, call.state)
    ensures ShouldStop(d, ctx.now) ==> call.state == Stopped
    ensures !ShouldStop(d, ctx.now) ==> Some(call.state) == answers.observes(Ensure(ctx, d))
  {
    InstanceCallShape(ctx, answers, settled, d);
    var calls := InstanceCalls(ctx, answers, settled)(d);
    var i :| 0 <= i < |calls| && calls[i] == call;
    if !ShouldStop(d, ctx.now) {
      assert i == 1;
    }
  }

  // ---- The listing order does not matter ----

  function ManageList(platform: string): Resource -> seq<Managed> {
    (r: Resource) => if Manage(platform, r).Some? then [Manage(platform, r).value] else []
  }

  lemma {:induction false} ManagedIsFlat(platform: string, resources: seq<Resource>)
    ensures ManagedOf(platform, resources) == Flat(resources, ManageList(platform))
  {
    if resources != [] {
      ManagedIsFlat(platform, resources[..|resources| - 1]);
    }
  }

  lemma ContextIgnoresOrder(a: Context, b: Context, desired: seq<DesiredInstance>, desired': seq<DesiredInstance>,
                            resources: seq<Resource>, resources': seq<Resource>, managed: seq<Managed>, managed': seq<Managed>)
    requires Sees(a, desired, resources, managed) && Sees(b, desired', resources', managed')
    requires a.platform == b.platform && a.now == b.now
    requires multiset(desired) == multiset(desired') && multiset(managed) == multiset(managed')
    ensures a == b
  {
    IndexIsExact(desired);
    IndexIsExact(desired');
    SameMembers(desired, desired');
    forall id: string
      ensures id in a.byId <==> id in b.byId
      ensures id in a.byId ==> a.byId[id] == b.byId[id]
    {
    }
    assert a.byId == b.byId;
    DuplicatesIgnoreOrder(managed, managed');
  }

  lemma DuplicatesIgnoreOrder(managed: seq<Managed>, managed': seq<Managed>)
    requires multiset(managed) == multiset(managed')
    ensures Duplicates(managed) == Duplicates(managed')
  {
    SameMembers(managed, managed');
    forall key
      ensures IdentityCount(managed, key) == IdentityCount(managed', key)
    {
      SameCount(managed, managed', HasIdentity(key));
    }
  }

  lemma SameCount<T>(a: seq<T>, b: seq<T>, f: T -> bool)
    requires multiset(a) == multiset(b)
    ensures |Filter(a, f)| == |Filter(b, f)|
  {
    FilterIgnoresOrder(a, b, f);
    SameLength(Filter(a, f), Filter(b, f));
  }

  /** Two listings of the same things lead to the same calls, however often each, and to the same counters. */
  lemma CycleIgnoresOrder(a: Context, b: Context, answers: Answers, desired: seq<DesiredInstance>,
                          desired': seq<DesiredInstance>, resources: seq<Resource>, resources': seq<Resource>,
                          managed: seq<Managed>, managed': seq<Managed>)
    requires Sees(a, desired, resources, managed) && Sees(b, desired', resources', managed')
    requires a.platform == b.platform && a.now == b.now
    requires multiset(desired) == multiset(desired') && multiset(resources) == multiset(resources')
    ensures multiset(CycleCalls(a, answers, managed, desired)) == multiset(CycleCalls(b, answers, managed', desired'))
    ensures ResultOf(a, answers, resources, managed, desired) == ResultOf(b, answers, resources', managed', desired')
  {
    ManagedIsFlat(a.platform, resources);
    ManagedIsFlat(a.platform, resources');
    FlatIgnoresOrder(resources, resources', ManageList(a.platform));
    ContextIgnoresOrder(a, b, desired, desired', resources, resources', managed, managed');
    SettledIgnoresOrder(a, managed, managed');
    CallsIgnoreOrder(a, answers, desired, desired', managed, managed');
    CountersIgnoreOrder(a, answers, desired, desired', resources, resources', managed, managed');
  }

  lemma SettledIgnoresOrder(ctx: Context, managed: seq<Managed>, managed': seq<Managed>)
    requires multiset(managed) == multiset(managed')
    ensures Settled(ctx, managed) == Settled(ctx, managed')
  {
    SameMembers(managed, managed');
    assert HandledBy(ctx, managed) == HandledBy(ctx, managed');
    assert BlockedBy(ctx, managed) == BlockedBy(ctx, managed');
  }

  lemma CallsIgnoreOrder(ctx: Context, answers: Answers, desired: seq<DesiredInstance>, desired': seq<DesiredInstance>,
                         managed: seq<Managed>, managed': seq<Managed>)
    requires multiset(desired) == multiset(desired') && multiset(managed) == multiset(managed')
    requires Settled(ctx, managed) == Settled(ctx, managed')
    ensures multiset(CycleCalls(ctx, answers, managed, desired)) == multiset(CycleCalls(ctx, answers, managed', desired'))
  {
    FlatIgnoresOrder(managed, managed', ResourceCalls(ctx, answers));
    FlatIgnoresOrder(desired, desired', InstanceCalls(ctx, answers, Settled(ctx, managed)));
  }

  lemma CountersIgnoreOrder(ctx: Context, answers: Answers, desired: seq<DesiredInstance>, desired': seq<DesiredInstance>,
                            resources: seq<Resource>, resources': seq<Resource>, managed: seq<Managed>, managed': seq<Managed>)
    requires multiset(desired) == multiset(desired') && multiset(managed) == multiset(managed')
    requires multiset(resources) == multiset(resources') && |managed| <= |resources|
    requires Settled(ctx, managed) == Settled(ctx, managed')
    ensures |managed'| <= |resources'|
    ensures ResultOf(ctx, answers, resources, managed, desired) == ResultOf(ctx, answers, resources', managed', desired')
  {
    SameLength(desired, desired');
    SameLength(managed, managed');
    SameLength(resources, resources');
    SameCount(managed, managed', TallyIs(ctx, answers, Orphan));
    SameCount(managed, managed', TallyIs(ctx, answers, Destroyed));
    SameCount(managed, managed', TallyIs(ctx, answers, Inspected));
    SameCount(managed, managed', TallyIs(ctx, answers, FailedResource));
    SameCount(desired, desired', InstanceTallyIs(ctx, answers, Settled(ctx, managed), Ensured));
    SameCount(desired, desired', InstanceTallyIs(ctx, answers, Settled(ctx, managed), FailedInstance));
  }

  // ---- Counters and writes ----

  lemma TallyAppend(ctx: Context, answers: Answers, front: seq<Managed>, last: Managed, tally: Tally)
    ensures ResourceTallies(ctx, answers, front + [last], tally)
            == ResourceTallies(ctx, answers, front, tally) + (if ResourceTally(ctx, answers)(last) == tally then 1 else 0)
  {
    FilterAppend(front, last, TallyIs(ctx, answers, tally));
  }

  lemma {:induction false} TalliesAddUp(ctx: Context, answers: Answers, managed: seq<Managed>)
    ensures |managed| == ResourceTallies(ctx, answers, managed, Orphan) + ResourceTallies(ctx, answers, managed, Destroyed)
                         + ResourceTallies(ctx, answers, managed, Inspected)
                         + ResourceTallies(ctx, answers, managed, FailedResource)
  {
    if managed != [] {
      var front, last := managed[..|managed| - 1], managed[|managed| - 1];
      assert managed == front + [last];
      TalliesAddUp(ctx, answers, front);
      TallyAppend(ctx, answers, front, last, Orphan);
      TallyAppend(ctx, answers, front, last, Destroyed);
      TallyAppend(ctx, answers, front, last, Inspected);
      TallyAppend(ctx, answers, front, last, FailedResource);
    }
  }

  /** Every listed resource is counted once; what the counters miss are the failures of the second loop. */
  lemma ResourcesAreAccountedFor(ctx: Context, answers: Answers, desired: seq<DesiredInstance>, resources: seq<Resource>,
                                 managed: seq<Managed>)
    requires |managed| <= |resources|
    ensures var r := ResultOf(ctx, answers, resources, managed, desired);
            var later := InstanceTallies(ctx, answers, Settled(ctx, managed), desired, FailedInstance);
            r.resources == r.unmanaged + r.orphans + (r.failures - later) + r.destroyed + r.inspected
  {
    TalliesAddUp(ctx, answers, managed);
  }

  function RecordsFor(id: string): Call -> bool {
    (call: Call) => call.RecordCall? && call.instance == id
  }

  /** The resource settles the instance as its current one. */
  function HandlesFor(ctx: Context, id: string): Managed -> bool {
    (m: Managed) => m.ownership.instance == id && Handles(VerdictOf(ctx, m))
  }

  function HasId(id: string): DesiredInstance -> bool {
    (d: DesiredInstance) => d.id == id
  }

  lemma FilterOne<T>(x: T, f: T -> bool)
    ensures |Filter([x], f)| == if f(x) then 1 else 0
  {
    FilterAppend([], x, f);
    assert [] + [x] == [x];
  }

  lemma FilterTwo<T>(x: T, y: T, f: T -> bool)
    ensures |Filter([x, y], f)| == (if f(x) then 1 else 0) + (if f(y) then 1 else 0)
  {
    FilterOne(x, f);
    FilterAppend([x], y, f);
    assert [x] + [y] == [x, y];
  }

  /** A list of at most two whose first element does not qualify. */
  lemma SecondQualifies<T>(s: seq<T>, f: T -> bool)
    requires |s| <= 2 && (|s| >= 1 ==> !f(s[0]))
    ensures |Filter(s, f)| == if |s| == 2 && f(s[1]) then 1 else 0
  {
    if |s| == 1 {
      assert s == [s[0]];
      FilterOne(s[0], f);
    } else if |s| == 2 {
      assert s == [s[0], s[1]];
      FilterTwo(s[0], s[1], f);
    }
  }

  lemma WritesPerResource(ctx: Context, answers: Answers, m: Managed, id: string)
    requires forall i | i in ctx.byId :: ctx.byId[i].id == i
    ensures |Filter(ResourceCalls(ctx, answers)(m), RecordsFor(id))| <= if HandlesFor(ctx, id)(m) then 1 else 0
  {
    ResourceCallShape(ctx, answers, m);
    SecondQualifies(ResourceCalls(ctx, answers)(m), RecordsFor(id));
  }

  lemma OneCurrentResource(ctx: Context, desired: seq<DesiredInstance>, resources: seq<Resource>, managed: seq<Managed>, id: string)
    requires Sees(ctx, desired, resources, managed)
    ensures |Filter(managed, HandlesFor(ctx, id))| <= 1
  {
    var current := Filter(managed, HandlesFor(ctx, id));
    if current != [] {
      FilterMembers(managed, HandlesFor(ctx, id));
      var first := current[0];
      assert first in current;
      IndexIsExact(desired);
      var d := ctx.byId[id];
      VerdictMeaning(ctx, desired, resources, managed, first, d);
      forall m | m in managed && HandlesFor(ctx, id)(m)
        ensures HasIdentity(Identity(first))(m)
      {
        VerdictMeaning(ctx, desired, resources, managed, m, d);
        ManagedAreParsed(ctx.platform, resources);
        ParsedKey(ctx.platform, m.resource, m);
        ParsedKey(ctx.platform, first.resource, first);
      }
      FilterNarrows(managed, HandlesFor(ctx, id), HasIdentity(Identity(first)));
    }
  }

  lemma {:induction false} FilterNarrows<T>(s: seq<T>, f: T -> bool, g: T -> bool)
    requires forall x | x in s && f(x) :: g(x)
    ensures |Filter(s, f)| <= |Filter(s, g)|
  {
    if s != [] {
      assert s[|s| - 1] in s;
      assert forall x | x in s[..|s| - 1] :: x in s;
      FilterNarrows(s[..|s| - 1], f, g);
    }
  }

  lemma {:induction false} OneInstancePerId(desired: seq<DesiredInstance>, id: string)
    requires DistinctInstances(desired)
    ensures |Filter(desired, HasId(id))| <= 1
  {
    if desired != [] {
      var front, last := desired[..|desired| - 1], desired[|desired| - 1];
      assert desired == front + [last];
      OneInstancePerId(front, id);
      FilterAppend(front, last, HasId(id));
      if last.id == id {
        FilterNone(front, HasId(id));
      }
    }
  }

  /** Written only if no resource has settled the instance. */
  function Unsettled(settled: set<string>, id: string): DesiredInstance -> bool {
    (d: DesiredInstance) => d.id == id && id !in settled
  }

  lemma WritesOfStopped(calls: seq<Call>, write: Call, id: string)
    requires calls == [] || calls == [write]
    ensures |Filter(calls, RecordsFor(id))| <= if RecordsFor(id)(write) then 1 else 0
  {
    if calls != [] {
      FilterOne(write, RecordsFor(id));
    }
  }

  lemma WritesOfEnsured(calls: seq<Call>, write: Call, id: string)
    requires 1 <= |calls| <= 2 && calls[0].EnsureCall? && (|calls| == 2 ==> calls[1] == write)
    ensures |Filter(calls, RecordsFor(id))| <= if RecordsFor(id)(write) then 1 else 0
  {
    SecondQualifies(calls, RecordsFor(id));
  }

  lemma WritesPerInstance(ctx: Context, answers: Answers, settled: set<string>, d: DesiredInstance, id: string)
    ensures |Filter(InstanceCalls(ctx, answers, settled)(d), RecordsFor(id))| <= if Unsettled(settled, id)(d) then 1 else 0
  {
    var calls := InstanceCalls(ctx, answers, settled)(d);
    InstanceCallShape(ctx, answers, settled, d);
    if d.id in settled {
      assert calls == [];
    } else if ShouldStop(d, ctx.now) {
      WritesOfStopped(calls, Record(d, d.providerResourceId, Stopped), id);
    } else {
      WritesOfEnsured(calls, Record(d, d.providerResourceId, if |calls| == 2 then calls[1].state else Unknown), id);
    }
  }

  /** A cycle tries at most one observation write per instance. */
  lemma OneWritePerInstance(ctx: Context, answers: Answers, desired: seq<DesiredInstance>, resources: seq<Resource>,
                            managed: seq<Managed>, id: string)
    requires Sees(ctx, desired, resources, managed)
    ensures |Filter(CycleCalls(ctx, answers, managed, desired), RecordsFor(id))| <= 1
  {
    var settled := Settled(ctx, managed);
    IndexIsExact(desired);
    forall m | m in managed
      ensures |Filter(ResourceCalls(ctx, answers)(m), RecordsFor(id))| <= if HandlesFor(ctx, id)(m) then 1 else 0
    {
      WritesPerResource(ctx, answers, m, id);
    }
    forall d | d in desired
      ensures |Filter(InstanceCalls(ctx, answers, settled)(d), RecordsFor(id))| <= if Unsettled(settled, id)(d) then 1 else 0
    {
      WritesPerInstance(ctx, answers, settled, d, id);
    }
    FlatSelects(managed, ResourceCalls(ctx, answers), RecordsFor(id), HandlesFor(ctx, id));
    FlatSelects(desired, InstanceCalls(ctx, answers, settled), RecordsFor(id), Unsettled(settled, id));
    FilterConcat(Flat(managed, ResourceCalls(ctx, answers)), Flat(desired, InstanceCalls(ctx, answers, settled)), RecordsFor(id));
    OneCurrentResource(ctx, desired, resources, managed, id);
    OneInstancePerId(desired, id);
    FilterNarrows(desired, Unsettled(settled, id), HasId(id));
    FilterMembers(managed, HandlesFor(ctx, id));
    var current := Filter(managed, HandlesFor(ctx, id));
    if current != [] {
      assert current[0] in managed && id in settled;
      FilterNone(desired, Unsettled(settled, id));
    }
  }
}
