/** What a cycle calls, in terms of labels, desired rows, answers and the clock alone. */
module ReconcileMeaning {
  import opened Wrappers
  import opened Ordering
  import opened Text
  import opened Providers
  import opened ReconcilePlan
  import opened ReconcileTheorems

  // ---- Which resources are managed ----

  /** White space by code points. */
  lemma SpacesMean(c: char)
    ensures IsSpace(c) <==>
              || 9 <= c as int <= 13 || 8192 <= c as int <= 8202
              || c as int in {32, 133, 160, 5760, 8232, 8233, 8239, 8287, 12288}
  {
  }

  /** The labels of a managed resource, by their names; the generation may stand behind zeros. */
  ghost predicate Labelled(labels: map<string, string>, key: InstanceKey) {
    && Label(labels, "sauryctf.io/managed-by") == key.platform
    && Label(labels, "sauryctf.io/contest-id") == key.contest
    && Label(labels, "sauryctf.io/challenge-id") == key.challenge
    && Label(labels, "sauryctf.io/team-id") == key.team
    && Label(labels, "sauryctf.io/instance-id") == key.instance
    && exists k: nat :: Label(labels, "sauryctf.io/generation") == Zeros(k) + Decimal(key.generation)
  }

  lemma LabelledIsNamed(labels: map<string, string>, key: InstanceKey)
    ensures Names(labels, key) <==> Labelled(labels, key)
  {
    if Names(labels, key) {
      NamedFields(labels, key);
    }
  }

  /** A resource is managed under a key if and only if it has an id of 1 to 255 characters, without space around it, and
      labels that name the key, which is a valid one of this platform and of its provider. */
  lemma ManagedExactly(platform: string, resources: seq<Resource>, r: Resource, key: InstanceKey)
    ensures Managed(r, key) in ManagedOf(platform, resources) <==>
              && r in resources
              && 1 <= |r.resourceId| <= 255 && !IsSpace(r.resourceId[0]) && !IsSpace(r.resourceId[|r.resourceId| - 1])
              && key.platform == platform && key.provider == r.provider && Labelled(r.labels, key)
              && PlatformPattern(platform) && Uuid(key.contest) && Uuid(key.challenge) && Uuid(key.team) && Uuid(key.instance)
              && 1 <= key.generation <= 9007199254740991
  {
    ManagedIsParsed(platform, resources, r, key);
    ParseAcceptsItsNames(r.labels, platform, r.provider, key);
    LabelledIsNamed(r.labels, key);
    assert ResourceOk(r) <==>
        1 <= |r.resourceId| <= 255 && !IsSpace(r.resourceId[0]) && !IsSpace(r.resourceId[|r.resourceId| - 1]) by {
      ResourceOkMeans(r);
    }
  }

  lemma ResourceOkMeans(r: Resource)
    ensures ResourceOk(r) <==>
              1 <= |r.resourceId| <= 255 && !IsSpace(r.resourceId[0]) && !IsSpace(r.resourceId[|r.resourceId| - 1])
  {
  }

  lemma ManagedIsParsed(platform: string, resources: seq<Resource>, r: Resource, key: InstanceKey)
    ensures Managed(r, key) in ManagedOf(platform, resources) <==>
              r in resources && ResourceOk(r) && ParseInstanceKey(r.labels, platform, r.provider) == Success(key)
  {
    ManagedAreParsed(platform, resources);
    assert Managed(r, key) in ManagedOf(platform, resources) <==> r in resources && Manage(platform, r) == Some(Managed(r, key));
  }

  /** A cycle goes on only while every instance has UUIDs, a generation of its own that it has not overtaken, something to
      run while it is wanted, and a provider's id that fits. */
  lemma DesiredOkMeans(d: DesiredInstance)
    ensures DesiredOk(d) <==>
              && (forall u | u in {d.id, d.contest, d.challenge, d.participation, d.team} :: Uuid(u))
              && 1 <= d.desiredGeneration <= 9007199254740991 && d.observedGeneration <= d.desiredGeneration
              && (d.runtimeSpec == None ==> d.desiredState == DesireStopped)
              && |d.providerResourceId| <= 255
              && (d.providerResourceId == ""
                  || (!IsSpace(d.providerResourceId[0]) && !IsSpace(d.providerResourceId[|d.providerResourceId| - 1])))
  {
    assert d.id in {d.id, d.contest, d.challenge, d.participation, d.team};
    assert d.contest in {d.id, d.contest, d.challenge, d.participation, d.team};
    assert d.challenge in {d.id, d.contest, d.challenge, d.participation, d.team};
    assert d.participation in {d.id, d.contest, d.challenge, d.participation, d.team};
    assert d.team in {d.id, d.contest, d.challenge, d.participation, d.team};
  }

  // ---- Uniqueness, listed ----

  /** No other managed resource has this one's provider, instance and generation. */
  predicate Alone(managed: seq<Managed>, i: nat)
    requires i < |managed|
  {
    forall j | 0 <= j < |managed| && j != i ::
      !(managed[j].ownership.provider == managed[i].ownership.provider
        && managed[j].ownership.instance == managed[i].ownership.instance
        && managed[j].ownership.generation == managed[i].ownership.generation)
  }

  lemma NoneSelected<T>(s: seq<T>, f: T -> bool)
    ensures |Filter(s, f)| == 0 <==> forall j | 0 <= j < |s| :: !f(s[j])
  {
    FilterMembers(s, f);
    assert forall j | 0 <= j < |s| :: s[j] in s;
    if |Filter(s, f)| > 0 {
      assert Filter(s, f)[0] in Filter(s, f);
    }
  }

  lemma OneSelected<T>(s: seq<T>, f: T -> bool, i: nat)
    requires i < |s| && f(s[i])
    ensures |Filter(s, f)| == 1 <==> forall j | 0 <= j < |s| && j != i :: !f(s[j])
  {
    var left, right := s[..i], s[i + 1..];
    assert s == (left + [s[i]]) + right;
    FilterConcat(left + [s[i]], right, f);
    FilterAppend(left, s[i], f);
    NoneSelected(left, f);
    NoneSelected(right, f);
    assert forall j | 0 <= j < |right| :: right[j] == s[i + 1 + j];
    assert forall j | i < j < |s| :: s[j] == right[j - i - 1];
  }

  lemma UniqueIsAlone(platform: string, resources: seq<Resource>, managed: seq<Managed>, i: nat)
    requires managed == ManagedOf(platform, resources) && i < |managed|
    ensures Unique(managed, managed[i]) <==> Alone(managed, i)
  {
    OneSelected(managed, HasIdentity(Identity(managed[i])), i);
    ManagedAreParsed(platform, resources);
    forall j | 0 <= j < |managed|
      ensures Identity(managed[j]) == Identity(managed[i]) <==>
                && managed[j].ownership.provider == managed[i].ownership.provider
                && managed[j].ownership.instance == managed[i].ownership.instance
                && managed[j].ownership.generation == managed[i].ownership.generation
    {
      assert managed[i] in managed && managed[j] in managed;
      ParsedKey(platform, managed[i].resource, managed[i]);
      ParsedKey(platform, managed[j].resource, managed[j]);
      IdentityKeyInjective(managed[j].ownership, managed[i].ownership);
    }
  }

  /** The resource is the only one of its identity and carries the instance's provider and labels, but for the generation. */
  predicate Carries(managed: seq<Managed>, i: nat, d: DesiredInstance)
    requires i < |managed|
  {
    && Alone(managed, i)
    && managed[i].ownership.instance == d.id && managed[i].ownership.provider == d.provider
    && managed[i].ownership.contest == d.contest && managed[i].ownership.challenge == d.challenge
    && managed[i].ownership.team == d.team
  }

  lemma CarriesIsBelonging(platform: string, resources: seq<Resource>, managed: seq<Managed>, i: nat, d: DesiredInstance)
    requires managed == ManagedOf(platform, resources) && i < |managed|
    ensures BelongsTo(managed, managed[i], d) <==> Carries(managed, i, d)
  {
    UniqueIsAlone(platform, resources, managed, i);
    ManagedAreParsed(platform, resources);
    assert managed[i] in managed;
    ParsedKey(platform, managed[i].resource, managed[i]);
  }

  // ---- Calls for resources ----

  /** The resource is of an older generation of the instance, or is its current one and no longer wanted. */
  predicate Destroyable(managed: seq<Managed>, i: nat, d: DesiredInstance, now: int)
    requires i < |managed|
  {
    && Carries(managed, i, d)
    && (managed[i].ownership.generation < d.desiredGeneration
        || (managed[i].ownership.generation == d.desiredGeneration
            && (d.desiredState == DesireStopped || (d.expiresAt.Some? && d.expiresAt.value <= now))))
  }

  lemma DestroyableIsAllowed(ctx: Context, desired: seq<DesiredInstance>, resources: seq<Resource>, managed: seq<Managed>, i: nat)
    requires Sees(ctx, desired, resources, managed) && i < |managed|
    ensures VerdictOf(ctx, managed[i]).DestroyStale? || VerdictOf(ctx, managed[i]).DestroyCurrent? <==>
              exists d | d in desired :: Destroyable(managed, i, d, ctx.now)
  {
    assert managed[i] in managed;
    DestroyVerdict(ctx, desired, resources, managed, managed[i]);
    forall d | d in desired
      ensures MayDestroy(managed, managed[i], d, ctx.now) <==> Destroyable(managed, i, d, ctx.now)
    {
      CarriesIsBelonging(ctx.platform, resources, managed, i, d);
    }
  }

  /** A key is destroyed if and only if its only resource is of an older generation, or current and no longer wanted. */
  lemma DestroysExactly(ctx: Context, answers: Answers, desired: seq<DesiredInstance>, resources: seq<Resource>,
                        managed: seq<Managed>, key: InstanceKey)
    requires Sees(ctx, desired, resources, managed)
    ensures DestroyCall(key) in CycleCalls(ctx, answers, managed, desired) <==>
              exists i | 0 <= i < |managed| ::
                managed[i].ownership == key && exists d | d in desired :: Destroyable(managed, i, d, ctx.now)
  {
    var call := DestroyCall(key);
    CallForResource(ctx, answers, managed, desired, call);
    forall i | 0 <= i < |managed|
      ensures call in ResourceCalls(ctx, answers)(managed[i]) <==>
                managed[i].ownership == key && exists d | d in desired :: Destroyable(managed, i, d, ctx.now)
    {
      DestroyCalls(ctx, answers, managed[i], key);
      DestroyableIsAllowed(ctx, desired, resources, managed, i);
    }
  }

  /** Only the first loop destroys and inspects. */
  lemma CallForResource(ctx: Context, answers: Answers, managed: seq<Managed>, desired: seq<DesiredInstance>, call: Call)
    requires call.DestroyCall? || call.InspectCall?
    ensures call in CycleCalls(ctx, answers, managed, desired) <==>
              exists i | 0 <= i < |managed| :: call in ResourceCalls(ctx, answers)(managed[i])
  {
    FlatMembers(managed, ResourceCalls(ctx, answers), call);
    FlatMembers(desired, InstanceCalls(ctx, answers, Settled(ctx, managed)), call);
    forall d | d in desired
      ensures call !in InstanceCalls(ctx, answers, Settled(ctx, managed))(d)
    {
      InstanceCallShape(ctx, answers, Settled(ctx, managed), d);
    }
    assert forall i | 0 <= i < |managed| :: managed[i] in managed;
  }

  lemma InspectCalls(ctx: Context, answers: Answers, m: Managed, key: InstanceKey)
    ensures InspectCall(key) in ResourceCalls(ctx, answers)(m) <==> m.ownership == key && VerdictOf(ctx, m).Inspect?
  {
    ResourceCallShape(ctx, answers, m);
    TwoCalls(ResourceCalls(ctx, answers)(m), InspectCall(key));
  }

  /** The resource is the current one of an instance that is wanted, with no expiry or a later one. */
  predicate Inspectable(managed: seq<Managed>, i: nat, d: DesiredInstance, now: int)
    requires i < |managed|
  {
    && Carries(managed, i, d) && managed[i].ownership.generation == d.desiredGeneration
    && d.desiredState == DesireRunning && (d.expiresAt.Some? ==> d.expiresAt.value > now)
  }

  lemma InspectVerdict(ctx: Context, desired: seq<DesiredInstance>, resources: seq<Resource>, managed: seq<Managed>, i: nat)
    requires Sees(ctx, desired, resources, managed) && i < |managed|
    ensures VerdictOf(ctx, managed[i]).Inspect? <==> exists d | d in desired :: Inspectable(managed, i, d, ctx.now)
  {
    IndexIsExact(desired);
    assert managed[i] in managed;
    forall d | d in desired && managed[i].ownership.instance == d.id
      ensures VerdictOf(ctx, managed[i]).Inspect? <==> Inspectable(managed, i, d, ctx.now)
    {
      VerdictMeaning(ctx, desired, resources, managed, managed[i], d);
      CarriesIsBelonging(ctx.platform, resources, managed, i, d);
    }
    if VerdictOf(ctx, managed[i]).Inspect? {
      var d := ctx.byId[managed[i].ownership.instance];
      assert Inspectable(managed, i, d, ctx.now);
    }
  }

  /** A key is inspected if and only if its only resource is the current one of a wanted instance. */
  lemma InspectsExactly(ctx: Context, answers: Answers, desired: seq<DesiredInstance>, resources: seq<Resource>,
                        managed: seq<Managed>, key: InstanceKey)
    requires Sees(ctx, desired, resources, managed)
    ensures InspectCall(key) in CycleCalls(ctx, answers, managed, desired) <==>
              exists i | 0 <= i < |managed| ::
                managed[i].ownership == key && exists d | d in desired :: Inspectable(managed, i, d, ctx.now)
  {
    var call := InspectCall(key);
    CallForResource(ctx, answers, managed, desired, call);
    forall i | 0 <= i < |managed|
      ensures call in ResourceCalls(ctx, answers)(managed[i]) <==>
                managed[i].ownership == key && exists d | d in desired :: Inspectable(managed, i, d, ctx.now)
    {
      InspectCalls(ctx, answers, managed[i], key);
      InspectVerdict(ctx, desired, resources, managed, i);
    }
  }

  /** Why a resource is reported, the first reason that applies. */
  function ReasonAt(managed: seq<Managed>, i: nat, d: DesiredInstance): Option<Reason>
    requires i < |managed|
  {
    var key := managed[i].ownership;
    if !Alone(managed, i) then Some(DuplicateIdentity)
    else if key.provider != d.provider then Some(ProviderMismatch)
    else if key.contest != d.contest || key.challenge != d.challenge || key.team != d.team then Some(IdentityMismatch)
    else if key.generation > d.desiredGeneration then Some(FutureGeneration)
    else None
  }

  lemma ReasonIsVerdict(ctx: Context, desired: seq<DesiredInstance>, resources: seq<Resource>, managed: seq<Managed>, i: nat,
                        d: DesiredInstance)
    requires Sees(ctx, desired, resources, managed) && i < |managed| && d in desired && d.id == managed[i].ownership.instance
    ensures if ReasonAt(managed, i, d).Some? then VerdictOf(ctx, managed[i]) == Report(ReasonAt(managed, i, d).value)
            else !VerdictOf(ctx, managed[i]).Report?
  {
    IndexIsExact(desired);
    assert managed[i] in managed;
    UniqueOrDuplicate(managed, managed[i]);
    UniqueIsAlone(ctx.platform, resources, managed, i);
    ManagedAreParsed(ctx.platform, resources);
    ParsedKey(ctx.platform, managed[i].resource, managed[i]);
  }

  /** Each resource of no desired instance is reported as unknown, and each other one with the reason that applies first. */
  lemma ReportsExactly(ctx: Context, answers: Answers, desired: seq<DesiredInstance>, resources: seq<Resource>,
                       managed: seq<Managed>, i: nat, reason: Reason)
    requires Sees(ctx, desired, resources, managed) && i < |managed|
    ensures ReportCall(managed[i], reason) in CycleCalls(ctx, answers, managed, desired) <==>
              if forall d | d in desired :: d.id != managed[i].ownership.instance then reason == UnknownInstance
              else exists d | d in desired :: d.id == managed[i].ownership.instance && ReasonAt(managed, i, d) == Some(reason)
  {
    ReportCalls(ctx, answers, managed, desired, managed[i], reason);
    VerdictUnknown(ctx, desired, resources, managed, managed[i]);
    assert managed[i] in managed;
    forall d | d in desired && d.id == managed[i].ownership.instance
      ensures VerdictOf(ctx, managed[i]) == Report(reason) <==> ReasonAt(managed, i, d) == Some(reason)
    {
      ReasonIsVerdict(ctx, desired, resources, managed, i, d);
    }
    IndexIsExact(desired);
  }

  // ---- Calls for instances ----

  /** Every resource of the instance is its own and of an older generation; there may be none. */
  ghost predicate OnlyOlder(managed: seq<Managed>, d: DesiredInstance) {
    forall i | 0 <= i < |managed| && managed[i].ownership.instance == d.id ::
      Carries(managed, i, d) && managed[i].ownership.generation < d.desiredGeneration
  }

  lemma OnlyOlderIsSame(platform: string, resources: seq<Resource>, managed: seq<Managed>, d: DesiredInstance)
    requires managed == ManagedOf(platform, resources)
    ensures OnlyOlderGenerations(managed, d) <==> OnlyOlder(managed, d)
  {
    forall i | 0 <= i < |managed|
      ensures BelongsTo(managed, managed[i], d) <==> Carries(managed, i, d)
    {
      CarriesIsBelonging(platform, resources, managed, i, d);
    }
    assert forall i | 0 <= i < |managed| :: managed[i] in managed;
  }

  /** The call with the instance's own key, specification and expiry, while it is wanted with no expiry or a later one. */
  predicate Ensurable(ctx: Context, d: DesiredInstance, key: InstanceKey, spec: int, expiresAt: Option<int>) {
    && key == InstanceKey(ctx.platform, d.provider, d.contest, d.challenge, d.team, d.id, d.desiredGeneration)
    && d.runtimeSpec == Some(spec) && d.expiresAt == expiresAt
    && d.desiredState == DesireRunning && (d.expiresAt.Some? ==> d.expiresAt.value > ctx.now)
  }

  /** An instance is ensured if and only if it is wanted and only older generations of it exist. */
  lemma EnsuresExactly(ctx: Context, answers: Answers, desired: seq<DesiredInstance>, resources: seq<Resource>,
                       managed: seq<Managed>, key: InstanceKey, spec: int, expiresAt: Option<int>)
    requires Sees(ctx, desired, resources, managed) && forall d | d in desired :: DesiredOk(d)
    ensures EnsureCall(key, spec, expiresAt) in CycleCalls(ctx, answers, managed, desired) <==>
              exists d | d in desired :: Ensurable(ctx, d, key, spec, expiresAt) && OnlyOlder(managed, d)
  {
    var call := EnsureCall(key, spec, expiresAt);
    EnsuredExactly(ctx, answers, desired, resources, managed, call);
    forall d | d in desired
      ensures Ensure(ctx, d) == call && !ShouldStop(d, ctx.now) && OnlyOlderGenerations(managed, d) <==>
                Ensurable(ctx, d, key, spec, expiresAt) && OnlyOlder(managed, d)
    {
      OnlyOlderIsSame(ctx.platform, resources, managed, d);
      EnsurableIsCalled(ctx, d, key, spec, expiresAt);
    }
  }

  lemma EnsurableIsCalled(ctx: Context, d: DesiredInstance, key: InstanceKey, spec: int, expiresAt: Option<int>)
    requires DesiredOk(d)
    ensures Ensure(ctx, d) == EnsureCall(key, spec, expiresAt) && !ShouldStop(d, ctx.now) <==>
              Ensurable(ctx, d, key, spec, expiresAt)
  {
  }

  // ---- Writes ----

  /** What is written after the call for a current resource of the instance. */
  predicate RecordedAt(ctx: Context, answers: Answers, managed: seq<Managed>, i: nat, d: DesiredInstance, expected: string,
                       state: ObservedState)
    requires i < |managed|
  {
    && Carries(managed, i, d) && managed[i].ownership.generation == d.desiredGeneration
    && expected == managed[i].resource.resourceId
    && if d.desiredState == DesireStopped || (d.expiresAt.Some? && d.expiresAt.value <= ctx.now)
       then state == Stopped && answers.observes(DestroyCall(managed[i].ownership)) == Some(Stopped)
       else answers.observes(InspectCall(managed[i].ownership)) == Some(state)
  }

  /** What is written about an instance that has no current resource. */
  predicate RecordedFor(ctx: Context, answers: Answers, d: DesiredInstance, expected: string, state: ObservedState) {
    && expected == d.providerResourceId
    && if d.desiredState == DesireStopped || (d.expiresAt.Some? && d.expiresAt.value <= ctx.now)
       then && state == Stopped
            && !(d.observedState == Stopped && d.observedGeneration == d.desiredGeneration && d.providerResourceId == "")
       else answers.observes(Ensure(ctx, d)) == Some(state)
  }

  lemma RecordInResource(ctx: Context, answers: Answers, desired: seq<DesiredInstance>, resources: seq<Resource>,
                         managed: seq<Managed>, i: nat, d: DesiredInstance, expected: string, state: ObservedState)
    requires Sees(ctx, desired, resources, managed) && i < |managed| && d in desired
    ensures RecordCall(d.id, d.desiredGeneration, expected, state) in ResourceCalls(ctx, answers)(managed[i]) <==>
              RecordedAt(ctx, answers, managed, i, d, expected, state)
  {
    var m := managed[i];
    var call := RecordCall(d.id, d.desiredGeneration, expected, state);
    ResourceCallShape(ctx, answers, m);
    TwoCalls(ResourceCalls(ctx, answers)(m), call);
    IndexIsExact(desired);
    CarriesIsBelonging(ctx.platform, resources, managed, i, d);
    assert m in managed;
    if m.ownership.instance == d.id {
      VerdictMeaning(ctx, desired, resources, managed, m, d);
    } else {
      assert !Carries(managed, i, d);
    }
  }

  lemma RecordInInstance(ctx: Context, answers: Answers, settled: set<string>, x: DesiredInstance, id: string, generation: nat,
                         expected: string, state: ObservedState)
    ensures RecordCall(id, generation, expected, state) in InstanceCalls(ctx, answers, settled)(x) <==>
              && x.id == id && x.desiredGeneration == generation && x.id !in settled
              && RecordedFor(ctx, answers, x, expected, state)
  {
    var calls := InstanceCalls(ctx, answers, settled)(x);
    var call := RecordCall(id, generation, expected, state);
    if x.id in settled {
      assert calls == [];
    } else if ShouldStop(x, ctx.now) {
      assert calls == if AlreadyRecorded(x) then [] else [Record(x, x.providerResourceId, Stopped)];
    } else {
      InstanceCallShape(ctx, answers, settled, x);
      TwoCalls(calls, call);
      assert |calls| == 2 <==> answers.observes(Ensure(ctx, x)).Some?;
    }
  }

  lemma RecordForInstance(ctx: Context, answers: Answers, desired: seq<DesiredInstance>, resources: seq<Resource>,
                          managed: seq<Managed>, d: DesiredInstance, expected: string, state: ObservedState)
    requires Sees(ctx, desired, resources, managed) && d in desired
    ensures RecordCall(d.id, d.desiredGeneration, expected, state)
            in Flat(desired, InstanceCalls(ctx, answers, Settled(ctx, managed))) <==>
              OnlyOlder(managed, d) && RecordedFor(ctx, answers, d, expected, state)
  {
    var call := RecordCall(d.id, d.desiredGeneration, expected, state);
    var settled := Settled(ctx, managed);
    FlatMembers(desired, InstanceCalls(ctx, answers, settled), call);
    SettledExactly(ctx, desired, resources, managed, d);
    OnlyOlderIsSame(ctx.platform, resources, managed, d);
    IndexIsExact(desired);
    forall x | x in desired
      ensures call in InstanceCalls(ctx, answers, settled)(x) <==>
                x == d && d.id !in settled && RecordedFor(ctx, answers, d, expected, state)
    {
      RecordInInstance(ctx, answers, settled, x, d.id, d.desiredGeneration, expected, state);
    }
  }

  lemma RecordForResource(ctx: Context, answers: Answers, desired: seq<DesiredInstance>, resources: seq<Resource>,
                          managed: seq<Managed>, d: DesiredInstance, expected: string, state: ObservedState)
    requires Sees(ctx, desired, resources, managed) && d in desired
    ensures RecordCall(d.id, d.desiredGeneration, expected, state) in Flat(managed, ResourceCalls(ctx, answers)) <==>
              exists i | 0 <= i < |managed| :: RecordedAt(ctx, answers, managed, i, d, expected, state)
  {
    var call := RecordCall(d.id, d.desiredGeneration, expected, state);
    FlatMembers(managed, ResourceCalls(ctx, answers), call);
    forall i | 0 <= i < |managed|
      ensures call in ResourceCalls(ctx, answers)(managed[i]) <==> RecordedAt(ctx, answers, managed, i, d, expected, state)
    {
      RecordInResource(ctx, answers, desired, resources, managed, i, d, expected, state);
    }
    assert forall i | 0 <= i < |managed| :: managed[i] in managed;
  }

  /** A write about an instance is tried exactly for its current resource once the provider has answered, and else, when only
      older generations exist, once it was ensured, or to note that it is stopped unless that is noted. */
  lemma RecordsExactly(ctx: Context, answers: Answers, desired: seq<DesiredInstance>, resources: seq<Resource>,
                       managed: seq<Managed>, d: DesiredInstance, expected: string, state: ObservedState)
    requires Sees(ctx, desired, resources, managed) && d in desired
    ensures RecordCall(d.id, d.desiredGeneration, expected, state) in CycleCalls(ctx, answers, managed, desired) <==>
              || (exists i | 0 <= i < |managed| :: RecordedAt(ctx, answers, managed, i, d, expected, state))
              || (OnlyOlder(managed, d) && RecordedFor(ctx, answers, d, expected, state))
  {
    RecordForResource(ctx, answers, desired, resources, managed, d, expected, state);
    RecordForInstance(ctx, answers, desired, resources, managed, d, expected, state);
  }

  // ---- What is left ----

  /** The providers confirm that the resource is destroyed. */
  ghost predicate IsDestroyed(ctx: Context, answers: Answers, desired: seq<DesiredInstance>, managed: seq<Managed>, i: nat)
    requires i < |managed|
  {
    && answers.observes(DestroyCall(managed[i].ownership)) == Some(Stopped)
    && exists d | d in desired :: Destroyable(managed, i, d, ctx.now)
  }

  /** The providers confirm that the instance has this resource now. */
  ghost predicate IsCreated(ctx: Context, answers: Answers, naming: Naming, managed: seq<Managed>, d: DesiredInstance, r: Resource) {
    var key := InstanceKey(ctx.platform, d.provider, d.contest, d.challenge, d.team, d.id, d.desiredGeneration);
    && r == Resource(d.provider, naming(key), Labels(key))
    && d.desiredState == DesireRunning && (d.expiresAt.Some? ==> d.expiresAt.value > ctx.now) && OnlyOlder(managed, d)
    && d.runtimeSpec.Some? && answers.observes(EnsureCall(key, d.runtimeSpec.value, d.expiresAt)).Some?
  }

  lemma RemovedIsDestroyed(ctx: Context, answers: Answers, desired: seq<DesiredInstance>, resources: seq<Resource>,
                           managed: seq<Managed>, i: nat)
    requires Sees(ctx, desired, resources, managed) && i < |managed|
    ensures Identity(managed[i]) in Removed(ctx, answers, managed) <==> IsDestroyed(ctx, answers, desired, managed, i)
  {
    assert managed[i] in managed;
    DestroyableIsAllowed(ctx, desired, resources, managed, i);
    if Identity(managed[i]) in Removed(ctx, answers, managed) {
      var m :| m in managed && (VerdictOf(ctx, m).DestroyStale? || VerdictOf(ctx, m).DestroyCurrent?)
               && answers.observes(DestroyCall(m.ownership)) == Some(Stopped) && Identity(m) == Identity(managed[i]);
      var j :| 0 <= j < |managed| && managed[j] == m;
      DestroyableIsAllowed(ctx, desired, resources, managed, j);
      var d :| d in desired && Destroyable(managed, j, d, ctx.now);
      OneSelected(managed, HasIdentity(Identity(m)), j);
      UniqueIsAlone(ctx.platform, resources, managed, j);
    }
  }

  lemma CreatedMeans(platform: string, naming: Naming, d: DesiredInstance, key: InstanceKey)
    requires key == InstanceKey(platform, d.provider, d.contest, d.challenge, d.team, d.id, d.desiredGeneration)
    ensures Created(platform, naming)(d) == Resource(d.provider, naming(key), Labels(key))
  {
    assert OwnershipOf(platform, d) == key;
  }

  lemma EnsuredIsCreated(ctx: Context, answers: Answers, naming: Naming, desired: seq<DesiredInstance>, resources: seq<Resource>,
                         managed: seq<Managed>, d: DesiredInstance, r: Resource)
    requires Sees(ctx, desired, resources, managed) && d in desired && DesiredOk(d)
    ensures IsEnsured(ctx, answers, Settled(ctx, managed))(d) && Created(ctx.platform, naming)(d) == r <==>
              IsCreated(ctx, answers, naming, managed, d, r)
  {
    var key := InstanceKey(ctx.platform, d.provider, d.contest, d.challenge, d.team, d.id, d.desiredGeneration);
    SettledExactly(ctx, desired, resources, managed, d);
    OnlyOlderIsSame(ctx.platform, resources, managed, d);
    CreatedMeans(ctx.platform, naming, d, key);
    if !ShouldStop(d, ctx.now) {
      assert Ensure(ctx, d) == EnsureCall(key, d.runtimeSpec.value, d.expiresAt);
    }
  }

  lemma MappedMembers<T, U>(s: seq<T>, f: T -> bool, g: T -> U, y: U)
    ensures y in Map(Filter(s, f), g) <==> exists x | x in s :: f(x) && g(x) == y
  {
    FilterMembers(s, f);
    MapAt(Filter(s, f), g);
    if x :| x in s && f(x) && g(x) == y {
      var kept, mapped := Filter(s, f), Map(Filter(s, f), g);
      var k :| 0 <= k < |kept| && kept[k] == x;
      assert mapped[k] == y && mapped[k] in mapped;
    }
  }

  /** After a cycle the providers have what they had, but for what they confirmed to be destroyed, and what they confirmed to
      have created. */
  lemma LeftExactly(ctx: Context, answers: Answers, naming: Naming, desired: seq<DesiredInstance>, resources: seq<Resource>,
                    managed: seq<Managed>, r: Resource)
    requires Sees(ctx, desired, resources, managed) && forall d | d in desired :: DesiredOk(d)
    ensures r in ResourcesAfter(ctx, answers, naming, resources, managed, desired) <==>
              || (r in resources
                  && !exists i | 0 <= i < |managed| :: managed[i].resource == r && IsDestroyed(ctx, answers, desired, managed, i))
              || (exists d | d in desired :: IsCreated(ctx, answers, naming, managed, d, r))
  {
    SurvivesExactly(ctx, answers, desired, resources, managed, r);
    FilterMembers(resources, Survives(ctx.platform, Removed(ctx, answers, managed)));
    MappedMembers(desired, IsEnsured(ctx, answers, Settled(ctx, managed)), Created(ctx.platform, naming), r);
    forall d | d in desired
      ensures IsEnsured(ctx, answers, Settled(ctx, managed))(d) && Created(ctx.platform, naming)(d) == r <==>
                IsCreated(ctx, answers, naming, managed, d, r)
    {
      EnsuredIsCreated(ctx, answers, naming, desired, resources, managed, d, r);
    }
  }

  lemma SurvivesExactly(ctx: Context, answers: Answers, desired: seq<DesiredInstance>, resources: seq<Resource>,
                        managed: seq<Managed>, r: Resource)
    requires Sees(ctx, desired, resources, managed)
    ensures r in resources ==>
              (Survives(ctx.platform, Removed(ctx, answers, managed))(r) <==>
                 !exists i | 0 <= i < |managed| :: managed[i].resource == r && IsDestroyed(ctx, answers, desired, managed, i))
  {
    ManagedAreParsed(ctx.platform, resources);
    forall i | 0 <= i < |managed|
      ensures managed[i] in managed
      ensures Identity(managed[i]) in Removed(ctx, answers, managed) <==> IsDestroyed(ctx, answers, desired, managed, i)
    {
      RemovedIsDestroyed(ctx, answers, desired, resources, managed, i);
    }
  }

  // ---- Counters ----

  /** The report was taken. */
  predicate IsOrphan(answers: Answers, calls: seq<Call>) {
    calls != [] && calls[0].ReportCall? && answers.accepts(calls[0])
  }

  /** The resource answered, and the answer was written. */
  predicate IsInspected(answers: Answers, calls: seq<Call>) {
    |calls| == 2 && calls[0].InspectCall? && answers.accepts(calls[1])
  }

  /** The resource is confirmed to be gone, and if that is written, the write was taken. */
  predicate IsGone(answers: Answers, calls: seq<Call>) {
    && calls != [] && calls[0].DestroyCall? && answers.observes(calls[0]) == Some(Stopped)
    && (|calls| == 2 ==> answers.accepts(calls[1]))
  }

  /** None of these. */
  predicate IsUnfinished(answers: Answers, calls: seq<Call>) {
    !IsOrphan(answers, calls) && !IsInspected(answers, calls) && !IsGone(answers, calls)
  }

  /** The instance was ensured, and the answer was written. */
  predicate IsUp(answers: Answers, calls: seq<Call>) {
    |calls| == 2 && calls[0].EnsureCall? && answers.accepts(calls[1])
  }

  /** The last call for the instance did not succeed. */
  predicate IsStuck(answers: Answers, calls: seq<Call>) {
    calls != [] && (calls[|calls| - 1].EnsureCall? || !answers.accepts(calls[|calls| - 1]))
  }

  /** How a resource is counted, in terms of the calls it caused and their answers. */
  lemma TallyMeans(ctx: Context, answers: Answers, m: Managed)
    ensures var calls, tally := ResourceCalls(ctx, answers)(m), ResourceTally(ctx, answers)(m);
            && (tally == Orphan <==> IsOrphan(answers, calls))
            && (tally == Inspected <==> IsInspected(answers, calls))
            && (tally == Destroyed <==> IsGone(answers, calls))
            && (tally == FailedResource <==> IsUnfinished(answers, calls))
  {
    ResourceCallShape(ctx, answers, m);
  }

  /** How an instance is counted. */
  lemma InstanceTallyMeans(ctx: Context, answers: Answers, settled: set<string>, d: DesiredInstance)
    ensures var calls, tally := InstanceCalls(ctx, answers, settled)(d), TallyOfInstance(ctx, answers, settled)(d);
            && (tally == Ensured <==> IsUp(answers, calls))
            && (tally == FailedInstance <==> IsStuck(answers, calls))
  {
    InstanceCallShape(ctx, answers, settled, d);
  }

  lemma {:induction false} SelectedPositions<T>(s: seq<T>, f: T -> bool, which: set<int>)
    requires forall i :: i in which <==> 0 <= i < |s| && f(s[i])
    ensures |Filter(s, f)| == |which|
  {
    if s == [] {
      assert forall i :: i !in which;
    } else {
      var front, last := s[..|s| - 1], |s| - 1;
      SelectedPositions(front, f, which - {last});
      assert which == (which - {last}) + (if f(s[last]) then {last} else {});
    }
  }

  lemma ResourcesCounted(ctx: Context, answers: Answers, managed: seq<Managed>, tally: Tally, which: set<int>)
    requires which == set i | 0 <= i < |managed| && ResourceTally(ctx, answers)(managed[i]) == tally
    ensures ResourceTallies(ctx, answers, managed, tally) == |which|
  {
    SelectedPositions(managed, TallyIs(ctx, answers, tally), which);
  }

  lemma InstancesCounted(ctx: Context, answers: Answers, settled: set<string>, desired: seq<DesiredInstance>, tally: InstanceTally,
                         which: set<int>)
    requires which == set i | 0 <= i < |desired| && TallyOfInstance(ctx, answers, settled)(desired[i]) == tally
    ensures InstanceTallies(ctx, answers, settled, desired, tally) == |which|
  {
    SelectedPositions(desired, InstanceTallyIs(ctx, answers, settled, tally), which);
  }

  lemma FirstCounters(ctx: Context, answers: Answers, managed: seq<Managed>)
    ensures var calls := ResourceCalls(ctx, answers);
            && ResourceTallies(ctx, answers, managed, Orphan) == |set i | 0 <= i < |managed| && IsOrphan(answers, calls(managed[i]))|
            && ResourceTallies(ctx, answers, managed, Inspected)
               == |set i | 0 <= i < |managed| && IsInspected(answers, calls(managed[i]))|
            && ResourceTallies(ctx, answers, managed, Destroyed) == |set i | 0 <= i < |managed| && IsGone(answers, calls(managed[i]))|
            && ResourceTallies(ctx, answers, managed, FailedResource)
               == |set i | 0 <= i < |managed| && IsUnfinished(answers, calls(managed[i]))|
  {
    var calls := ResourceCalls(ctx, answers);
    forall i | 0 <= i < |managed|
      ensures ResourceTally(ctx, answers)(managed[i]) == Orphan <==> IsOrphan(answers, calls(managed[i]))
      ensures ResourceTally(ctx, answers)(managed[i]) == Inspected <==> IsInspected(answers, calls(managed[i]))
      ensures ResourceTally(ctx, answers)(managed[i]) == Destroyed <==> IsGone(answers, calls(managed[i]))
      ensures ResourceTally(ctx, answers)(managed[i]) == FailedResource <==> IsUnfinished(answers, calls(managed[i]))
    {
      TallyMeans(ctx, answers, managed[i]);
    }
    ResourcesCounted(ctx, answers, managed, Orphan, set i | 0 <= i < |managed| && IsOrphan(answers, calls(managed[i])));
    ResourcesCounted(ctx, answers, managed, Inspected, set i | 0 <= i < |managed| && IsInspected(answers, calls(managed[i])));
    ResourcesCounted(ctx, answers, managed, Destroyed, set i | 0 <= i < |managed| && IsGone(answers, calls(managed[i])));
    ResourcesCounted(ctx, answers, managed, FailedResource,
                     set i | 0 <= i < |managed| && IsUnfinished(answers, calls(managed[i])));
  }

  lemma SecondCounters(ctx: Context, answers: Answers, settled: set<string>, desired: seq<DesiredInstance>)
    ensures var calls := InstanceCalls(ctx, answers, settled);
            && InstanceTallies(ctx, answers, settled, desired, Ensured)
               == |set i | 0 <= i < |desired| && IsUp(answers, calls(desired[i]))|
            && InstanceTallies(ctx, answers, settled, desired, FailedInstance)
               == |set i | 0 <= i < |desired| && IsStuck(answers, calls(desired[i]))|
  {
    var calls := InstanceCalls(ctx, answers, settled);
    forall i | 0 <= i < |desired|
      ensures TallyOfInstance(ctx, answers, settled)(desired[i]) == Ensured <==> IsUp(answers, calls(desired[i]))
      ensures TallyOfInstance(ctx, answers, settled)(desired[i]) == FailedInstance <==> IsStuck(answers, calls(desired[i]))
    {
      InstanceTallyMeans(ctx, answers, settled, desired[i]);
    }
    InstancesCounted(ctx, answers, settled, desired, Ensured, set i | 0 <= i < |desired| && IsUp(answers, calls(desired[i])));
    InstancesCounted(ctx, answers, settled, desired, FailedInstance,
                     set i | 0 <= i < |desired| && IsStuck(answers, calls(desired[i])));
  }

  /** The counters of a cycle count the resources and the instances whose calls went so. */
  lemma CountersMean(ctx: Context, answers: Answers, resources: seq<Resource>, managed: seq<Managed>, desired: seq<DesiredInstance>)
    requires |managed| <= |resources|
    ensures var result := ResultOf(ctx, answers, resources, managed, desired);
            var first, second := ResourceCalls(ctx, answers), InstanceCalls(ctx, answers, Settled(ctx, managed));
            && result.desired == |desired| && result.resources == |resources| && result.unmanaged == |resources| - |managed|
            && result.orphans == |set i | 0 <= i < |managed| && IsOrphan(answers, first(managed[i]))|
            && result.inspected == |set i | 0 <= i < |managed| && IsInspected(answers, first(managed[i]))|
            && result.destroyed == |set i | 0 <= i < |managed| && IsGone(answers, first(managed[i]))|
            && result.ensured == |set i | 0 <= i < |desired| && IsUp(answers, second(desired[i]))|
            && result.failures
               == |set i | 0 <= i < |managed| && IsUnfinished(answers, first(managed[i]))|
                  + |set i | 0 <= i < |desired| && IsStuck(answers, second(desired[i]))|
  {
    FirstCounters(ctx, answers, managed);
    SecondCounters(ctx, answers, Settled(ctx, managed), desired);
  }
}
