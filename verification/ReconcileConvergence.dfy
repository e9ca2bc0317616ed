/** After one cycle in which the providers do what they are asked, a second cycle neither destroys nor ensures anything. */
module ReconcileConvergence {
  import opened Wrappers
  import opened Ordering
  import opened Providers
  import opened ReconcilePlan
  import opened ReconcileTheorems
  import opened Reconciler

  // ---- The managed resources after a cycle ----

  function KeptBy(removed: set<string>): Managed -> bool {
    (m: Managed) => Identity(m) !in removed
  }

  function CreatedManaged(platform: string, naming: Naming): DesiredInstance -> Managed {
    (d: DesiredInstance) => Managed(Created(platform, naming)(d), OwnershipOf(platform, d))
  }

  lemma ManagedAppend(platform: string, resources: seq<Resource>, r: Resource)
    ensures ManagedOf(platform, resources + [r])
            == ManagedOf(platform, resources) + (if Manage(platform, r).Some? then [Manage(platform, r).value] else [])
  {
    assert (resources + [r])[..|resources|] == resources;
  }

  lemma {:induction false} ManagedConcat(platform: string, a: seq<Resource>, b: seq<Resource>)
    ensures ManagedOf(platform, a + b) == ManagedOf(platform, a) + ManagedOf(platform, b)
  {
    if b == [] {
      assert a + b == a;
    } else {
      var front, last := b[..|b| - 1], b[|b| - 1];
      assert b == front + [last] && a + b == (a + front) + [last];
      ManagedConcat(platform, a, front);
      ManagedAppend(platform, a + front, last);
      ManagedAppend(platform, front, last);
    }
  }

  /** Removing resources removes their identities, and nothing else, from the managed ones. */
  lemma {:induction false} ManagedSurvivors(platform: string, resources: seq<Resource>, removed: set<string>)
    ensures ManagedOf(platform, Filter(resources, Survives(platform, removed)))
            == Filter(ManagedOf(platform, resources), KeptBy(removed))
  {
    if resources != [] {
      var front, last := resources[..|resources| - 1], resources[|resources| - 1];
      assert resources == front + [last];
      ManagedSurvivors(platform, front, removed);
      FilterAppend(front, last, Survives(platform, removed));
      ManagedAppend(platform, front, last);
      var kept := Filter(front, Survives(platform, removed));
      if Survives(platform, removed)(last) {
        ManagedAppend(platform, kept, last);
      } else {
        assert Filter(resources, Survives(platform, removed)) == kept;
      }
      if Manage(platform, last).Some? {
        FilterAppend(ManagedOf(platform, front), Manage(platform, last).value, KeptBy(removed));
      } else {
        assert ManagedOf(platform, resources) == ManagedOf(platform, front);
      }
    }
  }

  lemma CreatedIsManaged(platform: string, naming: Naming, d: DesiredInstance)
    requires PlatformPattern(platform) && DesiredOk(d)
    ensures Manage(platform, Created(platform, naming)(d)) == Some(CreatedManaged(platform, naming)(d))
  {
    var key := OwnershipOf(platform, d);
    assert ValidKey(key);
    ParseInvertsLabels(key);
  }

  lemma {:induction false} CreatedAreManaged(platform: string, naming: Naming, desired: seq<DesiredInstance>)
    requires PlatformPattern(platform) && forall d | d in desired :: DesiredOk(d)
    ensures ManagedOf(platform, Map(desired, Created(platform, naming))) == Map(desired, CreatedManaged(platform, naming))
  {
    if desired != [] {
      var front, last := desired[..|desired| - 1], desired[|desired| - 1];
      assert desired == front + [last];
      assert last in desired;
      assert forall d | d in front :: d in desired;
      CreatedAreManaged(platform, naming, front);
      MapAppend(front, last, Created(platform, naming));
      MapAppend(front, last, CreatedManaged(platform, naming));
      ManagedAppend(platform, Map(front, Created(platform, naming)), Created(platform, naming)(last));
      CreatedIsManaged(platform, naming, last);
    }
  }

  // ---- The situation between two cycles ----

  /** Every destroy call stops its resource and every ensure call answers. */
  ghost predicate Succeeds(answers: Answers) {
    forall call: Call ::
      && (call.DestroyCall? ==> answers.observes(call) == Some(Stopped))
      && (call.EnsureCall? ==> answers.observes(call).Some?)
  }

  /** The same intent; only what was observed may differ. */
  predicate SameIntent(a: DesiredInstance, b: DesiredInstance) {
    b == a.(observedState := b.observedState, observedGeneration := b.observedGeneration,
            providerResourceId := b.providerResourceId)
  }

  /** A first cycle that succeeded, and what the second one sees: the rows intend the same and nothing has expired. */
  ghost predicate Between(ctx: Context, answers: Answers, naming: Naming, desired: seq<DesiredInstance>, resources: seq<Resource>,
                          managed: seq<Managed>, next: Context, desiredNext: seq<DesiredInstance>, managedNext: seq<Managed>) {
    && PlatformPattern(ctx.platform) && next.platform == ctx.platform
    && (forall d | d in desired :: DesiredOk(d))
    && Succeeds(answers)
    && Sees(ctx, desired, resources, managed)
    && Sees(next, desiredNext, ResourcesAfter(ctx, answers, naming, resources, managed, desired), managedNext)
    && |desiredNext| == |desired|
    && forall i | 0 <= i < |desired| ::
         SameIntent(desired[i], desiredNext[i]) && (ShouldStop(desired[i], ctx.now) <==> ShouldStop(desiredNext[i], next.now))
  }

  /** What the first cycle leaves: the resources not removed, and one per instance it ensured. */
  ghost predicate Leaves(ctx: Context, answers: Answers, naming: Naming, desired: seq<DesiredInstance>, managed: seq<Managed>,
                         managedNext: seq<Managed>) {
    managedNext == Filter(managed, KeptBy(Removed(ctx, answers, managed)))
                   + Map(Filter(desired, IsEnsured(ctx, answers, Settled(ctx, managed))), CreatedManaged(ctx.platform, naming))
  }

  lemma WhatIsLeft(ctx: Context, answers: Answers, naming: Naming, desired: seq<DesiredInstance>, resources: seq<Resource>,
                   managed: seq<Managed>)
    requires PlatformPattern(ctx.platform) && (forall d | d in desired :: DesiredOk(d))
    requires managed == ManagedOf(ctx.platform, resources)
    ensures Leaves(ctx, answers, naming, desired, managed,
                   ManagedOf(ctx.platform, ResourcesAfter(ctx, answers, naming, resources, managed, desired)))
  {
    var ensured := Filter(desired, IsEnsured(ctx, answers, Settled(ctx, managed)));
    FilterMembers(desired, IsEnsured(ctx, answers, Settled(ctx, managed)));
    ManagedConcat(ctx.platform, Filter(resources, Survives(ctx.platform, Removed(ctx, answers, managed))),
                  Map(ensured, Created(ctx.platform, naming)));
    ManagedSurvivors(ctx.platform, resources, Removed(ctx, answers, managed));
    CreatedAreManaged(ctx.platform, naming, ensured);
  }

  /** A resource of the next cycle was kept or created. */
  lemma NextMembers(ctx: Context, answers: Answers, naming: Naming, desired: seq<DesiredInstance>, managed: seq<Managed>,
                    managedNext: seq<Managed>)
    requires Leaves(ctx, answers, naming, desired, managed, managedNext)
    ensures forall m | m in managed && Identity(m) !in Removed(ctx, answers, managed) :: m in managedNext
    ensures forall d | d in desired && IsEnsured(ctx, answers, Settled(ctx, managed))(d) ::
              CreatedManaged(ctx.platform, naming)(d) in managedNext
    ensures forall m | m in managedNext ::
              || (m in managed && Identity(m) !in Removed(ctx, answers, managed))
              || exists d | d in desired ::
                   IsEnsured(ctx, answers, Settled(ctx, managed))(d) && m == CreatedManaged(ctx.platform, naming)(d)
  {
    var ensured := Filter(desired, IsEnsured(ctx, answers, Settled(ctx, managed)));
    var created := Map(ensured, CreatedManaged(ctx.platform, naming));
    FilterMembers(managed, KeptBy(Removed(ctx, answers, managed)));
    FilterMembers(desired, IsEnsured(ctx, answers, Settled(ctx, managed)));
    MapAt(ensured, CreatedManaged(ctx.platform, naming));
    forall d | d in ensured
      ensures CreatedManaged(ctx.platform, naming)(d) in created
    {
      var i :| 0 <= i < |ensured| && ensured[i] == d;
      assert created[i] in created;
    }
    forall m | m in created
      ensures exists d | d in ensured :: m == CreatedManaged(ctx.platform, naming)(d)
    {
      var i :| 0 <= i < |created| && created[i] == m;
      assert ensured[i] in ensured;
    }
  }

  /** An identity that is not removed is claimed at least as often as before. */
  lemma KeptCount(ctx: Context, answers: Answers, naming: Naming, desired: seq<DesiredInstance>, managed: seq<Managed>,
                  managedNext: seq<Managed>, key: string)
    requires Leaves(ctx, answers, naming, desired, managed, managedNext) && key !in Removed(ctx, answers, managed)
    ensures IdentityCount(managedNext, key) >= IdentityCount(managed, key)
  {
    var removed := Removed(ctx, answers, managed);
    FilterConcat(Filter(managed, KeptBy(removed)),
                 Map(Filter(desired, IsEnsured(ctx, answers, Settled(ctx, managed))), CreatedManaged(ctx.platform, naming)),
                 HasIdentity(key));
    FilterTwice(managed, KeptBy(removed), HasIdentity(key), HasIdentity(key));
  }

  lemma OnlyMember<T>(s: seq<T>, f: T -> bool, x: T, y: T)
    requires |Filter(s, f)| == 1 && x in s && y in s && f(x) && f(y)
    ensures x == y
  {
    FilterMembers(s, f);
  }

  /** With its identity goes only the resource that was to be destroyed. */
  lemma RemovedOnlyIfDestroyed(ctx: Context, answers: Answers, desired: seq<DesiredInstance>, resources: seq<Resource>,
                               managed: seq<Managed>, m: Managed)
    requires Sees(ctx, desired, resources, managed) && Succeeds(answers) && m in managed
    ensures Identity(m) in Removed(ctx, answers, managed) <==> VerdictOf(ctx, m).DestroyStale? || VerdictOf(ctx, m).DestroyCurrent?
  {
    assert DestroyCall(m.ownership).DestroyCall?;
    if Identity(m) in Removed(ctx, answers, managed) {
      var other :| other in managed && Identity(other) == Identity(m)
                   && (VerdictOf(ctx, other).DestroyStale? || VerdictOf(ctx, other).DestroyCurrent?);
      UniqueOrDuplicate(managed, other);
      OnlyMember(managed, HasIdentity(Identity(m)), m, other);
    }
  }

  // ---- The second cycle ----

  lemma Counterpart(desired: seq<DesiredInstance>, desiredNext: seq<DesiredInstance>, d: DesiredInstance) returns (before: DesiredInstance)
    requires |desired| == |desiredNext| && d in desiredNext
    requires forall i | 0 <= i < |desired| :: SameIntent(desired[i], desiredNext[i])
    ensures before in desired && SameIntent(before, d)
    ensures exists i :: 0 <= i < |desired| && desired[i] == before && desiredNext[i] == d
  {
    var i :| 0 <= i < |desiredNext| && desiredNext[i] == d;
    before := desired[i];
  }

  lemma DistinctById(desired: seq<DesiredInstance>, a: DesiredInstance, b: DesiredInstance)
    requires DistinctInstances(desired) && a in desired && b in desired && a.id == b.id
    ensures a == b
  {
  }

  /** Nothing that is left may be destroyed. */
  lemma NothingToDestroy(ctx: Context, answers: Answers, naming: Naming, desired: seq<DesiredInstance>, resources: seq<Resource>,
                         managed: seq<Managed>, next: Context, desiredNext: seq<DesiredInstance>, managedNext: seq<Managed>,
                         m: Managed, d: DesiredInstance)
    requires Between(ctx, answers, naming, desired, resources, managed, next, desiredNext, managedNext)
    requires m in managedNext && d in desiredNext
    ensures !MayDestroy(managedNext, m, d, next.now)
  {
    WhatIsLeft(ctx, answers, naming, desired, resources, managed);
    NextMembers(ctx, answers, naming, desired, managed, managedNext);
    var before := Counterpart(desired, desiredNext, d);
    if m.ownership.instance == d.id {
      if m in managed && Identity(m) !in Removed(ctx, answers, managed) {
        KeptIsNotDestroyed(ctx, answers, naming, desired, resources, managed, managedNext, m, before);
      } else {
        var e :| e in desired && IsEnsured(ctx, answers, Settled(ctx, managed))(e) && m == CreatedManaged(ctx.platform, naming)(e);
        DistinctById(desired, e, before);
      }
    }
  }

  lemma KeptIsNotDestroyed(ctx: Context, answers: Answers, naming: Naming, desired: seq<DesiredInstance>,
                           resources: seq<Resource>, managed: seq<Managed>, managedNext: seq<Managed>, m: Managed, d: DesiredInstance)
    requires Sees(ctx, desired, resources, managed) && Succeeds(answers)
    requires Leaves(ctx, answers, naming, desired, managed, managedNext)
    requires m in managed && Identity(m) !in Removed(ctx, answers, managed)
    requires d in desired && m.ownership.instance == d.id
    ensures BelongsTo(managedNext, m, d) ==> BelongsTo(managed, m, d)
    ensures !MayDestroy(managedNext, m, d, ctx.now)
  {
    RemovedOnlyIfDestroyed(ctx, answers, desired, resources, managed, m);
    VerdictMeaning(ctx, desired, resources, managed, m, d);
    KeptCount(ctx, answers, naming, desired, managed, managedNext, Identity(m));
    CountedOnce(managed, HasIdentity(Identity(m)), m);
  }

  /** Every instance that should run carries something current or doubtful. */
  lemma NothingToEnsure(ctx: Context, answers: Answers, naming: Naming, desired: seq<DesiredInstance>, resources: seq<Resource>,
                        managed: seq<Managed>, next: Context, desiredNext: seq<DesiredInstance>, managedNext: seq<Managed>,
                        d: DesiredInstance)
    requires Between(ctx, answers, naming, desired, resources, managed, next, desiredNext, managedNext)
    requires d in desiredNext && !ShouldStop(d, next.now)
    ensures !OnlyOlderGenerations(managedNext, d)
  {
    WhatIsLeft(ctx, answers, naming, desired, resources, managed);
    NextMembers(ctx, answers, naming, desired, managed, managedNext);
    var before := Counterpart(desired, desiredNext, d);
    SettledExactly(ctx, desired, resources, managed, before);
    if before.id in Settled(ctx, managed) {
      var m :| m in managed && m.ownership.instance == d.id
               && !(BelongsTo(managed, m, before) && m.ownership.generation < before.desiredGeneration);
      VerdictMeaning(ctx, desired, resources, managed, m, before);
      RemovedOnlyIfDestroyed(ctx, answers, desired, resources, managed, m);
      KeptIsNotDestroyed(ctx, answers, naming, desired, resources, managed, managedNext, m, before);
      assert m in managedNext;
    } else {
      assert Ensure(ctx, before).EnsureCall?;
      assert CreatedManaged(ctx.platform, naming)(before) in managedNext;
    }
  }

  function OfInstance(id: string): Managed -> bool {
    (m: Managed) => m.ownership.instance == id
  }

  /** A second cycle neither destroys nor ensures, whatever it is answered. */
  lemma SecondCycleIsQuiet(ctx: Context, answers: Answers, naming: Naming, desired: seq<DesiredInstance>,
                           resources: seq<Resource>, managed: seq<Managed>, next: Context, desiredNext: seq<DesiredInstance>,
                           managedNext: seq<Managed>, later: Answers, call: Call)
    requires Between(ctx, answers, naming, desired, resources, managed, next, desiredNext, managedNext)
    requires call in CycleCalls(next, later, managedNext, desiredNext)
    ensures !call.DestroyCall? && !call.EnsureCall?
  {
    var after := ResourcesAfter(ctx, answers, naming, resources, managed, desired);
    if call.DestroyCall? {
      DestroyedExactly(next, later, desiredNext, after, managedNext, call.key);
      var m :| m in managedNext && m.ownership == call.key && exists d | d in desiredNext :: MayDestroy(managedNext, m, d, next.now);
      var d :| d in desiredNext && MayDestroy(managedNext, m, d, next.now);
      NothingToDestroy(ctx, answers, naming, desired, resources, managed, next, desiredNext, managedNext, m, d);
    } else if call.EnsureCall? {
      EnsuredExactly(next, later, desiredNext, after, managedNext, call);
      var d :| d in desiredNext && Ensure(next, d) == call && !ShouldStop(d, next.now) && OnlyOlderGenerations(managedNext, d);
      NothingToEnsure(ctx, answers, naming, desired, resources, managed, next, desiredNext, managedNext, d);
    }
  }

  /** So a second cycle leaves the providers' resources exactly as they are. */
  lemma SecondCycleChangesNothing(ctx: Context, answers: Answers, naming: Naming, desired: seq<DesiredInstance>,
                                  resources: seq<Resource>, managed: seq<Managed>, next: Context,
                                  desiredNext: seq<DesiredInstance>, managedNext: seq<Managed>, later: Answers)
    requires Between(ctx, answers, naming, desired, resources, managed, next, desiredNext, managedNext)
    ensures var after := ResourcesAfter(ctx, answers, naming, resources, managed, desired);
            ResourcesAfter(next, later, naming, after, managedNext, desiredNext) == after
  {
    var after := ResourcesAfter(ctx, answers, naming, resources, managed, desired);
    forall m | m in managedNext
      ensures !VerdictOf(next, m).DestroyStale? && !VerdictOf(next, m).DestroyCurrent?
    {
      DestroyVerdict(next, desiredNext, after, managedNext, m);
      forall d | d in desiredNext
        ensures !MayDestroy(managedNext, m, d, next.now)
      {
        NothingToDestroy(ctx, answers, naming, desired, resources, managed, next, desiredNext, managedNext, m, d);
      }
    }
    assert Removed(next, later, managedNext) == {};
    forall d | d in desiredNext
      ensures !IsEnsured(next, later, Settled(next, managedNext))(d)
    {
      SettledExactly(next, desiredNext, after, managedNext, d);
      if !ShouldStop(d, next.now) {
        NothingToEnsure(ctx, answers, naming, desired, resources, managed, next, desiredNext, managedNext, d);
      }
    }
    FilterNone(desiredNext, IsEnsured(next, later, Settled(next, managedNext)));
    AllSurvive(next.platform, after);
  }

  /** What the two loops of the reconciler do, twice in a row: the second time they only inspect, report and record. */
  lemma CycleConverges(platform: string, naming: Naming, answers: Answers, later: Answers, desired: seq<DesiredInstance>,
                       desiredNext: seq<DesiredInstance>, now: int, nowNext: int, resources: seq<Resource>, calls: seq<Call>,
                       resources1: seq<Resource>, calls1: seq<Call>, result1: CycleResult, resources2: seq<Resource>,
                       calls2: seq<Call>, result2: CycleResult)
    requires Completed(platform, naming, answers, desired, now, resources, calls, resources1, calls1, result1)
    requires Completed(platform, naming, later, desiredNext, nowNext, resources1, calls1, resources2, calls2, result2)
    requires PlatformPattern(platform) && Succeeds(answers) && DistinctInstances(desired)
    requires (forall d | d in desired :: DesiredOk(d)) && |desiredNext| == |desired|
    requires forall i | 0 <= i < |desired| ::
               SameIntent(desired[i], desiredNext[i]) && (ShouldStop(desired[i], now) <==> ShouldStop(desiredNext[i], nowNext))
    ensures resources2 == resources1
    ensures |calls2| >= |calls1| && forall i | |calls1| <= i < |calls2| :: !calls2[i].DestroyCall? && !calls2[i].EnsureCall?
  {
    var managed, managedNext := ManagedOf(platform, resources), ManagedOf(platform, resources1);
    var ctx, next := ContextOf(platform, desired, managed, now), ContextOf(platform, desiredNext, managedNext, nowNext);
    assert DistinctInstances(desiredNext);
    SecondCycleChangesNothing(ctx, answers, naming, desired, resources, managed, next, desiredNext, managedNext, later);
    forall i | |calls1| <= i < |calls2|
      ensures !calls2[i].DestroyCall? && !calls2[i].EnsureCall?
    {
      assert calls2[i] in CycleCalls(next, later, managedNext, desiredNext);
      SecondCycleIsQuiet(ctx, answers, naming, desired, resources, managed, next, desiredNext, managedNext, later, calls2[i]);
    }
  }

  /** An instance that should run and has no doubtful resource has exactly one resource, of its current generation. */
  lemma RunningHasItsResource(ctx: Context, answers: Answers, naming: Naming, desired: seq<DesiredInstance>,
                              resources: seq<Resource>, managed: seq<Managed>, next: Context, desiredNext: seq<DesiredInstance>,
                              managedNext: seq<Managed>, d: DesiredInstance)
    requires Between(ctx, answers, naming, desired, resources, managed, next, desiredNext, managedNext)
    requires d in desiredNext && !ShouldStop(d, next.now) && d.id !in BlockedBy(next, managedNext)
    ensures |Filter(managedNext, OfInstance(d.id))| == 1
    ensures Filter(managedNext, OfInstance(d.id))[0].ownership == OwnershipOf(ctx.platform, d)
  {
    var after := ResourcesAfter(ctx, answers, naming, resources, managed, desired);
    NothingToEnsure(ctx, answers, naming, desired, resources, managed, next, desiredNext, managedNext, d);
    var m :| m in managedNext && m.ownership.instance == d.id
             && !(BelongsTo(managedNext, m, d) && m.ownership.generation < d.desiredGeneration);
    forall x | x in managedNext && x.ownership.instance == d.id
      ensures BelongsTo(managedNext, x, d) && x.ownership == OwnershipOf(ctx.platform, d)
    {
      CurrentResource(ctx, answers, naming, desired, resources, managed, next, desiredNext, managedNext, x, d);
    }
    FilterAgrees(managedNext, OfInstance(d.id), HasIdentity(Identity(m))) by {
      SameIdentityMeansInstance(next, desiredNext, after, managedNext, m, d);
    }
    FilterMembers(managedNext, OfInstance(d.id));
    assert Filter(managedNext, OfInstance(d.id))[0] in Filter(managedNext, OfInstance(d.id));
  }

  lemma CurrentResource(ctx: Context, answers: Answers, naming: Naming, desired: seq<DesiredInstance>, resources: seq<Resource>,
                        managed: seq<Managed>, next: Context, desiredNext: seq<DesiredInstance>, managedNext: seq<Managed>,
                        x: Managed, d: DesiredInstance)
    requires Between(ctx, answers, naming, desired, resources, managed, next, desiredNext, managedNext)
    requires d in desiredNext && d.id !in BlockedBy(next, managedNext)
    requires x in managedNext && x.ownership.instance == d.id
    ensures BelongsTo(managedNext, x, d) && x.ownership == OwnershipOf(ctx.platform, d)
  {
    var after := ResourcesAfter(ctx, answers, naming, resources, managed, desired);
    VerdictMeaning(next, desiredNext, after, managedNext, x, d);
    assert !Blocks(VerdictOf(next, x));
    NothingToDestroy(ctx, answers, naming, desired, resources, managed, next, desiredNext, managedNext, x, d);
    ManagedAreParsed(next.platform, after);
    ParsedKey(next.platform, x.resource, x);
  }

  /** Among valid keys the identity determines the instance. */
  lemma SameIdentityMeansInstance(next: Context, desiredNext: seq<DesiredInstance>, after: seq<Resource>, managedNext: seq<Managed>,
                                  m: Managed, d: DesiredInstance)
    requires Sees(next, desiredNext, after, managedNext) && m in managedNext && m.ownership == OwnershipOf(next.platform, d)
    requires forall x | x in managedNext && x.ownership.instance == d.id :: x.ownership == OwnershipOf(next.platform, d)
    ensures forall x | x in managedNext :: OfInstance(d.id)(x) == HasIdentity(Identity(m))(x)
  {
    ManagedAreParsed(next.platform, after);
    forall x | x in managedNext
      ensures OfInstance(d.id)(x) == HasIdentity(Identity(m))(x)
    {
      ParsedKey(next.platform, x.resource, x);
      ParsedKey(next.platform, m.resource, m);
      IdentityKeyInjective(x.ownership, m.ownership);
    }
  }
}
