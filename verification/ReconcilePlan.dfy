/** What one reconciliation cycle decides: a verdict for every managed resource and every desired instance. */
module ReconcilePlan {
  import opened Wrappers
  import opened Ordering
  import opened Providers

  datatype DesiredState = DesireRunning | DesireStopped
  datatype ObservedState = Pending | Starting | Running | Stopping | Stopped | Failed | Unknown

  datatype DesiredInstance = DesiredInstance(
    id: string, provider: Provider, desiredState: DesiredState, desiredGeneration: nat, observedState: ObservedState,
    observedGeneration: nat, expiresAt: Option<int>, providerResourceId: string, contest: string, challenge: string,
    participation: string, team: string, runtimeSpec: Option<int>)

  datatype Resource = Resource(provider: Provider, resourceId: string, labels: map<string, string>)

  /** A resource whose labels name a key of this platform. */
  datatype Managed = Managed(resource: Resource, ownership: InstanceKey)

  datatype Reason = UnknownInstance | IdentityMismatch | ProviderMismatch | FutureGeneration | DuplicateIdentity

  predicate IsSpace(c: char) {
    || c in "\t\n\U{000B}\U{000C}\r \U{0085}\U{00A0}\U{1680}\U{2028}\U{2029}\U{202F}\U{205F}\U{3000}"
    || '\U{2000}' <= c <= '\U{200A}'
  }

  predicate Trimmed(s: string) {
    s != "" ==> !IsSpace(s[0]) && !IsSpace(s[|s| - 1])
  }

  predicate ResourceOk(r: Resource) {
    r.resourceId != "" && |r.resourceId| <= 255 && Trimmed(r.resourceId)
  }

  predicate DesiredOk(d: DesiredInstance) {
    && Uuid(d.id) && Uuid(d.contest) && Uuid(d.challenge) && Uuid(d.participation) && Uuid(d.team)
    && ValidGeneration(d.desiredGeneration) && d.observedGeneration <= d.desiredGeneration
    && (d.desiredState.DesireRunning? ==> d.runtimeSpec.Some?)
    && |d.providerResourceId| <= 255 && Trimmed(d.providerResourceId)
  }

  function OwnershipOf(platform: string, d: DesiredInstance): InstanceKey {
    InstanceKey(platform, d.provider, d.contest, d.challenge, d.team, d.id, d.desiredGeneration)
  }

  predicate ShouldStop(d: DesiredInstance, now: int) {
    d.desiredState.DesireStopped? || (d.expiresAt.Some? && d.expiresAt.value <= now)
  }

  // ---- Which resources count ----

  function Manage(platform: string, r: Resource): Option<Managed> {
    if !ResourceOk(r) then None
    else
      var key := ParseInstanceKey(r.labels, platform, r.provider);
      if key.Success? then Some(Managed(r, key.value)) else None
  }

  function ManagedOf(platform: string, resources: seq<Resource>): (managed: seq<Managed>)
    ensures |managed| <= |resources|
  {
    if resources == [] then []
    else
      var last := Manage(platform, resources[|resources| - 1]);
      ManagedOf(platform, resources[..|resources| - 1]) + (if last.Some? then [last.value] else [])
  }

  function Identity(m: Managed): string {
    IdentityKey(m.ownership)
  }

  function HasIdentity(key: string): Managed -> bool {
    (m: Managed) => Identity(m) == key
  }

  function IdentityCount(managed: seq<Managed>, key: string): nat {
    |Filter(managed, HasIdentity(key))|
  }

  /** The identities that more than one managed resource claims. */
  function Duplicates(managed: seq<Managed>): set<string> {
    set m | m in managed && IdentityCount(managed, Identity(m)) > 1 :: Identity(m)
  }

  lemma DuplicatesCount(managed: seq<Managed>, m: Managed)
    requires m in managed
    ensures Identity(m) in Duplicates(managed) <==> IdentityCount(managed, Identity(m)) > 1
  {
  }

  // ---- What is decided about them ----

  function DesiredById(desired: seq<DesiredInstance>): map<string, DesiredInstance> {
    if desired == [] then map[]
    else DesiredById(desired[..|desired| - 1])[desired[|desired| - 1].id := desired[|desired| - 1]]
  }

  /** All that a decision depends on. */
  datatype Context = Context(platform: string, byId: map<string, DesiredInstance>, duplicates: set<string>, now: int)

  function ContextOf(platform: string, desired: seq<DesiredInstance>, managed: seq<Managed>, now: int): Context {
    Context(platform, DesiredById(desired), Duplicates(managed), now)
  }

  datatype Verdict = Report(reason: Reason) | DestroyStale | DestroyCurrent | Inspect

  predicate SameOwner(a: InstanceKey, b: InstanceKey) {
    a.contest == b.contest && a.challenge == b.challenge && a.team == b.team
  }

  function VerdictOf(ctx: Context, m: Managed): Verdict {
    if m.ownership.instance !in ctx.byId then Report(UnknownInstance)
    else
      var d := ctx.byId[m.ownership.instance];
      if Identity(m) in ctx.duplicates then Report(DuplicateIdentity)
      else if m.resource.provider != d.provider then Report(ProviderMismatch)
      else if !SameOwner(m.ownership, OwnershipOf(ctx.platform, d)) then Report(IdentityMismatch)
      else if m.ownership.generation > d.desiredGeneration then Report(FutureGeneration)
      else if m.ownership.generation < d.desiredGeneration then DestroyStale
      else if ShouldStop(d, ctx.now) then DestroyCurrent
      else Inspect
  }

  predicate Blocks(v: Verdict) {
    v.Report? && !v.reason.UnknownInstance?
  }

  predicate Handles(v: Verdict) {
    v.DestroyCurrent? || v.Inspect?
  }

  function BlockedBy(ctx: Context, managed: seq<Managed>): set<string> {
    set m | m in managed && Blocks(VerdictOf(ctx, m)) :: m.ownership.instance
  }

  function HandledBy(ctx: Context, managed: seq<Managed>): set<string> {
    set m | m in managed && Handles(VerdictOf(ctx, m)) :: m.ownership.instance
  }

  // ---- Calls to the providers and to the store ----

  datatype Call =
    | DestroyCall(key: InstanceKey)
    | InspectCall(key: InstanceKey)
    | EnsureCall(key: InstanceKey, spec: int, expiresAt: Option<int>)
    | ReportCall(managed: Managed, reason: Reason)
    | RecordCall(instance: string, generation: nat, expectedResourceId: string, state: ObservedState)

  /** How providers answer (an observed state, or an error) and whether the store accepts a write. */
  datatype Answers = Answers(observes: Call -> Option<ObservedState>, accepts: Call -> bool)

  function Record(d: DesiredInstance, expectedResourceId: string, state: ObservedState): Call {
    RecordCall(d.id, d.desiredGeneration, expectedResourceId, state)
  }

  /** The calls for one managed resource, in order. */
  function ResourceCalls(ctx: Context, answers: Answers): Managed -> seq<Call> {
    (m: Managed) =>
      match VerdictOf(ctx, m)
      case Report(reason) => [ReportCall(m, reason)]
      case DestroyStale => [DestroyCall(m.ownership)]
      case DestroyCurrent =>
        var call := DestroyCall(m.ownership);
        [call] + (if answers.observes(call) == Some(Stopped)
                  then [Record(ctx.byId[m.ownership.instance], m.resource.resourceId, Stopped)] else [])
      case Inspect =>
        var call := InspectCall(m.ownership);
        [call] + (if answers.observes(call).Some?
                  then [Record(ctx.byId[m.ownership.instance], m.resource.resourceId, answers.observes(call).value)] else [])
  }

  datatype Tally = Orphan | FailedResource | Destroyed | Inspected

  /** How the work on one managed resource ends. */
  function ResourceTally(ctx: Context, answers: Answers): Managed -> Tally {
    (m: Managed) =>
      match VerdictOf(ctx, m)
      case Report(reason) => if answers.accepts(ReportCall(m, reason)) then Orphan else FailedResource
      case DestroyStale => if answers.observes(DestroyCall(m.ownership)) == Some(Stopped) then Destroyed else FailedResource
      case DestroyCurrent =>
        if answers.observes(DestroyCall(m.ownership)) == Some(Stopped)
           && answers.accepts(Record(ctx.byId[m.ownership.instance], m.resource.resourceId, Stopped)) then Destroyed else FailedResource
      case Inspect =>
        var state := answers.observes(InspectCall(m.ownership));
        if state.Some? && answers.accepts(Record(ctx.byId[m.ownership.instance], m.resource.resourceId, state.value))
        then Inspected else FailedResource
  }

  function TallyIs(ctx: Context, answers: Answers, tally: Tally): Managed -> bool {
    (m: Managed) => ResourceTally(ctx, answers)(m) == tally
  }

  function Ensure(ctx: Context, d: DesiredInstance): Call {
    EnsureCall(OwnershipOf(ctx.platform, d), if d.runtimeSpec.Some? then d.runtimeSpec.value else 0, d.expiresAt)
  }

  predicate AlreadyRecorded(d: DesiredInstance) {
    d.observedState == Stopped && d.observedGeneration == d.desiredGeneration && d.providerResourceId == ""
  }

  /** The calls for one desired instance that no resource has settled. */
  function InstanceCalls(ctx: Context, answers: Answers, settled: set<string>): DesiredInstance -> seq<Call> {
    (d: DesiredInstance) =>
      if d.id in settled then []
      else if ShouldStop(d, ctx.now) then
        if AlreadyRecorded(d) then [] else [Record(d, d.providerResourceId, Stopped)]
      else
        var call := Ensure(ctx, d);
        [call] + (if answers.observes(call).Some?
                  then [Record(d, d.providerResourceId, answers.observes(call).value)] else [])
  }

  datatype InstanceTally = Skipped | Ensured | FailedInstance

  function TallyOfInstance(ctx: Context, answers: Answers, settled: set<string>): DesiredInstance -> InstanceTally {
    (d: DesiredInstance) =>
      if d.id in settled then Skipped
      else if ShouldStop(d, ctx.now) then
        if AlreadyRecorded(d) || answers.accepts(Record(d, d.providerResourceId, Stopped)) then Skipped else FailedInstance
      else
        var state := answers.observes(Ensure(ctx, d));
        if state.Some? && answers.accepts(Record(d, d.providerResourceId, state.value)) then Ensured else FailedInstance
  }

  function InstanceTallyIs(ctx: Context, answers: Answers, settled: set<string>, tally: InstanceTally): DesiredInstance -> bool {
    (d: DesiredInstance) => TallyOfInstance(ctx, answers, settled)(d) == tally
  }

  /** All lists behind each other. */
  function Flat<T, U>(s: seq<T>, f: T -> seq<U>): seq<U> {
    if s == [] then [] else Flat(s[..|s| - 1], f) + f(s[|s| - 1])
  }

  function Settled(ctx: Context, managed: seq<Managed>): set<string> {
    HandledBy(ctx, managed) + BlockedBy(ctx, managed)
  }

  /** Everything a cycle calls. */
  function CycleCalls(ctx: Context, answers: Answers, managed: seq<Managed>, desired: seq<DesiredInstance>): seq<Call> {
    Flat(managed, ResourceCalls(ctx, answers)) + Flat(desired, InstanceCalls(ctx, answers, Settled(ctx, managed)))
  }

  datatype CycleResult = CycleResult(
    desired: nat, resources: nat, ensured: nat, inspected: nat, destroyed: nat, orphans: nat, unmanaged: nat, failures: nat)

  function ResourceTallies(ctx: Context, answers: Answers, managed: seq<Managed>, tally: Tally): nat {
    |Filter(managed, TallyIs(ctx, answers, tally))|
  }

  function InstanceTallies(ctx: Context, answers: Answers, settled: set<string>, desired: seq<DesiredInstance>,
                           tally: InstanceTally): nat {
    |Filter(desired, InstanceTallyIs(ctx, answers, settled, tally))|
  }

  /** The counters after both loops. */
  function ResultOf(ctx: Context, answers: Answers, resources: seq<Resource>, managed: seq<Managed>,
                    desired: seq<DesiredInstance>): CycleResult
    requires |managed| <= |resources|
  {
    var settled := Settled(ctx, managed);
    CycleResult(
      |desired|, |resources|, InstanceTallies(ctx, answers, settled, desired, Ensured),
      ResourceTallies(ctx, answers, managed, Inspected), ResourceTallies(ctx, answers, managed, Destroyed),
      ResourceTallies(ctx, answers, managed, Orphan), |resources| - |managed|,
      ResourceTallies(ctx, answers, managed, FailedResource) + InstanceTallies(ctx, answers, settled, desired, FailedInstance))
  }

  // ---- What the calls do to the providers ----

  /** The identities whose destruction the providers confirm. */
  function Removed(ctx: Context, answers: Answers, managed: seq<Managed>): set<string> {
    set m | m in managed && (VerdictOf(ctx, m).DestroyStale? || VerdictOf(ctx, m).DestroyCurrent?)
            && answers.observes(DestroyCall(m.ownership)) == Some(Stopped) :: Identity(m)
  }

  /** Every resource but those with a removed identity. */
  function Survives(platform: string, removed: set<string>): Resource -> bool {
    (r: Resource) => Manage(platform, r).None? || Identity(Manage(platform, r).value) !in removed
  }

  /** Names for the resources that providers create. */
  type Naming = f: InstanceKey -> string | forall key: InstanceKey :: f(key) != "" && |f(key)| <= 255 && Trimmed(f(key))
    witness (key: InstanceKey) => "r"

  function Created(platform: string, naming: Naming): DesiredInstance -> Resource {
    (d: DesiredInstance) =>
      Resource(d.provider, naming(OwnershipOf(platform, d)), Labels(OwnershipOf(platform, d)))
  }

  /** An instance for which the providers confirm an ensure call. */
  function IsEnsured(ctx: Context, answers: Answers, settled: set<string>): DesiredInstance -> bool {
    (d: DesiredInstance) =>
      d.id !in settled && !ShouldStop(d, ctx.now) && answers.observes(Ensure(ctx, d)).Some?
  }

  /** The resources that exist after a cycle. */
  function ResourcesAfter(ctx: Context, answers: Answers, naming: Naming, resources: seq<Resource>, managed: seq<Managed>,
                          desired: seq<DesiredInstance>): seq<Resource> {
    Filter(resources, Survives(ctx.platform, Removed(ctx, answers, managed)))
    + Map(Filter(desired, IsEnsured(ctx, answers, Settled(ctx, managed))), Created(ctx.platform, naming))
  }
}
