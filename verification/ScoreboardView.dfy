/** Versioned scoreboard snapshots: live, frozen and settled projections, read while facts arrive and replicas write. */
module ScoreboardView {
  import opened Wrappers
  import opened ScoringReplay
  import opened Scoreboard
  import opened ScoreboardFacts

  datatype View = Public | Internal
  datatype Role = User | Organizer | Admin
  datatype Publication = Draft | Published | Archived
  datatype Visibility = Open | Restricted
  datatype ProjectionState = Live | Frozen | Settled
  datatype Freshness = Current | Stale
  datatype ViewError =
    | NotFound | InternalForbidden | ScopeInvalid | SnapshotConflict | FactsUnavailable | NoBoard(reason: BuildError)

  datatype SnapshotKey = SnapshotKey(view: View, scopeKey: string, version: nat)
  datatype Snapshot = Snapshot(view: View, scope: Scope, scopeKey: string, version: nat, board: Board, builtAt: Time)
  datatype Projection = Projection(
    view: View, state: ProjectionState, freshness: Freshness, version: nat, frozenAt: Option<Time>, builtAt: Time,
    board: Board)

  /** What the database holds at one moment: the facts so far, the contest row and the snapshot table. */
  datatype World = World(
    log: seq<Entry>, clock: Time, publication: Publication, visibility: Visibility, snapshots: map<SnapshotKey, Snapshot>)

  predicate IsSettled(c: Contest, w: World) {
    w.publication.Archived? || w.clock >= c.endAt
  }

  predicate IsFrozen(c: Contest, w: World) {
    !IsSettled(c, w) && c.freezeAt.Some? && w.clock >= c.freezeAt.value
  }

  function StateAt(c: Contest, w: World, view: View): ProjectionState {
    if view.Internal? then Live else if IsSettled(c, w) then Settled else if IsFrozen(c, w) then Frozen else Live
  }

  // ---- Invariant ----

  predicate ScopeKnown(c: Contest, scope: Scope) {
    scope.Division? ==> scope.divisionId in c.divisions
  }

  predicate AllBefore(log: seq<Entry>, n: nat, t: Time) {
    n <= |log| && forall i | 0 <= i < n :: TimeOf(log[i]) < t
  }

  /** The first `n` facts are those from before the time. */
  predicate SeesAllBefore(log: seq<Entry>, n: nat, t: Time) {
    n <= |log| && forall i | 0 <= i < |log| :: TimeOf(log[i]) < t <==> i < n
  }

  /** The snapshot holds the board of the first `version` facts. */
  ghost predicate SnapshotOk(b: Boards, c: Contest, log: seq<Entry>, key: SnapshotKey, s: Snapshot) {
    && key == SnapshotKey(s.view, s.scopeKey, s.version)
    && s.scopeKey == ScopeKey(s.scope) && ScopeKnown(c, s.scope)
    && s.version <= |log|
    && b(log[..s.version], s.scope) == Some(s.board)
  }

  ghost predicate SnapshotsOk(b: Boards, c: Contest, w: World) {
    forall key | key in w.snapshots :: SnapshotOk(b, c, w.log, key, w.snapshots[key])
  }

  predicate Stamped(w: World) {
    LogOk(w.log) && forall i | 0 <= i < |w.log| :: TimeOf(w.log[i]) <= w.clock
  }

  ghost predicate Valid(b: Boards, c: Contest, w: World) {
    && OVERALL_KEY !in c.divisions
    && Stamped(w)
    && SnapshotsOk(b, c, w)
  }

  predicate KeepsSnapshots(a: World, b: World) {
    forall key | key in a.snapshots :: key in b.snapshots && b.snapshots[key] == a.snapshots[key]
  }

  /** What may happen between two moments: time passes, facts and snapshots are added, an archived contest stays archived. */
  ghost predicate Evolves(b: Boards, c: Contest, v: World, w: World) {
    && Valid(b, c, w)
    && v.clock <= w.clock
    && v.log <= w.log
    && (v.publication.Archived? ==> w.publication.Archived?)
    && KeepsSnapshots(v, w)
  }

  lemma EvolvesTrans(b: Boards, c: Contest, x: World, y: World, z: World)
    requires Evolves(b, c, x, y) && Evolves(b, c, y, z)
    ensures Evolves(b, c, x, z)
  {
  }

  /** A board once determined by a prefix of the log stays determined by it. */
  lemma PrefixStays(a: seq<Entry>, b: seq<Entry>, n: nat)
    requires a <= b && n <= |a|
    ensures a[..n] == b[..n]
  {
  }

  lemma SnapshotStaysOk(b: Boards, c: Contest, v: World, w: World, key: SnapshotKey, s: Snapshot)
    requires Evolves(b, c, v, w) && SnapshotOk(b, c, v.log, key, s)
    ensures SnapshotOk(b, c, w.log, key, s)
  {
    PrefixStays(v.log, w.log, s.version);
  }

  lemma BeforeStays(a: seq<Entry>, b: seq<Entry>, n: nat, t: Time)
    requires a <= b && n <= |a|
    ensures AllBefore(a, n, t) <==> AllBefore(b, n, t)
  {
    assert forall i | 0 <= i < n :: a[i] == b[i];
  }

  // ---- One read and what happens around it ----

  /** What a read goes by: the clock it looks at first, and the contest row it looks at next. */
  function Seen(now: Time, row: World): World {
    row.(clock := now)
  }

  lemma SeenEvolves(b: Boards, c: Contest, start: World, row: World, w: World)
    requires Evolves(b, c, start, row) && Evolves(b, c, row, w)
    ensures Evolves(b, c, Seen(start.clock, row), w)
  {
  }

  /**
    * The moments at which one read, begun at the moment of its clock, next looks at the database: the contest row, a
    * first lookup, two lookups before a build, one inside it, the replay, and the write or the fallback lookup.
    */
  datatype Schedule = Schedule(row: World, first: World, lookup: World, rebuild: World, recheck: World, load: World,
                               finish: World, available: bool, order: RowOrder)

  /** The moments from the lookup inside a build on. */
  ghost predicate FollowsFrom(b: Boards, c: Contest, w: World, s: Schedule) {
    Evolves(b, c, w, s.recheck) && Evolves(b, c, s.recheck, s.load) && Evolves(b, c, s.load, s.finish)
  }

  /** The moments from the first lookup on. */
  ghost predicate FollowsRow(b: Boards, c: Contest, w: World, s: Schedule) {
    && Evolves(b, c, w, s.first) && Evolves(b, c, s.first, s.lookup) && Evolves(b, c, s.lookup, s.rebuild)
    && FollowsFrom(b, c, s.rebuild, s)
  }

  ghost predicate Follows(b: Boards, c: Contest, w: World, s: Schedule) {
    Evolves(b, c, w, s.row) && FollowsRow(b, c, s.row, s)
  }

  ghost predicate Shows(b: Boards, c: Contest, w: World, scope: Scope, p: Projection) {
    p.version <= |w.log| && b(w.log[..p.version], scope) == Some(p.board)
  }

  /** The projection is the stored row of this key. */
  predicate IsStored(w: World, key: SnapshotKey, p: Projection) {
    key in w.snapshots && w.snapshots[key].board == p.board && w.snapshots[key].builtAt == p.builtAt
  }

  /** A projection that answers a read that went by `start` and finished in world `w`. */
  ghost predicate Answered(b: Boards, c: Contest, start: World, w: World, view: View, scope: Scope, p: Projection) {
    && p.view == view && p.state == StateAt(c, start, view)
    && Shows(b, c, w, scope, p) && IsStored(w, SnapshotKey(view, ScopeKey(scope), p.version), p)
    && (if p.state.Frozen?
        then p.freshness.Current? && p.frozenAt == c.freezeAt
        else p.frozenAt == None
             && (p.freshness.Current? ==> p.version == |start.log|)
             && (p.freshness.Stale? ==> view.Public? && p.version < |start.log|))
  }

  lemma AnsweredStays(b: Boards, c: Contest, start: World, v: World, w: World, view: View, scope: Scope, p: Projection)
    requires Answered(b, c, start, v, view, scope, p) && Evolves(b, c, v, w)
    ensures Answered(b, c, start, w, view, scope, p)
  {
    PrefixStays(v.log, w.log, p.version);
  }

  /** The facts that a rebuild sees determine a board of the version it needs. */
  ghost predicate CanRebuild(b: Boards, c: Contest, start: World, view: View, scope: Scope, s: Schedule) {
    && s.available
    && if StateAt(c, start, view).Frozen?
       then b(s.load.log[..VisibleCount(s.load.log, c.freezeAt)], scope).Some?
       else s.load.log == start.log && b(start.log, scope).Some?
  }

  function Stored(w: World, view: View, scopeKey: string, version: nat): Option<Snapshot> {
    var key := SnapshotKey(view, scopeKey, version);
    if key in w.snapshots then Some(w.snapshots[key]) else None
  }

  function Project(s: Snapshot, state: ProjectionState, freezeAt: Option<Time>, freshness: Freshness): Projection {
    Projection(s.view, state, freshness, s.version, if state.Frozen? then freezeAt else None, s.builtAt, s.board)
  }

  /** `ORDER BY version DESC LIMIT 1`. */
  predicate IsLatest(w: World, view: View, scopeKey: string, latest: Option<Snapshot>) {
    && (latest.Some? ==>
          Stored(w, view, scopeKey, latest.value.version) == latest)
    && (forall key | key in w.snapshots && key.view == view && key.scopeKey == scopeKey ::
          latest.Some? && key.version <= latest.value.version)
  }

  predicate IsPublicRow(key: SnapshotKey, scopeKey: string) {
    key.view.Public? && key.scopeKey == scopeKey
  }

  /** Some public row of the scope is stored. */
  predicate HasPublic(w: World, scopeKey: string) {
    exists key | key in w.snapshots :: IsPublicRow(key, scopeKey)
  }

  /** Some public row of the scope has seen a fact from the freeze on. */
  predicate HasPastFreeze(c: Contest, w: World, scopeKey: string) {
    c.freezeAt.Some? && exists key | key in w.snapshots :: IsPublicRow(key, scopeKey) && !AllBefore(w.log, key.version, c.freezeAt.value)
  }

  /** Where a read during the freeze finds a row: at the first of its three lookups that sees one. */
  function FirstFinding(s: Schedule, scopeKey: string): World {
    if HasPublic(s.first, scopeKey) then s.first else if HasPublic(s.rebuild, scopeKey) then s.rebuild else s.recheck
  }

  /** When a read during the freeze shows a fact from the freeze on: there, a row past the freeze is stored. */
  predicate Leaks(c: Contest, s: Schedule, scopeKey: string) {
    HasPastFreeze(c, FirstFinding(s, scopeKey), scopeKey)
  }

  /** The newest public row is past the freeze if any is. */
  lemma LatestDecides(b: Boards, c: Contest, w: World, scopeKey: string, latest: Option<Snapshot>)
    requires Valid(b, c, w) && IsLatest(w, Public, scopeKey, latest) && c.freezeAt.Some?
    ensures latest.Some? <==> HasPublic(w, scopeKey)
    ensures latest.Some? ==> (HasPastFreeze(c, w, scopeKey) <==> !AllBefore(w.log, latest.value.version, c.freezeAt.value))
  {
    if latest.Some? {
      var key := SnapshotKey(Public, scopeKey, latest.value.version);
      assert SnapshotOk(b, c, w.log, key, w.snapshots[key]);
      assert IsPublicRow(key, scopeKey);
    }
  }

  /** A stored snapshot of the scope answers for its version. */
  lemma StoredIsCorrect(b: Boards, c: Contest, start: World, w: World, view: View, scope: Scope, version: nat,
                        state: ProjectionState, freshness: Freshness)
    requires Evolves(b, c, start, w) && ScopeKnown(c, scope) && state == StateAt(c, start, view)
    requires Stored(w, view, ScopeKey(scope), version).Some?
    requires state.Frozen? ==> freshness.Current?
    requires !state.Frozen? && freshness.Current? ==> version == |start.log|
    requires freshness.Stale? ==> view.Public? && version < |start.log|
    ensures Answered(b, c, start, w, view, scope, Project(Stored(w, view, ScopeKey(scope), version).value, state, c.freezeAt, freshness))
  {
    var key := SnapshotKey(view, ScopeKey(scope), version);
    assert SnapshotOk(b, c, w.log, key, w.snapshots[key]);
    assert w.snapshots[key].scope == scope;
  }

  /** Another replica that stored this version from the same facts stored the same board. */
  lemma NoConflict(b: Boards, c: Contest, w: World, s: Snapshot)
    requires Valid(b, c, w) && SnapshotOk(b, c, w.log, SnapshotKey(s.view, s.scopeKey, s.version), s)
    ensures Stored(w, s.view, s.scopeKey, s.version).Some? ==> Stored(w, s.view, s.scopeKey, s.version).value.board == s.board
  {
    var key := SnapshotKey(s.view, s.scopeKey, s.version);
    if key in w.snapshots {
      assert SnapshotOk(b, c, w.log, key, w.snapshots[key]);
      assert w.snapshots[key].scope == s.scope;
    }
  }

  function Inserted(w: World, s: Snapshot): World {
    w.(snapshots := w.snapshots[SnapshotKey(s.view, s.scopeKey, s.version) := s])
  }

  /** A row that may be written holds the board of its first facts. */
  ghost predicate Writable(b: Boards, c: Contest, w: World, s: Snapshot) {
    SnapshotOk(b, c, w.log, SnapshotKey(s.view, s.scopeKey, s.version), s)
  }

  lemma InsertKeepsSnapshots(b: Boards, c: Contest, w: World, s: Snapshot)
    requires SnapshotsOk(b, c, w) && Writable(b, c, w, s)
    ensures SnapshotsOk(b, c, Inserted(w, s))
  {
    var next := Inserted(w, s);
    forall k | k in next.snapshots
      ensures SnapshotOk(b, c, next.log, k, next.snapshots[k])
    {
      if k != SnapshotKey(s.view, s.scopeKey, s.version) {
        assert SnapshotOk(b, c, w.log, k, w.snapshots[k]);
      }
    }
  }

  lemma InsertKeepsValid(b: Boards, c: Contest, w: World, s: Snapshot)
    requires Valid(b, c, w) && Writable(b, c, w, s) && Stored(w, s.view, s.scopeKey, s.version).None?
    ensures Evolves(b, c, w, Inserted(w, s))
  {
    InsertKeepsSnapshots(b, c, w, s);
    assert KeepsSnapshots(w, Inserted(w, s));
    assert Valid(b, c, Inserted(w, s));
  }

  class ScoreboardViewService {
    const contest: Contest
    ghost const boards: Boards
    var world: World

    constructor (contest: Contest, ghost boards: Boards, world: World)
      requires Determines(contest, boards) && Valid(boards, contest, world)
      ensures this.contest == contest && this.boards == boards && this.world == world
    {
      this.contest := contest;
      this.boards := boards;
      this.world := world;
    }

    /** Looks through the snapshot table. */
    method LatestSnapshot(view: View, scopeKey: string) returns (latest: Option<Snapshot>)
      requires Valid(boards, contest, world)
      ensures IsLatest(world, view, scopeKey, latest)
    {
      latest := None;
      var rest := world.snapshots.Keys;
      while rest != {}
        invariant rest <= world.snapshots.Keys
        invariant latest.Some? ==> Stored(world, view, scopeKey, latest.value.version) == latest
        invariant forall key | key in world.snapshots && key !in rest && key.view == view && key.scopeKey == scopeKey ::
                    latest.Some? && key.version <= latest.value.version
        decreases |rest|
      {
        ghost var _ := Member(rest);
        var key :| key in rest;
        rest := rest - {key};
        assert SnapshotOk(boards, contest, world.log, key, world.snapshots[key]);
        if key.view == view && key.scopeKey == scopeKey && (latest.None? || key.version > latest.value.version) {
          latest := Some(world.snapshots[key]);
        }
      }
    }

    /** `INSERT … ON CONFLICT DO NOTHING`, then compare with what is stored; `None` would be a conflict. */
    method WriteSnapshot(s: Snapshot) returns (stored: Option<Snapshot>)
      requires Valid(boards, contest, world) && Writable(boards, contest, world, s)
      modifies this`world
      ensures stored.Some? && stored.value.board == s.board
      ensures stored == Stored(world, s.view, s.scopeKey, s.version)
      ensures world == if Stored(old(world), s.view, s.scopeKey, s.version).Some? then old(world) else Inserted(old(world), s)
      ensures Evolves(boards, contest, old(world), world)
    {
      var key := SnapshotKey(s.view, s.scopeKey, s.version);
      NoConflict(boards, contest, world, s);
      if key !in world.snapshots {
        InsertKeepsValid(boards, contest, world, s);
        world := Inserted(world, s);
      }
      var row := world.snapshots[key];
      stored := if row.board == s.board then Some(row) else None;
    }

    method BuildVersion(version: Option<nat>, factsBefore: Option<Time>, scope: Scope, order: RowOrder)
      returns (result: Result<Built, ViewError>)
      requires Determines(contest, boards) && Valid(boards, contest, world)
      ensures var n := VisibleCount(world.log, factsBefore);
              && (result.Success? <==> (version.Some? ==> version.value == n) && boards(world.log[..n], scope).Some?)
              && (result.Success? ==> boards(world.log[..n], scope) == Some(result.value.board) && result.value.version == n)
      ensures result.Failure? ==> BuildFailed(result.error)
    {
      var built := ReplayAndBuild(contest, boards, world.log, factsBefore, order, version, scope);
      match built {
        case Success(value) => result := Success(value);
        case Failure(VersionMismatch) => result := Failure(SnapshotConflict);
        case Failure(error) => result := Failure(NoBoard(error));
      }
    }

    /** Replay the facts, build the board and store it under the version it needs. */
    method Generate(ghost start: World, scope: Scope, view: View, state: ProjectionState, version: Option<nat>, now: Time,
                    factsBefore: Option<Time>, s: Schedule)
      returns (result: Result<Projection, ViewError>)
      requires Determines(contest, boards) && Asked(boards, contest, start, scope, view, state, version, factsBefore)
      requires Evolves(boards, contest, start, world)
      requires Evolves(boards, contest, world, s.load) && Evolves(boards, contest, s.load, s.finish)
      modifies this`world
      ensures Evolves(boards, contest, old(world), world) && Evolves(boards, contest, start, world)
      ensures result.Success? ==>
                Answered(boards, contest, start, world, view, scope, result.value) && result.value.freshness.Current?
      ensures result.Success? && state.Frozen? ==>
                && AllBefore(world.log, result.value.version, contest.freezeAt.value)
                && SeesAllBefore(s.load.log, result.value.version, contest.freezeAt.value)
      ensures result.Failure? ==> world == s.load && !CanRebuild(boards, contest, start, view, scope, s) && BuildFailed(result.error)
    {
      EvolvesTrans(boards, contest, start, world, s.load);
      EvolvesTrans(boards, contest, world, s.load, s.finish);
      world := s.load;
      if !s.available {
        return Failure(FactsUnavailable);
      }
      var built := BuildVersion(version, factsBefore, scope, s.order);
      if built.Failure? {
        RefusedCannotRebuild(boards, contest, start, view, scope, s, version, factsBefore);
        return Failure(built.error);
      }
      var snapshot := Snapshot(view, scope, ScopeKey(scope), built.value.version, built.value.board, now);
      GeneratedIsWritable(boards, contest, s.load, s.finish, snapshot, factsBefore);
      world := s.finish;
      EvolvesTrans(boards, contest, start, s.load, s.finish);
      var stored := WriteSnapshot(snapshot);
      EvolvesTrans(boards, contest, start, s.finish, world);
      EvolvesTrans(boards, contest, old(world), s.finish, world);
      StoredIsCorrect(boards, contest, start, world, view, scope, snapshot.version, state, Current);
      result := if stored.Some? then Success(Project(stored.value, state, contest.freezeAt, Current)) else Failure(SnapshotConflict);
    }

    /** A build looks once more for a row another replica may have written, then generates one. */
    method Materialize(ghost start: World, scope: Scope, view: View, state: ProjectionState, version: Option<nat>, now: Time,
                       factsBefore: Option<Time>, preferLatestExisting: bool, s: Schedule)
      returns (result: Result<Projection, ViewError>)
      requires Determines(contest, boards) && Asked(boards, contest, start, scope, view, state, version, factsBefore)
      requires preferLatestExisting == state.Frozen?
      requires Evolves(boards, contest, start, world) && FollowsFrom(boards, contest, world, s)
      modifies this`world
      ensures Evolves(boards, contest, old(world), world) && Evolves(boards, contest, start, world)
      ensures result.Success? ==>
                Answered(boards, contest, start, world, view, scope, result.value) && result.value.freshness.Current?
      ensures result.Success? && state.Frozen? ==>
                (AllBefore(world.log, result.value.version, contest.freezeAt.value)
                 <==> !HasPastFreeze(contest, s.recheck, ScopeKey(scope)))
      ensures result.Success? && state.Frozen? && !HasPublic(s.recheck, ScopeKey(scope)) ==>
                SeesAllBefore(s.load.log, result.value.version, contest.freezeAt.value)
      ensures result.Failure? ==> world == s.load && !CanRebuild(boards, contest, start, view, scope, s) && BuildFailed(result.error)
      ensures result.Failure? && state.Frozen? ==> !HasPublic(s.recheck, ScopeKey(scope))
    {
      EvolvesTrans(boards, contest, start, world, s.recheck);
      EvolvesTrans(boards, contest, world, s.recheck, s.load);
      ghost var before := world;
      world := s.recheck;
      if preferLatestExisting {
        var existing := LatestSnapshot(view, ScopeKey(scope));
        LatestDecides(boards, contest, world, ScopeKey(scope), existing);
        if existing.Some? {
          StoredIsCorrect(boards, contest, start, world, view, scope, existing.value.version, state, Current);
          return Success(Project(existing.value, state, contest.freezeAt, Current));
        }
      }
      if state.Settled? {
        var existing := Stored(world, view, ScopeKey(scope), version.value);
        if existing.Some? {
          StoredIsCorrect(boards, contest, start, world, view, scope, version.value, state, Current);
          return Success(Project(existing.value, state, contest.freezeAt, Current));
        }
      }
      result := Generate(start, scope, view, state, version, now, factsBefore, s);
      EvolvesTrans(boards, contest, before, s.recheck, world);
    }

    /** When the rebuild fails, an older public snapshot is better than nothing. */
    method RebuildOrFallback(ghost start: World, scope: Scope, state: ProjectionState, version: nat, now: Time, s: Schedule)
      returns (result: Result<Projection, ViewError>)
      requires Determines(contest, boards) && Asked(boards, contest, start, scope, Public, state, Some(version), None)
      requires Evolves(boards, contest, start, world) && Evolves(boards, contest, world, s.rebuild)
      requires FollowsFrom(boards, contest, s.rebuild, s)
      modifies this`world
      ensures Evolves(boards, contest, start, world)
      ensures Outcome(boards, contest, start, world, Public, scope, s, result)
    {
      EvolvesTrans(boards, contest, start, world, s.rebuild);
      world := s.rebuild;
      var winner := Stored(world, Public, ScopeKey(scope), version);
      if winner.Some? {
        StoredIsCorrect(boards, contest, start, world, Public, scope, version, state, Current);
        return Success(Project(winner.value, state, contest.freezeAt, Current));
      }
      result := Materialize(start, scope, Public, state, Some(version), now, None, false, s);
      if result.Failure? {
        EvolvesTrans(boards, contest, start, world, s.finish);
        world := s.finish;
        var stale := LatestSnapshot(Public, ScopeKey(scope));
        if stale.Some? && stale.value.version < version {
          StoredIsCorrect(boards, contest, start, world, Public, scope, stale.value.version, state, Stale);
          return Success(Project(stale.value, state, contest.freezeAt, Stale));
        }
      }
    }

    /** The stored row of the wanted version answers at once; otherwise one build per key runs. */
    method CachedMaterialize(ghost start: World, scope: Scope, state: ProjectionState, version: nat, now: Time, s: Schedule)
      returns (result: Result<Projection, ViewError>)
      requires Determines(contest, boards) && Asked(boards, contest, start, scope, Public, state, Some(version), None)
      requires Evolves(boards, contest, start, world) && FollowsRow(boards, contest, world, s)
      modifies this`world
      ensures Evolves(boards, contest, start, world)
      ensures Outcome(boards, contest, start, world, Public, scope, s, result)
      ensures Stored(s.first, Public, ScopeKey(scope), version).Some? ==>
                result.Success? && result.value.freshness.Current? && world == s.first
    {
      EvolvesTrans(boards, contest, start, world, s.first);
      world := s.first;
      var stored := Stored(world, Public, ScopeKey(scope), version);
      if stored.Some? {
        StoredIsCorrect(boards, contest, start, world, Public, scope, version, state, Current);
        return Success(Project(stored.value, state, contest.freezeAt, Current));
      }
      EvolvesTrans(boards, contest, start, s.first, s.lookup);
      world := s.lookup;
      var winner := Stored(world, Public, ScopeKey(scope), version);
      if winner.Some? {
        StoredIsCorrect(boards, contest, start, world, Public, scope, version, state, Current);
        return Success(Project(winner.value, state, contest.freezeAt, Current));
      }
      result := RebuildOrFallback(start, scope, state, version, now, s);
    }

    /**
      * During the freeze the newest public snapshot answers; without one, a board of the facts from before is built. The
      * board shown holds only facts from before the freeze if and only if the read does not leak.
      */
    method ReadFrozen(ghost start: World, scope: Scope, now: Time, s: Schedule) returns (result: Result<Projection, ViewError>)
      requires Determines(contest, boards) && Asked(boards, contest, start, scope, Public, Frozen, None, contest.freezeAt)
      requires Evolves(boards, contest, start, world) && FollowsRow(boards, contest, world, s)
      modifies this`world
      ensures Evolves(boards, contest, start, world)
      ensures Outcome(boards, contest, start, world, Public, scope, s, result)
      ensures FrozenOutcome(contest, world, scope, s, result)
    {
      EvolvesTrans(boards, contest, start, world, s.first);
      world := s.first;
      var latest := LatestSnapshot(Public, ScopeKey(scope));
      LatestDecides(boards, contest, world, ScopeKey(scope), latest);
      EvolvesTrans(boards, contest, start, s.first, s.lookup);
      world := s.lookup;
      if latest.Some? {
        var existing := Stored(world, Public, ScopeKey(scope), latest.value.version);
        if existing.Some? {
          StoredIsCorrect(boards, contest, start, world, Public, scope, latest.value.version, Frozen, Current);
          LookupDecides(boards, contest, s.first, world, SnapshotKey(Public, ScopeKey(scope), latest.value.version));
          return Success(Project(existing.value, Frozen, contest.freezeAt, Current));
        }
      }
      result := BuildFrozen(start, scope, now, s);
    }

    /** The build of a frozen board looks for a row, looks again, and generates one. */
    method BuildFrozen(ghost start: World, scope: Scope, now: Time, s: Schedule) returns (result: Result<Projection, ViewError>)
      requires Determines(contest, boards) && Asked(boards, contest, start, scope, Public, Frozen, None, contest.freezeAt)
      requires Evolves(boards, contest, start, world) && Evolves(boards, contest, world, s.rebuild)
      requires FollowsFrom(boards, contest, s.rebuild, s) && !HasPublic(s.first, ScopeKey(scope))
      modifies this`world
      ensures Evolves(boards, contest, start, world)
      ensures Outcome(boards, contest, start, world, Public, scope, s, result)
      ensures FrozenOutcome(contest, world, scope, s, result)
    {
      EvolvesTrans(boards, contest, start, world, s.rebuild);
      world := s.rebuild;
      var winner := LatestSnapshot(Public, ScopeKey(scope));
      LatestDecides(boards, contest, world, ScopeKey(scope), winner);
      if winner.Some? {
        StoredIsCorrect(boards, contest, start, world, Public, scope, winner.value.version, Frozen, Current);
        return Success(Project(winner.value, Frozen, contest.freezeAt, Current));
      }
      result := Materialize(start, scope, Public, Frozen, None, now, contest.freezeAt, true, s);
    }

    /** A read that is not turned away: by view, and for the public by the state of the contest. */
    method ReadScope(ghost start: World, view: View, scope: Scope, now: Time, s: Schedule)
      returns (result: Result<Projection, ViewError>)
      requires Determines(contest, boards) && start == Seen(now, world)
      requires Evolves(boards, contest, start, world) && FollowsRow(boards, contest, world, s) && ScopeKnown(contest, scope)
      modifies this`world
      ensures Evolves(boards, contest, start, world)
      ensures Outcome(boards, contest, start, world, view, scope, s, result)
      ensures result.Failure? ==> BuildFailed(result.error)
      ensures result.Success? ==>
                && result.value.view == view
                && (result.value.state == Settled <==>
                      view == Public && (start.publication == Archived || now >= contest.endAt))
                && (result.value.state == Frozen <==>
                      && view == Public && start.publication != Archived && now < contest.endAt
                      && contest.freezeAt.Some? && now >= contest.freezeAt.value)
                && result.value.frozenAt == (if result.value.state == Frozen then contest.freezeAt else None)
      ensures view.Public? && IsFrozen(contest, start) ==> FrozenOutcome(contest, world, scope, s, result)
      ensures view.Public? && !IsFrozen(contest, start) && Stored(s.first, Public, ScopeKey(scope), |start.log|).Some? ==>
                result.Success? && result.value.freshness.Current? && world == s.first
    {
      var version := |world.log|;
      if view.Internal? {
        SkipLookups(boards, contest, world, s);
        result := Materialize(start, scope, Internal, Live, Some(version), now, None, false, s);
      } else if world.publication.Archived? || now >= contest.endAt {
        result := CachedMaterialize(start, scope, Settled, version, now, s);
      } else if contest.freezeAt.Some? && now >= contest.freezeAt.value {
        result := ReadFrozen(start, scope, now, s);
      } else {
        result := CachedMaterialize(start, scope, Live, version, now, s);
      }
    }

    /**
      * One read: the clock, the contest row, and what follows. Whatever other requests and replicas do meanwhile, the
      * board shown is the board of the facts up to its version; a failure means that no rebuild was possible and no older
      * board could stand in.
      */
    method Read(input: Input, s: Schedule) returns (result: Result<Projection, ViewError>)
      requires Determines(contest, boards) && Valid(boards, contest, world) && Follows(boards, contest, world, s)
      modifies this`world
      ensures Valid(boards, contest, world) && Evolves(boards, contest, old(world), world)
      ensures result == Failure(NotFound) <==>
                || input.contestId != contest.id
                || (input.view == Public && (s.row.publication == Draft || s.row.visibility == Restricted))
      ensures result == Failure(InternalForbidden) <==>
                input.contestId == contest.id && input.view == Internal && input.viewerRole == User
      ensures result == Failure(ScopeInvalid) <==>
                && input.contestId == contest.id
                && (input.view == Internal ==> input.viewerRole == Organizer || input.viewerRole == Admin)
                && (input.view == Public ==> s.row.publication != Draft && s.row.visibility == Open)
                && input.scope.Division? && input.scope.divisionId !in contest.divisions
      ensures Refusal(contest, s.row, input).Some? ==>
                result == Failure(Refusal(contest, s.row, input).value) && world == s.row
      ensures result.Success? ==>
                && input.contestId == contest.id
                && (input.view == Internal ==> input.viewerRole == Organizer || input.viewerRole == Admin)
                && (input.view == Public ==> s.row.publication != Draft && s.row.visibility == Open)
                && (input.scope.Division? ==> input.scope.divisionId in contest.divisions)
      ensures var now := old(world).clock;
              result.Success? ==>
                && result.value.view == input.view
                && (result.value.state == Settled <==>
                      input.view == Public && (s.row.publication == Archived || now >= contest.endAt))
                && (result.value.state == Frozen <==>
                      && input.view == Public && s.row.publication != Archived && now < contest.endAt
                      && contest.freezeAt.Some? && now >= contest.freezeAt.value)
                && result.value.frozenAt == (if result.value.state == Frozen then contest.freezeAt else None)
      ensures var start := Seen(old(world).clock, s.row);
              Refusal(contest, s.row, input).None? ==>
                && Outcome(boards, contest, start, world, input.view, input.scope, s, result)
                && (input.view.Public? && IsFrozen(contest, start) ==> FrozenOutcome(contest, world, input.scope, s, result))
                && (input.view.Public? && !IsFrozen(contest, start)
                    && Stored(s.first, Public, ScopeKey(input.scope), |start.log|).Some? ==>
                      result.Success? && result.value.freshness.Current? && world == s.first)
    {
      var now := world.clock;
      ghost var begun := world;
      world := s.row;
      if input.contestId != contest.id {
        return Failure(NotFound);
      }
      if input.view.Internal? {
        if input.viewerRole != Organizer && input.viewerRole != Admin {
          return Failure(InternalForbidden);
        }
      } else if world.publication.Draft? || world.visibility != Open {
        return Failure(NotFound);
      }
      if input.scope.Division? && input.scope.divisionId !in contest.divisions {
        return Failure(ScopeInvalid);
      }
      ghost var start := Seen(now, world);
      SeenEvolves(boards, contest, begun, s.row, s.row);
      result := ReadScope(start, input.view, input.scope, now, s);
      SinceRow(boards, contest, begun, s.row, world);
    }
  }

  datatype Input = Input(contestId: string, view: View, viewerRole: Role, scope: Scope)

  /** Why a request is turned away before any snapshot is looked at. */
  function Refusal(c: Contest, w: World, input: Input): Option<ViewError> {
    if input.contestId != c.id then Some(NotFound)
    else if input.view.Internal? && input.viewerRole.User? then Some(InternalForbidden)
    else if input.view.Public? && (w.publication.Draft? || w.visibility.Restricted?) then Some(NotFound)
    else if !ScopeKnown(c, input.scope) then Some(ScopeInvalid)
    else None
  }

  lemma SkipLookups(b: Boards, c: Contest, w: World, s: Schedule)
    requires FollowsRow(b, c, w, s)
    ensures FollowsFrom(b, c, w, s)
  {
    EvolvesTrans(b, c, w, s.first, s.lookup);
    EvolvesTrans(b, c, w, s.lookup, s.rebuild);
    EvolvesTrans(b, c, w, s.rebuild, s.recheck);
  }

  /** What has evolved from the contest row has evolved from the clock. */
  lemma SinceRow(b: Boards, c: Contest, begun: World, row: World, w: World)
    requires Evolves(b, c, begun, row) && Evolves(b, c, Seen(begun.clock, row), w)
    ensures Evolves(b, c, begun, w)
  {
  }

  /** Some public snapshot of the scope is older than the version wanted, and none is as new. */
  predicate OnlyOlder(w: World, scopeKey: string, version: nat) {
    && (exists key | key in w.snapshots :: key.view.Public? && key.scopeKey == scopeKey)
    && (forall key | key in w.snapshots && key.view.Public? && key.scopeKey == scopeKey :: key.version < version)
  }

  /** An error of a build, not of the request. */
  predicate BuildFailed(e: ViewError) {
    e.SnapshotConflict? || e.FactsUnavailable? || e.NoBoard?
  }

  /** How a read may end. */
  ghost predicate Outcome(b: Boards, c: Contest, start: World, w: World, view: View, scope: Scope, s: Schedule,
                          result: Result<Projection, ViewError>) {
    && (result.Success? ==> Answered(b, c, start, w, view, scope, result.value))
    && (result.Success? && result.value.freshness.Stale? ==>
          !CanRebuild(b, c, start, view, scope, s)
          && OnlyOlder(s.finish, ScopeKey(scope), |start.log|)
          && (forall key | key in s.finish.snapshots && key.view.Public? && key.scopeKey == ScopeKey(scope) ::
                key.version <= result.value.version))
    && (result.Failure? ==>
          !CanRebuild(b, c, start, view, scope, s) && BuildFailed(result.error)
          && (view.Public? && !IsFrozen(c, start) ==> !OnlyOlder(s.finish, ScopeKey(scope), |start.log|)))
  }

  /** How a read during the freeze keeps to it; a board built for it shows all facts from before. */
  predicate FrozenOutcome(c: Contest, w: World, scope: Scope, s: Schedule, result: Result<Projection, ViewError>)
    requires c.freezeAt.Some?
  {
    && (result.Success? ==> (AllBefore(w.log, result.value.version, c.freezeAt.value) <==> !Leaks(c, s, ScopeKey(scope))))
    && (result.Success?
        && !HasPublic(s.first, ScopeKey(scope)) && !HasPublic(s.rebuild, ScopeKey(scope)) && !HasPublic(s.recheck, ScopeKey(scope)) ==>
          SeesAllBefore(s.load.log, result.value.version, c.freezeAt.value))
    && (result.Failure? ==>
          !HasPublic(s.first, ScopeKey(scope)) && !HasPublic(s.rebuild, ScopeKey(scope)) && !HasPublic(s.recheck, ScopeKey(scope)))
  }

  /** A row found at one moment is before the freeze at a later one if it was then. */
  lemma LookupDecides(b: Boards, c: Contest, v: World, w: World, key: SnapshotKey)
    requires Valid(b, c, v) && Evolves(b, c, v, w) && key in v.snapshots && c.freezeAt.Some?
    ensures AllBefore(v.log, key.version, c.freezeAt.value) <==> AllBefore(w.log, key.version, c.freezeAt.value)
  {
    assert SnapshotOk(b, c, v.log, key, v.snapshots[key]);
    BeforeStays(v.log, w.log, key.version, c.freezeAt.value);
  }

  /** The arguments that a read that goes by `start` passes on to a build. */
  ghost predicate Asked(b: Boards, c: Contest, start: World, scope: Scope, view: View, state: ProjectionState, version: Option<nat>,
                        factsBefore: Option<Time>) {
    && ScopeKnown(c, scope) && state == StateAt(c, start, view)
    && (if state.Frozen? then version.None? && factsBefore == c.freezeAt else version == Some(|start.log|) && factsBefore.None?)
  }

  lemma NoCutoffSeesAll(log: seq<Entry>)
    ensures VisibleCount(log, None) == |log|
  {
  }

  lemma RefusedCannotRebuild(b: Boards, c: Contest, start: World, view: View, scope: Scope, s: Schedule, version: Option<nat>,
                             factsBefore: Option<Time>)
    requires Asked(b, c, start, scope, view, StateAt(c, start, view), version, factsBefore)
    requires var n := VisibleCount(s.load.log, factsBefore);
             b(s.load.log[..n], scope).None? || (version.Some? && version.value != n)
    ensures !CanRebuild(b, c, start, view, scope, s)
  {
    NoCutoffSeesAll(s.load.log);
    assert s.load.log[..|s.load.log|] == s.load.log;
  }

  /** A freshly built row is right for its version, and has seen only facts from before the cutoff. */
  lemma GeneratedIsWritable(b: Boards, c: Contest, load: World, finish: World, s: Snapshot, factsBefore: Option<Time>)
    requires Valid(b, c, load) && Evolves(b, c, load, finish)
    requires ScopeKnown(c, s.scope) && s.scopeKey == ScopeKey(s.scope) && s.version == VisibleCount(load.log, factsBefore)
    requires b(load.log[..s.version], s.scope) == Some(s.board)
    ensures Writable(b, c, finish, s)
    ensures factsBefore.Some? ==>
              AllBefore(finish.log, s.version, factsBefore.value) && SeesAllBefore(load.log, s.version, factsBefore.value)
  {
    PrefixStays(load.log, finish.log, s.version);
    VisibleIsPrefix(load.log, factsBefore);
  }
}
