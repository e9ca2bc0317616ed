/** Whole runs of the scoreboard service: facts arrive, several processes read, share builds, write rows and crash. */
module ScoreboardRuns {
  import opened Wrappers
  import opened ScoringReplay
  import opened Scoreboard
  import opened ScoreboardFacts
  import opened ScoreboardView
  import opened BuildCoordinator

  type ReadId = int
  type ProcessId = int

  /**
    * How far a read has come. A timed read has looked at the clock, a looking one also at the contest row; a leading one
    * has lookups left before it builds; a joined one waits for the build another read of its process leads. A read that
    * is done keeps the moment at which a lookup found its row, if one did.
    */
  datatype Phase =
    | Timed
    | Looking
    | Missed
    | Leading(left: nat)
    | Joined(leader: ReadId)
    | Building(row: Snapshot)
    | Failing
    | Done(shown: Projection, found: Option<World>)
    | GivenUp

  /** A read, and what it goes by: the world of its clock at first, then the contest row with that clock. */
  datatype InFlight = InFlight(process: ProcessId, view: View, scope: Scope, start: World, phase: Phase)

  /** `authors` keeps who stored which row; nothing depends on it. */
  datatype State = State(
    world: World, pending: map<ReadId, InFlight>, running: map<(ProcessId, string), ReadId>, authors: map<SnapshotKey, ReadId>)

  datatype Event =
    // environment
    | Tick(to: Time)
    | Append(entry: Entry)
    | Publish(publication: Publication)
    | Show(visibility: Visibility)
    // one read, from its clock on; a crash is a read that takes no more steps
    | Begin(id: ReadId, process: ProcessId, view: View, scope: Scope)
    | SeeRow(id: ReadId)
    | Hit(id: ReadId, hit: Snapshot)
    | Miss(id: ReadId)
    | Run(id: ReadId)
    | Load(id: ReadId)
    | LoadFails(id: ReadId)
    | Write(id: ReadId)
    | FallBack(id: ReadId, hit: Snapshot)
    | GiveUp(id: ReadId)
    | Deliver(id: ReadId)
    | Clean(id: ReadId)

  // ---- Keys ----

  function ReadState(c: Contest, r: InFlight): ProjectionState {
    StateAt(c, r.start, r.view)
  }

  /** `freezeText` is the freeze time as it is written into a build key. */
  function DescriptorOf(c: Contest, freezeText: string, r: InFlight): Descriptor {
    var state := ReadState(c, r);
    Descriptor(c.id, r.view, ScopeKey(r.scope), if state.Frozen? then 0 else |r.start.log|, state,
               if state.Frozen? then Some(freezeText) else None)
  }

  function KeyOf(c: Contest, freezeText: string, r: InFlight): (ProcessId, string) {
    (r.process, BuildKey(DescriptorOf(c, freezeText, r)))
  }

  predicate KeysOk(c: Contest, freezeText: string) {
    && OVERALL_KEY !in c.divisions
    && ':' !in c.id && freezeText != "none"
    && forall d | d in c.divisions :: ':' !in d
  }

  // ---- Steps ----

  ghost predicate Init(c: Contest, freezeText: string, s: State) {
    && KeysOk(c, freezeText)
    && s.world.log == [] && s.world.snapshots == map[] && s.pending == map[] && s.running == map[] && s.authors == map[]
  }

  /** A lookup for a row of the version wanted, or for the newest one during the freeze, finds this one. */
  predicate Finds(c: Contest, w: World, r: InFlight, hit: Snapshot) {
    && r.view.Public? && Stored(w, Public, ScopeKey(r.scope), hit.version) == Some(hit)
    && (if ReadState(c, r).Frozen? then IsLatest(w, Public, ScopeKey(r.scope), Some(hit)) else hit.version == |r.start.log|)
  }

  /** It finds none. */
  predicate FindsNothing(c: Contest, w: World, r: InFlight) {
    && r.view.Public?
    && (if ReadState(c, r).Frozen? then !HasPublic(w, ScopeKey(r.scope))
        else Stored(w, Public, ScopeKey(r.scope), |r.start.log|).None?)
  }

  /** The read has a lookup to make. */
  predicate LooksUp(phase: Phase) {
    phase.Looking? || (phase.Leading? && phase.left > 0)
  }

  /** A build looks twice before it loads the facts, and a settled one a third time. */
  function Lookups(state: ProjectionState): nat {
    if state.Settled? then 3 else 2
  }

  /** The row that stands in when a build fails. */
  predicate StandsIn(c: Contest, w: World, r: InFlight, hit: Snapshot) {
    && r.view.Public? && !ReadState(c, r).Frozen?
    && IsLatest(w, Public, ScopeKey(r.scope), Some(hit)) && hit.version < |r.start.log|
  }

  /** The build of a key is led, or was, by a read in this phase. */
  predicate Led(phase: Phase) {
    !phase.Timed? && !phase.Looking? && !phase.Missed? && !phase.Joined?
  }

  /** The build is under way. */
  predicate Active(phase: Phase) {
    phase.Leading? || phase.Building? || phase.Failing?
  }

  predicate Over(phase: Phase) {
    phase.Done? || phase.GivenUp?
  }

  predicate Enabled(c: Contest, freezeText: string, s: State, e: Event) {
    match e
    case Tick(to) => s.world.clock <= to
    case Append(entry) =>
      && EntryOk(entry) && TimeOf(entry) <= s.world.clock
      && forall i | 0 <= i < |s.world.log| :: TimeOf(s.world.log[i]) <= TimeOf(entry)
    case Publish(publication) => s.world.publication.Archived? ==> publication.Archived?
    case Show(_) => true
    case Begin(id, _, _, scope) => id !in s.pending && ScopeKnown(c, scope)
    case SeeRow(id) => id in s.pending && s.pending[id].phase.Timed?
    case Hit(id, hit) => id in s.pending && LooksUp(s.pending[id].phase) && Finds(c, s.world, s.pending[id], hit)
    case Miss(id) => id in s.pending && LooksUp(s.pending[id].phase) && FindsNothing(c, s.world, s.pending[id])
    case Run(id) => id in s.pending && s.pending[id].phase.Missed? && s.pending[id].view.Public?
    case Load(id) => id in s.pending && MayLoad(s.pending[id])
    case LoadFails(id) => id in s.pending && MayLoad(s.pending[id])
    case Write(id) => id in s.pending && s.pending[id].phase.Building?
    case FallBack(id, hit) => id in s.pending && s.pending[id].phase.Failing? && StandsIn(c, s.world, s.pending[id], hit)
    case GiveUp(id) =>
      && id in s.pending && s.pending[id].phase.Failing?
      && (s.pending[id].view.Internal? || ReadState(c, s.pending[id]).Frozen?
          || !OnlyOlder(s.world, ScopeKey(s.pending[id].scope), |s.pending[id].start.log|))
    case Deliver(id) =>
      id in s.pending && s.pending[id].phase.Joined? && s.pending[id].phase.leader in s.pending
      && Over(s.pending[s.pending[id].phase.leader].phase)
    case Clean(id) =>
      && id in s.pending && Over(s.pending[id].phase)
      && KeyOf(c, freezeText, s.pending[id]) in s.running && s.running[KeyOf(c, freezeText, s.pending[id])] == id
  }

  /** Internal reads build on their own and at once; public ones while they lead, when their lookups have found nothing. */
  predicate MayLoad(r: InFlight) {
    if r.view.Internal? then r.phase.Looking? else r.phase == Leading(0)
  }

  function At(s: State, id: ReadId, phase: Phase): State
    requires id in s.pending
  {
    s.(pending := s.pending[id := s.pending[id].(phase := phase)])
  }

  function Cutoff(c: Contest, r: InFlight): Option<Time> {
    if ReadState(c, r).Frozen? then c.freezeAt else None
  }

  /** Replay and build: a row of the visible prefix, if it has a board and the version wanted. */
  function Built(b: Boards, c: Contest, w: World, r: InFlight): Phase {
    var n := VisibleCount(w.log, Cutoff(c, r));
    var board := b(w.log[..n], r.scope);
    if board.Some? && (ReadState(c, r).Frozen? || n == |r.start.log|)
    then Building(Snapshot(r.view, r.scope, ScopeKey(r.scope), n, board.value, r.start.clock))
    else Failing
  }

  function Written(w: World, row: Snapshot): World {
    if Stored(w, row.view, row.scopeKey, row.version).Some? then w else Inserted(w, row)
  }

  /** What the writer answers: the row that is stored now, unless it is another board. */
  function Shown(c: Contest, w: World, r: InFlight, row: Snapshot): Phase {
    var stored := Stored(Written(w, row), row.view, row.scopeKey, row.version);
    if stored.Some? && stored.value.board == row.board
    then Done(Project(stored.value, ReadState(c, r), c.freezeAt, Current), None) else Failing
  }

  function WrittenBy(s: State, id: ReadId, row: Snapshot): map<SnapshotKey, ReadId> {
    if Stored(s.world, row.view, row.scopeKey, row.version).Some? then s.authors
    else s.authors[SnapshotKey(row.view, row.scopeKey, row.version) := id]
  }

  function Apply(b: Boards, c: Contest, freezeText: string, s: State, e: Event): State
    requires Enabled(c, freezeText, s, e)
  {
    match e
    case Tick(to) => s.(world := s.world.(clock := to))
    case Append(entry) => s.(world := s.world.(log := s.world.log + [entry]))
    case Publish(publication) => s.(world := s.world.(publication := publication))
    case Show(visibility) => s.(world := s.world.(visibility := visibility))
    case Begin(id, process, view, scope) => s.(pending := s.pending[id := InFlight(process, view, scope, s.world, Timed)])
    case SeeRow(id) =>
      s.(pending := s.pending[id := s.pending[id].(start := Seen(s.pending[id].start.clock, s.world), phase := Looking)])
    case Hit(id, hit) => At(s, id, Done(Project(hit, ReadState(c, s.pending[id]), c.freezeAt, Current), Some(s.world)))
    case Miss(id) => At(s, id, if s.pending[id].phase.Looking? then Missed else Leading(s.pending[id].phase.left - 1))
    case Run(id) =>
      var key := KeyOf(c, freezeText, s.pending[id]);
      if key in s.running then At(s, id, Joined(s.running[key]))
      else At(s, id, Leading(Lookups(ReadState(c, s.pending[id])))).(running := s.running[key := id])
    case Load(id) => At(s, id, Built(b, c, s.world, s.pending[id]))
    case LoadFails(id) => At(s, id, Failing)
    case Write(id) =>
      var row := s.pending[id].phase.row;
      At(s, id, Shown(c, s.world, s.pending[id], row)).(world := Written(s.world, row), authors := WrittenBy(s, id, row))
    case FallBack(id, hit) => At(s, id, Done(Project(hit, ReadState(c, s.pending[id]), c.freezeAt, Stale), Some(s.world)))
    case GiveUp(id) => At(s, id, GivenUp)
    case Deliver(id) => At(s, id, s.pending[s.pending[id].phase.leader].phase)
    case Clean(id) => s.(running := s.running - {KeyOf(c, freezeText, s.pending[id])})
  }

  // ---- The invariant ----

  /** The two reads want the same projection. */
  predicate SameBuild(c: Contest, r: InFlight, leader: InFlight) {
    && r.view.Public? && leader.view.Public? && r.scope == leader.scope
    && ReadState(c, r) == ReadState(c, leader)
    && (!ReadState(c, r).Frozen? ==> |r.start.log| == |leader.start.log|)
  }

  /** A version a read may store: of all facts its contest row counted, or, during the freeze, of facts from before it. */
  predicate WantedBy(c: Contest, w: World, r: InFlight, version: nat) {
    if ReadState(c, r).Frozen? then AllBefore(w.log, version, c.freezeAt.value) else version == |r.start.log|
  }

  /** A frozen board shows a fact from the freeze on if and only if a lookup found it where a row past the freeze was. */
  predicate FoundDecides(c: Contest, w: World, scope: Scope, shown: Projection, found: Option<World>)
    requires c.freezeAt.Some?
  {
    AllBefore(w.log, shown.version, c.freezeAt.value) <==> !(found.Some? && HasPastFreeze(c, found.value, ScopeKey(scope)))
  }

  ghost predicate PhaseOk(b: Boards, c: Contest, s: State, r: InFlight) {
    match r.phase
    case Leading(_) => r.view.Public?
    case Joined(leader) => leader in s.pending && SameBuild(c, r, s.pending[leader]) && Led(s.pending[leader].phase)
    case Building(row) =>
      row.view == r.view && row.scope == r.scope && Writable(b, c, s.world, row) && WantedBy(c, s.world, r, row.version)
    case Done(shown, found) =>
      && Answered(b, c, r.start, s.world, r.view, r.scope, shown)
      && (ReadState(c, r).Frozen? ==> FoundDecides(c, s.world, r.scope, shown, found))
    case _ => true
  }

  ghost predicate ReadOk(b: Boards, c: Contest, s: State, r: InFlight) {
    && Evolves(b, c, r.start, s.world) && ScopeKnown(c, r.scope)
    && PhaseOk(b, c, s, r)
  }

  ghost predicate ReadsOk(b: Boards, c: Contest, s: State) {
    forall id | id in s.pending :: ReadOk(b, c, s, s.pending[id])
  }

  /** The table of running builds points to reads that lead, or led, them. */
  predicate RunningOk(c: Contest, freezeText: string, s: State) {
    forall key | key in s.running ::
      && s.running[key] in s.pending && KeyOf(c, freezeText, s.pending[s.running[key]]) == key
      && s.pending[s.running[key]].view.Public? && Led(s.pending[s.running[key]].phase)
  }

  /** Every build under way is in the table. */
  predicate ActiveOk(c: Contest, freezeText: string, s: State) {
    forall id | id in s.pending && s.pending[id].view.Public? && Active(s.pending[id].phase) ::
      KeyOf(c, freezeText, s.pending[id]) in s.running && s.running[KeyOf(c, freezeText, s.pending[id])] == id
  }

  /** Whoever stored a row wanted its version. */
  predicate AuthorOk(c: Contest, s: State, key: SnapshotKey) {
    && key in s.authors && s.authors[key] in s.pending
    && var r := s.pending[s.authors[key]];
       r.view == key.view && ScopeKey(r.scope) == key.scopeKey && Led(r.phase) && WantedBy(c, s.world, r, key.version)
  }

  predicate AuthorsOk(c: Contest, s: State) {
    forall key | key in s.world.snapshots :: AuthorOk(c, s, key)
  }

  ghost predicate Inv(b: Boards, c: Contest, freezeText: string, s: State) {
    && KeysOk(c, freezeText) && Valid(b, c, s.world) && ReadsOk(b, c, s) && RunningOk(c, freezeText, s)
    && ActiveOk(c, freezeText, s) && AuthorsOk(c, s)
  }

  lemma ReadIsOk(b: Boards, c: Contest, freezeText: string, s: State, id: ReadId)
    requires Inv(b, c, freezeText, s) && id in s.pending
    ensures ReadOk(b, c, s, s.pending[id])
  {
  }

  lemma InitInv(b: Boards, c: Contest, freezeText: string, s: State)
    requires Init(c, freezeText, s)
    ensures Inv(b, c, freezeText, s)
  {
  }

  // ---- Every step lets the world evolve ----

  lemma TickEvolves(b: Boards, c: Contest, w: World, to: Time)
    requires Valid(b, c, w) && w.clock <= to
    ensures Evolves(b, c, w, w.(clock := to))
  {
    var later := w.(clock := to);
    assert forall key | key in w.snapshots :: SnapshotOk(b, c, w.log, key, w.snapshots[key]);
  }

  lemma AppendEvolves(b: Boards, c: Contest, w: World, entry: Entry)
    requires Valid(b, c, w) && EntryOk(entry) && TimeOf(entry) <= w.clock
    requires forall i | 0 <= i < |w.log| :: TimeOf(w.log[i]) <= TimeOf(entry)
    ensures Evolves(b, c, w, w.(log := w.log + [entry]))
  {
    var later := w.(log := w.log + [entry]);
    forall key | key in later.snapshots
      ensures SnapshotOk(b, c, later.log, key, later.snapshots[key])
    {
      assert SnapshotOk(b, c, w.log, key, w.snapshots[key]);
      PrefixStays(w.log, later.log, key.version);
    }
  }

  lemma PublishEvolves(b: Boards, c: Contest, w: World, publication: Publication)
    requires Valid(b, c, w) && (w.publication.Archived? ==> publication.Archived?)
    ensures Evolves(b, c, w, w.(publication := publication))
  {
    assert forall key | key in w.snapshots :: SnapshotOk(b, c, w.log, key, w.snapshots[key]);
  }

  lemma ShowEvolves(b: Boards, c: Contest, w: World, visibility: Visibility)
    requires Valid(b, c, w)
    ensures Evolves(b, c, w, w.(visibility := visibility))
  {
    assert forall key | key in w.snapshots :: SnapshotOk(b, c, w.log, key, w.snapshots[key]);
  }

  lemma WriteEvolves(b: Boards, c: Contest, w: World, row: Snapshot)
    requires Valid(b, c, w) && Writable(b, c, w, row)
    ensures Evolves(b, c, w, Written(w, row))
  {
    if Stored(w, row.view, row.scopeKey, row.version).None? {
      InsertKeepsValid(b, c, w, row);
    }
  }

  lemma WorldEvolves(b: Boards, c: Contest, freezeText: string, s: State, e: Event)
    requires Inv(b, c, freezeText, s) && Enabled(c, freezeText, s, e)
    ensures Evolves(b, c, s.world, Apply(b, c, freezeText, s, e).world)
  {
    match e
    case Tick(to) => TickEvolves(b, c, s.world, to);
    case Append(entry) => AppendEvolves(b, c, s.world, entry);
    case Publish(publication) => PublishEvolves(b, c, s.world, publication);
    case Show(visibility) => ShowEvolves(b, c, s.world, visibility);
    case Write(id) =>
      assert ReadOk(b, c, s, s.pending[id]);
      WriteEvolves(b, c, s.world, s.pending[id].phase.row);
    case _ =>
  }

  // ---- What a step leaves of the reads ----

  lemma WritableStays(b: Boards, c: Contest, v: World, w: World, row: Snapshot)
    requires Writable(b, c, v, row) && Evolves(b, c, v, w)
    ensures Writable(b, c, w, row)
  {
    SnapshotStaysOk(b, c, v, w, SnapshotKey(row.view, row.scopeKey, row.version), row);
  }

  /** The same read, further on; what it goes by is settled once it has seen the contest row. */
  predicate SameRead(r: InFlight, later: InFlight) {
    && later.process == r.process && later.view == r.view && later.scope == r.scope
    && (!r.phase.Timed? ==> later.start == r.start && !later.phase.Timed?)
    && (Led(r.phase) ==> Led(later.phase))
  }

  predicate SameReads(s: State, later: State) {
    forall id | id in s.pending :: id in later.pending && SameRead(s.pending[id], later.pending[id])
  }

  /** A read that does not move stays right while the world evolves. */
  lemma ReadStaysOk(b: Boards, c: Contest, s: State, later: State, r: InFlight)
    requires ReadOk(b, c, s, r) && Evolves(b, c, s.world, later.world) && SameReads(s, later)
    ensures ReadOk(b, c, later, r)
  {
    EvolvesTrans(b, c, r.start, s.world, later.world);
    match r.phase
    case Building(row) => WritableStays(b, c, s.world, later.world, row);
    case Done(shown, _) =>
      AnsweredStays(b, c, r.start, s.world, later.world, r.view, r.scope, shown);
      if ReadState(c, r).Frozen? {
        BeforeStays(s.world.log, later.world.log, shown.version, c.freezeAt.value);
      }
    case Joined(leader) => assert SameRead(s.pending[leader], later.pending[leader]);
    case _ =>
  }

  /** One read moves; the others stay. */
  lemma ReadsStayOk(b: Boards, c: Contest, s: State, later: State, id: ReadId)
    requires ReadsOk(b, c, s) && Evolves(b, c, s.world, later.world) && SameReads(s, later)
    requires id in later.pending && ReadOk(b, c, later, later.pending[id])
    requires forall other | other in later.pending && other != id :: other in s.pending && later.pending[other] == s.pending[other]
    ensures ReadsOk(b, c, later)
  {
    forall other | other in later.pending && other != id
      ensures ReadOk(b, c, later, later.pending[other])
    {
      ReadStaysOk(b, c, s, later, s.pending[other]);
    }
  }

  lemma WantedStays(b: Boards, c: Contest, v: World, w: World, r: InFlight, version: nat)
    requires Evolves(b, c, v, w) && version <= |v.log| && WantedBy(c, v, r, version)
    ensures WantedBy(c, w, r, version)
  {
    if ReadState(c, r).Frozen? {
      BeforeStays(v.log, w.log, version, c.freezeAt.value);
    }
  }

  /** Rows keep their authors. */
  lemma AuthorStaysOk(b: Boards, c: Contest, s: State, later: State, key: SnapshotKey)
    requires Valid(b, c, s.world) && Evolves(b, c, s.world, later.world) && SameReads(s, later)
    requires key in s.world.snapshots && AuthorOk(c, s, key) && key in later.authors && later.authors[key] == s.authors[key]
    ensures AuthorOk(c, later, key)
  {
    assert SnapshotOk(b, c, s.world.log, key, s.world.snapshots[key]);
    assert SameRead(s.pending[s.authors[key]], later.pending[s.authors[key]]);
    WantedStays(b, c, s.world, later.world, s.pending[s.authors[key]], key.version);
  }

  lemma AuthorsStayOk(b: Boards, c: Contest, s: State, later: State)
    requires Valid(b, c, s.world) && Evolves(b, c, s.world, later.world) && SameReads(s, later) && AuthorsOk(c, s)
    requires later.world.snapshots == s.world.snapshots && later.authors == s.authors
    ensures AuthorsOk(c, later)
  {
    forall key | key in later.world.snapshots
      ensures AuthorOk(c, later, key)
    {
      AuthorStaysOk(b, c, s, later, key);
    }
  }

  lemma WorldStepKeepsInv(b: Boards, c: Contest, freezeText: string, s: State, later: World)
    requires Inv(b, c, freezeText, s) && Evolves(b, c, s.world, later) && later.snapshots == s.world.snapshots
    ensures Inv(b, c, freezeText, s.(world := later))
  {
    forall id | id in s.pending
      ensures ReadOk(b, c, s.(world := later), s.pending[id])
    {
      ReadStaysOk(b, c, s, s.(world := later), s.pending[id]);
    }
    AuthorsStayOk(b, c, s, s.(world := later));
  }

  /** A read moves on inside its build, or leaves the table alone. */
  lemma MoveKeepsReads(b: Boards, c: Contest, freezeText: string, s: State, id: ReadId, phase: Phase, later: World)
    requires Inv(b, c, freezeText, s) && id in s.pending && Evolves(b, c, s.world, later)
    requires !s.pending[id].phase.Timed? && !phase.Timed? && (Led(s.pending[id].phase) ==> Led(phase))
    requires PhaseOk(b, c, At(s, id, phase).(world := later), s.pending[id].(phase := phase))
    ensures ReadsOk(b, c, At(s, id, phase).(world := later)) && SameReads(s, At(s, id, phase))
  {
    var next := At(s, id, phase).(world := later);
    assert ReadOk(b, c, s, s.pending[id]);
    EvolvesTrans(b, c, s.pending[id].start, s.world, later);
    ReadsStayOk(b, c, s, next, id);
  }

  lemma MoveKeepsInv(b: Boards, c: Contest, freezeText: string, s: State, id: ReadId, phase: Phase)
    requires Inv(b, c, freezeText, s) && id in s.pending
    requires !s.pending[id].phase.Timed? && !phase.Timed? && (Led(s.pending[id].phase) ==> Led(phase))
    requires s.pending[id].view.Public? && Active(phase) ==> Active(s.pending[id].phase)
    requires PhaseOk(b, c, At(s, id, phase), s.pending[id].(phase := phase))
    ensures Inv(b, c, freezeText, At(s, id, phase))
  {
    EvolvesRefl(b, c, s.world);
    assert At(s, id, phase).(world := s.world) == At(s, id, phase);
    MoveKeepsReads(b, c, freezeText, s, id, phase, s.world);
    TableStaysOk(c, freezeText, s, id, phase);
    AuthorsStayOk(b, c, s, At(s, id, phase));
  }

  lemma TableStaysOk(c: Contest, freezeText: string, s: State, id: ReadId, phase: Phase)
    requires RunningOk(c, freezeText, s) && ActiveOk(c, freezeText, s) && id in s.pending
    requires Led(s.pending[id].phase) ==> Led(phase)
    requires s.pending[id].view.Public? && Active(phase) ==> Active(s.pending[id].phase)
    ensures RunningOk(c, freezeText, At(s, id, phase)) && ActiveOk(c, freezeText, At(s, id, phase))
  {
  }

  // ---- The steps of a read ----

  lemma EvolvesRefl(b: Boards, c: Contest, w: World)
    requires Valid(b, c, w)
    ensures Evolves(b, c, w, w)
  {
  }

  lemma BeginKeepsInv(b: Boards, c: Contest, freezeText: string, s: State, e: Event)
    requires Inv(b, c, freezeText, s) && Enabled(c, freezeText, s, e) && e.Begin?
    ensures Inv(b, c, freezeText, Apply(b, c, freezeText, s, e))
  {
    EvolvesRefl(b, c, s.world);
    ReadsStayOk(b, c, s, Apply(b, c, freezeText, s, e), e.id);
    AuthorsStayOk(b, c, s, Apply(b, c, freezeText, s, e));
  }

  lemma SeeRowKeepsTable(c: Contest, freezeText: string, s: State, id: ReadId, r: InFlight)
    requires RunningOk(c, freezeText, s) && ActiveOk(c, freezeText, s)
    requires id in s.pending && s.pending[id].phase.Timed? && r.phase.Looking?
    ensures var next := s.(pending := s.pending[id := r]);
            RunningOk(c, freezeText, next) && ActiveOk(c, freezeText, next)
  {
  }

  lemma SeeRowKeepsInv(b: Boards, c: Contest, freezeText: string, s: State, e: Event)
    requires Inv(b, c, freezeText, s) && Enabled(c, freezeText, s, e) && e.SeeRow?
    ensures Inv(b, c, freezeText, Apply(b, c, freezeText, s, e))
  {
    var r := s.pending[e.id];
    var next := Apply(b, c, freezeText, s, e);
    assert ReadOk(b, c, s, r);
    EvolvesRefl(b, c, s.world);
    SeenEvolves(b, c, r.start, s.world, s.world);
    ReadsStayOk(b, c, s, next, e.id);
    SeeRowKeepsTable(c, freezeText, s, e.id, next.pending[e.id]);
    AuthorsStayOk(b, c, s, next);
  }

  /** The newest row that a frozen read finds is past the freeze if any row there is. */
  lemma FoundDecidesAtHit(b: Boards, c: Contest, w: World, r: InFlight, hit: Snapshot)
    requires Valid(b, c, w) && Finds(c, w, r, hit) && ReadState(c, r).Frozen?
    ensures FoundDecides(c, w, r.scope, Project(hit, Frozen, c.freezeAt, Current), Some(w))
  {
    LatestDecides(b, c, w, ScopeKey(r.scope), Some(hit));
  }

  lemma HitKeepsInv(b: Boards, c: Contest, freezeText: string, s: State, e: Event)
    requires Inv(b, c, freezeText, s) && Enabled(c, freezeText, s, e) && e.Hit?
    ensures Inv(b, c, freezeText, Apply(b, c, freezeText, s, e))
  {
    var r := s.pending[e.id];
    assert ReadOk(b, c, s, r);
    StoredIsCorrect(b, c, r.start, s.world, r.view, r.scope, e.hit.version, ReadState(c, r), Current);
    if ReadState(c, r).Frozen? {
      FoundDecidesAtHit(b, c, s.world, r, e.hit);
    }
    MoveKeepsInv(b, c, freezeText, s, e.id, Done(Project(e.hit, ReadState(c, r), c.freezeAt, Current), Some(s.world)));
  }

  lemma SameKeySameBuild(c: Contest, freezeText: string, r: InFlight, leader: InFlight)
    requires KeysOk(c, freezeText) && ScopeKnown(c, r.scope) && ScopeKnown(c, leader.scope)
    requires r.view.Public? && leader.view.Public? && KeyOf(c, freezeText, r) == KeyOf(c, freezeText, leader)
    ensures SameBuild(c, r, leader)
  {
    BuildKeyInjective(DescriptorOf(c, freezeText, r), DescriptorOf(c, freezeText, leader));
  }

  lemma JoinKeepsInv(b: Boards, c: Contest, freezeText: string, s: State, id: ReadId, leader: ReadId)
    requires Inv(b, c, freezeText, s) && id in s.pending && s.pending[id].phase.Missed? && s.pending[id].view.Public?
    requires KeyOf(c, freezeText, s.pending[id]) in s.running && s.running[KeyOf(c, freezeText, s.pending[id])] == leader
    ensures Inv(b, c, freezeText, At(s, id, Joined(leader)))
  {
    ReadIsOk(b, c, freezeText, s, id);
    ReadIsOk(b, c, freezeText, s, leader);
    SameKeySameBuild(c, freezeText, s.pending[id], s.pending[leader]);
    MoveKeepsInv(b, c, freezeText, s, id, Joined(leader));
  }

  lemma RunKeepsInv(b: Boards, c: Contest, freezeText: string, s: State, e: Event)
    requires Inv(b, c, freezeText, s) && Enabled(c, freezeText, s, e) && e.Run?
    ensures Inv(b, c, freezeText, Apply(b, c, freezeText, s, e))
  {
    var key := KeyOf(c, freezeText, s.pending[e.id]);
    if key in s.running {
      JoinKeepsInv(b, c, freezeText, s, e.id, s.running[key]);
    } else {
      ReadIsOk(b, c, freezeText, s, e.id);
      EvolvesRefl(b, c, s.world);
      ReadsStayOk(b, c, s, Apply(b, c, freezeText, s, e), e.id);
      LeadKeepsTable(c, freezeText, s, e.id);
      AuthorsStayOk(b, c, s, Apply(b, c, freezeText, s, e));
    }
  }

  lemma LeadKeepsTable(c: Contest, freezeText: string, s: State, id: ReadId)
    requires RunningOk(c, freezeText, s) && ActiveOk(c, freezeText, s)
    requires id in s.pending && s.pending[id].view.Public? && s.pending[id].phase.Missed?
    requires KeyOf(c, freezeText, s.pending[id]) !in s.running
    ensures var next := At(s, id, Leading(Lookups(ReadState(c, s.pending[id])))).(running := s.running[KeyOf(c, freezeText, s.pending[id]) := id]);
            RunningOk(c, freezeText, next) && ActiveOk(c, freezeText, next)
  {
  }

  /** What a load builds may be written. */
  lemma BuiltIsWritable(b: Boards, c: Contest, w: World, r: InFlight)
    requires Valid(b, c, w) && ScopeKnown(c, r.scope) && Built(b, c, w, r).Building?
    ensures Writable(b, c, w, Built(b, c, w, r).row) && WantedBy(c, w, r, Built(b, c, w, r).row.version)
  {
    EvolvesRefl(b, c, w);
    GeneratedIsWritable(b, c, w, w, Built(b, c, w, r).row, Cutoff(c, r));
  }

  lemma LoadKeepsInv(b: Boards, c: Contest, freezeText: string, s: State, e: Event)
    requires Inv(b, c, freezeText, s) && Enabled(c, freezeText, s, e) && e.Load?
    ensures Inv(b, c, freezeText, Apply(b, c, freezeText, s, e))
  {
    var r := s.pending[e.id];
    assert ReadOk(b, c, s, r);
    if Built(b, c, s.world, r).Building? {
      BuiltIsWritable(b, c, s.world, r);
    }
    MoveKeepsInv(b, c, freezeText, s, e.id, Built(b, c, s.world, r));
  }

  /** The writer never meets another board under its key, and answers with the row that is stored. */
  lemma WriterAnswers(b: Boards, c: Contest, w: World, r: InFlight, row: Snapshot)
    requires Valid(b, c, w) && Evolves(b, c, r.start, w) && Writable(b, c, w, row)
    requires row.view == r.view && row.scope == r.scope && WantedBy(c, w, r, row.version)
    ensures Shown(c, w, r, row).Done? && Shown(c, w, r, row).found.None? && Shown(c, w, r, row).shown.version == row.version
    ensures Answered(b, c, r.start, Written(w, row), r.view, r.scope, Shown(c, w, r, row).shown)
  {
    WriteEvolves(b, c, w, row);
    EvolvesTrans(b, c, r.start, w, Written(w, row));
    NoConflict(b, c, w, row);
    StoredIsCorrect(b, c, r.start, Written(w, row), r.view, r.scope, row.version, ReadState(c, r), Current);
  }

  /** The row that is stored now has an author who wanted it. */
  lemma WriteKeepsAuthors(b: Boards, c: Contest, s: State, later: State, id: ReadId, row: Snapshot)
    requires Valid(b, c, s.world) && AuthorsOk(c, s) && SameReads(s, later) && Evolves(b, c, s.world, later.world)
    requires later.world == Written(s.world, row) && later.authors == WrittenBy(s, id, row)
    requires id in later.pending && Led(later.pending[id].phase)
    requires later.pending[id].view == row.view && row.scopeKey == ScopeKey(later.pending[id].scope)
    requires WantedBy(c, later.world, later.pending[id], row.version)
    ensures AuthorsOk(c, later)
  {
    forall key | key in later.world.snapshots
      ensures AuthorOk(c, later, key)
    {
      if key in s.world.snapshots {
        AuthorStaysOk(b, c, s, later, key);
      }
    }
  }

  lemma WriteKeepsReads(b: Boards, c: Contest, freezeText: string, s: State, id: ReadId)
    requires Inv(b, c, freezeText, s) && id in s.pending && s.pending[id].phase.Building?
    ensures var r := s.pending[id];
            var next := At(s, id, Shown(c, s.world, r, r.phase.row)).(world := Written(s.world, r.phase.row));
            Valid(b, c, next.world) && ReadsOk(b, c, next) && SameReads(s, next) && RunningOk(c, freezeText, next)
            && ActiveOk(c, freezeText, next)
  {
    var r := s.pending[id];
    ReadIsOk(b, c, freezeText, s, id);
    WriteEvolves(b, c, s.world, r.phase.row);
    WriterAnswers(b, c, s.world, r, r.phase.row);
    WantedStays(b, c, s.world, Written(s.world, r.phase.row), r, r.phase.row.version);
    MoveKeepsReads(b, c, freezeText, s, id, Shown(c, s.world, r, r.phase.row), Written(s.world, r.phase.row));
    TableStaysOk(c, freezeText, s, id, Shown(c, s.world, r, r.phase.row));
  }

  lemma NobodyReadsAuthors(b: Boards, c: Contest, freezeText: string, s: State, authors: map<SnapshotKey, ReadId>)
    requires ReadsOk(b, c, s) && RunningOk(c, freezeText, s) && ActiveOk(c, freezeText, s)
    ensures var next := s.(authors := authors);
            ReadsOk(b, c, next) && RunningOk(c, freezeText, next) && ActiveOk(c, freezeText, next)
  {
    forall id | id in s.pending
      ensures ReadOk(b, c, s.(authors := authors), s.pending[id])
    {
      assert ReadOk(b, c, s, s.pending[id]);
    }
  }

  lemma WriteKeepsInv(b: Boards, c: Contest, freezeText: string, s: State, e: Event)
    requires Inv(b, c, freezeText, s) && Enabled(c, freezeText, s, e) && e.Write?
    ensures Inv(b, c, freezeText, Apply(b, c, freezeText, s, e))
  {
    var r := s.pending[e.id];
    var row := r.phase.row;
    var moved := At(s, e.id, Shown(c, s.world, r, row)).(world := Written(s.world, row));
    var next := moved.(authors := WrittenBy(s, e.id, row));
    WriteKeepsReads(b, c, freezeText, s, e.id);
    NobodyReadsAuthors(b, c, freezeText, moved, WrittenBy(s, e.id, row));
    assert AuthorsOk(c, next) by {
      ReadIsOk(b, c, freezeText, s, e.id);
      WriteEvolves(b, c, s.world, row);
      WantedStays(b, c, s.world, next.world, r, row.version);
      WriterAnswers(b, c, s.world, r, row);
      WriteKeepsAuthors(b, c, s, next, e.id, row);
    }
    assert next == Apply(b, c, freezeText, s, e);
  }

  lemma FallBackKeepsInv(b: Boards, c: Contest, freezeText: string, s: State, e: Event)
    requires Inv(b, c, freezeText, s) && Enabled(c, freezeText, s, e) && e.FallBack?
    ensures Inv(b, c, freezeText, Apply(b, c, freezeText, s, e))
  {
    var r := s.pending[e.id];
    assert ReadOk(b, c, s, r);
    StoredIsCorrect(b, c, r.start, s.world, r.view, r.scope, e.hit.version, ReadState(c, r), Stale);
    MoveKeepsInv(b, c, freezeText, s, e.id, Done(Project(e.hit, ReadState(c, r), c.freezeAt, Stale), Some(s.world)));
  }

  /** What answers the leader of a build answers whoever joined it. */
  lemma JoinedIsAnswered(b: Boards, c: Contest, w: World, r: InFlight, leader: InFlight, shown: Projection)
    requires SameBuild(c, r, leader) && Answered(b, c, leader.start, w, leader.view, leader.scope, shown)
    ensures Answered(b, c, r.start, w, r.view, r.scope, shown)
  {
  }

  lemma DeliverKeepsInv(b: Boards, c: Contest, freezeText: string, s: State, e: Event)
    requires Inv(b, c, freezeText, s) && Enabled(c, freezeText, s, e) && e.Deliver?
    ensures Inv(b, c, freezeText, Apply(b, c, freezeText, s, e))
  {
    var r := s.pending[e.id];
    var leader := s.pending[r.phase.leader];
    assert ReadOk(b, c, s, r) && ReadOk(b, c, s, leader);
    if leader.phase.Done? {
      JoinedIsAnswered(b, c, s.world, r, leader, leader.phase.shown);
    }
    MoveKeepsInv(b, c, freezeText, s, e.id, leader.phase);
  }

  lemma CleanKeepsInv(b: Boards, c: Contest, freezeText: string, s: State, e: Event)
    requires Inv(b, c, freezeText, s) && Enabled(c, freezeText, s, e) && e.Clean?
    ensures Inv(b, c, freezeText, Apply(b, c, freezeText, s, e))
  {
    var next := Apply(b, c, freezeText, s, e);
    EvolvesRefl(b, c, s.world);
    assert ReadOk(b, c, s, s.pending[e.id]);
    ReadStaysOk(b, c, s, next, s.pending[e.id]);
    ReadsStayOk(b, c, s, next, e.id);
    AuthorsStayOk(b, c, s, next);
  }

  /** Every step of every read, and everything that happens around them, keeps the invariant. */
  lemma StepKeepsInv(b: Boards, c: Contest, freezeText: string, s: State, e: Event)
    requires Inv(b, c, freezeText, s) && Enabled(c, freezeText, s, e)
    ensures Inv(b, c, freezeText, Apply(b, c, freezeText, s, e))
  {
    WorldEvolves(b, c, freezeText, s, e);
    match e
    case Begin(_, _, _, _) => BeginKeepsInv(b, c, freezeText, s, e);
    case SeeRow(_) => SeeRowKeepsInv(b, c, freezeText, s, e);
    case Miss(id) => MoveKeepsInv(b, c, freezeText, s, id, Apply(b, c, freezeText, s, e).pending[id].phase);
    case Hit(_, _) => HitKeepsInv(b, c, freezeText, s, e);
    case Run(_) => RunKeepsInv(b, c, freezeText, s, e);
    case Load(_) => LoadKeepsInv(b, c, freezeText, s, e);
    case LoadFails(id) => MoveKeepsInv(b, c, freezeText, s, id, Failing);
    case Write(_) => WriteKeepsInv(b, c, freezeText, s, e);
    case FallBack(_, _) => FallBackKeepsInv(b, c, freezeText, s, e);
    case GiveUp(id) => MoveKeepsInv(b, c, freezeText, s, id, GivenUp);
    case Deliver(_) => DeliverKeepsInv(b, c, freezeText, s, e);
    case Clean(_) => CleanKeepsInv(b, c, freezeText, s, e);
    case _ => WorldStepKeepsInv(b, c, freezeText, s, Apply(b, c, freezeText, s, e).world);
  }

  // ---- Runs ----

  ghost predicate StepAt(b: Boards, c: Contest, freezeText: string, states: seq<State>, events: seq<Event>, i: nat)
    requires i < |events| && |states| == |events| + 1
  {
    Enabled(c, freezeText, states[i], events[i]) && states[i + 1] == Apply(b, c, freezeText, states[i], events[i])
  }

  ghost predicate IsPath(b: Boards, c: Contest, freezeText: string, states: seq<State>, events: seq<Event>) {
    |states| == |events| + 1 && forall i | 0 <= i < |events| :: StepAt(b, c, freezeText, states, events, i)
  }

  ghost predicate IsRun(b: Boards, c: Contest, freezeText: string, states: seq<State>, events: seq<Event>) {
    IsPath(b, c, freezeText, states, events) && Init(c, freezeText, states[0])
  }

  lemma {:induction false} RunInv(b: Boards, c: Contest, freezeText: string, states: seq<State>, events: seq<Event>, i: nat)
    requires IsRun(b, c, freezeText, states, events) && i < |states|
    ensures Inv(b, c, freezeText, states[i])
  {
    if i == 0 {
      InitInv(b, c, freezeText, states[0]);
    } else {
      RunInv(b, c, freezeText, states, events, i - 1);
      assert StepAt(b, c, freezeText, states, events, i - 1);
      StepKeepsInv(b, c, freezeText, states[i - 1], events[i - 1]);
    }
  }

  /** From any moment of a run to any later one the world evolves. */
  lemma {:induction false} RunEvolves(b: Boards, c: Contest, freezeText: string, states: seq<State>, events: seq<Event>, i: nat, j: nat)
    requires IsRun(b, c, freezeText, states, events) && i <= j < |states|
    ensures Evolves(b, c, states[i].world, states[j].world)
    decreases j
  {
    if i == j {
      RunInv(b, c, freezeText, states, events, i);
      EvolvesRefl(b, c, states[i].world);
    } else {
      RunEvolves(b, c, freezeText, states, events, i, j - 1);
      RunInv(b, c, freezeText, states, events, j - 1);
      assert StepAt(b, c, freezeText, states, events, j - 1);
      WorldEvolves(b, c, freezeText, states[j - 1], events[j - 1]);
      EvolvesTrans(b, c, states[i].world, states[j - 1].world, states[j].world);
    }
  }

  /**
    * In every run from an empty table, a stored row never changes and is the board of its first `version` facts, also
    * seen from any later log.
    */
  lemma RowsStayTrue(b: Boards, c: Contest, freezeText: string, states: seq<State>, events: seq<Event>, i: nat, j: nat,
                     key: SnapshotKey)
    requires IsRun(b, c, freezeText, states, events) && i <= j < |states| && key in states[i].world.snapshots
    ensures key in states[j].world.snapshots && states[j].world.snapshots[key] == states[i].world.snapshots[key]
    ensures var row, now, later := states[i].world.snapshots[key], states[i].world.log, states[j].world.log;
            key.version <= |now| <= |later| && b(later[..key.version], row.scope) == Some(row.board)
  {
    RunInv(b, c, freezeText, states, events, i);
    RunEvolves(b, c, freezeText, states, events, i, j);
    var v, w := states[i].world, states[j].world;
    assert SnapshotOk(b, c, v.log, key, v.snapshots[key]);
    PrefixStays(v.log, w.log, key.version);
  }

  lemma TimedBefore(b: Boards, c: Contest, freezeText: string, s: State, e: Event, id: ReadId)
    requires Enabled(c, freezeText, s, e)
    requires id in Apply(b, c, freezeText, s, e).pending && Apply(b, c, freezeText, s, e).pending[id].phase.Timed?
    ensures var start := Apply(b, c, freezeText, s, e).pending[id].start;
            if id in s.pending then s.pending[id].phase.Timed? && s.pending[id].start == start else start == s.world
  {
  }

  /** A timed read keeps the moment of its clock, a moment of the run. */
  lemma {:induction false} TimedInRun(b: Boards, c: Contest, freezeText: string, states: seq<State>, events: seq<Event>, i: nat, id: ReadId)
    returns (j: nat)
    requires IsRun(b, c, freezeText, states, events) && i < |states| && id in states[i].pending && states[i].pending[id].phase.Timed?
    ensures j < i && states[j].world == states[i].pending[id].start
  {
    if i > 0 {
      assert StepAt(b, c, freezeText, states, events, i - 1);
      TimedBefore(b, c, freezeText, states[i - 1], events[i - 1], id);
      if id in states[i - 1].pending {
        j := TimedInRun(b, c, freezeText, states, events, i - 1, id);
      } else {
        j := i - 1;
      }
    }
  }

  lemma SeenBefore(b: Boards, c: Contest, freezeText: string, s: State, e: Event, id: ReadId)
    requires Enabled(c, freezeText, s, e)
    requires id in Apply(b, c, freezeText, s, e).pending && !Apply(b, c, freezeText, s, e).pending[id].phase.Timed?
    ensures id in s.pending
    ensures var start := Apply(b, c, freezeText, s, e).pending[id].start;
            if s.pending[id].phase.Timed? then e == SeeRow(id) && start == Seen(s.pending[id].start.clock, s.world)
            else start == s.pending[id].start
  {
  }

  /** What a read goes by are the clock of one moment of the run and the contest row of a later one. */
  lemma {:induction false} SeenInRun(b: Boards, c: Contest, freezeText: string, states: seq<State>, events: seq<Event>, i: nat, id: ReadId)
    returns (j: nat, k: nat)
    requires IsRun(b, c, freezeText, states, events) && i < |states| && id in states[i].pending && !states[i].pending[id].phase.Timed?
    ensures j < k < i && states[i].pending[id].start == Seen(states[j].world.clock, states[k].world)
    ensures events[k] == SeeRow(id) && id in states[k].pending && states[k].pending[id].start.clock == states[j].world.clock
  {
    if i > 0 {
      assert StepAt(b, c, freezeText, states, events, i - 1);
      SeenBefore(b, c, freezeText, states[i - 1], events[i - 1], id);
      if states[i - 1].pending[id].phase.Timed? {
        k := i - 1;
        j := TimedInRun(b, c, freezeText, states, events, k, id);
      } else {
        j, k := SeenInRun(b, c, freezeText, states, events, i - 1, id);
      }
    }
  }

  predicate FoundAt(s: State, id: ReadId, w: World) {
    id in s.pending && s.pending[id].phase.Done? && s.pending[id].phase.found == Some(w)
  }

  /** A row is found now, or was found before, by this read or by the one it waits for. */
  lemma FoundBefore(b: Boards, c: Contest, freezeText: string, s: State, e: Event, id: ReadId, w: World)
    requires Enabled(c, freezeText, s, e) && FoundAt(Apply(b, c, freezeText, s, e), id, w)
    ensures s.world == w || FoundAt(s, id, w) || (e == Deliver(id) && FoundAt(s, s.pending[id].phase.leader, w))
  {
  }

  /** The lookup that found the row of an answer is a moment of the run. */
  lemma {:induction false} FoundInRun(b: Boards, c: Contest, freezeText: string, states: seq<State>, events: seq<Event>, i: nat,
                                      id: ReadId, w: World)
    returns (k: nat)
    requires IsRun(b, c, freezeText, states, events) && i < |states| && FoundAt(states[i], id, w)
    ensures k < i && states[k].world == w
  {
    if i > 0 {
      assert StepAt(b, c, freezeText, states, events, i - 1);
      var s, e := states[i - 1], events[i - 1];
      FoundBefore(b, c, freezeText, s, e, id, w);
      if s.world == w {
        k := i - 1;
      } else if FoundAt(s, id, w) {
        k := FoundInRun(b, c, freezeText, states, events, i - 1, id, w);
      } else {
        k := FoundInRun(b, c, freezeText, states, events, i - 1, s.pending[id].phase.leader, w);
      }
    }
  }

  /**
    * Every read that was answered, by its own build, another's, a stored row or a stale one, was answered truly for what
    * it went by: the board is that of the first `version` facts, current means all facts of its contest row, stale
    * strictly fewer.
    */
  lemma ReadsAreAnswered(b: Boards, c: Contest, freezeText: string, states: seq<State>, events: seq<Event>, i: nat, id: ReadId)
    returns (j: nat, k: nat)
    requires IsRun(b, c, freezeText, states, events) && i < |states| && id in states[i].pending && states[i].pending[id].phase.Done?
    ensures j < k < i && events[k] == SeeRow(id)
    ensures var r := states[i].pending[id];
            Answered(b, c, Seen(states[j].world.clock, states[k].world), states[i].world, r.view, r.scope, r.phase.shown)
    ensures var now, row, w := states[j].world.clock, states[k].world, states[i].world;
            var r, shown := states[i].pending[id], states[i].pending[id].phase.shown;
            && (shown.state == Settled <==> r.view == Public && (row.publication == Archived || now >= c.endAt))
            && (shown.state == Frozen <==>
                  && r.view == Public && row.publication != Archived && now < c.endAt
                  && c.freezeAt.Some? && now >= c.freezeAt.value)
            && shown.version <= |w.log| && b(w.log[..shown.version], r.scope) == Some(shown.board)
            && (shown.freshness == Current && shown.state != Frozen ==> shown.version == |row.log|)
            && (shown.freshness == Stale ==> shown.state != Frozen && r.view == Public && shown.version < |row.log|)
  {
    j, k := SeenInRun(b, c, freezeText, states, events, i, id);
    RunInv(b, c, freezeText, states, events, i);
    assert ReadOk(b, c, states[i], states[i].pending[id]);
  }

  /** In one process at most one public build of a key is under way. */
  lemma OneBuildPerKey(b: Boards, c: Contest, freezeText: string, states: seq<State>, events: seq<Event>, i: nat, x: ReadId, y: ReadId)
    requires IsRun(b, c, freezeText, states, events) && i < |states| && x in states[i].pending && y in states[i].pending
    requires states[i].pending[x].view.Public? && Active(states[i].pending[x].phase)
    requires states[i].pending[y].view.Public? && Active(states[i].pending[y].phase)
    requires KeyOf(c, freezeText, states[i].pending[x]) == KeyOf(c, freezeText, states[i].pending[y])
    ensures x == y
  {
    RunInv(b, c, freezeText, states, events, i);
  }

  /** Any later moments of a run make a schedule, so the contracts of the service hold of its reads in every run. */
  lemma RunsAreSchedules(b: Boards, c: Contest, freezeText: string, states: seq<State>, events: seq<Event>, at: seq<nat>,
                         available: bool, order: RowOrder)
    requires IsRun(b, c, freezeText, states, events) && |at| == 8 && at[7] < |states|
    requires forall i, j | 0 <= i < j < 8 :: at[i] <= at[j]
    ensures Valid(b, c, states[at[0]].world)
    ensures Follows(b, c, states[at[0]].world,
                    Schedule(states[at[1]].world, states[at[2]].world, states[at[3]].world, states[at[4]].world,
                             states[at[5]].world, states[at[6]].world, states[at[7]].world, available, order))
  {
    RunInv(b, c, freezeText, states, events, at[0]);
    forall i | 0 <= i < 7
      ensures Evolves(b, c, states[at[i]].world, states[at[i + 1]].world)
    {
      RunEvolves(b, c, freezeText, states, events, at[i], at[i + 1]);
    }
  }
}
