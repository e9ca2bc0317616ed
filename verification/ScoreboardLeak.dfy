/** Public boards that do not keep to the freeze: from where runs can lead to them, and runs that do. */
module ScoreboardLeak {
  import opened Wrappers
  import opened Scoring
  import opened ScoringReplay
  import opened Scoreboard
  import opened ScoreboardFacts
  import opened ScoreboardView
  import opened BuildCoordinator
  import opened ScoreboardRuns
  import opened ScoreboardFreeze
  import opened SmallBoards

  // ---- Ways on ----

  /** Some events lead from one state to another. */
  ghost predicate Leads(b: Boards, c: Contest, freezeText: string, s: State, later: State) {
    exists states, events ::
      IsPath(b, c, freezeText, states, events) && states[0] == s && states[|events|] == later
  }

  /** On the way from `s`. */
  ghost predicate OnWay(b: Boards, c: Contest, freezeText: string, s: State, later: State) {
    Leads(b, c, freezeText, s, later) && Inv(b, c, freezeText, later)
  }

  lemma SetOut(b: Boards, c: Contest, freezeText: string, s: State)
    requires Inv(b, c, freezeText, s)
    ensures OnWay(b, c, freezeText, s, s)
  {
    assert IsPath(b, c, freezeText, [s], []);
  }

  lemma GoOn(b: Boards, c: Contest, freezeText: string, s: State, at: State, e: Event)
    requires OnWay(b, c, freezeText, s, at) && Enabled(c, freezeText, at, e)
    ensures OnWay(b, c, freezeText, s, Apply(b, c, freezeText, at, e))
  {
    StepKeepsInv(b, c, freezeText, at, e);
    var states, events :| IsPath(b, c, freezeText, states, events) && states[0] == s && states[|events|] == at;
    var longer := states + [Apply(b, c, freezeText, at, e)];
    forall i | 0 <= i < |events + [e]|
      ensures StepAt(b, c, freezeText, longer, events + [e], i)
    {
      if i < |events| {
        assert StepAt(b, c, freezeText, states, events, i);
      }
    }
    assert IsPath(b, c, freezeText, longer, events + [e]);
  }

  /** The ways from an empty table are the runs. */
  lemma WaysAreRuns(b: Boards, c: Contest, freezeText: string, first: State, s: State)
    returns (states: seq<State>, events: seq<Event>)
    requires Init(c, freezeText, first) && Leads(b, c, freezeText, first, s)
    ensures IsRun(b, c, freezeText, states, events) && states[|events|] == s
  {
    states, events :| IsPath(b, c, freezeText, states, events) && states[0] == first && states[|events|] == s;
  }

  lemma PathsJoin(b: Boards, c: Contest, freezeText: string, xs: seq<State>, es: seq<Event>, ys: seq<State>, fs: seq<Event>)
    requires IsPath(b, c, freezeText, xs, es) && IsPath(b, c, freezeText, ys, fs) && xs[|es|] == ys[0]
    ensures IsPath(b, c, freezeText, xs + ys[1..], es + fs) && (xs + ys[1..])[|es| + |fs|] == ys[|fs|]
  {
    var states, events := xs + ys[1..], es + fs;
    forall i | 0 <= i < |events|
      ensures StepAt(b, c, freezeText, states, events, i)
    {
      if i < |es| {
        assert StepAt(b, c, freezeText, xs, es, i);
      } else {
        assert StepAt(b, c, freezeText, ys, fs, i - |es|);
        assert states[i] == ys[i - |es|] && states[i + 1] == ys[i - |es| + 1];
      }
    }
  }

  lemma LeadsOn(b: Boards, c: Contest, freezeText: string, o: State, s: State, later: State)
    requires Leads(b, c, freezeText, o, s) && Leads(b, c, freezeText, s, later)
    ensures Leads(b, c, freezeText, o, later)
  {
    var xs, es :| IsPath(b, c, freezeText, xs, es) && xs[0] == o && xs[|es|] == s;
    var ys, fs :| IsPath(b, c, freezeText, ys, fs) && ys[0] == s && ys[|fs|] == later;
    PathsJoin(b, c, freezeText, xs, es, ys, fs);
    assert IsPath(b, c, freezeText, xs + ys[1..], es + fs);
  }

  // ---- A newcomer stores a board ----

  /** A fact that may be the next one. */
  predicate MayArrive(log: seq<Entry>, entry: Entry) {
    EntryOk(entry) && forall i | 0 <= i < |log| :: TimeOf(log[i]) <= TimeOf(entry)
  }

  lemma FactArrives(b: Boards, c: Contest, freezeText: string, o: State, s: State, entry: Entry, to: Time) returns (later: State)
    requires OnWay(b, c, freezeText, o, s) && MayArrive(s.world.log, entry) && s.world.clock <= to && TimeOf(entry) <= to
    ensures OnWay(b, c, freezeText, o, later)
    ensures later == s.(world := s.world.(log := s.world.log + [entry], clock := to))
  {
    var waited := Apply(b, c, freezeText, s, Tick(to));
    GoOn(b, c, freezeText, o, s, Tick(to));
    later := Apply(b, c, freezeText, waited, Append(entry));
    GoOn(b, c, freezeText, o, waited, Append(entry));
  }

  /** Only this read wants a board of as many facts as it has seen. */
  predicate Newcomer(s: State, id: ReadId) {
    && id in s.pending
    && forall other | other in s.pending && other != id && Led(s.pending[other].phase) ::
         |s.pending[other].start.log| < |s.pending[id].start.log|
  }

  /** A public read of all facts there are, the first to want them, for which no row is stored. */
  ghost predicate MayStore(b: Boards, c: Contest, s: State, id: ReadId) {
    && Newcomer(s, id)
    && var r := s.pending[id];
       && r.view.Public? && !ReadState(c, r).Frozen? && r.start.log == s.world.log
       && Stored(s.world, Public, ScopeKey(r.scope), |s.world.log|).None? && b(s.world.log, r.scope).Some?
  }

  lemma NobodyElseBuilds(b: Boards, c: Contest, freezeText: string, s: State, id: ReadId)
    requires Inv(b, c, freezeText, s) && MayStore(b, c, s, id) && s.pending[id].phase.Missed?
    ensures KeyOf(c, freezeText, s.pending[id]) !in s.running
  {
    var key := KeyOf(c, freezeText, s.pending[id]);
    if key in s.running {
      var leader := s.running[key];
      ReadIsOk(b, c, freezeText, s, id);
      ReadIsOk(b, c, freezeText, s, leader);
      SameKeySameBuild(c, freezeText, s.pending[id], s.pending[leader]);
      assert false;
    }
  }

  lemma Misses(b: Boards, c: Contest, freezeText: string, o: State, s: State, id: ReadId) returns (later: State)
    requires OnWay(b, c, freezeText, o, s) && MayStore(b, c, s, id) && LooksUp(s.pending[id].phase)
    ensures OnWay(b, c, freezeText, o, later) && MayStore(b, c, later, id)
    ensures later == At(s, id, if s.pending[id].phase.Looking? then Missed else Leading(s.pending[id].phase.left - 1))
  {
    later := Apply(b, c, freezeText, s, Miss(id));
    GoOn(b, c, freezeText, o, s, Miss(id));
  }

  lemma BeginsToLead(b: Boards, c: Contest, freezeText: string, o: State, s: State, id: ReadId) returns (later: State)
    requires OnWay(b, c, freezeText, o, s) && MayStore(b, c, s, id) && s.pending[id].phase.Missed?
    ensures OnWay(b, c, freezeText, o, later) && MayStore(b, c, later, id) && later.world == s.world
    ensures later.pending == s.pending[id := s.pending[id].(phase := Leading(Lookups(ReadState(c, s.pending[id]))))]
  {
    NobodyElseBuilds(b, c, freezeText, s, id);
    later := Apply(b, c, freezeText, s, Run(id));
    GoOn(b, c, freezeText, o, s, Run(id));
  }

  lemma {:induction false} LooksInVain(b: Boards, c: Contest, freezeText: string, o: State, s: State, id: ReadId) returns (later: State)
    requires OnWay(b, c, freezeText, o, s) && MayStore(b, c, s, id) && s.pending[id].phase.Leading?
    ensures OnWay(b, c, freezeText, o, later) && later == At(s, id, Leading(0))
    decreases s.pending[id].phase.left
  {
    if s.pending[id].phase.left == 0 {
      later := s;
      assert At(s, id, Leading(0)) == s;
    } else {
      var next := Misses(b, c, freezeText, o, s, id);
      later := LooksInVain(b, c, freezeText, o, next, id);
    }
  }

  lemma LeadsInVain(b: Boards, c: Contest, freezeText: string, o: State, s: State, id: ReadId) returns (later: State)
    requires OnWay(b, c, freezeText, o, s) && MayStore(b, c, s, id) && s.pending[id].phase.Looking?
    ensures OnWay(b, c, freezeText, o, later) && MayStore(b, c, later, id) && later.world == s.world
    ensures later.pending == s.pending[id := s.pending[id].(phase := Leading(0))]
  {
    var missed := Misses(b, c, freezeText, o, s, id);
    var leading := BeginsToLead(b, c, freezeText, o, missed, id);
    later := LooksInVain(b, c, freezeText, o, leading, id);
  }

  lemma Loads(b: Boards, c: Contest, freezeText: string, o: State, s: State, id: ReadId) returns (later: State, row: Snapshot)
    requires OnWay(b, c, freezeText, o, s) && MayStore(b, c, s, id) && s.pending[id].phase == Leading(0)
    ensures OnWay(b, c, freezeText, o, later) && later == At(s, id, Building(row))
    ensures row.view.Public? && row.scopeKey == ScopeKey(s.pending[id].scope) && row.version == |s.world.log|
  {
    NoCutoffSeesAll(s.world.log);
    assert s.world.log[..|s.world.log|] == s.world.log;
    later := Apply(b, c, freezeText, s, Load(id));
    GoOn(b, c, freezeText, o, s, Load(id));
    row := later.pending[id].phase.row;
  }

  lemma Writes(b: Boards, c: Contest, freezeText: string, o: State, s: State, id: ReadId) returns (later: State)
    requires OnWay(b, c, freezeText, o, s) && id in s.pending && s.pending[id].phase.Building?
    requires var row := s.pending[id].phase.row; Stored(s.world, row.view, row.scopeKey, row.version).None?
    ensures OnWay(b, c, freezeText, o, later) && later.world == Inserted(s.world, s.pending[id].phase.row)
    ensures later.pending.Keys == s.pending.Keys && forall other | other in s.pending && other != id :: later.pending[other] == s.pending[other]
  {
    later := Apply(b, c, freezeText, s, Write(id));
    GoOn(b, c, freezeText, o, s, Write(id));
  }

  /** It looks, begins a build, looks in vain, and stores the board of all facts. */
  lemma NewcomerStores(b: Boards, c: Contest, freezeText: string, o: State, s: State, id: ReadId) returns (later: State, row: Snapshot)
    requires OnWay(b, c, freezeText, o, s) && MayStore(b, c, s, id) && s.pending[id].phase.Looking?
    ensures OnWay(b, c, freezeText, o, later)
    ensures row.view.Public? && row.scopeKey == ScopeKey(s.pending[id].scope) && row.version == |s.world.log|
    ensures later.world == Inserted(s.world, row)
    ensures later.pending.Keys == s.pending.Keys && forall other | other in s.pending && other != id :: later.pending[other] == s.pending[other]
  {
    var looked := LeadsInVain(b, c, freezeText, o, s, id);
    var building;
    building, row := Loads(b, c, freezeText, o, looked, id);
    later := Writes(b, c, freezeText, o, building, id);
  }

  /** After a new fact, a read that sees the contest row is the first to want all facts. */
  lemma NextFactIsWanted(b: Boards, c: Contest, freezeText: string, s: State, later: State, id: ReadId, entry: Entry)
    requires Inv(b, c, freezeText, s) && id in later.pending && later.world.log == s.world.log + [entry]
    requires later.world.snapshots == s.world.snapshots && later.pending[id].start.log == later.world.log
    requires forall other | other in later.pending && other != id :: other in s.pending && later.pending[other] == s.pending[other]
    requires later.pending[id].view.Public? && !ReadState(c, later.pending[id]).Frozen?
    requires b(later.world.log, later.pending[id].scope).Some?
    ensures MayStore(b, c, later, id)
  {
    forall other | other in later.pending && other != id
      ensures |later.pending[other].start.log| < |later.pending[id].start.log|
    {
      ReadIsOk(b, c, freezeText, s, other);
    }
    forall key | key in s.world.snapshots
      ensures key.version <= |s.world.log|
    {
      assert SnapshotOk(b, c, s.world.log, key, s.world.snapshots[key]);
    }
  }

  // ---- A frozen answer past the freeze ----

  lemma FreshId(taken: set<ReadId>) returns (id: ReadId)
    ensures id !in taken && forall other | other in taken :: other < id
  {
    if taken == {} {
      id := 0;
    } else {
      ghost var _ := Member(taken);
      var x :| x in taken;
      var rest := FreshId(taken - {x});
      id := if x < rest then rest else x + 1;
      assert taken == (taken - {x}) + {x};
    }
  }

  /** A new fact, the end of the contest, and a read that has seen both. */
  lemma SettledReadBegins(b: Boards, c: Contest, freezeText: string, o: State, s: State, scope: Scope, entry: Entry)
    returns (later: State, id: ReadId)
    requires OnWay(b, c, freezeText, o, s) && MayArrive(s.world.log, entry) && ScopeKnown(c, scope)
    requires b(s.world.log + [entry], scope).Some?
    ensures OnWay(b, c, freezeText, o, later) && id !in s.pending && id in later.pending
    ensures later.world.log == s.world.log + [entry] && later.world.snapshots == s.world.snapshots
    ensures forall other | other in s.pending :: other in later.pending && later.pending[other] == s.pending[other]
    ensures MayStore(b, c, later, id) && later.pending[id].phase.Looking? && later.pending[id].scope == scope
  {
    var to := Max(s.world.clock, Max(c.endAt, TimeOf(entry)));
    var arrived := FactArrives(b, c, freezeText, o, s, entry, to);
    id := FreshId(s.pending.Keys);
    assert id !in s.pending;
    var begun := Apply(b, c, freezeText, arrived, Begin(id, 0, Public, scope));
    GoOn(b, c, freezeText, o, arrived, Begin(id, 0, Public, scope));
    later := Apply(b, c, freezeText, begun, SeeRow(id));
    GoOn(b, c, freezeText, o, begun, SeeRow(id));
    NextFactIsWanted(b, c, freezeText, s, later, id, entry);
  }

  /** The row stored last is the newest. */
  lemma NewestIsFound(b: Boards, c: Contest, w: World, row: Snapshot, r: InFlight)
    requires Valid(b, c, w) && row.version == |w.log| && row.view.Public? && row.scopeKey == ScopeKey(r.scope)
    requires r.view.Public? && ReadState(c, r).Frozen?
    ensures Finds(c, Inserted(w, row), r, row)
  {
    forall key | key in Inserted(w, row).snapshots && key.view.Public? && key.scopeKey == ScopeKey(r.scope)
      ensures key.version <= row.version
    {
      if key in w.snapshots {
        assert SnapshotOk(b, c, w.log, key, w.snapshots[key]);
      }
    }
  }

  /**
    * However a read began during the freeze, and whatever is stored by then: if one more fact can arrive that has a board,
    * the read may yet answer with a board that shows it.
    */
  lemma LeakIsPossible(b: Boards, c: Contest, freezeText: string, s: State, id: ReadId, entry: Entry) returns (later: State)
    requires Inv(b, c, freezeText, s) && id in s.pending && s.pending[id].phase.Looking? && s.pending[id].view.Public?
    requires ReadState(c, s.pending[id]).Frozen? && MayArrive(s.world.log, entry) && TimeOf(entry) >= c.freezeAt.value
    requires b(s.world.log + [entry], s.pending[id].scope).Some?
    ensures OnWay(b, c, freezeText, s, later) && id in later.pending && later.pending[id].phase.Done?
    ensures later.pending[id] == s.pending[id].(phase := later.pending[id].phase)
    ensures !AllBefore(later.world.log, later.pending[id].phase.shown.version, c.freezeAt.value)
  {
    var scope := s.pending[id].scope;
    SetOut(b, c, freezeText, s);
    ReadIsOk(b, c, freezeText, s, id);
    var wanted, other := SettledReadBegins(b, c, freezeText, s, s, scope, entry);
    var stored, row := NewcomerStores(b, c, freezeText, s, wanted, other);
    NewestIsFound(b, c, wanted.world, row, s.pending[id]);
    later := Apply(b, c, freezeText, stored, Hit(id, row));
    GoOn(b, c, freezeText, s, stored, Hit(id, row));
    assert later.world.log[|s.world.log|] == entry;
  }

  // ---- A live row past the freeze ----

  /** However a read took its clock before the freeze: if a fact from the freeze on arrives before it sees the contest row,
      it may store a live row that has seen the fact. */
  lemma LateRowIsPossible(b: Boards, c: Contest, freezeText: string, s: State, id: ReadId, entry: Entry, to: Time)
    returns (later: State, row: Snapshot)
    requires Inv(b, c, freezeText, s) && id in s.pending && s.pending[id].phase.Timed? && s.pending[id].view.Public?
    requires c.freezeAt.Some? && s.pending[id].start.clock < c.freezeAt.value && s.pending[id].start.clock < c.endAt
    requires !s.world.publication.Archived? && MayArrive(s.world.log, entry)
    requires c.freezeAt.value <= TimeOf(entry) <= to && s.world.clock <= to
    requires b(s.world.log + [entry], s.pending[id].scope).Some?
    ensures OnWay(b, c, freezeText, s, later) && later.world.clock == to && later.world.log == s.world.log + [entry]
    ensures row.view.Public? && later.world.snapshots == s.world.snapshots[SnapshotKey(Public, row.scopeKey, row.version) := row]
    ensures row.scopeKey == ScopeKey(s.pending[id].scope) && row.version == |later.world.log|
    ensures later.world.publication == s.world.publication && !FreezeKept(c, later.world)
    ensures later.pending.Keys == s.pending.Keys
    ensures forall other | other in s.pending && other != id :: later.pending[other] == s.pending[other]
  {
    SetOut(b, c, freezeText, s);
    ReadIsOk(b, c, freezeText, s, id);
    var arrived := FactArrives(b, c, freezeText, s, s, entry, to);
    var seen := Apply(b, c, freezeText, arrived, SeeRow(id));
    GoOn(b, c, freezeText, s, arrived, SeeRow(id));
    NextFactIsWanted(b, c, freezeText, s, seen, id, entry);
    later, row := NewcomerStores(b, c, freezeText, s, seen, id);
    assert later.world.log[|s.world.log|] == entry;
    assert SnapshotKey(Public, row.scopeKey, row.version) in later.world.snapshots;
  }

  // ---- It happens ----

  /** A contest that is frozen from 10 to 20, with one team. */
  function SmallContest(factor: DecayFactor): Contest {
    Contest("contest", [], [Participation(1, 1, "team", None, Accepted)], {}, Some(10), 20, factor)
  }

  function FirstState(clock: Time): State {
    State(World([], clock, Published, Open, map[]), map[], map[], map[])
  }

  const POINTS_AT_15: Entry := Adjusted(Adjustment(1, 1, 5, 15))

  lemma ReadBegins(b: Boards, c: Contest, o: State, s: State, id: ReadId) returns (later: State)
    requires OnWay(b, c, "freeze", o, s) && id !in s.pending
    ensures OnWay(b, c, "freeze", o, later) && later == s.(pending := s.pending[id := InFlight(id, Public, Overall, s.world, Timed)])
  {
    later := Apply(b, c, "freeze", s, Begin(id, id, Public, Overall));
    GoOn(b, c, "freeze", o, s, Begin(id, id, Public, Overall));
  }

  lemma RowIsSeen(b: Boards, c: Contest, o: State, s: State, id: ReadId) returns (later: State)
    requires OnWay(b, c, "freeze", o, s) && id in s.pending && s.pending[id].phase.Timed?
    ensures OnWay(b, c, "freeze", o, later)
    ensures later.world == s.world
            && later.pending == s.pending[id := s.pending[id].(start := Seen(s.pending[id].start.clock, s.world), phase := Looking)]
  {
    later := Apply(b, c, "freeze", s, SeeRow(id));
    GoOn(b, c, "freeze", o, s, SeeRow(id));
  }

  /** A public row of no facts is stored at 5. */
  lemma RowIsStored(b: Boards, c: Contest, o: State) returns (s: State)
    requires c.freezeAt == Some(10) && c.endAt == 20 && b([], Overall).Some? && o == FirstState(5) && Inv(b, c, "freeze", o)
    ensures OnWay(b, c, "freeze", o, s) && s.world.log == [] && s.world.clock == 5 && s.world.publication.Published?
    ensures HasPublic(s.world, OVERALL_KEY) && s.pending.Keys == {1}
  {
    SetOut(b, c, "freeze", o);
    var first := ReadBegins(b, c, o, o, 1);
    var seen := RowIsSeen(b, c, o, first, 1);
    var row;
    s, row := NewcomerStores(b, c, "freeze", o, seen, 1);
    assert IsPublicRow(SnapshotKey(Public, OVERALL_KEY, 0), OVERALL_KEY) && SnapshotKey(Public, OVERALL_KEY, 0) in s.world.snapshots;
  }

  /** At 10 a second read begins. */
  lemma FrozenReadBegins(b: Boards, c: Contest, o: State, stored: State) returns (s: State)
    requires c.freezeAt == Some(10) && c.endAt == 20 && OnWay(b, c, "freeze", o, stored) && 2 !in stored.pending
    requires stored.world.clock == 5 && stored.world.publication.Published?
    ensures OnWay(b, c, "freeze", o, s) && s.world == stored.world.(clock := 10)
    ensures 2 in s.pending && s.pending[2].phase.Looking? && s.pending[2].view.Public? && s.pending[2].scope == Overall
    ensures ReadState(c, s.pending[2]).Frozen? && s.pending[2].start == s.world
  {
    var frozen := Apply(b, c, "freeze", stored, Tick(10));
    GoOn(b, c, "freeze", o, stored, Tick(10));
    var second := ReadBegins(b, c, o, frozen, 2);
    s := RowIsSeen(b, c, o, second, 2);
  }

  lemma StoredRowLeak(b: Boards, c: Contest, o: State) returns (s: State)
    requires c.freezeAt == Some(10) && c.endAt == 20 && o == FirstState(5) && Inv(b, c, "freeze", o)
    requires b([], Overall).Some? && b([POINTS_AT_15], Overall).Some?
    ensures Leads(b, c, "freeze", o, s)
    ensures 2 in s.pending && s.pending[2].phase.Done? && ReadState(c, s.pending[2]).Frozen?
    ensures HasPublic(s.pending[2].start, OVERALL_KEY) && !AllBefore(s.world.log, s.pending[2].phase.shown.version, 10)
  {
    var stored := RowIsStored(b, c, o);
    var frozen := FrozenReadBegins(b, c, o, stored);
    assert [] + [POINTS_AT_15] == [POINTS_AT_15];
    s := LeakIsPossible(b, c, "freeze", frozen, 2, POINTS_AT_15);
    LeadsOn(b, c, "freeze", o, frozen, s);
  }

  /**
    * A run from an empty table in which a public row is stored before a frozen read begins, and the read still answers
    * with a board that shows a fact from during the freeze.
    */
  lemma StoredRowDoesNotPreventLeak(factor: DecayFactor) returns (b: Boards, states: seq<State>, events: seq<Event>)
    ensures var c := SmallContest(factor);
            && Determines(c, b) && IsRun(b, c, "freeze", states, events)
            && var s := states[|events|];
               && 2 in s.pending && s.pending[2].phase.Done? && ReadState(c, s.pending[2]).Frozen?
               && HasPublic(s.pending[2].start, OVERALL_KEY) && !AllBefore(s.world.log, s.pending[2].phase.shown.version, 10)
  {
    var c := SmallContest(factor);
    b := BoardsOf(c);
    BoardsOfOneTeam(c, b, c.participations[0], POINTS_AT_15.adjustment);
    InitInv(b, c, "freeze", FirstState(5));
    var s := StoredRowLeak(b, c, FirstState(5));
    states, events := WaysAreRuns(b, c, "freeze", FirstState(5), s);
  }

  /** A read takes its clock at 9, a fact arrives at 15, and the read stores a live row that has seen it. */
  lemma LateRowIsStored(b: Boards, c: Contest, o: State) returns (s: State, row: Snapshot)
    requires c.freezeAt == Some(10) && c.endAt == 20 && o == FirstState(9) && Inv(b, c, "freeze", o)
    requires b([POINTS_AT_15], Overall).Some?
    ensures OnWay(b, c, "freeze", o, s) && s.world.clock == 15 && s.world.log == [POINTS_AT_15] && s.world.publication.Published?
    ensures s.pending.Keys == {1} && !FreezeKept(c, s.world)
    ensures row.view.Public? && row.scopeKey == OVERALL_KEY && row.version == 1
    ensures s.world.snapshots == map[SnapshotKey(Public, OVERALL_KEY, 1) := row]
  {
    SetOut(b, c, "freeze", o);
    var begun := ReadBegins(b, c, o, o, 1);
    assert [] + [POINTS_AT_15] == [POINTS_AT_15];
    s, row := LateRowIsPossible(b, c, "freeze", begun, 1, POINTS_AT_15, 15);
    LeadsOn(b, c, "freeze", o, begun, s);
  }

  lemma LateRowLeak(b: Boards, c: Contest, o: State) returns (s: State)
    requires c.freezeAt == Some(10) && c.endAt == 20 && o == FirstState(9) && Inv(b, c, "freeze", o)
    requires b([POINTS_AT_15], Overall).Some?
    ensures Leads(b, c, "freeze", o, s) && !IsSettled(c, s.world) && !FreezeKept(c, s.world)
    ensures 2 in s.pending && s.pending[2].phase.Done? && ReadState(c, s.pending[2]).Frozen?
    ensures !AllBefore(s.world.log, s.pending[2].phase.shown.version, 10)
  {
    var stored, row := LateRowIsStored(b, c, o);
    s := LateRowIsFound(b, c, o, stored, row);
  }

  /**
    * A run from an empty table in which a read with the clock at 9 stores a live row of a fact from 15, and a frozen read
    * shows it while the contest is not settled.
    */
  lemma LateRowIsShown(factor: DecayFactor) returns (b: Boards, states: seq<State>, events: seq<Event>)
    ensures var c := SmallContest(factor);
            && Determines(c, b) && IsRun(b, c, "freeze", states, events)
            && var s := states[|events|];
               && !IsSettled(c, s.world) && !FreezeKept(c, s.world)
               && 2 in s.pending && s.pending[2].phase.Done? && ReadState(c, s.pending[2]).Frozen?
               && !AllBefore(s.world.log, s.pending[2].phase.shown.version, 10)
  {
    var c := SmallContest(factor);
    b := BoardsOf(c);
    BoardsOfOneTeam(c, b, c.participations[0], POINTS_AT_15.adjustment);
    InitInv(b, c, "freeze", FirstState(9));
    var s := LateRowLeak(b, c, FirstState(9));
    states, events := WaysAreRuns(b, c, "freeze", FirstState(9), s);
  }

  lemma SecondReadLooks(b: Boards, c: Contest, o: State, stored: State) returns (s: State)
    requires c.freezeAt == Some(10) && c.endAt == 20 && OnWay(b, c, "freeze", o, stored) && 2 !in stored.pending
    requires stored.world.clock == 15 && stored.world.publication.Published?
    ensures OnWay(b, c, "freeze", o, s) && s.world == stored.world && 2 in s.pending
    ensures s.pending[2] == InFlight(2, Public, Overall, s.world, Looking) && ReadState(c, s.pending[2]).Frozen?
  {
    var begun := ReadBegins(b, c, o, stored, 2);
    s := RowIsSeen(b, c, o, begun, 2);
  }

  /** A frozen read finds such a row. */
  lemma LateRowIsFound(b: Boards, c: Contest, o: State, stored: State, row: Snapshot) returns (s: State)
    requires c.freezeAt == Some(10) && c.endAt == 20 && OnWay(b, c, "freeze", o, stored) && 2 !in stored.pending
    requires stored.world.log == [POINTS_AT_15] && stored.world.clock == 15 && stored.world.publication.Published?
    requires row.view.Public? && row.scopeKey == OVERALL_KEY && row.version == 1
    requires stored.world.snapshots == map[SnapshotKey(Public, OVERALL_KEY, 1) := row]
    ensures Leads(b, c, "freeze", o, s) && s.world == stored.world
    ensures 2 in s.pending && s.pending[2].phase.Done? && ReadState(c, s.pending[2]).Frozen?
    ensures !AllBefore(s.world.log, s.pending[2].phase.shown.version, 10)
  {
    var seen := SecondReadLooks(b, c, o, stored);
    s := Apply(b, c, "freeze", seen, Hit(2, row));
    GoOn(b, c, "freeze", o, seen, Hit(2, row));
    assert s.world.log[0] == POINTS_AT_15;
  }
}
