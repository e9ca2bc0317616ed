/** At most one scoreboard build per key runs in one process; later callers wait for it. */
module BuildCoordinator {
  import opened Wrappers
  import opened Text
  import opened ScoreboardView

  type BuildId = nat

  /** What a build is for. */
  datatype Descriptor = Descriptor(
    contestId: string, view: View, scopeKey: string, version: nat, state: ProjectionState, frozenAt: Option<string>)

  function ViewName(view: View): string {
    if view.Public? then "public" else "internal"
  }

  function StateName(state: ProjectionState): string {
    match state
    case Live => "live"
    case Frozen => "frozen"
    case Settled => "settled"
  }

  function BuildKey(d: Descriptor): string {
    d.contestId + ":" + (ViewName(d.view) + ":" + (d.scopeKey + ":" + (Decimal(d.version) + ":" + (StateName(d.state) + ":"
    + (if d.frozenAt.Some? then d.frozenAt.value else "none")))))
  }

  /** Ids without a colon, and a time that is not the word for no time. */
  predicate WellFormed(d: Descriptor) {
    ':' !in d.contestId && ':' !in d.scopeKey && d.frozenAt != Some("none")
  }

  /** Two builds are merged only when they are for the same view, scope, version and state. */
  lemma BuildKeyInjective(a: Descriptor, b: Descriptor)
    requires WellFormed(a) && WellFormed(b) && BuildKey(a) == BuildKey(b)
    ensures a == b
  {
    var a5, b5 := if a.frozenAt.Some? then a.frozenAt.value else "none", if b.frozenAt.Some? then b.frozenAt.value else "none";
    var a4, b4 := StateName(a.state) + ":" + a5, StateName(b.state) + ":" + b5;
    var a3, b3 := Decimal(a.version) + ":" + a4, Decimal(b.version) + ":" + b4;
    var a2, b2 := a.scopeKey + ":" + a3, b.scopeKey + ":" + b3;
    var a1, b1 := ViewName(a.view) + ":" + a2, ViewName(b.view) + ":" + b2;
    NextField(a.contestId, a1, b.contestId, b1);
    NextField(ViewName(a.view), a2, ViewName(b.view), b2);
    NextField(a.scopeKey, a3, b.scopeKey, b3);
    NextField(Decimal(a.version), a4, Decimal(b.version), b4);
    NextField(StateName(a.state), a5, StateName(b.state), b5);
    DecimalInjective(a.version, b.version);
    assert |ViewName(a.view)| == |ViewName(b.view)|;
    assert StateName(a.state)[0] == StateName(b.state)[0];
  }

  lemma NextField(a: string, x: string, b: string, y: string)
    requires a + ":" + x == b + ":" + y && ':' !in a && ':' !in b
    ensures a == b && x == y
  {
    FieldEnds(a, x, b, y, ':');
  }

  /** The builds begun and not yet cleaned up, and the table through which callers find them. */
  class ScoreboardBuildCoordinator {
    var inFlight: map<string, BuildId>
    var begun: BuildId
    ghost var running: map<BuildId, string>

    ghost predicate Valid()
      reads this
    {
      && (forall key | key in inFlight :: inFlight[key] in running && running[inFlight[key]] == key)
      && (forall id | id in running :: id < begun && running[id] in inFlight && inFlight[running[id]] == id)
    }

    constructor ()
      ensures Valid() && running == map[]
    {
      inFlight := map[];
      begun := 0;
      running := map[];
    }

    /** The first half of `run`: join the build of the key, or begin one. */
    method Begin(key: string) returns (id: BuildId, joined: bool)
      requires Valid()
      modifies this
      ensures Valid()
      ensures joined <==> exists other :: other in old(running) && old(running)[other] == key
      ensures joined ==> id in old(running) && running == old(running)
      ensures !joined ==> id !in old(running) && running == old(running)[id := key]
      ensures id in running && running[id] == key
    {
      if key in inFlight {
        return inFlight[key], true;
      }
      id, joined := begun, false;
      begun := begun + 1;
      inFlight := inFlight[key := id];
      running := running[id := key];
    }

    /** The `finally` of the caller that began the build, whether the build succeeded or not. */
    method End(key: string, id: BuildId)
      requires Valid() && id in running && running[id] == key
      modifies this
      ensures Valid() && running == old(running) - {id}
      ensures key !in inFlight
    {
      if key in inFlight && inFlight[key] == id {
        inFlight := inFlight - {key};
      }
      running := running - {id};
    }

    /** Never two builds of one key at a time. */
    lemma OneBuildPerKey(a: BuildId, b: BuildId)
      requires Valid() && a in running && b in running && running[a] == running[b]
      ensures a == b
    {
    }
  }
}
