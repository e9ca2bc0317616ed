/** Whether the public board keeps to the freeze, in whole runs: which rows do, and which frozen answers. */
module ScoreboardFreeze {
  import opened Wrappers
  import opened ScoringReplay
  import opened Scoreboard
  import opened ScoreboardFacts
  import opened ScoreboardView
  import opened ScoreboardRuns

  /** The contest row counts a fact from the freeze on. */
  predicate CountsLate(c: Contest, row: World) {
    c.freezeAt.Some? && exists i | 0 <= i < |row.log| :: TimeOf(row.log[i]) >= c.freezeAt.value
  }

  /** The row was stored by a live or settled read whose contest row counted a fact from the freeze on. */
  predicate LateAuthor(c: Contest, s: State, key: SnapshotKey) {
    && key in s.authors && s.authors[key] in s.pending
    && !ReadState(c, s.pending[s.authors[key]]).Frozen? && CountsLate(c, s.pending[s.authors[key]].start)
  }

  predicate LateRowStored(c: Contest, s: State, scopeKey: string) {
    exists key | key in s.world.snapshots :: IsPublicRow(key, scopeKey) && LateAuthor(c, s, key)
  }

  predicate FreezeKept(c: Contest, w: World) {
    c.freezeAt.Some? ==> forall key | key in w.snapshots && key.view.Public? :: AllBefore(w.log, key.version, c.freezeAt.value)
  }

  /** No public row was stored by a live read whose contest row counted a fact from the freeze on. */
  predicate LiveAuthorsAreEarly(c: Contest, s: State) {
    forall key | key in s.world.snapshots && key.view.Public? ::
      key in s.authors && s.authors[key] in s.pending && ReadState(c, s.pending[s.authors[key]]).Live? ==>
        !CountsLate(c, s.pending[s.authors[key]].start)
  }

  // ---- Rows ----

  lemma CountsLateIsPast(c: Contest, row: World, w: World)
    requires row.log <= w.log && c.freezeAt.Some?
    ensures CountsLate(c, row) <==> !AllBefore(w.log, |row.log|, c.freezeAt.value)
  {
    if !AllBefore(w.log, |row.log|, c.freezeAt.value) {
      var i :| 0 <= i < |row.log| && !(TimeOf(w.log[i]) < c.freezeAt.value);
      assert row.log[i] == w.log[i];
    }
    if CountsLate(c, row) {
      var i :| 0 <= i < |row.log| && TimeOf(row.log[i]) >= c.freezeAt.value;
      assert w.log[i] == row.log[i];
    }
  }

  lemma RowKeepsFreeze(b: Boards, c: Contest, freezeText: string, s: State, key: SnapshotKey)
    requires Inv(b, c, freezeText, s) && key in s.world.snapshots && key.view.Public? && c.freezeAt.Some?
    ensures !AllBefore(s.world.log, key.version, c.freezeAt.value) <==> LateAuthor(c, s, key)
  {
    assert AuthorOk(c, s, key);
    var r := s.pending[s.authors[key]];
    ReadIsOk(b, c, freezeText, s, s.authors[key]);
    if !ReadState(c, r).Frozen? {
      CountsLateIsPast(c, r.start, s.world);
    }
  }

  /**
    * In every run, a public row has seen a fact from the freeze on if and only if it was stored by a live or settled read
    * whose contest row counted one.
    */
  lemma RowsKeepFreeze(b: Boards, c: Contest, freezeText: string, states: seq<State>, events: seq<Event>, i: nat, key: SnapshotKey)
    requires IsRun(b, c, freezeText, states, events) && i < |states| && c.freezeAt.Some?
    requires key in states[i].world.snapshots && key.view.Public?
    ensures !AllBefore(states[i].world.log, key.version, c.freezeAt.value) <==> LateAuthor(c, states[i], key)
  {
    RunInv(b, c, freezeText, states, events, i);
    RowKeepsFreeze(b, c, freezeText, states[i], key);
  }

  /** While the contest is not settled no settled read can have stored anything. */
  lemma AuthorIsNotSettled(b: Boards, c: Contest, freezeText: string, s: State, key: SnapshotKey)
    requires Inv(b, c, freezeText, s) && key in s.world.snapshots && key.view.Public? && !IsSettled(c, s.world)
    ensures AuthorOk(c, s, key) && !ReadState(c, s.pending[s.authors[key]]).Settled?
  {
    assert AuthorOk(c, s, key);
    ReadIsOk(b, c, freezeText, s, s.authors[key]);
  }

  /**
    * In every run, as long as the contest is not settled, all public rows keep to the freeze if and only if the contest
    * row of every live read that stored one counted only facts from before it.
    */
  lemma FreezeIsKept(b: Boards, c: Contest, freezeText: string, states: seq<State>, events: seq<Event>, i: nat)
    requires IsRun(b, c, freezeText, states, events) && i < |states| && !IsSettled(c, states[i].world)
    ensures FreezeKept(c, states[i].world) <==> LiveAuthorsAreEarly(c, states[i])
  {
    var s := states[i];
    RunInv(b, c, freezeText, states, events, i);
    if c.freezeAt.Some? {
      forall key | key in s.world.snapshots && key.view.Public?
        ensures AuthorOk(c, s, key) && !ReadState(c, s.pending[s.authors[key]]).Settled?
        ensures !AllBefore(s.world.log, key.version, c.freezeAt.value) <==> LateAuthor(c, s, key)
      {
        AuthorIsNotSettled(b, c, freezeText, s, key);
        RowKeepsFreeze(b, c, freezeText, s, key);
      }
    }
  }

  /** A read whose clock is from before the freeze sees its contest row before the freeze too. */
  predicate RowInTime(c: Contest, s: State, id: ReadId) {
    c.freezeAt.Some? && id in s.pending && s.pending[id].start.clock < c.freezeAt.value ==> s.world.clock < c.freezeAt.value
  }

  predicate Prompt(c: Contest, states: seq<State>, events: seq<Event>) {
    |events| < |states| && forall k | 0 <= k < |events| && events[k].SeeRow? :: RowInTime(c, states[k], events[k].id)
  }

  lemma EarlyRowIsEarly(c: Contest, row: World)
    requires Stamped(row) && c.freezeAt.Some? && row.clock < c.freezeAt.value
    ensures !CountsLate(c, row)
  {
  }

  /** When no contest row comes too late for its clock, all public rows keep to the freeze until the contest settles. */
  lemma PromptReadsKeepFreeze(b: Boards, c: Contest, freezeText: string, states: seq<State>, events: seq<Event>, i: nat)
    requires IsRun(b, c, freezeText, states, events) && Prompt(c, states, events)
    requires i < |states| && !IsSettled(c, states[i].world)
    ensures FreezeKept(c, states[i].world)
  {
    var s := states[i];
    RunInv(b, c, freezeText, states, events, i);
    forall key | key in s.world.snapshots && key.view.Public? && c.freezeAt.Some?
      ensures key in s.authors && s.authors[key] in s.pending && ReadState(c, s.pending[s.authors[key]]).Live? ==>
                !CountsLate(c, s.pending[s.authors[key]].start)
    {
      assert AuthorOk(c, s, key);
      var id := s.authors[key];
      if ReadState(c, s.pending[id]).Live? {
        var j, k := SeenInRun(b, c, freezeText, states, events, i, id);
        assert RowInTime(c, states[k], events[k].id);
        RunInv(b, c, freezeText, states, events, k);
        EarlyRowIsEarly(c, states[k].world);
      }
    }
    FreezeIsKept(b, c, freezeText, states, events, i);
  }

  // ---- Frozen answers ----

  /** A lookup at some moment meets a row past the freeze exactly when a late row is stored there. */
  lemma LateRowIsPast(b: Boards, c: Contest, freezeText: string, s: State, scopeKey: string)
    requires Inv(b, c, freezeText, s) && c.freezeAt.Some?
    ensures HasPastFreeze(c, s.world, scopeKey) <==> LateRowStored(c, s, scopeKey)
  {
    forall key | key in s.world.snapshots && IsPublicRow(key, scopeKey)
      ensures !AllBefore(s.world.log, key.version, c.freezeAt.value) <==> LateAuthor(c, s, key)
    {
      RowKeepsFreeze(b, c, freezeText, s, key);
    }
  }

  /**
    * In every run, a frozen answer, own or joined, shows a fact from the freeze on if and only if a lookup found its row,
    * its own lookup or its leader's, at a moment at which a public row of the scope was stored that a live or settled read
    * had built for a contest row counting such a fact.
    */
  lemma FrozenAnswersLeak(b: Boards, c: Contest, freezeText: string, states: seq<State>, events: seq<Event>, i: nat, id: ReadId)
    returns (k: nat)
    requires IsRun(b, c, freezeText, states, events) && i < |states| && id in states[i].pending
    requires states[i].pending[id].phase.Done? && ReadState(c, states[i].pending[id]).Frozen?
    ensures k <= i && (states[i].pending[id].phase.found.Some? ==> states[k].world == states[i].pending[id].phase.found.value)
    ensures var r := states[i].pending[id];
            !AllBefore(states[i].world.log, r.phase.shown.version, c.freezeAt.value)
            <==> r.phase.found.Some? && LateRowStored(c, states[k], ScopeKey(r.scope))
  {
    var r := states[i].pending[id];
    RunInv(b, c, freezeText, states, events, i);
    assert ReadOk(b, c, states[i], r);
    k := i;
    if r.phase.found.Some? {
      k := FoundInRun(b, c, freezeText, states, events, i, id, r.phase.found.value);
      RunInv(b, c, freezeText, states, events, k);
      LateRowIsPast(b, c, freezeText, states[k], ScopeKey(r.scope));
    }
  }

  /** When no contest row comes too late for its clock, only a row found after the contest has settled can leak. */
  lemma EarlyLookupsDoNotLeak(b: Boards, c: Contest, freezeText: string, states: seq<State>, events: seq<Event>, i: nat, id: ReadId)
    requires IsRun(b, c, freezeText, states, events) && Prompt(c, states, events)
    requires i < |states| && id in states[i].pending
    requires states[i].pending[id].phase.Done? && ReadState(c, states[i].pending[id]).Frozen?
    requires states[i].pending[id].phase.found.Some? ==> !IsSettled(c, states[i].pending[id].phase.found.value)
    ensures AllBefore(states[i].world.log, states[i].pending[id].phase.shown.version, c.freezeAt.value)
  {
    var r := states[i].pending[id];
    RunInv(b, c, freezeText, states, events, i);
    assert ReadOk(b, c, states[i], r);
    if r.phase.found.Some? {
      var k := FoundInRun(b, c, freezeText, states, events, i, id, r.phase.found.value);
      PromptReadsKeepFreeze(b, c, freezeText, states, events, k);
    }
  }
}
