/** A growing log of scoring facts, the board each prefix of it determines, and what a cutoff makes visible. */
module ScoreboardFacts {
  import opened Wrappers
  import opened Ordering
  import opened Scoring
  import opened ScoringReplay
  import opened ScoringOrder
  import opened ScoringConservation
  import opened ReplayService
  import opened Scoreboard

  /** One fact that counts towards the version: an official solve with its submission, or an adjustment. */
  datatype Entry = Solved(submission: Submission, solve: Solve) | Adjusted(adjustment: Adjustment)

  /** What does not change while a contest is scored. */
  datatype Contest = Contest(
    id: string, challenges: seq<Challenge>, participations: seq<Participation>, divisions: set<string>,
    freezeAt: Option<Time>, endAt: Time, factor: DecayFactor)

  function TimeOf(e: Entry): Time {
    if e.Solved? then e.solve.solvedAt else e.adjustment.createdAt
  }

  predicate EntryOk(e: Entry) {
    e.Solved? ==> e.solve.mode.Official? && e.submission.submittedAt == e.solve.solvedAt
  }

  predicate LogOk(log: seq<Entry>) {
    && (forall i | 0 <= i < |log| :: EntryOk(log[i]))
    && (forall i, j | 0 <= i < j < |log| :: TimeOf(log[i]) <= TimeOf(log[j]))
  }

  // ---- Tables ----

  function Submissions(log: seq<Entry>): seq<Submission> {
    if log == [] then []
    else Submissions(log[..|log| - 1]) + (if log[|log| - 1].Solved? then [log[|log| - 1].submission] else [])
  }

  function Solves(log: seq<Entry>): seq<Solve> {
    if log == [] then []
    else Solves(log[..|log| - 1]) + (if log[|log| - 1].Solved? then [log[|log| - 1].solve] else [])
  }

  function Adjustments(log: seq<Entry>): seq<Adjustment> {
    if log == [] then []
    else Adjustments(log[..|log| - 1]) + (if log[|log| - 1].Adjusted? then [log[|log| - 1].adjustment] else [])
  }

  function FactsOf(c: Contest, log: seq<Entry>): Facts {
    Facts(c.challenges, c.participations, Submissions(log), Solves(log), Adjustments(log))
  }

  // ---- The three queries with their cutoff ----

  predicate Visible(time: Time, cutoff: Option<Time>) {
    cutoff.None? || time < cutoff.value
  }

  function SubmittedBefore(cutoff: Option<Time>): Submission -> bool { (s: Submission) => Visible(s.submittedAt, cutoff) }
  function SolvedBefore(cutoff: Option<Time>): Solve -> bool { (s: Solve) => Visible(s.solvedAt, cutoff) }
  function CreatedBefore(cutoff: Option<Time>): Adjustment -> bool { (a: Adjustment) => Visible(a.createdAt, cutoff) }

  function Loaded(c: Contest, log: seq<Entry>, cutoff: Option<Time>): Facts {
    Facts(c.challenges, c.participations, Filter(Submissions(log), SubmittedBefore(cutoff)),
          Filter(Solves(log), SolvedBefore(cutoff)), Filter(Adjustments(log), CreatedBefore(cutoff)))
  }

  /** How many facts of the log a cutoff lets through. */
  function VisibleCount(log: seq<Entry>, cutoff: Option<Time>): (n: nat)
    ensures n <= |log|
  {
    if log == [] then 0
    else if Visible(TimeOf(log[|log| - 1]), cutoff) then |log|
    else VisibleCount(log[..|log| - 1], cutoff)
  }

  /** The facts from before a cutoff, all of them and no other, are a prefix of the log. */
  lemma {:induction false} VisibleIsPrefix(log: seq<Entry>, cutoff: Option<Time>)
    requires LogOk(log)
    ensures forall i | 0 <= i < |log| :: (cutoff.None? || TimeOf(log[i]) < cutoff.value) <==> i < VisibleCount(log, cutoff)
  {
    if log != [] && !Visible(TimeOf(log[|log| - 1]), cutoff) {
      VisibleIsPrefix(log[..|log| - 1], cutoff);
    }
  }

  lemma {:induction false} AllVisible(c: Contest, log: seq<Entry>, cutoff: Option<Time>)
    requires LogOk(log) && forall i | 0 <= i < |log| :: Visible(TimeOf(log[i]), cutoff)
    ensures Loaded(c, log, cutoff) == FactsOf(c, log)
  {
    if log != [] {
      var front, last := log[..|log| - 1], log[|log| - 1];
      AllVisible(c, front, cutoff);
      LoadedStep(c, front, last, cutoff);
    }
  }

  lemma SubmissionsStep(front: seq<Entry>, last: Entry, cutoff: Option<Time>)
    requires EntryOk(last)
    ensures Filter(Submissions(front + [last]), SubmittedBefore(cutoff))
            == Filter(Submissions(front), SubmittedBefore(cutoff))
               + (if Visible(TimeOf(last), cutoff) && last.Solved? then [last.submission] else [])
  {
    assert (front + [last])[..|front|] == front;
    if last.Solved? {
      FilterAppend(Submissions(front), last.submission, SubmittedBefore(cutoff));
    } else {
      assert Submissions(front + [last]) == Submissions(front);
    }
  }

  lemma SolvesStep(front: seq<Entry>, last: Entry, cutoff: Option<Time>)
    ensures Filter(Solves(front + [last]), SolvedBefore(cutoff))
            == Filter(Solves(front), SolvedBefore(cutoff))
               + (if Visible(TimeOf(last), cutoff) && last.Solved? then [last.solve] else [])
  {
    assert (front + [last])[..|front|] == front;
    if last.Solved? {
      FilterAppend(Solves(front), last.solve, SolvedBefore(cutoff));
    } else {
      assert Solves(front + [last]) == Solves(front);
    }
  }

  lemma AdjustmentsStep(front: seq<Entry>, last: Entry, cutoff: Option<Time>)
    ensures Filter(Adjustments(front + [last]), CreatedBefore(cutoff))
            == Filter(Adjustments(front), CreatedBefore(cutoff))
               + (if Visible(TimeOf(last), cutoff) && last.Adjusted? then [last.adjustment] else [])
  {
    assert (front + [last])[..|front|] == front;
    if last.Adjusted? {
      FilterAppend(Adjustments(front), last.adjustment, CreatedBefore(cutoff));
    } else {
      assert Adjustments(front + [last]) == Adjustments(front);
    }
  }

  /** Whether the newest entry shows is decided table by table in the same way. */
  lemma LoadedStep(c: Contest, front: seq<Entry>, last: Entry, cutoff: Option<Time>)
    requires EntryOk(last)
    ensures var a, b := Loaded(c, front, cutoff), Loaded(c, front + [last], cutoff);
            var seen := Visible(TimeOf(last), cutoff);
            && b.submissions == a.submissions + (if seen && last.Solved? then [last.submission] else [])
            && b.solves == a.solves + (if seen && last.Solved? then [last.solve] else [])
            && b.adjustments == a.adjustments + (if seen && last.Adjusted? then [last.adjustment] else [])
  {
    SubmissionsStep(front, last, cutoff);
    SolvesStep(front, last, cutoff);
    AdjustmentsStep(front, last, cutoff);
  }

  /** Filtering the tables by time is cutting the log off at the same time. */
  lemma {:induction false} LoadSeesPrefix(c: Contest, log: seq<Entry>, cutoff: Option<Time>)
    requires LogOk(log)
    ensures Loaded(c, log, cutoff) == FactsOf(c, log[..VisibleCount(log, cutoff)])
  {
    VisibleIsPrefix(log, cutoff);
    if log == [] || Visible(TimeOf(log[|log| - 1]), cutoff) {
      assert log[..|log|] == log;
      AllVisible(c, log, cutoff);
    } else {
      var front, last := log[..|log| - 1], log[|log| - 1];
      assert log == front + [last];
      LoadSeesPrefix(c, front, cutoff);
      LoadedStep(c, front, last, cutoff);
      assert log[..VisibleCount(front, cutoff)] == front[..VisibleCount(front, cutoff)];
    }
  }

  // ---- The board of a log ----

  ghost function BoardAt(c: Contest, log: seq<Entry>, scope: Scope): Option<Board> {
    if Replayable(FactsOf(c, log), c.factor) && ScopeOk(scope)
    then Some(BoardOf(ReplayOf(LedgerOf(FactsOf(c, log)), c.factor), scope))
    else None
  }

  /** A function from facts and scope to boards. */
  type Boards = (seq<Entry>, Scope) -> Option<Board>

  /** `boards` is the board function of the contest. */
  ghost predicate Determines(c: Contest, boards: Boards) {
    forall log: seq<Entry>, scope: Scope {:trigger BoardAt(c, log, scope)} :: boards(log, scope) == BoardAt(c, log, scope)
  }

  lemma {:induction false} CountsEveryEntry(log: seq<Entry>)
    requires forall i | 0 <= i < |log| :: EntryOk(log[i])
    ensures |Filter(Solves(log), IsOfficial)| + |Adjustments(log)| == |log|
  {
    if log != [] {
      var front, last := log[..|log| - 1], log[|log| - 1];
      CountsEveryEntry(front);
      if last.Solved? {
        FilterAppend(Solves(front), last.solve, IsOfficial);
      } else {
        assert Solves(log) == Solves(front);
      }
    }
  }

  /** The version of a replay is the number of facts it has seen. */
  lemma VersionIsLength(c: Contest, log: seq<Entry>)
    requires LogOk(log) && HasDistinctIds(FactsOf(c, log))
    ensures ReplayOf(LedgerOf(FactsOf(c, log)), c.factor).factVersion == |log|
  {
    CountsEveryEntry(log);
  }

  /** Rows come back in an order of the database's choosing. */
  type RowOrder = f: Facts -> Facts | forall x: Facts :: Rearranged(x, f(x)) witness (x: Facts) => x

  /** What a replay of the facts answers. */
  ghost predicate Answers(facts: Facts, factor: DecayFactor, answer: Option<Replay>) {
    && (answer.Some? <==> Replayable(facts, factor))
    && (answer.Some? ==> answer.value == ReplayOf(LedgerOf(facts), factor))
  }

  lemma AnswersIgnoreOrder(a: Facts, b: Facts, factor: DecayFactor, answer: Option<Replay>)
    requires Rearranged(a, b) && Answers(b, factor, answer)
    ensures Answers(a, factor, answer)
  {
    ReplayIgnoresOrder(a, b, factor);
  }

  method ReplayRows(facts: Facts, factor: DecayFactor, order: RowOrder) returns (result: Option<Replay>)
    ensures Answers(facts, factor, result)
  {
    var rows := order(facts);
    assert Rearranged(facts, rows);
    result := ReplayContestScoring(rows, factor);
    assert Answers(rows, factor, result);
    AnswersIgnoreOrder(facts, rows, factor, result);
  }

  lemma AnswerHasVersion(c: Contest, log: seq<Entry>, answer: Option<Replay>)
    requires LogOk(log) && Answers(FactsOf(c, log), c.factor, answer)
    ensures answer.Some? ==> answer.value.factVersion == |log|
  {
    if answer.Some? {
      VersionIsLength(c, log);
    }
  }

  lemma LoadedAnswers(c: Contest, log: seq<Entry>, cutoff: Option<Time>, answer: Option<Replay>)
    requires LogOk(log) && Answers(Loaded(c, log, cutoff), c.factor, answer)
    ensures Answers(FactsOf(c, log[..VisibleCount(log, cutoff)]), c.factor, answer)
    ensures answer.Some? ==> answer.value.factVersion == VisibleCount(log, cutoff)
  {
    LoadSeesPrefix(c, log, cutoff);
    AnswerHasVersion(c, log[..VisibleCount(log, cutoff)], answer);
  }

  method ReplayFacts(c: Contest, log: seq<Entry>, cutoff: Option<Time>, order: RowOrder) returns (result: Option<Replay>)
    requires LogOk(log)
    ensures Answers(FactsOf(c, log[..VisibleCount(log, cutoff)]), c.factor, result)
    ensures result.Some? ==> result.value.factVersion == VisibleCount(log, cutoff)
  {
    result := ReplayRows(Loaded(c, log, cutoff), c.factor, order);
    LoadedAnswers(c, log, cutoff, result);
  }

  datatype BuildError = FactsRefused | VersionMismatch | BoardRefused
  datatype Built = Built(version: nat, board: Board)

  lemma ReplayedBoard(c: Contest, seen: seq<Entry>, scope: Scope, replay: Option<Replay>, board: Option<Board>)
    requires Answers(FactsOf(c, seen), c.factor, replay) && replay.Some?
    requires board.Some? <==> Buildable(replay.value, scope)
    requires board.Some? ==> board.value == BoardOf(replay.value, scope)
    ensures board == BoardAt(c, seen, scope)
  {
    ReplaysAreBuildable(FactsOf(c, seen), c.factor, scope);
  }

  lemma RefusedHasNoBoard(c: Contest, boards: Boards, seen: seq<Entry>, scope: Scope, replay: Option<Replay>)
    requires Determines(c, boards) && Answers(FactsOf(c, seen), c.factor, replay) && replay.None?
    ensures boards(seen, scope) == None
  {
    assert BoardAt(c, seen, scope) == None;
  }

  lemma BuiltIsDetermined(c: Contest, boards: Boards, seen: seq<Entry>, scope: Scope, board: Option<Board>)
    requires Determines(c, boards) && board == BoardAt(c, seen, scope)
    ensures board == boards(seen, scope)
  {
  }

  method BuildBoard(c: Contest, ghost boards: Boards, ghost seen: seq<Entry>, replay: Option<Replay>, scope: Scope)
    returns (board: Option<Board>)
    requires Determines(c, boards) && Answers(FactsOf(c, seen), c.factor, replay) && replay.Some?
    ensures board == boards(seen, scope)
  {
    board := Build(replay.value, scope);
    ReplayedBoard(c, seen, scope, replay, board);
    BuiltIsDetermined(c, boards, seen, scope, board);
  }

  /** Replay what the cutoff lets through, check the version if one is expected, and build the board. */
  method ReplayAndBuild(c: Contest, ghost boards: Boards, log: seq<Entry>, cutoff: Option<Time>, order: RowOrder,
                        expected: Option<nat>, scope: Scope)
    returns (result: Result<Built, BuildError>)
    requires Determines(c, boards) && LogOk(log)
    ensures var n := VisibleCount(log, cutoff);
            && (result.Success? <==> (expected.Some? ==> expected.value == n) && boards(log[..n], scope).Some?)
            && (result.Success? ==> boards(log[..n], scope) == Some(result.value.board) && result.value.version == n)
  {
    var replay := ReplayFacts(c, log, cutoff, order);
    ghost var seen := log[..VisibleCount(log, cutoff)];
    if replay.None? {
      RefusedHasNoBoard(c, boards, seen, scope, replay);
      return Failure(FactsRefused);
    }
    var version := replay.value.factVersion;
    if expected.Some? && expected.value != version {
      return Failure(VersionMismatch);
    }
    var board := BuildBoard(c, boards, seen, replay, scope);
    result := if board.Some? then Success(Built(version, board.value)) else Failure(BoardRefused);
  }
}
