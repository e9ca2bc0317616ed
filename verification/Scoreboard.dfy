/** The scoreboard of one scope: eligible participations of a replay, ranked. */
module Scoreboard {
  import opened Wrappers
  import opened Ordering
  import opened Scoring
  import opened ScoringReplay
  import opened ScoringOrder
  import opened ScoringConservation

  datatype Scope = Overall | Division(divisionId: string)
  datatype Column = Column(challengeId: int, officialSolveCount: nat, currentPoints: int, firstSolver: Option<int>)
  datatype Row = Row(
    rank: nat, participationId: int, teamId: int, teamName: string, divisionId: Option<string>, totalPoints: int,
    solvePoints: int, adjustmentPoints: int, officialSolveCount: nat, lastScoringAt: Option<Time>,
    solves: seq<SolveSummary>)
  datatype Board = Board(scope: Scope, scopeKey: string, challenges: seq<Column>, rows: seq<Row>)

  const OVERALL_KEY: string := "overall"

  function ScopeKey(scope: Scope): string {
    if scope.Overall? then OVERALL_KEY else scope.divisionId
  }

  /** What `trim` removes. */
  predicate IsSpace(c: char) {
    || c in "\t\n\U{000B}\U{000C}\r \U{00A0}\U{1680}\U{2028}\U{2029}\U{202F}\U{205F}\U{3000}\U{FEFF}"
    || '\U{2000}' <= c <= '\U{200A}'
  }

  predicate Blank(s: string) {
    forall i | 0 <= i < |s| :: IsSpace(s[i])
  }

  predicate ScopeOk(scope: Scope) {
    scope.Division? ==> !Blank(scope.divisionId)
  }

  // ---- The board ----

  /** Accepted, and in the division asked for. */
  function Eligible(scope: Scope): ParticipationResult -> bool {
    (r: ParticipationResult) => r.status.Accepted? && (scope.Overall? || r.divisionId == Some(scope.divisionId))
  }

  function RowOf(rank: nat, r: ParticipationResult): Row {
    Row(rank, r.participationId, r.teamId, r.teamName, r.divisionId, r.totalPoints, r.solvePoints, r.adjustmentPoints,
        r.officialSolveCount, r.lastScoringAt, r.solves)
  }

  function RankRows(ranked: seq<ParticipationResult>): (rows: seq<Row>)
    ensures |rows| == |ranked|
  {
    seq(|ranked|, i requires 0 <= i < |ranked| => RowOf(i + 1, ranked[i]))
  }

  function ColumnKey(c: ChallengeResult): Key { [c.challengeId] }

  function ColumnOf(c: ChallengeResult): Column {
    Column(c.challengeId, c.officialSolveCount, c.currentPoints,
           if c.firstSolve.Some? then Some(c.firstSolve.value.participationId) else None)
  }

  function RankedScores(scores: seq<ParticipationResult>, scope: Scope): seq<ParticipationResult> {
    SortBy(Filter(scores, Eligible(scope)), RankKey)
  }

  function BoardOf(replay: Replay, scope: Scope): Board {
    Board(scope, ScopeKey(scope), Map(SortBy(replay.challengeScores, ColumnKey), ColumnOf),
          RankRows(RankedScores(replay.participationScores, scope)))
  }

  // ---- What the builder refuses ----

  function ParticipationOf(r: ParticipationResult): int { r.participationId }
  function SummaryChallenge(s: SolveSummary): int { s.challengeId }
  function ResultChallenge(c: ChallengeResult): int { c.challengeId }

  function IdSet<T(==)>(s: seq<T>, id: T -> int): set<int> {
    set x | x in s :: id(x)
  }

  ghost predicate SummariesOk(r: ParticipationResult, challengeIds: set<int>) {
    && |r.solves| == r.officialSolveCount
    && DistinctIds(r.solves, SummaryChallenge)
    && forall i | 0 <= i < |r.solves| :: r.solves[i].challengeId in challengeIds
  }

  ghost predicate Buildable(replay: Replay, scope: Scope) {
    && ScopeOk(scope)
    && DistinctIds(replay.participationScores, ParticipationOf)
    && forall r | r in Filter(replay.participationScores, Eligible(scope)) ::
         SummariesOk(r, IdSet(replay.challengeScores, ResultChallenge))
  }

  method ValidateSolves(r: ParticipationResult, challengeIds: set<int>) returns (ok: bool)
    ensures ok <==> SummariesOk(r, challengeIds)
  {
    if |r.solves| != r.officialSolveCount {
      return false;
    }
    var solvedChallenges := {};
    for i := 0 to |r.solves|
      invariant forall j | 0 <= j < i :: r.solves[j].challengeId in challengeIds
      invariant DistinctIds(r.solves[..i], SummaryChallenge)
      invariant solvedChallenges == IdSet(r.solves[..i], SummaryChallenge)
    {
      var solve := r.solves[i];
      if solve.challengeId !in challengeIds {
        return false;
      }
      assert r.solves[..i + 1] == r.solves[..i] + [solve];
      if solve.challengeId in solvedChallenges {
        SeenBefore(r.solves, i, SummaryChallenge);
        return false;
      }
      NotSeenBefore(r.solves, i, SummaryChallenge);
      solvedChallenges := solvedChallenges + {solve.challengeId};
    }
    assert r.solves[..|r.solves|] == r.solves;
    return true;
  }

  lemma SeenBefore<T>(s: seq<T>, i: nat, id: T -> int)
    requires i < |s| && id(s[i]) in IdSet(s[..i], id)
    ensures !DistinctIds(s, id)
  {
    var j :| 0 <= j < i && id(s[j]) == id(s[i]);
  }

  lemma NotSeenBefore<T>(s: seq<T>, i: nat, id: T -> int)
    requires i < |s| && DistinctIds(s[..i], id) && id(s[i]) !in IdSet(s[..i], id)
    ensures DistinctIds(s[..i + 1], id)
    ensures IdSet(s[..i + 1], id) == IdSet(s[..i], id) + {id(s[i])}
  {
    var front := s[..i];
    assert s[..i + 1] == front + [s[i]];
    forall j | 0 <= j < i
      ensures id(front[j]) != id(s[i])
    {
      assert front[j] in front;
    }
    assert forall x :: x in s[..i + 1] <==> x in front || x == s[i];
  }

  /** The filter of the builder, which also looks for a participation that comes twice. */
  method Candidates(scores: seq<ParticipationResult>, scope: Scope) returns (result: Option<seq<ParticipationResult>>)
    ensures result.Some? <==> DistinctIds(scores, ParticipationOf)
    ensures result.Some? ==> result.value == Filter(scores, Eligible(scope))
  {
    var seenParticipations := {};
    var candidates: seq<ParticipationResult> := [];
    for i := 0 to |scores|
      invariant DistinctIds(scores[..i], ParticipationOf)
      invariant seenParticipations == IdSet(scores[..i], ParticipationOf)
      invariant candidates == Filter(scores[..i], Eligible(scope))
    {
      var score := scores[i];
      if score.participationId in seenParticipations {
        SeenBefore(scores, i, ParticipationOf);
        return None;
      }
      NotSeenBefore(scores, i, ParticipationOf);
      seenParticipations := seenParticipations + {score.participationId};
      assert scores[..i + 1] == scores[..i] + [score];
      FilterAppend(scores[..i], score, Eligible(scope));
      if score.status.Accepted? && (scope.Overall? || score.divisionId == Some(scope.divisionId)) {
        candidates := candidates + [score];
      }
    }
    assert scores[..|scores|] == scores;
    return Some(candidates);
  }

  method Build(replay: Replay, scope: Scope) returns (result: Option<Board>)
    ensures result.Some? <==> Buildable(replay, scope)
    ensures result.Some? ==> result.value == BoardOf(replay, scope)
  {
    if scope.Division? && Blank(scope.divisionId) {
      return None;
    }
    var candidates := Candidates(replay.participationScores, scope);
    if candidates.None? {
      return None;
    }
    var challengeIds := IdSet(replay.challengeScores, ResultChallenge);
    for i := 0 to |candidates.value|
      invariant forall j | 0 <= j < i :: SummariesOk(candidates.value[j], challengeIds)
    {
      var ok := ValidateSolves(candidates.value[i], challengeIds);
      if !ok {
        assert candidates.value[i] in candidates.value;
        return None;
      }
    }
    return Some(Board(
      scope, ScopeKey(scope), Map(SortBy(replay.challengeScores, ColumnKey), ColumnOf),
      RankRows(SortBy(candidates.value, RankKey))));
  }

  // ---- Every successful replay has a board ----

  lemma {:induction false} SolvesOfOneAreDistinct(solves: seq<Solve>, id: int)
    requires NoRepeats(solves)
    ensures DistinctIds(Filter(solves, OfParticipation(id)), SolvedChallenge)
  {
    if solves != [] {
      var front, last := solves[..|solves| - 1], solves[|solves| - 1];
      assert solves == front + [last];
      SolvesOfOneAreDistinct(front, id);
      FilterAppend(front, last, OfParticipation(id));
      FilterMembers(front, OfParticipation(id));
      var mine := Filter(front, OfParticipation(id));
      forall i | 0 <= i < |mine| && last.participationId == id
        ensures mine[i].challengeId != last.challengeId
      {
        assert mine[i] in front;
        var j :| 0 <= j < |front| && front[j] == mine[i];
        assert solves[j] == mine[i];
      }
    }
  }

  lemma SolvedChallengeIsScored(l: Ledger, factor: DecayFactor, s: Solve)
    requires Listed(l) && SolvesConsistent(l) && s in l.solves
    ensures s.challengeId in IdSet(Map(l.challengeOrder, ChallengeResultOf(l, factor)), ResultChallenge)
  {
    var k :| 0 <= k < |l.solves| && l.solves[k] == s;
    assert SolveOk(l, l.solves[k]);
    var c := l.challenges[s.challengeId];
    var j :| 0 <= j < |l.challengeOrder| && l.challengeOrder[j] == c;
    var scores := Map(l.challengeOrder, ChallengeResultOf(l, factor));
    assert scores[j].challengeId == s.challengeId && scores[j] in scores;
  }

  lemma MapKeepsDistinctIds<T, U>(s: seq<T>, f: T -> U, idT: T -> int, idU: U -> int)
    requires DistinctIds(s, idT) && forall x :: idU(f(x)) == idT(x)
    ensures DistinctIds(Map(s, f), idU)
  {
  }

  lemma RearrangedAreKnown(mine: seq<Solve>, sorted: seq<Solve>, known: set<int>)
    requires multiset(mine) == multiset(sorted)
    requires forall s | s in mine :: s.challengeId in known
    ensures forall k | 0 <= k < |sorted| :: sorted[k].challengeId in known
  {
    forall k | 0 <= k < |sorted|
      ensures sorted[k].challengeId in known
    {
      InMultiset(sorted, sorted[k]);
      InMultiset(mine, sorted[k]);
    }
  }

  lemma SummariesFollow(mine: seq<Solve>, sorted: seq<Solve>, r: ParticipationResult, known: set<int>)
    requires multiset(mine) == multiset(sorted) && |sorted| == |mine|
    requires r.solves == Map(sorted, Summary) && r.officialSolveCount == |mine|
    requires DistinctIds(mine, SolvedChallenge) && forall s | s in mine :: s.challengeId in known
    ensures SummariesOk(r, known)
  {
    DistinctIdsIgnoreOrder(mine, sorted, SolvedChallenge);
    MapKeepsDistinctIds(sorted, Summary, SolvedChallenge, SummaryChallenge);
    RearrangedAreKnown(mine, sorted, known);
  }

  lemma ResultIsOk(l: Ledger, factor: DecayFactor, p: Participation, known: set<int>)
    requires SolvesConsistent(l)
    requires forall s | s in l.solves :: s.challengeId in known
    ensures SummariesOk(ParticipationResultOf(l, factor)(p), known)
  {
    var mine := SolvesBy(l, p.id);
    SolvesOfOneAreDistinct(l.solves, p.id);
    FilterMembers(l.solves, OfParticipation(p.id));
    SummariesFollow(mine, SortBy(mine, SolveKey), ParticipationResultOf(l, factor)(p), known);
  }

  lemma ResultsAreOk(l: Ledger, factor: DecayFactor)
    requires Listed(l) && SolvesConsistent(l)
    ensures forall r | r in ReplayOf(l, factor).participationScores ::
              SummariesOk(r, IdSet(ReplayOf(l, factor).challengeScores, ResultChallenge))
  {
    var scores := ReplayOf(l, factor).participationScores;
    var known := IdSet(ReplayOf(l, factor).challengeScores, ResultChallenge);
    forall s | s in l.solves
      ensures s.challengeId in known
    {
      SolvedChallengeIsScored(l, factor, s);
    }
    forall r | r in scores
      ensures SummariesOk(r, known)
    {
      var i :| 0 <= i < |scores| && scores[i] == r;
      ResultIsOk(l, factor, l.participationOrder[i], known);
    }
  }

  lemma ScoresAreDistinct(l: Ledger, factor: DecayFactor)
    requires Listed(l)
    ensures DistinctIds(ReplayOf(l, factor).participationScores, ParticipationOf)
  {
    MapAt(l.participationOrder, ParticipationId);
    assert DistinctIds(l.participationOrder, ParticipationId);
    MapKeepsDistinctIds(l.participationOrder, ParticipationResultOf(l, factor), ParticipationId, ParticipationOf);
  }

  /** The builder takes every replay that succeeded, for every scope that names something. */
  lemma ReplaysAreBuildable(facts: Facts, factor: DecayFactor, scope: Scope)
    requires Replayable(facts, factor)
    ensures Buildable(ReplayOf(LedgerOf(facts), factor), scope) <==> ScopeOk(scope)
  {
    var l := LedgerOf(facts);
    var replay := ReplayOf(l, factor);
    LedgerIsListed(facts);
    ScoresAreDistinct(l, factor);
    ResultsAreOk(l, factor);
    FilterMembers(replay.participationScores, Eligible(scope));
  }

  // ---- What a rank means ----

  function SummaryOf(row: Row): RankSummary {
    RankSummary(row.rank, row.participationId, row.teamId, row.totalPoints, row.lastScoringAt)
  }

  lemma RankingAt(ranked: seq<ParticipationResult>, scores: seq<ParticipationResult>, i: nat)
    requires ranked == SortBy(Filter(scores, IsAccepted), RankKey) && i < |ranked|
    ensures |RankingOf(scores)| == |ranked|
    ensures SummaryOf(RankRows(ranked)[i]) == RankingOf(scores)[i]
  {
  }

  lemma SummariesMatch(ranked: seq<ParticipationResult>, scores: seq<ParticipationResult>)
    requires ranked == SortBy(Filter(scores, IsAccepted), RankKey) && |RankingOf(scores)| == |ranked|
    ensures forall i | 0 <= i < |ranked| :: SummaryOf(RankRows(ranked)[i]) == RankingOf(scores)[i]
  {
    forall i | 0 <= i < |ranked|
      ensures SummaryOf(RankRows(ranked)[i]) == RankingOf(scores)[i]
    {
      RankingAt(ranked, scores, i);
    }
  }

  lemma OverallSummaries(scores: seq<ParticipationResult>)
    ensures Map(RankRows(RankedScores(scores, Overall)), SummaryOf) == RankingOf(scores)
  {
    FilterAgrees(scores, Eligible(Overall), IsAccepted);
    var rows := RankRows(RankedScores(scores, Overall));
    MapAt(rows, SummaryOf);
    assert |RankingOf(scores)| == |rows|;
    SummariesMatch(SortBy(Filter(scores, IsAccepted), RankKey), scores);
  }

  /** Overall rows list the participations of the ranking summary, rank by rank. */
  lemma OverallAgreesWithRanking(l: Ledger, factor: DecayFactor)
    ensures Map(BoardOf(ReplayOf(l, factor), Overall).rows, SummaryOf) == ReplayOf(l, factor).rankingSummary
  {
    OverallSummaries(ReplayOf(l, factor).participationScores);
  }

  lemma RankKeysTellApart(scores: seq<ParticipationResult>)
    requires DistinctIds(scores, ParticipationOf)
    ensures KeysTellApart(scores, RankKey)
  {
    DistinctIdsTellApart(scores, ParticipationOf);
    forall x, y | x in scores && y in scores && RankKey(x) == RankKey(y)
      ensures x == y
    {
      assert RankKey(x)[4] == RankKey(y)[4];
    }
  }

  /** Elements sorted before `x`. */
  function Beats<T>(key: T -> Key, x: T): T -> bool {
    (y: T) => Less(key(y), key(x))
  }

  /** In a strictly sorted sequence, exactly the elements before an element beat it. */
  lemma PrefixBeats<T>(s: seq<T>, key: T -> Key, i: nat)
    requires Sorted(s, key) && i < |s|
    requires forall a, b | 0 <= a < b < |s| :: key(s[a]) != key(s[b])
    ensures Filter(s, Beats(key, s[i])) == s[..i]
  {
    forall x | x in s[..i]
      ensures Less(key(x), key(s[i]))
    {
      var a :| 0 <= a < i && s[a] == x;
      LessTotal(key(x), key(s[i]));
    }
    forall x | x in s[i..]
      ensures !Less(key(x), key(s[i]))
    {
      var b :| i <= b < |s| && s[b] == x;
      LessIrreflexive(key(s[i]));
    }
    assert s == s[..i] + s[i..];
    FilterConcat(s[..i], s[i..], Beats(key, s[i]));
    FilterAll(s[..i], Beats(key, s[i]));
    FilterNone(s[i..], Beats(key, s[i]));
  }

  lemma {:induction false} FilterKeepsDistinctIds<T>(s: seq<T>, f: T -> bool, id: T -> int)
    requires DistinctIds(s, id)
    ensures DistinctIds(Filter(s, f), id)
  {
    if s != [] {
      var front, last := s[..|s| - 1], s[|s| - 1];
      FilterKeepsDistinctIds(front, f, id);
      FilterMembers(front, f);
      assert s == front + [last];
      var kept := Filter(front, f);
      forall i | 0 <= i < |kept|
        ensures id(kept[i]) != id(last)
      {
        assert kept[i] in front;
      }
      FilterAppend(front, last, f);
    }
  }

  /** An eligible score that ranks better. */
  function EligibleAndBetter(scope: Scope, r: ParticipationResult): ParticipationResult -> bool {
    (x: ParticipationResult) => Eligible(scope)(x) && Less(RankKey(x), RankKey(r))
  }

  lemma RankedHasDistinctKeys(scores: seq<ParticipationResult>, scope: Scope)
    requires DistinctIds(scores, ParticipationOf)
    ensures DistinctIds(RankedScores(scores, scope), ParticipationOf)
    ensures forall a, b | 0 <= a < b < |RankedScores(scores, scope)| ::
              RankKey(RankedScores(scores, scope)[a]) != RankKey(RankedScores(scores, scope)[b])
  {
    var candidates := Filter(scores, Eligible(scope));
    var ranked := RankedScores(scores, scope);
    FilterKeepsDistinctIds(scores, Eligible(scope), ParticipationOf);
    DistinctIdsIgnoreOrder(candidates, ranked, ParticipationOf);
    forall a, b | 0 <= a < b < |ranked|
      ensures RankKey(ranked[a]) != RankKey(ranked[b])
    {
      assert ParticipationOf(ranked[a]) != ParticipationOf(ranked[b]);
      assert RankKey(ranked[a])[4] != RankKey(ranked[b])[4];
    }
  }

  /** The row of a participation, ranked behind every eligible participation that is better. */
  function RankedRow(scores: seq<ParticipationResult>, scope: Scope, r: ParticipationResult): Row {
    RowOf(1 + |Filter(scores, EligibleAndBetter(scope, r))|, r)
  }

  lemma RowIsRanked(scores: seq<ParticipationResult>, scope: Scope, ranked: seq<ParticipationResult>, i: nat)
    requires DistinctIds(scores, ParticipationOf) && ranked == RankedScores(scores, scope) && i < |ranked|
    ensures RankRows(ranked)[i] == RankedRow(scores, scope, ranked[i])
  {
    BetterThanRanked(scores, scope, i);
  }

  lemma RowsAreRanked(scores: seq<ParticipationResult>, scope: Scope, ranked: seq<ParticipationResult>)
    requires DistinctIds(scores, ParticipationOf) && ranked == RankedScores(scores, scope)
    ensures forall i | 0 <= i < |ranked| :: RankRows(ranked)[i] == RankedRow(scores, scope, ranked[i])
  {
    forall i | 0 <= i < |ranked|
      ensures RankRows(ranked)[i] == RankedRow(scores, scope, ranked[i])
    {
      RowIsRanked(scores, scope, ranked, i);
    }
  }

  lemma RankedMembers(scores: seq<ParticipationResult>, scope: Scope)
    ensures forall r :: r in RankedScores(scores, scope) <==> r in scores && Eligible(scope)(r)
  {
    SameMembers(Filter(scores, Eligible(scope)), RankedScores(scores, scope));
    FilterMembers(scores, Eligible(scope));
  }

  /** The rows are the eligible participations, each once, and a rank counts those that rank better. */
  lemma RankCountsTheBetter(replay: Replay, scope: Scope)
    requires Buildable(replay, scope)
    ensures var scores, rows := replay.participationScores, BoardOf(replay, scope).rows;
            && |rows| == |Filter(scores, Eligible(scope))|
            && (forall row | row in rows :: exists r | r in scores :: Eligible(scope)(r) && row == RankedRow(scores, scope, r))
            && (forall r | r in scores && Eligible(scope)(r) :: RankedRow(scores, scope, r) in rows)
  {
    var scores, rows := replay.participationScores, BoardOf(replay, scope).rows;
    var ranked := RankedScores(scores, scope);
    RowsAreRanked(scores, scope, ranked);
    RankedMembers(scores, scope);
    forall row | row in rows
      ensures exists r | r in scores :: Eligible(scope)(r) && row == RankedRow(scores, scope, r)
    {
      var i :| 0 <= i < |rows| && rows[i] == row;
      assert ranked[i] in ranked;
    }
    forall r | r in scores && Eligible(scope)(r)
      ensures RankedRow(scores, scope, r) in rows
    {
      var i :| 0 <= i < |ranked| && ranked[i] == r;
      assert rows[i] in rows;
    }
  }

  lemma BetterThanRanked(scores: seq<ParticipationResult>, scope: Scope, i: nat)
    requires DistinctIds(scores, ParticipationOf) && i < |RankedScores(scores, scope)|
    ensures |Filter(scores, EligibleAndBetter(scope, RankedScores(scores, scope)[i]))| == i
  {
    var candidates, ranked := Filter(scores, Eligible(scope)), RankedScores(scores, scope);
    var r := ranked[i];
    SortIsSorted(candidates, RankKey);
    RankedHasDistinctKeys(scores, scope);
    PrefixBeats(ranked, RankKey, i);
    FilterIgnoresOrder(ranked, candidates, Beats(RankKey, r));
    FilterTwice(scores, Eligible(scope), Beats(RankKey, r), EligibleAndBetter(scope, r));
    SameLength(ranked[..i], Filter(scores, EligibleAndBetter(scope, r)));
  }

  // ---- Divisions ----

  function RowInDivision(divisionId: string): Row -> bool {
    (row: Row) => row.divisionId == Some(divisionId)
  }

  function InDivision(divisionId: string): ParticipationResult -> bool {
    (r: ParticipationResult) => r.divisionId == Some(divisionId)
  }

  function Renumbered(rows: seq<Row>): (result: seq<Row>)
    ensures |result| == |rows|
  {
    seq(|rows|, i requires 0 <= i < |rows| => rows[i].(rank := i + 1))
  }

  lemma RankRowsAppend(ranked: seq<ParticipationResult>, last: ParticipationResult)
    ensures RankRows(ranked + [last]) == RankRows(ranked) + [RowOf(|ranked| + 1, last)]
  {
  }

  lemma RenumberedAppend(rows: seq<Row>, last: Row)
    ensures Renumbered(rows + [last]) == Renumbered(rows) + [last.(rank := |rows| + 1)]
  {
  }

  lemma {:induction false} RowsFilter(ranked: seq<ParticipationResult>, divisionId: string)
    ensures Renumbered(Filter(RankRows(ranked), RowInDivision(divisionId)))
            == RankRows(Filter(ranked, InDivision(divisionId)))
  {
    if ranked != [] {
      var front, last := ranked[..|ranked| - 1], ranked[|ranked| - 1];
      var row := RowOf(|ranked|, last);
      var kept, keptRows := Filter(front, InDivision(divisionId)), Filter(RankRows(front), RowInDivision(divisionId));
      assert ranked == front + [last];
      RowsFilter(front, divisionId);
      RankRowsAppend(front, last);
      FilterAppend(RankRows(front), row, RowInDivision(divisionId));
      FilterAppend(front, last, InDivision(divisionId));
      if last.divisionId == Some(divisionId) {
        RenumberedAppend(keptRows, row);
        RankRowsAppend(kept, last);
        assert |keptRows| == |Renumbered(keptRows)| == |kept|;
      } else {
        assert Filter(ranked, InDivision(divisionId)) == kept;
        assert Filter(RankRows(ranked), RowInDivision(divisionId)) == keptRows;
      }
    }
  }

  /** A division board is the overall board filtered and renumbered, with the same challenge values. */
  lemma DivisionFiltersOverall(replay: Replay, divisionId: string)
    requires DistinctIds(replay.participationScores, ParticipationOf)
    ensures var overall, division := BoardOf(replay, Overall), BoardOf(replay, Division(divisionId));
            && division.rows == Renumbered(Filter(overall.rows, RowInDivision(divisionId)))
            && division.challenges == overall.challenges
  {
    var scores := replay.participationScores;
    var all, some := RankedScores(scores, Overall), RankedScores(scores, Division(divisionId));
    var candidates := Filter(scores, Eligible(Overall));
    FilterTwice(scores, Eligible(Overall), InDivision(divisionId), Eligible(Division(divisionId)));
    FilterIgnoresOrder(all, candidates, InDivision(divisionId));
    SortIsSorted(candidates, RankKey);
    SortIsSorted(Filter(scores, Eligible(Division(divisionId))), RankKey);
    FilterKeepsSorted(all, InDivision(divisionId), RankKey);
    RankedHasDistinctKeys(scores, Division(divisionId));
    RankKeysTellApart(some);
    SortedIsUnique(some, Filter(all, InDivision(divisionId)), RankKey);
    RowsFilter(all, divisionId);
  }

  /** The board does not depend on the order in which the replay lists participations. */
  lemma BoardIgnoresOrder(a: Replay, b: Replay, scope: Scope)
    requires a.challengeScores == b.challengeScores
    requires multiset(a.participationScores) == multiset(b.participationScores)
    requires DistinctIds(a.participationScores, ParticipationOf)
    ensures Buildable(a, scope) <==> Buildable(b, scope)
    ensures BoardOf(a, scope) == BoardOf(b, scope)
  {
    DistinctIdsIgnoreOrder(a.participationScores, b.participationScores, ParticipationOf);
    FilterIgnoresOrder(a.participationScores, b.participationScores, Eligible(scope));
    SameMembers(Filter(a.participationScores, Eligible(scope)), Filter(b.participationScores, Eligible(scope)));
    FilterKeepsDistinctIds(a.participationScores, Eligible(scope), ParticipationOf);
    RankKeysTellApart(Filter(a.participationScores, Eligible(scope)));
    SortIgnoresOrder(Filter(a.participationScores, Eligible(scope)), Filter(b.participationScores, Eligible(scope)), RankKey);
  }

  // ---- A board adds up ----

  /** The value a board shows for a challenge. */
  function ShownPoints(columns: seq<Column>, challengeId: int): int {
    if columns == [] then 0
    else if columns[|columns| - 1].challengeId == challengeId then columns[|columns| - 1].currentPoints
    else ShownPoints(columns[..|columns| - 1], challengeId)
  }

  function ShownFor(columns: seq<Column>): SolveSummary -> int {
    (s: SolveSummary) => ShownPoints(columns, s.challengeId)
  }

  lemma {:induction false} ShownIsListed(columns: seq<Column>, column: Column)
    requires column in columns && forall i, j | 0 <= i < j < |columns| :: columns[i].challengeId != columns[j].challengeId
    ensures ShownPoints(columns, column.challengeId) == column.currentPoints
  {
    var front, last := columns[..|columns| - 1], columns[|columns| - 1];
    assert columns == front + [last];
    if column != last {
      assert column in front;
      ShownIsListed(front, column);
    }
  }

  /** Sorted columns show each score that is listed once. */
  lemma ColumnShowsScore(scores: seq<ChallengeResult>, sorted: seq<ChallengeResult>, r: ChallengeResult)
    requires DistinctIds(scores, ResultChallenge) && multiset(scores) == multiset(sorted) && r in scores
    ensures ShownPoints(Map(sorted, ColumnOf), r.challengeId) == r.currentPoints
  {
    DistinctIdsIgnoreOrder(scores, sorted, ResultChallenge);
    InMultiset(scores, r);
    InMultiset(sorted, r);
    var j :| 0 <= j < |sorted| && sorted[j] == r;
    var columns := Map(sorted, ColumnOf);
    assert columns[j] in columns && columns[j] == ColumnOf(r);
    ShownIsListed(columns, columns[j]);
  }

  /** The columns of a replay show the value of every challenge. */
  lemma ColumnsShowPoints(l: Ledger, factor: DecayFactor, scores: seq<ChallengeResult>, columns: seq<Column>, c: Challenge)
    requires Listed(l) && c in l.challengeOrder
    requires scores == Map(l.challengeOrder, ChallengeResultOf(l, factor))
    requires columns == Map(SortBy(scores, ColumnKey), ColumnOf)
    ensures ShownPoints(columns, c.id) == PointsOf(l, factor, c.id)
  {
    ScoredOnce(l, factor, scores);
    var k :| 0 <= k < |l.challengeOrder| && l.challengeOrder[k] == c;
    assert scores[k] == ChallengeResultOf(l, factor)(c);
    ColumnShowsScore(scores, SortBy(scores, ColumnKey), scores[k]);
  }

  lemma ScoredOnce(l: Ledger, factor: DecayFactor, scores: seq<ChallengeResult>)
    requires Listed(l) && scores == Map(l.challengeOrder, ChallengeResultOf(l, factor))
    ensures DistinctIds(scores, ResultChallenge)
  {
    MapAt(l.challengeOrder, ChallengeId);
    assert DistinctIds(l.challengeOrder, ChallengeId);
    MapKeepsDistinctIds(l.challengeOrder, ChallengeResultOf(l, factor), ChallengeId, ResultChallenge);
  }

  /** A solve is worth what the board shows for its challenge. */
  lemma WorthIsShown(l: Ledger, factor: DecayFactor, columns: seq<Column>, s: Solve)
    requires Listed(l) && SolvesConsistent(l) && s in l.solves
    requires columns == Map(SortBy(ReplayOf(l, factor).challengeScores, ColumnKey), ColumnOf)
    ensures ShownFor(columns)(Summary(s)) == Worth(l, factor)(s)
  {
    var k :| 0 <= k < |l.solves| && l.solves[k] == s;
    assert SolveOk(l, l.solves[k]);
    ColumnsShowPoints(l, factor, ReplayOf(l, factor).challengeScores, columns, l.challenges[s.challengeId]);
  }

  lemma SummariesSum(mine: seq<Solve>, shown: SolveSummary -> int, worth: Solve -> int)
    requires forall s | s in mine :: shown(Summary(s)) == worth(s)
    ensures SumBy(Map(SortBy(mine, SolveKey), Summary), shown) == SumBy(mine, worth)
  {
    SameMembers(mine, SortBy(mine, SolveKey));
    SumOverMap(SortBy(mine, SolveKey), Summary, shown, worth);
    SumByIgnoresOrder(SortBy(mine, SolveKey), mine, worth);
  }

  /** The points of a participation are the shown values of the challenges it is shown to have solved. */
  lemma PointsAreShown(l: Ledger, factor: DecayFactor, p: Participation, columns: seq<Column>)
    requires Listed(l) && SolvesConsistent(l) && TotalOk(l, factor, p.id)
    requires columns == Map(SortBy(ReplayOf(l, factor).challengeScores, ColumnKey), ColumnOf)
    ensures SumBy(ParticipationResultOf(l, factor)(p).solves, ShownFor(columns)) == ParticipationResultOf(l, factor)(p).solvePoints
  {
    FilterMembers(l.solves, OfParticipation(p.id));
    forall s | s in SolvesBy(l, p.id)
      ensures ShownFor(columns)(Summary(s)) == Worth(l, factor)(s)
    {
      WorthIsShown(l, factor, columns, s);
    }
    SummariesSum(SolvesBy(l, p.id), ShownFor(columns), Worth(l, factor));
    SolveSumIsSum(l, factor, SolvesBy(l, p.id));
  }

  /** A row adds up to what its board shows. */
  predicate AddsUp(row: Row, columns: seq<Column>) {
    && row.solvePoints == SumBy(row.solves, ShownFor(columns))
    && row.totalPoints == row.solvePoints + row.adjustmentPoints
    && row.officialSolveCount == |row.solves|
  }

  /** On every board of a successful replay, points follow from the solves listed and the values shown. */
  lemma BoardsAddUp(facts: Facts, factor: DecayFactor, scope: Scope)
    requires Replayable(facts, factor)
    ensures var board := BoardOf(ReplayOf(LedgerOf(facts), factor), scope);
            forall row | row in board.rows :: AddsUp(row, board.challenges)
  {
    var l := LedgerOf(facts);
    LedgerIsListed(facts);
    RowsAddUp(l, factor, scope, BoardOf(ReplayOf(l, factor), scope).challenges);
  }

  lemma RowAddsUp(l: Ledger, factor: DecayFactor, p: Participation, columns: seq<Column>, rank: nat)
    requires Listed(l) && SolvesConsistent(l) && TotalOk(l, factor, p.id)
    requires columns == Map(SortBy(ReplayOf(l, factor).challengeScores, ColumnKey), ColumnOf)
    ensures AddsUp(RowOf(rank, ParticipationResultOf(l, factor)(p)), columns)
  {
    PointsAreShown(l, factor, p, columns);
  }

  lemma RankedIsScored(scores: seq<ParticipationResult>, scope: Scope, i: nat) returns (k: nat)
    requires i < |RankedScores(scores, scope)|
    ensures k < |scores| && RankRows(RankedScores(scores, scope))[i] == RowOf(i + 1, scores[k])
  {
    RankedMembers(scores, scope);
    assert RankedScores(scores, scope)[i] in RankedScores(scores, scope);
    k :| 0 <= k < |scores| && scores[k] == RankedScores(scores, scope)[i];
  }

  lemma RowsAddUp(l: Ledger, factor: DecayFactor, scope: Scope, columns: seq<Column>)
    requires Listed(l) && Consistent(l, factor)
    requires columns == Map(SortBy(ReplayOf(l, factor).challengeScores, ColumnKey), ColumnOf)
    ensures forall row | row in RankRows(RankedScores(ReplayOf(l, factor).participationScores, scope)) :: AddsUp(row, columns)
  {
    var scores := ReplayOf(l, factor).participationScores;
    var rows := RankRows(RankedScores(scores, scope));
    forall i | 0 <= i < |rows|
      ensures AddsUp(rows[i], columns)
    {
      var k := RankedIsScored(scores, scope, i);
      var p := l.participationOrder[k];
      assert p in l.participationOrder;
      assert TotalOk(l, factor, p.id);
      RowAddsUp(l, factor, p, columns, i + 1);
    }
  }
}
