/** The scoring replay as the service runs it: maps, sets and accumulators filled by loops over the facts. */
module ReplayService {
  import opened Wrappers
  import opened Ordering
  import opened Scoring
  import opened ScoringReplay

  /** Every entry of the ledger's maps is listed once, under its own id. */
  ghost predicate WellFormed(l: Ledger) {
    && (forall c | c in l.challengeOrder :: c.id in l.challenges && l.challenges[c.id] == c)
    && (forall id | id in l.challenges :: l.challenges[id] in l.challengeOrder && l.challenges[id].id == id)
    && (forall p | p in l.participationOrder :: p.id in l.participations && l.participations[p.id] == p)
    && (forall id | id in l.participations :: l.participations[id] in l.participationOrder && l.participations[id].id == id)
  }

  method UniqueById<T>(facts: seq<T>, id: T -> int) returns (result: Option<map<int, T>>)
    ensures result.Some? <==> DistinctIds(facts, id)
    ensures result.Some? ==> result.value == IdMap(facts, id)
  {
    var seen := map[];
    for i := 0 to |facts|
      invariant DistinctIds(facts[..i], id)
      invariant seen == IdMap(facts[..i], id)
    {
      if id(facts[i]) in seen {
        assert exists j :: 0 <= j < i && id(facts[j]) == id(facts[i]);
        return None;
      }
      assert facts[..i + 1] == facts[..i] + [facts[i]];
      assert DistinctIds(facts[..i + 1], id);
      seen := seen[id(facts[i]) := facts[i]];
    }
    assert facts[..|facts|] == facts;
    return Some(seen);
  }

  function Pair(s: Solve): (int, int) { (s.participationId, s.challengeId) }

  function PairsOf(solves: seq<Solve>): set<(int, int)> {
    set s | s in solves :: Pair(s)
  }

  /** What the loop over the official solves collects. */
  datatype SolveIndex = SolveIndex(byChallenge: map<int, seq<Solve>>, solvedSubmissions: set<int>)

  function Group(groups: map<int, seq<Solve>>, id: int): seq<Solve> {
    if id in groups then groups[id] else []
  }

  /** The pairs, submissions and groups seen in a prefix of the solves, none of them twice. */
  ghost predicate Indexed(solves: seq<Solve>, pairs: set<(int, int)>, submissions: set<int>, groups: map<int, seq<Solve>>) {
    && NoRepeats(solves)
    && pairs == PairsOf(solves)
    && submissions == SolvedSubmissions(solves)
    && forall id: int :: Group(groups, id) == Filter(solves, OfChallenge(id))
  }

  /** One turn of the loop over the official solves. */
  method IndexSolve(l: Ledger, i: nat, index: Seen) returns (next: Option<Seen>)
    requires i < |l.solves| && Indexed(l.solves[..i], index.pairs, index.submissions, index.groups)
    ensures next.Some? <==> SolveOk(l, l.solves[i]) && NoRepeats(l.solves[..i + 1])
    ensures next.Some? ==> Indexed(l.solves[..i + 1], next.value.pairs, next.value.submissions, next.value.groups)
  {
    var solve := l.solves[i];
    if !SolveOk(l, solve) {
      return None;
    }
    if Pair(solve) in index.pairs || solve.submissionId in index.submissions {
      RepeatIsFound(l.solves, i, index.pairs, index.submissions, index.groups);
      return None;
    }
    NextSolveFits(l.solves, i, index.pairs, index.submissions, index.groups);
    next := Some(Seen(
      index.pairs + {Pair(solve)}, index.submissions + {solve.submissionId},
      index.groups[solve.challengeId := Group(index.groups, solve.challengeId) + [solve]]));
  }

  method ValidateSolves(l: Ledger) returns (result: Option<SolveIndex>)
    ensures result.Some? <==> SolvesConsistent(l)
    ensures result.Some? ==> result.value.solvedSubmissions == SolvedSubmissions(l.solves)
    ensures result.Some? ==> forall id: int :: Group(result.value.byChallenge, id) == SolvesOf(l, id)
  {
    var index := Seen({}, {}, map[]);
    assert l.solves[..0] == [];
    for i := 0 to |l.solves|
      invariant forall j | 0 <= j < i :: SolveOk(l, l.solves[j])
      invariant Indexed(l.solves[..i], index.pairs, index.submissions, index.groups)
    {
      var next := IndexSolve(l, i, index);
      if next.None? {
        return None;
      }
      index := next.value;
    }
    assert l.solves[..|l.solves|] == l.solves;
    return Some(SolveIndex(index.groups, index.submissions));
  }

  /** What the loop has seen. */
  datatype Seen = Seen(pairs: set<(int, int)>, submissions: set<int>, groups: map<int, seq<Solve>>)

  lemma RepeatIsFound(solves: seq<Solve>, i: nat, pairs: set<(int, int)>, submissions: set<int>, groups: map<int, seq<Solve>>)
    requires i < |solves| && Indexed(solves[..i], pairs, submissions, groups)
    requires Pair(solves[i]) in pairs || solves[i].submissionId in submissions
    ensures !NoRepeats(solves[..i + 1])
  {
    if Pair(solves[i]) in pairs {
      var j :| 0 <= j < i && Pair(solves[j]) == Pair(solves[i]);
      assert solves[..i + 1][j] == solves[j] && solves[..i + 1][i] == solves[i];
    } else {
      var j :| 0 <= j < i && solves[j].submissionId == solves[i].submissionId;
      assert solves[..i + 1][j] == solves[j] && solves[..i + 1][i] == solves[i];
    }
  }

  lemma NextSolveIsNew(solves: seq<Solve>, i: nat)
    requires i < |solves| && NoRepeats(solves[..i])
    requires Pair(solves[i]) !in PairsOf(solves[..i])
    requires solves[i].submissionId !in SolvedSubmissions(solves[..i])
    ensures NoRepeats(solves[..i + 1])
  {
    forall j | 0 <= j < i
      ensures solves[j].submissionId != solves[i].submissionId && Pair(solves[j]) != Pair(solves[i])
    {
      assert solves[..i][j] in solves[..i];
    }
    forall a, b | 0 <= a < b < i + 1
      ensures solves[a].submissionId != solves[b].submissionId && Pair(solves[a]) != Pair(solves[b])
    {
      if b < i {
        assert solves[..i][a] == solves[a] && solves[..i][b] == solves[b];
      }
    }
  }

  lemma NextSolveSets(solves: seq<Solve>, solve: Solve)
    ensures PairsOf(solves + [solve]) == PairsOf(solves) + {Pair(solve)}
    ensures SolvedSubmissions(solves + [solve]) == SolvedSubmissions(solves) + {solve.submissionId}
  {
    assert forall s :: s in solves + [solve] <==> s in solves || s == solve;
  }

  lemma NextSolveGroups(solves: seq<Solve>, solve: Solve, groups: map<int, seq<Solve>>)
    requires forall id: int :: Group(groups, id) == Filter(solves, OfChallenge(id))
    ensures forall id: int ::
              Group(groups[solve.challengeId := Group(groups, solve.challengeId) + [solve]], id)
              == Filter(solves + [solve], OfChallenge(id))
  {
    forall id: int
      ensures Filter(solves + [solve], OfChallenge(id))
              == Filter(solves, OfChallenge(id)) + (if solve.challengeId == id then [solve] else [])
    {
      FilterAppend(solves, solve, OfChallenge(id));
    }
  }

  lemma NextSolveFits(solves: seq<Solve>, i: nat, pairs: set<(int, int)>, submissions: set<int>,
                      groups: map<int, seq<Solve>>)
    requires i < |solves| && Indexed(solves[..i], pairs, submissions, groups)
    requires Pair(solves[i]) !in pairs && solves[i].submissionId !in submissions
    ensures var solve := solves[i];
            Indexed(solves[..i + 1], pairs + {Pair(solve)}, submissions + {solve.submissionId},
                    groups[solve.challengeId := Group(groups, solve.challengeId) + [solve]])
  {
    assert solves[..i + 1] == solves[..i] + [solves[i]];
    NextSolveIsNew(solves, i);
    NextSolveSets(solves[..i], solves[i]);
    NextSolveGroups(solves[..i], solves[i], groups);
  }

  method ValidateSubmissions(l: Ledger, submissions: seq<Submission>, solvedSubmissions: set<int>) returns (ok: bool)
    requires solvedSubmissions == SolvedSubmissions(l.solves)
    ensures ok <==> forall sub | sub in submissions :: SubmissionOk(l, sub)
  {
    for i := 0 to |submissions|
      invariant forall j | 0 <= j < i :: SubmissionOk(l, submissions[j])
    {
      var submission := submissions[i];
      assert submission in submissions;
      if submission.challengeId !in l.challenges || submission.participationId !in l.participations {
        return false;
      }
      if CorrectOfficial(submission) && submission.id !in solvedSubmissions {
        return false;
      }
    }
    return true;
  }

  datatype ChallengeTable = ChallengeTable(scores: seq<ChallengeResult>, points: map<int, int>)

  ghost predicate Priced(l: Ledger, factor: DecayFactor, points: map<int, int>) {
    forall id | id in l.challenges :: id in points && points[id] == PointsOf(l, factor, id)
  }

  method ScoreChallenge(l: Ledger, factor: DecayFactor, challenge: Challenge, group: seq<Solve>)
    returns (result: Option<ChallengeResult>)
    requires challenge.id in l.challenges && l.challenges[challenge.id] == challenge && Sorted(l.solves, SolveKey)
    requires group == SolvesOf(l, challenge.id)
    ensures result.Some? <==> Scorable(l, challenge.id)
    ensures result.Some? ==> result.value == ChallengeResultOf(l, factor)(challenge)
  {
    var solves := SortBy(group, SolveKey);
    GroupStaysSorted(l, challenge.id);
    result := ScoreSolves(l, factor, challenge, solves);
  }

  method ScoreSolves(l: Ledger, factor: DecayFactor, challenge: Challenge, solves: seq<Solve>)
    returns (result: Option<ChallengeResult>)
    requires challenge.id in l.challenges && l.challenges[challenge.id] == challenge
    requires solves == SolvesOf(l, challenge.id)
    ensures result.Some? <==> Scorable(l, challenge.id)
    ensures result.Some? ==> result.value == ChallengeResultOf(l, factor)(challenge)
  {
    for index := 0 to |solves|
      invariant forall k | 0 <= k < index :: solves[k].order == k + 1
    {
      if solves[index].order != index + 1 {
        return None;
      }
    }
    var currentPoints := ChallengeScore(challenge.policy, |solves|, factor);
    if currentPoints.None? {
      return None;
    }
    return Some(ChallengeResult(challenge.id, |solves|, currentPoints.value, FirstOf(solves)));
  }

  /** Solves were sorted before they were grouped. */
  lemma GroupStaysSorted(l: Ledger, id: int)
    requires Sorted(l.solves, SolveKey)
    ensures SortBy(SolvesOf(l, id), SolveKey) == SolvesOf(l, id)
  {
    FilterKeepsSorted(l.solves, OfChallenge(id), SolveKey);
    SortedStays(SolvesOf(l, id), SolveKey);
  }

  /** The first challenges are scored and priced. */
  ghost predicate ScoredUpTo(l: Ledger, factor: DecayFactor, done: seq<Challenge>, scores: seq<ChallengeResult>,
                             points: map<int, int>) {
    && scores == Map(done, ChallengeResultOf(l, factor))
    && (forall j | 0 <= j < |done| :: done[j].id in l.challenges && Scorable(l, done[j].id) && done[j].id in points)
    && (forall id | id in points :: points[id] == PointsOf(l, factor, id))
  }

  lemma NextChallengeScored(l: Ledger, factor: DecayFactor, done: seq<Challenge>, scores: seq<ChallengeResult>,
                            points: map<int, int>, c: Challenge)
    requires ScoredUpTo(l, factor, done, scores, points) && c.id in l.challenges && Scorable(l, c.id)
    ensures var result := ChallengeResultOf(l, factor)(c);
            ScoredUpTo(l, factor, done + [c], scores + [result], points[c.id := result.currentPoints])
  {
    MapAppend(done, c, ChallengeResultOf(l, factor));
  }

  /** One turn of the loop over the challenges. */
  method ScoreNext(l: Ledger, factor: DecayFactor, ghost done: seq<Challenge>, challenge: Challenge, group: seq<Solve>,
                   table: ChallengeTable)
    returns (next: Option<ChallengeTable>)
    requires challenge.id in l.challenges && l.challenges[challenge.id] == challenge && Sorted(l.solves, SolveKey)
    requires group == SolvesOf(l, challenge.id)
    requires ScoredUpTo(l, factor, done, table.scores, table.points)
    ensures next.Some? <==> Scorable(l, challenge.id)
    ensures next.Some? ==> ScoredUpTo(l, factor, done + [challenge], next.value.scores, next.value.points)
  {
    var score := ScoreChallenge(l, factor, challenge, group);
    if score.None? {
      return None;
    }
    NextChallengeScored(l, factor, done, table.scores, table.points, challenge);
    next := Some(ChallengeTable(
      table.scores + [score.value], table.points[challenge.id := score.value.currentPoints]));
  }

  lemma AllScored(l: Ledger, factor: DecayFactor, table: ChallengeTable)
    requires WellFormed(l) && ScoredUpTo(l, factor, l.challengeOrder, table.scores, table.points)
    ensures ScoresConsistent(l) && Priced(l, factor, table.points)
  {
    EveryChallengeScored(l, table.points);
  }

  lemma ChallengeAt(l: Ledger, i: nat)
    requires WellFormed(l) && i < |l.challengeOrder|
    ensures l.challengeOrder[i].id in l.challenges && l.challenges[l.challengeOrder[i].id] == l.challengeOrder[i]
    ensures ScoresConsistent(l) ==> Scorable(l, l.challengeOrder[i].id)
  {
    assert l.challengeOrder[i] in l.challengeOrder;
  }

  lemma NextOfOrder(l: Ledger, i: nat, done: seq<Challenge>)
    requires i < |l.challengeOrder| && done == l.challengeOrder[..i]
    ensures done + [l.challengeOrder[i]] == l.challengeOrder[..i + 1]
  {
  }

  method ScoreChallenges(l: Ledger, factor: DecayFactor, byChallenge: map<int, seq<Solve>>)
    returns (result: Option<ChallengeTable>)
    requires WellFormed(l) && Sorted(l.solves, SolveKey)
    requires forall id: int :: Group(byChallenge, id) == SolvesOf(l, id)
    ensures result.Some? <==> ScoresConsistent(l)
    ensures result.Some? ==> result.value.scores == Map(l.challengeOrder, ChallengeResultOf(l, factor))
    ensures result.Some? ==> Priced(l, factor, result.value.points)
  {
    var table := ChallengeTable([], map[]);
    ghost var done := [];
    for i := 0 to |l.challengeOrder|
      invariant done == l.challengeOrder[..i]
      invariant ScoredUpTo(l, factor, done, table.scores, table.points)
    {
      var challenge := l.challengeOrder[i];
      ChallengeAt(l, i);
      var next := ScoreNext(l, factor, done, challenge, Group(byChallenge, challenge.id), table);
      if next.None? {
        return None;
      }
      NextOfOrder(l, i, done);
      table, done := next.value, done + [challenge];
    }
    assert done == l.challengeOrder;
    AllScored(l, factor, table);
    return Some(table);
  }

  lemma EveryChallengeScored(l: Ledger, points: map<int, int>)
    requires WellFormed(l)
    requires forall j | 0 <= j < |l.challengeOrder| ::
               l.challengeOrder[j].id in l.challenges && Scorable(l, l.challengeOrder[j].id) && l.challengeOrder[j].id in points
    ensures ScoresConsistent(l) && forall id | id in l.challenges :: id in points
  {
    forall id | id in l.challenges
      ensures Scorable(l, id) && id in points
    {
      var j :| 0 <= j < |l.challengeOrder| && l.challengeOrder[j] == l.challenges[id];
      assert l.challengeOrder[j].id == id;
    }
  }

  datatype Accumulator = Accumulator(
    solves: seq<Solve>, solvePoints: int, adjustmentPoints: int, lastScoringAt: Option<Time>)

  predicate HoldsSolves(l: Ledger, factor: DecayFactor, a: Accumulator, mine: seq<Solve>) {
    a.solves == mine && Some(a.solvePoints) == SolveSum(l, factor, mine) && a.adjustmentPoints == 0
    && a.lastScoringAt == LastSolve(mine)
  }

  /** Every accumulator has taken in its share of the first `i` solves. */
  ghost predicate SolvesTaken(l: Ledger, factor: DecayFactor, accumulators: map<int, Accumulator>, i: nat)
    requires i <= |l.solves|
  {
    && accumulators.Keys == l.participations.Keys
    && forall id | id in l.participations ::
         HoldsSolves(l, factor, accumulators[id], Filter(l.solves[..i], OfParticipation(id)))
  }

  method AccumulateSolves(l: Ledger, factor: DecayFactor, points: map<int, int>)
    returns (result: Option<map<int, Accumulator>>)
    requires SolvesConsistent(l)
    requires Priced(l, factor, points)
    ensures result.Some? <==> forall id | id in l.participations :: SolveSum(l, factor, SolvesBy(l, id)).Some?
    ensures result.Some? ==> SolvesTaken(l, factor, result.value, |l.solves|)
  {
    var accumulators := map id | id in l.participations :: Accumulator([], 0, 0, None);
    for i := 0 to |l.solves|
      invariant SolvesTaken(l, factor, accumulators, i)
    {
      var solve := l.solves[i];
      assert SolveOk(l, solve);
      var accumulator := accumulators[solve.participationId];
      var solvePoints := SafeAdd(accumulator.solvePoints, points[solve.challengeId]);
      if solvePoints.None? {
        NextSolveOverflows(l, factor, accumulators, i);
        return None;
      }
      NextSolveTaken(l, factor, accumulators, i, solvePoints.value);
      accumulators := accumulators[solve.participationId := Accumulator(
        accumulator.solves + [solve], solvePoints.value, 0, Later(accumulator.lastScoringAt, solve.solvedAt))];
    }
    assert l.solves[..|l.solves|] == l.solves;
    return Some(accumulators);
  }

  lemma NextSolveTaken(l: Ledger, factor: DecayFactor, accumulators: map<int, Accumulator>, i: nat, sum: int)
    requires i < |l.solves| && SolvesTaken(l, factor, accumulators, i)
    requires l.solves[i].participationId in l.participations
    requires SafeAdd(accumulators[l.solves[i].participationId].solvePoints, PointsOf(l, factor, l.solves[i].challengeId)) == Some(sum)
    ensures var solve := l.solves[i];
            var a := accumulators[solve.participationId];
            SolvesTaken(l, factor, accumulators[solve.participationId :=
              Accumulator(a.solves + [solve], sum, 0, Later(a.lastScoringAt, solve.solvedAt))], i + 1)
  {
    var solve := l.solves[i];
    assert l.solves[..i + 1] == l.solves[..i] + [solve];
    forall id | id in l.participations
      ensures Filter(l.solves[..i + 1], OfParticipation(id))
              == Filter(l.solves[..i], OfParticipation(id)) + (if solve.participationId == id then [solve] else [])
    {
      FilterAppend(l.solves[..i], solve, OfParticipation(id));
    }
    var a := accumulators[solve.participationId];
    assert HoldsSolves(l, factor, a, Filter(l.solves[..i], OfParticipation(solve.participationId)));
    var next := Accumulator(a.solves + [solve], sum, 0, Later(a.lastScoringAt, solve.solvedAt));
    HoldsNextSolve(l, factor, a, a.solves, solve, sum);
    var after := accumulators[solve.participationId := next];
    forall id | id in l.participations
      ensures id in after && HoldsSolves(l, factor, after[id], Filter(l.solves[..i + 1], OfParticipation(id)))
    {
      var shorter, longer := Filter(l.solves[..i], OfParticipation(id)), Filter(l.solves[..i + 1], OfParticipation(id));
      assert HoldsSolves(l, factor, accumulators[id], shorter);
      assert solve.participationId != id ==> longer == shorter;
    }
    assert after.Keys == accumulators.Keys;
    assert SolvesTaken(l, factor, after, i + 1);
  }

  lemma HoldsNextSolve(l: Ledger, factor: DecayFactor, a: Accumulator, mine: seq<Solve>, solve: Solve, sum: int)
    requires HoldsSolves(l, factor, a, mine) && SafeAdd(a.solvePoints, PointsOf(l, factor, solve.challengeId)) == Some(sum)
    ensures HoldsSolves(l, factor, Accumulator(a.solves + [solve], sum, 0, Later(a.lastScoringAt, solve.solvedAt)), mine + [solve])
  {
    assert (mine + [solve])[..|mine|] == mine;
  }

  lemma NextSolveOverflows(l: Ledger, factor: DecayFactor, accumulators: map<int, Accumulator>, i: nat)
    requires i < |l.solves| && SolvesTaken(l, factor, accumulators, i)
    requires l.solves[i].participationId in l.participations
    requires SafeAdd(accumulators[l.solves[i].participationId].solvePoints, PointsOf(l, factor, l.solves[i].challengeId)).None?
    ensures SolveSum(l, factor, SolvesBy(l, l.solves[i].participationId)).None?
  {
    var solve := l.solves[i];
    var f := OfParticipation(solve.participationId);
    var mine := Filter(l.solves[..i], f);
    assert (mine + [solve])[..|mine|] == mine;
    assert l.solves == (l.solves[..i] + [solve]) + l.solves[i + 1..];
    FilterConcat(l.solves[..i] + [solve], l.solves[i + 1..], f);
    FilterAppend(l.solves[..i], solve, f);
    SolveSumFails(l, factor, mine + [solve], Filter(l.solves[i + 1..], f));
  }

  /** A sum that failed stays failed. */
  lemma {:induction false} SolveSumFails(l: Ledger, factor: DecayFactor, a: seq<Solve>, b: seq<Solve>)
    requires SolveSum(l, factor, a).None?
    ensures SolveSum(l, factor, a + b).None?
  {
    if b == [] {
      assert a + b == a;
    } else {
      SolveSumFails(l, factor, a, b[..|b| - 1]);
      assert (a + b)[..|a + b| - 1] == a + b[..|b| - 1];
    }
  }

  lemma {:induction false} AdjustmentSumFails(a: seq<Adjustment>, b: seq<Adjustment>)
    requires AdjustmentSum(a).None?
    ensures AdjustmentSum(a + b).None?
  {
    if b == [] {
      assert a + b == a;
    } else {
      AdjustmentSumFails(a, b[..|b| - 1]);
      assert (a + b)[..|a + b| - 1] == a + b[..|b| - 1];
    }
  }

  predicate HoldsAdjustments(before: Accumulator, a: Accumulator, mine: seq<Adjustment>) {
    a.solves == before.solves && a.solvePoints == before.solvePoints
    && Some(a.adjustmentPoints) == AdjustmentSum(mine)
    && a.lastScoringAt == LastScoring(before.lastScoringAt, mine)
  }

  ghost predicate AdjustmentsTaken(l: Ledger, before: map<int, Accumulator>, accumulators: map<int, Accumulator>, i: nat)
    requires i <= |l.adjustments|
  {
    && before.Keys == accumulators.Keys == l.participations.Keys
    && forall id | id in l.participations ::
         HoldsAdjustments(before[id], accumulators[id], Filter(l.adjustments[..i], AdjustmentOf(id)))
  }

  /** One turn of the loop over the adjustments. */
  method TakeAdjustment(l: Ledger, ghost before: map<int, Accumulator>, accumulators: map<int, Accumulator>, i: nat)
    returns (next: Option<map<int, Accumulator>>)
    requires i < |l.adjustments| && AdjustmentsTaken(l, before, accumulators, i)
    ensures next.Some? ==> AdjustmentOk(l, l.adjustments[i]) && AdjustmentsTaken(l, before, next.value, i + 1)
    ensures next.None? && AdjustmentOk(l, l.adjustments[i]) ==>
              AdjustmentSum(AdjustmentsOf(l, l.adjustments[i].participationId)).None?
  {
    var adjustment := l.adjustments[i];
    if adjustment.participationId !in accumulators {
      return None;
    }
    if !Safe(adjustment.pointsDelta) || adjustment.pointsDelta == 0 {
      return None;
    }
    var accumulator := accumulators[adjustment.participationId];
    var adjustmentPoints := SafeAdd(accumulator.adjustmentPoints, adjustment.pointsDelta);
    if adjustmentPoints.None? {
      NextAdjustmentOverflows(l, before, accumulators, i);
      return None;
    }
    NextAdjustmentTaken(l, before, accumulators, i, adjustmentPoints.value);
    next := Some(accumulators[adjustment.participationId := accumulator.(
      adjustmentPoints := adjustmentPoints.value,
      lastScoringAt := Later(accumulator.lastScoringAt, adjustment.createdAt))]);
  }

  method AccumulateAdjustments(l: Ledger, before: map<int, Accumulator>) returns (result: Option<map<int, Accumulator>>)
    requires before.Keys == l.participations.Keys
    requires forall id | id in before :: before[id].adjustmentPoints == 0
    ensures result.Some? <==>
              && (forall i | 0 <= i < |l.adjustments| :: AdjustmentOk(l, l.adjustments[i]))
              && (forall id | id in l.participations :: AdjustmentSum(AdjustmentsOf(l, id)).Some?)
    ensures result.Some? ==> AdjustmentsTaken(l, before, result.value, |l.adjustments|)
  {
    var accumulators := before;
    for i := 0 to |l.adjustments|
      invariant forall j | 0 <= j < i :: AdjustmentOk(l, l.adjustments[j])
      invariant AdjustmentsTaken(l, before, accumulators, i)
    {
      var next := TakeAdjustment(l, before, accumulators, i);
      if next.None? {
        return None;
      }
      accumulators := next.value;
    }
    assert l.adjustments[..|l.adjustments|] == l.adjustments;
    return Some(accumulators);
  }

  lemma NextAdjustmentTaken(l: Ledger, before: map<int, Accumulator>, accumulators: map<int, Accumulator>, i: nat, sum: int)
    requires i < |l.adjustments| && AdjustmentsTaken(l, before, accumulators, i)
    requires l.adjustments[i].participationId in l.participations
    requires SafeAdd(accumulators[l.adjustments[i].participationId].adjustmentPoints, l.adjustments[i].pointsDelta) == Some(sum)
    ensures var adjustment := l.adjustments[i];
            var a := accumulators[adjustment.participationId];
            AdjustmentsTaken(l, before, accumulators[adjustment.participationId := a.(
              adjustmentPoints := sum, lastScoringAt := Later(a.lastScoringAt, adjustment.createdAt))], i + 1)
  {
    var adjustment := l.adjustments[i];
    assert l.adjustments[..i + 1] == l.adjustments[..i] + [adjustment];
    forall id | id in l.participations
      ensures Filter(l.adjustments[..i + 1], AdjustmentOf(id))
              == Filter(l.adjustments[..i], AdjustmentOf(id)) + (if adjustment.participationId == id then [adjustment] else [])
    {
      FilterAppend(l.adjustments[..i], adjustment, AdjustmentOf(id));
    }
    var mine := Filter(l.adjustments[..i], AdjustmentOf(adjustment.participationId));
    assert (mine + [adjustment])[..|mine|] == mine;
    var a := accumulators[adjustment.participationId];
    assert HoldsAdjustments(before[adjustment.participationId], a, mine);
    var next := a.(adjustmentPoints := sum, lastScoringAt := Later(a.lastScoringAt, adjustment.createdAt));
    assert HoldsAdjustments(before[adjustment.participationId], next, mine + [adjustment]);
    var after := accumulators[adjustment.participationId := next];
    forall id | id in l.participations
      ensures id in after && HoldsAdjustments(before[id], after[id], Filter(l.adjustments[..i + 1], AdjustmentOf(id)))
    {
      var shorter, longer := Filter(l.adjustments[..i], AdjustmentOf(id)), Filter(l.adjustments[..i + 1], AdjustmentOf(id));
      assert HoldsAdjustments(before[id], accumulators[id], shorter);
      assert adjustment.participationId != id ==> longer == shorter;
    }
    assert after.Keys == accumulators.Keys;
    assert AdjustmentsTaken(l, before, after, i + 1);
  }

  lemma NextAdjustmentOverflows(l: Ledger, before: map<int, Accumulator>, accumulators: map<int, Accumulator>, i: nat)
    requires i < |l.adjustments| && AdjustmentsTaken(l, before, accumulators, i)
    requires l.adjustments[i].participationId in l.participations
    requires SafeAdd(accumulators[l.adjustments[i].participationId].adjustmentPoints, l.adjustments[i].pointsDelta).None?
    ensures AdjustmentSum(AdjustmentsOf(l, l.adjustments[i].participationId)).None?
  {
    var adjustment := l.adjustments[i];
    var f := AdjustmentOf(adjustment.participationId);
    var mine := Filter(l.adjustments[..i], f);
    assert (mine + [adjustment])[..|mine|] == mine;
    assert l.adjustments == (l.adjustments[..i] + [adjustment]) + l.adjustments[i + 1..];
    FilterConcat(l.adjustments[..i] + [adjustment], l.adjustments[i + 1..], f);
    FilterAppend(l.adjustments[..i], adjustment, f);
    AdjustmentSumFails(mine + [adjustment], Filter(l.adjustments[i + 1..], f));
  }

  predicate Accumulated(l: Ledger, factor: DecayFactor, a: Accumulator, id: int) {
    && a.solves == SolvesBy(l, id)
    && Some(a.solvePoints) == SolveSum(l, factor, SolvesBy(l, id))
    && Some(a.adjustmentPoints) == AdjustmentSum(AdjustmentsOf(l, id))
    && a.lastScoringAt == LastScoring(LastSolve(SolvesBy(l, id)), AdjustmentsOf(l, id))
  }

  /** The closing step for one accumulator. */
  function ScoreAccumulator(p: Participation, a: Accumulator): Option<ParticipationResult> {
    var totalPoints := SafeAdd(a.solvePoints, a.adjustmentPoints);
    if totalPoints.None? then None
    else Some(ParticipationResult(
      p.id, p.teamId, p.teamName, p.divisionId, p.status,
      Map(SortBy(a.solves, SolveKey), Summary), |a.solves|, a.solvePoints, a.adjustmentPoints, totalPoints.value,
      a.lastScoringAt))
  }

  function ScoreFrom(accumulators: map<int, Accumulator>): Participation -> Option<ParticipationResult> {
    (p: Participation) => if p.id in accumulators then ScoreAccumulator(p, accumulators[p.id]) else None
  }

  lemma AccumulatorScores(l: Ledger, factor: DecayFactor, p: Participation, a: Accumulator)
    requires Accumulated(l, factor, a, p.id)
    ensures ScoreAccumulator(p, a).Some? <==> TotalOk(l, factor, p.id)
    ensures ScoreAccumulator(p, a).Some? ==> ScoreAccumulator(p, a).value == ParticipationResultOf(l, factor)(p)
  {
  }

  /** `map` with a callback that may throw. */
  method MapOrFail<T, U>(s: seq<T>, f: T -> Option<U>) returns (result: Option<seq<U>>)
    ensures result.Some? <==> forall i | 0 <= i < |s| :: f(s[i]).Some?
    ensures result.Some? ==> |result.value| == |s| && forall i | 0 <= i < |s| :: f(s[i]) == Some(result.value[i])
  {
    var mapped: seq<U> := [];
    for i := 0 to |s|
      invariant |mapped| == i && forall j | 0 <= j < i :: f(s[j]) == Some(mapped[j])
    {
      var next := f(s[i]);
      if next.None? {
        return None;
      }
      mapped := mapped + [next.value];
    }
    return Some(mapped);
  }

  // ---- The whole replay ----

  lemma {:induction false} InsertCommutes<T, U>(x: T, s: seq<T>, f: T -> U, kt: T -> Key, ku: U -> Key)
    requires ku(f(x)) == kt(x) && forall y | y in s :: ku(f(y)) == kt(y)
    ensures InsertBy(f(x), Map(s, f), ku) == Map(InsertBy(x, s, kt), f)
  {
    if s != [] {
      var front, last := s[..|s| - 1], s[|s| - 1];
      assert last in s;
      assert s == front + [last];
      MapAppend(front, last, f);
      assert Map(s, f)[..|s| - 1] == Map(front, f);
      if Less(kt(x), kt(last)) {
        InsertCommutes(x, front, f, kt, ku);
        MapAppend(InsertBy(x, front, kt), last, f);
      } else {
        MapAppend(s, x, f);
      }
    }
  }

  /** Mapping before sorting is mapping after it, when the key survives the mapping. */
  lemma {:induction false} SortCommutes<T, U>(s: seq<T>, f: T -> U, kt: T -> Key, ku: U -> Key)
    requires forall x | x in s :: ku(f(x)) == kt(x)
    ensures SortBy(Map(s, f), ku) == Map(SortBy(s, kt), f)
  {
    if s != [] {
      var front, last := s[..|s| - 1], s[|s| - 1];
      assert last in s;
      assert s == front + [last];
      MapAppend(front, last, f);
      SortCommutes(front, f, kt, ku);
      forall x | x in SortBy(front, kt)
        ensures ku(f(x)) == kt(x)
      {
        InMultiset(SortBy(front, kt), x);
        InMultiset(front, x);
      }
      InsertCommutes(last, SortBy(front, kt), f, kt, ku);
    }
  }

  /** A table by id and a sorted list of the same facts. */
  lemma MapMatchesList<T(!new)>(facts: seq<T>, id: T -> int, key: T -> Key)
    requires DistinctIds(facts, id)
    ensures forall x | x in SortBy(facts, key) :: id(x) in IdMap(facts, id) && IdMap(facts, id)[id(x)] == x
    ensures forall n | n in IdMap(facts, id) :: IdMap(facts, id)[n] in SortBy(facts, key) && id(IdMap(facts, id)[n]) == n
    ensures forall x :: x in facts <==> x in SortBy(facts, key)
  {
    SameMembers(facts, SortBy(facts, key));
    DistinctIdsTellApart(facts, id);
  }

  lemma LedgerIsWellFormed(facts: Facts)
    requires HasDistinctIds(facts)
    ensures WellFormed(LedgerOf(facts))
    ensures forall p :: p in facts.participations <==> p in LedgerOf(facts).participationOrder
    ensures forall sub :: sub in facts.submissions <==> sub.id in LedgerOf(facts).submissions && LedgerOf(facts).submissions[sub.id] == sub
    ensures forall id | id in LedgerOf(facts).submissions :: LedgerOf(facts).submissions[id].id == id
  {
    MapMatchesList(facts.challenges, ChallengeId, ChallengeKey);
    MapMatchesList(facts.participations, ParticipationId, ParticipationKey);
    DistinctIdsTellApart(facts.submissions, SubmissionId);
  }

  method ReplayContestScoring(facts: Facts, factor: DecayFactor) returns (result: Option<Replay>)
    ensures result.Some? <==> Replayable(facts, factor)
    ensures result.Some? ==> result.value == ReplayOf(LedgerOf(facts), factor)
  {
    var challenges := UniqueById(facts.challenges, ChallengeId);
    if challenges.None? { return None; }
    var participations := UniqueById(facts.participations, ParticipationId);
    if participations.None? { return None; }
    var submissions := UniqueById(facts.submissions, SubmissionId);
    if submissions.None? { return None; }
    var solveIds := UniqueById(facts.solves, SolveId);
    if solveIds.None? { return None; }
    var adjustmentIds := UniqueById(facts.adjustments, AdjustmentId);
    if adjustmentIds.None? { return None; }
    var l := Ledger(
      challenges.value, SortBy(facts.challenges, ChallengeKey),
      participations.value, SortBy(facts.participations, ParticipationKey),
      submissions.value, SortBy(Filter(facts.solves, IsOfficial), SolveKey), SortBy(facts.adjustments, AdjustmentKey));
    assert l == LedgerOf(facts);
    LedgerIsWellFormed(facts);
    SortIsSorted(Filter(facts.solves, IsOfficial), SolveKey);
    result := ReplayLedger(l, factor, facts.participations, facts.submissions);
  }

  method ReplayLedger(l: Ledger, factor: DecayFactor, participations: seq<Participation>, submissions: seq<Submission>)
    returns (result: Option<Replay>)
    requires WellFormed(l) && Sorted(l.solves, SolveKey)
    requires l.participationOrder == SortBy(participations, ParticipationKey)
    requires ListsSubmissions(l, submissions)
    ensures result.Some? <==> Consistent(l, factor)
    ensures result.Some? ==> result.value == ReplayOf(l, factor)
  {
    var solves := ValidateSolves(l);
    if solves.None? { return None; }
    var submissionsOk := ValidateSubmissions(l, submissions, solves.value.solvedSubmissions);
    SubmissionsCovered(l, submissions);
    if !submissionsOk { return None; }
    var table := ScoreChallenges(l, factor, solves.value.byChallenge);
    if table.None? { return None; }
    SameMembers(participations, l.participationOrder);
    var totals := ScoreParticipations(l, factor, table.value.points, participations);
    if totals.None? { return None; }
    ScoresSort(l, factor, participations);
    result := Assemble(l, factor, table.value.scores, totals.value);
  }

  lemma ScoresSort(l: Ledger, factor: DecayFactor, participations: seq<Participation>)
    requires l.participationOrder == SortBy(participations, ParticipationKey)
    ensures SortBy(Map(participations, ParticipationResultOf(l, factor)), ResultKey)
            == Map(l.participationOrder, ParticipationResultOf(l, factor))
  {
    SortCommutes(participations, ParticipationResultOf(l, factor), ParticipationKey, ResultKey);
  }

  method Assemble(l: Ledger, factor: DecayFactor, challengeScores: seq<ChallengeResult>, totals: seq<ParticipationResult>)
    returns (result: Option<Replay>)
    requires challengeScores == Map(l.challengeOrder, ChallengeResultOf(l, factor))
    requires SortBy(totals, ResultKey) == Map(l.participationOrder, ParticipationResultOf(l, factor))
    ensures result.Some? <==> Safe(|l.solves| + |l.adjustments|)
    ensures result.Some? ==> result.value == ReplayOf(l, factor)
  {
    var scores := SortBy(totals, ResultKey);
    var factVersion := SafeAdd(|l.solves|, |l.adjustments|);
    if factVersion.None? { return None; }
    return Some(Replay(factVersion.value, challengeScores, scores, RankingOf(scores)));
  }

  ghost predicate ListsSubmissions(l: Ledger, submissions: seq<Submission>) {
    && (forall sub :: sub in submissions <==> sub.id in l.submissions && l.submissions[sub.id] == sub)
    && (forall id | id in l.submissions :: l.submissions[id].id == id)
  }

  lemma SubmissionsCovered(l: Ledger, submissions: seq<Submission>)
    requires ListsSubmissions(l, submissions)
    ensures (forall sub | sub in submissions :: SubmissionOk(l, sub)) <==> SubmissionsConsistent(l)
  {
    assert forall id | id in l.submissions :: l.submissions[id] in submissions;
  }

  method ScoreParticipations(l: Ledger, factor: DecayFactor, points: map<int, int>, participations: seq<Participation>)
    returns (result: Option<seq<ParticipationResult>>)
    requires WellFormed(l) && SolvesConsistent(l)
    requires forall p :: p in participations <==> p in l.participationOrder
    requires Priced(l, factor, points)
    ensures result.Some? <==>
              AdjustmentsOk(l) && TotalsOk(l, factor)
    ensures result.Some? ==> result.value == Map(participations, ParticipationResultOf(l, factor))
  {
    var afterSolves := AccumulateSolves(l, factor, points);
    if afterSolves.None? { return None; }
    var accumulators := AccumulateAdjustments(l, afterSolves.value);
    if accumulators.None? { return None; }
    AllAccumulated(l, factor, afterSolves.value, accumulators.value);
    result := MapOrFail(participations, ScoreFrom(accumulators.value));
    ScoresMeetSpecification(l, factor, participations, accumulators.value, result);
  }

  lemma AllAccumulated(l: Ledger, factor: DecayFactor, afterSolves: map<int, Accumulator>, accumulators: map<int, Accumulator>)
    requires SolvesTaken(l, factor, afterSolves, |l.solves|)
    requires AdjustmentsTaken(l, afterSolves, accumulators, |l.adjustments|)
    ensures forall id | id in l.participations :: id in accumulators && Accumulated(l, factor, accumulators[id], id)
  {
    assert l.solves[..|l.solves|] == l.solves && l.adjustments[..|l.adjustments|] == l.adjustments;
    forall id | id in l.participations
      ensures id in accumulators && Accumulated(l, factor, accumulators[id], id)
    {
      assert HoldsSolves(l, factor, afterSolves[id], SolvesBy(l, id));
      assert HoldsAdjustments(afterSolves[id], accumulators[id], AdjustmentsOf(l, id));
    }
  }

  lemma ScoresMeetSpecification(l: Ledger, factor: DecayFactor, participations: seq<Participation>,
                                accumulators: map<int, Accumulator>, result: Option<seq<ParticipationResult>>)
    requires WellFormed(l) && forall p :: p in participations <==> p in l.participationOrder
    requires forall id | id in l.participations :: id in accumulators && Accumulated(l, factor, accumulators[id], id)
    requires var f := ScoreFrom(accumulators);
             && (result.Some? <==> forall i | 0 <= i < |participations| :: f(participations[i]).Some?)
             && (result.Some? ==>
                   (|result.value| == |participations|
                    && forall i | 0 <= i < |participations| :: f(participations[i]) == Some(result.value[i])))
    ensures result.Some? <==> TotalsOk(l, factor)
    ensures result.Some? ==> result.value == Map(participations, ParticipationResultOf(l, factor))
  {
    var f, g := ScoreFrom(accumulators), ParticipationResultOf(l, factor);
    forall i | 0 <= i < |participations|
      ensures f(participations[i]).Some? <==> TotalOk(l, factor, participations[i].id)
      ensures f(participations[i]).Some? ==> f(participations[i]).value == g(participations[i])
    {
      var p := participations[i];
      assert p in participations;
      AccumulatorScores(l, factor, p, accumulators[p.id]);
    }
    forall id | id in l.participations
      ensures exists i :: 0 <= i < |participations| && participations[i].id == id
    {
      assert l.participations[id] in participations;
    }
    MapAt(participations, g);
    if result.Some? {
      assert result.value == Map(participations, g);
    }
  }
}
