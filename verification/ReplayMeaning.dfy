/** What a replay and its boards say about the facts as they are given, field by field. */
module ReplayMeaning {
  import opened Wrappers
  import opened Ordering
  import opened Scoring
  import opened ScoringReplay
  import opened ScoringOrder
  import opened ReplayService
  import opened ScoringMeaning
  import opened ScoringConservation
  import opened Scoreboard

  // ---- Values ----

  /** A fixed challenge keeps its points. One that decays is worth its initial points until the second solve, and then the
      whole points of the minimum and a share of what is above it, the share falling with every solve. */
  ghost predicate IsWorth(policy: Policy, solves: nat, factor: DecayFactor, points: int) {
    match policy
    case Fixed(fixed) => points == fixed
    case Decay(initial, minimum, decaySolves) =>
      if solves <= 1 || initial == minimum then points == initial
      else points as real <= minimum as real + (initial - minimum) as real * factor(solves, decaySolves) < points as real + 1.0
  }

  lemma DecayedIsFloor(initial: int, minimum: int, share: real)
    requires minimum <= initial && 0.0 <= share <= 1.0
    ensures var left := minimum as real + (initial - minimum) as real * share;
            Decayed(initial, minimum, share) as real <= left < Decayed(initial, minimum, share) as real + 1.0
  {
    var width := (initial - minimum) as real;
    ScaledLess(width, 0.0, share);
    ScaledLess(width, share, 1.0);
  }

  /** A value is refused exactly for a policy outside the bounds of its schema, and is what it should be for every other. */
  lemma ScoreIsWorth(policy: Policy, solves: nat, factor: DecayFactor)
    ensures ChallengeScore(policy, solves, factor).Some? <==>
              match policy
              case Fixed(points) => 1 <= points <= 1_000_000
              case Decay(initial, minimum, decaySolves) =>
                1 <= initial <= 1_000_000 && 0 <= minimum <= initial && 1 <= decaySolves <= 1_000_000
    ensures ChallengeScore(policy, solves, factor).Some? ==>
              IsWorth(policy, solves, factor, ChallengeScore(policy, solves, factor).value)
  {
    if ValidPolicy(policy) && policy.Decay? && solves > 1 {
      DecayedIsFloor(policy.initial, policy.minimum, factor(solves, policy.decaySolves));
    }
  }

  // ---- What the ledger keeps ----

  /** The official solves of a challenge. */
  ghost function SolvesAt(facts: Facts, challengeId: int): set<Solve> {
    set s | s in facts.solves && s.mode == Official && s.challengeId == challengeId
  }

  /** The official solves of a participation. */
  ghost function SolvesFrom(facts: Facts, participationId: int): set<Solve> {
    set s | s in facts.solves && s.mode == Official && s.participationId == participationId
  }

  lemma {:induction false} DistinctSize<T>(s: seq<T>, id: T -> int)
    requires DistinctIds(s, id)
    ensures |set x | x in s| == |s|
  {
    var all := set x | x in s;
    if s != [] {
      var front, last := s[..|s| - 1], s[|s| - 1];
      assert s == front + [last];
      DistinctSize(front, id);
      assert all == (set x | x in front) + {last};
      assert last !in front;
    }
  }

  lemma LedgerHoldsOfficial(facts: Facts)
    requires HasDistinctIds(facts)
    ensures DistinctIds(LedgerOf(facts).solves, SolveId)
    ensures forall s :: s in LedgerOf(facts).solves <==> s in facts.solves && s.mode == Official
  {
    FilterKeepsDistinctIds(facts.solves, IsOfficial, SolveId);
    DistinctIdsIgnoreOrder(Filter(facts.solves, IsOfficial), LedgerOf(facts).solves, SolveId);
    OfficialSolvesAreKept(facts);
  }

  lemma ChallengeSolves(facts: Facts, id: int)
    requires HasDistinctIds(facts)
    ensures forall s :: s in SolvesOf(LedgerOf(facts), id) <==> s in SolvesAt(facts, id)
    ensures |SolvesOf(LedgerOf(facts), id)| == |SolvesAt(facts, id)|
  {
    var l := LedgerOf(facts);
    LedgerHoldsOfficial(facts);
    FilterMembers(l.solves, OfChallenge(id));
    FilterKeepsDistinctIds(l.solves, OfChallenge(id), SolveId);
    DistinctSize(SolvesOf(l, id), SolveId);
    assert (set s | s in SolvesOf(l, id)) == SolvesAt(facts, id);
  }

  lemma ParticipationSolves(facts: Facts, id: int)
    requires HasDistinctIds(facts)
    ensures forall s :: s in SolvesBy(LedgerOf(facts), id) <==> s in SolvesFrom(facts, id)
    ensures |SolvesBy(LedgerOf(facts), id)| == |SolvesFrom(facts, id)|
  {
    var l := LedgerOf(facts);
    LedgerHoldsOfficial(facts);
    FilterMembers(l.solves, OfParticipation(id));
    FilterKeepsDistinctIds(l.solves, OfParticipation(id), SolveId);
    DistinctSize(SolvesBy(l, id), SolveId);
    assert (set s | s in SolvesBy(l, id)) == SolvesFrom(facts, id);
  }

  // ---- Challenges ----

  /** The solve of order 1, when there are any. */
  ghost predicate IsFirst(solves: set<Solve>, first: Option<FirstSolve>) {
    && (first.None? <==> solves == {})
    && (first.Some? ==>
          exists s | s in solves ::
            s.order == 1 && first.value == FirstSolve(s.id, s.submissionId, s.participationId, s.solvedAt))
  }

  lemma FirstIsOfOrderOne(solves: seq<Solve>, all: set<Solve>)
    requires Contiguous(solves) && forall s :: s in solves <==> s in all
    ensures IsFirst(all, FirstOf(solves))
  {
    assert forall s :: s in all ==> s in solves;
    if solves != [] {
      assert solves[0] in solves && solves[0].order == 1;
    }
  }

  /** The entry is that of the challenge: how often it was officially solved, what that is worth, and its first solve. */
  ghost predicate ScoredAs(facts: Facts, factor: DecayFactor, c: Challenge, entry: ChallengeResult) {
    && entry.challengeId == c.id
    && entry.officialSolveCount == |SolvesAt(facts, c.id)|
    && IsWorth(c.policy, |SolvesAt(facts, c.id)|, factor, entry.currentPoints)
    && IsFirst(SolvesAt(facts, c.id), entry.firstSolve)
  }

  lemma ValueIsWorth(l: Ledger, factor: DecayFactor, c: Challenge)
    requires c.id in l.challenges && l.challenges[c.id] == c && ValidPolicy(c.policy)
    ensures IsWorth(c.policy, |SolvesOf(l, c.id)|, factor, PointsOf(l, factor, c.id))
  {
    ScoreIsWorth(c.policy, |SolvesOf(l, c.id)|, factor);
  }

  lemma ChallengeIsScored(facts: Facts, l: Ledger, factor: DecayFactor, c: Challenge)
    requires HasDistinctIds(facts) && l == LedgerOf(facts)
    requires c.id in l.challenges && l.challenges[c.id] == c && Scorable(l, c.id)
    ensures ScoredAs(facts, factor, c, ChallengeResultOf(l, factor)(c))
  {
    ChallengeSolves(facts, c.id);
    ValueIsWorth(l, factor, c);
    FirstIsOfOrderOne(SolvesOf(l, c.id), SolvesAt(facts, c.id));
  }

  /** Sorting by a distinct id alone makes ids ascend. */
  lemma IdsAscend<T>(s: seq<T>, id: T -> int, key: T -> Key)
    requires Sorted(s, key) && DistinctIds(s, id) && forall x :: key(x) == [id(x)]
    ensures forall i, j | 0 <= i < j < |s| :: id(s[i]) < id(s[j])
  {
    forall i, j | 0 <= i < j < |s|
      ensures id(s[i]) < id(s[j])
    {
      LessStep(key(s[j]), key(s[i]));
    }
  }

  /** The list holds an entry for each challenge of the facts, by ascending id. */
  ghost predicate ScoresChallenges(facts: Facts, factor: DecayFactor, scores: seq<ChallengeResult>) {
    && |scores| == |facts.challenges|
    && (forall i, j | 0 <= i < j < |scores| :: scores[i].challengeId < scores[j].challengeId)
    && (forall i | 0 <= i < |scores| :: IsScored(facts, factor, scores[i]))
  }

  ghost predicate IsScored(facts: Facts, factor: DecayFactor, entry: ChallengeResult) {
    exists c | c in facts.challenges :: ScoredAs(facts, factor, c, entry)
  }

  lemma OrderScores(facts: Facts, factor: DecayFactor, order: seq<Challenge>, scores: seq<ChallengeResult>)
    requires |scores| == |order| == |facts.challenges|
    requires forall i, j | 0 <= i < j < |order| :: order[i].id < order[j].id
    requires forall i | 0 <= i < |order| :: order[i] in facts.challenges && ScoredAs(facts, factor, order[i], scores[i])
    ensures ScoresChallenges(facts, factor, scores)
  {
    forall i, j | 0 <= i < j < |scores|
      ensures scores[i].challengeId < scores[j].challengeId
    {
      assert ScoredAs(facts, factor, order[i], scores[i]) && ScoredAs(facts, factor, order[j], scores[j]);
    }
    forall i | 0 <= i < |scores|
      ensures IsScored(facts, factor, scores[i])
    {
      assert order[i] in facts.challenges && ScoredAs(facts, factor, order[i], scores[i]);
    }
  }

  /** A successful replay scores every challenge. */
  lemma ChallengesAreScored(facts: Facts, factor: DecayFactor)
    requires Replayable(facts, factor)
    ensures ScoresChallenges(facts, factor, ReplayOf(LedgerOf(facts), factor).challengeScores)
  {
    var l := LedgerOf(facts);
    ChallengesAscend(facts.challenges, l.challengeOrder);
    LedgerIsWellFormed(facts);
    EntriesAreScored(facts, l, factor);
    OrderScores(facts, factor, l.challengeOrder, ReplayOf(l, factor).challengeScores);
  }

  lemma ChallengesAscend(challenges: seq<Challenge>, order: seq<Challenge>)
    requires DistinctIds(challenges, ChallengeId) && order == SortBy(challenges, ChallengeKey)
    ensures forall i, j | 0 <= i < j < |order| :: order[i].id < order[j].id
    ensures forall i | 0 <= i < |order| :: order[i] in challenges
  {
    SortIsSorted(challenges, ChallengeKey);
    SameMembers(challenges, order);
    DistinctIdsIgnoreOrder(challenges, order, ChallengeId);
    IdsAscend(order, ChallengeId, ChallengeKey);
    assert forall i | 0 <= i < |order| :: ChallengeId(order[i]) == order[i].id;
    assert forall i | 0 <= i < |order| :: order[i] in order;
  }

  lemma EntriesAreScored(facts: Facts, l: Ledger, factor: DecayFactor)
    requires HasDistinctIds(facts) && l == LedgerOf(facts) && WellFormed(l) && ScoresConsistent(l)
    ensures forall i | 0 <= i < |l.challengeOrder| ::
              ScoredAs(facts, factor, l.challengeOrder[i], ReplayOf(l, factor).challengeScores[i])
  {
    forall i | 0 <= i < |l.challengeOrder|
      ensures ScoredAs(facts, factor, l.challengeOrder[i], ReplayOf(l, factor).challengeScores[i])
    {
      var c := l.challengeOrder[i];
      assert c in l.challengeOrder;
      assert Scorable(l, c.id);
      ChallengeIsScored(facts, l, factor, c);
    }
  }

  // ---- Participations ----

  /** The value listed for a challenge. */
  function ValueIn(scores: seq<ChallengeResult>, challengeId: int): int {
    if scores == [] then 0
    else if scores[|scores| - 1].challengeId == challengeId then scores[|scores| - 1].currentPoints
    else ValueIn(scores[..|scores| - 1], challengeId)
  }

  function ValueOf(scores: seq<ChallengeResult>): SolveSummary -> int {
    (s: SolveSummary) => ValueIn(scores, s.challengeId)
  }

  lemma {:induction false} ValueIsListed(scores: seq<ChallengeResult>, k: nat)
    requires k < |scores| && forall i, j | 0 <= i < j < |scores| :: scores[i].challengeId != scores[j].challengeId
    ensures ValueIn(scores, scores[k].challengeId) == scores[k].currentPoints
  {
    if k < |scores| - 1 {
      ValueIsListed(scores[..|scores| - 1], k);
    }
  }

  /** What adjustments add to a participation. */
  function AdjustedBy(adjustments: seq<Adjustment>, participationId: int): int {
    if adjustments == [] then 0
    else
      var last := adjustments[|adjustments| - 1];
      AdjustedBy(adjustments[..|adjustments| - 1], participationId)
      + if last.participationId == participationId then last.pointsDelta else 0
  }

  lemma AdjustedStep(front: seq<Adjustment>, last: Adjustment, id: int)
    ensures SumBy(Filter(front + [last], AdjustmentOf(id)), Delta)
            == SumBy(Filter(front, AdjustmentOf(id)), Delta) + if last.participationId == id then last.pointsDelta else 0
  {
    FilterAppend(front, last, AdjustmentOf(id));
    if last.participationId == id {
      SumByAppend(Filter(front, AdjustmentOf(id)), last, Delta);
    } else {
      assert Filter(front + [last], AdjustmentOf(id)) == Filter(front, AdjustmentOf(id));
    }
  }

  lemma {:induction false} AdjustedIsSum(adjustments: seq<Adjustment>, id: int)
    ensures AdjustedBy(adjustments, id) == SumBy(Filter(adjustments, AdjustmentOf(id)), Delta)
  {
    if adjustments != [] {
      var front, last := adjustments[..|adjustments| - 1], adjustments[|adjustments| - 1];
      AdjustedIsSum(front, id);
      AdjustedStep(front, last, id);
      assert adjustments == front + [last];
    }
  }

  /** The time is the latest at which one of these was solved or adjusted; without any there is none. */
  ghost predicate IsLatestScoring(facts: Facts, participationId: int, latest: Option<Time>) {
    && (latest.None? <==>
          SolvesFrom(facts, participationId) == {} && forall a | a in facts.adjustments :: a.participationId != participationId)
    && (latest.Some? ==>
          && ((exists s | s in SolvesFrom(facts, participationId) :: s.solvedAt == latest.value)
              || (exists a | a in facts.adjustments :: a.participationId == participationId && a.createdAt == latest.value))
          && (forall s | s in SolvesFrom(facts, participationId) :: s.solvedAt <= latest.value)
          && (forall a | a in facts.adjustments && a.participationId == participationId :: a.createdAt <= latest.value))
  }

  /** The summaries list these solves, by ascending challenge. */
  ghost predicate Summarizes(solves: set<Solve>, summaries: seq<SolveSummary>) {
    && |summaries| == |solves|
    && (forall i, j | 0 <= i < j < |summaries| :: summaries[i].challengeId < summaries[j].challengeId)
    && (forall s | s in solves :: SolveSummary(s.id, s.challengeId, s.solvedAt) in summaries)
  }

  /** The entry is that of the participation: its own data, its solves at their current values, and its adjustments. */
  ghost predicate RecordedAs(facts: Facts, scores: seq<ChallengeResult>, p: Participation, entry: ParticipationResult) {
    && entry.participationId == p.id && entry.teamId == p.teamId && entry.teamName == p.teamName
    && entry.divisionId == p.divisionId && entry.status == p.status
    && entry.officialSolveCount == |SolvesFrom(facts, p.id)|
    && Summarizes(SolvesFrom(facts, p.id), entry.solves)
    && entry.solvePoints == SumBy(entry.solves, ValueOf(scores))
    && entry.adjustmentPoints == AdjustedBy(facts.adjustments, p.id)
    && entry.totalPoints == entry.solvePoints + entry.adjustmentPoints
    && IsLatestScoring(facts, p.id, entry.lastScoringAt)
  }

  lemma EarlierChallenge(a: Solve, b: Solve)
    requires !Less(SolveKey(b), SolveKey(a))
    ensures a.challengeId <= b.challengeId
  {
    LessStep(SolveKey(b), SolveKey(a));
  }

  lemma SolvesAscend(mine: seq<Solve>, sorted: seq<Solve>)
    requires DistinctIds(mine, SolvedChallenge) && sorted == SortBy(mine, SolveKey)
    ensures forall i, j | 0 <= i < j < |sorted| :: sorted[i].challengeId < sorted[j].challengeId
  {
    SortIsSorted(mine, SolveKey);
    DistinctIdsIgnoreOrder(mine, sorted, SolvedChallenge);
    forall i, j | 0 <= i < j < |sorted|
      ensures sorted[i].challengeId < sorted[j].challengeId
    {
      EarlierChallenge(sorted[i], sorted[j]);
      assert SolvedChallenge(sorted[i]) != SolvedChallenge(sorted[j]);
    }
  }

  lemma SummariesAre(sorted: seq<Solve>, all: set<Solve>)
    requires |sorted| == |all| && forall s :: s in sorted <==> s in all
    requires forall i, j | 0 <= i < j < |sorted| :: sorted[i].challengeId < sorted[j].challengeId
    ensures Summarizes(all, Map(sorted, Summary))
  {
    var summaries := Map(sorted, Summary);
    MapAt(sorted, Summary);
    forall s | s in all
      ensures SolveSummary(s.id, s.challengeId, s.solvedAt) in summaries
    {
      assert s in sorted;
      var i :| 0 <= i < |sorted| && sorted[i] == s;
      assert summaries[i] == Summary(sorted[i]) == SolveSummary(s.id, s.challengeId, s.solvedAt);
      assert summaries[i] in summaries;
    }
  }

  lemma SolvesAreSummarized(mine: seq<Solve>, all: set<Solve>)
    requires DistinctIds(mine, SolvedChallenge) && |mine| == |all| && forall s :: s in mine <==> s in all
    ensures Summarizes(all, Map(SortBy(mine, SolveKey), Summary))
  {
    var sorted := SortBy(mine, SolveKey);
    SolvesAscend(mine, sorted);
    SameMembers(mine, sorted);
    SummariesAre(sorted, all);
  }

  /** The list of scores shows the value of each challenge. */
  lemma ValueIsShown(l: Ledger, factor: DecayFactor, scores: seq<ChallengeResult>, c: Challenge)
    requires Listed(l) && c in l.challengeOrder && scores == Map(l.challengeOrder, ChallengeResultOf(l, factor))
    ensures ValueIn(scores, c.id) == PointsOf(l, factor, c.id)
  {
    ScoredOnce(l, factor, scores);
    var k :| 0 <= k < |l.challengeOrder| && l.challengeOrder[k] == c;
    assert forall i, j | 0 <= i < j < |scores| :: ResultChallenge(scores[i]) != ResultChallenge(scores[j]);
    ValueIsListed(scores, k);
  }

  lemma SolveValueIsShown(l: Ledger, factor: DecayFactor, scores: seq<ChallengeResult>, s: Solve)
    requires Listed(l) && SolvesConsistent(l) && s in l.solves
    requires scores == Map(l.challengeOrder, ChallengeResultOf(l, factor))
    ensures ValueOf(scores)(Summary(s)) == Worth(l, factor)(s)
  {
    var k :| 0 <= k < |l.solves| && l.solves[k] == s;
    assert SolveOk(l, l.solves[k]);
    ValueIsShown(l, factor, scores, l.challenges[s.challengeId]);
  }

  lemma SolvePointsAreValues(l: Ledger, factor: DecayFactor, p: Participation)
    requires Listed(l) && SolvesConsistent(l) && TotalOk(l, factor, p.id)
    ensures var entry := ParticipationResultOf(l, factor)(p);
            entry.solvePoints == SumBy(entry.solves, ValueOf(ReplayOf(l, factor).challengeScores))
  {
    var scores := ReplayOf(l, factor).challengeScores;
    FilterMembers(l.solves, OfParticipation(p.id));
    forall s | s in SolvesBy(l, p.id)
      ensures ValueOf(scores)(Summary(s)) == Worth(l, factor)(s)
    {
      SolveValueIsShown(l, factor, scores, s);
    }
    SummariesSum(SolvesBy(l, p.id), ValueOf(scores), Worth(l, factor));
    SolveSumIsSum(l, factor, SolvesBy(l, p.id));
  }

  lemma AdjustmentPointsAreDeltas(facts: Facts, l: Ledger, factor: DecayFactor, p: Participation)
    requires HasDistinctIds(facts) && l == LedgerOf(facts) && TotalOk(l, factor, p.id)
    ensures ParticipationResultOf(l, factor)(p).adjustmentPoints == AdjustedBy(facts.adjustments, p.id)
  {
    AdjustedIsSum(facts.adjustments, p.id);
    FilterIgnoresOrder(l.adjustments, facts.adjustments, AdjustmentOf(p.id));
    SumByIgnoresOrder(AdjustmentsOf(l, p.id), Filter(facts.adjustments, AdjustmentOf(p.id)), Delta);
    AdjustmentSumIsSum(AdjustmentsOf(l, p.id));
  }

  lemma LatestIsOfFacts(facts: Facts, l: Ledger, factor: DecayFactor, p: Participation)
    requires HasDistinctIds(facts) && l == LedgerOf(facts)
    ensures IsLatestScoring(facts, p.id, ParticipationResultOf(l, factor)(p).lastScoringAt)
  {
    LastScoringIsLatest(l, factor, p);
    ParticipationSolves(facts, p.id);
    AdjustmentsAreKept(facts, l, p.id);
  }

  lemma AdjustmentsAreKept(facts: Facts, l: Ledger, id: int)
    requires HasDistinctIds(facts) && l == LedgerOf(facts)
    ensures forall a :: a in AdjustmentsOf(l, id) <==> a in facts.adjustments && a.participationId == id
  {
    SameMembers(l.adjustments, facts.adjustments);
    FilterMembers(l.adjustments, AdjustmentOf(id));
  }

  lemma ParticipationIsRecorded(facts: Facts, l: Ledger, factor: DecayFactor, p: Participation)
    requires HasDistinctIds(facts) && l == LedgerOf(facts) && Listed(l) && SolvesConsistent(l) && TotalOk(l, factor, p.id)
    ensures RecordedAs(facts, ReplayOf(l, factor).challengeScores, p, ParticipationResultOf(l, factor)(p))
  {
    ParticipationSolves(facts, p.id);
    SolvesOfOneAreDistinct(l.solves, p.id);
    SolvesAreSummarized(SolvesBy(l, p.id), SolvesFrom(facts, p.id));
    SolvePointsAreValues(l, factor, p);
    AdjustmentPointsAreDeltas(facts, l, factor, p);
    LatestIsOfFacts(facts, l, factor, p);
  }

  /** The list holds an entry for each participation of the facts, by ascending id. */
  ghost predicate RecordsParticipations(facts: Facts, scores: seq<ChallengeResult>, entries: seq<ParticipationResult>) {
    && |entries| == |facts.participations|
    && (forall i, j | 0 <= i < j < |entries| :: entries[i].participationId < entries[j].participationId)
    && (forall i | 0 <= i < |entries| :: IsRecorded(facts, scores, entries[i]))
  }

  ghost predicate IsRecorded(facts: Facts, scores: seq<ChallengeResult>, entry: ParticipationResult) {
    exists p | p in facts.participations :: RecordedAs(facts, scores, p, entry)
  }

  lemma OrderRecords(facts: Facts, scores: seq<ChallengeResult>, order: seq<Participation>, entries: seq<ParticipationResult>)
    requires |entries| == |order| == |facts.participations|
    requires forall i, j | 0 <= i < j < |order| :: order[i].id < order[j].id
    requires forall i | 0 <= i < |order| :: order[i] in facts.participations && RecordedAs(facts, scores, order[i], entries[i])
    ensures RecordsParticipations(facts, scores, entries)
  {
    forall i, j | 0 <= i < j < |entries|
      ensures entries[i].participationId < entries[j].participationId
    {
      assert RecordedAs(facts, scores, order[i], entries[i]) && RecordedAs(facts, scores, order[j], entries[j]);
    }
    forall i | 0 <= i < |entries|
      ensures IsRecorded(facts, scores, entries[i])
    {
      assert order[i] in facts.participations && RecordedAs(facts, scores, order[i], entries[i]);
    }
  }

  lemma ParticipationsAscend(participations: seq<Participation>, order: seq<Participation>)
    requires DistinctIds(participations, ParticipationId) && order == SortBy(participations, ParticipationKey)
    ensures forall i, j | 0 <= i < j < |order| :: order[i].id < order[j].id
    ensures forall i | 0 <= i < |order| :: order[i] in participations
  {
    SortIsSorted(participations, ParticipationKey);
    SameMembers(participations, order);
    DistinctIdsIgnoreOrder(participations, order, ParticipationId);
    IdsAscend(order, ParticipationId, ParticipationKey);
    assert forall i | 0 <= i < |order| :: ParticipationId(order[i]) == order[i].id;
    assert forall i | 0 <= i < |order| :: order[i] in order;
  }

  lemma ParticipationEntries(facts: Facts, l: Ledger, factor: DecayFactor)
    requires HasDistinctIds(facts) && l == LedgerOf(facts) && Listed(l) && SolvesConsistent(l) && TotalsOk(l, factor)
    ensures forall i | 0 <= i < |l.participationOrder| ::
              RecordedAs(facts, ReplayOf(l, factor).challengeScores, l.participationOrder[i],
                         ReplayOf(l, factor).participationScores[i])
  {
    forall i | 0 <= i < |l.participationOrder|
      ensures RecordedAs(facts, ReplayOf(l, factor).challengeScores, l.participationOrder[i],
                         ReplayOf(l, factor).participationScores[i])
    {
      var p := l.participationOrder[i];
      assert p in l.participationOrder;
      assert TotalOk(l, factor, p.id);
      ParticipationIsRecorded(facts, l, factor, p);
    }
  }

  /** A successful replay records every participation. */
  lemma ParticipationsAreRecorded(facts: Facts, factor: DecayFactor)
    requires Replayable(facts, factor)
    ensures var replay := ReplayOf(LedgerOf(facts), factor);
            RecordsParticipations(facts, replay.challengeScores, replay.participationScores)
  {
    var l := LedgerOf(facts);
    LedgerIsListed(facts);
    ParticipationsAscend(facts.participations, l.participationOrder);
    ParticipationEntries(facts, l, factor);
    OrderRecords(facts, ReplayOf(l, factor).challengeScores, l.participationOrder, ReplayOf(l, factor).participationScores);
  }

  // ---- Ranking ----

  /** Accepted, and of the division when there is one. */
  predicate InScope(scope: Scope, entry: ParticipationResult) {
    entry.status == Accepted && (scope == Overall || (scope.Division? && entry.divisionId == Some(scope.divisionId)))
  }

  /** More points, or as many and an earlier last score, never being last, or by team and participation. */
  predicate RanksBefore(a: ParticipationResult, b: ParticipationResult) {
    || a.totalPoints > b.totalPoints
    || (a.totalPoints == b.totalPoints
        && (|| (a.lastScoringAt.Some? && b.lastScoringAt.None?)
            || (a.lastScoringAt.Some? && b.lastScoringAt.Some? && a.lastScoringAt.value < b.lastScoringAt.value)
            || (a.lastScoringAt == b.lastScoringAt
                && (a.teamId < b.teamId || (a.teamId == b.teamId && a.participationId < b.participationId)))))
  }

  /** The list holds each entry of the scope once, the one that ranks first at the front. */
  ghost predicate ListsRanked(entries: seq<ParticipationResult>, scope: Scope, ranked: seq<ParticipationResult>) {
    && |ranked| == |set e | e in entries && InScope(scope, e)|
    && (forall i | 0 <= i < |ranked| :: ranked[i] in entries && InScope(scope, ranked[i]))
    && (forall i, j | 0 <= i < j < |ranked| :: RanksBefore(ranked[i], ranked[j]))
  }

  lemma RankedInOrder(entries: seq<ParticipationResult>, scope: Scope)
    requires DistinctIds(entries, ParticipationOf)
    ensures var ranked := RankedScores(entries, scope);
            forall i, j | 0 <= i < j < |ranked| :: RanksBefore(ranked[i], ranked[j])
  {
    var ranked := RankedScores(entries, scope);
    SortIsSorted(Filter(entries, Eligible(scope)), RankKey);
    RankedHasDistinctKeys(entries, scope);
    forall i, j | 0 <= i < j < |ranked|
      ensures RanksBefore(ranked[i], ranked[j])
    {
      LessTotal(RankKey(ranked[i]), RankKey(ranked[j]));
      RankingOrder(ranked[i], ranked[j]);
    }
  }

  lemma RankedAreEntries(entries: seq<ParticipationResult>, scope: Scope, ranked: seq<ParticipationResult>)
    requires ranked == RankedScores(entries, scope)
    ensures forall e :: e in ranked <==> e in entries && InScope(scope, e)
    ensures (set e | e in ranked) == (set e | e in entries && InScope(scope, e))
  {
    RankedMembers(entries, scope);
    forall e
      ensures e in ranked <==> e in entries && InScope(scope, e)
    {
    }
  }

  lemma RankedAreListed(entries: seq<ParticipationResult>, scope: Scope)
    requires DistinctIds(entries, ParticipationOf)
    ensures ListsRanked(entries, scope, RankedScores(entries, scope))
  {
    var ranked := RankedScores(entries, scope);
    RankedInOrder(entries, scope);
    RankedHasDistinctKeys(entries, scope);
    DistinctSize(ranked, ParticipationOf);
    RankedAreEntries(entries, scope, ranked);
    forall i | 0 <= i < |ranked|
      ensures ranked[i] in entries && InScope(scope, ranked[i])
    {
      assert ranked[i] in ranked;
    }
  }

  /** A numbered line for each ranked entry, with its totals. */
  ghost predicate Numbers(ranked: seq<ParticipationResult>, ranking: seq<RankSummary>) {
    && |ranking| == |ranked|
    && forall i | 0 <= i < |ranked| ::
         var e := ranked[i];
         ranking[i] == RankSummary(i + 1, e.participationId, e.teamId, e.totalPoints, e.lastScoringAt)
  }

  lemma RankingIsNumbered(entries: seq<ParticipationResult>, ranked: seq<ParticipationResult>)
    requires ranked == SortBy(Filter(entries, IsAccepted), RankKey)
    ensures Numbers(ranked, RankingOf(entries))
  {
  }

  /** The ranking numbers the accepted participations from the best on. */
  lemma RankingListsAccepted(facts: Facts, factor: DecayFactor)
    requires Replayable(facts, factor)
    ensures var replay := ReplayOf(LedgerOf(facts), factor);
            exists ranked :: ListsRanked(replay.participationScores, Overall, ranked) && Numbers(ranked, replay.rankingSummary)
  {
    var l := LedgerOf(facts);
    var entries := ReplayOf(l, factor).participationScores;
    LedgerIsListed(facts);
    ScoresAreDistinct(l, factor);
    RankedAreListed(entries, Overall);
    FilterAgrees(entries, Eligible(Overall), IsAccepted);
    RankingIsNumbered(entries, RankedScores(entries, Overall));
  }

  // ---- Boards ----

  /** A column for each entry, with the participation that solved first. */
  ghost predicate ShowsColumns(scores: seq<ChallengeResult>, columns: seq<Column>) {
    && |columns| == |scores|
    && forall i | 0 <= i < |columns| ::
         columns[i] == Column(scores[i].challengeId, scores[i].officialSolveCount, scores[i].currentPoints,
                              if scores[i].firstSolve == None then None else Some(scores[i].firstSolve.value.participationId))
  }

  /** A numbered row for each ranked entry, with all that the entry holds. */
  ghost predicate ShowsRows(ranked: seq<ParticipationResult>, rows: seq<Row>) {
    && |rows| == |ranked|
    && forall i | 0 <= i < |rows| ::
         var e := ranked[i];
         rows[i] == Row(i + 1, e.participationId, e.teamId, e.teamName, e.divisionId, e.totalPoints, e.solvePoints,
                        e.adjustmentPoints, e.officialSolveCount, e.lastScoringAt, e.solves)
  }

  lemma ColumnsKeepOrder(scores: seq<ChallengeResult>)
    requires forall i, j | 0 <= i < j < |scores| :: scores[i].challengeId < scores[j].challengeId
    ensures ShowsColumns(scores, Map(SortBy(scores, ColumnKey), ColumnOf))
  {
    forall i, j | 0 <= i < j < |scores|
      ensures !Less(ColumnKey(scores[j]), ColumnKey(scores[i]))
    {
      LessStep(ColumnKey(scores[j]), ColumnKey(scores[i]));
    }
    SortedStays(scores, ColumnKey);
    var columns := Map(scores, ColumnOf);
    forall i | 0 <= i < |columns|
      ensures columns[i] == Column(scores[i].challengeId, scores[i].officialSolveCount, scores[i].currentPoints,
                                   if scores[i].firstSolve == None then None else Some(scores[i].firstSolve.value.participationId))
    {
      assert columns[i] == ColumnOf(scores[i]);
    }
  }

  lemma RowsAreShown(ranked: seq<ParticipationResult>)
    ensures ShowsRows(ranked, RankRows(ranked))
  {
  }

  /** A board shows every challenge of its replay and ranks every accepted participation of its scope. */
  lemma BoardShowsReplay(facts: Facts, factor: DecayFactor, scope: Scope)
    requires Replayable(facts, factor)
    ensures var replay := ReplayOf(LedgerOf(facts), factor);
            var board := BoardOf(replay, scope);
            && board.scope == scope
            && board.scopeKey == (match scope case Overall => "overall" case Division(divisionId) => divisionId)
            && ShowsColumns(replay.challengeScores, board.challenges)
            && exists ranked :: ListsRanked(replay.participationScores, scope, ranked) && ShowsRows(ranked, board.rows)
  {
    var l := LedgerOf(facts);
    var replay := ReplayOf(l, factor);
    LedgerIsListed(facts);
    ScoresAreDistinct(l, factor);
    ChallengesAreScored(facts, factor);
    ColumnsKeepOrder(replay.challengeScores);
    RankedAreListed(replay.participationScores, scope);
    RowsAreShown(RankedScores(replay.participationScores, scope));
  }

  /** White space by code points: without U+0085, with the byte order mark. */
  lemma SpacesMean(c: char)
    ensures IsSpace(c) <==>
              || 9 <= c as int <= 13 || 8192 <= c as int <= 8202
              || c as int in {32, 160, 5760, 8232, 8233, 8239, 8287, 12288, 65279}
  {
  }

  /** The entry lists known challenges, each once, and as many as it counts. */
  ghost predicate ListsItsSolves(scores: seq<ChallengeResult>, entry: ParticipationResult) {
    && |entry.solves| == entry.officialSolveCount
    && (forall i, j | 0 <= i < j < |entry.solves| :: entry.solves[i].challengeId != entry.solves[j].challengeId)
    && forall i | 0 <= i < |entry.solves| :: IsListed(scores, entry.solves[i].challengeId)
  }

  ghost predicate IsListed(scores: seq<ChallengeResult>, challengeId: int) {
    exists c | c in scores :: c.challengeId == challengeId
  }

  /** The builder takes any replay, successful or not, in which no participation comes twice and the entries of the scope
      list their solves, for a scope that is more than spaces. */
  lemma BuildableMeans(replay: Replay, scope: Scope)
    ensures Buildable(replay, scope) <==>
              && (scope.Division? ==> exists i | 0 <= i < |scope.divisionId| :: !IsSpace(scope.divisionId[i]))
              && (forall i, j | 0 <= i < j < |replay.participationScores| ::
                    replay.participationScores[i].participationId != replay.participationScores[j].participationId)
              && (forall e | e in replay.participationScores && InScope(scope, e) :: ListsItsSolves(replay.challengeScores, e))
  {
    var entries := replay.participationScores;
    FilterMembers(entries, Eligible(scope));
    assert forall i | 0 <= i < |entries| :: ParticipationOf(entries[i]) == entries[i].participationId;
    forall e
      ensures SummariesOk(e, IdSet(replay.challengeScores, ResultChallenge)) <==> ListsItsSolves(replay.challengeScores, e)
    {
      SummariesMean(replay.challengeScores, e);
    }
  }

  lemma SummariesMean(scores: seq<ChallengeResult>, entry: ParticipationResult)
    ensures SummariesOk(entry, IdSet(scores, ResultChallenge)) <==> ListsItsSolves(scores, entry)
  {
    var known := IdSet(scores, ResultChallenge);
    forall i | 0 <= i < |entry.solves|
      ensures SummaryChallenge(entry.solves[i]) == entry.solves[i].challengeId
      ensures entry.solves[i].challengeId in known <==> IsListed(scores, entry.solves[i].challengeId)
    {
      ListedIds(scores, entry.solves[i].challengeId);
    }
  }

  lemma ListedIds(scores: seq<ChallengeResult>, id: int)
    ensures id in IdSet(scores, ResultChallenge) <==> IsListed(scores, id)
  {
    if id in IdSet(scores, ResultChallenge) {
      var c :| c in scores && ResultChallenge(c) == id;
      assert c.challengeId == id;
    }
    if IsListed(scores, id) {
      var c :| c in scores && c.challengeId == id;
      assert ResultChallenge(c) == id;
    }
  }
}
