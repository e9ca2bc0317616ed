/** Contest scoring: a fact log in any order, its normal form, and the scores the normal form determines. */
module ScoringReplay {
  import opened Wrappers
  import opened Ordering
  import opened Scoring

  const MAX_SAFE_INTEGER: int := 9007199254740991

  type Time = int

  datatype Mode = Official | Practice
  datatype SubmissionResult = Incorrect | Correct | AlreadySolved | RateLimited | Ineligible
  datatype ParticipationStatus = Pending | Accepted | Rejected | Withdrawn

  datatype Challenge = Challenge(id: int, policy: Policy)
  datatype Participation = Participation(
    id: int, teamId: int, teamName: string, divisionId: Option<string>, status: ParticipationStatus)
  datatype Submission = Submission(
    id: int, challengeId: int, participationId: int, mode: Mode, result: SubmissionResult, submittedAt: Time)
  datatype Solve = Solve(
    id: int, submissionId: int, challengeId: int, participationId: int, mode: Mode, order: int, solvedAt: Time)
  datatype Adjustment = Adjustment(id: int, participationId: int, pointsDelta: int, createdAt: Time)

  datatype Facts = Facts(
    challenges: seq<Challenge>, participations: seq<Participation>, submissions: seq<Submission>,
    solves: seq<Solve>, adjustments: seq<Adjustment>)

  datatype FirstSolve = FirstSolve(solveId: int, submissionId: int, participationId: int, solvedAt: Time)
  datatype ChallengeResult = ChallengeResult(
    challengeId: int, officialSolveCount: nat, currentPoints: int, firstSolve: Option<FirstSolve>)
  datatype SolveSummary = SolveSummary(solveId: int, challengeId: int, solvedAt: Time)
  datatype ParticipationResult = ParticipationResult(
    participationId: int, teamId: int, teamName: string, divisionId: Option<string>, status: ParticipationStatus,
    solves: seq<SolveSummary>, officialSolveCount: nat, solvePoints: int, adjustmentPoints: int, totalPoints: int,
    lastScoringAt: Option<Time>)
  datatype RankSummary = RankSummary(
    rank: nat, participationId: int, teamId: int, totalPoints: int, lastScoringAt: Option<Time>)
  datatype Replay = Replay(
    factVersion: int, challengeScores: seq<ChallengeResult>, participationScores: seq<ParticipationResult>,
    rankingSummary: seq<RankSummary>)

  // ---- Keys of the comparators ----

  function ChallengeKey(c: Challenge): Key { [c.id] }
  function ParticipationKey(p: Participation): Key { [p.id] }
  function SolveKey(s: Solve): Key { [s.challengeId, s.order, s.solvedAt, s.id] }
  function AdjustmentKey(a: Adjustment): Key { [a.createdAt, a.id] }
  function ResultKey(r: ParticipationResult): Key { [r.participationId] }

  /** More points first, then the earlier last scoring time with "never" last, then team and participation id. */
  function RankKey(r: ParticipationResult): Key {
    [-r.totalPoints, if r.lastScoringAt.None? then 1 else 0, if r.lastScoringAt.None? then 0 else r.lastScoringAt.value,
     r.teamId, r.participationId]
  }

  function ChallengeId(c: Challenge): int { c.id }
  function ParticipationId(p: Participation): int { p.id }
  function SubmissionId(s: Submission): int { s.id }
  function SolveId(s: Solve): int { s.id }
  function AdjustmentId(a: Adjustment): int { a.id }

  predicate IsOfficial(s: Solve) { s.mode.Official? }
  function OfChallenge(id: int): Solve -> bool { (s: Solve) => s.challengeId == id }
  function OfParticipation(id: int): Solve -> bool { (s: Solve) => s.participationId == id }
  function AdjustmentOf(id: int): Adjustment -> bool { (a: Adjustment) => a.participationId == id }
  predicate IsAccepted(r: ParticipationResult) { r.status.Accepted? }

  // ---- Normal form ----

  ghost predicate DistinctIds<T>(facts: seq<T>, id: T -> int) {
    forall i, j | 0 <= i < j < |facts| :: id(facts[i]) != id(facts[j])
  }

  lemma DistinctIdsTellApart<T>(facts: seq<T>, id: T -> int)
    requires DistinctIds(facts, id)
    ensures forall x, y | x in facts && y in facts && id(x) == id(y) :: x == y
  {
  }

  /** `new Map` filled with every fact under its id. */
  ghost function IdMap<T>(facts: seq<T>, id: T -> int): map<int, T>
    requires DistinctIds(facts, id)
  {
    DistinctIdsTellApart(facts, id);
    map x | x in facts :: id(x) := x
  }

  /** The facts with everything the replay cannot see taken away. */
  datatype Ledger = Ledger(
    challenges: map<int, Challenge>, challengeOrder: seq<Challenge>,
    participations: map<int, Participation>, participationOrder: seq<Participation>,
    submissions: map<int, Submission>,
    solves: seq<Solve>, adjustments: seq<Adjustment>)

  ghost predicate HasDistinctIds(facts: Facts) {
    && DistinctIds(facts.challenges, ChallengeId)
    && DistinctIds(facts.participations, ParticipationId)
    && DistinctIds(facts.submissions, SubmissionId)
    && DistinctIds(facts.solves, SolveId)
    && DistinctIds(facts.adjustments, AdjustmentId)
  }

  ghost function LedgerOf(facts: Facts): Ledger
    requires HasDistinctIds(facts)
  {
    Ledger(
      IdMap(facts.challenges, ChallengeId), SortBy(facts.challenges, ChallengeKey),
      IdMap(facts.participations, ParticipationId), SortBy(facts.participations, ParticipationKey),
      IdMap(facts.submissions, SubmissionId),
      SortBy(Filter(facts.solves, IsOfficial), SolveKey),
      SortBy(facts.adjustments, AdjustmentKey))
  }

  // ---- Validation ----

  predicate Safe(n: int) {
    -MAX_SAFE_INTEGER <= n <= MAX_SAFE_INTEGER
  }

  predicate CorrectOfficial(sub: Submission) {
    sub.mode.Official? && sub.result.Correct?
  }

  predicate MatchesSubmission(sub: Submission, s: Solve) {
    CorrectOfficial(sub) && sub.challengeId == s.challengeId && sub.participationId == s.participationId
    && sub.submittedAt == s.solvedAt
  }

  predicate SolveOk(l: Ledger, s: Solve) {
    && s.challengeId in l.challenges
    && s.participationId in l.participations
    && s.submissionId in l.submissions && MatchesSubmission(l.submissions[s.submissionId], s)
    && 0 < s.order <= MAX_SAFE_INTEGER
  }

  /** No participation solves a challenge twice, and no submission yields two solves. */
  predicate NoRepeats(solves: seq<Solve>) {
    forall i, j | 0 <= i < j < |solves| ::
      && !(solves[i].participationId == solves[j].participationId && solves[i].challengeId == solves[j].challengeId)
      && solves[i].submissionId != solves[j].submissionId
  }

  predicate SolvesConsistent(l: Ledger) {
    (forall i | 0 <= i < |l.solves| :: SolveOk(l, l.solves[i])) && NoRepeats(l.solves)
  }

  function SolvedSubmissions(solves: seq<Solve>): set<int> {
    set s | s in solves :: s.submissionId
  }

  predicate SubmissionOk(l: Ledger, sub: Submission) {
    && sub.challengeId in l.challenges
    && sub.participationId in l.participations
    && (CorrectOfficial(sub) ==> sub.id in SolvedSubmissions(l.solves))
  }

  predicate SubmissionsConsistent(l: Ledger) {
    forall id | id in l.submissions :: SubmissionOk(l, l.submissions[id])
  }

  // ---- Challenge values ----

  function SolvesOf(l: Ledger, challengeId: int): seq<Solve> {
    Filter(l.solves, OfChallenge(challengeId))
  }

  predicate Contiguous(solves: seq<Solve>) {
    forall i | 0 <= i < |solves| :: solves[i].order == i + 1
  }

  predicate Scorable(l: Ledger, id: int)
    requires id in l.challenges
  {
    Contiguous(SolvesOf(l, id)) && ValidPolicy(l.challenges[id].policy)
  }

  predicate ScoresConsistent(l: Ledger) {
    forall id | id in l.challenges :: Scorable(l, id)
  }

  /** The current value of a challenge, 0 for one that cannot be scored. */
  function PointsOf(l: Ledger, factor: DecayFactor, id: int): int {
    if id in l.challenges && ValidPolicy(l.challenges[id].policy)
    then ChallengeScore(l.challenges[id].policy, |SolvesOf(l, id)|, factor).value else 0
  }

  function FirstOf(solves: seq<Solve>): Option<FirstSolve> {
    if solves == [] then None
    else Some(FirstSolve(solves[0].id, solves[0].submissionId, solves[0].participationId, solves[0].solvedAt))
  }

  function ChallengeResultOf(l: Ledger, factor: DecayFactor): Challenge -> ChallengeResult {
    (c: Challenge) =>
      ChallengeResult(c.id, |SolvesOf(l, c.id)|, PointsOf(l, factor, c.id), FirstOf(SolvesOf(l, c.id)))
  }

  // ---- Participation scores ----

  function SafeAdd(a: int, b: int): Option<int> {
    if Safe(a + b) then Some(a + b) else None
  }

  function AddTo(sum: Option<int>, n: int): Option<int> {
    if sum.None? then None else SafeAdd(sum.value, n)
  }

  /** Adding up the current values of a list of solves, failing as soon as a sum is not exact. */
  function SolveSum(l: Ledger, factor: DecayFactor, solves: seq<Solve>): Option<int> {
    if solves == [] then Some(0)
    else AddTo(SolveSum(l, factor, solves[..|solves| - 1]), PointsOf(l, factor, solves[|solves| - 1].challengeId))
  }

  function AdjustmentSum(adjustments: seq<Adjustment>): Option<int> {
    if adjustments == [] then Some(0)
    else AddTo(AdjustmentSum(adjustments[..|adjustments| - 1]), adjustments[|adjustments| - 1].pointsDelta)
  }

  function Later(current: Option<Time>, candidate: Time): Option<Time> {
    if current.None? || candidate > current.value then Some(candidate) else current
  }

  function LastSolve(solves: seq<Solve>): Option<Time> {
    if solves == [] then None else Later(LastSolve(solves[..|solves| - 1]), solves[|solves| - 1].solvedAt)
  }

  function LastScoring(start: Option<Time>, adjustments: seq<Adjustment>): Option<Time> {
    if adjustments == [] then start
    else Later(LastScoring(start, adjustments[..|adjustments| - 1]), adjustments[|adjustments| - 1].createdAt)
  }

  function SolvesBy(l: Ledger, participationId: int): seq<Solve> {
    Filter(l.solves, OfParticipation(participationId))
  }

  function AdjustmentsOf(l: Ledger, participationId: int): seq<Adjustment> {
    Filter(l.adjustments, AdjustmentOf(participationId))
  }

  function Summary(s: Solve): SolveSummary {
    SolveSummary(s.id, s.challengeId, s.solvedAt)
  }

  predicate AdjustmentOk(l: Ledger, a: Adjustment) {
    a.participationId in l.participations && Safe(a.pointsDelta) && a.pointsDelta != 0
  }

  predicate TotalOk(l: Ledger, factor: DecayFactor, id: int) {
    && SolveSum(l, factor, SolvesBy(l, id)).Some?
    && AdjustmentSum(AdjustmentsOf(l, id)).Some?
    && Safe(SolveSum(l, factor, SolvesBy(l, id)).value + AdjustmentSum(AdjustmentsOf(l, id)).value)
  }

  predicate AdjustmentsOk(l: Ledger) {
    forall i | 0 <= i < |l.adjustments| :: AdjustmentOk(l, l.adjustments[i])
  }

  predicate TotalsOk(l: Ledger, factor: DecayFactor) {
    forall id | id in l.participations :: TotalOk(l, factor, id)
  }

  predicate TotalsConsistent(l: Ledger, factor: DecayFactor) {
    && AdjustmentsOk(l)
    && TotalsOk(l, factor)
    && Safe(|l.solves| + |l.adjustments|)
  }

  function OrZero(sum: Option<int>): int {
    if sum.Some? then sum.value else 0
  }

  function ParticipationResultOf(l: Ledger, factor: DecayFactor): Participation -> ParticipationResult {
    (p: Participation) =>
      var mine := SolvesBy(l, p.id);
      var solvePoints := OrZero(SolveSum(l, factor, mine));
      var adjustmentPoints := OrZero(AdjustmentSum(AdjustmentsOf(l, p.id)));
      ParticipationResult(
        p.id, p.teamId, p.teamName, p.divisionId, p.status,
        Map(SortBy(mine, SolveKey), Summary), |mine|, solvePoints, adjustmentPoints, solvePoints + adjustmentPoints,
        LastScoring(LastSolve(mine), AdjustmentsOf(l, p.id)))
  }

  function RankingOf(scores: seq<ParticipationResult>): seq<RankSummary> {
    var ranked := SortBy(Filter(scores, IsAccepted), RankKey);
    seq(|ranked|, i requires 0 <= i < |ranked| =>
      RankSummary(i + 1, ranked[i].participationId, ranked[i].teamId, ranked[i].totalPoints, ranked[i].lastScoringAt))
  }

  // ---- The specification of the replay ----

  ghost predicate Replayable(facts: Facts, factor: DecayFactor) {
    HasDistinctIds(facts) && Consistent(LedgerOf(facts), factor)
  }

  predicate Consistent(l: Ledger, factor: DecayFactor) {
    SolvesConsistent(l) && SubmissionsConsistent(l) && ScoresConsistent(l) && TotalsConsistent(l, factor)
  }

  function ReplayOf(l: Ledger, factor: DecayFactor): Replay {
    var scores := Map(l.participationOrder, ParticipationResultOf(l, factor));
    Replay(|l.solves| + |l.adjustments|, Map(l.challengeOrder, ChallengeResultOf(l, factor)), scores, RankingOf(scores))
  }
}
