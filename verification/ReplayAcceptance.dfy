/** Which facts a replay accepts, told of the lists as they are given. */
module ReplayAcceptance {
  import opened Wrappers
  import opened Ordering
  import opened Scoring
  import opened ScoringReplay
  import opened ScoringOrder
  import opened ReplayService
  import opened ScoringMeaning
  import opened ScoringConservation
  import opened ReplayMeaning

  // ---- Facts on their own ----

  ghost predicate KnownChallenge(facts: Facts, id: int) {
    exists c | c in facts.challenges :: c.id == id
  }

  ghost predicate KnownParticipation(facts: Facts, id: int) {
    exists p | p in facts.participations :: p.id == id
  }

  /** The submission that an official solve is made of. */
  predicate Explains(sub: Submission, s: Solve) {
    && sub.id == s.submissionId && sub.mode == Official && sub.result == Correct
    && sub.challengeId == s.challengeId && sub.participationId == s.participationId && sub.submittedAt == s.solvedAt
  }

  /** Each official solve is known, explained by a submission and numbered. */
  ghost predicate SolveIsRight(facts: Facts, s: Solve) {
    && KnownChallenge(facts, s.challengeId) && KnownParticipation(facts, s.participationId)
    && (exists sub | sub in facts.submissions :: Explains(sub, s))
    && 1 <= s.order <= 9007199254740991
  }

  ghost predicate SolvesAreRight(facts: Facts) {
    && (forall s | s in facts.solves && s.mode == Official :: SolveIsRight(facts, s))
    && (forall s, t | s in facts.solves && t in facts.solves && s.mode == Official && t.mode == Official && s != t ::
          s.submissionId != t.submissionId && !(s.participationId == t.participationId && s.challengeId == t.challengeId))
  }

  /** Each submission is known, and a correct official one has an official solve. */
  ghost predicate SubmissionIsRight(facts: Facts, sub: Submission) {
    && KnownChallenge(facts, sub.challengeId) && KnownParticipation(facts, sub.participationId)
    && (sub.mode == Official && sub.result == Correct ==>
          exists s | s in facts.solves :: s.mode == Official && s.submissionId == sub.id)
  }

  ghost predicate SubmissionsAreRight(facts: Facts) {
    forall sub | sub in facts.submissions :: SubmissionIsRight(facts, sub)
  }

  ghost predicate HasOrder(solves: set<Solve>, n: int) {
    exists s | s in solves :: s.order == n
  }

  ghost predicate Numbered(solves: set<Solve>) {
    forall n | 1 <= n <= |solves| :: HasOrder(solves, n)
  }

  /** The official solves of each challenge are numbered from 1 on without a gap, and its policy is within bounds. */
  ghost predicate ChallengeIsRight(facts: Facts, c: Challenge) {
    ValidPolicy(c.policy) && Numbered(SolvesAt(facts, c.id))
  }

  ghost predicate ChallengesAreRight(facts: Facts) {
    forall c | c in facts.challenges :: ChallengeIsRight(facts, c)
  }

  ghost predicate AdjustmentIsRight(facts: Facts, a: Adjustment) {
    KnownParticipation(facts, a.participationId) && a.pointsDelta != 0
    && -9007199254740991 <= a.pointsDelta <= 9007199254740991
  }

  ghost predicate AdjustmentsAreRight(facts: Facts) {
    forall a | a in facts.adjustments :: AdjustmentIsRight(facts, a)
  }

  lemma KnownIsMapped(facts: Facts, l: Ledger)
    requires HasDistinctIds(facts) && l == LedgerOf(facts)
    ensures forall id :: id in l.challenges <==> KnownChallenge(facts, id)
    ensures forall id :: id in l.participations <==> KnownParticipation(facts, id)
  {
    LedgerIsWellFormed(facts);
    SameMembers(facts.challenges, l.challengeOrder);
    SameMembers(facts.participations, l.participationOrder);
  }

  lemma SolveOkMeans(facts: Facts, l: Ledger, s: Solve)
    requires HasDistinctIds(facts) && l == LedgerOf(facts)
    ensures SolveOk(l, s) <==> SolveIsRight(facts, s)
  {
    KnownIsMapped(facts, l);
    LedgerIsWellFormed(facts);
    if s.submissionId in l.submissions {
      var sub := l.submissions[s.submissionId];
      assert sub in facts.submissions;
      assert MatchesSubmission(sub, s) <==> Explains(sub, s);
    }
  }

  lemma RepeatsMean(solves: seq<Solve>)
    requires DistinctIds(solves, SolveId)
    ensures NoRepeats(solves) <==>
              forall s, t | s in solves && t in solves && s != t ::
                s.submissionId != t.submissionId && !(s.participationId == t.participationId && s.challengeId == t.challengeId)
  {
    forall i, j | 0 <= i < j < |solves|
      ensures solves[i] in solves && solves[j] in solves && solves[i] != solves[j]
    {
      assert SolveId(solves[i]) != SolveId(solves[j]);
    }
  }

  lemma SolvesMean(facts: Facts, l: Ledger)
    requires HasDistinctIds(facts) && l == LedgerOf(facts)
    ensures SolvesConsistent(l) <==> SolvesAreRight(facts)
  {
    EachSolveMeans(facts, l);
    LedgerHoldsOfficial(facts);
    RepeatsMean(l.solves);
  }

  lemma EachSolveMeans(facts: Facts, l: Ledger)
    requires HasDistinctIds(facts) && l == LedgerOf(facts)
    ensures (forall i | 0 <= i < |l.solves| :: SolveOk(l, l.solves[i])) <==>
              forall s | s in facts.solves && s.mode == Official :: SolveIsRight(facts, s)
  {
    LedgerHoldsOfficial(facts);
    forall s
      ensures SolveOk(l, s) <==> SolveIsRight(facts, s)
    {
      SolveOkMeans(facts, l, s);
    }
    assert forall i | 0 <= i < |l.solves| :: l.solves[i] in l.solves;
  }

  lemma SubmissionMeans(facts: Facts, l: Ledger, sub: Submission)
    requires HasDistinctIds(facts) && l == LedgerOf(facts)
    ensures SubmissionOk(l, sub) <==> SubmissionIsRight(facts, sub)
  {
    KnownIsMapped(facts, l);
    LedgerHoldsOfficial(facts);
  }

  lemma SubmissionsMean(facts: Facts, l: Ledger)
    requires HasDistinctIds(facts) && l == LedgerOf(facts)
    ensures SubmissionsConsistent(l) <==> SubmissionsAreRight(facts)
  {
    LedgerIsWellFormed(facts);
    forall sub
      ensures SubmissionOk(l, sub) <==> SubmissionIsRight(facts, sub)
    {
      SubmissionMeans(facts, l, sub);
    }
    assert forall id | id in l.submissions :: l.submissions[id] in facts.submissions;
  }

  /** Numbers in ascending order that cover 1 to their count are 1, 2, 3 and so on. */
  lemma {:induction false} CoveringIsCounting(a: seq<int>)
    requires forall i, j | 0 <= i < j < |a| :: a[i] <= a[j]
    requires forall n | 1 <= n <= |a| :: n in a
    ensures forall i | 0 <= i < |a| :: a[i] == i + 1
  {
    if a != [] {
      var front, last := a[..|a| - 1], a[|a| - 1];
      assert |a| in a;
      var k :| 0 <= k < |a| && a[k] == |a|;
      forall n | 1 <= n <= |front|
        ensures n in front
      {
        assert n in a;
        var i :| 0 <= i < |a| && a[i] == n;
        assert i < |front|;
        assert front[i] == n;
      }
      CoveringIsCounting(front);
      assert forall i | 0 <= i < |front| :: a[i] == front[i] == i + 1;
    }
  }

  lemma OrdersAscend(l: Ledger, id: int)
    requires Sorted(l.solves, SolveKey)
    ensures var solves := SolvesOf(l, id);
            forall i, j | 0 <= i < j < |solves| :: solves[i].order <= solves[j].order
  {
    var solves := SolvesOf(l, id);
    FilterKeepsSorted(l.solves, OfChallenge(id), SolveKey);
    FilterMembers(l.solves, OfChallenge(id));
    forall i, j | 0 <= i < j < |solves|
      ensures solves[i].order <= solves[j].order
    {
      assert solves[i] in solves && solves[j] in solves;
      LessStep(SolveKey(solves[j]), SolveKey(solves[i]));
      LessStep(SolveKey(solves[j])[1..], SolveKey(solves[i])[1..]);
    }
  }

  lemma ContiguousIsNumbered(solves: seq<Solve>, all: set<Solve>)
    requires |solves| == |all| && Contiguous(solves) && forall s :: s in solves <==> s in all
    ensures Numbered(all)
  {
    forall n | 1 <= n <= |all|
      ensures HasOrder(all, n)
    {
      assert solves[n - 1] in solves && solves[n - 1].order == n;
    }
  }

  lemma NumberedIsContiguous(solves: seq<Solve>, all: set<Solve>)
    requires |solves| == |all| && Numbered(all) && forall s :: s in solves <==> s in all
    requires forall i, j | 0 <= i < j < |solves| :: solves[i].order <= solves[j].order
    ensures Contiguous(solves)
  {
    var orders := seq(|solves|, i requires 0 <= i < |solves| => solves[i].order);
    forall n | 1 <= n <= |orders|
      ensures n in orders
    {
      assert HasOrder(all, n);
      var s :| s in all && s.order == n;
      assert s in solves;
      var i :| 0 <= i < |solves| && solves[i] == s;
      assert orders[i] == n;
    }
    CoveringIsCounting(orders);
    assert forall i | 0 <= i < |solves| :: solves[i].order == orders[i];
  }

  lemma ContiguousMeans(facts: Facts, l: Ledger, id: int)
    requires HasDistinctIds(facts) && l == LedgerOf(facts)
    ensures Contiguous(SolvesOf(l, id)) <==> Numbered(SolvesAt(facts, id))
  {
    ChallengeSolves(facts, id);
    SortIsSorted(Filter(facts.solves, IsOfficial), SolveKey);
    OrdersAscend(l, id);
    if Contiguous(SolvesOf(l, id)) {
      ContiguousIsNumbered(SolvesOf(l, id), SolvesAt(facts, id));
    }
    if Numbered(SolvesAt(facts, id)) {
      NumberedIsContiguous(SolvesOf(l, id), SolvesAt(facts, id));
    }
  }

  lemma ChallengeMeans(facts: Facts, l: Ledger, c: Challenge)
    requires HasDistinctIds(facts) && l == LedgerOf(facts) && c.id in l.challenges && l.challenges[c.id] == c
    ensures Scorable(l, c.id) <==> ChallengeIsRight(facts, c)
  {
    ContiguousMeans(facts, l, c.id);
  }

  lemma ChallengesMean(facts: Facts, l: Ledger)
    requires HasDistinctIds(facts) && l == LedgerOf(facts)
    ensures ScoresConsistent(l) <==> ChallengesAreRight(facts)
  {
    LedgerIsWellFormed(facts);
    SameMembers(facts.challenges, l.challengeOrder);
    forall id | id in l.challenges
      ensures l.challenges[id] in facts.challenges
      ensures Scorable(l, id) <==> ChallengeIsRight(facts, l.challenges[id])
    {
      assert l.challenges[id] in l.challengeOrder;
      ChallengeMeans(facts, l, l.challenges[id]);
    }
    forall c | c in facts.challenges
      ensures c.id in l.challenges && l.challenges[c.id] == c
    {
      assert c in l.challengeOrder;
    }
  }

  lemma AdjustmentsMean(facts: Facts, l: Ledger)
    requires HasDistinctIds(facts) && l == LedgerOf(facts)
    ensures AdjustmentsOk(l) <==> AdjustmentsAreRight(facts)
  {
    KnownIsMapped(facts, l);
    SameMembers(facts.adjustments, l.adjustments);
    forall a
      ensures AdjustmentOk(l, a) <==> AdjustmentIsRight(facts, a)
    {
    }
    assert forall i | 0 <= i < |l.adjustments| :: l.adjustments[i] in l.adjustments;
  }

  // ---- Sums ----

  predicate IsExact(sum: int) {
    -9007199254740991 <= sum <= 9007199254740991
  }

  lemma WorthIsNatural(l: Ledger, factor: DecayFactor, id: int)
    ensures PointsOf(l, factor, id) >= 0
  {
    if id in l.challenges && ValidPolicy(l.challenges[id].policy) {
      ScoreDecays(l.challenges[id].policy, 0, |SolvesOf(l, id)|, factor);
    }
  }

  /** Since no value is negative, only the whole sum of the solves matters. */
  lemma {:induction false} SolveSumMeans(l: Ledger, factor: DecayFactor, solves: seq<Solve>)
    ensures SumBy(solves, Worth(l, factor)) >= 0
    ensures SolveSum(l, factor, solves).Some? <==> IsExact(SumBy(solves, Worth(l, factor)))
  {
    if solves != [] {
      SolveSumMeans(l, factor, solves[..|solves| - 1]);
      SolveSumIsSum(l, factor, solves[..|solves| - 1]);
      WorthIsNatural(l, factor, solves[|solves| - 1].challengeId);
    }
  }

  /** No running sum of these leaves the exact integers. */
  ghost predicate StaysExact(adjustments: seq<Adjustment>) {
    forall k | 0 <= k <= |adjustments| :: IsExact(SumBy(adjustments[..k], Delta))
  }

  lemma {:induction false} AdjustmentSumMeans(adjustments: seq<Adjustment>)
    ensures AdjustmentSum(adjustments).Some? <==> StaysExact(adjustments)
  {
    if adjustments != [] {
      var front := adjustments[..|adjustments| - 1];
      AdjustmentSumMeans(front);
      AdjustmentSumIsSum(front);
      assert forall k | 0 <= k <= |front| :: adjustments[..k] == front[..k];
      assert adjustments[..|adjustments|] == adjustments;
      assert AdjustmentSum(adjustments).Some? <==> StaysExact(front) && IsExact(SumBy(adjustments, Delta));
    }
  }

  /** Adjustments are added up by time, and those of one time by id. */
  lemma AdjustmentsByTime(facts: Facts, id: int)
    requires HasDistinctIds(facts)
    ensures var list := AdjustmentsOf(LedgerOf(facts), id);
            forall i, j | 0 <= i < j < |list| ::
              list[i].createdAt < list[j].createdAt || (list[i].createdAt == list[j].createdAt && list[i].id <= list[j].id)
  {
    var list := AdjustmentsOf(LedgerOf(facts), id);
    SortIsSorted(facts.adjustments, AdjustmentKey);
    FilterKeepsSorted(LedgerOf(facts).adjustments, AdjustmentOf(id), AdjustmentKey);
    forall i, j | 0 <= i < j < |list|
      ensures list[i].createdAt < list[j].createdAt || (list[i].createdAt == list[j].createdAt && list[i].id <= list[j].id)
    {
      LessStep(AdjustmentKey(list[j]), AdjustmentKey(list[i]));
      LessStep(AdjustmentKey(list[j])[1..], AdjustmentKey(list[i])[1..]);
    }
  }

  /** The points of the participation stay exact while solves and, by time, adjustments are added up. */
  ghost predicate TotalIsRight(l: Ledger, factor: DecayFactor, id: int) {
    var solved, adjusted := SumBy(SolvesBy(l, id), Worth(l, factor)), SumBy(AdjustmentsOf(l, id), Delta);
    IsExact(solved) && StaysExact(AdjustmentsOf(l, id)) && IsExact(solved + adjusted)
  }

  lemma TotalMeans(l: Ledger, factor: DecayFactor, id: int)
    ensures TotalOk(l, factor, id) <==> TotalIsRight(l, factor, id)
  {
    SolveSumMeans(l, factor, SolvesBy(l, id));
    SolveSumIsSum(l, factor, SolvesBy(l, id));
    AdjustmentSumMeans(AdjustmentsOf(l, id));
    AdjustmentSumIsSum(AdjustmentsOf(l, id));
  }

  ghost predicate TotalsAreRight(facts: Facts, factor: DecayFactor)
    requires HasDistinctIds(facts)
  {
    forall p | p in facts.participations :: TotalIsRight(LedgerOf(facts), factor, p.id)
  }

  lemma TotalsMean(facts: Facts, l: Ledger, factor: DecayFactor)
    requires HasDistinctIds(facts) && l == LedgerOf(facts)
    ensures TotalsOk(l, factor) <==> TotalsAreRight(facts, factor)
  {
    KnownIsMapped(facts, l);
    forall id
      ensures TotalOk(l, factor, id) <==> TotalIsRight(l, factor, id)
    {
      TotalMeans(l, factor, id);
    }
  }

  // ---- All together ----

  ghost predicate UniqueIds(facts: Facts) {
    && (forall i, j | 0 <= i < j < |facts.challenges| :: facts.challenges[i].id != facts.challenges[j].id)
    && (forall i, j | 0 <= i < j < |facts.participations| :: facts.participations[i].id != facts.participations[j].id)
    && (forall i, j | 0 <= i < j < |facts.submissions| :: facts.submissions[i].id != facts.submissions[j].id)
    && (forall i, j | 0 <= i < j < |facts.solves| :: facts.solves[i].id != facts.solves[j].id)
    && (forall i, j | 0 <= i < j < |facts.adjustments| :: facts.adjustments[i].id != facts.adjustments[j].id)
  }

  /** Every fact is right on its own and beside the others. */
  ghost predicate FactsAreRight(facts: Facts) {
    SolvesAreRight(facts) && SubmissionsAreRight(facts) && ChallengesAreRight(facts) && AdjustmentsAreRight(facts)
  }

  /** No more counting facts than there are exact integers. */
  ghost predicate VersionIsRight(facts: Facts) {
    |set s | s in facts.solves && s.mode == Official| + |facts.adjustments| <= 9007199254740991
  }

  lemma ConsistentMeans(facts: Facts, l: Ledger, factor: DecayFactor)
    requires HasDistinctIds(facts) && l == LedgerOf(facts)
    ensures Consistent(l, factor) <==> FactsAreRight(facts) && TotalsAreRight(facts, factor) && VersionIsRight(facts)
  {
    SolvesMean(facts, l);
    SubmissionsMean(facts, l);
    ChallengesMean(facts, l);
    AdjustmentsMean(facts, l);
    TotalsMean(facts, l, factor);
    OfficialCount(facts, l);
  }

  /** A replay succeeds if and only if no id repeats, every fact is right, and no sum leaves the exact integers. */
  lemma ReplaysExactly(facts: Facts, factor: DecayFactor)
    ensures UniqueIds(facts) <==> HasDistinctIds(facts)
    ensures Replayable(facts, factor) <==>
              UniqueIds(facts) && FactsAreRight(facts) && TotalsAreRight(facts, factor) && VersionIsRight(facts)
  {
    UniqueIdsMean(facts);
    if HasDistinctIds(facts) {
      ConsistentMeans(facts, LedgerOf(facts), factor);
    }
  }

  lemma UniqueIdsMean(facts: Facts)
    ensures UniqueIds(facts) <==> HasDistinctIds(facts)
  {
    assert forall i | 0 <= i < |facts.challenges| :: ChallengeId(facts.challenges[i]) == facts.challenges[i].id;
    assert forall i | 0 <= i < |facts.participations| :: ParticipationId(facts.participations[i]) == facts.participations[i].id;
    assert forall i | 0 <= i < |facts.submissions| :: SubmissionId(facts.submissions[i]) == facts.submissions[i].id;
    assert forall i | 0 <= i < |facts.solves| :: SolveId(facts.solves[i]) == facts.solves[i].id;
    assert forall i | 0 <= i < |facts.adjustments| :: AdjustmentId(facts.adjustments[i]) == facts.adjustments[i].id;
  }

  lemma OfficialCount(facts: Facts, l: Ledger)
    requires HasDistinctIds(facts) && l == LedgerOf(facts)
    ensures |l.solves| == |set s | s in facts.solves && s.mode == Official|
    ensures |l.adjustments| == |facts.adjustments|
  {
    LedgerHoldsOfficial(facts);
    DistinctSize(l.solves, SolveId);
    assert (set s | s in l.solves) == (set s | s in facts.solves && s.mode == Official);
  }
}
