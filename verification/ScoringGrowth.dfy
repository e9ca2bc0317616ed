/** What one more official solve does to a replay. */
module ScoringGrowth {
  import opened Wrappers
  import opened Ordering
  import opened Scoring
  import opened ScoringReplay
  import opened ReplayService
  import opened ScoringConservation

  function Extended(facts: Facts, sub: Submission, s: Solve): Facts {
    facts.(submissions := facts.submissions + [sub], solves := facts.solves + [s])
  }

  /** The solve a correct official submission earns: new ids, known challenge and participation, the next order. */
  ghost predicate NextSolve(facts: Facts, sub: Submission, s: Solve)
    requires HasDistinctIds(facts)
  {
    var l := LedgerOf(facts);
    && s.mode.Official? && s.submissionId == sub.id && MatchesSubmission(sub, s)
    && (forall t | t in facts.solves :: t.id != s.id)
    && sub.id !in l.submissions
    && s.challengeId in l.challenges && s.participationId in l.participations
    && (forall t | t in l.solves :: t.challengeId == s.challengeId ==> t.participationId != s.participationId)
    && s.order == |SolvesOf(l, s.challengeId)| + 1
  }

  // ---- Where the new solve goes ----

  lemma {:induction false} InsertSplits<T>(x: T, s: seq<T>, key: T -> Key) returns (left: seq<T>, right: seq<T>)
    requires Sorted(s, key)
    ensures s == left + right && InsertBy(x, s, key) == left + [x] + right
    ensures forall y | y in right :: Less(key(x), key(y))
  {
    if s == [] || !Less(key(x), key(s[|s| - 1])) {
      left, right := s, [];
    } else {
      var front, last := s[..|s| - 1], s[|s| - 1];
      assert s == front + [last];
      var l, r := InsertSplits(x, front, key);
      left, right := l, r + [last];
      assert front + [last] == left + right;
      assert (l + [x] + r) + [last] == left + [x] + right;
    }
  }

  /** The ledger after the step, with the new solve in its place among the old ones. */
  ghost predicate Grows(l: Ledger, after: Ledger, s: Solve, left: seq<Solve>, right: seq<Solve>) {
    && l.solves == left + right
    && after.solves == left + [s] + right
    && after.challenges == l.challenges && after.challengeOrder == l.challengeOrder
    && after.participations == l.participations && after.participationOrder == l.participationOrder
    && after.adjustments == l.adjustments
    && forall t | t in right :: t.challengeId != s.challengeId
  }

  lemma AppendKeepsDistinct<T>(facts: seq<T>, x: T, id: T -> int)
    requires DistinctIds(facts, id) && forall y | y in facts :: id(y) != id(x)
    ensures DistinctIds(facts + [x], id)
  {
  }

  lemma ExtendedHasDistinctIds(facts: Facts, sub: Submission, s: Solve)
    requires HasDistinctIds(facts) && NextSolve(facts, sub, s)
    ensures HasDistinctIds(Extended(facts, sub, s))
  {
    AppendKeepsDistinct(facts.solves, s, SolveId);
    forall y | y in facts.submissions
      ensures y.id != sub.id
    {
      assert y.id in LedgerOf(facts).submissions;
    }
    AppendKeepsDistinct(facts.submissions, sub, SubmissionId);
  }

  lemma OrderIsCounted(l: Ledger, t: Solve)
    requires ScoresConsistent(l) && t in l.solves && t.challengeId in l.challenges
    ensures t.order <= |SolvesOf(l, t.challengeId)|
  {
    var mine := SolvesOf(l, t.challengeId);
    FilterMembers(l.solves, OfChallenge(t.challengeId));
    assert Scorable(l, t.challengeId);
    var i :| 0 <= i < |mine| && mine[i] == t;
  }

  lemma LowerOrderSortsFirst(t: Solve, s: Solve)
    requires t.challengeId == s.challengeId && t.order < s.order
    ensures !Less(SolveKey(s), SolveKey(t))
  {
    assert Less(SolveKey(t)[1..], SolveKey(s)[1..]);
    LessAsym(SolveKey(t), SolveKey(s));
  }

  /** A solve that sorts after the new one belongs to another challenge. */
  lemma RightIsElsewhere(l: Ledger, s: Solve, t: Solve)
    requires ScoresConsistent(l) && s.challengeId in l.challenges && t in l.solves
    requires s.order == |SolvesOf(l, s.challengeId)| + 1
    requires Less(SolveKey(s), SolveKey(t))
    ensures t.challengeId != s.challengeId
  {
    if t.challengeId == s.challengeId {
      OrderIsCounted(l, t);
      LowerOrderSortsFirst(t, s);
    }
  }

  lemma SolvesGrow(facts: Facts, sub: Submission, s: Solve)
    returns (left: seq<Solve>, right: seq<Solve>)
    requires HasDistinctIds(facts) && ScoresConsistent(LedgerOf(facts)) && NextSolve(facts, sub, s)
    ensures HasDistinctIds(Extended(facts, sub, s))
    ensures Grows(LedgerOf(facts), LedgerOf(Extended(facts, sub, s)), s, left, right)
  {
    ExtendedHasDistinctIds(facts, sub, s);
    var l, after := LedgerOf(facts), LedgerOf(Extended(facts, sub, s));
    FilterAppend(facts.solves, s, IsOfficial);
    var official := Filter(facts.solves, IsOfficial);
    assert (official + [s])[..|official|] == official;
    assert after.solves == InsertBy(s, l.solves, SolveKey);
    SortIsSorted(official, SolveKey);
    left, right := InsertSplits(s, l.solves, SolveKey);
    forall t | t in right
      ensures t.challengeId != s.challengeId
    {
      RightIsElsewhere(l, s, t);
    }
  }

  lemma IdMapAppend<T>(facts: seq<T>, x: T, id: T -> int)
    requires DistinctIds(facts, id) && DistinctIds(facts + [x], id)
    ensures forall k: int :: k in IdMap(facts + [x], id) <==> k == id(x) || k in IdMap(facts, id)
    ensures IdMap(facts + [x], id)[id(x)] == x
    ensures forall k | k in IdMap(facts, id) :: IdMap(facts + [x], id)[k] == IdMap(facts, id)[k]
  {
    DistinctIdsTellApart(facts, id);
    DistinctIdsTellApart(facts + [x], id);
    assert forall y :: y in facts + [x] <==> y in facts || y == x;
  }

  lemma SubmissionsGrow(facts: Facts, sub: Submission, s: Solve)
    requires HasDistinctIds(facts) && HasDistinctIds(Extended(facts, sub, s))
    ensures var m, n := LedgerOf(facts).submissions, LedgerOf(Extended(facts, sub, s)).submissions;
            && (forall id: int :: id in n <==> id == sub.id || id in m)
            && n[sub.id] == sub
            && (forall id | id in m :: n[id] == m[id])
  {
    IdMapAppend(facts.submissions, sub, SubmissionId);
  }

  // ---- What the new solve changes ----

  lemma FilterGrows(l: Ledger, after: Ledger, s: Solve, left: seq<Solve>, right: seq<Solve>, f: Solve -> bool)
    requires Grows(l, after, s, left, right)
    ensures Filter(l.solves, f) == Filter(left, f) + Filter(right, f)
    ensures Filter(after.solves, f) == Filter(left, f) + (if f(s) then [s] else []) + Filter(right, f)
  {
    FilterConcat(left, right, f);
    FilterConcat(left + [s], right, f);
    FilterAppend(left, s, f);
  }

  /** The new solve is the last of its challenge; the other challenges keep their solves. */
  lemma SolvesOfGrow(l: Ledger, after: Ledger, s: Solve, left: seq<Solve>, right: seq<Solve>, id: int)
    requires Grows(l, after, s, left, right)
    ensures SolvesOf(after, id) == SolvesOf(l, id) + (if id == s.challengeId then [s] else [])
  {
    FilterGrows(l, after, s, left, right, OfChallenge(id));
    if id == s.challengeId {
      FilterNone(right, OfChallenge(id));
    }
  }

  lemma PointsAreNatural(l: Ledger, factor: DecayFactor, id: int)
    ensures 0 <= PointsOf(l, factor, id)
  {
    if id in l.challenges && ValidPolicy(l.challenges[id].policy) {
      ScoreDecays(l.challenges[id].policy, 0, |SolvesOf(l, id)|, factor);
    }
  }

  lemma PointsFall(l: Ledger, after: Ledger, factor: DecayFactor, s: Solve, left: seq<Solve>, right: seq<Solve>, id: int)
    requires Grows(l, after, s, left, right)
    ensures PointsOf(after, factor, id) <= PointsOf(l, factor, id)
  {
    SolvesOfGrow(l, after, s, left, right, id);
    if id in l.challenges && ValidPolicy(l.challenges[id].policy) {
      ScoreDecays(l.challenges[id].policy, |SolvesOf(l, id)|, |SolvesOf(after, id)|, factor);
    }
  }

  lemma {:induction false} SumByFalls<T>(s: seq<T>, f: T -> int, g: T -> int)
    requires forall x | x in s :: g(x) <= f(x)
    ensures SumBy(s, g) <= SumBy(s, f)
  {
    if s != [] {
      assert s[|s| - 1] in s;
      assert forall x | x in s[..|s| - 1] :: x in s;
      SumByFalls(s[..|s| - 1], f, g);
    }
  }

  lemma WorthFalls(l: Ledger, after: Ledger, factor: DecayFactor, s: Solve, left: seq<Solve>, right: seq<Solve>,
                   solves: seq<Solve>)
    requires Grows(l, after, s, left, right)
    ensures 0 <= SumBy(solves, Worth(after, factor)) <= SumBy(solves, Worth(l, factor))
  {
    forall x | x in solves
      ensures 0 <= Worth(after, factor)(x) <= Worth(l, factor)(x)
    {
      PointsFall(l, after, factor, s, left, right, x.challengeId);
      PointsAreNatural(after, factor, x.challengeId);
    }
    SumByFalls(solves, Worth(l, factor), Worth(after, factor));
    SumByFalls(solves, Worth(after, factor), _ => 0);
    SumByConst(solves, (_: Solve) => 0, 0);
  }

  /** Points are never negative, so a sum is exact all the way when its end is. */
  lemma {:induction false} SolveSumIsExact(l: Ledger, factor: DecayFactor, solves: seq<Solve>)
    ensures 0 <= SumBy(solves, Worth(l, factor))
    ensures SolveSum(l, factor, solves).Some? <==> SumBy(solves, Worth(l, factor)) <= MAX_SAFE_INTEGER
  {
    if solves != [] {
      SolveSumIsExact(l, factor, solves[..|solves| - 1]);
      SolveSumIsSum(l, factor, solves[..|solves| - 1]);
      PointsAreNatural(l, factor, solves[|solves| - 1].challengeId);
    }
  }

  // ---- The larger facts replay too ----

  lemma GrownSolvesConsistent(l: Ledger, after: Ledger, sub: Submission, s: Solve, left: seq<Solve>, right: seq<Solve>)
    requires Grows(l, after, s, left, right) && SolvesConsistent(l)
    requires forall id | id in l.submissions :: id in after.submissions && after.submissions[id] == l.submissions[id]
    requires sub.id !in l.submissions && sub.id in after.submissions && after.submissions[sub.id] == sub
    requires s.submissionId == sub.id && MatchesSubmission(sub, s) && 0 < s.order <= MAX_SAFE_INTEGER
    requires s.challengeId in l.challenges && s.participationId in l.participations
    requires forall t | t in l.solves :: t.challengeId == s.challengeId ==> t.participationId != s.participationId
    ensures SolvesConsistent(after)
  {
    var k := |left|;
    forall i | 0 <= i < |after.solves|
      ensures SolveOk(after, after.solves[i])
      ensures i < k ==> after.solves[i] == l.solves[i]
      ensures i == k ==> after.solves[i] == s
      ensures i > k ==> after.solves[i] == l.solves[i - 1]
    {
      if i < k {
        assert SolveOk(l, l.solves[i]);
      } else if i > k {
        assert SolveOk(l, l.solves[i - 1]);
      }
    }
    forall i, j | 0 <= i < j < |after.solves|
      ensures after.solves[i].submissionId != after.solves[j].submissionId
      ensures !(after.solves[i].participationId == after.solves[j].participationId
                && after.solves[i].challengeId == after.solves[j].challengeId)
    {
      var a, b := if i > k then i - 1 else i, if j > k then j - 1 else j;
      if i == k {
        assert SolveOk(l, l.solves[b]) && l.solves[b] in l.solves;
      } else if j == k {
        assert SolveOk(l, l.solves[a]) && l.solves[a] in l.solves;
      } else {
        assert after.solves[i] == l.solves[a] && after.solves[j] == l.solves[b];
      }
    }
  }

  lemma GrownSubmissionsConsistent(l: Ledger, after: Ledger, sub: Submission, s: Solve, left: seq<Solve>, right: seq<Solve>)
    requires Grows(l, after, s, left, right) && SubmissionsConsistent(l)
    requires forall id: int :: id in after.submissions <==> id == sub.id || id in l.submissions
    requires after.submissions[sub.id] == sub
    requires forall id | id in l.submissions :: after.submissions[id] == l.submissions[id]
    requires s.submissionId == sub.id && MatchesSubmission(sub, s)
    requires s.challengeId in l.challenges && s.participationId in l.participations
    ensures SubmissionsConsistent(after)
  {
    assert s in after.solves;
    assert forall t | t in l.solves :: t in after.solves;
    forall id | id in after.submissions
      ensures SubmissionOk(after, after.submissions[id])
    {
      if id != sub.id {
        assert SubmissionOk(l, l.submissions[id]);
      }
    }
  }

  lemma GrownScoresConsistent(l: Ledger, after: Ledger, s: Solve, left: seq<Solve>, right: seq<Solve>)
    requires Grows(l, after, s, left, right) && ScoresConsistent(l)
    requires s.order == |SolvesOf(l, s.challengeId)| + 1
    ensures ScoresConsistent(after)
  {
    forall id | id in after.challenges
      ensures Scorable(after, id)
    {
      assert Scorable(l, id);
      SolvesOfGrow(l, after, s, left, right, id);
    }
  }

  /** The solver's new points and total are exact numbers. */
  predicate StaysExact(after: Ledger, factor: DecayFactor, id: int) {
    var points := SumBy(SolvesBy(after, id), Worth(after, factor));
    && points <= MAX_SAFE_INTEGER
    && points + OrZero(AdjustmentSum(AdjustmentsOf(after, id))) <= MAX_SAFE_INTEGER
  }

  lemma {:induction false} AdjustmentSumIsSafe(adjustments: seq<Adjustment>)
    ensures Safe(OrZero(AdjustmentSum(adjustments)))
  {
  }

  /** Only the solver's own sums can overflow. */
  lemma GrownTotal(l: Ledger, after: Ledger, factor: DecayFactor, s: Solve, left: seq<Solve>, right: seq<Solve>, id: int)
    requires Grows(l, after, s, left, right) && TotalOk(l, factor, id)
    ensures id == s.participationId ==> (TotalOk(after, factor, id) <==> StaysExact(after, factor, id))
    ensures id != s.participationId ==> TotalOk(after, factor, id)
    ensures id != s.participationId ==>
              OrZero(SolveSum(after, factor, SolvesBy(after, id))) <= OrZero(SolveSum(l, factor, SolvesBy(l, id)))
  {
    FilterGrows(l, after, s, left, right, OfParticipation(id));
    assert id != s.participationId ==> SolvesBy(after, id) == SolvesBy(l, id);
    WorthFalls(l, after, factor, s, left, right, SolvesBy(l, id));
    SolveSumIsSum(l, factor, SolvesBy(l, id));
    SolveSumIsSum(after, factor, SolvesBy(after, id));
    SolveSumIsExact(l, factor, SolvesBy(l, id));
    SolveSumIsExact(after, factor, SolvesBy(after, id));
    AdjustmentSumIsSafe(AdjustmentsOf(l, id));
  }

  lemma GrownTotals(l: Ledger, after: Ledger, factor: DecayFactor, s: Solve, left: seq<Solve>, right: seq<Solve>)
    requires Grows(l, after, s, left, right) && TotalsConsistent(l, factor) && s.participationId in l.participations
    ensures TotalsConsistent(after, factor) <==>
              StaysExact(after, factor, s.participationId) && Safe(|l.solves| + |l.adjustments| + 1)
  {
    forall id | id in l.participations
      ensures TotalOk(after, factor, id) <==> (id == s.participationId ==> StaysExact(after, factor, id))
    {
      assert TotalOk(l, factor, id);
      GrownTotal(l, after, factor, s, left, right, id);
    }
    forall i | 0 <= i < |after.adjustments|
      ensures AdjustmentOk(after, after.adjustments[i])
    {
      assert AdjustmentOk(l, l.adjustments[i]);
    }
  }

  /**
    * The next official solve of a challenge is accepted exactly when the solver's sums and the fact version stay exact.
    */
  lemma NextSolveIsAccepted(facts: Facts, factor: DecayFactor, sub: Submission, s: Solve)
    requires Replayable(facts, factor) && NextSolve(facts, sub, s)
    ensures HasDistinctIds(Extended(facts, sub, s))
    ensures Replayable(Extended(facts, sub, s), factor) <==>
              && StaysExact(LedgerOf(Extended(facts, sub, s)), factor, s.participationId)
              && ReplayOf(LedgerOf(facts), factor).factVersion < MAX_SAFE_INTEGER
  {
    var left, right := SolvesGrow(facts, sub, s);
    var l, after := LedgerOf(facts), LedgerOf(Extended(facts, sub, s));
    SubmissionsGrow(facts, sub, s);
    GrownTotals(l, after, factor, s, left, right);
    if Safe(|l.solves| + |l.adjustments| + 1) {
      assert SolvesConsistent(after) by {
        GrownSolvesConsistent(l, after, sub, s, left, right);
      }
      assert SubmissionsConsistent(after) by {
        GrownSubmissionsConsistent(l, after, sub, s, left, right);
      }
      assert ScoresConsistent(after) by {
        GrownScoresConsistent(l, after, s, left, right);
      }
    }
  }

  predicate ChallengeOnlyFalls(facts: Facts, b: ChallengeResult, a: ChallengeResult, s: Solve) {
    && a.challengeId == b.challengeId
    && a.officialSolveCount == b.officialSolveCount + (if a.challengeId == s.challengeId then 1 else 0)
    && a.currentPoints <= b.currentPoints
    && exists c | c in facts.challenges ::
         c.id == a.challengeId && LeastPoints(c.policy) <= a.currentPoints <= MostPoints(c.policy)
  }

  predicate GainsOnlyAsSolver(b: ParticipationResult, a: ParticipationResult, s: Solve) {
    && a.participationId == b.participationId
    && a.officialSolveCount == b.officialSolveCount + (if a.participationId == s.participationId then 1 else 0)
    && a.adjustmentPoints == b.adjustmentPoints
    && (a.participationId != s.participationId ==> a.solvePoints <= b.solvePoints)
  }

  /** Between the two replays: the policies bound every value, no value rises, and nobody but the solver gains. */
  predicate OnlyTheSolverGains(facts: Facts, before: Replay, after: Replay, s: Solve) {
    && after.factVersion == before.factVersion + 1
    && |after.challengeScores| == |before.challengeScores| == |facts.challenges|
    && |after.participationScores| == |before.participationScores| == |facts.participations|
    && (forall i | 0 <= i < |before.challengeScores| ::
          ChallengeOnlyFalls(facts, before.challengeScores[i], after.challengeScores[i], s))
    && (forall i | 0 <= i < |before.participationScores| ::
          GainsOnlyAsSolver(before.participationScores[i], after.participationScores[i], s))
  }

  lemma ChallengeAfterSolve(facts: Facts, factor: DecayFactor, l: Ledger, after: Ledger, s: Solve,
                            left: seq<Solve>, right: seq<Solve>, c: Challenge)
    requires Grows(l, after, s, left, right) && ScoresConsistent(l) && c.id in l.challenges && l.challenges[c.id] == c
    requires c in facts.challenges
    ensures ChallengeOnlyFalls(facts, ChallengeResultOf(l, factor)(c), ChallengeResultOf(after, factor)(c), s)
  {
    assert Scorable(l, c.id);
    SolvesOfGrow(l, after, s, left, right, c.id);
    ScoreDecays(c.policy, |SolvesOf(l, c.id)|, |SolvesOf(after, c.id)|, factor);
  }

  lemma ParticipationAfterSolve(factor: DecayFactor, l: Ledger, after: Ledger, s: Solve,
                                left: seq<Solve>, right: seq<Solve>, p: Participation)
    requires Grows(l, after, s, left, right) && TotalOk(l, factor, p.id)
    ensures GainsOnlyAsSolver(ParticipationResultOf(l, factor)(p), ParticipationResultOf(after, factor)(p), s)
  {
    FilterGrows(l, after, s, left, right, OfParticipation(p.id));
    GrownTotal(l, after, factor, s, left, right, p.id);
  }

  lemma ResultsAfterSolve(facts: Facts, factor: DecayFactor, l: Ledger, after: Ledger, s: Solve,
                          left: seq<Solve>, right: seq<Solve>)
    requires Grows(l, after, s, left, right) && ScoresConsistent(l) && TotalsOk(l, factor) && WellFormed(l)
    requires forall c | c in l.challengeOrder :: c in facts.challenges
    ensures forall i | 0 <= i < |l.challengeOrder| ::
              ChallengeOnlyFalls(facts, ReplayOf(l, factor).challengeScores[i], ReplayOf(after, factor).challengeScores[i], s)
    ensures forall i | 0 <= i < |l.participationOrder| ::
              GainsOnlyAsSolver(ReplayOf(l, factor).participationScores[i], ReplayOf(after, factor).participationScores[i], s)
  {
    forall i | 0 <= i < |l.challengeOrder|
      ensures ChallengeOnlyFalls(
                facts, ReplayOf(l, factor).challengeScores[i], ReplayOf(after, factor).challengeScores[i], s)
    {
      assert l.challengeOrder[i] in l.challengeOrder;
      ChallengeAfterSolve(facts, factor, l, after, s, left, right, l.challengeOrder[i]);
    }
    forall i | 0 <= i < |l.participationOrder|
      ensures GainsOnlyAsSolver(
                ReplayOf(l, factor).participationScores[i], ReplayOf(after, factor).participationScores[i], s)
    {
      assert l.participationOrder[i] in l.participationOrder;
      assert TotalOk(l, factor, l.participationOrder[i].id);
      ParticipationAfterSolve(factor, l, after, s, left, right, l.participationOrder[i]);
    }
  }

  /** Appending the next official solve adds one fact, lowers other scores if it changes them, and keeps values in range. */
  lemma NextSolveOnlyHelpsItsSolver(facts: Facts, factor: DecayFactor, sub: Submission, s: Solve)
    requires Replayable(facts, factor) && NextSolve(facts, sub, s) && Replayable(Extended(facts, sub, s), factor)
    ensures OnlyTheSolverGains(
              facts, ReplayOf(LedgerOf(facts), factor), ReplayOf(LedgerOf(Extended(facts, sub, s)), factor), s)
  {
    var left, right := SolvesGrow(facts, sub, s);
    var l, after := LedgerOf(facts), LedgerOf(Extended(facts, sub, s));
    LedgerIsWellFormed(facts);
    SameMembers(facts.challenges, l.challengeOrder);
    ResultsAfterSolve(facts, factor, l, after, s, left, right);
  }
}
