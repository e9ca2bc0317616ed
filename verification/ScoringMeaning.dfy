/** What single fields of a replay say about the facts. */
module ScoringMeaning {
  import opened Wrappers
  import opened Ordering
  import opened Scoring
  import opened ScoringReplay

  predicate Reports(first: FirstSolve, s: Solve) {
    && first.solveId == s.id && first.submissionId == s.submissionId
    && first.participationId == s.participationId && first.solvedAt == s.solvedAt
  }

  /** The first solve of a challenge is the one of order 1; there is none exactly when nobody solved it. */
  lemma FirstSolveHasOrderOne(l: Ledger, factor: DecayFactor, c: Challenge)
    requires c.id in l.challenges && Scorable(l, c.id)
    ensures var first := ChallengeResultOf(l, factor)(c).firstSolve;
            && (first.None? <==> forall s | s in l.solves :: s.challengeId != c.id)
            && (first.Some? ==> exists s | s in l.solves :: s.challengeId == c.id && s.order == 1 && Reports(first.value, s))
  {
    var solves := SolvesOf(l, c.id);
    FilterMembers(l.solves, OfChallenge(c.id));
    if solves != [] {
      assert solves[0] in solves && solves[0].order == 1;
    }
  }

  // ---- The last scoring time ----

  lemma {:induction false} LastSolveIsLatest(solves: seq<Solve>)
    ensures LastSolve(solves).None? <==> solves == []
    ensures LastSolve(solves).Some? ==>
              && (exists s | s in solves :: s.solvedAt == LastSolve(solves).value)
              && (forall s | s in solves :: s.solvedAt <= LastSolve(solves).value)
  {
    if solves != [] {
      var front, last := solves[..|solves| - 1], solves[|solves| - 1];
      LastSolveIsLatest(front);
      InFrontOrLast(solves);
      var latest := if LastSolve(solves) == Some(last.solvedAt) then last
                    else var s :| s in front && s.solvedAt == LastSolve(front).value; s;
      assert latest in solves && latest.solvedAt == LastSolve(solves).value;
    }
  }

  lemma InFrontOrLast<T>(s: seq<T>)
    requires s != []
    ensures forall x :: x in s <==> x in s[..|s| - 1] || x == s[|s| - 1]
  {
    assert s == s[..|s| - 1] + [s[|s| - 1]];
  }

  lemma {:induction false} LastAdjustmentIsLatest(start: Option<Time>, adjustments: seq<Adjustment>)
    ensures LastScoring(start, adjustments).None? <==> start.None? && adjustments == []
    ensures LastScoring(start, adjustments).Some? ==>
              var latest := LastScoring(start, adjustments).value;
              && (start == Some(latest) || exists a | a in adjustments :: a.createdAt == latest)
              && (start.Some? ==> start.value <= latest)
              && (forall a | a in adjustments :: a.createdAt <= latest)
  {
    if adjustments != [] {
      var front, last := adjustments[..|adjustments| - 1], adjustments[|adjustments| - 1];
      LastAdjustmentIsLatest(start, front);
      InFrontOrLast(adjustments);
      assert last in adjustments;
    }
  }

  /** A participation last scored at the latest of its solves and adjustments, and never exactly when it has none. */
  lemma LastScoringIsLatest(l: Ledger, factor: DecayFactor, p: Participation)
    ensures var latest := ParticipationResultOf(l, factor)(p).lastScoringAt;
            var solves, adjustments := SolvesBy(l, p.id), AdjustmentsOf(l, p.id);
            && (latest.None? <==> solves == [] && adjustments == [])
            && (latest.Some? ==>
                  && ((exists s | s in solves :: s.solvedAt == latest.value)
                      || (exists a | a in adjustments :: a.createdAt == latest.value))
                  && (forall s | s in solves :: s.solvedAt <= latest.value)
                  && (forall a | a in adjustments :: a.createdAt <= latest.value))
  {
    LastSolveIsLatest(SolvesBy(l, p.id));
    LastAdjustmentIsLatest(LastSolve(SolvesBy(l, p.id)), AdjustmentsOf(l, p.id));
  }

  // ---- The ranking order ----

  predicate ScoredEarlier(a: Option<Time>, b: Option<Time>) {
    a.Some? && (b.None? || a.value < b.value)
  }

  lemma LessStep(a: Key, b: Key)
    requires a != [] && b != []
    ensures Less(a, b) <==> a[0] < b[0] || (a[0] == b[0] && Less(a[1..], b[1..]))
  {
  }

  /** More points rank better; then who scored last earlier, never being last; then team and participation. */
  lemma RankingOrder(a: ParticipationResult, b: ParticipationResult)
    ensures Less(RankKey(a), RankKey(b)) <==>
              || a.totalPoints > b.totalPoints
              || (a.totalPoints == b.totalPoints
                  && (ScoredEarlier(a.lastScoringAt, b.lastScoringAt)
                      || (a.lastScoringAt == b.lastScoringAt
                          && (a.teamId < b.teamId || (a.teamId == b.teamId && a.participationId < b.participationId)))))
  {
    var x, y := RankKey(a), RankKey(b);
    LessStep(x, y);
    LessStep(x[1..], y[1..]);
    LessStep(x[2..], y[2..]);
    LessStep(x[3..], y[3..]);
    LessStep(x[4..], y[4..]);
    assert x[1..][1..] == x[2..] && y[1..][1..] == y[2..];
    assert x[2..][1..] == x[3..] && y[2..][1..] == y[3..];
    assert x[3..][1..] == x[4..] && y[3..][1..] == y[4..];
    assert x[4..][1..] == [] && y[4..][1..] == [];
  }
}
