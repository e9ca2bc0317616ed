/** A replay neither loses nor invents points, solves or facts. */
module ScoringConservation {
  import opened Wrappers
  import opened Ordering
  import opened Scoring
  import opened ScoringReplay
  import opened ScoringOrder
  import opened ReplayService

  // ---- Sums ----

  function SumBy<T>(s: seq<T>, f: T -> int): int {
    if s == [] then 0 else SumBy(s[..|s| - 1], f) + f(s[|s| - 1])
  }

  lemma SumByAppend<T>(s: seq<T>, x: T, f: T -> int)
    ensures SumBy(s + [x], f) == SumBy(s, f) + f(x)
  {
    assert (s + [x])[..|s|] == s;
  }

  lemma {:induction false} SumByConcat<T>(s: seq<T>, t: seq<T>, f: T -> int)
    ensures SumBy(s + t, f) == SumBy(s, f) + SumBy(t, f)
  {
    if t == [] {
      assert s + t == s;
    } else {
      var front, last := t[..|t| - 1], t[|t| - 1];
      SumByConcat(s, front, f);
      assert s + t == (s + front) + [last];
      SumByAppend(s + front, last, f);
    }
  }

  lemma {:induction false} SumByConst<T>(s: seq<T>, f: T -> int, c: int)
    requires forall x | x in s :: f(x) == c
    ensures SumBy(s, f) == c * |s|
  {
    if s != [] {
      assert s[|s| - 1] in s;
      assert forall x | x in s[..|s| - 1] :: x in s;
      SumByConst(s[..|s| - 1], f, c);
    }
  }

  lemma {:induction false} SumByIgnoresOrder<T>(a: seq<T>, b: seq<T>, f: T -> int)
    requires multiset(a) == multiset(b)
    ensures SumBy(a, f) == SumBy(b, f)
    decreases |a|
  {
    if a == [] {
      assert |multiset(b)| == 0;
    } else {
      var left, right := SplitAtLast(a, b);
      SumByIgnoresOrder(a[..|a| - 1], left + right, f);
      SumByConcat(left, right, f);
      SumByConcat(left + [a[|a| - 1]], right, f);
      SumByAppend(left, a[|a| - 1], f);
    }
  }

  /** Two ways of reading off the same numbers. */
  lemma {:induction false} SumsAgree<T, U, V>(s: seq<T>, f: T -> U, g: U -> int, h: T -> V, k: V -> int)
    requires forall x | x in s :: g(f(x)) == k(h(x))
    ensures SumBy(Map(s, f), g) == SumBy(Map(s, h), k)
  {
    if s != [] {
      var front, last := s[..|s| - 1], s[|s| - 1];
      assert s == front + [last];
      assert last in s;
      assert forall x | x in front :: x in s;
      SumsAgree(front, f, g, h, k);
      MapAppend(front, last, f);
      MapAppend(front, last, h);
      SumByAppend(Map(front, f), f(last), g);
      SumByAppend(Map(front, h), h(last), k);
    }
  }

  lemma {:induction false} SumOverMap<T, U>(s: seq<T>, f: T -> U, g: U -> int, h: T -> int)
    requires forall x | x in s :: g(f(x)) == h(x)
    ensures SumBy(Map(s, f), g) == SumBy(s, h)
  {
    if s != [] {
      var front, last := s[..|s| - 1], s[|s| - 1];
      assert s == front + [last];
      assert last in s;
      assert forall x | x in front :: x in s;
      SumOverMap(front, f, g, h);
      MapAppend(front, last, f);
      SumByAppend(Map(front, f), f(last), g);
    }
  }

  /** What the members of one class weigh together. */
  function Share<T>(s: seq<T>, pick: int -> (T -> bool), weight: T -> int): int -> int {
    (id: int) => SumBy(Filter(s, pick(id)), weight)
  }

  ghost predicate Distinct(ids: seq<int>) {
    forall i, j | 0 <= i < j < |ids| :: ids[i] != ids[j]
  }

  /** One more member adds its weight to exactly one listed class. */
  lemma {:induction false} OneClassGains(ids: seq<int>, f: int -> int, g: int -> int, at: int, w: int)
    requires Distinct(ids)
    requires forall id | id in ids :: g(id) == f(id) + (if id == at then w else 0)
    ensures SumBy(ids, g) == SumBy(ids, f) + (if at in ids then w else 0)
  {
    if ids != [] {
      var front, last := ids[..|ids| - 1], ids[|ids| - 1];
      assert ids == front + [last];
      assert last in ids;
      assert forall id | id in front :: id in ids;
      OneClassGains(front, f, g, at, w);
      assert at in ids <==> at in front || at == last;
      if last == at {
        assert at !in front;
      }
    }
  }

  lemma ShareGains<T>(front: seq<T>, last: T, pick: int -> (T -> bool), weight: T -> int, id: int)
    ensures Share(front + [last], pick, weight)(id)
            == Share(front, pick, weight)(id) + (if pick(id)(last) then weight(last) else 0)
  {
    FilterAppend(front, last, pick(id));
    if pick(id)(last) {
      SumByAppend(Filter(front, pick(id)), last, weight);
    } else {
      assert Filter(front + [last], pick(id)) == Filter(front, pick(id));
    }
  }

  /** One more member raises the sum of all shares by its weight. */
  lemma SharesGain<T>(front: seq<T>, last: T, ids: seq<int>, pick: int -> (T -> bool), kind: T -> int, weight: T -> int)
    requires Distinct(ids) && forall id :: pick(id)(last) <==> kind(last) == id
    ensures SumBy(ids, Share(front + [last], pick, weight))
            == SumBy(ids, Share(front, pick, weight)) + (if kind(last) in ids then weight(last) else 0)
  {
    forall id | id in ids
      ensures Share(front + [last], pick, weight)(id)
              == Share(front, pick, weight)(id) + (if id == kind(last) then weight(last) else 0)
    {
      ShareGains(front, last, pick, weight, id);
    }
    OneClassGains(ids, Share(front, pick, weight), Share(front + [last], pick, weight), kind(last), weight(last));
  }

  ghost predicate Classifies<T>(s: seq<T>, pick: int -> (T -> bool), kind: T -> int, ids: seq<int>) {
    && (forall x, id | x in s :: pick(id)(x) <==> kind(x) == id)
    && (forall x | x in s :: kind(x) in ids)
  }

  /** Adding up class by class is adding up everything, when every member belongs to one listed class. */
  lemma {:induction false} SharesAddUp<T>(s: seq<T>, ids: seq<int>, pick: int -> (T -> bool), kind: T -> int, weight: T -> int)
    requires Distinct(ids) && Classifies(s, pick, kind, ids)
    ensures SumBy(ids, Share(s, pick, weight)) == SumBy(s, weight)
  {
    if s == [] {
      forall id | id in ids
        ensures Share(s, pick, weight)(id) == 0
      {
        assert Filter(s, pick(id)) == [];
      }
      SumByConst(ids, Share(s, pick, weight), 0);
    } else {
      var front, last := s[..|s| - 1], s[|s| - 1];
      assert s == front + [last];
      assert last in s;
      assert Classifies(front, pick, kind, ids) by {
        assert forall x | x in front :: x in s;
      }
      SharesAddUp(front, ids, pick, kind, weight);
      SharesGain(front, last, ids, pick, kind, weight);
      assert kind(last) in ids;
    }
  }

  // ---- What is added up ----

  function SolvePoints(r: ParticipationResult): int { r.solvePoints }
  function AdjustmentPoints(r: ParticipationResult): int { r.adjustmentPoints }
  function SolveCount(r: ParticipationResult): int { r.officialSolveCount }
  function PaidOut(c: ChallengeResult): int { c.currentPoints * c.officialSolveCount }
  function TimesSolved(c: ChallengeResult): int { c.officialSolveCount }
  function Delta(a: Adjustment): int { a.pointsDelta }
  function One(s: Solve): int { 1 }
  function SolvedChallenge(s: Solve): int { s.challengeId }
  function Solver(s: Solve): int { s.participationId }
  function Receiver(a: Adjustment): int { a.participationId }

  /** What a solve is worth now. */
  function Worth(l: Ledger, factor: DecayFactor): Solve -> int {
    (s: Solve) => PointsOf(l, factor, s.challengeId)
  }

  lemma {:induction false} SolveSumIsSum(l: Ledger, factor: DecayFactor, solves: seq<Solve>)
    ensures SolveSum(l, factor, solves).Some? ==> SolveSum(l, factor, solves).value == SumBy(solves, Worth(l, factor))
  {
    if solves != [] {
      SolveSumIsSum(l, factor, solves[..|solves| - 1]);
    }
  }

  lemma {:induction false} AdjustmentSumIsSum(adjustments: seq<Adjustment>)
    ensures AdjustmentSum(adjustments).Some? ==> AdjustmentSum(adjustments).value == SumBy(adjustments, Delta)
  {
    if adjustments != [] {
      AdjustmentSumIsSum(adjustments[..|adjustments| - 1]);
    }
  }

  /** The orders list every id of the maps once. */
  ghost predicate Listed(l: Ledger) {
    && WellFormed(l)
    && Distinct(Map(l.challengeOrder, ChallengeId))
    && Distinct(Map(l.participationOrder, ParticipationId))
  }

  lemma SortListsOnce<T>(facts: seq<T>, id: T -> int, key: T -> Key)
    requires DistinctIds(facts, id)
    ensures Distinct(Map(SortBy(facts, key), id))
  {
    DistinctIdsIgnoreOrder(facts, SortBy(facts, key), id);
    MapAt(SortBy(facts, key), id);
  }

  lemma LedgerIsListed(facts: Facts)
    requires HasDistinctIds(facts)
    ensures Listed(LedgerOf(facts))
  {
    LedgerIsWellFormed(facts);
    SortListsOnce(facts.challenges, ChallengeId, ChallengeKey);
    SortListsOnce(facts.participations, ParticipationId, ParticipationKey);
  }

  lemma ListsItsId<T>(order: seq<T>, x: T, id: T -> int)
    requires x in order
    ensures id(x) in Map(order, id)
  {
    var i :| 0 <= i < |order| && order[i] == x;
    MapAt(order, id);
    assert Map(order, id)[i] in Map(order, id);
  }

  lemma SolveIsListed(l: Ledger, s: Solve)
    requires Listed(l) && SolvesConsistent(l) && s in l.solves
    ensures s.challengeId in Map(l.challengeOrder, ChallengeId)
    ensures s.participationId in Map(l.participationOrder, ParticipationId)
  {
    var i :| 0 <= i < |l.solves| && l.solves[i] == s;
    assert SolveOk(l, l.solves[i]);
    ListsItsId(l.challengeOrder, l.challenges[s.challengeId], ChallengeId);
    ListsItsId(l.participationOrder, l.participations[s.participationId], ParticipationId);
  }

  lemma SolvesAreClassified(l: Ledger)
    requires Listed(l) && SolvesConsistent(l)
    ensures Classifies(l.solves, OfChallenge, SolvedChallenge, Map(l.challengeOrder, ChallengeId))
    ensures Classifies(l.solves, OfParticipation, Solver, Map(l.participationOrder, ParticipationId))
  {
    forall s | s in l.solves
      ensures s.challengeId in Map(l.challengeOrder, ChallengeId)
      ensures s.participationId in Map(l.participationOrder, ParticipationId)
    {
      SolveIsListed(l, s);
    }
  }

  lemma AdjustmentsAreClassified(l: Ledger)
    requires Listed(l) && AdjustmentsOk(l)
    ensures Classifies(l.adjustments, AdjustmentOf, Receiver, Map(l.participationOrder, ParticipationId))
  {
    forall a | a in l.adjustments
      ensures a.participationId in Map(l.participationOrder, ParticipationId)
    {
      var i :| 0 <= i < |l.adjustments| && l.adjustments[i] == a;
      assert AdjustmentOk(l, l.adjustments[i]);
      ListsItsId(l.participationOrder, l.participations[a.participationId], ParticipationId);
    }
  }

  /** All points, read off the participations. */
  lemma PointsByParticipation(l: Ledger, factor: DecayFactor)
    requires Listed(l) && Consistent(l, factor)
    ensures var scores := ReplayOf(l, factor).participationScores;
            && SumBy(scores, SolvePoints) == SumBy(l.solves, Worth(l, factor))
            && SumBy(scores, SolveCount) == |l.solves|
            && SumBy(scores, AdjustmentPoints) == SumBy(l.adjustments, Delta)
  {
    var ids := Map(l.participationOrder, ParticipationId);
    var result := ParticipationResultOf(l, factor);
    SolvesAreClassified(l);
    AdjustmentsAreClassified(l);
    SharesAddUp(l.solves, ids, OfParticipation, Solver, Worth(l, factor));
    SharesAddUp(l.solves, ids, OfParticipation, Solver, One);
    SharesAddUp(l.adjustments, ids, AdjustmentOf, Receiver, Delta);
    SumByConst(l.solves, One, 1);
    forall p | p in l.participationOrder
      ensures SolvePoints(result(p)) == Share(l.solves, OfParticipation, Worth(l, factor))(ParticipationId(p))
      ensures SolveCount(result(p)) == Share(l.solves, OfParticipation, One)(ParticipationId(p))
      ensures AdjustmentPoints(result(p)) == Share(l.adjustments, AdjustmentOf, Delta)(ParticipationId(p))
    {
      assert TotalOk(l, factor, p.id);
      SolveSumIsSum(l, factor, SolvesBy(l, p.id));
      AdjustmentSumIsSum(AdjustmentsOf(l, p.id));
      SumByConst(SolvesBy(l, p.id), One, 1);
    }
    SumsAgree(l.participationOrder, result, SolvePoints, ParticipationId, Share(l.solves, OfParticipation, Worth(l, factor)));
    SumsAgree(l.participationOrder, result, SolveCount, ParticipationId, Share(l.solves, OfParticipation, One));
    SumsAgree(l.participationOrder, result, AdjustmentPoints, ParticipationId, Share(l.adjustments, AdjustmentOf, Delta));
  }

  /** All points, read off the challenges. */
  lemma PointsByChallenge(l: Ledger, factor: DecayFactor)
    requires Listed(l) && Consistent(l, factor)
    ensures var scores := ReplayOf(l, factor).challengeScores;
            && SumBy(scores, PaidOut) == SumBy(l.solves, Worth(l, factor))
            && SumBy(scores, TimesSolved) == |l.solves|
  {
    var ids := Map(l.challengeOrder, ChallengeId);
    var result := ChallengeResultOf(l, factor);
    SolvesAreClassified(l);
    SharesAddUp(l.solves, ids, OfChallenge, SolvedChallenge, Worth(l, factor));
    SharesAddUp(l.solves, ids, OfChallenge, SolvedChallenge, One);
    SumByConst(l.solves, One, 1);
    forall c | c in l.challengeOrder
      ensures PaidOut(result(c)) == Share(l.solves, OfChallenge, Worth(l, factor))(ChallengeId(c))
      ensures TimesSolved(result(c)) == Share(l.solves, OfChallenge, One)(ChallengeId(c))
    {
      FilterMembers(l.solves, OfChallenge(c.id));
      SumByConst(SolvesOf(l, c.id), Worth(l, factor), PointsOf(l, factor, c.id));
      SumByConst(SolvesOf(l, c.id), One, 1);
    }
    SumsAgree(l.challengeOrder, result, PaidOut, ChallengeId, Share(l.solves, OfChallenge, Worth(l, factor)));
    SumsAgree(l.challengeOrder, result, TimesSolved, ChallengeId, Share(l.solves, OfChallenge, One));
  }

  /** Points paid to the participations are the points paid out by the challenges; solves and facts are counted once. */
  lemma PointsAreConserved(facts: Facts, factor: DecayFactor)
    requires Replayable(facts, factor)
    ensures var r := ReplayOf(LedgerOf(facts), factor);
            var official := |Filter(facts.solves, IsOfficial)|;
            && SumBy(r.participationScores, SolvePoints) == SumBy(r.challengeScores, PaidOut)
            && SumBy(r.participationScores, SolveCount) == SumBy(r.challengeScores, TimesSolved) == official
            && SumBy(r.participationScores, AdjustmentPoints) == SumBy(facts.adjustments, Delta)
            && r.factVersion == official + |facts.adjustments|
  {
    var l := LedgerOf(facts);
    LedgerIsListed(facts);
    PointsByParticipation(l, factor);
    PointsByChallenge(l, factor);
    SumByIgnoresOrder(l.adjustments, facts.adjustments, Delta);
  }

  /** Official solves and correct official submissions correspond one to one. */
  lemma SolvesMatchSubmissions(facts: Facts, factor: DecayFactor)
    requires Replayable(facts, factor)
    ensures forall s | s in facts.solves && s.mode.Official? ::
              exists sub | sub in facts.submissions :: sub.id == s.submissionId && MatchesSubmission(sub, s)
    ensures forall sub | sub in facts.submissions && CorrectOfficial(sub) ::
              exists s | s in facts.solves :: s.mode.Official? && s.submissionId == sub.id
    ensures forall s, t | s in facts.solves && t in facts.solves && s.mode.Official? && t.mode.Official?
                          && s.submissionId == t.submissionId :: s == t
  {
    var l := LedgerOf(facts);
    LedgerIsWellFormed(facts);
    OfficialSolvesAreKept(facts);
    forall s | s in facts.solves && s.mode.Official?
      ensures exists sub | sub in facts.submissions :: sub.id == s.submissionId && MatchesSubmission(sub, s)
    {
      var i :| 0 <= i < |l.solves| && l.solves[i] == s;
      assert SolveOk(l, l.solves[i]);
      assert l.submissions[s.submissionId] in facts.submissions;
    }
    forall sub | sub in facts.submissions && CorrectOfficial(sub)
      ensures exists s | s in facts.solves :: s.mode.Official? && s.submissionId == sub.id
    {
      assert SubmissionOk(l, l.submissions[sub.id]);
      var s :| s in l.solves && s.submissionId == sub.id;
      assert s in facts.solves;
    }
    forall s, t | s in facts.solves && t in facts.solves && s.mode.Official? && t.mode.Official? && s.submissionId == t.submissionId
      ensures s == t
    {
      assert s in l.solves && t in l.solves;
    }
  }

  lemma OfficialSolvesAreKept(facts: Facts)
    requires HasDistinctIds(facts)
    ensures forall s :: s in LedgerOf(facts).solves <==> s in facts.solves && s.mode.Official?
  {
    FilterMembers(facts.solves, IsOfficial);
    SameMembers(LedgerOf(facts).solves, Filter(facts.solves, IsOfficial));
  }
}
