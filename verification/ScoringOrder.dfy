/** The replay sees only the facts, not the order they come in. */
module ScoringOrder {
  import opened Ordering
  import opened Scoring
  import opened ScoringReplay

  // ---- The order of the facts does not matter ----

  /** The same facts in another order, list by list. */
  ghost predicate Rearranged(a: Facts, b: Facts) {
    && multiset(a.challenges) == multiset(b.challenges)
    && multiset(a.participations) == multiset(b.participations)
    && multiset(a.submissions) == multiset(b.submissions)
    && multiset(a.solves) == multiset(b.solves)
    && multiset(a.adjustments) == multiset(b.adjustments)
  }

  lemma TwiceInMultiset<T>(s: seq<T>, i: nat, j: nat)
    requires i < j < |s| && s[i] == s[j]
    ensures multiset(s)[s[i]] >= 2
  {
    assert s == s[..j] + s[j..];
    assert s[i] in s[..j] && s[j] in s[j..];
    assert multiset(s) == multiset(s[..j]) + multiset(s[j..]);
  }

  lemma {:induction false} OnceInMultiset<T>(s: seq<T>, id: T -> int, x: T)
    requires DistinctIds(s, id)
    ensures multiset(s)[x] <= 1
  {
    if s != [] {
      var front, last := s[..|s| - 1], s[|s| - 1];
      assert s == front + [last];
      OnceInMultiset(front, id, x);
      if x == last {
        assert x !in front;
      }
    }
  }

  lemma DistinctIdsIgnoreOrder<T>(a: seq<T>, b: seq<T>, id: T -> int)
    requires multiset(a) == multiset(b) && DistinctIds(a, id)
    ensures DistinctIds(b, id)
  {
    SameMembers(a, b);
    DistinctIdsTellApart(a, id);
    forall i, j | 0 <= i < j < |b|
      ensures id(b[i]) != id(b[j])
    {
      if id(b[i]) == id(b[j]) {
        assert b[i] in a && b[j] in a;
        TwiceInMultiset(b, i, j);
        OnceInMultiset(a, id, b[i]);
      }
    }
  }

  lemma IdMapIgnoresOrder<T>(a: seq<T>, b: seq<T>, id: T -> int)
    requires multiset(a) == multiset(b) && DistinctIds(a, id) && DistinctIds(b, id)
    ensures IdMap(a, id) == IdMap(b, id)
  {
    SameMembers(a, b);
    DistinctIdsTellApart(a, id);
    DistinctIdsTellApart(b, id);
    var m, n := IdMap(a, id), IdMap(b, id);
    forall k: int
      ensures k in m <==> k in n
      ensures k in m ==> m[k] == n[k]
    {
    }
  }

  lemma RearrangedHasDistinctIds(a: Facts, b: Facts)
    requires Rearranged(a, b) && HasDistinctIds(a)
    ensures HasDistinctIds(b)
  {
    DistinctIdsIgnoreOrder(a.challenges, b.challenges, ChallengeId);
    DistinctIdsIgnoreOrder(a.participations, b.participations, ParticipationId);
    DistinctIdsIgnoreOrder(a.submissions, b.submissions, SubmissionId);
    DistinctIdsIgnoreOrder(a.solves, b.solves, SolveId);
    DistinctIdsIgnoreOrder(a.adjustments, b.adjustments, AdjustmentId);
  }

  /** A key that contains the id tells facts apart. */
  lemma IdsTellKeysApart<T>(facts: seq<T>, id: T -> int, key: T -> Key)
    requires DistinctIds(facts, id) && forall x, y :: key(x) == key(y) ==> id(x) == id(y)
    ensures KeysTellApart(facts, key)
  {
    DistinctIdsTellApart(facts, id);
  }

  lemma SortByIdIgnoresOrder<T>(a: seq<T>, b: seq<T>, id: T -> int, key: T -> Key)
    requires multiset(a) == multiset(b) && DistinctIds(a, id) && forall x, y :: key(x) == key(y) ==> id(x) == id(y)
    ensures SortBy(a, key) == SortBy(b, key)
  {
    IdsTellKeysApart(a, id, key);
    SortIgnoresOrder(a, b, key);
  }

  lemma KeysHoldIds()
    ensures forall x, y :: ChallengeKey(x) == ChallengeKey(y) ==> ChallengeId(x) == ChallengeId(y)
    ensures forall x, y :: ParticipationKey(x) == ParticipationKey(y) ==> ParticipationId(x) == ParticipationId(y)
    ensures forall x, y :: SolveKey(x) == SolveKey(y) ==> SolveId(x) == SolveId(y)
    ensures forall x, y :: AdjustmentKey(x) == AdjustmentKey(y) ==> AdjustmentId(x) == AdjustmentId(y)
  {
    assert forall x: Challenge :: ChallengeKey(x)[0] == ChallengeId(x);
    assert forall x: Participation :: ParticipationKey(x)[0] == ParticipationId(x);
    assert forall x: Solve :: SolveKey(x)[3] == SolveId(x);
    assert forall x: Adjustment :: AdjustmentKey(x)[1] == AdjustmentId(x);
  }

  lemma OfficialSortIgnoresOrder(a: seq<Solve>, b: seq<Solve>)
    requires multiset(a) == multiset(b) && DistinctIds(a, SolveId)
    ensures SortBy(Filter(a, IsOfficial), SolveKey) == SortBy(Filter(b, IsOfficial), SolveKey)
  {
    KeysHoldIds();
    IdsTellKeysApart(a, SolveId, SolveKey);
    FilterMembers(a, IsOfficial);
    FilterIgnoresOrder(a, b, IsOfficial);
    SortIgnoresOrder(Filter(a, IsOfficial), Filter(b, IsOfficial), SolveKey);
  }

  /** The normal form of the facts is the same for every order of them. */
  lemma LedgerIgnoresOrder(a: Facts, b: Facts)
    requires Rearranged(a, b) && HasDistinctIds(a) && HasDistinctIds(b)
    ensures LedgerOf(a) == LedgerOf(b)
  {
    IdMapIgnoresOrder(a.challenges, b.challenges, ChallengeId);
    IdMapIgnoresOrder(a.participations, b.participations, ParticipationId);
    IdMapIgnoresOrder(a.submissions, b.submissions, SubmissionId);
    SortsIgnoreOrder(a, b);
  }

  lemma SortsIgnoreOrder(a: Facts, b: Facts)
    requires Rearranged(a, b) && HasDistinctIds(a)
    ensures SortBy(a.challenges, ChallengeKey) == SortBy(b.challenges, ChallengeKey)
    ensures SortBy(a.participations, ParticipationKey) == SortBy(b.participations, ParticipationKey)
    ensures SortBy(Filter(a.solves, IsOfficial), SolveKey) == SortBy(Filter(b.solves, IsOfficial), SolveKey)
    ensures SortBy(a.adjustments, AdjustmentKey) == SortBy(b.adjustments, AdjustmentKey)
  {
    KeysHoldIds();
    SortByIdIgnoresOrder(a.challenges, b.challenges, ChallengeId, ChallengeKey);
    SortByIdIgnoresOrder(a.participations, b.participations, ParticipationId, ParticipationKey);
    OfficialSortIgnoresOrder(a.solves, b.solves);
    SortByIdIgnoresOrder(a.adjustments, b.adjustments, AdjustmentId, AdjustmentKey);
  }

  /** A replay succeeds on one order of the facts exactly when it succeeds on any other, with the same result. */
  lemma ReplayIgnoresOrder(a: Facts, b: Facts, factor: DecayFactor)
    requires Rearranged(a, b)
    ensures Replayable(a, factor) <==> Replayable(b, factor)
    ensures Replayable(a, factor) ==> ReplayOf(LedgerOf(a), factor) == ReplayOf(LedgerOf(b), factor)
  {
    if HasDistinctIds(a) {
      RearrangedHasDistinctIds(a, b);
      LedgerIgnoresOrder(a, b);
    } else if HasDistinctIds(b) {
      RearrangedHasDistinctIds(b, a);
    }
  }
}
