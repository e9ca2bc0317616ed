/** The boards of a contest without challenges and with one team. */
module SmallBoards {
  import opened Wrappers
  import opened Ordering
  import opened Scoring
  import opened ScoringReplay
  import opened Scoreboard
  import opened ScoreboardFacts

  /** The facts of one adjustment for one participation. */
  function OneAdjustment(p: Participation, a: Adjustment): Facts {
    Facts([], [p], [], [], [a])
  }

  lemma SmallFacts(c: Contest, p: Participation, a: Adjustment)
    requires c.challenges == [] && c.participations == [p]
    ensures FactsOf(c, [Adjusted(a)]) == OneAdjustment(p, a)
  {
    var log := [Adjusted(a)];
    assert log[..|log| - 1] == [];
    assert Submissions([]) == [] && Solves([]) == [] && Adjustments([]) == [];
    assert Submissions(log) == [] && Solves(log) == [] && Adjustments(log) == [a];
  }

  lemma SortedAlone<T>(x: T, key: T -> Key)
    ensures SortBy([x], key) == [x]
  {
    assert [x][..0] == [];
  }

  /** What matters of the ledger of one adjustment. */
  predicate SmallLedger(l: Ledger, p: Participation, a: Adjustment) {
    && l.solves == [] && l.adjustments == [a] && l.challenges == map[] && l.submissions == map[]
    && l.participations == map[p.id := p]
  }

  lemma SmallFactsAreDistinct(p: Participation, a: Adjustment)
    ensures HasDistinctIds(OneAdjustment(p, a))
    ensures SmallLedger(LedgerOf(OneAdjustment(p, a)), p, a)
  {
    SortedAlone(a, AdjustmentKey);
    assert p in [p];
  }

  lemma SmallTotal(l: Ledger, factor: DecayFactor, a: Adjustment)
    requires l.solves == [] && l.adjustments == [a] && Safe(a.pointsDelta)
    ensures TotalOk(l, factor, a.participationId)
  {
    assert AdjustmentsOf(l, a.participationId) == [a] by {
      assert [a] == [] + [a];
      FilterAppend([], a, AdjustmentOf(a.participationId));
    }
    assert [a][..0] == [];
  }

  lemma NothingToValidate(l: Ledger)
    requires l.solves == [] && l.challenges == map[] && l.submissions == map[]
    ensures SolvesConsistent(l) && SubmissionsConsistent(l) && ScoresConsistent(l)
  {
  }

  lemma SmallAdjustments(l: Ledger, p: Participation, a: Adjustment)
    requires SmallLedger(l, p, a) && a.participationId == p.id && Safe(a.pointsDelta) && a.pointsDelta != 0
    ensures AdjustmentsOk(l) && Safe(|l.adjustments|)
  {
    forall i | 0 <= i < |l.adjustments|
      ensures AdjustmentOk(l, l.adjustments[i])
    {
      assert l.adjustments[i] == a;
    }
  }

  lemma OnlyTotal(l: Ledger, factor: DecayFactor, only: int)
    requires TotalOk(l, factor, only) && l.participations.Keys == {only}
    ensures TotalsOk(l, factor)
  {
  }

  lemma SmallTotals(l: Ledger, p: Participation, a: Adjustment, factor: DecayFactor)
    requires SmallLedger(l, p, a) && a.participationId == p.id && Safe(a.pointsDelta) && a.pointsDelta != 0
    ensures TotalsOk(l, factor)
  {
    assert TotalOk(l, factor, p.id) by {
      SmallTotal(l, factor, a);
    }
    OnlyTotal(l, factor, p.id);
  }

  lemma TotalsSuffice(l: Ledger, factor: DecayFactor)
    requires l.solves == [] && l.challenges == map[] && l.submissions == map[]
    requires AdjustmentsOk(l) && TotalsOk(l, factor) && Safe(|l.adjustments|)
    ensures Consistent(l, factor)
  {
    NothingToValidate(l);
    assert TotalsConsistent(l, factor);
  }

  lemma SmallLedgerIsConsistent(l: Ledger, p: Participation, a: Adjustment, factor: DecayFactor)
    requires SmallLedger(l, p, a) && a.participationId == p.id && Safe(a.pointsDelta) && a.pointsDelta != 0
    ensures Consistent(l, factor)
  {
    SmallTotals(l, p, a, factor);
    SmallAdjustments(l, p, a);
    TotalsSuffice(l, factor);
  }

  lemma OneAdjustmentReplays(p: Participation, a: Adjustment, factor: DecayFactor)
    requires a.participationId == p.id && Safe(a.pointsDelta) && a.pointsDelta != 0
    ensures Replayable(OneAdjustment(p, a), factor)
  {
    SmallFactsAreDistinct(p, a);
    SmallLedgerIsConsistent(LedgerOf(OneAdjustment(p, a)), p, a, factor);
  }

  lemma NoAdjustmentReplays(p: Participation, factor: DecayFactor)
    ensures Replayable(Facts([], [p], [], [], []), factor)
  {
    var l := LedgerOf(Facts([], [p], [], [], []));
    assert p in [p];
    assert l.participations == map[p.id := p];
    assert TotalOk(l, factor, p.id) by {
      NothingAddsUp(l, factor, p.id);
    }
    OnlyTotal(l, factor, p.id);
    TotalsSuffice(l, factor);
  }

  lemma NothingAddsUp(l: Ledger, factor: DecayFactor, id: int)
    requires l.solves == [] && l.adjustments == []
    ensures TotalOk(l, factor, id)
  {
  }

  lemma ReplayableHasABoard(c: Contest, b: Boards, log: seq<Entry>)
    requires Determines(c, b) && Replayable(FactsOf(c, log), c.factor)
    ensures b(log, Overall).Some?
  {
    assert BoardAt(c, log, Overall).Some?;
  }

  /** One adjustment for one participation has an overall board. */
  lemma OneAdjustmentHasABoard(c: Contest, b: Boards, p: Participation, a: Adjustment)
    requires c.challenges == [] && c.participations == [p] && Determines(c, b)
    requires a.participationId == p.id && Safe(a.pointsDelta) && a.pointsDelta != 0
    ensures b([Adjusted(a)], Overall).Some?
  {
    SmallFacts(c, p, a);
    OneAdjustmentReplays(p, a, c.factor);
    ReplayableHasABoard(c, b, [Adjusted(a)]);
  }

  lemma BoardsOf(c: Contest) returns (b: Boards)
    ensures Determines(c, b)
  {
    b := (log, scope) => BoardAt(c, log, scope);
  }

  /** Two boards of a contest with one team, before and after it is given points. */
  lemma BoardsOfOneTeam(c: Contest, b: Boards, p: Participation, a: Adjustment)
    requires c.challenges == [] && c.participations == [p] && Determines(c, b)
    requires a.participationId == p.id && Safe(a.pointsDelta) && a.pointsDelta != 0
    ensures b([], Overall).Some? && b([Adjusted(a)], Overall).Some?
  {
    NoAdjustmentReplays(p, c.factor);
    ReplayableHasABoard(c, b, []);
    OneAdjustmentHasABoard(c, b, p, a);
  }
}
