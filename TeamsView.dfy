// The teams area (components/TeamsView.tsx): the two figures of the list page,
// one team's figures, and the team's statement split by kind of fee.

module TeamsView {
  import opened Collections
  import opened Sorting
  import opened Domain
  import opened Dashboard

  /** What every team entry still owes, of either type and unfloored: an overpayment counts against it. */
  function TeamsDue(ts: seq<Transaction>): int
  {
    Sum(Filter(ts, IsTeamEntry), SignedOwed)
  }

  /** The teams' due is what they were charged minus what they paid, over all their entries. */
  lemma TeamsDueSplit(ts: seq<Transaction>)
    ensures TeamsDue(ts) == Sum(Filter(ts, IsTeamEntry), DueOf) - Sum(Filter(ts, IsTeamEntry), PaidOf)
  {
    SumDifference(Filter(ts, IsTeamEntry), DueOf, PaidOf, SignedOwed);
  }

  /** The unfloored due never exceeds the floored one, and equals it when no team entry is overpaid. */
  lemma TeamsDueAtMostFloored(ts: seq<Transaction>)
    ensures TeamsDue(ts) <= Sum(Filter(ts, IsTeamEntry), Outstanding)
    ensures (forall t :: t in ts && IsTeamEntry(t) ==> t.amountPaid <= t.amountDue) ==>
      TeamsDue(ts) == Sum(Filter(ts, IsTeamEntry), Outstanding)
  {
    var mine := Filter(ts, IsTeamEntry);
    SumAtMost(mine, SignedOwed, Outstanding);
    FilterMembers(ts, IsTeamEntry);
    if forall t :: t in ts && IsTeamEntry(t) ==> t.amountPaid <= t.amountDue {
      SumSame(mine, SignedOwed, Outstanding);
    }
  }

  /** One team income of R$ 0,00 paid with R$ 0,20: the list page shows a negative due, the dashboard nothing to receive. */
  lemma OverpaidTeamDue(t: Transaction)
    requires t.entityType == TeamEntity && t.txType == Income && t.amountDue == 0 && t.amountPaid == 20
    ensures TeamsDue([t]) == -20
    ensures TeamsReceivable([t]) == 0 && TeamsIncome([t]) == 20
  {
    assert [t][1..] == [];
    assert Filter([t], IsTeamEntry) == [t];
    assert Filter([t], IsTeamIncome) == [t];
    assert Sum([t], SignedOwed) == -20;
    assert Sum([t], Outstanding) == 0;
    assert Sum([t], PaidOf) == 20;
  }

  /** Neither list-page figure depends on the order of the list. */
  lemma GeneralStatsPermutation(a: seq<Transaction>, b: seq<Transaction>)
    requires multiset(a) == multiset(b)
    ensures TeamsDue(a) == TeamsDue(b) && TeamsIncome(a) == TeamsIncome(b)
  {
    SumFilterPermutation(a, b, IsTeamEntry, SignedOwed);
    SumFilterPermutation(a, b, IsTeamIncome, PaidOf);
  }

  /** One team's figures: what it paid on income entries, and its debt. */
  datatype TeamStats = TeamStats(paid: int, debt: int)

  /** `getTeamStats`: selects by entity id alone; the debt is every charge minus the income payments, unfloored. */
  function TeamStatsOf(ts: seq<Transaction>, teamId: string): (s: TeamStats)
  {
    var mine := Filter(ts, OfEntity(teamId));
    var paid := Sum(Filter(mine, IsIncome), PaidOf);
    TeamStats(paid, Sum(mine, DueOf) - paid)
  }

  /** Income entries count what is left on them; any other entry counts its whole charge, since its payment is not credited. */
  lemma TeamDebtSplit(ts: seq<Transaction>, teamId: string)
    ensures var mine := Filter(ts, OfEntity(teamId));
      TeamStatsOf(ts, teamId).debt == Sum(Filter(mine, IsIncome), SignedOwed) + Sum(Filter(mine, IsNotIncome), DueOf)
  {
    var mine := Filter(ts, OfEntity(teamId));
    SumSplit(mine, IsIncome, IsNotIncome, DueOf);
    SumDifference(Filter(mine, IsIncome), DueOf, PaidOf, SignedOwed);
  }

  /** A new entry moves a team's figures exactly when its entity id is the team's, whatever its entity type. */
  lemma TeamStatsSnoc(ts: seq<Transaction>, teamId: string, t: Transaction)
    ensures t.entityId != teamId ==> TeamStatsOf(ts + [t], teamId) == TeamStatsOf(ts, teamId)
    ensures t.entityId == teamId ==>
      var paid := if t.txType == Income then t.amountPaid as int else 0;
      TeamStatsOf(ts + [t], teamId) == TeamStats(TeamStatsOf(ts, teamId).paid + paid,
                                                 TeamStatsOf(ts, teamId).debt + t.amountDue - paid)
  {
    var p := OfEntity(teamId);
    FilterAppend(ts, [t], p);
    var mine := Filter(ts, p);
    if t.entityId == teamId {
      assert Filter(ts + [t], p) == mine + [t];
      SumFilterSnoc(mine, t, IsIncome, PaidOf);
      SumAppend(mine, [t], DueOf);
    } else {
      assert Filter(ts + [t], p) == mine;
    }
  }

  /** A team's figures do not depend on the order of the list. */
  lemma TeamStatsPermutation(a: seq<Transaction>, b: seq<Transaction>, teamId: string)
    requires multiset(a) == multiset(b)
    ensures TeamStatsOf(a, teamId) == TeamStatsOf(b, teamId)
  {
    var p := OfEntity(teamId);
    FilterPermutation(a, b, p);
    SumFilterPermutation(Filter(a, p), Filter(b, p), IsIncome, PaidOf);
    SumPermutation(Filter(a, p), Filter(b, p), DueOf);
  }

  predicate IsMatchFee(t: Transaction) { t.category == MATCH_FEE }
  predicate IsRegistrationFee(t: Transaction) { t.category == REGISTRATION_FEE }
  predicate IsOtherFee(t: Transaction) { t.category != MATCH_FEE && t.category != REGISTRATION_FEE }

  /** The profile's three tables. */
  datatype Fees = Fees(matchFees: seq<Transaction>, registrationFees: seq<Transaction>, otherFees: seq<Transaction>)

  /** The team's statement split into match fees, registration fees and the rest, each in statement order. */
  function FeesOf(ts: seq<Transaction>, teamId: string): (f: Fees)
  {
    var statement := Statement(ts, teamId);
    Fees(Filter(statement, IsMatchFee), Filter(statement, IsRegistrationFee), Filter(statement, IsOtherFee))
  }

  /** The three tables partition the statement: every entry is in them as often as in the statement, all in one table. */
  lemma FeesPartition(ts: seq<Transaction>, teamId: string)
    ensures var f := FeesOf(ts, teamId);
      multiset(f.matchFees) + multiset(f.registrationFees) + multiset(f.otherFees) == multiset(Statement(ts, teamId))
  {
    var statement := Statement(ts, teamId);
    var f := FeesOf(ts, teamId);
    forall t ensures (multiset(f.matchFees) + multiset(f.registrationFees) + multiset(f.otherFees))[t] == multiset(statement)[t] {
      FilterCount(statement, IsMatchFee, t);
      FilterCount(statement, IsRegistrationFee, t);
      FilterCount(statement, IsOtherFee, t);
    }
  }

  /** An entry of the team lands in the table of its category and in no other. */
  lemma FeesByCategory(ts: seq<Transaction>, teamId: string, t: Transaction)
    requires t in ts && t.entityId == teamId
    ensures var f := FeesOf(ts, teamId);
      (t in f.matchFees <==> IsMatchFee(t)) && (t in f.registrationFees <==> IsRegistrationFee(t)) &&
      (t in f.otherFees <==> IsOtherFee(t))
  {
    var statement := Statement(ts, teamId);
    StatementSpec(ts, teamId);
    assert multiset(statement)[t] > 0;
    FilterCount(statement, IsMatchFee, t);
    FilterCount(statement, IsRegistrationFee, t);
    FilterCount(statement, IsOtherFee, t);
  }

  /** Each table keeps the statement's newest-first order. */
  lemma FeesSorted(ts: seq<Transaction>, teamId: string)
    ensures var f := FeesOf(ts, teamId);
      Sorted(f.matchFees, DateOf, true) && Sorted(f.registrationFees, DateOf, true) && Sorted(f.otherFees, DateOf, true)
  {
    var statement := Statement(ts, teamId);
    StatementSpec(ts, teamId);
    FilterSorted(statement, IsMatchFee, DateOf, true);
    FilterSorted(statement, IsRegistrationFee, DateOf, true);
    FilterSorted(statement, IsOtherFee, DateOf, true);
  }
}
