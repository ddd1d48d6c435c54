// The staff area (components/StaffView.tsx): the figures of the list page under
// its month and role filters, and one staff member's figures and statement.

module StaffView {
  import opened Collections
  import opened Text
  import opened Domain
  import opened Dashboard

  /** `t => t.category === role` */
  function InCategory(role: string): Transaction -> bool { (t: Transaction) => t.category == role }

  /** The staff entries the list page sums: narrowed by month and by role when those are set. */
  function Selection(ts: seq<Transaction>, month: string, role: string): (r: seq<Transaction>)
  {
    var staff := Filter(ts, IsStaff);
    var inMonth := if month != "" then Filter(staff, OnMonth(month)) else staff;
    if role != "" then Filter(inMonth, InCategory(role)) else inMonth
  }

  /** The selection keeps each entry that is a staff entry in the month and role asked for, as often as it occurs, and no other. */
  lemma SelectionCount(ts: seq<Transaction>, month: string, role: string, t: Transaction)
    ensures multiset(Selection(ts, month, role))[t] ==
      if IsStaff(t) && (month == "" || HasPrefix(t.date, month)) && (role == "" || t.category == role)
      then multiset(ts)[t] else 0
  {
    var staff := Filter(ts, IsStaff);
    FilterCount(ts, IsStaff, t);
    var inMonth := if month != "" then Filter(staff, OnMonth(month)) else staff;
    if month != "" {
      FilterCount(staff, OnMonth(month), t);
    }
    if role != "" {
      FilterCount(inMonth, InCategory(role), t);
    }
  }

  /** The list page's totals. */
  datatype Aggregate = Aggregate(totalPaid: int, totalDue: int, count: nat)

  /** `aggregatedStats`: the plain sums of paid and due over the selection, and its size. */
  function AggregatedStats(ts: seq<Transaction>, month: string, role: string): (a: Aggregate)
  {
    var s := Selection(ts, month, role);
    Aggregate(Sum(s, PaidOf), Sum(s, DueOf), |s|)
  }

  /** The figure shown as "To Pay": total due minus total paid, unfloored. */
  function ToPay(a: Aggregate): int
  {
    a.totalDue - a.totalPaid
  }

  /** "To Pay" is the sum of what is left on each selected entry, overpayments counting against it. */
  lemma ToPayIsSignedSum(ts: seq<Transaction>, month: string, role: string)
    ensures ToPay(AggregatedStats(ts, month, role)) == Sum(Selection(ts, month, role), SignedOwed)
  {
    SumDifference(Selection(ts, month, role), DueOf, PaidOf, SignedOwed);
  }

  /** Setting the role filter narrows the month's selection; setting the month narrows the role's. */
  lemma SelectionNarrows(ts: seq<Transaction>, month: string, role: string)
    ensures Selection(ts, month, role) == if role != "" then Filter(Selection(ts, month, ""), InCategory(role)) else Selection(ts, month, "")
    ensures Selection(ts, month, role) == if month != "" then Filter(Selection(ts, "", role), OnMonth(month)) else Selection(ts, "", role)
  {
    if month != "" && role != "" {
      FilterCommute(Filter(ts, IsStaff), OnMonth(month), InCategory(role));
    }
  }

  /** Adding a month or a role filter never raises the count or either total. */
  lemma FiltersNeverIncrease(ts: seq<Transaction>, month: string, role: string)
    ensures var narrow, byRole, byMonth := AggregatedStats(ts, month, role), AggregatedStats(ts, "", role), AggregatedStats(ts, month, "");
      narrow.count <= byRole.count && narrow.totalPaid <= byRole.totalPaid && narrow.totalDue <= byRole.totalDue &&
      narrow.count <= byMonth.count && narrow.totalPaid <= byMonth.totalPaid && narrow.totalDue <= byMonth.totalDue
  {
    SelectionNarrows(ts, month, role);
    var byRole, byMonth := Selection(ts, "", role), Selection(ts, month, "");
    SumFilterAtMost(byRole, OnMonth(month), PaidOf);
    SumFilterAtMost(byRole, OnMonth(month), DueOf);
    SumFilterAtMost(byMonth, InCategory(role), PaidOf);
    SumFilterAtMost(byMonth, InCategory(role), DueOf);
  }

  /** A staff member's figures. */
  datatype StaffStats = StaffStats(paid: int, due: int)

  /** `getStaffStats`: selects by entity id alone, then sums what was paid and what is left, unfloored. */
  function StaffStatsOf(ts: seq<Transaction>, staffId: string): (s: StaffStats)
  {
    var mine := Filter(ts, OfEntity(staffId));
    StaffStats(Sum(mine, PaidOf), Sum(mine, SignedOwed))
  }

  /** Paid plus still due is everything charged to that id. */
  lemma StaffStatsCharged(ts: seq<Transaction>, staffId: string)
    ensures StaffStatsOf(ts, staffId).paid + StaffStatsOf(ts, staffId).due == Sum(Filter(ts, OfEntity(staffId)), DueOf)
  {
    SumDifference(Filter(ts, OfEntity(staffId)), DueOf, PaidOf, SignedOwed);
  }

  /** A new entry moves a member's figures exactly when its entity id is theirs, even when it is a team's entry. */
  lemma StaffStatsSnoc(ts: seq<Transaction>, staffId: string, t: Transaction)
    ensures t.entityId != staffId ==> StaffStatsOf(ts + [t], staffId) == StaffStatsOf(ts, staffId)
    ensures t.entityId == staffId ==>
      StaffStatsOf(ts + [t], staffId) == StaffStats(StaffStatsOf(ts, staffId).paid + t.amountPaid,
                                                    StaffStatsOf(ts, staffId).due + t.amountDue - t.amountPaid)
  {
    var p := OfEntity(staffId);
    FilterAppend(ts, [t], p);
    var mine := Filter(ts, p);
    if t.entityId == staffId {
      assert Filter(ts + [t], p) == mine + [t];
      SumAppend(mine, [t], PaidOf);
      SumAppend(mine, [t], SignedOwed);
    } else {
      assert Filter(ts + [t], p) == mine;
    }
  }

  /** The list page's figures do not depend on the order of the list. */
  lemma AggregatePermutation(a: seq<Transaction>, b: seq<Transaction>, month: string, role: string)
    requires multiset(a) == multiset(b)
    ensures AggregatedStats(a, month, role) == AggregatedStats(b, month, role)
  {
    var sa, sb := Selection(a, month, role), Selection(b, month, role);
    forall t ensures multiset(sa)[t] == multiset(sb)[t] {
      SelectionCount(a, month, role, t);
      SelectionCount(b, month, role, t);
    }
    assert multiset(sa) == multiset(sb);
    SumPermutation(sa, sb, PaidOf);
    SumPermutation(sa, sb, DueOf);
    assert |sa| == |multiset(sa)| == |multiset(sb)| == |sb|;
  }
}
