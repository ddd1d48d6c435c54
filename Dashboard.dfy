// The dashboard's headline figures (components/Dashboard.tsx): the cash balance,
// what is still to be received and paid, and the per-area panoramas.

module Dashboard {
  import opened Collections
  import opened Domain

  /** What is left to settle on one entry, never below zero: an overpayment leaves nothing. */
  function Outstanding(t: Transaction): (r: int)
    ensures r >= 0 && r >= t.amountDue - t.amountPaid
    ensures r == 0 || r == t.amountDue - t.amountPaid
    ensures r == 0 <==> t.amountPaid >= t.amountDue
  {
    if t.amountDue > t.amountPaid then t.amountDue - t.amountPaid else 0
  }

  /** Still to be received: the floored remainder of every income. */
  function Receivables(ts: seq<Transaction>): int
  {
    Sum(Filter(ts, IsIncome), Outstanding)
  }

  /** Still to be paid: the floored remainder of every other entry. */
  function Payables(ts: seq<Transaction>): int
  {
    Sum(Filter(ts, IsNotIncome), Outstanding)
  }

  predicate IsTeamIncome(t: Transaction) { t.entityType == TeamEntity && t.txType == Income }
  predicate IsStaff(t: Transaction) { t.entityType == StaffEntity }
  predicate IsGeneralCost(t: Transaction)
  {
    t.entityType == ExpenseEntity || (t.entityType == CostEntity && t.category != COURT_RENTAL)
  }

  function TeamsIncome(ts: seq<Transaction>): int { Sum(Filter(ts, IsTeamIncome), PaidOf) }
  function TeamsReceivable(ts: seq<Transaction>): int { Sum(Filter(ts, IsTeamIncome), Outstanding) }
  function StaffPaid(ts: seq<Transaction>): int { Sum(Filter(ts, IsStaff), PaidOf) }
  function StaffDue(ts: seq<Transaction>): int { Sum(Filter(ts, IsStaff), Outstanding) }
  function LocationPaid(ts: seq<Transaction>): int { Sum(Filter(ts, IsCourtRental), PaidOf) }
  function GeneralCostsPaid(ts: seq<Transaction>): int { Sum(Filter(ts, IsGeneralCost), PaidOf) }

  datatype Stats = Stats(
    balance: int,
    receivables: int,
    payables: int,
    teamsIncome: int,
    teamsReceivable: int,
    staffPaid: int,
    staffDue: int,
    locationPaid: int,
    generalCostsPaid: int)

  /** The dashboard's figures, accumulated in one pass over the list as the view does. */
  method ComputeStats(ts: seq<Transaction>) returns (s: Stats)
    ensures s.balance == NetPaid(ts)
    ensures s.receivables == Receivables(ts) && s.payables == Payables(ts)
    ensures s.receivables >= 0 && s.payables >= 0
    ensures s.teamsIncome == TeamsIncome(ts) && s.teamsReceivable == TeamsReceivable(ts)
    ensures s.staffPaid == StaffPaid(ts) && s.staffDue == StaffDue(ts)
    ensures s.locationPaid == LocationPaid(ts) && s.generalCostsPaid == GeneralCostsPaid(ts)
  {
    var balance, receivables, payables := 0, 0, 0;
    var i := 0;
    while i < |ts|
      invariant 0 <= i <= |ts|
      invariant balance == NetPaid(ts[..i])
      invariant receivables == Receivables(ts[..i]) && receivables >= 0
      invariant payables == Payables(ts[..i]) && payables >= 0
    {
      var t := ts[i];
      assert ts[..i + 1] == ts[..i] + [t];
      StatsStep(ts[..i], t);
      var due: int, paid: int := t.amountDue, t.amountPaid;
      if t.txType == Income {
        balance := balance + paid;
        receivables := receivables + if due - paid > 0 then due - paid else 0;
      } else {
        balance := balance - paid;
        payables := payables + if due - paid > 0 then due - paid else 0;
      }
      i := i + 1;
    }
    assert ts[..i] == ts;
    s := Stats(balance, receivables, payables,
               TeamsIncome(ts), TeamsReceivable(ts), StaffPaid(ts), StaffDue(ts),
               LocationPaid(ts), GeneralCostsPaid(ts));
  }

  /** How one more entry moves the three running totals. */
  lemma StatsStep(ts: seq<Transaction>, t: Transaction)
    ensures NetPaid(ts + [t]) == NetPaid(ts) + if t.txType == Income then t.amountPaid as int else -(t.amountPaid as int)
    ensures Receivables(ts + [t]) == Receivables(ts) + if t.txType == Income then Outstanding(t) else 0
    ensures Payables(ts + [t]) == Payables(ts) + if t.txType == Income then 0 else Outstanding(t)
  {
    NetPaidSnoc(ts, t);
    SumFilterSnoc(ts, t, IsIncome, Outstanding);
    SumFilterSnoc(ts, t, IsNotIncome, Outstanding);
  }

  /** The floored sums never go below zero. */
  lemma FloorsNonNegative(ts: seq<Transaction>)
    ensures Receivables(ts) >= 0 && Payables(ts) >= 0
    ensures TeamsReceivable(ts) >= 0 && StaffDue(ts) >= 0
  {
    SumNonNegative(Filter(ts, IsIncome), Outstanding);
    SumNonNegative(Filter(ts, IsNotIncome), Outstanding);
    SumNonNegative(Filter(ts, IsTeamIncome), Outstanding);
    SumNonNegative(Filter(ts, IsStaff), Outstanding);
  }

  /** Every figure on the dashboard is independent of the order of the list. */
  lemma StatsPermutation(a: seq<Transaction>, b: seq<Transaction>)
    requires multiset(a) == multiset(b)
    ensures NetPaid(a) == NetPaid(b)
    ensures Receivables(a) == Receivables(b) && Payables(a) == Payables(b)
    ensures TeamsIncome(a) == TeamsIncome(b) && TeamsReceivable(a) == TeamsReceivable(b)
    ensures StaffPaid(a) == StaffPaid(b) && StaffDue(a) == StaffDue(b)
    ensures LocationPaid(a) == LocationPaid(b) && GeneralCostsPaid(a) == GeneralCostsPaid(b)
  {
    NetPaidPermutation(a, b);
    SumFilterPermutation(a, b, IsIncome, Outstanding);
    SumFilterPermutation(a, b, IsNotIncome, Outstanding);
    SumFilterPermutation(a, b, IsTeamIncome, PaidOf);
    SumFilterPermutation(a, b, IsTeamIncome, Outstanding);
    SumFilterPermutation(a, b, IsStaff, PaidOf);
    SumFilterPermutation(a, b, IsStaff, Outstanding);
    SumFilterPermutation(a, b, IsCourtRental, PaidOf);
    SumFilterPermutation(a, b, IsGeneralCost, PaidOf);
  }

  /**
   * An income paid in full or beyond adds its whole payment to the balance and
   * nothing to the receivables (an income with nothing due and 20 paid adds 20 and 0).
   */
  lemma OverpaidIncome(ts: seq<Transaction>, t: Transaction)
    requires t.txType == Income && t.amountPaid >= t.amountDue
    ensures NetPaid(ts + [t]) == NetPaid(ts) + t.amountPaid
    ensures Receivables(ts + [t]) == Receivables(ts)
    ensures Payables(ts + [t]) == Payables(ts)
  {
    NetPaidSnoc(ts, t);
    SumFilterSnoc(ts, t, IsIncome, Outstanding);
    SumFilterSnoc(ts, t, IsNotIncome, Outstanding);
  }

  /** Any entry that is not an income lowers the balance by what was paid on it, whatever its category. */
  lemma OutgoingEntry(ts: seq<Transaction>, t: Transaction)
    requires t.txType != Income
    ensures NetPaid(ts + [t]) == NetPaid(ts) - t.amountPaid
    ensures Receivables(ts + [t]) == Receivables(ts)
    ensures Payables(ts + [t]) == Payables(ts) + Outstanding(t)
  {
    NetPaidSnoc(ts, t);
    SumFilterSnoc(ts, t, IsIncome, Outstanding);
    SumFilterSnoc(ts, t, IsNotIncome, Outstanding);
  }

  /** Team receivables are part of all receivables; team income is part of all income received. */
  lemma TeamsWithinTotals(ts: seq<Transaction>)
    ensures TeamsReceivable(ts) <= Receivables(ts)
    ensures TeamsIncome(ts) <= Sum(Filter(ts, IsIncome), PaidOf)
  {
    FilterFilter(ts, IsIncome, IsTeamEntry, IsTeamIncome);
    SumFilterAtMost(Filter(ts, IsIncome), IsTeamEntry, Outstanding);
    SumFilterAtMost(Filter(ts, IsIncome), IsTeamEntry, PaidOf);
  }

  predicate IsTeamEntry(t: Transaction) { t.entityType == TeamEntity }

  /** The same entry with the other transaction type. */
  function FlipType(t: Transaction): Transaction
  {
    t.(txType := if t.txType == Income then Expense else Income)
  }

  /**
   * The staff, court and general-cost panoramas ignore the transaction type:
   * flipping the type of every entry leaves them unchanged.
   */
  lemma PanoramasIgnoreType(ts: seq<Transaction>)
    ensures StaffPaid(Map(ts, FlipType)) == StaffPaid(ts)
    ensures StaffDue(Map(ts, FlipType)) == StaffDue(ts)
    ensures LocationPaid(Map(ts, FlipType)) == LocationPaid(ts)
    ensures GeneralCostsPaid(Map(ts, FlipType)) == GeneralCostsPaid(ts)
  {
    SumFilterMap(ts, FlipType, IsStaff, PaidOf);
    SumFilterMap(ts, FlipType, IsStaff, Outstanding);
    SumFilterMap(ts, FlipType, IsCourtRental, PaidOf);
    SumFilterMap(ts, FlipType, IsGeneralCost, PaidOf);
  }

  /** The same entry under another entity type. */
  function Reclassify(e: EntityType): Transaction -> Transaction
  {
    (t: Transaction) => t.(entityType := e)
  }

  /** The court panorama counts every court-rental entry, whatever entity it is booked against. */
  lemma LocationIgnoresEntity(ts: seq<Transaction>, e: EntityType)
    ensures LocationPaid(Map(ts, Reclassify(e))) == LocationPaid(ts)
  {
    SumFilterMap(ts, Reclassify(e), IsCourtRental, PaidOf);
  }
}
