// The court area (components/LocationView.tsx): the court-rental entries of the
// chosen month, newest first, and their total charged and paid.

module LocationView {
  import opened Collections
  import opened Text
  import opened Sorting
  import opened Domain
  import opened Dashboard

  /** A court rental booked as a general cost. */
  predicate IsCourtCost(t: Transaction) { t.entityType == CostEntity && t.category == COURT_RENTAL }

  /** `courtTransactions`: the court rentals, narrowed to a month when one is set, newest first. */
  function CourtTransactions(ts: seq<Transaction>, month: string): (r: seq<Transaction>)
  {
    var rentals := Filter(ts, IsCourtCost);
    NewestFirst(if month != "" then Filter(rentals, OnMonth(month)) else rentals)
  }

  /** How often `t` belongs on the page: as often as in the list when it is a court rental of the month, otherwise never. */
  function Chosen(ts: seq<Transaction>, month: string, t: Transaction): nat
  {
    if IsCourtCost(t) && (month == "" || HasPrefix(t.date, month)) then multiset(ts)[t] else 0
  }

  /** The list holds each court rental of the month as often as it occurs, and nothing else, newest first. */
  lemma CourtTransactionsSpec(ts: seq<Transaction>, month: string)
    ensures Sorted(CourtTransactions(ts, month), DateOf, true)
    ensures forall t :: multiset(CourtTransactions(ts, month))[t] == Chosen(ts, month, t)
  {
    var rentals := Filter(ts, IsCourtCost);
    var chosen := if month != "" then Filter(rentals, OnMonth(month)) else rentals;
    SortSorted(chosen, DateOf, true);
    forall t ensures multiset(CourtTransactions(ts, month))[t] == Chosen(ts, month, t) {
      FilterCount(ts, IsCourtCost, t);
      if month != "" {
        FilterCount(rentals, OnMonth(month), t);
      }
    }
  }

  /** The two totals of the page. */
  datatype Totals = Totals(totalDue: int, totalPaid: int)

  /** `totalDue` and `totalPaid`: the plain sums over the list. */
  function TotalsOf(ts: seq<Transaction>, month: string): (r: Totals)
  {
    var c := CourtTransactions(ts, month);
    Totals(Sum(c, DueOf), Sum(c, PaidOf))
  }

  /** The totals are the sums over the court rentals of the month, whatever the sort did, and are never negative. */
  lemma TotalsSpec(ts: seq<Transaction>, month: string)
    ensures var rentals := Filter(ts, IsCourtCost);
      var chosen := if month != "" then Filter(rentals, OnMonth(month)) else rentals;
      TotalsOf(ts, month) == Totals(Sum(chosen, DueOf), Sum(chosen, PaidOf))
    ensures TotalsOf(ts, month).totalDue >= 0 && TotalsOf(ts, month).totalPaid >= 0
  {
    var rentals := Filter(ts, IsCourtCost);
    var chosen := if month != "" then Filter(rentals, OnMonth(month)) else rentals;
    SumPermutation(CourtTransactions(ts, month), chosen, DueOf);
    SumPermutation(CourtTransactions(ts, month), chosen, PaidOf);
    SumNonNegative(chosen, DueOf);
    SumNonNegative(chosen, PaidOf);
  }

  /** A month's totals never exceed the totals over every month. */
  lemma MonthWithinAll(ts: seq<Transaction>, month: string)
    ensures TotalsOf(ts, month).totalDue <= TotalsOf(ts, "").totalDue
    ensures TotalsOf(ts, month).totalPaid <= TotalsOf(ts, "").totalPaid
  {
    TotalsSpec(ts, month);
    TotalsSpec(ts, "");
    var rentals := Filter(ts, IsCourtCost);
    SumFilterAtMost(rentals, OnMonth(month), DueOf);
    SumFilterAtMost(rentals, OnMonth(month), PaidOf);
  }

  /** The page's paid total never exceeds the dashboard's court figure, which also counts court rentals booked under another entity type. */
  lemma WithinDashboard(ts: seq<Transaction>)
    ensures TotalsOf(ts, "").totalPaid <= LocationPaid(ts)
  {
    TotalsSpec(ts, "");
    var rentals := Filter(ts, IsCourtRental);
    FilterFilter(ts, IsCourtRental, IsCostEntry, IsCourtCost);
    SumFilterAtMost(rentals, IsCostEntry, PaidOf);
  }

  predicate IsCostEntry(t: Transaction) { t.entityType == CostEntity }

  /** A court rental booked against a team counts on the dashboard but not on this page. */
  lemma TeamRentalExcluded(t: Transaction)
    requires t.category == COURT_RENTAL && t.entityType == TeamEntity && t.amountPaid == 4500
    ensures TotalsOf([t], "").totalPaid == 0
    ensures LocationPaid([t]) == 4500
  {
    assert [t][1..] == [];
    assert Filter([t], IsCourtCost) == [];
    assert Filter([t], IsCourtRental) == [t];
    assert Sum([t], PaidOf) == 4500;
  }
}
