// The ledger's query layer (components/LedgerView.tsx): the transactions newest
// first, narrowed by up to nine filters joined with AND, the net total of the
// visible slice, and the list of rounds offered in the round filter.

module LedgerView {
  import opened Collections
  import opened Text
  import opened Sorting
  import opened Domain

  /** The filter bar; an empty text means "no filter". */
  datatype Filters = Filters(
    month: string,
    group: string,
    competition: string,
    entity: string,
    txType: string,
    round: string,
    season: string,
    week: string,
    search: string)

  const NO_FILTERS: Filters := Filters("", "", "", "", "", "", "", "", "")

  /** The section filter: teams, staff, the court, or general costs; any other value selects everything. */
  predicate InGroup(group: string, t: Transaction)
  {
    if group == "TEAM" then t.entityType == TeamEntity
    else if group == "STAFF" then t.entityType == StaffEntity
    else if group == "LOCATION" then t.category == COURT_RENTAL
    else if group == "COSTS" then t.txType == Expense && t.entityType != StaffEntity && t.category != COURT_RENTAL
    else true
  }

  /** The search box: the lower-cased term occurs in the lower-cased name, category or (non-empty) round. */
  predicate Mentions(term: string, t: Transaction)
  {
    var lower := Lower(term);
    Contains(Lower(t.entityName), lower)
    || Contains(Lower(t.category), lower)
    || (t.round.Some? && t.round.value != "" && Contains(Lower(t.round.value), lower))
  }

  /** A transaction passes every filter that is set. */
  predicate Matches(f: Filters, t: Transaction)
  {
    (f.month == "" || HasPrefix(t.date, f.month))
    && (f.group == "" || InGroup(f.group, t))
    && (f.competition == "" || t.competitionId == Some(f.competition))
    && (f.entity == "" || t.entityId == f.entity)
    && (f.txType == "" || TxTypeName(t.txType) == f.txType)
    && (f.round == "" || t.round == Some(f.round))
    && (f.season == "" || t.seasonId == Some(f.season))
    && (f.week == "" || t.weekId == Some(f.week))
    && (f.search == "" || Mentions(f.search, t))
  }

  function Matcher(f: Filters): Transaction -> bool
  {
    t => Matches(f, t)
  }

  /** What the ledger shows: the matching transactions, newest first. */
  function Slice(ts: seq<Transaction>, f: Filters): seq<Transaction>
  {
    Filter(NewestFirst(ts), Matcher(f))
  }

  // The filters one at a time, in the order the view applies them.

  function OfEntityType(e: EntityType): Transaction -> bool { (t: Transaction) => t.entityType == e }
  function IsLedgerCost(): Transaction -> bool
  {
    (t: Transaction) => t.txType == Expense && t.entityType != StaffEntity && t.category != COURT_RENTAL
  }
  function InCompetition(c: string): Transaction -> bool { (t: Transaction) => t.competitionId == Some(c) }
  function OfTypeName(n: string): Transaction -> bool { (t: Transaction) => TxTypeName(t.txType) == n }
  function InRound(r: string): Transaction -> bool { (t: Transaction) => t.round == Some(r) }
  function InSeason(s: string): Transaction -> bool { (t: Transaction) => t.seasonId == Some(s) }
  function InWeek(w: string): Transaction -> bool { (t: Transaction) => t.weekId == Some(w) }
  function Searching(term: string): Transaction -> bool { (t: Transaction) => Mentions(term, t) }
  function AnyTransaction(): Transaction -> bool { (t: Transaction) => true }

  /** The section filters the view knows. */
  predicate KnownGroup(group: string)
  {
    group == "TEAM" || group == "STAFF" || group == "LOCATION" || group == "COSTS"
  }

  function GroupFilter(group: string): Transaction -> bool
  {
    if group == "TEAM" then OfEntityType(TeamEntity)
    else if group == "STAFF" then OfEntityType(StaffEntity)
    else if group == "LOCATION" then IsCourtRental
    else if group == "COSTS" then IsLedgerCost()
    else AnyTransaction()
  }

  /** Filter number `k` (0 to 8) narrows the list: its field is set (for the section, to a known value). */
  predicate Applies(f: Filters, k: nat)
  {
    match k
    case 0 => f.month != ""
    case 1 => KnownGroup(f.group)
    case 2 => f.competition != ""
    case 3 => f.entity != ""
    case 4 => f.txType != ""
    case 5 => f.round != ""
    case 6 => f.season != ""
    case 7 => f.week != ""
    case _ => f.search != ""
  }

  /** The test filter number `k` applies when it narrows the list. */
  function Stage(f: Filters, k: nat): Transaction -> bool
  {
    match k
    case 0 => OnMonth(f.month)
    case 1 => GroupFilter(f.group)
    case 2 => InCompetition(f.competition)
    case 3 => OfEntity(f.entity)
    case 4 => OfTypeName(f.txType)
    case 5 => InRound(f.round)
    case 6 => InSeason(f.season)
    case 7 => InWeek(f.week)
    case _ => Searching(f.search)
  }

  predicate Check(f: Filters, k: nat, t: Transaction)
  {
    !Applies(f, k) || Stage(f, k)(t)
  }

  /** The first `k` filters all pass `t`. */
  predicate UpTo(f: Filters, k: nat, t: Transaction)
  {
    (k <= 0 || Check(f, 0, t)) && (k <= 1 || Check(f, 1, t)) && (k <= 2 || Check(f, 2, t))
    && (k <= 3 || Check(f, 3, t)) && (k <= 4 || Check(f, 4, t)) && (k <= 5 || Check(f, 5, t))
    && (k <= 6 || Check(f, 6, t)) && (k <= 7 || Check(f, 7, t)) && (k <= 8 || Check(f, 8, t))
  }

  function Criterion(f: Filters, k: nat): Transaction -> bool
  {
    t => UpTo(f, k, t)
  }

  /** Applying the filters one after another is the same as passing all of them. */
  lemma UpToAll(f: Filters, t: Transaction)
    ensures UpTo(f, 9, t) <==> Matches(f, t)
  {
  }

  /** One more filter: applied when it narrows the list, skipped otherwise. */
  lemma Step(sorted: seq<Transaction>, data: seq<Transaction>, f: Filters, k: nat)
    requires k < 9 && data == Filter(sorted, Criterion(f, k))
    ensures Applies(f, k) ==> Filter(data, Stage(f, k)) == Filter(sorted, Criterion(f, k + 1))
    ensures !Applies(f, k) ==> data == Filter(sorted, Criterion(f, k + 1))
  {
    if Applies(f, k) {
      FilterFilter(sorted, Criterion(f, k), Stage(f, k), Criterion(f, k + 1));
    } else {
      FilterCongruent(sorted, Criterion(f, k), Criterion(f, k + 1));
    }
  }

  /** The whole chain of filters selects what `Matches` selects. */
  lemma Finish(sorted: seq<Transaction>, f: Filters)
    ensures Filter(sorted, Criterion(f, 9)) == Filter(sorted, Matcher(f))
  {
    forall t ensures Criterion(f, 9)(t) == Matcher(f)(t) {
      UpToAll(f, t);
    }
    FilterCongruent(sorted, Criterion(f, 9), Matcher(f));
  }

  /** `filteredData`: sort newest first, then narrow by each filter that is set. */
  method FilteredData(ts: seq<Transaction>, f: Filters) returns (data: seq<Transaction>)
    ensures data == Slice(ts, f)
  {
    var sorted := NewestFirst(ts);
    data := sorted;
    FilterTrue(sorted, Criterion(f, 0));
    data := ByMonthAndSection(sorted, data, f);
    data := ByFields(sorted, data, f);
    data := ByCalendar(sorted, data, f);
    data := BySearch(sorted, data, f);
    Finish(sorted, f);
  }

  /** The month prefix, then the section. */
  method ByMonthAndSection(ghost sorted: seq<Transaction>, data0: seq<Transaction>, f: Filters) returns (data: seq<Transaction>)
    requires data0 == Filter(sorted, Criterion(f, 0))
    ensures data == Filter(sorted, Criterion(f, 2))
  {
    data := data0;
    Step(sorted, data, f, 0);
    if f.month != "" {
      data := Filter(data, OnMonth(f.month));
    }
    Step(sorted, data, f, 1);
    if f.group != "" {
      if f.group == "TEAM" {
        data := Filter(data, OfEntityType(TeamEntity));
      } else if f.group == "STAFF" {
        data := Filter(data, OfEntityType(StaffEntity));
      } else if f.group == "LOCATION" {
        data := Filter(data, IsCourtRental);
      } else if f.group == "COSTS" {
        data := Filter(data, IsLedgerCost());
      }
    }
  }

  /** The exact-match filters on the competition, the entity and the type. */
  method ByFields(ghost sorted: seq<Transaction>, data0: seq<Transaction>, f: Filters) returns (data: seq<Transaction>)
    requires data0 == Filter(sorted, Criterion(f, 2))
    ensures data == Filter(sorted, Criterion(f, 5))
  {
    data := data0;
    Step(sorted, data, f, 2);
    if f.competition != "" {
      data := Filter(data, InCompetition(f.competition));
    }
    Step(sorted, data, f, 3);
    if f.entity != "" {
      data := Filter(data, OfEntity(f.entity));
    }
    Step(sorted, data, f, 4);
    if f.txType != "" {
      data := Filter(data, OfTypeName(f.txType));
    }
  }

  /** The exact-match filters on the round, the season and the week. */
  method ByCalendar(ghost sorted: seq<Transaction>, data0: seq<Transaction>, f: Filters) returns (data: seq<Transaction>)
    requires data0 == Filter(sorted, Criterion(f, 5))
    ensures data == Filter(sorted, Criterion(f, 8))
  {
    data := data0;
    Step(sorted, data, f, 5);
    if f.round != "" {
      data := Filter(data, InRound(f.round));
    }
    Step(sorted, data, f, 6);
    if f.season != "" {
      data := Filter(data, InSeason(f.season));
    }
    Step(sorted, data, f, 7);
    if f.week != "" {
      data := Filter(data, InWeek(f.week));
    }
  }

  /** The free-text search. */
  method BySearch(ghost sorted: seq<Transaction>, data0: seq<Transaction>, f: Filters) returns (data: seq<Transaction>)
    requires data0 == Filter(sorted, Criterion(f, 8))
    ensures data == Filter(sorted, Criterion(f, 9))
  {
    data := data0;
    Step(sorted, data, f, 8);
    if f.search != "" {
      data := Filter(data, Searching(f.search));
    }
  }

  /** Soundness and completeness: a transaction is shown iff it is in the list and passes every filter that is set. */
  lemma SliceMembership(ts: seq<Transaction>, f: Filters, t: Transaction)
    ensures t in Slice(ts, f) <==> t in ts && Matches(f, t)
  {
    var sorted := NewestFirst(ts);
    FilterMembers(sorted, Matcher(f));
    assert t in sorted <==> t in ts by {
      assert t in multiset(sorted) <==> t in multiset(ts);
    }
    if t in Slice(ts, f) {
      var i :| 0 <= i < |Slice(ts, f)| && Slice(ts, f)[i] == t;
    }
    if t in ts && Matches(f, t) {
      var i :| 0 <= i < |sorted| && sorted[i] == t;
    }
  }

  /** The slice is ordered newest first. */
  lemma SliceSorted(ts: seq<Transaction>, f: Filters)
    ensures Sorted(Slice(ts, f), DateOf, true)
  {
    SortSorted(ts, DateOf, true);
    FilterSorted(NewestFirst(ts), Matcher(f), DateOf, true);
  }

  /** The slice holds the matching transactions, each as often as in the input. */
  lemma SlicePermutation(ts: seq<Transaction>, f: Filters)
    ensures multiset(Slice(ts, f)) == multiset(Filter(ts, Matcher(f)))
  {
    FilterPermutation(NewestFirst(ts), ts, Matcher(f));
  }

  /** With no filter set, the ledger shows every transaction, newest first. */
  lemma NoFiltersShowAll(ts: seq<Transaction>)
    ensures Slice(ts, NO_FILTERS) == NewestFirst(ts)
  {
    FilterTrue(NewestFirst(ts), Matcher(NO_FILTERS));
  }

  /** Filtering the slice again with the same filters changes nothing. */
  lemma SliceIdempotent(ts: seq<Transaction>, f: Filters)
    ensures Slice(Slice(ts, f), f) == Slice(ts, f)
  {
    var s := Slice(ts, f);
    SliceSorted(ts, f);
    SortOfSorted(s, DateOf, true);
    FilterMembers(NewestFirst(ts), Matcher(f));
    forall x | x in s ensures Matcher(f)(x) {
      var i :| 0 <= i < |s| && s[i] == x;
    }
    FilterAll(s, Matcher(f));
  }

  /** A section value the view does not know selects everything, as if no section were chosen. */
  lemma UnknownGroupSelectsAll(ts: seq<Transaction>, f: Filters)
    requires f.group !in ["TEAM", "STAFF", "LOCATION", "COSTS"]
    ensures Slice(ts, f) == Slice(ts, f.(group := ""))
  {
    FilterCongruent(NewestFirst(ts), Matcher(f), Matcher(f.(group := "")));
  }

  /** The search test read positionally: the term occurs at some index of one of the three texts. */
  lemma MentionsIff(term: string, t: Transaction)
    ensures Mentions(term, t) <==>
      (exists i: nat :: OccursAt(Lower(t.entityName), Lower(term), i))
      || (exists i: nat :: OccursAt(Lower(t.category), Lower(term), i))
      || (t.round.Some? && t.round.value != "" && exists i: nat :: OccursAt(Lower(t.round.value), Lower(term), i))
  {
    ContainsIff(Lower(t.entityName), Lower(term));
    ContainsIff(Lower(t.category), Lower(term));
    if t.round.Some? {
      ContainsIff(Lower(t.round.value), Lower(term));
    }
  }

  /** `totalSum`: income paid minus everything else paid, over the visible slice. */
  method TotalSum(data: seq<Transaction>) returns (total: int)
    ensures total == NetPaid(data)
  {
    var income, expense := 0, 0;
    var i := 0;
    while i < |data|
      invariant 0 <= i <= |data|
      invariant income == Sum(Filter(data[..i], IsIncome), PaidOf)
      invariant expense == Sum(Filter(data[..i], IsNotIncome), PaidOf)
    {
      var t := data[i];
      assert data[..i + 1] == data[..i] + [t];
      SumFilterSnoc(data[..i], t, IsIncome, PaidOf);
      SumFilterSnoc(data[..i], t, IsNotIncome, PaidOf);
      if t.txType == Income {
        income := income + t.amountPaid;
      } else {
        expense := expense + t.amountPaid;
      }
      i := i + 1;
    }
    assert data[..i] == data;
    total := income - expense;
  }

  /** The ledger's total is the net of the matching transactions, whatever order they are shown in. */
  lemma TotalOfSlice(ts: seq<Transaction>, f: Filters)
    ensures NetPaid(Slice(ts, f)) == NetPaid(Filter(ts, Matcher(f)))
  {
    SlicePermutation(ts, f);
    NetPaidPermutation(Slice(ts, f), Filter(ts, Matcher(f)));
  }

  /** Some transaction of `ts` carries the non-empty round `r`. */
  predicate HasRound(ts: seq<Transaction>, r: string)
  {
    r != "" && exists i :: 0 <= i < |ts| && ts[i].round == Some(r)
  }

  function Id(s: string): string { s }

  /** `availableRounds`: the distinct non-empty rounds, in ascending order. */
  method AvailableRounds(ts: seq<Transaction>) returns (rounds: seq<string>)
    ensures Sorted(rounds, Id, false)
    ensures Distinct(rounds)
    ensures forall r :: r in rounds <==> HasRound(ts, r)
  {
    var seen: seq<string> := [];
    var i := 0;
    while i < |ts|
      invariant 0 <= i <= |ts|
      invariant Distinct(seen)
      invariant forall r :: r in seen <==> HasRound(ts[..i], r)
    {
      var t := ts[i];
      assert forall r :: HasRound(ts[..i + 1], r) <==> HasRound(ts[..i], r) || (r != "" && t.round == Some(r)) by {
        assert ts[..i + 1] == ts[..i] + [t];
        forall r | HasRound(ts[..i], r) ensures HasRound(ts[..i + 1], r) {
          var j :| 0 <= j < i && ts[..i][j].round == Some(r);
          assert ts[..i + 1][j] == ts[..i][j];
        }
        forall r | r != "" && t.round == Some(r) ensures HasRound(ts[..i + 1], r) {
          assert ts[..i + 1][i] == t;
        }
        forall r | HasRound(ts[..i + 1], r) && t.round != Some(r) ensures HasRound(ts[..i], r) {
          var j :| 0 <= j < i + 1 && ts[..i + 1][j].round == Some(r);
          assert ts[..i][j] == ts[..i + 1][j];
        }
      }
      if t.round.Some? && t.round.value != "" && t.round.value !in seen {
        seen := seen + [t.round.value];
      }
      i := i + 1;
    }
    assert ts[..i] == ts;
    rounds := Sort(seen, Id, false);
    SortSorted(seen, Id, false);
    DistinctPermutation(seen, rounds);
    forall r ensures r in rounds <==> r in seen {
      assert r in multiset(rounds) <==> r in rounds;
      assert r in multiset(seen) <==> r in seen;
    }
  }
}
