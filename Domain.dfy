// The league's bookkeeping records (types.ts) and constants (constants.ts).
// Money is held in integer cents; dates are ISO `YYYY-MM-DD` strings.

module Domain {
  import opened Collections
  import opened Text
  import opened Sorting

  datatype TxType = Income | Expense

  /** The type as the source spells it. */
  function TxTypeName(t: TxType): string
  {
    match t
    case Income => "INCOME"
    case Expense => "EXPENSE"
  }

  datatype Status = Pending | Partial | Paid

  datatype EntityType = TeamEntity | StaffEntity | CostEntity | ExpenseEntity | OtherEntity

  datatype ContextType = CompetitionContext | EventContext

  datatype Role = Arbitro | Mesario | Midia | Outro

  datatype Season = Season(id: string, name: string)

  datatype Week = Week(id: string, name: string)

  datatype Competition = Competition(id: string, name: string, seasonId: string, rounds: seq<string>, logo: Option<string>)

  datatype Team = Team(id: string, name: string, logo: Option<string>)

  datatype StaffMember = StaffMember(id: string, name: string, photo: Option<string>, defaultRole: Role)

  /** One ledger entry; `amountDue` and `amountPaid` are in cents. */
  datatype Transaction = Transaction(
    id: string,
    date: string,
    txType: TxType,
    category: string,
    entityId: string,
    entityName: string,
    entityType: EntityType,
    description: Option<string>,
    matchesWorked: Option<nat>,
    seasonId: Option<string>,
    weekId: Option<string>,
    competitionId: Option<string>,
    round: Option<string>,
    contextType: ContextType,
    amountDue: nat,
    amountPaid: nat,
    status: Status,
    notes: Option<string>,
    createdAt: int)

  /** A transaction as the entry form assembles it, before it is given an id and a creation time. */
  datatype Draft = Draft(
    date: string,
    txType: TxType,
    category: string,
    entityId: string,
    entityName: string,
    entityType: EntityType,
    description: Option<string>,
    matchesWorked: Option<nat>,
    seasonId: Option<string>,
    weekId: Option<string>,
    competitionId: Option<string>,
    round: Option<string>,
    contextType: ContextType,
    amountDue: nat,
    amountPaid: nat,
    status: Status,
    notes: Option<string>)

  /** The draft completed with its id and creation time. */
  function Stamp(d: Draft, id: string, createdAt: int): Transaction
  {
    Transaction(id, d.date, d.txType, d.category, d.entityId, d.entityName, d.entityType,
                d.description, d.matchesWorked, d.seasonId, d.weekId, d.competitionId, d.round,
                d.contextType, d.amountDue, d.amountPaid, d.status, d.notes, createdAt)
  }

  datatype AppState = AppState(
    transactions: seq<Transaction>,
    teams: seq<Team>,
    staff: seq<StaffMember>,
    competitions: seq<Competition>,
    seasons: seq<Season>,
    weeks: seq<Week>)

  const COURT_RENTAL: string := "Aluguel Quadra"
  const MATCH_FEE: string := "Taxa Jogo"
  const REGISTRATION_FEE: string := "Inscrição"

  /** Court rent per hour, in reais. */
  const COURT_HOURLY_RATE: nat := 90
  /** Court rent per half hour, in cents: the form counts hours in steps of one half. */
  const COURT_HALF_HOUR_CENTS: nat := COURT_HOURLY_RATE * 100 / 2

  const TEAM_CATEGORIES: seq<string> := ["Taxa Jogo", "Inscrição", "Multa", "Outros"]
  const STAFF_CATEGORIES: seq<string> := ["Arbitro", "Mesario", "Midia", "Outros"]
  const COST_CATEGORIES: seq<string> := ["Aluguel Quadra", "Alimentação", "Outros"]
  const EXPENSE_CATEGORIES: seq<string> := ["Premiação", "Equipamentos", "Logística", "Marketing", "Outros"]

  const INITIAL_TEAMS: seq<Team> := [Team("1", "Orange Ballers", None), Team("2", "Black Mambas", None)]
  const INITIAL_STAFF: seq<StaffMember> := [StaffMember("1", "Carlos Juiz", None, Arbitro)]
  const INITIAL_SEASONS: seq<Season> := [Season("1", "2025 I"), Season("2", "2025 II")]
  const INITIAL_WEEKS: seq<Week> := [Week("1", "#Week 1"), Week("2", "#Week 2"), Week("3", "#SuperWeek")]
  const INITIAL_COMPETITIONS: seq<Competition> :=
    [Competition("1", "Liga Orange 2025", "1", ["Rodada 1", "Rodada 2", "Rodada 3", "Semifinal", "Final"], None)]

  // Selectors shared by the views' filters and sums.

  function PaidOf(t: Transaction): int { t.amountPaid }
  function DueOf(t: Transaction): int { t.amountDue }
  predicate IsIncome(t: Transaction) { t.txType == Income }
  predicate IsNotIncome(t: Transaction) { t.txType != Income }
  function DateOf(t: Transaction): string { t.date }
  predicate IsCourtRental(t: Transaction) { t.category == COURT_RENTAL }
  function SignedOwed(t: Transaction): int { t.amountDue - t.amountPaid }

  /** `t => t.date.startsWith(m)`: the month filters. */
  function OnMonth(m: string): Transaction -> bool { (t: Transaction) => HasPrefix(t.date, m) }
  /** `t => t.entityId === id`: the profile pages' selection. */
  function OfEntity(id: string): Transaction -> bool { (t: Transaction) => t.entityId == id }

  /** Newest first by the ISO date, ties in list order. */
  function NewestFirst(ts: seq<Transaction>): (r: seq<Transaction>)
    ensures multiset(r) == multiset(ts)
  {
    Sort(ts, DateOf, true)
  }

  /** A profile page's statement: the entries booked against `id`, newest first. */
  function Statement(ts: seq<Transaction>, id: string): (r: seq<Transaction>)
    ensures multiset(r) == multiset(Filter(ts, OfEntity(id)))
  {
    NewestFirst(Filter(ts, OfEntity(id)))
  }

  /** The statement is ordered newest first and holds exactly the entries whose entity id is `id`, whatever their kind. */
  lemma StatementSpec(ts: seq<Transaction>, id: string)
    ensures Sorted(Statement(ts, id), DateOf, true)
    ensures forall t :: t in Statement(ts, id) <==> t in ts && t.entityId == id
    ensures forall t :: multiset(Statement(ts, id))[t] == if t.entityId == id then multiset(ts)[t] else 0
  {
    SortSorted(Filter(ts, OfEntity(id)), DateOf, true);
    forall t ensures multiset(Statement(ts, id))[t] == if t.entityId == id then multiset(ts)[t] else 0 {
      FilterCount(ts, OfEntity(id), t);
    }
  }

  /** Cash paid in on income minus cash paid out on everything else. */
  function NetPaid(ts: seq<Transaction>): int
  {
    Sum(Filter(ts, IsIncome), PaidOf) - Sum(Filter(ts, IsNotIncome), PaidOf)
  }

  /** The same balance as one signed sum: each income counts its payment up, every other entry down. */
  function SignedPaid(t: Transaction): int
  {
    if t.txType == Income then t.amountPaid as int else -(t.amountPaid as int)
  }

  lemma {:induction false} NetPaidSigned(ts: seq<Transaction>)
    ensures NetPaid(ts) == Sum(ts, SignedPaid)
  {
    if ts != [] {
      NetPaidSigned(ts[1..]);
      FilterCons(ts[0], ts[1..], IsIncome);
      FilterCons(ts[0], ts[1..], IsNotIncome);
      SumCons(ts[0], ts[1..], SignedPaid);
      assert [ts[0]] + ts[1..] == ts;
      var inc := if IsIncome(ts[0]) then [ts[0]] else [];
      var out := if IsNotIncome(ts[0]) then [ts[0]] else [];
      SumAppend(inc, Filter(ts[1..], IsIncome), PaidOf);
      SumAppend(out, Filter(ts[1..], IsNotIncome), PaidOf);
    }
  }

  /** The net balance does not depend on the order of the list. */
  lemma NetPaidPermutation(a: seq<Transaction>, b: seq<Transaction>)
    requires multiset(a) == multiset(b)
    ensures NetPaid(a) == NetPaid(b)
  {
    NetPaidSigned(a);
    NetPaidSigned(b);
    SumPermutation(a, b, SignedPaid);
  }

  /** Appending one entry moves the balance by its signed payment. */
  lemma NetPaidSnoc(ts: seq<Transaction>, t: Transaction)
    ensures NetPaid(ts + [t]) == NetPaid(ts) + SignedPaid(t)
  {
    SumFilterSnoc(ts, t, IsIncome, PaidOf);
    SumFilterSnoc(ts, t, IsNotIncome, PaidOf);
  }
}
