// The pure rules of the transaction entry form (components/TransactionModal.tsx):
// the status classifier, the DD/MM/YY date mask and its conversion to ISO,
// the entity and season lookups and the category lists.

module TransactionModal {
  import opened Collections
  import opened Text
  import opened Domain
  import opened Utils
  import Dashboard

  // Status

  /** The status effect on amounts in cents. */
  function Classify(due: nat, paid: nat): (s: Status)
    ensures s == Paid <==> due > 0 && paid >= due
    ensures s == Partial <==> paid > 0 && paid < due
    ensures s == Pending <==> !(due > 0 && paid >= due) && !(paid > 0 && paid < due)
  {
    if paid >= due && due > 0 then Paid
    else if paid > 0 && paid < due then Partial
    else Pending
  }

  /** An entry is pending exactly when nothing is due or nothing is paid (an overpaid entry with nothing due included). */
  lemma PendingIff(due: nat, paid: nat)
    ensures Classify(due, paid) == Pending <==> due == 0 || paid == 0
  {
  }

  /** How the status reads on the dashboard: paid leaves nothing outstanding, partial leaves part, pending with nothing paid leaves all. */
  lemma StatusOutstanding(t: Transaction)
    ensures Classify(t.amountDue, t.amountPaid) == Paid ==> Dashboard.Outstanding(t) == 0
    ensures Classify(t.amountDue, t.amountPaid) == Partial ==> 0 < Dashboard.Outstanding(t) < t.amountDue
    ensures Classify(t.amountDue, t.amountPaid) == Pending && t.amountPaid == 0 ==> Dashboard.Outstanding(t) == t.amountDue
    ensures Classify(t.amountDue, t.amountPaid) == Pending && t.amountPaid > 0 ==> t.amountDue == 0 && Dashboard.Outstanding(t) == 0
  {
  }

  /** A mask, as the amount fields always hold one: the mask of itself. */
  predicate IsMask(s: string) { MaskCurrency(s) == s }

  /** The cents a mask stands for. */
  function AmountOf(s: string): nat
  {
    DigitsValue(KeepDigits(s))
  }

  /** The status effect on the two amount texts; an amount that does not parse compares false both ways, leaving PENDING. */
  function StatusOf(dueText: string, paidText: string): Status
  {
    match (ParseCurrency(dueText), ParseCurrency(paidText))
    case (Some(due), Some(paid)) => Classify(due, paid)
    case _ => Pending
  }

  /** A mask parses to the cents it stands for, and masking a text gives a mask. */
  lemma MaskAmount(v: string)
    ensures IsMask(MaskCurrency(v))
    ensures ParseCurrency(MaskCurrency(v)) == Some(AmountOf(v))
    ensures AmountOf(MaskCurrency(v)) == AmountOf(v)
  {
    MaskIdempotent(v);
    ParseMask(v);
    ParseMask(MaskCurrency(v));
  }

  /** On masks the status effect classifies the cents they stand for. */
  lemma StatusOfMasks(dueText: string, paidText: string)
    requires IsMask(dueText) && IsMask(paidText)
    ensures StatusOf(dueText, paidText) == Classify(AmountOf(dueText), AmountOf(paidText))
  {
    MaskAmount(dueText);
    MaskAmount(paidText);
  }

  /** The mask of a count of cents written out in digits, as the form loads an amount. */
  lemma MaskOfCents(n: nat)
    ensures MaskCurrency(Decimal(n)) == FormatCents(n)
    ensures IsMask(FormatCents(n)) && AmountOf(FormatCents(n)) == n
  {
    FilterAll(Decimal(n), IsDigit);
    DecimalValue(n);
    MaskAmount(Decimal(n));
  }

  /** The empty amount the form starts from. */
  lemma ZeroMask()
    ensures FormatCents(0) == "0,00"
    ensures IsMask("0,00") && AmountOf("0,00") == 0
  {
    assert Decimal(0) == "0";
    assert Pad2(0) == "00";
    MaskOfCents(0);
  }

  // Dates

  /** At most the first six of the digits. */
  function FirstSix(v: string): (r: string)
    ensures |r| <= 6 && |r| <= |v| && r == v[..|r|]
    ensures |v| <= 6 ==> r == v
  {
    if |v| > 6 then v[..6] else v
  }

  /** `handleDateChange`: up to six digits shown as DD/MM/YY while they are typed. */
  function MaskDate(val: string): (r: string)
    ensures |r| <= 8
  {
    var v := FirstSix(KeepDigits(val));
    if |v| > 4 then v[..2] + "/" + v[2..4] + "/" + v[4..]
    else if |v| > 2 then v[..2] + "/" + v[2..]
    else v
  }

  lemma KeepDigitsAll(v: string)
    requires AllDigits(v)
    ensures KeepDigits(v) == v
  {
    FilterAll(v, IsDigit);
  }

  /** A run of digits followed by a '/' contributes just its digits. */
  lemma SlashAfterDigits(a: string, b: string)
    requires AllDigits(a)
    ensures KeepDigits(a + "/" + b) == a + KeepDigits(b)
  {
    assert a + "/" + b == a + (['/'] + b);
    FilterAppend(a, ['/'] + b, IsDigit);
    FilterCons('/', b, IsDigit);
    KeepDigitsAll(a);
  }

  /** The digits of two runs of digits around a '/' are the two runs. */
  lemma KeepDigitsSlash(a: string, b: string)
    requires AllDigits(a) && AllDigits(b)
    ensures KeepDigits(a + "/" + b) == a + b
  {
    SlashAfterDigits(a, b);
    KeepDigitsAll(b);
  }

  /** The digits of DD/MM/YY are DDMMYY. */
  lemma KeepDigitsDate(d: string, m: string, y: string)
    requires AllDigits(d) && AllDigits(m) && AllDigits(y)
    ensures KeepDigits(d + "/" + m + "/" + y) == d + m + y
  {
    assert d + "/" + m + "/" + y == d + "/" + (m + "/" + y);
    SlashAfterDigits(d, m + "/" + y);
    KeepDigitsSlash(m, y);
  }

  /** The mask keeps the first six digits typed and nothing else. */
  lemma MaskDateDigits(val: string)
    ensures KeepDigits(MaskDate(val)) == FirstSix(KeepDigits(val))
  {
    var v := FirstSix(KeepDigits(val));
    if |v| > 4 {
      KeepDigitsDate(v[..2], v[2..4], v[4..]);
      assert v[..2] + v[2..4] + v[4..] == v;
    } else if |v| > 2 {
      KeepDigitsSlash(v[..2], v[2..]);
      assert v[..2] + v[2..] == v;
    } else {
      KeepDigitsAll(v);
    }
  }

  /** Every character of a mask is a digit except the slashes after the second and the fourth digit. */
  lemma MaskDateShape(val: string)
    ensures var r := MaskDate(val);
      forall i :: 0 <= i < |r| ==> (r[i] == '/' <==> i == 2 || i == 5) && (r[i] != '/' ==> IsDigit(r[i]))
  {
    var v := FirstSix(KeepDigits(val));
    assert AllDigits(v);
    var r := MaskDate(val);
    forall i | 0 <= i < |r|
      ensures (r[i] == '/' <==> i == 2 || i == 5) && (r[i] != '/' ==> IsDigit(r[i]))
    {
      if |v| > 4 {
        assert r == v[..2] + "/" + v[2..4] + "/" + v[4..];
        if i < 2 { assert r[i] == v[i]; }
        else if 2 < i < 5 { assert r[i] == v[i - 1]; }
        else if i > 5 { assert r[i] == v[i - 2]; }
      } else if |v| > 2 {
        assert r == v[..2] + "/" + v[2..];
        if i < 2 { assert r[i] == v[i]; }
        else if i > 2 { assert r[i] == v[i - 1]; }
      } else {
        assert r == v && r[i] == v[i];
      }
    }
  }

  /** A full date, eight characters, is shown exactly when at least six digits were typed. */
  lemma MaskDateFull(val: string)
    ensures |MaskDate(val)| == 8 <==> |KeepDigits(val)| >= 6
  {
  }

  /** Typing a shown date again changes nothing. */
  lemma MaskDateIdempotent(val: string)
    ensures MaskDate(MaskDate(val)) == MaskDate(val)
  {
    MaskDateDigits(val);
  }

  /** `handleSubmit`'s date: an eight-character DD/MM/YY becomes 20YY-MM-DD; anything else falls back to today. */
  function IsoFromDisplay(display: string, todayIso: string): (r: string)
    ensures |display| != 8 ==> r == todayIso
  {
    if |display| == 8 then
      var parts := Split(display, '/');
      "20" + Part(parts, 2) + "-" + Part(parts, 1) + "-" + Part(parts, 0)
    else todayIso
  }

  lemma NoSlash(s: string)
    requires AllDigits(s)
    ensures '/' !in s
  {
  }

  /** DD/MM/YY split at its slashes. */
  lemma SplitDisplay(d: string, m: string, y: string)
    requires AllDigits(d) && AllDigits(m) && AllDigits(y)
    ensures Split(d + "/" + m + "/" + y, '/') == [d, m, y]
  {
    NoSlash(d);
    NoSlash(m);
    NoSlash(y);
    assert d + "/" + m + "/" + y == d + ['/'] + (m + ['/'] + y);
    SplitAt(d, '/', m + ['/'] + y);
    SplitAt(m, '/', y);
    SplitWhole(y, '/');
  }

  /** Six typed digits DDMMYY are submitted as 20YY-MM-DD. */
  lemma MaskedDateToIso(val: string, todayIso: string)
    requires |KeepDigits(val)| >= 6
    ensures var v := KeepDigits(val);
      IsoFromDisplay(MaskDate(val), todayIso) == "20" + v[4..6] + "-" + v[2..4] + "-" + v[..2]
  {
    var v := FirstSix(KeepDigits(val));
    SplitDisplay(v[..2], v[2..4], v[4..]);
  }

  /** An ISO date of this century shown as DD/MM/YY and submitted again is the same date; the shown form is already a mask. */
  lemma DateRoundTrip(iso: string, todayIso: string)
    requires IsIsoDate(iso) && iso[..2] == "20"
    ensures MaskDate(SwapDateParts(iso)) == SwapDateParts(iso)
    ensures IsoFromDisplay(SwapDateParts(iso), todayIso) == iso
  {
    SplitIsoDate(iso);
    var d, m, y := iso[8..], iso[5..7], iso[2..4];
    assert SwapDateParts(iso) == d + "/" + m + "/" + y;
    SplitDisplay(d, m, y);
    KeepDigitsDate(d, m, y);
    var v := d + m + y;
    assert v[..2] == d && v[2..4] == m && v[4..] == y;
    assert iso == "20" + y + "-" + m + "-" + d;
  }

  /** Any ISO date shown as DD/MM/YY and submitted again keeps all but its century, which becomes 20. */
  lemma CenturyLost(iso: string, todayIso: string)
    requires IsIsoDate(iso)
    ensures IsoFromDisplay(SwapDateParts(iso), todayIso) == "20" + iso[2..]
  {
    SplitIsoDate(iso);
    var d, m, y := iso[8..], iso[5..7], iso[2..4];
    assert SwapDateParts(iso) == d + "/" + m + "/" + y;
    SplitDisplay(d, m, y);
    assert iso[2..] == y + "-" + m + "-" + d;
  }

  /** An entry of 1999-05-04 is shown as 04/05/99 and submitted as 2099-05-04. */
  lemma CenturyLostExample(todayIso: string)
    ensures IsoFromDisplay(SwapDateParts("1999-05-04"), todayIso) == "2099-05-04"
  {
    IsoOf1999();
    CenturyLost("1999-05-04", todayIso);
    CenturyOf1999();
  }

  lemma CenturyOf1999()
    ensures "20" + "1999-05-04"[2..] == "2099-05-04"
  {
    var tail := "1999-05-04"[2..];
    assert tail == "99-05-04";
  }

  lemma IsoOf1999()
    ensures IsIsoDate("1999-05-04")
  {
    var iso := "1999-05-04";
    assert iso[..4] == "1999" && iso[5..7] == "05" && iso[8..] == "04";
  }



  // Entity and season

  function TeamHasId(id: string): Team -> bool { (x: Team) => x.id == id }
  function StaffHasId(id: string): StaffMember -> bool { (x: StaffMember) => x.id == id }
  function CompetitionHasId(id: string): Competition -> bool { (x: Competition) => x.id == id }

  datatype EntityRef = EntityRef(id: string, name: string)

  /**
   * `handleSubmit`'s entity: a team or a staff member keeps the chosen id and takes
   * the registry's name, or a placeholder when the id is not registered; any other
   * entity is booked under the id "GENERIC" with the typed name.
   */
  function ResolveEntity(e: EntityType, entityId: string, customEntity: string,
                         teams: seq<Team>, staff: seq<StaffMember>): (r: EntityRef)
    ensures e == TeamEntity || e == StaffEntity ==> r.id == entityId
    ensures e == TeamEntity && (forall k :: 0 <= k < |teams| ==> teams[k].id != entityId) ==> r.name == "Unknown Team"
    ensures e == TeamEntity && (exists k :: 0 <= k < |teams| && teams[k].id == entityId) ==>
      exists k :: 0 <= k < |teams| && teams[k].id == entityId && r.name == teams[k].name
        && forall j :: 0 <= j < k ==> teams[j].id != entityId
    ensures e == StaffEntity && (forall k :: 0 <= k < |staff| ==> staff[k].id != entityId) ==> r.name == "Unknown Staff"
    ensures e == StaffEntity && (exists k :: 0 <= k < |staff| && staff[k].id == entityId) ==>
      exists k :: 0 <= k < |staff| && staff[k].id == entityId && r.name == staff[k].name
        && forall j :: 0 <= j < k ==> staff[j].id != entityId
    ensures e != TeamEntity && e != StaffEntity ==> r == EntityRef("GENERIC", customEntity)
  {
    if e == TeamEntity then
      var t := Find(teams, TeamHasId(entityId));
      EntityRef(entityId, if t.Some? then t.value.name else "Unknown Team")
    else if e == StaffEntity then
      var s := Find(staff, StaffHasId(entityId));
      EntityRef(entityId, if s.Some? then s.value.name else "Unknown Staff")
    else EntityRef("GENERIC", customEntity)
  }

  /** The season of the chosen competition: the first competition with that id, when it has a season. */
  function DeriveSeason(competitions: seq<Competition>, competitionId: string): (r: Option<string>)
    ensures r.Some? ==> r.value != ""
    ensures r.Some? ==>
      exists k :: 0 <= k < |competitions| && competitions[k].id == competitionId && competitions[k].seasonId == r.value
        && forall j :: 0 <= j < k ==> competitions[j].id != competitionId
    ensures r.None? ==> (forall k :: (0 <= k < |competitions| && competitions[k].id == competitionId
      && (forall j :: 0 <= j < k ==> competitions[j].id != competitionId)) ==> competitions[k].seasonId == "")
  {
    var c := Find(competitions, CompetitionHasId(competitionId));
    if c.Some? && c.value.seasonId != "" then Some(c.value.seasonId) else None
  }

  /** `x || undefined` on a text field. */
  function NonEmpty(s: string): (r: Option<string>)
    ensures r.None? <==> s == ""
    ensures r.Some? ==> r.value == s
  {
    if s == "" then None else Some(s)
  }

  // Categories and the court

  /** The categories offered for an entity type. */
  function CurrentCategories(e: EntityType): (r: seq<string>)
    ensures |r| >= 1 && "Outros" in r
  {
    match e
    case TeamEntity => TEAM_CATEGORIES
    case StaffEntity => STAFF_CATEGORIES
    case CostEntity => COST_CATEGORIES
    case ExpenseEntity => EXPENSE_CATEGORIES
    case OtherEntity => ["Outros"]
  }

  /** The category a new entry starts with when its entity type is chosen; none for an OTHER entry. */
  function DefaultCategory(e: EntityType): (r: Option<string>)
    ensures r.None? <==> e == OtherEntity
    ensures r.Some? ==> r.value == CurrentCategories(e)[0]
  {
    match e
    case TeamEntity => Some(TEAM_CATEGORIES[0])
    case StaffEntity => Some(STAFF_CATEGORIES[0])
    case CostEntity => Some(COST_CATEGORIES[0])
    case ExpenseEntity => Some(EXPENSE_CATEGORIES[0])
    case OtherEntity => None
  }

  /** Choosing the location starts a court rental. */
  lemma LocationDefaultsToCourt()
    ensures DefaultCategory(CostEntity) == Some(COURT_RENTAL)
    ensures COURT_RENTAL !in TEAM_CATEGORIES && COURT_RENTAL !in STAFF_CATEGORIES && COURT_RENTAL !in EXPENSE_CATEGORIES
  {
  }

  /** The rent for a number of half hours, in cents. */
  function CourtCost(halfHours: nat): (c: nat)
    ensures c % COURT_HALF_HOUR_CENTS == 0
  {
    halfHours * COURT_HALF_HOUR_CENTS
  }

  /** Whole hours cost the hourly rate each; a half hour costs half of it. */
  lemma CourtCostHours(hours: nat)
    ensures CourtCost(2 * hours) == hours * COURT_HOURLY_RATE * 100
    ensures 2 * CourtCost(1) == COURT_HOURLY_RATE * 100
  {
  }
}
