// The state of the transaction entry form (components/TransactionModal.tsx) and
// how its handlers and effects change it. Each effect runs when a field it
// watches differs from the last settled state, as React runs an effect whose
// dependencies changed; the effects that follow one event are applied together.

module TransactionForm {
  import opened Collections
  import opened Text
  import opened Domain
  import opened Utils
  import opened TransactionModal

  /** The form's fields; `courtCost` is the court-hours field as the rent it comes to, in cents. */
  datatype FormState = FormState(
    txType: TxType,
    displayDate: string,
    entityType: EntityType,
    entityId: string,
    customEntity: string,
    category: string,
    weekId: string,
    competitionId: string,
    round: string,
    description: string,
    matchesWorked: nat,
    amountDueText: string,
    amountPaidText: string,
    courtCost: nat,
    status: Status,
    editing: bool,
    prefilledCategory: bool)

  /** What a view passes when it opens the form for a new entry; an empty category stands for none. */
  datatype Prefill = Prefill(entityType: EntityType, id: string, name: string, category: string)

  /** The location view's "new entry". */
  const LOCATION_PREFILL: Prefill := Prefill(CostEntity, "GENERIC", COURT_RENTAL, COURT_RENTAL)

  /** The form as it is first mounted: one hour of court, nothing due, nothing paid. */
  function Initial(): FormState
  {
    FormState(Income, "", TeamEntity, "", "", "", "", "", "", "", 0, "0,00", "0,00", CourtCost(2), Pending, false, false)
  }

  /** Both amounts are masks and the status is the one they give. */
  predicate Consistent(s: FormState)
  {
    IsMask(s.amountDueText) && IsMask(s.amountPaidText) && s.status == StatusOf(s.amountDueText, s.amountPaidText)
  }

  // Effects

  /** A court rental is charged for its hours and is an expense. */
  function CourtEffect(s: FormState): FormState
  {
    if s.category == COURT_RENTAL then s.(amountDueText := MaskCurrency(Decimal(s.courtCost)), txType := Expense) else s
  }

  /** A new entry without a prefilled category starts with the first category of its entity type. */
  function DefaultCategoryEffect(s: FormState): FormState
  {
    if !s.editing && !s.prefilledCategory && DefaultCategory(s.entityType).Some?
    then s.(category := DefaultCategory(s.entityType).value)
    else s
  }

  /**
   * The effects that follow a change from the settled state `prev` to `next`:
   * the default category when the form is being opened or the entity type changed,
   * then the court rent when the category or the hours changed (always, when
   * `forceCourt`), then the status when an amount changed.
   */
  function Settle(prev: FormState, next: FormState, opening: bool, forceCourt: bool): FormState
  {
    StatusStage(prev, CourtStage(prev, CategoryStage(prev, next, opening), forceCourt))
  }

  function CategoryStage(prev: FormState, next: FormState, opening: bool): FormState
  {
    if opening || next.entityType != prev.entityType then DefaultCategoryEffect(next) else next
  }

  function CourtStage(prev: FormState, next: FormState, forceCourt: bool): FormState
  {
    if forceCourt || next.category != prev.category || next.courtCost != prev.courtCost then CourtEffect(next) else next
  }

  function StatusStage(prev: FormState, next: FormState): FormState
  {
    if next.amountDueText != prev.amountDueText || next.amountPaidText != prev.amountPaidText
    then next.(status := StatusOf(next.amountDueText, next.amountPaidText))
    else next
  }

  // Events

  /** `resetForm` followed by the prefill of a new entry. */
  function Blank(prev: FormState, todayDisplay: string, prefill: Option<Prefill>): FormState
  {
    var base := prev.(txType := Income, displayDate := todayDisplay, entityType := TeamEntity, entityId := "",
      customEntity := "", category := "", weekId := "", competitionId := "", round := "", description := "",
      matchesWorked := 0, amountDueText := "0,00", amountPaidText := "0,00", courtCost := CourtCost(2),
      editing := false, prefilledCategory := prefill.Some? && prefill.value.category != "");
    match prefill
    case None => base
    case Some(p) =>
      base.(entityType := p.entityType, entityId := p.id, customEntity := p.name,
        category := if p.category != "" then p.category else if p.entityType == CostEntity then COST_CATEGORIES[0] else "")
  }

  /**
   * The effects of one commit, after a render of `now` that followed a render of
   * `before`: every effect whose dependencies differ reads the fields of `now`,
   * and their updates are applied together for the next render.
   */
  function Commit(before: FormState, now: FormState): FormState
  {
    var court := if now.category != before.category || now.courtCost != before.courtCost then CourtEffect(now) else now;
    var status := if now.amountDueText != before.amountDueText || now.amountPaidText != before.amountPaidText
      then court.(status := StatusOf(now.amountDueText, now.amountPaidText))
      else court;
    if now.entityType != before.entityType then status.(category := DefaultCategoryEffect(now).category) else status
  }

  /** Three more commits after the render of `now`: enough for every cascade of the effects. */
  function Commits(before: FormState, now: FormState): FormState
  {
    var c1 := Commit(before, now);
    var c2 := Commit(now, c1);
    Commit(c1, c2)
  }

  /**
   * The commit that opens the form for a new entry: `resetForm` and the prefill,
   * then the default-category effect, whose closure still holds the entity type
   * of the previous render and whose update is applied last.
   */
  function OpeningCommit(prev: FormState, todayDisplay: string, prefill: Option<Prefill>): FormState
  {
    var b := Blank(prev, todayDisplay, prefill);
    b.(category := DefaultCategoryEffect(b.(entityType := prev.entityType)).category)
  }

  /** Opening the form for a new entry, as written, commit by commit. */
  function OpenedAsWritten(prev: FormState, todayDisplay: string, prefill: Option<Prefill>): FormState
  {
    Commits(prev, OpeningCommit(prev, todayDisplay, prefill))
  }

  /**
   * Opening the form for a new entry, corrected: the default category is the new
   * entity type's, and the court rent is recomputed for every new court rental.
   */
  function Opened(prev: FormState, todayDisplay: string, prefill: Option<Prefill>): FormState
  {
    Settle(prev, Blank(prev, todayDisplay, prefill), true, true)
  }

  /** The fields of an existing entry loaded for editing. */
  function Load(prev: FormState, t: Transaction): FormState
  {
    prev.(txType := t.txType, displayDate := SwapDateParts(t.date), entityType := t.entityType, entityId := t.entityId,
      customEntity := if t.entityType == TeamEntity || t.entityType == StaffEntity then "" else t.entityName,
      category := t.category, weekId := t.weekId.GetOr(""), competitionId := t.competitionId.GetOr(""),
      round := t.round.GetOr(""), description := t.description.GetOr(""), matchesWorked := t.matchesWorked.GetOr(0),
      amountDueText := MaskCurrency(Decimal(t.amountDue)), amountPaidText := MaskCurrency(Decimal(t.amountPaid)),
      courtCost := if t.category == COURT_RENTAL && t.amountDue > 0 then t.amountDue else prev.courtCost,
      editing := true)
  }

  function Edited(prev: FormState, t: Transaction): FormState
  {
    Settle(prev, Load(prev, t), true, false)
  }

  function DateTyped(prev: FormState, val: string): FormState { prev.(displayDate := MaskDate(val)) }
  function TypeChosen(prev: FormState, t: TxType): FormState { prev.(txType := t) }
  function CompetitionChosen(prev: FormState, id: string): FormState { prev.(competitionId := id, round := "") }

  function EntityTypeChosen(prev: FormState, e: EntityType): FormState
  {
    Settle(prev, prev.(entityType := e), false, false)
  }

  function CategoryChosen(prev: FormState, c: string): FormState
  {
    Settle(prev, prev.(category := c), false, false)
  }

  function HoursChosen(prev: FormState, halfHours: nat): FormState
  {
    Settle(prev, prev.(courtCost := CourtCost(halfHours)), false, false)
  }

  function DueTyped(prev: FormState, val: string): FormState
  {
    Settle(prev, prev.(amountDueText := MaskCurrency(val)), false, false)
  }

  function PaidTyped(prev: FormState, val: string): FormState
  {
    Settle(prev, prev.(amountPaidText := MaskCurrency(val)), false, false)
  }

  /** `handleSubmit`: the entry the form hands to the store. */
  function Assemble(s: FormState, teams: seq<Team>, staff: seq<StaffMember>, competitions: seq<Competition>,
                    todayIso: string): (d: Draft)
    requires IsMask(s.amountDueText) && IsMask(s.amountPaidText)
    ensures d.amountDue == AmountOf(s.amountDueText) && d.amountPaid == AmountOf(s.amountPaidText)
    ensures d.date == IsoFromDisplay(s.displayDate, todayIso)
    ensures EntityRef(d.entityId, d.entityName) == ResolveEntity(s.entityType, s.entityId, s.customEntity, teams, staff)
    ensures d.seasonId == DeriveSeason(competitions, s.competitionId)
    ensures d.competitionId == NonEmpty(s.competitionId) && d.weekId == NonEmpty(s.weekId) && d.round == NonEmpty(s.round)
    ensures d.contextType == CompetitionContext <==> s.competitionId != ""
    ensures d.txType == s.txType && d.category == s.category && d.entityType == s.entityType && d.status == s.status
    ensures d.description == Some(s.description) && d.matchesWorked == Some(s.matchesWorked) && d.notes == None
  {
    MaskAmount(s.amountDueText);
    MaskAmount(s.amountPaidText);
    var who := ResolveEntity(s.entityType, s.entityId, s.customEntity, teams, staff);
    Draft(IsoFromDisplay(s.displayDate, todayIso), s.txType, s.category, who.id, who.name, s.entityType,
          Some(s.description), Some(s.matchesWorked), DeriveSeason(competitions, s.competitionId),
          NonEmpty(s.weekId), NonEmpty(s.competitionId), NonEmpty(s.round),
          if s.competitionId != "" then CompetitionContext else EventContext,
          ParseCurrency(s.amountDueText).value, ParseCurrency(s.amountPaidText).value, s.status, None)
  }

  // Properties

  lemma InitialConsistent()
    ensures Consistent(Initial())
  {
    ZeroMask();
    StatusOfMasks("0,00", "0,00");
  }

  /** The effects keep the amounts masks and leave the status the one the amounts give. */
  lemma SettleConsistent(prev: FormState, next: FormState, opening: bool, forceCourt: bool)
    requires Consistent(prev)
    requires IsMask(next.amountDueText) && IsMask(next.amountPaidText) && next.status == prev.status
    ensures Consistent(Settle(prev, next, opening, forceCourt))
  {
    MaskAmount(Decimal(next.courtCost));
  }

  /** Between two renders the status agrees with the amounts, unless they have just changed and it is yet to be recomputed. */
  predicate StatusDue(before: FormState, now: FormState)
  {
    IsMask(now.amountDueText) && IsMask(now.amountPaidText)
    && (now.status == StatusOf(now.amountDueText, now.amountPaidText)
        || now.amountDueText != before.amountDueText || now.amountPaidText != before.amountPaidText)
  }

  lemma CommitStatusDue(before: FormState, now: FormState)
    requires StatusDue(before, now)
    ensures StatusDue(now, Commit(before, now))
  {
    var r := Commit(before, now);
    assert r.amountPaidText == now.amountPaidText;
    if r.amountDueText != now.amountDueText {
      assert r.amountDueText == MaskCurrency(Decimal(now.courtCost));
      MaskAmount(Decimal(now.courtCost));
    } else if now.amountDueText != before.amountDueText || now.amountPaidText != before.amountPaidText {
      assert r.status == StatusOf(now.amountDueText, now.amountPaidText);
    } else {
      assert r.status == now.status;
    }
  }

  /** What a commit leaves alone: the entity type and the hours always, the category unless the entity type changed, the amounts unless the court effect fired. */
  lemma CommitKeeps(before: FormState, now: FormState)
    ensures var r := Commit(before, now);
      r.entityType == now.entityType && r.courtCost == now.courtCost && r.amountPaidText == now.amountPaidText
      && (now.entityType == before.entityType ==> r.category == now.category)
      && (now.category == before.category && now.courtCost == before.courtCost ==> r.amountDueText == now.amountDueText)
      && ((now.entityType == before.entityType && now.category == before.category && now.courtCost == before.courtCost
           && now.amountDueText == before.amountDueText && now.amountPaidText == before.amountPaidText) ==> r == now)
  {
  }

  /**
   * No effect writes the entity type, so after three commits nothing is left for a
   * fourth one to do, and the status agrees with the amounts.
   */
  lemma CommitsSettle(before: FormState, now: FormState)
    requires StatusDue(before, now)
    ensures var c1 := Commit(before, now); var c2 := Commit(now, c1);
      Commit(c2, Commits(before, now)) == Commits(before, now) && Consistent(Commits(before, now))
  {
    var c1 := Commit(before, now);
    var c2 := Commit(now, c1);
    var c3 := Commit(c1, c2);
    CommitKeeps(before, now);
    CommitKeeps(now, c1);
    CommitKeeps(c1, c2);
    CommitKeeps(c2, c3);
    CommitStatusDue(before, now);
    CommitStatusDue(now, c1);
    CommitStatusDue(c1, c2);
    assert c3 == Commits(before, now);
  }

  /** Opening the form for a new entry keeps it consistent, as written and corrected. */
  lemma OpenedConsistent(s: FormState, todayDisplay: string, prefill: Option<Prefill>)
    requires Consistent(s)
    ensures Consistent(Opened(s, todayDisplay, prefill)) && Consistent(OpenedAsWritten(s, todayDisplay, prefill))
  {
    ZeroMask();
    SettleConsistent(s, Blank(s, todayDisplay, prefill), true, true);
    CommitsSettle(s, OpeningCommit(s, todayDisplay, prefill));
  }

  /** For each of the user's edits, the effects as applied by `Settle` are the effects React runs commit by commit. */
  lemma HandlersAreCommits(s: FormState, e: EntityType, c: string, halfHours: nat, val: string)
    ensures EntityTypeChosen(s, e) == Commits(s, s.(entityType := e))
    ensures CategoryChosen(s, c) == Commits(s, s.(category := c))
    ensures HoursChosen(s, halfHours) == Commits(s, s.(courtCost := CourtCost(halfHours)))
    ensures DueTyped(s, val) == Commits(s, s.(amountDueText := MaskCurrency(val)))
    ensures PaidTyped(s, val) == Commits(s, s.(amountPaidText := MaskCurrency(val)))
  {
    EntityTypeCommits(s, s.(entityType := e));
    ChargeCommits(s, s.(category := c));
    ChargeCommits(s, s.(courtCost := CourtCost(halfHours)));
    AmountCommits(s, s.(amountDueText := MaskCurrency(val)));
    AmountCommits(s, s.(amountPaidText := MaskCurrency(val)));
  }

  /** A new entity type: the default category, then the court effect on it, then the status. */
  lemma EntityTypeCommits(s: FormState, next: FormState)
    requires next == s.(entityType := next.entityType)
    ensures Settle(s, next, false, false) == Commits(s, next)
  {
    var d := CategoryStage(s, next, false);
    assert Commit(s, next) == d;
    var k := CourtStage(s, d, false);
    assert Commit(next, d) == k;
    assert Commit(d, k) == StatusStage(s, k);
  }

  /** A new category or new hours: the court effect, then the status. */
  lemma ChargeCommits(s: FormState, next: FormState)
    requires next == s.(category := next.category, courtCost := next.courtCost)
    ensures Settle(s, next, false, false) == Commits(s, next)
  {
    assert CategoryStage(s, next, false) == next;
    var k := CourtStage(s, next, false);
    assert Commit(s, next) == k;
    var r := StatusStage(s, k);
    assert Commit(next, k) == r;
    CommitKeeps(k, r);
  }

  /** A new amount: the status alone. */
  lemma AmountCommits(s: FormState, next: FormState)
    requires next == s.(amountDueText := next.amountDueText, amountPaidText := next.amountPaidText)
    ensures Settle(s, next, false, false) == Commits(s, next)
  {
    assert CategoryStage(s, next, false) == next;
    assert CourtStage(s, next, false) == next;
    var r := StatusStage(s, next);
    assert Commit(s, next) == r;
    CommitKeeps(next, r);
    CommitKeeps(r, r);
  }

  /** Loading an entry for editing: `Settle` agrees with the commits when the form was consistent. */
  lemma EditedIsCommits(s: FormState, t: Transaction)
    requires Consistent(s)
    ensures Edited(s, t) == Commits(s, Load(s, t))
  {
    LoadedCommits(s, Load(s, t));
  }

  lemma LoadedCommits(s: FormState, l: FormState)
    requires Consistent(s) && l.editing && l.status == s.status
    ensures Settle(s, l, true, false) == Commits(s, l)
  {
    assert CategoryStage(s, l, true) == l;
    var k := CourtStage(s, l, false);
    var c1 := Commit(s, l);
    assert c1 == if l.amountDueText != s.amountDueText || l.amountPaidText != s.amountPaidText
      then k.(status := StatusOf(l.amountDueText, l.amountPaidText)) else k;
    var c2 := Commit(l, c1);
    CommitKeeps(s, l);
    CommitKeeps(l, c1);
    CommitKeeps(c1, c2);
    assert Commits(s, l) == c2;
  }

  /** Loading an entry for editing keeps the form consistent, whatever status the entry was stored with. */
  lemma EditedConsistent(s: FormState, t: Transaction)
    requires Consistent(s)
    ensures Consistent(Edited(s, t))
  {
    MaskAmount(Decimal(t.amountDue));
    MaskAmount(Decimal(t.amountPaid));
    SettleConsistent(s, Load(s, t), true, false);
  }

  /** Every handler keeps the form consistent. */
  lemma HandlersConsistent(s: FormState, e: EntityType, c: string, halfHours: nat, val: string)
    requires Consistent(s)
    ensures Consistent(EntityTypeChosen(s, e)) && Consistent(CategoryChosen(s, c)) && Consistent(HoursChosen(s, halfHours))
    ensures Consistent(DueTyped(s, val)) && Consistent(PaidTyped(s, val))
    ensures Consistent(DateTyped(s, val)) && Consistent(CompetitionChosen(s, c)) && Consistent(TypeChosen(s, Expense))
  {
    SettleConsistent(s, s.(entityType := e), false, false);
    SettleConsistent(s, s.(category := c), false, false);
    SettleConsistent(s, s.(courtCost := CourtCost(halfHours)), false, false);
    MaskAmount(val);
    SettleConsistent(s, s.(amountDueText := MaskCurrency(val)), false, false);
    SettleConsistent(s, s.(amountPaidText := MaskCurrency(val)), false, false);
  }

  /** The entry a consistent form submits has the status its own amounts give. */
  lemma SubmittedStatus(s: FormState, teams: seq<Team>, staff: seq<StaffMember>, competitions: seq<Competition>,
                        todayIso: string)
    requires Consistent(s)
    ensures var d := Assemble(s, teams, staff, competitions, todayIso);
      d.status == Classify(d.amountDue, d.amountPaid)
  {
    StatusOfMasks(s.amountDueText, s.amountPaidText);
  }

  /** Changing the hours of a court rental charges the new hours and makes the entry an expense. */
  lemma HoursChargeCourt(s: FormState, halfHours: nat)
    requires Consistent(s) && s.category == COURT_RENTAL && CourtCost(halfHours) != s.courtCost
    ensures var r := HoursChosen(s, halfHours);
      r.txType == Expense && AmountOf(r.amountDueText) == CourtCost(halfHours)
      && r.status == Classify(CourtCost(halfHours), AmountOf(r.amountPaidText))
  {
    var r := HoursChosen(s, halfHours);
    MaskOfCents(CourtCost(halfHours));
    SettleConsistent(s, s.(courtCost := CourtCost(halfHours)), false, false);
    StatusOfMasks(r.amountDueText, r.amountPaidText);
  }

  /** Choosing the court-rental category charges the hours on the form and makes the entry an expense. */
  lemma CategoryChargesCourt(s: FormState)
    requires s.category != COURT_RENTAL
    ensures var r := CategoryChosen(s, COURT_RENTAL);
      r.txType == Expense && AmountOf(r.amountDueText) == s.courtCost
  {
    var next := s.(category := COURT_RENTAL);
    assert CategoryStage(s, next, false) == next;
    var charged := CourtEffect(next);
    assert CourtStage(s, next, false) == charged;
    assert CategoryChosen(s, COURT_RENTAL) == StatusStage(s, charged);
    MaskOfCents(s.courtCost);
  }

  /** Choosing the location on a new entry picks the court rental and charges it. */
  lemma LocationChargesCourt(s: FormState)
    requires !s.editing && !s.prefilledCategory && s.entityType != CostEntity && s.category != COURT_RENTAL
    ensures var r := EntityTypeChosen(s, CostEntity);
      r.category == COURT_RENTAL && r.txType == Expense && AmountOf(r.amountDueText) == s.courtCost
  {
    var next := s.(entityType := CostEntity);
    var chosen := next.(category := COURT_RENTAL);
    assert DefaultCategory(CostEntity) == Some(COURT_RENTAL);
    assert CategoryStage(s, next, false) == chosen;
    var charged := CourtEffect(chosen);
    assert CourtStage(s, chosen, false) == charged;
    assert EntityTypeChosen(s, CostEntity) == StatusStage(s, charged);
    MaskOfCents(s.courtCost);
  }

  /** A new entry without a prefilled category starts with the first category of its entity type, nothing due and nothing paid. */
  lemma OpenedDefaults(s: FormState, todayDisplay: string, prefill: Option<Prefill>)
    requires prefill.None? || (prefill.value.category == "" && prefill.value.entityType != OtherEntity)
    ensures var r := Opened(s, todayDisplay, prefill);
      var e := if prefill.Some? then prefill.value.entityType else TeamEntity;
      r.entityType == e && r.category == CurrentCategories(e)[0] && !r.editing
      && r.displayDate == todayDisplay && r.amountPaidText == "0,00"
      && (r.category != COURT_RENTAL ==> r.amountDueText == "0,00" && r.txType == Income)
  {
  }

  /** The default category of a new entry is one the form offers for its entity type. */
  lemma DefaultOffered(s: FormState, todayDisplay: string, prefill: Option<Prefill>)
    requires prefill.None? || (prefill.value.category == "" && prefill.value.entityType != OtherEntity)
    ensures var r := Opened(s, todayDisplay, prefill);
      r.category in CurrentCategories(r.entityType)
  {
    OpenedDefaults(s, todayDisplay, prefill);
  }

  /**
   * As written, opening a new court rental on a form whose last entry was a court
   * rental of one hour leaves nothing due: neither the category nor the hours changed.
   */
  lemma ReopenedCourtAsWritten(s: FormState, todayDisplay: string)
    requires s.category == COURT_RENTAL && s.courtCost == CourtCost(2)
    ensures var r := OpenedAsWritten(s, todayDisplay, Some(LOCATION_PREFILL));
      r.category == COURT_RENTAL && r.courtCost == CourtCost(2) && r.amountDueText == "0,00" && r.txType == Income
  {
  }

  /** As written, reopening the location view's form on a rental left at other hours: the reset changes the hours, so the court effect charges one hour as an expense. */
  lemma ReopenedOtherHoursAsWritten(s: FormState, todayDisplay: string)
    requires s.category == COURT_RENTAL && s.courtCost != CourtCost(2)
    ensures var r := OpenedAsWritten(s, todayDisplay, Some(LOCATION_PREFILL));
      r.category == COURT_RENTAL && r.courtCost == CourtCost(2) && r.amountDueText == "90,00" && r.txType == Expense
  {
    CourtNinety();
  }

  /** The location view's "new entry" opening twice in a row, as written: 90,00 due the first time, 0,00 the second. */
  lemma ReopenedCourtExample(todayDisplay: string)
    ensures OpenedAsWritten(Initial(), todayDisplay, Some(LOCATION_PREFILL)).amountDueText == "90,00"
    ensures OpenedAsWritten(OpenedAsWritten(Initial(), todayDisplay, Some(LOCATION_PREFILL)), todayDisplay,
                            Some(LOCATION_PREFILL)).amountDueText == "0,00"
  {
    var first := OpenedAsWritten(Initial(), todayDisplay, Some(LOCATION_PREFILL));
    assert first.category == COURT_RENTAL;
    CourtNinety();
    ReopenedCourtAsWritten(first, todayDisplay);
  }

  /**
   * As written, a new entry opened after a general-cost entry whose rent was not
   * the one-hour default is charged one hour of court as an expense, under the
   * default category of its own entity type: for one render the stale default
   * category was the court rental, and the court effect fired on it.
   */
  lemma StaleDefaultCharges(s: FormState, todayDisplay: string, prefill: Option<Prefill>)
    requires prefill.None? || (prefill.value.category == "" && prefill.value.entityType != CostEntity
                               && prefill.value.entityType != OtherEntity)
    requires s.entityType == CostEntity && (s.category != COURT_RENTAL || s.courtCost != CourtCost(2))
    ensures var r := OpenedAsWritten(s, todayDisplay, prefill);
      var e := if prefill.Some? then prefill.value.entityType else TeamEntity;
      r.entityType == e && r.category == CurrentCategories(e)[0] && r.category != COURT_RENTAL
      && r.txType == Expense && r.amountDueText == "90,00" && r.amountPaidText == "0,00"
  {
    var e := if prefill.Some? then prefill.value.entityType else TeamEntity;
    var s1 := OpeningCommit(s, todayDisplay, prefill);
    LocationDefaultsToCourt();
    assert s1.entityType == e && s1.category == COURT_RENTAL && s1.courtCost == CourtCost(2);
    assert s1.amountPaidText == "0,00" && !s1.editing && !s1.prefilledCategory;
    StaleRentalCommits(s, s1);
  }

  lemma StaleRentalCommits(s: FormState, s1: FormState)
    requires s1.entityType != CostEntity && s1.entityType != OtherEntity && !s1.editing && !s1.prefilledCategory
    requires s1.category == COURT_RENTAL && s1.courtCost == CourtCost(2) && s1.amountPaidText == "0,00"
    requires s.entityType == CostEntity && (s.category != COURT_RENTAL || s.courtCost != CourtCost(2))
    ensures var r := Commits(s, s1);
      r.entityType == s1.entityType && r.category == CurrentCategories(s1.entityType)[0]
      && r.txType == Expense && r.amountDueText == "90,00" && r.amountPaidText == "0,00"
  {
    var e := s1.entityType;
    var c1 := Commit(s, s1);
    CourtNinety();
    LocationDefaultsToCourt();
    assert c1.amountDueText == "90,00" && c1.txType == Expense && c1.category == CurrentCategories(e)[0];
    assert c1.category in CurrentCategories(e);
    assert CourtEffect(c1) == c1;
    var c2 := Commit(s1, c1);
    CommitKeeps(s, s1);
    CommitKeeps(s1, c1);
    assert c2.amountDueText == "90,00" && c2.txType == Expense && c2.category == c1.category;
    CommitKeeps(c1, c2);
  }

  /**
   * A general-cost entry for "Alimentação", then "Nova Movimentação": as written,
   * a team entry for "Taxa Jogo" due 90,00 as an expense; corrected, an income
   * with nothing due.
   */
  lemma StaleDefaultExample(todayDisplay: string)
    ensures var food := CategoryChosen(EntityTypeChosen(Initial(), CostEntity), "Alimentação");
      var r := OpenedAsWritten(food, todayDisplay, None);
      var q := Opened(food, todayDisplay, None);
      food.entityType == CostEntity && food.category == "Alimentação"
      && r.category == "Taxa Jogo" && r.txType == Expense && r.amountDueText == "90,00"
      && q.category == "Taxa Jogo" && q.txType == Income && q.amountDueText == "0,00"
  {
    var food := CategoryChosen(EntityTypeChosen(Initial(), CostEntity), "Alimentação");
    LocationChargesCourt(Initial());
    assert food.entityType == CostEntity && food.category == "Alimentação";
    StaleDefaultCharges(food, todayDisplay, None);
    OpenedDefaults(food, todayDisplay, None);
  }

  /**
   * After any entry that was not a general cost (and not a one-hour rental), the
   * written opening of a new entry without a prefilled category is the corrected one.
   */
  lemma OpenedAsWrittenAgrees(s: FormState, todayDisplay: string, prefill: Option<Prefill>)
    requires Consistent(s)
    requires prefill.None? || (prefill.value.category == "" && prefill.value.entityType != OtherEntity)
    requires s.entityType != CostEntity && (s.category != COURT_RENTAL || s.courtCost != CourtCost(2))
    ensures OpenedAsWritten(s, todayDisplay, prefill) == Opened(s, todayDisplay, prefill)
  {
    OpenedConsistent(s, todayDisplay, prefill);
    OpenedAgreeButStatus(s, todayDisplay, prefill);
    SameButStatus(OpenedAsWritten(s, todayDisplay, prefill), Opened(s, todayDisplay, prefill));
  }

  /** Two consistent forms that differ at most in their status are the same. */
  lemma SameButStatus(r: FormState, q: FormState)
    requires Consistent(r) && Consistent(q) && r.(status := Pending) == q.(status := Pending)
    ensures r == q
  {
    assert r.amountDueText == q.amountDueText && r.amountPaidText == q.amountPaidText;
  }

  lemma OpenedAgreeButStatus(s: FormState, todayDisplay: string, prefill: Option<Prefill>)
    requires prefill.None? || (prefill.value.category == "" && prefill.value.entityType != OtherEntity)
    requires s.entityType != CostEntity && (s.category != COURT_RENTAL || s.courtCost != CourtCost(2))
    ensures OpenedAsWritten(s, todayDisplay, prefill).(status := Pending) == Opened(s, todayDisplay, prefill).(status := Pending)
  {
    var e := if prefill.Some? then prefill.value.entityType else TeamEntity;
    var b := Blank(s, todayDisplay, prefill);
    var s1 := OpeningCommit(s, todayDisplay, prefill);
    var r := OpenedAsWritten(s, todayDisplay, prefill);
    var q := Opened(s, todayDisplay, prefill);
    LocationDefaultsToCourt();
    var d := DefaultCategoryEffect(b);
    assert d == b.(category := CurrentCategories(e)[0]);
    assert q == StatusStage(s, CourtEffect(d));
    if e != CostEntity {
      assert CurrentCategories(e)[0] in CurrentCategories(e);
      assert s1.category != COURT_RENTAL;
      NonRentalCommits(s, s1);
      assert CategoryStage(s, s1, false) == d;
      assert CourtEffect(d) == d;
    } else if s.entityType == OtherEntity {
      assert s1 == b && d == b;
      RentalCommits(s, s1);
    } else {
      assert DefaultCategory(s.entityType).value in CurrentCategories(s.entityType);
      assert s1.category != COURT_RENTAL;
      LateRentalCommits(s, s1);
      assert s1.(category := COURT_RENTAL) == d;
    }
    assert r.(status := Pending) == q.(status := Pending);
  }

  /** Commits that never reach the court rental: the default category, then the status. */
  lemma NonRentalCommits(s: FormState, s1: FormState)
    requires s1.category != COURT_RENTAL && DefaultCategoryEffect(s1).category != COURT_RENTAL
    ensures Commits(s, s1).(status := Pending) == CategoryStage(s, s1, false).(status := Pending)
  {
    var c1 := Commit(s, s1);
    assert c1.(status := Pending) == CategoryStage(s, s1, false).(status := Pending);
    CommitKeeps(s, s1);
    var c2 := Commit(s1, c1);
    assert c2 == c1;
  }

  /** Commits from a court rental whose category or hours are new: the rent is charged. */
  lemma RentalCommits(s: FormState, s1: FormState)
    requires s1.category == COURT_RENTAL && DefaultCategoryEffect(s1).category == COURT_RENTAL
    requires s.category != COURT_RENTAL || s.courtCost != s1.courtCost
    ensures Commits(s, s1).(status := Pending) == CourtEffect(s1).(status := Pending)
  {
    var c1 := Commit(s, s1);
    assert c1.(status := Pending) == CourtEffect(s1).(status := Pending);
    CommitKeeps(s, s1);
    CommitKeeps(s1, c1);
    var c2 := Commit(s1, c1);
    CommitKeeps(c1, c2);
  }

  /** Commits from a stale category to the court rental as the new entity type's default: charged one commit later. */
  lemma LateRentalCommits(s: FormState, s1: FormState)
    requires s1.category != COURT_RENTAL && s1.entityType != s.entityType
    requires DefaultCategoryEffect(s1).category == COURT_RENTAL
    ensures Commits(s, s1).(status := Pending) == CourtEffect(s1.(category := COURT_RENTAL)).(status := Pending)
  {
    var c1 := Commit(s, s1);
    assert c1.(status := Pending) == s1.(category := COURT_RENTAL, status := Pending);
    CommitKeeps(s, s1);
    var c2 := Commit(s1, c1);
    assert c2.(status := Pending) == CourtEffect(s1.(category := COURT_RENTAL)).(status := Pending);
    CommitKeeps(s1, c1);
    CommitKeeps(c1, c2);
  }

  /** One hour of court is shown as 90,00. */
  lemma CourtNinety()
    ensures MaskCurrency(Decimal(CourtCost(2))) == "90,00"
  {
    assert CourtCost(2) == 9000;
    MaskOfCents(9000);
    NinetyReais();
  }

  lemma NinetyReais()
    ensures FormatCents(9000) == "90,00"
  {
    assert Decimal(90) == Decimal(9) + [DigitChar(0)];
    assert Decimal(90) == "90";
    assert Group("90") == "90";
    assert Pad2(0) == "00";
  }

  /** Every new court rental is charged for the hours on the form, whatever was entered before. */
  lemma NewCourtRentalCharged(s: FormState, todayDisplay: string, p: Prefill)
    requires p.category == COURT_RENTAL || (p.category == "" && p.entityType == CostEntity)
    ensures var r := Opened(s, todayDisplay, Some(p));
      r.category == COURT_RENTAL && r.txType == Expense && AmountOf(r.amountDueText) == CourtCost(2)
  {
    MaskOfCents(CourtCost(2));
  }

  /**
   * Editing an entry that is not a court rental and submitting it unchanged gives
   * back its date (of this century), type, category and amounts, with the status
   * those amounts give.
   */
  lemma EditRoundTrip(s: FormState, t: Transaction, teams: seq<Team>, staff: seq<StaffMember>,
                      competitions: seq<Competition>, todayIso: string)
    requires Consistent(s) && IsIsoDate(t.date) && t.date[..2] == "20" && t.category != COURT_RENTAL
    ensures Consistent(Edited(s, t))
    ensures var d := Assemble(Edited(s, t), teams, staff, competitions, todayIso);
      d.date == t.date && d.txType == t.txType && d.category == t.category && d.entityType == t.entityType
      && d.amountDue == t.amountDue && d.amountPaid == t.amountPaid
      && d.status == Classify(t.amountDue, t.amountPaid)
  {
    var r := Edited(s, t);
    MaskAmount(Decimal(t.amountDue));
    MaskAmount(Decimal(t.amountPaid));
    SettleConsistent(s, Load(s, t), true, false);
    MaskOfCents(t.amountDue);
    MaskOfCents(t.amountPaid);
    DateRoundTrip(t.date, todayIso);
    SubmittedStatus(r, teams, staff, competitions, todayIso);
  }

  /**
   * The entry form. Its state cells are held as one record that every event
   * replaces, as one render replaces the values of all of them.
   */
  class Form {
    var form: FormState

    constructor ()
      ensures form == Initial() && Consistent(form)
    {
      form := Initial();
      InitialConsistent();
    }

    /** Runs the effects that follow the change from `prev` to the current state. */
    method Effects(prev: FormState, opening: bool, forceCourt: bool)
      modifies this
      ensures form == Settle(prev, old(form), opening, forceCourt)
    {
      if opening || form.entityType != prev.entityType {
        form := DefaultCategoryEffect(form);
      }
      if forceCourt || form.category != prev.category || form.courtCost != prev.courtCost {
        form := CourtEffect(form);
      }
      if form.amountDueText != prev.amountDueText || form.amountPaidText != prev.amountPaidText {
        form := form.(status := StatusOf(form.amountDueText, form.amountPaidText));
      }
    }

    /** The opening effect for a new entry: `resetForm`, then the prefill, then the effects. */
    method Open(todayDisplay: string, prefill: Option<Prefill>)
      requires Consistent(form)
      modifies this
      ensures form == Opened(old(form), todayDisplay, prefill) && Consistent(form)
    {
      var prev := form;
      form := Blank(prev, todayDisplay, prefill);
      Effects(prev, true, true);
      OpenedConsistent(prev, todayDisplay, prefill);
    }

    /** The opening effect for an existing entry: its fields are loaded, then the effects run. */
    method Edit(t: Transaction)
      requires Consistent(form)
      modifies this
      ensures form == Edited(old(form), t) && Consistent(form)
    {
      var prev := form;
      form := Load(prev, t);
      Effects(prev, true, false);
      EditedConsistent(prev, t);
    }

    method ChangeDate(val: string)
      requires Consistent(form)
      modifies this
      ensures form == DateTyped(old(form), val) && Consistent(form)
    {
      form := form.(displayDate := MaskDate(val));
    }

    method ChooseType(t: TxType)
      requires Consistent(form)
      modifies this
      ensures form == TypeChosen(old(form), t) && Consistent(form)
    {
      form := form.(txType := t);
    }

    method ChooseCompetition(id: string)
      requires Consistent(form)
      modifies this
      ensures form == CompetitionChosen(old(form), id) && Consistent(form)
    {
      form := form.(competitionId := id, round := "");
    }

    method ChooseEntityType(e: EntityType)
      requires Consistent(form)
      modifies this
      ensures form == EntityTypeChosen(old(form), e) && Consistent(form)
    {
      var prev := form;
      form := form.(entityType := e);
      Effects(prev, false, false);
      SettleConsistent(prev, prev.(entityType := e), false, false);
    }

    method ChooseCategory(c: string)
      requires Consistent(form)
      modifies this
      ensures form == CategoryChosen(old(form), c) && Consistent(form)
    {
      var prev := form;
      form := form.(category := c);
      Effects(prev, false, false);
      SettleConsistent(prev, prev.(category := c), false, false);
    }

    method ChooseCourtHours(halfHours: nat)
      requires Consistent(form)
      modifies this
      ensures form == HoursChosen(old(form), halfHours) && Consistent(form)
    {
      var prev := form;
      form := form.(courtCost := CourtCost(halfHours));
      Effects(prev, false, false);
      SettleConsistent(prev, prev.(courtCost := CourtCost(halfHours)), false, false);
    }

    method ChangeAmountDue(val: string)
      requires Consistent(form)
      modifies this
      ensures form == DueTyped(old(form), val) && Consistent(form)
    {
      var prev := form;
      form := form.(amountDueText := MaskCurrency(val));
      Effects(prev, false, false);
      MaskAmount(val);
      SettleConsistent(prev, prev.(amountDueText := MaskCurrency(val)), false, false);
    }

    method ChangeAmountPaid(val: string)
      requires Consistent(form)
      modifies this
      ensures form == PaidTyped(old(form), val) && Consistent(form)
    {
      var prev := form;
      form := form.(amountPaidText := MaskCurrency(val));
      Effects(prev, false, false);
      MaskAmount(val);
      SettleConsistent(prev, prev.(amountPaidText := MaskCurrency(val)), false, false);
    }

    /** `handleSubmit`: the entry to save, with the status its amounts give. */
    method Submit(teams: seq<Team>, staff: seq<StaffMember>, competitions: seq<Competition>, todayIso: string)
      returns (d: Draft)
      requires Consistent(form)
      ensures d == Assemble(form, teams, staff, competitions, todayIso)
      ensures d.status == Classify(d.amountDue, d.amountPaid)
    {
      d := Assemble(form, teams, staff, competitions, todayIso);
      SubmittedStatus(form, teams, staff, competitions, todayIso);
    }
  }
}
