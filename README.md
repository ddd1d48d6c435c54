# AXION-ORANGE league finance — a Dafny model

AXION-ORANGE is a single-page application that keeps the books of a
basketball league. Each transaction records the following:

- an amount due and an amount paid;
- a direction, income or expense;
- a category, such as "Taxa Jogo", "Arbitro" or "Aluguel Quadra";
- the entity it belongs to: a team, a staff member, a court cost, a
  general expense or something else;
- an optional competition, round, season and week.

The application rolls these transactions up in several places:

- the Dashboard: cash balance, receivables, payables and per-area
  panoramas;
- the ledger: a sortable and filterable list with a running net total;
- the team, staff and court (location) pages;
- a transaction form that derives a status (pending, partial or paid)
  and the court-rental charge.

Application state is kept in browser storage, migrated on load and
restorable from a backup file.

This project models that core:

| file | models |
|---|---|
| `Domain.dfy` | transactions, teams, staff, competitions, seasons, weeks; money in cents; the signed cash total; the newest-first order |
| `Dashboard.dfy` | the Dashboard's one-pass statistics loop and its panoramas |
| `LedgerView.dfy` | the ledger's filter pipeline, its net total and the list of known rounds |
| `TeamsView.dfy`, `StaffView.dfy`, `LocationView.dfy` | the per-area pages and their summaries |
| `CompetitionsView.dfy` | the competition editor's rounds text and save |
| `Utils.dfy` | date display and the Brazilian currency mask and parser |
| `TransactionModal.dfy` | status classification, date mask, entity and season resolution, categories, the court charge |
| `TransactionForm.dfy` | the form's state and its React effects, as a class `Form` whose methods are the user's edits |
| `Store.dfy` | the application state, as a class `App` whose methods are the state updaters in `App.tsx`, plus load/migration and backup restore |
| `Collections.dfy`, `Sorting.dfy`, `Text.dfy` | generic sequences, filters and sums; a stable insertion sort; strings |

Amounts are whole cents (`nat`), because every amount in the
application is entered through the two-decimal currency mask. Court
time is counted in half hours: one hour costs `COURT_HOURLY_RATE` = 90
reais, so a half hour is 4500 cents. ISO dates are ordered as strings.
The time of day, the random UUID and `Date.now()` are parameters of the
operations that use them.

## Model

| member | source | states |
|---|---|---|
| Dashboard.Outstanding | components/Dashboard.tsx:48 | the floored remainder is never negative, is at least due − paid, and is zero exactly when the entry is paid in full or overpaid |
| Dashboard.ComputeStats | components/Dashboard.tsx:32-82 | the forEach loop yields the signed cash balance, receivables from income only, payables from all other entries, and the six panorama sums, each equal to its reference definition |
| Dashboard.StatsStep | components/Dashboard.tsx:41-60 | one more entry moves the balance by ± its payment, and only receivables (income) or only payables (expense) by its floored remainder |
| Dashboard.FloorsNonNegative | components/Dashboard.tsx:48-72 | receivables, payables, team receivables and staff dues are never negative, whatever is overpaid |
| Dashboard.StatsPermutation | components/Dashboard.tsx:37-78 | all nine figures are independent of the order of the transactions |
| Dashboard.OverpaidIncome | components/Dashboard.tsx:41-48 | an overpaid income adds its whole payment to the balance and nothing to receivables or payables |
| Dashboard.OutgoingEntry | components/Dashboard.tsx:49-59 | an expense subtracts its payment from the balance and adds only its floored remainder to payables |
| Dashboard.TeamsWithinTotals | components/Dashboard.tsx:65-67 | the team panorama never exceeds the general receivables or the total income received |
| Dashboard.PanoramasIgnoreType | components/Dashboard.tsx:70-78 | the staff, location and general-cost panoramas do not depend on the income/expense direction |
| Dashboard.LocationIgnoresEntity | components/Dashboard.tsx:75 | the location panorama counts every "Aluguel Quadra" entry, whatever entity it is booked on |
| Domain.NetPaidSigned | components/Dashboard.tsx:41-53 | the cash balance is the sum of the signed payments |
| Domain.NetPaidPermutation | components/LedgerView.tsx:70-78 | the net total is independent of order |
| Domain.NetPaidSnoc | components/LedgerView.tsx:73-76 | one more entry changes the net by its signed payment |
| Domain.NewestFirst | components/LedgerView.tsx:28 | sorting by date reorders and neither drops nor duplicates |
| Domain.Statement | components/TeamsView.tsx:126 | a profile's statement holds exactly that entity's entries |
| Domain.StatementSpec | components/StaffView.tsx:86 | the statement is newest first, holds an entry iff it is in the list and belongs to the entity, with its multiplicity |
| LedgerView.FilteredData | components/LedgerView.tsx:27-68 | the staged filtering method returns exactly the specified slice |
| LedgerView.ByMonthAndSection | components/LedgerView.tsx:30-50 | the month and section stages leave the entries that meet both criteria |
| LedgerView.ByFields | components/LedgerView.tsx:52-55 | the competition, team, type and round stages leave the entries that meet the criteria so far |
| LedgerView.ByCalendar | components/LedgerView.tsx:56-57 | the season and week stages do the same |
| LedgerView.BySearch | components/LedgerView.tsx:59-66 | the search stage completes the slice |
| LedgerView.SliceMembership | components/LedgerView.tsx:31-66 | an entry is shown iff it is stored and meets every active filter |
| LedgerView.SliceSorted | components/LedgerView.tsx:28 | the ledger is newest first |
| LedgerView.SlicePermutation | components/LedgerView.tsx:28-67 | the ledger holds each matching entry as often as the store does |
| LedgerView.NoFiltersShowAll | components/LedgerView.tsx:28-67 | with no filter active the ledger is the whole store, newest first |
| LedgerView.SliceIdempotent | components/LedgerView.tsx:27-68 | filtering an already filtered ledger changes nothing |
| LedgerView.UnknownGroupSelectsAll | components/LedgerView.tsx:34-50 | a section name outside TEAM, STAFF, LOCATION and COSTS filters nothing |
| LedgerView.MentionsIff | components/LedgerView.tsx:59-66 | the search matches iff the lower-cased term occurs in the name, the category or a non-empty round |
| LedgerView.TotalSum | components/LedgerView.tsx:70-78 | the loop's income − expense is the net paid of the slice |
| LedgerView.TotalOfSlice | components/LedgerView.tsx:70-78 | the total does not depend on the sort |
| LedgerView.AvailableRounds | components/LedgerView.tsx:81-85 | the round list is sorted and duplicate-free, and holds a round iff some entry has it as a non-empty round |
| Utils.FormatIsoDate | utils.ts:45-49 | YYYY-MM-DD displays as DD/MM/YY |
| Utils.SplitIsoDate | utils.ts:47 | splitting an ISO date on '-' yields year, month and day |
| Utils.Pad2 | utils.ts:61 | the two fractional digits of toFixed(2) have the value of the cents |
| Utils.GroupDigits | utils.ts:64 | thousands grouping only inserts dots and never a comma |
| Utils.GroupGrouped | utils.ts:64 | the integer part has a dot every three digits from the right |
| Utils.ReplaceFirstAt | utils.ts:71 | replacing the first comma of "a,b" by a dot yields "a.b" |
| Utils.CentsValue | utils.ts:61-62 | the whole and fractional digits read back as the cents |
| Utils.RemoveDotsFormat | utils.ts:71 | removing the grouping dots leaves whole,cents |
| Utils.ParseWholeAndCents | utils.ts:68-73 | parsing "d.p" gives d reais and p cents |
| Utils.ParseAtDot | utils.ts:71-72 | after the dots are removed and the comma is turned into a point, parsing splits the text at that point |
| Utils.ParseFormatCents | utils.ts:59-73 | parsing a formatted amount of n cents gives n back |
| Utils.ParseMask | utils.ts:59-73 | whatever is typed, parsing the mask gives the typed digits as cents |
| Utils.KeepDigitsFormat | utils.ts:61 | the digits of a formatted amount are its cents in decimal |
| Utils.MaskIdempotent | utils.ts:59-66 | masking a masked value changes nothing |
| Utils.MaskShape | utils.ts:59-66 | a mask is grouped digits, a comma and two digits, with no leading zero unless the whole part is 0 |
| Utils.MaskIgnoresNonDigits | utils.ts:61 | only the digits typed matter |
| Utils.MaskExamples | utils.ts:59-73 | "1000" masks to "10,00", the empty input to "0,00", and the empty string parses to 0 |
| TransactionModal.Classify | components/TransactionModal.tsx:222-228 | paid iff due > 0 and paid ≥ due; partial iff 0 < paid < due; pending otherwise |
| TransactionModal.PendingIff | components/TransactionModal.tsx:222-228 | pending iff nothing is due or nothing is paid |
| TransactionModal.StatusOutstanding | components/TransactionModal.tsx:218-229 | a paid entry owes nothing on the Dashboard, a partial one owes less than its due, an unpaid one its whole due |
| TransactionModal.MaskAmount | components/TransactionModal.tsx:219-220 | any masked text is a well-formed mask and parses back to the same amount |
| TransactionModal.StatusOfMasks | components/TransactionModal.tsx:218-229 | the status shown is the classification of the two parsed amounts |
| TransactionModal.MaskOfCents | components/TransactionModal.tsx:150-151 | an amount loaded for editing is masked to its formatted form and parses back to itself |
| TransactionModal.ZeroMask | components/TransactionModal.tsx:192-193 | "0,00" is the mask of zero |
| TransactionModal.FirstSix | components/TransactionModal.tsx:200 | the date keeps at most the first six digits typed |
| TransactionModal.MaskDate | components/TransactionModal.tsx:197-208 | the date mask is at most eight characters |
| TransactionModal.MaskDateDigits | components/TransactionModal.tsx:199-206 | its digits are the first six digits typed |
| TransactionModal.MaskDateShape | components/TransactionModal.tsx:202-206 | slashes sit exactly at positions 2 and 5, and every other character is a digit |
| TransactionModal.MaskDateFull | components/TransactionModal.tsx:199-206 | the mask is complete (eight characters) iff at least six digits were typed |
| TransactionModal.MaskDateIdempotent | components/TransactionModal.tsx:197-208 | masking a masked date changes nothing |
| TransactionModal.IsoFromDisplay | components/TransactionModal.tsx:256-260 | an incomplete date falls back to today |
| TransactionModal.MaskedDateToIso | components/TransactionModal.tsx:255-260 | six typed digits DDMMYY become 20YY-MM-DD |
| TransactionModal.DateRoundTrip | components/TransactionModal.tsx:126-128 | an ISO date of 2000–2099 loaded for editing and saved again is unchanged |
| TransactionModal.CenturyLost | components/TransactionModal.tsx:257-259 | any ISO date loaded for editing and saved again keeps its day, month and last two year digits, and its century becomes 20 |
| TransactionModal.CenturyLostExample | components/TransactionModal.tsx:126-128 | an entry of 1999-05-04 is shown as 04/05/99 and saved back as 2099-05-04 |
| TransactionModal.ResolveEntity | components/TransactionModal.tsx:242-253 | team and staff keep their id and take the first matching name or "Unknown …"; other entities become GENERIC with the typed name |
| TransactionModal.DeriveSeason | components/TransactionModal.tsx:262-267 | the season is that of the first competition with the id, if it has a non-empty one, else none |
| TransactionModal.NonEmpty | components/TransactionModal.tsx:278-281 | an empty optional field is saved as absent, any other as itself |
| TransactionModal.CurrentCategories | components/TransactionModal.tsx:293-297 | every entity type offers at least one category, always including "Outros" |
| TransactionModal.DefaultCategory | components/TransactionModal.tsx:231-238 | every entity type except OTHER defaults to its first category |
| TransactionModal.LocationDefaultsToCourt | constants.ts:61-66 | a court cost defaults to "Aluguel Quadra", which belongs to no other group |
| TransactionModal.CourtCost | components/TransactionModal.tsx:212 | a court charge is a whole number of half hours |
| TransactionModal.CourtCostHours | constants.ts:68 | h hours cost h × 90 reais |
| TransactionForm.Assemble | components/TransactionModal.tsx:240-289 | the submitted draft carries the parsed amounts, the converted date, the resolved entity, the derived season and the competition context |
| TransactionForm.InitialConsistent | components/TransactionModal.tsx:97-120 | the initial form shows the status of its amounts |
| TransactionForm.SettleConsistent | components/TransactionModal.tsx:210-238 | after the effects run, the amounts are masks and the shown status is their classification (the court charge is stated by HoursChargeCourt and CategoryChargesCourt, not here) |
| TransactionForm.OpenedConsistent | components/TransactionModal.tsx:157-169 | opening a new entry leaves a consistent form, both as written (commit by commit) and corrected |
| TransactionForm.CommitsSettle | components/TransactionModal.tsx:210-238 | no effect writes the entity type, so three commits after a render leave nothing for a fourth to do, and the status then agrees with the amounts |
| TransactionForm.HandlersAreCommits | components/TransactionModal.tsx:210-238 | for a change of entity type, category, hours or either amount, the one-pass effects equal the effects React runs commit by commit |
| TransactionForm.EditedIsCommits | components/TransactionModal.tsx:124-155 | loading an entry for editing: the one-pass effects equal the commit-by-commit run |
| TransactionForm.EditedConsistent | components/TransactionModal.tsx:124-155 | loading an entry for editing leaves a consistent form |
| TransactionForm.HandlersConsistent | components/TransactionModal.tsx:197-238 | every input handler, with its effects, keeps the form consistent |
| TransactionForm.SubmittedStatus | components/TransactionModal.tsx:269-285 | a submitted entry's status is the classification of its amounts |
| TransactionForm.HoursChargeCourt | components/TransactionModal.tsx:210-216 | choosing court hours on a rental makes it an expense due hours × rate, with the matching status |
| TransactionForm.CategoryChargesCourt | components/TransactionModal.tsx:210-216 | choosing "Aluguel Quadra" charges the current hours as an expense |
| TransactionForm.LocationChargesCourt | components/TransactionModal.tsx:231-238 | on a new entry without a prefilled category, switching the entity type to COST from another type and another category selects "Aluguel Quadra", makes the entry an expense and charges the current hours |
| TransactionForm.OpenedDefaults | components/TransactionModal.tsx:173-195 | corrected: a new entry without a prefilled category starts today, with its own entity type's first category, nothing paid and, outside rentals, an income with nothing due |
| TransactionForm.DefaultOffered | components/TransactionModal.tsx:293-297 | the default category is one of those the form offers |
| TransactionForm.ReopenedCourtAsWritten | components/TransactionModal.tsx:173-216 | as written, reopening the location form on a one-hour rental form leaves the category "Aluguel Quadra" for one hour, the due at "0,00" and the entry an income |
| TransactionForm.ReopenedOtherHoursAsWritten | components/TransactionModal.tsx:173-216 | as written, reopening the location form on a rental form left at other than one hour resets it to one hour, which sets off the court effect: "Aluguel Quadra", due "90,00", an expense |
| TransactionForm.ReopenedCourtExample | App.tsx:212 | the first court entry from the location page is due 90,00, the second 0,00 |
| TransactionForm.CourtNinety | components/TransactionModal.tsx:212-213 | one hour masks to "90,00" |
| TransactionForm.NewCourtRentalCharged | components/TransactionModal.tsx:159-167 | corrected: every new court entry is an expense due one hour of court |
| TransactionForm.StaleDefaultCharges | components/TransactionModal.tsx:157-237 | as written, after a COST entry that is not a one-hour rental, a new TEAM, STAFF or EXPENSE entry without a prefilled category gets its own first category but is an expense due "90,00" |
| TransactionForm.StaleDefaultExample | App.tsx:190 | a COST entry for "Alimentação", then "Nova Movimentação": "Taxa Jogo" due 90,00 as an expense as written; an income with nothing due once corrected |
| TransactionForm.OpenedAsWrittenAgrees | components/TransactionModal.tsx:157-237 | after an entry that was not a COST entry (and not a one-hour rental), the written opening of a new entry without a prefilled category is the corrected one |
| TransactionForm.EditRoundTrip | components/TransactionModal.tsx:124-155 | editing an entry dated 2000–2099 whose category is not "Aluguel Quadra" and saving it unchanged reproduces its date, type, category, entity type and amounts, with the status of those amounts |
| TransactionForm.Form.constructor | components/TransactionModal.tsx:97-120 | the form starts in its initial consistent state |
| TransactionForm.Form.Effects | components/TransactionModal.tsx:210-238 | the effects of one event run in one pass (default category, court charge, status), which for every handler is React's commit-by-commit run |
| TransactionForm.Form.Open | components/TransactionModal.tsx:157-169 | opening a new entry applies the corrected opening (the first and third findings): the reset, the prefill, the new entity type's default and a fresh court charge, keeping the form consistent |
| TransactionForm.Form.Edit | components/TransactionModal.tsx:124-155 | loading an entry fills the form from it and keeps it consistent |
| TransactionForm.Form.ChangeDate | components/TransactionModal.tsx:197-208 | typing a date stores its mask |
| TransactionForm.Form.ChooseType | components/TransactionModal.tsx:329-336 | the direction buttons set the type |
| TransactionForm.Form.ChooseCompetition | components/TransactionModal.tsx:490 | choosing a competition clears the round |
| TransactionForm.Form.ChooseEntityType | components/TransactionModal.tsx:366 | choosing an entity type gives a new entry that type's default category, then the court charge if it is a rental |
| TransactionForm.Form.ChooseCategory | components/TransactionModal.tsx:417 | choosing a category applies the court charge when it is a rental |
| TransactionForm.Form.ChooseCourtHours | components/TransactionModal.tsx:537 | changing the hours recharges a rental |
| TransactionForm.Form.ChangeAmountDue | components/TransactionModal.tsx:574 | typing the due stores its mask and updates the status |
| TransactionForm.Form.ChangeAmountPaid | components/TransactionModal.tsx:586 | typing the payment stores its mask and updates the status |
| TransactionForm.Form.Submit | components/TransactionModal.tsx:240-289 | the draft handed to the store is the assembled form, its status the classification of its amounts |
| Store.ReplaceById | App.tsx:155 | replacing by id keeps the length, puts the item where the id matches and leaves every other element |
| Store.ReplaceKeepsKeys | App.tsx:122 | a replacement keeps the list of ids, and so their uniqueness |
| Store.ReplaceAbsent | App.tsx:138 | replacing an id that is absent changes nothing |
| Store.RemoveMembers | App.tsx:133 | removal keeps exactly the elements with another id |
| Store.RemoveCounts | App.tsx:105 | removal keeps each other element's multiplicity |
| Store.RemoveKeepsUnique | App.tsx:158 | removal keeps ids unique |
| Store.AppendKeepsUnique | App.tsx:130 | appending an item with a new id keeps ids unique |
| Store.SaveNew | App.tsx:88-97 | a new entry is appended after all others, with the fresh id and timestamp |
| Store.StampKeepsDraft | App.tsx:86 | stamping a draft adds only the id and timestamp |
| Store.SaveEditSpec | App.tsx:83-87 | saving an edit keeps the length, replaces the edited entry by the draft with its old id and timestamp, and leaves every other entry |
| Store.SaveEditUnique | App.tsx:86 | with unique ids, saving an edit replaces exactly the edited position |
| Store.SaveEditAbsent | App.tsx:86 | saving an edit of a deleted entry changes nothing |
| Store.SaveEditBalance | App.tsx:83-87 | with unique ids, an edit moves the cash balance by the difference of the signed payments |
| Store.DeleteSpec | App.tsx:103-107 | delete keeps exactly the entries with another id and their multiplicity |
| Store.DeleteUnique | App.tsx:105 | with unique ids, delete removes exactly one position |
| Store.DeleteBalance | App.tsx:103-107 | with unique ids, delete takes the entry's signed payment out of the balance |
| Store.RenameSpec | App.tsx:124-126 | renaming changes only entityName, and only on entries of that type and id |
| Store.RenameIdempotent | App.tsx:124-126 | renaming twice is renaming once |
| Store.RenameKeepsTotals | App.tsx:121-129 | a rename leaves the balance, receivables and payables unchanged |
| Store.RenameKeepsPeople | App.tsx:137-145 | a rename leaves the team and staff panoramas unchanged |
| Store.RenameKeepsCosts | App.tsx:121-145 | a rename leaves the location and general-cost panoramas unchanged |
| Store.TeamUpdatedSpec | App.tsx:121-129 | a team update replaces the team and renames its entries, and touches nothing else |
| Store.StaffUpdatedSpec | App.tsx:137-145 | a staff update replaces the member and renames their entries, and touches nothing else |
| Store.RoundOf | App.tsx:55 | the migrated round is the stored round if non-empty, else the legacy context value if non-empty, else "" |
| Store.MigrateSpec | App.tsx:53-57 | migration changes only the round, keeps the status and always sets a round |
| Store.MigrateIdempotent | App.tsx:53-57 | migrating a migrated entry changes nothing |
| Store.LoadedSpec | App.tsx:50-67 | a load keeps every entry, team and member, and replaces each absent reference list by its initial seed |
| Store.ReloadStable | App.tsx:50-70 | saving and reloading a loaded state gives it back |
| Store.LoadedKeepsStats | App.tsx:53-57 | migration leaves the balance, receivables and payables unchanged |
| Store.ImportAsWritten | App.tsx:283-286 | as written, a restore happens iff the file has transactions, and defaults only the competitions |
| Store.ImportLeavesGaps | App.tsx:283-286 | as written, a backup from before seasons leaves seasons and weeks absent and the entry without a round, its "R1" kept only in `contextValue` until the next load migrates it; corrected, it gets the seeds and round "R1" at once |
| Store.ImportedSpec | App.tsx:283-286 | corrected: a restore without transactions keeps the state; otherwise it replaces everything, seeding absent lists and migrating entries as a load does |
| Store.ImportExported | App.tsx:283-286 | restoring an exported state gives that state back |
| Store.App.constructor | App.tsx:41-48 | the application starts with no transactions and the initial seeds |
| Store.App.Load | App.tsx:50-67 | a stored state replaces the state after migration; no stored state keeps it |
| Store.App.SaveTransaction | App.tsx:82-101 | an edit or an append as specified; an append with a fresh id keeps ids unique |
| Store.App.DeleteTransaction | App.tsx:103-107 | the entry is removed and ids stay unique |
| Store.App.UpdateTeam | App.tsx:121-129 | the team update as specified |
| Store.App.AddTeam | App.tsx:130 | the team is appended and nothing else changes |
| Store.App.DeleteTeam | App.tsx:131-135 | the team is removed and its transactions stay |
| Store.App.UpdateStaff | App.tsx:137-145 | the staff update as specified |
| Store.App.AddStaff | App.tsx:146 | the member is appended and nothing else changes |
| Store.App.DeleteStaff | App.tsx:147-151 | the member is removed and their transactions stay |
| Store.App.AddCompetition | App.tsx:154 | the competition is appended |
| Store.App.UpdateCompetition | App.tsx:155 | the competition with that id is replaced |
| Store.App.DeleteCompetition | App.tsx:156-160 | the competition is removed and the transactions stay |
| Store.App.AddSeason | App.tsx:162 | the season is appended |
| Store.App.UpdateSeason | App.tsx:163 | the season with that id is replaced |
| Store.App.DeleteSeason | App.tsx:164-168 | the season is removed and the transactions stay |
| Store.App.AddWeek | App.tsx:170 | the week is appended |
| Store.App.UpdateWeek | App.tsx:171 | the week with that id is replaced |
| Store.App.DeleteWeek | App.tsx:172-176 | the week is removed and the transactions stay |
| Store.App.Import | App.tsx:283-286 | a restore applies the corrected import |
| TeamsView.TeamsDueSplit | components/TeamsView.tsx:111 | the teams' due is all their dues minus all their payments |
| TeamsView.TeamsDueAtMostFloored | components/TeamsView.tsx:111 | unlike the Dashboard's, it is not floored: at most the floored sum, equal when no team entry is overpaid |
| TeamsView.OverpaidTeamDue | components/TeamsView.tsx:110-111 | a team overpaying 0,20 makes the page's due −0,20 while the Dashboard shows 0 receivable and 0,20 received |
| TeamsView.GeneralStatsPermutation | components/TeamsView.tsx:109-113 | the general figures do not depend on order |
| TeamsView.TeamDebtSplit | components/TeamsView.tsx:117-123 | a team's debt is its income dues minus income paid plus the dues of its non-income entries |
| TeamsView.TeamStatsSnoc | components/TeamsView.tsx:117-123 | another entry moves a team's figures iff it carries the team's id |
| TeamsView.TeamStatsPermutation | components/TeamsView.tsx:117-123 | a team's figures do not depend on order |
| TeamsView.FeesPartition | components/TeamsView.tsx:126-131 | the three fee lists together are exactly the team's statement |
| TeamsView.FeesByCategory | components/TeamsView.tsx:129-131 | an entry is a match fee, a registration fee or another fee by its category |
| TeamsView.FeesSorted | components/TeamsView.tsx:126-131 | each fee list is newest first |
| StaffView.SelectionCount | components/StaffView.tsx:67-69 | the selection holds the staff entries in the month and role, each with its multiplicity |
| StaffView.ToPayIsSignedSum | components/StaffView.tsx:230 | "To Pay" is the unfloored sum of due − paid over the selection |
| StaffView.SelectionNarrows | components/StaffView.tsx:67-69 | each filter narrows the other's selection, in either order |
| StaffView.FiltersNeverIncrease | components/StaffView.tsx:66-75 | adding a month or role filter never raises the count, the paid or the due |
| StaffView.StaffStatsCharged | components/StaffView.tsx:77-82 | a member's paid plus due is the total charged to them |
| StaffView.StaffStatsSnoc | components/StaffView.tsx:77-82 | another entry moves a member's figures iff it carries their id |
| StaffView.AggregatePermutation | components/StaffView.tsx:66-75 | the summary does not depend on order |
| LocationView.CourtTransactionsSpec | components/LocationView.tsx:17-21 | the court page lists the court-cost rentals in the month, newest first, each with its multiplicity |
| LocationView.TotalsSpec | components/LocationView.tsx:23-24 | its totals are the sums over that choice, never negative |
| LocationView.MonthWithinAll | components/LocationView.tsx:19-24 | a month's totals never exceed the all-time totals |
| LocationView.WithinDashboard | components/LocationView.tsx:18-24 | the page's paid total never exceeds the Dashboard's location panorama |
| LocationView.TeamRentalExcluded | components/LocationView.tsx:18 | a rental booked on a team counts on the Dashboard but not on the court page |
| CompetitionsView.ParseRounds | components/CompetitionsView.tsx:58 | parsed rounds are trimmed and non-empty |
| CompetitionsView.BlankLinesNoRounds | components/CompetitionsView.tsx:58 | text of blank lines gives no round |
| CompetitionsView.RoundsRoundTrip | components/CompetitionsView.tsx:54-58 | joining well-formed rounds with newlines and parsing them gives them back |
| CompetitionsView.ParseIdempotent | components/CompetitionsView.tsx:54-58 | parsing the joined parse changes nothing |
| CompetitionsView.LeagueOf | components/CompetitionsView.tsx:59-60 | the saved competition has the given id and well-formed rounds |
| CompetitionsView.SaveLeagueSpec | components/CompetitionsView.tsx:56-62 | an edit replaces the competition with that id and keeps the ids; a new one is appended with the fresh id |
| CompetitionsView.EditUnchanged | components/CompetitionsView.tsx:53-62 | opening a competition that has a logo, a non-empty id and trimmed non-empty rounds, and saving it unchanged, leaves the list unchanged |
| CompetitionsView.EditAddsEmptyLogo | components/CompetitionsView.tsx:54-59 | opening a competition without a logo (with a non-empty id and trimmed non-empty rounds) and saving it unchanged gives it the logo "" and changes nothing else in the list |
| Text.SplitJoin | components/CompetitionsView.tsx:54 | splitting a join of separator-free parts gives them back |
| Text.TrimTrimmed | components/CompetitionsView.tsx:58 | trimming a round that is already trimmed changes nothing |
| Sorting.SortSorted | components/LedgerView.tsx:28 | the sort's output is ordered |

## Left out

- Floating point: amounts are whole cents, and amounts above 2^53 cents are not modelled. `parseFloat` is modelled only on what the currency mask produces.
- Court hours are whole half hours. The number input also accepts fractions, negative values and NaN, which are not modelled.
- `localeCompare` is modelled as code-unit order, and the ledger's `Date`-based sort as ISO string order. `toLowerCase` is modelled one character at a time: the ASCII capitals and the Latin-1 capitals U+00C0–U+00DE (except U+00D7) are lowered, and every other character is kept. JavaScript also lowers other scripts and can lengthen a string (U+0130 becomes two code units); `Text.Lower` keeps the length and does neither.
- Browser storage, JSON parsing, `FileReader`, the export download and `alert` are left out. `services/storage.ts` is not part of this model: a stored state is a `Snapshot` parameter, and a backup file is a `Backup` parameter.
- The confirmation dialog (`requestConfirm`) is not modelled: deletes are modelled as already confirmed.
- Today's date, `crypto.randomUUID()` and `Date.now()` are parameters. The fallback ISO date is taken as given (in the source it is UTC).
- `formatCurrency`, `formatHours`, the court page's `totalHours`, `resizeImage`, `CountUp`, layout and navigation are display only and left out.
- Free-text fields of the form (entity id, custom name, description, week, round, matches worked) are plain fields of the form state, not separate events.
- TransactionForm.Form.Effects: the user's edits run the effects as one pass: default category, then court charge, then status. `HandlersAreCommits` and `EditedIsCommits` prove that pass equal to React's run, in which each commit's effects read the same render and their updates are batched for the next. The opening of a new entry is not such a pass: `OpenedAsWritten` models it commit by commit, and `Form.Open` applies the corrected opening. Effects are taken to run once per commit in declaration order; the development-mode double run of effects is not modelled.
- TransactionModal.DateRoundTrip: holds only for dates of 2000–2099. The form shows a two-digit year and saves it back as 20YY, so any other century is lost; `CenturyLost` states what comes back for every date.
- TransactionForm.EditRoundTrip: holds only for entries dated 2000–2099 (see `DateRoundTrip`) that are not court rentals. Loading a rental can set off the court effect (components/TransactionModal.tsx:153-155, 210-216) whenever its category or hours differ from the last render. A rental with something due is then recharged at that same amount but made an EXPENSE. A rental with nothing due keeps the hours already on the form, so it is recharged at those hours × 90 reais as an EXPENSE.
- TransactionForm.LocationChargesCourt: covers only a new entry without a prefilled category. While editing, or when the opening prefilled a category, the default-category effect does nothing (components/TransactionModal.tsx:232), so choosing COST keeps the current category; the court charge then follows only if that category already is "Aluguel Quadra".
- TransactionForm.ReopenedCourtAsWritten: covers only a one-hour rental form, the hours the location page prefills. A rental form left at other hours is reset to one hour, which sets off the court effect and charges 90,00 as an expense; `ReopenedOtherHoursAsWritten` states that case.
- Store.ImportedSpec: a backup missing teams or staff is not modelled. Those two lists are required fields of `Backup`.
- Saving seasons and weeks from the competitions page, and their edit forms, are the same add/update pattern as competitions. They are covered by the `App` methods, not by a separate form.

## Findings

| source | as written | input that shows it | evidently intended | confidence | as-written member | corrected member |
|---|---|---|---|---|---|---|
| components/TransactionModal.tsx:173-216 | reopening the form resets the due to "0,00"; the court effect reruns only when the category or the hours change | open a new entry from the location page (App.tsx:212), close it, and open it again: the second form shows "Aluguel Quadra" for one hour but due 0,00 | every new court rental is due one hour of court (90,00) | not executed | TransactionForm.ReopenedCourtAsWritten | TransactionForm.NewCourtRentalCharged |
| App.tsx:283-286 | a restore replaces the state with the file and defaults only the competitions; entries are not migrated | a backup `{"transactions":[{…,"contextValue":"R1"}],"teams":[],"staff":[]}` from before seasons existed leaves seasons and weeks undefined (components/LedgerView.tsx:114 then maps over undefined), and the entry has no round until the next load migrates its `contextValue` | a restore seeds absent lists and migrates entries, as a load does (App.tsx:50-67) | not executed | Store.ImportLeavesGaps | Store.ImportedSpec |
| components/TransactionModal.tsx:157-237 | in the commit that opens the form, the default-category effect still reads the previous entity type and writes that type's first category over the reset; the court effect fires on it one render later, before the new type's default replaces it | edit a COST entry for "Alimentação" (App.tsx:109-112), close the form and press "Nova Movimentação" (App.tsx:190), or open a team or staff entry (App.tsx:210-211): the new entry shows its own first category but is an EXPENSE due 90,00 | a new entry gets its own entity type's first category and, unless it is a court rental, stays an income with nothing due | not executed | TransactionForm.StaleDefaultExample | TransactionForm.OpenedDefaults |
