// The application's single state cell (App.tsx): saving, deleting and renaming
// ledger entries, the add/update/delete handlers of the five registries, the
// migration applied when the stored state is loaded, and the restore of a
// backup file.

module Store {
  import opened Collections
  import opened Domain
  import opened Dashboard

  // Keys of the records; every registry is updated and pruned by its `id`.

  function TxId(t: Transaction): string { t.id }
  function TeamId(t: Team): string { t.id }
  function StaffId(m: StaffMember): string { m.id }
  function CompetitionId(c: Competition): string { c.id }
  function SeasonId(s: Season): string { s.id }
  function WeekId(w: Week): string { w.id }

  /** `x => x.id === item.id ? item : x` */
  function ReplaceWith<T>(item: T, key: T -> string): T -> T
  {
    (y: T) => if key(y) == key(item) then item else y
  }

  /** `xs.map(x => x.id === item.id ? item : x)`: the update handlers. */
  function ReplaceById<T>(xs: seq<T>, item: T, key: T -> string): (r: seq<T>)
    ensures |r| == |xs|
    ensures forall i :: 0 <= i < |xs| && key(xs[i]) == key(item) ==> r[i] == item
    ensures forall i :: 0 <= i < |xs| && key(xs[i]) != key(item) ==> r[i] == xs[i]
  {
    Map(xs, ReplaceWith(item, key))
  }

  /** `x => x.id !== id` */
  function KeyIsNot<T>(id: string, key: T -> string): T -> bool
  {
    (y: T) => key(y) != id
  }

  /** `xs.filter(x => x.id !== id)`: the delete handlers. */
  function RemoveById<T>(xs: seq<T>, id: string, key: T -> string): (r: seq<T>)
  {
    Filter(xs, KeyIsNot(id, key))
  }

  /** No two records of the list share an id. */
  predicate UniqueKeys<T>(xs: seq<T>, key: T -> string)
  {
    Distinct(Map(xs, key))
  }

  /** With unique ids, records at different positions have different ids. */
  lemma UniqueAt<T>(xs: seq<T>, key: T -> string, i: nat, j: nat)
    requires UniqueKeys(xs, key) && i < |xs| && j < |xs| && i != j
    ensures key(xs[i]) != key(xs[j])
  {
    var m := Map(xs, key);
    if i < j {
      assert m[i] != m[j];
    } else {
      assert m[j] != m[i];
    }
  }

  /** An update keeps every id where it was, so ids stay unique. */
  lemma ReplaceKeepsKeys<T>(xs: seq<T>, item: T, key: T -> string)
    ensures Map(ReplaceById(xs, item, key), key) == Map(xs, key)
    ensures UniqueKeys(xs, key) ==> UniqueKeys(ReplaceById(xs, item, key), key)
  {
    var r := ReplaceById(xs, item, key);
    assert forall i :: 0 <= i < |xs| ==> Map(r, key)[i] == key(r[i]) == key(xs[i]);
  }

  /** An update with an id that is not in the list changes nothing. */
  lemma ReplaceAbsent<T>(xs: seq<T>, item: T, key: T -> string)
    requires forall x :: x in xs ==> key(x) != key(item)
    ensures ReplaceById(xs, item, key) == xs
  {
    var r := ReplaceById(xs, item, key);
    assert forall i :: 0 <= i < |xs| ==> r[i] == xs[i];
  }

  /** A delete keeps exactly the records with another id, in their order. */
  lemma RemoveMembers<T>(xs: seq<T>, id: string, key: T -> string)
    ensures forall y :: y in RemoveById(xs, id, key) <==> y in xs && key(y) != id
    ensures (forall x :: x in xs ==> key(x) != id) ==> RemoveById(xs, id, key) == xs
  {
    FilterMembers(xs, KeyIsNot(id, key));
    if forall x :: x in xs ==> key(x) != id {
      FilterAll(xs, KeyIsNot(id, key));
    }
  }

  /** After a delete, no record with that id is left, and none with another id is lost. */
  lemma {:induction false} RemoveCounts<T>(xs: seq<T>, id: string, key: T -> string, y: T)
    ensures multiset(RemoveById(xs, id, key))[y] == if key(y) == id then 0 else multiset(xs)[y]
  {
    FilterCount(xs, KeyIsNot(id, key), y);
  }

  /** The records after the first have unique ids, none of them the first's. */
  lemma UniqueTail<T>(xs: seq<T>, key: T -> string)
    requires UniqueKeys(xs, key) && xs != []
    ensures UniqueKeys(xs[1..], key)
    ensures forall x :: x in xs[1..] ==> key(x) != key(xs[0])
  {
    var m, n := Map(xs, key), Map(xs[1..], key);
    forall a, b | 0 <= a < b < |n| ensures n[a] != n[b] {
      assert n[a] == m[a + 1] && n[b] == m[b + 1];
    }
    forall x | x in xs[1..] ensures key(x) != key(xs[0]) {
      var j :| 0 <= j < |xs| - 1 && xs[1..][j] == x;
      UniqueAt(xs, key, j + 1, 0);
    }
  }

  /** A record whose id none of a uniquely keyed list has can go in front of it. */
  lemma ConsKeepsUnique<T>(x: T, rest: seq<T>, key: T -> string)
    requires UniqueKeys(rest, key)
    requires forall y :: y in rest ==> key(y) != key(x)
    ensures UniqueKeys([x] + rest, key)
  {
    var xs := [x] + rest;
    var m := Map(xs, key);
    forall a, b | 0 <= a < b < |m| ensures m[a] != m[b] {
      assert xs[b] == rest[b - 1];
      if a > 0 {
        assert xs[a] == rest[a - 1];
        UniqueAt(rest, key, a - 1, b - 1);
      } else {
        assert rest[b - 1] in rest;
      }
    }
  }

  /** A delete never makes two records share an id. */
  lemma {:induction false} RemoveKeepsUnique<T>(xs: seq<T>, id: string, key: T -> string)
    requires UniqueKeys(xs, key)
    ensures UniqueKeys(RemoveById(xs, id, key), key)
  {
    if xs != [] {
      var p := KeyIsNot(id, key);
      var tail := xs[1..];
      UniqueTail(xs, key);
      RemoveKeepsUnique(tail, id, key);
      FilterCons(xs[0], tail, p);
      assert [xs[0]] + tail == xs;
      if p(xs[0]) {
        var rest := Filter(tail, p);
        FilterMembers(tail, p);
        forall y | y in rest ensures key(y) != key(xs[0]) {
          var j :| 0 <= j < |rest| && rest[j] == y;
          assert rest[j] in tail;
        }
        ConsKeepsUnique(xs[0], rest, key);
      }
    }
  }

  /** Appending a record whose id is new keeps ids unique. */
  lemma AppendKeepsUnique<T>(xs: seq<T>, item: T, key: T -> string)
    requires UniqueKeys(xs, key)
    requires forall x :: x in xs ==> key(x) != key(item)
    ensures UniqueKeys(xs + [item], key)
  {
    var m := Map(xs + [item], key);
    forall a, b | 0 <= a < b < |m| ensures m[a] != m[b] {
      assert m[a] == key((xs + [item])[a]);
      if b == |xs| {
        assert (xs + [item])[a] in xs;
      } else {
        assert m[a] == Map(xs, key)[a] && m[b] == Map(xs, key)[b];
      }
    }
  }

  // Ledger entries.

  /** `t => t.id === editingId ? {...draft, id: t.id, createdAt: t.createdAt} : t` */
  function Overwrite(editingId: string, d: Draft): Transaction -> Transaction
  {
    (t: Transaction) => if t.id == editingId then Stamp(d, t.id, t.createdAt) else t
  }

  /** Saving an edit: the entry with the edited id takes the draft's fields and keeps its id and creation time. */
  function SaveEdit(ts: seq<Transaction>, editingId: string, d: Draft): (r: seq<Transaction>)
  {
    Map(ts, Overwrite(editingId, d))
  }

  /** Saving a new entry: the draft, given a fresh id and the current time, goes at the end. */
  function SaveNew(ts: seq<Transaction>, d: Draft, freshId: string, now: int): (r: seq<Transaction>)
    ensures |r| == |ts| + 1 && r[..|ts|] == ts
    ensures r[|ts|].id == freshId && r[|ts|].createdAt == now
  {
    ts + [Stamp(d, freshId, now)]
  }

  /** The stamped draft carries every field of the draft. */
  lemma StampKeepsDraft(d: Draft, id: string, createdAt: int)
    ensures var t := Stamp(d, id, createdAt);
      t.id == id && t.createdAt == createdAt &&
      Draft(t.date, t.txType, t.category, t.entityId, t.entityName, t.entityType, t.description,
            t.matchesWorked, t.seasonId, t.weekId, t.competitionId, t.round, t.contextType,
            t.amountDue, t.amountPaid, t.status, t.notes) == d
  {
  }

  /** Only the entry with the edited id changes; it keeps its id and creation time, and the ids of the list are those it had. */
  lemma SaveEditSpec(ts: seq<Transaction>, editingId: string, d: Draft)
    ensures |SaveEdit(ts, editingId, d)| == |ts|
    ensures forall i :: 0 <= i < |ts| && ts[i].id != editingId ==> SaveEdit(ts, editingId, d)[i] == ts[i]
    ensures forall i :: 0 <= i < |ts| && ts[i].id == editingId ==>
      SaveEdit(ts, editingId, d)[i] == Stamp(d, ts[i].id, ts[i].createdAt)
    ensures forall i :: 0 <= i < |ts| ==>
      SaveEdit(ts, editingId, d)[i].id == ts[i].id && SaveEdit(ts, editingId, d)[i].createdAt == ts[i].createdAt
    ensures Map(SaveEdit(ts, editingId, d), TxId) == Map(ts, TxId)
  {
    var r := SaveEdit(ts, editingId, d);
    assert forall i :: 0 <= i < |ts| ==> Map(r, TxId)[i] == r[i].id == ts[i].id;
  }

  /** Saving an edit of an entry no longer in the list changes nothing. */
  lemma SaveEditAbsent(ts: seq<Transaction>, editingId: string, d: Draft)
    requires forall t :: t in ts ==> t.id != editingId
    ensures SaveEdit(ts, editingId, d) == ts
  {
    var r := SaveEdit(ts, editingId, d);
    assert forall i :: 0 <= i < |ts| ==> r[i] == ts[i];
  }

  /** With unique ids, saving an edit of entry `i` replaces that entry alone. */
  lemma SaveEditUnique(ts: seq<Transaction>, i: nat, d: Draft)
    requires i < |ts| && UniqueKeys(ts, TxId)
    ensures SaveEdit(ts, ts[i].id, d) == ts[..i] + [Stamp(d, ts[i].id, ts[i].createdAt)] + ts[i + 1..]
  {
    var r := SaveEdit(ts, ts[i].id, d);
    forall j | 0 <= j < |ts| && j != i ensures r[j] == ts[j] {
      UniqueAt(ts, TxId, j, i);
    }
  }

  /** With unique ids, an edit changes the cash balance by exactly the change in the edited entry's signed payment. */
  lemma SaveEditBalance(ts: seq<Transaction>, i: nat, d: Draft)
    requires i < |ts| && UniqueKeys(ts, TxId)
    ensures NetPaid(SaveEdit(ts, ts[i].id, d)) == NetPaid(ts) - SignedPaid(ts[i]) + SignedPaid(Stamp(d, ts[i].id, ts[i].createdAt))
  {
    var t' := Stamp(d, ts[i].id, ts[i].createdAt);
    SaveEditUnique(ts, i, d);
    NetPaidSigned(ts);
    NetPaidSigned(ts[..i] + [t'] + ts[i + 1..]);
    SumReplaceAt(ts, i, t', SignedPaid);
  }


  /** Deleting an entry: every entry with that id goes, the rest keep their order. */
  function RemoveTransaction(ts: seq<Transaction>, id: string): (r: seq<Transaction>)
  {
    RemoveById(ts, id, TxId)
  }

  /** Deleting removes exactly the entries with that id; an absent id changes nothing. */
  lemma DeleteSpec(ts: seq<Transaction>, id: string)
    ensures forall t :: t in RemoveTransaction(ts, id) <==> t in ts && t.id != id
    ensures forall t :: t in ts && t.id != id ==> multiset(RemoveTransaction(ts, id))[t] == multiset(ts)[t]
    ensures (forall t :: t in ts ==> t.id != id) ==> RemoveTransaction(ts, id) == ts
  {
    RemoveMembers(ts, id, TxId);
    forall t | t in ts && t.id != id ensures multiset(RemoveTransaction(ts, id))[t] == multiset(ts)[t] {
      RemoveCounts(ts, id, TxId, t);
    }
  }

  /** With unique ids, deleting the id of entry `i` removes that entry alone. */
  lemma DeleteUnique(ts: seq<Transaction>, i: nat)
    requires i < |ts| && UniqueKeys(ts, TxId)
    ensures RemoveTransaction(ts, ts[i].id) == ts[..i] + ts[i + 1..]
  {
    var p := KeyIsNot(ts[i].id, TxId);
    forall j | 0 <= j < |ts| && j != i ensures p(ts[j]) {
      UniqueAt(ts, TxId, j, i);
    }
    FilterDropsOne(ts, i, p);
  }

  /** Deleting a unique entry moves the cash balance back by its signed payment. */
  lemma DeleteBalance(ts: seq<Transaction>, i: nat)
    requires i < |ts| && UniqueKeys(ts, TxId)
    ensures NetPaid(RemoveTransaction(ts, ts[i].id)) == NetPaid(ts) - SignedPaid(ts[i])
  {
    DeleteUnique(ts, i);
    assert ts == ts[..i] + [ts[i]] + ts[i + 1..];
    NetPaidSigned(ts);
    NetPaidSigned(ts[..i] + ts[i + 1..]);
    SumAppend(ts[..i] + [ts[i]], ts[i + 1..], SignedPaid);
    SumAppend(ts[..i], [ts[i]], SignedPaid);
    SumAppend(ts[..i], ts[i + 1..], SignedPaid);
  }

  // Renaming a team or staff member.

  /** `tr => tr.entityType === e && tr.entityId === id ? {...tr, entityName: name} : tr` */
  function Rename(e: EntityType, id: string, name: string): Transaction -> Transaction
  {
    (t: Transaction) => if t.entityType == e && t.entityId == id then t.(entityName := name) else t
  }

  /** The entries booked against entity `id` of kind `e` take its new name. */
  function RenameEntries(ts: seq<Transaction>, e: EntityType, id: string, name: string): (r: seq<Transaction>)
  {
    Map(ts, Rename(e, id, name))
  }

  /** Exactly the entries of that entity change, and only in their displayed name. */
  lemma RenameSpec(ts: seq<Transaction>, e: EntityType, id: string, name: string)
    ensures |RenameEntries(ts, e, id, name)| == |ts|
    ensures forall i :: 0 <= i < |ts| ==>
      RenameEntries(ts, e, id, name)[i].(entityName := ts[i].entityName) == ts[i]
    ensures forall i :: 0 <= i < |ts| ==>
      RenameEntries(ts, e, id, name)[i].entityName ==
        if ts[i].entityType == e && ts[i].entityId == id then name else ts[i].entityName
  {
  }

  /** Renaming twice with the same name is renaming once. */
  lemma RenameIdempotent(ts: seq<Transaction>, e: EntityType, id: string, name: string)
    ensures RenameEntries(RenameEntries(ts, e, id, name), e, id, name) == RenameEntries(ts, e, id, name)
  {
    var r := RenameEntries(ts, e, id, name);
    assert forall i :: 0 <= i < |ts| ==> RenameEntries(r, e, id, name)[i] == r[i];
  }

  /** A rename leaves the balance and the two outstanding totals of the dashboard as they were. */
  lemma RenameKeepsTotals(ts: seq<Transaction>, e: EntityType, id: string, name: string)
    ensures var r := RenameEntries(ts, e, id, name);
      NetPaid(r) == NetPaid(ts) && Receivables(r) == Receivables(ts) && Payables(r) == Payables(ts)
  {
    var g := Rename(e, id, name);
    SumFilterMap(ts, g, IsIncome, PaidOf);
    SumFilterMap(ts, g, IsNotIncome, PaidOf);
    SumFilterMap(ts, g, IsIncome, Outstanding);
    SumFilterMap(ts, g, IsNotIncome, Outstanding);
  }

  /** A rename leaves the teams' and the staff's panoramas as they were. */
  lemma RenameKeepsPeople(ts: seq<Transaction>, e: EntityType, id: string, name: string)
    ensures var r := RenameEntries(ts, e, id, name);
      TeamsIncome(r) == TeamsIncome(ts) && TeamsReceivable(r) == TeamsReceivable(ts) &&
      StaffPaid(r) == StaffPaid(ts) && StaffDue(r) == StaffDue(ts)
  {
    var g := Rename(e, id, name);
    SumFilterMap(ts, g, IsTeamIncome, PaidOf);
    SumFilterMap(ts, g, IsTeamIncome, Outstanding);
    SumFilterMap(ts, g, IsStaff, PaidOf);
    SumFilterMap(ts, g, IsStaff, Outstanding);
  }

  /** A rename leaves the court's and the general costs' panoramas as they were. */
  lemma RenameKeepsCosts(ts: seq<Transaction>, e: EntityType, id: string, name: string)
    ensures var r := RenameEntries(ts, e, id, name);
      LocationPaid(r) == LocationPaid(ts) && GeneralCostsPaid(r) == GeneralCostsPaid(ts)
  {
    var g := Rename(e, id, name);
    SumFilterMap(ts, g, IsCourtRental, PaidOf);
    SumFilterMap(ts, g, IsGeneralCost, PaidOf);
  }

  /** updateTeam: the team with that id is replaced and its entries take its name. */
  function TeamUpdated(s: AppState, t: Team): (r: AppState)
  {
    s.(teams := ReplaceById(s.teams, t, TeamId),
       transactions := RenameEntries(s.transactions, TeamEntity, t.id, t.name))
  }

  /** updateStaff: the member with that id is replaced and their entries take the name. */
  function StaffUpdated(s: AppState, m: StaffMember): (r: AppState)
  {
    s.(staff := ReplaceById(s.staff, m, StaffId),
       transactions := RenameEntries(s.transactions, StaffEntity, m.id, m.name))
  }

  /** Updating a team touches only the team list and the team's own entries' names. */
  lemma TeamUpdatedSpec(s: AppState, t: Team)
    ensures var r := TeamUpdated(s, t);
      r.staff == s.staff && r.competitions == s.competitions && r.seasons == s.seasons && r.weeks == s.weeks &&
      |r.teams| == |s.teams| && |r.transactions| == |s.transactions|
    ensures var r := TeamUpdated(s, t);
      forall i :: 0 <= i < |s.transactions| ==>
        r.transactions[i] == if s.transactions[i].entityType == TeamEntity && s.transactions[i].entityId == t.id
                             then s.transactions[i].(entityName := t.name) else s.transactions[i]
    ensures UniqueKeys(s.teams, TeamId) ==> UniqueKeys(TeamUpdated(s, t).teams, TeamId)
    ensures (exists i :: 0 <= i < |s.teams| && s.teams[i].id == t.id) ==> t in TeamUpdated(s, t).teams
  {
    ReplaceKeepsKeys(s.teams, t, TeamId);
  }

  /** Updating a staff member touches only the staff list and that member's entries' names. */
  lemma StaffUpdatedSpec(s: AppState, m: StaffMember)
    ensures var r := StaffUpdated(s, m);
      r.teams == s.teams && r.competitions == s.competitions && r.seasons == s.seasons && r.weeks == s.weeks &&
      |r.staff| == |s.staff| && |r.transactions| == |s.transactions|
    ensures var r := StaffUpdated(s, m);
      forall i :: 0 <= i < |s.transactions| ==>
        r.transactions[i] == if s.transactions[i].entityType == StaffEntity && s.transactions[i].entityId == m.id
                             then s.transactions[i].(entityName := m.name) else s.transactions[i]
    ensures UniqueKeys(s.staff, StaffId) ==> UniqueKeys(StaffUpdated(s, m).staff, StaffId)
    ensures (exists i :: 0 <= i < |s.staff| && s.staff[i].id == m.id) ==> m in StaffUpdated(s, m).staff
  {
    ReplaceKeepsKeys(s.staff, m, StaffId);
  }

  // Loading the stored state.

  /** A record as stored by an earlier version, which kept the round in `contextValue`. */
  datatype StoredTransaction = StoredTransaction(record: Transaction, contextValue: Option<string>)

  /** The stored state; collections added in later versions may be absent. */
  datatype Snapshot = Snapshot(
    transactions: seq<StoredTransaction>,
    teams: seq<Team>,
    staff: seq<StaffMember>,
    competitions: Option<seq<Competition>>,
    seasons: Option<seq<Season>>,
    weeks: Option<seq<Week>>)

  /** A string counts as present when it is defined and not empty. */
  predicate Truthy(s: Option<string>) { s.Some? && s.value != "" }

  /** `t.round || t.contextValue || ''` */
  function RoundOf(st: StoredTransaction): (r: string)
    ensures Truthy(st.record.round) ==> r == st.record.round.value
    ensures !Truthy(st.record.round) && Truthy(st.contextValue) ==> r == st.contextValue.value
    ensures !Truthy(st.record.round) && !Truthy(st.contextValue) ==> r == ""
  {
    if Truthy(st.record.round) then st.record.round.value
    else if Truthy(st.contextValue) then st.contextValue.value
    else ""
  }

  /** One stored record brought up to date: its round is filled in, its status is kept. */
  function Migrate(st: StoredTransaction): (t: Transaction)
  {
    st.record.(round := Some(RoundOf(st)))
  }

  /** The state the application starts from. */
  function InitialState(): AppState
  {
    AppState([], INITIAL_TEAMS, INITIAL_STAFF, INITIAL_COMPETITIONS, INITIAL_SEASONS, INITIAL_WEEKS)
  }

  /** The loaded state: migrated records, and the initial lists for any collection the snapshot lacks. */
  function Loaded(snap: Snapshot): (r: AppState)
  {
    AppState(Map(snap.transactions, Migrate), snap.teams, snap.staff,
             snap.competitions.GetOr(INITIAL_COMPETITIONS),
             snap.seasons.GetOr(INITIAL_SEASONS),
             snap.weeks.GetOr(INITIAL_WEEKS))
  }

  /**
   * What is written back to storage: every collection present. The model writes
   * records without the legacy `contextValue`; the source keeps it on migrated
   * records (the load copies each record whole), which a later migration ignores
   * once the round is set.
   */
  function Saved(s: AppState): (snap: Snapshot)
  {
    Snapshot(Map(s.transactions, Fresh), s.teams, s.staff, Some(s.competitions), Some(s.seasons), Some(s.weeks))
  }

  function Fresh(t: Transaction): StoredTransaction { StoredTransaction(t, None) }

  /** Migration keeps everything but the round, keeps the status, and fills the round from the legacy field. */
  lemma MigrateSpec(st: StoredTransaction)
    ensures Migrate(st).(round := st.record.round) == st.record
    ensures Migrate(st).status == st.record.status
    ensures Migrate(st).round.Some?
    ensures Truthy(st.record.round) ==> Migrate(st).round == st.record.round
    ensures !Truthy(st.record.round) && Truthy(st.contextValue) ==> Migrate(st).round == st.contextValue
  {
  }

  /** A migrated record comes back unchanged from a second migration, with or without its legacy field. */
  lemma MigrateIdempotent(st: StoredTransaction)
    ensures Migrate(StoredTransaction(Migrate(st), st.contextValue)) == Migrate(st)
    ensures Migrate(Fresh(Migrate(st))) == Migrate(st)
  {
  }

  /** Loading fills in exactly the missing collections and keeps the present ones, even when empty. */
  lemma LoadedSpec(snap: Snapshot)
    ensures |Loaded(snap).transactions| == |snap.transactions|
    ensures forall i :: 0 <= i < |snap.transactions| ==> Loaded(snap).transactions[i].status == snap.transactions[i].record.status
    ensures Loaded(snap).teams == snap.teams && Loaded(snap).staff == snap.staff
    ensures snap.competitions.None? <==> (Loaded(snap).competitions == INITIAL_COMPETITIONS && snap.competitions != Some(INITIAL_COMPETITIONS))
    ensures snap.seasons.Some? ==> Loaded(snap).seasons == snap.seasons.value
    ensures snap.seasons.None? ==> Loaded(snap).seasons == INITIAL_SEASONS
    ensures snap.weeks.Some? ==> Loaded(snap).weeks == snap.weeks.value
    ensures snap.weeks.None? ==> Loaded(snap).weeks == INITIAL_WEEKS
  {
  }

  /** Saving and reloading a loaded state gives that same state back. */
  lemma ReloadStable(snap: Snapshot)
    ensures Loaded(Saved(Loaded(snap))) == Loaded(snap)
  {
    var ts := Loaded(snap).transactions;
    var again := Map(Map(ts, Fresh), Migrate);
    forall i | 0 <= i < |ts| ensures again[i] == ts[i] {
      MigrateIdempotent(snap.transactions[i]);
    }
  }

  /** Migration does not move any figure of the dashboard: amounts, kinds and categories are untouched. */
  lemma LoadedKeepsStats(snap: Snapshot)
    ensures var ts, r := Map(snap.transactions, Record), Loaded(snap).transactions;
      NetPaid(r) == NetPaid(ts) && Receivables(r) == Receivables(ts) && Payables(r) == Payables(ts)
  {
    var ts, r := Map(snap.transactions, Record), Loaded(snap).transactions;
    SumFilterAgree(r, ts, IsIncome, IsIncome, PaidOf, PaidOf);
    SumFilterAgree(r, ts, IsNotIncome, IsNotIncome, PaidOf, PaidOf);
    SumFilterAgree(r, ts, IsIncome, IsIncome, Outstanding, Outstanding);
    SumFilterAgree(r, ts, IsNotIncome, IsNotIncome, Outstanding, Outstanding);
  }

  function Record(st: StoredTransaction): Transaction { st.record }

  // Restoring a backup file.

  /** A parsed backup file: any of its collections may be missing. */
  datatype Backup = Backup(
    transactions: Option<seq<StoredTransaction>>,
    teams: seq<Team>,
    staff: seq<StaffMember>,
    competitions: Option<seq<Competition>>,
    seasons: Option<seq<Season>>,
    weeks: Option<seq<Week>>)

  /**
   * The restore as written: a file with transactions replaces the state wholesale,
   * with only the competitions defaulted; records are not migrated and the seasons
   * and weeks stay missing when the file lacks them. None leaves the state alone.
   */
  function ImportAsWritten(b: Backup): (r: Option<Backup>)
    ensures r.Some? <==> b.transactions.Some?
    ensures r.Some? ==> r.value.competitions == Some(b.competitions.GetOr(INITIAL_COMPETITIONS))
    ensures r.Some? ==> r.value.seasons == b.seasons && r.value.weeks == b.weeks
    ensures r.Some? ==> r.value.transactions == b.transactions && r.value.teams == b.teams && r.value.staff == b.staff
  {
    if b.transactions.Some? then Some(b.(competitions := Some(b.competitions.GetOr(INITIAL_COMPETITIONS)))) else None
  }

  /** A backup written before seasons and weeks existed, holding one record with a legacy round. */
  function LegacyBackup(t: Transaction): Backup
  {
    Backup(Some([StoredTransaction(t.(round := None), Some("R1"))]), [], [], None, None, None)
  }

  /**
   * Restoring such a file leaves the state without seasons or weeks and the record
   * without a round, its round kept only in `contextValue` until the next load
   * migrates it; loading the same data fills all three in at once.
   */
  lemma ImportLeavesGaps(t: Transaction)
    ensures var r := ImportAsWritten(LegacyBackup(t));
      r.Some? && r.value.seasons.None? && r.value.weeks.None? &&
      r.value.transactions.value[0].record.round.None? && r.value.transactions.value[0].contextValue == Some("R1") &&
      Loaded(AsSnapshot(r.value)).transactions[0].round == Some("R1")
    ensures var s := Imported(InitialState(), LegacyBackup(t));
      s.seasons == INITIAL_SEASONS && s.weeks == INITIAL_WEEKS && s.transactions[0].round == Some("R1")
  {
  }

  /** The stored form of a backup that has its transactions. */
  function AsSnapshot(b: Backup): Snapshot
    requires b.transactions.Some?
  {
    Snapshot(b.transactions.value, b.teams, b.staff, b.competitions, b.seasons, b.weeks)
  }

  /** The restore as intended: a file with transactions is taken in exactly as the stored state is loaded. */
  function Imported(current: AppState, b: Backup): (r: AppState)
  {
    if b.transactions.Some? then Loaded(AsSnapshot(b)) else current
  }

  /** The intended restore agrees with the written one on everything the written one defines, and fills in the rest. */
  lemma ImportedSpec(current: AppState, b: Backup)
    ensures b.transactions.None? ==> Imported(current, b) == current
    ensures b.transactions.Some? ==>
      var r, w := Imported(current, b), ImportAsWritten(b).value;
      r.teams == w.teams && r.staff == w.staff && Some(r.competitions) == w.competitions &&
      r.seasons == w.seasons.GetOr(INITIAL_SEASONS) && r.weeks == w.weeks.GetOr(INITIAL_WEEKS) &&
      |r.transactions| == |w.transactions.value| &&
      (forall i :: 0 <= i < |r.transactions| ==> r.transactions[i] == Migrate(w.transactions.value[i]))
  {
  }

  /** Restoring a backup of the current state gives that state back, once it has been through loading. */
  lemma ImportExported(snap: Snapshot, current: AppState)
    ensures var s := Loaded(snap); var e := Saved(s);
      Imported(current, Backup(Some(e.transactions), e.teams, e.staff, e.competitions, e.seasons, e.weeks)) == s
  {
    ReloadStable(snap);
  }

  // The state cell.

  /** The application's state, replaced wholesale by each handler. */
  class App {
    var state: AppState

    constructor ()
      ensures state == InitialState()
    {
      state := InitialState();
    }

    /** The load effect: a stored snapshot, when there is one, replaces the initial state. */
    method Load(stored: Option<Snapshot>)
      modifies this
      ensures stored.Some? ==> state == Loaded(stored.value)
      ensures stored.None? ==> state == old(state)
    {
      if stored.Some? {
        state := Loaded(stored.value);
      }
    }

    /** handleSaveTransaction: overwrite the entry being edited, or append a new one. */
    method SaveTransaction(editingId: Option<string>, d: Draft, freshId: string, now: int)
      modifies this
      ensures editingId.Some? ==> state == old(state).(transactions := SaveEdit(old(state).transactions, editingId.value, d))
      ensures editingId.None? ==> state == old(state).(transactions := SaveNew(old(state).transactions, d, freshId, now))
      ensures editingId.None? && UniqueKeys(old(state).transactions, TxId) && (forall t :: t in old(state).transactions ==> t.id != freshId)
        ==> UniqueKeys(state.transactions, TxId)
      ensures editingId.Some? && UniqueKeys(old(state).transactions, TxId) ==> UniqueKeys(state.transactions, TxId)
    {
      if editingId.Some? {
        SaveEditSpec(state.transactions, editingId.value, d);
        state := state.(transactions := SaveEdit(state.transactions, editingId.value, d));
      } else {
        if UniqueKeys(state.transactions, TxId) && forall t :: t in state.transactions ==> t.id != freshId {
          AppendKeepsUnique(state.transactions, Stamp(d, freshId, now), TxId);
        }
        state := state.(transactions := SaveNew(state.transactions, d, freshId, now));
      }
    }

    method DeleteTransaction(id: string)
      modifies this
      ensures state == old(state).(transactions := RemoveTransaction(old(state).transactions, id))
      ensures UniqueKeys(old(state).transactions, TxId) ==> UniqueKeys(state.transactions, TxId)
    {
      if UniqueKeys(state.transactions, TxId) {
        RemoveKeepsUnique(state.transactions, id, TxId);
      }
      state := state.(transactions := RemoveTransaction(state.transactions, id));
    }

    method UpdateTeam(t: Team)
      modifies this
      ensures state == TeamUpdated(old(state), t)
    {
      state := TeamUpdated(state, t);
    }

    method AddTeam(t: Team)
      modifies this
      ensures state == old(state).(teams := old(state).teams + [t])
    {
      state := state.(teams := state.teams + [t]);
    }

    /** Deleting a team leaves its entries in the ledger. */
    method DeleteTeam(id: string)
      modifies this
      ensures state == old(state).(teams := RemoveById(old(state).teams, id, TeamId))
      ensures state.transactions == old(state).transactions
    {
      state := state.(teams := RemoveById(state.teams, id, TeamId));
    }

    method UpdateStaff(m: StaffMember)
      modifies this
      ensures state == StaffUpdated(old(state), m)
    {
      state := StaffUpdated(state, m);
    }

    method AddStaff(m: StaffMember)
      modifies this
      ensures state == old(state).(staff := old(state).staff + [m])
    {
      state := state.(staff := state.staff + [m]);
    }

    /** Deleting a staff member leaves their entries in the ledger. */
    method DeleteStaff(id: string)
      modifies this
      ensures state == old(state).(staff := RemoveById(old(state).staff, id, StaffId))
      ensures state.transactions == old(state).transactions
    {
      state := state.(staff := RemoveById(state.staff, id, StaffId));
    }

    method AddCompetition(c: Competition)
      modifies this
      ensures state == old(state).(competitions := old(state).competitions + [c])
    {
      state := state.(competitions := state.competitions + [c]);
    }

    method UpdateCompetition(c: Competition)
      modifies this
      ensures state == old(state).(competitions := ReplaceById(old(state).competitions, c, CompetitionId))
    {
      state := state.(competitions := ReplaceById(state.competitions, c, CompetitionId));
    }

    /** Deleting a competition leaves the entries that name it in the ledger. */
    method DeleteCompetition(id: string)
      modifies this
      ensures state == old(state).(competitions := RemoveById(old(state).competitions, id, CompetitionId))
      ensures state.transactions == old(state).transactions
    {
      state := state.(competitions := RemoveById(state.competitions, id, CompetitionId));
    }

    method AddSeason(s: Season)
      modifies this
      ensures state == old(state).(seasons := old(state).seasons + [s])
    {
      state := state.(seasons := state.seasons + [s]);
    }

    method UpdateSeason(s: Season)
      modifies this
      ensures state == old(state).(seasons := ReplaceById(old(state).seasons, s, SeasonId))
    {
      state := state.(seasons := ReplaceById(state.seasons, s, SeasonId));
    }

    method DeleteSeason(id: string)
      modifies this
      ensures state == old(state).(seasons := RemoveById(old(state).seasons, id, SeasonId))
      ensures state.transactions == old(state).transactions
    {
      state := state.(seasons := RemoveById(state.seasons, id, SeasonId));
    }

    method AddWeek(w: Week)
      modifies this
      ensures state == old(state).(weeks := old(state).weeks + [w])
    {
      state := state.(weeks := state.weeks + [w]);
    }

    method UpdateWeek(w: Week)
      modifies this
      ensures state == old(state).(weeks := ReplaceById(old(state).weeks, w, WeekId))
    {
      state := state.(weeks := ReplaceById(state.weeks, w, WeekId));
    }

    method DeleteWeek(id: string)
      modifies this
      ensures state == old(state).(weeks := RemoveById(old(state).weeks, id, WeekId))
      ensures state.transactions == old(state).transactions
    {
      state := state.(weeks := RemoveById(state.weeks, id, WeekId));
    }

    /** Restore from a backup file, filling in every missing collection as loading does. */
    method Import(b: Backup)
      modifies this
      ensures state == Imported(old(state), b)
    {
      state := Imported(state, b);
    }
  }
}
