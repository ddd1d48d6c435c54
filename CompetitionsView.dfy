// The competitions area (components/CompetitionsView.tsx): the rounds box of the
// league form, one round per line, and saving the form as a new or an updated league.

module CompetitionsView {
  import opened Collections
  import opened Text
  import opened Domain
  import Store

  predicate NotBlank(r: string) { r != "" }

  /** `text.split('\n').map(r => r.trim()).filter(r => r !== '')` */
  function ParseRounds(text: string): (rounds: seq<string>)
    ensures WellFormed(rounds)
  {
    var trimmed := Map(Split(text, '\n'), Trim);
    RoundsFromLines(Split(text, '\n'));
    Filter(trimmed, NotBlank)
  }

  /** The trimmed non-blank pieces of line-free pieces are non-empty, trimmed and line-free. */
  lemma RoundsFromLines(lines: seq<string>)
    requires forall i :: 0 <= i < |lines| ==> '\n' !in lines[i]
    ensures WellFormed(Filter(Map(lines, Trim), NotBlank))
  {
    var trimmed := Map(lines, Trim);
    forall i | 0 <= i < |trimmed| ensures '\n' !in trimmed[i] {
      TrimWithin(lines[i]);
    }
    FilterMembers(trimmed, NotBlank);
    var r := Filter(trimmed, NotBlank);
    forall i | 0 <= i < |r| ensures r[i] != "" && Trimmed(r[i]) && '\n' !in r[i] {
      var j :| 0 <= j < |trimmed| && trimmed[j] == r[i];
    }
  }

  /** Trimming only removes characters. */
  lemma TrimWithin(s: string)
    ensures forall c :: c in Trim(s) ==> c in s
  {
    var t := TrimStart(s);
    var r := TrimEnd(t);
    assert Trim(s) == r;
    forall c | c in r ensures c in s {
      var j :| 0 <= j < |r| && r[j] == c;
      assert r[j] == t[j] == s[|s| - |t| + j];
    }
  }

  /** A text whose every line is blank gives no rounds. */
  lemma BlankLinesNoRounds(text: string)
    requires forall i :: 0 <= i < |Split(text, '\n')| ==> Trim(Split(text, '\n')[i]) == ""
    ensures ParseRounds(text) == []
  {
    var lines := Split(text, '\n');
    var trimmed := Map(lines, Trim);
    forall i | 0 <= i < |trimmed| ensures !NotBlank(trimmed[i]) {
      assert trimmed[i] == Trim(lines[i]);
    }
    FilterNone(trimmed, NotBlank);
  }

  /** Rounds as the form stores them: non-empty, no white space at either end, no line break. */
  predicate WellFormed(rounds: seq<string>)
  {
    forall i :: 0 <= i < |rounds| ==> rounds[i] != "" && Trimmed(rounds[i]) && '\n' !in rounds[i]
  }

  /** Editing shows the rounds joined by line breaks; saving that text unchanged gives the same rounds back. */
  lemma RoundsRoundTrip(rounds: seq<string>)
    requires WellFormed(rounds)
    ensures ParseRounds(Join(rounds, '\n')) == rounds
  {
    if rounds == [] {
      assert Split("", '\n') == [""];
      assert Map([""], Trim) == [""];
    } else {
      SplitJoin(rounds, '\n');
      var trimmed := Map(rounds, Trim);
      forall i | 0 <= i < |rounds| ensures trimmed[i] == rounds[i] {
        TrimTrimmed(rounds[i]);
      }
      assert trimmed == rounds;
      FilterAll(rounds, NotBlank);
    }
  }

  /** Parsing what a parse produced, joined back, changes nothing. */
  lemma ParseIdempotent(text: string)
    ensures ParseRounds(Join(ParseRounds(text), '\n')) == ParseRounds(text)
  {
    RoundsRoundTrip(ParseRounds(text));
  }

  /** The league form's fields; `editId` is set while an existing league is edited. */
  datatype LeagueForm = LeagueForm(editId: Option<string>, name: string, seasonId: string, roundsText: string, logo: string)

  /** `startEditComp`: the form filled from a league. */
  function StartEdit(c: Competition): LeagueForm
  {
    LeagueForm(Some(c.id), c.name, c.seasonId, Join(c.rounds, '\n'), c.logo.GetOr(""))
  }

  /** The league the form describes, under `id`. */
  function LeagueOf(f: LeagueForm, id: string): (c: Competition)
    ensures c.id == id && WellFormed(c.rounds)
  {
    Competition(id, f.name, f.seasonId, ParseRounds(f.roundsText), Some(f.logo))
  }

  /** `saveComp`: while editing, the league with that id is replaced; otherwise a new one is added under a fresh id. */
  function SaveLeague(leagues: seq<Competition>, f: LeagueForm, freshId: string): (r: seq<Competition>)
  {
    if f.editId.Some? && f.editId.value != "" then Store.ReplaceById(leagues, LeagueOf(f, f.editId.value), Store.CompetitionId)
    else leagues + [LeagueOf(f, freshId)]
  }

  /** An edit keeps the list's length and ids, putting the form's league where its id was; a new league goes at the end under the fresh id. */
  lemma SaveLeagueSpec(leagues: seq<Competition>, f: LeagueForm, freshId: string)
    ensures f.editId.Some? && f.editId.value != "" ==>
      var r := SaveLeague(leagues, f, freshId);
      |r| == |leagues| && Map(r, Store.CompetitionId) == Map(leagues, Store.CompetitionId) &&
      forall i :: 0 <= i < |leagues| ==> r[i] == if leagues[i].id == f.editId.value then LeagueOf(f, f.editId.value) else leagues[i]
    ensures !(f.editId.Some? && f.editId.value != "") ==>
      SaveLeague(leagues, f, freshId) == leagues + [LeagueOf(f, freshId)]
  {
    if f.editId.Some? && f.editId.value != "" {
      Store.ReplaceKeepsKeys(leagues, LeagueOf(f, f.editId.value), Store.CompetitionId);
    }
  }

  /** Opening a league for editing and saving it untouched leaves the list as it was, when its rounds are well formed and it has a logo. */
  lemma EditUnchanged(leagues: seq<Competition>, c: Competition, freshId: string)
    requires c.id != "" && WellFormed(c.rounds) && c.logo.Some?
    requires forall x :: x in leagues && x.id == c.id ==> x == c
    ensures SaveLeague(leagues, StartEdit(c), freshId) == leagues
  {
    RoundsRoundTrip(c.rounds);
    assert LeagueOf(StartEdit(c), c.id) == c;
    var r := SaveLeague(leagues, StartEdit(c), freshId);
    assert forall i :: 0 <= i < |leagues| ==> r[i] == leagues[i];
  }

  /** A league without a logo, saved untouched, gains the empty logo: the form holds `c.logo || ''` and saving writes that text back. */
  lemma EditAddsEmptyLogo(leagues: seq<Competition>, c: Competition, freshId: string)
    requires c.id != "" && WellFormed(c.rounds) && c.logo.None?
    requires forall x :: x in leagues && x.id == c.id ==> x == c
    ensures var r := SaveLeague(leagues, StartEdit(c), freshId);
      |r| == |leagues| &&
      forall i :: 0 <= i < |leagues| ==> r[i] == if leagues[i].id == c.id then c.(logo := Some("")) else leagues[i]
  {
    RoundsRoundTrip(c.rounds);
    assert LeagueOf(StartEdit(c), c.id) == c.(logo := Some(""));
  }
}
