/** The staged sync of clubs, players and everything that refers to them: whichever stages are skipped
    because their tables are already filled, every reference a stage writes resolves. */
module TransfermarktSync {
  import opened Prelude
  import opened Ingestion
  import SeasonStats
  import IdentityMatching
  import IdentityLinks

  // How integers are read from and written to text; reading back what was written is all that is used.
  datatype Numerals = Numerals(read: string -> Option<int>, show: int -> string)

  ghost predicate ReadsBack(numerals: Numerals) {
    forall n: int :: numerals.read(numerals.show(n)) == Some(n)
  }

  // A source marks a missing value with an empty text or a dash.
  predicate IsBlank(value: string) { value == "" || Strip(value) == "-" }

  /* ---- Specs: the reference columns spelled out, the others arbitrary ---- */

  datatype Reference = Required(source: string) | Optional(source: string)

  datatype Others = Others(columns: set<string>, parse: RawRow -> Option<Row>)

  ghost predicate Regular(others: Others) {
    forall raw :: others.parse(raw).Some? ==> others.parse(raw).value.Keys == others.columns
  }

  function ReferenceValue(numerals: Numerals, raw: RawRow, reference: Reference): Option<Value> {
    if reference.source !in raw then None
    else if reference.Optional? && IsBlank(raw[reference.source]) then Some(NullValue)
    else
      var n := numerals.read(raw[reference.source]);
      if n.Some? then Some(Number(n.value)) else None
  }

  function ParseRow(numerals: Numerals, others: Others, references: map<string, Reference>, raw: RawRow)
    : Option<Row>
  {
    if others.parse(raw).None? || exists t :: t in references && ReferenceValue(numerals, raw, references[t]).None?
    then None
    else Some(others.parse(raw).value
              + map t | t in references :: ReferenceValue(numerals, raw, references[t]).value)
  }

  function SpecFor(numerals: Numerals, others: Others, references: map<string, Reference>, conflict: seq<string>): Spec
  {
    Spec(raw => ParseRow(numerals, others, references, raw), conflict, others.columns + references.Keys)
  }

  lemma SpecsAreUniform(numerals: Numerals, others: Others, references: map<string, Reference>, conflict: seq<string>)
    requires Regular(others)
    requires forall c :: c in conflict ==> c in others.columns + references.Keys
    ensures Uniform(SpecFor(numerals, others, references, conflict))
  {
  }

  /* ---- References in tables ---- */

  predicate Resolves(value: Value, ids: set<int>) {
    value == NullValue || (value.Number? && value.n in ids)
  }

  // Every value the column holds is null or one of the ids.
  predicate ColumnWithin(table: Table, column: string, ids: set<int>) {
    forall k :: k in table && column in table[k] ==> Resolves(table[k][column], ids)
  }

  function IdsOf(table: Table): set<int> {
    set k: Key | k in table && |k| == 1 && k[0].Number? :: k[0].n
  }

  lemma MoreIdsStillResolve(table: Table, column: string, ids: set<int>, more: set<int>)
    requires ColumnWithin(table, column, ids) && ids <= more
    ensures ColumnWithin(table, column, more)
  {
  }

  predicate RowsWithin(rows: seq<Row>, column: string, ids: set<int>) {
    forall i :: 0 <= i < |rows| && column in rows[i] ==> Resolves(rows[i][column], ids)
  }

  lemma UpsertKeepsReferences(table: Table, row: Row, conflict: seq<string>, column: string, ids: set<int>)
    requires ColumnWithin(table, column, ids) && RowsWithin([row], column, ids)
    ensures ColumnWithin(Upsert(table, row, conflict), column, ids)
  {
    hide KeyOf;
    assert [row][0] == row;
    var k := KeyOf(row, conflict);
    if k in table && column in Merge(table[k], row, conflict) {
      assert column in table[k] || column in row;
    }
  }

  lemma {:induction false} UpsertsKeepReferences(table: Table, rows: seq<Row>, conflict: seq<string>,
                                                 column: string, ids: set<int>)
    requires ColumnWithin(table, column, ids) && RowsWithin(rows, column, ids)
    ensures ColumnWithin(UpsertEach(table, rows, conflict), column, ids)
  {
    hide Upsert, ColumnWithin, Resolves;
    if |rows| > 0 {
      UpsertsKeepReferences(table, rows[..|rows| - 1], conflict, column, ids);
      UpsertKeepsReferences(UpsertEach(table, rows[..|rows| - 1], conflict), rows[|rows| - 1], conflict, column, ids);
    }
  }

  // No row is ever removed, and every row written is there.
  lemma {:induction false} UpsertsKeepKeys(table: Table, rows: seq<Row>, conflict: seq<string>)
    ensures table.Keys <= UpsertEach(table, rows, conflict).Keys
    ensures forall i :: 0 <= i < |rows| ==> KeyOf(rows[i], conflict) in UpsertEach(table, rows, conflict)
  {
    hide KeyOf, Applied;
    if |rows| > 0 {
      UpsertsKeepKeys(table, rows[..|rows| - 1], conflict);
    }
  }

  lemma MoreKeysMoreIds(table: Table, larger: Table)
    requires table.Keys <= larger.Keys
    ensures IdsOf(table) <= IdsOf(larger)
  {
    forall n | n in IdsOf(table) ensures n in IdsOf(larger) {
      var k: Key :| k in table && |k| == 1 && k[0].Number? && k[0].n == n;
      assert k in larger;
    }
  }

  /* ---- Sanitizers ---- */

  function SanitizeClub(raw: RawRow, column: string, knownClubIds: set<string>): RawRow {
    if column in raw && raw[column] != "" && raw[column] !in knownClubIds then raw[column := ""] else raw
  }

  // A player reference is read as a number first: text that is none stops the sync, a dash included.
  function SanitizePlayer(numerals: Numerals, raw: RawRow, column: string, realPlayerIds: set<int>): Option<RawRow> {
    if column !in raw || raw[column] == "" then Some(raw)
    else
      var id := numerals.read(raw[column]);
      if id.None? then None
      else if id.value !in realPlayerIds then Some(raw[column := ""])
      else Some(raw)
  }

  // What the column holds is missing, one of the ids, or text the parser will refuse.
  predicate Fits(numerals: Numerals, raw: RawRow, reference: Reference, ids: set<int>) {
    reference.source in raw ==>
      var text := raw[reference.source];
      (reference.Optional? && IsBlank(text)) || (numerals.read(text).Some? ==> numerals.read(text).value in ids)
  }

  predicate AllFit(numerals: Numerals, raws: seq<RawRow>, reference: Reference, ids: set<int>) {
    forall i :: 0 <= i < |raws| ==> Fits(numerals, raws[i], reference, ids)
  }

  predicate KnownClubs(numerals: Numerals, knownClubIds: set<string>, ids: set<int>) {
    forall text :: text in knownClubIds ==> numerals.read(text).Some? && numerals.read(text).value in ids
  }

  lemma SanitizedClubFits(numerals: Numerals, raw: RawRow, column: string, known: set<string>, ids: set<int>)
    requires KnownClubs(numerals, known, ids)
    ensures var clean := SanitizeClub(raw, column, known);
            && Fits(numerals, clean, Optional(column), ids)
            && clean.Keys == raw.Keys && forall c :: c in raw && c != column ==> clean[c] == raw[c]
  {
    hide Strip;
  }

  lemma SanitizedPlayerFits(numerals: Numerals, raw: RawRow, column: string, ids: set<int>)
    ensures var clean := SanitizePlayer(numerals, raw, column, ids);
            && (clean.None? <==> column in raw && raw[column] != "" && numerals.read(raw[column]).None?)
            && (clean.Some? ==> Fits(numerals, clean.value, Optional(column), ids)
                                && clean.value.Keys == raw.Keys
                                && forall c :: c in raw && c != column ==> clean.value[c] == raw[c])
  {
    hide Strip;
  }

  // The two sanitizers disagree on a dash: for a club it is a missing value, for a player it stops the sync.
  lemma DashIsMissingOnlyForClubs(numerals: Numerals, raw: RawRow, column: string, known: set<string>, ids: set<int>)
    requires numerals.read("-").None? && column in raw && raw[column] == "-" && "-" !in known
    ensures SanitizeClub(raw, column, known) == raw[column := ""]
    ensures SanitizePlayer(numerals, raw, column, ids).None?
    ensures ReferenceValue(numerals, raw, Optional(column)) == Some(NullValue)
  {
    assert Strip("-") == "-" by {
      assert StripRight("-") == "-";
      assert StripLeft("-") == "-";
    }
  }

  lemma ParsedReferenceResolves(numerals: Numerals, others: Others, references: map<string, Reference>,
                                raw: RawRow, target: string, ids: set<int>)
    requires target in references && Fits(numerals, raw, references[target], ids)
    requires ParseRow(numerals, others, references, raw).Some?
    ensures RowsWithin([ParseRow(numerals, others, references, raw).value], target, ids)
  {
    hide IsBlank, Strip;
    var row := ParseRow(numerals, others, references, raw).value;
    assert ReferenceValue(numerals, raw, references[target]).Some?;
    assert row[target] == ReferenceValue(numerals, raw, references[target]).value;
  }

  // A fitting source column parses to a resolving table column.
  lemma ReferenceResolves(numerals: Numerals, others: Others, references: map<string, Reference>,
                          conflict: seq<string>, raws: seq<RawRow>, target: string, ids: set<int>)
    requires target in references && AllFit(numerals, raws, references[target], ids)
    ensures RowsWithin(ParsedPrefix(SpecFor(numerals, others, references, conflict), raws), target, ids)
  {
    hide Fits, ParseRow, Resolves, ParsedPrefix;
    var spec := SpecFor(numerals, others, references, conflict);
    PrefixIsWhatParses(spec, raws);
    var rows := ParsedPrefix(spec, raws);
    forall i | 0 <= i < |rows| && target in rows[i] ensures Resolves(rows[i][target], ids) {
      assert spec.parse(raws[i]) == Some(rows[i]);
      ParsedReferenceResolves(numerals, others, references, raws[i], target, ids);
      assert [rows[i]][0] == rows[i];
    }
  }

  /* ---- Scoping ---- */

  // A list comprehension's filter; reading a bad cell stops it.
  function Filtered(rows: seq<RawRow>, keep: RawRow -> Option<bool>): Option<seq<RawRow>> {
    if |rows| == 0 then Some([])
    else
      var before, last := Filtered(rows[..|rows| - 1], keep), keep(rows[|rows| - 1]);
      if before.None? || last.None? then None
      else Some(before.value + (if last.value then [rows[|rows| - 1]] else []))
  }

  lemma {:induction false} FilteredPass(rows: seq<RawRow>, keep: RawRow -> Option<bool>)
    ensures var kept := Filtered(rows, keep);
            kept.Some? ==> forall i :: 0 <= i < |kept.value| ==> keep(kept.value[i]) == Some(true)
  {
    if |rows| > 0 {
      FilteredPass(rows[..|rows| - 1], keep);
    }
  }

  function IntAt(numerals: Numerals, raw: RawRow, column: string): Option<int> {
    if column in raw then numerals.read(raw[column]) else None
  }

  // int(row[column]) in ids
  function InScope(numerals: Numerals, ids: set<int>, column: string, raw: RawRow): Option<bool> {
    var id := IntAt(numerals, raw, column);
    if id.None? then None else Some(id.value in ids)
  }

  function LineupInScope(numerals: Numerals, realPlayerIds: set<int>, knownClubIds: set<string>, raw: RawRow)
    : Option<bool>
  {
    var player := InScope(numerals, realPlayerIds, "player_id", raw);
    if player.None? then None
    else if !player.value then Some(false)
    else if "club_id" !in raw then None
    else Some(raw["club_id"] in knownClubIds)
  }

  // row.get(column) and int(row[column]) in ids
  function MayBeInScope(numerals: Numerals, ids: set<int>, column: string, raw: RawRow): Option<bool> {
    if column !in raw || raw[column] == "" then Some(false) else InScope(numerals, ids, column, raw)
  }

  function EventInScope(numerals: Numerals, realPlayerIds: set<int>, realClubIds: set<int>, raw: RawRow)
    : Option<bool>
  {
    var player := MayBeInScope(numerals, realPlayerIds, "player_id", raw);
    if player.None? || player.value then player else MayBeInScope(numerals, realClubIds, "club_id", raw)
  }

  function SanitizedEvent(numerals: Numerals, raw: RawRow, realPlayerIds: set<int>, knownClubIds: set<string>)
    : Option<RawRow>
  {
    var club := SanitizeClub(raw, "club_id", knownClubIds);
    var player := SanitizePlayer(numerals, club, "player_id", realPlayerIds);
    if player.None? then None
    else
      var playerIn := SanitizePlayer(numerals, player.value, "player_in_id", realPlayerIds);
      if playerIn.None? then None
      else SanitizePlayer(numerals, playerIn.value, "player_assist_id", realPlayerIds)
  }

  predicate EventFits(numerals: Numerals, raw: RawRow, playerIds: set<int>, clubIds: set<int>) {
    && Fits(numerals, raw, Optional("club_id"), clubIds)
    && Fits(numerals, raw, Optional("player_id"), playerIds)
    && Fits(numerals, raw, Optional("player_in_id"), playerIds)
    && Fits(numerals, raw, Optional("player_assist_id"), playerIds)
  }

  lemma FitsElsewhere(numerals: Numerals, before: RawRow, after: RawRow, reference: Reference, ids: set<int>)
    requires Fits(numerals, before, reference, ids)
    requires reference.source in after ==> reference.source in before
    requires reference.source in after ==> after[reference.source] == before[reference.source]
    ensures Fits(numerals, after, reference, ids)
  {
    hide IsBlank;
  }

  lemma SanitizedEventFits(numerals: Numerals, raw: RawRow, playerIds: set<int>, known: set<string>,
                           clubIds: set<int>)
    requires KnownClubs(numerals, known, clubIds)
    ensures var clean := SanitizedEvent(numerals, raw, playerIds, known);
            clean.Some? ==> EventFits(numerals, clean.value, playerIds, clubIds)
  {
    hide Fits, SanitizeClub, SanitizePlayer, KnownClubs;
    var club := SanitizeClub(raw, "club_id", known);
    SanitizedClubFits(numerals, raw, "club_id", known, clubIds);
    SanitizedPlayerFits(numerals, club, "player_id", playerIds);
    var player := SanitizePlayer(numerals, club, "player_id", playerIds);
    if player.Some? {
      SanitizedPlayerFits(numerals, player.value, "player_in_id", playerIds);
      var playerIn := SanitizePlayer(numerals, player.value, "player_in_id", playerIds);
      if playerIn.Some? {
        SanitizedPlayerFits(numerals, playerIn.value, "player_assist_id", playerIds);
        var clean := SanitizePlayer(numerals, playerIn.value, "player_assist_id", playerIds);
        if clean.Some? {
          FitsElsewhere(numerals, club, clean.value, Optional("club_id"), clubIds);
          FitsElsewhere(numerals, player.value, clean.value, Optional("player_id"), playerIds);
          FitsElsewhere(numerals, playerIn.value, clean.value, Optional("player_in_id"), playerIds);
        }
      }
    }
  }

  // None: a cell that does not read as a number, met while scoping or sanitizing.
  function ScopedEvents(numerals: Numerals, rows: seq<RawRow>, realPlayerIds: set<int>, realClubIds: set<int>,
                        knownClubIds: set<string>): Option<seq<RawRow>>
  {
    if |rows| == 0 then Some([])
    else
      var before := ScopedEvents(numerals, rows[..|rows| - 1], realPlayerIds, realClubIds, knownClubIds);
      var row := rows[|rows| - 1];
      var relevant := EventInScope(numerals, realPlayerIds, realClubIds, row);
      if before.None? || relevant.None? then None
      else if !relevant.value then before
      else
        var clean := SanitizedEvent(numerals, row, realPlayerIds, knownClubIds);
        if clean.None? then None else Some(before.value + [clean.value])
  }

  lemma {:induction false} OneBadEventStopsAll(numerals: Numerals, rows: seq<RawRow>, n: nat, players: set<int>,
                                               clubs: set<int>, known: set<string>)
    requires n <= |rows| && ScopedEvents(numerals, rows[..n], players, clubs, known).None?
    ensures ScopedEvents(numerals, rows, players, clubs, known).None?
  {
    if n == |rows| {
      assert rows[..n] == rows;
    } else {
      assert rows[..|rows| - 1][..n] == rows[..n];
      OneBadEventStopsAll(numerals, rows[..|rows| - 1], n, players, clubs, known);
    }
  }

  lemma {:induction false} ScopedEventsFit(numerals: Numerals, rows: seq<RawRow>, players: set<int>, clubs: set<int>,
                                           known: set<string>, clubIds: set<int>)
    requires KnownClubs(numerals, known, clubIds)
    ensures var scoped := ScopedEvents(numerals, rows, players, clubs, known);
            scoped.Some? ==>
              forall i :: 0 <= i < |scoped.value| ==> EventFits(numerals, scoped.value[i], players, clubIds)
  {
    hide EventFits, SanitizedEvent, EventInScope, KnownClubs;
    if |rows| > 0 {
      ScopedEventsFit(numerals, rows[..|rows| - 1], players, clubs, known, clubIds);
      SanitizedEventFits(numerals, rows[|rows| - 1], players, known, clubIds);
    }
  }

  method ScopeEvents(numerals: Numerals, rows: seq<RawRow>, realPlayerIds: set<int>, realClubIds: set<int>,
                     knownClubIds: set<string>)
    returns (scoped: Option<seq<RawRow>>)
    ensures scoped == ScopedEvents(numerals, rows, realPlayerIds, realClubIds, knownClubIds)
  {
    hide SanitizedEvent, EventInScope;
    var kept: seq<RawRow> := [];
    for i := 0 to |rows|
      invariant Some(kept) == ScopedEvents(numerals, rows[..i], realPlayerIds, realClubIds, knownClubIds)
    {
      assert rows[..i + 1][..i] == rows[..i];
      var relevant := EventInScope(numerals, realPlayerIds, realClubIds, rows[i]);
      if relevant.None? {
        OneBadEventStopsAll(numerals, rows, i + 1, realPlayerIds, realClubIds, knownClubIds);
        return None;
      }
      if !relevant.value {
        continue;
      }
      var clean := SanitizedEvent(numerals, rows[i], realPlayerIds, knownClubIds);
      if clean.None? {
        OneBadEventStopsAll(numerals, rows, i + 1, realPlayerIds, realClubIds, knownClubIds);
        return None;
      }
      kept := kept + [clean.value];
    }
    assert rows[..|rows|] == rows;
    scoped := Some(kept);
  }

  /* ---- Tables and stages ---- */

  const CLUBS := map["club_id" := Required("club_id")]
  const PLAYERS := map["player_id" := Required("player_id"), "current_club_id" := Optional("current_club_id")]
  const VALUATIONS := map["real_player_id" := Required("player_id")]
  const TRANSFERS := map["real_player_id" := Required("player_id"), "from_club_id" := Optional("from_club_id"),
                         "to_club_id" := Optional("to_club_id")]
  const LINEUPS := map["real_player_id" := Required("player_id"), "real_club_id" := Required("club_id")]
  const EVENTS := map["real_club_id" := Optional("club_id"), "real_player_id" := Optional("player_id"),
                      "player_in_id" := Optional("player_in_id"), "assist_player_id" := Optional("player_assist_id")]
  const CLUB_GAMES := map["real_club_id" := Required("club_id"), "opponent_club_id" := Optional("opponent_id")]

  const CHUNK_SIZE := 500

  class Database {
    const clubs: TargetTable
    const players: TargetTable
    const links: IdentityLinks.LinkTable
    const valuations: TargetTable
    const transfers: TargetTable
    const lineups: TargetTable
    const events: TargetTable
    const clubGames: TargetTable
    const seasonStats: TargetTable

    ghost predicate Apart() {
      && clubs !in {players, valuations, transfers, lineups, events, clubGames, seasonStats}
      && players !in {valuations, transfers, lineups, events, clubGames, seasonStats}
      && valuations !in {transfers, lineups, events, clubGames, seasonStats}
      && transfers !in {lineups, events, clubGames, seasonStats}
      && lineups !in {events, clubGames, seasonStats}
      && events !in {clubGames, seasonStats} && clubGames != seasonStats
      && clubs.conflict == ["club_id"] && players.conflict == ["player_id"]
      && valuations.conflict == ["real_player_id", "valuation_date"]
      && transfers.conflict == ["real_player_id", "transfer_date"]
      && lineups.conflict == ["game_lineups_id"] && events.conflict == ["game_event_id"]
      && clubGames.conflict == ["real_game_id", "real_club_id"]
      && seasonStats.conflict == SeasonStats.CONFLICT
    }

    constructor ()
      ensures Apart() && links.Valid()
      ensures View() == Tables(map[], map[], map[], map[], map[], map[], map[], map[], map[])
      ensures fresh({clubs, players, valuations, transfers, lineups, events, clubGames, seasonStats}) && fresh(links)
    {
      clubs := new TargetTable(["club_id"]);
      players := new TargetTable(["player_id"]);
      links := new IdentityLinks.LinkTable();
      valuations := new TargetTable(["real_player_id", "valuation_date"]);
      transfers := new TargetTable(["real_player_id", "transfer_date"]);
      lineups := new TargetTable(["game_lineups_id"]);
      events := new TargetTable(["game_event_id"]);
      clubGames := new TargetTable(["real_game_id", "real_club_id"]);
      seasonStats := new TargetTable(SeasonStats.CONFLICT);
    }

    ghost function View(): Tables
      reads clubs, players, links, valuations, transfers, lineups, events, clubGames, seasonStats
    {
      Tables(clubs.rows, players.rows, links.links, valuations.rows, transfers.rows, lineups.rows, events.rows,
             clubGames.rows, seasonStats.rows)
    }
  }

  datatype Tables = Tables(clubs: Table, players: Table, links: IdentityLinks.Links, valuations: Table,
                           transfers: Table, lineups: Table, events: Table, clubGames: Table, seasonStats: Table)

  predicate LinksWithin(links: IdentityLinks.Links, ids: set<int>) {
    forall id :: id in links ==> links[id].realPlayerId in ids
  }

  // Every reference in every table resolves or is null.
  predicate Sound(t: Tables) {
    var clubs, players := IdsOf(t.clubs), IdsOf(t.players);
    && ColumnWithin(t.players, "current_club_id", clubs)
    && LinksWithin(t.links, players)
    && ColumnWithin(t.valuations, "real_player_id", players)
    && ColumnWithin(t.transfers, "real_player_id", players)
    && ColumnWithin(t.transfers, "from_club_id", clubs) && ColumnWithin(t.transfers, "to_club_id", clubs)
    && ColumnWithin(t.lineups, "real_player_id", players) && ColumnWithin(t.lineups, "real_club_id", clubs)
    && ColumnWithin(t.events, "real_player_id", players) && ColumnWithin(t.events, "player_in_id", players)
    && ColumnWithin(t.events, "assist_player_id", players) && ColumnWithin(t.events, "real_club_id", clubs)
    && ColumnWithin(t.clubGames, "real_club_id", clubs) && ColumnWithin(t.clubGames, "opponent_club_id", clubs)
    && ColumnWithin(t.seasonStats, "real_player_id", players)
  }

  lemma MoreClubsStaySound(t: Tables, clubs: Table)
    requires Sound(t) && t.clubs.Keys <= clubs.Keys
    ensures Sound(t.(clubs := clubs))
  {
    hide ColumnWithin, IdsOf;
    IdsGrow(t.clubs, clubs);
  }

  lemma MorePlayersStaySound(t: Tables, players: Table)
    requires Sound(t) && t.players.Keys <= players.Keys
    requires ColumnWithin(players, "current_club_id", IdsOf(t.clubs))
    ensures Sound(t.(players := players))
  {
    hide ColumnWithin, IdsOf;
    IdsGrow(t.players, players);
    MoreKeysMoreIds(t.players, players);
  }

  // One ingest: rows are added or merged, never removed, and a column whose cells all fit stays resolved
  // even when the ingest stops half-way.
  method IngestInto(numerals: Numerals, others: Others, references: map<string, Reference>, raws: seq<RawRow>,
                    table: TargetTable)
    returns (result: Result<nat, nat>)
    requires Regular(others) && forall c :: c in table.conflict ==> c in others.columns + references.Keys
    modifies table
    ensures var rows := ParsedPrefix(SpecFor(numerals, others, references, table.conflict), raws);
            && (result.Ok? <==> |rows| == |raws|)
            && table.rows == UpsertEach(old(table.rows), if result.Ok? then rows
                                                         else rows[..InFullChunks(|rows|, CHUNK_SIZE)], table.conflict)
    ensures old(table.rows).Keys <= table.rows.Keys
    ensures result.Ok? ==> forall i :: 0 <= i < |raws| ==>
              ParseRow(numerals, others, references, raws[i]).Some?
              && KeyOf(ParseRow(numerals, others, references, raws[i]).value, table.conflict) in table.rows
    ensures forall target, ids | target in references && AllFit(numerals, raws, references[target], ids) ::
              ColumnWithin(old(table.rows), target, ids) ==> ColumnWithin(table.rows, target, ids)
  {
    hide ParseRow, AllFit, ColumnWithin, UpsertEach, KeysOf, ParsedPrefix, Regular, KeyOf, Uniform, InFullChunks;
    var spec := SpecFor(numerals, others, references, table.conflict);
    SpecsAreUniform(numerals, others, references, table.conflict);
    result := IngestRows(spec, raws, table, CHUNK_SIZE);
    ghost var parsed := ParsedPrefix(spec, raws);
    ghost var written := if result.Ok? then parsed else parsed[..InFullChunks(|parsed|, CHUNK_SIZE)];
    PrefixIsWhatParses(spec, raws);
    UpsertsKeepKeys(old(table.rows), written, table.conflict);
    forall target, ids | target in references && AllFit(numerals, raws, references[target], ids)
                         && ColumnWithin(old(table.rows), target, ids)
      ensures ColumnWithin(table.rows, target, ids)
    {
      ReferenceResolves(numerals, others, references, table.conflict, raws, target, ids);
      PrefixStaysWithin(parsed, |written|, target, ids);
      UpsertsKeepReferences(old(table.rows), written, table.conflict, target, ids);
    }
  }

  lemma PrefixStaysWithin(rows: seq<Row>, n: nat, column: string, ids: set<int>)
    requires n <= |rows| && RowsWithin(rows, column, ids)
    ensures RowsWithin(rows[..n], column, ids)
  {
  }

  datatype Formats = Formats(numerals: Numerals, clubs: Others, players: Others, valuations: Others,
                             transfers: Others, lineups: Others, events: Others, clubGames: Others)

  ghost predicate FormatsRegular(f: Formats) {
    && ReadsBack(f.numerals)
    && Regular(f.clubs) && Regular(f.players)
    && Regular(f.valuations) && "valuation_date" in f.valuations.columns
    && Regular(f.transfers) && "transfer_date" in f.transfers.columns
    && Regular(f.lineups) && "game_lineups_id" in f.lineups.columns
    && Regular(f.events) && "game_event_id" in f.events.columns
    && Regular(f.clubGames) && "real_game_id" in f.clubGames.columns
  }

  lemma IdsGrow(before: Table, after: Table)
    requires before.Keys <= after.Keys
    ensures forall t: Table, c | ColumnWithin(t, c, IdsOf(before)) :: ColumnWithin(t, c, IdsOf(after))
  {
    hide ColumnWithin, IdsOf;
    MoreKeysMoreIds(before, after);
    forall t: Table, c | ColumnWithin(t, c, IdsOf(before)) ensures ColumnWithin(t, c, IdsOf(after)) {
      MoreIdsStillResolve(t, c, IdsOf(before), IdsOf(after));
    }
  }

  lemma KeyIsItsId(numerals: Numerals, others: Others, references: map<string, Reference>, raw: RawRow,
                   column: string, table: Table)
    requires column in references && references[column] == Required(column)
    requires ParseRow(numerals, others, references, raw).Some?
    requires KeyOf(ParseRow(numerals, others, references, raw).value, [column]) in table
    ensures column in raw && numerals.read(raw[column]).Some? && numerals.read(raw[column]).value in IdsOf(table)
  {
    hide Strip;
    var row := ParseRow(numerals, others, references, raw).value;
    assert ReferenceValue(numerals, raw, references[column]).Some?;
    assert row[column] == ReferenceValue(numerals, raw, references[column]).value;
    assert KeyOf(row, [column])[0] == row[column];
    assert KeyOf(row, [column]) == [Number(numerals.read(raw[column]).value)];
  }

  function TextsAt(rows: seq<RawRow>, column: string): set<string> {
    set i | 0 <= i < |rows| && column in rows[i] :: rows[i][column]
  }

  function IdsAt(numerals: Numerals, rows: seq<RawRow>, column: string): set<int> {
    set i | 0 <= i < |rows| && IntAt(numerals, rows[i], column).Some? :: IntAt(numerals, rows[i], column).value
  }

  lemma ShownIdsAreKnown(numerals: Numerals, table: Table)
    requires ReadsBack(numerals)
    ensures KnownClubs(numerals, set id | id in IdsOf(table) :: numerals.show(id), IdsOf(table))
  {
  }

  predicate ClubsRan(f: Formats, rows: seq<RawRow>, skipped: bool, before: Table, after: Table, known: set<string>) {
    if skipped then after == before && known == set id | id in IdsOf(after) :: f.numerals.show(id)
    else
      && after == UpsertEach(before, ParsedPrefix(SpecFor(f.numerals, f.clubs, CLUBS, ["club_id"]), rows), ["club_id"])
      && known == TextsAt(rows, "club_id")
  }

  // The ids the later stages may refer to: the source's own texts when the clubs were read from it, the
  // stored ids written out when they were not.
  method SyncClubs(f: Formats, db: Database, rows: seq<RawRow>, skipPopulated: bool)
    returns (known: Result<set<string>, string>)
    requires FormatsRegular(f) && db.Apart() && Sound(db.View())
    modifies db.clubs
    ensures Sound(db.View())
    ensures known.Ok? ==> KnownClubs(f.numerals, known.value, IdsOf(db.clubs.rows))
    ensures known.Ok? ==> ClubsRan(f, rows, skipPopulated && old(db.clubs.rows) != map[], old(db.clubs.rows),
                                   db.clubs.rows, known.value)
  {
    hide ColumnWithin, IdsOf, UpsertEach, ParsedPrefix, ParseRow, SpecFor, AllFit, KeyOf, Sound;
    if skipPopulated && db.clubs.rows != map[] {
      ShownIdsAreKnown(f.numerals, db.clubs.rows);
      return Ok(set id | id in IdsOf(db.clubs.rows) :: f.numerals.show(id));
    }
    var result := IngestInto(f.numerals, f.clubs, CLUBS, rows, db.clubs);
    MoreClubsStaySound(old(db.View()), db.clubs.rows);
    if result.Err? {
      return Err("IngestionValidationError");
    }
    forall text | text in TextsAt(rows, "club_id")
      ensures f.numerals.read(text).Some? && f.numerals.read(text).value in IdsOf(db.clubs.rows)
    {
      var i :| 0 <= i < |rows| && "club_id" in rows[i] && rows[i]["club_id"] == text;
      KeyIsItsId(f.numerals, f.clubs, CLUBS, rows[i], "club_id", db.clubs.rows);
    }
    known := Ok(TextsAt(rows, "club_id"));
  }

  function SanitizedPlayers(rows: seq<RawRow>, known: set<string>): seq<RawRow> {
    seq(|rows|, i requires 0 <= i < |rows| => SanitizeClub(rows[i], "current_club_id", known))
  }

  // The clubs some player plays for.
  function ClubsOf(players: Table): set<int> {
    set k: Key | k in players && "current_club_id" in players[k] && players[k]["current_club_id"].Number?
      :: players[k]["current_club_id"].n
  }

  /* ---- Proposing links ---- */

  // The roster, what the matcher knows about names and teams, and how a row's name, date of birth, height
  // and team are read; a cell that does not read stops the sync.
  datatype Roster = Roster(names: IdentityMatching.Names, players: seq<IdentityMatching.Player>,
                           teams: map<int, int>, profile: RawRow -> Option<IdentityMatching.RealCandidate>)

  function ParsedCandidate(numerals: Numerals, roster: Roster, raw: RawRow): Option<IdentityMatching.RealCandidate> {
    var id, profile := IntAt(numerals, raw, "player_id"), roster.profile(raw);
    if id.None? || profile.None? then None else Some(profile.value.(playerId := id.value))
  }

  function ParsedCandidates(numerals: Numerals, roster: Roster, rows: seq<RawRow>)
    : Option<seq<IdentityMatching.RealCandidate>>
  {
    if |rows| == 0 then Some([])
    else
      var before := ParsedCandidates(numerals, roster, rows[..|rows| - 1]);
      var last := ParsedCandidate(numerals, roster, rows[|rows| - 1]);
      if before.None? || last.None? then None else Some(before.value + [last.value])
  }

  lemma {:induction false} OneBadCandidateStopsAll(numerals: Numerals, roster: Roster, rows: seq<RawRow>, n: nat)
    requires n <= |rows| && ParsedCandidates(numerals, roster, rows[..n]).None?
    ensures ParsedCandidates(numerals, roster, rows).None?
  {
    if n == |rows| {
      assert rows[..n] == rows;
    } else {
      assert rows[..|rows| - 1][..n] == rows[..n];
      OneBadCandidateStopsAll(numerals, roster, rows[..|rows| - 1], n);
    }
  }

  method ParsePlayerCandidates(numerals: Numerals, roster: Roster, rows: seq<RawRow>)
    returns (parsed: Option<seq<IdentityMatching.RealCandidate>>)
    ensures parsed == ParsedCandidates(numerals, roster, rows)
  {
    hide ParsedCandidate;
    var candidates: seq<IdentityMatching.RealCandidate> := [];
    for i := 0 to |rows|
      invariant Some(candidates) == ParsedCandidates(numerals, roster, rows[..i])
    {
      assert rows[..i + 1][..i] == rows[..i];
      var entry := ParsedCandidate(numerals, roster, rows[i]);
      if entry.None? {
        OneBadCandidateStopsAll(numerals, roster, rows, i + 1);
        return None;
      }
      candidates := candidates + [entry.value];
    }
    assert rows[..|rows|] == rows;
    parsed := Some(candidates);
  }

  lemma {:induction false} ParsedAreListed(numerals: Numerals, roster: Roster, rows: seq<RawRow>)
    requires ParsedCandidates(numerals, roster, rows).Some?
    ensures var reals := ParsedCandidates(numerals, roster, rows).value;
            |reals| == |rows| && forall i :: 0 <= i < |reals| ==>
              IntAt(numerals, rows[i], "player_id") == Some(reals[i].playerId)
  {
    if |rows| > 0 {
      ParsedAreListed(numerals, roster, rows[..|rows| - 1]);
    }
  }

  // Whoever the matcher proposes is a listed player, and no roster player is proposed twice.
  lemma MatchesAreListed(numerals: Numerals, roster: Roster, rows: seq<RawRow>,
                         candidates: seq<IdentityMatching.Candidate>)
    requires ParsedCandidates(numerals, roster, rows).Some? && IdentityMatching.DistinctPlayers(roster.players)
    requires IdentityMatching.Matched(roster.names, roster.players, ParsedCandidates(numerals, roster, rows).value,
                                      roster.teams, candidates)
    ensures IdentityLinks.DistinctPlayerIds(candidates)
    ensures forall i :: 0 <= i < |candidates| ==> candidates[i].realPlayerId in IdsAt(numerals, rows, "player_id")
  {
    hide IdentityMatching.Matched, IdentityMatching.Judge, ParsedCandidates;
    var reals := ParsedCandidates(numerals, roster, rows).value;
    ParsedAreListed(numerals, roster, rows);
    IdentityMatching.MatchedAreSourced(roster.names, roster.players, reals, roster.teams, candidates);
    forall i | 0 <= i < |candidates| ensures candidates[i].realPlayerId in IdsAt(numerals, rows, "player_id") {
      assert IdentityMatching.Sourced(roster.names, roster.players, reals, roster.teams, candidates[i]);
      var r :| r in reals && candidates[i].realPlayerId == r.playerId;
      var k :| 0 <= k < |reals| && reals[k] == r;
      assert IntAt(numerals, rows[k], "player_id").Some?;
    }
  }

  lemma RewrittenLinksResolve(before: IdentityLinks.Links, after: IdentityLinks.Links,
                              candidates: seq<IdentityMatching.Candidate>, ids: set<int>)
    requires LinksWithin(before, ids)
    requires IdentityLinks.Rewritten(before, after, IdentityLinks.Deduped(candidates))
    requires forall i :: 0 <= i < |candidates| ==> candidates[i].realPlayerId in ids
    ensures LinksWithin(after, ids)
  {
    hide IdentityLinks.Deduped, IdentityLinks.ClaimOf;
    var rows := IdentityLinks.Deduped(candidates);
    DedupedAreAmongThem(candidates);
    forall id | id in after ensures after[id].realPlayerId in ids {
      if id in before {
        IdentityLinks.ClaimIsTheirs(rows, before[id].playerId);
      }
    }
  }

  lemma DedupedAreAmongThem(candidates: seq<IdentityMatching.Candidate>)
    ensures forall c :: c in IdentityLinks.Deduped(candidates) ==> c in candidates
  {
    hide IdentityLinks.Deduped, IdentityLinks.Wins;
    IdentityLinks.DedupedAreWinners(candidates);
    var rows := IdentityLinks.Deduped(candidates);
    forall c | c in rows ensures c in candidates {
      var i :| 0 <= i < |rows| && rows[i] == c;
      assert IdentityLinks.IsWinner(candidates, rows[i]);
    }
  }

  datatype Scope = Scope(playerIds: set<int>, clubIds: set<int>)

  // The ids in the cells that are not empty.
  function IdsAtNonEmpty(numerals: Numerals, rows: seq<RawRow>, column: string): set<int> {
    set i | 0 <= i < |rows| && column in rows[i] && rows[i][column] != "" && numerals.read(rows[i][column]).Some?
      :: numerals.read(rows[i][column]).value
  }

  lemma SanitizedPlayersFit(numerals: Numerals, rows: seq<RawRow>, known: set<string>, ids: set<int>)
    requires KnownClubs(numerals, known, ids)
    ensures AllFit(numerals, SanitizedPlayers(rows, known), Optional("current_club_id"), ids)
    ensures IdsAtNonEmpty(numerals, SanitizedPlayers(rows, known), "current_club_id") <= ids
  {
    hide IsBlank;
    forall i | 0 <= i < |rows|
      ensures Fits(numerals, SanitizedPlayers(rows, known)[i], Optional("current_club_id"), ids)
    {
      SanitizedClubFits(numerals, rows[i], "current_club_id", known, ids);
    }
  }

  lemma ClubsOfPlayersResolve(players: Table, ids: set<int>)
    requires ColumnWithin(players, "current_club_id", ids)
    ensures ClubsOf(players) <= ids
  {
  }

  lemma LinksStaySound(t: Tables, links: IdentityLinks.Links)
    requires Sound(t) && LinksWithin(links, IdsOf(t.players))
    ensures Sound(t.(links := links))
  {
    hide ColumnWithin, IdsOf;
  }

  lemma SoundPlayers(t: Tables)
    requires Sound(t)
    ensures ColumnWithin(t.players, "current_club_id", IdsOf(t.clubs))
    ensures LinksWithin(t.links, IdsOf(t.players))
  {
    hide ColumnWithin, IdsOf;
  }

  // The links are the matcher's choices for the rows, written as one statement.
  ghost predicate LinksRan(numerals: Numerals, roster: Roster, rows: seq<RawRow>, before: IdentityLinks.Links,
                           after: IdentityLinks.Links)
  {
    ParsedCandidates(numerals, roster, rows).Some?
    && exists candidates ::
         && IdentityMatching.Matched(roster.names, roster.players, ParsedCandidates(numerals, roster, rows).value,
                                     roster.teams, candidates)
         && IdentityLinks.Rewritten(before, after, IdentityLinks.Deduped(candidates))
  }

  ghost predicate PlayersRan(f: Formats, rows: seq<RawRow>, known: set<string>, roster: Roster, skipped: bool,
                             before: Tables, after: Tables, scope: Scope)
  {
    if skipped then after == before && scope == Scope(IdsOf(after.players), ClubsOf(after.players))
    else
      var clean := SanitizedPlayers(rows, known);
      && after.players
         == UpsertEach(before.players,
                       ParsedPrefix(SpecFor(f.numerals, f.players, PLAYERS, ["player_id"]), clean), ["player_id"])
      && LinksRan(f.numerals, roster, rows, before.links, after.links)
      && scope == Scope(IdsAt(f.numerals, rows, "player_id"),
                        IdsAtNonEmpty(f.numerals, clean, "current_club_id"))
  }

  method ProposeLinks(numerals: Numerals, roster: Roster, rows: seq<RawRow>)
    returns (candidates: Option<seq<IdentityMatching.Candidate>>)
    requires IdentityMatching.DistinctPlayers(roster.players)
    ensures candidates.Some? <==> ParsedCandidates(numerals, roster, rows).Some?
    ensures candidates.Some? ==>
              && IdentityMatching.Matched(roster.names, roster.players,
                                          ParsedCandidates(numerals, roster, rows).value, roster.teams,
                                          candidates.value)
              && IdentityLinks.DistinctPlayerIds(candidates.value)
              && forall i :: 0 <= i < |candidates.value| ==>
                   candidates.value[i].realPlayerId in IdsAt(numerals, rows, "player_id")
  {
    hide IdentityMatching.Matched, ParsedCandidates, IdsAt;
    var reals := ParsePlayerCandidates(numerals, roster, rows);
    if reals.None? {
      return None;
    }
    var found := IdentityMatching.Match(roster.names, roster.players, reals.value, roster.teams);
    MatchesAreListed(numerals, roster, rows, found);
    candidates := Some(found);
  }

  method WriteLinks(db: Database, candidates: seq<IdentityMatching.Candidate>, ghost ids: set<int>)
    returns (result: Result<nat, string>)
    requires db.links.Valid() && Sound(db.View()) && ids <= IdsOf(db.players.rows)
    requires IdentityLinks.DistinctPlayerIds(candidates)
    requires forall i :: 0 <= i < |candidates| ==> candidates[i].realPlayerId in ids
    modifies db.links
    ensures db.links.Valid() && Sound(db.View())
    ensures result.Ok? ==>
              IdentityLinks.Rewritten(old(db.links.links), db.links.links, IdentityLinks.Deduped(candidates))
  {
    hide Sound, IdsOf, IdentityLinks.Deduped, IdentityLinks.Rewritten, IdentityLinks.RoomFor;
    SoundPlayers(db.View());
    result := db.links.UpsertCandidates(candidates);
    if result.Ok? {
      RewrittenLinksResolve(old(db.links.links), db.links.links, candidates, IdsOf(db.players.rows));
    }
    LinksStaySound(old(db.View()), db.links.links);
  }

  // The matcher chooses first; then all players are written, then the links that refer to them. The scope
  // of every later stage comes from here.
  method SyncPlayers(f: Formats, db: Database, rows: seq<RawRow>, known: set<string>, roster: Roster,
                     skipPopulated: bool)
    returns (scope: Result<Scope, string>)
    requires FormatsRegular(f) && db.Apart() && db.links.Valid() && Sound(db.View())
    requires IdentityMatching.DistinctPlayers(roster.players)
    requires KnownClubs(f.numerals, known, IdsOf(db.clubs.rows))
    modifies db.players, db.links
    ensures db.links.Valid() && Sound(db.View())
    ensures scope.Ok? ==> scope.value.playerIds <= IdsOf(db.players.rows)
                          && scope.value.clubIds <= IdsOf(db.clubs.rows)
    ensures scope.Ok? ==> PlayersRan(f, rows, known, roster, skipPopulated && old(db.players.rows) != map[],
                                     old(db.View()), db.View(), scope.value)
  {
    hide ColumnWithin, IdsOf, UpsertEach, ParsedPrefix, ParseRow, SpecFor, AllFit, KeyOf, Sound, IdsAt,
         RowsWithin, KnownClubs, SanitizeClub, IdentityMatching.Matched, IdentityLinks.Rewritten,
         IdentityLinks.Deduped, ParsedCandidates;
    SoundPlayers(db.View());
    if skipPopulated && db.players.rows != map[] {
      ClubsOfPlayersResolve(db.players.rows, IdsOf(db.clubs.rows));
      return Ok(Scope(IdsOf(db.players.rows), ClubsOf(db.players.rows)));
    }
    var candidates := ProposeLinks(f.numerals, roster, rows);
    if candidates.None? {
      return Err("ValueError");
    }
    var clean := SanitizedPlayers(rows, known);
    SanitizedPlayersFit(f.numerals, rows, known, IdsOf(db.clubs.rows));
    var ingested := IngestInto(f.numerals, f.players, PLAYERS, clean, db.players);
    MorePlayersStaySound(old(db.View()), db.players.rows);
    if ingested.Err? {
      return Err("IngestionValidationError");
    }
    IngestedIdsAreThere(f.numerals, f.players, rows, known, db.players.rows);
    var linked := WriteLinks(db, candidates.value, IdsAt(f.numerals, rows, "player_id"));
    if linked.Err? {
      return Err(linked.error);
    }
    assert LinksRan(f.numerals, roster, rows, old(db.links.links), db.links.links);
    scope := Ok(Scope(IdsAt(f.numerals, rows, "player_id"),
                      IdsAtNonEmpty(f.numerals, clean, "current_club_id")));
  }

  lemma IngestedIdsAreThere(numerals: Numerals, others: Others, rows: seq<RawRow>, known: set<string>, players: Table)
    requires var clean := SanitizedPlayers(rows, known);
             forall i :: 0 <= i < |rows| ==>
               ParseRow(numerals, others, PLAYERS, clean[i]).Some?
               && KeyOf(ParseRow(numerals, others, PLAYERS, clean[i]).value, ["player_id"]) in players
    ensures IdsAt(numerals, rows, "player_id") <= IdsOf(players)
  {
    hide IdsOf, ParseRow, KeyOf;
    var clean := SanitizedPlayers(rows, known);
    forall i | 0 <= i < |rows| && IntAt(numerals, rows[i], "player_id").Some?
      ensures IntAt(numerals, rows[i], "player_id").value in IdsOf(players)
    {
      KeyIsItsId(numerals, others, PLAYERS, clean[i], "player_id", players);
      assert clean[i] == SanitizeClub(rows[i], "current_club_id", known);
    }
  }

  /* ---- Detail stages ---- */

  // How a detail stage ends: skipped, stopped while scoping, stopped at a row, or done.
  predicate StageRan(numerals: Numerals, others: Others, references: map<string, Reference>,
                     scoped: Option<seq<RawRow>>, skipped: bool, conflict: seq<string>, before: Table, after: Table,
                     result: Result<nat, string>)
  {
    if skipped then after == before && result == Ok(0)
    else if scoped.None? then after == before && result.Err?
    else
      var rows := ParsedPrefix(SpecFor(numerals, others, references, conflict), scoped.value);
      && (result.Ok? <==> |rows| == |scoped.value|)
      && (result.Ok? ==> after == UpsertEach(before, rows, conflict))
      && (result.Err? ==> after == UpsertEach(before, rows[..InFullChunks(|rows|, CHUNK_SIZE)], conflict))
  }

  predicate SomeFit(numerals: Numerals, scoped: Option<seq<RawRow>>, reference: Reference, ids: set<int>) {
    scoped.Some? ==> AllFit(numerals, scoped.value, reference, ids)
  }

  method RunStage(numerals: Numerals, others: Others, references: map<string, Reference>,
                  scoped: Option<seq<RawRow>>, skipPopulated: bool, table: TargetTable)
    returns (result: Result<nat, string>)
    requires Regular(others) && forall c :: c in table.conflict ==> c in others.columns + references.Keys
    modifies table
    ensures StageRan(numerals, others, references, scoped, skipPopulated && old(table.rows) != map[], table.conflict,
                     old(table.rows), table.rows, result)
    ensures forall target, ids | target in references && SomeFit(numerals, scoped, references[target], ids) ::
              StillWithin(old(table.rows), table.rows, target, ids)
  {
    hide ParseRow, AllFit, ColumnWithin, UpsertEach, ParsedPrefix, SpecFor, Regular, KeyOf, InFullChunks;
    if skipPopulated && table.rows != map[] {
      return Ok(0);
    }
    if scoped.None? {
      return Err("ValueError");
    }
    var ingested := IngestInto(numerals, others, references, scoped.value, table);
    if ingested.Err? {
      return Err("IngestionValidationError");
    }
    ghost var rows := ParsedPrefix(SpecFor(numerals, others, references, table.conflict), scoped.value);
    result := Ok(ingested.value);
  }

  // Each stage replaces one table by one whose columns resolve as before.
  predicate StillWithin(before: Table, after: Table, column: string, ids: set<int>) {
    ColumnWithin(before, column, ids) ==> ColumnWithin(after, column, ids)
  }

  lemma ValuationsStaySound(t: Tables, valuations: Table)
    requires Sound(t)
    requires StillWithin(t.valuations, valuations, "real_player_id", IdsOf(t.players))
    ensures Sound(t.(valuations := valuations))
  {
    hide ColumnWithin, IdsOf;
  }

  lemma TransfersStaySound(t: Tables, transfers: Table)
    requires Sound(t)
    requires StillWithin(t.transfers, transfers, "real_player_id", IdsOf(t.players))
    requires StillWithin(t.transfers, transfers, "from_club_id", IdsOf(t.clubs))
    requires StillWithin(t.transfers, transfers, "to_club_id", IdsOf(t.clubs))
    ensures Sound(t.(transfers := transfers))
  {
    hide ColumnWithin, IdsOf;
  }

  lemma LineupsStaySound(t: Tables, lineups: Table)
    requires Sound(t)
    requires StillWithin(t.lineups, lineups, "real_player_id", IdsOf(t.players))
    requires StillWithin(t.lineups, lineups, "real_club_id", IdsOf(t.clubs))
    ensures Sound(t.(lineups := lineups))
  {
    hide ColumnWithin, IdsOf;
  }

  lemma EventsStaySound(t: Tables, events: Table)
    requires Sound(t)
    requires StillWithin(t.events, events, "real_player_id", IdsOf(t.players))
    requires StillWithin(t.events, events, "player_in_id", IdsOf(t.players))
    requires StillWithin(t.events, events, "assist_player_id", IdsOf(t.players))
    requires StillWithin(t.events, events, "real_club_id", IdsOf(t.clubs))
    ensures Sound(t.(events := events))
  {
    hide ColumnWithin, IdsOf;
  }

  lemma ClubGamesStaySound(t: Tables, clubGames: Table)
    requires Sound(t)
    requires StillWithin(t.clubGames, clubGames, "real_club_id", IdsOf(t.clubs))
    requires StillWithin(t.clubGames, clubGames, "opponent_club_id", IdsOf(t.clubs))
    ensures Sound(t.(clubGames := clubGames))
  {
    hide ColumnWithin, IdsOf;
  }

  lemma InScopeFits(numerals: Numerals, rows: seq<RawRow>, keep: RawRow -> Option<bool>, column: string,
                    scope: set<int>, ids: set<int>)
    requires scope <= ids
    requires forall raw :: keep(raw) == Some(true) ==> InScope(numerals, scope, column, raw) == Some(true)
    ensures SomeFit(numerals, Filtered(rows, keep), Required(column), ids)
  {
    FilteredPass(rows, keep);
  }

  function ScopedByPlayer(numerals: Numerals, rows: seq<RawRow>, realPlayerIds: set<int>): Option<seq<RawRow>> {
    Filtered(rows, raw => InScope(numerals, realPlayerIds, "player_id", raw))
  }

  method SyncValuations(f: Formats, db: Database, rows: seq<RawRow>, realPlayerIds: set<int>, skipPopulated: bool)
    returns (result: Result<nat, string>)
    requires FormatsRegular(f) && db.Apart() && Sound(db.View()) && realPlayerIds <= IdsOf(db.players.rows)
    modifies db.valuations
    ensures Sound(db.View())
    ensures StageRan(f.numerals, f.valuations, VALUATIONS, ScopedByPlayer(f.numerals, rows, realPlayerIds),
                     skipPopulated && old(db.valuations.rows) != map[], db.valuations.conflict,
                     old(db.valuations.rows), db.valuations.rows, result)
  {
    hide ColumnWithin, IdsOf, AllFit, StageRan, StillWithin, SomeFit, Sound, Filtered;
    var scoped := ScopedByPlayer(f.numerals, rows, realPlayerIds);
    InScopeFits(f.numerals, rows, raw => InScope(f.numerals, realPlayerIds, "player_id", raw), "player_id",
                realPlayerIds, IdsOf(db.players.rows));
    result := RunStage(f.numerals, f.valuations, VALUATIONS, scoped, skipPopulated, db.valuations);
    ValuationsStaySound(old(db.View()), db.valuations.rows);
  }

  function ScopedTransfers(numerals: Numerals, rows: seq<RawRow>, realPlayerIds: set<int>, known: set<string>)
    : Option<seq<RawRow>>
  {
    var scoped := ScopedByPlayer(numerals, rows, realPlayerIds);
    if scoped.None? then None
    else Some(seq(|scoped.value|, i requires 0 <= i < |scoped.value| => SanitizedTransfer(scoped.value[i], known)))
  }

  function SanitizedTransfer(raw: RawRow, known: set<string>): RawRow {
    SanitizeClub(SanitizeClub(raw, "from_club_id", known), "to_club_id", known)
  }

  lemma SanitizedTransferFits(numerals: Numerals, raw: RawRow, playerIds: set<int>, known: set<string>,
                              clubIds: set<int>)
    requires KnownClubs(numerals, known, clubIds) && Fits(numerals, raw, Required("player_id"), playerIds)
    ensures var clean := SanitizedTransfer(raw, known);
            && Fits(numerals, clean, Required("player_id"), playerIds)
            && Fits(numerals, clean, Optional("from_club_id"), clubIds)
            && Fits(numerals, clean, Optional("to_club_id"), clubIds)
  {
    hide Fits, SanitizeClub, KnownClubs;
    var mid := SanitizeClub(raw, "from_club_id", known);
    SanitizedClubFits(numerals, raw, "from_club_id", known, clubIds);
    SanitizedClubFits(numerals, mid, "to_club_id", known, clubIds);
    var clean := SanitizedTransfer(raw, known);
    FitsElsewhere(numerals, mid, clean, Optional("from_club_id"), clubIds);
    FitsElsewhere(numerals, raw, clean, Required("player_id"), playerIds);
  }

  lemma ScopedTransfersFit(numerals: Numerals, rows: seq<RawRow>, realPlayerIds: set<int>, known: set<string>,
                           playerIds: set<int>, clubIds: set<int>)
    requires KnownClubs(numerals, known, clubIds) && realPlayerIds <= playerIds
    ensures var scoped := ScopedTransfers(numerals, rows, realPlayerIds, known);
            && SomeFit(numerals, scoped, Required("player_id"), playerIds)
            && SomeFit(numerals, scoped, Optional("from_club_id"), clubIds)
            && SomeFit(numerals, scoped, Optional("to_club_id"), clubIds)
  {
    hide Filtered, Fits, SanitizedTransfer, KnownClubs;
    InScopeFits(numerals, rows, raw => InScope(numerals, realPlayerIds, "player_id", raw), "player_id",
                realPlayerIds, playerIds);
    var scoped := ScopedByPlayer(numerals, rows, realPlayerIds);
    if scoped.Some? {
      forall i | 0 <= i < |scoped.value|
        ensures var clean := SanitizedTransfer(scoped.value[i], known);
                && Fits(numerals, clean, Required("player_id"), playerIds)
                && Fits(numerals, clean, Optional("from_club_id"), clubIds)
                && Fits(numerals, clean, Optional("to_club_id"), clubIds)
      {
        SanitizedTransferFits(numerals, scoped.value[i], playerIds, known, clubIds);
      }
    }
  }

  method SyncTransfers(f: Formats, db: Database, rows: seq<RawRow>, realPlayerIds: set<int>, known: set<string>,
                       skipPopulated: bool)
    returns (result: Result<nat, string>)
    requires FormatsRegular(f) && db.Apart() && Sound(db.View()) && realPlayerIds <= IdsOf(db.players.rows)
    requires KnownClubs(f.numerals, known, IdsOf(db.clubs.rows))
    modifies db.transfers
    ensures Sound(db.View())
    ensures StageRan(f.numerals, f.transfers, TRANSFERS, ScopedTransfers(f.numerals, rows, realPlayerIds, known),
                     skipPopulated && old(db.transfers.rows) != map[], db.transfers.conflict,
                     old(db.transfers.rows), db.transfers.rows, result)
  {
    hide ColumnWithin, IdsOf, AllFit, StageRan, StillWithin, SomeFit, Sound, ScopedTransfers, KnownClubs;
    var scoped := ScopedTransfers(f.numerals, rows, realPlayerIds, known);
    ScopedTransfersFit(f.numerals, rows, realPlayerIds, known, IdsOf(db.players.rows), IdsOf(db.clubs.rows));
    result := RunStage(f.numerals, f.transfers, TRANSFERS, scoped, skipPopulated, db.transfers);
    TransfersStaySound(old(db.View()), db.transfers.rows);
  }

  function ScopedLineups(numerals: Numerals, rows: seq<RawRow>, realPlayerIds: set<int>, known: set<string>)
    : Option<seq<RawRow>>
  {
    Filtered(rows, raw => LineupInScope(numerals, realPlayerIds, known, raw))
  }

  lemma ScopedLineupsFit(numerals: Numerals, rows: seq<RawRow>, realPlayerIds: set<int>, known: set<string>,
                         playerIds: set<int>, clubIds: set<int>)
    requires KnownClubs(numerals, known, clubIds) && realPlayerIds <= playerIds
    ensures var scoped := ScopedLineups(numerals, rows, realPlayerIds, known);
            SomeFit(numerals, scoped, Required("player_id"), playerIds)
            && SomeFit(numerals, scoped, Required("club_id"), clubIds)
  {
    FilteredPass(rows, raw => LineupInScope(numerals, realPlayerIds, known, raw));
  }

  // A line-up must name its club: a row whose club is unknown is left out, not blanked.
  method SyncLineups(f: Formats, db: Database, rows: seq<RawRow>, realPlayerIds: set<int>, known: set<string>,
                     skipPopulated: bool)
    returns (result: Result<nat, string>)
    requires FormatsRegular(f) && db.Apart() && Sound(db.View()) && realPlayerIds <= IdsOf(db.players.rows)
    requires KnownClubs(f.numerals, known, IdsOf(db.clubs.rows))
    modifies db.lineups
    ensures Sound(db.View())
    ensures StageRan(f.numerals, f.lineups, LINEUPS, ScopedLineups(f.numerals, rows, realPlayerIds, known),
                     skipPopulated && old(db.lineups.rows) != map[], db.lineups.conflict,
                     old(db.lineups.rows), db.lineups.rows, result)
  {
    hide ColumnWithin, IdsOf, AllFit, StageRan, StillWithin, SomeFit, Sound, ScopedLineups, KnownClubs;
    var scoped := ScopedLineups(f.numerals, rows, realPlayerIds, known);
    ScopedLineupsFit(f.numerals, rows, realPlayerIds, known, IdsOf(db.players.rows), IdsOf(db.clubs.rows));
    result := RunStage(f.numerals, f.lineups, LINEUPS, scoped, skipPopulated, db.lineups);
    LineupsStaySound(old(db.View()), db.lineups.rows);
  }

  lemma EventsFit(numerals: Numerals, rows: seq<RawRow>, scope: Scope, known: set<string>, playerIds: set<int>,
                  clubIds: set<int>)
    requires KnownClubs(numerals, known, clubIds) && scope.playerIds <= playerIds
    ensures var scoped := ScopedEvents(numerals, rows, scope.playerIds, scope.clubIds, known);
            && SomeFit(numerals, scoped, Optional("club_id"), clubIds)
            && SomeFit(numerals, scoped, Optional("player_id"), playerIds)
            && SomeFit(numerals, scoped, Optional("player_in_id"), playerIds)
            && SomeFit(numerals, scoped, Optional("player_assist_id"), playerIds)
  {
    hide ScopedEvents, IsBlank, KnownClubs;
    ScopedEventsFit(numerals, rows, scope.playerIds, scope.clubIds, known, clubIds);
    var scoped := ScopedEvents(numerals, rows, scope.playerIds, scope.clubIds, known);
    if scoped.Some? {
      forall i | 0 <= i < |scoped.value| ensures EventFits(numerals, scoped.value[i], playerIds, clubIds) {
        assert EventFits(numerals, scoped.value[i], scope.playerIds, clubIds);
      }
    }
  }

  method SyncEvents(f: Formats, db: Database, rows: seq<RawRow>, scope: Scope, known: set<string>,
                    skipPopulated: bool)
    returns (result: Result<nat, string>)
    requires FormatsRegular(f) && db.Apart() && Sound(db.View()) && scope.playerIds <= IdsOf(db.players.rows)
    requires KnownClubs(f.numerals, known, IdsOf(db.clubs.rows))
    modifies db.events
    ensures Sound(db.View())
    ensures StageRan(f.numerals, f.events, EVENTS,
                     ScopedEvents(f.numerals, rows, scope.playerIds, scope.clubIds, known),
                     skipPopulated && old(db.events.rows) != map[], db.events.conflict,
                     old(db.events.rows), db.events.rows, result)
  {
    hide ColumnWithin, IdsOf, AllFit, StageRan, StillWithin, SomeFit, Sound, ScopedEvents, KnownClubs;
    var scoped := ScopeEvents(f.numerals, rows, scope.playerIds, scope.clubIds, known);
    EventsFit(f.numerals, rows, scope, known, IdsOf(db.players.rows), IdsOf(db.clubs.rows));
    result := RunStage(f.numerals, f.events, EVENTS, scoped, skipPopulated, db.events);
    EventsStaySound(old(db.View()), db.events.rows);
  }

  function ScopedClubGames(numerals: Numerals, rows: seq<RawRow>, realClubIds: set<int>, known: set<string>)
    : Option<seq<RawRow>>
  {
    var scoped := Filtered(rows, raw => InScope(numerals, realClubIds, "club_id", raw));
    if scoped.None? then None
    else Some(seq(|scoped.value|, i requires 0 <= i < |scoped.value| =>
                SanitizeClub(scoped.value[i], "opponent_id", known)))
  }

  lemma ScopedClubGamesFit(numerals: Numerals, rows: seq<RawRow>, realClubIds: set<int>, known: set<string>,
                           clubIds: set<int>)
    requires KnownClubs(numerals, known, clubIds) && realClubIds <= clubIds
    ensures var scoped := ScopedClubGames(numerals, rows, realClubIds, known);
            SomeFit(numerals, scoped, Required("club_id"), clubIds)
            && SomeFit(numerals, scoped, Optional("opponent_id"), clubIds)
  {
    hide Filtered, Fits, SanitizeClub, KnownClubs;
    InScopeFits(numerals, rows, raw => InScope(numerals, realClubIds, "club_id", raw), "club_id", realClubIds, clubIds);
    var scoped := Filtered(rows, raw => InScope(numerals, realClubIds, "club_id", raw));
    if scoped.Some? {
      forall i | 0 <= i < |scoped.value|
        ensures var clean := SanitizeClub(scoped.value[i], "opponent_id", known);
                Fits(numerals, clean, Required("club_id"), clubIds)
                && Fits(numerals, clean, Optional("opponent_id"), clubIds)
      {
        SanitizedClubFits(numerals, scoped.value[i], "opponent_id", known, clubIds);
        FitsElsewhere(numerals, scoped.value[i], SanitizeClub(scoped.value[i], "opponent_id", known),
                      Required("club_id"), clubIds);
      }
    }
  }

  method SyncClubGames(f: Formats, db: Database, rows: seq<RawRow>, realClubIds: set<int>, known: set<string>,
                       skipPopulated: bool)
    returns (result: Result<nat, string>)
    requires FormatsRegular(f) && db.Apart() && Sound(db.View()) && realClubIds <= IdsOf(db.clubs.rows)
    requires KnownClubs(f.numerals, known, IdsOf(db.clubs.rows))
    modifies db.clubGames
    ensures Sound(db.View())
    ensures StageRan(f.numerals, f.clubGames, CLUB_GAMES, ScopedClubGames(f.numerals, rows, realClubIds, known),
                     skipPopulated && old(db.clubGames.rows) != map[], db.clubGames.conflict,
                     old(db.clubGames.rows), db.clubGames.rows, result)
  {
    hide ColumnWithin, IdsOf, AllFit, StageRan, StillWithin, SomeFit, Sound, ScopedClubGames, KnownClubs;
    var scoped := ScopedClubGames(f.numerals, rows, realClubIds, known);
    ScopedClubGamesFit(f.numerals, rows, realClubIds, known, IdsOf(db.clubs.rows));
    result := RunStage(f.numerals, f.clubGames, CLUB_GAMES, scoped, skipPopulated, db.clubGames);
    ClubGamesStaySound(old(db.View()), db.clubGames.rows);
  }

  /* ---- Season statistics ---- */

  // The games by id, the last row of an id winning; None is a row without the columns.
  function GamesById(rows: seq<RawRow>): Option<SeasonStats.Games> {
    if |rows| == 0 then Some(map[])
    else
      var before, last := GamesById(rows[..|rows| - 1]), rows[|rows| - 1];
      if before.None? || "game_id" !in last || "season" !in last || "competition_id" !in last then None
      else Some(before.value[last["game_id"] := SeasonStats.Game(last["season"], last["competition_id"])])
  }

  function AppearanceOf(numerals: Numerals, raw: RawRow): Option<SeasonStats.Appearance> {
    var player, goals, assists := IntAt(numerals, raw, "player_id"), IntAt(numerals, raw, "goals"),
                                  IntAt(numerals, raw, "assists");
    var yellow, red, minutes := IntAt(numerals, raw, "yellow_cards"), IntAt(numerals, raw, "red_cards"),
                                IntAt(numerals, raw, "minutes_played");
    if player.None? || goals.None? || assists.None? || yellow.None? || red.None? || minutes.None?
       || "game_id" !in raw
    then None
    else Some(SeasonStats.Appearance(player.value, raw["game_id"], goals.value, assists.value, yellow.value,
                                     red.value, minutes.value))
  }

  // The appearances of known players; None is a cell that does not read. Rows out of scope are not read further.
  function ScopedAppearances(numerals: Numerals, rows: seq<RawRow>, realPlayerIds: set<int>)
    : Option<seq<SeasonStats.Appearance>>
  {
    if |rows| == 0 then Some([])
    else
      var before, last := ScopedAppearances(numerals, rows[..|rows| - 1], realPlayerIds), rows[|rows| - 1];
      var scoped := InScope(numerals, realPlayerIds, "player_id", last);
      if before.None? || scoped.None? then None
      else if !scoped.value then before
      else
        var appearance := AppearanceOf(numerals, last);
        if appearance.None? then None else Some(before.value + [appearance.value])
  }

  predicate AllOf(rows: seq<SeasonStats.Appearance>, playerIds: set<int>) {
    forall i :: 0 <= i < |rows| ==> rows[i].playerId in playerIds
  }

  lemma {:induction false} ScopedAreScoped(numerals: Numerals, rows: seq<RawRow>, realPlayerIds: set<int>)
    ensures var scoped := ScopedAppearances(numerals, rows, realPlayerIds);
            scoped.Some? ==> AllOf(scoped.value, realPlayerIds)
  {
    if |rows| > 0 {
      ScopedAreScoped(numerals, rows[..|rows| - 1], realPlayerIds);
    }
  }

  lemma OwnPlayersAreScoped(scoped: seq<SeasonStats.Appearance>, realPlayerIds: set<int>,
                            games: SeasonStats.Games, key: SeasonStats.GroupKey)
    requires AllOf(scoped, realPlayerIds) && SeasonStats.GamesKnown(scoped, games)
    requires SeasonStats.Own(scoped, games, key) != []
    ensures key.playerId in realPlayerIds
  {
    OwnComesFromARow(scoped, games, key);
    var i :| 0 <= i < |scoped| && SeasonStats.KeyFor(scoped[i], games) == key;
  }

  lemma {:induction false} OwnComesFromARow(rows: seq<SeasonStats.Appearance>, games: SeasonStats.Games,
                                            key: SeasonStats.GroupKey)
    requires SeasonStats.GamesKnown(rows, games) && SeasonStats.Own(rows, games, key) != []
    ensures exists i :: 0 <= i < |rows| && SeasonStats.KeyFor(rows[i], games) == key
  {
    var n := |rows| - 1;
    if SeasonStats.KeyFor(rows[n], games) != key {
      OwnComesFromARow(rows[..n], games, key);
      var i :| 0 <= i < n && SeasonStats.KeyFor(rows[..n][i], games) == key;
      assert rows[i] == rows[..n][i];
    }
  }

  // The groups of the appearances in scope: one for each key, each the sum of its own, written one by one.
  ghost predicate StatsRan(numerals: Numerals, appearances: seq<RawRow>, gameRows: seq<RawRow>, playerIds: set<int>,
                           skipped: bool, before: Table, after: Table, count: nat)
  {
    if skipped then after == before && count == 0
    else
      var scoped, games := ScopedAppearances(numerals, appearances, playerIds), GamesById(gameRows);
      && scoped.Some? && games.Some? && SeasonStats.GamesKnown(scoped.value, games.value)
      && exists groups ::
           && SeasonStats.Aggregated(scoped.value, games.value, groups) && count == |groups|
           && after == UpsertEach(before, SeasonStats.RowsOf(groups), SeasonStats.CONFLICT)
  }

  method SyncSeasonStats(numerals: Numerals, db: Database, appearances: seq<RawRow>, gameRows: seq<RawRow>,
                         realPlayerIds: set<int>, skipPopulated: bool)
    returns (result: Result<nat, string>)
    requires db.Apart() && Sound(db.View()) && realPlayerIds <= IdsOf(db.players.rows)
    modifies db.seasonStats
    ensures Sound(db.View())
    ensures result.Ok? ==> StatsRan(numerals, appearances, gameRows, realPlayerIds,
                                    skipPopulated && old(db.seasonStats.rows) != map[],
                                    old(db.seasonStats.rows), db.seasonStats.rows, result.value)
    ensures result.Err? ==>
              && db.View() == old(db.View()) && !(skipPopulated && db.seasonStats.rows != map[])
              && var scoped, games := ScopedAppearances(numerals, appearances, realPlayerIds), GamesById(gameRows);
                 scoped.None? || games.None? || !SeasonStats.GamesKnown(scoped.value, games.value)
  {
    hide ColumnWithin, IdsOf, UpsertEach, ScopedAppearances, GamesById, SeasonStats.Aggregated, SeasonStats.RowsOf,
         Sound;
    if skipPopulated && db.seasonStats.rows != map[] {
      return Ok(0);
    }
    var games := GamesById(gameRows);
    if games.None? {
      return Err("KeyError");
    }
    var scoped := ScopedAppearances(numerals, appearances, realPlayerIds);
    if scoped.None? {
      return Err("ValueError");
    }
    var aggregated := SeasonStats.Aggregate(scoped.value, games.value);
    if aggregated.Err? {
      return Err(aggregated.error);
    }
    var groups := aggregated.value;
    ScopedAreScoped(numerals, appearances, realPlayerIds);
    GroupsResolve(scoped.value, games.value, groups, realPlayerIds, IdsOf(db.players.rows));
    OneKeyEach(scoped.value, games.value, groups);
    StatsStaySound(db.View(), groups);
    var total := SeasonStats.Upload(groups, db.seasonStats);
    result := Ok(total);
  }

  lemma OneKeyEach(scoped: seq<SeasonStats.Appearance>, games: SeasonStats.Games, groups: seq<SeasonStats.Group>)
    requires SeasonStats.GamesKnown(scoped, games) && SeasonStats.Aggregated(scoped, games, groups)
    ensures SeasonStats.OneGroupPerKey(groups)
  {
  }

  lemma GroupsResolve(scoped: seq<SeasonStats.Appearance>, games: SeasonStats.Games, groups: seq<SeasonStats.Group>,
                      scope: set<int>, ids: set<int>)
    requires AllOf(scoped, scope) && scope <= ids
    requires SeasonStats.GamesKnown(scoped, games) && SeasonStats.Aggregated(scoped, games, groups)
    ensures RowsWithin(SeasonStats.RowsOf(groups), "real_player_id", ids)
  {
    hide SeasonStats.Own, SeasonStats.Sum, SeasonStats.TotalOf, SeasonStats.GroupRow;
    forall i | 0 <= i < |groups| ensures groups[i].key.playerId in ids {
      OwnPlayersAreScoped(scoped, scope, games, groups[i].key);
    }
    GroupRowsResolve(groups, ids);
  }

  lemma GroupRowsResolve(groups: seq<SeasonStats.Group>, ids: set<int>)
    requires forall i :: 0 <= i < |groups| ==> groups[i].key.playerId in ids
    ensures RowsWithin(SeasonStats.RowsOf(groups), "real_player_id", ids)
  {
    forall i | 0 <= i < |groups| ensures Resolves(SeasonStats.RowsOf(groups)[i]["real_player_id"], ids) {
      assert SeasonStats.GroupRow(groups[i])["real_player_id"] == Number(groups[i].key.playerId);
    }
  }

  lemma StatsStaySound(t: Tables, groups: seq<SeasonStats.Group>)
    requires Sound(t) && RowsWithin(SeasonStats.RowsOf(groups), "real_player_id", IdsOf(t.players))
    ensures Sound(t.(seasonStats := UpsertEach(t.seasonStats, SeasonStats.RowsOf(groups), SeasonStats.CONFLICT)))
  {
    hide ColumnWithin, IdsOf, UpsertEach, SeasonStats.RowsOf, RowsWithin;
    UpsertsKeepReferences(t.seasonStats, SeasonStats.RowsOf(groups), SeasonStats.CONFLICT, "real_player_id",
                          IdsOf(t.players));
  }

  /* ---- The pipeline ---- */

  datatype Source = Source(clubs: seq<RawRow>, players: seq<RawRow>, valuations: seq<RawRow>,
                           transfers: seq<RawRow>, lineups: seq<RawRow>, events: seq<RawRow>,
                           clubGames: seq<RawRow>, appearances: seq<RawRow>, games: seq<RawRow>)

  // What the stages scoped by player did, given what the first two established.
  predicate PlayerScopedRan(f: Formats, source: Source, known: set<string>, playerIds: set<int>, skipPopulated: bool,
                            valuations: (Table, Table), transfers: (Table, Table), counts: (nat, nat))
  {
    && StageRan(f.numerals, f.valuations, VALUATIONS, ScopedByPlayer(f.numerals, source.valuations, playerIds),
                skipPopulated && valuations.0 != map[], ["real_player_id", "valuation_date"],
                valuations.0, valuations.1, Ok(counts.0))
    && StageRan(f.numerals, f.transfers, TRANSFERS, ScopedTransfers(f.numerals, source.transfers, playerIds, known),
                skipPopulated && transfers.0 != map[], ["real_player_id", "transfer_date"],
                transfers.0, transfers.1, Ok(counts.1))
  }

  method SyncPlayerScopedTables(f: Formats, db: Database, source: Source, realPlayerIds: set<int>,
                                known: set<string>, skipPopulated: bool)
    returns (counts: Result<(nat, nat), string>)
    requires FormatsRegular(f) && db.Apart() && Sound(db.View()) && realPlayerIds <= IdsOf(db.players.rows)
    requires KnownClubs(f.numerals, known, IdsOf(db.clubs.rows))
    modifies db.valuations, db.transfers
    ensures Sound(db.View())
    ensures counts.Ok? ==> PlayerScopedRan(f, source, known, realPlayerIds, skipPopulated,
                                           (old(db.valuations.rows), db.valuations.rows),
                                           (old(db.transfers.rows), db.transfers.rows), counts.value)
  {
    hide Sound, KnownClubs, StageRan, FormatsRegular, UpsertEach, IdsOf, ScopedTransfers, ScopedByPlayer;
    var valuations := SyncValuations(f, db, source.valuations, realPlayerIds, skipPopulated);
    if valuations.Err? {
      return Err(valuations.error);
    }
    var transfers := SyncTransfers(f, db, source.transfers, realPlayerIds, known, skipPopulated);
    if transfers.Err? {
      return Err(transfers.error);
    }
    counts := Ok((valuations.value, transfers.value));
  }

  predicate MatchDataRan(f: Formats, source: Source, known: set<string>, scope: Scope, skipPopulated: bool,
                         lineups: (Table, Table), events: (Table, Table), clubGames: (Table, Table),
                         counts: (nat, nat, nat))
  {
    && StageRan(f.numerals, f.lineups, LINEUPS, ScopedLineups(f.numerals, source.lineups, scope.playerIds, known),
                skipPopulated && lineups.0 != map[], ["game_lineups_id"], lineups.0, lineups.1, Ok(counts.0))
    && StageRan(f.numerals, f.events, EVENTS,
                ScopedEvents(f.numerals, source.events, scope.playerIds, scope.clubIds, known),
                skipPopulated && events.0 != map[], ["game_event_id"], events.0, events.1, Ok(counts.1))
    && StageRan(f.numerals, f.clubGames, CLUB_GAMES,
                ScopedClubGames(f.numerals, source.clubGames, scope.clubIds, known),
                skipPopulated && clubGames.0 != map[], ["real_game_id", "real_club_id"],
                clubGames.0, clubGames.1, Ok(counts.2))
  }

  method SyncMatchData(f: Formats, db: Database, source: Source, scope: Scope, known: set<string>,
                       skipPopulated: bool)
    returns (counts: Result<(nat, nat, nat), string>)
    requires FormatsRegular(f) && db.Apart() && Sound(db.View())
    requires scope.playerIds <= IdsOf(db.players.rows) && scope.clubIds <= IdsOf(db.clubs.rows)
    requires KnownClubs(f.numerals, known, IdsOf(db.clubs.rows))
    modifies db.lineups, db.events, db.clubGames
    ensures Sound(db.View())
    ensures counts.Ok? ==> MatchDataRan(f, source, known, scope, skipPopulated,
                                        (old(db.lineups.rows), db.lineups.rows), (old(db.events.rows), db.events.rows),
                                        (old(db.clubGames.rows), db.clubGames.rows), counts.value)
  {
    hide Sound, KnownClubs, StageRan, FormatsRegular, UpsertEach, IdsOf, ScopedLineups, ScopedEvents,
         ScopedClubGames;
    var lineups := SyncLineups(f, db, source.lineups, scope.playerIds, known, skipPopulated);
    if lineups.Err? {
      return Err(lineups.error);
    }
    var events := SyncEvents(f, db, source.events, scope, known, skipPopulated);
    if events.Err? {
      return Err(events.error);
    }
    var clubGames := SyncClubGames(f, db, source.clubGames, scope.clubIds, known, skipPopulated);
    if clubGames.Err? {
      return Err(clubGames.error);
    }
    counts := Ok((lineups.value, events.value, clubGames.value));
  }

  datatype RowCounts = RowCounts(playerScoped: (nat, nat), matchData: (nat, nat, nat), seasonStats: nat)

  // Whatever the source holds, whichever stages are skipped and wherever the sync stops: every reference
  // in every table resolves or is null. Each stage keeps it, so it holds between any two stages as well.
  method RunPipeline(f: Formats, db: Database, source: Source, roster: Roster, skipPopulated: bool)
    returns (result: Result<RowCounts, string>, ghost known: set<string>, ghost scope: Scope)
    requires FormatsRegular(f) && db.Apart() && db.links.Valid() && Sound(db.View())
    requires IdentityMatching.DistinctPlayers(roster.players)
    modifies db.clubs, db.players, db.links, db.valuations, db.transfers, db.lineups, db.events, db.clubGames,
             db.seasonStats
    ensures db.links.Valid() && Sound(db.View())
    ensures result.Ok? ==>
              && ClubsRan(f, source.clubs, skipPopulated && old(db.clubs.rows) != map[], old(db.clubs.rows),
                          db.clubs.rows, known)
              && PlayersRan(f, source.players, known, roster, skipPopulated && old(db.players.rows) != map[],
                            old(db.View()).(clubs := db.clubs.rows),
                            old(db.View()).(clubs := db.clubs.rows, players := db.players.rows,
                                            links := db.links.links),
                            scope)
              && var c := result.value;
                 && PlayerScopedRan(f, source, known, scope.playerIds, skipPopulated,
                                    (old(db.valuations.rows), db.valuations.rows),
                                    (old(db.transfers.rows), db.transfers.rows), c.playerScoped)
                 && MatchDataRan(f, source, known, scope, skipPopulated, (old(db.lineups.rows), db.lineups.rows),
                                 (old(db.events.rows), db.events.rows), (old(db.clubGames.rows), db.clubGames.rows),
                                 c.matchData)
                 && StatsRan(f.numerals, source.appearances, source.games, scope.playerIds,
                             skipPopulated && old(db.seasonStats.rows) != map[],
                             old(db.seasonStats.rows), db.seasonStats.rows, c.seasonStats)
  {
    hide Sound, KnownClubs, ClubsRan, PlayersRan, FormatsRegular, UpsertEach, IdsOf,
         ScopedAppearances, GamesById, PlayerScopedRan, MatchDataRan, StatsRan;
    known, scope := {}, Scope({}, {});
    var knownClubIds := SyncClubs(f, db, source.clubs, skipPopulated);
    if knownClubIds.Err? {
      return Err(knownClubIds.error), known, scope;
    }
    known := knownClubIds.value;
    var persisted := SyncPlayers(f, db, source.players, knownClubIds.value, roster, skipPopulated);
    if persisted.Err? {
      return Err(persisted.error), known, scope;
    }
    var ids := persisted.value;
    scope := ids;
    var scoped := SyncPlayerScopedTables(f, db, source, ids.playerIds, knownClubIds.value, skipPopulated);
    if scoped.Err? {
      return Err(scoped.error), known, scope;
    }
    var matchData := SyncMatchData(f, db, source, ids, knownClubIds.value, skipPopulated);
    if matchData.Err? {
      return Err(matchData.error), known, scope;
    }
    var stats := SyncSeasonStats(f.numerals, db, source.appearances, source.games, ids.playerIds, skipPopulated);
    if stats.Err? {
      return Err(stats.error), known, scope;
    }
    result := Ok(RowCounts(scoped.value, matchData.value, stats.value));
  }
}
