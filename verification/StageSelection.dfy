/** What each detail stage of the sync hands on, in terms of the source's rows and cells: which positions are
    taken, what becomes of them, and what stops the stage. */
module StageSelection {
  import opened Prelude
  import opened Selection
  import opened Ingestion
  import opened TransfermarktSync
  import SeasonStats

  /* ---- Cells ---- */

  // The cell reads as one of the ids.
  predicate HasId(numerals: Numerals, raw: RawRow, column: string, ids: set<int>) {
    column in raw && numerals.read(raw[column]).Some? && numerals.read(raw[column]).value in ids
  }

  predicate Unreadable(numerals: Numerals, raw: RawRow, column: string) {
    column !in raw || numerals.read(raw[column]) == None
  }

  // A cell with something in it.
  predicate IsFilled(raw: RawRow, column: string) {
    column in raw && |raw[column]| > 0
  }

  lemma {:induction false} FilteredIsASelection(rows: seq<RawRow>, keep: RawRow -> Option<bool>)
    ensures var kept := Filtered(rows, keep);
            && (kept.None? <==> exists i :: 0 <= i < |rows| && keep(rows[i]).None?)
            && (kept.Some? ==> IsFilter(rows, kept.value, raw => keep(raw) == Some(true)))
  {
    hide IsFilter;
    var wanted := (raw: RawRow) => keep(raw) == Some(true);
    if |rows| == 0 {
      NothingFiltered(wanted);
    } else {
      var before, last := rows[..|rows| - 1], rows[|rows| - 1];
      FilteredIsASelection(before, keep);
      assert rows == before + [last];
      assert forall i :: 0 <= i < |before| ==> rows[i] == before[i];
      if Filtered(before, keep).Some? {
        FiltersOneMore(before, Filtered(before, keep).value, wanted, last);
      }
    }
  }

  // The valuations taken are those whose player cell reads as a known player.
  lemma ValuationsAreSelected(numerals: Numerals, rows: seq<RawRow>, ids: set<int>)
    ensures var scoped := ScopedByPlayer(numerals, rows, ids);
            && (scoped.None? <==> exists i :: 0 <= i < |rows| && Unreadable(numerals, rows[i], "player_id"))
            && (scoped.Some? ==> IsFilter(rows, scoped.value, raw => HasId(numerals, raw, "player_id", ids)))
  {
    hide IsFilter;
    InScopeIsSelected(numerals, rows, "player_id", ids);
  }

  lemma InScopeIsSelected(numerals: Numerals, rows: seq<RawRow>, column: string, ids: set<int>)
    ensures var scoped := Filtered(rows, raw => InScope(numerals, ids, column, raw));
            && (scoped.None? <==> exists i :: 0 <= i < |rows| && Unreadable(numerals, rows[i], column))
            && (scoped.Some? ==> IsFilter(rows, scoped.value, raw => HasId(numerals, raw, column, ids)))
  {
    hide IsFilter, Filtered;
    var keep := raw => InScope(numerals, ids, column, raw);
    FilteredIsASelection(rows, keep);
    assert forall i :: 0 <= i < |rows| ==> (Unreadable(numerals, rows[i], column) <==> keep(rows[i]).None?);
    if Filtered(rows, keep).Some? {
      FiltersAlike(rows, Filtered(rows, keep).value, raw => keep(raw) == Some(true),
                   raw => HasId(numerals, raw, column, ids));
    }
  }

  // A row with the cells of these columns blanked unless they name a known club, and no other changed.
  predicate ClubsCleaned(raw: RawRow, clean: RawRow, columns: set<string>, known: set<string>) {
    clean.Keys == raw.Keys
    && forall c :: c in raw ==> clean[c] == if c in columns && raw[c] !in known then "" else raw[c]
  }

  lemma TransferIsCleaned(raw: RawRow, known: set<string>)
    ensures ClubsCleaned(raw, SanitizedTransfer(raw, known), {"from_club_id", "to_club_id"}, known)
  {
  }

  lemma TransfersAreSelected(numerals: Numerals, rows: seq<RawRow>, ids: set<int>, known: set<string>)
    ensures var scoped := ScopedTransfers(numerals, rows, ids, known);
            && (scoped.None? <==> exists i :: 0 <= i < |rows| && Unreadable(numerals, rows[i], "player_id"))
            && (scoped.Some? ==> IsSelection(rows, scoped.value, raw => HasId(numerals, raw, "player_id", ids),
                                             (raw, taken) =>
                                               ClubsCleaned(raw, taken, {"from_club_id", "to_club_id"}, known)))
  {
    hide IsFilter, IsSelection, Filtered, SanitizedTransfer, ClubsCleaned;
    ValuationsAreSelected(numerals, rows, ids);
    var kept, scoped := ScopedByPlayer(numerals, rows, ids), ScopedTransfers(numerals, rows, ids, known);
    if kept.Some? {
      forall k | 0 <= k < |kept.value|
        ensures ClubsCleaned(kept.value[k], scoped.value[k], {"from_club_id", "to_club_id"}, known)
      {
        TransferIsCleaned(kept.value[k], known);
      }
      FilterTurns(rows, kept.value, scoped.value, raw => HasId(numerals, raw, "player_id", ids),
                   (raw, taken: RawRow) => ClubsCleaned(raw, taken, {"from_club_id", "to_club_id"}, known));
    }
  }

  // A line-up is taken if its player is known and its club is; the club is looked at for known players only.
  lemma LineupsAreSelected(numerals: Numerals, rows: seq<RawRow>, ids: set<int>, known: set<string>)
    ensures var scoped := ScopedLineups(numerals, rows, ids, known);
            && (scoped.None? <==> exists i :: 0 <= i < |rows|
                                    && (Unreadable(numerals, rows[i], "player_id")
                                        || (HasId(numerals, rows[i], "player_id", ids) && "club_id" !in rows[i])))
            && (scoped.Some? ==> IsFilter(rows, scoped.value,
                                          raw => HasId(numerals, raw, "player_id", ids)
                                                 && "club_id" in raw && raw["club_id"] in known))
  {
    hide IsFilter, Filtered;
    var keep := raw => LineupInScope(numerals, ids, known, raw);
    FilteredIsASelection(rows, keep);
    assert forall i :: 0 <= i < |rows| ==>
        (keep(rows[i]).None? <==> Unreadable(numerals, rows[i], "player_id")
                                  || (HasId(numerals, rows[i], "player_id", ids) && "club_id" !in rows[i]));
    if Filtered(rows, keep).Some? {
      FiltersAlike(rows, Filtered(rows, keep).value, raw => keep(raw) == Some(true),
                   raw => HasId(numerals, raw, "player_id", ids) && "club_id" in raw && raw["club_id"] in known);
    }
  }

  lemma ClubGamesAreSelected(numerals: Numerals, rows: seq<RawRow>, ids: set<int>, known: set<string>)
    ensures var scoped := ScopedClubGames(numerals, rows, ids, known);
            && (scoped.None? <==> exists i :: 0 <= i < |rows| && Unreadable(numerals, rows[i], "club_id"))
            && (scoped.Some? ==> IsSelection(rows, scoped.value, raw => HasId(numerals, raw, "club_id", ids),
                                             (raw, taken) => ClubsCleaned(raw, taken, {"opponent_id"}, known)))
  {
    hide IsFilter, Filtered;
    InScopeIsSelected(numerals, rows, "club_id", ids);
    var kept := Filtered(rows, raw => InScope(numerals, ids, "club_id", raw));
    var scoped := ScopedClubGames(numerals, rows, ids, known);
    if kept.Some? {
      FilterTurns(rows, kept.value, scoped.value, raw => HasId(numerals, raw, "club_id", ids),
                   (raw, taken: RawRow) => ClubsCleaned(raw, taken, {"opponent_id"}, known));
    }
  }

  const EVENT_PLAYERS := {"player_id", "player_in_id", "player_assist_id"}

  // An event concerns a known player or a club in scope.
  predicate EventConcerns(numerals: Numerals, raw: RawRow, playerIds: set<int>, clubIds: set<int>) {
    (IsFilled(raw, "player_id") && HasId(numerals, raw, "player_id", playerIds))
    || (IsFilled(raw, "club_id") && HasId(numerals, raw, "club_id", clubIds))
  }

  // Which event stops the stage: the player cell does not read, the club cell does not and the player did not
  // decide, or the event is taken and one of its other player cells does not read.
  predicate EventStops(numerals: Numerals, raw: RawRow, playerIds: set<int>, clubIds: set<int>) {
    || (IsFilled(raw, "player_id") && Unreadable(numerals, raw, "player_id"))
    || (!(IsFilled(raw, "player_id") && HasId(numerals, raw, "player_id", playerIds))
        && IsFilled(raw, "club_id") && Unreadable(numerals, raw, "club_id"))
    || (EventConcerns(numerals, raw, playerIds, clubIds)
        && exists c :: c in EVENT_PLAYERS && IsFilled(raw, c) && Unreadable(numerals, raw, c))
  }

  // Its club is blanked unless known by name, its players unless known by id.
  predicate EventCleaned(numerals: Numerals, raw: RawRow, clean: RawRow, playerIds: set<int>, known: set<string>) {
    clean.Keys == raw.Keys
    && forall c :: c in raw ==>
         clean[c] == if c == "club_id" && raw[c] !in known then ""
                     else if c in EVENT_PLAYERS && !HasId(numerals, raw, c, playerIds) then ""
                     else raw[c]
  }

  // One player cell: an unknown player is blanked, nothing else changes.
  predicate PlayerCleaned(numerals: Numerals, raw: RawRow, clean: RawRow, column: string, ids: set<int>) {
    && clean.Keys == raw.Keys && (forall c :: c in raw && c != column ==> clean[c] == raw[c])
    && (column in raw ==>
          clean[column] == if |raw[column]| == 0 || HasId(numerals, raw, column, ids) then raw[column] else "")
  }

  // Missing and empty cells stay; an unreadable one stops.
  lemma PlayerCellIsCleaned(numerals: Numerals, raw: RawRow, column: string, ids: set<int>)
    ensures var clean := SanitizePlayer(numerals, raw, column, ids);
            && (clean.None? <==> IsFilled(raw, column) && Unreadable(numerals, raw, column))
            && (clean.Some? ==> PlayerCleaned(numerals, raw, clean.value, column, ids))
  {
  }

  lemma HasIdElsewhere(numerals: Numerals, raw: RawRow, other: RawRow, column: string, ids: set<int>)
    requires column in raw <==> column in other
    requires column in raw ==> raw[column] == other[column]
    ensures HasId(numerals, raw, column, ids) <==> HasId(numerals, other, column, ids)
    ensures Unreadable(numerals, raw, column) <==> Unreadable(numerals, other, column)
    ensures IsFilled(raw, column) <==> IsFilled(other, column)
  {
  }

  lemma CleanedThrice(numerals: Numerals, raw: RawRow, club: RawRow, player: RawRow, playerIn: RawRow,
                      clean: RawRow, playerIds: set<int>, known: set<string>)
    requires ClubsCleaned(raw, club, {"club_id"}, known)
    requires PlayerCleaned(numerals, club, player, "player_id", playerIds)
    requires PlayerCleaned(numerals, player, playerIn, "player_in_id", playerIds)
    requires PlayerCleaned(numerals, playerIn, clean, "player_assist_id", playerIds)
    ensures EventCleaned(numerals, raw, clean, playerIds, known)
  {
    hide HasId, PlayerCleaned;
    assert raw.Keys == club.Keys == player.Keys == playerIn.Keys == clean.Keys by {
      CleanedElsewhere(numerals, club, player, "player_id", playerIds, "");
      CleanedElsewhere(numerals, player, playerIn, "player_in_id", playerIds, "");
      CleanedElsewhere(numerals, playerIn, clean, "player_assist_id", playerIds, "");
    }
    forall c | c in raw
      ensures clean[c] == if c == "club_id" && raw[c] !in known then ""
                          else if c in EVENT_PLAYERS && !HasId(numerals, raw, c, playerIds) then ""
                          else raw[c]
    {
      CleanedElsewhere(numerals, club, player, "player_id", playerIds, c);
      CleanedElsewhere(numerals, player, playerIn, "player_in_id", playerIds, c);
      CleanedElsewhere(numerals, playerIn, clean, "player_assist_id", playerIds, c);
      if c == "player_id" {
        HasIdElsewhere(numerals, raw, club, c, playerIds);
      } else if c == "player_in_id" {
        HasIdElsewhere(numerals, raw, player, c, playerIds);
      } else if c == "player_assist_id" {
        HasIdElsewhere(numerals, raw, playerIn, c, playerIds);
      }
    }
  }

  lemma CleanedElsewhere(numerals: Numerals, raw: RawRow, clean: RawRow, column: string, ids: set<int>, c: string)
    requires PlayerCleaned(numerals, raw, clean, column, ids)
    ensures clean.Keys == raw.Keys && (c in raw && c != column ==> clean[c] == raw[c])
    ensures c in raw && c == column ==> clean[c] == if HasId(numerals, raw, c, ids) then raw[c] else ""
  {
  }

  lemma EventClubIsCleaned(raw: RawRow, known: set<string>)
    ensures ClubsCleaned(raw, SanitizeClub(raw, "club_id", known), {"club_id"}, known)
  {
  }

  predicate StopsAt(numerals: Numerals, raw: RawRow, column: string) {
    IsFilled(raw, column) && Unreadable(numerals, raw, column)
  }

  lemma SomeCellStops(numerals: Numerals, raw: RawRow)
    ensures (exists c :: c in EVENT_PLAYERS && IsFilled(raw, c) && Unreadable(numerals, raw, c))
       <==> StopsAt(numerals, raw, "player_id") || StopsAt(numerals, raw, "player_in_id")
            || StopsAt(numerals, raw, "player_assist_id")
  {
    hide IsFilled, Unreadable;
    assert "player_id" in EVENT_PLAYERS && "player_in_id" in EVENT_PLAYERS && "player_assist_id" in EVENT_PLAYERS;
  }

  lemma StopsElsewhere(numerals: Numerals, raw: RawRow, other: RawRow, column: string)
    requires raw.Keys == other.Keys && (column in raw ==> raw[column] == other[column])
    ensures StopsAt(numerals, raw, column) <==> StopsAt(numerals, other, column)
  {
  }

  lemma EventIsCleaned(numerals: Numerals, raw: RawRow, playerIds: set<int>, known: set<string>)
    ensures var clean := SanitizedEvent(numerals, raw, playerIds, known);
            && (clean.None? <==> exists c :: c in EVENT_PLAYERS && IsFilled(raw, c) && Unreadable(numerals, raw, c))
            && (clean.Some? ==> EventCleaned(numerals, raw, clean.value, playerIds, known))
  {
    hide SanitizeClub, SanitizePlayer, HasId, EventCleaned, IsFilled, Unreadable;
    var club := SanitizeClub(raw, "club_id", known);
    EventClubIsCleaned(raw, known);
    SomeCellStops(numerals, raw);
    StopsElsewhere(numerals, raw, club, "player_id");
    StopsElsewhere(numerals, raw, club, "player_in_id");
    StopsElsewhere(numerals, raw, club, "player_assist_id");
    PlayerCellIsCleaned(numerals, club, "player_id", playerIds);
    var player := SanitizePlayer(numerals, club, "player_id", playerIds);
    if player.Some? {
      StopsElsewhere(numerals, club, player.value, "player_in_id");
      StopsElsewhere(numerals, club, player.value, "player_assist_id");
      PlayerCellIsCleaned(numerals, player.value, "player_in_id", playerIds);
      var playerIn := SanitizePlayer(numerals, player.value, "player_in_id", playerIds);
      if playerIn.Some? {
        StopsElsewhere(numerals, player.value, playerIn.value, "player_assist_id");
        PlayerCellIsCleaned(numerals, playerIn.value, "player_assist_id", playerIds);
        var clean := SanitizePlayer(numerals, playerIn.value, "player_assist_id", playerIds);
        if clean.Some? {
          CleanedThrice(numerals, raw, club, player.value, playerIn.value, clean.value, playerIds, known);
        }
      }
    }
  }

  lemma EventConcernsIff(numerals: Numerals, raw: RawRow, playerIds: set<int>, clubIds: set<int>)
    ensures var relevant := EventInScope(numerals, playerIds, clubIds, raw);
            && (relevant == Some(true) ==> EventConcerns(numerals, raw, playerIds, clubIds))
            && (relevant == Some(false) ==> !EventConcerns(numerals, raw, playerIds, clubIds))
            && (relevant.None? <==>
                  || (IsFilled(raw, "player_id") && Unreadable(numerals, raw, "player_id"))
                  || (!(IsFilled(raw, "player_id") && HasId(numerals, raw, "player_id", playerIds))
                      && IsFilled(raw, "club_id") && Unreadable(numerals, raw, "club_id")))
  {
  }

  lemma {:induction false} EventsAreSelected(numerals: Numerals, rows: seq<RawRow>, playerIds: set<int>,
                                             clubIds: set<int>, known: set<string>)
    ensures var scoped := ScopedEvents(numerals, rows, playerIds, clubIds, known);
            && (scoped.None? <==> exists i :: 0 <= i < |rows| && EventStops(numerals, rows[i], playerIds, clubIds))
            && (scoped.Some? ==> IsSelection(rows, scoped.value,
                                             raw => EventConcerns(numerals, raw, playerIds, clubIds),
                                             (raw, taken) => EventCleaned(numerals, raw, taken, playerIds, known)))
  {
    hide IsSelection, EventInScope, SanitizedEvent, EventCleaned, EventConcerns, EventStops;
    var wanted := raw => EventConcerns(numerals, raw, playerIds, clubIds);
    var becomes := (raw, taken: RawRow) => EventCleaned(numerals, raw, taken, playerIds, known);
    if |rows| == 0 {
      NothingSelected(wanted, becomes);
    } else {
      var before, last := rows[..|rows| - 1], rows[|rows| - 1];
      EventsAreSelected(numerals, before, playerIds, clubIds, known);
      assert rows == before + [last];
      assert rows[|rows| - 1] == last && forall i :: 0 <= i < |before| ==> rows[i] == before[i];
      var earlier := ScopedEvents(numerals, before, playerIds, clubIds, known);
      EventConcernsIff(numerals, last, playerIds, clubIds);
      EventIsCleaned(numerals, last, playerIds, known);
      EventStopsIff(numerals, last, playerIds, clubIds, known);
      if earlier.Some? {
        var clean := SanitizedEvent(numerals, last, playerIds, known);
        if !wanted(last) {
          SelectsNoMore(before, earlier.value, wanted, becomes, last);
        } else if clean.Some? {
          SelectsOneMore(before, earlier.value, wanted, becomes, last, clean.value);
        }
      }
    }
  }

  lemma EventStopsIff(numerals: Numerals, raw: RawRow, playerIds: set<int>, clubIds: set<int>, known: set<string>)
    ensures EventStops(numerals, raw, playerIds, clubIds)
       <==> || EventInScope(numerals, playerIds, clubIds, raw).None?
            || (EventInScope(numerals, playerIds, clubIds, raw) == Some(true)
                && SanitizedEvent(numerals, raw, playerIds, known).None?)
  {
    hide SanitizedEvent;
    EventConcernsIff(numerals, raw, playerIds, clubIds);
    EventIsCleaned(numerals, raw, playerIds, known);
  }

  /* ---- What the tables hold afterwards ---- */

  // What a reference column makes of its source cell: null where a reference that may be missing is empty or a
  // dash, else the number the cell reads as.
  predicate CellSays(numerals: Numerals, raw: RawRow, source: string, optional: bool, value: Value) {
    source in raw
    && if optional && (raw[source] == "" || Strip(raw[source]) == "-") then value == NullValue
       else numerals.read(raw[source]).Some? && value == Number(numerals.read(raw[source]).value)
  }

  // A column of every row that parses says what this cell says.
  predicate ComesFrom(numerals: Numerals, others: Others, references: map<string, Reference>, raw: RawRow,
                      column: string, source: string, optional: bool)
  {
    var row := ParseRow(numerals, others, references, raw);
    row.Some? ==> column in row.value && CellSays(numerals, raw, source, optional, row.value[column])
  }

  lemma ColumnComesFrom(numerals: Numerals, others: Others, references: map<string, Reference>, raw: RawRow,
                        column: string)
    requires column in references
    ensures ComesFrom(numerals, others, references, raw, column, references[column].source,
                      references[column].Optional?)
  {
    hide ParseRow, CellSays;
    if ParseRow(numerals, others, references, raw).Some? {
      ParsedCells(numerals, others, references, raw);
    }
  }

  // Which cell each reference column of each table is taken from, and which of them may be missing.
  lemma ColumnsOfPlayersAndClubs(numerals: Numerals, others: Others, raw: RawRow)
    ensures ComesFrom(numerals, others, CLUBS, raw, "club_id", "club_id", false)
    ensures ComesFrom(numerals, others, PLAYERS, raw, "player_id", "player_id", false)
    ensures ComesFrom(numerals, others, PLAYERS, raw, "current_club_id", "current_club_id", true)
    ensures ComesFrom(numerals, others, VALUATIONS, raw, "real_player_id", "player_id", false)
    ensures ComesFrom(numerals, others, TRANSFERS, raw, "real_player_id", "player_id", false)
    ensures ComesFrom(numerals, others, TRANSFERS, raw, "from_club_id", "from_club_id", true)
    ensures ComesFrom(numerals, others, TRANSFERS, raw, "to_club_id", "to_club_id", true)
  {
    hide ComesFrom;
    ColumnComesFrom(numerals, others, CLUBS, raw, "club_id");
    ColumnComesFrom(numerals, others, PLAYERS, raw, "player_id");
    ColumnComesFrom(numerals, others, PLAYERS, raw, "current_club_id");
    ColumnComesFrom(numerals, others, VALUATIONS, raw, "real_player_id");
    ColumnComesFrom(numerals, others, TRANSFERS, raw, "real_player_id");
    ColumnComesFrom(numerals, others, TRANSFERS, raw, "from_club_id");
    ColumnComesFrom(numerals, others, TRANSFERS, raw, "to_club_id");
  }

  lemma ColumnsOfMatchData(numerals: Numerals, others: Others, raw: RawRow)
    ensures ComesFrom(numerals, others, LINEUPS, raw, "real_player_id", "player_id", false)
    ensures ComesFrom(numerals, others, LINEUPS, raw, "real_club_id", "club_id", false)
    ensures ComesFrom(numerals, others, EVENTS, raw, "real_club_id", "club_id", true)
    ensures ComesFrom(numerals, others, EVENTS, raw, "real_player_id", "player_id", true)
    ensures ComesFrom(numerals, others, EVENTS, raw, "player_in_id", "player_in_id", true)
    ensures ComesFrom(numerals, others, EVENTS, raw, "assist_player_id", "player_assist_id", true)
    ensures ComesFrom(numerals, others, CLUB_GAMES, raw, "real_club_id", "club_id", false)
    ensures ComesFrom(numerals, others, CLUB_GAMES, raw, "opponent_club_id", "opponent_id", true)
  {
    hide ComesFrom;
    ColumnComesFrom(numerals, others, LINEUPS, raw, "real_player_id");
    ColumnComesFrom(numerals, others, LINEUPS, raw, "real_club_id");
    ColumnComesFrom(numerals, others, EVENTS, raw, "real_club_id");
    ColumnComesFrom(numerals, others, EVENTS, raw, "real_player_id");
    ColumnComesFrom(numerals, others, EVENTS, raw, "player_in_id");
    ColumnComesFrom(numerals, others, EVENTS, raw, "assist_player_id");
    ColumnComesFrom(numerals, others, CLUB_GAMES, raw, "real_club_id");
    ColumnComesFrom(numerals, others, CLUB_GAMES, raw, "opponent_club_id");
  }

  // An ingest that stops keeps the full chunks of five hundred rows before the row that does not parse.
  lemma StoppedIngestKeepsFiveHundreds(n: nat)
    ensures InFullChunks(n, CHUNK_SIZE) == n - n % 500
  {
  }

  // A parsed row: its reference columns say what their source cells say, the others are the format's own.
  lemma ParsedCells(numerals: Numerals, others: Others, references: map<string, Reference>, raw: RawRow)
    requires ParseRow(numerals, others, references, raw).Some?
    ensures var row := ParseRow(numerals, others, references, raw).value;
            && others.parse(raw).Some? && row.Keys == others.parse(raw).value.Keys + references.Keys
            && (forall c :: c in others.parse(raw).value && c !in references ==> row[c] == others.parse(raw).value[c])
            && (forall t :: t in references ==>
                  CellSays(numerals, raw, references[t].source, references[t].Optional?, row[t]))
  {
    hide Strip;
    forall t | t in references
      ensures ReferenceValue(numerals, raw, references[t]).Some?
      ensures ParseRow(numerals, others, references, raw).value[t]
           == ReferenceValue(numerals, raw, references[t]).value
    {
    }
  }

  // And only those rows fail to parse of which a cell is missing or does not read.
  lemma UnparsedCells(numerals: Numerals, others: Others, references: map<string, Reference>, raw: RawRow)
    ensures ParseRow(numerals, others, references, raw).None?
       <==> || others.parse(raw).None?
            || exists t :: t in references
                 && var source := references[t].source;
                    || source !in raw
                    || (numerals.read(raw[source]).None?
                        && !(references[t].Optional? && (raw[source] == "" || Strip(raw[source]) == "-")))
  {
    hide Strip;
  }

  // What a stage that ran did to its table, from the rows it was handed: every row of every position wanted is
  // there under its own key, each cell from the last such row, and no row that was there is gone.
  lemma StageHolds(numerals: Numerals, others: Others, references: map<string, Reference>, scoped: seq<RawRow>,
                   conflict: seq<string>, before: Table, after: Table, count: nat)
    requires Regular(others) && forall c :: c in conflict ==> c in others.columns + references.Keys
    requires StageRan(numerals, others, references, Some(scoped), false, conflict, before, after, Ok(count))
    ensures before.Keys <= after.Keys
    ensures forall i :: 0 <= i < |scoped| ==>
              ParseRow(numerals, others, references, scoped[i]).Some?
              && KeyOf(ParseRow(numerals, others, references, scoped[i]).value, conflict) in after
    ensures var rows := seq(|scoped|, i requires 0 <= i < |scoped|
                                                && ParseRow(numerals, others, references, scoped[i]).Some?
                                      => ParseRow(numerals, others, references, scoped[i]).value);
            && after.Keys == before.Keys + KeysOf(rows, conflict)
            && AllHave(rows, others.columns + references.Keys)
            && forall k, c :: CellAt(after, k, c)
                 == var last := LastOf(rows, conflict, k);
                    if last.Some? && c in last.value && (k !in before || c !in conflict) then Some(last.value[c])
                    else CellAt(before, k, c)
  {
    hide ParseRow, KeyOf, UpsertEach, ParsedPrefix;
    var spec := SpecFor(numerals, others, references, conflict);
    PrefixIsWhatParses(spec, scoped);
    var parsed := ParsedPrefix(spec, scoped);
    var rows := seq(|scoped|, i requires 0 <= i < |scoped|
                                        && ParseRow(numerals, others, references, scoped[i]).Some?
                              => ParseRow(numerals, others, references, scoped[i]).value);
    forall i | 0 <= i < |scoped| ensures ParseRow(numerals, others, references, scoped[i]) == Some(parsed[i]) {
      assert spec.parse(scoped[i]) == Some(parsed[i]);
    }
    assert rows == parsed;
    UpsertsKeepKeys(before, rows, conflict);
    KeysAfter(before, rows, conflict);
    SpecsAreUniform(numerals, others, references, conflict);
    PrefixIsUniform(spec, scoped);
    forall k, c ensures CellAt(after, k, c)
                     == var last := LastOf(rows, conflict, k);
                        if last.Some? && c in last.value && (k !in before || c !in conflict) then Some(last.value[c])
                        else CellAt(before, k, c)
    {
      UpsertedCell(before, rows, conflict, k, c, others.columns + references.Keys);
    }
  }

  // Each wanted row is in the table, as what it becomes.
  ghost predicate Stored(numerals: Numerals, others: Others, references: map<string, Reference>,
                         conflict: seq<string>, rows: seq<RawRow>, wanted: RawRow -> bool,
                         becomes: (RawRow, RawRow) -> bool, after: Table)
  {
    forall i :: 0 <= i < |rows| && wanted(rows[i]) ==>
      exists clean :: becomes(rows[i], clean) && ParseRow(numerals, others, references, clean).Some?
                      && KeyOf(ParseRow(numerals, others, references, clean).value, conflict) in after
  }

  lemma HandedOnAreThere(numerals: Numerals, others: Others, references: map<string, Reference>,
                         scoped: seq<RawRow>, conflict: seq<string>, before: Table, after: Table, count: nat)
    requires Regular(others) && forall c :: c in conflict ==> c in others.columns + references.Keys
    requires StageRan(numerals, others, references, Some(scoped), false, conflict, before, after, Ok(count))
    ensures forall i :: 0 <= i < |scoped| ==>
              ParseRow(numerals, others, references, scoped[i]).Some?
              && KeyOf(ParseRow(numerals, others, references, scoped[i]).value, conflict) in after
  {
    hide StageRan, KeyOf, ParseRow, LastOf, CellAt, AllHave, KeysOf, Regular;
    StageHolds(numerals, others, references, scoped, conflict, before, after, count);
  }

  lemma SelectedAreStored(numerals: Numerals, others: Others, references: map<string, Reference>,
                          rows: seq<RawRow>, scoped: seq<RawRow>, wanted: RawRow -> bool,
                          becomes: (RawRow, RawRow) -> bool, conflict: seq<string>, before: Table, after: Table,
                          count: nat)
    requires Regular(others) && forall c :: c in conflict ==> c in others.columns + references.Keys
    requires IsSelection(rows, scoped, wanted, becomes)
    requires StageRan(numerals, others, references, Some(scoped), false, conflict, before, after, Ok(count))
    ensures Stored(numerals, others, references, conflict, rows, wanted, becomes, after)
  {
    hide StageRan, KeyOf, ParseRow, Regular, IsSelection;
    HandedOnAreThere(numerals, others, references, scoped, conflict, before, after, count);
    forall i: nat | i < |rows| && wanted(rows[i])
      ensures exists clean :: becomes(rows[i], clean) && ParseRow(numerals, others, references, clean).Some?
                && KeyOf(ParseRow(numerals, others, references, clean).value, conflict) in after
    {
      var k := WantedIsTaken(rows, scoped, wanted, becomes, i);
    }
  }

  // After a sync of player-scoped tables that were not skipped: a valuation or transfer whose player cell reads
  // as a known player is in its table, and no cell was unreadable.
  lemma PlayerScopedHolds(f: Formats, source: Source, known: set<string>, ids: set<int>, valuations: (Table, Table),
                          transfers: (Table, Table), counts: (nat, nat))
    requires FormatsRegular(f)
    requires PlayerScopedRan(f, source, known, ids, false, valuations, transfers, counts)
    ensures forall i :: 0 <= i < |source.valuations| ==> !Unreadable(f.numerals, source.valuations[i], "player_id")
    ensures forall i :: 0 <= i < |source.transfers| ==> !Unreadable(f.numerals, source.transfers[i], "player_id")
    ensures Stored(f.numerals, f.valuations, VALUATIONS, ["real_player_id", "valuation_date"], source.valuations,
                   raw => HasId(f.numerals, raw, "player_id", ids), (raw, taken) => taken == raw, valuations.1)
    ensures Stored(f.numerals, f.transfers, TRANSFERS, ["real_player_id", "transfer_date"], source.transfers,
                   raw => HasId(f.numerals, raw, "player_id", ids),
                   (raw, taken) => ClubsCleaned(raw, taken, {"from_club_id", "to_club_id"}, known), transfers.1)
  {
    hide StageRan, IsFilter, IsSelection, ScopedByPlayer, ScopedTransfers, Stored, ClubsCleaned, Unreadable, HasId;
    ValuationsAreSelected(f.numerals, source.valuations, ids);
    TransfersAreSelected(f.numerals, source.transfers, ids, known);
    var kept := ScopedByPlayer(f.numerals, source.valuations, ids);
    var moved := ScopedTransfers(f.numerals, source.transfers, ids, known);
    RanIsReadable(f.numerals, f.valuations, VALUATIONS, kept, ["real_player_id", "valuation_date"], valuations.0,
                  valuations.1, counts.0);
    RanIsReadable(f.numerals, f.transfers, TRANSFERS, moved, ["real_player_id", "transfer_date"], transfers.0,
                  transfers.1, counts.1);
    FilterTurns(source.valuations, kept.value, kept.value, raw => HasId(f.numerals, raw, "player_id", ids),
                (raw, taken) => taken == raw);
    SelectedAreStored(f.numerals, f.valuations, VALUATIONS, source.valuations, kept.value,
                      raw => HasId(f.numerals, raw, "player_id", ids), (raw, taken) => taken == raw,
                      ["real_player_id", "valuation_date"], valuations.0, valuations.1, counts.0);
    SelectedAreStored(f.numerals, f.transfers, TRANSFERS, source.transfers, moved.value,
                      raw => HasId(f.numerals, raw, "player_id", ids),
                      (raw, taken) => ClubsCleaned(raw, taken, {"from_club_id", "to_club_id"}, known),
                      ["real_player_id", "transfer_date"], transfers.0, transfers.1, counts.1);
  }

  lemma RanIsReadable(numerals: Numerals, others: Others, references: map<string, Reference>,
                      scoped: Option<seq<RawRow>>, conflict: seq<string>, before: Table, after: Table, count: nat)
    requires StageRan(numerals, others, references, scoped, false, conflict, before, after, Ok(count))
    ensures scoped.Some?
  {
  }

  // An unreadable cell stops the stage and leaves its table, whatever the stage.
  lemma UnreadableStops(numerals: Numerals, others: Others, references: map<string, Reference>,
                        scoped: Option<seq<RawRow>>, conflict: seq<string>, before: Table, after: Table,
                        result: Result<nat, string>)
    requires StageRan(numerals, others, references, scoped, false, conflict, before, after, result)
    ensures scoped.None? ==> after == before && result.Err?
    ensures scoped.Some? ==>
              (result.Err? <==> exists i :: 0 <= i < |scoped.value|
                                  && ParseRow(numerals, others, references, scoped.value[i]).None?)
  {
    hide ParseRow, KeyOf, UpsertEach, ParsedPrefix;
    if scoped.Some? {
      var spec := SpecFor(numerals, others, references, conflict);
      PrefixIsWhatParses(spec, scoped.value);
      var n := |ParsedPrefix(spec, scoped.value)|;
      if n < |scoped.value| {
        assert ParseRow(numerals, others, references, scoped.value[n]).None?;
      } else {
        forall i | 0 <= i < |scoped.value|
          ensures ParseRow(numerals, others, references, scoped.value[i]).Some?
        {
          assert spec.parse(scoped.value[i]).Some?;
        }
      }
    }
  }

  // The same for the match data: line-ups of known players and clubs, events that concern a known player or a
  // club in scope, games of clubs in scope.
  lemma MatchDataHolds(f: Formats, source: Source, known: set<string>, scope: Scope, lineups: (Table, Table),
                       events: (Table, Table), clubGames: (Table, Table), counts: (nat, nat, nat))
    requires FormatsRegular(f)
    requires MatchDataRan(f, source, known, scope, false, lineups, events, clubGames, counts)
    ensures forall i :: 0 <= i < |source.lineups| ==> !Unreadable(f.numerals, source.lineups[i], "player_id")
    ensures forall i :: 0 <= i < |source.events| ==>
              !EventStops(f.numerals, source.events[i], scope.playerIds, scope.clubIds)
    ensures forall i :: 0 <= i < |source.clubGames| ==> !Unreadable(f.numerals, source.clubGames[i], "club_id")
    ensures Stored(f.numerals, f.lineups, LINEUPS, ["game_lineups_id"], source.lineups,
                   raw => HasId(f.numerals, raw, "player_id", scope.playerIds)
                          && "club_id" in raw && raw["club_id"] in known,
                   (raw, taken) => taken == raw, lineups.1)
    ensures Stored(f.numerals, f.events, EVENTS, ["game_event_id"], source.events,
                   raw => EventConcerns(f.numerals, raw, scope.playerIds, scope.clubIds),
                   (raw, taken) => EventCleaned(f.numerals, raw, taken, scope.playerIds, known), events.1)
    ensures Stored(f.numerals, f.clubGames, CLUB_GAMES, ["real_game_id", "real_club_id"], source.clubGames,
                   raw => HasId(f.numerals, raw, "club_id", scope.clubIds),
                   (raw, taken) => ClubsCleaned(raw, taken, {"opponent_id"}, known), clubGames.1)
  {
    hide StageRan, IsFilter, IsSelection, ScopedLineups, ScopedEvents, ScopedClubGames, Stored, ClubsCleaned,
         Unreadable, HasId, EventStops, EventConcerns, EventCleaned;
    LineupsAreSelected(f.numerals, source.lineups, scope.playerIds, known);
    EventsAreSelected(f.numerals, source.events, scope.playerIds, scope.clubIds, known);
    ClubGamesAreSelected(f.numerals, source.clubGames, scope.clubIds, known);
    var lined := ScopedLineups(f.numerals, source.lineups, scope.playerIds, known);
    var concerned := ScopedEvents(f.numerals, source.events, scope.playerIds, scope.clubIds, known);
    var played := ScopedClubGames(f.numerals, source.clubGames, scope.clubIds, known);
    RanIsReadable(f.numerals, f.lineups, LINEUPS, lined, ["game_lineups_id"], lineups.0, lineups.1, counts.0);
    RanIsReadable(f.numerals, f.events, EVENTS, concerned, ["game_event_id"], events.0, events.1, counts.1);
    RanIsReadable(f.numerals, f.clubGames, CLUB_GAMES, played, ["real_game_id", "real_club_id"], clubGames.0,
                  clubGames.1, counts.2);
    FilterTurns(source.lineups, lined.value, lined.value,
                raw => HasId(f.numerals, raw, "player_id", scope.playerIds)
                       && "club_id" in raw && raw["club_id"] in known,
                (raw, taken) => taken == raw);
    SelectedAreStored(f.numerals, f.lineups, LINEUPS, source.lineups, lined.value,
                      raw => HasId(f.numerals, raw, "player_id", scope.playerIds)
                             && "club_id" in raw && raw["club_id"] in known,
                      (raw, taken) => taken == raw, ["game_lineups_id"], lineups.0, lineups.1, counts.0);
    SelectedAreStored(f.numerals, f.events, EVENTS, source.events, concerned.value,
                      raw => EventConcerns(f.numerals, raw, scope.playerIds, scope.clubIds),
                      (raw, taken) => EventCleaned(f.numerals, raw, taken, scope.playerIds, known),
                      ["game_event_id"], events.0, events.1, counts.1);
    SelectedAreStored(f.numerals, f.clubGames, CLUB_GAMES, source.clubGames, played.value,
                      raw => HasId(f.numerals, raw, "club_id", scope.clubIds),
                      (raw, taken) => ClubsCleaned(raw, taken, {"opponent_id"}, known),
                      ["real_game_id", "real_club_id"], clubGames.0, clubGames.1, counts.2);
  }

  /* ---- Where the scope comes from ---- */

  // The clubs later stages may name, by text; the players and clubs in scope, by id. A club is in scope if some
  // player's row names it by a known text.
  lemma ScopeIsTheSources(numerals: Numerals, rows: seq<RawRow>, known: set<string>)
    ensures forall text :: text in TextsAt(rows, "club_id")
              <==> exists i :: 0 <= i < |rows| && "club_id" in rows[i] && rows[i]["club_id"] == text
    ensures forall id :: id in IdsAt(numerals, rows, "player_id")
              <==> exists i :: 0 <= i < |rows| && HasId(numerals, rows[i], "player_id", {id})
    ensures forall id :: id in IdsAtNonEmpty(numerals, SanitizedPlayers(rows, known), "current_club_id")
              <==> exists i :: 0 <= i < |rows| && IsFilled(rows[i], "current_club_id")
                               && rows[i]["current_club_id"] in known
                               && HasId(numerals, rows[i], "current_club_id", {id})
  {
    forall id ensures id in IdsAtNonEmpty(numerals, SanitizedPlayers(rows, known), "current_club_id")
              <==> exists i :: 0 <= i < |rows| && IsFilled(rows[i], "current_club_id")
                               && rows[i]["current_club_id"] in known
                               && HasId(numerals, rows[i], "current_club_id", {id})
    {
      var clean := SanitizedPlayers(rows, known);
      if id in IdsAtNonEmpty(numerals, clean, "current_club_id") {
        var i :| 0 <= i < |rows| && "current_club_id" in clean[i] && clean[i]["current_club_id"] != ""
                 && numerals.read(clean[i]["current_club_id"]) == Some(id);
        assert clean[i] == rows[i];
      }
      if i :| 0 <= i < |rows| && IsFilled(rows[i], "current_club_id") && rows[i]["current_club_id"] in known
              && HasId(numerals, rows[i], "current_club_id", {id}) {
        assert clean[i] == rows[i];
      }
    }
  }

  // Skipped stages take them from the tables instead: every stored id, and every club some stored player has.
  lemma StoredScope(table: Table)
    ensures forall id :: id in IdsOf(table) <==> [Number(id)] in table
    ensures forall id :: id in ClubsOf(table)
              <==> exists k :: k in table && "current_club_id" in table[k] && table[k]["current_club_id"] == Number(id)
  {
    forall id ensures id in IdsOf(table) <==> [Number(id)] in table {
      if id in IdsOf(table) {
        var k: Key :| k in table && |k| == 1 && k[0].Number? && k[0].n == id;
        assert k == [Number(id)];
      }
      if [Number(id)] in table {
        var k: Key := [Number(id)];
        assert k in table && |k| == 1 && k[0].Number? && k[0].n == id;
      }
    }
  }

  lemma PlayersAreCleaned(rows: seq<RawRow>, known: set<string>, i: nat)
    requires i < |rows|
    ensures |SanitizedPlayers(rows, known)| == |rows|
    ensures ClubsCleaned(rows[i], SanitizedPlayers(rows, known)[i], {"current_club_id"}, known)
  {
  }

  /* ---- Season statistics and candidates, cell by cell ---- */

  predicate Reads(numerals: Numerals, raw: RawRow, column: string, n: int) {
    column in raw && numerals.read(raw[column]) == Some(n)
  }

  predicate AppearanceReads(numerals: Numerals, raw: RawRow, a: SeasonStats.Appearance) {
    && Reads(numerals, raw, "player_id", a.playerId) && "game_id" in raw && raw["game_id"] == a.gameId
    && Reads(numerals, raw, "goals", a.goals) && Reads(numerals, raw, "assists", a.assists)
    && Reads(numerals, raw, "yellow_cards", a.yellowCards) && Reads(numerals, raw, "red_cards", a.redCards)
    && Reads(numerals, raw, "minutes_played", a.minutesPlayed)
  }

  const APPEARANCE_NUMBERS := {"goals", "assists", "yellow_cards", "red_cards", "minutes_played"}

  // The player cell of every row must read; the others only of rows that are taken.
  predicate AppearanceStops(numerals: Numerals, raw: RawRow, ids: set<int>) {
    || Unreadable(numerals, raw, "player_id")
    || (HasId(numerals, raw, "player_id", ids)
        && ("game_id" !in raw || exists c :: c in APPEARANCE_NUMBERS && Unreadable(numerals, raw, c)))
  }

  lemma AppearanceIsRead(numerals: Numerals, raw: RawRow)
    ensures var a := AppearanceOf(numerals, raw);
            && (a.Some? ==> AppearanceReads(numerals, raw, a.value))
            && (a.None? <==> Unreadable(numerals, raw, "player_id") || "game_id" !in raw
                             || exists c :: c in APPEARANCE_NUMBERS && Unreadable(numerals, raw, c))
  {
    assert "goals" in APPEARANCE_NUMBERS && "assists" in APPEARANCE_NUMBERS && "yellow_cards" in APPEARANCE_NUMBERS
           && "red_cards" in APPEARANCE_NUMBERS && "minutes_played" in APPEARANCE_NUMBERS;
  }

  lemma {:induction false} AppearancesAreSelected(numerals: Numerals, rows: seq<RawRow>, ids: set<int>)
    ensures var scoped := ScopedAppearances(numerals, rows, ids);
            && (scoped.None? <==> exists i :: 0 <= i < |rows| && AppearanceStops(numerals, rows[i], ids))
            && (scoped.Some? ==> IsSelection(rows, scoped.value, raw => HasId(numerals, raw, "player_id", ids),
                                             (raw, a) => AppearanceReads(numerals, raw, a)))
  {
    hide IsSelection, AppearanceReads, AppearanceOf;
    var wanted := raw => HasId(numerals, raw, "player_id", ids);
    var becomes := (raw, a: SeasonStats.Appearance) => AppearanceReads(numerals, raw, a);
    if |rows| == 0 {
      NothingSelected(wanted, becomes);
    } else {
      var before, last := rows[..|rows| - 1], rows[|rows| - 1];
      AppearancesAreSelected(numerals, before, ids);
      assert rows == before + [last];
      assert rows[|rows| - 1] == last && forall i :: 0 <= i < |before| ==> rows[i] == before[i];
      AppearanceIsRead(numerals, last);
      var earlier, read := ScopedAppearances(numerals, before, ids), AppearanceOf(numerals, last);
      if earlier.Some? {
        if !wanted(last) {
          SelectsNoMore(before, earlier.value, wanted, becomes, last);
        } else if read.Some? {
          SelectsOneMore(before, earlier.value, wanted, becomes, last, read.value);
        }
      }
    }
  }

  // The last row of an id says which season and competition the game belongs to.
  predicate SaysLast(rows: seq<RawRow>, i: nat, id: string, game: SeasonStats.Game) {
    && i < |rows| && "game_id" in rows[i] && rows[i]["game_id"] == id
    && "season" in rows[i] && rows[i]["season"] == game.season
    && "competition_id" in rows[i] && rows[i]["competition_id"] == game.competitionId
    && forall j :: i < j < |rows| ==> !("game_id" in rows[j] && rows[j]["game_id"] == id)
  }

  // A row with all the columns a game needs.
  predicate NamesAGame(raw: RawRow) {
    "game_id" in raw && "season" in raw && "competition_id" in raw
  }

  lemma {:induction false} GamesNeedTheirColumns(rows: seq<RawRow>)
    ensures GamesById(rows).Some? <==> forall i :: 0 <= i < |rows| ==> NamesAGame(rows[i])
    ensures GamesById(rows).Some? ==>
              forall i :: 0 <= i < |rows| ==> NamesAGame(rows[i]) && rows[i]["game_id"] in GamesById(rows).value
  {
    if |rows| > 0 {
      var before, last := rows[..|rows| - 1], rows[|rows| - 1];
      GamesNeedTheirColumns(before);
      assert rows[|rows| - 1] == last && forall i :: 0 <= i < |before| ==> rows[i] == before[i];
    }
  }

  lemma SaysLastStill(before: seq<RawRow>, last: RawRow, i: nat, id: string, game: SeasonStats.Game)
    requires SaysLast(before, i, id, game) && NamesAGame(last) && last["game_id"] != id
    ensures SaysLast(before + [last], i, id, game)
  {
  }

  lemma SaysLastNow(before: seq<RawRow>, last: RawRow)
    requires NamesAGame(last)
    ensures SaysLast(before + [last], |before|, last["game_id"],
                     SeasonStats.Game(last["season"], last["competition_id"]))
  {
  }

  lemma {:induction false} GamesAreTheirLastRows(rows: seq<RawRow>)
    requires GamesById(rows).Some?
    ensures forall id :: id in GamesById(rows).value ==>
              exists i: nat :: SaysLast(rows, i, id, GamesById(rows).value[id])
  {
    hide SaysLast;
    if |rows| > 0 {
      var before, last := rows[..|rows| - 1], rows[|rows| - 1];
      GamesAreTheirLastRows(before);
      assert before + [last] == rows;
      SaysLastNow(before, last);
      forall id | id in GamesById(rows).value && id != last["game_id"]
        ensures exists i: nat :: SaysLast(rows, i, id, GamesById(rows).value[id])
      {
        var i: nat :| SaysLast(before, i, id, GamesById(before).value[id]);
        SaysLastStill(before, last, i, id, GamesById(before).value[id]);
      }
    }
  }

  // One candidate for each row: the id its cell reads as, the rest from its profile.
  lemma {:induction false} CandidatesAreTheRows(numerals: Numerals, roster: Roster, rows: seq<RawRow>)
    ensures var parsed := ParsedCandidates(numerals, roster, rows);
            && (parsed.None? <==> exists i :: 0 <= i < |rows|
                                    && (Unreadable(numerals, rows[i], "player_id") || roster.profile(rows[i]).None?))
            && (parsed.Some? ==>
                  && |parsed.value| == |rows|
                  && forall i :: 0 <= i < |rows| ==>
                       && Reads(numerals, rows[i], "player_id", parsed.value[i].playerId)
                       && roster.profile(rows[i]).Some?
                       && var profile := roster.profile(rows[i]).value;
                          && parsed.value[i].fullName == profile.fullName
                          && parsed.value[i].dateOfBirth == profile.dateOfBirth
                          && parsed.value[i].heightCm == profile.heightCm
                          && parsed.value[i].nationalTeamId == profile.nationalTeamId)
  {
    if |rows| > 0 {
      var before, last := rows[..|rows| - 1], rows[|rows| - 1];
      CandidatesAreTheRows(numerals, roster, before);
      assert rows[|rows| - 1] == last && forall i :: 0 <= i < |before| ==> rows[i] == before[i];
    }
  }
}
