/** Season statistics: appearances grouped by player, season and competition, then uploaded in chunks. */
module SeasonStats {
  import opened Prelude
  import opened Ingestion

  datatype Counts = Counts(appearances: int, goals: int, assists: int, yellowCards: int, redCards: int,
                           minutesPlayed: int)

  const NONE := Counts(0, 0, 0, 0, 0, 0)

  function Plus(a: Counts, b: Counts): Counts {
    Counts(a.appearances + b.appearances, a.goals + b.goals, a.assists + b.assists,
           a.yellowCards + b.yellowCards, a.redCards + b.redCards, a.minutesPlayed + b.minutesPlayed)
  }

  datatype Appearance = Appearance(playerId: int, gameId: string, goals: int, assists: int, yellowCards: int,
                                   redCards: int, minutesPlayed: int)

  datatype Game = Game(season: string, competitionId: string)

  type Games = map<string, Game>

  datatype GroupKey = GroupKey(playerId: int, season: string, competitionId: string)

  datatype Group = Group(key: GroupKey, counts: Counts)

  function CountsOf(row: Appearance): Counts {
    Counts(1, row.goals, row.assists, row.yellowCards, row.redCards, row.minutesPlayed)
  }

  function Sum(rows: seq<Appearance>): Counts {
    if |rows| == 0 then NONE else Plus(Sum(rows[..|rows| - 1]), CountsOf(rows[|rows| - 1]))
  }

  // The sum of one column.
  function ColumnSum(rows: seq<Appearance>, column: Appearance -> int): int {
    if |rows| == 0 then 0 else ColumnSum(rows[..|rows| - 1], column) + column(rows[|rows| - 1])
  }

  // A group's counts are how many appearances it has and the sum of each of their columns.
  lemma {:induction false} SumIsByColumn(rows: seq<Appearance>)
    ensures var sum := Sum(rows);
            && sum.appearances == |rows|
            && sum.goals == ColumnSum(rows, (row: Appearance) => row.goals)
            && sum.assists == ColumnSum(rows, (row: Appearance) => row.assists)
            && sum.yellowCards == ColumnSum(rows, (row: Appearance) => row.yellowCards)
            && sum.redCards == ColumnSum(rows, (row: Appearance) => row.redCards)
            && sum.minutesPlayed == ColumnSum(rows, (row: Appearance) => row.minutesPlayed)
  {
    if |rows| > 0 {
      SumIsByColumn(rows[..|rows| - 1]);
    }
  }

  predicate GamesKnown(rows: seq<Appearance>, games: Games) {
    forall i :: 0 <= i < |rows| ==> rows[i].gameId in games
  }

  function KeyFor(row: Appearance, games: Games): GroupKey
    requires row.gameId in games
  {
    GroupKey(row.playerId, games[row.gameId].season, games[row.gameId].competitionId)
  }

  // The appearances of one group.
  function Own(rows: seq<Appearance>, games: Games, key: GroupKey): seq<Appearance>
    requires GamesKnown(rows, games)
  {
    if |rows| == 0 then []
    else
      var last := rows[|rows| - 1];
      Own(rows[..|rows| - 1], games, key) + (if KeyFor(last, games) == key then [last] else [])
  }

  // They are those of the player in games of the season and competition, each as often as it occurs.
  lemma {:induction false} OwnAreThePlayers(rows: seq<Appearance>, games: Games, key: GroupKey)
    requires GamesKnown(rows, games)
    ensures forall row :: multiset(Own(rows, games, key))[row] ==
              if row.playerId == key.playerId && row.gameId in games && games[row.gameId].season == key.season
                 && games[row.gameId].competitionId == key.competitionId
              then multiset(rows)[row] else 0
  {
    if |rows| > 0 {
      var before, last := rows[..|rows| - 1], rows[|rows| - 1];
      OwnAreThePlayers(before, games, key);
      assert rows == before + [last];
      forall row | row in multiset(rows) ensures row.gameId in games {
        assert row in rows;
      }
    }
  }

  predicate Unique(order: seq<GroupKey>) {
    forall i, j :: 0 <= i < j < |order| ==> order[i] != order[j]
  }

  lemma SumOneMore(rows: seq<Appearance>, row: Appearance)
    ensures Sum(rows + [row]) == Plus(Sum(rows), CountsOf(row))
  {
    assert (rows + [row])[..|rows|] == rows;
  }

  lemma OwnOneMore(rows: seq<Appearance>, row: Appearance, games: Games, key: GroupKey)
    requires GamesKnown(rows, games) && row.gameId in games
    ensures GamesKnown(rows + [row], games)
    ensures Own(rows + [row], games, key) == Own(rows, games, key) + (if KeyFor(row, games) == key then [row] else [])
    ensures Sum(Own(rows + [row], games, key))
         == if KeyFor(row, games) == key then Plus(Sum(Own(rows, games, key)), CountsOf(row))
            else Sum(Own(rows, games, key))
  {
    hide Sum, Plus;
    assert (rows + [row])[..|rows|] == rows;
    SumOneMore(Own(rows, games, key), row);
    assert Own(rows, games, key) + [] == Own(rows, games, key);
  }

  // A key has a group exactly when some appearance belongs to it.
  ghost predicate Grouped(rows: seq<Appearance>, games: Games, order: seq<GroupKey>, groups: map<GroupKey, Counts>)
    requires GamesKnown(rows, games)
  {
    && Unique(order) && (forall key :: key in order <==> key in groups)
    && (forall key :: key in groups <==> Own(rows, games, key) != [])
    && (forall key :: key in groups ==> groups[key] == Sum(Own(rows, games, key)))
  }

  lemma GroupedOneMore(rows: seq<Appearance>, row: Appearance, games: Games, order: seq<GroupKey>,
                       groups: map<GroupKey, Counts>)
    requires GamesKnown(rows, games) && row.gameId in games && Grouped(rows, games, order, groups)
    ensures GamesKnown(rows + [row], games)
    ensures var key := KeyFor(row, games);
            var before := if key in groups then groups[key] else NONE;
            Grouped(rows + [row], games, if key in groups then order else order + [key],
                    groups[key := Plus(before, CountsOf(row))])
  {
    hide Own, Sum, Plus;
    OwnOneMore(rows, row, games, KeyFor(row, games));
    NothingSumsToNone();
    forall key
      ensures Own(rows + [row], games, key)
           == Own(rows, games, key) + (if KeyFor(row, games) == key then [row] else [])
      ensures KeyFor(row, games) != key ==> Sum(Own(rows + [row], games, key)) == Sum(Own(rows, games, key))
    {
      OwnOneMore(rows, row, games, key);
    }
  }

  lemma NothingSumsToNone()
    ensures Sum([]) == NONE
  {
  }

  // One group for each key some appearance belongs to, each the sum of its own appearances; nothing is
  // lost or counted twice.
  ghost predicate Aggregated(rows: seq<Appearance>, games: Games, groups: seq<Group>)
    requires GamesKnown(rows, games)
  {
    && OneGroupPerKey(groups)
    && (forall key :: (exists i :: 0 <= i < |groups| && groups[i].key == key) <==> Own(rows, games, key) != [])
    && (forall i :: 0 <= i < |groups| ==> groups[i].counts == Sum(Own(rows, games, groups[i].key)))
    && TotalOf(groups) == Sum(rows)
  }

  // An appearance of an unknown game stops the aggregation.
  method Aggregate(rows: seq<Appearance>, games: Games) returns (result: Result<seq<Group>, string>)
    ensures result.Ok? <==> GamesKnown(rows, games)
    ensures result.Ok? ==> Aggregated(rows, games, result.value)
    ensures result.Err? ==> exists i :: 0 <= i < |rows| && rows[i].gameId !in games && result.error == rows[i].gameId
                                        && GamesKnown(rows[..i], games)
  {
    hide Own, Sum, Plus, TotalOf;
    var order: seq<GroupKey> := [];
    var groups: map<GroupKey, Counts> := map[];
    NoRowsNoGroups(games);
    for i := 0 to |rows|
      invariant GamesKnown(rows[..i], games) && Grouped(rows[..i], games, order, groups)
    {
      var row := rows[i];
      if row.gameId !in games {
        return Err(row.gameId);
      }
      assert rows[..i + 1] == rows[..i] + [row];
      GroupedOneMore(rows[..i], row, games, order, groups);
      var key := KeyFor(row, games);
      if key !in groups {
        order := order + [key];
        groups := groups[key := NONE];
      }
      groups := groups[key := Plus(groups[key], CountsOf(row))];
    }
    assert rows[..|rows|] == rows;
    var list := seq(|order|, i requires 0 <= i < |order| && order[i] in groups => Group(order[i], groups[order[i]]));
    GroupsConserve(rows, games, order, groups, list);
    forall key ensures key in order <==> exists i :: 0 <= i < |list| && list[i].key == key {
      if key in order {
        var i :| 0 <= i < |order| && order[i] == key;
        assert list[i].key == key;
      }
    }
    result := Ok(list);
  }

  lemma NoRowsNoGroups(games: Games)
    ensures Grouped([], games, [], map[])
  {
  }

  /* ---- Nothing is lost or counted twice ---- */

  function TotalOf(groups: seq<Group>): Counts {
    if |groups| == 0 then NONE else Plus(TotalOf(groups[..|groups| - 1]), groups[|groups| - 1].counts)
  }

  // The sum, over the keys, of each key's own appearances.
  function TotalOver(rows: seq<Appearance>, games: Games, order: seq<GroupKey>): Counts
    requires GamesKnown(rows, games)
  {
    if |order| == 0 then NONE
    else Plus(TotalOver(rows, games, order[..|order| - 1]), Sum(Own(rows, games, order[|order| - 1])))
  }

  lemma PlusSwaps(a: Counts, b: Counts, c: Counts)
    ensures Plus(Plus(a, b), c) == Plus(Plus(a, c), b)
    ensures Plus(a, Plus(b, c)) == Plus(Plus(a, b), c)
  {
  }

  lemma {:induction false} OneRowAddsToOneGroup(rows: seq<Appearance>, row: Appearance, games: Games,
                                                order: seq<GroupKey>)
    requires GamesKnown(rows, games) && row.gameId in games && Unique(order)
    ensures GamesKnown(rows + [row], games)
    ensures TotalOver(rows + [row], games, order)
         == if KeyFor(row, games) in order then Plus(TotalOver(rows, games, order), CountsOf(row))
            else TotalOver(rows, games, order)
  {
    hide Own, Sum, Plus;
    if |order| > 0 {
      var before, last := order[..|order| - 1], order[|order| - 1];
      OneRowAddsToOneGroup(rows, row, games, before);
      OwnOneMore(rows, row, games, last);
      PlusSwaps(TotalOver(rows, games, before), Sum(Own(rows, games, last)), CountsOf(row));
      PlusSwaps(TotalOver(rows, games, before), CountsOf(row), Sum(Own(rows, games, last)));
    }
  }

  lemma {:induction false} NothingInNoRows(games: Games, order: seq<GroupKey>)
    ensures TotalOver([], games, order) == NONE
  {
    if |order| > 0 {
      NothingInNoRows(games, order[..|order| - 1]);
    }
  }

  lemma {:induction false} TotalsExchange(rows: seq<Appearance>, games: Games, order: seq<GroupKey>)
    requires GamesKnown(rows, games) && Unique(order)
    requires forall i :: 0 <= i < |rows| ==> KeyFor(rows[i], games) in order
    ensures TotalOver(rows, games, order) == Sum(rows)
  {
    hide Own, TotalOver, Plus;
    if |rows| == 0 {
      NothingInNoRows(games, order);
    } else {
      var before, last := rows[..|rows| - 1], rows[|rows| - 1];
      TotalsExchange(before, games, order);
      OneRowAddsToOneGroup(before, last, games, order);
      assert before + [last] == rows;
    }
  }

  lemma {:induction false} ListTotals(rows: seq<Appearance>, games: Games, order: seq<GroupKey>, list: seq<Group>)
    requires GamesKnown(rows, games) && |list| == |order|
    requires forall i :: 0 <= i < |list| ==> list[i] == Group(order[i], Sum(Own(rows, games, order[i])))
    ensures TotalOf(list) == TotalOver(rows, games, order)
  {
    hide Own, Sum, Plus;
    if |list| > 0 {
      ListTotals(rows, games, order[..|order| - 1], list[..|list| - 1]);
    }
  }

  lemma {:induction false} OwnHasItsRow(rows: seq<Appearance>, games: Games, i: nat)
    requires GamesKnown(rows, games) && i < |rows|
    ensures Own(rows, games, KeyFor(rows[i], games)) != []
  {
    if i < |rows| - 1 {
      OwnHasItsRow(rows[..|rows| - 1], games, i);
    }
  }

  lemma GroupsConserve(rows: seq<Appearance>, games: Games, order: seq<GroupKey>, groups: map<GroupKey, Counts>,
                       list: seq<Group>)
    requires GamesKnown(rows, games) && Grouped(rows, games, order, groups) && |list| == |order|
    requires forall i :: 0 <= i < |list| ==> order[i] in groups && list[i] == Group(order[i], groups[order[i]])
    ensures TotalOf(list) == Sum(rows)
  {
    hide Own, Sum, Plus, TotalOf, TotalOver;
    forall i | 0 <= i < |rows| ensures KeyFor(rows[i], games) in order {
      OwnHasItsRow(rows, games, i);
    }
    TotalsExchange(rows, games, order);
    ListTotals(rows, games, order, list);
  }

  /* ---- The upload ---- */

  const CHUNK_SIZE := 500

  const CONFLICT := ["real_player_id", "season", "competition_id"]

  function GroupRow(g: Group): Row {
    map["real_player_id" := Number(g.key.playerId), "season" := Text(g.key.season),
        "competition_id" := Text(g.key.competitionId), "appearances" := Number(g.counts.appearances),
        "goals" := Number(g.counts.goals), "assists" := Number(g.counts.assists),
        "yellow_cards" := Number(g.counts.yellowCards), "red_cards" := Number(g.counts.redCards),
        "minutes_played" := Number(g.counts.minutesPlayed)]
  }

  function RowsOf(groups: seq<Group>): seq<Row> {
    seq(|groups|, i requires 0 <= i < |groups| => GroupRow(groups[i]))
  }

  predicate OneGroupPerKey(groups: seq<Group>) {
    forall i, j :: 0 <= i < j < |groups| ==> groups[i].key != groups[j].key
  }

  lemma GroupRowKeepsItsKey(g: Group)
    ensures KeyOf(GroupRow(g), CONFLICT) == [Number(g.key.playerId), Text(g.key.season), Text(g.key.competitionId)]
  {
    var row := GroupRow(g);
    assert row["real_player_id"] == Number(g.key.playerId);
    assert row["season"] == Text(g.key.season);
    assert row["competition_id"] == Text(g.key.competitionId);
  }

  lemma GroupRowsHaveDistinctKeys(groups: seq<Group>)
    requires OneGroupPerKey(groups)
    ensures DistinctKeys(RowsOf(groups), CONFLICT)
  {
    hide KeyOf, GroupRow;
    forall i, j | 0 <= i < j < |groups| ensures KeyOf(RowsOf(groups)[i], CONFLICT) != KeyOf(RowsOf(groups)[j], CONFLICT)
    {
      GroupRowKeepsItsKey(groups[i]);
      GroupRowKeepsItsKey(groups[j]);
      assert groups[i].key != groups[j].key;
      assert KeyOf(RowsOf(groups)[i], CONFLICT)[0] == Number(groups[i].key.playerId);
    }
  }

  // The row of a group, column by column.
  lemma GroupRowSays(g: Group)
    ensures var row := GroupRow(g);
            && row["appearances"] == Number(g.counts.appearances) && row["goals"] == Number(g.counts.goals)
            && row["assists"] == Number(g.counts.assists) && row["yellow_cards"] == Number(g.counts.yellowCards)
            && row["red_cards"] == Number(g.counts.redCards)
            && row["minutes_played"] == Number(g.counts.minutesPlayed)
  {
  }

  function StatColumns(): set<string> { GroupRow(Group(GroupKey(0, "", ""), NONE)).Keys }

  lemma GroupRowsAreUniform(groups: seq<Group>)
    ensures AllHave(RowsOf(groups), StatColumns()) && Covers(StatColumns(), CONFLICT)
  {
    forall i | 0 <= i < |groups| ensures RowsOf(groups)[i].Keys == StatColumns() {
      assert GroupRow(groups[i]).Keys == StatColumns();
    }
  }

  lemma NothingWritten(table: Table)
    ensures UpsertEach(table, [], CONFLICT) == table
  {
  }

  // Every group goes into exactly one statement, no statement is refused, and the table ends as if the
  // groups had been written one by one.
  method Upload(groups: seq<Group>, table: TargetTable) returns (total: nat)
    requires OneGroupPerKey(groups) && table.conflict == CONFLICT
    modifies table
    ensures total == |groups|
    ensures table.rows == UpsertEach(old(table.rows), RowsOf(groups), CONFLICT)
  {
    hide UpsertEach, AfterStatement, KeyOf, GroupRow, StatColumns, AllHave, Covers, DistinctKeys;
    total := 0;
    var start := 0;
    ghost var all := RowsOf(groups);
    NothingWritten(table.rows);
    assert all[..0] == [];
    while start < |groups|
      invariant 0 <= start && total == (if start < |groups| then start else |groups|)
      invariant table.rows == UpsertEach(old(table.rows), all[..total], CONFLICT)
      decreases |groups| - start
    {
      var end := if start + CHUNK_SIZE < |groups| then start + CHUNK_SIZE else |groups|;
      var chunk := groups[start..end];
      assert RowsOf(chunk) == all[start..end];
      GroupRowsHaveDistinctKeys(chunk);
      GroupRowsAreUniform(chunk);
      ghost var before := table.rows;
      var result := table.UpsertMany(RowsOf(chunk));
      RowByRowIsTheStatement(before, RowsOf(chunk), CONFLICT, StatColumns());
      UpsertInTwo(old(table.rows), all[..start], all[start..end], CONFLICT);
      assert all[..start] + all[start..end] == all[..end];
      total := total + result.value;
      start := start + CHUNK_SIZE;
    }
    assert all[..|all|] == all;
  }
}
