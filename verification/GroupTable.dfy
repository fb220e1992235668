/** Two independent computations of a group standing: the SQL table (both sides of every match, grouped by
    team) and the rule that walks a team's matches. */
module GroupTable {
  import opened Prelude

  datatype Match = Match(home: int, away: int, homeScore: int, awayScore: int, homePens: Option<int>,
                         awayPens: Option<int>, knockout: bool)

  datatype Letter = W | D | L

  /* ---- The rule, match by match ---- */

  predicate Plays(m: Match, team: int) { team == m.home || team == m.away }

  function IsHome(m: Match, team: int): bool { m.home == team }

  function ScoreFor(m: Match, team: int): int { if IsHome(m, team) then m.homeScore else m.awayScore }

  function ScoreAgainst(m: Match, team: int): int { if IsHome(m, team) then m.awayScore else m.homeScore }

  // The shoot-out score, where there is one, stands in for the goals.
  function Outcome(m: Match, team: int): Letter {
    if m.homePens.Some? && m.awayPens.Some? then
      var own := if IsHome(m, team) then m.homePens.value else m.awayPens.value;
      var other := if IsHome(m, team) then m.awayPens.value else m.homePens.value;
      if own > other then W else L
    else if ScoreFor(m, team) > ScoreAgainst(m, team) then W
    else if ScoreFor(m, team) < ScoreAgainst(m, team) then L
    else D
  }

  function TeamMatches(matches: seq<Match>, team: int): seq<Match> {
    if |matches| == 0 then []
    else
      var last := matches[|matches| - 1];
      TeamMatches(matches[..|matches| - 1], team) + (if Plays(last, team) then [last] else [])
  }

  function GroupMatches(matches: seq<Match>): seq<Match> {
    if |matches| == 0 then []
    else
      var last := matches[|matches| - 1];
      GroupMatches(matches[..|matches| - 1]) + (if !last.knockout then [last] else [])
  }

  datatype Record = Record(won: nat, drawn: nat, lost: nat, goalsFor: int, goalsAgainst: int, cleanSheets: nat)

  function CountOf(matches: seq<Match>, team: int, letter: Letter): nat {
    if |matches| == 0 then 0
    else
      CountOf(matches[..|matches| - 1], team, letter)
      + (if Outcome(matches[|matches| - 1], team) == letter then 1 else 0)
  }

  function GoalsFor(matches: seq<Match>, team: int): int {
    if |matches| == 0 then 0 else GoalsFor(matches[..|matches| - 1], team) + ScoreFor(matches[|matches| - 1], team)
  }

  function GoalsAgainst(matches: seq<Match>, team: int): int {
    if |matches| == 0 then 0
    else GoalsAgainst(matches[..|matches| - 1], team) + ScoreAgainst(matches[|matches| - 1], team)
  }

  function CleanSheets(matches: seq<Match>, team: int): nat {
    if |matches| == 0 then 0
    else
      CleanSheets(matches[..|matches| - 1], team)
      + (if ScoreAgainst(matches[|matches| - 1], team) == 0 then 1 else 0)
  }

  method RecordAndRates(team: int, played: seq<Match>) returns (record: Record, goalDifference: int)
    ensures record == Record(CountOf(played, team, W), CountOf(played, team, D), CountOf(played, team, L),
                             GoalsFor(played, team), GoalsAgainst(played, team), CleanSheets(played, team))
    ensures record.won + record.drawn + record.lost == |played|
    ensures goalDifference == GoalsFor(played, team) - GoalsAgainst(played, team)
  {
    var won, drawn, lost, goalsFor, goalsAgainst, cleanSheets := 0, 0, 0, 0, 0, 0;
    for i := 0 to |played|
      invariant won == CountOf(played[..i], team, W) && drawn == CountOf(played[..i], team, D)
      invariant lost == CountOf(played[..i], team, L) && won + drawn + lost == i
      invariant goalsFor == GoalsFor(played[..i], team) && goalsAgainst == GoalsAgainst(played[..i], team)
      invariant cleanSheets == CleanSheets(played[..i], team)
    {
      assert played[..i + 1][..i] == played[..i];
      var m := played[i];
      goalsFor := goalsFor + ScoreFor(m, team);
      goalsAgainst := goalsAgainst + ScoreAgainst(m, team);
      if ScoreAgainst(m, team) == 0 {
        cleanSheets := cleanSheets + 1;
      }
      match Outcome(m, team) {
        case W => won := won + 1;
        case D => drawn := drawn + 1;
        case L => lost := lost + 1;
      }
    }
    assert played[..|played|] == played;
    record := Record(won, drawn, lost, goalsFor, goalsAgainst, cleanSheets);
    goalDifference := goalsFor - goalsAgainst;
  }

  /* ---- The query ---- */

  // What a match is worth to the team that scored `score`; penalties, once taken, overrule the goals.
  function Points(score: int, opponentScore: int, pens: Option<int>, opponentPens: Option<int>): int {
    if pens.Some? && opponentPens.Some? then if pens.value > opponentPens.value then 3 else 0
    else if score > opponentScore then 3
    else if score == opponentScore then 1
    else 0
  }

  datatype Side = Side(team: int, points: int, goalDifference: int)

  function HomeSide(m: Match): Side {
    Side(m.home, Points(m.homeScore, m.awayScore, m.homePens, m.awayPens), m.homeScore - m.awayScore)
  }

  function AwaySide(m: Match): Side {
    Side(m.away, Points(m.awayScore, m.homeScore, m.awayPens, m.homePens), m.awayScore - m.homeScore)
  }

  // select ... where not knockout
  function SidesOf(matches: seq<Match>, side: Match -> Side): seq<Side> {
    if |matches| == 0 then []
    else
      var last := matches[|matches| - 1];
      SidesOf(matches[..|matches| - 1], side) + (if !last.knockout then [side(last)] else [])
  }

  function UnionAll(matches: seq<Match>): seq<Side> {
    SidesOf(matches, HomeSide) + SidesOf(matches, AwaySide)
  }

  function OfTeam(sides: seq<Side>, team: int): seq<Side> {
    if |sides| == 0 then []
    else
      var last := sides[|sides| - 1];
      OfTeam(sides[..|sides| - 1], team) + (if last.team == team then [last] else [])
  }

  function SumOf(sides: seq<Side>, column: Side -> int): int {
    if |sides| == 0 then 0 else SumOf(sides[..|sides| - 1], column) + column(sides[|sides| - 1])
  }

  datatype GroupFact = GroupFact(played: int, points: int, goalDifference: int)

  // group by team_id
  function GroupBy(sides: seq<Side>): map<int, GroupFact> {
    map team | team in (set i | 0 <= i < |sides| :: sides[i].team) ::
      var own := OfTeam(sides, team);
      GroupFact(|own|, SumOf(own, (s: Side) => s.points), SumOf(own, (s: Side) => s.goalDifference))
  }

  // A team without a group match has the empty fact.
  function Standing(matches: seq<Match>, team: int): GroupFact {
    var table := GroupBy(UnionAll(matches));
    if team in table then table[team] else GroupFact(0, 0, 0)
  }

  /* ---- They agree, unless a match is against oneself ---- */

  // The rule, over the team's group matches.
  function Ruled(matches: seq<Match>, team: int): GroupFact {
    var played := TeamMatches(GroupMatches(matches), team);
    GroupFact(|played|, 3 * CountOf(played, team, W) + CountOf(played, team, D),
              GoalsFor(played, team) - GoalsAgainst(played, team))
  }

  function SelfMatches(matches: seq<Match>, team: int): nat {
    if |matches| == 0 then 0
    else
      var last := matches[|matches| - 1];
      SelfMatches(matches[..|matches| - 1], team)
      + (if !last.knockout && last.home == team && last.away == team then 1 else 0)
  }

  function FactOf(own: seq<Side>): GroupFact {
    GroupFact(|own|, SumOf(own, (s: Side) => s.points), SumOf(own, (s: Side) => s.goalDifference))
  }

  function Together(a: GroupFact, b: GroupFact): GroupFact {
    GroupFact(a.played + b.played, a.points + b.points, a.goalDifference + b.goalDifference)
  }

  lemma {:induction false} OfTeamInTwo(first: seq<Side>, second: seq<Side>, team: int)
    ensures OfTeam(first + second, team) == OfTeam(first, team) + OfTeam(second, team)
  {
    if |second| == 0 {
      assert first + second == first;
    } else {
      OfTeamInTwo(first, second[..|second| - 1], team);
      assert (first + second)[..|first + second| - 1] == first + second[..|second| - 1];
    }
  }

  lemma {:induction false} SumInTwo(first: seq<Side>, second: seq<Side>, column: Side -> int)
    ensures SumOf(first + second, column) == SumOf(first, column) + SumOf(second, column)
  {
    if |second| == 0 {
      assert first + second == first;
    } else {
      SumInTwo(first, second[..|second| - 1], column);
      assert (first + second)[..|first + second| - 1] == first + second[..|second| - 1];
    }
  }

  lemma FactInTwo(first: seq<Side>, second: seq<Side>)
    ensures FactOf(first + second) == Together(FactOf(first), FactOf(second))
  {
    hide SumOf;
    SumInTwo(first, second, (s: Side) => s.points);
    SumInTwo(first, second, (s: Side) => s.goalDifference);
    var whole, parts := FactOf(first + second), Together(FactOf(first), FactOf(second));
    assert whole.points == parts.points;
    assert whole.goalDifference == parts.goalDifference;
    assert whole.played == parts.played;
  }

  // What one side of one match adds for the team.
  function SideFact(s: Side, team: int): GroupFact {
    if s.team == team then GroupFact(1, s.points, s.goalDifference) else GroupFact(0, 0, 0)
  }

  lemma OneMoreSide(sides: seq<Side>, s: Side, team: int)
    ensures FactOf(OfTeam(sides + [s], team)) == Together(FactOf(OfTeam(sides, team)), SideFact(s, team))
  {
    hide SumOf;
    OfTeamInTwo(sides, [s], team);
    assert [s][..0] == [];
    assert OfTeam([s][..0], team) == [];
    var own := OfTeam([s], team);
    assert own == if s.team == team then [s] else [];
    FactInTwo(OfTeam(sides, team), own);
    SingleFact(s);
  }

  lemma SingleFact(s: Side)
    ensures FactOf([s]) == GroupFact(1, s.points, s.goalDifference) && FactOf([]) == GroupFact(0, 0, 0)
  {
    assert [s][..0] == [];
    assert SumOf([s][..0], (x: Side) => x.points) == 0;
    assert SumOf([s][..0], (x: Side) => x.goalDifference) == 0;
  }

  // The union, one match at a time.
  function UnionFact(matches: seq<Match>, team: int): GroupFact {
    Together(FactOf(OfTeam(SidesOf(matches, HomeSide), team)), FactOf(OfTeam(SidesOf(matches, AwaySide), team)))
  }

  lemma UnionIsBothSides(matches: seq<Match>, team: int)
    ensures FactOf(OfTeam(UnionAll(matches), team)) == UnionFact(matches, team)
  {
    hide SumOf;
    OfTeamInTwo(SidesOf(matches, HomeSide), SidesOf(matches, AwaySide), team);
    FactInTwo(OfTeam(SidesOf(matches, HomeSide), team), OfTeam(SidesOf(matches, AwaySide), team));
  }

  function MatchFact(m: Match, team: int): GroupFact {
    if m.knockout then GroupFact(0, 0, 0) else Together(SideFact(HomeSide(m), team), SideFact(AwaySide(m), team))
  }

  lemma UnionOneMore(before: seq<Match>, m: Match, team: int)
    ensures UnionFact(before + [m], team) == Together(UnionFact(before, team), MatchFact(m, team))
  {
    hide FactOf, OfTeam, SideFact, Together, HomeSide, AwaySide;
    assert (before + [m])[..|before|] == before;
    var homes, aways := SidesOf(before, HomeSide), SidesOf(before, AwaySide);
    if m.knockout {
      assert homes + [] == homes && aways + [] == aways;
      TogetherWithNothing(UnionFact(before, team));
    } else {
      OneMoreSide(homes, HomeSide(m), team);
      OneMoreSide(aways, AwaySide(m), team);
      TogetherSwaps(FactOf(OfTeam(homes, team)), SideFact(HomeSide(m), team),
                    FactOf(OfTeam(aways, team)), SideFact(AwaySide(m), team));
    }
  }

  lemma TogetherWithNothing(a: GroupFact)
    ensures Together(a, GroupFact(0, 0, 0)) == a
  {
  }

  // What the rule adds for one group match of the team.
  function RuleFact(m: Match, team: int): GroupFact {
    if m.knockout || !Plays(m, team) then GroupFact(0, 0, 0)
    else GroupFact(1, if Outcome(m, team) == W then 3 else if Outcome(m, team) == D then 1 else 0,
                   ScoreFor(m, team) - ScoreAgainst(m, team))
  }

  lemma RuledOneMore(before: seq<Match>, m: Match, team: int)
    ensures Ruled(before + [m], team) == Together(Ruled(before, team), RuleFact(m, team))
  {
    hide Outcome, ScoreFor, ScoreAgainst;
    assert (before + [m])[..|before|] == before;
    var group := GroupMatches(before);
    assert (group + [m])[..|group|] == group;
    assert group + [] == group;
    var played := TeamMatches(group, team);
    assert (played + [m])[..|played|] == played;
    assert played + [] == played;
  }

  function LetterPoints(letter: Letter): int {
    match letter
    case W => 3
    case D => 1
    case L => 0
  }

  // Seen from either side, the points are the rule's.
  lemma HomePointsFollowTheRule(m: Match)
    ensures HomeSide(m).points == LetterPoints(Outcome(m, m.home))
    ensures HomeSide(m).goalDifference == ScoreFor(m, m.home) - ScoreAgainst(m, m.home)
  {
  }

  lemma AwayPointsFollowTheRule(m: Match)
    requires m.home != m.away
    ensures AwaySide(m).points == LetterPoints(Outcome(m, m.away))
    ensures AwaySide(m).goalDifference == ScoreFor(m, m.away) - ScoreAgainst(m, m.away)
  {
  }

  lemma BothSidesFollowTheRule(m: Match, team: int)
    requires !(m.home == team && m.away == team)
    ensures MatchFact(m, team) == RuleFact(m, team)
  {
    hide Outcome, Points, ScoreFor, ScoreAgainst;
    HomePointsFollowTheRule(m);
    if m.home != m.away {
      AwayPointsFollowTheRule(m);
    }
  }

  lemma {:induction false} UnionFollowsTheRule(matches: seq<Match>, team: int)
    ensures UnionFact(matches, team).played == Ruled(matches, team).played + SelfMatches(matches, team)
    ensures SelfMatches(matches, team) == 0 ==> UnionFact(matches, team) == Ruled(matches, team)
  {
    hide UnionFact, Ruled;
    if |matches| == 0 {
      NoMatches(team);
    } else {
      var before, m := matches[..|matches| - 1], matches[|matches| - 1];
      UnionFollowsTheRule(before, team);
      assert before + [m] == matches;
      UnionOneMore(before, m, team);
      RuledOneMore(before, m, team);
      if !(m.home == team && m.away == team) {
        BothSidesFollowTheRule(m, team);
      }
    }
  }

  lemma NoMatches(team: int)
    ensures UnionFact([], team) == GroupFact(0, 0, 0)
    ensures Ruled([], team) == GroupFact(0, 0, 0)
  {
    NoneOfTheUnion(team);
    NoneOfTheRule(team);
  }

  lemma NoneOfTheUnion(team: int)
    ensures UnionFact([], team) == GroupFact(0, 0, 0)
  {
    hide SidesOf, OfTeam, FactOf, Together;
    NoSidesOf(team);
    NoSides();
    NothingTogether();
  }

  lemma NothingTogether()
    ensures Together(GroupFact(0, 0, 0), GroupFact(0, 0, 0)) == GroupFact(0, 0, 0)
  {
  }

  lemma NoneOfTheRule(team: int)
    ensures Ruled([], team) == GroupFact(0, 0, 0)
  {
    hide TeamMatches, GroupMatches, CountOf, GoalsFor, GoalsAgainst;
    NoSidesOf(team);
    NothingCounts(team);
  }

  lemma NoSidesOf(team: int)
    ensures OfTeam(SidesOf([], HomeSide), team) == [] == OfTeam(SidesOf([], AwaySide), team)
    ensures TeamMatches(GroupMatches([]), team) == []
  {
  }

  lemma NothingCounts(team: int)
    ensures CountOf([], team, W) == 0 && CountOf([], team, D) == 0
    ensures GoalsFor([], team) == 0 && GoalsAgainst([], team) == 0
  {
  }

  lemma {:induction false} OfTeamIsEmptyIff(sides: seq<Side>, team: int)
    ensures OfTeam(sides, team) == [] <==> team !in (set i | 0 <= i < |sides| :: sides[i].team)
  {
    if |sides| > 0 {
      var before, last := sides[..|sides| - 1], sides[|sides| - 1];
      OfTeamIsEmptyIff(before, team);
      assert forall i :: 0 <= i < |before| ==> before[i] == sides[i];
      if team in (set i | 0 <= i < |sides| :: sides[i].team) && last.team != team {
        var i :| 0 <= i < |sides| && sides[i].team == team;
        assert before[i].team == team;
      }
      assert last.team == sides[|sides| - 1].team;
    }
  }

  lemma StandingIsTheFact(matches: seq<Match>, team: int)
    ensures Standing(matches, team) == FactOf(OfTeam(UnionAll(matches), team))
  {
    hide OfTeam, SumOf, UnionAll;
    OfTeamIsEmptyIff(UnionAll(matches), team);
    NoSides();
  }

  lemma NoSides()
    ensures FactOf([]) == GroupFact(0, 0, 0)
  {
  }

  // The query and the rule give the same standing exactly when no group match pits the team against
  // itself: such a match is two rows of the union and one match of the rule.
  lemma QueryIsTheRuleIff(matches: seq<Match>, team: int)
    ensures Standing(matches, team) == Ruled(matches, team) <==> SelfMatches(matches, team) == 0
  {
    hide Standing, Ruled, UnionFact, FactOf, OfTeam;
    StandingIsTheFact(matches, team);
    UnionIsBothSides(matches, team);
    UnionFollowsTheRule(matches, team);
  }

  /* ---- Conservation ---- */

  predicate Distinct(teams: seq<int>) { forall i, j :: 0 <= i < j < |teams| ==> teams[i] != teams[j] }

  function TotalFact(matches: seq<Match>, teams: seq<int>): GroupFact {
    if |teams| == 0 then GroupFact(0, 0, 0)
    else Together(TotalFact(matches, teams[..|teams| - 1]), Standing(matches, teams[|teams| - 1]))
  }

  // What one match adds over all teams.
  function WholeMatch(m: Match): GroupFact {
    if m.knockout then GroupFact(0, 0, 0) else GroupFact(2, HomeSide(m).points + AwaySide(m).points, 0)
  }

  function Whole(matches: seq<Match>): GroupFact {
    if |matches| == 0 then GroupFact(0, 0, 0)
    else Together(Whole(matches[..|matches| - 1]), WholeMatch(matches[|matches| - 1]))
  }

  lemma StandingOneMore(before: seq<Match>, m: Match, team: int)
    ensures Standing(before + [m], team) == Together(Standing(before, team), MatchFact(m, team))
  {
    hide Standing, UnionFact, FactOf, OfTeam, UnionAll, MatchFact;
    StandingIsTheFact(before, team);
    StandingIsTheFact(before + [m], team);
    UnionIsBothSides(before, team);
    UnionIsBothSides(before + [m], team);
    UnionOneMore(before, m, team);
  }

  function PartOf(m: Match, teams: seq<int>): GroupFact {
    if |teams| == 0 then GroupFact(0, 0, 0)
    else Together(PartOf(m, teams[..|teams| - 1]), MatchFact(m, teams[|teams| - 1]))
  }

  lemma {:induction false} TotalOneMore(before: seq<Match>, m: Match, teams: seq<int>)
    ensures TotalFact(before + [m], teams) == Together(TotalFact(before, teams), PartOf(m, teams))
  {
    hide Standing, MatchFact, Together;
    if |teams| == 0 {
      NothingTogether();
    } else {
      var earlier, last := teams[..|teams| - 1], teams[|teams| - 1];
      TotalOneMore(before, m, earlier);
      StandingOneMore(before, m, last);
      TogetherSwaps(TotalFact(before, earlier), PartOf(m, earlier), Standing(before, last), MatchFact(m, last));
    }
  }

  lemma {:induction false} NobodyPlayed(teams: seq<int>)
    ensures TotalFact([], teams) == GroupFact(0, 0, 0)
  {
    if |teams| > 0 {
      NobodyPlayed(teams[..|teams| - 1]);
    }
  }

  function Falls(s: Side, teams: seq<int>): GroupFact {
    if s.team in teams then SideFact(s, s.team) else GroupFact(0, 0, 0)
  }

  lemma InOneMore(team: int, before: seq<int>, last: int)
    ensures team in before + [last] <==> team in before || team == last
  {
  }

  lemma FallsOneMore(s: Side, before: seq<int>, last: int)
    requires last !in before
    ensures Falls(s, before + [last]) == Together(Falls(s, before), SideFact(s, last))
  {
    InOneMore(s.team, before, last);
    if s.team == last {
      assert Falls(s, before + [last]) == GroupFact(1, s.points, s.goalDifference);
    } else if s.team in before {
      assert Falls(s, before + [last]) == GroupFact(1, s.points, s.goalDifference);
      assert SideFact(s, last) == GroupFact(0, 0, 0);
    } else {
      assert Falls(s, before + [last]) == GroupFact(0, 0, 0);
    }
  }

  lemma TogetherSwaps(a: GroupFact, b: GroupFact, c: GroupFact, d: GroupFact)
    ensures Together(Together(a, b), Together(c, d)) == Together(Together(a, c), Together(b, d))
  {
  }

  // Each side of a match falls to one team of a list without duplicates.
  lemma {:induction false} MatchFallsToItsTeams(m: Match, teams: seq<int>)
    requires Distinct(teams) && !m.knockout
    ensures PartOf(m, teams) == Together(Falls(HomeSide(m), teams), Falls(AwaySide(m), teams))
  {
    hide HomeSide, AwaySide, SideFact, Falls, Together;
    if |teams| == 0 {
      NobodyListed(m);
      NothingTogether();
    } else {
      var before, last := teams[..|teams| - 1], teams[|teams| - 1];
      MatchFallsToItsTeams(m, before);
      assert teams == before + [last];
      FallsOneMore(HomeSide(m), before, last);
      FallsOneMore(AwaySide(m), before, last);
      TogetherSwaps(Falls(HomeSide(m), before), Falls(AwaySide(m), before), SideFact(HomeSide(m), last),
                    SideFact(AwaySide(m), last));
    }
  }

  lemma NobodyListed(m: Match)
    ensures Falls(HomeSide(m), []) == GroupFact(0, 0, 0) == Falls(AwaySide(m), [])
  {
  }

  lemma KnockoutFallsToNone(m: Match, teams: seq<int>)
    requires m.knockout
    ensures PartOf(m, teams) == GroupFact(0, 0, 0)
  {
    if |teams| > 0 {
      KnockoutFallsToNone(m, teams[..|teams| - 1]);
    }
  }

  predicate Listed(matches: seq<Match>, teams: seq<int>) {
    forall i :: 0 <= i < |matches| ==> matches[i].home in teams && matches[i].away in teams
  }

  // Over any list of all teams without duplicates: every group match is played twice, its points are
  // shared out once, and the goal differences cancel.
  lemma {:induction false} StandingsConserve(matches: seq<Match>, teams: seq<int>)
    requires Distinct(teams) && Listed(matches, teams)
    ensures TotalFact(matches, teams) == Whole(matches)
    ensures TotalFact(matches, teams).goalDifference == 0
    ensures TotalFact(matches, teams).played == 2 * |GroupMatches(matches)|
  {
    hide TotalFact, PartOf, Points;
    if |matches| == 0 {
      NobodyPlayed(teams);
    } else {
      var before, m := matches[..|matches| - 1], matches[|matches| - 1];
      StandingsConserve(before, teams);
      assert before + [m] == matches;
      TotalOneMore(before, m, teams);
      if m.knockout {
        KnockoutFallsToNone(m, teams);
      } else {
        MatchFallsToItsTeams(m, teams);
      }
    }
  }
}
