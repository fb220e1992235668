/** Matching roster players to Transfermarkt players: exact tiers first, then the best fuzzy name. */
module IdentityMatching {
  import opened Prelude
  import opened Rounding

  datatype Player = Player(id: int, teamId: int, name: string, dateOfBirth: int, heightCm: int)

  datatype RealCandidate = RealCandidate(playerId: int, fullName: string, dateOfBirth: Option<int>,
                                         heightCm: Option<int>, nationalTeamId: Option<int>)

  // Name normalisation and name similarity are arbitrary.
  datatype Names = Names(normalize: string -> string, similarity: (string, string) -> real)

  datatype MatchMethod = ExactNameDob | ExactNameTeam | FuzzyName | Manual

  // Confidence in thousandths.
  datatype Candidate = Candidate(playerId: int, realPlayerId: int, matchMethod: MatchMethod, confidence: int)

  const FUZZY_FLOOR := 85.0
  const FUZZY_MIN := 850
  const FUZZY_MAX := 949
  const CORROBORATED := 950

  datatype Verdict = Exact(matchMethod: MatchMethod, confidence: int) | Fuzzy(corroborated: bool, score: real) | NoMatch

  predicate Corroborated(player: Player, candidate: RealCandidate) {
    candidate.dateOfBirth == Some(player.dateOfBirth) && candidate.heightCm == Some(player.heightCm)
  }

  // What one candidate is worth, on its own.
  function Judge(names: Names, player: Player, expectedTeam: Option<int>, c: RealCandidate): Verdict {
    var own, other := names.normalize(player.name), names.normalize(c.fullName);
    if own == other && c.dateOfBirth == Some(player.dateOfBirth) then Exact(ExactNameDob, 1000)
    else if own == other && expectedTeam.Some? && expectedTeam == c.nationalTeamId then Exact(ExactNameTeam, 950)
    else
      var score := if own == other then 100.0 else names.similarity(own, other);
      if score < FUZZY_FLOOR then NoMatch else Fuzzy(Corroborated(player, c), score)
  }

  // Corroboration outranks any score.
  predicate Outranks(a: Verdict, b: Verdict)
    requires a.Fuzzy? && b.Fuzzy?
  {
    (a.corroborated && !b.corroborated) || (a.corroborated == b.corroborated && a.score > b.score)
  }

  function Unrounded(score: real): real {
    var capped := if score < 100.0 then score else 100.0;
    var ratio := (capped - FUZZY_FLOOR) / (100.0 - FUZZY_FLOOR);
    var confidence := FUZZY_MIN as real + ratio * (FUZZY_MAX - FUZZY_MIN) as real;
    if confidence < FUZZY_MAX as real then confidence else FUZZY_MAX as real
  }

  function Scaled(score: real): int { HalfEven(Unrounded(score)) }

  function Confidence(v: Verdict): int
    requires !v.NoMatch?
  {
    match v
    case Exact(_, confidence) => confidence
    case Fuzzy(corroborated, score) => if corroborated then CORROBORATED else Scaled(score)
  }

  function CandidateFor(player: Player, c: RealCandidate, v: Verdict): Candidate
    requires !v.NoMatch?
  {
    Candidate(player.id, c.playerId, if v.Exact? then v.matchMethod else FuzzyName, Confidence(v))
  }

  /* ---- The match, without a loop ---- */

  // i is the earliest candidate that meets an exact tier.
  predicate FirstExact(names: Names, player: Player, team: Option<int>, reals: seq<RealCandidate>, i: nat) {
    && i < |reals| && Judge(names, player, team, reals[i]).Exact?
    && forall j :: 0 <= j < i ==> !Judge(names, player, team, reals[j]).Exact?
  }

  // i is the earliest candidate of the highest rank.
  predicate FirstBest(names: Names, player: Player, team: Option<int>, reals: seq<RealCandidate>, i: nat) {
    && i < |reals| && Judge(names, player, team, reals[i]).Fuzzy?
    && forall j :: 0 <= j < |reals| && Judge(names, player, team, reals[j]).Fuzzy? ==>
         if j < i then Outranks(Judge(names, player, team, reals[i]), Judge(names, player, team, reals[j]))
         else !Outranks(Judge(names, player, team, reals[j]), Judge(names, player, team, reals[i]))
  }

  predicate NoneIs(names: Names, player: Player, team: Option<int>, reals: seq<RealCandidate>, exact: bool,
                   fuzzy: bool)
  {
    forall j :: 0 <= j < |reals| ==>
      && (exact ==> !Judge(names, player, team, reals[j]).Exact?)
      && (fuzzy ==> !Judge(names, player, team, reals[j]).Fuzzy?)
  }

  // The earliest exact candidate if there is one, else the earliest best fuzzy one, else none.
  ghost predicate Chosen(names: Names, player: Player, team: Option<int>, reals: seq<RealCandidate>,
                         result: Option<Candidate>)
  {
    || (exists i: nat :: FirstExact(names, player, team, reals, i)
                    && result == Some(CandidateFor(player, reals[i], Judge(names, player, team, reals[i]))))
    || (NoneIs(names, player, team, reals, true, false)
        && exists i: nat :: FirstBest(names, player, team, reals, i)
                       && result == Some(CandidateFor(player, reals[i], Judge(names, player, team, reals[i]))))
    || (NoneIs(names, player, team, reals, true, true) && result == None)
  }

  method MatchOne(names: Names, player: Player, reals: seq<RealCandidate>, teams: map<int, int>)
    returns (result: Option<Candidate>)
    ensures Chosen(names, player, Expected(player, teams), reals, result)
  {
    var team := Expected(player, teams);
    var own := names.normalize(player.name);
    var best: Option<(nat, real, bool)> := None;
    for i := 0 to |reals|
      invariant NoneIs(names, player, team, reals[..i], true, best.None?)
      invariant best.Some? ==>
                  FirstBest(names, player, team, reals[..i], best.value.0)
                  && Judge(names, player, team, reals[best.value.0]) == Fuzzy(best.value.2, best.value.1)
    {
      var c := reals[i];
      ghost var verdict := Judge(names, player, team, c);
      ghost var before, now := reals[..i], reals[..i + 1];
      assert now == before + [c];
      var other := names.normalize(c.fullName);
      var score := 100.0;
      if own == other {
        if c.dateOfBirth == Some(player.dateOfBirth) {
          FirstExactHere(names, player, team, reals, i);
          return Some(Candidate(player.id, c.playerId, ExactNameDob, 1000));
        }
        if team.Some? && team == c.nationalTeamId {
          FirstExactHere(names, player, team, reals, i);
          return Some(Candidate(player.id, c.playerId, ExactNameTeam, 950));
        }
      } else {
        score := names.similarity(own, other);
      }
      NoneIsOneMore(names, player, team, before, c, best.None?);
      if score < FUZZY_FLOOR {
        BestStays(names, player, team, before, c, best);
        continue;
      }
      var corroborated := Corroborated(player, c);
      assert verdict == Fuzzy(corroborated, score);
      if best.None? || (corroborated && !best.value.2) || (corroborated == best.value.2 && score > best.value.1) {
        BestMoves(names, player, team, before, c, best);
        best := Some((i, score, corroborated));
      } else {
        BestStays(names, player, team, before, c, best);
      }
    }
    assert reals[..|reals|] == reals;
    if best.None? {
      return None;
    }
    var confidence := if best.value.2 then CORROBORATED else Scaled(best.value.1);
    result := Some(Candidate(player.id, reals[best.value.0].playerId, FuzzyName, confidence));
    assert result == Some(CandidateFor(player, reals[best.value.0], Judge(names, player, team, reals[best.value.0])));
  }

  function Expected(player: Player, teams: map<int, int>): Option<int> {
    if player.teamId in teams then Some(teams[player.teamId]) else None
  }

  lemma FirstExactHere(names: Names, player: Player, team: Option<int>, reals: seq<RealCandidate>, i: nat)
    requires i < |reals| && NoneIs(names, player, team, reals[..i], true, false)
    requires Judge(names, player, team, reals[i]).Exact?
    ensures FirstExact(names, player, team, reals, i)
  {
    hide Judge;
    forall j | 0 <= j < i ensures !Judge(names, player, team, reals[j]).Exact? {
      assert reals[..i][j] == reals[j];
    }
  }

  lemma NoneIsOneMore(names: Names, player: Player, team: Option<int>, before: seq<RealCandidate>, c: RealCandidate,
                      fuzzy: bool)
    requires NoneIs(names, player, team, before, true, fuzzy) && !Judge(names, player, team, c).Exact?
    ensures NoneIs(names, player, team, before + [c], true, fuzzy && !Judge(names, player, team, c).Fuzzy?)
  {
    hide Judge;
  }

  lemma BestStays(names: Names, player: Player, team: Option<int>, before: seq<RealCandidate>, c: RealCandidate,
                  best: Option<(nat, real, bool)>)
    requires best.Some? ==> FirstBest(names, player, team, before, best.value.0)
    requires Judge(names, player, team, c).Fuzzy? ==>
               best.Some? && !Outranks(Judge(names, player, team, c), Judge(names, player, team, before[best.value.0]))
    ensures best.Some? ==> FirstBest(names, player, team, before + [c], best.value.0)
  {
    hide Judge;
  }

  lemma BestMoves(names: Names, player: Player, team: Option<int>, before: seq<RealCandidate>, c: RealCandidate,
                  best: Option<(nat, real, bool)>)
    requires Judge(names, player, team, c).Fuzzy?
    requires best.Some? ==> FirstBest(names, player, team, before, best.value.0)
                            && Outranks(Judge(names, player, team, c), Judge(names, player, team, before[best.value.0]))
    requires best.None? ==> NoneIs(names, player, team, before, false, true)
    ensures FirstBest(names, player, team, before + [c], |before|)
  {
    hide Judge;
  }

  // The choice is unique: whatever computes it, the same player gets the same candidate.
  lemma ChosenIsOne(names: Names, player: Player, team: Option<int>, reals: seq<RealCandidate>,
                    a: Option<Candidate>, b: Option<Candidate>)
    requires Chosen(names, player, team, reals, a) && Chosen(names, player, team, reals, b)
    ensures a == b
  {
    hide Judge, CandidateFor;
    forall i: nat, j: nat | FirstExact(names, player, team, reals, i) && FirstExact(names, player, team, reals, j)
      ensures i == j
    {
    }
    forall i: nat, j: nat | FirstBest(names, player, team, reals, i) && FirstBest(names, player, team, reals, j)
      ensures i == j
    {
    }
  }

  /* ---- All players ---- */

  // Each player's choice, or nothing, in roster order.
  ghost predicate Matched(names: Names, players: seq<Player>, reals: seq<RealCandidate>, teams: map<int, int>,
                          candidates: seq<Candidate>)
  {
    if |players| == 0 then candidates == []
    else
      var before, last := players[..|players| - 1], players[|players| - 1];
      var team := Expected(last, teams);
      || (Chosen(names, last, team, reals, None) && Matched(names, before, reals, teams, candidates))
      || (|candidates| > 0 && Chosen(names, last, team, reals, Some(candidates[|candidates| - 1]))
          && Matched(names, before, reals, teams, candidates[..|candidates| - 1]))
  }

  method Match(names: Names, players: seq<Player>, reals: seq<RealCandidate>, teams: map<int, int>)
    returns (candidates: seq<Candidate>)
    ensures Matched(names, players, reals, teams, candidates)
  {
    hide Chosen;
    candidates := [];
    for i := 0 to |players|
      invariant Matched(names, players[..i], reals, teams, candidates)
    {
      assert players[..i + 1][..i] == players[..i];
      var found := MatchOne(names, players[i], reals, teams);
      if found.Some? {
        ghost var before := candidates;
        candidates := candidates + [found.value];
        assert candidates[..|before|] == before;
      }
    }
    assert players[..|players|] == players;
  }

  // What a candidate can be: one of the roster, one of the real players, judged as the tiers say.
  ghost predicate Sourced(names: Names, players: seq<Player>, reals: seq<RealCandidate>, teams: map<int, int>,
                          c: Candidate)
  {
    exists p, r :: p in players && r in reals && !Judge(names, p, Expected(p, teams), r).NoMatch?
      && c == CandidateFor(p, r, Judge(names, p, Expected(p, teams), r))
  }

  lemma ChosenIsSourced(names: Names, players: seq<Player>, player: Player, reals: seq<RealCandidate>,
                        teams: map<int, int>, c: Candidate)
    requires player in players && Chosen(names, player, Expected(player, teams), reals, Some(c))
    ensures Sourced(names, players, reals, teams, c) && c.playerId == player.id
  {
    hide Judge, CandidateFor;
    var team := Expected(player, teams);
    var i: nat :| i < |reals| && !Judge(names, player, team, reals[i]).NoMatch?
                  && c == CandidateFor(player, reals[i], Judge(names, player, team, reals[i]));
    CandidateIsForThePlayer(player, reals[i], Judge(names, player, team, reals[i]));
    assert reals[i] in reals;
  }

  lemma CandidateIsForThePlayer(player: Player, c: RealCandidate, v: Verdict)
    requires !v.NoMatch?
    ensures CandidateFor(player, c, v).playerId == player.id && CandidateFor(player, c, v).realPlayerId == c.playerId
  {
  }

  predicate DistinctPlayers(players: seq<Player>) {
    forall i, j :: 0 <= i < j < |players| ==> players[i].id != players[j].id
  }

  // A roster without duplicates yields at most one candidate per player, each from the two lists.
  lemma {:induction false} MatchedAreSourced(names: Names, players: seq<Player>, reals: seq<RealCandidate>,
                                             teams: map<int, int>, candidates: seq<Candidate>)
    requires Matched(names, players, reals, teams, candidates)
    ensures forall i :: 0 <= i < |candidates| ==> Sourced(names, players, reals, teams, candidates[i])
                                                  && exists p :: p in players && p.id == candidates[i].playerId
    ensures DistinctPlayers(players) ==>
              forall i, j :: 0 <= i < j < |candidates| ==> candidates[i].playerId != candidates[j].playerId
  {
    hide Chosen, Sourced;
    if |players| > 0 {
      var before, last := players[..|players| - 1], players[|players| - 1];
      var team := Expected(last, teams);
      if Chosen(names, last, team, reals, None) && Matched(names, before, reals, teams, candidates) {
        MatchedAreSourced(names, before, reals, teams, candidates);
        MoreSources(names, before, players, reals, teams, candidates);
      } else {
        var n := |candidates| - 1;
        MatchedAreSourced(names, before, reals, teams, candidates[..n]);
        MoreSources(names, before, players, reals, teams, candidates[..n]);
        ChosenIsSourced(names, players, last, reals, teams, candidates[n]);
        assert forall i :: 0 <= i < n ==> candidates[..n][i] == candidates[i];
      }
    }
  }

  lemma MoreSources(names: Names, fewer: seq<Player>, more: seq<Player>, reals: seq<RealCandidate>,
                    teams: map<int, int>, candidates: seq<Candidate>)
    requires forall p :: p in fewer ==> p in more
    requires forall i :: 0 <= i < |candidates| ==> Sourced(names, fewer, reals, teams, candidates[i])
    ensures forall i :: 0 <= i < |candidates| ==> Sourced(names, more, reals, teams, candidates[i])
  {
    hide Judge, CandidateFor;
  }

  /* ---- Confidence ---- */

  // Uncorroborated confidence stays below the acceptance line, from the floor up, and never falls as the score rises.
  lemma ScaledStaysInItsBand(score: real)
    requires score >= FUZZY_FLOOR
    ensures FUZZY_MIN <= Scaled(score) <= FUZZY_MAX
    ensures score == FUZZY_FLOOR ==> Scaled(score) == FUZZY_MIN
    ensures score >= 100.0 ==> Scaled(score) == FUZZY_MAX
  {
    WholeNumbersStay(FUZZY_MIN);
    WholeNumbersStay(FUZZY_MAX);
    HalfEvenIsMonotone(FUZZY_MIN as real, Unrounded(score));
    HalfEvenIsMonotone(Unrounded(score), FUZZY_MAX as real);
  }

  // The upper end is reached by rounding: from about 99.924 up.
  lemma BelowTheMaximumIff(score: real)
    requires score >= FUZZY_FLOOR
    ensures Scaled(score) < FUZZY_MAX <==> 198.0 * (score - 85.0) <= 2955.0
  {
    assert score <= 100.0 ==> Unrounded(score) == 850.0 + (score - 85.0) / 15.0 * 99.0;
    assert Unrounded(score) <= 948.5 <==> 198.0 * (score - 85.0) <= 2955.0;
  }

  lemma ScaledIsMonotone(low: real, high: real)
    requires low <= high
    ensures Scaled(low) <= Scaled(high)
  {
    assert Unrounded(low) <= Unrounded(high);
    HalfEvenIsMonotone(Unrounded(low), Unrounded(high));
  }

  // The uncorroborated confidence is the whole number next to the point that the score marks on the way from
  // 850 at a score of 85 to 949 at 100.
  lemma ScaledIsNearest(score: real)
    requires 85.0 <= score <= 100.0
    ensures var point := 850.0 + 6.6 * (score - 85.0); point - 0.5 <= Scaled(score) as real <= point + 0.5
  {
    assert Unrounded(score) == 850.0 + (score - 85.0) / 15.0 * 99.0;
  }

  // What the verdict is taken from. The name is compared in its normal form, the teams through the mapping of
  // the player's team; a name that agrees but nothing else counts as a full score.
  lemma VerdictIsTheEvidence(names: Names, player: Player, teams: map<int, int>, c: RealCandidate)
    ensures var v := Judge(names, player, Expected(player, teams), c);
            var same := names.normalize(player.name) == names.normalize(c.fullName);
            var score := if same then 100.0
                         else names.similarity(names.normalize(player.name), names.normalize(c.fullName));
            var born := c.dateOfBirth.Some? && c.dateOfBirth.value == player.dateOfBirth;
            var tall := c.heightCm.Some? && c.heightCm.value == player.heightCm;
            var together := player.teamId in teams && c.nationalTeamId == Some(teams[player.teamId]);
            && (v == Exact(ExactNameDob, 1000) <==> same && born)
            && (v == Exact(ExactNameTeam, 950) <==> same && !born && together)
            && (v == NoMatch <==> !same && score < 85.0)
            && (v.Fuzzy? <==> score >= 85.0 && !(same && (born || together)))
            && (v.Fuzzy? ==> v.score == score && (v.corroborated <==> born && tall))
  {
  }

  // So a candidate goes through without a review, at 950 thousandths or more, exactly on these grounds.
  lemma AutoAcceptedIff(names: Names, player: Player, teams: map<int, int>, c: RealCandidate)
    requires !Judge(names, player, Expected(player, teams), c).NoMatch?
    ensures var same := names.normalize(player.name) == names.normalize(c.fullName);
            var born := c.dateOfBirth.Some? && c.dateOfBirth.value == player.dateOfBirth;
            var tall := c.heightCm.Some? && c.heightCm.value == player.heightCm;
            var together := player.teamId in teams && c.nationalTeamId == Some(teams[player.teamId]);
            CandidateFor(player, c, Judge(names, player, Expected(player, teams), c)).confidence >= 950
            <==> (same && (born || together)) || (born && tall)
  {
    VerdictIsTheEvidence(names, player, teams, c);
    AcceptedIffExactOrCorroborated(names, player, Expected(player, teams), c);
  }

  // A verdict reaches the acceptance line exactly when it was exact or corroborated.
  lemma AcceptedIffExactOrCorroborated(names: Names, player: Player, team: Option<int>, c: RealCandidate)
    requires !Judge(names, player, team, c).NoMatch?
    ensures var v := Judge(names, player, team, c);
            Confidence(v) >= CORROBORATED <==> v.Exact? || Corroborated(player, c)
  {
    var v := Judge(names, player, team, c);
    if v.Fuzzy? {
      ScaledStaysInItsBand(v.score);
    }
  }
}
