/** The clean rematch and the admin's decisions on its links. */
module IdentityReview {
  import opened Prelude
  import opened IdentityMatching
  import opened IdentityLinks

  /* ---- Rematch: wipe, match, insert ---- */

  // A link made of this evidence, accepted on its own exactly when the match was exact or corroborated.
  predicate Evidenced(names: Names, teams: map<int, int>, link: Link, p: Player, r: RealCandidate) {
    var v := Judge(names, p, Expected(p, teams), r);
    && !v.NoMatch? && link == Written(None, CandidateFor(p, r, v))
    && (link.status == Approved <==> v.Exact? || Corroborated(p, r))
    && (link.status == Pending <==> !(v.Exact? || Corroborated(p, r)))
  }

  ghost predicate Supported(names: Names, players: seq<Player>, reals: seq<RealCandidate>, teams: map<int, int>,
                            link: Link)
  {
    exists p, r :: p in players && r in reals && Evidenced(names, teams, link, p, r)
  }

  lemma LinkIsSupported(names: Names, players: seq<Player>, reals: seq<RealCandidate>, teams: map<int, int>,
                        candidates: seq<Candidate>, winners: seq<Candidate>, link: Link)
    requires Matched(names, players, reals, teams, candidates) && Winners(winners, candidates)
    requires IsOneOf(link, winners)
    ensures Supported(names, players, reals, teams, link) && IsOneOf(link, candidates)
  {
    hide Matched, Judge, Wins, CandidateFor;
    var c :| c in winners && link == Written(None, c);
    var i :| 0 <= i < |winners| && winners[i] == c;
    assert IsWinner(candidates, winners[i]);
    var w: nat :| w < |candidates| && Wins(candidates, w) && c == candidates[w];
    MatchedAreSourced(names, players, reals, teams, candidates);
    assert Sourced(names, players, reals, teams, candidates[w]);
    var p, r :| p in players && r in reals && !Judge(names, p, Expected(p, teams), r).NoMatch?
                && c == CandidateFor(p, r, Judge(names, p, Expected(p, teams), r));
    AcceptedIffExactOrCorroborated(names, p, Expected(p, teams), r);
    ConfidenceIsCarried(p, r, Judge(names, p, Expected(p, teams), r));
    assert Evidenced(names, teams, link, p, r);
  }

  lemma ConfidenceIsCarried(p: Player, r: RealCandidate, v: Verdict)
    requires !v.NoMatch?
    ensures CandidateFor(p, r, v).confidence == Confidence(v)
  {
  }

  // Each claimed real player is linked, to a claimant no weaker than any other.
  ghost predicate Settled(links: Links, c: Candidate) {
    exists id :: id in links && links[id].realPlayerId == c.realPlayerId && links[id].confidence.Some?
      && (c.confidence != 0 ==> c.confidence <= links[id].confidence.value)
  }

  lemma ClaimIsSettled(links: Links, candidates: seq<Candidate>, winners: seq<Candidate>, i: nat)
    requires Winners(winners, candidates) && Rewritten(map[], links, winners) && i < |candidates|
    ensures Settled(links, candidates[i])
  {
    hide Winners;
    EveryClaimIsSettled(winners, candidates, i);
    var w :| w in winners && w.realPlayerId == candidates[i].realPlayerId && Strength(candidates[i]) <= Strength(w);
    assert IsLinked(links, w);
    var id :| id in links && links[id].playerId == w.playerId && links[id].realPlayerId == w.realPlayerId;
    assert IsOneOf(links[id], winners);
    var d :| d in winners && links[id] == Written(None, d);
    WinnersOfOneRealAreOne(winners, candidates, w, d);
  }

  lemma WinnersOfOneRealAreOne(winners: seq<Candidate>, candidates: seq<Candidate>, a: Candidate, b: Candidate)
    requires Winners(winners, candidates) && a in winners && b in winners && a.realPlayerId == b.realPlayerId
    ensures a == b
  {
    var i :| 0 <= i < |winners| && winners[i] == a;
    var j :| 0 <= j < |winners| && winners[j] == b;
  }

  // The regenerated table is one-to-one, every link rests on its evidence, and every real player some
  // roster player chose is linked to a strongest claimant.
  method Rematch(table: LinkTable, names: Names, players: seq<Player>, reals: seq<RealCandidate>,
                 teams: map<int, int>)
    returns (result: Result<nat, string>, ghost candidates: seq<Candidate>)
    requires table.Valid() && DistinctPlayers(players)
    modifies table
    ensures table.Valid() && OneToOne(table.links)
    ensures result.Ok? && Matched(names, players, reals, teams, candidates)
    ensures forall id :: id in table.links ==> IsOneOf(table.links[id], candidates)
                                               && Supported(names, players, reals, teams, table.links[id])
    ensures forall i :: 0 <= i < |candidates| ==> Settled(table.links, candidates[i])
    ensures MarksAgree(table.links)
  {
    hide Matched, Winners, Supported, Settled, Deduped;
    table.DeleteAll();
    var found := Match(names, players, reals, teams);
    candidates := found;
    MatchedAreSourced(names, players, reals, teams, found);
    result := table.UpsertCandidates(found);
    ghost var winners := Deduped(found);
    DedupedAreWinners(found);
    forall id | id in table.links
      ensures Supported(names, players, reals, teams, table.links[id]) && IsOneOf(table.links[id], candidates)
      ensures !table.links[id].reviewedByAdmin && table.links[id].reviewedBy.None?
    {
      assert IsOneOf(table.links[id], winners);
      LinkIsSupported(names, players, reals, teams, candidates, winners, table.links[id]);
    }
    forall i | 0 <= i < |candidates| ensures Settled(table.links, candidates[i]) {
      ClaimIsSettled(table.links, candidates, winners, i);
    }
  }

  /* ---- Review ---- */

  datatype Decision = Approve(id: int, admin: int) | Reject(id: int, admin: int)
                    | Reassign(id: int, realPlayerId: int, admin: int)

  // Only a pending link can be approved or rejected; any link can be reassigned.
  function ErrorOf(links: Links, realPlayers: set<int>, d: Decision): Option<ReviewError> {
    if d.Reassign? then ReassignError(links, realPlayers, d.id, d.realPlayerId)
    else if d.id !in links then Some(LinkNotFound)
    else if links[d.id].status != Pending then Some(AlreadyReviewed)
    else None
  }

  function Decided(links: Links, realPlayers: set<int>, d: Decision): Links {
    if ErrorOf(links, realPlayers, d).Some? then links
    else if d.Reassign? then Reassigned(links, d.id, d.realPlayerId, d.admin)
    else links[d.id := links[d.id].(status := if d.Approve? then Approved else Rejected, reviewedBy := Some(d.admin),
                                    reviewedByAdmin := true)]
  }

  method RequirePending(table: LinkTable, id: int) returns (error: Option<ReviewError>)
    ensures error == if id !in table.links then Some(LinkNotFound)
                     else if table.links[id].status != Pending then Some(AlreadyReviewed) else None
  {
    if id !in table.links {
      return Some(LinkNotFound);
    }
    error := if table.links[id].status != Pending then Some(AlreadyReviewed) else None;
  }

  method Decide(table: LinkTable, realPlayers: set<int>, d: Decision) returns (error: Option<ReviewError>)
    requires table.Valid()
    modifies table`links
    ensures table.Valid()
    ensures error == ErrorOf(old(table.links), realPlayers, d)
    ensures table.links == Decided(old(table.links), realPlayers, d)
  {
    match d {
      case Reassign(id, realPlayerId, admin) => error := table.Reassign(id, realPlayerId, admin, realPlayers);
      case Approve(id, admin) =>
        error := RequirePending(table, id);
        if error.None? {
          error := table.UpdateStatus(id, Approved, Some(admin));
        }
      case Reject(id, admin) =>
        error := RequirePending(table, id);
        if error.None? {
          error := table.UpdateStatus(id, Rejected, Some(admin));
        }
    }
  }

  function DecidedAll(links: Links, realPlayers: set<int>, ds: seq<Decision>): Links {
    if |ds| == 0 then links
    else Decided(DecidedAll(links, realPlayers, ds[..|ds| - 1]), realPlayers, ds[|ds| - 1])
  }

  // Links are marked as reviewed by an admin exactly when they name the admin.
  predicate MarksAgree(links: Links) {
    forall id :: id in links ==> (links[id].reviewedByAdmin <==> links[id].reviewedBy.Some?)
  }

  predicate SamePlayers(before: Links, after: Links) {
    before.Keys == after.Keys && forall id :: id in before ==> after[id].playerId == before[id].playerId
  }

  // Nothing becomes pending again, and what is still pending was never touched.
  predicate OnlySettles(before: Links, after: Links) {
    forall id :: id in before && id in after && after[id].status == Pending ==> after[id] == before[id]
  }

  lemma {:induction false} DecisionsKeepOneToOne(links: Links, realPlayers: set<int>, ds: seq<Decision>)
    requires OneToOne(links) && MarksAgree(links)
    ensures var after := DecidedAll(links, realPlayers, ds);
            OneToOne(after) && MarksAgree(after) && SamePlayers(links, after) && OnlySettles(links, after)
  {
    if |ds| > 0 {
      DecisionsKeepOneToOne(links, realPlayers, ds[..|ds| - 1]);
    }
  }

  // Reassigning is refused exactly when the link or the real player is missing, or another link, approved
  // or not, has the real player: one-to-one is what the refusal protects.
  lemma ReassignIsRefusedIff(links: Links, realPlayers: set<int>, id: int, realPlayerId: int, admin: int)
    requires OneToOne(links)
    ensures ErrorOf(links, realPlayers, Decision.Reassign(id, realPlayerId, admin)).Some?
       <==> id !in links || realPlayerId !in realPlayers || !OneToOne(Reassigned(links, id, realPlayerId, admin))
  {
    if id in links {
      var after := Reassigned(links, id, realPlayerId, admin);
      if exists other :: other in links && other != id && links[other].realPlayerId == realPlayerId {
        var other :| other in links && other != id && links[other].realPlayerId == realPlayerId;
        assert after[other].realPlayerId == after[id].realPlayerId;
      }
    }
  }

  // What a decision leaves of the link it is about. An approval or a rejection changes who said so and the
  // status; a reassignment is an approval of another real player, made by hand and without a confidence.
  lemma DecisionIsCarriedOut(links: Links, realPlayers: set<int>, d: Decision)
    requires ErrorOf(links, realPlayers, d).None?
    ensures d.id in links
    ensures var before, after := links[d.id], Decided(links, realPlayers, d);
            && after.Keys == links.Keys && (forall id :: id in links && id != d.id ==> after[id] == links[id])
            && var link := after[d.id];
               && link.playerId == before.playerId && link.reviewedBy == Some(d.admin) && link.reviewedByAdmin
               && (link.status == Approved <==> !d.Reject?) && (link.status == Rejected <==> d.Reject?)
               && (d.Reassign? ==> link.realPlayerId == d.realPlayerId && link.matchMethod == Manual
                                   && link.confidence.None?)
               && (!d.Reassign? ==> link.realPlayerId == before.realPlayerId && link.matchMethod == before.matchMethod
                                    && link.confidence == before.confidence)
  {
  }

  // And when it is refused, and why.
  lemma RefusalSaysWhy(links: Links, realPlayers: set<int>, d: Decision)
    ensures ErrorOf(links, realPlayers, d).Some? ==> Decided(links, realPlayers, d) == links
    ensures ErrorOf(links, realPlayers, d) == Some(LinkNotFound) <==> d.id !in links
    ensures ErrorOf(links, realPlayers, d) == Some(AlreadyReviewed)
       <==> !d.Reassign? && d.id in links && (links[d.id].status == Approved || links[d.id].status == Rejected)
    ensures ErrorOf(links, realPlayers, d) == Some(RealPlayerNotFound)
       <==> d.Reassign? && d.id in links && d.realPlayerId !in realPlayers
    ensures ErrorOf(links, realPlayers, d) == Some(RealPlayerAlreadyLinked)
       <==> d.Reassign? && d.id in links && d.realPlayerId in realPlayers
            && exists other :: other in links && other != d.id && links[other].realPlayerId == d.realPlayerId
  {
  }

  // A sync over a reviewed link takes the admin's decision and name away and leaves the mark: the reason
  // a rematch wipes the table first.
  lemma SyncForgetsTheReview(link: Link, c: Candidate)
    requires link.reviewedByAdmin && link.playerId == c.playerId
    ensures var after := Rewrite(link, [c]);
            after.reviewedByAdmin && after.reviewedBy.None? && after.status == StatusFor(c)
  {
    assert ClaimOf([c], link.playerId) == Some(c);
  }
}
