/** The identity-link table: one link per roster player and per real player, filled by a rematch, kept
    one-to-one by every later admin decision. */
module IdentityLinks {
  import opened Prelude
  import opened IdentityMatching

  datatype Status = Pending | Approved | Rejected

  datatype Link = Link(playerId: int, realPlayerId: int, matchMethod: MatchMethod, confidence: Option<int>,
                       status: Status, reviewedBy: Option<int>, reviewedByAdmin: bool)

  type Links = map<int, Link>

  const AUTO_ACCEPT := 950

  // Both unique constraints of the table.
  predicate OneToOne(links: Links) {
    forall i, j :: i in links && j in links && i != j ==>
      links[i].playerId != links[j].playerId && links[i].realPlayerId != links[j].realPlayerId
  }

  /* ---- Collisions within a batch ---- */

  // A confidence of zero counts as none.
  function Strength(c: Candidate): int { if c.confidence == 0 then -1000 else c.confidence }

  // A claimant without a confidence stands below every other that has more than minus one thousand.
  lemma UnratedClaimsAreWeakest(unrated: Candidate, other: Candidate)
    requires unrated.confidence == 0 && other.confidence != 0
    ensures Strength(unrated) < Strength(other) <==> other.confidence > -1000
  {
  }

  // i is the earliest of the strongest claimants of its real player.
  predicate Wins(candidates: seq<Candidate>, i: nat) {
    && i < |candidates|
    && forall j :: 0 <= j < |candidates| && candidates[j].realPlayerId == candidates[i].realPlayerId ==>
         if j < i then Strength(candidates[j]) < Strength(candidates[i])
         else Strength(candidates[j]) <= Strength(candidates[i])
  }

  predicate DistinctReals(candidates: seq<Candidate>) {
    forall i, j :: 0 <= i < j < |candidates| ==> candidates[i].realPlayerId != candidates[j].realPlayerId
  }

  ghost predicate IsWinner(candidates: seq<Candidate>, c: Candidate) {
    exists w: nat :: w < |candidates| && Wins(candidates, w) && c == candidates[w]
  }

  // The winners of a batch: one for each claimed real player, and no one else.
  ghost predicate Winners(winners: seq<Candidate>, candidates: seq<Candidate>) {
    && DistinctReals(winners)
    && (forall i :: 0 <= i < |winners| ==> IsWinner(candidates, winners[i]))
    && (forall w: nat :: w < |candidates| && Wins(candidates, w) ==> candidates[w] in winners)
  }

  predicate IsBest(best: map<int, nat>, candidates: seq<Candidate>) {
    && (forall r :: r in best ==> Wins(candidates, best[r]) && candidates[best[r]].realPlayerId == r)
    && (forall i :: 0 <= i < |candidates| ==> candidates[i].realPlayerId in best)
  }

  lemma BestOneMore(best: map<int, nat>, before: seq<Candidate>, c: Candidate)
    requires IsBest(best, before)
    ensures var stronger := c.realPlayerId !in best || Strength(c) > Strength(before[best[c.realPlayerId]]);
            IsBest(if stronger then best[c.realPlayerId := |before|] else best, before + [c])
  {
    hide Strength;
    var all := before + [c];
    assert all[|before|] == c;
    assert forall i :: 0 <= i < |before| ==> all[i] == before[i];
    if c.realPlayerId in best && !(Strength(c) > Strength(before[best[c.realPlayerId]])) {
      assert Wins(before, best[c.realPlayerId]);
    }
    forall r | r in best && (r != c.realPlayerId || !(Strength(c) > Strength(before[best[r]])))
      ensures Wins(all, best[r])
    {
      assert Wins(before, best[r]);
    }
    if c.realPlayerId !in best || Strength(c) > Strength(before[best[c.realPlayerId]]) {
      forall j | 0 <= j < |before| && all[j].realPlayerId == c.realPlayerId
        ensures Strength(all[j]) < Strength(c)
      {
        assert before[j].realPlayerId in best;
        assert Wins(before, best[c.realPlayerId]);
      }
      assert Wins(all, |before|);
    }
  }

  // Two claimants of one real player cannot both win.
  lemma OneWinnerEach(candidates: seq<Candidate>, i: nat, j: nat)
    requires Wins(candidates, i) && Wins(candidates, j)
    requires candidates[i].realPlayerId == candidates[j].realPlayerId
    ensures i == j
  {
  }

  // Where each claimed real player's strongest claimant stands.
  function BestOf(candidates: seq<Candidate>): (best: map<int, nat>)
    ensures IsBest(best, candidates)
  {
    if |candidates| == 0 then map[]
    else
      var before, c := candidates[..|candidates| - 1], candidates[|candidates| - 1];
      var best := BestOf(before);
      BestOneMore(best, before, c);
      assert before + [c] == candidates;
      if c.realPlayerId !in best || Strength(c) > Strength(before[best[c.realPlayerId]])
      then best[c.realPlayerId := |before|] else best
  }

  // The dictionary's order: real players as they are first claimed; a stronger claimant keeps the place.
  function ClaimOrder(candidates: seq<Candidate>): seq<int> {
    if |candidates| == 0 then []
    else
      var order, r := ClaimOrder(candidates[..|candidates| - 1]), candidates[|candidates| - 1].realPlayerId;
      if r in order then order else order + [r]
  }

  lemma {:induction false} ClaimOrderOrders(candidates: seq<Candidate>)
    ensures Orders(ClaimOrder(candidates), BestOf(candidates))
  {
    hide Strength, Wins, IsBest;
    if |candidates| > 0 {
      ClaimOrderOrders(candidates[..|candidates| - 1]);
      var r := candidates[|candidates| - 1].realPlayerId;
      var order, best := ClaimOrder(candidates[..|candidates| - 1]), BestOf(candidates[..|candidates| - 1]);
      assert r in order <==> r in best by {
        if r in order {
          var i :| 0 <= i < |order| && order[i] == r;
        }
      }
    }
  }

  lemma BestIsInRange(candidates: seq<Candidate>)
    ensures forall r :: r in BestOf(candidates) ==> BestOf(candidates)[r] < |candidates|
  {
    forall r | r in BestOf(candidates) ensures BestOf(candidates)[r] < |candidates| {
      BestIsInside(BestOf(candidates), candidates, r);
    }
  }

  predicate Locates(order: seq<int>, best: map<int, nat>, candidates: seq<Candidate>) {
    forall i :: 0 <= i < |order| ==> order[i] in best && best[order[i]] < |candidates|
  }

  lemma DictionaryLocates(candidates: seq<Candidate>)
    ensures Locates(ClaimOrder(candidates), BestOf(candidates), candidates)
  {
    hide ClaimOrder, BestOf;
    ClaimOrderOrders(candidates);
    BestIsInRange(candidates);
    OrdersLocate(ClaimOrder(candidates), BestOf(candidates), candidates);
  }

  lemma OrdersLocate(order: seq<int>, best: map<int, nat>, candidates: seq<Candidate>)
    requires Orders(order, best) && forall r :: r in best ==> best[r] < |candidates|
    ensures Locates(order, best, candidates)
  {
  }

  function Picked(order: seq<int>, best: map<int, nat>, candidates: seq<Candidate>): seq<Candidate>
    requires Locates(order, best, candidates)
  {
    seq(|order|, i requires 0 <= i < |order| => candidates[best[order[i]]])
  }

  // One candidate for each claimed real player, first claimed first.
  function Deduped(candidates: seq<Candidate>): seq<Candidate> {
    DictionaryLocates(candidates);
    Picked(ClaimOrder(candidates), BestOf(candidates), candidates)
  }

  lemma DedupedAreWinners(candidates: seq<Candidate>)
    ensures Winners(Deduped(candidates), candidates)
  {
    hide Strength, Wins, ClaimOrder, BestOf;
    ClaimOrderOrders(candidates);
    DictionaryLocates(candidates);
    CollectedAreWinners(ClaimOrder(candidates), BestOf(candidates), candidates, Deduped(candidates));
  }

  // The first index that claims the real player, or the length.
  function FirstClaim(candidates: seq<Candidate>, r: int): (i: nat)
    ensures i <= |candidates| && (i < |candidates| ==> candidates[i].realPlayerId == r)
    ensures forall j :: 0 <= j < i ==> candidates[j].realPlayerId != r
  {
    if |candidates| == 0 || candidates[0].realPlayerId == r then 0 else 1 + FirstClaim(candidates[1..], r)
  }

  lemma FirstClaimOneMore(before: seq<Candidate>, c: Candidate, r: int)
    ensures FirstClaim(before + [c], r)
         == if FirstClaim(before, r) < |before| then FirstClaim(before, r)
            else if c.realPlayerId == r then |before| else |before| + 1
  {
    var all := before + [c];
    var i, j := FirstClaim(before, r), FirstClaim(all, r);
    assert forall k :: 0 <= k < |before| ==> all[k] == before[k];
    assert all[|before|] == c;
  }

  // The real player of row i was first claimed before the one of any later row.
  lemma {:induction false} DedupedInOrderOfFirstClaim(candidates: seq<Candidate>)
    ensures var order := ClaimOrder(candidates);
            && (forall i :: 0 <= i < |order| ==> FirstClaim(candidates, order[i]) < |candidates|)
            && (forall i, j :: 0 <= i < j < |order| ==>
                  FirstClaim(candidates, order[i]) < FirstClaim(candidates, order[j]))
  {
    hide FirstClaim;
    if |candidates| > 0 {
      var before, c := candidates[..|candidates| - 1], candidates[|candidates| - 1];
      DedupedInOrderOfFirstClaim(before);
      assert before + [c] == candidates;
      var earlier := ClaimOrder(before);
      forall i | 0 <= i < |earlier| ensures FirstClaim(candidates, earlier[i]) == FirstClaim(before, earlier[i]) {
        assert FirstClaim(before, ClaimOrder(before)[i]) < |before|;
        FirstClaimOneMore(before, c, earlier[i]);
      }
      if c.realPlayerId !in earlier {
        FirstClaimOneMore(before, c, c.realPlayerId);
        UnclaimedIsNotOrdered(before, c.realPlayerId);
      }
    }
  }

  lemma {:induction false} UnclaimedIsNotOrdered(candidates: seq<Candidate>, r: int)
    ensures r in ClaimOrder(candidates) <==> FirstClaim(candidates, r) < |candidates|
  {
    hide FirstClaim;
    if |candidates| == 0 {
      assert FirstClaim([], r) == 0;
    } else {
      var before, c := candidates[..|candidates| - 1], candidates[|candidates| - 1];
      UnclaimedIsNotOrdered(before, r);
      assert before + [c] == candidates;
      FirstClaimOneMore(before, c, r);
      var order := ClaimOrder(before);
      assert r in order + [c.realPlayerId] <==> r in order || r == c.realPlayerId;
    }
  }

  lemma OrderedIffBest(candidates: seq<Candidate>, r: int)
    ensures r in ClaimOrder(candidates) <==> r in BestOf(candidates)
  {
    hide ClaimOrder, BestOf;
    ClaimOrderOrders(candidates);
    var order := ClaimOrder(candidates);
    if r in order {
      var i :| 0 <= i < |order| && order[i] == r;
    }
  }

  lemma OrderOneMore(before: seq<Candidate>, c: Candidate)
    ensures var order, r := ClaimOrder(before), c.realPlayerId;
            ClaimOrder(before + [c]) == if r in order then order else order + [r]
  {
    assert (before + [c])[..|before|] == before;
  }

  lemma BestMoves(before: seq<Candidate>, c: Candidate)
    ensures var best, r := BestOf(before), c.realPlayerId;
            && (r in best ==> best[r] < |before|)
            && BestOf(before + [c]) == if r !in best || Strength(c) > Strength(before[best[r]])
                                       then best[r := |before|] else best
  {
    hide Strength, IsBest, Wins;
    assert (before + [c])[..|before|] == before;
    BestIsInRange(before);
  }

  method DedupeByRealPlayer(candidates: seq<Candidate>) returns (winners: seq<Candidate>)
    ensures winners == Deduped(candidates) && Winners(winners, candidates)
  {
    hide Strength, Wins, IsBest, BestOf, ClaimOrder, Winners;
    var best: map<int, nat> := map[];
    var order: seq<int> := [];
    EmptyDictionary();
    assert candidates[..0] == [];
    for n := 0 to |candidates|
      invariant best == BestOf(candidates[..n]) && order == ClaimOrder(candidates[..n])
    {
      var c := candidates[n];
      var r := c.realPlayerId;
      assert candidates[..n + 1] == candidates[..n] + [c];
      OrderOneMore(candidates[..n], c);
      BestMoves(candidates[..n], c);
      OrderedIffBest(candidates[..n], r);
      if r !in best {
        order := order + [r];
        best := best[r := n];
      } else if Strength(c) > Strength(candidates[best[r]]) {
        best := best[r := n];
      }
    }
    assert candidates[..|candidates|] == candidates;
    DictionaryLocates(candidates);
    DedupedAreWinners(candidates);
    winners := Picked(order, best, candidates);
  }

  lemma EmptyDictionary()
    ensures BestOf([]) == map[] && ClaimOrder([]) == []
  {
  }

  ghost predicate Orders(order: seq<int>, best: map<int, nat>) {
    && (forall i :: 0 <= i < |order| ==> order[i] in best)
    && (forall r :: r in best ==> r in order)
    && (forall i, j :: 0 <= i < j < |order| ==> order[i] != order[j])
  }

  lemma CollectedAreWinners(order: seq<int>, best: map<int, nat>, candidates: seq<Candidate>, winners: seq<Candidate>)
    requires IsBest(best, candidates) && Orders(order, best) && |winners| == |order|
    requires forall i :: 0 <= i < |order| ==>
               order[i] in best && best[order[i]] < |candidates| && winners[i] == candidates[best[order[i]]]
    ensures Winners(winners, candidates)
  {
    hide Strength, Wins;
    forall i | 0 <= i < |winners| ensures winners[i].realPlayerId == order[i] && IsWinner(candidates, winners[i]) {
      assert Wins(candidates, best[order[i]]);
    }
    forall w: nat | w < |candidates| && Wins(candidates, w) ensures candidates[w] in winners {
      WinnerIsBest(best, candidates, w);
      var i :| 0 <= i < |order| && order[i] == candidates[w].realPlayerId;
      assert winners[i] == candidates[w];
    }
  }

  lemma BestIsInside(best: map<int, nat>, candidates: seq<Candidate>, r: int)
    requires IsBest(best, candidates) && r in best
    ensures best[r] < |candidates|
  {
  }

  lemma WinnerIsBest(best: map<int, nat>, candidates: seq<Candidate>, w: nat)
    requires IsBest(best, candidates) && w < |candidates| && Wins(candidates, w)
    ensures candidates[w].realPlayerId in best && best[candidates[w].realPlayerId] == w
  {
    OneWinnerEach(candidates, w, best[candidates[w].realPlayerId]);
  }

  // Every claimed real player has a winner, and no claimant of it is stronger.
  lemma EveryClaimIsSettled(winners: seq<Candidate>, candidates: seq<Candidate>, i: nat)
    requires Winners(winners, candidates) && i < |candidates|
    ensures exists w :: w in winners && w.realPlayerId == candidates[i].realPlayerId
                        && Strength(candidates[i]) <= Strength(w)
  {
    hide Strength;
    SomeoneWins(candidates, i);
    var w: nat :| Wins(candidates, w) && candidates[w].realPlayerId == candidates[i].realPlayerId;
    assert candidates[w] in winners;
  }

  lemma {:induction false} SomeoneWins(candidates: seq<Candidate>, i: nat)
    requires i < |candidates|
    ensures exists w: nat :: Wins(candidates, w) && candidates[w].realPlayerId == candidates[i].realPlayerId
  {
    hide Strength, Wins;
    var best := BestOf(candidates);
    BestIsInside(best, candidates, candidates[i].realPlayerId);
    assert Wins(candidates, best[candidates[i].realPlayerId]);
  }

  /* ---- Writing candidates ---- */

  function StatusFor(c: Candidate): Status { if c.confidence >= AUTO_ACCEPT then Approved else Pending }

  // A new link; an existing one keeps its id and its admin mark, which the payload does not carry.
  function Written(prior: Option<Link>, c: Candidate): Link {
    Link(c.playerId, c.realPlayerId, c.matchMethod, Some(c.confidence), StatusFor(c), None,
         prior.Some? && prior.value.reviewedByAdmin)
  }

  // The link a candidate leaves: its own evidence, approved from 950 thousandths on and otherwise pending,
  // with nobody's name on it.
  lemma WrittenIsTheCandidate(prior: Option<Link>, c: Candidate)
    ensures var link := Written(prior, c);
            && link.playerId == c.playerId && link.realPlayerId == c.realPlayerId
            && link.matchMethod == c.matchMethod && link.confidence == Some(c.confidence)
            && (c.confidence >= 950 ==> link.status == Approved) && (c.confidence < 950 ==> link.status == Pending)
            && link.reviewedBy.None?
            && (link.reviewedByAdmin <==> prior.Some? && prior.value.reviewedByAdmin)
  {
  }

  predicate HasPlayer(links: Links, playerId: int) {
    exists id :: id in links && links[id].playerId == playerId
  }

  // The link of this player, if any, is the only one that may already hold the real player.
  predicate RealIsFree(links: Links, c: Candidate) {
    forall id :: id in links && links[id].realPlayerId == c.realPlayerId ==> links[id].playerId == c.playerId
  }

  predicate DistinctPlayerIds(candidates: seq<Candidate>) {
    forall i, j :: 0 <= i < j < |candidates| ==> candidates[i].playerId != candidates[j].playerId
  }

  // The candidate for this player, if any.
  function ClaimOf(candidates: seq<Candidate>, playerId: int): Option<Candidate> {
    if |candidates| == 0 then None
    else
      var last := candidates[|candidates| - 1];
      if last.playerId == playerId then Some(last) else ClaimOf(candidates[..|candidates| - 1], playerId)
  }

  function Rewrite(link: Link, candidates: seq<Candidate>): Link {
    var claim := ClaimOf(candidates, link.playerId);
    if claim.Some? then Written(Some(link), claim.value) else link
  }

  ghost predicate IsOneOf(link: Link, candidates: seq<Candidate>) {
    exists c :: c in candidates && link == Written(None, c)
  }

  ghost predicate IsLinked(links: Links, c: Candidate) {
    exists id :: id in links && links[id].playerId == c.playerId && links[id].realPlayerId == c.realPlayerId
  }

  // What a statement makes of the table: claimed links are rewritten under their ids, the others stay, and
  // every other candidate has a new link.
  ghost predicate Rewritten(before: Links, after: Links, candidates: seq<Candidate>) {
    && (forall id :: id in before ==> id in after && after[id] == Rewrite(before[id], candidates))
    && (forall id :: id in after && id !in before ==>
          IsOneOf(after[id], candidates) && !HasPlayer(before, after[id].playerId))
    && (forall c :: c in candidates ==> IsLinked(after, c))
  }

  // Whoever held the real player of row i is rewritten by then, by row i itself or by an earlier one.
  predicate RoomFor(before: Links, candidates: seq<Candidate>, i: nat)
    requires i < |candidates|
  {
    forall id :: id in before && before[id].realPlayerId == candidates[i].realPlayerId ==>
      ClaimOf(candidates[..i + 1], before[id].playerId).Some?
  }

  datatype ReviewError = LinkNotFound | AlreadyReviewed | RealPlayerNotFound | RealPlayerAlreadyLinked

  function ReassignError(links: Links, realPlayers: set<int>, id: int, realPlayerId: int): Option<ReviewError> {
    if id !in links then Some(LinkNotFound)
    else if realPlayerId !in realPlayers then Some(RealPlayerNotFound)
    else if exists other :: other in links && other != id && links[other].realPlayerId == realPlayerId
    then Some(RealPlayerAlreadyLinked)
    else None
  }

  function Reassigned(links: Links, id: int, realPlayerId: int, admin: int): Links
    requires id in links
  {
    links[id := Link(links[id].playerId, realPlayerId, Manual, None, Approved, Some(admin), true)]
  }

  class LinkTable {
    var links: Links
    var nextId: int

    ghost predicate Valid()
      reads this
    {
      OneToOne(links) && forall id :: id in links ==> id < nextId
    }

    constructor ()
      ensures Valid() && links == map[]
    {
      links, nextId := map[], 0;
    }

    method DeleteAll()
      requires Valid()
      modifies this
      ensures Valid() && links == map[]
    {
      links := map[];
    }

    // One row of the statement: the row of the same player is overwritten, and a real player that another
    // row already holds is refused.
    method UpsertRow(c: Candidate) returns (ok: bool)
      requires Valid()
      modifies this
      ensures Valid() && nextId >= old(nextId)
      ensures ok <==> RealIsFree(old(links), c)
      ensures !ok ==> links == old(links)
      ensures ok ==> RowDone(old(links), links, c)
      ensures ok ==> if HasPlayer(old(links), c.playerId) then links.Keys == old(links).Keys
                     else old(nextId) !in old(links) && links == old(links)[old(nextId) := Written(None, c)]
    {
      ok := RealIsFree(links, c);
      if !ok {
        return;
      }
      if id :| id in links && links[id].playerId == c.playerId {
        links := links[id := Written(Some(links[id]), c)];
      } else {
        links := links[nextId := Written(None, c)];
        nextId := nextId + 1;
      }
    }

    method UpdateStatus(id: int, status: Status, admin: Option<int>) returns (error: Option<ReviewError>)
      requires Valid()
      modifies this`links
      ensures Valid()
      ensures error == if id in old(links) then None else Some(LinkNotFound)
      ensures links == if id in old(links)
                       then old(links)[id := old(links)[id].(status := status, reviewedBy := admin,
                                                             reviewedByAdmin := admin.Some?)]
                       else old(links)
    {
      if id !in links {
        return Some(LinkNotFound);
      }
      links := links[id := links[id].(status := status, reviewedBy := admin, reviewedByAdmin := admin.Some?)];
      error := None;
    }

    // A real player that any other link holds, whatever its status, is refused. `realPlayers` is what the
    // table of real players holds.
    method Reassign(id: int, realPlayerId: int, admin: int, realPlayers: set<int>) returns (error: Option<ReviewError>)
      requires Valid()
      modifies this`links
      ensures Valid()
      ensures error == ReassignError(old(links), realPlayers, id, realPlayerId)
      ensures links == if error.None? then Reassigned(old(links), id, realPlayerId, admin) else old(links)
    {
      if id !in links {
        return Some(LinkNotFound);
      }
      if realPlayerId !in realPlayers {
        return Some(RealPlayerNotFound);
      }
      if exists other :: other in links && other != id && links[other].realPlayerId == realPlayerId {
        return Some(RealPlayerAlreadyLinked);
      }
      links := Reassigned(links, id, realPlayerId, admin);
      error := None;
    }

    // The whole statement fails, and leaves nothing, as soon as one row does. Rows go in the order their
    // real players were first claimed, and the statement goes through exactly when each row in turn finds
    // its real player free: always, on an empty table.
    method UpsertCandidates(candidates: seq<Candidate>) returns (result: Result<nat, string>)
      requires Valid() && DistinctPlayerIds(candidates)
      modifies this
      ensures Valid()
      ensures var rows := Deduped(candidates);
              && (result.Ok? <==> forall i: nat :: i < |rows| ==> RoomFor(old(links), rows, i))
              && (result.Ok? ==> result.value == |rows| && Rewritten(old(links), links, rows))
              && (result.Err? ==> links == old(links))
    {
      hide Wins, Strength, RealIsFree, RoomFor, Rewritten, Winners, Deduped;
      var rows := DedupeByRealPlayer(candidates);
      WinnersKeepDistinctPlayers(rows, candidates);
      ghost var before := links;
      var kept, keptNext := links, nextId;
      NothingRewritten(links);
      assert rows[..0] == [];
      for i := 0 to |rows|
        invariant Valid() && nextId >= keptNext
        invariant Rewritten(before, links, rows[..i])
        invariant forall j: nat :: j < i ==> RoomFor(before, rows, j)
      {
        assert rows[..i + 1] == rows[..i] + [rows[i]];
        FreeIffRoom(before, links, rows, i);
        ghost var was, wasNext := links, nextId;
        var ok := UpsertRow(rows[i]);
        if !ok {
          links, nextId := kept, keptNext;
          return Err("IntegrityError");
        }
        NotClaimedYet(rows, i);
        OneMoreRow(before, was, links, wasNext, rows[..i], rows[i]);
      }
      assert rows[..|rows|] == rows;
      result := Ok(|rows|);
    }
  }

  lemma WinnersKeepDistinctPlayers(winners: seq<Candidate>, candidates: seq<Candidate>)
    requires Winners(winners, candidates) && DistinctPlayerIds(candidates)
    ensures DistinctPlayerIds(winners) && DistinctReals(winners)
  {
    hide Strength, Wins;
    forall i, j | 0 <= i < j < |winners| ensures winners[i].playerId != winners[j].playerId {
      var a: nat :| a < |candidates| && Wins(candidates, a) && winners[i] == candidates[a];
      var b: nat :| b < |candidates| && Wins(candidates, b) && winners[j] == candidates[b];
      assert a != b;
    }
  }

  lemma NothingRewritten(links: Links)
    ensures Rewritten(links, links, [])
  {
  }

  lemma {:induction false} ClaimIsTheirs(candidates: seq<Candidate>, playerId: int)
    ensures ClaimOf(candidates, playerId).Some? <==> exists c :: c in candidates && c.playerId == playerId
    ensures ClaimOf(candidates, playerId).Some? ==>
              ClaimOf(candidates, playerId).value in candidates
              && ClaimOf(candidates, playerId).value.playerId == playerId
  {
    if |candidates| > 0 {
      ClaimIsTheirs(candidates[..|candidates| - 1], playerId);
      assert forall c :: c in candidates <==> c in candidates[..|candidates| - 1] || c == candidates[|candidates| - 1];
    }
  }

  lemma ClaimOneMore(candidates: seq<Candidate>, c: Candidate, playerId: int)
    ensures ClaimOf(candidates + [c], playerId)
         == if c.playerId == playerId then Some(c) else ClaimOf(candidates, playerId)
  {
    assert (candidates + [c])[..|candidates|] == candidates;
  }

  // No link that a row has written holds the real player of a later row.
  lemma WrittenHoldsAnEarlierReal(before: Links, now: Links, rows: seq<Candidate>, i: nat, id: int)
    requires i < |rows| && DistinctReals(rows) && Rewritten(before, now, rows[..i]) && id in now
    requires id in before ==> ClaimOf(rows[..i], before[id].playerId).Some?
    ensures now[id].realPlayerId != rows[i].realPlayerId
  {
    if id in before {
      ClaimIsTheirs(rows[..i], before[id].playerId);
      var c := ClaimOf(rows[..i], before[id].playerId).value;
      var j :| 0 <= j < i && rows[..i][j] == c;
      assert rows[j] == c;
    } else {
      var c :| c in rows[..i] && now[id] == Written(None, c);
      var j :| 0 <= j < i && rows[..i][j] == c;
      assert rows[j] == c;
    }
  }

  lemma FreeIffRoom(before: Links, now: Links, rows: seq<Candidate>, i: nat)
    requires i < |rows| && DistinctReals(rows) && DistinctPlayerIds(rows) && Rewritten(before, now, rows[..i])
    ensures RealIsFree(now, rows[i]) <==> RoomFor(before, rows, i)
  {
    hide ClaimOf, IsOneOf, IsLinked;
    var c := rows[i];
    assert rows[..i + 1] == rows[..i] + [c];
    forall id | id in before
      ensures ClaimOf(rows[..i + 1], before[id].playerId)
           == if c.playerId == before[id].playerId then Some(c) else ClaimOf(rows[..i], before[id].playerId)
    {
      ClaimOneMore(rows[..i], c, before[id].playerId);
    }
    forall id | id in now && now[id].realPlayerId == c.realPlayerId
      ensures id in before && now[id] == before[id] && ClaimOf(rows[..i], before[id].playerId).None?
    {
      if id !in before || ClaimOf(rows[..i], before[id].playerId).Some? {
        WrittenHoldsAnEarlierReal(before, now, rows, i, id);
      }
    }
    if RealIsFree(now, c) {
      forall id | id in before && before[id].realPlayerId == c.realPlayerId
        ensures ClaimOf(rows[..i + 1], before[id].playerId).Some?
      {
        if ClaimOf(rows[..i], before[id].playerId).None? {
          assert now[id] == before[id];
        }
      }
    }
  }

  lemma StillLinked(before: Links, after: Links, c: Candidate)
    requires IsLinked(before, c)
    requires forall id :: id in before && before[id].playerId == c.playerId ==> id in after && after[id] == before[id]
    ensures IsLinked(after, c)
  {
  }

  lemma StillOneOf(link: Link, candidates: seq<Candidate>, more: seq<Candidate>)
    requires IsOneOf(link, candidates) && forall c :: c in candidates ==> c in more
    ensures IsOneOf(link, more)
  {
    hide Written;
  }

  // What one row does to the links it finds.
  predicate RowDone(was: Links, now: Links, c: Candidate) {
    forall id :: id in was ==>
      id in now && now[id] == if was[id].playerId == c.playerId then Written(Some(was[id]), c) else was[id]
  }

  lemma RewriteKeepsThePlayer(link: Link, candidates: seq<Candidate>)
    ensures Rewrite(link, candidates).playerId == link.playerId
  {
    ClaimIsTheirs(candidates, link.playerId);
  }

  lemma NotClaimedYet(rows: seq<Candidate>, i: nat)
    requires i < |rows| && DistinctPlayerIds(rows)
    ensures ClaimOf(rows[..i], rows[i].playerId).None?
  {
    ClaimIsTheirs(rows[..i], rows[i].playerId);
  }

  lemma OneMoreRow(before: Links, was: Links, now: Links, newId: int, done: seq<Candidate>, c: Candidate)
    requires Rewritten(before, was, done) && ClaimOf(done, c.playerId).None? && RowDone(was, now, c)
    requires if HasPlayer(was, c.playerId) then now.Keys == was.Keys
             else newId !in was && now == was[newId := Written(None, c)]
    ensures Rewritten(before, now, done + [c])
  {
    hide IsOneOf, IsLinked, ClaimOf;
    var all := done + [c];
    assert c in all && forall d :: d in done ==> d in all;
    forall id | id in before ensures id in now && now[id] == Rewrite(before[id], all) {
      ClaimOneMore(done, c, before[id].playerId);
      RewriteKeepsThePlayer(before[id], done);
    }
    forall id | id in now && id !in before
      ensures IsOneOf(now[id], all) && !HasPlayer(before, now[id].playerId)
    {
      NewLinkIsOneOf(before, was, now, newId, done, c, id);
    }
    forall d | d in all ensures IsLinked(now, d) {
      if d in done {
        ClaimIsTheirs(done, c.playerId);
        StillLinked(was, now, d);
      } else {
        NowLinked(was, now, newId, c);
      }
    }
  }

  lemma NowLinked(was: Links, now: Links, newId: int, c: Candidate)
    requires RowDone(was, now, c)
    requires if HasPlayer(was, c.playerId) then now.Keys == was.Keys
             else newId !in was && now == was[newId := Written(None, c)]
    ensures IsLinked(now, c)
  {
    if HasPlayer(was, c.playerId) {
      var id :| id in was && was[id].playerId == c.playerId;
      assert now[id] == Written(Some(was[id]), c);
    } else {
      assert now[newId] == Written(None, c);
    }
  }

  lemma OneOfIsClaimed(link: Link, candidates: seq<Candidate>)
    requires IsOneOf(link, candidates)
    ensures ClaimOf(candidates, link.playerId).Some?
  {
    ClaimIsTheirs(candidates, link.playerId);
  }

  lemma NewLinkIsOneOf(before: Links, was: Links, now: Links, newId: int, done: seq<Candidate>, c: Candidate, id: int)
    requires Rewritten(before, was, done) && ClaimOf(done, c.playerId).None? && RowDone(was, now, c)
    requires if HasPlayer(was, c.playerId) then now.Keys == was.Keys
             else newId !in was && now == was[newId := Written(None, c)]
    requires id in now && id !in before
    ensures IsOneOf(now[id], done + [c]) && !HasPlayer(before, now[id].playerId)
  {
    hide ClaimOf, IsLinked;
    if id in was {
      OneOfIsClaimed(was[id], done);
      assert now[id] == was[id];
      StillOneOf(was[id], done, done + [c]);
    } else {
      assert now[id] == Written(None, c) && c in done + [c];
      forall prior | prior in before ensures before[prior].playerId != c.playerId {
        RewriteKeepsThePlayer(before[prior], done);
        assert prior in was && was[prior].playerId == before[prior].playerId;
        assert !HasPlayer(was, c.playerId);
      }
    }
  }

  // The order decides: with players 1 and 2 linked to real players 1 and 2, moving player 1 to 2 and
  // player 2 to 3 fails in this order and goes through in the other.
  lemma OrderDecides(links: Links, a: Candidate, b: Candidate)
    requires links.Keys == {1, 2}
    requires links[1].playerId == 1 && links[1].realPlayerId == 1
    requires links[2].playerId == 2 && links[2].realPlayerId == 2
    requires a.playerId == 1 && a.realPlayerId == 2 && b.playerId == 2 && b.realPlayerId == 3
    ensures Deduped([a, b]) == [a, b] && !RoomFor(links, [a, b], 0)
    ensures Deduped([b, a]) == [b, a] && RoomFor(links, [b, a], 0) && RoomFor(links, [b, a], 1)
  {
    TwoClaims(a, b);
    TwoClaims(b, a);
    assert [a, b][..1] == [a] && [b, a][..1] == [b] && [b, a][..2] == [b] + [a];
    assert ClaimOf([a], 2) == None by { assert [a][..0] == []; }
    ClaimOneMore([b], a, 2);
    assert ClaimOf([b], 2) == Some(b);
  }

  lemma TwoClaims(a: Candidate, b: Candidate)
    requires a.realPlayerId != b.realPlayerId
    ensures Deduped([a, b]) == [a, b]
  {
    hide Strength, Wins;
    assert [a, b][..1] == [a] && [a][..0] == [];
    assert ClaimOrder([a]) == [a.realPlayerId];
    assert ClaimOrder([a, b]) == [a.realPlayerId, b.realPlayerId];
    assert BestOf([a]) == map[a.realPlayerId := 0];
    assert BestOf([a, b]) == map[a.realPlayerId := 0, b.realPlayerId := 1];
  }
}
