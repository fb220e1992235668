/** What the turn stream still holds: which live turns can lose entries to a key expiry, and what the
    gap check knows about a reader's cursor. */
module TurnRetention {
  import opened Prelude
  import opened StreamCursors
  import opened TurnProtocol
  import opened TurnSafety

  predicate LosesEntries(s: State, t: nat) {
    exists i :: 0 <= i < |s.hist| && s.hist[i].turn == t && i < s.base
  }

  // A turn reserved on a missing key keeps every entry it publishes while it is live.
  lemma TurnReservedAtOriginKeepsEntries(s: State, t: nat)
    requires Inv(s) && t < |s.turns| && Live(s.turns[t].phase)
    requires s.turns[t].cursor == STREAM_CURSOR_ORIGIN
    ensures !LosesEntries(s, t)
  {
    hide KeysConsistent, IdsAscend, TagsAscend, SlicesMatch, LogMatches, Exclusive, Precedes;
    LiveTurnIsNewest(s.now, s.flag, s.turns, t);
    assert SplitAt(s.hist, s.base, t, s.turns[t].cursor, s.turns[t].histAt);
    assert s.base <= s.turns[t].histAt;
  }

  /* ---- The expiry a reservation inherits ---- */

  // No expiry pending, or one that no punctual turn can live to see.
  predicate LossProof(s: State) {
    s.expiry.None? || s.expiry.value >= s.now + QUEUE_LIMIT + JOB_TIMEOUT
  }

  // Some timely run from the reservation loses an entry of the reserved turn while it is live.
  ghost predicate CanLose(s: State) {
    exists steps :: LosingRun(s, steps)
  }

  predicate LosingRun(s: State, steps: seq<Step>) {
    Legal(Reserve(s), steps)
    && TimelyRun(Reserve(s), steps)
    && var s' := Exec(Reserve(s), steps);
       |s.turns| < |s'.turns| && Live(s'.turns[|s.turns|].phase) && LosesEntries(s', |s.turns|)
  }

  lemma {:induction false} RunKeepsMarks(s: State, steps: seq<Step>, t: nat)
    requires Legal(s, steps) && t < |s.turns|
    ensures |Exec(s, steps).turns| >= |s.turns| && SameMarks(s.turns[t], Exec(s, steps).turns[t])
    decreases |steps|
  {
    if |steps| > 0 {
      RunKeepsMarks(Apply(s, steps[0]), steps[1..], t);
    }
  }

  lemma ReservationIsTimely(s: State)
    requires Inv(s) && Timely(s) && s.flag.None?
    ensures Inv(Reserve(s)) && Timely(Reserve(s))
  {
    hide Inv;
    ReserveKeepsInv(s);
    var s' := Reserve(s);
    forall t | 0 <= t < |s'.turns|
      ensures Punctual(s'.now, s'.turns[t])
    {
      if t < |s.turns| {
        assert Punctual(s.now, s.turns[t]);
      }
    }
  }

  lemma LossProofTurnsKeepEntries(s: State, steps: seq<Step>)
    requires Inv(s) && Timely(s) && s.flag.None? && LossProof(s)
    ensures !LosingRun(s, steps)
  {
    if LosingRun(s, steps) {
      var n := |s.turns|;
      ReservationIsTimely(s);
      RunKeepsInv(Reserve(s), steps);
      RunKeepsMarks(Reserve(s), steps, n);
      var s' := Exec(Reserve(s), steps);
      RunEndsTimely(Reserve(s), steps);
      StaleExpiryNotReached(s', n);
    }
  }

  lemma {:induction false} RunEndsTimely(s: State, steps: seq<Step>)
    requires Legal(s, steps) && TimelyRun(s, steps)
    ensures Timely(Exec(s, steps))
    decreases |steps|
  {
    if |steps| > 0 {
      RunEndsTimely(Apply(s, steps[0]), steps[1..]);
    }
  }

  lemma StaleExpiryNotReached(s: State, t: nat)
    requires Inv(s) && Timely(s) && t < |s.turns| && Live(s.turns[t].phase)
    requires var turn := s.turns[t];
             turn.staleExpiry.Some? ==> turn.staleExpiry.value >= turn.reservedAt + QUEUE_LIMIT + JOB_TIMEOUT
    ensures !LosesEntries(s, t)
  {
    hide KeysConsistent, IdsAscend, TagsAscend, SlicesMatch, LogMatches, Exclusive;
    LiveTurnIsNewest(s.now, s.flag, s.turns, t);
    assert Punctual(s.now, s.turns[t]);
    NewestStartedInTime(s, t);
    assert SplitAt(s.hist, s.base, t, s.turns[t].cursor, s.turns[t].histAt);
    assert s.base <= s.turns[t].histAt;
  }

  lemma NewestStartedInTime(s: State, t: nat)
    requires Exclusive(s.now, s.flag, s.turns) && t < |s.turns| && Live(s.turns[t].phase)
    requires Punctual(s.now, s.turns[t])
    ensures s.now < s.turns[t].reservedAt + QUEUE_LIMIT + JOB_TIMEOUT
  {
    LiveTurnIsNewest(s.now, s.flag, s.turns, t);
  }

  predicate OthersAtRest(s: State, n: nat) {
    |s.turns| == n + 1 && forall t :: 0 <= t < n ==> !Live(s.turns[t].phase)
  }

  // The run: announce the user message, then let half the remaining time pass in the queue and half
  // in the job.
  lemma StaleKeyLosesEntries(s: State) returns (steps: seq<Step>)
    requires Inv(s) && Timely(s) && s.flag.None? && !LossProof(s)
    ensures LosingRun(s, steps)
  {
    hide Legal, Exec, TimelyRun, Inv, Timely;
    var n := |s.turns|;
    var id := NextId(s);
    var s1: State;
    ReservationIsTimely(s);
    ReservationLeavesOthersAtRest(s);
    steps, s1 := AnnounceAndQueue(Reserve(s), n, id);
    steps, s1 := WaitAndRun(Reserve(s), n, steps, s1, (s.expiry.value - s.now) / 2.0);
    assert s1.hist[|s.hist|] == Entry(id, n, UserMessage);
  }

  lemma NextId(s: State) returns (id: Cursor)
    requires Inv(s)
    ensures FreshId(s, id) && (s.expiry.Some? ==> s.now < s.expiry.value && s.base < |s.hist|)
  {
    id := Cursor(if |s.hist| == 0 then 1 else s.hist[|s.hist| - 1].id.millis + 1, 0);
  }

  lemma ReservationLeavesOthersAtRest(s: State)
    requires Inv(Reserve(s))
    ensures OthersAtRest(Reserve(s), |s.turns|)
  {
  }

  lemma WaitAndRun(s0: State, n: nat, steps0: seq<Step>, s: State, half: real)
    returns (steps: seq<Step>, s': State)
    requires Legal(s0, steps0) && Exec(s0, steps0) == s && TimelyRun(s0, steps0)
    requires OthersAtRest(s, n) && s.turns[n].phase == Queued && s.turns[n].reservedAt == s.now
    requires 0.0 < half < QUEUE_LIMIT && s.expiry == Some(s.now + 2.0 * half)
    ensures Legal(s0, steps) && Exec(s0, steps) == s' && TimelyRun(s0, steps)
    ensures s'.hist == s.hist && s'.base == |s.hist| && |s'.turns| == n + 1 && s'.turns[n].phase == Running
  {
    hide Legal, Exec, TimelyRun, Timely;
    var s1, s2: State;
    steps, s1 := Then(s0, steps0, s, Tick(half));
    assert s1.turns == s.turns && s1.expiry == s.expiry && s1.now == s.now + half;
    NewestDecides(s1, n);
    steps, s2 := Then(s0, steps, s1, Start(n));
    assert OthersAtRest(s2, n);
    NewestDecides(s2, n);
    steps, s' := Then(s0, steps, s2, Tick(half));
    assert s'.now == s.expiry.value;
    NewestDecides(s', n);
  }

  lemma NewestDecides(s: State, n: nat)
    requires OthersAtRest(s, n)
    ensures Timely(s) <==> Punctual(s.now, s.turns[n])
  {
  }

  lemma AnnounceAndQueue(s0: State, n: nat, id: Cursor) returns (steps: seq<Step>, s: State)
    requires OthersAtRest(s0, n) && Timely(s0) && s0.turns[n].phase == Reserved && FreshId(s0, id)
    ensures Legal(s0, steps) && Exec(s0, steps) == s && TimelyRun(s0, steps) && OthersAtRest(s, n)
    ensures s == s0.(log := s.log, hist := s0.hist + [Entry(id, n, UserMessage)],
                     turns := s0.turns[n := s0.turns[n].(phase := Queued)])
  {
    hide Legal, Exec, TimelyRun;
    EmptyRun(s0);
    assert Punctual(s0.now, s0.turns[n]);
    steps, s := Then(s0, [], s0, PersistUser(n));
    steps, s := Then(s0, steps, s, Announce(n, id));
    steps, s := Then(s0, steps, s, Enqueue(n));
  }

  // A reservation is at risk exactly when the key it inherits expires within the longest punctual turn.
  lemma CanLoseIffNotLossProof(s: State)
    requires Inv(s) && Timely(s) && s.flag.None?
    ensures CanLose(s) <==> !LossProof(s)
  {
    if LossProof(s) {
      forall steps ensures !LosingRun(s, steps) { LossProofTurnsKeepEntries(s, steps); }
    } else {
      var steps := StaleKeyLosesEntries(s);
    }
  }

  // It does happen: a first turn that ends at once, a second send 301 s later, with 599 s left on the key.
  const ENDED := State(0.0, None, [Entry(Id(1), 0, UserMessage), Entry(Id(2), 0, MessageDone)], 0, Some(STREAM_TTL),
                       [Row(1, User, 0), Row(2, Assistant, 0)], map[],
                       [Turn(Ended, STREAM_CURSOR_ORIGIN, 0.0, 0.0, 0, None)])

  lemma FirstTurnEnds() returns (steps: seq<Step>)
    ensures Legal(INITIAL, steps) && Exec(INITIAL, steps) == ENDED && TimelyRun(INITIAL, steps)
  {
    hide Legal, Exec, TimelyRun, MaxSequence;
    var s := RUNNING;
    var running := RUNNING.turns[0];
    steps := FirstTurnStarts();
    MaxSequenceShaped(RUNNING.log);
    steps, s := Then(INITIAL, steps, s, PersistReply(0, true));
    assert s == RUNNING.(log := ENDED.log, turns := [running.(phase := Replied)]);
    steps, s := Then(INITIAL, steps, s, Finish(0, Id(2)));
    assert s == RUNNING.(log := ENDED.log, hist := ENDED.hist, turns := [running.(phase := Finished)]);
    steps, s := Then(INITIAL, steps, s, ClearFlag(0));
    assert s == ENDED.(expiry := None, turns := [running.(phase := Cleared)]);
    steps, s := Then(INITIAL, steps, s, ExpireStream(0));
    assert s.turns == ENDED.turns;
  }

  lemma LossIsReachable() returns (steps: seq<Step>, s: State, losing: seq<Step>)
    ensures Legal(INITIAL, steps) && TimelyRun(INITIAL, steps) && Exec(INITIAL, steps) == s
    ensures s.flag.None? && !LossProof(s) && LosingRun(s, losing)
  {
    hide Legal, Exec, TimelyRun, Inv, LosingRun;
    steps := FirstTurnEnds();
    steps, s := Then(INITIAL, steps, ENDED, Tick(301.0));
    InitialInv();
    RunKeepsInv(INITIAL, steps);
    losing := StaleKeyLosesEntries(s);
  }

  /* ---- The gap check ---- */

  predicate StreamCursorHasGap(s: State, cursor: Cursor) {
    cursor != STREAM_CURSOR_ORIGIN && s.base < |s.hist| && Precedes(cursor, s.hist[s.base].id)
  }

  // The alarm goes by time: it is raised at a real cursor exactly when the first entry the key has kept is of
  // a later millisecond, or of the same one with a higher number.
  lemma GapAlarmGoesByTime(s: State, cursor: Cursor)
    ensures s.base >= |s.hist| || (cursor.millis == 0 && cursor.sequence == 0) ==> !StreamCursorHasGap(s, cursor)
    ensures s.base < |s.hist| && (cursor.millis > 0 || cursor.sequence > 0) ==>
              var first := s.hist[s.base].id;
              && (cursor.millis < first.millis ==> StreamCursorHasGap(s, cursor))
              && (cursor.millis > first.millis ==> !StreamCursorHasGap(s, cursor))
              && (cursor.millis == first.millis ==>
                    (StreamCursorHasGap(s, cursor) <==> cursor.sequence < first.sequence))
  {
  }

  // Sound: no gap reported at a real cursor means nothing after it is gone.
  lemma NoGapMeansNothingLost(s: State, cursor: Cursor, i: nat)
    requires IdsAscend(s.hist) && s.base < |s.hist| && cursor != STREAM_CURSOR_ORIGIN
    requires !StreamCursorHasGap(s, cursor)
    requires i < |s.hist| && Precedes(cursor, s.hist[i].id)
    ensures i >= s.base
  {
  }

  // For a reader that last saw entry `k` of a non-empty stream: the alarm is raised iff that entry is
  // gone, entries are lost iff its successor is, so the alarm is false exactly when `base == k + 1`.
  lemma GapAlarmExact(s: State, k: nat)
    requires IdsAscend(s.hist) && k < |s.hist| && s.base < |s.hist|
    ensures StreamCursorHasGap(s, s.hist[k].id) <==> k < s.base
    ensures (exists i :: 0 <= i < s.base && Precedes(s.hist[k].id, s.hist[i].id)) <==> k + 1 < s.base
  {
    if k + 1 < s.base {
      assert Precedes(s.hist[k].id, s.hist[k + 1].id);
    }
    forall i | 0 <= i < s.base && Precedes(s.hist[k].id, s.hist[i].id)
      ensures k < i
    {
      assert i < k ==> Precedes(s.hist[i].id, s.hist[k].id);
    }
  }

  // At the origin nothing is ever reported, whatever is gone.
  lemma OriginNeverAlarms(s: State)
    requires IdsAscend(s.hist) && s.base <= |s.hist|
    ensures !StreamCursorHasGap(s, STREAM_CURSOR_ORIGIN)
    ensures (exists i :: 0 <= i < s.base && Precedes(STREAM_CURSOR_ORIGIN, s.hist[i].id)) <==> s.base > 0
  {
    if s.base > 0 {
      assert Precedes(STREAM_CURSOR_ORIGIN, s.hist[0].id);
    }
  }
}
