/** What the invariant means over whole runs, and exactly when the protocol's promises fail. */
module TurnSafety {
  import opened Prelude
  import opened StreamCursors
  import opened TurnProtocol

  /* ---- Safety of timely runs ---- */

  function Slices(hist: seq<Entry>, turns: nat): seq<Entry> {
    if turns == 0 then [] else Slices(hist, turns - 1) + OfTurn(hist, turns - 1)
  }

  lemma {:induction false} SlicesAppend(hist: seq<Entry>, e: Entry, n: nat)
    requires forall i :: 0 <= i < |hist| ==> hist[i].turn <= e.turn
    ensures Slices(hist + [e], n) == if n <= e.turn then Slices(hist, n) else Slices(hist, n) + [e]
  {
    hide OfTurn;
    if n > 0 {
      var earlier, own := Slices(hist, n - 1), OfTurn(hist, n - 1);
      SlicesAppend(hist, e, n - 1);
      OfTurnAppend(hist, e, n - 1);
      if n - 1 > e.turn {
        OfTurnAbsent(hist, n - 1);
        assert earlier + [e] + ([] + []) == earlier + [] + [e];
      } else if n - 1 == e.turn {
        assert earlier + (own + [e]) == earlier + own + [e];
      } else {
        assert own + [] == own;
      }
    }
  }

  lemma {:induction false} SlicesConcatenate(hist: seq<Entry>, turns: nat)
    requires TagsAscend(hist, turns)
    ensures Slices(hist, turns) == hist
    decreases |hist|
  {
    if |hist| == 0 {
      SlicesEmpty(turns);
    } else {
      var init, e := hist[..|hist| - 1], hist[|hist| - 1];
      assert hist == init + [e];
      SlicesConcatenate(init, turns);
      SlicesAppend(init, e, turns);
    }
  }

  lemma {:induction false} SlicesEmpty(turns: nat)
    ensures Slices([], turns) == []
  {
    if turns > 0 {
      SlicesEmpty(turns - 1);
    }
  }

  lemma InitialInv()
    ensures Inv(INITIAL)
  {
  }

  // At most one live turn, a stream of contiguous slices that end well, the failure path
  // taken exactly by the failed ones, and a (user assistant?)* log numbered from 1.
  lemma TimelyRunsAreSafe(steps: seq<Step>)
    requires Legal(INITIAL, steps) && TimelyRun(INITIAL, steps)
    ensures Safe(Exec(INITIAL, steps))
  {
    InitialInv();
    RunKeepsInv(INITIAL, steps);
    InvIsSafe(Exec(INITIAL, steps));
  }

  predicate OneLiveTurn(s: State) {
    forall t, u | 0 <= t < |s.turns| && 0 <= u < |s.turns| && t != u ::
      !Live(s.turns[t].phase) || !Live(s.turns[u].phase)
  }

  predicate LiveTurnsHoldFlag(s: State) {
    forall t | 0 <= t < |s.turns| && Live(s.turns[t].phase) ::
      s.flag.Some? && s.flag.value.cursor == s.turns[t].cursor
  }

  predicate FinishedSlicesEndWell(s: State) {
    forall t | 0 <= t < |s.turns| && (s.turns[t].phase == Cleared || s.turns[t].phase == Ended) ::
      if t in s.failures then Failed(OfTurn(s.hist, t)) else Answered(OfTurn(s.hist, t))
  }

  predicate Safe(s: State) {
    OneLiveTurn(s)
    && LiveTurnsHoldFlag(s)
    && Slices(s.hist, |s.turns|) == s.hist
    && FinishedSlicesEndWell(s)
    && LogShaped(s.log)
  }

  lemma SlicesEndWell(s: State)
    requires SlicesMatch(s.hist, s.failures, s.turns)
    ensures FinishedSlicesEndWell(s)
  {
    hide Answered, Failed, Open, OfTurn;
    forall t | 0 <= t < |s.turns|
      ensures SliceMatches(s.turns[t].phase, OfTurn(s.hist, t), t in s.failures)
    {
    }
  }

  lemma ExclusiveTurnsHoldFlag(s: State)
    requires Exclusive(s.now, s.flag, s.turns)
    ensures OneLiveTurn(s) && LiveTurnsHoldFlag(s)
  {
    hide Exclusive;
    forall t | 0 <= t < |s.turns| && Live(s.turns[t].phase)
      ensures t == |s.turns| - 1 && s.flag.Some? && s.flag.value.cursor == s.turns[t].cursor
    {
      LiveTurnIsNewest(s.now, s.flag, s.turns, t);
    }
  }

  lemma InvIsSafe(s: State)
    requires Inv(s)
    ensures Safe(s)
  {
    hide KeysConsistent, IdsAscend, TagsAscend, CursorsSplit, ExpirySafe, LogShaped, Exclusive, SlicesMatch, Slices,
         OneLiveTurn, LiveTurnsHoldFlag, FinishedSlicesEndWell;
    SlicesConcatenate(s.hist, |s.turns|);
    ExclusiveTurnsHoldFlag(s);
    SlicesEndWell(s);
  }

  /* ---- Mutual exclusion needs the timing promise ---- */

  // A second send is refused for as long as the live turn is punctual, and accepted once it is not.
  lemma SecondSendRefusedIffPunctual(s: State, d: real)
    requires Inv(s) && Timely(s) && d >= 0.0
    requires |s.turns| > 0 && Live(s.turns[|s.turns| - 1].phase)
    ensures var s' := Elapse(s, d);
            Apply(s', Send) == s' <==> Punctual(s'.now, s.turns[|s.turns| - 1])
  {
    var s' := Elapse(s, d);
    LiveTurnIsNewest(s.now, s.flag, s.turns, |s.turns| - 1);
    assert s'.flag.None? ==> |Apply(s', Send).turns| == |s'.turns| + 1;
  }

  // One more step at the end of a run.
  lemma {:induction false} RunThen(s: State, steps: seq<Step>, step: Step)
    requires Legal(s, steps) && Enabled(Exec(s, steps), step)
    ensures Legal(s, steps + [step]) && Exec(s, steps + [step]) == Apply(Exec(s, steps), step)
    ensures TimelyRun(s, steps + [step])
       <==> TimelyRun(s, steps) && Timely(Apply(Exec(s, steps), step))
    decreases |steps|
  {
    var extended := steps + [step];
    if |steps| > 0 {
      RunThen(Apply(s, steps[0]), steps[1..], step);
      assert extended[0] == steps[0] && extended[1..] == steps[1..] + [step];
    } else {
      assert extended[1..] == [];
    }
  }

  lemma Then(s0: State, steps: seq<Step>, s: State, step: Step) returns (steps': seq<Step>, s': State)
    requires Legal(s0, steps) && Exec(s0, steps) == s && Enabled(s, step)
    ensures Legal(s0, steps') && Exec(s0, steps') == s' && s' == Apply(s, step)
    ensures TimelyRun(s0, steps) && Timely(s') ==> TimelyRun(s0, steps')
  {
    RunThen(s0, steps, step);
    steps', s' := steps + [step], Apply(s, step);
  }

  function Id(n: nat): Cursor { Cursor(n, 0) }

  // A first turn, accepted and started at once.
  const RUNNING := State(0.0, Some(Flag(STREAM_CURSOR_ORIGIN, 300.0)), [Entry(Id(1), 0, UserMessage)], 0, None,
                         [Row(1, User, 0)], map[], [Turn(Running, STREAM_CURSOR_ORIGIN, 0.0, 0.0, 0, None)])

  lemma FirstTurnStarts() returns (steps: seq<Step>)
    ensures Legal(INITIAL, steps) && Exec(INITIAL, steps) == RUNNING && TimelyRun(INITIAL, steps)
  {
    hide Legal, Exec, TimelyRun;
    var s := INITIAL;
    steps := [];
    EmptyRun(INITIAL);
    steps, s := Then(INITIAL, steps, s, Send);
    steps, s := Then(INITIAL, steps, s, PersistUser(0));
    assert s.turns == [Turn(Persisted, STREAM_CURSOR_ORIGIN, 0.0, 0.0, 0, None)];
    steps, s := Then(INITIAL, steps, s, Announce(0, Id(1)));
    steps, s := Then(INITIAL, steps, s, Enqueue(0));
    assert s.turns == [Turn(Queued, STREAM_CURSOR_ORIGIN, 0.0, 0.0, 0, None)];
    steps, s := Then(INITIAL, steps, s, Start(0));
    assert s == RUNNING;
  }

  // Its worker dies at once. When the flag has lapsed a second turn is accepted, and all there is of the
  // first one is its user message.
  lemma DeadTurnCanBeRetried() returns (steps: seq<Step>, s: State)
    ensures Legal(INITIAL, steps) && TimelyRun(INITIAL, steps) && Exec(INITIAL, steps) == s
    ensures |s.turns| == 2 && s.turns[0].phase == Lost && Live(s.turns[1].phase)
    ensures OfTurn(s.hist, 0) == [Entry(Id(1), 0, UserMessage)] == s.hist
  {
    hide Legal, Exec, TimelyRun;
    s := RUNNING;
    steps := FirstTurnStarts();
    steps, s := Then(INITIAL, steps, s, Die(0));
    assert s == RUNNING.(turns := [RUNNING.turns[0].(phase := Lost)]);
    steps, s := Then(INITIAL, steps, s, Tick(300.0));
    assert s == RUNNING.(now := 300.0, flag := None, turns := [RUNNING.turns[0].(phase := Lost)]);
    steps, s := Then(INITIAL, steps, s, Send);
    assert s.turns[1] == Turn(Reserved, Id(1), 300.0, 300.0, 1, None);
    assert s.hist[..0] == [];
  }

  // It is still running when its flag lapses, and a second turn is accepted.
  const OVERLAP := State(300.0, Some(Flag(Id(1), 600.0)), RUNNING.hist, 0, None,
                         [Row(1, User, 0), Row(2, User, 1)], map[],
                         [RUNNING.turns[0], Turn(Persisted, Id(1), 300.0, 300.0, 1, None)])

  lemma LateJobOverlaps() returns (steps: seq<Step>)
    ensures Legal(RUNNING, steps) && Exec(RUNNING, steps) == OVERLAP && !OneLiveTurn(OVERLAP)
  {
    hide Legal, Exec, TimelyRun, Timely, MaxSequence;
    var s := RUNNING;
    steps := [];
    EmptyRun(RUNNING);
    MaxSequenceShaped(RUNNING.log);
    steps, s := Then(RUNNING, steps, s, Tick(300.0));
    assert s == RUNNING.(now := 300.0, flag := None);
    steps, s := Then(RUNNING, steps, s, Send);
    var accepted := OVERLAP.turns[1].(phase := Reserved);
    assert s == OVERLAP.(log := RUNNING.log, turns := [RUNNING.turns[0], accepted]);
    steps, s := Then(RUNNING, steps, s, PersistUser(1));
    assert s.turns == OVERLAP.turns;
    assert Live(OVERLAP.turns[0].phase) && Live(OVERLAP.turns[1].phase);
  }

  // From there the first reply lands behind the second user row, and the first job's cleanup deletes
  // the second turn's flag.
  lemma LateJobCorruptsLog() returns (steps: seq<Step>, s: State)
    ensures Legal(OVERLAP, steps) && Exec(OVERLAP, steps) == s
    ensures s.log == [Row(1, User, 0), Row(2, User, 1), Row(3, Assistant, 0)] && !LogShaped(s.log)
    ensures |s.turns| == 2 && Live(s.turns[1].phase) && s.flag.None?
  {
    hide Legal, Exec, TimelyRun, Timely, MaxSequence;
    s := OVERLAP;
    steps := [];
    EmptyRun(OVERLAP);
    MaxSequenceShaped(OVERLAP.log);
    steps, s := Then(OVERLAP, steps, s, PersistReply(0, true));
    assert s.log == [Row(1, User, 0), Row(2, User, 1), Row(3, Assistant, 0)];
    assert s.turns == [RUNNING.turns[0].(phase := Replied), OVERLAP.turns[1]];
    steps, s := Then(OVERLAP, steps, s, Finish(0, Id(2)));
    steps, s := Then(OVERLAP, steps, s, ClearFlag(0));
    assert s.log[1].role == User && s.log[2].turn != s.log[1].turn;
  }

  lemma EmptyRun(s: State)
    ensures Legal(s, []) && Exec(s, []) == s && (TimelyRun(s, []) <==> Timely(s))
  {
  }
}
