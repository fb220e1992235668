/** The reply job as it runs: one pass over the events of a turn, with its failure path and its
    always-run cleanup, over the Redis keys and Postgres tables of one conversation. */
module ChatTask {
  import opened Prelude
  import opened StreamCursors
  import opened TurnProtocol
  import opened TurnSafety

  // What the turn's event generator does next: yield an event, write the reply, yield MessageDone.
  datatype Action = Yield | WriteReply(saved: bool) | YieldDone

  // The generator's order, from the job's phase; it may stop anywhere by raising.
  predicate GeneratorOrder(phase: Phase, actions: seq<Action>)
    decreases |actions|
  {
    |actions| == 0
    || match actions[0]
       case Yield => (phase == Running || phase == Replied) && GeneratorOrder(phase, actions[1..])
       case WriteReply(_) => phase == Running && GeneratorOrder(Replied, actions[1..])
       case YieldDone => phase == Replied && |actions| == 1
  }

  // Without an exception the generator ends with MessageDone.
  predicate GeneratorRun(actions: seq<Action>, raises: bool) {
    GeneratorOrder(Running, actions) && (!raises ==> |actions| > 0 && actions[|actions| - 1] == YieldDone)
  }

  // A step without its stream id.
  datatype Shape =
    | StartShape(t: nat) | PublishShape(t: nat) | ReplyShape(t: nat, saved: bool) | DoneShape(t: nat)
    | TagShape(t: nat) | RecordShape(t: nat, stored: bool) | ClearShape(t: nat) | ExpireShape(t: nat) | OtherShape

  function ShapeOf(step: Step): Shape {
    match step
    case Start(t) => StartShape(t)
    case Publish(t, _) => PublishShape(t)
    case PersistReply(t, saved) => ReplyShape(t, saved)
    case Finish(t, _) => DoneShape(t)
    case Tag(t, _) => TagShape(t)
    case Record(t, stored) => RecordShape(t, stored)
    case ClearFlag(t) => ClearShape(t)
    case ExpireStream(t) => ExpireShape(t)
    case _ => OtherShape
  }

  function ShapesOf(steps: seq<Step>): seq<Shape> {
    seq(|steps|, i requires 0 <= i < |steps| => ShapeOf(steps[i]))
  }

  function ActionShape(t: nat, action: Action): Shape {
    match action
    case Yield => PublishShape(t)
    case WriteReply(saved) => ReplyShape(t, saved)
    case YieldDone => DoneShape(t)
  }

  function ActionShapes(t: nat, actions: seq<Action>): seq<Shape> {
    seq(|actions|, i requires 0 <= i < |actions| => ActionShape(t, actions[i]))
  }

  // try: events; except: publish the tag, record the failure; finally: delete the flag, expire the stream.
  function JobShapes(t: nat, actions: seq<Action>, raises: bool, stored: bool): seq<Shape> {
    [StartShape(t)] + ActionShapes(t, actions)
    + (if raises then [TagShape(t), RecordShape(t, stored)] else [])
    + [ClearShape(t), ExpireShape(t)]
  }

  function PhaseAfter(phase: Phase, actions: seq<Action>): Phase
    decreases |actions|
  {
    if |actions| == 0 then phase
    else
      var next := match actions[0] case Yield => phase case WriteReply(_) => Replied case YieldDone => Finished;
      PhaseAfter(next, actions[1..])
  }

  // A generator that raises leaves the job in a phase where it can still be tagged.
  lemma {:induction false} OrderEndsTaggable(phase: Phase, actions: seq<Action>)
    requires GeneratorOrder(phase, actions) && (phase == Running || phase == Replied || phase == Finished)
    ensures var after := PhaseAfter(phase, actions);
            (after == Running || after == Replied || after == Finished)
            && (|actions| > 0 && actions[|actions| - 1] == YieldDone ==> after == Finished)
    decreases |actions|
  {
    if |actions| > 0 {
      var next := match actions[0] case Yield => phase case WriteReply(_) => Replied case YieldDone => Finished;
      OrderEndsTaggable(next, actions[1..]);
    }
  }

  lemma PhasesOfRun(actions: seq<Action>, raises: bool)
    requires GeneratorRun(actions, raises)
    ensures var after := PhaseAfter(Running, actions);
            (after == Running || after == Replied || after == Finished) && (!raises ==> after == Finished)
  {
    OrderEndsTaggable(Running, actions);
  }

  function NextId(s: State): (id: Cursor)
    ensures FreshId(s, id)
  {
    if |s.hist| == 0 then Cursor(0, 1)
    else var last := s.hist[|s.hist| - 1].id; Cursor(last.millis, last.sequence + 1)
  }

  function ActionStep(t: nat, action: Action, id: Cursor): Step {
    match action
    case Yield => Publish(t, id)
    case WriteReply(saved) => PersistReply(t, saved)
    case YieldDone => Finish(t, id)
  }

  ghost predicate StepOf(step: Step, t: nat, action: Action) {
    exists id :: step == ActionStep(t, action, id)
  }

  lemma NextActionEnabled(s: State, t: nat, actions: seq<Action>)
    requires t < |s.turns| && |actions| > 0 && GeneratorOrder(s.turns[t].phase, actions)
    ensures Enabled(s, ActionStep(t, actions[0], NextId(s)))
  {
  }

  lemma StepMoves(s: State, step: Step, t: nat, action: Action)
    requires Enabled(s, step) && StepOf(step, t, action)
    ensures t < |s.turns|
    ensures var s' := Apply(s, step);
            t < |s'.turns|
            && s'.turns[t].phase == match action
                                    case Yield => s.turns[t].phase
                                    case WriteReply(_) => Replied
                                    case YieldDone => Finished
  {
  }

  lemma ShapesThen(steps: seq<Step>, step: Step)
    ensures ShapesOf(steps + [step]) == ShapesOf(steps) + [ShapeOf(step)]
  {
  }

  lemma Extend(s0: State, steps: seq<Step>, s: State, step: Step)
    requires Legal(s0, steps) && Exec(s0, steps) == s && Enabled(s, step)
    ensures Legal(s0, steps + [step]) && Exec(s0, steps + [step]) == Apply(s, step)
    ensures ShapesOf(steps + [step]) == ShapesOf(steps) + [ShapeOf(step)]
  {
    RunThen(s0, steps, step);
    ShapesThen(steps, step);
  }

  lemma EmptyShapes(t: nat)
    ensures ShapesOf([]) == [] && ActionShapes(t, []) == []
  {
  }

  lemma ActionShapesThen(t: nat, actions: seq<Action>, i: nat)
    requires i < |actions|
    ensures ActionShapes(t, actions[..i + 1]) == ActionShapes(t, actions[..i]) + [ActionShape(t, actions[i])]
  {
  }

  lemma OneStep(s: State, step: Step)
    requires Enabled(s, step)
    ensures Legal(s, [step]) && Exec(s, [step]) == Apply(s, step) && ShapesOf([step]) == [ShapeOf(step)]
  {
    hide Legal, Exec, Apply, Enabled, ShapesOf;
    EmptyRun(s);
    EmptyShapes(0);
    Extend(s, [], s, step);
    assert [] + [step] == [step] && [] + [ShapeOf(step)] == [ShapeOf(step)];
  }

  lemma TwoSteps(s: State, first: Step, middle: State, second: Step)
    requires Enabled(s, first) && Apply(s, first) == middle && Enabled(middle, second)
    ensures Legal(s, [first, second]) && Exec(s, [first, second]) == Apply(middle, second)
    ensures ShapesOf([first, second]) == [ShapeOf(first), ShapeOf(second)]
  {
    hide Legal, Exec, Apply, Enabled, ShapesOf;
    OneStep(s, first);
    Extend(s, [first], middle, second);
    assert [first] + [second] == [first, second];
  }

  // Two runs in a row.
  lemma {:induction false} Join(s0: State, a: seq<Step>, s1: State, b: seq<Step>)
    requires Legal(s0, a) && Exec(s0, a) == s1 && Legal(s1, b)
    ensures Legal(s0, a + b) && Exec(s0, a + b) == Exec(s1, b)
    ensures ShapesOf(a + b) == ShapesOf(a) + ShapesOf(b)
    decreases |a|
  {
    if |a| == 0 {
      assert a + b == b;
    } else {
      Join(Apply(s0, a[0]), a[1..], s1, b);
      assert (a + b)[1..] == a[1..] + b;
    }
  }

  lemma FinishIs(s: State, t: nat, id: Cursor)
    requires InPhase(s, t, Replied) && FreshId(s, id)
    ensures Enabled(s, Finish(t, id))
    ensures Apply(s, Finish(t, id)) == SetPhase(XAdd(s, Entry(id, t, MessageDone)), t, Finished)
  {
  }

  lemma TagIs(s: State, t: nat, id: Cursor)
    requires InPhase(s, t, Running) || InPhase(s, t, Replied) || InPhase(s, t, Finished)
    requires FreshId(s, id)
    ensures Enabled(s, Tag(t, id))
    ensures Apply(s, Tag(t, id)) == SetPhase(XAdd(s, Entry(id, t, FailureTag)), t, Tagged)
  {
  }

  function StoredRows(failed: map<nat, bool>): set<nat> {
    set t | t in failed && failed[t]
  }

  lemma StoredOneMore(failed: map<nat, bool>, t: nat, stored: bool)
    ensures StoredRows(Noted(failed, t, stored)) == StoredRows(failed) + (if stored then {t} else {})
  {
  }

  class ConversationStore {
    var now: real
    var flag: Option<Flag>
    var stream: seq<Entry>
    var expiry: Option<real>
    var lastId: Cursor
    var log: seq<Row>
    var failures: set<nat>
    ghost var failed: map<nat, bool>
    ghost var expired: seq<Entry>
    ghost var turns: seq<Turn>

    ghost function View(): State
      reads this
    {
      State(now, flag, expired + stream, |expired|, expiry, log, failed, turns)
    }

    // The server's id generator is never behind an id it has handed out, and the failure rows are those stored.
    ghost predicate Valid()
      reads this
    {
      var hist := expired + stream;
      (|hist| > 0 ==> !Precedes(lastId, hist[|hist| - 1].id))
      && failures == StoredRows(failed)
    }

    method XAddEntry(turn: nat, kind: Kind) returns (id: Cursor)
      requires Valid()
      modifies this`stream, this`lastId
      ensures Valid() && FreshId(old(View()), id)
      ensures View() == XAdd(old(View()), Entry(id, turn, kind))
      ensures stream == old(stream) + [Entry(id, turn, kind)]
    {
      id := Cursor(lastId.millis, lastId.sequence + 1);
      lastId := id;
      stream := stream + [Entry(id, turn, kind)];
      assert expired + stream == (expired + old(stream)) + [Entry(id, turn, kind)];
    }

    method RefreshFlag(ttl: real)
      modifies this`flag
      ensures View() == ExpireFlag(old(View()), ttl)
    {
      if flag.Some? {
        flag := Some(flag.value.(deadline := now + ttl));
      }
    }

    method ExpireStreamKey(ttl: real)
      modifies this`expiry
      ensures View() == ExpireKey(old(View()), ttl)
    {
      if |stream| > 0 {
        expiry := Some(now + ttl);
      }
    }

    method AppendMessage(role: Role, turn: nat)
      modifies this`log
      ensures View() == AppendRow(old(View()), role, turn)
    {
      log := log + [Row(MaxSequence(log) + 1, role, turn)];
    }

    /* ---- The send endpoint ---- */

    // Reads the last cursor and sets the flag with NX; a held flag means 409.
    method ReserveTurn() returns (reserved: bool)
      modifies this`flag, this`turns
      ensures reserved == old(flag).None?
      ensures View() == Apply(old(View()), Send)
    {
      reserved := flag.None?;
      if reserved {
        var cursor := if |stream| == 0 then STREAM_CURSOR_ORIGIN else stream[|stream| - 1].id;
        flag := Some(Flag(cursor, now + FLAG_TTL));
        turns := turns + [Turn(Reserved, cursor, now, now, |expired + stream|, expiry)];
      }
    }

    method PersistUserMessage(t: nat)
      requires Enabled(View(), PersistUser(t))
      modifies this`log, this`turns
      ensures View() == Apply(old(View()), PersistUser(t))
    {
      AppendMessage(User, t);
      turns := turns[t := turns[t].(phase := Persisted)];
    }

    method AnnounceUserMessage(t: nat) returns (id: Cursor)
      requires Valid() && InPhase(View(), t, Persisted)
      modifies this`stream, this`lastId, this`turns
      ensures Valid() && FreshId(old(View()), id)
      ensures View() == Apply(old(View()), Announce(t, id))
    {
      id := XAddEntry(t, UserMessage);
      turns := turns[t := turns[t].(phase := Announced)];
    }

    /* ---- The reply job, one command at a time ---- */

    // Refreshes the flag's TTL; the cursor stored in it stays.
    method BeginJob(t: nat)
      requires InPhase(View(), t, Queued)
      modifies this`flag, this`turns
      ensures Enabled(old(View()), Start(t)) && InPhase(View(), t, Running)
      ensures View() == Apply(old(View()), Start(t))
    {
      RefreshFlag(FLAG_TTL);
      turns := turns[t := turns[t].(phase := Running, startedAt := now)];
    }

    method PublishProgress(t: nat) returns (id: Cursor)
      requires Valid() && (InPhase(View(), t, Running) || InPhase(View(), t, Replied))
      modifies this`stream, this`lastId
      ensures Valid() && FreshId(old(View()), id)
      ensures View() == Apply(old(View()), Publish(t, id))
    {
      hide MaxSequence, Precedes;
      id := XAddEntry(t, Progress);
    }

    method WriteReplyRow(t: nat, saved: bool)
      requires InPhase(View(), t, Running)
      modifies this`log, this`turns
      ensures View() == Apply(old(View()), PersistReply(t, saved))
    {
      if saved {
        AppendMessage(Assistant, t);
      }
      turns := turns[t := turns[t].(phase := Replied)];
    }

    method PublishDone(t: nat) returns (id: Cursor)
      requires Valid() && InPhase(View(), t, Replied)
      modifies this`stream, this`lastId, this`turns
      ensures Valid() && FreshId(old(View()), id)
      ensures View() == Apply(old(View()), Finish(t, id))
    {
      hide Apply, Enabled, MaxSequence, Precedes, FreshId;
      id := XAddEntry(t, MessageDone);
      FinishIs(old(View()), t, id);
      turns := turns[t := turns[t].(phase := Finished)];
    }

    method PublishError(t: nat) returns (id: Cursor)
      requires Valid()
      requires InPhase(View(), t, Running) || InPhase(View(), t, Replied) || InPhase(View(), t, Finished)
      modifies this`stream, this`lastId, this`turns
      ensures Valid() && FreshId(old(View()), id)
      ensures Enabled(old(View()), Tag(t, id)) && InPhase(View(), t, Tagged)
      ensures View() == Apply(old(View()), Tag(t, id))
    {
      hide Apply, Enabled, MaxSequence, Precedes, FreshId;
      id := XAddEntry(t, FailureTag);
      TagIs(old(View()), t, id);
      turns := turns[t := turns[t].(phase := Tagged)];
    }

    // A write the database rejects is logged and swallowed.
    method RecordTurnFailure(t: nat, stored: bool)
      requires Valid() && InPhase(View(), t, Tagged)
      modifies this`failures, this`failed, this`turns
      ensures Valid() && Enabled(old(View()), Record(t, stored)) && InPhase(View(), t, Recorded)
      ensures failures == old(failures) + (if stored then {t} else {})
      ensures View() == Apply(old(View()), Record(t, stored))
    {
      hide StoredRows, Noted, Precedes;
      StoredOneMore(failed, t, stored);
      if stored {
        failures := failures + {t};
      }
      failed := Noted(failed, t, stored);
      turns := turns[t := turns[t].(phase := Recorded)];
    }

    method DeleteFlag(t: nat)
      requires InPhase(View(), t, Finished) || InPhase(View(), t, Recorded)
      modifies this`flag, this`turns
      ensures flag == None
      ensures Enabled(old(View()), ClearFlag(t)) && InPhase(View(), t, Cleared)
      ensures View() == Apply(old(View()), ClearFlag(t))
    {
      flag := None;
      turns := turns[t := turns[t].(phase := Cleared)];
    }

    method ExpireTurnStream(t: nat)
      requires InPhase(View(), t, Cleared)
      modifies this`expiry, this`turns
      ensures stream != [] ==> expiry == Some(now + STREAM_TTL)
      ensures Enabled(old(View()), ExpireStream(t)) && InPhase(View(), t, Ended)
      ensures View() == Apply(old(View()), ExpireStream(t))
    {
      ExpireStreamKey(STREAM_TTL);
      turns := turns[t := turns[t].(phase := Ended)];
    }

    // One event of the generator is one step of the protocol.
    method Take(t: nat, action: Action) returns (ghost step: Step)
      requires Valid() && Enabled(View(), ActionStep(t, action, NextId(View())))
      modifies this
      ensures Valid() && Enabled(old(View()), step) && View() == Apply(old(View()), step)
      ensures ShapeOf(step) == ActionShape(t, action) && StepOf(step, t, action)
    {
      match action {
        case Yield =>
          var id := PublishProgress(t);
          step := Publish(t, id);
          assert step == ActionStep(t, action, id);
        case WriteReply(saved) =>
          WriteReplyRow(t, saved);
          step := PersistReply(t, saved);
          assert step == ActionStep(t, action, STREAM_CURSOR_ORIGIN);
        case YieldDone =>
          var id := PublishDone(t);
          step := Finish(t, id);
          assert step == ActionStep(t, action, id);
      }
    }

    // The events of the turn, up to the end or to where the generator raises.
    method PublishEvents(t: nat, actions: seq<Action>) returns (ghost steps: seq<Step>)
      requires Valid() && InPhase(View(), t, Running) && GeneratorOrder(Running, actions)
      modifies this
      ensures Valid() && Legal(old(View()), steps) && View() == Exec(old(View()), steps)
      ensures ShapesOf(steps) == ActionShapes(t, actions)
      ensures InPhase(View(), t, PhaseAfter(Running, actions))
    {
      hide Legal, Exec, Apply, ShapesOf, ActionShapes, Precedes;
      steps := [];
      EmptyRun(View());
      EmptyShapes(t);
      assert actions[..0] == [] && actions[0..] == actions;
      for i := 0 to |actions|
        invariant Valid() && Legal(old(View()), steps) && View() == Exec(old(View()), steps)
        invariant ShapesOf(steps) == ActionShapes(t, actions[..i])
        invariant t < |turns| && GeneratorOrder(turns[t].phase, actions[i..])
        invariant PhaseAfter(turns[t].phase, actions[i..]) == PhaseAfter(Running, actions)
      {
        ghost var before := View();
        assert actions[i..][1..] == actions[i + 1..];
        ActionShapesThen(t, actions, i);
        NextActionEnabled(before, t, actions[i..]);
        ghost var step := Take(t, actions[i]);
        StepMoves(before, step, t, actions[i]);
        Extend(old(View()), steps, before, step);
        steps := steps + [step];
      }
      assert actions[..|actions|] == actions;
    }

    // except BaseException: the tag, then the failure row.
    method FailTurn(t: nat, stored: bool) returns (ghost steps: seq<Step>)
      requires Valid()
      requires InPhase(View(), t, Running) || InPhase(View(), t, Replied) || InPhase(View(), t, Finished)
      modifies this
      ensures Valid() && Legal(old(View()), steps) && View() == Exec(old(View()), steps)
      ensures ShapesOf(steps) == [TagShape(t), RecordShape(t, stored)] && InPhase(View(), t, Recorded)
    {
      hide Legal, Exec, ShapesOf, Apply, Enabled, InPhase, FreshId, Precedes;
      ghost var s := View();
      var id := PublishError(t);
      ghost var tagged := View();
      RecordTurnFailure(t, stored);
      TwoSteps(s, Tag(t, id), tagged, Record(t, stored));
      steps := [Tag(t, id), Record(t, stored)];
    }

    // finally: delete the flag, then expire the stream.
    method CleanUp(t: nat) returns (ghost steps: seq<Step>)
      requires Valid() && (InPhase(View(), t, Finished) || InPhase(View(), t, Recorded))
      modifies this
      ensures Valid() && Legal(old(View()), steps) && View() == Exec(old(View()), steps)
      ensures ShapesOf(steps) == [ClearShape(t), ExpireShape(t)] && InPhase(View(), t, Ended)
      ensures flag == None && (stream != [] ==> expiry == Some(now + STREAM_TTL))
    {
      hide Legal, Exec, ShapesOf, Apply, Enabled, InPhase, FreshId, Precedes;
      ghost var s := View();
      DeleteFlag(t);
      ghost var cleared := View();
      ExpireTurnStream(t);
      TwoSteps(s, ClearFlag(t), cleared, ExpireStream(t));
      steps := [ClearFlag(t), ExpireStream(t)];
    }

    method RunEvents(t: nat, actions: seq<Action>) returns (ghost steps: seq<Step>)
      requires Valid() && InPhase(View(), t, Queued) && GeneratorOrder(Running, actions)
      modifies this
      ensures Valid() && Legal(old(View()), steps) && View() == Exec(old(View()), steps)
      ensures ShapesOf(steps) == [StartShape(t)] + ActionShapes(t, actions)
      ensures InPhase(View(), t, PhaseAfter(Running, actions))
    {
      hide Legal, Exec, ShapesOf, ActionShapes, GeneratorOrder, PhaseAfter, Apply, Enabled, InPhase, Precedes;
      ghost var s := View();
      BeginJob(t);
      ghost var started := View();
      OneStep(s, Start(t));
      ghost var events := PublishEvents(t, actions);
      Join(s, [Start(t)], started, events);
      steps := [Start(t)] + events;
    }

    // Whatever happened, the cleanup runs; on an exception the failure path runs before it.
    method Settle(t: nat, raises: bool, stored: bool) returns (ghost steps: seq<Step>)
      requires Valid()
      requires InPhase(View(), t, Finished)
               || (raises && (InPhase(View(), t, Running) || InPhase(View(), t, Replied)))
      modifies this
      ensures Valid() && Legal(old(View()), steps) && View() == Exec(old(View()), steps)
      ensures ShapesOf(steps)
           == (if raises then [TagShape(t), RecordShape(t, stored)] else []) + [ClearShape(t), ExpireShape(t)]
      ensures flag == None && InPhase(View(), t, Ended)
      ensures stream != [] ==> expiry == Some(now + STREAM_TTL)
    {
      hide Legal, Exec, ShapesOf, Apply, Enabled, InPhase, Precedes;
      ghost var s := View();
      if raises {
        ghost var failing := FailTurn(t, stored);
        ghost var failed := View();
        ghost var cleaning := CleanUp(t);
        Join(s, failing, failed, cleaning);
        steps := failing + cleaning;
      } else {
        steps := CleanUp(t);
        assert [] + [ClearShape(t), ExpireShape(t)] == [ClearShape(t), ExpireShape(t)];
      }
    }

    // The whole job is a run of the protocol: start, the events up to where the generator stops, the tag
    // and the failure row exactly if it raised, the cleanup always. `stored` is whether the database
    // takes the failure row.
    method GenerateChatReply(t: nat, actions: seq<Action>, raises: bool, stored: bool)
      returns (ghost steps: seq<Step>)
      requires Valid() && InPhase(View(), t, Queued) && GeneratorRun(actions, raises)
      modifies this
      ensures Valid() && Legal(old(View()), steps) && View() == Exec(old(View()), steps)
      ensures ShapesOf(steps) == JobShapes(t, actions, raises, stored)
      ensures flag == None && InPhase(View(), t, Ended)
      ensures stream != [] ==> expiry == Some(now + STREAM_TTL)
    {
      hide Legal, Exec, ShapesOf, ActionShapes, GeneratorOrder, PhaseAfter, Apply, Enabled, InPhase, Precedes;
      ghost var s := View();
      ghost var events := RunEvents(t, actions);
      PhasesOfRun(actions, raises);
      ghost var ran := View();
      ghost var settling := Settle(t, raises, stored);
      Join(s, events, ran, settling);
      steps := events + settling;
      assert ShapesOf(steps) == JobShapes(t, actions, raises, stored);
    }
  }
}
