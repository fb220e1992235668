/** The reply job with the service inside it: the order of the service's effects is the one the job relies
    on, and what the job leaves on the stream and in the log is what the service yielded and wrote. */
module ReplyJob {
  import opened Prelude
  import TurnEvents
  import opened ToolLoop
  import opened LiveReply
  import opened TurnProtocol
  import opened ChatTask

  function ActionOf(effect: Effect): Action {
    match effect
    case Write(saved) => WriteReply(saved)
    case Emit(event) => if event.MessageDone? then YieldDone else Yield
  }

  function ActionsOf(effects: seq<Effect>): seq<Action> {
    seq(|effects|, i requires 0 <= i < |effects| => ActionOf(effects[i]))
  }

  /* ---- The service keeps the job's order ---- */

  lemma {:induction false} StreamedFirst(events: seq<TurnEvents.TurnEvent>, rest: seq<Action>)
    requires forall i :: 0 <= i < |events| ==> !events[i].MessageDone?
    requires GeneratorOrder(Running, rest)
    ensures GeneratorOrder(Running, ActionsOf(Emits(events)) + rest)
  {
    var actions := ActionsOf(Emits(events)) + rest;
    if |events| == 0 {
      assert actions == rest;
    } else {
      StreamedFirst(events[1..], rest);
      assert actions[1..] == ActionsOf(Emits(events[1..])) + rest;
    }
  }

  lemma {:induction false} YieldedAreStreamed(events: seq<LoopEvent>)
    requires AllLive(events)
    ensures forall i :: 0 <= i < |Yielded(events)| ==> IsStreamed(Yielded(events)[i])
  {
    if |events| > 0 {
      YieldedAreStreamed(events[..|events| - 1]);
    }
  }

  lemma ClosingOrder(conversationId: string, result: Resolution, segments: seq<TurnEvents.Segment>, saved: bool)
    ensures var actions := ActionsOf(ClosingEffects(conversationId, result, segments, saved));
            GeneratorOrder(Running, actions) && |actions| > 0 && actions[|actions| - 1] == YieldDone
  {
    hide ReplyContent, FinalSegments;
    var closing := ClosingEffects(conversationId, result, segments, saved);
    var warned := if saved then [YieldDone] else [Yield, YieldDone];
    var written := [WriteReply(saved)] + warned;
    WarnedOrder(saved);
    assert written[1..] == warned;
    if result.Completed? {
      assert ActionsOf(closing) == written;
    } else {
      assert ActionsOf(closing) == [Yield] + written;
      assert ([Yield] + written)[1..] == written;
    }
  }

  lemma WarnedOrder(saved: bool)
    ensures GeneratorOrder(Phase.Replied, if saved then [YieldDone] else [Yield, YieldDone])
  {
    assert [Yield, YieldDone][1..] == [YieldDone];
    assert GeneratorOrder(Phase.Replied, [YieldDone]);
  }

  // The service writes the row once, behind every streamed event, and yields MessageDone last, unless the
  // run raises.
  lemma ServiceKeepsTheOrder(env: Environment, messages: seq<Message>, conversationId: string, saved: bool)
    ensures var run := Iterate(env, messages, [], MAX_ITERATIONS);
            GeneratorRun(ActionsOf(ReplyEffects(conversationId, run, saved)), run.raised)
  {
    hide Iterate, ClosingEffects, GeneratorOrder, Yielded;
    var run := Iterate(env, messages, [], MAX_ITERATIONS);
    ResolvesExactlyOnceAndLast(env, messages, [], MAX_ITERATIONS);
    var streamed, effects := Yielded(run.events), ReplyEffects(conversationId, run, saved);
    NothingIsAnOrder();
    if run.raised {
      YieldedAreStreamed(run.events);
      StreamedFirst(streamed, []);
      assert ActionsOf(effects) == ActionsOf(Emits(streamed)) + [];
    } else {
      var n := |run.events| - 1;
      YieldedAreStreamed(run.events[..n]);
      assert run.events[..n] + [run.events[n]] == run.events;
      YieldedOneMore(run.events[..n], run.events[n]);
      assert streamed == Yielded(run.events[..n]) + [] == Yielded(run.events[..n]);
      var closing := ClosingEffects(conversationId, run.events[n].result, run.events[n].segments, saved);
      ClosingOrder(conversationId, run.events[n].result, run.events[n].segments, saved);
      StreamedFirst(streamed, ActionsOf(closing));
      assert ActionsOf(effects) == ActionsOf(Emits(streamed)) + ActionsOf(closing);
    }
  }

  lemma NothingIsAnOrder()
    ensures GeneratorOrder(Running, [])
  {
  }

  // Cancelling the service anywhere leaves a run that raises.
  lemma {:induction false} CutKeepsTheOrder(phase: Phase, actions: seq<Action>, n: nat)
    requires GeneratorOrder(phase, actions) && n <= |actions|
    ensures GeneratorOrder(phase, actions[..n])
    decreases n
  {
    if n > 0 {
      var next := match actions[0] case Yield => phase case WriteReply(_) => Replied case YieldDone => Finished;
      assert actions[..n][1..] == actions[1..][..n - 1];
      if actions[0] != YieldDone {
        CutKeepsTheOrder(next, actions[1..], n - 1);
      }
    }
  }

  /* ---- What the job's steps write ---- */

  // Whose entry it is, and of what kind.
  type Mark = (nat, Kind)

  function Marks(hist: seq<Entry>): seq<Mark> {
    seq(|hist|, i requires 0 <= i < |hist| => (hist[i].turn, hist[i].kind))
  }

  function Written(shape: Shape): seq<Mark> {
    match shape
    case PublishShape(t) => [(t, Progress)]
    case DoneShape(t) => [(t, MessageDone)]
    case TagShape(t) => [(t, FailureTag)]
    case _ => []
  }

  function WrittenBy(shapes: seq<Shape>): seq<Mark> {
    if |shapes| == 0 then [] else Written(shapes[0]) + WrittenBy(shapes[1..])
  }

  // The two Postgres tables of a conversation.
  datatype Tables = Tables(log: seq<Row>, failures: map<nat, bool>)

  function TablesOf(s: State): Tables {
    Tables(s.log, s.failures)
  }

  function WithReply(tables: Tables, t: nat, saved: bool): Tables {
    if saved then tables.(log := tables.log + [Row(MaxSequence(tables.log) + 1, Assistant, t)]) else tables
  }

  function TablesWith(tables: Tables, shape: Shape): Tables {
    match shape
    case ReplyShape(t, saved) => WithReply(tables, t, saved)
    case RecordShape(t, stored) => tables.(failures := Noted(tables.failures, t, stored))
    case _ => tables
  }

  function TablesAfter(tables: Tables, shapes: seq<Shape>): Tables
    decreases |shapes|
  {
    if |shapes| == 0 then tables else TablesAfter(TablesWith(tables, shapes[0]), shapes[1..])
  }

  lemma StepWrites(s: State, step: Step)
    requires Enabled(s, step) && ShapeOf(step) != OtherShape
    ensures Marks(Apply(s, step).hist) == Marks(s.hist) + Written(ShapeOf(step))
    ensures TablesOf(Apply(s, step)) == TablesWith(TablesOf(s), ShapeOf(step))
  {
    hide MaxSequence, FreshId;
  }

  lemma {:induction false} StepsWrite(s: State, steps: seq<Step>)
    requires Legal(s, steps) && OtherShape !in ShapesOf(steps)
    ensures Marks(Exec(s, steps).hist) == Marks(s.hist) + WrittenBy(ShapesOf(steps))
    ensures TablesOf(Exec(s, steps)) == TablesAfter(TablesOf(s), ShapesOf(steps))
    decreases |steps|
  {
    hide MaxSequence, Apply, Enabled, Marks, Written, TablesWith, TablesOf, ShapeOf;
    if |steps| == 0 {
      assert Marks(s.hist) + [] == Marks(s.hist);
    } else {
      assert ShapesOf(steps)[1..] == ShapesOf(steps[1..]);
      assert ShapeOf(steps[0]) == ShapesOf(steps)[0];
      StepWrites(s, steps[0]);
      StepsWrite(Apply(s, steps[0]), steps[1..]);
    }
  }

  lemma {:induction false} WrittenInTwo(first: seq<Shape>, second: seq<Shape>)
    ensures WrittenBy(first + second) == WrittenBy(first) + WrittenBy(second)
  {
    hide Written;
    if |first| == 0 {
      assert first + second == second;
    } else {
      WrittenInTwo(first[1..], second);
      assert (first + second)[1..] == first[1..] + second;
    }
  }

  lemma {:induction false} TablesInTwo(tables: Tables, first: seq<Shape>, second: seq<Shape>)
    ensures TablesAfter(tables, first + second) == TablesAfter(TablesAfter(tables, first), second)
    decreases |first|
  {
    hide TablesWith;
    if |first| == 0 {
      assert first + second == second;
    } else {
      assert (first + second)[1..] == first[1..] + second;
      TablesInTwo(TablesWith(tables, first[0]), first[1..], second);
    }
  }

  lemma OneShape(tables: Tables, shape: Shape)
    ensures WrittenBy([shape]) == Written(shape) && TablesAfter(tables, [shape]) == TablesWith(tables, shape)
  {
    hide Written, TablesWith;
    assert [shape][1..] == [];
    assert WrittenBy([]) == [] && TablesAfter(TablesWith(tables, shape), []) == TablesWith(tables, shape);
  }

  /* ---- What the job leaves behind ---- */

  function EventMark(t: nat, event: TurnEvents.TurnEvent): Mark {
    (t, if event.MessageDone? then MessageDone else Progress)
  }

  function EventMarks(t: nat, events: seq<TurnEvents.TurnEvent>): seq<Mark> {
    seq(|events|, i requires 0 <= i < |events| => EventMark(t, events[i]))
  }

  lemma {:induction false} EffectsWrite(t: nat, effects: seq<Effect>)
    ensures WrittenBy(ActionShapes(t, ActionsOf(effects))) == EventMarks(t, EventsOf(effects))
  {
    hide WrittenBy, Written;
    if |effects| == 0 {
      NothingWritten();
    } else {
      var before, last := effects[..|effects| - 1], effects[|effects| - 1];
      EffectsWrite(t, before);
      EffectWrites(t, last);
      var shape := ActionShape(t, ActionOf(last));
      assert ActionShapes(t, ActionsOf(effects)) == ActionShapes(t, ActionsOf(before)) + [shape];
      WrittenInTwo(ActionShapes(t, ActionsOf(before)), [shape]);
      OneShape(Tables([], map[]), shape);
    }
  }

  lemma NothingWritten()
    ensures WrittenBy([]) == []
  {
  }

  lemma EffectWrites(t: nat, effect: Effect)
    ensures Written(ActionShape(t, ActionOf(effect))) == if effect.Emit? then [EventMark(t, effect.event)] else []
  {
  }

  lemma {:induction false} NoSecondRow(tables: Tables, t: nat, actions: seq<Action>)
    requires GeneratorOrder(Phase.Replied, actions)
    ensures TablesAfter(tables, ActionShapes(t, actions)) == tables && WriteReply(true) !in actions
    decreases |actions|
  {
    if |actions| > 0 {
      assert ActionShapes(t, actions)[1..] == ActionShapes(t, actions[1..]);
      if actions[0] == Yield {
        NoSecondRow(tables, t, actions[1..]);
      }
    }
  }

  lemma {:induction false} ActionsWrite(tables: Tables, t: nat, actions: seq<Action>)
    requires GeneratorOrder(Running, actions)
    ensures TablesAfter(tables, ActionShapes(t, actions)) == WithReply(tables, t, WriteReply(true) in actions)
    decreases |actions|
  {
    hide MaxSequence;
    if |actions| > 0 {
      assert ActionShapes(t, actions)[1..] == ActionShapes(t, actions[1..]);
      match actions[0] {
        case Yield => ActionsWrite(tables, t, actions[1..]);
        case WriteReply(saved) => NoSecondRow(WithReply(tables, t, saved), t, actions[1..]);
        case YieldDone =>
      }
    }
  }

  // The rest of the job, behind the events.
  function Settling(t: nat, raises: bool, stored: bool): seq<Shape> {
    (if raises then [TagShape(t), RecordShape(t, stored)] else []) + [ClearShape(t), ExpireShape(t)]
  }

  lemma SettlingWrites(tables: Tables, t: nat, raises: bool, stored: bool)
    ensures WrittenBy(Settling(t, raises, stored)) == if raises then [(t, FailureTag)] else []
    ensures TablesAfter(tables, Settling(t, raises, stored))
         == if raises then tables.(failures := Noted(tables.failures, t, stored)) else tables
  {
    hide WrittenBy, TablesAfter;
    var noted := tables.(failures := Noted(tables.failures, t, stored));
    var end := if raises then noted else tables;
    OneShape(end, ClearShape(t));
    OneShape(end, ExpireShape(t));
    var cleanup := [ClearShape(t)] + [ExpireShape(t)];
    WrittenInTwo([ClearShape(t)], [ExpireShape(t)]);
    TablesInTwo(end, [ClearShape(t)], [ExpireShape(t)]);
    if raises {
      var failing := [TagShape(t)] + [RecordShape(t, stored)];
      OneShape(tables, TagShape(t));
      OneShape(tables, RecordShape(t, stored));
      WrittenInTwo([TagShape(t)], [RecordShape(t, stored)]);
      TablesInTwo(tables, [TagShape(t)], [RecordShape(t, stored)]);
      WrittenInTwo(failing, cleanup);
      TablesInTwo(tables, failing, cleanup);
      assert Settling(t, raises, stored) == failing + cleanup;
    } else {
      assert Settling(t, raises, stored) == cleanup;
    }
  }

  // One entry for each event and the tag exactly if the job raised; the reply's row exactly if it was
  // written; the failure noted exactly if the job raised.
  ghost predicate LeavesBehind(before: State, after: State, t: nat, effects: seq<Effect>, raises: bool,
                               stored: bool) {
    && Marks(after.hist)
       == Marks(before.hist) + EventMarks(t, EventsOf(effects)) + (if raises then [(t, FailureTag)] else [])
    && after.log == (if Write(true) in effects
                     then before.log + [Row(MaxSequence(before.log) + 1, Assistant, t)]
                     else before.log)
    && after.failures == if raises then Noted(before.failures, t, stored) else before.failures
  }

  lemma JobWrites(s: State, steps: seq<Step>, t: nat, effects: seq<Effect>, raises: bool, stored: bool)
    requires Legal(s, steps) && ShapesOf(steps) == JobShapes(t, ActionsOf(effects), raises, stored)
    requires GeneratorOrder(Running, ActionsOf(effects))
    ensures LeavesBehind(s, Exec(s, steps), t, effects, raises, stored)
  {
    hide Legal, Exec, MaxSequence, ShapesOf, WrittenBy, TablesAfter, GeneratorOrder, EventsOf, EventMarks, Marks, Noted;
    var actions := ActionsOf(effects);
    var events, settling := ActionShapes(t, actions), Settling(t, raises, stored);
    var tables := TablesOf(s);
    assert ShapesOf(steps) == [StartShape(t)] + (events + settling);
    StepsWrite(s, steps);
    WrittenInTwo([StartShape(t)], events + settling);
    WrittenInTwo(events, settling);
    TablesInTwo(tables, [StartShape(t)], events + settling);
    TablesInTwo(tables, events, settling);
    OneShape(tables, StartShape(t));
    ActionsWrite(tables, t, actions);
    SettlingWrites(TablesAfter(tables, events), t, raises, stored);
    EffectsWrite(t, effects);
    WritesAreActions(effects);
  }

  lemma WritesAreActions(effects: seq<Effect>)
    ensures Write(true) in effects <==> WriteReply(true) in ActionsOf(effects)
  {
    if Write(true) in effects {
      var i :| 0 <= i < |effects| && effects[i] == Write(true);
      assert ActionsOf(effects)[i] == WriteReply(true);
    }
  }

  // How far the service got: all the way, or to where the job was cancelled.
  function Reached(effects: seq<Effect>, cancelledAt: Option<nat>): seq<Effect> {
    if cancelledAt.Some? && cancelledAt.value < |effects| then effects[..cancelledAt.value] else effects
  }

  lemma ReachedKeepsTheOrder(effects: seq<Effect>, raised: bool, cancelledAt: Option<nat>)
    requires GeneratorRun(ActionsOf(effects), raised)
    ensures GeneratorRun(ActionsOf(Reached(effects, cancelledAt)), raised || cancelledAt.Some?)
  {
    hide GeneratorOrder;
    if cancelledAt.Some? && cancelledAt.value < |effects| {
      CutKeepsTheOrder(Running, ActionsOf(effects), cancelledAt.value);
      assert ActionsOf(effects)[..cancelledAt.value] == ActionsOf(effects[..cancelledAt.value]);
    }
  }

  // The whole job over the service's own effects: every event it yielded is on the stream, in order, and
  // nothing else but the tag of a job that raised or was cancelled.
  method GenerateReply(store: ConversationStore, t: nat, env: Environment, transcript: Transcript,
                       conversationId: string, saveFails: bool, cancelledAt: Option<nat>, stored: bool)
    returns (ghost steps: seq<Step>)
    requires store.Valid() && InPhase(store.View(), t, Queued)
    modifies store, transcript
    ensures store.Valid() && Legal(old(store.View()), steps) && store.View() == Exec(old(store.View()), steps)
    ensures store.flag == None && InPhase(store.View(), t, Ended)
    ensures var run := Iterate(env, old(transcript.messages), [], MAX_ITERATIONS);
            var effects := Reached(ReplyEffects(conversationId, run, !saveFails), cancelledAt);
            var raises := run.raised || cancelledAt.Some?;
            && LeavesBehind(old(store.View()), store.View(), t, effects, raises, stored)
            && (cancelledAt.None? ==> EventsOf(effects) == ReplyEvents(conversationId, run, !saveFails))
  {
    hide Iterate, GeneratorRun, GeneratorOrder, Legal, Exec, ShapesOf, JobShapes, ReplyEffects, ReplyEvents,
         EventsOf, LeavesBehind, InPhase, ActionsOf;
    ServiceKeepsTheOrder(env, transcript.messages, conversationId, !saveFails);
    var effects, raised, _ := SendMessage(env, transcript, conversationId, saveFails);
    ReachedKeepsTheOrder(effects, raised, cancelledAt);
    ghost var before := store.View();
    var raises := raised || cancelledAt.Some?;
    var reached := Reached(effects, cancelledAt);
    steps := store.GenerateChatReply(t, ActionsOf(reached), raises, stored);
    RunsInOrder(ActionsOf(reached), raises);
    JobWrites(before, steps, t, reached, raises, stored);
  }

  lemma RunsInOrder(actions: seq<Action>, raises: bool)
    requires GeneratorRun(actions, raises)
    ensures GeneratorOrder(Running, actions)
  {
  }
}
