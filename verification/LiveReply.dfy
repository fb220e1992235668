/** One reply, from the tool loop to the screen: what the service yields, and why the bubble a reader
    watched being written is the bubble the final message leaves behind. */
module LiveReply {
  import opened Prelude
  import opened TurnEvents
  import opened ToolLoop
  import opened LiveThread

  const NOT_SAVED := "This message could not be saved. It may not be here after a reload."

  /* ---- What the service yields ---- */

  function ReplyContent(result: Resolution): string {
    match result
    case Completed(c) => c.content
    case ToolLoopCapReached(text, clarification) => Strip(text + "\n\n" + clarification)
  }

  // A completed reply is the model's text; behind a cap trip it is the partial text, a blank line and the
  // request for clarification, without spaces around them.
  lemma ReplyIsItsTexts(result: Resolution)
    ensures result.Completed? ==> ReplyContent(result) == result.completion.content
    ensures result.ToolLoopCapReached? ==>
              Bare(ReplyContent(result))
              && exists left, right :: AllSpace(left) && AllSpace(right)
                   && left + ReplyContent(result) + right == result.partial + "\n" + "\n" + result.clarification
  {
    if result.ToolLoopCapReached? {
      var text := result.partial + "\n\n" + result.clarification;
      var left, right := TextIsStripped(text);
      assert text == result.partial + "\n" + "\n" + result.clarification;
      assert left + ReplyContent(result) + right == result.partial + "\n" + "\n" + result.clarification;
    }
  }

  // The segments the final message carries.
  function FinalSegments(result: Resolution, segments: seq<Segment>): seq<Segment> {
    if result.Completed? then segments else [TextSegment(ReplyContent(result))]
  }

  function WidgetsOf(segments: seq<Segment>): seq<Widget> {
    if |segments| == 0 then []
    else
      var last := segments[|segments| - 1];
      WidgetsOf(segments[..|segments| - 1]) + (if last.WidgetSegment? then [last.widget] else [])
  }

  function Yielded(events: seq<LoopEvent>): seq<TurnEvent> {
    if |events| == 0 then []
    else
      var last := events[|events| - 1];
      Yielded(events[..|events| - 1]) + (if last.Live? then [last.event] else [])
  }

  function Closing(conversationId: string, result: Resolution, segments: seq<Segment>, saved: bool)
    : seq<TurnEvent>
  {
    (if result.Completed? then [] else [CapReached(result.partial, result.clarification)])
    + (if saved then [] else [PersistenceFailed(NOT_SAVED)])
    + [MessageDone(conversationId, ReplyContent(result),
                   if result.Completed? then Some(result.completion.model) else None,
                   FinalSegments(result, segments))]
  }

  function ReplyEvents(conversationId: string, run: Run, saved: bool): seq<TurnEvent> {
    if run.raised || |run.events| == 0 || run.events[|run.events| - 1].Live? then Yielded(run.events)
    else
      var resolved := run.events[|run.events| - 1];
      Yielded(run.events) + Closing(conversationId, resolved.result, resolved.segments, saved)
  }

  // What the service does, in order: yield an event, or write the reply's row, which the database may reject.
  datatype Effect = Emit(event: TurnEvent) | Write(saved: bool)

  function Emits(events: seq<TurnEvent>): seq<Effect> {
    seq(|events|, i requires 0 <= i < |events| => Emit(events[i]))
  }

  // The row is written behind the cap notice, and its failure is announced before MessageDone.
  function ClosingEffects(conversationId: string, result: Resolution, segments: seq<Segment>, saved: bool)
    : seq<Effect>
  {
    (if result.Completed? then [] else [Emit(CapReached(result.partial, result.clarification))])
    + [Write(saved)]
    + (if saved then [] else [Emit(PersistenceFailed(NOT_SAVED))])
    + [Emit(MessageDone(conversationId, ReplyContent(result),
                        if result.Completed? then Some(result.completion.model) else None,
                        FinalSegments(result, segments)))]
  }

  function ReplyEffects(conversationId: string, run: Run, saved: bool): seq<Effect> {
    if run.raised || |run.events| == 0 || run.events[|run.events| - 1].Live? then Emits(Yielded(run.events))
    else
      var resolved := run.events[|run.events| - 1];
      Emits(Yielded(run.events)) + ClosingEffects(conversationId, resolved.result, resolved.segments, saved)
  }

  function EventsOf(effects: seq<Effect>): seq<TurnEvent> {
    if |effects| == 0 then []
    else
      var last := effects[|effects| - 1];
      EventsOf(effects[..|effects| - 1]) + (if last.Emit? then [last.event] else [])
  }

  lemma EffectsOneMore(effects: seq<Effect>, effect: Effect)
    ensures EventsOf(effects + [effect]) == EventsOf(effects) + (if effect.Emit? then [effect.event] else [])
  {
    assert (effects + [effect])[..|effects|] == effects;
  }

  lemma {:induction false} EmitsAreTheirEvents(events: seq<TurnEvent>)
    ensures EventsOf(Emits(events)) == events
  {
    if |events| > 0 {
      EmitsAreTheirEvents(events[..|events| - 1]);
      assert Emits(events)[..|events| - 1] == Emits(events[..|events| - 1]);
    }
  }

  // Wherever the row is written, a reader gets the reply's events.
  lemma EffectsYieldTheEvents(conversationId: string, run: Run, saved: bool)
    ensures EventsOf(ReplyEffects(conversationId, run, saved)) == ReplyEvents(conversationId, run, saved)
  {
    hide EventsOf, Yielded, ReplyContent, FinalSegments;
    var streamed := Yielded(run.events);
    EmitsAreTheirEvents(streamed);
    if !(run.raised || |run.events| == 0 || run.events[|run.events| - 1].Live?) {
      var resolved := run.events[|run.events| - 1];
      var closing := ClosingEffects(conversationId, resolved.result, resolved.segments, saved);
      var all := Emits(streamed);
      assert streamed + [] == streamed;
      if !resolved.result.Completed? {
        EffectsOneMore(all, closing[0]);
        all := all + [closing[0]];
      }
      var shown := EventsOf(all);
      EffectsOneMore(all, Write(saved));
      assert shown + [] == shown;
      all := all + [Write(saved)];
      if !saved {
        EffectsOneMore(all, Emit(PersistenceFailed(NOT_SAVED)));
        all := all + [Emit(PersistenceFailed(NOT_SAVED))];
      }
      EffectsOneMore(all, closing[|closing| - 1]);
      assert all + [closing[|closing| - 1]] == ReplyEffects(conversationId, run, saved);
      assert EventsOf(all) + [closing[|closing| - 1].event] == ReplyEvents(conversationId, run, saved);
    }
  }

  // The assistant's row: the reply text and its widgets, in order.
  datatype ReplyRow = ReplyRow(content: string, widgets: seq<Widget>)

  function RowOf(result: Resolution, segments: seq<Segment>): ReplyRow {
    ReplyRow(ReplyContent(result), WidgetsOf(FinalSegments(result, segments)))
  }

  // From the resolution on. `saveFails` is whether the database rejects the row; no row means nothing was kept.
  method CloseTurn(conversationId: string, result: Resolution, segments: seq<Segment>, saveFails: bool)
    returns (effects: seq<Effect>, row: Option<ReplyRow>)
    ensures effects == ClosingEffects(conversationId, result, segments, !saveFails)
    ensures effects != [] && effects[|effects| - 1].Emit? && effects[|effects| - 1].event.MessageDone?
    ensures row.Some? <==> !saveFails
    ensures row.Some? ==> var last := effects[|effects| - 1].event;
                          row.value.content == last.content && row.value.widgets == WidgetsOf(last.segments)
    ensures row.Some? ==> row.value == RowOf(result, segments)
  {
    hide ReplyContent, WidgetsOf;
    var reply := ReplyContent(result);
    var parts := segments;
    effects := [];
    if result.ToolLoopCapReached? {
      effects := [Emit(CapReached(result.partial, result.clarification))];
      parts := [TextSegment(reply)];
    }
    row := if saveFails then None else Some(ReplyRow(reply, WidgetsOf(parts)));
    effects := effects + [Write(!saveFails)];
    if saveFails {
      effects := effects + [Emit(PersistenceFailed(NOT_SAVED))];
    }
    var model := if result.Completed? then Some(result.completion.model) else None;
    effects := effects + [Emit(MessageDone(conversationId, reply, model, parts))];
  }

  lemma EmitsOneMore(events: seq<TurnEvent>, event: TurnEvent)
    ensures Emits(events + [event]) == Emits(events) + [Emit(event)]
  {
  }

  // Passes the loop's events on and keeps its resolution.
  method Forward(loop: seq<LoopEvent>) returns (effects: seq<Effect>, final: Option<(Resolution, seq<Segment>)>)
    ensures effects == Emits(Yielded(loop))
    ensures |loop| > 0 && loop[|loop| - 1].TurnResolved? ==>
              final == Some((loop[|loop| - 1].result, loop[|loop| - 1].segments))
  {
    hide Yielded, Emits;
    effects, final := [], None;
    NothingYielded();
    assert loop[..0] == [];
    for i := 0 to |loop|
      invariant effects == Emits(Yielded(loop[..i]))
      invariant i > 0 && loop[i - 1].TurnResolved? ==> final == Some((loop[i - 1].result, loop[i - 1].segments))
    {
      assert loop[..i + 1] == loop[..i] + [loop[i]];
      YieldedOneMore(loop[..i], loop[i]);
      if loop[i].TurnResolved? {
        final := Some((loop[i].result, loop[i].segments));
        assert Yielded(loop[..i]) + [] == Yielded(loop[..i]);
      } else {
        EmitsOneMore(Yielded(loop[..i]), loop[i].event);
        effects := effects + [Emit(loop[i].event)];
      }
    }
    assert loop[..|loop|] == loop;
  }

  lemma NothingYielded()
    ensures Emits(Yielded([])) == []
  {
  }

  method SendMessage(env: Environment, transcript: Transcript, conversationId: string, saveFails: bool)
    returns (effects: seq<Effect>, raised: bool, row: Option<ReplyRow>)
    modifies transcript
    ensures var run := Iterate(env, old(transcript.messages), [], MAX_ITERATIONS);
            && transcript.messages == run.messages && raised == run.raised
            && effects == ReplyEffects(conversationId, run, !saveFails)
            && EventsOf(effects) == ReplyEvents(conversationId, run, !saveFails)
    ensures row.Some? <==> !raised && !saveFails
    ensures row.Some? ==> effects != [] && effects[|effects| - 1].Emit?
                          && var last := effects[|effects| - 1].event;
                             && last.MessageDone? && row.value.content == last.content
                             && row.value.widgets == WidgetsOf(last.segments)
    ensures row.Some? ==> var events := Iterate(env, old(transcript.messages), [], MAX_ITERATIONS).events;
                          |events| > 0 && events[|events| - 1].TurnResolved?
                          && row.value == RowOf(events[|events| - 1].result, events[|events| - 1].segments)
  {
    hide Iterate, AllLive, EventsOf, ReplyEvents, ClosingEffects, WidgetsOf, RowOf, Emits, Yielded;
    ResolvesExactlyOnceAndLast(env, transcript.messages, [], MAX_ITERATIONS);
    var loop: seq<LoopEvent>;
    loop, raised := ExecuteRun(env, transcript);
    var final: Option<(Resolution, seq<Segment>)>;
    effects, final := Forward(loop);
    EffectsYieldTheEvents(conversationId, Run(loop, transcript.messages, raised), !saveFails);
    if raised {
      return effects, true, None;
    }
    LastIsResolution(Run(loop, transcript.messages, raised));
    var closing: seq<Effect>;
    closing, row := CloseTurn(conversationId, final.value.0, final.value.1, saveFails);
    effects := effects + closing;
  }

  lemma LastIsResolution(run: Run)
    requires ResolvesLast(run) && !run.raised
    ensures |run.events| > 0 && run.events[|run.events| - 1].TurnResolved?
  {
  }

  /* ---- Playing the loop's events against its segments ---- */

  function PlayOne(contract: Contract, parts: seq<Part>, event: LoopEvent): seq<Part> {
    if event.TurnResolved? then parts
    else
      match event.event
      case ContentDelta(content) => AppendTextDelta(parts, content)
      case WidgetReady(w) =>
        var part := Accept(contract, WidgetPart(w.widgetType, w.data));
        if part.Some? then parts + [part.value] else parts
      case _ => parts
  }

  // The parts on screen once the events have been folded into an empty bubble.
  function Played(contract: Contract, events: seq<LoopEvent>): seq<Part> {
    if |events| == 0 then []
    else PlayOne(contract, Played(contract, events[..|events| - 1]), events[|events| - 1])
  }

  // Every content delta, end to end.
  function Said(events: seq<LoopEvent>): string {
    if |events| == 0 then ""
    else
      var last := events[|events| - 1];
      Said(events[..|events| - 1])
      + (if last.Live? && last.event.ContentDelta? then last.event.content else "")
  }

  predicate AllMapped(events: seq<LoopEvent>) {
    forall i :: 0 <= i < |events| ==> events[i].Live? && IsStreamed(events[i].event) && Mapped(events[i].event)
  }

  predicate WidgetsMapped(env: Environment) {
    forall name :: name in env.registry && env.registry[name].widgetType.Some? ==>
      env.registry[name].widgetType.value in PART_CLASSES
  }

  // What the bubble shows is what the segments say.
  predicate Mirrors(contract: Contract, past: seq<LoopEvent>, segments: seq<Segment>) {
    && Played(contract, past) == Merged(Accepted(contract, PartsOf(segments)))
    && Said(past) == Texts(segments)
    && AllMapped(past) && SegmentsMapped(segments) && NoEmptyText(segments)
  }

  // The loop never collects an empty text.
  predicate NoEmptyText(segments: seq<Segment>) {
    forall i :: 0 <= i < |segments| ==> segments[i] != TextSegment("")
  }

  lemma PlayedOneMore(contract: Contract, past: seq<LoopEvent>, event: LoopEvent)
    ensures Played(contract, past + [event]) == PlayOne(contract, Played(contract, past), event)
    ensures Said(past + [event])
         == Said(past) + (if event.Live? && event.event.ContentDelta? then event.event.content else "")
  {
    hide PlayOne;
    assert (past + [event])[..|past|] == past;
  }

  lemma ShownOneMore(contract: Contract, segments: seq<Segment>, segment: Segment)
    ensures var shown, part := Merged(Accepted(contract, PartsOf(segments))), Accept(contract, PartOf(segment));
            Merged(Accepted(contract, PartsOf(segments + [segment])))
            == if part.Some? then AddPart(shown, part.value) else shown
    ensures Texts(segments + [segment]) == Texts(segments) + (if segment.TextSegment? then segment.content else "")
  {
    hide Accept, AddPart, PartOf, Merged;
    assert (segments + [segment])[..|segments|] == segments;
    var parts, part := PartsOf(segments), PartOf(segment);
    assert (parts + [part])[..|parts|] == parts;
    var accepted := Accept(contract, part);
    if accepted.Some? {
      MergedOneMore(Accepted(contract, parts), accepted.value);
    } else {
      assert Accepted(contract, parts) + [] == Accepted(contract, parts);
    }
  }

  // A chunk stream shows its aggregated text, whatever its chunks were.
  lemma {:induction false} ChunksPlay(contract: Contract, past: seq<LoopEvent>, chunks: seq<Chunk>)
    requires AllMapped(past)
    ensures var after, content := past + ChunkEvents(chunks), AbsorbAll(chunks).content;
            && Played(contract, after) == AddText(Played(contract, past), content)
            && Said(after) == Said(past) + content && AllMapped(after)
  {
    hide Played, Said, AddText, AllMapped, ChunkEvent;
    if |chunks| == 0 {
      assert past + [] == past;
      NothingSaid(contract, past);
    } else {
      var before, chunk := chunks[..|chunks| - 1], chunks[|chunks| - 1];
      var spoken := AbsorbAll(before).content;
      ChunksPlay(contract, past, before);
      ChunkPlays(contract, past + ChunkEvents(before), chunk);
      assert past + ChunkEvents(chunks) == past + ChunkEvents(before) + ChunkEvent(chunk);
      assert Said(past) + spoken + chunk.content == Said(past) + (spoken + chunk.content);
      TextsMerge(Played(contract, past), spoken, chunk.content);
    }
  }

  lemma NothingSaid(contract: Contract, past: seq<LoopEvent>)
    ensures AddText(Played(contract, past), "") == Played(contract, past)
    ensures Said(past) + "" == Said(past)
  {
  }

  lemma ChunkPlays(contract: Contract, past: seq<LoopEvent>, chunk: Chunk)
    requires AllMapped(past)
    ensures var after := past + ChunkEvent(chunk);
            && Played(contract, after) == AddText(Played(contract, past), chunk.content)
            && Said(after) == Said(past) + chunk.content && AllMapped(after)
  {
    hide Played, Said, AppendTextDelta;
    var reasoned := past;
    if chunk.reasoning != "" {
      PlayedOneMore(contract, past, Live(ReasoningDelta(chunk.reasoning)));
      reasoned := past + [Live(ReasoningDelta(chunk.reasoning))];
      assert Said(past) + "" == Said(past);
    }
    if chunk.content != "" {
      PlayedOneMore(contract, reasoned, Live(ContentDelta(chunk.content)));
      assert past + ChunkEvent(chunk) == reasoned + [Live(ContentDelta(chunk.content))];
    } else {
      assert past + ChunkEvent(chunk) == reasoned;
      assert Said(past) + "" == Said(past);
    }
  }

  lemma TextSpoken(contract: Contract, segments: seq<Segment>, content: string)
    requires SegmentsMapped(segments) && NoEmptyText(segments)
    ensures var spoken := WithText(segments, content);
            && Merged(Accepted(contract, PartsOf(spoken)))
               == AddText(Merged(Accepted(contract, PartsOf(segments))), content)
            && Texts(spoken) == Texts(segments) + content && SegmentsMapped(spoken) && NoEmptyText(spoken)
  {
    hide Merged, Accepted, PartsOf, Texts, AppendTextDelta;
    if content != "" {
      ShownOneMore(contract, segments, TextSegment(content));
    } else {
      assert segments + [] == segments;
      assert Texts(segments) + "" == Texts(segments);
    }
  }

  lemma CallMirrors(contract: Contract, env: Environment, past: seq<LoopEvent>, soFar: Calls, call: ToolCall)
    requires WidgetsMapped(env) && Mirrors(contract, past + soFar.events, soFar.segments)
    ensures var after := RunCall(env, soFar, call); Mirrors(contract, past + after.events, after.segments)
  {
    hide Played, Said, Mirrors;
    if !soFar.raised {
      var requested := Requested(soFar, call);
      CallRequested(contract, past, soFar, call);
      match ExecuteToolCall(env, soFar.messages, call) {
        case None =>
        case Some((message, None)) =>
          assert Answered(requested, message, None).events == requested.events;
          assert Answered(requested, message, None).segments == requested.segments;
        case Some((message, Some(w))) =>
          WidgetShown(contract, past, requested, message, w);
      }
    }
  }

  lemma CallRequested(contract: Contract, past: seq<LoopEvent>, soFar: Calls, call: ToolCall)
    requires Mirrors(contract, past + soFar.events, soFar.segments)
    ensures var after := Requested(soFar, call); Mirrors(contract, past + after.events, after.segments)
  {
    hide Played, Said, Merged, Accepted, PartsOf, Texts, AppendTextDelta, Accept;
    var event := Live(ToolCallRequested(call.name));
    assert past + Requested(soFar, call).events == past + soFar.events + [event];
    PlayedOneMore(contract, past + soFar.events, event);
    assert Said(past + soFar.events) + "" == Said(past + soFar.events);
  }

  lemma WidgetShown(contract: Contract, past: seq<LoopEvent>, soFar: Calls, message: Message, w: Widget)
    requires Mirrors(contract, past + soFar.events, soFar.segments) && w.widgetType in PART_CLASSES
    ensures var after := Answered(soFar, message, Some(w)); Mirrors(contract, past + after.events, after.segments)
  {
    hide Played, Said, Merged, Accepted, PartsOf, Texts, AppendTextDelta;
    var event := Live(WidgetReady(w));
    assert past + Answered(soFar, message, Some(w)).events == past + soFar.events + [event];
    PlayedOneMore(contract, past + soFar.events, event);
    ShownOneMore(contract, soFar.segments, WidgetSegment(w));
    assert Said(past + soFar.events) + "" == Said(past + soFar.events);
    assert Texts(soFar.segments) + "" == Texts(soFar.segments);
  }

  lemma {:induction false} CallsMirror(contract: Contract, env: Environment, past: seq<LoopEvent>, soFar: Calls,
                                       calls: seq<ToolCall>)
    requires WidgetsMapped(env) && Mirrors(contract, past + soFar.events, soFar.segments)
    ensures var after := RunCalls(env, soFar, calls); Mirrors(contract, past + after.events, after.segments)
  {
    hide Mirrors, RunCall, WidgetsMapped;
    if |calls| > 0 {
      CallsMirror(contract, env, past, soFar, calls[..|calls| - 1]);
      CallMirrors(contract, env, past, RunCalls(env, soFar, calls[..|calls| - 1]), calls[|calls| - 1]);
    }
  }

  lemma IterationMirrors(contract: Contract, env: Environment, messages: seq<Message>, past: seq<LoopEvent>,
                         segments: seq<Segment>)
    requires WidgetsMapped(env) && Mirrors(contract, past, segments)
    ensures var one := OneIteration(env, messages, segments);
            !one.Raised? ==> Mirrors(contract, past + one.events, one.segments)
  {
    hide Played, Said, Merged, Accepted, PartsOf, Texts, ChunkEvents, AbsorbAll, RunCalls, AddText, WithText,
         WidgetsMapped, AllMapped, SegmentsMapped, NoEmptyText;
    var reply := env.llm(messages);
    var completion := Finalize(AbsorbAll(reply.chunks));
    ChunksPlay(contract, past, reply.chunks);
    if completion.Some? {
      var c := completion.value;
      var spoken := WithText(segments, c.content);
      TextSpoken(contract, segments, c.content);
      var streamed := past + ChunkEvents(reply.chunks);
      var start := Calls([], messages + [AssistantToolCallMessage(c)], spoken, false);
      assert streamed + [] == streamed;
      CallsMirror(contract, env, streamed, start, c.toolCalls);
      var calls := RunCalls(env, start, c.toolCalls);
      assert streamed + calls.events == past + (ChunkEvents(reply.chunks) + calls.events);
    }
  }

  // What the last event of a run that does not raise says about all the events before it.
  ghost predicate EndsMirrored(contract: Contract, past: seq<LoopEvent>, run: Run) {
    run.raised
    || (|run.events| > 0
        && var last := run.events[|run.events| - 1];
           && last.TurnResolved?
           && Mirrors(contract, past + run.events[..|run.events| - 1], last.segments)
           && (last.result.ToolLoopCapReached? ==> last.result.partial == Texts(last.segments)
                                                   && last.result.clarification != "")
           && (last.result.Completed? ==> SpokenLast(last.segments, last.result.completion.content)))
  }

  lemma PrecededEndsMirrored(contract: Contract, past: seq<LoopEvent>, events: seq<LoopEvent>, rest: Run)
    requires EndsMirrored(contract, past + events, rest)
    ensures EndsMirrored(contract, past, Preceded(events, rest))
  {
    hide Mirrors, Texts;
    if !rest.raised {
      var all := events + rest.events;
      assert past + all[..|all| - 1] == past + events + rest.events[..|rest.events| - 1];
    }
  }

  lemma {:induction false} RunMirrors(contract: Contract, env: Environment, messages: seq<Message>,
                                      past: seq<LoopEvent>, segments: seq<Segment>, left: nat)
    requires WidgetsMapped(env) && Mirrors(contract, past, segments)
    ensures EndsMirrored(contract, past, Iterate(env, messages, segments, left))
    decreases left
  {
    hide Mirrors, OneIteration, Texts, WidgetsMapped;
    if left == 0 {
      var run := Iterate(env, messages, segments, left);
      assert past + run.events[..0] == past;
    } else {
      IterationMirrors(contract, env, messages, past, segments);
      match OneIteration(env, messages, segments) {
        case Raised(_, _) =>
        case Resolved(events, c, spoken) =>
          ResolvedSpeaksLast(env, messages, segments);
          assert (events + [TurnResolved(Completed(c), spoken)])[..|events|] == events;
        case Again(events, after, collected) =>
          RunMirrors(contract, env, after, past + events, collected, left - 1);
          PrecededEndsMirrored(contract, past, events, Iterate(env, after, collected, left - 1));
      }
    }
  }

  // A final text is the last segment.
  predicate SpokenLast(segments: seq<Segment>, content: string) {
    content != "" ==> |segments| > 0 && segments[|segments| - 1] == TextSegment(content)
  }

  lemma ResolvedSpeaksLast(env: Environment, messages: seq<Message>, segments: seq<Segment>)
    ensures var one := OneIteration(env, messages, segments);
            one.Resolved? ==> SpokenLast(one.segments, one.completion.content)
  {
    hide ChunkEvents, AbsorbAll, RunCalls;
  }

  /* ---- What a reader of the stream folds ---- */

  // The frame a published event reaches the browser as.
  function Received(event: TurnEvent): Frame
    requires Mapped(event)
  {
    PublishedEventArrives(event);
    ClientMessage(EventTag(event), EventPayload(event)).value
  }

  predicate AllWire(events: seq<TurnEvent>) {
    forall i :: 0 <= i < |events| ==> Mapped(events[i])
  }

  function FramesOf(events: seq<TurnEvent>): (frames: seq<Frame>)
    requires AllWire(events)
    ensures |frames| == |events|
  {
    if |events| == 0 then [] else FramesOf(events[..|events| - 1]) + [Received(events[|events| - 1])]
  }

  lemma {:induction false} FramesInTwo(first: seq<TurnEvent>, second: seq<TurnEvent>)
    requires AllWire(first) && AllWire(second)
    ensures AllWire(first + second) && FramesOf(first + second) == FramesOf(first) + FramesOf(second)
  {
    hide Received, Mapped;
    if |second| == 0 {
      assert first + second == first;
    } else {
      FramesInTwo(first, second[..|second| - 1]);
      assert (first + second)[..|first + second| - 1] == first + second[..|second| - 1];
    }
  }

  lemma FrameOfOne(event: TurnEvent)
    requires Mapped(event)
    ensures FramesOf([event]) == [Received(event)] && Ok(Received(event)) == ToDto(event)
  {
    hide ToDto, ClientMessage, EventPayload, Mapped;
    PublishedEventArrives(event);
    assert [event][..0] == [];
    assert [] + [Received(event)] == [Received(event)];
  }

  lemma OneEventLands(contract: Contract, m: ThreadMessage, past: seq<LoopEvent>, event: LoopEvent)
    requires event.Live? && IsStreamed(event.event) && Mapped(event.event)
    requires m.parts == Played(contract, past) && m.clarification == ""
    ensures var frame := Received(event.event);
            && IsDelta(frame) && Updated(contract, m, frame).parts == Played(contract, past + [event])
            && Updated(contract, m, frame).clarification == ""
  {
    hide Played, Accept, ClientMessage, EventPayload, AppendTextDelta;
    FrameOfOne(event.event);
    PlayedOneMore(contract, past, event);
  }

  predicate AllDeltas(frames: seq<Frame>) {
    forall i :: 0 <= i < |frames| ==> IsDelta(frames[i])
  }

  lemma YieldedOneMore(past: seq<LoopEvent>, event: LoopEvent)
    ensures Yielded(past + [event]) == Yielded(past) + (if event.Live? then [event.event] else [])
  {
    assert (past + [event])[..|past|] == past;
  }

  // Folding what a reader receives plays the loop's own events.
  lemma {:induction false} FoldPlays(contract: Contract, events: seq<LoopEvent>)
    requires AllMapped(events)
    ensures AllWire(Yielded(events)) && AllDeltas(FramesOf(Yielded(events)))
    ensures var m := FoldBubble(contract, STREAMING, FramesOf(Yielded(events)));
            m.parts == Played(contract, events) && m.clarification == ""
  {
    hide Updated, Received, IsDelta, Mapped, IsStreamed, PlayOne;
    if |events| > 0 {
      var past, last := events[..|events| - 1], events[|events| - 1];
      FoldPlays(contract, past);
      assert past + [last] == events;
      YieldedOneMore(past, last);
      FramesInTwo(Yielded(past), [last.event]);
      FrameOfOne(last.event);
      var before := FoldBubble(contract, STREAMING, FramesOf(Yielded(past)));
      OneEventLands(contract, before, past, last);
      assert FramesOf(Yielded(events))[..|Yielded(past)|] == FramesOf(Yielded(past));
    }
  }

  /* ---- The bubble watched live is the bubble the final message leaves ---- */

  // The thread of a reader with `thread` and the waiting bubble on screen, after these events.
  function Screen(contract: Contract, thread: seq<ThreadMessage>, events: seq<TurnEvent>): seq<ThreadMessage>
    requires AllWire(events)
  {
    Fold(contract, thread + [STREAMING], FramesOf(events))
  }

  lemma ScreenOf(contract: Contract, thread: seq<ThreadMessage>, run: Run)
    requires ResolvesLast(run) && !run.raised && EndsMirrored(contract, [], run)
    ensures AllWire(Yielded(run.events))
    ensures exists m :: Screen(contract, thread, Yielded(run.events)) == thread + [m]
              && m.role == Assistant && m.streaming && m.clarification == ""
              && m.parts == Merged(Accepted(contract, PartsOf(run.events[|run.events| - 1].segments)))
  {
    hide Fold, FoldBubble, FramesOf, Yielded, Merged, Accepted, PartsOf, Played, Texts, Said;
    var n := |run.events| - 1;
    var lives := run.events[..n];
    assert [] + lives == lives;
    assert lives + [run.events[n]] == run.events;
    YieldedOneMore(lives, run.events[n]);
    assert Yielded(lives) + [] == Yielded(lives);
    FoldPlays(contract, lives);
    FoldsIntoLast(contract, thread, STREAMING, FramesOf(Yielded(lives)));
    var m := FoldBubble(contract, STREAMING, FramesOf(Yielded(lives)));
    assert Screen(contract, thread, Yielded(run.events)) == thread + [m];
  }

  // What the closing events do to a bubble that is still being written.
  lemma ClosingLands(contract: Contract, thread: seq<ThreadMessage>, m: ThreadMessage, conversationId: string,
                     result: Resolution, segments: seq<Segment>)
    requires m.role == Assistant && m.streaming && m.clarification == "" && SegmentsMapped(segments)
    requires result.ToolLoopCapReached? ==> result.clarification != ""
    ensures AllWire(Closing(conversationId, result, segments, true))
    ensures exists done: ThreadMessage ::
              Fold(contract, thread + [m], FramesOf(Closing(conversationId, result, segments, true)))
              == thread + [done]
              && done.role == Assistant && !done.streaming && done.activeTool == None
              && done.clarification == (if result.Completed? then "" else result.clarification)
              && done.parts == (if result.Completed? then Accepted(contract, DoneParts(ReplyContent(result), segments))
                                else [TextPart(result.partial)])
  {
    hide Accepted, PartsOf, ReplyContent, ClientMessage, EventPayload, Fold, FramesOf, UpdateLastAssistant;
    var closing := Closing(conversationId, result, segments, true);
    var event := closing[|closing| - 1];
    assert Mapped(event);
    FrameOfOne(event);
    var frame := Received(event);
    if result.Completed? {
      assert closing == [event];
      LandsOnLast(contract, thread, m, frame);
      FoldOne(contract, thread + [m], frame);
      assert Updated(contract, m, frame).clarification == "";
    } else {
      var cap := CapReached(result.partial, result.clarification);
      FrameOfOne(cap);
      assert closing == [cap] + [event];
      FramesInTwo([cap], [event]);
      FoldInTwo(contract, thread + [m], [Received(cap)], [frame]);
      FoldOne(contract, thread + [m], Received(cap));
      LandsOnLast(contract, thread, m, Received(cap));
      var asked := Updated(contract, m, Received(cap));
      FoldOne(contract, thread + [asked], frame);
      LandsOnLast(contract, thread, asked, frame);
      assert Updated(contract, asked, frame).parts == [TextPart(result.partial)];
    }
  }

  lemma NoSegmentsShowNothing(contract: Contract)
    ensures Accepted(contract, PartsOf([])) == [] && Merged([]) == []
    ensures Accepted(contract, [TextPart("")]) == [TextPart("")] && Merged([TextPart("")]) == []
  {
    assert [TextPart("")][..0] == [];
    assert Accepted(contract, [TextPart("")][..0]) == [];
    assert Merged([TextPart("")][..0]) == [];
  }

  // For every model run and every widget contract: the bubble a reader watched being written is, once
  // adjacent texts are merged and empty ones dropped, the bubble the final message leaves; when the
  // iteration cap trips it is the one text that joins every content delta of the turn.
  lemma LiveMatchesFinal(contract: Contract, env: Environment, messages: seq<Message>, conversationId: string,
                         thread: seq<ThreadMessage>)
    requires WidgetsMapped(env) && !Iterate(env, messages, [], MAX_ITERATIONS).raised
    ensures var run, n := Iterate(env, messages, [], MAX_ITERATIONS), |thread|;
            && |run.events| > 0 && run.events[|run.events| - 1].TurnResolved?
            && AllWire(Yielded(run.events)) && AllWire(ReplyEvents(conversationId, run, true))
            && var live := Screen(contract, thread, Yielded(run.events));
               var final := Screen(contract, thread, ReplyEvents(conversationId, run, true));
               && |live| == |final| == n + 1 && live[..n] == final[..n] == thread
               && live[n].streaming && !final[n].streaming
               && var resolved := run.events[|run.events| - 1];
                  if resolved.result.Completed?
                  then live[n].parts == Merged(final[n].parts)
                       && final[n].parts == Accepted(contract, DoneParts(resolved.result.completion.content,
                                                                         resolved.segments))
                  else final[n].parts == [TextPart(Said(run.events))]
                       && final[n].clarification == env.clarification
  {
    hide Merged, Accepted, PartsOf, Played, Texts, Said, FramesOf, Fold, Yielded, Closing, Iterate, ReplyContent,
         AllLive, AllMapped, SegmentsMapped, NoEmptyText, AllWire, WidgetsMapped;
    var run, n := Iterate(env, messages, [], MAX_ITERATIONS), |thread|;
    ResolvesExactlyOnceAndLast(env, messages, [], MAX_ITERATIONS);
    EmptyMirrors(contract);
    RunMirrors(contract, env, messages, [], [], MAX_ITERATIONS);
    ScreenOf(contract, thread, run);
    var live := Screen(contract, thread, Yielded(run.events));
    var m :| live == thread + [m] && m.role == Assistant && m.streaming && m.clarification == ""
             && m.parts == Merged(Accepted(contract, PartsOf(run.events[|run.events| - 1].segments)));
    var resolved := run.events[|run.events| - 1];
    ClosingLands(contract, thread, m, conversationId, resolved.result, resolved.segments);
    var closing := Closing(conversationId, resolved.result, resolved.segments, true);
    var done: ThreadMessage :| Fold(contract, thread + [m], FramesOf(closing)) == thread + [done]
             && done.role == Assistant && !done.streaming && done.activeTool == None
             && done.clarification == (if resolved.result.Completed? then "" else resolved.result.clarification)
             && done.parts == (if resolved.result.Completed?
                               then Accepted(contract, DoneParts(ReplyContent(resolved.result), resolved.segments))
                               else [TextPart(resolved.result.partial)]);
    FramesInTwo(Yielded(run.events), closing);
    FoldInTwo(contract, thread + [STREAMING], FramesOf(Yielded(run.events)), FramesOf(closing));
    assert Screen(contract, thread, ReplyEvents(conversationId, run, true)) == thread + [done];
    NoSegmentsShowNothing(contract);
    if resolved.result.Completed? {
      CompletedContent(resolved.result);
    } else {
      SaidBeforeLast(run);
      ClarificationIsKept(env, messages, [], MAX_ITERATIONS);
    }
  }

  lemma CompletedContent(result: Resolution)
    requires result.Completed?
    ensures ReplyContent(result) == result.completion.content
  {
  }

  lemma EmptyMirrors(contract: Contract)
    ensures Mirrors(contract, [], [])
  {
    NoSegmentsShowNothing(contract);
  }

  lemma SaidBeforeLast(run: Run)
    requires |run.events| > 0 && run.events[|run.events| - 1].TurnResolved?
    ensures Said(run.events) == Said([] + run.events[..|run.events| - 1])
  {
    var lives := run.events[..|run.events| - 1];
    assert [] + lives == lives;
    assert Said(lives) + "" == Said(lives);
  }

  lemma {:induction false} ClarificationIsKept(env: Environment, messages: seq<Message>, segments: seq<Segment>,
                                               left: nat)
    ensures var run := Iterate(env, messages, segments, left);
            run.raised
            || (|run.events| > 0 && run.events[|run.events| - 1].TurnResolved?
                && var result := run.events[|run.events| - 1].result;
                   result.ToolLoopCapReached? ==> result.clarification == env.clarification)
    decreases left
  {
    hide OneIteration, Texts;
    if left > 0 {
      match OneIteration(env, messages, segments) {
        case Again(_, after, collected) => ClarificationIsKept(env, after, collected, left - 1);
        case _ =>
      }
    }
  }

  /* ---- The work shown beside the parts ---- */

  // Every reasoning delta, end to end.
  function Reasoned(events: seq<LoopEvent>): string {
    if |events| == 0 then ""
    else
      var last := events[|events| - 1];
      Reasoned(events[..|events| - 1])
      + (if last.Live? && last.event.ReasoningDelta? then last.event.content else "")
  }

  // The last tool asked for, or the one before all of these.
  function LastTool(events: seq<LoopEvent>, before: Option<string>): Option<string> {
    if |events| == 0 then before
    else
      var last := events[|events| - 1];
      if last.Live? && last.event.ToolCallRequested? then Some(last.event.name)
      else LastTool(events[..|events| - 1], before)
  }

  // A bubble shows all the reasoning behind its own, and the last tool; nothing but its parts changes besides.
  ghost predicate ShowsWork(m: ThreadMessage, after: ThreadMessage, events: seq<LoopEvent>) {
    && after.reasoning == m.reasoning + Reasoned(events) && after.activeTool == LastTool(events, m.activeTool)
    && after.role == m.role && after.streaming == m.streaming && after.error == m.error
    && after.clarification == m.clarification && after.metadata == m.metadata
  }

  // What one frame does to a bubble beside its parts.
  lemma FrameShows(contract: Contract, b: ThreadMessage, event: TurnEvent)
    requires IsStreamed(event) && Mapped(event)
    ensures var after := Updated(contract, b, Received(event));
            && after.reasoning == b.reasoning + (if event.ReasoningDelta? then event.content else "")
            && after.activeTool == (if event.ToolCallRequested? then Some(event.name) else b.activeTool)
            && after.role == b.role && after.streaming == b.streaming && after.error == b.error
            && after.clarification == b.clarification && after.metadata == b.metadata
  {
    hide Accept, ClientMessage, EventPayload, AppendTextDelta;
    FrameOfOne(event);
    assert b.reasoning + "" == b.reasoning;
  }

  lemma OneEventShows(contract: Contract, m: ThreadMessage, b: ThreadMessage, past: seq<LoopEvent>, event: LoopEvent)
    requires event.Live? && IsStreamed(event.event) && Mapped(event.event) && ShowsWork(m, b, past)
    ensures ShowsWork(m, Updated(contract, b, Received(event.event)), past + [event])
  {
    hide Updated, Received, Mapped, IsStreamed;
    FrameShows(contract, b, event.event);
    assert (past + [event])[..|past|] == past;
    var said := if event.event.ReasoningDelta? then event.event.content else "";
    assert m.reasoning + Reasoned(past) + said == m.reasoning + (Reasoned(past) + said);
  }

  lemma {:induction false} EventsShow(contract: Contract, m: ThreadMessage, events: seq<LoopEvent>)
    requires AllMapped(events)
    ensures AllWire(Yielded(events)) && AllDeltas(FramesOf(Yielded(events)))
    ensures ShowsWork(m, FoldBubble(contract, m, FramesOf(Yielded(events))), events)
  {
    hide Updated, Received, IsDelta, Mapped, IsStreamed, ShowsWork;
    FoldPlays(contract, events);
    if |events| == 0 {
      NothingShown(m);
    } else {
      var past, last := events[..|events| - 1], events[|events| - 1];
      EventsShow(contract, m, past);
      assert past + [last] == events;
      YieldedOneMore(past, last);
      FramesInTwo(Yielded(past), [last.event]);
      FrameOfOne(last.event);
      OneEventShows(contract, m, FoldBubble(contract, m, FramesOf(Yielded(past))), past, last);
      assert FramesOf(Yielded(events))[..|Yielded(past)|] == FramesOf(Yielded(past));
    }
  }

  lemma NothingShown(m: ThreadMessage)
    ensures ShowsWork(m, m, [])
  {
    assert m.reasoning + "" == m.reasoning;
  }

  // Every event but the resolution can be put on the wire, in runs that raise as well.
  predicate LiveMapped(events: seq<LoopEvent>) {
    forall i :: 0 <= i < |events| && events[i].Live? ==> Mapped(events[i].event)
  }

  lemma {:induction false} ChunkEventsAreMapped(chunks: seq<Chunk>)
    ensures LiveMapped(ChunkEvents(chunks))
  {
    if |chunks| > 0 {
      ChunkEventsAreMapped(chunks[..|chunks| - 1]);
    }
  }

  lemma {:induction false} CallEventsAreMapped(env: Environment, soFar: Calls, calls: seq<ToolCall>)
    requires WidgetsMapped(env) && LiveMapped(soFar.events)
    ensures LiveMapped(RunCalls(env, soFar, calls).events)
  {
    if |calls| > 0 {
      CallEventsAreMapped(env, soFar, calls[..|calls| - 1]);
    }
  }

  lemma {:induction false} RunEventsAreMapped(env: Environment, messages: seq<Message>, segments: seq<Segment>,
                                              left: nat)
    requires WidgetsMapped(env)
    ensures LiveMapped(Iterate(env, messages, segments, left).events)
    decreases left
  {
    hide OneIteration, Texts, WidgetsMapped;
    if left > 0 {
      IterationIsMapped(env, messages, segments);
      match OneIteration(env, messages, segments) {
        case Again(_, after, collected) => RunEventsAreMapped(env, after, collected, left - 1);
        case _ =>
      }
    }
  }

  lemma IterationIsMapped(env: Environment, messages: seq<Message>, segments: seq<Segment>)
    requires WidgetsMapped(env)
    ensures LiveMapped(OneIteration(env, messages, segments).events)
  {
    hide ChunkEvents, AbsorbAll, Finalize, RunCalls, WidgetsMapped;
    var reply := env.llm(messages);
    ChunkEventsAreMapped(reply.chunks);
    var completion := Finalize(AbsorbAll(reply.chunks));
    if completion.Some? {
      var c := completion.value;
      CallEventsAreMapped(env,
                          Calls([], messages + [AssistantToolCallMessage(c)], WithText(segments, c.content), false),
                          c.toolCalls);
    }
  }

  // The events of a run without its resolution.
  function Streamed(run: Run): seq<LoopEvent> {
    if run.raised || |run.events| == 0 then run.events else run.events[..|run.events| - 1]
  }

  lemma StreamedEventsOf(env: Environment, messages: seq<Message>)
    requires WidgetsMapped(env)
    ensures var run := Iterate(env, messages, [], MAX_ITERATIONS);
            && AllMapped(Streamed(run)) && Yielded(Streamed(run)) == Yielded(run.events)
            && Reasoned(Streamed(run)) == Reasoned(run.events)
            && forall before :: LastTool(Streamed(run), before) == LastTool(run.events, before)
  {
    hide Iterate, WidgetsMapped;
    var run := Iterate(env, messages, [], MAX_ITERATIONS);
    ResolvesExactlyOnceAndLast(env, messages, [], MAX_ITERATIONS);
    RunEventsAreMapped(env, messages, [], MAX_ITERATIONS);
    if !run.raised {
      assert Yielded(Streamed(run)) + [] == Yielded(Streamed(run));
      assert Reasoned(Streamed(run)) + "" == Reasoned(Streamed(run));
    }
  }

  // What the closing events leave of a bubble's work: its reasoning, and no tool.
  lemma ClosingClearsTheTool(contract: Contract, thread: seq<ThreadMessage>, m: ThreadMessage,
                             conversationId: string, result: Resolution, segments: seq<Segment>)
    requires m.role == Assistant && m.streaming && SegmentsMapped(segments)
    ensures AllWire(Closing(conversationId, result, segments, true))
    ensures exists done: ThreadMessage ::
              Fold(contract, thread + [m], FramesOf(Closing(conversationId, result, segments, true)))
              == thread + [done]
              && done.reasoning == m.reasoning && done.activeTool == None && !done.streaming
  {
    hide Accepted, PartsOf, ReplyContent, ClientMessage, EventPayload, Fold, FramesOf, UpdateLastAssistant;
    var closing := Closing(conversationId, result, segments, true);
    var event := closing[|closing| - 1];
    assert Mapped(event);
    FrameOfOne(event);
    var frame := Received(event);
    if result.Completed? {
      assert closing == [event];
      LandsOnLast(contract, thread, m, frame);
      FoldOne(contract, thread + [m], frame);
      assert Updated(contract, m, frame).activeTool == None;
    } else {
      var cap := CapReached(result.partial, result.clarification);
      FrameOfOne(cap);
      assert closing == [cap] + [event];
      FramesInTwo([cap], [event]);
      FoldInTwo(contract, thread + [m], [Received(cap)], [frame]);
      FoldOne(contract, thread + [m], Received(cap));
      LandsOnLast(contract, thread, m, Received(cap));
      var asked := Updated(contract, m, Received(cap));
      FoldOne(contract, thread + [asked], frame);
      LandsOnLast(contract, thread, asked, frame);
      assert Updated(contract, asked, frame).activeTool == None;
    }
  }

  // For every run and every bubble it is streamed into: all the reasoning in order behind the bubble's own,
  // and the name of the last tool asked for, until the closing events clear it.
  lemma WorkIsShown(contract: Contract, env: Environment, messages: seq<Message>, conversationId: string,
                    thread: seq<ThreadMessage>, m: ThreadMessage)
    requires WidgetsMapped(env) && m.role == Assistant && m.streaming
    ensures var run := Iterate(env, messages, [], MAX_ITERATIONS);
            && AllWire(Yielded(run.events))
            && (exists b :: Fold(contract, thread + [m], FramesOf(Yielded(run.events))) == thread + [b]
                       && ShowsWork(m, b, run.events))
            && (!run.raised ==>
                  && AllWire(ReplyEvents(conversationId, run, true))
                  && exists done: ThreadMessage ::
                       Fold(contract, thread + [m], FramesOf(ReplyEvents(conversationId, run, true)))
                       == thread + [done]
                       && done.reasoning == m.reasoning + Reasoned(run.events) && done.activeTool == None
                       && !done.streaming)
  {
    hide Iterate, Yielded, Fold, FramesOf, FoldBubble, AllMapped, AllDeltas, Reasoned, LastTool, Closing,
         WidgetsMapped, EndsMirrored, SegmentsMapped;
    var run := Iterate(env, messages, [], MAX_ITERATIONS);
    StreamedEventsOf(env, messages);
    var events := Streamed(run);
    EventsShow(contract, m, events);
    var frames := FramesOf(Yielded(events));
    DeltasAreDeltas(frames);
    FoldsIntoLast(contract, thread, m, frames);
    var b := FoldBubble(contract, m, frames);
    assert ShowsWork(m, b, run.events);
    if !run.raised {
      ResolvedSegmentsAreMapped(contract, env, messages);
      var resolved := run.events[|run.events| - 1];
      ClosingClearsTheTool(contract, thread, b, conversationId, resolved.result, resolved.segments);
      var closing := Closing(conversationId, resolved.result, resolved.segments, true);
      FramesInTwo(Yielded(run.events), closing);
      FoldInTwo(contract, thread + [m], frames, FramesOf(closing));
    }
  }

  lemma DeltasAreDeltas(frames: seq<Frame>)
    requires AllDeltas(frames)
    ensures forall i :: 0 <= i < |frames| ==> IsDelta(frames[i])
  {
  }

  lemma ResolvedSegmentsAreMapped(contract: Contract, env: Environment, messages: seq<Message>)
    requires WidgetsMapped(env) && !Iterate(env, messages, [], MAX_ITERATIONS).raised
    ensures var events := Iterate(env, messages, [], MAX_ITERATIONS).events;
            |events| > 0 && events[|events| - 1].TurnResolved? && SegmentsMapped(events[|events| - 1].segments)
  {
    hide Merged, Accepted, Played, Texts, Said, Iterate, AllMapped, WidgetsMapped, SegmentsMapped;
    EmptyMirrors(contract);
    RunMirrors(contract, env, messages, [], [], MAX_ITERATIONS);
  }

  /* ---- Where the agreement ends ---- */

  // A reply the database rejects is announced as an error, which ends the bubble: the final message then
  // opens a second one. One bubble stands at the end exactly when the reply was saved.
  lemma OneBubbleIffSaved(contract: Contract, thread: seq<ThreadMessage>, m: ThreadMessage, conversationId: string,
                          result: Resolution, segments: seq<Segment>, saved: bool)
    requires m.role == Assistant && m.streaming && m.clarification == "" && SegmentsMapped(segments)
    requires result.ToolLoopCapReached? ==> result.clarification != ""
    ensures AllWire(Closing(conversationId, result, segments, saved))
    ensures var final := Fold(contract, thread + [m], FramesOf(Closing(conversationId, result, segments, saved)));
            && |final| == |thread| + (if saved then 1 else 2)
            && (!saved ==> final[|thread|].error == Some(NOT_SAVED) && final[|thread| + 1].error == None)
  {
    hide Accepted, PartsOf, ReplyContent, ClientMessage, EventPayload, Fold, FramesOf, UpdateLastAssistant;
    if saved {
      ClosingLands(contract, thread, m, conversationId, result, segments);
    } else {
      var closing := Closing(conversationId, result, segments, false);
      var cap := if result.Completed? then [] else [CapReached(result.partial, result.clarification)];
      var rest := [PersistenceFailed(NOT_SAVED)] + [closing[|closing| - 1]];
      assert closing == cap + rest;
      var asked := m;
      if !result.Completed? {
        FrameOfOne(cap[0]);
        FoldOne(contract, thread + [m], Received(cap[0]));
        LandsOnLast(contract, thread, m, Received(cap[0]));
        asked := Updated(contract, m, Received(cap[0]));
      } else {
        FoldNothing(contract, thread + [m]);
      }
      assert Mapped(closing[|closing| - 1]);
      UnsavedLands(contract, thread, asked, closing[|closing| - 1]);
      FramesInTwo(cap, rest);
      FoldInTwo(contract, thread + [m], FramesOf(cap), FramesOf(rest));
    }
  }

  lemma FoldNothing(contract: Contract, thread: seq<ThreadMessage>)
    ensures Fold(contract, thread, FramesOf([])) == thread
  {
  }

  lemma UnsavedLands(contract: Contract, thread: seq<ThreadMessage>, m: ThreadMessage, done: TurnEvent)
    requires m.role == Assistant && m.streaming && done.MessageDone? && Mapped(done)
    ensures AllWire([PersistenceFailed(NOT_SAVED)] + [done])
    ensures var final := Fold(contract, thread + [m], FramesOf([PersistenceFailed(NOT_SAVED)] + [done]));
            |final| == |thread| + 2 && final[|thread|].error == Some(NOT_SAVED) && final[|thread| + 1].error == None
  {
    hide Accepted, PartsOf, ClientMessage, EventPayload, Fold, FramesOf;
    var failed := PersistenceFailed(NOT_SAVED);
    FrameOfOne(failed);
    FrameOfOne(done);
    FramesInTwo([failed], [done]);
    FoldInTwo(contract, thread + [m], [Received(failed)], [Received(done)]);
    FoldOne(contract, thread + [m], Received(failed));
    LandsOnLast(contract, thread, m, Received(failed));
    FoldOne(contract, thread + [Updated(contract, m, Received(failed))], Received(done));
  }

  // A reloaded page is sent the row's widgets, then its text.
  function ReplayParts(row: ReplyRow): seq<Part> {
    WidgetParts(row.widgets) + [TextPart(row.content)]
  }

  function WidgetParts(widgets: seq<Widget>): seq<Part> {
    if |widgets| == 0 then []
    else
      var last := widgets[|widgets| - 1];
      WidgetParts(widgets[..|widgets| - 1]) + [WidgetPart(last.widgetType, last.data)]
  }

  predicate AllWidgets(segments: seq<Segment>) {
    forall i :: 0 <= i < |segments| ==> segments[i].WidgetSegment?
  }

  // A contract may drop widgets; it never touches texts.
  function TextsOf(parts: seq<Part>): seq<string> {
    if |parts| == 0 then []
    else
      var last := parts[|parts| - 1];
      TextsOf(parts[..|parts| - 1]) + (if last.TextPart? then [last.content] else [])
  }

  lemma TextsOneMore(parts: seq<Part>, part: Part)
    ensures TextsOf(parts + [part]) == TextsOf(parts) + (if part.TextPart? then [part.content] else [])
  {
    assert (parts + [part])[..|parts|] == parts;
  }

  lemma {:induction false} AcceptedKeepsTexts(contract: Contract, parts: seq<Part>)
    ensures TextsOf(Accepted(contract, parts)) == TextsOf(parts)
  {
    if |parts| > 0 {
      var before, last := parts[..|parts| - 1], Accept(contract, parts[|parts| - 1]);
      AcceptedKeepsTexts(contract, before);
      if last.Some? {
        TextsOneMore(Accepted(contract, before), last.value);
      } else {
        assert Accepted(contract, before) + [] == Accepted(contract, before);
      }
    }
  }

  lemma {:induction false} WidgetsHaveNoTexts(widgets: seq<Widget>)
    ensures TextsOf(WidgetParts(widgets)) == []
  {
    if |widgets| > 0 {
      var last := widgets[|widgets| - 1];
      WidgetsHaveNoTexts(widgets[..|widgets| - 1]);
      TextsOneMore(WidgetParts(widgets[..|widgets| - 1]), WidgetPart(last.widgetType, last.data));
    }
  }

  lemma AllWidgetsOneMore(segments: seq<Segment>, segment: Segment)
    ensures AllWidgets(segments + [segment]) <==> AllWidgets(segments) && segment.WidgetSegment?
  {
    var all := segments + [segment];
    assert all[|segments|] == segment;
    assert forall i :: 0 <= i < |segments| ==> all[i] == segments[i];
  }

  lemma {:induction false} SegmentTexts(segments: seq<Segment>)
    requires NoEmptyText(segments)
    ensures "" !in TextsOf(PartsOf(segments))
    ensures TextsOf(PartsOf(segments)) == [] <==> AllWidgets(segments)
  {
    hide TextsOf, AllWidgets;
    if |segments| > 0 {
      var before, last := segments[..|segments| - 1], segments[|segments| - 1];
      SegmentTexts(before);
      TextsOneMore(PartsOf(before), PartOf(last));
      AllWidgetsOneMore(before, last);
      assert before + [last] == segments;
    } else {
      NoWidgets();
    }
  }

  lemma {:induction false} WidgetsAreTheirParts(segments: seq<Segment>)
    requires AllWidgets(segments)
    ensures WidgetParts(WidgetsOf(segments)) == PartsOf(segments)
  {
    hide WidgetParts;
    if |segments| == 0 {
      NoWidgets();
    } else {
      var before, last := segments[..|segments| - 1], segments[|segments| - 1];
      WidgetsAreTheirParts(before);
      WidgetPartsOneMore(WidgetsOf(before), last.widget);
    }
  }

  lemma WidgetPartsOneMore(widgets: seq<Widget>, w: Widget)
    ensures WidgetParts(widgets + [w]) == WidgetParts(widgets) + [WidgetPart(w.widgetType, w.data)]
  {
    assert (widgets + [w])[..|widgets|] == widgets;
  }

  lemma NoWidgets()
    ensures WidgetParts(WidgetsOf([])) == [] && PartsOf([]) == [] && TextsOf([]) == [] && AllWidgets([])
  {
  }

  // Completed, with a text behind nothing but widgets, or with nothing at all.
  predicate ReloadsAlike(result: Resolution, segments: seq<Segment>) {
    result.Completed?
    && if result.completion.content == "" then segments == []
       else |segments| > 0 && AllWidgets(segments[..|segments| - 1])
  }

  // The row of a completed reply shows the final message's parts exactly then, whatever the contract.
  lemma CompletedReloadsIff(contract: Contract, result: Resolution, segments: seq<Segment>)
    requires result.Completed? && NoEmptyText(segments) && SpokenLast(segments, result.completion.content)
    ensures Accepted(contract, ReplayParts(RowOf(result, segments)))
         == Accepted(contract, DoneParts(result.completion.content, segments))
       <==> ReloadsAlike(result, segments)
  {
    hide Accepted, TextsOf, WidgetParts, WidgetsOf, PartsOf, AllWidgets, NoEmptyText;
    var content := result.completion.content;
    var widgets := WidgetParts(WidgetsOf(segments));
    var replayed, done := ReplayParts(RowOf(result, segments)), DoneParts(content, segments);
    AcceptedKeepsTexts(contract, replayed);
    AcceptedKeepsTexts(contract, done);
    WidgetsHaveNoTexts(WidgetsOf(segments));
    TextsOneMore(widgets, TextPart(content));
    assert TextsOf(replayed) == [content];
    if segments == [] {
      NoWidgets();
      assert [] + [TextPart("")] == [TextPart("")];
    } else if content == "" {
      SegmentTexts(segments);
      assert content in TextsOf(replayed) && content !in TextsOf(done);
    } else {
      SpokenBehind(segments, content);
    }
  }

  lemma SpokenBehind(segments: seq<Segment>, content: string)
    requires NoEmptyText(segments) && SpokenLast(segments, content) && content != ""
    ensures var earlier, parts := segments[..|segments| - 1], PartsOf(segments);
            if AllWidgets(earlier) then parts == WidgetParts(WidgetsOf(segments)) + [TextPart(content)]
            else TextsOf(parts) != [content]
  {
    hide WidgetParts, TextsOf, AllWidgets;
    var earlier := segments[..|segments| - 1];
    SegmentTexts(earlier);
    TextsOneMore(PartsOf(earlier), TextPart(content));
    assert WidgetsOf(segments) == WidgetsOf(earlier) + [] == WidgetsOf(earlier);
    if AllWidgets(earlier) {
      WidgetsAreTheirParts(earlier);
    } else {
      assert |TextsOf(PartsOf(segments))| > 1;
    }
  }

  lemma {:induction false} StripLeftStartsBare(s: string)
    requires |s| > 0 && !IsSpace(s[|s| - 1])
    ensures StripLeft(s) != "" && !IsSpace(StripLeft(s)[0])
  {
    if IsSpace(s[0]) {
      StripLeftStartsBare(s[1..]);
    }
  }

  // The text a cap trip saves is never the one it leaves on screen.
  lemma CapTextIsAnother(partial: string, clarification: Sentence)
    ensures Strip(partial + "\n\n" + clarification) != partial
  {
    var text := partial + "\n\n" + clarification;
    assert text[|text| - 1] == clarification[|clarification| - 1];
    assert StripRight(text) == text;
    StripLeftStartsBare(text);
    if partial != "" {
      assert text[0] == partial[0];
    }
  }

  lemma CapNeverReloads(contract: Contract, result: Resolution, segments: seq<Segment>, clarification: Sentence)
    requires result.ToolLoopCapReached? && result.clarification == clarification
    ensures Accepted(contract, ReplayParts(RowOf(result, segments))) != [TextPart(result.partial)]
  {
    hide Strip, Accept;
    CapTextIsAnother(result.partial, clarification);
    var text := TextSegment(ReplyContent(result));
    assert [text][..0] == [];
    assert WidgetsOf([text]) == [] + [] by { assert WidgetsOf([text][..0]) == []; }
    NoWidgets();
    var replayed := ReplayParts(RowOf(result, segments));
    assert replayed == [TextPart(ReplyContent(result))];
    AcceptedKeepsTexts(contract, replayed);
    TextsOneMore([], TextPart(ReplyContent(result)));
    TextsOneMore([], TextPart(result.partial));
    assert [] + [TextPart(ReplyContent(result))] == [TextPart(ReplyContent(result))];
    assert [] + [TextPart(result.partial)] == [TextPart(result.partial)];
    assert TextsOf(replayed)[0] == ReplyContent(result) != result.partial;
    assert TextsOf([TextPart(result.partial)])[0] == result.partial;
  }

  // For every model run and every widget contract: a reload shows the parts that stand on screen exactly
  // when the reply completed, and its text stands behind widgets only, or nothing was shown at all.
  lemma ReloadShowsTheSameIff(contract: Contract, env: Environment, messages: seq<Message>,
                              conversationId: string, thread: seq<ThreadMessage>)
    requires WidgetsMapped(env) && !Iterate(env, messages, [], MAX_ITERATIONS).raised
    ensures var run, n := Iterate(env, messages, [], MAX_ITERATIONS), |thread|;
            && |run.events| > 0 && run.events[|run.events| - 1].TurnResolved?
            && AllWire(ReplyEvents(conversationId, run, true))
            && var final := Screen(contract, thread, ReplyEvents(conversationId, run, true));
               var resolved := run.events[|run.events| - 1];
               && |final| == n + 1
               && (Accepted(contract, ReplayParts(RowOf(resolved.result, resolved.segments))) == final[n].parts
                   <==> ReloadsAlike(resolved.result, resolved.segments))
  {
    hide Merged, Accepted, Played, Texts, Said, Screen, Yielded, Closing, Iterate, ReplyEvents, Strip, AllMapped,
         AllWire, WidgetsMapped, ReplayParts, RowOf, SpokenLast, AllWidgets, NoEmptyText, SegmentsMapped;
    LiveMatchesFinal(contract, env, messages, conversationId, thread);
    EmptyMirrors(contract);
    RunMirrors(contract, env, messages, [], [], MAX_ITERATIONS);
    ClarificationIsKept(env, messages, [], MAX_ITERATIONS);
    var run := Iterate(env, messages, [], MAX_ITERATIONS);
    var resolved := run.events[|run.events| - 1];
    if resolved.result.Completed? {
      CompletedReloadsIff(contract, resolved.result, resolved.segments);
    } else {
      PartialIsSaid(contract, env, messages);
      CapNeverReloads(contract, resolved.result, resolved.segments, env.clarification);
    }
  }

  lemma PartialIsSaid(contract: Contract, env: Environment, messages: seq<Message>)
    requires WidgetsMapped(env) && !Iterate(env, messages, [], MAX_ITERATIONS).raised
    ensures var events := Iterate(env, messages, [], MAX_ITERATIONS).events;
            |events| > 0 && events[|events| - 1].TurnResolved?
            && (events[|events| - 1].result.ToolLoopCapReached? ==>
                  events[|events| - 1].result.partial == Said(events))
  {
    hide Merged, Accepted, Played, Texts, Said, Iterate, AllMapped, WidgetsMapped;
    EmptyMirrors(contract);
    RunMirrors(contract, env, messages, [], [], MAX_ITERATIONS);
    SaidBeforeLast(Iterate(env, messages, [], MAX_ITERATIONS));
  }
}
