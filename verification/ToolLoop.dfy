/** The bounded tool-execution loop of one chat turn. The model and the tools are arbitrary functions
    of the transcript so far, so every behaviour of either is some choice of them. */
module ToolLoop {
  import opened Prelude
  import opened TurnEvents

  const MAX_ITERATIONS := 5

  datatype ToolCall = ToolCall(id: string, name: string, arguments: string)

  datatype FinishReason = Stop | ToolCalls | Length | ContentFilter

  // Empty text stands for an absent delta: the loop treats both as nothing.
  datatype Chunk = Chunk(content: string, reasoning: string, toolCalls: Option<seq<ToolCall>>,
                         finishReason: Option<FinishReason>, model: Option<string>)

  datatype Completion = Completion(content: string, reasoning: string, toolCalls: seq<ToolCall>,
                                   finishReason: FinishReason, model: string)

  datatype Message =
    | Plain(role: string, content: string)
    | AssistantCalls(text: Option<string>, calls: seq<ToolCall>)
    | ToolResult(callId: string, name: string, content: string)

  // One streamed completion, cut short by an exception when `fails`.
  datatype Reply = Reply(chunks: seq<Chunk>, fails: bool)

  datatype ToolRun = InvalidArguments(detail: string) | Ran(content: string, widgetData: Option<Json>) | Fails

  datatype ToolDefinition = ToolDefinition(widgetType: Option<string>, run: (seq<Message>, string) -> ToolRun)

  // The clarification request is a constant text that does not end in a space.
  type Sentence = s: string | |s| > 0 && !IsSpace(s[|s| - 1]) witness "?"

  datatype Environment = Environment(llm: seq<Message> -> Reply, registry: map<string, ToolDefinition>,
                                     clarification: Sentence)

  datatype Resolution = Completed(completion: Completion) | ToolLoopCapReached(partial: string, clarification: string)

  datatype LoopEvent = Live(event: TurnEvent) | TurnResolved(result: Resolution, segments: seq<Segment>)

  /* ---- Aggregating a chunk stream ---- */

  datatype Partial = Partial(content: string, reasoning: string, toolCalls: seq<ToolCall>,
                             finishReason: Option<FinishReason>, model: Option<string>)

  const NOTHING := Partial("", "", [], None, None)

  function Absorb(p: Partial, chunk: Chunk): Partial {
    Partial(p.content + chunk.content, p.reasoning + chunk.reasoning,
            if chunk.toolCalls.Some? then chunk.toolCalls.value else p.toolCalls,
            if chunk.finishReason.Some? then chunk.finishReason else p.finishReason,
            if chunk.model.Some? then chunk.model else p.model)
  }

  function AbsorbAll(chunks: seq<Chunk>): Partial {
    if |chunks| == 0 then NOTHING else Absorb(AbsorbAll(chunks[..|chunks| - 1]), chunks[|chunks| - 1])
  }

  // A stream without a finish reason or a model is an unexpected response shape.
  function Finalize(p: Partial): Option<Completion> {
    if p.finishReason.None? || p.model.None? then None
    else Some(Completion(p.content, p.reasoning, p.toolCalls, p.finishReason.value, p.model.value))
  }

  function Join(parts: seq<string>): string {
    if |parts| == 0 then "" else Join(parts[..|parts| - 1]) + parts[|parts| - 1]
  }

  lemma JoinOneMore(parts: seq<string>, part: string)
    ensures Join(parts + [part]) == Join(parts) + part
  {
    assert (parts + [part])[..|parts|] == parts;
  }

  class ChunkAggregator {
    var contentParts: seq<string>
    var reasoningParts: seq<string>
    var toolCalls: seq<ToolCall>
    var finishReason: Option<FinishReason>
    var model: Option<string>

    ghost function View(): Partial
      reads this
    {
      Partial(Join(contentParts), Join(reasoningParts), toolCalls, finishReason, model)
    }

    constructor ()
      ensures View() == NOTHING
    {
      contentParts, reasoningParts, toolCalls := [], [], [];
      finishReason, model := None, None;
    }

    method AbsorbChunk(chunk: Chunk)
      modifies this
      ensures View() == Absorb(old(View()), chunk)
    {
      hide Join;
      JoinOneMore(contentParts, chunk.content);
      JoinOneMore(reasoningParts, chunk.reasoning);
      if chunk.content != "" {
        contentParts := contentParts + [chunk.content];
      }
      if chunk.reasoning != "" {
        reasoningParts := reasoningParts + [chunk.reasoning];
      }
      if chunk.toolCalls.Some? {
        toolCalls := chunk.toolCalls.value;
      }
      if chunk.finishReason.Some? {
        finishReason := chunk.finishReason;
      }
      if chunk.model.Some? {
        model := chunk.model;
      }
    }

    method FinalizeStream() returns (result: Option<Completion>)
      ensures result == Finalize(View())
    {
      if finishReason.None? || model.None? {
        return None;
      }
      result := Some(Completion(Join(contentParts), Join(reasoningParts), toolCalls,
                                finishReason.value, model.value));
    }
  }

  /* ---- The loop as a function ---- */

  function ChunkEvent(chunk: Chunk): seq<LoopEvent> {
    (if chunk.reasoning != "" then [Live(ReasoningDelta(chunk.reasoning))] else [])
    + (if chunk.content != "" then [Live(ContentDelta(chunk.content))] else [])
  }

  function ChunkEvents(chunks: seq<Chunk>): seq<LoopEvent> {
    if |chunks| == 0 then [] else ChunkEvents(chunks[..|chunks| - 1]) + ChunkEvent(chunks[|chunks| - 1])
  }

  // An unknown tool and invalid arguments are answers to the model; a handler's exception is not answered.
  function ExecuteToolCall(env: Environment, messages: seq<Message>, call: ToolCall)
    : Option<(Message, Option<Widget>)>
  {
    if call.name !in env.registry then
      Some((ToolResult(call.id, call.name, "Unknown tool '" + call.name + "'."), None))
    else
      var definition := env.registry[call.name];
      match definition.run(messages, if call.arguments == "" then "{}" else call.arguments)
      case InvalidArguments(detail) =>
        Some((ToolResult(call.id, call.name, "Invalid arguments for '" + call.name + "': " + detail), None))
      case Ran(content, data) =>
        Some((ToolResult(call.id, call.name, content),
              if data.None? || definition.widgetType.None? then None
              else Some(Widget(call.id, call.name, definition.widgetType.value, data.value))))
      case Fails => None
  }

  datatype Calls = Calls(events: seq<LoopEvent>, messages: seq<Message>, segments: seq<Segment>, raised: bool)

  function Requested(soFar: Calls, call: ToolCall): Calls {
    soFar.(events := soFar.events + [Live(ToolCallRequested(call.name))])
  }

  function Answered(soFar: Calls, message: Message, widget: Option<Widget>): Calls {
    Calls(soFar.events + (if widget.Some? then [Live(WidgetReady(widget.value))] else []),
          soFar.messages + [message],
          soFar.segments + (if widget.Some? then [WidgetSegment(widget.value)] else []),
          false)
  }

  // Once a handler has raised, the calls behind it are not made.
  function RunCall(env: Environment, soFar: Calls, call: ToolCall): Calls {
    if soFar.raised then soFar
    else
      match ExecuteToolCall(env, soFar.messages, call)
      case None => Requested(soFar, call).(raised := true)
      case Some((message, widget)) => Answered(Requested(soFar, call), message, widget)
  }

  function RunCalls(env: Environment, soFar: Calls, calls: seq<ToolCall>): Calls {
    if |calls| == 0 then soFar
    else RunCall(env, RunCalls(env, soFar, calls[..|calls| - 1]), calls[|calls| - 1])
  }

  function Texts(segments: seq<Segment>): string {
    if |segments| == 0 then ""
    else
      var last := segments[|segments| - 1];
      Texts(segments[..|segments| - 1]) + (if last.TextSegment? then last.content else "")
  }

  function WithText(segments: seq<Segment>, content: string): seq<Segment> {
    segments + (if content != "" then [TextSegment(content)] else [])
  }

  function AssistantToolCallMessage(c: Completion): Message {
    AssistantCalls(if c.content == "" then None else Some(c.content), c.toolCalls)
  }

  predicate Resolves(c: Completion) {
    c.finishReason != ToolCalls || c.toolCalls == []
  }

  // What one iteration comes to.
  datatype Iteration =
    | Raised(events: seq<LoopEvent>, messages: seq<Message>)
    | Resolved(events: seq<LoopEvent>, completion: Completion, segments: seq<Segment>)
    | Again(events: seq<LoopEvent>, messages: seq<Message>, segments: seq<Segment>)

  function OneIteration(env: Environment, messages: seq<Message>, segments: seq<Segment>): Iteration {
    var reply := env.llm(messages);
    var events := ChunkEvents(reply.chunks);
    var completion := Finalize(AbsorbAll(reply.chunks));
    if reply.fails || completion.None? then Raised(events, messages)
    else
      var c := completion.value;
      var spoken := WithText(segments, c.content);
      if Resolves(c) then Resolved(events, c, spoken)
      else
        var calls := RunCalls(env, Calls([], messages + [AssistantToolCallMessage(c)], spoken, false), c.toolCalls);
        if calls.raised then Raised(events + calls.events, calls.messages)
        else Again(events + calls.events, calls.messages, calls.segments)
  }

  datatype Run = Run(events: seq<LoopEvent>, messages: seq<Message>, raised: bool)

  function Preceded(events: seq<LoopEvent>, rest: Run): Run {
    Run(events + rest.events, rest.messages, rest.raised)
  }

  // The loop with `left` iterations to go.
  function Iterate(env: Environment, messages: seq<Message>, segments: seq<Segment>, left: nat): Run
    decreases left
  {
    if left == 0 then
      Run([TurnResolved(ToolLoopCapReached(Texts(segments), env.clarification), segments)], messages, false)
    else
      match OneIteration(env, messages, segments)
      case Raised(events, after) => Run(events, after, true)
      case Resolved(events, c, spoken) => Run(events + [TurnResolved(Completed(c), spoken)], messages, false)
      case Again(events, after, collected) => Preceded(events, Iterate(env, after, collected, left - 1))
  }

  /* ---- The loop as it runs ---- */

  // The caller's list, appended to in place.
  class Transcript {
    var messages: seq<Message>

    constructor (messages: seq<Message>)
      ensures this.messages == messages
    {
      this.messages := messages;
    }
  }

  method EmitDeltas(chunk: Chunk) returns (events: seq<LoopEvent>)
    ensures events == ChunkEvent(chunk)
  {
    events := [];
    if chunk.reasoning != "" {
      events := events + [Live(ReasoningDelta(chunk.reasoning))];
    }
    if chunk.content != "" {
      events := events + [Live(ContentDelta(chunk.content))];
    }
  }

  method StreamCompletion(reply: Reply) returns (events: seq<LoopEvent>, result: Option<Completion>)
    ensures events == ChunkEvents(reply.chunks)
    ensures result == if reply.fails then None else Finalize(AbsorbAll(reply.chunks))
  {
    hide ChunkEvent, Absorb, Join, Finalize;
    events := [];
    var aggregator := new ChunkAggregator();
    for i := 0 to |reply.chunks|
      invariant events == ChunkEvents(reply.chunks[..i])
      invariant aggregator.View() == AbsorbAll(reply.chunks[..i])
    {
      assert reply.chunks[..i + 1][..i] == reply.chunks[..i];
      var emitted := EmitDeltas(reply.chunks[i]);
      events := events + emitted;
      aggregator.AbsorbChunk(reply.chunks[i]);
    }
    assert reply.chunks[..|reply.chunks|] == reply.chunks;
    if reply.fails {
      return events, None;
    }
    result := aggregator.FinalizeStream();
  }

  method DispatchCalls(env: Environment, transcript: Transcript, calls: seq<ToolCall>)
    returns (events: seq<LoopEvent>, segments: seq<Segment>, raised: bool)
    modifies transcript
    ensures Calls(events, transcript.messages, segments, raised)
         == RunCalls(env, Calls([], old(transcript.messages), [], false), calls)
  {
    events, segments, raised := [], [], false;
    for i := 0 to |calls|
      invariant !raised
      invariant Calls(events, transcript.messages, segments, raised)
             == RunCalls(env, Calls([], old(transcript.messages), [], false), calls[..i])
    {
      assert calls[..i + 1][..i] == calls[..i];
      events := events + [Live(ToolCallRequested(calls[i].name))];
      var answer := ExecuteToolCall(env, transcript.messages, calls[i]);
      if answer.None? {
        raised := true;
        RaisedStays(env, Calls([], old(transcript.messages), [], false), calls, i + 1);
        return;
      }
      var (message, widget) := answer.value;
      transcript.messages := transcript.messages + [message];
      if widget.Some? {
        segments := segments + [WidgetSegment(widget.value)];
        events := events + [Live(WidgetReady(widget.value))];
      }
    }
    assert calls[..|calls|] == calls;
  }

  lemma {:induction false} RaisedStays(env: Environment, soFar: Calls, calls: seq<ToolCall>, n: nat)
    requires n <= |calls| && RunCalls(env, soFar, calls[..n]).raised
    ensures RunCalls(env, soFar, calls) == RunCalls(env, soFar, calls[..n])
  {
    hide ExecuteToolCall;
    if n == |calls| {
      assert calls[..n] == calls;
    } else {
      assert calls[..|calls| - 1][..n] == calls[..n];
      RaisedStays(env, soFar, calls[..|calls| - 1], n);
    }
  }

  // What the calls add does not depend on the segments collected before them.
  lemma {:induction false} CallsAppend(env: Environment, messages: seq<Message>, segments: seq<Segment>,
                                       calls: seq<ToolCall>)
    ensures var alone := RunCalls(env, Calls([], messages, [], false), calls);
            RunCalls(env, Calls([], messages, segments, false), calls)
            == alone.(segments := segments + alone.segments)
  {
    hide ExecuteToolCall;
    if |calls| > 0 {
      CallsAppend(env, messages, segments, calls[..|calls| - 1]);
    }
  }

  // One pass of the loop body, up to the resolution it may yield.
  method ExecuteIteration(env: Environment, transcript: Transcript, segments: seq<Segment>)
    returns (result: Iteration)
    modifies transcript
    ensures result == OneIteration(env, old(transcript.messages), segments)
    ensures transcript.messages == if result.Resolved? then old(transcript.messages) else result.messages
  {
    hide ChunkEvents, AbsorbAll, Finalize, RunCalls;
    var reply := env.llm(transcript.messages);
    var events, completion := StreamCompletion(reply);
    if completion.None? {
      return Raised(events, transcript.messages);
    }
    var c := completion.value;
    var collected := segments;
    if c.content != "" {
      collected := collected + [TextSegment(c.content)];
    }
    assert collected == WithText(segments, c.content);
    if Resolves(c) {
      return Resolved(events, c, collected);
    }
    transcript.messages := transcript.messages + [AssistantToolCallMessage(c)];
    CallsAppend(env, transcript.messages, collected, c.toolCalls);
    var dispatched, widgets, raised := DispatchCalls(env, transcript, c.toolCalls);
    if raised {
      return Raised(events + dispatched, transcript.messages);
    }
    result := Again(events + dispatched, transcript.messages, collected + widgets);
  }

  lemma PrecededTwice(first: seq<LoopEvent>, second: seq<LoopEvent>, rest: Run)
    ensures Preceded(first, Preceded(second, rest)) == Preceded(first + second, rest)
  {
    assert first + (second + rest.events) == first + second + rest.events;
  }

  method ExecuteRun(env: Environment, transcript: Transcript) returns (events: seq<LoopEvent>, raised: bool)
    modifies transcript
    ensures Run(events, transcript.messages, raised) == Iterate(env, old(transcript.messages), [], MAX_ITERATIONS)
  {
    hide OneIteration, Texts;
    events, raised := [], false;
    var segments: seq<Segment> := [];
    ghost var all := Iterate(env, transcript.messages, [], MAX_ITERATIONS);
    assert Preceded([], all) == all;
    for iteration := 0 to MAX_ITERATIONS
      invariant all == Preceded(events, Iterate(env, transcript.messages, segments, MAX_ITERATIONS - iteration))
    {
      ghost var left := MAX_ITERATIONS - iteration - 1;
      var result := ExecuteIteration(env, transcript, segments);
      match result {
        case Raised(emitted, _) => return events + emitted, true;
        case Resolved(emitted, c, spoken) =>
          assert events + (emitted + [TurnResolved(Completed(c), spoken)])
              == events + emitted + [TurnResolved(Completed(c), spoken)];
          return events + emitted + [TurnResolved(Completed(c), spoken)], false;
        case Again(emitted, _, collected) =>
          PrecededTwice(events, emitted, Iterate(env, transcript.messages, collected, left));
          events, segments := events + emitted, collected;
      }
    }
    events := events + [TurnResolved(ToolLoopCapReached(Texts(segments), env.clarification), segments)];
  }

  /* ---- Exactly one resolution, last ---- */

  predicate IsStreamed(event: TurnEvent) {
    event.ReasoningDelta? || event.ContentDelta? || event.ToolCallRequested? || event.WidgetReady?
  }

  predicate AllLive(events: seq<LoopEvent>) {
    forall i :: 0 <= i < |events| ==> events[i].Live? && IsStreamed(events[i].event)
  }

  lemma {:induction false} ChunkEventsAreLive(chunks: seq<Chunk>)
    ensures AllLive(ChunkEvents(chunks))
  {
    if |chunks| > 0 {
      ChunkEventsAreLive(chunks[..|chunks| - 1]);
    }
  }

  lemma {:induction false} CallEventsAreLive(env: Environment, soFar: Calls, calls: seq<ToolCall>)
    requires AllLive(soFar.events)
    ensures AllLive(RunCalls(env, soFar, calls).events)
  {
    if |calls| > 0 {
      CallEventsAreLive(env, soFar, calls[..|calls| - 1]);
    }
  }

  lemma IterationIsLive(env: Environment, messages: seq<Message>, segments: seq<Segment>)
    ensures AllLive(OneIteration(env, messages, segments).events)
  {
    hide ChunkEvents, AbsorbAll, Finalize, RunCalls, AssistantToolCallMessage;
    var reply := env.llm(messages);
    ChunkEventsAreLive(reply.chunks);
    var completion := Finalize(AbsorbAll(reply.chunks));
    if completion.Some? {
      var c := completion.value;
      CallEventsAreLive(env,
                        Calls([], messages + [AssistantToolCallMessage(c)], WithText(segments, c.content), false),
                        c.toolCalls);
    }
  }

  // A run that does not raise emits one resolution, as its last event; one that raises emits none.
  ghost predicate ResolvesLast(run: Run) {
    if run.raised then AllLive(run.events)
    else |run.events| > 0 && run.events[|run.events| - 1].TurnResolved?
         && AllLive(run.events[..|run.events| - 1])
  }

  lemma PrecededResolvesLast(events: seq<LoopEvent>, rest: Run)
    requires AllLive(events) && ResolvesLast(rest)
    ensures ResolvesLast(Preceded(events, rest))
  {
    var all := events + rest.events;
    if !rest.raised {
      assert all[..|all| - 1] == events + rest.events[..|rest.events| - 1];
    }
  }

  lemma {:induction false} ResolvesExactlyOnceAndLast(env: Environment, messages: seq<Message>,
                                                      segments: seq<Segment>, left: nat)
    ensures ResolvesLast(Iterate(env, messages, segments, left))
    decreases left
  {
    hide OneIteration, Texts;
    if left > 0 {
      IterationIsLive(env, messages, segments);
      match OneIteration(env, messages, segments) {
        case Again(events, after, collected) =>
          ResolvesExactlyOnceAndLast(env, after, collected, left - 1);
          PrecededResolvesLast(events, Iterate(env, after, collected, left - 1));
        case _ =>
      }
    }
  }

  /* ---- The transcript stays well formed ---- */

  predicate AnswersInOrder(results: seq<Message>, calls: seq<ToolCall>) {
    |results| == |calls|
    && forall i :: 0 <= i < |calls| ==>
         results[i].ToolResult? && results[i].callId == calls[i].id && results[i].name == calls[i].name
  }

  // At most `blocks` blocks: an assistant message with calls, then one result per call in order.
  predicate ToolBlocks(tail: seq<Message>, blocks: nat) {
    |tail| == 0
    || (blocks > 0 && tail[0].AssistantCalls? && |tail[0].calls| >= 1
        && |tail| > |tail[0].calls|
        && AnswersInOrder(tail[1..|tail[0].calls| + 1], tail[0].calls)
        && ToolBlocks(tail[|tail[0].calls| + 1..], blocks - 1))
  }

  // A call whose handler raises has no answer; every call before it has one.
  lemma {:induction false} CallsAnswerInOrder(env: Environment, soFar: Calls, calls: seq<ToolCall>)
    requires !soFar.raised
    ensures var after := RunCalls(env, soFar, calls);
            var n := |after.messages| - |soFar.messages|;
            && 0 <= n <= |calls| && after.messages[..|soFar.messages|] == soFar.messages
            && (after.raised <==> n < |calls|)
            && AnswersInOrder(after.messages[|soFar.messages|..], calls[..n])
  {
    hide ExecuteToolCall, AnswersInOrder;
    var m := |soFar.messages|;
    if |calls| == 0 {
      assert soFar.messages[m..] == [] && calls[..0] == [];
      NothingToAnswer();
    } else {
      var earlier, call := calls[..|calls| - 1], calls[|calls| - 1];
      CallsAnswerInOrder(env, soFar, earlier);
      var before, after := RunCalls(env, soFar, earlier), RunCalls(env, soFar, calls);
      var n := |before.messages| - m;
      assert calls[..n] == earlier[..n];
      if !before.raised {
        AnswerNamesItsCall(env, before.messages, call);
        if !after.raised {
          var message := after.messages[|before.messages|];
          assert after.messages[m..] == before.messages[m..] + [message];
          assert calls[..n + 1] == earlier[..n] + [call];
          OneMoreAnswer(before.messages[m..], earlier[..n], message, call);
        }
      }
    }
  }

  lemma NothingToAnswer()
    ensures AnswersInOrder([], [])
  {
  }

  lemma AnswerNamesItsCall(env: Environment, messages: seq<Message>, call: ToolCall)
    ensures var answer := ExecuteToolCall(env, messages, call);
            answer.Some? ==> var message := answer.value.0;
                             message.ToolResult? && message.callId == call.id && message.name == call.name
  {
  }

  lemma OneMoreAnswer(results: seq<Message>, calls: seq<ToolCall>, message: Message, call: ToolCall)
    requires AnswersInOrder(results, calls)
    requires message.ToolResult? && message.callId == call.id && message.name == call.name
    ensures AnswersInOrder(results + [message], calls + [call])
  {
  }

  // `after` extends `before` by at most `blocks` blocks.
  predicate Extends(before: seq<Message>, after: seq<Message>, blocks: nat) {
    |after| >= |before| && after[..|before|] == before && ToolBlocks(after[|before|..], blocks)
  }

  // By at most `blocks` blocks, the last of which may have been cut short behind some answers.
  ghost predicate ExtendsOrCut(before: seq<Message>, after: seq<Message>, blocks: nat) {
    Extends(before, after, blocks)
    || (blocks > 0 && exists whole: seq<Message>, request: Message, results: seq<Message> ::
          Extends(before, whole, blocks - 1) && IsCutBlock(whole, request, results, after))
  }

  ghost predicate IsCutBlock(whole: seq<Message>, request: Message, results: seq<Message>, after: seq<Message>) {
    after == whole + [request] + results && request.AssistantCalls? && |results| < |request.calls|
    && AnswersInOrder(results, request.calls[..|results|])
  }

  // The block an iteration adds, whole or cut.
  lemma IterationAddsABlock(env: Environment, messages: seq<Message>, segments: seq<Segment>)
    requires !OneIteration(env, messages, segments).Resolved?
    requires OneIteration(env, messages, segments).messages != messages
    ensures var one := OneIteration(env, messages, segments);
            exists request: Message, results: seq<Message> ::
              one.messages == messages + [request] + results && request.AssistantCalls? && |request.calls| >= 1
              && (if one.Again? then AnswersInOrder(results, request.calls)
                  else IsCutBlock(messages, request, results, one.messages))
  {
    hide ChunkEvents, AbsorbAll, Finalize, RunCalls, AnswersInOrder;
    var c := Finalize(AbsorbAll(env.llm(messages).chunks)).value;
    var request := AssistantToolCallMessage(c);
    var start := Calls([], messages + [request], WithText(segments, c.content), false);
    CallsAnswerInOrder(env, start, c.toolCalls);
    var after := RunCalls(env, start, c.toolCalls).messages;
    var results := after[|messages| + 1..];
    assert after == messages + [request] + results;
    assert !RunCalls(env, start, c.toolCalls).raised ==> c.toolCalls[..|results|] == c.toolCalls;
  }

  lemma AgainGrows(env: Environment, messages: seq<Message>, segments: seq<Segment>)
    requires OneIteration(env, messages, segments).Again?
    ensures OneIteration(env, messages, segments).messages != messages
  {
    hide ChunkEvents, AbsorbAll, Finalize, RunCalls, AnswersInOrder;
    var c := Finalize(AbsorbAll(env.llm(messages).chunks)).value;
    CallsAnswerInOrder(env, Calls([], messages + [AssistantToolCallMessage(c)], WithText(segments, c.content), false),
                       c.toolCalls);
  }

  lemma BlockThenBlocks(before: seq<Message>, request: Message, results: seq<Message>, after: seq<Message>,
                        blocks: nat)
    requires request.AssistantCalls? && |request.calls| >= 1 && AnswersInOrder(results, request.calls)
    requires Extends(before + [request] + results, after, blocks)
    ensures Extends(before, after, blocks + 1)
  {
    hide AnswersInOrder;
    AnswersHaveTheirLength(results, request.calls);
    var middle := before + [request] + results;
    var tail := after[|before|..];
    assert after == middle + after[|middle|..];
    assert tail == [request] + results + after[|middle|..];
    assert tail[1..|request.calls| + 1] == results;
    assert tail[|request.calls| + 1..] == after[|middle|..];
  }

  lemma BlockThenCut(before: seq<Message>, request: Message, results: seq<Message>, after: seq<Message>, blocks: nat)
    requires request.AssistantCalls? && |request.calls| >= 1 && AnswersInOrder(results, request.calls)
    requires ExtendsOrCut(before + [request] + results, after, blocks)
    ensures ExtendsOrCut(before, after, blocks + 1)
  {
    hide AnswersInOrder, Extends, IsCutBlock;
    var middle := before + [request] + results;
    if Extends(middle, after, blocks) {
      BlockThenBlocks(before, request, results, after, blocks);
    } else {
      var whole: seq<Message>, last: Message, answers: seq<Message> :|
        Extends(middle, whole, blocks - 1) && IsCutBlock(whole, last, answers, after);
      BlockThenBlocks(before, request, results, whole, blocks - 1);
    }
  }

  lemma AnswersHaveTheirLength(results: seq<Message>, calls: seq<ToolCall>)
    requires AnswersInOrder(results, calls)
    ensures |results| == |calls|
  {
  }

  lemma ExtendsItself(messages: seq<Message>, blocks: nat)
    ensures Extends(messages, messages, blocks)
  {
  }

  // Whole blocks only, unless the run raises; then the last one may be cut short.
  lemma {:induction false} TranscriptStaysWellFormed(env: Environment, messages: seq<Message>,
                                                     segments: seq<Segment>, left: nat)
    ensures var run := Iterate(env, messages, segments, left);
            && ExtendsOrCut(messages, run.messages, left)
            && (!run.raised ==> Extends(messages, run.messages, left))
    decreases left
  {
    hide OneIteration, Texts, AnswersInOrder, Extends, IsCutBlock;
    ExtendsItself(messages, left);
    if left > 0 {
      match OneIteration(env, messages, segments) {
        case Again(_, after, collected) =>
          TranscriptStaysWellFormed(env, after, collected, left - 1);
          AgainGrows(env, messages, segments);
          IterationAddsABlock(env, messages, segments);
          var request: Message, results: seq<Message> :| after == messages + [request] + results
            && request.AssistantCalls? && |request.calls| >= 1 && AnswersInOrder(results, request.calls);
          var run := Iterate(env, after, collected, left - 1);
          BlockThenCut(messages, request, results, run.messages, left - 1);
          if !run.raised {
            BlockThenBlocks(messages, request, results, run.messages, left - 1);
          }
        case Raised(_, after) =>
          if after != messages {
            IterationAddsABlock(env, messages, segments);
            var request: Message, results: seq<Message> :| IsCutBlock(messages, request, results, after);
            ExtendsItself(messages, left - 1);
          }
        case _ =>
      }
    }
  }

  /* ---- Which completion ends a run, and what the ones before it leave ---- */

  // What the registry makes of one call, on the transcript before it: the tool's own answer for the call's own
  // arguments, or the complaint that it cannot be run. A widget stands for an answer with data of a tool with
  // a widget type, and carries that data.
  predicate Answers(env: Environment, transcript: seq<Message>, call: ToolCall, message: Message,
                    widget: Option<Widget>)
  {
    && message.ToolResult? && message.callId == call.id && message.name == call.name
    && if call.name !in env.registry
       then message.content == "Unknown tool '" + call.name + "'." && widget.None?
       else
         var tool := env.registry[call.name];
         match tool.run(transcript, if |call.arguments| > 0 then call.arguments else "{}")
         case Fails => false
         case InvalidArguments(detail) =>
           message.content == "Invalid arguments for '" + call.name + "': " + detail && widget.None?
         case Ran(content, data) =>
           && message.content == content
           && (widget.Some? <==> data.Some? && tool.widgetType.Some?)
           && (widget.Some? ==> widget.value.toolCallId == call.id && widget.value.toolName == call.name
                                && widget.value.widgetType == tool.widgetType.value
                                && widget.value.data == data.value)
  }

  // The handler of a registered tool raises on that transcript.
  predicate Raises(env: Environment, transcript: seq<Message>, call: ToolCall) {
    call.name in env.registry
    && env.registry[call.name].run(transcript, if |call.arguments| > 0 then call.arguments else "{}").Fails?
  }

  // One iteration that asked for tools: the completion, the answers and the widgets they drew.
  datatype Block = Block(asked: Completion, results: seq<Message>, widgets: seq<Option<Widget>>)

  // The answers of a block's calls so far, each on the transcript that the earlier ones left.
  predicate AnswersEach(env: Environment, transcript: seq<Message>, calls: seq<ToolCall>, results: seq<Message>,
                        widgets: seq<Option<Widget>>)
  {
    |results| == |widgets| <= |calls|
    && forall k :: 0 <= k < |results| ==> Answers(env, transcript + results[..k], calls[k], results[k], widgets[k])
  }

  // The model's reply to a transcript, as one completion.
  predicate Replies(env: Environment, transcript: seq<Message>, c: Completion) {
    var reply := env.llm(transcript);
    !reply.fails && Finalize(AbsorbAll(reply.chunks)) == Some(c)
  }

  // The transcript behind a block's request and answers.
  function Asked(transcript: seq<Message>, c: Completion): seq<Message> {
    transcript + [AssistantCalls(if |c.content| == 0 then None else Some(c.content), c.toolCalls)]
  }

  function Grown(transcript: seq<Message>, blocks: seq<Block>): seq<Message>
    decreases |blocks|
  {
    if |blocks| == 0 then transcript else Grown(Asked(transcript, blocks[0].asked) + blocks[0].results, blocks[1..])
  }

  // The events of calls that were answered.
  function AnswerEvents(calls: seq<ToolCall>, widgets: seq<Option<Widget>>): seq<LoopEvent>
    requires |widgets| <= |calls|
  {
    if |widgets| == 0 then []
    else
      var k := |widgets| - 1;
      AnswerEvents(calls, widgets[..k]) + [Live(ToolCallRequested(calls[k].name))]
      + (if widgets[k].Some? then [Live(WidgetReady(widgets[k].value))] else [])
  }

  function Drawn(widgets: seq<Option<Widget>>): seq<Segment> {
    if |widgets| == 0 then []
    else
      var k := |widgets| - 1;
      Drawn(widgets[..k]) + (if widgets[k].Some? then [WidgetSegment(widgets[k].value)] else [])
  }

  // The blocks are what the model and the tools make of the transcript: each completion asked for tools by
  // its finish reason and has calls, and each of them is answered.
  predicate AllAsked(env: Environment, transcript: seq<Message>, blocks: seq<Block>)
    decreases |blocks|
  {
    |blocks| == 0
    || (var b := blocks[0];
        && Replies(env, transcript, b.asked) && b.asked.finishReason == ToolCalls && |b.asked.toolCalls| > 0
        && |b.results| == |b.asked.toolCalls|
        && AnswersEach(env, Asked(transcript, b.asked), b.asked.toolCalls, b.results, b.widgets)
        && AllAsked(env, Asked(transcript, b.asked) + b.results, blocks[1..]))
  }

  function BlockEvents(env: Environment, transcript: seq<Message>, blocks: seq<Block>): seq<LoopEvent>
    requires AllAsked(env, transcript, blocks)
    decreases |blocks|
  {
    if |blocks| == 0 then []
    else
      var b := blocks[0];
      ChunkEvents(env.llm(transcript).chunks) + AnswerEvents(b.asked.toolCalls, b.widgets)
      + BlockEvents(env, Asked(transcript, b.asked) + b.results, blocks[1..])
  }

  // Text, then widgets, block by block.
  function Collected(blocks: seq<Block>): seq<Segment> {
    if |blocks| == 0 then []
    else
      var c := blocks[0].asked;
      (if |c.content| > 0 then [TextSegment(c.content)] else []) + Drawn(blocks[0].widgets) + Collected(blocks[1..])
  }

  // How a run ends behind its blocks. It resolves on the first completion that does not ask for tools, trips
  // the cap exactly when every iteration asked, or raises in a stream or in a handler.
  ghost predicate Ends(env: Environment, transcript: seq<Message>, segments: seq<Segment>, left: nat, run: Run,
                       blocks: seq<Block>)
  {
    && |blocks| <= left && AllAsked(env, transcript, blocks)
    && var before, past, collected := Grown(transcript, blocks), BlockEvents(env, transcript, blocks),
                                      segments + Collected(blocks);
       || (&& !run.raised && |blocks| == left && run.messages == before
           && run.events
              == past + [TurnResolved(ToolLoopCapReached(Texts(collected), env.clarification), collected)])
       || (&& !run.raised && |blocks| < left && run.messages == before
           && exists c ::
                && Replies(env, before, c) && (c.finishReason != ToolCalls || |c.toolCalls| == 0)
                && var said := if |c.content| > 0 then [TextSegment(c.content)] else [];
                   run.events == past + ChunkEvents(env.llm(before).chunks)
                                 + [TurnResolved(Completed(c), collected + said)])
       || (&& run.raised && |blocks| < left && run.messages == before
           && (forall c :: !Replies(env, before, c)) && run.events == past + ChunkEvents(env.llm(before).chunks))
       || (&& run.raised && |blocks| < left
           && exists b: Block ::
                && Replies(env, before, b.asked) && b.asked.finishReason == ToolCalls
                && |b.results| < |b.asked.toolCalls|
                && AnswersEach(env, Asked(before, b.asked), b.asked.toolCalls, b.results, b.widgets)
                && Raises(env, Asked(before, b.asked) + b.results, b.asked.toolCalls[|b.results|])
                && run.messages == Asked(before, b.asked) + b.results
                && run.events == past + ChunkEvents(env.llm(before).chunks)
                                 + AnswerEvents(b.asked.toolCalls, b.widgets)
                                 + [Live(ToolCallRequested(b.asked.toolCalls[|b.results|].name))])
  }

  lemma CallAnswers(env: Environment, transcript: seq<Message>, call: ToolCall)
    ensures var answer := ExecuteToolCall(env, transcript, call);
            if answer.None? then Raises(env, transcript, call)
            else Answers(env, transcript, call, answer.value.0, answer.value.1)
  {
  }

  lemma AnswersOneMore(env: Environment, transcript: seq<Message>, calls: seq<ToolCall>, results: seq<Message>,
                       widgets: seq<Option<Widget>>, message: Message, widget: Option<Widget>)
    requires AnswersEach(env, transcript, calls, results, widgets) && |results| < |calls|
    requires Answers(env, transcript + results, calls[|results|], message, widget)
    ensures AnswersEach(env, transcript, calls, results + [message], widgets + [widget])
  {
    hide Answers;
    var all := results + [message];
    forall k | 0 <= k < |all| ensures Answers(env, transcript + all[..k], calls[k], all[k], (widgets + [widget])[k]) {
      assert all[..k] == results[..k];
      if k == |results| {
        assert results[..k] == results;
      }
    }
  }

  lemma AnswersOfMoreCalls(env: Environment, transcript: seq<Message>, calls: seq<ToolCall>, call: ToolCall,
                           results: seq<Message>, widgets: seq<Option<Widget>>)
    requires AnswersEach(env, transcript, calls, results, widgets)
    ensures AnswersEach(env, transcript, calls + [call], results, widgets)
    ensures AnswerEvents(calls + [call], widgets) == AnswerEvents(calls, widgets)
  {
    hide Answers;
    EventsOfMoreCalls(calls, call, widgets);
  }

  lemma {:induction false} EventsOfMoreCalls(calls: seq<ToolCall>, call: ToolCall, widgets: seq<Option<Widget>>)
    requires |widgets| <= |calls|
    ensures AnswerEvents(calls + [call], widgets) == AnswerEvents(calls, widgets)
  {
    if |widgets| > 0 {
      EventsOfMoreCalls(calls, call, widgets[..|widgets| - 1]);
    }
  }

  // What the calls of a block come to: all are answered, or those before the one whose handler raises.
  ghost predicate CallsTell(env: Environment, transcript: seq<Message>, segments: seq<Segment>,
                            calls: seq<ToolCall>, after: Calls, results: seq<Message>,
                            widgets: seq<Option<Widget>>)
  {
    && AnswersEach(env, transcript, calls, results, widgets)
    && after.messages == transcript + results
    && if after.raised
       then |results| < |calls| && Raises(env, transcript + results, calls[|results|])
            && after.events == AnswerEvents(calls, widgets) + [Live(ToolCallRequested(calls[|results|].name))]
       else |results| == |calls| && after.events == AnswerEvents(calls, widgets)
            && after.segments == segments + Drawn(widgets)
  }

  lemma {:induction false} CallsAreTold(env: Environment, transcript: seq<Message>, segments: seq<Segment>,
                                        calls: seq<ToolCall>)
    returns (results: seq<Message>, widgets: seq<Option<Widget>>)
    ensures CallsTell(env, transcript, segments, calls,
                      RunCalls(env, Calls([], transcript, segments, false), calls), results, widgets)
  {
    hide Answers, Raises, ExecuteToolCall;
    if |calls| == 0 {
      results, widgets := [], [];
      assert transcript + [] == transcript && segments + [] == segments;
    } else {
      var earlier, call := calls[..|calls| - 1], calls[|calls| - 1];
      results, widgets := CallsAreTold(env, transcript, segments, earlier);
      var before := RunCalls(env, Calls([], transcript, segments, false), earlier);
      assert earlier + [call] == calls;
      AnswersOfMoreCalls(env, transcript, earlier, call, results, widgets);
      if !before.raised {
        CallAnswers(env, before.messages, call);
        var answer := ExecuteToolCall(env, before.messages, call);
        if answer.Some? {
          var (message, widget) := answer.value;
          AnswersOneMore(env, transcript, calls, results, widgets, message, widget);
          OneMoreTold(env, transcript, segments, calls, before, results, widgets, message, widget);
          results, widgets := results + [message], widgets + [widget];
        }
      }
    }
  }

  lemma OneMoreTold(env: Environment, transcript: seq<Message>, segments: seq<Segment>, calls: seq<ToolCall>,
                    before: Calls, results: seq<Message>, widgets: seq<Option<Widget>>, message: Message,
                    widget: Option<Widget>)
    requires |results| == |widgets| && |results| + 1 == |calls|
    requires before.messages == transcript + results && before.events == AnswerEvents(calls, widgets)
    requires before.segments == segments + Drawn(widgets)
    ensures var after := Answered(Requested(before, calls[|results|]), message, widget);
            && after.messages == transcript + (results + [message])
            && after.events == AnswerEvents(calls, widgets + [widget])
            && after.segments == segments + Drawn(widgets + [widget])
  {
    assert (widgets + [widget])[..|widgets|] == widgets;
    assert transcript + results + [message] == transcript + (results + [message]);
  }

  // What an iteration comes to: the end of the run, or one block.
  ghost predicate IterationTells(env: Environment, transcript: seq<Message>, segments: seq<Segment>, left: nat,
                                 one: Iteration, blocks: seq<Block>)
  {
    match one
    case Raised(events, after) => Ends(env, transcript, segments, left, Run(events, after, true), [])
    case Resolved(events, c, spoken) =>
      Ends(env, transcript, segments, left, Run(events + [TurnResolved(Completed(c), spoken)], transcript, false), [])
    case Again(events, after, collected) =>
      && |blocks| == 1 && AllAsked(env, transcript, blocks) && after == Grown(transcript, blocks)
      && events == BlockEvents(env, transcript, blocks) && collected == segments + Collected(blocks)
  }

  lemma IterationIsTold(env: Environment, transcript: seq<Message>, segments: seq<Segment>, left: nat)
    returns (blocks: seq<Block>)
    requires left > 0
    ensures IterationTells(env, transcript, segments, left, OneIteration(env, transcript, segments), blocks)
  {
    hide ChunkEvents, AbsorbAll, Finalize, RunCalls, Texts, Answers, Raises, AnswerEvents, Drawn;
    blocks := [];
    var reply := env.llm(transcript);
    var completion := Finalize(AbsorbAll(reply.chunks));
    assert segments + [] == segments;
    assert [] + ChunkEvents(reply.chunks) == ChunkEvents(reply.chunks);
    if !reply.fails && completion.Some? {
      var c := completion.value;
      assert Replies(env, transcript, c);
      if c.finishReason == ToolCalls && c.toolCalls != [] {
        var request := Asked(transcript, c);
        var spoken := WithText(segments, c.content);
        var results, widgets := CallsAreTold(env, request, spoken, c.toolCalls);
        var calls := RunCalls(env, Calls([], request, spoken, false), c.toolCalls);
        var b := Block(c, results, widgets);
        assert AssistantToolCallMessage(c) == request[|transcript|];
        assert calls.raised ==>
            ChunkEvents(reply.chunks) + calls.events
            == [] + ChunkEvents(reply.chunks) + AnswerEvents(c.toolCalls, widgets)
               + [Live(ToolCallRequested(c.toolCalls[|results|].name))];
        if !calls.raised {
          blocks := [b];
          OneBlock(env, transcript, segments, b);
        }
      }
    }
  }

  lemma OneBlock(env: Environment, transcript: seq<Message>, segments: seq<Segment>, b: Block)
    requires AllAsked(env, transcript, [b])
    ensures Grown(transcript, [b]) == Asked(transcript, b.asked) + b.results
    ensures BlockEvents(env, transcript, [b])
         == ChunkEvents(env.llm(transcript).chunks) + AnswerEvents(b.asked.toolCalls, b.widgets)
    ensures segments + Collected([b]) == WithText(segments, b.asked.content) + Drawn(b.widgets)
  {
    hide AllAsked, AnswersEach, AnswerEvents, Drawn, ChunkEvents;
    BlockFirst(env, transcript, b, []);
    assert [b] + [] == [b];
    NoBlocks(env, Asked(transcript, b.asked) + b.results);
    var text := if |b.asked.content| > 0 then [TextSegment(b.asked.content)] else [];
    assert Collected([b]) == text + Drawn(b.widgets);
    assert segments + (text + Drawn(b.widgets)) == segments + text + Drawn(b.widgets);
  }

  lemma NoBlocks(env: Environment, transcript: seq<Message>)
    ensures AllAsked(env, transcript, []) && Grown(transcript, []) == transcript
    ensures BlockEvents(env, transcript, []) == [] && Collected([]) == []
  {
  }

  // A block in front of others.
  lemma BlockFirst(env: Environment, transcript: seq<Message>, b: Block, rest: seq<Block>)
    ensures var after := Asked(transcript, b.asked) + b.results;
            && (AllAsked(env, transcript, [b]) && AllAsked(env, after, rest) ==> AllAsked(env, transcript, [b] + rest))
            && (AllAsked(env, transcript, [b] + rest) ==>
                  && AllAsked(env, after, rest) && |b.widgets| <= |b.asked.toolCalls|
                  && BlockEvents(env, transcript, [b] + rest)
                     == ChunkEvents(env.llm(transcript).chunks) + AnswerEvents(b.asked.toolCalls, b.widgets)
                        + BlockEvents(env, after, rest))
            && Grown(transcript, [b] + rest) == Grown(after, rest)
            && Collected([b] + rest)
               == (if |b.asked.content| > 0 then [TextSegment(b.asked.content)] else []) + Drawn(b.widgets)
                  + Collected(rest)
  {
    hide Answers, AnswerEvents, Drawn, ChunkEvents, Replies;
    assert ([b] + rest)[1..] == rest;
    assert [b][1..] == [];
  }

  lemma EndsLater(env: Environment, transcript: seq<Message>, segments: seq<Segment>, left: nat, b: Block,
                  events: seq<LoopEvent>, collected: seq<Segment>, rest: Run, blocks: seq<Block>)
    requires AllAsked(env, transcript, [b])
    requires events == BlockEvents(env, transcript, [b]) && collected == segments + Collected([b])
    requires Ends(env, Grown(transcript, [b]), collected, left, rest, blocks)
    ensures Ends(env, transcript, segments, left + 1, Preceded(events, rest), [b] + blocks)
  {
    hide AllAsked, BlockEvents, Collected, Grown, AnswersEach, AnswerEvents, Drawn, ChunkEvents, Replies, Raises,
         Texts, Asked;
    var after := Grown(transcript, [b]);
    OneBlock(env, transcript, segments, b);
    BlockFirst(env, transcript, b, blocks);
    var all := [b] + blocks;
    assert Grown(transcript, all) == Grown(after, blocks);
    assert BlockEvents(env, transcript, all) == events + BlockEvents(env, after, blocks);
    SegmentsLater(env, transcript, segments, b, blocks);
    assert segments + Collected(all) == collected + Collected(blocks);
    EventsLater(events, BlockEvents(env, after, blocks), rest.events);
  }

  lemma SegmentsLater(env: Environment, transcript: seq<Message>, segments: seq<Segment>, b: Block,
                      blocks: seq<Block>)
    requires AllAsked(env, transcript, [b])
    ensures segments + Collected([b] + blocks) == segments + Collected([b]) + Collected(blocks)
  {
    hide Drawn, AllAsked;
    BlockFirst(env, transcript, b, blocks);
    BlockFirst(env, transcript, b, []);
    assert [b] + [] == [b];
    assert segments + (Collected([b]) + Collected(blocks)) == segments + Collected([b]) + Collected(blocks);
  }

  lemma EventsLater(events: seq<LoopEvent>, past: seq<LoopEvent>, all: seq<LoopEvent>)
    ensures forall one, two, three ::
              && (all == past + one ==> events + all == events + past + one)
              && (all == past + one + two ==> events + all == events + past + one + two)
              && (all == past + one + two + three ==> events + all == events + past + one + two + three)
  {
  }

  // Every run is told by its blocks: the first completion that does not ask for tools resolves it, each one
  // before asks and is answered call by call, and the cap trips exactly when all iterations asked.
  lemma {:induction false} RunIsTold(env: Environment, transcript: seq<Message>, segments: seq<Segment>, left: nat)
    returns (blocks: seq<Block>)
    ensures Ends(env, transcript, segments, left, Iterate(env, transcript, segments, left), blocks)
    decreases left
  {
    hide OneIteration, Ends, AllAsked, BlockEvents, Collected, Grown, Texts;
    if left == 0 {
      blocks := [];
      CapAtOnce(env, transcript, segments);
    } else {
      var first := IterationIsTold(env, transcript, segments, left);
      match OneIteration(env, transcript, segments) {
        case Again(events, after, collected) =>
          var rest := RunIsTold(env, after, collected, left - 1);
          assert first == [first[0]];
          EndsLater(env, transcript, segments, left - 1, first[0], events, collected,
                    Iterate(env, after, collected, left - 1), rest);
          blocks := first + rest;
        case _ => blocks := [];
      }
    }
  }

  // In particular the one of a chat turn, which has five iterations.
  lemma ChatRunIsTold(env: Environment, messages: seq<Message>) returns (blocks: seq<Block>)
    ensures Ends(env, messages, [], 5, Iterate(env, messages, [], MAX_ITERATIONS), blocks)
  {
    hide Iterate, Ends;
    blocks := RunIsTold(env, messages, [], MAX_ITERATIONS);
  }

  lemma CapAtOnce(env: Environment, transcript: seq<Message>, segments: seq<Segment>)
    ensures Ends(env, transcript, segments, 0, Iterate(env, transcript, segments, 0), [])
  {
    assert segments + [] == segments;
    var end := [TurnResolved(ToolLoopCapReached(Texts(segments), env.clarification), segments)];
    assert [] + end == end;
  }
}
