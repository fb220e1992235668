/** The chat thread a browser shows: stream entries become wire frames, and a reducer folds the frames
    into messages. Message ids are left out; they only name the last message. */
module LiveThread {
  import opened Prelude
  import opened Selection
  import opened TurnEvents

  datatype Part = TextPart(content: string) | WidgetPart(kind: string, data: Json)

  datatype Role = User | Assistant

  // An empty clarification stands for none: the reducer only asks whether there is one.
  datatype ThreadMessage = ThreadMessage(role: Role, parts: seq<Part>, reasoning: string, streaming: bool,
                                         activeTool: Option<string>, error: Option<string>,
                                         clarification: string, metadata: Option<Json>)

  datatype Frame =
    | UserFrame(content: string, metadata: Option<Json>)
    | ReasoningFrame(content: string)
    | ContentFrame(content: string)
    | ToolCallFrame(name: string)
    | WidgetFrame(part: Part)
    | CapFrame(content: string, clarification: string)
    | DoneFrame(parts: seq<Part>)
    | ErrorFrame(detail: string)

  // The widget contract: what a widget's data parses to, or nothing.
  type Contract = (string, Json) -> Option<Json>

  /* ---- Stream entry to frame ---- */

  const PART_CLASSES := {"team_widget", "match_widget", "player_widget", "compare_widget", "team_compare_widget",
                         "ranking_widget"}

  function PartOf(segment: Segment): Part {
    match segment
    case TextSegment(content) => TextPart(content)
    case WidgetSegment(w) => WidgetPart(w.widgetType, w.data)
  }

  function PartsOf(segments: seq<Segment>): seq<Part> {
    if |segments| == 0 then [] else PartsOf(segments[..|segments| - 1]) + [PartOf(segments[|segments| - 1])]
  }

  // The final message's parts: its text alone when it has no segments.
  function DoneParts(content: string, segments: seq<Segment>): seq<Part> {
    if segments == [] then [TextPart(content)] else PartsOf(segments)
  }

  predicate SegmentMapped(segment: Segment) {
    segment.WidgetSegment? ==> segment.widget.widgetType in PART_CLASSES
  }

  predicate SegmentsMapped(segments: seq<Segment>) {
    forall i :: 0 <= i < |segments| ==> SegmentMapped(segments[i])
  }

  // Whether the event can be put on the wire at all.
  predicate Mapped(event: TurnEvent) {
    match event
    case WidgetReady(w) => w.widgetType in PART_CLASSES
    case MessageDone(_, _, _, segments) => SegmentsMapped(segments)
    case _ => true
  }

  function ToDto(event: TurnEvent): (frame: Result<Frame, string>)
    ensures frame.Ok? <==> Mapped(event)
    ensures frame.Ok? ==> !frame.value.UserFrame? && (frame.value.DoneFrame? <==> event.MessageDone?)
                          && (frame.value.ErrorFrame? <==> event.PersistenceFailed?)
  {
    if !Mapped(event) then Err("ValueError")
    else
      match event
      case ReasoningDelta(content) => Ok(ReasoningFrame(content))
      case ContentDelta(content) => Ok(ContentFrame(content))
      case ToolCallRequested(name) => Ok(ToolCallFrame(name))
      case WidgetReady(w) => Ok(WidgetFrame(WidgetPart(w.widgetType, w.data)))
      case CapReached(content, clarification) => Ok(CapFrame(content, clarification))
      case PersistenceFailed(detail) => Ok(ErrorFrame(detail))
      case MessageDone(_, content, _, segments) =>
        Ok(DoneFrame(DoneParts(content, segments)))
  }

  // What of an event a thread is built from: not the conversation or the model, nor which call drew a widget.
  function Shown(event: TurnEvent): TurnEvent {
    match event
    case WidgetReady(w) => WidgetReady(Drawn(w))
    case MessageDone(_, content, _, segments) =>
      MessageDone("", "", None, AllDrawn(if segments == [] then [TextSegment(content)] else segments))
    case _ => event
  }

  function Drawn(w: Widget): Widget {
    w.(toolCallId := "", toolName := "")
  }

  function AllDrawn(segments: seq<Segment>): seq<Segment> {
    seq(|segments|, i requires 0 <= i < |segments| =>
      if segments[i].WidgetSegment? then WidgetSegment(Drawn(segments[i].widget)) else segments[i])
  }

  lemma {:induction false} PartsAt(segments: seq<Segment>)
    ensures |PartsOf(segments)| == |segments|
    ensures forall i :: 0 <= i < |segments| ==> PartsOf(segments)[i] == PartOf(segments[i])
  {
    if |segments| > 0 {
      PartsAt(segments[..|segments| - 1]);
    }
  }

  lemma PartsTellSegmentsIff(a: seq<Segment>, b: seq<Segment>)
    ensures PartsOf(a) == PartsOf(b) <==> AllDrawn(a) == AllDrawn(b)
  {
    hide PartsOf;
    PartsAt(a);
    PartsAt(b);
    if PartsOf(a) == PartsOf(b) {
      forall i | 0 <= i < |a| ensures AllDrawn(a)[i] == AllDrawn(b)[i] {
        assert PartOf(a[i]) == PartsOf(a)[i] == PartOf(b[i]);
      }
    }
    if AllDrawn(a) == AllDrawn(b) {
      assert |a| == |AllDrawn(a)| == |b|;
      forall i | 0 <= i < |a| ensures PartsOf(a)[i] == PartsOf(b)[i] {
        assert AllDrawn(a)[i] == AllDrawn(b)[i];
      }
    }
  }

  // Two events share a frame exactly when they agree in what a thread is built from.
  lemma FramesTellEventsIff(a: TurnEvent, b: TurnEvent)
    requires Mapped(a) && Mapped(b)
    ensures ToDto(a) == ToDto(b) <==> Shown(a) == Shown(b)
  {
    hide PartsOf, AllDrawn;
    if a.MessageDone? && b.MessageDone? {
      var one := if a.segments == [] then [TextSegment(a.content)] else a.segments;
      var two := if b.segments == [] then [TextSegment(b.content)] else b.segments;
      OneTextPart(a.content);
      OneTextPart(b.content);
      PartsTellSegmentsIff(one, two);
      assert DoneParts(a.content, a.segments) == PartsOf(one);
      assert DoneParts(b.content, b.segments) == PartsOf(two);
    }
  }

  lemma OneTextPart(content: string)
    ensures PartsOf([TextSegment(content)]) == [TextPart(content)]
  {
    assert [TextSegment(content)][..0] == [];
    assert PartsOf([TextSegment(content)][..0]) == [];
  }

  // A tag that is no domain event is the job's own failure marker.
  function ClientMessage(tag: string, payload: map<string, Json>): Result<Frame, string> {
    if tag == "UserMessageEvent" then
      if StrAt(payload, "content").Some? then
        Ok(UserFrame(StrAt(payload, "content").value,
                     if "metadata" in payload && payload["metadata"].Obj? then Some(payload["metadata"]) else None))
      else Err("KeyError")
    else
      match ParseTurnEvent(tag, payload)
      case Err(error) => Err(error)
      case Ok(None) =>
        if "detail" !in payload then Ok(ErrorFrame(tag))
        else if payload["detail"].Str? then Ok(ErrorFrame(payload["detail"].s))
        else Err("ValidationError")
      case Ok(Some(event)) => ToDto(event)
  }

  // The user's entry: whose message it is, and what it says.
  datatype Sent = Sent(conversationId: string, messageId: int, content: string, title: string,
                       metadata: Option<map<string, Json>>)

  function MetadataOf(sent: Sent): Option<Json> {
    if sent.metadata.Some? then Some(Obj(sent.metadata.value)) else None
  }

  function UserPayload(sent: Sent): map<string, Json> {
    map["conversation_id" := Str(sent.conversationId), "message_id" := Num(sent.messageId),
        "content" := Str(sent.content), "title" := Str(sent.title),
        "metadata" := if sent.metadata.Some? then Obj(sent.metadata.value) else Null]
  }

  // What a reader folds for a published event is the event's own frame: the stream in between is lossless.
  lemma PublishedEventArrives(event: TurnEvent)
    ensures ClientMessage(EventTag(event), EventPayload(event)) == ToDto(event)
  {
    hide ParseTurnEvent, EventPayload, ToDto;
    CodecIsLossless(event);
  }

  lemma UserMessageArrives(sent: Sent)
    ensures ClientMessage("UserMessageEvent", UserPayload(sent)) == Ok(UserFrame(sent.content, MetadataOf(sent)))
  {
    var payload := UserPayload(sent);
    assert payload["content"] == Str(sent.content);
  }

  // The name of an exception class, never that of an event.
  ghost predicate Foreign(tag: string) {
    tag != "UserMessageEvent" && forall event: TurnEvent :: EventTag(event) != tag
  }

  // Every failure tag the job can write renders as an error with the text it was written with.
  lemma FailureTagArrives(tag: string, detail: string)
    requires Foreign(tag)
    ensures ClientMessage(tag, map["detail" := Str(detail)]) == Ok(ErrorFrame(detail))
  {
    hide ParseTurnEvent, EventTag;
    OnlyForeignTagsParseToNone(tag, map["detail" := Str(detail)]);
  }

  // A tag without a text is an error that shows the tag, and a user's entry without a text none at all.
  lemma BareEntriesArrive(tag: string, payload: map<string, Json>)
    ensures Foreign(tag) && "detail" !in payload ==> ClientMessage(tag, payload) == Ok(ErrorFrame(tag))
    ensures "content" !in payload ==> ClientMessage("UserMessageEvent", payload).Err?
  {
    hide ParseTurnEvent, EventTag;
    OnlyForeignTagsParseToNone(tag, payload);
  }

  predicate OneOfSix(widgetType: string) {
    || widgetType == "team_widget" || widgetType == "match_widget" || widgetType == "player_widget"
    || widgetType == "compare_widget" || widgetType == "team_compare_widget" || widgetType == "ranking_widget"
  }

  // The widgets that can be put on the wire are those of six types, alone or in a final message.
  lemma WidgetsOnTheWire(w: Widget, conversationId: string, content: string, model: Option<string>,
                         segments: seq<Segment>)
    ensures ToDto(WidgetReady(w)).Ok? <==> OneOfSix(w.widgetType)
    ensures ToDto(MessageDone(conversationId, content, model, segments)).Ok?
       <==> forall segment :: segment in segments && segment.WidgetSegment? ==> OneOfSix(segment.widget.widgetType)
  {
    if forall segment :: segment in segments && segment.WidgetSegment? ==> OneOfSix(segment.widget.widgetType) {
      forall i | 0 <= i < |segments| ensures SegmentMapped(segments[i]) {
        assert segments[i] in segments;
      }
    }
  }

  /* ---- The reducer ---- */

  const STREAMING := ThreadMessage(Assistant, [], "", true, None, None, "", None)

  function UserBubble(content: string, metadata: Option<Json>): ThreadMessage {
    ThreadMessage(User, [TextPart(content)], "", false, None, None, "", metadata)
  }

  function TextOf(message: ThreadMessage): Option<string> {
    FirstText(message.parts)
  }

  function FirstText(parts: seq<Part>): Option<string> {
    if |parts| == 0 then None
    else if parts[0].TextPart? then Some(parts[0].content)
    else FirstText(parts[1..])
  }

  function AppendTextDelta(parts: seq<Part>, delta: string): seq<Part> {
    if |parts| > 0 && parts[|parts| - 1].TextPart?
    then parts[..|parts| - 1] + [TextPart(parts[|parts| - 1].content + delta)]
    else parts + [TextPart(delta)]
  }

  function Accept(contract: Contract, part: Part): Option<Part> {
    if part.TextPart? then Some(part)
    else
      var data := contract(part.kind, part.data);
      if data.Some? then Some(WidgetPart(part.kind, data.value)) else None
  }

  // The parts the contract accepts, in order; the others are dropped.
  function Accepted(contract: Contract, parts: seq<Part>): seq<Part> {
    if |parts| == 0 then []
    else
      var last := Accept(contract, parts[|parts| - 1]);
      Accepted(contract, parts[..|parts| - 1]) + (if last.Some? then [last.value] else [])
  }

  predicate Reads(contract: Contract, part: Part) {
    part.TextPart? || contract(part.kind, part.data).Some?
  }

  predicate ReadsAs(contract: Contract, part: Part, read: Part) {
    if part.TextPart? then read == part
    else read.WidgetPart? && read.kind == part.kind && contract(part.kind, part.data) == Some(read.data)
  }

  // Every text, and every widget whose data the contract reads, with the data it reads; in order.
  lemma {:induction false} AcceptedAreTheContracts(contract: Contract, parts: seq<Part>)
    ensures IsSelection(parts, Accepted(contract, parts), part => Reads(contract, part),
                        (part, read) => ReadsAs(contract, part, read))
  {
    hide IsSelection;
    var readable := (part: Part) => Reads(contract, part);
    var parsed := (part: Part, read: Part) => ReadsAs(contract, part, read);
    if |parts| == 0 {
      NothingSelected(readable, parsed);
    } else {
      var before, last := parts[..|parts| - 1], parts[|parts| - 1];
      AcceptedAreTheContracts(contract, before);
      assert before + [last] == parts;
      if Reads(contract, last) {
        SelectsOneMore(before, Accepted(contract, before), readable, parsed, last, Accept(contract, last).value);
      } else {
        SelectsNoMore(before, Accepted(contract, before), readable, parsed, last);
        assert Accepted(contract, before) + [] == Accepted(contract, before);
      }
    }
  }

  method ParseMessageParts(contract: Contract, rawParts: seq<Part>) returns (parts: seq<Part>)
    ensures parts == Accepted(contract, rawParts)
  {
    parts := [];
    for i := 0 to |rawParts|
      invariant parts == Accepted(contract, rawParts[..i])
    {
      assert rawParts[..i + 1][..i] == rawParts[..i];
      var result := Accept(contract, rawParts[i]);
      if result.Some? {
        parts := parts + [result.value];
      }
    }
    assert rawParts[..|rawParts|] == rawParts;
  }

  predicate EndsStreaming(thread: seq<ThreadMessage>) {
    |thread| > 0 && thread[|thread| - 1].role == Assistant && thread[|thread| - 1].streaming
  }

  function UpdateLastAssistant(thread: seq<ThreadMessage>, updater: ThreadMessage -> ThreadMessage)
    : seq<ThreadMessage>
  {
    if EndsStreaming(thread) then thread[..|thread| - 1] + [updater(thread[|thread| - 1])]
    else thread + [updater(STREAMING)]
  }

  // What a frame does to the bubble it lands on.
  function Updated(contract: Contract, m: ThreadMessage, frame: Frame): ThreadMessage {
    match frame
    case UserFrame(_, _) => m
    case ReasoningFrame(content) => m.(reasoning := m.reasoning + content)
    case ContentFrame(content) => m.(parts := AppendTextDelta(m.parts, content))
    case ToolCallFrame(name) => m.(activeTool := Some(name))
    case WidgetFrame(part) =>
      if Accept(contract, part).Some? then m.(parts := m.parts + [Accept(contract, part).value]) else m
    case CapFrame(content, clarification) =>
      m.(parts := [TextPart(content)], clarification := clarification, activeTool := None)
    case DoneFrame(parts) =>
      m.(parts := if m.clarification != "" then m.parts else Accepted(contract, parts), streaming := false,
         activeTool := None)
    case ErrorFrame(detail) => m.(error := Some(detail), streaming := false, activeTool := None)
  }

  // A message's text is that of its first text part.
  lemma {:induction false} TextIsTheFirst(message: ThreadMessage, i: nat)
    requires i < |message.parts| && message.parts[i].TextPart?
    requires forall j :: 0 <= j < i ==> message.parts[j].WidgetPart?
    ensures TextOf(message) == Some(message.parts[i].content)
    decreases i
  {
    if i > 0 {
      TextIsTheFirst(message.(parts := message.parts[1..]), i - 1);
    }
  }

  // The sender's own optimistic bubbles are already on screen.
  predicate ShowsOwnSend(thread: seq<ThreadMessage>, content: string) {
    EndsStreaming(thread) && |thread| > 1 && thread[|thread| - 2].role == User
    && TextOf(thread[|thread| - 2]) == Some(content)
  }

  // A page that loaded the saved user row but not its reply.
  predicate ShowsSavedSend(thread: seq<ThreadMessage>, content: string) {
    |thread| > 0 && thread[|thread| - 1].role == User && TextOf(thread[|thread| - 1]) == Some(content)
  }

  function ApplyLiveEvent(contract: Contract, thread: seq<ThreadMessage>, frame: Frame): seq<ThreadMessage> {
    match frame
    case UserFrame(content, metadata) =>
      if ShowsOwnSend(thread, content) then thread
      else if ShowsSavedSend(thread, content) then thread + [STREAMING]
      else thread + [UserBubble(content, metadata), STREAMING]
    case WidgetFrame(part) =>
      if Accept(contract, part).None? then thread
      else UpdateLastAssistant(thread, m => Updated(contract, m, frame))
    case _ => UpdateLastAssistant(thread, m => Updated(contract, m, frame))
  }

  // A user's message that is not on screen yet: their bubble with the text and its metadata, and behind it an
  // empty one that waits for the reply.
  lemma UserMessageIsShown(contract: Contract, thread: seq<ThreadMessage>, content: string, metadata: Option<Json>)
    requires !ShowsOwnSend(thread, content) && !ShowsSavedSend(thread, content)
    ensures var after := ApplyLiveEvent(contract, thread, UserFrame(content, metadata));
            && |after| == |thread| + 2 && after[..|thread|] == thread
            && var (user, waiting) := (after[|thread|], after[|thread| + 1]);
               && user.role == User && user.parts == [TextPart(content)] && user.metadata == metadata
               && !user.streaming && user.error == None
               && waiting.role == Assistant && waiting.streaming && waiting.parts == [] && waiting.reasoning == ""
               && waiting.activeTool == None && waiting.error == None && waiting.clarification == ""
  {
    hide ShowsOwnSend, ShowsSavedSend;
  }

  // A cap trip puts the partial text in place of all parts and asks; the bubble is still being written.
  lemma CapAsks(contract: Contract, thread: seq<ThreadMessage>, content: string, clarification: string)
    requires EndsStreaming(thread)
    ensures var after, n := ApplyLiveEvent(contract, thread, CapFrame(content, clarification)), |thread| - 1;
            && |after| == n + 1 && after[..n] == thread[..n]
            && after[n].parts == [TextPart(content)] && after[n].clarification == clarification
            && after[n].activeTool == None && after[n].streaming
            && after[n].reasoning == thread[n].reasoning && after[n].error == thread[n].error
  {
  }

  // An error ends the bubble that is being written: what it shows stays, the tool goes.
  lemma ErrorEndsTheBubble(contract: Contract, thread: seq<ThreadMessage>, detail: string)
    requires EndsStreaming(thread)
    ensures var after, n := ApplyLiveEvent(contract, thread, ErrorFrame(detail)), |thread| - 1;
            && |after| == n + 1 && after[..n] == thread[..n]
            && after[n].error == Some(detail) && !after[n].streaming && after[n].activeTool == None
            && after[n].parts == thread[n].parts && after[n].reasoning == thread[n].reasoning
            && after[n].clarification == thread[n].clarification
  {
  }

  function Fold(contract: Contract, thread: seq<ThreadMessage>, frames: seq<Frame>): seq<ThreadMessage> {
    if |frames| == 0 then thread
    else ApplyLiveEvent(contract, Fold(contract, thread, frames[..|frames| - 1]), frames[|frames| - 1])
  }

  lemma {:induction false} FoldInTwo(contract: Contract, thread: seq<ThreadMessage>, first: seq<Frame>,
                                     second: seq<Frame>)
    ensures Fold(contract, thread, first + second) == Fold(contract, Fold(contract, thread, first), second)
  {
    hide ApplyLiveEvent;
    if |second| == 0 {
      assert first + second == first;
    } else {
      FoldInTwo(contract, thread, first, second[..|second| - 1]);
      assert (first + second)[..|first + second| - 1] == first + second[..|second| - 1];
    }
  }

  lemma FoldOne(contract: Contract, thread: seq<ThreadMessage>, frame: Frame)
    ensures Fold(contract, thread, [frame]) == ApplyLiveEvent(contract, thread, frame)
  {
    hide ApplyLiveEvent;
    assert [frame][..0] == [];
    assert Fold(contract, thread, [frame][..0]) == thread;
  }

  /* ---- One bubble at a time ---- */

  function FoldBubble(contract: Contract, m: ThreadMessage, frames: seq<Frame>): ThreadMessage {
    if |frames| == 0 then m
    else Updated(contract, FoldBubble(contract, m, frames[..|frames| - 1]), frames[|frames| - 1])
  }

  predicate IsDelta(frame: Frame) {
    frame.ReasoningFrame? || frame.ContentFrame? || frame.ToolCallFrame? || frame.WidgetFrame? || frame.CapFrame?
  }

  lemma LandsOnLast(contract: Contract, before: seq<ThreadMessage>, m: ThreadMessage, frame: Frame)
    requires m.role == Assistant && m.streaming && !frame.UserFrame?
    ensures ApplyLiveEvent(contract, before + [m], frame) == before + [Updated(contract, m, frame)]
    ensures Updated(contract, m, frame).role == Assistant
    ensures IsDelta(frame) ==> Updated(contract, m, frame).streaming
  {
    hide AppendTextDelta, Accepted, Accept;
    assert (before + [m])[..|before|] == before;
  }

  // Frames of a reply change the bubble they are streamed into and nothing before it.
  lemma {:induction false} FoldsIntoLast(contract: Contract, before: seq<ThreadMessage>, m: ThreadMessage,
                                         frames: seq<Frame>)
    requires m.role == Assistant && m.streaming
    requires forall i :: 0 <= i < |frames| ==> IsDelta(frames[i])
    ensures Fold(contract, before + [m], frames) == before + [FoldBubble(contract, m, frames)]
    ensures FoldBubble(contract, m, frames).role == Assistant && FoldBubble(contract, m, frames).streaming
  {
    hide ApplyLiveEvent, Updated;
    if |frames| > 0 {
      FoldsIntoLast(contract, before, m, frames[..|frames| - 1]);
      LandsOnLast(contract, before, FoldBubble(contract, m, frames[..|frames| - 1]), frames[|frames| - 1]);
    }
  }

  /* ---- Parts with adjacent texts merged and empty ones dropped ---- */

  function AddText(parts: seq<Part>, content: string): seq<Part> {
    if content == "" then parts else AppendTextDelta(parts, content)
  }

  function AddPart(parts: seq<Part>, part: Part): seq<Part> {
    if part.TextPart? then AddText(parts, part.content) else parts + [part]
  }

  function Merged(parts: seq<Part>): seq<Part> {
    if |parts| == 0 then [] else AddPart(Merged(parts[..|parts| - 1]), parts[|parts| - 1])
  }

  lemma TextsMerge(parts: seq<Part>, first: string, second: string)
    ensures AddText(AddText(parts, first), second) == AddText(parts, first + second)
  {
    if first == "" {
      assert first + second == second;
    } else if second == "" {
      assert first + second == first;
    } else if |parts| > 0 && parts[|parts| - 1].TextPart? {
      var t := parts[|parts| - 1].content;
      assert t + first + second == t + (first + second);
    }
  }

  lemma MergedOneMore(parts: seq<Part>, part: Part)
    ensures Merged(parts + [part]) == AddPart(Merged(parts), part)
  {
    assert (parts + [part])[..|parts|] == parts;
  }
}
