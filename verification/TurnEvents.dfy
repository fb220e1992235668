/** The events of a chat turn and how they cross the Redis stream: a tag and a JSON payload out, the
    same event back in. */
module TurnEvents {
  import opened Prelude

  datatype Json = Null | Num(n: int) | Str(s: string) | Arr(items: seq<Json>) | Obj(fields: map<string, Json>)

  datatype Widget = Widget(toolCallId: string, toolName: string, widgetType: string, data: Json)

  datatype Segment = TextSegment(content: string) | WidgetSegment(widget: Widget)

  datatype TurnEvent =
    | ReasoningDelta(content: string)
    | ContentDelta(content: string)
    | ToolCallRequested(name: string)
    | WidgetReady(widget: Widget)
    | CapReached(content: string, clarification: string)
    | PersistenceFailed(detail: string)
    | MessageDone(conversationId: string, content: string, model: Option<string>, segments: seq<Segment>)

  /* ---- Out ---- */

  function WidgetToFields(w: Widget): map<string, Json> {
    map["tool_call_id" := Str(w.toolCallId), "tool_name" := Str(w.toolName),
        "widget_type" := Str(w.widgetType), "data" := w.data]
  }

  function SegmentToFields(segment: Segment): map<string, Json> {
    match segment
    case TextSegment(content) => map["kind" := Str("text"), "content" := Str(content)]
    case WidgetSegment(w) => map["kind" := Str("widget")] + WidgetToFields(w)
  }

  function SegmentsToJson(segments: seq<Segment>): seq<Json> {
    if |segments| == 0 then [] else [Obj(SegmentToFields(segments[0]))] + SegmentsToJson(segments[1..])
  }

  // The dataclass names the stream uses as tags.
  datatype Kind = ReasoningK | ContentK | ToolCallK | WidgetK | CapK | PersistenceK | DoneK

  function KindTag(kind: Kind): string {
    match kind
    case ReasoningK => "ReasoningDeltaEvent"
    case ContentK => "ContentDeltaEvent"
    case ToolCallK => "ToolCallRequestedEvent"
    case WidgetK => "WidgetReadyEvent"
    case CapK => "CapReachedEvent"
    case PersistenceK => "PersistenceFailedEvent"
    case DoneK => "MessageDoneEvent"
  }

  function KindOf(event: TurnEvent): Kind {
    match event
    case ReasoningDelta(_) => ReasoningK
    case ContentDelta(_) => ContentK
    case ToolCallRequested(_) => ToolCallK
    case WidgetReady(_) => WidgetK
    case CapReached(_, _) => CapK
    case PersistenceFailed(_) => PersistenceK
    case MessageDone(_, _, _, _) => DoneK
  }

  function EventTag(event: TurnEvent): string { KindTag(KindOf(event)) }

  function EventPayload(event: TurnEvent): map<string, Json> {
    match event
    case ReasoningDelta(content) => map["content" := Str(content)]
    case ContentDelta(content) => map["content" := Str(content)]
    case ToolCallRequested(name) => map["name" := Str(name)]
    case WidgetReady(w) => map["widget" := Obj(WidgetToFields(w))]
    case CapReached(content, clarification) =>
      map["content" := Str(content), "clarification" := Str(clarification)]
    case PersistenceFailed(detail) => map["detail" := Str(detail)]
    case MessageDone(conversationId, content, model, segments) =>
      map["conversation_id" := Str(conversationId), "content" := Str(content),
          "model" := if model.Some? then Str(model.value) else Null,
          "content_segments" := Arr(SegmentsToJson(segments))]
  }

  /* ---- In. A missing key or a value of the wrong kind is the caller's exception. ---- */

  function StrAt(fields: map<string, Json>, key: string): Option<string> {
    if key in fields && fields[key].Str? then Some(fields[key].s) else None
  }

  function WidgetFromFields(f: map<string, Json>): Option<Widget> {
    var id, name, kind := StrAt(f, "tool_call_id"), StrAt(f, "tool_name"), StrAt(f, "widget_type");
    if id.Some? && name.Some? && kind.Some? && "data" in f
    then Some(Widget(id.value, name.value, kind.value, f["data"])) else None
  }

  function SegmentFromFields(f: map<string, Json>): Option<Segment> {
    if "kind" !in f then None
    else if f["kind"] == Str("text") then
      if StrAt(f, "content").Some? then Some(TextSegment(StrAt(f, "content").value)) else None
    else
      if WidgetFromFields(f).Some? then Some(WidgetSegment(WidgetFromFields(f).value)) else None
  }

  function SegmentsFromJson(items: seq<Json>): Option<seq<Segment>> {
    if |items| == 0 then Some([])
    else if !items[0].Obj? then None
    else
      var first, rest := SegmentFromFields(items[0].fields), SegmentsFromJson(items[1..]);
      if first.Some? && rest.Some? then Some([first.value] + rest.value) else None
  }

  function Lift(event: Option<TurnEvent>): Result<Option<TurnEvent>, string> {
    if event.Some? then Ok(event) else Err("KeyError")
  }

  function TagKind(tag: string): Option<Kind> {
    if tag == "ReasoningDeltaEvent" then Some(ReasoningK)
    else if tag == "ContentDeltaEvent" then Some(ContentK)
    else if tag == "ToolCallRequestedEvent" then Some(ToolCallK)
    else if tag == "WidgetReadyEvent" then Some(WidgetK)
    else if tag == "CapReachedEvent" then Some(CapK)
    else if tag == "PersistenceFailedEvent" then Some(PersistenceK)
    else if tag == "MessageDoneEvent" then Some(DoneK)
    else None
  }

  // Ok(None) when the tag is no domain event: the job's own failure tags share the stream.
  function ParseTurnEvent(tag: string, p: map<string, Json>): Result<Option<TurnEvent>, string> {
    if TagKind(tag).None? then Ok(None) else Lift(ParseKind(TagKind(tag).value, p))
  }

  function ParseKind(kind: Kind, p: map<string, Json>): Option<TurnEvent> {
    var content := StrAt(p, "content");
    match kind
    case ReasoningK => if content.Some? then Some(ReasoningDelta(content.value)) else None
    case ContentK => if content.Some? then Some(ContentDelta(content.value)) else None
    case ToolCallK => if StrAt(p, "name").Some? then Some(ToolCallRequested(StrAt(p, "name").value)) else None
    case WidgetK =>
      if "widget" in p && p["widget"].Obj? && WidgetFromFields(p["widget"].fields).Some?
      then Some(WidgetReady(WidgetFromFields(p["widget"].fields).value)) else None
    case CapK =>
      if content.Some? && StrAt(p, "clarification").Some?
      then Some(CapReached(content.value, StrAt(p, "clarification").value)) else None
    case PersistenceK => if StrAt(p, "detail").Some? then Some(PersistenceFailed(StrAt(p, "detail").value)) else None
    case DoneK => ParseMessageDone(p)
  }

  function ParseMessageDone(p: map<string, Json>): Option<TurnEvent> {
    if StrAt(p, "conversation_id").None? || StrAt(p, "content").None? || "model" !in p
       || !(p["model"].Null? || p["model"].Str?) || "content_segments" !in p || !p["content_segments"].Arr?
    then None
    else
      var segments := SegmentsFromJson(p["content_segments"].items);
      var model := if p["model"].Null? then None else Some(p["model"].s);
      if segments.None? then None
      else Some(MessageDone(StrAt(p, "conversation_id").value, StrAt(p, "content").value, model, segments.value))
  }

  /* ---- The codec loses nothing ---- */

  lemma WidgetSurvives(w: Widget)
    ensures WidgetFromFields(WidgetToFields(w)) == Some(w)
  {
  }

  lemma SegmentSurvives(segment: Segment)
    ensures SegmentFromFields(SegmentToFields(segment)) == Some(segment)
  {
    if segment.WidgetSegment? {
      var f, all := WidgetToFields(segment.widget), SegmentToFields(segment);
      assert all["kind"] == Str("widget") && all["kind"] != Str("text");
      assert all["data"] == f["data"] && all["tool_call_id"] == f["tool_call_id"];
      assert all["tool_name"] == f["tool_name"] && all["widget_type"] == f["widget_type"];
    }
  }

  lemma {:induction false} SegmentsSurvive(segments: seq<Segment>)
    ensures SegmentsFromJson(SegmentsToJson(segments)) == Some(segments)
  {
    hide SegmentFromFields, SegmentToFields;
    if |segments| > 0 {
      SegmentsSurvive(segments[1..]);
      SegmentSurvives(segments[0]);
      assert segments == [segments[0]] + segments[1..];
      assert SegmentsToJson(segments)[1..] == SegmentsToJson(segments[1..]);
    }
  }

  lemma PayloadSurvives(event: TurnEvent)
    ensures ParseKind(KindOf(event), EventPayload(event)) == Some(event)
  {
    hide WidgetFromFields, WidgetToFields, SegmentsFromJson, SegmentsToJson;
    match event {
      case WidgetReady(w) => WidgetSurvives(w);
      case MessageDone(_, _, _, segments) => SegmentsSurvive(segments);
      case _ =>
    }
  }

  lemma TagsAreDistinct(kind: Kind)
    ensures TagKind(KindTag(kind)) == Some(kind)
  {
  }

  lemma CodecIsLossless(event: TurnEvent)
    ensures ParseTurnEvent(EventTag(event), EventPayload(event)) == Ok(Some(event))
  {
    hide TagKind, KindTag, ParseKind, EventPayload;
    TagsAreDistinct(KindOf(event));
    PayloadSurvives(event);
  }

  // Two events are never confused on the stream.
  lemma CodecIsInjective(a: TurnEvent, b: TurnEvent)
    requires EventTag(a) == EventTag(b) && EventPayload(a) == EventPayload(b)
    ensures a == b
  {
    hide ParseTurnEvent, EventTag, EventPayload;
    CodecIsLossless(a);
    CodecIsLossless(b);
  }

  lemma KnownTagIsAKinds(tag: string)
    requires TagKind(tag).Some?
    ensures KindTag(TagKind(tag).value) == tag
  {
  }

  // The job's failure tags are exactly the tags no domain event carries.
  lemma OnlyForeignTagsParseToNone(tag: string, p: map<string, Json>)
    ensures ParseTurnEvent(tag, p) == Ok(None) <==> forall event: TurnEvent :: EventTag(event) != tag
  {
    hide TagKind, KindTag, ParseKind;
    forall event: TurnEvent | EventTag(event) == tag
      ensures TagKind(tag) == Some(KindOf(event))
    {
      TagsAreDistinct(KindOf(event));
    }
    if TagKind(tag).Some? {
      KnownTagIsAKinds(tag);
      var event := Sample(TagKind(tag).value);
      assert EventTag(event) == tag;
    }
  }

  // A payload carries an event if it has all the event's own keys with their values, whatever else it has.
  predicate Carries(p: map<string, Json>, event: TurnEvent) {
    forall k :: k in EventPayload(event) ==> k in p && p[k] == EventPayload(event)[k]
  }

  lemma CarriedEventIsParsed(p: map<string, Json>, event: TurnEvent)
    requires Carries(p, event)
    ensures ParseTurnEvent(EventTag(event), p) == Ok(Some(event))
  {
    hide TagKind, KindTag, WidgetFromFields, WidgetToFields, SegmentsFromJson, SegmentsToJson;
    TagsAreDistinct(KindOf(event));
    var payload := EventPayload(event);
    match event {
      case WidgetReady(w) =>
        WidgetSurvives(w);
        assert "widget" in payload;
      case MessageDone(_, _, _, segments) =>
        SegmentsSurvive(segments);
        assert "conversation_id" in payload && "content" in payload && "model" in payload
               && "content_segments" in payload;
      case CapReached(_, _) => assert "content" in payload && "clarification" in payload;
      case ReasoningDelta(_) => assert "content" in payload;
      case ContentDelta(_) => assert "content" in payload;
      case ToolCallRequested(_) => assert "name" in payload;
      case PersistenceFailed(_) => assert "detail" in payload;
    }
  }

  // The widget's own fields are among these.
  predicate CarriesWidget(f: map<string, Json>, w: Widget) {
    forall k :: k in WidgetToFields(w) ==> k in f && f[k] == WidgetToFields(w)[k]
  }

  lemma ParsedWidgetWasThere(f: map<string, Json>)
    ensures WidgetFromFields(f).Some? ==> CarriesWidget(f, WidgetFromFields(f).value)
  {
  }

  // And what is parsed was there: a text that is missing or is none is an error, never made up.
  lemma ParsedKindWasThere(kind: Kind, p: map<string, Json>)
    requires ParseKind(kind, p).Some?
    ensures var event := ParseKind(kind, p).value;
            && KindOf(event) == kind
            && (event.WidgetReady? ==>
                  "widget" in p && p["widget"].Obj? && CarriesWidget(p["widget"].fields, event.widget))
            && (event.MessageDone? ==>
                  forall k :: k in {"conversation_id", "content", "model"} ==> k in p && p[k] == EventPayload(event)[k])
            && (!event.WidgetReady? && !event.MessageDone? ==> Carries(p, event))
  {
    hide SegmentsFromJson, SegmentsToJson, WidgetFromFields, WidgetToFields, CarriesWidget;
    if kind == WidgetK {
      ParsedWidgetWasThere(p["widget"].fields);
    }
  }

  lemma ParsedEventWasThere(tag: string, p: map<string, Json>)
    ensures var parsed := ParseTurnEvent(tag, p);
            parsed.Ok? && parsed.value.Some? ==>
              var event := parsed.value.value;
              && EventTag(event) == tag
              && (event.WidgetReady? ==>
                    "widget" in p && p["widget"].Obj? && CarriesWidget(p["widget"].fields, event.widget))
              && (event.MessageDone? ==>
                    forall k :: k in {"conversation_id", "content", "model"} ==>
                      k in p && p[k] == EventPayload(event)[k])
              && (!event.WidgetReady? && !event.MessageDone? ==> Carries(p, event))
  {
    hide KindTag, TagKind, ParseKind, CarriesWidget, Carries;
    if TagKind(tag).Some? && ParseKind(TagKind(tag).value, p).Some? {
      KnownTagIsAKinds(tag);
      ParsedKindWasThere(TagKind(tag).value, p);
    }
  }

  function Sample(kind: Kind): (event: TurnEvent)
    ensures KindOf(event) == kind
  {
    match kind
    case ReasoningK => ReasoningDelta("")
    case ContentK => ContentDelta("")
    case ToolCallK => ToolCallRequested("")
    case WidgetK => WidgetReady(Widget("", "", "", Null))
    case CapK => CapReached("", "")
    case PersistenceK => PersistenceFailed("")
    case DoneK => MessageDone("", "", None, [])
  }
}
