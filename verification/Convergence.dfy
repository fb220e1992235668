/** Three windows on one conversation fold the same turn: the one that sent the message and drew it
    before any answer, one that only watched, and one that was reloaded while the reply was being written. */
module Convergence {
  import opened Prelude
  import opened TurnEvents
  import opened LiveThread
  import opened LiveReply

  // Equal up to the metadata of each message.
  predicate Alike(a: seq<ThreadMessage>, b: seq<ThreadMessage>) {
    |a| == |b| && forall i :: 0 <= i < |a| ==> a[i].(metadata := None) == b[i].(metadata := None)
  }

  function Sender(before: seq<ThreadMessage>, content: string, metadata: Option<Json>): seq<ThreadMessage> {
    before + [UserBubble(content, metadata), STREAMING]
  }

  // Loaded after the user's row was saved and before the reply's.
  function Reloaded(before: seq<ThreadMessage>, content: string, metadata: Option<Json>): seq<ThreadMessage> {
    before + [UserBubble(content, metadata)]
  }

  lemma UpdatesAlike(contract: Contract, a: ThreadMessage, b: ThreadMessage, frame: Frame)
    requires a.(metadata := None) == b.(metadata := None)
    ensures Updated(contract, a, frame).(metadata := None) == Updated(contract, b, frame).(metadata := None)
  {
    hide AppendTextDelta, Accepted, Accept;
  }

  lemma AppliesAlike(contract: Contract, a: seq<ThreadMessage>, b: seq<ThreadMessage>, frame: Frame)
    requires Alike(a, b)
    ensures Alike(ApplyLiveEvent(contract, a, frame), ApplyLiveEvent(contract, b, frame))
  {
    hide Updated, Accept, FirstText;
    UpdatesAlike(contract, STREAMING, STREAMING, frame);
    if |a| > 0 {
      var x, y := a[|a| - 1], b[|b| - 1];
      assert x.(metadata := None) == y.(metadata := None);
      UpdatesAlike(contract, x, y, frame);
    }
    if |a| > 1 {
      assert a[|a| - 2].(metadata := None) == b[|b| - 2].(metadata := None);
    }
  }

  lemma {:induction false} FoldsAlike(contract: Contract, a: seq<ThreadMessage>, b: seq<ThreadMessage>,
                                      frames: seq<Frame>)
    requires Alike(a, b)
    ensures Alike(Fold(contract, a, frames), Fold(contract, b, frames))
  {
    hide Alike, ApplyLiveEvent;
    if |frames| > 0 {
      FoldsAlike(contract, a, b, frames[..|frames| - 1]);
      AppliesAlike(contract, Fold(contract, a, frames[..|frames| - 1]), Fold(contract, b, frames[..|frames| - 1]),
                   frames[|frames| - 1]);
    }
  }

  lemma FirstTextIsTheBubbles(content: string, metadata: Option<Json>)
    ensures TextOf(UserBubble(content, metadata)) == Some(content)
  {
  }

  lemma SenderKeepsItsBubbles(contract: Contract, before: seq<ThreadMessage>, content: string, own: Option<Json>,
                              echoed: Option<Json>)
    ensures ApplyLiveEvent(contract, Sender(before, content, own), UserFrame(content, echoed))
         == Sender(before, content, own)
  {
    hide FirstText;
    FirstTextIsTheBubbles(content, own);
  }

  lemma ReloadedGainsABubble(contract: Contract, before: seq<ThreadMessage>, content: string, saved: Option<Json>,
                             echoed: Option<Json>)
    ensures ApplyLiveEvent(contract, Reloaded(before, content, saved), UserFrame(content, echoed))
         == Sender(before, content, saved)
  {
    hide FirstText;
    FirstTextIsTheBubbles(content, saved);
    assert before + [UserBubble(content, saved)] + [STREAMING] == Sender(before, content, saved);
  }

  // Whether the user's message is taken for one already on screen.
  predicate Mistaken(before: seq<ThreadMessage>, content: string) {
    ShowsOwnSend(before, content) || ShowsSavedSend(before, content)
  }

  lemma SendersAlike(before: seq<ThreadMessage>, content: string, one: Option<Json>, other: Option<Json>)
    ensures Alike(Sender(before, content, one), Sender(before, content, other))
  {
  }

  lemma FoldFirst(contract: Contract, thread: seq<ThreadMessage>, frame: Frame, frames: seq<Frame>)
    ensures Fold(contract, thread, [frame] + frames) == Fold(contract, ApplyLiveEvent(contract, thread, frame), frames)
  {
    hide ApplyLiveEvent, Fold;
    FoldInTwo(contract, thread, [frame], frames);
    FoldOne(contract, thread, frame);
  }

  // Whatever follows the user's message, the window that sent it and a window reloaded before the reply
  // was saved show the same thread.
  lemma SenderAndReloadedConverge(contract: Contract, before: seq<ThreadMessage>, content: string,
                                  own: Option<Json>, saved: Option<Json>, echoed: Option<Json>, frames: seq<Frame>)
    ensures var turn := [UserFrame(content, echoed)] + frames;
            Alike(Fold(contract, Sender(before, content, own), turn),
                  Fold(contract, Reloaded(before, content, saved), turn))
  {
    hide Alike, Fold, ApplyLiveEvent, Sender, Reloaded;
    SenderKeepsItsBubbles(contract, before, content, own, echoed);
    ReloadedGainsABubble(contract, before, content, saved, echoed);
    SendersAlike(before, content, own, saved);
    FoldFirst(contract, Sender(before, content, own), UserFrame(content, echoed), frames);
    FoldFirst(contract, Reloaded(before, content, saved), UserFrame(content, echoed), frames);
    FoldsAlike(contract, Sender(before, content, own), Sender(before, content, saved), frames);
  }

  /* ---- The gap between two threads that differ in length ---- */

  predicate NoUserFrames(frames: seq<Frame>) {
    forall i :: 0 <= i < |frames| ==> !frames[i].UserFrame?
  }

  lemma GapStays(contract: Contract, a: seq<ThreadMessage>, b: seq<ThreadMessage>, frame: Frame)
    requires EndsStreaming(a) <==> EndsStreaming(b)
    requires !frame.UserFrame?
    ensures var x, y := ApplyLiveEvent(contract, a, frame), ApplyLiveEvent(contract, b, frame);
            |x| - |y| == |a| - |b| && (EndsStreaming(x) <==> EndsStreaming(y))
  {
    hide AppendTextDelta, Accepted, Accept;
  }

  lemma {:induction false} GapStaysThroughout(contract: Contract, a: seq<ThreadMessage>, b: seq<ThreadMessage>,
                                              frames: seq<Frame>)
    requires EndsStreaming(a) <==> EndsStreaming(b)
    requires NoUserFrames(frames)
    ensures var x, y := Fold(contract, a, frames), Fold(contract, b, frames);
            |x| - |y| == |a| - |b| && (EndsStreaming(x) <==> EndsStreaming(y))
  {
    hide ApplyLiveEvent, EndsStreaming;
    if |frames| > 0 {
      var earlier := frames[..|frames| - 1];
      GapStaysThroughout(contract, a, b, earlier);
      GapStays(contract, Fold(contract, a, earlier), Fold(contract, b, earlier), frames[|frames| - 1]);
    }
  }

  lemma AfterTheUserFrame(contract: Contract, before: seq<ThreadMessage>, content: string, echoed: Option<Json>)
    ensures var after := ApplyLiveEvent(contract, before, UserFrame(content, echoed));
            && EndsStreaming(after)
            && (!Mistaken(before, content) ==> after == Sender(before, content, echoed))
            && (Mistaken(before, content) ==> |after| <= |before| + 1)
  {
    hide TextOf;
    assert EndsStreaming(before + [STREAMING]);
    assert EndsStreaming(before + [UserBubble(content, echoed), STREAMING]);
  }

  // A window that only watched agrees with the sender exactly when its thread did not already end with
  // that text unanswered, as after a turn that died without a trace: a retry is then taken for the earlier one.
  lemma WatcherConvergesIff(contract: Contract, before: seq<ThreadMessage>, content: string, own: Option<Json>,
                            echoed: Option<Json>, frames: seq<Frame>)
    requires NoUserFrames(frames)
    ensures var turn := [UserFrame(content, echoed)] + frames;
            Alike(Fold(contract, Sender(before, content, own), turn), Fold(contract, before, turn))
            <==> !Mistaken(before, content)
  {
    hide Fold, ApplyLiveEvent, ShowsOwnSend, ShowsSavedSend, EndsStreaming;
    SenderKeepsItsBubbles(contract, before, content, own, echoed);
    AfterTheUserFrame(contract, before, content, echoed);
    FoldFirst(contract, Sender(before, content, own), UserFrame(content, echoed), frames);
    FoldFirst(contract, before, UserFrame(content, echoed), frames);
    var after := ApplyLiveEvent(contract, before, UserFrame(content, echoed));
    if Mistaken(before, content) {
      AfterTheUserFrame(contract, Sender(before, content, own), content, echoed);
      GapStaysThroughout(contract, Sender(before, content, own), after, frames);
    } else {
      SendersAlike(before, content, own, echoed);
      FoldsAlike(contract, Sender(before, content, own), after, frames);
    }
  }

  // A turn that ends, in an answer or in an error, leaves no text unanswered.
  lemma EndedTurnLeavesNothingOpen(contract: Contract, thread: seq<ThreadMessage>, last: Frame, content: string)
    requires last.DoneFrame? || last.ErrorFrame?
    ensures !Mistaken(ApplyLiveEvent(contract, thread, last), content)
  {
    hide Accepted, Accept, AppendTextDelta, TextOf;
    var after := ApplyLiveEvent(contract, thread, last);
    assert after[|after| - 1].role == Assistant && !after[|after| - 1].streaming;
  }

  // So a window that watched the previous turn to its end agrees with the sender of the next one.
  lemma WatcherOfEndedTurnsConverges(contract: Contract, thread: seq<ThreadMessage>, last: Frame, content: string,
                                     own: Option<Json>, echoed: Option<Json>, frames: seq<Frame>)
    requires (last.DoneFrame? || last.ErrorFrame?) && NoUserFrames(frames)
    ensures var before := ApplyLiveEvent(contract, thread, last);
            var turn := [UserFrame(content, echoed)] + frames;
            Alike(Fold(contract, Sender(before, content, own), turn), Fold(contract, before, turn))
  {
    hide Fold, ApplyLiveEvent, Mistaken, Alike, Sender;
    EndedTurnLeavesNothingOpen(contract, thread, last, content);
    WatcherConvergesIff(contract, ApplyLiveEvent(contract, thread, last), content, own, echoed, frames);
  }

  // A window reloaded after the reply's row was saved, while the flag still points before the turn,
  // folds the whole turn again behind the saved one.
  lemma ReloadedAfterTheReplyDuplicates(contract: Contract, before: seq<ThreadMessage>, content: string,
                                        own: Option<Json>, echoed: Option<Json>, reply: ThreadMessage,
                                        frames: seq<Frame>)
    requires NoUserFrames(frames)
    requires reply.role == Assistant && !reply.streaming
    ensures var turn := [UserFrame(content, echoed)] + frames;
            |Fold(contract, Reloaded(before, content, own) + [reply], turn)|
            == |Fold(contract, Sender(before, content, own), turn)| + 2
  {
    hide Fold, ApplyLiveEvent;
    var loaded := Reloaded(before, content, own) + [reply];
    assert loaded[|loaded| - 1] == reply;
    assert !Mistaken(loaded, content);
    SenderKeepsItsBubbles(contract, before, content, own, echoed);
    AfterTheUserFrame(contract, loaded, content, echoed);
    AfterTheUserFrame(contract, Sender(before, content, own), content, echoed);
    FoldFirst(contract, Sender(before, content, own), UserFrame(content, echoed), frames);
    FoldFirst(contract, loaded, UserFrame(content, echoed), frames);
    GapStaysThroughout(contract, Sender(loaded, content, echoed), Sender(before, content, own), frames);
  }

  /* ---- The same, for the entries as they stand on the stream ---- */

  datatype Failure = Failure(tag: string, detail: string)

  // One turn's slice: the user's entry, the published events, and the tag of a job that failed.
  datatype Slice = Slice(sent: Sent, events: seq<TurnEvent>, failure: Option<Failure>)

  ghost predicate Readable(slice: Slice) {
    AllWire(slice.events) && (slice.failure.Some? ==> Foreign(slice.failure.value.tag))
  }

  // What follows the user's entry.
  function ReplyFrames(slice: Slice): seq<Frame>
    requires Readable(slice)
  {
    FramesOf(slice.events) + (if slice.failure.Some? then [TagFrame(slice.failure.value)] else [])
  }

  function TagFrame(failure: Failure): Frame
    requires Foreign(failure.tag)
  {
    FailureTagArrives(failure.tag, failure.detail);
    ClientMessage(failure.tag, map["detail" := Str(failure.detail)]).value
  }

  // The frames a reader gets from it.
  function SliceFrames(slice: Slice): seq<Frame>
    requires Readable(slice)
  {
    UserMessageArrives(slice.sent);
    [ClientMessage("UserMessageEvent", UserPayload(slice.sent)).value] + ReplyFrames(slice)
  }

  lemma {:induction false} EventsAreNoUserFrames(events: seq<TurnEvent>)
    requires AllWire(events)
    ensures NoUserFrames(FramesOf(events))
  {
    hide Received, Mapped;
    if |events| > 0 {
      EventsAreNoUserFrames(events[..|events| - 1]);
      ReceivedIsNoUserFrame(events[|events| - 1]);
    }
  }

  lemma ReceivedIsNoUserFrame(event: TurnEvent)
    requires Mapped(event)
    ensures !Received(event).UserFrame?
    ensures event.MessageDone? ==> Received(event).DoneFrame?
  {
    hide ClientMessage, EventPayload;
    FrameOfOne(event);
  }

  lemma RepliesAreNoUserFrames(slice: Slice)
    requires Readable(slice)
    ensures NoUserFrames(ReplyFrames(slice))
  {
    hide FramesOf, ClientMessage, Foreign, AllWire;
    EventsAreNoUserFrames(slice.events);
    if slice.failure.Some? {
      FailureTagArrives(slice.failure.value.tag, slice.failure.value.detail);
    }
  }

  // All three windows read the same slice through the codec and end alike, answered or failed.
  lemma WindowsConverge(contract: Contract, before: seq<ThreadMessage>, own: Option<Json>, saved: Option<Json>,
                        slice: Slice)
    requires Readable(slice)
    ensures var turn, content := SliceFrames(slice), slice.sent.content;
            var sender := Fold(contract, Sender(before, content, own), turn);
            && Alike(sender, Fold(contract, Reloaded(before, content, saved), turn))
            && (Alike(sender, Fold(contract, before, turn)) <==> !Mistaken(before, content))
  {
    hide Alike, Fold, Mistaken, ReplyFrames, Sender, Reloaded, NoUserFrames, ClientMessage, UserPayload;
    UserMessageArrives(slice.sent);
    RepliesAreNoUserFrames(slice);
    var content, echoed := slice.sent.content, MetadataOf(slice.sent);
    SenderAndReloadedConverge(contract, before, content, own, saved, echoed, ReplyFrames(slice));
    WatcherConvergesIff(contract, before, content, own, echoed, ReplyFrames(slice));
  }

  /* ---- What a turn leaves open ---- */

  predicate EndsTheTurn(frame: Frame) {
    frame.DoneFrame? || frame.ErrorFrame?
  }

  predicate NeverEnds(frames: seq<Frame>) {
    forall i :: 0 <= i < |frames| ==> !EndsTheTurn(frames[i])
  }

  // The turn's text, and a bubble behind it that is still being written.
  predicate Awaits(thread: seq<ThreadMessage>, content: string) {
    ShowsOwnSend(thread, content)
  }

  // The turn is answered or failed: no text is mistaken any more.
  predicate Closed(thread: seq<ThreadMessage>) {
    |thread| > 0 && thread[|thread| - 1].role == Assistant
    && !(EndsStreaming(thread) && |thread| > 1 && thread[|thread| - 2].role == User)
  }

  lemma FrameMovesOn(contract: Contract, thread: seq<ThreadMessage>, frame: Frame, content: string)
    requires !frame.UserFrame?
    ensures Awaits(thread, content) && !EndsTheTurn(frame) ==> Awaits(ApplyLiveEvent(contract, thread, frame), content)
    ensures (Awaits(thread, content) && EndsTheTurn(frame)) || Closed(thread) ==>
              Closed(ApplyLiveEvent(contract, thread, frame))
  {
    hide AppendTextDelta, Accepted, Accept, TextOf;
  }

  lemma {:induction false} FramesMoveOn(contract: Contract, thread: seq<ThreadMessage>, frames: seq<Frame>,
                                        content: string)
    requires NoUserFrames(frames) && Awaits(thread, content)
    ensures var after := Fold(contract, thread, frames);
            if NeverEnds(frames) then Awaits(after, content) else Closed(after)
  {
    hide ApplyLiveEvent, Awaits, Closed, EndsTheTurn;
    if |frames| > 0 {
      var earlier, last := frames[..|frames| - 1], frames[|frames| - 1];
      FramesMoveOn(contract, thread, earlier, content);
      FrameMovesOn(contract, Fold(contract, thread, earlier), last, content);
      assert NeverEnds(frames) <==> NeverEnds(earlier) && !EndsTheTurn(last);
    }
  }

  lemma UserFrameIsAwaited(contract: Contract, thread: seq<ThreadMessage>, content: string, echoed: Option<Json>)
    ensures Awaits(ApplyLiveEvent(contract, thread, UserFrame(content, echoed)), content)
  {
    FirstTextIsTheBubbles(content, echoed);
  }

  lemma WhatIsMistaken(thread: seq<ThreadMessage>, content: string, other: string)
    ensures Awaits(thread, content) ==> (Mistaken(thread, other) <==> other == content)
    ensures Closed(thread) ==> !Mistaken(thread, other)
    ensures Awaits(thread, content) || Closed(thread) ==> !ShowsSavedSend(thread, other)
  {
    hide TextOf;
  }

  // The turn left no trace of its end: no answer, no warning, no failure tag.
  predicate LeftOpen(slice: Slice) {
    slice.failure.None? && NothingEnds(slice.events)
  }

  predicate NothingEnds(events: seq<TurnEvent>) {
    forall i :: 0 <= i < |events| ==> !events[i].MessageDone? && !events[i].PersistenceFailed?
  }

  lemma {:induction false} EventsNeverEndIff(events: seq<TurnEvent>)
    requires AllWire(events)
    ensures NeverEnds(FramesOf(events)) <==> NothingEnds(events)
  {
    hide Received, Mapped;
    if |events| > 0 {
      var earlier, last := events[..|events| - 1], events[|events| - 1];
      EventsNeverEndIff(earlier);
      ReceivedEndsIff(last);
      NeverEndsOneMore(FramesOf(earlier), Received(last));
      assert NothingEnds(events) <==> NothingEnds(earlier) && !last.MessageDone? && !last.PersistenceFailed?;
    }
  }

  lemma NeverEndsOneMore(frames: seq<Frame>, frame: Frame)
    ensures NeverEnds(frames + [frame]) <==> NeverEnds(frames) && !EndsTheTurn(frame)
  {
    var all := frames + [frame];
    assert all[|frames|] == frame;
    assert forall i :: 0 <= i < |frames| ==> all[i] == frames[i];
  }

  lemma ReceivedEndsIff(event: TurnEvent)
    requires Mapped(event)
    ensures EndsTheTurn(Received(event)) <==> event.MessageDone? || event.PersistenceFailed?
  {
    hide ClientMessage, EventPayload;
    FrameOfOne(event);
  }

  lemma LeftOpenIff(slice: Slice)
    requires Readable(slice)
    ensures NeverEnds(ReplyFrames(slice)) <==> LeftOpen(slice)
  {
    hide FramesOf, ClientMessage, Foreign, AllWire, NeverEnds, NothingEnds;
    EventsNeverEndIff(slice.events);
    if slice.failure.Some? {
      FailureTagArrives(slice.failure.value.tag, slice.failure.value.detail);
      NeverEndsOneMore(FramesOf(slice.events), TagFrame(slice.failure.value));
    } else {
      assert ReplyFrames(slice) == FramesOf(slice.events);
    }
  }

  // Whatever was on screen before: a turn is taken for the next one exactly if it left no trace of its end
  // and the next one says the same.
  lemma MistakenIffRetried(contract: Contract, before: seq<ThreadMessage>, slice: Slice, content: string)
    requires Readable(slice)
    ensures Mistaken(Fold(contract, before, SliceFrames(slice)), content)
       <==> LeftOpen(slice) && content == slice.sent.content
    ensures !ShowsSavedSend(Fold(contract, before, SliceFrames(slice)), content)
  {
    hide Fold, Mistaken, ShowsSavedSend, ApplyLiveEvent, Awaits, Closed, NeverEnds, LeftOpen, NoUserFrames,
         ReplyFrames, ClientMessage, UserPayload;
    LeftOpenIff(slice);
    UserMessageArrives(slice.sent);
    var echoed, replies := MetadataOf(slice.sent), ReplyFrames(slice);
    RepliesAreNoUserFrames(slice);
    var asked := ApplyLiveEvent(contract, before, UserFrame(slice.sent.content, echoed));
    UserFrameIsAwaited(contract, before, slice.sent.content, echoed);
    FoldFirst(contract, before, UserFrame(slice.sent.content, echoed), replies);
    FramesMoveOn(contract, asked, replies, slice.sent.content);
    WhatIsMistaken(Fold(contract, asked, replies), slice.sent.content, content);
  }

  // A turn that died behind its user message, before anything was published.
  lemma DeadTurnIsMistaken(contract: Contract, before: seq<ThreadMessage>, sent: Sent)
    ensures Mistaken(Fold(contract, before, SliceFrames(Slice(sent, [], None))), sent.content)
  {
    hide Mistaken, Fold, ClientMessage, UserPayload;
    MistakenIffRetried(contract, before, Slice(sent, [], None), sent.content);
  }

  /* ---- Turn after turn ---- */

  // The thread of a window that sent some of the turns, `own` being the metadata it drew, and watched the rest.
  ghost function Followed(contract: Contract, thread: seq<ThreadMessage>, slices: seq<Slice>,
                          owns: seq<Option<Option<Json>>>): seq<ThreadMessage>
    requires |slices| == |owns| && forall i :: 0 <= i < |slices| ==> Readable(slices[i])
    decreases |slices|
  {
    if |slices| == 0 then thread
    else
      var n := |slices| - 1;
      var earlier := Followed(contract, thread, slices[..n], owns[..n]);
      Fold(contract,
           if owns[n].Some? then Sender(earlier, slices[n].sent.content, owns[n].value) else earlier,
           SliceFrames(slices[n]))
  }

  // One more turn leaves alike threads alike, whoever sent it.
  lemma TurnKeepsAlike(contract: Contract, a: seq<ThreadMessage>, b: seq<ThreadMessage>, slice: Slice,
                       own: Option<Option<Json>>, other: Option<Option<Json>>)
    requires Alike(a, b) && Readable(slice)
    requires !Mistaken(a, slice.sent.content) && !Mistaken(b, slice.sent.content)
    ensures var content, turn := slice.sent.content, SliceFrames(slice);
            Alike(Fold(contract, if own.Some? then Sender(a, content, own.value) else a, turn),
                  Fold(contract, if other.Some? then Sender(b, content, other.value) else b, turn))
  {
    hide Fold, Mistaken, SliceFrames, Alike;
    var content, turn := slice.sent.content, SliceFrames(slice);
    var one := if own.Some? then own.value else None;
    var two := if other.Some? then other.value else None;
    WindowsConverge(contract, a, one, None, slice);
    WindowsConverge(contract, b, two, None, slice);
    SendersStayAlike(a, b, content, one, two);
    FoldsAlike(contract, Sender(a, content, one), Sender(b, content, two), turn);
    var x, y := Fold(contract, Sender(a, content, one), turn), Fold(contract, Sender(b, content, two), turn);
    AlikeIsAnEquivalence(x, y, Fold(contract, b, turn));
    AlikeIsAnEquivalence(x, Fold(contract, a, turn), y);
    AlikeIsAnEquivalence(Fold(contract, a, turn), x, y);
    AlikeIsAnEquivalence(Fold(contract, a, turn), y, Fold(contract, b, turn));
  }

  lemma SendersStayAlike(a: seq<ThreadMessage>, b: seq<ThreadMessage>, content: string, one: Option<Json>,
                         other: Option<Json>)
    requires Alike(a, b)
    ensures Alike(Sender(a, content, one), Sender(b, content, other))
  {
  }

  lemma AlikeIsAnEquivalence(a: seq<ThreadMessage>, b: seq<ThreadMessage>, c: seq<ThreadMessage>)
    ensures Alike(a, b) ==> Alike(b, a)
    ensures Alike(a, b) && Alike(b, c) ==> Alike(a, c)
  {
  }

  // Whether the next turn would be taken for this one: the same text, behind a turn that left no trace.
  predicate Retries(slice: Slice, next: Slice) {
    LeftOpen(slice) && next.sent.content == slice.sent.content
  }

  predicate NothingMistaken(thread: seq<ThreadMessage>, slices: seq<Slice>) {
    (|slices| > 0 ==> !Mistaken(thread, slices[0].sent.content))
    && forall i :: 0 < i < |slices| ==> !Retries(slices[i - 1], slices[i])
  }

  lemma FollowedMistakes(contract: Contract, thread: seq<ThreadMessage>, slices: seq<Slice>,
                         owns: seq<Option<Option<Json>>>, next: Slice)
    requires |slices| == |owns| && |slices| > 0 && forall i :: 0 <= i < |slices| ==> Readable(slices[i])
    ensures var followed := Followed(contract, thread, slices, owns);
            && (Mistaken(followed, next.sent.content) <==> Retries(slices[|slices| - 1], next))
            && !ShowsSavedSend(followed, next.sent.content)
  {
    hide Fold, Mistaken, ShowsSavedSend, SliceFrames, Sender, Readable, LeftOpen;
    var n := |slices| - 1;
    var earlier := Followed(contract, thread, slices[..n], owns[..n]);
    MistakenIffRetried(contract, if owns[n].Some? then Sender(earlier, slices[n].sent.content, owns[n].value)
                                 else earlier, slices[n], next.sent.content);
  }

  lemma {:induction false} FollowersConverge(contract: Contract, thread: seq<ThreadMessage>, slices: seq<Slice>,
                                             owns: seq<Option<Option<Json>>>, others: seq<Option<Option<Json>>>)
    requires |slices| == |owns| == |others| && forall i :: 0 <= i < |slices| ==> Readable(slices[i])
    requires NothingMistaken(thread, slices)
    ensures Alike(Followed(contract, thread, slices, owns), Followed(contract, thread, slices, others))
    decreases |slices|
  {
    hide Fold, Mistaken, SliceFrames, Alike, Sender, Readable, Retries;
    if |slices| == 0 {
      AlikeToItself(thread);
    } else {
      var n := |slices| - 1;
      FollowersConverge(contract, thread, slices[..n], owns[..n], others[..n]);
      if n > 0 {
        FollowedMistakes(contract, thread, slices[..n], owns[..n], slices[n]);
        FollowedMistakes(contract, thread, slices[..n], others[..n], slices[n]);
      }
      TurnKeepsAlike(contract, Followed(contract, thread, slices[..n], owns[..n]),
                     Followed(contract, thread, slices[..n], others[..n]), slices[n], owns[n], others[n]);
    }
  }

  // Watching a turn that is mistaken leaves a window behind the one that sent it.
  lemma WatcherFallsBehind(contract: Contract, before: seq<ThreadMessage>, slice: Slice)
    requires Readable(slice) && Mistaken(before, slice.sent.content)
    ensures var turn := SliceFrames(slice);
            |Fold(contract, Sender(before, slice.sent.content, None), turn)| > |Fold(contract, before, turn)|
  {
    hide Fold, ApplyLiveEvent, Mistaken, EndsStreaming, ReplyFrames, NoUserFrames, ClientMessage, UserPayload;
    UserMessageArrives(slice.sent);
    RepliesAreNoUserFrames(slice);
    var content, echoed, replies := slice.sent.content, MetadataOf(slice.sent), ReplyFrames(slice);
    SenderKeepsItsBubbles(contract, before, content, None, echoed);
    AfterTheUserFrame(contract, before, content, echoed);
    AfterTheUserFrame(contract, Sender(before, content, None), content, echoed);
    FoldFirst(contract, Sender(before, content, None), UserFrame(content, echoed), replies);
    FoldFirst(contract, before, UserFrame(content, echoed), replies);
    GapStaysThroughout(contract, Sender(before, content, None),
                       ApplyLiveEvent(contract, before, UserFrame(content, echoed)), replies);
  }

  lemma UserFrameKeepsTheGap(contract: Contract, a: seq<ThreadMessage>, b: seq<ThreadMessage>, content: string,
                             echoed: Option<Json>)
    requires !ShowsSavedSend(a, content) && !ShowsSavedSend(b, content)
    requires Mistaken(a, content) <==> Mistaken(b, content)
    ensures |ApplyLiveEvent(contract, a, UserFrame(content, echoed))| - |a|
         == |ApplyLiveEvent(contract, b, UserFrame(content, echoed))| - |b|
  {
    hide ShowsOwnSend, ShowsSavedSend;
  }

  // Two windows that watch the same turn stay as far apart as they were.
  lemma WatchersStayApart(contract: Contract, a: seq<ThreadMessage>, b: seq<ThreadMessage>, slice: Slice)
    requires Readable(slice) && !ShowsSavedSend(a, slice.sent.content) && !ShowsSavedSend(b, slice.sent.content)
    requires Mistaken(a, slice.sent.content) <==> Mistaken(b, slice.sent.content)
    ensures var turn := SliceFrames(slice);
            |Fold(contract, a, turn)| - |Fold(contract, b, turn)| == |a| - |b|
  {
    hide Fold, ApplyLiveEvent, Mistaken, ShowsSavedSend, EndsStreaming, ReplyFrames, NoUserFrames, ClientMessage,
         UserPayload;
    UserMessageArrives(slice.sent);
    RepliesAreNoUserFrames(slice);
    var content, echoed, replies := slice.sent.content, MetadataOf(slice.sent), ReplyFrames(slice);
    AfterTheUserFrame(contract, a, content, echoed);
    AfterTheUserFrame(contract, b, content, echoed);
    UserFrameKeepsTheGap(contract, a, b, content, echoed);
    FoldFirst(contract, a, UserFrame(content, echoed), replies);
    FoldFirst(contract, b, UserFrame(content, echoed), replies);
    GapStaysThroughout(contract, ApplyLiveEvent(contract, a, UserFrame(content, echoed)),
                       ApplyLiveEvent(contract, b, UserFrame(content, echoed)), replies);
  }

  function Watching(n: nat): (owns: seq<Option<Option<Json>>>)
    ensures |owns| == n
  {
    seq(n, _ => None)
  }

  // Turn `i` is mistaken: a window that sent it and watched the rest never agrees again with one that
  // watched them all.
  lemma {:induction false} GapBehindARetry(contract: Contract, thread: seq<ThreadMessage>, slices: seq<Slice>, i: nat)
    requires i < |slices| && forall j :: 0 <= j < |slices| ==> Readable(slices[j])
    requires if i == 0 then Mistaken(thread, slices[0].sent.content) else Retries(slices[i - 1], slices[i])
    ensures |Followed(contract, thread, slices, Watching(|slices|)[i := Some(None)])|
          > |Followed(contract, thread, slices, Watching(|slices|))|
    decreases |slices|
  {
    hide Fold, Mistaken, ShowsSavedSend, SliceFrames, Sender, Readable, Retries;
    var n := |slices| - 1;
    var owns, others := Watching(|slices|)[i := Some(None)], Watching(|slices|);
    assert others[..n] == Watching(n);
    if i == n {
      assert owns[..n] == Watching(n);
      if n > 0 {
        FollowedMistakes(contract, thread, slices[..n], Watching(n), slices[n]);
      }
      WatcherFallsBehind(contract, Followed(contract, thread, slices[..n], Watching(n)), slices[n]);
    } else {
      assert owns[..n] == Watching(n)[i := Some(None)];
      GapBehindARetry(contract, thread, slices[..n], i);
      FollowedMistakes(contract, thread, slices[..n], owns[..n], slices[n]);
      FollowedMistakes(contract, thread, slices[..n], others[..n], slices[n]);
      WatchersStayApart(contract, Followed(contract, thread, slices[..n], owns[..n]),
                        Followed(contract, thread, slices[..n], others[..n]), slices[n]);
    }
  }

  // All windows that follow a conversation show the same thread, whichever of them sent which turn,
  // exactly when no turn repeats the text of a turn without a trace of an end just before it.
  lemma FollowersConvergeIff(contract: Contract, thread: seq<ThreadMessage>, slices: seq<Slice>)
    requires forall i :: 0 <= i < |slices| ==> Readable(slices[i])
    ensures (forall owns, others :: |owns| == |slices| && |others| == |slices| ==>
               Alike(Followed(contract, thread, slices, owns), Followed(contract, thread, slices, others)))
       <==> NothingMistaken(thread, slices)
  {
    hide Followed, Mistaken, Readable, Retries;
    if NothingMistaken(thread, slices) {
      forall owns, others | |owns| == |slices| && |others| == |slices|
        ensures Alike(Followed(contract, thread, slices, owns), Followed(contract, thread, slices, others))
      {
        FollowersConverge(contract, thread, slices, owns, others);
      }
    } else {
      var i: nat :| i < |slices|
        && if i == 0 then Mistaken(thread, slices[0].sent.content) else Retries(slices[i - 1], slices[i]);
      GapBehindARetry(contract, thread, slices, i);
      var owns, others := Watching(|slices|)[i := Some(None)], Watching(|slices|);
      assert !Alike(Followed(contract, thread, slices, owns), Followed(contract, thread, slices, others));
    }
  }

  lemma AlikeToItself(thread: seq<ThreadMessage>)
    ensures Alike(thread, thread)
  {
  }
}
