# Chat turns, ingestion and two statistics: a verified model

The repository is a football assistant: a chat that streams a model's answers over Redis, a pipeline that
copies football data into Postgres, and read-only analytics. This project models the parts where several
pieces of code have to agree, and proves that they do, or exactly when they do not.

**The chat turn.** A turn is reserved with a Redis flag whose value is a stream cursor, its user row is
written to Postgres, and a job appends events to the conversation's stream. `TurnProtocol` is that protocol as
timed steps, one for each Redis command and SQL statement, with expiry of both keys and a real-valued clock;
`TurnSafety`, `TurnRetention` and `TurnReaders` prove what every timely run keeps, what a key expiry can take
away, and what a reader gets through any number of drops. `ChatTask` is the job and the send endpoint as a
class whose fields are the stored values; every method is one step of the protocol or a run of them.
`ReplyJob` runs the chat service inside that job. `ToolCallAssembly`, `ToolLoop` and `TurnEvents` are the
model client's parser, the bounded tool loop and the stream codec. `LiveThread`, `LiveReply` and `Convergence`
are the browser's reducer and the claims about it: the bubble written live is the bubble the final message
leaves, and the window that sent, the window that watched and the window that was reloaded end alike.
`PromptHistory` is the prompt rebuilt from the log and the cache that shadows it.

**Ingestion.** `Ingestion` proves that chunked, deduplicated upsert is row-by-row upsert. `SeasonStats` and
`TransfermarktSync` build on it: grouping conserves every column, and every stage of the sync keeps every
reference resolvable; `StageSelection` says which of the source's rows end up where, in the terms of
`Selection`, what it is to take some items of a sequence. `IdentityMatching`, `IdentityLinks` and
`IdentityReview` are the matching tiers, the link table with its two unique constraints, and the admin's
decisions.

**Statistics.** `GroupTable` compares the SQL standing with the rule that walks a team's matches;
`PercentileRank` is the midpoint rank. `Rounding` is shared with the confidence scale.

Wherever the source updates something in place, a class or a loop does, and it is proved against a function;
the lemmas are about those functions. Some proofs open with `hide`, which only keeps definitions that are not
needed out of the solver's sight.

## The timing promise

Safety rests on one promise about the deployment, `Timely`: a job starts less than 300 s after its
reservation, and is cancelled and has cleared its flag less than 300 s after it started
(`backend/src/infra/task_queue/worker.py:34-42`). From it follows that a live turn's flag never lapses.
`SecondSendRefusedIffPunctual` shows that nothing weaker would do.

The promise is stronger than those lines give. The worker cancels a job at 300 s, which is also the flag's
time to live; a job that really runs into that timeout tags, records and clears only afterwards, so it is
never punctual, and a send in between is accepted. `LateJobOverlaps` is that case, to the second.

## What the proofs found

- A job that outlives its flag lets a second turn in; the first reply then lands behind the second user row
  and the first job's cleanup deletes the second turn's flag (`LateJobOverlaps`, `LateJobCorruptsLog`).
- `XADD` keeps a key's expiry, so a turn inherits the one its predecessor's cleanup set. Entries of a live
  turn can be lost exactly when less than 600 s of it remain at the reservation (`CanLoseIffNotLossProof`),
  against `backend/src/infra/task_queue/chat_streams.py:36-39`, which speaks of finished turns only.
- The gap check never misses a gap at a real cursor, raises a false alarm exactly when the last entry seen
  is the newest one lost, and reports nothing at the origin. No code calls it.
- Loss can be reached from an empty conversation: a first turn that ends at once and a second send 301 s
  later (`LossIsReachable`).
- A reader that drops before it has seen an entry attaches anew. It keeps the turn it was waiting for exactly
  if that turn still holds the flag, or has nothing on the stream (`ReconnectKeepsTheTurnIff`); so over any
  run a reader gets all of a turn exactly if every such reconnect came in time (`WatchIsCompleteIff`).
  Otherwise the whole turn is missed (`ReconnectMissesAnEndedTurn`). What holds through any reconnect is that
  nothing earlier arrives, nothing twice and nothing out of order (`WatchNeverLooksBack`).
- A window that only watched diverges exactly when its thread already ends with the same text unanswered. A
  turn leaves it so exactly if it left no trace of an end, no answer, warning or failure tag, and the next
  turn repeats its text (`MistakenIffRetried`). Such turns exist: a worker that dies leaves only the user's
  message, and the conversation takes the next send once the flag has lapsed (`DeadTurnCanBeRetried`,
  `DeadTurnIsMistaken`). From a thread that does not end so, all windows converge as long as there is no such
  retry; behind one, some two never do (`FollowersConvergeIff`).
- A window reloaded between the reply's row and the end of the turn shows the turn twice. A reply the database
  rejects leaves two bubbles.
- A reload shows the parts that stand on screen exactly when the reply completed and its final text stands
  behind widgets only, or nothing was shown at all. So it differs after every cap trip, after a text before a
  widget or before a further text, and after widgets without a final text (`ReloadShowsTheSameIff`).
- A turn cancelled between its reply row and its cache write leaves a hole in later prompts unless there was
  no history. A rejected reply stays in them as long as the cache lives: it does harm unless the turns the
  prompt held and the one before them all repeat the rejected turn, and the window holds no more than these
  (`UnsavedReplyIsFaithfulIff`); some reply always does.
- A rebuild that raises prompts with nothing, and the turn that then succeeds is cached alone. That is
  harmless exactly if the cache was not empty or the window would hold no second turn
  (`BlindSuccessIsFaithfulIff`).
- A dash is a missing value to the club sanitizer and stops the sync in the player sanitizer
  (`backend/src/domain/ingestion/services/transfermarkt_detail_sync.py:57-84`).
- Candidates are upserted in the order in which their real players were first claimed. That fails exactly
  when some real player is held by a link that no row up to its own rewrites, so the same candidates in
  another order may go through (`OrderDecides`). It takes the admin's name and decision off reviewed links
  while leaving their mark; a rematch wipes first, and always succeeds.
- The matching service describes its uncorroborated band as 0.850 up to but not including 0.949
  (`backend/src/domain/ingestion/services/player_identity_matching_service.py:14-15`). Rounding takes every
  score above 85 + 2955/198, about 99.924, to 0.949 (`BelowTheMaximumIff`).
- A tool handler that raises cuts the transcript's last block short; a run that does not raise leaves whole
  blocks only.
- The SQL standing and the rule differ exactly for a team matched against itself.

## Model

| member | source | states |
|---|---|---|
| TurnSafety.TimelyRunsAreSafe | backend/src/infra/task_queue/chat_tasks.py:107-177 | after any timely run from an empty conversation at most one turn is live and it holds the flag, the stream is the turns' slices one after another, finished slices end in a failure tag if the turn went down the failure path and in MessageDone otherwise, and the log is (user assistant?)* numbered 1..n with each reply behind its own user row |
| TurnProtocol.StepKeepsInv | backend/src/infra/task_queue/chat_tasks.py:107-177 | each command of the endpoint, the job, the clock or a dying process keeps the invariant behind it, in any interleaving |
| TurnProtocol.RunKeepsInv | backend/src/infra/task_queue/chat_tasks.py:16-29 | so does every timely run |
| TurnProtocol.MaxSequenceShaped | backend/src/infra/postgres/repositories/chat_message_repository.py:72-87 | MAX(sequence) + 1 numbers a shaped log without holes |
| TurnProtocol.MaxSequenceIsLargest | backend/src/infra/postgres/repositories/chat_message_repository.py:72-87 | of any log it is the largest number, or zero |
| TurnProtocol.StartKeepsInv | backend/src/infra/task_queue/chat_tasks.py:118-122 | refreshing the flag without replacing its cursor keeps the turn exclusive for the whole job |
| TurnProtocol.ExpireStreamKeepsInv | backend/src/infra/task_queue/chat_tasks.py:173-177 | a late EXPIRE on a key that already belongs to a newer live turn is harmless |
| TurnSafety.SlicesConcatenate | backend/src/infra/task_queue/chat_streams.py:126-136 | a stream whose turn tags ascend is the concatenation of its turns' slices |
| TurnSafety.SecondSendRefusedIffPunctual | backend/src/api/v1/chat/routers/conversation_router.py:219-230 | while a turn is live a second send is refused exactly as long as that turn is punctual |
| TurnSafety.FirstTurnStarts | backend/src/api/v1/chat/routers/conversation_router.py:207-260 | the state with a first turn running is reachable by a timely run |
| TurnSafety.DeadTurnCanBeRetried | backend/src/infra/task_queue/chat_streams.py:31-34 | so is one in which its worker has died behind the user's message and a second turn is accepted |
| TurnSafety.LateJobOverlaps | backend/src/infra/task_queue/chat_streams.py:31-34 | from there, a job still running at 300 s lets a second turn in |
| TurnSafety.LateJobCorruptsLog | backend/src/infra/task_queue/chat_tasks.py:173-177 | and then the first reply lands behind the second user row and the second turn loses its flag |
| TurnRetention.TurnReservedAtOriginKeepsEntries | backend/src/infra/task_queue/chat_streams.py:105-110 | a live turn reserved on a missing key loses no entry |
| TurnRetention.LossProofTurnsKeepEntries | backend/src/infra/task_queue/chat_streams.py:36-39 | no timely run loses an entry of a live turn reserved with no expiry pending or at least 600 s of it |
| TurnRetention.StaleKeyLosesEntries | backend/src/infra/task_queue/chat_tasks.py:173-177 | any reservation with less than 600 s pending has a timely run that loses its user message |
| TurnRetention.CanLoseIffNotLossProof | backend/src/infra/task_queue/chat_streams.py:36-39 | entries of a live turn can be lost exactly when a shorter expiry is pending at its reservation |
| TurnRetention.LossIsReachable | backend/src/infra/task_queue/chat_streams.py:36-39 | a timely run from the empty conversation reaches such a reservation, and another one from there loses entries |
| TurnRetention.NoGapMeansNothingLost | backend/src/infra/task_queue/chat_streams.py:139-152 | no gap reported at a real cursor of a non-empty stream: every entry after it is retained |
| TurnRetention.GapAlarmExact | backend/src/infra/task_queue/chat_streams.py:139-152 | for a reader that last saw entry k the alarm is raised iff k is gone, and entries are lost iff its successor is |
| TurnRetention.GapAlarmGoesByTime | backend/src/infra/task_queue/chat_streams.py:139-152 | at a real cursor of a non-empty stream the alarm is raised exactly if the first retained entry is of a later millisecond, or of the same one and numbered higher |
| TurnRetention.OriginNeverAlarms | backend/src/infra/task_queue/chat_streams.py:148-149 | at the origin nothing is reported, whatever is gone |
| TurnReaders.ReaderOfTurnIsExact | backend/src/infra/task_queue/chat_streams.py:126-136 | attached during a turn, through any reads, drops, reconnects and expiries: nothing of earlier turns, in order, nothing twice; while the key survives received plus pending are one read from the current start, and of the turn they are everything exactly when no reconnect skipped it |
| TurnReaders.IdleReaderGetsOnlyLaterTurns | backend/src/infra/task_queue/chat_streams.py:126-136 | attached while idle, the same for every later turn; a reader that keeps its start gets exactly what was appended since |
| TurnReaders.WatchNeverLooksBack | backend/src/api/v1/chat/routers/conversation_router.py:312-333 | a reader beyond the first n turns is delivered nothing of them, nothing twice and nothing out of order, whatever it does and whatever expires |
| TurnReaders.WatchIsCompleteIff | backend/src/api/v1/chat/routers/conversation_router.py:362-365 | over any run with the key in place, a turn stays complete exactly when every reconnect before the first entry came while it held the flag or had no entry; otherwise all of it is missed |
| TurnReaders.ReconnectKeepsTheTurnIff | backend/src/api/v1/chat/routers/conversation_router.py:362-365 | reconnecting before the first entry leaves the turn's entries pending exactly if it still holds the flag or has none |
| TurnReaders.ReconnectMissesAnEndedTurn | backend/src/api/v1/chat/routers/conversation_router.py:362-365 | from the first running turn a run that ends with the whole slice pending, and a reconnect that drops it |
| TurnReaders.ReattachingWhileIdleDropsPending | backend/src/api/v1/chat/routers/conversation_router.py:362-365 | with no flag held, such a reconnect leaves nothing pending at all |
| TurnReaders.WatchKeepsReader | backend/src/api/v1/chat/routers/conversation_router.py:312-333 | through any reconnect, received plus pending stays what one fresh read from the reader's start would give |
| TurnReaders.ReadGoesByTime | backend/src/infra/task_queue/chat_streams.py:126-136 | a read returns exactly the entries of a later millisecond and, within the cursor's own, those numbered higher |
| TurnReaders.PendingGoesByTime | backend/src/api/v1/chat/routers/conversation_router.py:312-333 | the same for what is pending of the retained entries |
| TurnReaders.DeliverLeavesRest | backend/src/api/v1/chat/routers/conversation_router.py:312-333 | resuming after the last id of a batch leaves exactly the rest pending |
| TurnReaders.TurnCursorSelectsTurn | backend/src/infra/task_queue/chat_streams.py:126-136 | reading from a turn's reservation cursor yields that turn and later ones only, and all of it unless the key lost some |
| StreamCursors.ShownCursorReadsBack | backend/src/infra/task_queue/chat_streams.py:88-97 | a written id passes for an id and parses back to itself |
| StreamCursors.CursorsAreTwoNumbers | backend/src/infra/task_queue/chat_streams.py:88-97 | an id is two runs of digits with one dash between them, and no other text has parts |
| StreamCursors.PrecedesIsTheNumbersOrder | backend/src/infra/task_queue/chat_streams.py:95-102 | ids are ordered as 128-bit numbers with the milliseconds on top |
| ChatTask.ConversationStore.ReserveTurn | backend/src/api/v1/chat/routers/conversation_router.py:219-230 | sets the flag with the last cursor if it is free, refuses otherwise, and is the protocol's Send step |
| ChatTask.ConversationStore.PersistUserMessage | backend/src/domain/chat/services/chat_service.py:158-184 | appends the user row under the next number |
| ChatTask.ConversationStore.AnnounceUserMessage | backend/src/api/v1/chat/routers/conversation_router.py:245-254 | appends the user's entry under a fresh id |
| ChatTask.ConversationStore.BeginJob | backend/src/infra/task_queue/chat_tasks.py:118-122 | refreshes the flag's deadline and nothing else |
| ChatTask.ConversationStore.PublishEvents | backend/src/infra/task_queue/chat_tasks.py:140-147 | the publishing loop is a legal run of the protocol with one step for each event, in order |
| ChatTask.ConversationStore.FailTurn | backend/src/infra/task_queue/chat_tasks.py:148-172 | tags the stream, then records the failure, whose row the database may refuse without stopping the cleanup |
| ChatTask.ConversationStore.CleanUp | backend/src/infra/task_queue/chat_tasks.py:173-177 | deletes the flag, then sets the stream's expiry, whatever happened before |
| ChatTask.ConversationStore.GenerateChatReply | backend/src/infra/task_queue/chat_tasks.py:107-177 | the whole job, on success, failure or cancellation at any point, is a legal run of the protocol that ends with the turn over, no flag and an expiring stream |
| ReplyJob.ServiceKeepsTheOrder | backend/src/domain/chat/services/chat_service.py:226-308 | for every model run the service's yields and its one row write come in the order the job's protocol allows, MessageDone last unless the run raises |
| ReplyJob.CutKeepsTheOrder | backend/src/infra/task_queue/chat_tasks.py:140-155 | and so do they when the job is cancelled after any of them |
| ReplyJob.JobWrites | backend/src/infra/task_queue/chat_tasks.py:107-177 | a run of the job leaves on the stream one entry for each yielded event, in order, and the tag exactly if it raised, and in the tables the reply's row exactly if it was written and the failure exactly if it raised |
| ReplyJob.GenerateReply | backend/src/infra/task_queue/chat_tasks.py:124-177 | the job over the service, cancelled anywhere or not: a legal run that leaves exactly the reply's events behind |
| ToolCallAssembly.FragmentTable.AccumulateFragment | backend/src/infra/openrouter/client.py:168-179 | one piece extends the fragment of its index and no other |
| ToolCallAssembly.FragmentTable.ParseLine | backend/src/infra/openrouter/client.py:104-165 | a line's chunk carries calls only when it finishes, assembled from every piece so far |
| ToolCallAssembly.ParseResponse | backend/src/infra/openrouter/client.py:71-75 | the chunks of a whole response |
| ToolCallAssembly.CallsAreTheirPieces | backend/src/infra/openrouter/client.py:104-179 | calls come in ascending index order, one for each index sent, each made of its own pieces alone: arguments in arrival order, last non-empty id and name |
| ToolCallAssembly.PiecesAreSelected | backend/src/infra/openrouter/client.py:168-179 | the pieces of an index are, in arrival order, those that name it, and for index 0 those that name none |
| ToolCallAssembly.InterleavingDoesNotMatter | backend/src/infra/openrouter/client.py:104-179 | streams that agree on each index give the same calls, however they are cut and interleaved |
| ToolCallAssembly.CompletionCarriesTheCalls | backend/src/domain/chat/services/tool_call_executor.py:267-289 | the aggregated completion carries the calls assembled up to the last finishing line |
| ToolCallAssembly.UnfinishedCarriesNone | backend/src/domain/chat/services/tool_call_executor.py:279-281 | without a finishing line there are no calls and no finish reason |
| ToolLoop.ChunkAggregator.AbsorbChunk | backend/src/domain/chat/services/tool_call_executor.py:267-277 | texts accumulate, the last calls, finish reason and model win |
| ToolLoop.ChunkAggregator.FinalizeStream | backend/src/domain/chat/services/tool_call_executor.py:279-289 | a stream without a finish reason or a model is an error |
| ToolLoop.StreamCompletion | backend/src/domain/chat/services/tool_call_executor.py:166-177 | forwards each delta, reasoning before content, and aggregates the stream |
| ToolLoop.DispatchCalls | backend/src/domain/chat/services/tool_call_executor.py:186-192 | runs the calls in order, each on the transcript the earlier ones left, up to a handler that raises |
| ToolLoop.ExecuteRun | backend/src/domain/chat/services/tool_call_executor.py:151-199 | the loop over the shared transcript is the recursive specification, events, transcript and failure alike |
| ToolLoop.ResolvesExactlyOnceAndLast | backend/src/domain/chat/services/tool_call_executor.py:151-199 | a run that does not raise emits one resolution, last; one that raises emits none |
| ToolLoop.RunIsTold | backend/src/domain/chat/services/tool_call_executor.py:151-199 | for any number of iterations: a run is its blocks, each a completion that finished for tools and has calls, followed by its answers; it resolves on the first completion that does not ask, trips the cap exactly when all iterations asked, and otherwise raised in a stream or in a handler; its events, segments and transcript are those of the blocks |
| ToolLoop.ChatRunIsTold | backend/src/domain/chat/services/tool_call_executor.py:151-199 | the same for a chat turn, whose cap is five |
| ToolLoop.CallAnswers | backend/src/domain/chat/services/tool_call_executor.py:201-236 | a call is answered with what its tool returns for its own arguments on the transcript before it, or with a complaint that names it; a widget is drawn exactly for data of a tool with a widget type |
| ToolLoop.TranscriptStaysWellFormed | backend/src/domain/chat/services/tool_call_executor.py:182-252 | the transcript is the input and at most as many blocks as iterations, each an assistant message with calls and then one result for each call, same ids, same order; only a run that raises can cut the last block short, behind a prefix of its results |
| TurnEvents.CodecIsLossless | backend/src/domain/chat/services/chat_turn_events.py:120-176 | every domain event survives its payload and tag |
| TurnEvents.CodecIsInjective | backend/src/domain/chat/services/chat_turn_events.py:120-146 | two events are never written alike |
| TurnEvents.CarriedEventIsParsed | backend/src/domain/chat/services/chat_turn_events.py:149-176 | a payload that has an event's keys and values, whatever else it has, parses to that event |
| TurnEvents.ParsedEventWasThere | backend/src/domain/chat/services/chat_turn_events.py:149-176 | what is parsed was in the payload: nothing missing or of another kind is made up |
| TurnEvents.OnlyForeignTagsParseToNone | backend/src/domain/chat/services/chat_turn_events.py:149-176 | a tag parses to nothing exactly when no domain event has it |
| LiveThread.ToDto | backend/src/api/v1/chat/sse.py:37-70 | an event has a frame exactly when its widget types are mapped; a done frame stands for MessageDone only and an error frame for a failed save only |
| LiveThread.FramesTellEventsIff | backend/src/api/v1/chat/sse.py:37-70 | two events share a frame exactly when they agree in all a thread is built from |
| LiveThread.WidgetsOnTheWire | backend/src/api/v1/chat/sse.py:37-70 | a widget has a frame exactly if it is of one of six types, alone or in a final message |
| LiveThread.PublishedEventArrives | backend/src/api/v1/chat/sse.py:73-89 | a reader gets each published event's own frame |
| LiveThread.UserMessageArrives | backend/src/infra/task_queue/chat_streams.py:155-179 | the user's entry, ids and title in its payload, arrives with its text and metadata |
| LiveThread.FailureTagArrives | backend/src/infra/task_queue/chat_tasks.py:84-86 | a failure tag arrives as an error with the text it was written with |
| LiveThread.BareEntriesArrive | backend/src/api/v1/chat/sse.py:73-89 | a failure tag without a text shows itself; a user's entry without a text is an error |
| LiveThread.ParseMessageParts | frontend/src/features/chat/parse-message-parts.ts:11-20 | keeps the parts the contract accepts, in order |
| LiveThread.AcceptedAreTheContracts | frontend/src/features/chat/parse-message-parts.ts:11-20 | these are every text and every widget the contract reads, with the data it reads, by position |
| LiveThread.TextIsTheFirst | frontend/src/features/chat/apply-live-event.ts:12-17 | a message's text is that of its first text part |
| LiveThread.UserMessageIsShown | frontend/src/features/chat/apply-live-event.ts:97-112 | a message not on screen yet adds the user's bubble and an empty waiting one |
| LiveThread.CapAsks | frontend/src/features/chat/apply-live-event.ts:137-143 | a cap trip leaves the partial text and the request in a bubble still being written |
| LiveThread.ErrorEndsTheBubble | frontend/src/features/chat/apply-live-event.ts:151-153 | an error ends the bubble, keeps what it shows and clears the tool |
| LiveThread.FoldsIntoLast | frontend/src/features/chat/apply-live-event.ts:55-66 | the frames of a reply change its bubble and nothing before it |
| LiveThread.TextsMerge | frontend/src/features/chat/apply-live-event.ts:47-53 | appending two deltas is appending their concatenation |
| LiveReply.SendMessage | backend/src/domain/chat/services/chat_service.py:186-308 | yields the loop's events, then the cap notice, the save warning and MessageDone as they apply; a row is written exactly when the run resolved and the database took it, behind the cap notice and before the warning, with the final text and widgets |
| LiveReply.EffectsYieldTheEvents | backend/src/domain/chat/services/chat_service.py:226-308 | wherever the row is written in between, a reader gets the reply's events |
| LiveReply.ChunksPlay | frontend/src/features/chat/apply-live-event.ts:114-123 | however a text is cut into chunks, the screen shows the aggregated text |
| LiveReply.FoldPlays | frontend/src/features/chat/apply-live-event.ts:93-157 | folding the received frames shows exactly the loop's texts and accepted widgets |
| LiveReply.RunMirrors | backend/src/domain/chat/services/tool_call_executor.py:157-199 | at every iteration the parts played so far are the collected segments, merged |
| LiveReply.ClosingLands | frontend/src/features/chat/apply-live-event.ts:137-151 | the closing events end the bubble with the final parts, or keep the partial text under a clarification |
| LiveReply.LiveMatchesFinal | frontend/src/features/chat/apply-live-event.ts:114-151 | for every run and every contract: the live parts are the final parts with adjacent texts merged and empties dropped; after a cap trip, the one text joining every content delta |
| LiveReply.WorkIsShown | frontend/src/features/chat/apply-live-event.ts:114-151 | for every run and every bubble it is streamed into: all reasoning deltas behind the bubble's own, in order, and the name of the last tool asked for, until the closing events clear it |
| LiveReply.ReplyIsItsTexts | backend/src/domain/chat/services/chat_service.py:372-380 | a reply is the model's text, or after a cap trip the partial text, a blank line and the request, without spaces at its ends |
| Prelude.TextIsStripped | backend/src/domain/chat/services/chat_service.py:379 | stripping takes all spaces off both ends and nothing else |
| LiveReply.OneBubbleIffSaved | backend/src/domain/chat/services/chat_service.py:264-280 | one bubble stands at the end exactly when the reply was saved |
| LiveReply.CompletedReloadsIff | backend/src/api/v1/chat/routers/conversation_router.py:100-110 | whatever the contract drops, a completed reply's row shows the final message's parts exactly when its text stands behind widgets only, or it has no parts of its own |
| LiveReply.CapTextIsAnother | backend/src/domain/chat/services/chat_service.py:372-380 | the text a cap trip saves is never the partial text it leaves on screen |
| LiveReply.ReloadShowsTheSameIff | frontend/src/features/chat/api/get-conversation-messages.ts:37 | for every run and every contract: a reload shows the parts of the bubble on screen exactly when the reply completed with its text behind widgets only, or with nothing at all |
| Convergence.AppliesAlike | frontend/src/features/chat/apply-live-event.ts:93-157 | the reducer never looks at metadata: threads equal up to it stay so under any frame |
| Convergence.SenderAndReloadedConverge | frontend/src/features/chat/apply-live-event.ts:97-112 | the sending window and one reloaded before the reply row end alike, whatever frames follow |
| Convergence.WatcherConvergesIff | frontend/src/features/chat/apply-live-event.ts:97-112 | a watching window ends like the sender exactly when neither echo guard fires on its thread |
| Convergence.WatcherOfEndedTurnsConverges | frontend/src/features/chat/apply-live-event.ts:145-153 | which is the case whenever it saw the previous turn end |
| Convergence.ReloadedAfterTheReplyDuplicates | backend/src/infra/task_queue/chat_streams.py:126-136 | a window loaded after the reply row and before the end of the turn shows two messages too many |
| Convergence.WindowsConverge | frontend/src/features/chat/hooks/use-chat-thread.ts:223-253 | all three, reading one slice through the codec, whether it ends in an answer, in a failure tag or not yet |
| Convergence.MistakenIffRetried | frontend/src/features/chat/apply-live-event.ts:97-112 | whatever was on screen, a turn arms an echo guard for the next text exactly if it left no trace of an end and that text is its own |
| Convergence.DeadTurnIsMistaken | frontend/src/features/chat/apply-live-event.ts:97-112 | a slice of the user's message alone does, in every thread |
| Convergence.FollowersConverge | frontend/src/features/chat/apply-live-event.ts:93-157 | two windows that follow a conversation through any number of turns show the same thread, whichever of them sent which turn, unless the first text is mistaken already or a turn repeats the text of one just before it that left no trace of an end |
| Convergence.FollowersConvergeIff | frontend/src/features/chat/apply-live-event.ts:93-157 | all such windows agree exactly then: behind such a retry, one that sent it never agrees again with one that watched it |
| PromptHistory.PairCompleteTurns | backend/src/domain/chat/services/chat_history_rebuild_service.py:66-73 | the loop collects the pairs |
| PromptHistory.TurnsNeverOverlap | backend/src/domain/chat/services/chat_history_rebuild_service.py:66-73 | every user row with its reply behind it is a turn, in log order, nothing else is, and no two share a row |
| PromptHistory.WindowToBudget | backend/src/domain/chat/services/chat_history_rebuild_service.py:50-63 | the newest-first loop keeps what dropping the oldest turns until the rest fits would keep |
| PromptHistory.WindowIsLongestFit | backend/src/domain/chat/services/chat_history_rebuild_service.py:50-63 | a whole-turn suffix fits the budget exactly when it lies in the window |
| PromptHistory.WindowFitsByMessage | backend/src/domain/chat/services/chat_history_rebuild_service.py:50-63 | the tokens of all its messages, questions and replies, are within the budget, and those of every longer whole-turn suffix are not |
| PromptHistory.RebuiltFitsByMessage | backend/src/domain/chat/services/chat_history_rebuild_service.py:40-63 | the same for the rebuilt prompt |
| PromptHistory.NewerTurnsOnlyDropTheFront | backend/src/domain/chat/services/chat_history_rebuild_service.py:6-13 | windowing the kept turns with newer ones behind them is windowing everything |
| PromptHistory.Rebuild | backend/src/domain/chat/services/chat_history_rebuild_service.py:40-48 | the rebuilt history is the window, flattened |
| PromptHistory.ConversationMemory.LoadPromptHistory | backend/src/domain/chat/services/chat_service.py:310-339 | a non-empty cache wins; otherwise the rebuild, written back unless empty, or nothing if the rebuild raises |
| PromptHistory.ConversationMemory.TakeTurn | backend/src/domain/chat/services/chat_service.py:211-301 | the log and the cache after a turn that succeeds, fails, is cut short or is not saved |
| PromptHistory.StepStaysFaithful | backend/src/domain/chat/services/chat_service.py:211-213 | success, failure and eviction keep the cache a whole-turn suffix at least as long as a rebuild, blind rebuilds included unless one did harm |
| PromptHistory.CacheRefinesLog | backend/src/domain/chat/services/chat_service.py:310-339 | over every such run the prompt is a whole-turn suffix of the completed turns; if no blind rebuild did harm it is all of them, hit or rebuilt, while they fit the budget |
| PromptHistory.InterruptedIsHarmlessIff | backend/src/domain/chat/services/chat_service.py:243-295 | cancelling between reply row and cache write is harmless for every reply exactly when there was no history |
| PromptHistory.BlindSuccessIsFaithfulIff | backend/src/domain/chat/services/chat_service.py:321-329 | a success behind a rebuild that raised is harmless exactly if the cache was not empty or the window holds that turn alone at most |
| PromptHistory.UnsavedReplyCanMislead | backend/src/domain/chat/services/chat_service.py:264-295 | from every state some rejected reply puts a turn in the prompt that the log does not have |
| PromptHistory.UnsavedReplyIsFaithfulIff | backend/src/domain/chat/services/chat_service.py:264-295 | with a prompt of the last n turns, a rejected reply does no harm exactly if the last n + 1 turns all repeat the rejected one and the window holds no more |
| PromptHistory.UnsavedReplyAlwaysMisleads | backend/src/domain/chat/services/chat_service.py:264-295 | every rejected reply does when the prompt held all completed turns |
| Ingestion.TargetTable.UpsertMany | backend/src/infra/postgres/repositories/ingestion_repository.py:21-48 | one statement, all rows against the table before it; two rows with one key are refused and nothing is written |
| Ingestion.Dedupe | backend/src/domain/ingestion/services/csv_ingestion_service.py:19-35 | distinct keys, the same keys, each with its last row |
| Ingestion.RowByRowIsTheStatement | backend/src/infra/postgres/repositories/ingestion_repository.py:31-47 | upserting rows one by one gives what one statement with the last row of each key gives |
| Ingestion.KeysAfter | backend/src/infra/postgres/repositories/ingestion_repository.py:31-47 | the keys there afterwards are those that were there and those of the rows |
| Ingestion.UpsertedCell | backend/src/infra/postgres/repositories/ingestion_repository.py:31-47 | each cell is what the last row of its key says, where that row has the column and the key is new or the column is no conflict column, and otherwise what it was |
| Ingestion.IngestingAgainChangesNothing | backend/src/domain/ingestion/services/csv_ingestion_service.py:39-59 | ingesting the same rows again leaves the table as it is |
| Ingestion.IngestRows | backend/src/domain/ingestion/services/csv_ingestion_service.py:38-59 | for every chunk size and table: row-by-row upsert of all rows, a count between distinct keys and rows; after a bad row, exactly the full chunks before it |
| SeasonStats.Aggregate | backend/src/domain/ingestion/services/season_stat_aggregation_service.py:18-49 | one group for each key, each the sum of its own appearances, all columns conserved; the first unknown game is the error |
| SeasonStats.OwnAreThePlayers | backend/src/domain/ingestion/services/season_stat_aggregation_service.py:18-49 | a group's appearances are those of its player in games of its season and competition, each as often as it occurs |
| SeasonStats.SumIsByColumn | backend/src/domain/ingestion/services/season_stat_aggregation_service.py:18-49 | its counts are their number and the sum of each column |
| SeasonStats.GroupRowSays | backend/src/domain/ingestion/services/season_stat_aggregation_service.py:18-49 | and its row has each count under its own name |
| SeasonStats.TotalsExchange | backend/src/domain/ingestion/services/season_stat_aggregation_service.py:24-49 | summing over groups is summing over rows |
| SeasonStats.Upload | backend/src/domain/ingestion/services/transfermarkt_detail_sync.py:251-260 | the chunks cover each group once, none is refused, and the table ends as if written group by group |
| TransfermarktSync.SanitizedClubFits | backend/src/domain/ingestion/services/transfermarkt_detail_sync.py:57-70 | a sanitized club cell is blank, known, or refused later, and no other cell changes |
| TransfermarktSync.SanitizedPlayerFits | backend/src/domain/ingestion/services/transfermarkt_detail_sync.py:73-84 | the same for players, and exactly which cells stop the sync |
| TransfermarktSync.DashIsMissingOnlyForClubs | backend/src/domain/ingestion/services/csv_parsers.py:15-24 | a dash passes the club sanitizer and the parser and stops the player sanitizer |
| TransfermarktSync.UpsertsKeepReferences | backend/src/infra/postgres/repositories/ingestion_repository.py:31-47 | upserting resolving rows keeps a column resolved, conflicts included |
| TransfermarktSync.IngestInto | backend/src/domain/ingestion/services/csv_ingestion_service.py:38-59 | one ingest keeps every fitting column resolved, even when it stops half-way |
| TransfermarktSync.SyncClubs | backend/src/domain/ingestion/services/transfermarkt_sync_service.py:200-224 | fresh or skipped, every known club id reads as a stored club |
| TransfermarktSync.ParsePlayerCandidates | backend/src/domain/ingestion/services/transfermarkt_sync_service.py:289-306 | one candidate for each row, or none at all if a cell cannot be read |
| TransfermarktSync.MatchesAreListed | backend/src/domain/ingestion/services/transfermarkt_sync_service.py:226-271 | whatever the matcher proposes names listed players, and no roster player twice |
| TransfermarktSync.SyncPlayers | backend/src/domain/ingestion/services/transfermarkt_sync_service.py:226-271 | the matcher's choices, then the players with their club references sanitized, then the links through the link table's own upsert; the scope sets name stored rows only |
| TransfermarktSync.SyncValuations | backend/src/domain/ingestion/services/transfermarkt_detail_sync.py:100-135 | exactly the rows of known players are ingested, references resolve |
| TransfermarktSync.SyncTransfers | backend/src/domain/ingestion/services/transfermarkt_detail_sync.py:117-133 | the same, with both clubs sanitized |
| TransfermarktSync.SyncLineups | backend/src/domain/ingestion/services/transfermarkt_detail_sync.py:152-168 | line-ups of unknown players or clubs are left out |
| TransfermarktSync.ScopeEvents | backend/src/domain/ingestion/services/transfermarkt_detail_sync.py:173-191 | the loop keeps the relevant events, sanitized, and stops at the first unreadable cell |
| TransfermarktSync.ScopedEventsFit | backend/src/domain/ingestion/services/transfermarkt_detail_sync.py:173-191 | every reference of a kept event resolves or is null |
| TransfermarktSync.SyncEvents | backend/src/domain/ingestion/services/transfermarkt_detail_sync.py:170-196 | exactly those events are ingested, references resolve |
| TransfermarktSync.SyncClubGames | backend/src/domain/ingestion/services/transfermarkt_detail_sync.py:197-211 | games of clubs in scope, opponents sanitized |
| TransfermarktSync.SyncSeasonStats | backend/src/domain/ingestion/services/transfermarkt_detail_sync.py:214-263 | reads the cells, and writes one group for each key of known players' appearances, each the sum of its own, totals conserved; fails exactly when a cell or a game cannot be read |
| TransfermarktSync.SyncPlayerScopedTables | backend/src/domain/ingestion/services/transfermarkt_detail_sync.py:100-135 | valuations, then transfers |
| TransfermarktSync.SyncMatchData | backend/src/domain/ingestion/services/transfermarkt_detail_sync.py:137-212 | line-ups, events, club games |
| TransfermarktSync.RunPipeline | backend/src/domain/ingestion/services/transfermarkt_sync_service.py:200-287 | for every source, every mix of skipped and fresh stages and wherever it stops, every reference in every table resolves or is null; on success each stage did what it promises |
| StageSelection.ValuationsAreSelected | backend/src/domain/ingestion/services/transfermarkt_detail_sync.py:117 | the rows handed on are, in order, exactly those whose player cell reads as a known player; only a cell that does not read stops the stage |
| StageSelection.TransfersAreSelected | backend/src/domain/ingestion/services/transfermarkt_detail_sync.py:117-129 | the same, each with the two club cells blanked unless they name a known club and no other cell changed |
| StageSelection.LineupsAreSelected | backend/src/domain/ingestion/services/transfermarkt_detail_sync.py:157-161 | exactly the line-ups of known players at known clubs |
| StageSelection.EventsAreSelected | backend/src/domain/ingestion/services/transfermarkt_detail_sync.py:177-187 | exactly the events that concern a known player or a club in scope, cleaned cell by cell, and exactly which events stop the stage |
| StageSelection.ClubGamesAreSelected | backend/src/domain/ingestion/services/transfermarkt_detail_sync.py:202-206 | exactly the games of clubs in scope, the opponent blanked unless known |
| StageSelection.StageHolds | backend/src/domain/ingestion/services/csv_ingestion_service.py:38-80 | after a stage every row handed on is under its key, no key is there but these and the old ones, and every cell is the last row's or the old one |
| StageSelection.PlayerScopedHolds | backend/src/domain/ingestion/services/transfermarkt_detail_sync.py:100-135 | after the player-scoped tables were synced, no player cell was unreadable and every valuation and transfer of a known player is in its table |
| StageSelection.MatchDataHolds | backend/src/domain/ingestion/services/transfermarkt_detail_sync.py:137-212 | after the match data was synced, every line-up, event and game in scope is in its table |
| StageSelection.UnreadableStops | backend/src/domain/ingestion/services/transfermarkt_detail_sync.py:117 | an unreadable cell stops a stage before it writes; otherwise only a row that does not parse does |
| StageSelection.StoppedIngestKeepsFiveHundreds | backend/src/domain/ingestion/services/csv_ingestion_service.py:38-59 | and then the full chunks of five hundred rows before it stay |
| StageSelection.ParsedCells | backend/src/domain/ingestion/services/csv_parsers.py:10-24 | a reference column is null where an optional cell is empty or a dash, else the number its cell reads as; the other columns are the format's |
| StageSelection.UnparsedCells | backend/src/domain/ingestion/services/csv_ingestion_service.py:61-80 | a row fails to parse exactly if a cell is missing or does not read |
| StageSelection.ColumnsOfPlayersAndClubs | backend/src/domain/ingestion/services/transfermarkt_detail_specs.py:150-180 | which cell each reference column of players, valuations and transfers comes from, and which may be missing |
| StageSelection.ColumnsOfMatchData | backend/src/domain/ingestion/services/transfermarkt_detail_specs.py:98-230 | the same for line-ups, events and club games |
| StageSelection.ScopeIsTheSources | backend/src/domain/ingestion/services/transfermarkt_sync_service.py:226-271 | the ids in scope are those the players' rows give, clubs only where the row names a known one |
| StageSelection.StoredScope | backend/src/domain/ingestion/services/transfermarkt_sync_service.py:226-271 | or, for a skipped stage, those its table holds |
| StageSelection.AppearancesAreSelected | backend/src/domain/ingestion/services/transfermarkt_detail_sync.py:236-249 | exactly the appearances of known players, each number from its own cell |
| StageSelection.GamesNeedTheirColumns | backend/src/domain/ingestion/services/transfermarkt_detail_sync.py:230-234 | the games can be read exactly if every row has the three columns, and then every row's id has one |
| StageSelection.GamesAreTheirLastRows | backend/src/domain/ingestion/services/transfermarkt_detail_sync.py:230-234 | a game's season and competition are those of the last row of its id |
| StageSelection.CandidatesAreTheRows | backend/src/domain/ingestion/services/transfermarkt_sync_service.py:289-306 | one candidate for each row, with the row's id and its own profile |
| IdentityMatching.MatchOne | backend/src/domain/ingestion/services/player_identity_matching_service.py:64-113 | the earliest candidate in an exact tier, else the earliest maximum of (corroborated, score) from 85 up, else none |
| IdentityMatching.ChosenIsOne | backend/src/domain/ingestion/services/player_identity_matching_service.py:64-113 | that choice is unique |
| IdentityMatching.Match | backend/src/domain/ingestion/services/player_identity_matching_service.py:51-62 | each player's choice, in roster order |
| IdentityMatching.MatchedAreSourced | backend/src/domain/ingestion/services/player_identity_matching_service.py:51-62 | candidates come from the two lists, one for each player at most |
| IdentityMatching.VerdictIsTheEvidence | backend/src/domain/ingestion/services/player_identity_matching_service.py:64-113 | each verdict from names, birth date, height and team, and nothing else |
| IdentityMatching.AutoAcceptedIff | backend/src/domain/ingestion/services/player_identity_matching_service.py:104-113 | 0.950 is reached exactly by an equal name with birth date or team, or by birth date and height together |
| IdentityMatching.ScaledIsNearest | backend/src/domain/ingestion/services/player_identity_matching_service.py:121-126 | the scaled confidence is the thousandth next to the straight line from 0.850 at 85 to 0.949 at 100 |
| IdentityMatching.ScaledStaysInItsBand | backend/src/domain/ingestion/services/player_identity_matching_service.py:121-126 | uncorroborated confidence lies in 0.850..0.949, at its ends for the floor and for 100 |
| IdentityMatching.BelowTheMaximumIff | backend/src/domain/ingestion/services/player_identity_matching_service.py:14-15 | it stays below 0.949, as documented, exactly up to a score of 85 + 2955/198 |
| IdentityMatching.ScaledIsMonotone | backend/src/domain/ingestion/services/player_identity_matching_service.py:121-126 | and never falls as the score rises, rounding included |
| IdentityMatching.AcceptedIffExactOrCorroborated | backend/src/domain/ingestion/services/player_identity_matching_service.py:104-113 | 0.950 is reached exactly by exact or corroborated matches |
| Rounding.HalfEven | backend/src/domain/ingestion/services/player_identity_matching_service.py:126 | the nearest integer, the even one at a tie |
| IdentityLinks.DedupeByRealPlayer | backend/src/infra/postgres/repositories/player_identity_link_repository.py:54-74 | one winner for each claimed real player, the earliest of its strongest claimants, in the dictionary's order |
| IdentityLinks.DedupedInOrderOfFirstClaim | backend/src/infra/postgres/repositories/player_identity_link_repository.py:54-74 | which is the order in which the real players were first claimed |
| IdentityLinks.UnratedClaimsAreWeakest | backend/src/infra/postgres/repositories/player_identity_link_repository.py:70-72 | a claim without a confidence ranks as minus one |
| IdentityLinks.EveryClaimIsSettled | backend/src/infra/postgres/repositories/player_identity_link_repository.py:54-74 | each claimed real player has a winner no claimant outranks |
| IdentityLinks.LinkTable.UpsertCandidates | backend/src/infra/postgres/repositories/player_identity_link_repository.py:237-258 | succeeds exactly when each row, in that order, finds its real player free, then rewrites, keeps and adds exactly the right links; otherwise leaves the table |
| IdentityLinks.OrderDecides | backend/src/infra/postgres/repositories/player_identity_link_repository.py:237-258 | two candidates that fail in one order and go through in the other |
| IdentityLinks.WrittenIsTheCandidate | backend/src/infra/postgres/repositories/player_identity_link_repository.py:241-255 | the written link is the candidate's, approved from 0.950 on and otherwise pending, with nobody's name on it |
| IdentityLinks.LinkTable.UpdateStatus | backend/src/infra/postgres/repositories/player_identity_link_repository.py:188-199 | status, admin, who may be missing, and mark of one link |
| IdentityLinks.LinkTable.Reassign | backend/src/infra/postgres/repositories/player_identity_link_repository.py:201-235 | the three refusals, otherwise a manual approved link |
| IdentityReview.Rematch | backend/src/domain/ingestion/services/identity_link_rematch_service.py:67-86 | always succeeds and leaves a one-to-one table whose links rest on their evidence, approved iff exact or corroborated, every chosen real player with a strongest claimant |
| IdentityReview.Decide | backend/src/domain/ingestion/services/identity_link_review_service.py:30-58 | approve and reject only what is pending, reassign anything |
| IdentityReview.DecisionIsCarriedOut | backend/src/infra/postgres/repositories/player_identity_link_repository.py:188-235 | what each decision changes of its link and what it leaves, here and elsewhere |
| IdentityReview.RefusalSaysWhy | backend/src/domain/ingestion/services/identity_link_review_service.py:30-58 | each refusal exactly for its reason, and without a change |
| IdentityReview.DecisionsKeepOneToOne | backend/src/domain/ingestion/services/identity_link_review_service.py:30-58 | any sequence of decisions keeps the table one-to-one, the players and the marks; nothing becomes pending again |
| IdentityReview.ReassignIsRefusedIff | backend/src/infra/postgres/repositories/player_identity_link_repository.py:213-226 | refused exactly when link or real player is missing or one-to-one would break |
| IdentityReview.SyncForgetsTheReview | backend/src/domain/ingestion/services/identity_link_rematch_service.py:6-13 | a sync over a reviewed link drops the decision and the name and keeps the mark |
| GroupTable.RecordAndRates | backend/src/infra/postgres/repositories/_team_comparison_side.py:133-151 | wins, draws and losses partition the matches; goals are the sums |
| GroupTable.QueryIsTheRuleIff | backend/src/infra/postgres/repositories/_team_comparison_query.py:247-303 | the SQL standing is played, 3 wins + draws and goal difference by the rule exactly when the team is never matched against itself |
| GroupTable.StandingsConserve | backend/src/infra/postgres/repositories/_team_comparison_query.py:258-303 | over all teams goal differences cancel, each group match counts twice and its points are shared once |
| PercentileRank.MidpointsConserve | backend/src/infra/postgres/repositories/_player_stat_helpers.py:78-89 | twice below plus equal, summed over a population, is its size squared |
| PercentileRank.MeanRankIsFifty | backend/src/infra/postgres/repositories/_player_stat_helpers.py:78-89 | the mean unrounded percentile is fifty |
| PercentileRank.PercentileIsTheShare | backend/src/infra/postgres/repositories/_player_stat_helpers.py:78-89 | the percentile is the whole number next to the share of members below, plus half of those level; of nobody it is zero |
| PercentileRank.PercentileIsMonotone | backend/src/infra/postgres/repositories/_player_stat_helpers.py:78-89 | the rounded percentile lies in 0..100 and never falls as the value rises |

## Left out

- Reading the last cursor and setting the flag is one step; two sends between the two commands are not modelled.
- Job retries on worker shutdown, and outages of Redis inside the failure path; a process that dies and a
  failure row the database refuses are modelled, a Redis command that fails there is not.
- Message ids in the browser thread (they only name the last message), the session copy of an in-flight
  thread, parsing of the match-selector metadata, and everything that renders.
- JSON, CSV and widget validation, name normalisation and name similarity, token counting, reading and
  writing integers: arbitrary functions, restricted only where a contract says so.
- Floating point: scores and percentiles are reals; only the final rounding is modelled.
- Ingestion.TargetTable.UpsertMany: conflict columns are taken to be not null, and columns outside the payload are not modelled.
- GroupTable.RecordAndRates: expected goals, team statistics and the rounded rates are left out.
- ToolLoop.ExecuteRun: the model and the tools are functions of the transcript; what else they depend on is not modelled.
- ChatTask.ConversationStore.FailTurn: the texts of the tag and of the failure row are left out.
- LiveReply.SendMessage: building the prompt and the match directive, touching the conversation and publishing that, and the cache write, which PromptHistory models, are left out.
- ReplyJob.GenerateReply: entries on the stream carry their turn and kind; which text they carry is LiveThread's part.
- TransfermarktSync.RunPipeline: the national-team stage and its `update_matched`, which write no reference to a club or player, are left out; the team mapping they arrive at is part of the roster.
- Conversation categorization, the sidebar, titles, ingestion-job bookkeeping, authentication and all HTTP:
  each writes one row or answers from one table, and none takes part in the chat turn, the prompt or the sync.
