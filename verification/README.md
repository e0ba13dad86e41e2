# Verified models of super-agent's protocols and codecs

super-agent is a web service in which an LLM agent answers chat messages, runs tools, keeps a task
list, streams events to a browser, remembers facts and runs scheduled jobs. Most of it moves data
between other services; this project models the parts that decide something and proves what they
guarantee.

| modules | what is modelled |
|---|---|
| `ThinkTags`, `ThinkSplitters` | the character-by-character splitter that separates an LLM's reasoning from its answer: a specification on values, and the program as a class proved to refine it |
| `ThinkTheorems`, `ThinkChunking` | conservation, exactness of the closing tag, and how far the result depends on where the stream is cut |
| `Delegation` | the executor behind `spawn_subagent`: the sub-agent's own loop and the events it pushes into the spawning session |
| `ToolGrammar`, `TurnLog`, `AgentLoop` | the message list sent to the model and one whole turn of the agent, with the model, the tools and the database as a script that may return anything and raise anywhere |
| `TodoPlan` | the TodoWrite task list, the plan events it emits and the plan the browser folds from them |
| `StreamHub`, `StreamTheorems` | delivery of server-sent events: registries, the replay buffer, and every interleaving of pushes, connections and disconnections |
| `Ustar`, `UstarWriter` | the browser's tar writer on byte arrays, and a reader written from the "ustar Interchange Format" of the pax utility in IEEE Std 1003.1-2017 |
| `CronRows`, `CronProtocol` | scheduled jobs: rows and backoff, and scanners, workers and backend requests as concurrent processes |
| `FuzzyPatch`, `FuzzyLines`, `PyText`, `JsonStrings` | the fuzzy patch tool, the Python string operations it uses, and how an error is written as JSON |
| `Delivery` | the composition of a turn with the delivery of its events |
| `HistoryPaging`, `MemoryTable`, `RankFusion`, `IsoTime`, `SandboxPool`, `Watermark` | cursor paging, memory upsert and consolidation, rank fusion, times as strings, the sandbox manager, and reverse alpha blending |

## How to read it

Where the source updates state step by step, a class or a method with loops follows it, and its
`ensures` clause ties the new state to a function of the old one; the theorems are then about that
function. The splitter's specification keeps a *ledger*: one entry for everything it did with the
text, in order. What was shown, thought, pushed and recognised is read off the ledger
(`ShownText`, `ReasonText`, `Events`, `Spell`), and `Shaped` says which entries may follow which.

`dafny verify dfyconfig.toml` checks the project.

## Where the code and what one might expect of it differ

- The closing-tag search is written case-insensitively and for both `</think>` and `</thinking>`,
  but the flush keeps only prefixes of lower-case `</think>`, so no other closer is ever recognised
  (`SearchFindsCloser`).
- Opening tags depend on chunking; `OpeningExact` gives the exact condition within one chunk, a tag
  inside one of its 21-character windows, and `OpeningDependsOnChunks` a failing input. Python's
  `IGNORECASE` also accepts U+0130 and U+0131 for `i` and U+212A for `k`; the model does too.
- Trimming can lengthen a tool result: exactly when it exceeds the limit by less than the length of
  the note (`CutLengthens`).
- A TodoWrite item whose content is not a string is stored, but its plan events are not emitted, and
  neither are those of the next write; force-completing such a list raises (`MirroredIff`,
  `NonTextGoesUnseen`, `ForceCompletes`).
- The cron guard and the creation of the run are two database calls. A job executes at most once at a
  time, and could not twice two steps later, if and only if no request is let past the guard while
  another one for the job is between the two (`ExclusiveIff`); `SharedGuardRunsTwice` is a run that executes a job twice at once.
- A run whose backend dies, or whose failure cannot be recorded, stays `running`, and the guard then
  refuses the job for ever (`OrphanArises`, `OrphanForever`).
- When handing a marked job to the queue raises, its flag stays set and it never runs again
  (`FailedDispatchSticks`, `StuckForever`).
- A turn ends by exactly one assistant's message or unrecoverable error, but its stream may look ended
  twice: a sub-agent spawned under a name that is not registered pushes an error event, marked as
  recoverable, and the turn goes on. `LooksEndedOnceIff` and `ProcessTurn` give the exact condition,
  `UnknownAgentEndsTwice` such a turn.
- The page appends a message again whenever its `message_done` event arrives, also when the event is
  replayed and the message is in the history already (`ArriveOnceIff`, `ReplayShowsTwice`).
- In an empty file a search text of blanks is found, at offset 0 and as the empty text; in any other
  file what a fuzzy strategy finds is a block of lines (`EmptyFile`, `BlankFoundInEmptyFile`).
- Paging skips messages created at the very instant of the cursor message; `JoinsOnIff` is the exact
  condition.
- The tar writer cuts a path at 99 bytes and stores `"0\0"` as the version; the reader, like tar
  programs, does not look at the version field. `RoundTrip` is an if and only if.
- The sandbox manager's handler for a missing container names a module that is not in scope, so it
  raises instead of dropping the container: exactly when a missing one comes before every running one
  (`HandlerRaisesIff`), and then again on every later request (`HandlerRaisesAgain`). No request ever
  drops a missing container (`MissingIsKept`); `OneMissingBlocks` is an input.
- Reverse blending is no inverse above the cap on alpha or below the threshold; `RestoreExactIff` is the
  exact condition. In images smaller than 80 pixels NumPy's negative indices wrap around, so pixels
  elsewhere change, or the removal fails (`RemoveWatermark`).

## Assumptions

One turn at a time is processed for each session; the route that starts turns
(`app/api/v1/messages.py:18-37`) holds no lock, and two turns of a session would share its task list
and its stream. Identifiers made by md5 are modelled by what they are made from (injective). Floats are exact reals.
The clock of the event hub is monotone. Message rows are kept in order of creation, and the runs of a
job have distinct creation times. Tar paths are given as their UTF-8 bytes, with one clock reading for
each header. Strings are compared by code point. The next regular time of a cron expression is any
later time. Docker's container ids are new. Files reach the patch tool in Python's text mode and so
hold no carriage return.

## Model

| member | source | states |
|---|---|---|
| ThinkTheorems.StreamTheorem | app/agent/agent_service.py:233-317 | for every stream of chunks: every character is in exactly one ledger entry or among at most 7 held back inside a block; each block was closed by the first `</think>` in it, an open one has met none; only blank text before an opening tag was dropped, and such text was never shown; thinking was announced once and first; outside a block nothing is pending after a chunk |
| ThinkTheorems.FinishTheorem | app/agent/agent_service.py:345-357 | after the stream nothing is pending, the ledger spells the whole output, a block left open contains no closer, and thinking has ended if and only if it began and no block was left open or an earlier one was closed |
| ThinkTheorems.FieldsArrive | app/agent/agent_service.py:240-254 | what the chunks' reasoning fields hold is in the ledger, joined in order, and nothing else is taken for it |
| ThinkTheorems.FieldsOnly | app/agent/agent_service.py:240-357 | a stream without content ends with exactly the joined fields as its reasoning and no visible text |
| ThinkTheorems.FieldComesFirst | app/agent/agent_service.py:240-254 | a chunk's field follows the reasoning so far, before anything its content adds |
| ThinkTheorems.DeltasAre | app/agent/agent_service.py:240-357 | the text deltas concatenate to the visible text and the thinking deltas to the reasoning, for any ledger |
| ThinkTheorems.EventsStartOnce | app/agent/agent_service.py:242-266 | of the pushed events at most one is a thinking start, and every thinking delta or end comes after it |
| ThinkTheorems.WatchStep | app/agent/agent_service.py:282-310 | for any tag: a buffer that holds every border of the tag sees each prefix end the text exactly when it does |
| ThinkTheorems.WatchOn | app/agent/agent_service.py:296-310 | cutting the buffer down to its longest border keeps that watch, so the incremental search misses nothing |
| ThinkTheorems.FeedReads | app/agent/agent_service.py:256-310 | one character adds exactly itself to what is booked and buffered |
| ThinkTheorems.FeedParsed | app/agent/agent_service.py:256-310 | one character keeps the grammar of the ledger and agrees with the flags |
| ThinkTags.FeedKeepsBuffer | app/agent/agent_service.py:256-310 | outside a block the buffer holds at most 20 characters and no opening tag; inside at most 7 |
| ThinkTags.OpenTagsInAnyCase | app/agent/agent_service.py:24-46 | among ASCII texts a tag of either kind, opening or closing, is matched in any case, and nothing else is |
| ThinkChunking.ThinkBlockIgnoresChunking | app/agent/agent_service.py:281-317 | however the text of a block is cut into chunks, it closes at the same character with the same reasoning and visible text, and the rest is read from there |
| ThinkChunking.ClosesThere | app/agent/agent_service.py:282-295 | a block closes at its first closing tag and its reasoning is exactly the text before it |
| ThinkChunking.StaysOpen | app/agent/agent_service.py:296-310 | until then every character goes to the block and none to the answer |
| ThinkChunking.OpeningExact | app/agent/agent_service.py:258-280 | one chunk read from an empty buffer opens a block if and only if an opening tag lies within one of its consecutive 21-character windows |
| ThinkChunking.OpeningDependsOnChunks | app/agent/agent_service.py:258-280 | whole, `<think>` opens a block; cut in two anywhere, it is shown |
| ThinkSplitters.SearchFindsOpenTag | app/agent/agent_service.py:259-268 | searching the whole buffer finds an opening tag exactly when one has just ended, and there |
| ThinkSplitters.SearchFindsCloser | app/agent/agent_service.py:46-46 | the case-insensitive search for two closers finds only a lower-case `</think>` at the end of the buffer |
| ThinkSplitters.ThinkSplitter.FeedText | app/agent/agent_service.py:258-280 | the visible-text branch refines `Feed`; accumulated texts and pushed events stay what the ledger says |
| ThinkSplitters.ThinkSplitter.KeepLength | app/agent/agent_service.py:298-303 | the loop over prefix lengths finds the longest border |
| ThinkSplitters.ThinkSplitter.FeedThought | app/agent/agent_service.py:281-310 | the think branch refines `Feed`, likewise |
| ThinkSplitters.ThinkSplitter.ProcessChunk | app/agent/agent_service.py:240-317 | one chunk refines `FeedChunk`, its reasoning field first |
| ThinkSplitters.ThinkSplitter.ReadStream | app/agent/agent_service.py:233-357 | the whole program refines `Finish` of `FeedStream`; the accumulated texts are the concatenated deltas of the pushed events, thinking starts once and first, the text of the provider's reasoning field is kept whole, and a stream without content has just that as its reasoning |
| ToolGrammar.Append | app/agent/agent_service.py:405-432 | well-formed lists (each assistant message followed at once by one result for each call, in order, and results nowhere else) can be joined |
| ToolGrammar.SplitAt | app/agent/agent_service.py:830-835 | a message that is no tool result stands between complete blocks |
| ToolGrammar.RoundWellFormed | app/agent/agent_service.py:400-432 | a tool round keeps the grammar, whatever the calls and results |
| ToolGrammar.RoundReports | app/agent/agent_service.py:400-432 | after a round come the assistant's text and calls and then, for each call in order, a message under its id with the result recorded for it: whole up to 8000 characters, else the first 8000 and the note |
| ToolGrammar.HistoryWellFormed | app/agent/agent_service.py:786-794 | the list rebuilt from any history is well formed |
| ToolGrammar.HistoryConcat | app/agent/agent_service.py:786-794 | the messages of a history are those of its parts, in order |
| ToolGrammar.HistoryOfOne | app/agent/agent_service.py:786-794 | a row becomes a message of its role and content, unless it is a tool's or an assistant's with calls |
| ToolGrammar.WithSkillWellFormed | app/agent/agent_service.py:803-835 | inserting a slash skill keeps the grammar |
| ToolGrammar.SkillBeforeCommand | app/agent/agent_service.py:803-835 | the skill's text stands right before the last user message if that starts with a slash; otherwise the list is as it was |
| ToolGrammar.ShapeDecides | app/agent/agent_service.py:593-600 | rewriting contents only keeps the grammar |
| ToolGrammar.TrimWellFormed | app/agent/agent_service.py:573-605 | trimming keeps the grammar |
| ToolGrammar.TrimIs | app/agent/agent_service.py:573-605 | up to 80000 characters nothing changes; up to 200000 every tool result but the last two, counted as a set, keeps at most 400 characters, beyond that every one but the last at most 100, with the note; no other message changes |
| ToolGrammar.CharsConcat | app/agent/agent_service.py:573-580 | the characters counted are those of the messages' contents |
| ToolGrammar.CutAtIndices | app/agent/agent_service.py:587-600 | rewriting by the list of tool indices is cutting exactly the tool messages older than the last `recent` |
| ToolGrammar.TrimmedIdempotent | app/agent/agent_service.py:573-605 | for a fixed mode trimming twice is trimming once |
| ToolGrammar.CutLengthens | app/agent/agent_service.py:595-599 | a result gets longer if and only if it exceeds the limit by less than the note's length |
| ToolGrammar.SlotsAreIndependent | app/agent/agent_service.py:319-340 | however the fragments of different calls interleave, each call is put together from its own in order, and the list reaches the largest index seen |
| ToolGrammar.CallsArrive | app/agent/agent_service.py:319-340 | each call's arguments are the pieces sent for it joined in order, and its id and name the last non-empty ones |
| AgentLoop.AgentTurn.ProcessTurn | app/agent/agent_service.py:129-569 | for any script: at most `max_plan_steps` model calls, every prompt well formed, at most one re-prompt, exactly one terminal event of its own, and a stream that looks ended once if and only if no sub-agent was spawned under an unregistered name; an answer or step-limit end leaves all todos completed, and the step-limit end comes only with a re-prompt and all passes used; the pushed plan events are exactly those the task list emitted, and with string contents and a snapshot among them they alone bring the browser to the server's list |
| TurnLog.LooksEndedOnceIff | app/agent/delegation/delegate_executor.py:37-47 | a log with one terminal event of the turn holds no other error or assistant's message if and only if all sub-agents spawned are registered |
| AgentLoop.UnknownAgentEndsTwice | app/agent/delegation/delegate_executor.py:37-47 | a turn that spawns an unregistered sub-agent and then answers `ok`: its stream holds an error event and an assistant's message |
| Delegation.NotFoundIff | app/agent/delegation/delegate_executor.py:36-159 | the error event is pushed exactly for an unregistered name; a delegation that starts ends once, and last |
| Delegation.SummaryAfterTools | app/agent/delegation/delegate_executor.py:112-131 | a text is accepted as the summary only from a pass without calls after one with calls |
| Delegation.LoopEnds | app/agent/delegation/delegate_executor.py:78-150 | the loop ends with the first pass that raises, or that calls no tool after one did, with its error or its text; if there is none, after `max_turns` passes without a text |
| Delegation.DelegationIs | app/agent/delegation/delegate_executor.py:36-168 | a start, one update a pass and an end that says whether it failed are pushed; the reply is the error, the summary, or the stock text for an empty one |
| Delegation.Delegate.FromDefinition | app/agent/delegation/delegate_executor.py:25-168 | events and reply are as specified; every list sent to the sub-agent's model obeys the tool-call grammar and goes on from the one before by the pass's calls and their results or by the reminder; there are at most `max_turns` of them |
| AgentLoop.AgentTurn.RunSubagent | app/agent/agent_service.py:901-903 | spawning pushes exactly the delegation's events and returns its reply |
| AgentLoop.AgentTurn.RunPasses | app/agent/agent_service.py:137-137 | the loop runs out only when the last pass re-prompted |
| AgentLoop.AgentTurn.OnePass | app/agent/agent_service.py:137-537 | one pass makes at most one model call; it goes on only when it has added to what it sent either a complete tool round, with passes left, whose messages tell the model what each call returned, or the one request to answer; when nothing fails a round goes on and an answer ends the turn with its text |
| AgentLoop.AgentTurn.PreFlight | app/agent/agent_service.py:138-189 | a context that fits once trimmed is sent trimmed; otherwise the pass goes on only with a rebuilt, trimmed one that fits, ends the turn at the context limit, or raises |
| AgentLoop.AgentTurn.InjectProgress | app/agent/agent_service.py:193-215 | only the system message changes, to the base prompt with the state of the task list |
| AgentLoop.AgentTurn.CallModel | app/agent/agent_service.py:216-357 | what is sent is recorded, and a complete answer pushes exactly the stream's events |
| AgentLoop.AgentTurn.BuildMessages | app/agent/agent_service.py:786-801 | the new list is the filtered history with the skill inserted, and well formed |
| AgentLoop.AgentTurn.InjectSkill | app/agent/agent_service.py:810-835 | the backward scan finds the last user message |
| AgentLoop.AgentTurn.TrimContextIfNeeded | app/agent/agent_service.py:573-605 | the in-place loop is `Trim` |
| AgentLoop.AgentTurn.ReadStream | app/agent/agent_service.py:224-357 | text and reasoning are what the splitter makes of the chunks, calls are put together from their fragments, the events pushed are `StreamEvs`; the reasoning fields are kept whole, and without content they alone are the reasoning |
| TurnLog.StreamShows | app/agent/agent_service.py:233-357 | among the events pushed while a stream is read, the splitter's are exactly those its ledger calls for, in order |
| TurnLog.TurnShowsPlan | frontend/super-agent-chatui/src/pages/ChatSessionPage.tsx:181-202 | one turn's plan events that hold a snapshot fold to the server's list from any plan |
| TurnLog.RoundHeard | app/agent/agent_service.py:400-432 | once every call of a batch is handled and the round recorded, with distinct ids each message holds its own call's result, or its error as JSON |
| TurnLog.ResultReachesModel | app/agent/agent_service.py:573-605 | in the next prompt a tool result is whole if the context is short, if it is the last one, or if it is the one before and the context not over 200000; otherwise at least its first 100 characters are there |
| TurnLog.FitsIff | app/agent/agent_service.py:140-145 | the estimate is within the limit if and only if there are at most 560003 characters |
| TurnLog.InjectedIs | app/agent/agent_service.py:193-215 | only a system message at the front changes, to the base prompt with the hint when a non-empty list is all done, else with the state of the list |
| TurnLog.AsksAgain | app/agent/agent_service.py:460-470 | the second request holds the first 800 characters of the reasoning in think tags and then the fixed question |
| TurnLog.TodoAnswered | app/agent/tools/todo_write.py:261-301 | TodoWrite answers with an error for arguments that are no JSON or hold no list, raises for no object or an unreadable level in an item that is kept, and reports success otherwise |
| TurnLog.UntaggedKeeps | app/agent/agent_service.py:475-475 | text without `<` is kept when tags are cut out |
| TurnLog.UntaggedCuts | app/agent/agent_service.py:475-475 | a tag is cut out, and a `<` that begins none is kept |
| JsonStrings.EscapedReadsBack | app/agent/agent_service.py:639-639 | an error text written as a JSON string reads back as it was, by RFC 8259 |
| AgentLoop.AgentTurn.RunSingleTool | app/agent/agent_service.py:607-622 | one call returns its reply and announces it last; TodoWrite, and nothing else, changes the task list and is answered according to its arguments, and a sub-agent pushes its own events |
| AgentLoop.AgentTurn.ExecuteToolsBatch | app/agent/agent_service.py:624-643 | after a batch every call has a result, with distinct ids its own, each announced; the list operations are those called, in order; only a raising serial tool ends the batch early |
| AgentLoop.AgentTurn.ToolRound | app/agent/agent_service.py:372-443 | all calls are announced as complete first; then, unless something raises, the messages grow by the round, in which, with distinct ids, each call's message tells what it returned or raised, up to 8000 characters |
| AgentLoop.AgentTurn.RecordRound | app/agent/agent_service.py:400-443 | the list grows by exactly the calls, one message each in order with the result recorded under the call's id, and a hint if and only if a non-empty task list is all done; it stays well formed |
| AgentLoop.AgentTurn.CompleteTodos | app/agent/agent_service.py:456-459 | all items are done and exactly the completing events are pushed; it raises if and only if something was open and a content is not a string |
| AgentLoop.AgentTurn.Answer | app/agent/agent_service.py:456-505 | asks again, with the reasoning's first 800 characters, if and only if there is reasoning without text for the first time (and completing the list did not raise); otherwise ends the turn with the text, else the reasoning without tags and outer space, else the stock reply, and all todos done |
| TodoPlan.RunMirrors | app/agent/tools/todo_write.py:124-203 | after any run of writes and force-completes over string contents, folding the emitted events from any plan gives the server's list, completed exactly when it is non-empty and all done |
| TodoPlan.EmittedMirrors | app/agent/tools/todo_write.py:145-203 | one change brings the client to the new list from any plan |
| TodoPlan.ListIsStored | app/agent/tools/todo_write.py:272-289 | the list is refused only for an unreadable level; otherwise the items that have a content and a status are stored, in order: the content given, the status if known and pending otherwise, the active form if there is one and the content otherwise, the nearest level from 1 to 3, and 1 without one |
| TodoPlan.EmittedIs | app/agent/tools/todo_write.py:145-203 | a change over strings is announced by the whole new list, created or adjusted; then each item just started or completed, once and in order, by the status of the last old item with its content; and last, if a non-empty list is all done, by the end of the plan |
| TodoPlan.HandleIs | frontend/super-agent-chatui/src/pages/ChatSessionPage.tsx:181-202 | what each event does to the page's plan: a snapshot replaces it, a step event sets the status of its step alone |
| TodoPlan.MirroredIff | app/agent/tools/todo_write.py:291-295 | a change over string contents is mirrored if and only if the old list was strings too or the client already showed it |
| TodoPlan.SuffixMirrors | frontend/super-agent-chatui/src/pages/ChatSessionPage.tsx:181-202 | any part of the log that holds its last snapshot folds to the same plan from any plan |
| TodoPlan.StepEventsChangeNothing | frontend/super-agent-chatui/src/store/message-store.ts:333-341 | the step events only repeat what the snapshot said |
| TodoPlan.NonTextGoesUnseen | app/agent/tools/todo_write.py:286-295 | a non-string content is stored but not shown and silences the next write too |
| TodoPlan.ForceCompletes | app/agent/tools/todo_write.py:124-142 | afterwards all items are done and otherwise as they were, and it raises if and only if there was something to do and a content is not a string |
| TodoPlan.TodoBoard.DiffAndEmit | app/agent/tools/todo_write.py:145-203 | the emitting loop appends exactly `Emitted`, of which `EmittedIs` says what it holds |
| TodoPlan.TodoBoard.ExecuteWithSession | app/agent/tools/todo_write.py:261-301 | it succeeds if and only if there is a list without an unreadable level; then the kept items are stored in order, each with what it was given, and the change is announced if all contents are strings; otherwise nothing changes |
| TodoPlan.TodoBoard.ForceCompleteTodos | app/agent/tools/todo_write.py:124-142 | every item is completed and otherwise as it was, which is announced if something was open and the contents are strings |
| StreamTheorems.RunTheorem | app/api/v1/stream.py:137-223 | in every state of every interleaving: the buffer is the last 200 state events of the turn, each session's active queue and each user's open queues are registered exactly, and a queue that refused no session event accepted exactly the replay and then everything pushed while it was active |
| StreamTheorems.StepInv | app/api/v1/stream.py:137-223 | each step keeps that invariant |
| StreamTheorems.InvPermits | app/api/v1/stream.py:71-86 | every registered queue exists and a replay fits into a new queue |
| StreamTheorems.OfferedOnce | app/api/v1/stream.py:193-235 | in every reachable state an event for a user is offered once to each of the user's open connections, and one for a session to its active connection, and to no other; a queue takes it last unless 500 wait |
| StreamTheorems.RecentSnoc | app/api/v1/stream.py:201-207 | buffering event by event keeps the last 200 state events since the turn began |
| StreamTheorems.OpenNew | app/api/v1/stream.py:147-155 | a new connection gets exactly the replay, which never reaches the queue's limit |
| StreamTheorems.FreshIsSuffix | app/api/v1/stream.py:76-85 | what is replayed is the suffix of the buffer that is at most 300 seconds old |
| StreamTheorems.LateCloseIsHarmless | app/api/v1/stream.py:170-174 | closing a superseded connection leaves the newer one registered |
| StreamTheorems.ReceivedNews | app/api/v1/stream.py:193-215 | what an active client was sent holds exactly the latest plan events of the session |
| StreamTheorems.ReconnectShowsPlan | frontend/super-agent-chatui/src/pages/ChatSessionPage.tsx:181-202 | end to end: such a client, once sent any snapshot, shows the server's list whatever it showed before |
| Delivery.DeliversPlan | frontend/super-agent-chatui/src/pages/ChatSessionPage.tsx:181-202 | when the session's plan events are earlier ones and then a turn's, among any other events, what an active lossless client was sent folds to the list that the operations made |
| Delivery.RunTurn | app/agent/agent_service.py:129-569 | after any turn over string contents, such a client that was sent a snapshot shows the task list as the turn left it, over any interleaving of connections |
| StreamHub.Streams.Push | app/api/v1/stream.py:193-215 | the buffers and queues become those of `PushEvent`; the event is offered to the active queue and to no other |
| StreamHub.Streams.Open | app/api/v1/stream.py:147-155 | registering and the replay loop are `Connect` |
| StreamHub.Streams.Close | app/api/v1/stream.py:169-183 | unregistering is `Disconnect` |
| StreamHub.Streams.PushUser | app/api/v1/stream.py:226-234 | each of the user's registered queues is offered the event, and no other queue changes |
| StreamHub.DeliveredInOrder | app/api/v1/stream.py:159-166 | what waits in a queue is sent in the order it came |
| StreamHub.BufferedKinds | app/api/v1/stream.py:33-52 | the kinds of events kept for replay |
| Ustar.RoundTrip | frontend/super-agent-chatui/src/utils/tar-builder.ts:43-99 | reading an archive by the standard gives back exactly its entries if and only if every path has at most 99 bytes and no NUL and every file is below 8^11 bytes |
| Ustar.ReadTar | frontend/super-agent-chatui/src/utils/tar-builder.ts:77-99 | what the reader makes of any archive the writer makes |
| Ustar.HeaderReads | frontend/super-agent-chatui/src/utils/tar-builder.ts:43-68 | each header is a valid one with the entry's size and cut path, and no end marker; it tells mode 0644, user and group 0, both named root, and the time if it fits |
| Ustar.ChecksumIsStandard | frontend/super-agent-chatui/src/utils/tar-builder.ts:56-65 | the stored checksum is the standard's for the finished header |
| Ustar.SumFits | frontend/super-agent-chatui/src/utils/tar-builder.ts:31-41 | any header's checksum fits seven octal digits |
| Ustar.OctalRoundTrip | frontend/super-agent-chatui/src/utils/tar-builder.ts:19-22 | reading a number back from its field gives it if and only if it fits |
| Ustar.PathBackIff | frontend/super-agent-chatui/src/utils/tar-builder.ts:24-29 | a path survives if and only if it has at most 99 bytes and no NUL |
| Ustar.TarLength | frontend/super-agent-chatui/src/utils/tar-builder.ts:90-91 | the length is that of headers and padded files and 1024 |
| UstarWriter.Checksum | frontend/super-agent-chatui/src/utils/tar-builder.ts:31-41 | summing and then correcting eight bytes gives the standard's sum |
| UstarWriter.BuildHeader | frontend/super-agent-chatui/src/utils/tar-builder.ts:43-68 | the filled byte array is `Header` |
| UstarWriter.PadToBlock | frontend/super-agent-chatui/src/utils/tar-builder.ts:11-17 | the padded data, or the same array when nothing is to be added |
| UstarWriter.BuildTar | frontend/super-agent-chatui/src/utils/tar-builder.ts:77-99 | the byte array built is `Tar` |
| CronProtocol.ExclusiveIff | app/api/v1/internal/cron.py:54-71 | a run keeps the guard exclusive if and only if in none of its states two requests execute one job or are two steps from it |
| CronProtocol.TwoPastTheGuard | app/api/v1/internal/cron.py:59-71 | in any state two requests of one job past the guard can both create their runs and then both execute it |
| CronProtocol.NeverTwiceAtOnce | app/api/v1/internal/cron.py:54-71 | in every run with an exclusive guard at most one run of a job is running, it is the newest, looking at 5 is looking at all, and at most one request executes the job |
| CronProtocol.StepSafe | app/api/v1/internal/cron.py:54-212 | every step of scanner, worker, queue and backend, crashes included, keeps that, and that an executing request's run is running and a request reports success only for a run recorded as one |
| CronProtocol.SetRunSafe | app/dao/cron_run_dao.py:33-71 | whatever the outcome, recording it keeps the invariant and changes the status of that one run to it |
| CronProtocol.OutcomeTheorem | app/api/v1/internal/cron.py:172-188 | in every run, with an exclusive guard or without, each run of a job has the outcome recorded last for it by its own request, and is running if there is none |
| CronProtocol.SuccessIff | app/dao/cron_run_dao.py:33-71 | a run stands as a success if and only if its request recorded one and no failure since |
| CronProtocol.ReportedAsRecorded | app/api/v1/internal/cron.py:172-179 | in every run a request that closes after success has its run recorded as a success |
| CronProtocol.GuardIs | app/api/v1/internal/cron.py:54-64 | a request passes if and only if the job is there, active and not deleted and none of its 5 newest runs is running |
| CronProtocol.RequestMoves | app/api/v1/internal/cron.py:172-212 | how a request moves on: an exception, even after success was recorded, leads to recording a failure; one after that is answered with a server error |
| CronProtocol.CloseCounts | app/api/v1/internal/cron.py:173-212 | closing an execution updates the job's row and no other and answers |
| CronProtocol.ScanMarksFirst | scheduler/celery_tasks.py:97-112 | a scan sets a job's flag before it puts a task with three retries into the queue |
| CronProtocol.TaskEnds | scheduler/celery_tasks.py:115-173 | a task clears the flag when it ends, and goes back to the queue if and only if it got a server error or no answer and has retries left |
| CronProtocol.MarkedIsHeld | scheduler/celery_tasks.py:97-173 | in every run a set flag means a scanner about to dispatch or a task that will clear it, unless a dispatch or a worker was lost since the flag was last cleared; and where one was, the flag is set |
| CronProtocol.AtMostFourAttempts | scheduler/celery_tasks.py:115-173 | in every run a task that is not redelivered is posted at most four times |
| CronProtocol.StuckForever | scheduler/celery_tasks.py:76-109 | in every run a flag left set with nothing under way stays set from then on, and no run of the job is added or changed |
| CronProtocol.OrphanArises | app/api/v1/internal/cron.py:188-191 | killing the backend during an execution, or failing to record a failure, leaves a running run that no request will finish |
| CronProtocol.OrphanForever | app/api/v1/internal/cron.py:59-71 | in every run with an exclusive guard it stays, the guard refuses the job, no run is added and nobody executes the job |
| CronProtocol.FailedDispatchSticks | scheduler/celery_tasks.py:102-112 | a run that ends so: `delay` raised after the flag was committed |
| CronProtocol.SharedGuardRunsTwice | app/api/v1/internal/cron.py:60-71 | without an exclusive guard, a run that executes a job twice at once |
| CronRows.WindowIsEnough | app/api/v1/internal/cron.py:60-64 | if only the newest run may be running, the 5 newest show it |
| CronRows.WindowCanMiss | app/api/v1/internal/cron.py:60-64 | otherwise 5 newer runs can hide it |
| CronRows.BackoffTheorem | app/dao/cron_dao.py:201-237 | after any history: runs counted, errors equal to the trailing failures, flag cleared, next due neither before the regular time nor before the delay |
| CronRows.DueAgain | app/dao/cron_dao.py:201-237 | after any history an active job is due exactly from its last regular time on, and after failures not before 30, 60, 300, 900 or 3600 seconds have passed |
| CronRows.JobTable.FindRunning | app/api/v1/internal/cron.py:60-64 | the guard's loop finds a running one among the 5 newest, which with the invariant is among all |
| CronRows.JobTable.MarkRun | app/dao/cron_dao.py:214-236 | the row becomes `AfterRun`: counted, flag cleared, errors reset or raised by one, and next due at the regular time or after the delay for that many failures, whichever is later |
| FuzzyPatch.FoundIsThere | app/agent/tools/patch_tool.py:11-29 | what is found lies at its offset in the original, up to the kind of line break |
| FuzzyPatch.FoundExactlyIff | app/agent/tools/patch_tool.py:11-29 | exactly as it stands if and only if its line breaks in the original are line feeds |
| FuzzyPatch.FoundVerbatim | app/agent/tools/patch_tool.py:11-94 | in a text whose only line break is the line feed, what is found stands at its offset word for word |
| FuzzyPatch.EmptyFile | app/agent/tools/patch_tool.py:42-94 | in an empty file exactly the search texts that normalise to nothing are found, at offset 0 |
| FuzzyPatch.BlankFoundInEmptyFile | app/agent/tools/patch_tool.py:42-66 | such a text, which no block of the file's lines contains |
| FuzzyPatch.MatchLineTheorem | app/agent/tools/patch_tool.py:42-66 | in any file that is not empty the block of lines a match begins in, normalised, contains the normalised search text |
| FuzzyPatch.FuzzyMatchTheorem | app/agent/tools/patch_tool.py:42-94 | and the offset and text returned are that block in the original; in an empty file the start and the empty text |
| FuzzyPatch.MatchCovers | app/agent/tools/patch_tool.py:55-65 | a match of n lines lies within n lines from the number of line feeds before it |
| FuzzyLines.AlignedIff | app/agent/tools/patch_tool.py:42-94 | for as many lines on both sides, containing the joined lines is being aligned line by line: equal between, the first a suffix, the last a prefix |
| FuzzyLines.LineByLine | app/agent/tools/patch_tool.py:55-94 | whatever strategy matches, the normalised lines returned are so aligned with the normalised search lines, or the file is empty and they are blank |
| FuzzyLines.TrimFindsWholeLines | app/agent/tools/patch_tool.py:56-61 | the line-trimmed strategy accepts the block if and only if it agrees with the search text in whole trimmed lines, a blank last search line apart, or the file is empty |
| FuzzyPatch.PatchReplacesBlock | app/agent/tools/patch_tool.py:148-167 | the edit replaces the found stretch, which occurs only once, and nothing else |
| FuzzyPatch.RefusedIff | app/agent/tools/patch_tool.py:148-164 | an edit is refused if and only if nothing is found or what is found occurs twice without overlapping; the count told is the largest number of such occurrences |
| FuzzyPatch.EarlierWins | app/agent/tools/patch_tool.py:11-29 | the first exact occurrence wins, then trimming, collapsing and ignoring indentation in this order, and nothing is found if and only if none finds anything |
| FuzzyPatch.FoundIff | app/agent/tools/patch_tool.py:69-94 | collapsing blanks and ignoring indentation find a text if and only if the normalised file contains the normalised text |
| FuzzyPatch.BlanksDoNotMatter | app/agent/tools/patch_tool.py:32-39 | a run of blanks of any length in the search text or in the file is found like a single space |
| FuzzyPatch.NothingToCollapse | app/agent/tools/patch_tool.py:36-37 | text without tabs and without two spaces in a row is left as it is |
| PyText.CountIsMost | app/agent/tools/patch_tool.py:156-157 | `str.count` is the largest number of occurrences that do not overlap, and over 1 if and only if there are two such |
| PyText.SplitFirst | app/agent/tools/patch_tool.py:32-39 | `str.splitlines` ends a line at the first break, a carriage return and a line feed being one |
| PyText.StripIs | app/agent/tools/patch_tool.py:32-39 | `str.strip` takes the space off both ends and nothing else |
| FuzzyPatch.ExactPatchUndone | app/agent/tools/patch_tool.py:158-167 | an exact edit is undone by the opposite one if and only if the new text occurs in the result first where it was put, and not a second time apart from that |
| HistoryPaging.PagingTheorem | app/dao/message_dao.py:42-67 | with distinct times, in every interleaving with new messages, the client shows a contiguous run, 50 more for each load, and below it whatever was appended live; complete exactly when no more is offered |
| HistoryPaging.ShownOnce | frontend/super-agent-chatui/src/pages/ChatSessionPage.tsx:203-229 | when each message told live is a new one and told once, the list holds no message twice |
| HistoryPaging.ArriveOnceIff | frontend/super-agent-chatui/src/store/message-store.ts:103-109 | appending keeps the list free of duplicates if and only if the messages appended are distinct and not in it |
| HistoryPaging.ReplayShowsTwice | frontend/super-agent-chatui/src/store/message-store.ts:103-109 | a message in the history whose event is replayed is shown twice |
| HistoryPaging.JoinsOnIff | app/dao/message_dao.py:55-60 | with equal times a page joins on if and only if the oldest message shown is newer than the one before it |
| HistoryPaging.MoreShows | frontend/super-agent-chatui/src/pages/ChatSessionPage.tsx:85-110 | one load extends the run by up to 50 |
| HistoryPaging.HistoryQuery.Fetch | app/dao/message_dao.py:49-67 | fetching one too many, newest first, and reversing gives the latest eligible messages, oldest first |
| MemoryTable.RunWorthy | app/agent/memory_distiller.py:112-125 | no run of distilling, storing, deleting and consolidating leaves a live memory below 0.5 or two with one key |
| MemoryTable.FilteredIs | app/agent/memory_distiller.py:112-125 | exactly the facts of at least 0.5 are kept, in order, with an importance over 1 taken as 1 |
| MemoryTable.StoreIs | app/dao/memory_dao.py:39-79 | storing puts the value under the key and keeps importance and kind, or adds a long-term row of 0.5; other keys are untouched |
| MemoryTable.DeleteIs | app/dao/memory_dao.py:81-95 | deleting leaves nothing under the key; other keys are untouched |
| MemoryTable.ConsolidationIs | app/dao/memory_dao.py:228-261 | in any table exactly the live short-term rows of at least 0.7 become long-term and those below 0.5 are deleted, and the counts are the numbers of these |
| MemoryTable.ConsolidationTheorem | app/dao/memory_dao.py:228-261 | on such memories consolidation discards none, leaves short-term ones only in [0.5, 0.7), and is idempotent |
| MemoryTable.BatchTheorem | app/dao/memory_dao.py:177-209 | after a batch each key holds the last fact of maximal importance, the existing row counting first; other keys are untouched |
| MemoryTable.OverwritesAre | app/dao/memory_dao.py:187-195 | the count of overwriting facts is the number of those that find a live row of their key with no higher importance |
| MemoryTable.MemoryDao.UpsertFromDistillation | app/dao/memory_dao.py:165-226 | the loop is the batch; it counts the rows added and the facts that overwrote one |
| MemoryTable.MemoryDao.ConsolidateToLongTerm | app/dao/memory_dao.py:228-276 | the two passes are one consolidation of each row; it counts the promoted and the deleted ones |
| RankFusion.Merger.Merge | app/db/elasticsearch.py:201-229 | distinct found documents with their fused scores, best first, as many as asked for or there are, and none left out scores higher |
| RankFusion.BothBeatsOne | app/db/elasticsearch.py:157-217 | with at most 60 hits a search, found by both outranks found by one |
| RankFusion.ScoreIs | app/db/elasticsearch.py:201-217 | a document's score is what both rankings give it, 1/61, 1/62 and so on by its place, and nothing where it is not found or the search failed |
| RankFusion.BetterRankWins | app/db/elasticsearch.py:201-217 | a document found by one search only gets 1/61, 1/62 and so on by its rank, so the better ranked of two such outranks the other |
| RankFusion.TwentyIsSharp | app/db/elasticsearch.py:157-158 | with 63 it does not |
| IsoTime.StringOrderIsTimeOrder | app/dao/cron_dao.py:180-188 | for all valid times, with or without a fraction, with `+08:00` or no offset: string order is time order, and equal strings are equal times |
| IsoTime.DueBy | app/dao/cron_dao.py:180-188 | a job is selected by its string exactly when its time has come |
| SandboxPool.RunGood | app/agent/docker_sandbox.py:20-104 | in every run each listed container belongs to one user, is listed once and has a time, and nobody exceeds the cap |
| SandboxPool.CleanupExact | app/agent/docker_sandbox.py:86-104 | after a cleanup exactly the containers used in the last given minutes, or the configured ones for none given, remain, in both maps |
| SandboxPool.HandedOutIsOwn | app/agent/docker_sandbox.py:35-76 | the container handed out is a running one of the user's or a new one nobody has, with its time set |
| SandboxPool.RequestIs | app/agent/docker_sandbox.py:35-76 | without Docker nothing happens; the first running container is handed out and marked as used; the pool refuses if and only if no container runs or is missing and it is full before and after a cleanup, and the user's cap if and only if the list left then is full; a new container comes last on the list |
| SandboxPool.FullPoolIsCleaned | app/agent/docker_sandbox.py:50-56 | such a request to a full pool forgets exactly what was not used in the last idle-timeout minutes, and to any other nothing |
| SandboxPool.ExecuteMarks | app/agent/docker_sandbox.py:78-84 | running code marks a container Docker knows as used and changes nothing else |
| SandboxPool.CleanupKeepsOrder | app/agent/docker_sandbox.py:86-104 | a cleanup does nothing without a client, and otherwise takes what was not used since the cutoff out of each list |
| SandboxPool.MinusConcat | app/agent/docker_sandbox.py:100-104 | the containers that stay on a list keep their order |
| SandboxPool.StoppedContainersBlock | app/agent/docker_sandbox.py:39-61 | in a pool with room, a user is refused if and only if the list is full and holds only stopped containers |
| SandboxPool.HandlerRaisesIff | app/agent/docker_sandbox.py:41-48 | the handler raises if and only if the client is there and a missing container comes before every running one |
| SandboxPool.HandlerRaisesAgain | app/agent/docker_sandbox.py:41-48 | such a request changes nothing but the client, and raises again at any later time for as long as Docker knows the same containers |
| SandboxPool.MissingIsKept | app/agent/docker_sandbox.py:47-48 | no request takes a missing container off its user's list |
| SandboxPool.OneMissingBlocks | app/agent/docker_sandbox.py:47-48 | a user whose only container is gone is refused by the handler although there is room |
| SandboxPool.SandboxManager.GetSandbox | app/agent/docker_sandbox.py:35-76 | the method is `GetOrCreate` |
| SandboxPool.SandboxManager.ExecuteCode | app/agent/docker_sandbox.py:78-84 | the method is `Execute`: only a container Docker knows is marked as used |
| SandboxPool.SandboxManager.CleanupIdle | app/agent/docker_sandbox.py:86-104 | the nested loops that remove while iterating over a copy are `Cleaned` |
| Watermark.RestoreUndoesBlend | sys-infra/skills/ppt-master/scripts/gemini_watermark_remover.py:128-140 | reverse blending is off by at most err / (1 - alpha), truncation adds less than 1, and the value is a colour |
| Watermark.RestoreExactIff | sys-infra/skills/ppt-master/scripts/gemini_watermark_remover.py:128-138 | for every alpha from 0 to 1 it is an exact inverse if and only if alpha is 0, or between threshold and cap, or the pixel was white |
| Watermark.CoveredPixelIsLost | sys-infra/skills/ppt-master/scripts/gemini_watermark_remover.py:131-132 | for every alpha above the cap a pixel that is not white comes back too light, and white when fully covered |
| Watermark.FaintPixelStaysMarked | sys-infra/skills/ppt-master/scripts/gemini_watermark_remover.py:128-130 | for every alpha below the threshold but 0 it stays as marked, which is too light |
| Watermark.LogoInside | sys-infra/skills/ppt-master/scripts/gemini_watermark_remover.py:51-93 | the logo lies in the image if and only if it is at least 80 by 80 |
| Watermark.LogoIs | sys-infra/skills/ppt-master/scripts/gemini_watermark_remover.py:51-93 | the logo has 96 pixels and a margin of 64 in images over 1024 both ways, and 48 and 32 in any other |
| Watermark.RemoveWatermark | sys-infra/skills/ppt-master/scripts/gemini_watermark_remover.py:111-140 | for images of any size: it fails if and only if the logo marks a position without an index; otherwise each pixel is restored in place once for every index that stands for it, negative ones included, in order |
| Watermark.InsideOnce | sys-infra/skills/ppt-master/scripts/gemini_watermark_remover.py:126-138 | in an image that holds the logo that is once for each pixel under it, and never for any other |

## Left out

- StreamTheorems.RunTheorem: says nothing about which events a queue keeps once it is full and has refused one, because the source only logs that.
- CronProtocol.NeverTwiceAtOnce: assumes `Exclusive`, which the source does not enforce; `ExclusiveIff` is the exact condition, counting states two steps from a double execution.
- CronProtocol.OrphanForever: assumes `Exclusive` too, since without it another request past the guard may add a run.
- RankFusion.BothBeatsOne: takes rankings without duplicates, as Elasticsearch returns them.
- AgentLoop.AgentTurn.RunConcurrent: runs read-only tools in list order; their results are recorded in that order in the source too, but their events, a sub-agent's among them, may interleave.
- Cancellation of a turn, and exceptions before `stream_start` or inside the distillation after the answer, which the source catches and logs.
- The summary row that a delegation adds to the session's history; the rows of a history are arbitrary.
- Contents of tool events, token counts, database ids and log texts.
- How a slash skill's name is matched, how the system prompt is put together, and how the database compresses a context.
- Several sessions' task lists: one session's entry is modelled. The browser's emptying of its plan on reconnect is covered by folding from any plan.
- The notification stream, which registers a queue for a user only.
- Memory rows added by `POST /memory`, which does not keep keys unique, and the Elasticsearch copy of the memories.
- MySQL's rounding of FLOAT and parsing of dates in the scanner's query; the scanner compares instants.
- A database call in the backend that commits and then raises, other than the update of the job's row.
- Resetting a flag by other means than the protocol's own steps, and edits that change it.
- Containers that cannot be stopped, which the manager forgets all the same.
- The MCP tool registry, command filters and path guards, parsers for YAML, JSON and cron expressions, authentication, settings, and the user interface other than the plan and paging handlers.
