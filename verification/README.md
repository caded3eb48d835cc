# Paloma host core: a verified model

Paloma's host process talks to provider and extension plugins over length-delimited frames, runs the model loop of each
session, asks the user before commands run, and renders tool results as XML for the model. This project models the parts
of that core whose correctness depends on loops, interleavings or stored state, and proves what they promise.

| file | what it models |
|---|---|
| `Utf8.dfy`, `Xml.dfy`, `ToolOutput.dfy` | UTF-8 boundaries, the XML printer with a reader that undoes it, and the tool output pipeline: two explicit stacks, byte budgets, truncation and spill files |
| `Transport.dfy` | the varint-delimited codec over a mutable buffer |
| `Multiplexer.dfy`, `Deliveries.dfy` | concurrent requesters, the reader task and its end-of-file path, sharing a route table and a health flag, as interleaved steps; what reaches the callers over whole runs |
| `Sessions.dfy`, `SessionRuns.dfy`, `SessionReplays.dfy` | the session actor, what holds over all its runs, and what subscribers are shown, live and replayed |
| `Turns.dfy` | draining a chat stream, deciding whether a turn goes on, recording tool results |
| `Refresh.dfy` | the stale-while-revalidate slot |
| `Permissions.dfy`, `PermissionWorkflow.dfy`, `PermissionRuns.dfy` | classification of commands, the permission workflow, and its runs up to the tool that waits |
| `Cancellation.dfy`, `WebFetchService.dfy` | one specification of session cancellation, met by the shared tokens of the Rust extension base and by the interleaved Go service |
| `Histories.dfy` | attachments stored beside history rows and folded back |
| `ToolNames.dfy` | encoded tool names |

Code that changes state step by step is a class or a method whose contract gives the new state as a function of the old
one; the theorems are about those functions, over every input or every run. Concurrent parts are state machines whose
steps are single atomic actions of the source.

Some properties the design suggests hold only under a condition. The code is modelled as it is, the condition is proved
exact, and a reachable state or a concrete run shows the failure:

- After the plugin has exited and the table is cleared, a chat that then loads the health flag can come to wait for ever
  just when the flag does not read Unhealthy, the writer accepts, and its stream is registered with nothing on it; as long
  as no write has failed the flag reads so just when a handshake's `Running` was stored late (`Multiplexer.StrandsIff`,
  `FlagStaysDown`, `LateRunningReachable`).
- A step neither tells the session nor goes on just when its stream closes with neither a terminal event nor a tool call
  (`Turns.ToldOrContinued`, `SilentCloseLeavesRunning`).
- A replay leaves its held subscriber behind just when the history read fails and there was something to tell
  (`SessionRuns.CaughtUpIff`, `FailedReplayMisses`).
- A replay tells a tool or a prompt in its place just when no text was pending as it was stored; otherwise it tells it before
  that text (`SessionReplays.OrderKeptIff`, `OutOfOrderReachable`).
- A background refresh overwrites a newer value just when the number of values published since is a multiple of 2^64
  (`Refresh.OverwritesIffWrapped`, `WrapReached`).
- Saving an exact rule takes commands away just when it replaces a glob rule that no other glob rule backs; the rules the
  user is offered never do (`Permissions.ExactNarrowsIff`, `GlobOnlyWidens`, `PermissionRuns.ExactRuleNarrows`).
- In the Go service a new invocation stays within reach of later cancels, while its key is not repeated, just when no
  worker still in the table holds its session and event id as it is read. Reading a held key puts the new worker out of
  reach, and the holder too unless it was signalled or has answered (`WebFetchService.KeyFreeIff`, `HolderReachedIff`,
  `SharedKeyStrands`). What is read for other keys does not matter.

## Model

| member | source | states |
|---|---|---|
| `Utf8.FittingIsLongest` | core/src/extension/connection.rs:416-421 | the prefix found has whole characters, fits the limit, and every fitting prefix is no longer |
| `Utf8.BoundaryIffPrefix` | core/src/extension/connection.rs:418-421 | a byte position is a character boundary just when it ends a prefix of characters, so slicing there is defined (section 3 of RFC 3629) |
| `Utf8.FloorCharBoundary` | core/src/extension/connection.rs:418-421 | stepping back from the budget to a boundary lands on the longest fitting prefix |
| `Utf8.CharReads` | core/src/extension/connection.rs:416-421 | the bytes of a character read back to it by the table of section 3 of RFC 3629, in the shortest form, so byte budgets count what a text takes |
| `Utf8.DecimalReads` | core/src/extension/connection.rs:416-424 | the digits written for a length or a part number are that number, without leading zeros |
| `ToolOutput.TotalTextBytes` | core/src/extension/connection.rs:361-371 | the stack-based total, which visits children in no particular order, is the recursive sum over the tree |
| `ToolOutput.CollectNodes` | core/src/extension/connection.rs:379-385 | the first stack lists every node once, in pre-order, children left to right |
| `ToolOutput.FrontierStep` | core/src/extension/connection.rs:381-395 | after any number of pre-order visits, what remains of the list is the pre-order of the unfinished trees, each visited one replaced by its children; why the reverse sweep finds a node's children on top |
| `ToolOutput.SweepNode` | core/src/extension/connection.rs:391-394 | one step of the reverse sweep takes exactly the node's children off `built` and leaves the rest denoting the remaining trees |
| `ToolOutput.ToolContentToElement` | core/src/extension/connection.rs:373-396 | for every tree the two-stack build denotes the recursive rendering, and those documents represent the tree node by node (`AllRepresent`); `split_off` never underflows, the cut texts are parts 0, 1, 2, ... with the last text first, and the files left are exactly the parts that could be written |
| `ToolOutput.BuildElement` | core/src/extension/connection.rs:398-438 | one node: attributes in order, children reversed back, and a body cut and annotated just when it is over budget, with a file only if it could be written; `NodeRepresents` says what that document holds |
| `ToolOutput.NodeRepresents` | core/src/extension/connection.rs:398-438 | what the document of a node says, without naming how it is built: its tag and attributes in order; a text within budget whole; a longer one as the longest fitting prefix and `...`, with attributes that read back as its byte length, `truncated`, and the path of a file with the whole text; binary content and no children as no content |
| `ToolOutput.ForestRepresents` | core/src/extension/connection.rs:373-438 | the same for every node of every forest, whatever the part counter starts from, with each cut text pointing to its own part |
| `ToolOutput.UncutReadsBack` | core/src/extension/connection.rs:373-438 | when nothing is cut the documents read back as the trees: tags, attributes, texts and children, in order |
| `ToolOutput.SpillOf` | core/src/extension/connection.rs:416-417 | every part that could be written is on disk under its name with its whole text |
| `ToolOutput.PartsCounted` | core/src/extension/connection.rs:389-416 | the part counter advances by one for each text cut short and for nothing else |
| `ToolOutput.SpillPart` | core/src/utils/spill.rs:7-33 | every spill file is one of the parts, at the path the model is given, and holds the whole text |
| `ToolOutput.SpillNamesDistinct` | core/src/extension/connection.rs:416-417 | no two spill files of one result share a name |
| `ToolOutput.TruncatedIffAboveFloor` | core/src/extension/connection.rs:411-415 | in a result over the cap a text is cut just when it is longer than the floor |
| `ToolOutput.BudgetExact` | core/src/extension/connection.rs:411-413 | the budget of a text is the larger of 1024 bytes and its share of 51200, rounded down |
| `ToolOutput.TextBytesIsSum` | core/src/extension/connection.rs:361-371 | the total is the bytes of all the texts of the tree, each once |
| `ToolOutput.KeptIsLongest` | core/src/extension/connection.rs:411-428 | the part kept is the longest prefix of whole characters within its budget |
| `ToolOutput.KeptIsProportional` | core/src/extension/connection.rs:411-413 | summed over any forest, what is kept beyond the floors is at most the forest's share of the cap, in spite of the rounding of each division |
| `ToolOutput.KeptWithinCap` | core/src/extension/connection.rs:345-359 | a result over the cap keeps at most the cap plus one floor for each text node |
| `ToolOutput.ForestClean` | core/src/extension/connection.rs:406-438 | a tree whose tags and attribute keys are free of markup is rendered to a document the reader below can read |
| `ToolOutput.AugmentToolResponse` | core/src/extension/connection.rs:345-359 | the whole pipeline: the text shown to the model reads as a document that represents the tree, every text whole or cut and annotated as its budget says; within the cap it reads back as the tree itself and nothing is written; the files left hold the cut texts that could be written |
| `Xml.EscapeAttrLoop` | utils/src/xml.rs:117-128 | the escaping loop computes the character-wise escape |
| `Xml.AttrUnescapes` | utils/src/xml.rs:117-128 | an escaped value has no `<` or `"` and unescapes to the original, for every string |
| `Xml.CdataReads` | utils/src/xml.rs:94-100 | the CDATA sections of any text, read per section 2.7 of XML 1.0, concatenate to the text, runs of `]` and a trailing `]` or `]]` included |
| `Xml.AttrBuilt` | utils/src/xml.rs:27-31 | adding an attribute to an element adds exactly that attribute to the document it denotes |
| `Xml.BodyBuilt` | utils/src/xml.rs:19-53 | the body builders replace the content; empty plain text is no content |
| `Xml.ChildBuilt` | utils/src/xml.rs:55-61 | adding a child appends to the children, or replaces another kind of body |
| `Xml.ReadWritten` | utils/src/xml.rs:70-115 | printing then reading is the identity on every document built through the builders with clean names, whatever follows it |
| `Xml.PrintingIsFaithful` | utils/src/xml.rs:70-115 | two elements that print alike denote the same document |
| `Transport.DecodeFrame` | utils/src/transport.rs:33-69 | one call of `decode`: the frame, the wait or the error, and the bytes left, the ten-byte limit and the 64-bit overflow of the prefix included |
| `Transport.EncodeFrame` | utils/src/transport.rs:75-81 | `encode` appends the varint of the length and the payload, and changes nothing before them |
| `Transport.VarintReads` | utils/src/transport.rs:75-81 | the varint written for a length has that value (Protocol Buffers Encoding, section "Base 128 Varints") |
| `Transport.VarintLength` | utils/src/transport.rs:36-52 | lengths of at most 64 bits take at most ten bytes, the tenth 0 or 1, so what is encoded passes the decoder's checks |
| `Transport.WireDecodes` | utils/src/transport.rs:33-81 | an encoded frame is decoded to its payload whatever follows, leaving exactly what follows |
| `Transport.DecodeStable` | utils/src/transport.rs:33-69 | bytes that arrive later change neither a decoded frame nor a reported error |
| `Transport.FrameIff` | utils/src/transport.rs:33-69 | a call returns a frame just when the buffer is a length prefix of at most ten bytes whose value fits 64 bits, that many bytes, and what is left |
| `Transport.WaitsIff` | utils/src/transport.rs:33-69 | a call waits just when there is no frame yet but more bytes could complete one, and reports corruption just when no bytes ever could |
| `Transport.ChunkingIrrelevant` | utils/src/transport.rs:33-69 | for arbitrary bytes the frames and the error point do not depend on how the bytes are split into reads |
| `Transport.StreamRoundTrip` | utils/src/transport.rs:33-81 | concatenated encodings, cut into reads anywhere, come out whole and in order with an empty buffer left |
| `Multiplexer.StepKeeps` | core/src/provider/connection.rs:103-145 | every atomic step of any caller, of the reader, of its end-of-file path or of a forwarded event keeps the invariant |
| `Multiplexer.AtMostOneTerminal` | core/src/provider/connection.rs:457-523 | in every interleaving each chat stream gets at most one Done or Error and nothing after it |
| `Multiplexer.RepliesReachTheirCaller` | core/src/provider/connection.rs:182-218 | a caller gets at most one reply, only to the event id it allocated, and no two callers share one |
| `Deliveries.StreamDelivered` | core/src/provider/connection.rs:457-523 | over every run what is on a stream is every chat event read while it was registered, in the order read, but for one still being forwarded, and then at most one Error of the reader's own, for a provider error read while it was registered or for the exit |
| `Deliveries.CallAnswered` | core/src/provider/connection.rs:182-218 | over every run a caller has its reply just when a reply or provider error was read for its id while it was registered, and is registered from its insert until the reader or itself removes the route, which has happened once it has its reply or has returned |
| `Deliveries.RouteTakenAway` | core/src/provider/connection.rs:464-509 | a frame that is no chat event leaves no route under its id, no stream with its terminal event is registered while the reader reads, and a caller that gave up leaves none |
| `Deliveries.HealthTells` | core/src/provider/connection.rs:222-243 | over every run the flag tells the last of: handshake completed, write failed, end of file |
| `Multiplexer.ClearedTableHoldsNobody` | core/src/provider/connection.rs:126-144 | once the table is cleared no caller that passed its health check is registered, and each stream that was accepted and registered at exit has ended, with one Error or earlier; insert-then-check meets store-then-clear |
| `Multiplexer.FlagStaysDown` | core/src/provider/connection.rs:222-243 | after end of file, as long as no write has failed, the flag reads anything but Unhealthy just when a handshake's Running was stored late; without that it stays down |
| `Multiplexer.StrandsIff` | core/src/provider/connection.rs:416-441 | after the table was cleared, a chat at its flag load, whatever was interleaved before it, can come to wait for ever, registered and never sent anything, just when the flag does not read Unhealthy, the writer accepts, and its stream is registered with nothing on it |
| `Multiplexer.StrandedStays` | core/src/provider/connection.rs:126-145 | a caller accepted and registered after the table was cleared stays so, with nothing sent to it, in every continuation |
| `Multiplexer.RefusedStays` | core/src/provider/connection.rs:421-433 | a caller that failed its health check, or passed it with the writer gone, is never accepted |
| `Multiplexer.LateRunningReachable` | core/src/provider/connection.rs:236-240 | from the start a state is reached in which a chat about to load the flag can come to wait for ever |
| `Sessions.SessionManager.AddEvent` | core/src/session/session_manager.rs:221-284 | what one event does to history, buffer, state and subscriber, on every path, and when it is refused; no other session changes |
| `Sessions.SessionManager.CancelEvent` | core/src/session/session_manager.rs:295-310 | a cancel ends a running session, tells its open subscriber once and empties buffer and slot |
| `Sessions.SessionManager.RestoreSession` | core/src/session/session_manager.rs:333-431 | the loops that replay history and buffer send exactly the rendered history, then the rendered deltas or the end, and leave the slot as the state demands; `SessionReplays.ReplayTells` says what that shows |
| `Sessions.SessionManager.SubscribeTo` | core/src/session/session_manager.rs:433-448 | a new subscriber replaces the old one, held or open |
| `Sessions.SessionManager.EnsureSession` | core/src/session/session_manager.rs:197-219 | a session is created once; an existing one is untouched |
| `Sessions.SessionManager.CleanUpSession` | core/src/session/session_manager.rs:315-331 | clean-up changes that session's history, and removes it when nothing is left |
| `Sessions.UpdateLoop` | core/src/session/session_manager.rs:697-732 | the update of buffer and state for each event |
| `Sessions.Retain` | core/src/session/session_manager.rs:699-715 | storing a message drops exactly the text deltas, storing reasoning exactly the reasoning deltas |
| `SessionRuns.StepKeeps` | core/src/session/session_manager.rs:139-195 | every operation, whatever messages are stored, keeps the invariant: deltas only while running, one end per subscriber, nothing heard while held |
| `SessionRuns.FaithfulStepKeeps` | core/src/session/session_manager.rs:221-284 | when stored messages repeat what was streamed, stored and buffered text make up the streamed text, and a subscriber that caught up has exactly it |
| `SessionRuns.AtMostOneEnd` | core/src/session/session_manager.rs:231-274 | over every run each subscriber, held or open, gets at most one Done, Error or Cancel, nothing after it, and is then out of the slot |
| `SessionRuns.BufferedMeansRunning` | core/src/session/session_manager.rs:697-732 | a non-empty delta buffer implies a running session |
| `SessionRuns.WithoutText` | core/src/session/session_manager.rs:699-715 | replacing deltas by the stored item removes exactly their text |
| `SessionRuns.ReplayIsLive` | core/src/session/session_manager.rs:333-431 | at every reachable running state the text a replay sends for the current run is the text streamed since it began |
| `SessionRuns.NoGapNoDuplicate` | core/src/session/session_manager.rs:333-448 | a subscriber held at any moment and replayed later has, as long as it stays attached and whatever happens between and after, the earlier stored text and then exactly the streamed text; up to the replay stored messages repeat what was streamed |
| `SessionRuns.CaughtUpIff` | core/src/session/session_manager.rs:333-345 | right after the replay it has all the text just when the history was read or there was none |
| `SessionRuns.ReplayAdds` | core/src/session/session_manager.rs:333-431 | a replay, to a held or an open slot, adds all the text so far to what the subscriber has, so it has exactly that text just when it had none before |
| `SessionRuns.FailedReplayMisses` | core/src/session/session_manager.rs:339-345 | a reachable state in which a failed read leaves an open subscriber without the text so far |
| `SessionRuns.AttachedThroughout` | core/src/session/session_manager.rs:221-284 | over every run an open subscriber receives exactly the streamed text, whatever messages are stored |
| `SessionReplays.ReplayTells` | core/src/session/session_manager.rs:333-431 | in every run a replay tells the subscriber the stored history, each prompt with its words, each message and each tool that can be shown, in order, then the buffered text and reasoning of a running session, or Done and it is let go; nobody else is told anything |
| `SessionReplays.EventTells` | core/src/session/session_manager.rs:452-517 | in every run an accepted event tells an open subscriber exactly its text, prompt or tool, its reasoning, or the end it is (Done, or Error with its message), and a held one or anybody else nothing |
| `SessionReplays.StopTells` | core/src/session/session_manager.rs:295-310 | stopping a running session tells an open subscriber Cancel, once, and leaves a held one in the slot with nothing told |
| `SessionReplays.EventStored` | core/src/session/session_manager.rs:221-256 | a running session takes every event, any other only a prompt, if what it stores could be stored; a prompt and a finished item are then the last of the history and nothing else is stored |
| `SessionReplays.TurnCleanedUp` | core/src/session/session_manager.rs:278-331 | the end of a turn leaves the session finished, errored or cancelled, and a failed or cancelled one has the history storage rewrote, or is gone when that came out empty |
| `SessionReplays.AttachStarts` | core/src/session/session_manager.rs:433-448 | a new subscriber takes the slot, held or open, with nothing told, and the run goes on |
| `SessionReplays.StoredIsShown` | core/src/session/session_manager.rs:333-431 | when tools and prompts are stored with no text pending, a replay of the current run tells what was shown of it, prompts, text and tools in the same order, and the buffered reasoning is what was shown since some was last stored |
| `SessionReplays.OrderKeptIff` | core/src/session/session_manager.rs:333-431 | storing a tool or prompt keeps that order just when nothing of it is shown or no text is pending |
| `SessionReplays.OutOfOrderReachable` | core/src/session/session_manager.rs:333-431 | a run of four events after which a replay tells a tool before text that was shown before it |
| `SessionReplays.NothingMissed` | core/src/session/session_manager.rs:333-448 | over such runs a subscriber held and replayed is told the history before the run, what was shown of the run so far, its reasoning not yet stored, and then, while attached, everything shown live |
| `SessionReplays.AttachedIsTold` | core/src/session/session_manager.rs:221-284 | over every run whoever is in the open slot was told exactly the prompts, text, tools and reasoning of the accepted events, in order |
| `SessionReplays.JoinedLines` | core/src/session/session_manager.rs:365-374 | the parts of a message are joined by single newlines, wherever the list is cut |
| `Turns.ExhaustEvents` | core/src/session/turn_manager.rs:484-568 | the drain loop returns the tool calls and the events of the stream up to its first terminal event, holding a Done back while calls are outstanding |
| `Turns.RunStep` | core/src/session/turn_manager.rs:407-439 | what a step forwards and what it schedules next |
| `Turns.ScheduledExactly` | core/src/session/turn_manager.rs:428-435 | by positions of the stream: a step goes on just when a tool was called before the end and that was no error, and schedules every such call in order, name and arguments included |
| `Turns.ForwardedExactly` | core/src/session/turn_manager.rs:484-568 | by positions of the stream: every payload up to the end is told to the session in order and with its contents, only a Done after tool calls is not |
| `Turns.StepTells` | core/src/session/turn_manager.rs:547-567 | a step tells the session of the end at most once, as its last event, just when its stream has a terminal event and nothing is left to run |
| `Turns.ToldOrContinued` | core/src/session/turn_manager.rs:407-439 | never both told and continued; one of them just when the stream has a terminal event or a tool call |
| `Turns.SilentCloseLeavesRunning` | core/src/session/turn_manager.rs:491-568 | a stream that just closes does neither |
| `Turns.SessionStopsWhenTold` | core/src/session/turn_manager.rs:547-567 | a running session fed a step's events stops just when the step tells it to |
| `Turns.FeedStores` | core/src/session/session_manager.rs:231-284 | the session actor, fed events that neither end nor start a turn, keeps running and its history grows by exactly what they store |
| `Turns.StepStores` | core/src/session/turn_manager.rs:254-286 | after a step that asked for tools the session's history holds the step's items and then one result for each call the step scheduled, and it is still running |
| `Turns.RecordResults` | core/src/session/turn_manager.rs:254-286 | after the tools have run, one result per call is recorded, in call order |
| `Turns.PersistRecordsCalls` | core/src/session/turn_manager.rs:536-563 | persisting a step's events records its calls in order and no results |
| `Turns.ResultsRecorded` | core/src/session/turn_manager.rs:268-286 | recording results adds exactly their call ids |
| `Turns.EveryRequestBalanced` | core/src/session/turn_manager.rs:254-348 | whenever a turn of any length builds a request from its session's history, every tool call in it has exactly one result, after it, in call order |
| `Turns.StepBalances` | core/src/session/turn_manager.rs:254-286 | one step with tools keeps that balance, the position of each result included, and leaves the session running |
| `Refresh.RefreshSlot.ReplaceValue` | utils/src/refresh.rs:34-42 | replacing publishes the value with its deadline and advances the revision, which wraps at 2^64 |
| `Refresh.RefreshSlot.EnterGet` | utils/src/refresh.rs:88-111 | what a caller finds: a fresh value, a stale value with or without starting a refresh, or nothing cached |
| `Refresh.RefreshSlot.FinishRefresh` | utils/src/refresh.rs:106-124 | a finished refresh publishes only if it succeeded and the revision is the one it saw, and always clears the flag |
| `Refresh.SingleFlight` | utils/src/refresh.rs:84-124 | over all runs at most one background refresh is in flight, and just while the flag is set |
| `Refresh.StaleOnlyWhileRefreshing` | utils/src/refresh.rs:88-124 | an expired value is served only while a refresh is in flight or by the call that starts it |
| `Refresh.FreshUntil` | utils/src/refresh.rs:84-111 | a published value is what every call is served until another is published; within its time to live a call changes nothing, the first one after it starts one refresh with that value's revision |
| `Refresh.PublishesIff` | utils/src/refresh.rs:34-124 | an insert, a first fetch and a refresh publish just when they bring a value, a refresh unless others were published since; anything else, a failed refresh included, leaves value and deadline, and a fetch that came back is over |
| `Refresh.NothingPublishedFetches` | utils/src/refresh.rs:88-129 | before anything was published a call fetches and holds the lock until the fetch is back |
| `Refresh.OverwritesIffWrapped` | utils/src/refresh.rs:112-122 | a refresh older than a published value overwrites it just when the publications since are a multiple of 2^64 |
| `Refresh.WrapReached` | utils/src/refresh.rs:112-122 | for any positive number of turns of the revision, a reachable state in which a refresh puts an older value in place of a newer one |
| `Refresh.OriginNeverGoesBack` | utils/src/refresh.rs:34-42 | the start of the published value's fetch goes back only by a refresh during which 2^64 values or more were published |
| `Refresh.InsertSurvivesRefresh` | utils/src/refresh.rs:84-122 | a value inserted during a refresh, and any published after it, is not overwritten by that refresh, whatever happens before it ends, within 2^64 publications |
| `Permissions.PermissionController.Classify` | core/src/permission/mod.rs:29-99 | the classification on every path: unparseable, wrapped, single, composite, and the errors of each |
| `Permissions.PermissionController.ClassifyComposite` | core/src/permission/mod.rs:77-98 | the loop that keeps the strictest verdict computes the verdict defined by membership, and stops at the first command that fails |
| `Permissions.PermissionController.Decide` | core/src/permission/mod.rs:106-114 | a stored rule turns only an unknown verdict into Allow |
| `Permissions.PermissionController.AddPermission` | core/src/db/storage.rs:394-401 | one row per prefix, last writer wins, the empty prefix refused |
| `Permissions.AllowedAfterAdd` | core/src/db/queries/permissions/match_permission.sql:1-4 | after saving a rule a command is allowed just when another rule allows it or the new one covers it, exactly or at a token boundary |
| `Permissions.CoversIff` | core/src/db/queries/permissions/match_permission.sql:1-4 | an exact rule covers its prefix only, a glob rule its prefix and whatever follows it after a space |
| `Permissions.JoinCut` | core/src/permission/mod.rs:106-114 | the text a rule is matched against is the words of the command with one space between them |
| `Permissions.GlobOnlyWidens` | core/src/db/storage_tests.rs:2264-2289 | saving a glob rule never takes a command away |
| `Permissions.ExactNarrowsIff` | core/src/db/storage_tests.rs:2291-2311 | saving an exact rule takes commands away just when it replaces a glob rule and no other glob rule in the table is a whole-token prefix of it |
| `Permissions.VerdictOrderFree` | core/src/permission/mod.rs:77-98 | whether a composite can be classified, and as what, does not depend on the order of its commands |
| `Permissions.CompositeVerdict` | core/src/permission/mod.rs:77-98 | Allow just when every command is, NotExecutable just when some command is, never Unknown |
| `Permissions.AllowedIff` | core/src/permission/mod.rs:29-114 | for every command: Allow just when it was parsed, and if alone stripped, into at least one argv, and each is on the safe list, or unknown and covered by a stored rule |
| `Permissions.RefusedIff` | core/src/permission/mod.rs:29-99 | NotExecutable just when every argv can be judged and one cannot be executed, or the command cannot be parsed and cannot be executed as it stands |
| `Permissions.AskedAbout` | core/src/permission/mod.rs:34-75 | what could not be parsed is AskNoPersist unless refused as it stands, what could not be safely stripped is AskNoPersist; what is shown are the argvs judged, and a question that may become a rule is about one unknown uncovered program |
| `Permissions.FailsIff` | core/src/permission/mod.rs:29-114 | there is no classification just when the parser fails or finds nothing, the wrapper is malformed, or an argv cannot be judged |
| `Permissions.UnknownIsOneProgram` | core/src/permission/mod.rs:29-99 | no composite is ever Unknown; an Unknown verdict concerns one command that names its program |
| `Permissions.MoreRulesLoosen` | core/src/permission/mod.rs:106-114 | more rules change a classification only from a question to Allow, never a refusal, never its commands |
| `Permissions.OfferCovers` | core/src/controller/permission_workflow_manager.rs:422-446 | every offered rule can be saved and covers the command it was offered for |
| `Permissions.OfferedIff` | core/src/controller/permission_workflow_manager.rs:422-446 | the rules offered are the program, and the program with its second word unless that is an option |
| `Permissions.ApprovalCloses` | core/src/permission/mod.rs:48-57 | once an offered rule is saved, the command classifies as Allow as long as the rule is there, whatever becomes of the others |
| `Permissions.AllowedIffCovered` | core/src/permission/mod.rs:106-114 | a command that was Unknown once is later allowed just when a stored rule covers it, and asked about otherwise |
| `PermissionWorkflow.PermissionWorkflowManager.InitPermissionWorkflow` | core/src/controller/permission_workflow_manager.rs:175-236 | how a call starts: resolved by its classification or the session's grant, or pending, with its deadline |
| `PermissionWorkflow.PermissionWorkflowManager.HandleCheckDecision` | core/src/controller/permission_workflow_manager.rs:238-285 | the options shown for each kind of pending request, and none for a resolved one |
| `PermissionWorkflow.PermissionWorkflowManager.HandleUserDecision` | core/src/controller/permission_workflow_manager.rs:302-402 | what each decision does to the request, the session and the rules, with every error path |
| `PermissionWorkflow.PermissionWorkflowManager.Sweep` | core/src/controller/permission_workflow_manager.rs:126-130 | exactly the resolved requests past their deadline are dropped |
| `PermissionWorkflow.PermissionWorkflowManager.RemovePermission` | core/src/controller/permission_workflow_manager.rs:160-167 | a session's requests and grants go, nobody else's |
| `PermissionRuns.StepKeeps` | core/src/controller/permission_workflow_manager.rs:132-173 | every event keeps the invariant of the requests and their futures |
| `PermissionRuns.ReachableInv` | core/src/controller/permission_workflow_manager.rs:26-47 | in every reachable state a request is pending just when it has no deadline, its session has an entry, and one that cannot be executed was refused |
| `PermissionRuns.StartsIff` | core/src/controller/permission_workflow_manager.rs:175-236 | a call starts granted just when nobody need be asked about its command or its session allows it, denied just when refused, failed just when it cannot be judged, and pending otherwise |
| `PermissionRuns.GrantedIff` | core/src/controller/permission_workflow_manager.rs:175-402 | over every run a call ends up granted just when every argv of its command was harmless as `AllowedIff` has it, or its session allowed it as a composite, or it was pending and a later decision naming that call was answered with a grant |
| `PermissionRuns.SimpleNeedsItsOwnGrant` | core/src/controller/permission_workflow_manager.rs:302-402 | a single command that is not harmless is granted only by a decision on its own call |
| `PermissionRuns.RefusedStaysRefused` | core/src/controller/permission_workflow_manager.rs:194-236 | what is refused stays denied and what cannot be judged stays failed, whatever is decided later |
| `PermissionRuns.RunSettles` | core/src/utils/future.rs:13-42 | a future's result never changes once set, and no decision about another call sets it |
| `PermissionRuns.PendingWaits` | core/src/controller/permission_workflow_manager.rs:126-130 | a pending request stays, unchanged, through any sweeps and any events about other calls and sessions |
| `PermissionRuns.OptionsWork` | core/src/controller/permission_workflow_manager.rs:238-402 | every option shown for a session's own call can be chosen and does what it says, after which nothing is left to choose |
| `PermissionRuns.OptionsNameTheCall` | core/src/controller/permission_workflow_manager.rs:253-283 | a lasting rule is offered only for an unknown simple command, always with continuations; composites get none |
| `PermissionRuns.OptionsAre` | core/src/controller/permission_workflow_manager.rs:238-285 | all the options of a pending call: once and deny always, the session and ignoring unless it is one unknown program, and a lasting rule just for the prefixes offered for such a program |
| `PermissionRuns.DecisionGrantsOnly` | core/src/controller/permission_workflow_manager.rs:302-402 | a decision saves only the chosen rule and grants only the session it names, the one command or all of them |
| `PermissionRuns.KeptTenMinutes` | core/src/controller/permission_workflow_manager.rs:126-130 | a completed request is kept by every sweep less than ten minutes later and dropped by any other |
| `PermissionRuns.RemovalForgets` | core/src/controller/permission_workflow_manager.rs:160-173 | removing a session takes exactly its requests and grants, so what it allowed is asked about again; clearing takes the requests only |
| `PermissionRuns.MissingSessionIff` | core/src/controller/permission_workflow_manager.rs:330-393 | a decision on a pending call fails for want of a session just when it names a session without an entry, never for the call's own |
| `PermissionRuns.RunWidens` | core/src/controller/permission_workflow_manager.rs:315-327 | while only offered kinds of rules are saved and none is revoked, the set of allowed commands never shrinks |
| `PermissionRuns.ApprovalLoop` | core/src/controller/permission_workflow_manager.rs:256-327 | choosing an offered rule closes the loop: whatever happens next, as long as that rule is neither revoked nor replaced by an exact one, the same command starts granted in any session and nobody is asked |
| `PermissionRuns.AskedAgainIff` | core/src/db/storage.rs:385-420 | a pending unknown command, asked again after any events, revocations included, starts granted just when a rule then covers it |
| `PermissionRuns.SessionBypass` | core/src/controller/permission_workflow_manager.rs:183-218 | a session grant lets the same composite, and ignoring permissions every composite, run unasked there until the session is removed, except what cannot be executed |
| `PermissionRuns.AwaitedIsFinal` | core/src/controller/tool_controller.rs:127-142 | a tool let run, refused or cancelled stays so, whatever happens to its request |
| `PermissionRuns.ToolRunsIff` | core/src/controller/tool_controller.rs:86-142 | a tool that waited runs just when its command was harmless, its session allowed it, or its own call was granted |
| `PermissionRuns.ToolToldWhy` | core/src/controller/tool_controller.rs:127-142 | what a tool that may not run is told: denied by the user or by its command, not validated, or cancelled with its request |
| `PermissionRuns.ToolWaitsIff` | core/src/controller/tool_controller.rs:86-103 | a tool whose arguments parse and whose name is known waits on its own call's future and on no other, and is refused at once otherwise |
| `PermissionRuns.ExactRuleNarrows` | core/src/db/storage_tests.rs:2291-2311 | a concrete pair of rules that takes a command away |
| `Cancellation.RequestedAfter` | extension-base/src/service.rs:164-208 | how the specification grows with each request read: a cancel reaches the earlier invocations of its session and nothing else does |
| `ExtensionService.ExtensionService.InvokeToken` | extension-base/src/service.rs:164-171 | an invocation waits on its session's token, made when missing |
| `ExtensionService.ExtensionService.CancelSession` | extension-base/src/service.rs:205-208 | a cancel signals the session's token and drops it from the table |
| `ExtensionService.HandleKeeps` | extension-base/src/service.rs:164-208 | every request keeps the invariant: tokens in the table are unsignalled and not shared between sessions |
| `ExtensionService.SignalsExactly` | extension-base/src/service.rs:164-208 | after any requests the invocation read at any position is signalled just when a cancel of its session was read after it |
| `WebFetchService.Service.Register` | plugins/extensions/webfetch/service.go:120-125 | registration puts the worker's cancel function in the table |
| `WebFetchService.Service.Collect` | plugins/extensions/webfetch/service.go:163-172 | the loop under the lock takes out exactly the matching cancel functions |
| `WebFetchService.Service.Forget` | plugins/extensions/webfetch/service.go:155-159 | a finished worker's key leaves the table |
| `WebFetchService.StepBalances` | plugins/extensions/webfetch/service.go:49-101 | every step keeps the count of answers given, owed by workers, owed by the loop, and asked |
| `WebFetchService.AnsweredOnce` | plugins/extensions/webfetch/service.go:49-154 | once the service has stopped, every event was answered exactly as often as it was asked |
| `WebFetchService.StepKeeps` | plugins/extensions/webfetch/service.go:120-177 | for any one key: every step that does not read that key while a live worker holds it keeps the key's workers in exactly the place that says whether they are wanted |
| `WebFetchService.SignalsExactly` | plugins/extensions/webfetch/service.go:74-101 | between requests a running worker, whose key was read only while free, is signalled just when a cancel of its session was read after it; other keys may repeat |
| `WebFetchService.AgreesWithTokens` | extension-base/src/service.rs:164-208 | for the same requests read, per-invocation cancel functions and shared session tokens signal the same running invocations, for every key read only while free |
| `WebFetchService.NobodyElse` | plugins/extensions/webfetch/service.go:163-177 | in every state such a worker is signalled or collected just when it is wanted, and when its session's cancel reply goes out or the service starts to wait it has been signalled |
| `WebFetchService.NothingLeft` | plugins/extensions/webfetch/service.go:62-67 | the table is empty once reading has ended |
| `WebFetchService.ContextsReleased` | plugins/extensions/webfetch/service.go:120-159 | whatever the keys, a worker that has left has released its context, so a stopped service holds none |
| `WebFetchService.KeyFreeIff` | plugins/extensions/webfetch/service.go:120-177 | a new invocation is within reach of every later cancel, and touched by nothing else, in every continuation that does not read its key while held, just when no live worker holds the key as it is read |
| `WebFetchService.HolderReachedIff` | plugins/extensions/webfetch/service.go:120-177 | reading a held key puts the holder out of reach too, unless it was signalled or has answered |
| `WebFetchService.HeldKeyMisses` | plugins/extensions/webfetch/service.go:120-159 | from any reading state in which a live worker holds the key, the steps after which a cancel misses the new worker |
| `WebFetchService.RepeatMisses` | plugins/extensions/webfetch/service.go:120-177 | once its key is read again, the very next cancel misses a running worker not yet signalled |
| `WebFetchService.SharedKeyStrands` | plugins/extensions/webfetch/service.go:120-159 | for every session and event a run from the start with a repeated key in which a later cancel misses a running worker |
| `Histories.InsertHistory` | core/src/db/storage.rs:423-455 | a row is stored with its prompt content stripped and its images beside it, or nothing is when two images share an ordinal |
| `Histories.ReconstructHistory` | core/src/db/storage.rs:538-574 | the loop over joined rows computes the fold: a new id opens an entry, an image goes to the last prompt |
| `Histories.SortIsOrder` | core/src/db/queries/history/get_history.sql:9-12 | the join's order keeps each attachment as often as it was stored, by ascending ordinal |
| `Histories.ImagesOfConcat` | core/src/db/storage.rs:423-455 | the attachments of a prompt are its images one by one, in order |
| `Histories.HistoryRoundTrip` | core/src/db/storage.rs:423-574 | storing any items and reading the joined rows back gives one entry per item, in order, with its backend and whether it was finished; a prompt with its words and its own images, each as often, by ascending ordinal; anything else whole |
| `Histories.OrderedPromptRestored` | core/src/db/storage_tests.rs:1335-1409 | a prompt of images in ordinal order comes back unchanged |
| `ToolNames.Truncate` | core/src/utils/encoder.rs:24-33 | truncation keeps the longest prefix of whole characters within the limit |
| `ToolNames.Encoded` | core/src/utils/encoder.rs:51-73 | the encoded name on each of its three paths |
| `ToolNames.NameReads` | core/src/utils/encoder.rs:51-73 | a name that fits is prefix, server, delimiter and tool; a longer one keeps all but the end of the tool, or, if the server leaves no room, all but the end of the server, before the hash, and loses no more than it must |
| `ToolNames.NameFits` | core/src/utils/encoder.rs:51-73 | every encoded name has at most 64 bytes |
| `ToolNames.NameRoutes` | core/src/utils/encoder.rs:35-41 | an encoded name keeps its routing prefix and is never taken for the other kind |
| `ToolNames.LongNamesDistinct` | core/src/utils/encoder.rs:56-72 | two over-long identities get different names whenever their hashes differ |

## Left out

- Plugin processes, pipes, OAuth, HTTP and MCP clients, logging and the user interfaces: input and output only.
- Timeouts, jitter and the wall clock: a timeout is a caller's step that may happen at any time, the clock a number that never goes back.
- Channel capacity and backpressure: sends to a live receiver succeed.
- JSON and message bodies, and SHA-1: payloads are bytes or abstract items, the hash is any function to twelve one-byte characters.
- The shell parsers, the verdict table and wrapper stripping are arbitrary functions of the command; only that an argv without a program name has no verdict is fixed. The Windows parser, which runs a process, is taken to be deterministic.
- Whether the database answers is a parameter of each operation, one answer per operation. SQL is modelled by its effect; a NUL character in a stored text is not.
- The queries that clean up or recover history are an arbitrary outcome (`Sessions.Cleanup`).
- Restarting the host, and sessions restored from storage at start.
- Whether a stored tool call can be rendered, and with which options, is a parameter (`shown`); where a spill file could be written is a parameter (`disk`).
- Reasoning is not replayed from history once it has been stored; the text theorems are about message text.
- `TurnManager` across turns: aborting and dropping a turn, and a Done that is queued after the next Start.
- `provider-base` cancellation, whose tokens are registered after the task is spawned.
- A refresh whose fetch panics, which leaves the slot's flag set.
- The 2^64 wrap of event ids, and overflow of the product in the byte budget.
- The extension connection has no separate model: its requests are the unary callers of `Multiplexer`, without streams.
- Bytes left in the buffer at end of file, which the framed reader reports as an error.
- `Gated`, `Session`, `CompletableFuture`, cancellation tokens and Go contexts are values in their owner's tables, the futures, tokens and contexts numbered in the order they are made; sharing through references is modelled by those numbers.
- Go map iteration order is arbitrary; a worker that panics answers once, like any other.
- A Rust tool that panics is never answered: `ExtensionService` is about signals only, not answers.
- Short encoded names are not claimed to be distinct: a delimiter inside a server name can make two identities equal.
- HistoryRoundTrip: content of a prompt other than images does not come back, as in the code, which stores none of it.
- NoGapNoDuplicate: the run up to the replay is one in which each stored message, its parts joined by newlines, is the text streamed since the one before, which the code leaves to providers; so is that of `ReplayIsLive` and `CaughtUpIff`.
- NothingMissed: the run up to the replay also stores tools and prompts with no text pending, and whether a tool can be shown does not change; `OrderKeptIff` says exactly when the first fails. So it is with `StoredIsShown`. Reasoning shown is compared with what is still buffered, since stored reasoning is not replayed.
- EveryRequestBalanced: streams that carry tool results, or tool calls as plain stored items, are not model streams here; the code would store what a provider sends.
