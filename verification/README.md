# Verification of the Router's correlation machinery and wire translations

The Router parks a provider's tool call across two HTTP requests and resumes the same provider run
when the client returns the result. This project models that machinery, and the translations around
it, in Dafny 4.11 and proves what each part promises.

`dafny verify dfyconfig.toml` checks everything.

## How the project is laid out

Each part has a specification on values, an object or a loop that is proved to do exactly what the
specification says, and theorems about the specification over every run or every input.

- **The deferred-tool broker.** `BrokerKeys`, `BrokerSpec` and `BrokerRuns` specify the four maps, their
  bounded memories and every operation; `DeferredToolBroker` is the class. `ClaudeBroker` and `CodexBroker` show that
  the broker the adapters share goes through a run of these operations and nothing else.
- **The parked-call protocol.** `ClaudeSpec` is one live session with its control channel, hand-off
  queue, gate and parked call. `ClaudeWorld` lets any number of sessions, the shared broker and
  other adapters interleave as nineteen kinds of step. `ClaudeSessionProofs`, `ClaudeProofs`,
  `ClaudeRuns` and `ClaudeTheorems` show what each step keeps; `ClaudeResults`,
  `ClaudeContinuations` and `ClaudeAnswers` state what holds in every run, the last on the fields of the frames:
  every frame is answered, once, with what its leaving calls for. `BoundedQueue`, `BridgeControl` and `ClaudeAdapter` are the classes, and
  `ClaudeRefinement` connects a continuation request to the step system.
- **The session registry.** `SessionRegistry` interleaves the small steps of several processes over
  one directory, `DescriptorFates` says why a file in it goes, and `BridgeSessionRegistry` is one
  process's object.
- **The Codex client.** `CodexClient` delivers notifications, `CodexWire` follows each server request
  to its answer, `CodexDelivery` and `CodexRequests` say on names and ids who gets what, `CodexAppServerClient` is the class.
- **The streamed surfaces.** `ChatStream`, `ResponsesStream` and `AnthropicStream`, with `PendingCalls`. The last
  two surfaces are judged by monitors that know only the protocol and not the server. `AnthropicReply`
  compares the Anthropic stream with the message sent to a client that does not stream.
- **The Anthropic round trip.** `Jsons`, `AnthropicMessages`, `AnthropicRoundTrip`, and the loops in
  `AnthropicLoops`. `AnthropicParsing` says of any body, on its JSON, whether it is accepted and what comes of it. JSON text is an abstract codec that parses what it wrote.
- **Incremental parsers and bounded buffers.** `Text`, `Utf8`, `McpFraming`, `McpAnswers` and `McpStdioParser`,
  `CappedBuffer`, `AgyStream`, `AgyLines` and `AgyReader`.

## What is assumed

- Request ids, control frame ids and public tool call ids are fresh, and request ids hold no `|`.
- A step is atomic where the program runs without giving up control. Handing a call to a waiting
  drain and parking it is one step; the program does not look at the termination flag in between.
- Timers are steps that may fire whenever they are armed. Whether a connection is open, a process
  alive or a socket present is an input.
- All processes use the registry with one maximum, listing the directory and deleting a file
  succeed, and file names of descriptors are canonical.
- Text is cut into chunks between code points.
- The object behind another adapter's live call is not marked terminated, and its request id is none of
  the Claude adapter's.

## Where the program does not do what one might expect

- A frame that arrives after a session was closed, and before its drain looks at the abort flag
  again, is parked for the dead session. `ClaudeResults.TerminatedLeavesNothing` gives the exact
  condition and `ClaudeResults.LateParkHappens` the run. The deadline of such a session does nothing,
  because closing returns early; the broker's own deadline is what ends the entry.
- When a claimed result finds its frame already expired, the gate stays shut and the deadline set
  (`ClaudeContinuations.ClaimReopensExactly`). No later step opens it: the session refuses every further
  frame (`ClaudeContinuations.StuckForGood`).
- A continuation that claims another adapter's call closes that adapter's object as if it were a session
  and cancels a scope without a session, so every parked Claude call is cancelled
  (`ClaudeContinuations.ForeignClaimCancelsEveryCall`, `ClaudeContinuations.ForeignClaimHappens`). A claim
  of one of Claude's own calls touches no other (`ClaudeContinuations.ClaimSparesTheOthersExactly`).
- A launcher takes no lock and can delete the descriptor of a live run
  (`DescriptorFates.LateLaunchRemovesALiveRun`), but only when what it read is unusable, and then one that
  was published since (`DescriptorFates.LauncherSparesUsableDescriptors`,
  `DescriptorFates.OnlyLaterDescriptorsAreHit`).
- Two calls can share a composite key when a session, turn or call holds the separator
  (`BrokerKeys.KeyIsSharedExactlyWhenAmbiguous`).
- A creation that is refused at capacity still forgets how an equal key ended before
  (`BrokerRuns.RefusedCreation`).
- The Anthropic surface checks and shows tools in one pass, so tools before a malformed one have been
  shown (`AnthropicStream.MalformedStreamShowsThePrefix`).
- The streamed Anthropic message and the gathered one name and order tools differently
  (`AnthropicReply.StreamedMessageIsGatheredMessage`).
- The two agy parsers disagree on a run with several early responses, on a result both interrupted and
  cut by a limit, and on a limit that a later result line does not repeat
  (`AgyStream.StreamedTextIsBatchText`, `AgyStream.FinishReasonsAgree`).
- The head of the capped buffer need not be a prefix of the stream (`CappedBuffer.HeadIsAPrefixUnlessItSkips`).
- In the launcher's search the reason `stale-selector` cannot occur, since a usable descriptor that is
  not returned is always one of another session.
- The per-line size check of the bridge cannot trip (`McpFraming.NoLineOverflows`).

## Model

| member | source | states |
|---|---|---|
| `BrokerKeys.KeyIsInjective` | src/core/deferred-tool-broker.ts:81-90 | Two composite keys are equal exactly when profile, provider, session, turn and call are, where sessions and turns hold no separator; an absent turn and an empty one count as the same. |
| `BrokerKeys.ScopeIsRecovered` | src/core/deferred-tool-broker.ts:92-95 | Splitting a key always recovers the provider, and recovers the session if and only if it holds no separator. |
| `BrokerKeys.SeparatorMakesKeysCollide` | src/core/deferred-tool-broker.ts:89 | A concrete pair of different calls that share one key, so the separator condition is needed. |
| `BrokerKeys.KeyIsSharedExactlyWhenAmbiguous` | src/core/deferred-tool-broker.ts:81-90 | A key has the same text as the key of a different call if and only if its session holds a separator after the first character, its turn holds one, or its call holds one before the last character. |
| `BrokerRuns.ApplyKeeps` | src/core/deferred-tool-broker.ts:102-297 | Every operation keeps the whole invariant: live index one-to-one into live entries, live and terminal memories disjoint and bounded, the public memory exactly the last endings in order, created ids balanced with ended and live ones, promises settled at most once. |
| `BrokerRuns.ClaimIsExact` | src/core/deferred-tool-broker.ts:187-205 | A claim resolves exactly when the id is live under an acceptable profile, and then removes that one entry and returns its context; otherwise nothing changes. |
| `BrokerRuns.ForeignProfileLearnsNothing` | src/core/deferred-tool-broker.ts:198-203 | A claim of a live id under another profile answers unknown and changes nothing. |
| `BrokerRuns.LateClaim` | src/core/deferred-tool-broker.ts:187-197 | In every run a claim of an id that is no longer live answers duplicate or stale by how its entry ended, inside the window of the last maxPending endings, and unknown outside it. |
| `BrokerRuns.ResolvedAtMostCreated` | src/core/deferred-tool-broker.ts:117-226 | Over every run, the number of resolved answers for a public id, by whichever door, never exceeds its successful creations. |
| `BrokerRuns.PromiseFate` | src/core/deferred-tool-broker.ts:166-177 | Over every run, a promise handed out is settled once, or held by exactly one live entry, never both. |
| `BrokerRuns.EndingSettlesItsWaiters` | src/core/deferred-tool-broker.ts:246-273 | When an entry ends, each of its waiters gets that one answer and no other promise is touched. |
| `BrokerRuns.CreateEffect` | src/core/deferred-tool-broker.ts:125-156 | What a creation adds to entries and public index, and that a refused one adds nothing. |
| `BrokerRuns.CreationIsRefusedExactly` | src/core/deferred-tool-broker.ts:117-141 | A creation is refused exactly for these reasons, the first that applies: no profile, no session or call, a live call under the key, a public id that is live or remembered, no room. |
| `BrokerRuns.WaitersAreToldTheCause` | src/core/deferred-tool-broker.ts:166-273 | Over every run, an operation ends exactly the entries it names; a waiting promise is told nothing while its entry lives, and then just what ended it: the result, the claimed context, or how it failed. |
| `BrokerRuns.AwaitJoinsTheLiveCall` | src/core/deferred-tool-broker.ts:166-177 | A wait for a live call joins its waiters, any other is rejected at once, and no other promise is touched. |
| `BrokerRuns.LateForItsKey` | src/core/deferred-tool-broker.ts:187-226 | A claim or result for a call that is not live changes nothing and is told how a call under that key ended, exactly when that is remembered. |
| `BrokerRuns.AbortedCreation` | src/core/deferred-tool-broker.ts:157-163 | Creating under a signal already aborted is creating and then cancelling. |
| `BrokerRuns.RefusedCreation` | src/core/deferred-tool-broker.ts:135-141 | A refused creation changes nothing, if and only if it was not refused at capacity for a key that had a terminal mark. |
| `BrokerRuns.RefusalForgets` | src/core/deferred-tool-broker.ts:135-141 | The exception is real: after a creation refused at capacity a repeated claim of the same key turns from duplicate or stale to unknown. |
| `BrokerRuns.CancelScopeIsExact` | src/core/deferred-tool-broker.ts:228-235 | Cancelling a scope ends exactly the entries whose stored provider and session match the filter and leaves every other entry and index untouched. |
| `DeferredToolBrokers.DeferredToolBroker.CreatePendingCall` | src/core/deferred-tool-broker.ts:117-164 | The method on four mutable maps does what the specified creation does, refusal included. |
| `DeferredToolBrokers.DeferredToolBroker.AwaitCall` | src/core/deferred-tool-broker.ts:166-177 | Registers a waiter on the live entry, or settles the promise as rejected. |
| `DeferredToolBrokers.DeferredToolBroker.ClaimByPublicToolCallId` | src/core/deferred-tool-broker.ts:187-205 | The method equals the specified claim, profile check included. |
| `DeferredToolBrokers.DeferredToolBroker.ClaimByKey` | src/core/deferred-tool-broker.ts:208-210 | The method equals the specified claim by composite key. |
| `DeferredToolBrokers.DeferredToolBroker.Resolve` | src/core/deferred-tool-broker.ts:212-226 | The method equals the specified resolution, with its duplicate, stale and unknown answers. |
| `DeferredToolBrokers.DeferredToolBroker.Cancel` | src/core/deferred-tool-broker.ts:228-235 | The loop over a snapshot of the keys equals the specified cancellation. |
| `DeferredToolBrokers.DeferredToolBroker.RememberEnding` | src/core/deferred-tool-broker.ts:275-296 | The scan of the public index and the two eviction loops keep exactly the newest endings. |
| `BoundedQueues.BoundedQueue.TryPush` | src/core/bounded-queue.ts:16-25 | A value goes to the oldest waiter, else into the queue, and is refused exactly when nobody waits and the queue is full; the i-th promise always gets the i-th accepted value. |
| `BoundedQueues.BoundedQueue.Next` | src/core/bounded-queue.ts:27-31 | Hands out the next promise, settled at once by the oldest queued value. |
| `BridgeControl.HeardExactlyAfterTheToken` | src/bridge/control-ipc.ts:149-195 | After any lines on any connections, with frames settled in between, a line surfaces a frame if and only if it is complete and new, the table has room, and its connection has shown the token by then. |
| `BridgeControl.LinesThatEndTheirConnection` | src/bridge/control-ipc.ts:149-195 | Exactly which lines end their connection, which meet a full table and are refused, and which connections are known afterwards, on the fields of the line. |
| `BridgeControl.BridgeControlServer.HandleLine` | src/bridge/control-ipc.ts:149-195 | The method equals the specified treatment of a line, with every way to lose the connection. |
| `BridgeControl.BridgeControlServer.Resolve` | src/bridge/control-ipc.ts:225-234 | Removes a pending frame and writes its text back, as the last answer, exactly when its connection is open. |
| `BridgeControl.BridgeControlServer.Reject` | src/bridge/control-ipc.ts:237-246 | Removes a pending frame and writes a refusal back, exactly when its connection is open. |
| `BridgeControl.BridgeControlServer.Expire` | src/bridge/control-ipc.ts:215-222 | The deadline of a pending frame removes it and writes back that it expired, exactly when its connection is open. |
| `BridgeControl.BridgeControlServer.Close` | src/bridge/control-ipc.ts:256-263 | Closing destroys exactly the connections that own a frame and forgets the frames unanswered. |
| `BridgeControl.BridgeControlServer.ReleaseSocketFrames` | src/bridge/control-ipc.ts:197-209 | A lost connection drops exactly its own frames and reports whether it owned any. |
| `ClaudeAdapters.LiveClaudeSession.HandleToolCall` | src/providers/claude/adapter.ts:885-890 | A frame is refused while the gate is shut or the hand-off queue refuses it, and otherwise handed off or queued. |
| `ClaudeAdapters.LiveClaudeSession.HandleLine` | src/bridge/control-ipc.ts:141-195 | A line of the control channel is one specified arrival when it is an authenticated complete frame, and otherwise touches only the channel. |
| `ClaudeAdapters.LiveClaudeSession.RequestHandoff` | src/providers/claude/adapter.ts:718-727 | The top of the drain loop takes a promise only when none is outstanding. |
| `ClaudeAdapters.ClaudeAdapter.CloseSession` | src/providers/claude/adapter.ts:583-614 | The synchronous part of closing: deadline, parked frame, both maps and broker scope are released together, once. |
| `ClaudeAdapters.ClaudeAdapter.ParkToolCall` | src/providers/claude/adapter.ts:621-701 | Three guards, then gate, parked frame, public id, map entry and deadline are set together; a refusal releases the session. |
| `ClaudeAdapters.ClaudeAdapter.ResumeOnCall` | src/providers/claude/adapter.ts:728-735 | The drain spends its promise on the call it was handed and parks it, without looking at the termination flag. |
| `ClaudeAdapters.ClaudeAdapter.DeliverResult` | src/providers/claude/adapter.ts:783-810 | A claimed result rebinds the session to the request, answers the parked frame, and reopens the gate only if the frame was still pending. |
| `ClaudeAdapters.ClaudeAdapter.ContinueRun` | src/providers/claude/adapter.ts:776-819 | The first result whose claim resolves ends the search: it continues its session, or, when the call was another adapter's, cancels every parked call of this one; earlier results change nothing but the broker, later ones and other sessions are untouched. |
| `ClaudeAdapters.ClaudeAdapter.Cancel` | src/providers/claude/adapter.ts:1040-1045 | Cancelling closes the session the request drives, and nothing when there is none. |
| `ClaudeRefinement.ContinuationIsClaimSteps` | src/providers/claude/adapter.ts:776-819 | A continuation request is exactly the claim steps of the step system up to the first claim that resolves, whoever's call it was. |
| `ClaudeTheorems.StepKeeps` | src/providers/claude/adapter.ts:583-819 | Every enabled step of every interleaving keeps the invariants of sessions, maps, broker and control channels; it keeps terminated sessions unreferenced if and only if it is not a late park. |
| `ClaudeResults.AnsweredAtMostOnce` | src/bridge/control-ipc.ts:175-246 | In every run no control frame is answered twice. |
| `ClaudeResults.TextIsTheClaimedResult` | src/providers/claude/adapter.ts:621-702 | In every run a result text written to a frame was claimed, under the session profile, for the public id minted when that very frame was parked in that very session, and after it was parked. |
| `ClaudeResults.ClaimedOnceParkedOnce` | src/providers/claude/adapter.ts:776-810 | That claim and that parking are the only ones for the id in the whole run. |
| `ClaudeResults.PublicIdsAreTwoWay` | src/providers/claude/adapter.ts:639-692 | In every run the public map and the sessions name each other one to one, and at most maxLive calls are parked. |
| `ClaudeResults.PendingFramesAreFew` | src/providers/claude/adapter.ts:879-896 | In every run a session has at most two pending frames, so the control server never refuses for its own bound. |
| `ClaudeResults.ParkedCallIsGuarded` | src/providers/claude/adapter.ts:651-693 | In every run a parked call comes with a shut gate, a deadline that is set, a public id and an ended drain. |
| `ClaudeResults.ConcurrentCallIsRefused` | src/providers/claude/adapter.ts:886-890 | While a call is parked any other frame is refused on the spot and changes nothing else. |
| `ClaudeResults.ClaimDelivers` | src/providers/claude/adapter.ts:776-810 | A claim under the session profile answers exactly the parked frame with the text, reopens the gate and clears deadline and public id; under another profile it changes nothing. |
| `ClaudeResults.TerminatedLeavesNothing` | src/providers/claude/adapter.ts:583-614 | All along a run terminated sessions are unreferenced by maps and broker, exactly when no step parks a call of a terminated session. |
| `ClaudeResults.LateParkHappens` | src/providers/claude/adapter.ts:724-733 | A concrete run in which a frame that arrives between a cancel and the drain next looking at the abort flag is parked for a dead session. |
| `ClaudeResults.ResultArrives` | src/providers/claude/adapter.ts:709-810 | A concrete run in which a parked call gets its result across two requests. |
| `ClaudeAnswers.LeavingFrameIsAnsweredOnce` | src/bridge/control-ipc.ts:197-263 | In every run a frame that is pending and then no longer has at the end exactly one answer, and none if its connection was dead or lost or the channel closed in that very step; which answer it is, is decided by what removed it: its deadline, a claimed text, or a refusal. |
| `ClaudeAnswers.EveryFrameIsAccountedFor` | src/bridge/control-ipc.ts:175-263 | In every run a frame the session has seen is pending without an answer, or has exactly one, or left when nobody was there to be told and never gets one. |
| `ClaudeAnswers.DeadlineIsAnswered` | src/bridge/control-ipc.ts:215-222 | The deadline of a frame writes that it expired if its connection is open, and changes nothing else about the session. |
| `ClaudeAnswers.ClaimedTextIsWritten` | src/providers/claude/adapter.ts:776-810 | A claim under the session profile writes its text to the frame parked under that id, if its connection is open, and nothing else on the channel changes. |
| `ClaudeAnswers.ClosingRefusesTheParkedCall` | src/providers/claude/adapter.ts:583-614 | A session that is cancelled or runs into its deadline is terminated, holds nothing, and its parked call is refused. |
| `ClaudeAnswers.NewFrameIsDecided` | src/providers/claude/adapter.ts:879-896 | A new frame is refused on the spot exactly when the session holds a call or has no room to queue one; otherwise it is pending and is handed off or queued. |
| `ClaudeAnswers.HandedCallIsDecided` | src/providers/claude/adapter.ts:621-735 | A call handed to the drain is parked exactly when the gate is open and session map and broker have room: gate shut, deadline running, live in the broker under its fresh id and the session profile. Otherwise it is refused and the session terminated. |
| `ClaudeAnswers.OwnKeyIsParked` | src/providers/claude/adapter.ts:639-692 | A live entry under the key a session parks its calls under means that this session has a call parked. |
| `ClaudeBroker.BrokerIsARun` | src/index.ts:94 | In every run of the sessions, other adapters included, the shared broker is that of a run of its own operations; so all that holds of those holds of it. |
| `ClaudeBroker.StepIsItsCalls` | src/providers/claude/adapter.ts:583-819 | Every step changes the broker by exactly the calls its event makes, on the fields of step and sessions: a close cancels the session scope once, a handed call creates when the gate is open and the map has room, and cancels when refused; a claim of another adapter's call cancels all of this one. |
| `ClaudeBroker.BrokerDeadlineEndsTheCall` | src/core/deferred-tool-broker.ts:142-147 | The broker's own deadline ends its entry and leaves every session and both maps as they were. |
| `ClaudeBroker.ReturnedRunIsForgotten` | src/providers/claude/adapter.ts:1006-1045 | A request whose run returned is forgotten: nothing else changes, and cancelling it does nothing. |
| `ClaudeContinuations.ClaimReopensExactly` | src/providers/claude/adapter.ts:792-810 | A claim under the session profile reopens the gate and retires the deadline if and only if the parked frame is still pending; otherwise the gate stays shut with no call parked. |
| `ClaudeContinuations.StuckForGood` | src/providers/claude/adapter.ts:792-810 | A session whose gate is shut with no call parked stays so to the end of every run, whatever happens, and refuses each further frame on the spot. |
| `ClaudeContinuations.ForeignClaimCancelsEveryCall` | src/providers/claude/adapter.ts:779-819 | A continuation that claims another adapter's call leaves every session as it was and cancels all parked calls of this adapter: none of the public ids they hold can be claimed any more. |
| `ClaudeContinuations.ClaimSparesTheOthersExactly` | src/providers/claude/adapter.ts:779-819 | A claim that resolves ends its own call and, of the others, exactly those of this adapter when the call was another adapter's; so it leaves every other live call alone if and only if the call is this adapter's or this adapter has no other. |
| `ClaudeContinuations.ForeignClaimHappens` | src/providers/claude/adapter.ts:779-819 | A concrete run with a call parked here and one of another adapter under the same profile: after a continuation brings the result of the other, the call here is still parked and can no longer be claimed. |
| `SessionRegistry.StepKeeps` | src/bridge/session-registry.ts:251-411 | Every timely step of every process keeps lock discipline, the bound, and each process account of the files it has judged. |
| `SessionRegistry.NeverOverTheMaximum` | src/bridge/session-registry.ts:251-411 | Under any interleaving of registrations, releases, crashes, timely reclaims, and launchers for which reading, judging and deleting are three separate steps, there are never more descriptors than the maximum, and at most one process is inside the lock. |
| `SessionRegistry.OwnRunNeverCondemned` | src/bridge/session-registry.ts:361-378 | No process ever marks a run of its own as stale. |
| `SessionRegistry.NoTornDescriptor` | src/bridge/session-registry.ts:295-326 | Publication is atomic: no interleaving, crash included, shows a partial or misnamed descriptor. |
| `SessionRegistry.ReclaimAdmitsASecondUnlessTimely` | src/bridge/session-registry.ts:414-424 | A process that takes a lock for stale gets in, and is the only one inside if and only if the holder was gone. |
| `DescriptorFates.DescriptorsGoForCause` | src/bridge/session-registry.ts:156-378 | In every timely run a descriptor goes exactly by a release, a removal under the lock or a launcher: of a run of the releasing process, of the very content that was found unusable, or of what the launcher found unusable unless another was published there since it read. What takes the place of a descriptor is a whole one published under that pid. |
| `DescriptorFates.LauncherSparesUsableDescriptors` | src/bridge/session-registry.ts:156-173 | In every timely run over whole descriptors, a launcher that judges while a usable descriptor stands under the name it read removes it if and only if the socket of the one it read is gone; with no publication there since it read, that is the very descriptor that stands there. |
| `DescriptorFates.OnlyLaterDescriptorsAreHit` | src/bridge/session-registry.ts:156-173 | In every timely run, a launcher that deletes a descriptor which is usable on the answers on which it found its reading unusable deletes one that was published after it read. |
| `DescriptorFates.LaunchRemovesExactly` | src/bridge/session-registry.ts:156-173 | Judging and then deleting removes the file under the name that was read if and only if the content that was read is unusable, whatever stands there now, and changes nothing else. |
| `DescriptorFates.LateLaunchRemovesALiveRun` | src/bridge/session-registry.ts:156-173 | For whatever unusable content was read first, half a file or a whole descriptor whose socket is gone, a run with nothing untimely and the process alive throughout in which a launcher deletes a usable descriptor of a live run. |
| `SessionRegistry.EarlyReclaimBreaksTheBound` | src/bridge/session-registry.ts:414-424 | A concrete run in which a lock reclaimed under its holder lets two processes pass the maximum. |
| `BridgeSessionRegistries.BridgeSessionRegistry.ReconcileOnDisk` | src/bridge/session-registry.ts:353-380 | Keeps exactly the usable descriptors and the own runs, and returns their owners. |
| `BridgeSessionRegistries.BridgeSessionRegistry.PublishDescriptor` | src/bridge/session-registry.ts:304-326 | Writes aside and renames; the directory gains exactly the whole descriptor. |
| `BridgeSessionRegistries.BridgeSessionRegistry.Register` | src/bridge/session-registry.ts:251-293 | Refused while the lock is held, else decided by the checks in order; published exactly when none fails. |
| `BridgeSessionRegistries.RegisterKeepsTheBound` | src/bridge/session-registry.ts:255-263 | A registration never leaves more descriptors than the maximum. |
| `BridgeSessionRegistries.RegistrationIsDecided` | src/bridge/session-registry.ts:251-293 | A registration is refused exactly for these reasons, the first that applies: the maximum is reached, the process already has a run, the session already has one. |
| `BridgeSessionRegistries.RegistrationLeavesExactly` | src/bridge/session-registry.ts:251-378 | It leaves under each name what is its own or usable, its new descriptor if it was not refused, and nothing else. |
| `BridgeSessionRegistries.InspectionIsDecided` | src/bridge/session-registry.ts:353-380 | In the step system too a process condemns exactly the descriptors that are not its own and not usable. |
| `BridgeSessionRegistries.JudgementIsDecided` | src/bridge/session-registry.ts:156-173 | A launcher keeps a reading to delete by exactly when what it read is no whole descriptor of that process, or process or socket is gone. |
| `BridgeSessionRegistries.GivingUpLeavesNothing` | src/bridge/session-registry.ts:295-412 | A process that gives up on the lock, or fails to publish, leaves directory and runs as they were, and no file aside. |
| `BridgeSessionRegistries.ReleaseIsARun` | src/bridge/session-registry.ts:281-292 | Releasing a run takes its descriptor away and then the run, and nothing else. |
| `BridgeSessionRegistries.OwnRunsSurvive` | src/bridge/session-registry.ts:251-293 | Whatever a process registers afterwards, and whatever the system says of its processes and sockets, what stands under the name of a run it has not released is left alone. |
| `BridgeSessionRegistries.RegisterIsARun` | src/bridge/session-registry.ts:251-293 | Undisturbed, the step system does for a process exactly what the method does. |
| `BridgeSessionRegistries.ResolveBridgeSession` | src/bridge/session-registry.ts:189-215 | Finds the first ancestor whose descriptor is usable and matches the selector, never a foreign session, removes only unusable files, and gives the reason exactly. |
| `CodexClient.RunKeeps` | src/providers/codex/app-server-client.ts:227-366 | Every run keeps: no buffered notification is awaited; each notification is buffered, delivered or let go exactly once; each wait is registered, served or rejected exactly once; delivery in arrival order. |
| `CodexClient.NoBufferedIsAwaited` | src/providers/codex/app-server-client.ts:264-300 | In every run no buffered notification matches a registered waiter, and the buffer stays within its bound. |
| `CodexClient.DeliveredAtMostOnce` | src/providers/codex/app-server-client.ts:273-281 | In every run a notification reaches at most one waiter and a waiter is settled at most once. |
| `CodexClient.DeliveredInOrder` | src/providers/codex/app-server-client.ts:264-300 | In every run notifications of one kind and one run are delivered in the order they arrived, whatever the waiters are. |
| `CodexClient.NoDeltaIsLeftBehind` | src/providers/codex/app-server-client.ts:507-527 | The end of a turn is never handed to a pump while a delta of the same thread and turn is buffered, wherever in the message either carries its turn id, from the buffer or on arrival. |
| `CodexClient.PurgeOnCompletionDropsNothingAwaited` | src/providers/codex/app-server-client.ts:279-317 | A completion delivered on arrival removes from the buffer exactly the notifications of the scope it closes and keeps the order of the rest; each removed one is let go exactly once, nothing else happens, and no waiter matched any of them, the one served included. |
| `CodexClient.ReleaseIsExact` | src/providers/codex/app-server-client.ts:320-344 | Releasing a scope in any run removes exactly its notifications, keeps the order of the rest, and removes exactly the waiters that carry its ids; over the whole run each is let go or rejected exactly once, and nothing else happens. |
| `CodexClient.OnlyTheOlderWaiterIsServed` | src/providers/codex/adapter.ts:569-594 | Of two waiters for one notification only the older is served, so a second registration misses what the first is given. |
| `CodexDelivery.DeliveredToWhoAskedForIt` | src/providers/codex/app-server-client.ts:56-78 | In every run whatever a wait was given has one of its names, its thread if it gave one, and its turn if it gave one, in either place where a notification names its turn. |
| `CodexDelivery.AwaitedIsDeliveredOnArrival` | src/providers/codex/app-server-client.ts:264-291 | In every run a notification whose name and ids are those of a registered waiter is delivered on arrival, to the oldest such waiter, and never buffered. |
| `CodexDelivery.ArrivalIsDecided` | src/providers/codex/app-server-client.ts:264-300 | What an arriving notification comes to, by its name and ids: the oldest waiter that asked for it, else the buffer if its kind is kept, the oldest giving way, else it is let go. |
| `CodexDelivery.ReleaseGoesByIds` | src/providers/codex/app-server-client.ts:320-366 | In every run releasing a run lets go of exactly the buffered notifications that carry its thread and turn, and rejects exactly the waiters registered under them. |
| `CodexDelivery.CompletionGoesByIds` | src/providers/codex/app-server-client.ts:279-317 | In every run the end of a turn handed over on arrival lets go of exactly the buffered notifications that carry its thread and turn. |
| `CodexDelivery.FailureRejectsTheRuns` | src/providers/codex/app-server-client.ts:199-220 | A failure of the protocol rejects exactly the waits of runs and, if there is one, lets go of everything buffered. |
| `CodexDelivery.WaitIsDecided` | src/providers/codex/app-server-client.ts:507-560 | A wait takes a buffered notification with one of its names and its ids if there is one, and otherwise is registered last in line. |
| `CodexDelivery.WaitsAfterAFailure` | src/providers/codex/app-server-client.ts:457-527 | After a failure a wait is refused exactly when it names a run. |
| `CodexDelivery.TimeOutTakesOnlyItself` | src/providers/codex/app-server-client.ts:480-560 | A wait that times out takes only itself away. |
| `CodexAppServerClients.CodexAppServerClient.HandleNotification` | src/providers/codex/app-server-client.ts:264-291 | The method equals the specified delivery, buffering, purge and drop. |
| `CodexAppServerClients.CodexAppServerClient.BufferSupported` | src/providers/codex/app-server-client.ts:294-300 | Appends and evicts the oldest down to the bound. |
| `CodexAppServerClients.CodexAppServerClient.WaitForAnyNotification` | src/providers/codex/app-server-client.ts:507-560 | The search of the buffer name by name, and then the registration, equal the specified wait. |
| `CodexAppServerClients.CodexAppServerClient.WaitForNotification` | src/providers/codex/app-server-client.ts:457-505 | The same for one name. |
| `CodexAppServerClients.CodexAppServerClient.FailProtocol` | src/providers/codex/app-server-client.ts:199-220 | Rejects the scoped waiters and, if there are any, empties the buffer. |
| `CodexAppServerClients.CodexAppServerClient.DiscardScope` | src/providers/codex/app-server-client.ts:320-366 | Releases notifications and both sorts of waiters of one scope. |
| `CodexAppServerClients.CodexAppServerClient.HandleServerRequest` | src/providers/codex/app-server-client.ts:368-434 | Declines on the spot or resolves the first waiter whose scope covers the request. |
| `CodexWire.StepKeeps` | src/providers/codex/adapter.ts:357-387 | Every step keeps: offers, parked entries and answers never overlap, and each answered request knows where its answer came from. |
| `CodexWire.AnsweredAtMostOnce` | src/providers/codex/app-server-client.ts:399-434 | In every run each wire request is answered at most once. |
| `CodexWire.SuccessIsTheClaimedResult` | src/providers/codex/adapter.ts:692-817 | In every run a request that is answered with a result was parked and claimed, and the text is that of the claim of its own public id under the profile it was parked for; one that is answered otherwise was never parked. |
| `CodexWire.ClaimedInTimeIsAnswered` | src/providers/codex/adapter.ts:357-368 | In every run a parked request has been answered if and only if its public id was claimed before the client stopped. |
| `CodexWire.ParkedIsUnanswered` | src/providers/codex/adapter.ts:763-801 | A parked request whose id was not claimed is still unanswered. |
| `CodexWire.DeclinedWhenUnawaited` | src/providers/codex/app-server-client.ts:399-422 | A request is declined at once exactly when it is no tool call or no waiter covers it; otherwise it goes to one waiter. |
| `CodexWire.PumpDecides` | src/providers/codex/adapter.ts:692-801 | A pump fails an unacceptable request without touching the broker, and parks an acceptable one under its own profile exactly when the broker takes it. |
| `CodexWire.ClaimAnswers` | src/providers/codex/adapter.ts:357-368 | A claim under the profile a live call was parked for answers its request with the text; any other profile changes nothing. |
| `CodexRequests.OnlyProperCallsAreParked` | src/providers/codex/adapter.ts:708-801 | In every run a parked request was parked by the look of a pump, under its profile and fresh public id, and has call, tool, thread, turn and arguments, the client namespace, and a tool that this pump had declared. |
| `CodexRequests.LookIsDecided` | src/providers/codex/adapter.ts:708-801 | A pump parks its request exactly when it is complete, in the client namespace, of a declared tool, under a profile, and the broker has room; it answers it as failed at once exactly when it is not such a call or there is no profile. |
| `CodexRequests.OfferedIsCovered` | src/providers/codex/app-server-client.ts:399-434 | In every run a pump is offered only tool calls of the thread and turn it armed its waiter with. |
| `CodexRequests.RequestIsDecided` | src/providers/codex/app-server-client.ts:368-434 | A tool call goes to the oldest waiter whose ids it carries; one that none covers is answered as failed and every other request declined, at once. |
| `CodexBroker.BrokerIsARun` | src/index.ts:94 | In every run of the wire the shared broker is that of a run of its own operations. |
| `CodexBroker.StepIsItsCalls` | src/providers/codex/adapter.ts:357-801 | Every step changes the broker by exactly the calls its event makes: a look at a proper request under a profile creates, a claim claims, and nothing else of the wire reaches it. |
| `CodexBroker.WaitersAreKept` | src/providers/codex/app-server-client.ts:320-366 | Arming, keeping and stopping touch nothing but the waiters and the stop: a new waiter comes last, and exactly the kept ones stay. |
| `CodexBroker.StoppedWritesNothing` | src/providers/codex/app-server-client.ts:436-441 | A stopped client stays stopped and writes nothing more. |
| `ChatStream.AggregateEvents` | src/http/openai-chat.ts:340-385 | The loop equals the specified aggregation, ending at the first error. |
| `ChatStream.StreamChat` | src/http/openai-chat.ts:664-744 | The loop sends the specified chunks. |
| `ChatStream.SendCalls` | src/http/openai-chat.ts:693-737 | Every call is checked before any is sent. |
| `ChatStream.StreamingIsAggregating` | src/http/openai-chat.ts:595-737 | For every stream ending in a completion, with ids and indices one to one and names never blank, the client folding the chunks has exactly the text, ordered calls and finish reason of the aggregated reply, and both fail on the same arguments with no call surfaced. |
| `ChatStream.BothReportTheError` | src/http/openai-chat.ts:738-743 | On a stream ending in an error both report that error. |
| `ChatStream.SharedIndexMerges` | src/http/openai-chat.ts:683-692 | For any two ids under one index the aggregated reply has two calls and the stream one, so the condition is needed. |
| `ChatStream.AggregateGathersEverything` | src/http/openai-chat.ts:347-363 | The reply holds all of the text and, for each id mentioned, one call with all its arguments in order and its last non-blank name. |
| `ChatStream.SortSorts` | src/http/openai-chat.ts:371 | Sorting gives an ascending permutation. |
| `ChatStream.SortIsStable` | src/http/openai-chat.ts:371 | Sorting keeps the order of calls that share an index. |
| `ChatStream.FirstErrorIsTheReply` | src/http/openai-chat.ts:366-368 | The first error of the provider is the whole reply, whatever comes before and after. |
| `ChatStream.FirstErrorEndsTheStream` | src/http/openai-chat.ts:738-743 | A stream that has not ended by then sends that error last, after nothing but text. |
| `ChatStream.ReplyIsTheSum` | src/http/openai-chat.ts:340-385 | The reply on the events themselves: it fails exactly when the arguments of some call are malformed; otherwise all text, one call for each id with all its arguments and its latest name and index, by rising index, and the last reason. |
| `ChatStream.StreamCollectsEverything` | src/http/openai-chat.ts:683-692 | A running stream has collected one call for each index used, with everything sent under it. |
| `ResponsesStream.StreamResponses` | src/http/openai-responses.ts:640-787 | The loop sends the specified events. |
| `ResponsesStream.Complete` | src/http/openai-responses.ts:692-780 | Closes the message, checks every call, and only then shows them. |
| `ResponsesStream.CompletedStreamIsWellFormed` | src/http/openai-responses.ts:602-780 | With usable arguments a protocol monitor accepts the whole stream: every output index from zero to the last is announced once, filled, finished once with what it was filled with, and listed by the final snapshot by index; the message is the whole text. |
| `ResponsesStream.FailedStreamShowsNoCall` | src/http/openai-responses.ts:728-736 | With one malformed call, or a provider error, the response fails and not one call item was ever shown. |
| `ResponsesStream.CallIsItsItem` | src/http/openai-responses.ts:762-774 | Each gathered call is finished under its own place with its id, name and arguments. |
| `ResponsesStream.SameCallsAsChat` | src/http/openai-responses.ts:674-691 | The surface gathers the same calls as the Chat surface from the same events. |
| `ResponsesStream.ItemsAreNamedAfterCalls` | src/http/openai-responses.ts:576-681 | In the completed response each function call has an item id of its own, made from its call id: different calls, different items. |
| `PendingCalls.AlreadySorted` | src/http/openai-responses.ts:725-727 | Calls are kept in the order of their output places, so sorting them changes nothing. |
| `AnthropicStream.StreamMessages` | src/http/anthropic-messages.ts:684-777 | The loop sends the specified events. |
| `AnthropicStream.ShowTools` | src/http/anthropic-messages.ts:734-757 | Checking and showing in one pass shows exactly the tools before the first malformed one. |
| `AnthropicStream.CompletedStreamIsWellFormed` | src/http/anthropic-messages.ts:657-770 | With usable arguments a protocol monitor accepts the whole stream: every block index is started once and stopped once, no text block is open when a tool block starts, the text blocks together are the whole text, the summary follows. |
| `AnthropicStream.MalformedStreamShowsThePrefix` | src/http/anthropic-messages.ts:734-761 | With a malformed call exactly the tools before the first malformed one have been shown; none is shown if and only if the very first is malformed. |
| `AnthropicStream.ErrorShowsNoTool` | src/http/anthropic-messages.ts:771-776 | On a provider error no tool was shown. |
| `AnthropicStream.ToolsGatherEverything` | src/http/anthropic-messages.ts:704-724 | Each tool has the id and all arguments the Chat surface collects for its index, and the first name that was sent. |
| `AnthropicStream.ToolIsItsBlock` | src/http/anthropic-messages.ts:744-757 | Each tool block carries the id, name and arguments of its tool. |
| `AnthropicStream.SummaryIsTheLast` | src/http/anthropic-messages.ts:725-770 | A completed stream ends with the reason of the completion and the last output size that was reported. |
| `AnthropicReply.GatherMessage` | src/http/anthropic-messages.ts:574-615 | The two loops return the first provider error if there is one, whatever else came; else the malformed error exactly when some arguments are malformed; else text and tools sorted by index. |
| `AnthropicReply.StreamedMessageIsGatheredMessage` | src/http/anthropic-messages.ts:574-762 | For every stream ending in a completion, with ids and indices one to one, the streamed message fails exactly when the gathered one does and otherwise has its text and stop reason; it has the same tools in the same order if and only if tools begin by rising index and the first name sent for each is its last non-blank one. |
| `AnthropicReply.MessageReportsTheFirstError` | src/http/anthropic-messages.ts:595-598 | The first error of the provider is the whole answer of a client that does not stream, whatever comes before and after and whatever the arguments of the calls are. |
| `AnthropicReply.BothReportTheError` | src/http/anthropic-messages.ts:595-776 | An error the stream has not ended before is what both clients are told; the one that streams has by then all the text before it and no tool. |
| `AnthropicReply.MessageIsTheSum` | src/http/anthropic-messages.ts:574-650 | The gathered message on the events themselves, when there was no error: it fails exactly when the arguments of some call are malformed; otherwise all text, one tool for each id with everything sent for it, and the last reason. |
| `AnthropicRoundTrip.BuildsExactlyWhenBuildable` | src/providers/command-code/client.ts:1010-1102 | A body can be built if and only if every result names its call, every call is complete with arguments that parse, somebody speaks, and a named choice has a name. |
| `AnthropicRoundTrip.ParseBuiltIsNormal` | src/http/anthropic-messages.ts:191-413 | What was built is accepted if and only if all call arguments are JSON objects, and what comes back is the canonical request in its normal form. |
| `AnthropicRoundTrip.NormalIsNormal` | src/providers/command-code/adapter.ts:52-99 | Normalising twice changes nothing, and the normal form can be built whenever the request can. |
| `AnthropicRoundTrip.BuildNormalIsSame` | src/providers/command-code/client.ts:1010-1102 | Building the normal form gives the same body. |
| `AnthropicRoundTrip.BuildParseBuild` | src/providers/command-code/client.ts:1010-1102 | Building, parsing and building again is building once. |
| `AnthropicRoundTrip.ChoiceBack` | src/core/tool-policy.ts:200-233 | A tool choice and parallel flag come back as written, an absent choice beside a flag as auto, parallel calls as absent. |
| `AnthropicRoundTrip.BuiltControls` | src/providers/command-code/client.ts:1085-1102 | The rest of a built body: model as given, streaming, output tokens as asked for within one and 4096, or 1024, and no other keys. |
| `AnthropicRoundTrip.MessageBack` | src/providers/command-code/client.ts:1020-1084 | One message converted and parsed is its normal form, or refused exactly for arguments that are no object. |
| `AnthropicParsing.NothingOfAMessageIsLost` | src/http/anthropic-messages.ts:250-324 | For every message of any body, on its JSON blocks: it is accepted exactly when each block can be represented; then a message of text and calls comes first exactly when there is a text or tool_use block, with all texts in order and the calls in order, and each tool_result block becomes one tool message with its own id, text and status, in order. |
| `AnthropicParsing.BodyIsAcceptedExactly` | src/http/anthropic-messages.ts:122-413 | Exactly which bodies are accepted, on their JSON members. |
| `AnthropicParsing.NothingIsLost` | src/http/anthropic-messages.ts:191-413 | Nothing of an accepted body is lost or made up: system text first, what each message becomes in order, each tool as declared, choice and parallel flag exactly where the body has them. |
| `AnthropicParsing.FirstBadBlockDecides` | src/http/anthropic-messages.ts:250-310 | The first block that cannot be represented decides the error of its message. |
| `AnthropicParsing.FirstBadMessageDecides` | src/http/anthropic-messages.ts:238-310 | The first message that cannot be represented decides the error of the body. |
| `AnthropicParsing.UnknownKeyDecides` | src/http/anthropic-messages.ts:191-205 | An unknown key is refused before anything else is looked at. |
| `AnthropicParsing.NormalSaysTheSame` | src/providers/command-code/adapter.ts:52-99 | The normal form says what the request says: system texts as lines of one message, every other message with its text, calls or result, in order, and the same tools, choice and flag up to defaults. |
| `AnthropicLoops.BuildAnthropicRequestBody` | src/providers/command-code/client.ts:1010-1102 | The loop over the messages equals the specified builder. |
| `AnthropicLoops.BuildCalls` | src/providers/command-code/client.ts:1056-1075 | The loop over the calls stops at the first incomplete one. |
| `AnthropicLoops.ParseAnthropicRequest` | src/http/anthropic-messages.ts:191-413 | The checks and loops equal the specified parser. |
| `AnthropicLoops.ParseContent` | src/http/anthropic-messages.ts:250-310 | The loop over the blocks of a message equals the specified sorting into texts, calls and results. |
| `AnthropicLoops.PushMessage` | src/http/anthropic-messages.ts:312-324 | Text and calls become one message, if there are any, and then each result, the i-th with its own id, text and status, one more. |
| `McpFraming.ChunkingDoesNotMatter` | src/bridge/mcp-bridge-process.ts:377-402 | As long as no chunk trips the bound, reading chunk by chunk ends in the state of reading the whole input at once. |
| `McpFraming.SameInputSameFrames` | src/bridge/mcp-bridge-process.ts:377-402 | Two ways of cutting the same input handle the same frames and end alike. |
| `McpFraming.TrippingOnlyStopsEarlier` | src/bridge/mcp-bridge-process.ts:377-402 | However one input is cut, one cutting handles, answers and forwards the beginning of what the other does; a cutting of which a chunk trips, the beginning of what one that never trips does. |
| `McpFraming.NoLineOverflows` | src/bridge/mcp-bridge-process.ts:394-399 | Behind the check on the chunk, the check on each line can never trip. |
| `McpFraming.RetainedFrameIsBounded` | src/bridge/mcp-bridge-process.ts:382-390 | In every run the retained frame holds no newline, its recorded size is exact, and it is within the bound. |
| `McpFraming.InFlightIsExact` | src/bridge/mcp-bridge-process.ts:271-296 | In every run, before a stop, the in-flight ids are exactly those of the unsettled calls, one each, at most sixty-four. |
| `McpFraming.EachCallIsAnsweredOnce` | src/bridge/mcp-bridge-process.ts:224-319 | In every run each tools/call frame has exactly one reply under its own id once it is not pending, and none while it is. |
| `McpAnswers.ForwardedCallGetsItsOutcome` | src/bridge/mcp-bridge-process.ts:295-318 | In every run a forwarded call is pending without a reply, or its one reply carries, under its own id, exactly the outcome of a settlement that met it pending. |
| `McpAnswers.SettlementReachesItsCall` | src/bridge/mcp-bridge-process.ts:295-318 | Conversely a settlement that meets its call pending is ever after what that call's one reply carries. |
| `McpAnswers.UnforwardedCallGetsAnError` | src/bridge/mcp-bridge-process.ts:224-293 | In every run a call that was never forwarded has one reply, an error under its own id. |
| `McpAnswers.OtherFramesAreAnswered` | src/bridge/mcp-bridge-process.ts:321-373 | In every run every other frame has exactly one reply and the right one, and the one notification has none. |
| `McpAnswers.CallIsDecided` | src/bridge/mcp-bridge-process.ts:224-295 | The first check a call fails, on the fields of the frame, gives its code; a call that passes all is forwarded and in flight. |
| `McpAnswers.EveryLineIsRead` | src/bridge/mcp-bridge-process.ts:377-402 | In every run that has not stopped each finished line that is not blank was handled once and in order, and the unfinished one is retained. |
| `McpAnswers.LineStopsExactly` | src/bridge/mcp-bridge-process.ts:321-345 | A line stops the parser exactly when it is not JSON or not a record, and then nothing is kept. |
| `McpAnswers.ChunkOverflowsExactly` | src/bridge/mcp-bridge-process.ts:377-392 | A chunk stops the parser exactly when it would take the retained frame over a mebibyte, and nothing of it is read. |
| `McpFraming.OnlyDeclaredCallsAreForwarded` | src/bridge/mcp-bridge-process.ts:224-295 | In every run what was forwarded are complete calls of declared tools, each once and in order. |
| `McpFraming.NothingForwardedAfterTheStop` | src/bridge/mcp-bridge-process.ts:195-203 | After a stop nothing more is read or forwarded. |
| `McpFraming.StopCutsTheLines` | src/bridge/mcp-bridge-process.ts:321-334 | Of the lines of a chunk the one that stops the parser is the last that is read; it is not forwarded, and nothing behind it is read or forwarded. |
| `McpStdioParsers.McpStdioParser.Push` | src/bridge/mcp-bridge-process.ts:377-402 | The method equals the specified treatment of a chunk, with the second check shown unreachable. |
| `McpStdioParsers.McpStdioParser.HandleToolCall` | src/bridge/mcp-bridge-process.ts:224-295 | The checks in order, and the place in the in-flight set. |
| `McpStdioParsers.McpStdioParser.SettleCall` | src/bridge/mcp-bridge-process.ts:294-318 | A pending call leaves the in-flight set and its own outcome, text or failure, is written under its own id; any other settlement writes nothing. |
| `CappedBuffer.HeadFitIsLongest` | src/providers/antigravity/process-client.ts:67-78 | The head cut is the longest prefix that fits. |
| `Utf8.WidthIsTheEncoding` | src/providers/antigravity/process-client.ts:62-78 | The width of a code point is the number of bytes of its UTF-8 encoding, which are bytes and decode to it. |
| `CappedBuffer.TailFitIsLongest` | src/providers/antigravity/process-client.ts:86-100 | The tail cut is the longest suffix that fits. |
| `CappedBuffer.NeverOverCap` | src/providers/antigravity/process-client.ts:121-145 | After any pushes the value has at most cap bytes. |
| `CappedBuffer.NothingGoesMissing` | src/providers/antigravity/process-client.ts:121-136 | Whatever is pushed goes to the head or past it, once. |
| `CappedBuffer.TailIsTheLongestSuffix` | src/providers/antigravity/process-client.ts:132-136 | After any pushes the tail is the longest suffix that fits of everything routed past the head, and overflow is reported exactly when it was cut. |
| `CappedBuffer.OneByteValue` | src/providers/antigravity/process-client.ts:121-145 | For one-byte text the value is the whole stream, or its first half-cap and last remaining-cap bytes exactly when overflow was reported, that is when the stream is longer than the cap. |
| `CappedBuffer.HeadIsAPrefixUnlessItSkips` | src/providers/antigravity/process-client.ts:121-136 | For any chunks of any text, the head is a prefix of the stream, and then the longest that fits, if and only if no chunk adds to the head after something was routed past it; then nothing is out of order. |
| `CappedBuffer.HeadCanSkipAhead` | src/providers/antigravity/process-client.ts:127-131 | With a cap of five, a one-byte and a two-byte code point in one chunk and a one-byte one in the next, whatever they are: the value shows the last before the second, although nothing was lost. |
| `CappedBuffer.TruncateUtf8Head` | src/providers/antigravity/process-client.ts:67-78 | The loop equals the head cut. |
| `CappedBuffer.TruncateUtf8Tail` | src/providers/antigravity/process-client.ts:86-100 | The loop from the back equals the tail cut. |
| `CappedBuffer.CappedTextBuffer.PushChunk` | src/providers/antigravity/process-client.ts:121-137 | The method equals the specified push. |
| `AgyStream.ExtractTextFrom` | src/providers/antigravity/adapter.ts:252-273 | The explicit stack terminates and visits exactly as the recursive pre-order that takes children last to first. |
| `AgyStream.WalkCollectsOnce` | src/providers/antigravity/adapter.ts:264-269 | The walk collects each non-empty text delta of the tree exactly once. |
| `AgyStream.ChunkingDoesNotMatter` | src/providers/antigravity/adapter.ts:706-724 | However a text is cut, reading stops exactly when one of its lines is too long, and otherwise ends in the same state. |
| `AgyStream.ClosedStreamFedEveryLine` | src/providers/antigravity/adapter.ts:731-737 | Closing feeds the last line too: all lines were fed as if one by one. |
| `AgyStream.StreamedTextIsBatchText` | src/providers/antigravity/adapter.ts:510-596 | Over any chunking of a well-formed output the text emitted line by line is the text of the batch parser, if and only if at most one response comes before any step text. |
| `AgyStream.OneResultIsEnough` | src/providers/antigravity/adapter.ts:586-594 | At most one result line meets that condition. |
| `AgyLines.TextIsExact` | src/providers/antigravity/adapter.ts:275-596 | Over any chunking of a well-formed output, what is emitted is the responses of the results before any step text, then the texts of all step updates, in order; the batch has the same step texts after the first such response alone. |
| `AgyLines.StepTextReachesBoth` | src/providers/antigravity/adapter.ts:275-317 | A step update brings both parsers the same texts, every non-empty delta of its tree once. |
| `AgyLines.ResultIsReadByBoth` | src/providers/antigravity/adapter.ts:318-350 | Both parsers read a result alike: response and status from the payload or else the envelope, a limit when either says so; and what each makes of it. |
| `AgyLines.OtherLines` | src/providers/antigravity/adapter.ts:275-596 | A line of any other kind changes nothing in either parser; one that does not decode is reported by the one and leaves the other without a result. |
| `AgyLines.LongLineIsReported` | src/providers/antigravity/adapter.ts:706-737 | Over any chunking an output with a line too long ends in one report, after everything that came of the lines before the first such line. |
| `AgyLines.AbortedFeedsNothing` | src/providers/antigravity/adapter.ts:706-724 | Once the run is aborted nothing more is fed; only a first line that is too long is still reported. |
| `AgyLines.DeltaIsItsMember` | src/providers/antigravity/adapter.ts:252-273 | A record gives its own delta exactly when it holds one that is a text and is not empty. |
| `AgyStream.FinishReasonsAgree` | src/providers/antigravity/adapter.ts:318-329 | Over any chunking of a well-formed output one finish reason is emitted for each result line, and the batch is complete when there is one. The last one emitted is the finish reason of the batch if and only if the last result line that is interrupted or cut by a limit is not both, when it is the last of all, and is an interrupted one, when another follows. |
| `AgyStream.ALaterResultHidesTheLimit` | src/providers/antigravity/adapter.ts:275-350 | For any output of two result lines, the first cut by a limit and the second neither, the batch says length and the stream ends on stop. |
| `AgyStream.ParseBatch` | src/providers/antigravity/adapter.ts:275-350 | The loop over the lines equals the specified batch parser, which throws on a line that does not decode or is a bare null. |
| `AgyReaders.AgyReader.OnData` | src/providers/antigravity/adapter.ts:706-724 | The handler equals the specified treatment of a chunk, before and after the run was aborted. |
| `AgyReaders.AgyReader.FeedStreamLine` | src/providers/antigravity/adapter.ts:510-596 | One line emits the specified events. |
| `AgyReaders.AgyReader.OnEnd` | src/providers/antigravity/adapter.ts:731-737 | The end of the stream feeds an unfinished line that fits. |

## Left out

- Sockets, child processes, file permissions, flushing to disk, signals and the clock: they are inputs or steps.
- The HTTP server, status codes, configuration, usage accounting, redaction, model lists and error texts: single-branch plumbing.
- The Antigravity and Codex adapters' own session bookkeeping (`activeTurns`, `parkedTurns`, tool lists per thread): the broker and the wire are modelled, the maps around them are not.
- What a provider does: it is an environment that may send any frame or event at any time.
- The bytes of a control connection before they are lines: the same cutting into lines is modelled for the bridge process.
- The promise objects of the hand-off queue are tickets, and the object a broker entry points at is found through a map from session keys.
- A claim by the Claude adapter of an id that another adapter minted: what it does to the other adapter's own object is not modelled, only what it does to the broker and to Claude's maps.
- A claim by another adapter of an id that the Claude adapter minted is modelled as ending that entry; what the other adapter then does to the session object is not.
- AgyReaders.AgyReader.FeedStreamLine: on a line that is a bare JSON `null` the program throws and nothing after it is read; here such a line emits nothing. The comparisons with the batch parser, which throws too, exclude it.
- AgyReaders.AgyReader.OnData: whether the run is aborted is asked once a chunk; an abort from within the handling of one of its lines is not modelled, nor is the exception on a bare `null`.
- ClaudeResults.ParkedCallIsGuarded: the deadline is the timer field being set. In a session that had already terminated the timer may have fired, to no effect.
- Images and message names in the canonical request, and numbers that JSON cannot write exactly.
- McpFraming.TrippingOnlyStopsEarlier: the one error line with a null id that is written when the bound trips is a flag here and is not among the replies.
- Usage figures in the streamed surfaces and in the agy parsers.
- JSON-RPC responses to the Codex client's own requests: one map from ids to promises.
- Stale locks reclaimed under their holder are steps of the registry model, but of runs that contain one, it is proved that a second process gets in and that the bound can break, and nothing more.
- Error codes of the HTTP surfaces: a malformed call is one constant, a provider's error is carried unchanged.
