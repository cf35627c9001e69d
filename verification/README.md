# Realtime gateway and client: a verified model

A Dafny model of the parts of the realtime messaging stack whose correctness depends on many
interleavings, on several functions at once, or on text and byte arithmetic. `dafny verify
dfyconfig.toml` checks the whole project.

Two forms are used. Where the code is a protocol between threads, a client and a server, or a server
and Redis, the model is a step system: a `State`, an `Event` type, a total `Step` (an event that is
not enabled changes nothing) and `Run` over a sequence of events. Its results hold for every
sequence of events, that is, for every interleaving, every failure and every reconnect. Where the
code is one loop or one lock body, the model is a method or a class with the same fields, proved
against a specification function or a stated property. Pure text functions stay functions.

Clocks, random identifiers, callers' choices, the outcome of every network operation and the answers
of the session store are parameters or events. Identifiers are arbitrary strings; where a result
needs two identifiers to differ, that is a hypothesis, and a witness shows why it is needed.

| file | part of the system |
|---|---|
| `Text`, `Routes` | trimming and splitting; route factories, parser, authorizer and subscription keys |
| `DuplicateWindow` | the per-connection window of correlation identifiers |
| `SubscriptionState` | the client's subscription sets, pending mutations and undo record |
| `SubscriptionSteps`, `SubscriptionInvariants`, `SubscriptionSoundness`, `SubscriptionCoherence`, `SubscriptionPreservation`, `SubscriptionAgreement`, `SubscriptionServer`, `SubscriptionWitnesses`, `SubscriptionOperations` | the subscription protocol: changing thread, replaying thread, send loop, server, receive loop, reconnects |
| `OutboundDelivery`, `OutboundReconnects` | send slots, outbound queue, replay backlog, send loop; what lost and new connections do with them |
| `EventStream`, `EventStreamMeaning` | the server-sent-event writer and the incremental TypeScript parser; what any text means |
| `LogLevels`, `LogLevelController`, `AuditRuns`, `OverrideLifetimes`, `UninterruptedCalls` | runtime log-level overrides of one instance; the same under concurrent calls, and each call by itself |
| `OverrideStore`, `OverrideCoordination` | replica-wide overrides in Redis and the reconciliation of a replica |
| `FallbackTransport` | sending, reading, cancelling and closing of the HTTP fallback transport |
| `ConnectionQueue`, `Sums` | outbound queues of a gateway and its process-wide gauges; sums over parts |
| `ConnectionRegistry` | admission of connections against draining |
| `Delivery`, `DeliveryRuns` | delivery of one bus message; the life of one connection with concurrent deliveries |
| `DurablePaging` | durable records: table, byte-bounded pages, acknowledgement |

Results that turned out to be false as first stated, with the input that shows it and the condition
under which they hold:

- A failed subscription change does not always restore the previous set
  (`SubscriptionWitnesses.FailedUnsubscribeDropsRoute`); `SubscriptionAgreement.FailedChangeRestores`
  says exactly when it does.
- Client and server can disagree at rest when the answer to another message is taken for the answer to
  a subscription command, when a route is spelled in two ways, or while a mutation registered after a
  teardown is still pending (`SharedIdBreaksAgreement`, `AliasBreaksAgreement`,
  `StaleMutationHidesSubscription`). The first two bound the server half of
  `SubscriptionAgreement.Agreement`, the last one both halves; wanted iff confirmed holds in every run.
- An application message with the identifier of a remembered heartbeat is dropped by a reconnect
  (`OutboundDelivery.SharedHeartbeatIdLoses`); `OutboundDelivery.NothingLostIff` says exactly in which
  runs nothing is lost.
- The effective log level can depend on dictionary order (`LogLevels.WildcardTie`);
  `LogLevels.SelectionIsWellDefined` says exactly when.
- The configured limit of replica-wide overrides can be exceeded when a reservation script runs
  after the start it was given (`OverrideStore.LateScriptExceedsLimit`); `OverrideStore.LimitHolds`
  says when it holds for a bounded delay.
- A replica-wide apply can leave its override on the instance and not in the store: when another
  instance reverts it between reservation and apply (`OverrideCoordination.RevertDuringApply`), or when a
  reconciliation pass applies it first and the apply then rejects it
  (`OverrideCoordination.PassDuringApply`). `OverrideCoordination.FinishApply` says exactly when the two
  places agree.
- The visible audit can be shorter than the newest entries the capacity allows, when calls trim it at
  once (`AuditRuns.TrimmedTooFar`); `AuditRuns.AuditShortIff` says exactly when. A removal can be
  recorded before the application it undoes (`AuditRuns.RevertRecordedFirst`);
  `AuditRuns.RemovalRecordedFirstIff` says exactly when the history shows that.
- Cancelling the HTTP fallback transport can leave a sender waiting, because its volatile write of the
  payload may become visible only after its volatile read of the cancel flag
  (`FallbackTransport.MissedSenderIsStuck`); `FallbackTransport.NoStuckSender` says exactly when, and
  `FallbackTransport.PromptNeverStuck` is the result for a write that is visible in time.
- A message can be queued after its route was unsubscribed (`DeliveryRuns.LateUnsubscribeStillQueues`);
  `DeliveryRuns.QueuedWhileSubscribed` says exactly when.
- Acknowledging a page can delete a live record the page did not show
  (`DurablePaging.SkippedRecordIsLost`); `DurablePaging.AcknowledgementLoses` says exactly when.

## Model

| member | source | states |
|---|---|---|
| Routes.FactoriesParse | src/Realtime.Contracts/RealtimeRoute.cs:20-61 | Parsing the text of any route a factory builds gives that same route, for topics and for user topics. |
| Routes.ParsedIsBuilt | src/Realtime.Contracts/RealtimeRoute.cs:40-61 | Whatever parses is what one of the factories builds from the parsed parts, under the parsed text. |
| Routes.KeyResolvesToItsRoute | src/Realtime.AspNetCore/RealtimeAuthentication.cs:156-208 | A subscription key, read as a route text, resolves to the route it was made from. |
| Routes.KeysAreInjective | src/Realtime.AspNetCore/RealtimeAuthentication.cs:156-208 | Two texts have the same subscription key exactly when the authorizer resolves them to the same route. |
| Routes.CanonicalRouteIsItsKey | src/Realtime.AspNetCore/RealtimeAuthentication.cs:161-208 | A route text the client library accepts resolves to its own parts, and its key is the text itself. |
| Routes.AliasedSpelling | src/Realtime.AspNetCore/RealtimeAuthentication.cs:163-200 | Every topic has a second spelling that the authorizer resolves to the same route and the client library rejects. |
| Routes.CanonicalExactly | src/Realtime.Contracts/RealtimeRoute.cs:20-61 | A text parses exactly if it is one of the two forms with names of the allowed characters and lengths in it, said by its parts and by its characters. |
| Routes.KeyIsNormalized | src/Realtime.AspNetCore/RealtimeAuthentication.cs:156-208 | The key of a resolved text is the text with empty entries and surrounding white space dropped. |
| Routes.AuthorizesExactly | src/Realtime.AspNetCore/RealtimeAuthentication.cs:156-208 | A text is authorized exactly if its entries are one of the two forms, its names are safe, its user is the caller and its topic is allowed. |
| DuplicateWindow.WindowIsRecentHistory | src/Realtime.AspNetCore/RealtimeConnection.cs:137-152 | After any calls, the bounded window is the recent end of the unbounded history of accepted identifiers, without repeats. |
| DuplicateWindow.CorrelationWindow.TryTrackCorrelation | src/Realtime.AspNetCore/RealtimeConnection.cs:137-152 | An identifier is refused exactly when it is among the last accepted ones the limit covers. |
| DuplicateWindow.CorrelationWindow.Evict | src/Realtime.AspNetCore/RealtimeConnection.cs:144-149 | The loop keeps exactly the newest identifiers, in the set and in the queue. |
| SubscriptionState.TargetOfLatest | src/Realtime.Client/RealtimeClient.cs:1002-1020 | The wanted state of a route is what its newest pending mutation asks for. |
| SubscriptionState.TargetFrame | src/Realtime.Client/RealtimeClient.cs:1002-1020 | The wanted state of a route does not depend on mutations of other routes. |
| SubscriptionState.RemoveKeepsTargets | src/Realtime.Client/RealtimeClient.cs:950-965 | Taking away a mutation that is not the newest of a route leaves the wanted state of that route. |
| SubscriptionState.SubscriptionTable.ApplyChange | src/Realtime.Client/RealtimeClient.cs:288-312 | Refuses exactly when nothing would change or the limit is reached; otherwise flips this route and no other, keeps the set within the limit, and undoing it gives the set back. |
| SubscriptionState.SubscriptionTable.RegisterMutation | src/Realtime.Client/RealtimeClient.cs:936-948 | Refuses a known identifier; otherwise the new mutation is the newest of its route and decides its target, sequences stay distinct, and removing it restores the pending set. |
| SubscriptionState.SubscriptionTable.RemoveMutation | src/Realtime.Client/RealtimeClient.cs:950-965 | Frees exactly the slot of a mutation that was still pending; no target changes except of a route whose newest mutation went. |
| SubscriptionState.SubscriptionTable.HandleResponse | src/Realtime.Client/RealtimeClient.cs:967-1000 | An answer settles its mutation, confirms on success, marks the undo record and reconciles the route. |
| SubscriptionState.SubscriptionTable.ReconcileDesired | src/Realtime.Client/RealtimeClient.cs:1002-1020 | The scan for the newest mutation sets the wanted state of one route and nothing else. |
| SubscriptionState.SubscriptionTable.RollbackChange | src/Realtime.Client/RealtimeClient.cs:1022-1053 | Undo restores the previous state, or reconciles if an answer was observed. |
| SubscriptionState.SubscriptionTable.ClearPendingMutations | src/Realtime.Client/RealtimeClient.cs:1066-1078 | Every pending slot is released once; afterwards no route has a pending mutation or is believed confirmed, while the wanted set and the undo record stay. |
| SubscriptionAgreement.ResponseSlotsConserved | src/Realtime.Client/RealtimeClient.cs:250-372 | In every run, free response slots, pending mutations, slots in a thread's hands and slots that callers past the gate have yet to return add up to the capacity. |
| SubscriptionAgreement.Agreement | src/Realtime.Client/RealtimeClient.cs:818-879 | In every run, on a live connection, a route at rest is wanted iff confirmed; it is confirmed iff the server holds it, unless an answer was misread or the connection saw another spelling of the route. |
| SubscriptionAgreement.MistakenRuns | src/Realtime.Client/RealtimeClient.cs:967-980 | An answer counts as misread exactly if some event of the run took the answer to another message whose identifier was pending. |
| SubscriptionAgreement.CanonicalRoutesAgree | src/Realtime.AspNetCore/RealtimeDispatcher.cs:40-74 | When all routes sent are canonical and no answer was misread, a route at rest is wanted iff confirmed iff it is in the server's table. |
| SubscriptionAgreement.PendingMutationsAccounted | src/Realtime.Client/RealtimeClient.cs:936-1000 | On a live connection each pending mutation is exactly one of: in flight once, lost, left from before the replay, not queued yet. |
| SubscriptionAgreement.FailedChangeRestores | src/Realtime.Client/RealtimeClient.cs:313-372 | A failed change restores the wanted state it began from, except exactly when an answer was observed, the connection was torn down and the route was wanted. |
| SubscriptionServer.DispatchAnswers | src/Realtime.AspNetCore/RealtimeDispatcher.cs:40-74 | A subscription is acknowledged exactly if its identifier was not used lately, its route is authorized, its key is new and the table has room; what the table then holds. |
| SubscriptionServer.ServerTableBounded | src/Realtime.AspNetCore/RealtimeConnection.cs:154-173 | In every run the server's table and window are within their limits, and every key in the table is that of a route sent on this connection. |
| SubscriptionServer.WindowIsExact | src/Realtime.AspNetCore/RealtimeConnection.cs:137-152 | In every run the server's window is the recent end of the identifiers accepted on this connection, of commands and other messages alike. |
| SubscriptionServer.NothingQueuedOffline | src/Realtime.Client/RealtimeClient.cs:313-345 | After the connection is lost, no change that had not yet checked it queues a command before another connection was replayed. |
| SubscriptionOperations.ChangeCanEnd | src/Realtime.Client/RealtimeClient.cs:250-372 | From every reachable state, wherever a change stands, steps of its own end it and leave the gate. |
| SubscriptionOperations.ChangeIsAnswered | src/Realtime.Client/RealtimeClient.cs:250-372 | From every reachable calm state, a change that nobody disturbs ends calm with all its slots: the table is what the server answered, it is confirmed exactly if acknowledged, and the route is wanted as its newest pending command or else the server says. |
| SubscriptionOperations.CancelledChangeIsUndone | src/Realtime.Client/RealtimeClient.cs:1022-1053 | A change cancelled while it waits for a slot leaves the client as it was. |
| SubscriptionOperations.TeardownCompletes | src/Realtime.Client/RealtimeClient.cs:513-534 | From every reachable state with a connection, whatever its replay and receive loop are doing, it can be torn down: nothing pending or confirmed, the wanted set as it was, every slot free but those of changing callers. |
| SubscriptionOperations.ShutdownCompletes | src/Realtime.Client/RealtimeClient.cs:1238-1262 | From every reachable state the client can be shut down, connected or not: no mutation stays pending, also none registered after the last connection, and every slot is free but those of changing callers. |
| SubscriptionOperations.ReconnectRestores | src/Realtime.Client/RealtimeClient.cs:818-879 | From every reachable state at rest without a connection, one on which nothing fails, to a gateway that takes every wanted route, goes live with exactly the wanted routes confirmed and in the server's table. |
| SubscriptionWitnesses.AliasBreaksAgreement | src/Realtime.AspNetCore/RealtimeAuthentication.cs:163-200 | A run in which the server holds a canonical route the client never confirmed, because of a second spelling. |
| SubscriptionWitnesses.SharedIdBreaksAgreement | src/Realtime.Client/RealtimeClient.cs:967-1000 | A run in which a shared correlation identifier confirms a subscription the server does not hold. |
| SubscriptionWitnesses.FailedUnsubscribeDropsRoute | src/Realtime.Client/RealtimeClient.cs:1022-1053 | A run in which undoing a failed unsubscribe leaves the route unwanted although it was wanted before. |
| SubscriptionWitnesses.StaleMutationHidesSubscription | src/Realtime.Client/RealtimeClient.cs:320-345 | A run in which a mutation registered after a teardown hides a later confirmed subscription. |
| OutboundDelivery.NoLossInOrder | src/Realtime.Client/RealtimeClient.cs:881-922 | In every run in which no heartbeat shares its identifier with an application message, messages handed over are a prefix of the accepted ones and the rest are held, in order. |
| OutboundDelivery.NothingLostIff | src/Realtime.Client/RealtimeClient.cs:881-922 | Over whole runs, sent and held application messages are the accepted ones in order exactly when no drain met one with the identifier of a heartbeat remembered at its turn. |
| OutboundDelivery.SendSlotsConserved | src/Realtime.Client/RealtimeClient.cs:1121-1145 | In every run, each send slot is free, held, owed or stands for one unsent message; returning one never overflows. |
| OutboundDelivery.DrainKeepsApplications | src/Realtime.Client/RealtimeClient.cs:881-910 | A drain keeps all application messages in order if none has a remembered heartbeat identifier. |
| OutboundDelivery.DrainKeepsExactly | src/Realtime.Client/RealtimeClient.cs:881-922 | A drain keeps all application messages exactly when none has the identifier of a heartbeat still remembered at its turn. |
| OutboundDelivery.SharedHeartbeatIdLoses | src/Realtime.Client/RealtimeClient.cs:776-816 | A run over two connections, with the heartbeat remembered while live, in which an accepted application message is neither sent nor held. |
| OutboundDelivery.KeptExactly | src/Realtime.Client/RealtimeClient.cs:881-910 | A drain keeps exactly the messages that are no command and are not the first with the identifier of a remembered heartbeat, in order. |
| OutboundDelivery.RememberedExactly | src/Realtime.Client/RealtimeClient.cs:902-910 | After a drain a heartbeat is remembered exactly if it was and no drained message other than a command has its identifier. |
| OutboundDelivery.CommandsAreNotReplayed | src/Realtime.Client/RealtimeClient.cs:881-910 | In every run no subscription command is carried into a replay. |
| OutboundDelivery.RememberedIff | src/Realtime.Client/RealtimeClient.cs:776-816 | In every run a heartbeat is remembered exactly if some event remembered it and none since forgot it: an acknowledgement, a newer heartbeat, or a drain. |
| OutboundDelivery.HeartbeatsStopForReplay | src/Realtime.Client/RealtimeClient.cs:818-879 | In every run no heartbeat loop runs while a connection is being replayed, and a replay remembers no heartbeat. |
| OutboundDelivery.NothingAcceptedLater | src/Realtime.Client/RealtimeClient.cs:1121-1145 | Once the queue is closed nothing is accepted in any later run, and only messages already held can still be sent. |
| OutboundReconnects.EnqueueIsExact | src/Realtime.Client/RealtimeClient.cs:1121-1145 | From every reachable state with a free slot, a caller alone queues its message last, or owes its slot if the queue is closed. |
| OutboundReconnects.LiveSendsEverything | src/Realtime.Client/RealtimeClient.cs:881-922 | From every reachable live state, sends that succeed hand over everything not yet sent, in order. |
| OutboundReconnects.ReconnectSendsTheRest | src/Realtime.Client/RealtimeClient.cs:818-922 | From every reachable state without a connection, one on which nothing fails sends what is worth keeping of all that was left, in order, and goes live holding nothing. |
| OutboundReconnects.FailedSendIsRepeated | src/Realtime.Client/RealtimeClient.cs:1101-1110 | A send that fails ends the connection, and the next one starts with that message. |
| OutboundReconnects.FailedReplayIsRepeated | src/Realtime.Client/RealtimeClient.cs:1080-1110 | A replay that fails anywhere is taken up by the next connection where it stood. |
| OutboundDelivery.SendQueues.AddPending | src/Realtime.Client/RealtimeClient.cs:902-910 | Keeps a message exactly if it is no command and has no remembered heartbeat's identifier, otherwise gives its slot back; forgets a matched heartbeat and nothing else. |
| OutboundDelivery.SendQueues.DrainPendingApplicationMessages | src/Realtime.Client/RealtimeClient.cs:881-900 | Both loops together keep, in order, exactly the messages of backlog then queue that are no command and do not match a heartbeat remembered at their turn; the rest return their slots. |
| OutboundDelivery.SendQueues.RetainPendingMessages | src/Realtime.Client/RealtimeClient.cs:1101-1110 | The messages not yet replayed go to the end of the backlog, in order. |
| OutboundDelivery.SendQueues.ReplayPendingApplicationMessages | src/Realtime.Client/RealtimeClient.cs:1080-1099 | Wherever a replay fails, a prefix was sent and the exact rest is retained. |
| EventStream.BoundaryIsStable | sdk/typescript/src/diagnostics.ts:244-255 | Text that arrives later never moves a boundary already found. |
| EventStream.ChunkingDoesNotMatter | sdk/typescript/src/diagnostics.ts:228-263 | For any text in any chunks, what is delivered and whether the stream stops depend on the text alone. |
| EventStream.ConsumeStream | sdk/typescript/src/diagnostics.ts:228-263 | The chunk loop delivers what parsing the whole text at once delivers. |
| EventStream.DispatchBuffer | sdk/typescript/src/diagnostics.ts:244-255 | The inner loop dispatches every complete block and keeps the incomplete rest. |
| EventStream.DispatchStreamBlock | sdk/typescript/src/diagnostics.ts:277-291 | The line loop judges a block by its last event name and all its data lines. |
| EventStream.RoundTrip | src/Realtime.AspNetCore/DiagnosticsEndpoints.cs:397-460 | Parsing any written frames delivers their payloads before a disconnect, and stops iff there is one. |
| EventStream.StreamRoundTrip | sdk/typescript/src/diagnostics.ts:228-291 | The same for every way to cut the written text into chunks. |
| EventStream.CutRoundTrip | src/Realtime.AspNetCore/DiagnosticsEndpoints.cs:397-460 | Of a text cut anywhere, also inside a frame, exactly the frames that arrived complete are delivered. |
| EventStream.StreamItems | src/Realtime.AspNetCore/DiagnosticsEndpoints.cs:397-460 | The writer's loop writes the included items and a heartbeat per pause, up to the first item over the limit of its window, and then the disconnect. |
| EventStream.WindowIsBounded | src/Realtime.AspNetCore/DiagnosticsEndpoints.cs:434-450 | Within one window no more events and bytes are written than the limits allow. |
| EventStream.WrittenItems | src/Realtime.AspNetCore/DiagnosticsEndpoints.cs:428-452 | Included items are written in order without gaps, all of them unless the rate limit cut the stream. |
| EventStream.WrittenExactly | src/Realtime.AspNetCore/DiagnosticsEndpoints.cs:397-460 | What is written is all that came up to the first included item that exceeds the events or bytes of its window, then the disconnect; else all of it. |
| EventStream.RateLimitedIff | src/Realtime.AspNetCore/DiagnosticsEndpoints.cs:434-450 | The writer disconnects exactly if some included item exceeds the limits together with the items since its window started. |
| EventStream.NewWindowIsWritten | src/Realtime.AspNetCore/DiagnosticsEndpoints.cs:434-440 | An item that starts a window is judged by itself, whatever the last window held. |
| EventStream.PlainIsExact | src/Realtime.AspNetCore/DiagnosticsEndpoints.cs:405-452 | Without the limit, what is written has the included items in order and one heartbeat for each pause. |
| EventStreamMeaning.BlockMeaning | sdk/typescript/src/diagnostics.ts:277-291 | A block whose last event line says disconnect stops the client, a message with data lines is delivered as their values joined by line feeds, anything else is ignored; for every block of lines, with any line ends. |
| EventStreamMeaning.EveryStreamIsHeard | sdk/typescript/src/diagnostics.ts:228-291 | Every text from any server in any chunks is a series of blocks and an incomplete rest, and the client delivers what the blocks say up to the first disconnect. |
| EventStreamMeaning.LineEndsDoNotMatter | sdk/typescript/src/diagnostics.ts:244-291 | Blocks with the same lines are heard alike, with LF or CRLF at any line. |
| EventStream.EndToEnd | src/Realtime.AspNetCore/DiagnosticsEndpoints.cs:397-460 | Wherever the stream is cut, the client delivers a prefix of the included items and stops only if one exceeded its window; with the whole text it stops exactly then, and has all of them otherwise. |
| LogLevels.TieIsWildcard | src/Realtime.AspNetCore/DiagnosticsRuntime.cs:161-175 | Two selected overrides can only be "*" and a one-character category of the same scope. |
| LogLevels.SelectionIsWellDefined | src/Realtime.AspNetCore/DiagnosticsRuntime.cs:161-175 | The effective level is independent of dictionary order exactly when the table has no clash: "*" and a one-character category that apply in one scope with two levels, with nothing longer and nothing closer in scope. |
| LogLevels.SelectionIsUnique | src/Realtime.AspNetCore/DiagnosticsRuntime.cs:161-175 | Without one-character categories at most one override is selected. |
| LogLevels.WildcardTie | src/Realtime.AspNetCore/DiagnosticsRuntime.cs:161-175 | With "*" allowed, two requests admitted one after the other lead to two selected overrides of different levels. |
| LogLevels.CoversExactly | src/Realtime.AspNetCore/DiagnosticsRuntime.cs:290-348 | An allowlist entry covers everything if it is "*", otherwise exactly the categories whose dotted names begin with its own. |
| LogLevels.EffectiveIgnoresExpired | src/Realtime.AspNetCore/DiagnosticsRuntime.cs:161-175 | Expired overrides never decide an effective level. |
| LogLevelController.AcceptKeepsOnePerCategory | src/Realtime.AspNetCore/DiagnosticsRuntime.cs:290-348 | An admitted override keeps at most one unexpired override per category and scope. |
| LogLevelController.Controller.constructor | src/Realtime.AspNetCore/DiagnosticsRuntime.cs:131-143 | A new controller satisfies the invariant with no overrides and no history. |
| LogLevelController.Controller.AddAudit | src/Realtime.AspNetCore/DiagnosticsRuntime.cs:393-407 | The visible audit is the newest part of the history, the pending part a suffix within the capacity. |
| LogLevelController.Controller.EffectiveLevelCore | src/Realtime.AspNetCore/DiagnosticsRuntime.cs:161-175 | The level of a selected unexpired override if there is a candidate, else the baseline. |
| LogLevelController.Controller.EffectiveLevel | src/Realtime.AspNetCore/DiagnosticsRuntime.cs:146-151 | The same over what is left after expiry. |
| LogLevelController.Controller.RemoveExpired | src/Realtime.AspNetCore/DiagnosticsRuntime.cs:372-391 | Exactly the expired overrides go, each with one audit entry that describes it with both its levels, and nothing else is recorded. |
| LogLevelController.Controller.TryValidate | src/Realtime.AspNetCore/DiagnosticsRuntime.cs:290-348 | Accepts exactly the admissible requests, over what is left after expiry. |
| LogLevelController.Controller.TryApply | src/Realtime.AspNetCore/DiagnosticsRuntime.cs:234-280 | Applied, existing or rejected, each exactly when, with the whole new state; the newest audit entry describes it with the level before and after, and the invariant and the audit balance are kept. |
| LogLevelController.Controller.Insert | src/Realtime.AspNetCore/DiagnosticsRuntime.cs:257-279 | The accepting half of applying: the override joins what is left after expiry, and the newest audit entry describes it with the level before and after. |
| LogLevelController.Controller.Revert | src/Realtime.AspNetCore/DiagnosticsRuntime.cs:350-370 | Removes the override if present; the newest audit entry describes it with the level before and after, and the audit balance is kept. |
| LogLevelController.Controller.GetActive | src/Realtime.AspNetCore/DiagnosticsRuntime.cs:177-184 | Every unexpired override once, ordered by end; the expired ones are gone. |
| LogLevelController.Controller.Expire | src/Realtime.AspNetCore/DiagnosticsRuntime.cs:372-391 | Expiry keeps the invariant and the audit balance at the later instant. |
| LogLevelController.Controller.Contains | src/Realtime.AspNetCore/DiagnosticsRuntime.cs:214-218 | Whether an unexpired override has the identifier. |
| LogLevelController.Controller.MarkPendingAuditPersisted | src/Realtime.AspNetCore/DiagnosticsRuntime.cs:203-212 | Drops the head of the pending audit only if it is the persisted entry. |
| AuditRuns.OnePerCategoryAlways | src/Realtime.AspNetCore/DiagnosticsRuntime.cs:220-348 | In every interleaving of applications, validations, reverts and reads, at most one unexpired override per category and scope, instance-scoped ones within the limit, and none of a category the allowlist does not name or cover from above. |
| AuditRuns.AuditBalance | src/Realtime.AspNetCore/DiagnosticsRuntime.cs:252-277 | In every interleaving, whenever no call owes an entry for an identifier, the history has one application more than removals of it if it is active, and as many if it is not. |
| AuditRuns.RemovalRecordedFirstIff | src/Realtime.AspNetCore/DiagnosticsRuntime.cs:350-391 | The history shows more removals than applications, by one, exactly while an inserted override is gone again, its removals are recorded and its application is not. |
| AuditRuns.RevertRecordedFirst | src/Realtime.AspNetCore/DiagnosticsRuntime.cs:350-370 | For every acceptable request, a run in which the revert is recorded before the application. |
| AuditRuns.AuditRetention | src/Realtime.AspNetCore/DiagnosticsRuntime.cs:393-408 | In every interleaving both audit queues are ends of what was put into them and the unpersisted one is within its capacity; at rest the visible one is, too, both got the same entries, and it falls short of the newest entries by at most the other calls that trimmed at once. |
| AuditRuns.AuditShortIff | src/Realtime.AspNetCore/DiagnosticsRuntime.cs:404-407 | In every run the visible audit is shorter than the newest entries the capacity allows exactly if some call took an entry from a queue within its capacity and not enough were added since. |
| AuditRuns.TrimmedTooFar | src/Realtime.AspNetCore/DiagnosticsRuntime.cs:404-407 | A run in which two calls trim at once and leave no entry where the capacity is one. |
| OverrideLifetimes.WellFormedIff | src/Realtime.AspNetCore/DiagnosticsRuntime.cs:290-348 | Validation lets through exactly the requests that name a level and are within the limits of category, allowlist, duration, reason and scope. |
| OverrideLifetimes.EveryOverrideWasGranted | src/Realtime.AspNetCore/DiagnosticsRuntime.cs:220-280 | In every interleaving each override was asked for by an application, not by a validation, whose request was within all limits, and has the category, level, scope and duration it asked for. |
| OverrideLifetimes.LeavesOnlyInTime | src/Realtime.AspNetCore/DiagnosticsRuntime.cs:350-391 | In every interleaving an override leaves only at the hands of a call to revert it or, with identifiers of their own, after its end. |
| OverrideLifetimes.HistoryIsTrue | src/Realtime.AspNetCore/DiagnosticsRuntime.cs:252-407 | In every interleaving each audit entry tells of an override that was asked for: applied as it was, reverted after a call to, or expired after its end. |
| UninterruptedCalls.ApplicationAlone | src/Realtime.AspNetCore/DiagnosticsRuntime.cs:220-348 | From every reachable state, the accesses of one application or validation alone end with what its checks over the unexpired overrides say: the new override or none, the expired ones gone, one audit entry for each change, the lock free. |
| UninterruptedCalls.RevertCallAlone | src/Realtime.AspNetCore/DiagnosticsRuntime.cs:350-391 | The same for a revert: its override goes, if it is there, and what has expired, each with its entry. |
| UninterruptedCalls.ReadAlone | src/Realtime.AspNetCore/DiagnosticsRuntime.cs:372-407 | The same for a read: exactly what has expired goes, with one entry each, and the audit queues keep the newest. |
| OverrideStore.Invariant | src/Realtime.AspNetCore/DiagnosticsCoordination.cs:130-145 | In every run of the scripts, reservations, active keys and index match each other and the index stays within the limit. |
| OverrideStore.OneLivePerCategory | src/Realtime.AspNetCore/DiagnosticsCoordination.cs:130-145 | In every run a category has at most one live override, and a live reservation exactly when it has one. |
| OverrideStore.IndexShowsTheLive | src/Realtime.AspNetCore/DiagnosticsCoordination.cs:130-145 | In every run the index shows exactly the live overrides before their nominal end, at most the limit. |
| OverrideStore.ReservedIff | src/Realtime.AspNetCore/DiagnosticsCoordination.cs:130-153 | In every run a new message gets a live key for its lifetime exactly if no live override has its category and fewer than the limit are listed that end after its start; no other key is touched. |
| OverrideStore.RemovedExactly | src/Realtime.AspNetCore/DiagnosticsCoordination.cs:192-305 | In every run a removal takes away its key, its reservation and its index entry, and nothing else. |
| OverrideStore.CleaningIsInvisible | src/Realtime.AspNetCore/DiagnosticsCoordination.cs:604-625 | In every run, pruning and unlisting drop only what has ended or has no live key, and hide no current override. |
| OverrideStore.LimitHolds | src/Realtime.AspNetCore/DiagnosticsCoordination.cs:130-153 | If no script runs more than a given delay after its start, overrides overstay only within that delay of their nominal end, and the limit holds whenever none is in that interval. |
| OverrideStore.LateScriptExceedsLimit | src/Realtime.AspNetCore/DiagnosticsCoordination.cs:130-145 | For every limit, a run of late scripts with more live overrides than the limit. |
| OverrideCoordination.FinishApply | src/Realtime.AspNetCore/DiagnosticsCoordination.cs:154-163 | After a reservation the override is applied, or taken back from the store; it is then in both places or in neither exactly if, when applied, nobody had removed it from the store, and when rejected, it was not already here. |
| OverrideCoordination.RevertDuringApply | src/Realtime.AspNetCore/DiagnosticsCoordination.cs:127-158 | For every acceptable request, a run in which a revert comes between reservation and apply and the override ends on the instance alone. |
| OverrideCoordination.PassDuringApply | src/Realtime.AspNetCore/DiagnosticsCoordination.cs:127-158 | For every acceptable request, a run in which a pass applies the override first, the apply rejects it, and it ends on the instance alone. |
| OverrideCoordination.RollbackApply | src/Realtime.AspNetCore/DiagnosticsCoordination.cs:164-189 | A cancelled or failed apply leaves the override neither here nor, if Redis can be reached, in the store, and touches no other. |
| OverrideCoordination.ApplyInstance | src/Realtime.AspNetCore/DiagnosticsCoordination.cs:39-105 | An instance-scoped override stays exactly if it was admitted and coordination did not fail where it is required; the change is one a reachable cluster allows. |
| OverrideCoordination.RevertOverride | src/Realtime.AspNetCore/DiagnosticsCoordination.cs:192-305 | When a revert is found and when it succeeds, by where the override is and how far Redis can be reached; success leaves it in neither place, failure leaves what was here. |
| OverrideCoordination.RevertMessage | src/Realtime.AspNetCore/DiagnosticsCoordination.cs:667-674 | A published revert removes the override and is a change a reachable cluster allows. |
| OverrideCoordination.ListActive | src/Realtime.AspNetCore/DiagnosticsRuntime.cs:177-184 | Listing, which also expires what is due, is a change a reachable cluster allows. |
| OverrideCoordination.OwnOverrideConflicts | src/Realtime.AspNetCore/DiagnosticsCoordination.cs:154-158 | An apply rejects its own override if a reconciliation pass applied it first. |
| OverrideCoordination.ApplyMessage | src/Realtime.AspNetCore/DiagnosticsCoordination.cs:653-708 | Any message the store has seen, with or without a local rival, is a change a reachable cluster allows: at most it comes in and at most expired overrides go; without a rival it comes in unless it is already there or over. |
| OverrideCoordination.ApplyPublished | src/Realtime.AspNetCore/DiagnosticsCoordination.cs:653-708 | Whatever message anyone publishes, at most the override it asks for comes in, only if it is valid, within all limits and not over, and only expired ones go; an invalid one changes nothing. |
| OverrideCoordination.ReadActive | src/Realtime.AspNetCore/DiagnosticsCoordination.cs:604-625 | The read loop finds exactly the current identifiers with their messages. |
| OverrideCoordination.RevertStale | src/Realtime.AspNetCore/DiagnosticsCoordination.cs:626-629 | Reverts the replica-wide overrides the store no longer lists and nothing else. |
| OverrideCoordination.ApplyAll | src/Realtime.AspNetCore/DiagnosticsCoordination.cs:630-633 | Afterwards every message not over is applied and every replica-wide override is one of the store's. |
| OverrideCoordination.ReconcileActive | src/Realtime.AspNetCore/DiagnosticsCoordination.cs:604-634 | From any reachable local state, after one pass the replica-wide overrides of an instance are those of the store, instance-scoped ones are untouched, and the next pass may follow. |
| OverrideCoordination.ReplicasAgree | src/Realtime.AspNetCore/DiagnosticsCoordination.cs:604-634 | Two replicas that reconciled after the last replica-wide change, each at its own time, hold the same replica-wide overrides from then on. |
| OverrideCoordination.ReachableReplicasRemember | src/Realtime.AspNetCore/DiagnosticsCoordination.cs:118-160 | In every reachable cluster the store is consistent and every replica holds, under any identifier the store has seen, what that message announced. |
| FallbackTransport.NoStuckSender | src/Realtime.HttpFallback/HttpFallbackTransport.cs:22-92 | In every run, also with the publication in a store buffer, writing never waits for space, and once cancellation has returned the sender is stuck exactly if cancellation looked for its payload while the publication was buffered and the flag already rechecked, and nobody answered it since. |
| FallbackTransport.MissedIff | src/Realtime.HttpFallback/HttpFallbackTransport.cs:30-34 | A payload counts as missed exactly if some event of the run was such a look. |
| FallbackTransport.PromptNeverStuck | src/Realtime.HttpFallback/HttpFallbackTransport.cs:22-92 | If every publication is visible before the flag is read again, no sender is left waiting once cancellation has returned. |
| FallbackTransport.MissedSenderIsStuck | src/Realtime.HttpFallback/HttpFallbackTransport.cs:30-39 | A run in which cancellation has returned and the sender waits for a payload nobody answers. |
| FallbackTransport.SenderStops | src/Realtime.HttpFallback/HttpFallbackTransport.cs:22-44 | Once cancellation has returned and did not overlook the payload under way, whatever other parties do in between, at most seven of the sender's own steps end its loop. |
| FallbackTransport.OverlookedSenderWaits | src/Realtime.HttpFallback/HttpFallbackTransport.cs:35-39 | An overlooked sender does not end by its own steps, even if the reader takes the payload. |
| FallbackTransport.Rendezvous | src/Realtime.HttpFallback/HttpFallbackTransport.cs:22-62 | In every run the reader takes payloads in order, a successful send was taken and completed, and at most one is unacknowledged. |
| FallbackTransport.SendIsExact | src/Realtime.HttpFallback/HttpFallbackTransport.cs:22-62 | From every reachable ready state, a send that the reader takes and completes succeeds and leaves the transport ready, with the payload written, taken and sent. |
| FallbackTransport.CancelIsExact | src/Realtime.HttpFallback/HttpFallbackTransport.cs:22-77 | Cancelled instead, the send fails, its payload is answered so, and no other send begins. |
| FallbackTransport.CloseIsExact | src/Realtime.HttpFallback/HttpFallbackTransport.cs:85-92 | Closing during a send closes the transport, completes the channel and cancels the payload under way. |
| FallbackTransport.TokenIsExact | src/Realtime.HttpFallback/HttpFallbackTransport.cs:35-44 | The caller's token ends a waiting send and clears its publication, and answers nothing. |
| FallbackTransport.EarlyTokenIsExact | src/Realtime.HttpFallback/HttpFallbackTransport.cs:35-44 | The caller's token also ends a send that has not written yet, and then nothing was written. |
| FallbackTransport.ClosedSendsNothing | src/Realtime.HttpFallback/HttpFallbackTransport.cs:24 | Every send that begins after closing fails: nothing more is written or sent in any later run. |
| FallbackTransport.ClosesInTurn | src/Realtime.HttpFallback/HttpFallbackTransport.cs:73-92 | In every run closing acts once and in its order, and no payload is cancelled before the flag is up. |
| FallbackTransport.FlagHasCause | src/Realtime.HttpFallback/HttpFallbackTransport.cs:73-92 | In every run the cancel flag is up only after a cancellation was called or the transport closed. |
| FallbackTransport.TakenOnce | src/Realtime.HttpFallback/HttpFallbackTransport.cs:73-77 | In every run a payload that one cancellation has taken can be found by no other. |
| ConnectionQueue.GaugesAreExact | src/Realtime.AspNetCore/GatewayState.cs:320-358 | In every run the gauges never go below zero, so their guards never act, and at rest they equal what the connections hold. |
| ConnectionQueue.QueueIsExact | src/Realtime.AspNetCore/RealtimeConnection.cs:154-259 | In every run a counter is its unaccounted messages within the capacity, accepted messages are taken in order, and a write fails only on a completed channel. |
| ConnectionQueue.EnqueueIsExact | src/Realtime.AspNetCore/RealtimeConnection.cs:181-213 | In every state of every run, an enqueue alone takes its message, as the last, exactly if the connection is open, not disposed or completed, and below its capacity; otherwise it changes nothing. |
| ConnectionQueue.AcceptedWhileOpen | src/Realtime.AspNetCore/RealtimeConnection.cs:181-213 | In every run every accepted message was offered to the connection while it was open. |
| ConnectionQueue.CompletedAcceptsNothing | src/Realtime.AspNetCore/RealtimeConnection.cs:261-312 | Once its channel is completed a connection accepts nothing more, whatever happens later. |
| ConnectionQueue.SendIsExact | src/Realtime.AspNetCore/RealtimeConnection.cs:221-259 | The sender alone takes the oldest message and gives its place back. |
| ConnectionQueue.DisposeIsExact | src/Realtime.AspNetCore/RealtimeConnection.cs:314-322 | Disposal alone empties counter and table and completes the channel. |
| ConnectionQueue.SubscriptionIsExact | src/Realtime.AspNetCore/RealtimeConnection.cs:154-173 | A subscription change alone adds a key within the limit or takes one away, on a connection not disposed. |
| ConnectionRegistry.DrainReachesEveryAdmitted | src/Realtime.AspNetCore/GatewayDrainService.cs:28-48 | In every run, when a drain sweep is over, also one restarted after cancellation, it reached every connection whose registration succeeded and that was not removed. |
| ConnectionRegistry.DictionaryIsExact | src/Realtime.AspNetCore/RealtimeConnectionRegistry.cs:46-77 | In every run no rejected or removed connection is in the dictionary, and with no registration under way it holds exactly the accepted ones. |
| ConnectionRegistry.DrainingIsFinal | src/Realtime.AspNetCore/RealtimeConnectionRegistry.cs:44-66 | Once draining, no later event admits a connection. |
| ConnectionRegistry.ActiveGaugeIsExact | src/Realtime.AspNetCore/RealtimeConnectionRegistry.cs:46-77 | In every run the gauge counts exactly the accepted connections whose removal it has not seen. |
| ConnectionRegistry.DrainCompletes | src/Realtime.AspNetCore/GatewayDrainService.cs:28-48 | From every reachable state the drain's own steps, also after a cancellation, close everyone in the dictionary after everyone admitted was told to restart. |
| ConnectionRegistry.RestartComesFirst | src/Realtime.AspNetCore/GatewayDrainService.cs:28-48 | In every run nobody is refused, told or closed without a drain, and before anyone is closed everyone admitted and not removed was told to restart. |
| ConnectionRegistry.LateAddIsRefused | src/Realtime.AspNetCore/RealtimeConnectionRegistry.cs:46-66 | A registration that begins while draining is refused in every later run and never in the dictionary. |
| ConnectionRegistry.AcceptedStays | src/Realtime.AspNetCore/RealtimeConnectionRegistry.cs:46-77 | An accepted connection stays in the dictionary until its owner removes it. |
| ConnectionRegistry.AddIsExact | src/Realtime.AspNetCore/RealtimeConnectionRegistry.cs:46-66 | From every reachable state, a registration alone is accepted, listed and counted exactly if no drain has begun. |
| ConnectionRegistry.RemoveIsExact | src/Realtime.AspNetCore/RealtimeConnectionRegistry.cs:68-77 | A removal alone takes an accepted connection out of dictionary and gauge. |
| Delivery.Revalidate | src/Realtime.AspNetCore/RealtimeConnectionRegistry.cs:100-144 | Passes exactly with an unexpired principal of the same tenant and user, which the connection then has; otherwise closes with the right reason. |
| Delivery.Deliver | src/Realtime.AspNetCore/RealtimeConnectionRegistry.cs:92-162 | The message is queued exactly when the connection is entitled, open and has room; exactly when it is closed, and for which reason; the principal in force keeps tenant and user. |
| Delivery.DeliverAsync | src/Realtime.AspNetCore/RealtimeConnectionRegistry.cs:79-169 | Every connection is served once, by its own entitlement alone. |
| Delivery.ReachesExactlyTheRoute | src/Realtime.AspNetCore/RealtimeConnectionRegistry.cs:171-180 | An authorized message reaches exactly the open connections of its tenant subscribed, under any spelling, to its route and allowed before and after revalidation, whatever else was revoked; the hypothesis holds again afterwards. |
| Delivery.SessionDecides | src/Realtime.AspNetCore/RealtimeConnectionRegistry.cs:100-151 | A connection with a session takes over the principal of an answer for its own person and gets the message exactly if that principal permits the topic now; any other answer queues nothing and closes it with its reason. |
| Delivery.HandshakeDecides | src/Realtime.AspNetCore/RealtimeConnectionRegistry.cs:100-151 | Without a session the principal of the handshake decides, whatever the answer. |
| Delivery.OthersUntouched | src/Realtime.AspNetCore/RealtimeConnectionRegistry.cs:92-98 | A connection that is no recipient is left exactly as it was. |
| DeliveryRuns.UninterruptedDelivery | src/Realtime.AspNetCore/RealtimeConnectionRegistry.cs:92-162 | Without interleaving, the three steps of a delivery are the loop body. |
| DeliveryRuns.QueuedByItsDelivery | src/Realtime.AspNetCore/RealtimeConnectionRegistry.cs:92-162 | In every run of subscriptions, refreshes and concurrent deliveries, every message ever queued has a delivery of its own: it began with the connection a recipient, its second check left the connection a recipient, and it had queued nothing before. |
| DeliveryRuns.DeliveryQueuesOnce | src/Realtime.AspNetCore/RealtimeConnectionRegistry.cs:92-162 | A delivery queues at most once. |
| DeliveryRuns.OnlyOwnMessages | src/Realtime.AspNetCore/RealtimeConnectionRegistry.cs:79-180 | In every run tenant and user stay those of the handshake, whatever was queued is of that tenant and for nobody else, and the queue is the unsent part of it, in order. |
| DeliveryRuns.QueuedWhileSubscribed | src/Realtime.AspNetCore/RealtimeConnectionRegistry.cs:146-151 | When a message is queued its key is out of the table exactly if an unsubscribe from its route came since its delivery's second check and no subscribe followed. |
| DeliveryRuns.QueuedWasSubscribed | src/Realtime.AspNetCore/RealtimeConnection.cs:154-179 | At its delivery's second check, the connection was subscribed under a text of the queued message's very route. |
| DeliveryRuns.KeyGoneIff | src/Realtime.AspNetCore/RealtimeConnection.cs:154-173 | Between two moments of a run a key leaves the table exactly by an unsubscribe from its route that no subscribe follows. |
| DeliveryRuns.LateUnsubscribeStillQueues | src/Realtime.AspNetCore/RealtimeConnectionRegistry.cs:146-151 | A run in which a message is queued after its route was unsubscribed, because the check came before. |
| DeliveryRuns.AnswersAreAdopted | src/Realtime.AspNetCore/RealtimeConnectionRegistry.cs:100-144 | In every run a refresh or a delivery's check makes the connection take over the principal of an answer for its own person and keep its own on any other; exactly when and why that closes it. |
| DeliveryRuns.CheckDecides | src/Realtime.AspNetCore/RealtimeConnectionRegistry.cs:100-151 | After its second check a delivery goes on exactly if the principal has not lapsed and the connection is a recipient, and is over otherwise. |
| DeliveryRuns.QueuedWasPermitted | src/Realtime.AspNetCore/RealtimeConnectionRegistry.cs:100-151 | Whatever was queued, the answer to its delivery's question, or without a session the handshake, permitted the topic at that moment. |
| DeliveryRuns.SlowConsumerIff | src/Realtime.AspNetCore/RealtimeConnectionRegistry.cs:146-162 | In every run a connection is closed as too slow exactly when it has refused as many offers in a row as the limit says; while open it has refused fewer. |
| DeliveryRuns.LimitsKept | src/Realtime.AspNetCore/RealtimeConnection.cs:154-213 | In every run the subscription table and the queue stay within their limits. |
| DeliveryRuns.SenderEmptiesQueue | src/Realtime.AspNetCore/RealtimeConnection.cs:221-259 | From every state, a sender that keeps taking sends all that is queued, in order. |
| DurablePaging.FitPage | src/Realtime.Config/RealtimePersistenceEndpoints.cs:51-64 | The page is the longest initial piece within the byte limit; it fails only on a record the append gate refuses. |
| DurablePaging.GateIsOneRecord | src/Realtime.Config/RealtimePersistenceEndpoints.cs:97-108 | The append gate lets through exactly the records of a safe sequence that fit a page by themselves. |
| DurablePaging.PageShowsExactly | src/Realtime.Plugins.Persistence/RelationalPersistenceStore.cs:92-123 | A page shows exactly the stored records above the cursor up to its last one that have not expired; a complete one, all of them. |
| DurablePaging.BodyIsArray | src/Realtime.Config/RealtimePersistenceEndpoints.cs:51-64 | A body is two brackets, the encodings, and a comma between each two. |
| DurablePaging.PersistenceStore.AppendAsync | src/Realtime.Plugins.Persistence/RelationalPersistenceStore.cs:64-81 | Inserts exactly valid, new records; a duplicate is a database error. |
| DurablePaging.PersistenceStore.WorkerAppend | src/Realtime.Config/RealtimePersistenceEndpoints.cs:97-108 | Only records that pass the gate are stored, so a gated stream stays gated; other streams are untouched. |
| DurablePaging.PersistenceStore.ReadAsync | src/Realtime.Plugins.Persistence/RelationalPersistenceStore.cs:92-123 | An ordered, gapless initial piece of the live records above the cursor, complete or at the limit. |
| DurablePaging.PersistenceStore.ReadPage | src/Realtime.Config/RealtimePersistenceEndpoints.cs:42-74 | A gapless, maximal page whose body has at most 65536 bytes; on gated streams it succeeds exactly on valid requests. |
| DurablePaging.PersistenceStore.Acknowledge | src/Realtime.Config/RealtimePersistenceEndpoints.cs:75-84 | Deletes exactly the stream's rows up to the sequence. |
| DurablePaging.PersistenceStore.PruneExpired | src/Realtime.Plugins.Persistence/RelationalPersistenceStore.cs:138-146 | No expired row remains, every live row stays as it was, and pruning is invisible to every later read. |
| DurablePaging.PersistenceStore.ReadAll | src/Realtime.Config/RealtimePersistenceEndpoints.cs:42-74 | Paging by the last sequence stops and returns every record that stays live once, in order, at any non-decreasing times. |
| DurablePaging.PagingUnderChanges | src/Realtime.Config/RealtimePersistenceEndpoints.cs:42-74 | Whatever is appended, acknowledged or pruned between the requests, paging until an empty page shows every record that stays live all along, in order and once. |
| DurablePaging.AcknowledgementLoses | src/Realtime.Plugins.Persistence/RelationalPersistenceStore.cs:125-136 | Acknowledging a page, at any later time and whatever was appended, pruned or acknowledged since, loses a live record exactly when one lies at or below the cursor or was appended since at or below the page's end. |
| DurablePaging.SkippedRecordIsLost | src/Realtime.Plugins.Persistence/RelationalPersistenceStore.cs:125-136 | Acknowledging a page read from above a live record deletes that record unseen. |
| DurablePaging.IncreasingProducersLoseNothing | src/Realtime.Plugins.Persistence/PersistenceContracts.cs:8-9 | With increasing sequences, a record is lost exactly when one that was read, is still stored and is still live lies at or below the cursor. |

## Left out

- SubscriptionAgreement.Agreement: the server half is for runs without a misread answer and for a route the connection saw in one spelling; the witnesses show both are needed.
- OutboundDelivery.NoLossInOrder: ends where the client shuts down; the final discarding of queues is not modelled.
- EventStream.RoundTrip: payloads are single-line text without leading white space, as the JSON serializer writes them; JSON and UTF-8 decoding are not modelled.
- LogLevelController.Controller.AddAudit: calls are atomic here; their interleavings are in AuditRuns.
- FallbackTransport.NoStuckSender: of the memory model only the sender's publication is delayed; every other access is interlocked or a read that may be as early as its step.
- OverrideStore.Invariant: one clock for all replicas and Redis; keys are named by category and identifier, not by their hashes.
- OverrideCoordination.ReconcileActive: the store does not change while a pass reads it, and nothing else changes the instance's overrides during the pass.
- ConnectionQueue.GaugesAreExact: subscription changes of a connection and its disposal are serialized by their owners, as in the handlers; slow-consumer strikes are in Delivery instead.
- Delivery.Deliver: connections are values and a delivery is one step; its interleavings are in DeliveryRuns and those of the queue in ConnectionQueue.
- DeliveryRuns.OnlyOwnMessages: acknowledgements, errors and pings share the queue in the program and are not in this run.
- DurablePaging.PersistenceStore.ReadAll: the table does not change while this method pages; `DurablePaging.PagingUnderChanges` is the result for a table that does.
- Publication, the metadata keys of instance-scoped overrides, audit persistence and error texts of the diagnostics control service.
- Alternative-stack examples, hosting, dependency injection, option binding and validation.
- SQL dialects, the Redis client, TLS, token hashing, session storage and JSON encoding.
- Redaction, Prometheus and OpenTelemetry rendering, histograms and running maxima.
- The TypeScript messaging client and its transports, and reconnect delays.
- Task snapshots in `DurableTasks`, which impose no order between snapshots.
- Real time and fairness: the results are about safety, about what an operation does when nobody interrupts it, and about ends that can always be reached; that they are reached is not claimed, except for loops and `SenderStops`.
