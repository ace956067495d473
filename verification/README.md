# ribbitto: verification of live delivery, its state machines and the message grammar

This project models six parts of ribbitto, a chat server, in Dafny and proves
properties of them. Nothing here runs the server.

**Concurrent parts are state machines.** A module such as `RealtimeCache`,
`HubLevels`, `StreamAuthorizer`, `SessionStreams`, `Presence`, `Typing` or
`PinsRounds` has a state, one action per critical section, atomic operation,
timer callback or store operation, and an invariant that each action keeps.
Callers interleave freely: a run is any sequence of enabled actions. The
module named `…Runs` states what holds over all runs; those named `…Answers`,
`…Entries`, `…Causes` and `…Exact` say, from the actions of the run alone, what
comes of a call and why: when it fails, what it finds, which entry leaves, who
is online. The module named `…Object` has the code's own object, whose methods
change its fields and are proved to take exactly the state machine's step.

**The delivery loop is a method.** `StreamRun.Stream.Run` is the loop with its
cursor, levels, deadlines and write bookkeeping; everything outside (stores,
renderers, owners, the clock) answers as it likes. The method leaves a log that
obeys `DeliveryLog`'s rules, and the delivery guarantees are lemmas about every
log that does, also across reconnects. `LiveDelivery` joins such a log with
runs of the hub's levels, the shared event reads and the read-change watches,
all on one clock, as `FreshAuthorization` joins the stream checks with the
cache of epoch reads. `DeliveryDuties` says what such a log owes: the owners'
frames, and whatever falls due.

**Parsers and printers are functions with loops proved against them.**
`ChatGrammar` is the chat_v1 grammar as functions, `ChatParser` the one-pass
stack parser, `ChatText` the escaper and the extractor; `ChatPrint`,
`ChatDocument`, `ChatShown` and `ChatStyles` say what the grammar means by a
printer it reads back and by laws of every line. `Mentions` and its
companions are the rewrite of typed handles into references, `EventStream` the
server-sent events, `PasswordText` the canonical hash string.

**Transactions are ordered writes on a view that a commit publishes.**
`ConversationTx` runs the code's store calls in order, any of which may fail;
`Conversation` says what a transaction leaves behind, and its histories mix
committed, refused, failed and unknown outcomes with changes of handles.

The code is followed where it promises less than its comments and documents
suggest. The load client's reader stops at a line that does not fit its
buffer, so `EventStream` says exactly what is read up to there. And
`docs/domain/message-posting.md` promises that an equal retry returns the
stored message even after a handle change, while `repeat` resolves the
references of the quoted message anew: `ConversationRetry` has a history in
which the retry is refused, and `ConversationHistory.SendingAgain` and
`QuotesThatStay` say exactly when it is not. `Conversations.Send` answers by
the worlds that its own call passes, each put on record, and
`ConversationTx.UnchangedHandlesAnswer` is what that leaves of the promise.

## Model

| member | source | states |
|---|---|---|
| RealtimeCacheRuns.Freshness | internal/realtime/cache.go:81-93 | A value that Get returns without an error is the output of a loader run for its key that has ended, and either keep accepted it or that run began after this very Get began; over every interleaving of starters, joiners, leavers, timeouts and parent cancellation |
| RealtimeCacheRuns.LoadedRun | internal/realtime/cache.go:192-237 | The loader run behind a returned value, found as it stood at the step its loader returned |
| RealtimeCacheAnswers.FailuresHaveCauses | internal/realtime/cache.go:105-177 | A Get fails only for a cause in the run: it gave up itself, or a load it waited for, the starter's or for a joiner the joiners' own, met its timeout or the end of its context, or its loader returned an error, or everything shut down; nobody else's leaving fails it |
| RealtimeCacheAnswers.ValuesAreTheLoads | internal/realtime/cache.go:105-237 | A value is what the Get found stored, or what the run of the very load it waited for returned; a joiner has the starter's value only if keep accepts it, and otherwise the second load's |
| RealtimeCacheEntries.EntersExactly | internal/realtime/cache.go:112-134 | What a Get's critical section does, over whole runs: an unexpired entry answers it at once and nothing is loaded; else it joins the load of its key that somebody waits for, and only if there is none it starts one |
| RealtimeCacheEntries.OneLoadPerKey | internal/realtime/cache.go:126-134 | Single flight: a key has at most one load that callers may join |
| RealtimeCacheEntries.DecidesExactly | internal/realtime/cache.go:192-237 | The value of a load somebody waits for is stored exactly if keep accepts it and the parent lives; the joiners' second load begins exactly if there are joiners and a value that was not stored; a load nobody waits for stores nothing |
| RealtimeCacheEntries.EvictsTheOldest | internal/realtime/cache.go:112-125 | An entry leaves only when a Get finds it expired, or when another value is stored while the cache is full; then it is the one found or stored least recently in the run |
| RealtimeCacheEntries.OrderedByUse | internal/realtime/cache.go:115-118 | The recency list is in the order of last use, told by the actions |
| RealtimeCacheEntries.CancelledExactly | internal/realtime/cache.go:148-177 | A load is cancelled exactly when no Get waits on it, or, once it is the joiners' second load, when no joiner does |
| RealtimeCacheEntries.SlotsExactly | internal/realtime/cache.go:243-277 | No slot is lost: an occupied one is held by a load about to start its loader or by a loader that has not returned it, and a started loader holds its slot until it does |
| RealtimeCacheRuns.RunsLast | internal/realtime/cache.go:243-277 | No later step changes a loader run's key or the moment it began, on which freshness is judged |
| RealtimeCacheRuns.Bounds | internal/realtime/cache.go:201-277 | Entries and recency list stay in bijection within capacity, a key with a current load has no stored entry, and at most maxLoads loaders run, also counting those whose callers have timed out |
| RealtimeCacheRuns.AbandonedLoadIsInert | internal/realtime/cache.go:148-237 | A load whose callers have all left neither stores its late result nor removes or replaces a newer load or entry of its key |
| RealtimeCacheShutdown.ShutdownAcceptsNothing | internal/realtime/cache.go:65-92 | Over whole runs, once the parent context has ended: no entry is added or replaced, and a value that any Get returns from then on had passed its last check by then, so its loader had already returned |
| RealtimeCacheShutdown.StepOld | internal/realtime/cache.go:192-293 | With the parent ended, no step of any load or caller makes a value available that was not accepted before |
| RealtimeCache.InvKept | internal/realtime/cache.go:105-293 | Every critical section, channel operation and loader return keeps the cache's invariant: counts of waiters and joiners, ownership of keys, slots and results |
| RealtimeCacheObject.Cache.constructor | internal/realtime/cache.go:94-100 | NewCache starts empty, with bounds of at least one |
| RealtimeCacheObject.Cache.Enter | internal/realtime/cache.go:105-134 | Get's critical section is the model's step: hit, join or start |
| RealtimeCacheObject.Cache.Wake | internal/realtime/cache.go:135-146 | A caller woken by its channel takes the starter's or the joiners' result |
| RealtimeCacheObject.Cache.Leave | internal/realtime/cache.go:148-177 | leave takes the caller off its call; the last one cancels the load and takes it out of the map, unless the result was there |
| RealtimeCacheObject.Cache.Acquire | internal/realtime/cache.go:250-255 | A load takes a free loader slot, of which there are maxLoads |
| RealtimeCacheObject.Cache.Launch | internal/realtime/cache.go:256-270 | With a slot, a load that is cancelled by then gives it back and does not run the loader |
| RealtimeCacheObject.Cache.Decide | internal/realtime/cache.go:192-237 | Retention, eviction and the joiners' second load are decided in one critical section, exactly as the model decides them |
| RealtimeCacheObject.Cache.Store | internal/realtime/cache.go:201-220 | Storing pushes the entry to the front and evicts the least recently used beyond capacity |
| RealtimeCacheObject.Cache.Evict | internal/realtime/cache.go:215-219 | Eviction drops the back of the recency list and its entry together |
| RealtimeCacheObject.Cache.Publish | internal/realtime/cache.go:221-237 | The starter's channel is closed once, the joiners' with it unless they get their own load |
| CachedEvents.FullBatchesLast | internal/realtime/cached_events.go:75-79 | A full batch read at one time is what any later direct read after the same cursor returns while the cursor has not expired: why full batches may be kept |
| CachedEvents.LoadedWasRead | internal/realtime/cached_events.go:59-73 | Every value the cache hands out was a direct read made while its loader run was under way |
| CachedEvents.RefinesDirectRead | internal/realtime/cached_events.go:59-73 | A result of EventsAfter is exactly what one direct read made during the call returns |
| CachedEvents.ShortResultsAreComplete | internal/realtime/cached_events.go:10-36 | A result continues the cursor in order without a gap, and a short one holds every event committed when the call began |
| StreamAuthorizerRuns.AnswersFollowTheirRead | internal/org/stream_authorizer.go:86-184 | On all three return paths a membership that a check answers with has an access epoch at least the one that same check read after registering |
| StreamAuthorizerRuns.AnswersAreFetched | internal/org/stream_authorizer.go:86-184 | A membership a check answers with, on whichever of its paths, was given by the store earlier in the run to a check of that very account and slug; a shared entry never serves another key |
| StreamAuthorizerAnswers.AnswersAreExact | internal/org/stream_authorizer.go:86-184 | A check fails exactly if one of its own reads failed or a context had ended by then; it is denied exactly if, with none failed, the organisation was missing, the store knew no such member, or only one older than the epoch read; else it is allowed |
| StreamAuthorizerAnswers.CurrentMembersAreAllowed | internal/org/stream_authorizer.go:155-184 | So a member whose row is as new as the epoch read is allowed when nothing fails |
| StreamAuthorizerEntries.EpochsExactly | internal/org/stream_authorizer.go:89-141 | A check that read an epoch is settled by what was held when it registered exactly if that is of its organisation and new enough, whatever has become of the entry since |
| StreamAuthorizerEntries.LooksExactly | internal/org/stream_authorizer.go:142-154 | Otherwise it is settled by what is held now, or else drops that and asks the store; no check asks whose answer is at hand |
| StreamAuthorizerEntries.KeepsExactly | internal/org/stream_authorizer.go:155-178 | A check keeps what the store gave it exactly if no other has registered for its key since it did, the membership settles it, nothing newer is held and no context has ended; then that is what is held for the key |
| StreamAuthorizerEntries.EvictsTheOldest | internal/org/stream_authorizer.go:142-178 | A held membership goes only when a check finds that it does not settle it, or when another key's is stored while the list is full; then it is the one used least recently in the run |
| StreamAuthorizerRuns.BooksAgree | internal/org/stream_authorizer.go:86-184 | Entry map and recency list stay in bijection within capacity, and latest holds only checks still in flight |
| StreamAuthorizerRuns.OnlyTheNewestStores | internal/org/stream_authorizer.go:155-184 | A step that adds an entry belongs to the check of its key that registered last |
| StreamAuthorizer.InvKept | internal/org/stream_authorizer.go:86-184 | Every critical section keeps the authorizer's invariant under any interleaving of checks, evictions and replacements |
| StreamAuthorizerRuns.OnlyPhasesGuard | internal/org/stream_authorizer.go:86-184 | Nothing but a check's own progress decides whether its next step can happen |
| StreamAuthorizerObject.Authorization.constructor | internal/org/stream_authorizer.go:71-84 | A capacity that is not positive means the default one |
| StreamAuthorizerObject.Authorization.Register | internal/org/stream_authorizer.go:89-102 | The check registers as its key's newest and snapshots the resident entry in one critical section |
| StreamAuthorizerObject.Authorization.Epoch | internal/org/stream_authorizer.go:116-141 | The epoch is read after registering; the snapshot answers at once when it is not older |
| StreamAuthorizerObject.Authorization.Lookup | internal/org/stream_authorizer.go:142-154 | The second look under the lock may find a newer entry of another check |
| StreamAuthorizerObject.Authorization.Finish | internal/org/stream_authorizer.go:155-184 | After the store's answer only the newest check stores a membership, and the answer is judged by the epoch |
| StreamAuthorizerObject.Authorization.Store | internal/org/stream_authorizer.go:164-178 | A stored entry replaces the key's entry and evicts beyond capacity |
| StreamAuthorizerObject.Authorization.Push | internal/org/stream_authorizer.go:172-177 | The new element is the front of the recency list |
| StreamAuthorizerObject.Authorization.Cleanup | internal/org/stream_authorizer.go:103-115 | A hit moves only the very element it used, and the token goes unless a newer check took its place |
| FreshAuthorization.EpochReadIsFresh | internal/org/stream_authorizer.go:75-123 | The epoch a shared, never kept read returns was the organisation's epoch at a moment after that very Get began |
| FreshAuthorization.CheckLasts | internal/org/stream_authorizer.go:86-184 | A check keeps its key, organisation and start for the whole run |
| FreshAuthorization.ChecksAreFresh | internal/org/stream_authorizer.go:86-184 | Joining the authorizer's run with its epoch cache's run: every membership a stream check yields was given by the store for the check's own account and slug, and is at least as new as the organisation's epoch when the check began |
| FreshAuthorization.OnlyCurrentMembersReceive | internal/org/authorizer.go:83-104 | MayReceive allows an event only to a member of its organisation and audience, found under the stream's account and slug, whose membership is at least as new as the epoch when the check for that event began |
| FreshAuthorization.VerdictsAreExact | internal/org/authorizer.go:83-104 | A stream is told to stop exactly if a read failed or a context had ended, never for a lost membership; and to send exactly if nothing failed, the check was not refused, and the membership is the event's organisation's and of whom the event is meant for |
| HubLevelsRuns.LevelIsTheMaximum | internal/realtime/hub.go:120-137 | A level is the greatest value of the raises that have taken effect, zero before any |
| HubLevelsExact.SwapsExactly | internal/realtime/hub.go:120-137 | A swap publishes its value and raises the level; or the level has risen since this raise loaded it, nothing changes, and it loads again |
| HubLevelsRuns.ClosedExactlyOnce | internal/realtime/hub.go:120-137 | Each superseded wake channel is closed exactly once, by the raise that superseded it; a current one is open |
| HubLevelsRuns.NoLostWakeup | internal/realtime/hub_generations.go:38-69 | No reachable state has a wait blocked, with no close pending for it, while a level it waits on is above what it asked for |
| HubLevelsRuns.HeldChannel | internal/realtime/hub_generations.go:38-69 | A blocked wait with a level above what it asked for holds that level's superseded channel |
| HubLevelsRuns.WaitsReturnNews | internal/realtime/hub_generations.go:38-69 | A wait that returns reports every level it asked for, none above the hub's, and something above what it asked for: a level, or the generation of its read-change watch |
| HubLevelsExact.WaitsReportWhatIs | internal/realtime/hub_generations.go:38-69 | What a wait returns it has loaded since it last woke: each value was that level's at a step of its last round, and so was the watch's generation; and a wait is given up only when its own context ends |
| HubLevelsRuns.BlockedGlimpse | internal/realtime/hub_generations.go:48-69 | A wait blocks only after a snapshot of its watch that was no news to it |
| HubLevelsRuns.LevelsRise | internal/realtime/hub.go:120-137 | Levels never fall |
| HubLevelsRuns.LevelBounded | internal/realtime/hub.go:113-137 | A level never passes a rising bound that every raise meets when it starts: announcing only what is committed keeps the level committed |
| HubLevelsRuns.StartsAsking | internal/realtime/hub_generations.go:38-69 | A wait goes round any number of times without losing what it started with |
| HubLevels.InvKept | internal/realtime/hub.go:98-189 | Every load, compare-and-swap, close, capture and wake keeps the levels' invariant |
| HubLevelsObject.Levels.Load | internal/realtime/hub.go:120-128 | raise loads the pointer and gives up when the value is not news |
| HubLevelsObject.Levels.Swap | internal/realtime/hub.go:129-137 | CompareAndSwap publishes value and channel together, or the raise goes round again |
| HubLevelsObject.Levels.Close | internal/realtime/hub.go:129-137 | Only the successful publisher closes the superseded channel |
| HubLevelsObject.Levels.Capture | internal/realtime/hub_generations.go:38-52 | A wait captures a level's value and channel together |
| HubLevelsObject.Levels.Glance | internal/realtime/hub_generations.go:46-50 | The watch is snapshotted after the levels |
| HubLevelsObject.Levels.Settle | internal/realtime/hub_generations.go:51-69 | With the levels and the watch captured the wait returns if one is news and blocks on the captured channels otherwise |
| SessionStreamsRuns.DeletedSessionsHaveNoLiveStream | internal/web/stream.go:176-243 | Over every interleaving of openStream with Delete, Replace and DeleteOthers, also when the store commits and reports an error: once the deleting call has returned, no accepted stream of the deleted session has a live context |
| SessionStreamsRuns.CapsHold | internal/realtime/hub.go:228-256 | Neither the process cap nor an account's limit is ever exceeded, and after shutdown every connection is cancelled and none is added |
| SessionStreamsCauses.CancelledForACause | internal/web/stream.go:176-243 | A connection is cancelled exactly if, since it registered, its client went, the server shut down, a call that deleted its session or may have, because its mutation reported an error, cancelled it, or such a call for its whole account did |
| SessionStreamsCauses.CurrentSessionSurvives | internal/identity/session.go:165-189 | No step of a DeleteOthers whose mutation reported success ends a stream of the current session |
| SessionStreamsReasons.DeletesExactly | internal/identity/session.go:97-189 | A mutation that takes effect deletes exactly the sessions its request names, and one that does not deletes none |
| SessionStreamsCauses.RefusedForACause | internal/web/stream.go:176-243 | A stream is refused or closed exactly if there was no room or a shutdown, its second look failed or did not find the session, its context had ended or its session had expired by the end of opening, or it closed |
| SessionStreams.InvKept | internal/identity/session.go:101-189 | Every store operation and registry section keeps: a deleted session is cancelled already, or its deleting call still owes the cancellation |
| ConnectionRegistry.Hub.constructor | internal/realtime/hub.go:82-95 | The registry starts empty |
| ConnectionRegistry.Hub.Register | internal/realtime/hub.go:228-256 | Registers exactly when the caps and shutdown admit it, into all three indexes and the count |
| ConnectionRegistry.Hub.Insert | internal/realtime/hub.go:320-327 | The connection enters the three indexes and the count together |
| ConnectionRegistry.Hub.Unregister | internal/realtime/hub.go:228-256 | Frees the slot and cancels the context; again it does nothing |
| ConnectionRegistry.Hub.Take | internal/realtime/hub.go:331-336 | The connection leaves the three indexes and the count together, dropping empty sets |
| ConnectionRegistry.Hub.CancelEach | internal/realtime/hub.go:284-318 | Exactly the contexts of a set are cancelled; nothing is removed |
| ConnectionRegistry.Hub.CancelSession | internal/realtime/hub.go:312-318 | Exactly the session's connections are cancelled |
| ConnectionRegistry.Hub.CancelAccount | internal/realtime/hub.go:284-290 | Exactly the account's connections are cancelled |
| ConnectionRegistry.Hub.CancelAll | internal/realtime/hub.go:298-307 | Everyone is cancelled and nobody is admitted afterwards |
| ConnectionRegistry.Hub.Active | internal/realtime/hub.go:142-148 | An organisation is active exactly while it has a connection |
| ConnectionRegistry.AddIndexes | internal/realtime/hub.go:320-327 | Adding keeps the three indexes and the count in agreement |
| ConnectionRegistry.RemoveIndexes | internal/realtime/hub.go:331-336 | Removing keeps the three indexes and the count in agreement |
| StreamRun.Stream.Run | internal/realtime/stream.go:115-287 | Run's log is orderly and its decisions are, one for one, what the answers in each event's own turn say: sent, or skipped for exactly that reason. A turn is a row of its read and begins where the turn before it ended, triggers first; the first row's begins right after the read, or after the channel's state when connecting; no row is left out. If it stops at an event, that is the next one after the returned cursor, undecided, and its own turn says stop; every stop is blamed on the answer before it; otherwise everything read is decided, or it stopped while connecting, before any. What called for the channel's state is the connection, if the stream wants it, and the events whose turn says so |
| StreamRun.Stream.Take | internal/realtime/stream.go:190-249 | The first half of a turn: the read, the batch with each event's turn following the last, the checkpoint |
| StreamRun.Stream.Open | internal/realtime/stream.go:190-218 | Reads with the level reported last if there may be news; only the first read is followed by the channel's state before its batch |
| StreamRun.Stream.Connect | internal/realtime/stream.go:165-189 | The channel's state is owed from the start, and with a limit on recounts the membership is checked before anything else |
| StreamRun.Stream.TurnsRise | internal/realtime/stream.go:219-236 | An earlier turn is over before a later one begins |
| StreamRun.Stream.Settle | internal/realtime/stream.go:250-286 | The second half: current state, then draining or the wait with its deadline |
| StreamRun.Stream.ReadEvents | internal/realtime/stream.go:197-213 | An expired cursor or a gap is answered by a reset after a fresh check, before anything of the batch is delivered |
| StreamRun.Stream.GiveUpOn | internal/realtime/stream.go:197-213 | An answer that has lost what comes after the cursor ends in a reset at the cursor, or in a stop with its reason |
| StreamRun.Stream.Batch | internal/realtime/stream.go:219-236 | Delivers or skips the batch in order, each row by the answers of its own turn, which begins where the one before it ended, and stops before the first event whose turn says so; what calls for the channel's state stays owed |
| StreamRun.Stream.DeliverOrSkip | internal/realtime/stream.go:219-236 | Notes the event's triggers, each exactly if its source says so, and decides it by the answers that follow them; the turn ends with the last answer that this took |
| StreamRun.Stream.Deliver | internal/realtime/stream.go:293-350 | An event is sent, or skipped for a reason; an error leaves it undecided |
| StreamRun.Stream.Selected | internal/realtime/stream.go:293-330 | Selection by the event's own render or the shared unread one |
| StreamRun.Stream.Screen | internal/realtime/stream.go:293-330 | A filtered, unselected or vanished event is skipped without an authorization check |
| StreamRun.Stream.SentHasGrounds | internal/realtime/stream.go:293-350 | An event that is sent is the organisation's, passed the filter and was taken by its own render or the shared one; whoever it was meant for was admitted; the last two answers confirmed the stream's own member and the write |
| StreamRun.Stream.SkippedForItsReason | internal/realtime/stream.go:293-350 | An event is skipped for exactly the reason given: another organisation, the filter's no, no render that took it, or an audience that was not admitted |
| StreamRun.Stream.Authorize | internal/realtime/stream.go:331-350 | Another member's event asks the authorizer first; the stream's own membership check is last before the write; a denial skips the event |
| StreamRun.Stream.Admit | internal/realtime/stream.go:331-341 | Another member's event asks whether the account is admitted; a failed check decides nothing |
| StreamRun.Stream.CheckMember | internal/realtime/stream.go:354-367 | A denied membership check stops the stream, and nothing is written after it |
| StreamRun.Stream.Send | internal/realtime/stream.go:445-454 | An ID counts as written only if its write succeeded |
| StreamRun.Stream.Heartbeat | internal/realtime/stream.go:370-379 | Writes, after a fresh check, exactly one entry: a checkpoint if there is progress above the last ID, a comment otherwise |
| StreamRun.Stream.HeartbeatIfDue | internal/realtime/stream.go:263-270 | While a backlog drains, a heartbeat that is due is still sent, after a fresh check |
| StreamRun.Stream.BeatDue | internal/realtime/stream.go:263-270 | A heartbeat that an answer says is due is noted as due and sent |
| StreamRun.Stream.CheckpointIfDue | internal/realtime/stream.go:237-249 | Skipped progress is written before a wait or when a heartbeat is due, after a fresh check |
| StreamRun.Stream.Progress | internal/realtime/stream.go:237-249 | Pending progress is written after a fresh check, and the last ID is the cursor then |
| StreamRun.Stream.CurrentState | internal/realtime/stream.go:251-262 | Ephemeral state, the recount and the channel's state follow every batch, in that order |
| StreamRun.Stream.Wait | internal/realtime/stream.go:383-405 | Waits above the given levels, with every due heartbeat sent meanwhile; the level it comes back with is logged with the wait it ends, at the deadline of something put off it returns the old levels, and a stop has its reason in the answers |
| StreamRun.Stream.Recount | internal/realtime/sidebar.go:59-93 | Captures the watch, and writes a recount begun after the capture when due; otherwise what is not covered stays dirty |
| StreamRun.Stream.Capture | internal/realtime/sidebar.go:60-63 | The captured generation is what the watch said, and one above what is covered makes a recount due |
| StreamRun.Stream.RecountIfDue | internal/realtime/sidebar.go:64-93 | The read of the counts begins after the capture; only a written recount covers what was captured before it |
| StreamRun.Stream.CountAndSend | internal/realtime/sidebar.go:70-93 | A due recount is read and written and covers what was captured before it, or is deferred and stays dirty |
| StreamRun.Stream.RefreshChannel | internal/realtime/channel_state.go:28-54 | A due refresh reads whole state, checks the membership and then writes it; until that is written what called for it stays owed |
| StreamRun.Stream.Renew | internal/realtime/channel_state.go:32-54 | The read begins after everything that called for it; only its write, after a fresh check, clears what is owed |
| StreamRun.Stream.Trigger | internal/realtime/stream.go:220-222 | An event of this organisation and channel calls for the whole state exactly if the source says so, before it is filtered or skipped |
| DeliveryLog.NoTriggerIsLost | internal/realtime/channel_state.go:28-54 | Wherever a stream waits, for each event that called for the channel's state, and for connecting, that state was read after it and written, or a refresh is due and the wait has a deadline |
| DeliveryLog.CallsInLog | internal/realtime/stream.go:220-222 | The log notes exactly the events that called for the channel's state, and the connection if that did |
| DeliveryDuties.NoNewsIsLost | internal/realtime/ephemeral.go:36-96 | Wherever a stream waits, the frame of every owner's answer that was news to it has been written, before that answer's generation counted as seen |
| DeliveryDuties.SeenAfterItsFrame | internal/realtime/ephemeral.go:36-96 | The same at the very step where a generation comes to count as seen |
| DeliveryDuties.FramesAreNews | internal/realtime/ephemeral.go:36-96 | No frame is written without news: each is that of one answer, which has no other |
| DeliveryDuties.StateOnConnecting | internal/realtime/ephemeral.go:36-96 | What a stream wants on connecting is read from its owner before it first waits, and written if there is a frame for it |
| DeliveryDuties.DutiesAreDone | internal/realtime/stream.go:237-286 | What falls due, a heartbeat, a recount or the channel's state, is done before the stream waits again or reads on; only a recount may be deferred instead |
| DeliveryDuties.OnlyEarlyIsPutOff | internal/realtime/stream.go:250-286 | A wait leaves a recount or a refresh for later only if it was too early or had no room since the stream last read or came back |
| StreamRun.Stream.Ephemeral | internal/realtime/ephemeral.go:36-96 | A wanted kind is asked for when connecting or when its level has risen, and its generation counts as seen only after its owner has read it and its frame, if it is news, is written |
| StreamRun.Stream.EphemeralKinds | internal/realtime/ephemeral.go:36-96 | Both kinds in turn, each against the level loaded before |
| StreamRun.Stream.OwnersFrame | internal/realtime/ephemeral.go:36-96 | The owner is asked, its answer logged with whether it is news for this stream, and a frame that is news written after a fresh check before the generation counts as seen; otherwise it stops for a reason the answers give |
| StreamRun.Stream.Hear | internal/realtime/ephemeral.go:50-70 | An owner's answer is news if its frame is meant for this stream and it is the first or above what was seen |
| StreamRun.Stream.Show | internal/realtime/ephemeral.go:69-90 | The frame of the answer is written after a fresh check, and ends the stream if it resets |
| StreamRun.Stream.See | internal/realtime/ephemeral.go:86-96 | Only then does the answer's generation count as seen, and never a lower one |
| StreamRun.Stream.WantKinds | internal/realtime/ephemeral.go:36-50 | On connecting the stream wants the kinds that it subscribed to and that have an owner |
| StreamRun.Stream.SendFrame | internal/realtime/ephemeral.go:36-96 | A frame without an ID follows a membership check of its own |
| StreamRun.Stream.constructor | internal/realtime/stream.go:158-190 | A stream starts at its cursor with nothing written |
| StreamRun.Contiguous | internal/realtime/stream.go:425-434 | True exactly when the batch continues the cursor one by one |
| DeliveryLog.DecidedOnce | internal/realtime/stream.go:219-236 | Each event from the start up to the cursor is delivered or skipped exactly once, in order; that each reason is the event's own fate is Run's |
| DeliveryLog.IdsRise | internal/realtime/stream.go:445-463 | Until a reset the written IDs strictly increase, and none exceeds the processed cursor |
| DeliveryLog.DeliveredAreWritten | internal/realtime/stream.go:445-454 | A delivered event is never above the last written ID |
| DeliveryLog.ReconnectedIdsRise | internal/realtime/stream.go:158-287 | Across any number of runs, each restarted at the last ID written, the written IDs strictly increase until a reset |
| DeliveryLog.ReconnectsSettleOnce | internal/realtime/stream.go:158-287 | Across those runs every event from the first start to the last written ID is settled exactly once, in order |
| DeliveryLog.DeliveriesAreSettled | internal/realtime/stream.go:158-287 | No delivery is repeated after a reconnect |
| DeliveryLog.EveryWriteIsChecked | internal/realtime/stream.go:330-379 | The step before every write confirmed the membership |
| DeliveryLog.PrefixOrderly | internal/realtime/stream.go:158-287 | A run that is cut anywhere leaves an orderly log |
| DeliveryLog.StepDecides | internal/realtime/stream.go:219-236 | One step decides the next event or none, and keeps the last written ID at or below the cursor |
| LiveDelivery.QuietStreamHasEverything | internal/realtime/stream.go:115-287 | Joining the loop's log with the hub's run, the cached event reads and the read-change watches on one clock: a stream blocked with no close done or pending has delivered or skipped every event the hub was told about, each once and in order, and has seen presence and typing up to the hub's generations; raises announce committed events, and everything else is derived |
| LiveDelivery.LevelsAreCommitted | internal/realtime/hub.go:113-137 | The durable level at any moment is a sequence committed by then |
| LiveDelivery.ReadsAreComplete | internal/realtime/stream.go:197-213 | A read of the loop ends at a committed event, and a short one at or above everything committed when the entry before it was logged |
| LiveDelivery.LogSound | internal/realtime/stream.go:190-286 | At every point of its log the level the loop goes by is committed, and after a short read it is no greater than the last event read |
| LiveDelivery.QuietLevel | internal/realtime/hub_generations.go:38-69 | No level of a quiet wait is above what the wait asked for |
| LiveDelivery.CoveredByARecount | internal/realtime/sidebar.go:59-93 | A covered generation means: the watch was captured at it, then a recount's read began, then that recount was written |
| LiveDelivery.CapturedAfter | internal/unread/changes.go:54-79 | A capture at or before a read change sees a smaller generation than the change publishes, a later one at least that |
| LiveDelivery.NoReadChangeIsLost | internal/realtime/sidebar.go:21-93 | Where the stream waits, each read change published while it watches its member has a recount that was read after it and written, or a recount is due by the wait's deadline, or the wait is being woken: some channel it holds is closed or about to be |
| UnreadChanges.Changes.constructor | internal/unread/changes.go:9-14 | No member is watched at first |
| UnreadChanges.Changes.Subscribe | internal/unread/changes.go:35-49 | One step: a watch joins the member's entry or starts a new lifetime at zero |
| UnreadChanges.Changes.ReadChanged | internal/unread/changes.go:54-64 | One step: the member's generation rises and the superseded channel closes; without a watch nothing is kept |
| UnreadChanges.Changes.Snapshot | internal/unread/changes.go:75-79 | Generation and channel are taken together |
| UnreadChanges.Changes.Release | internal/unread/changes.go:83-94 | One step: counts once; the member's last watch takes the entry with it |
| UnreadChanges.InvKept | internal/unread/changes.go:35-94 | Each critical section keeps: an entry is in the map exactly while it has watches, its count is their number, and its channels are closed exactly up to its generation |
| UnreadChanges.ChangesAdvance | internal/unread/changes.go:54-64 | A read change of its member moves every unreleased watch on by one |
| UnreadChanges.SnapshotIsTold | internal/unread/changes.go:70-79 | Over every run: a snapshot's channel is open when it is taken, and later closed exactly when the generation has moved on |
| PinsRounds.SharedSnapshotsAreFresh | internal/web/pins_source.go:46-113 | Whatever rounds are shared, the snapshot a Refresh gets was read after its source was built and shows every invalidation the source had seen |
| PinsRoundsExact.SnapshotsShowWhatWasMet | internal/web/pins_source.go:60-113 | A snapshot that a Refresh takes shows every invalidation that its source had met when the Refresh began, told by the actions |
| PinsRoundsExact.JoinsExactly | internal/web/pins_source.go:69-96 | A Refresh joins its scope's current round exactly if there is one made after the source was built and for an invalidation at least as late as any the source has met; otherwise it makes a new one |
| PinsRounds.CurrentRoundsAreInUse | internal/web/pins_source.go:86-96 | A round is current only while a Refresh uses it, so finished snapshots are never handed out |
| PinsRounds.InvKept | internal/web/pins_source.go:50-96 | Every critical section keeps the rounds' invariant: user counts, current rounds, and what each source may join |
| PinsRounds.PinsRefreshes.Build | internal/web/pins_source.go:50-58 | A new source remembers the round there is |
| PinsRounds.PinsRefreshes.Trigger | internal/web/pins_source.go:60-67 | A matching event raises the source's trigger |
| PinsRounds.PinsRefreshes.Enter | internal/web/pins_source.go:69-88 | Refresh joins the current round unless it is missing, older than the source or older than its trigger |
| PinsRounds.PinsRefreshes.Leave | internal/web/pins_source.go:89-96 | The last user discards the round if it is still current |
| PresenceRuns.ReadersCatchUp | internal/presence/presence.go:153-203 | For any run of opens, closes, expiries, discards and stale callbacks: unless After resets, a reader's flags from any earlier step, overwritten with its entries, are the current flags of every member |
| Presence.DeltaReplay | internal/presence/presence.go:171-203 | The same in one state, for every token that was issued |
| PresenceRuns.OnlineWhileOpen | internal/presence/presence.go:85-138 | A member is online exactly while accepted streams are open or the current grace timer runs, whatever timers fire when |
| PresenceExact.OnlineExactly | internal/presence/presence.go:85-138 | Told by the callers' actions alone: a member is online exactly if some stream of theirs was accepted after which no grace period ran out, one that the last close began and no accepted stream cut short |
| PresenceExact.EveryChangeIsAnnounced | internal/presence/presence.go:140-150 | Every visible change takes one generation and is logged as it is, and nothing else takes any |
| PresenceExact.ResetsExactly | internal/presence/presence.go:171-203 | After resets exactly if the token is another process's, a member was discarded whose last change was above it, or more than 100 members have changed since |
| PresenceExact.AnswersExactly | internal/presence/presence.go:174-203 | Any other answer lists exactly the members who have changed since, each once, as they are shown now, in the order of their last changes; every answer names the current generation |
| PresenceExact.BoundaryKnown | internal/presence/presence.go:122-133 | The boundary is the highest last change of the members discarded so far, told by which retention timers fired |
| PresenceRuns.ChangesAreOrdered | internal/presence/presence.go:140-150 | The change list is strictly ordered by generation and holds each retained member once |
| PresenceRuns.LogGrows | internal/presence/presence.go:140-150 | What was announced at a generation stays announced |
| Presence.InvKept | internal/presence/presence.go:85-150 | Every open, cleanup and callback keeps the organisation's invariant |
| PresenceObject.Organization.Change | internal/presence/presence.go:140-150 | Moves the record to the end of the list at the next generation |
| PresenceObject.Organization.Open | internal/presence/presence.go:85-105 | The first stream of an offline member is a change; any open stops its timer |
| PresenceObject.Organization.Close | internal/presence/presence.go:106-138 | The last cleanup starts the grace timer; again it does nothing |
| PresenceObject.Organization.Fire | internal/presence/presence.go:112-136 | A callback acts only if its timer is still the member's: grace ends in a change, discard forgets the member and moves the boundary |
| PresenceObject.Organization.After | internal/presence/presence.go:174-203 | Walks the list from its end and gives the changes since the token, or a reset below the boundary, from another process or beyond the limit |
| TypingRuns.FeedCountsTopics | internal/typing/state.go:67-114 | A member's feed activity is the number of that channel's topics they are active in, each counted once |
| TypingRuns.OneTimerPerTopic | internal/typing/expiry.go:11-28 | Each active topic has exactly one current expiry timer that can still fire, and the member has an open stream in the channel; otherwise there is none |
| TypingExact.ActiveExactly | internal/typing/state.go:61-114 | Told by the actions alone: a member is active in a topic exactly if a start counted, under a stream accepted by then, and nothing has ended it: no stop, no last cleanup, no firing of the latest start's own timer; that timer is the topic's |
| TypingExact.ListedByStart | internal/typing/summary.go:23-55 | A topic or feed lists its members by the starts that began their activity, the newest first, each named as that start did; starting again while active changes nothing in this |
| TypingRuns.NobodyTypesWithoutAStream | internal/typing/streams.go:21-46 | A member without an accepted stream in a channel is shown nowhere in it |
| TypingRuns.LateTimersStopNothing | internal/typing/expiry.go:17-28 | A timer that was replaced or whose topic was stopped never becomes current again; its callback stops nothing |
| TypingRuns.ReadShowsTheNewest | internal/typing/summary.go:64-90 | Read from four cached candidates equals the first three of everyone but the viewer, newest start first, and Remaining counts the rest |
| TypingRuns.NoSilentChange | internal/typing/state.go:82-113 | Between two moments with the same place generation every viewer reads the same names and rest |
| TypingSummary.FourSuffice | internal/typing/summary.go:45-90 | Four candidates suffice for any viewer, in every summary in order |
| TypingSummary.StartedOk | internal/typing/summary.go:23-32 | A start keeps members, order and candidates in agreement and counts one more |
| TypingSummary.StoppedOk | internal/typing/summary.go:34-52 | A stop keeps them in agreement and counts one fewer; at none the member leaves |
| Typing.InvKept | internal/typing/streams.go:21-46 | Every open, close, start, stop and callback keeps the organisation's invariant |
| TypingObject.PlaceSummary.Start | internal/typing/summary.go:23-32 | The first activity puts the member at the front and refreshes the candidates |
| TypingObject.PlaceSummary.Stop | internal/typing/summary.go:34-43 | The last activity takes the member out and refreshes the candidates |
| TypingObject.PlaceSummary.Changed | internal/typing/summary.go:45-52 | The candidates are the names of the first four of the order |
| TypingObject.PlaceSummary.Shown | internal/typing/summary.go:76-89 | The loop shows the first three candidates that are not the viewer and counts the rest |
| TypingObject.Organization.Start | internal/typing/state.go:67-88 | Refreshes the timer; a new activity counts in topic and feed at one generation |
| TypingObject.Organization.Stop | internal/typing/state.go:97-114 | Ends the activity in topic and feed and drops the topic's timer; otherwise nothing |
| TypingObject.Organization.Refresh | internal/typing/expiry.go:11-28 | The topic's timer is replaced by a new one |
| TypingObject.Organization.Open | internal/typing/streams.go:32-46 | Counts an accepted stream in a new or existing record; none without a channel |
| TypingObject.Organization.Close | internal/typing/streams.go:34-45 | The last cleanup stops every topic in whatever order and drops the record; again it does nothing |
| TypingObject.Organization.Fire | internal/typing/expiry.go:17-26 | The callback stops the activity only while its timer is the topic's |
| ChatParser.ParseChatV1 | internal/conversation/chatv1.go:68-110 | The split with the fence table gives the blocks found by searching anew for each closing fence |
| ChatParser.ClosingTable | internal/conversation/chatv1.go:77-86 | The table names, for each line, the next line that can close a fence, itself included, or the end |
| ChatParser.ParseInline | internal/conversation/chatv1.go:156-189 | The one-pass stack parser computes the grammar's reading of a line |
| ChatParser.InlineParser.Step | internal/conversation/chatv1.go:209-242 | Reads the construct at i as the grammar's rules in their order, and gives the next start |
| ChatParser.InlineParser.Delimiter | internal/conversation/chatv1.go:244-269 | Closes the innermost open delimiter of its kind, else opens one unless two are open, else is text |
| ChatParser.InlineParser.Add | internal/conversation/chatv1.go:271-275 | Text gathered so far goes before the node |
| ChatParser.InlineParser.Flush | internal/conversation/chatv1.go:277-283 | Text gathered so far becomes one node, if there is any |
| ChatParser.MergeText | internal/conversation/chatv1.go:287-302 | The in-place merge equals the simple list merge |
| ChatParser.Merged | internal/conversation/chatv1.go:287-302 | The merged front of the array as a list |
| ChatParser.ClosesItalic | internal/conversation/chatv1.go:193-205 | True exactly when the underscore closes an italic in the line's reading |
| ChatNormalForm.InlinesAreTidy | internal/conversation/chatv1.go:156-189 | Every parsed line is in normal form: no empty or adjacent text at any level, bold and italic at most two deep |
| ChatPrint.PrintedReads | internal/conversation/chatv1.go:155-310 | What a line's markup means: every well set tree in normal form, written out with its texts escaped, ** and _ around bold and italic, backticks around code, references and links, is what the parser reads back, for trees of every shape |
| ChatPrinter.NodesRead | internal/conversation/chatv1.go:155-310 | The same wherever such nodes stand in a line, whatever stands before and after |
| ChatShown.LinesAreShown | internal/conversation/chatv1.go:155-310 | For every line: its tree with its marks is the line as typed but for the backslashes of escapes; nothing is lost, made up or moved |
| ChatShown.LinesAreShownAsTyped | internal/conversation/chatv1.go:155-310 | So a line without a backslash is its own tree written out |
| ChatStyles.StylesAreSet | internal/conversation/chatv1.go:244-296 | For every line: each bold or italic in its tree begins and ends at characters that are no spaces, and no word character touches an italic from outside |
| ChatDocument.PrintedBlocksRead | internal/conversation/chatv1.go:60-154 | What a body means: well set text, quote and code blocks, written out line by line, are what the parser reads back |
| ChatPages.PlainUrlIsLink | internal/conversation/chatv1.go:315-366 | A scheme, a host that starts with a letter or digit, and nothing that ends or trims a link, is a link as a whole |
| ChatDocument.NodeIsExtracted | internal/conversation/text.go:20-70 | Extraction takes from a text, a code, a link or a styled text exactly what it encloses |
| ChatPages.ExtractJoin | internal/conversation/text.go:50-64 | Nodes side by side are extracted one after the other |
| ChatNormalForm.MergeTidy | internal/conversation/chatv1.go:287-302 | Merging gives normal form |
| ChatNormalForm.TidyIsMerged | internal/conversation/chatv1.go:287-302 | Normal form is what merging leaves alone |
| ChatText.EscapeChatV1 | internal/conversation/chatv1.go:118-127 | The loop escapes each punctuation character and nothing else |
| ChatText.EscapeRoundTrip | internal/conversation/text.go:20-70 | For every text, parsing its escaped form gives one text block of literal text nodes, and extracting that gives back the text, line breaks included |
| ChatText.EscapedConstruct | internal/conversation/chatv1.go:209-242 | At the start of what is left of an escaped text stands its next character as literal text |
| ChatText.NoLink | internal/conversation/chatv1.go:315-356 | No link starts in an escaped text |
| ChatGrammar.PunctuationListed | internal/conversation/chatv1.go:372-374 | The four ranges are the 32 characters of ASCII punctuation |
| Payload.ParseFormat | internal/realtime/payload.go:13-40 | Parsing a formatted ID gives it back |
| Payload.FormatParse | internal/realtime/payload.go:28-40 | A value that parses and has no upper-case digit is what formatting its ID prints |
| Payload.FormatPayloadID | internal/realtime/payload.go:13-22 | The byte array filled in five pieces holds the canonical text |
| Payload.EncodeHex | internal/realtime/payload.go:13-22 | Each piece is written in place, two digits a byte, and nothing else changes |
| MentionBody.ConvertedBodyReads | internal/conversation/mentions.go:80-108 | Re-parsing the converted body splits into the same blocks as the typed one, each line being its converted line |
| MentionBody.ConvertedContentsRead | internal/conversation/mentions.go:80-108 | In each converted line, every inserted reference reads as that member's reference, and the underscore right after one opens no italic |
| MentionBody.LineKept | internal/conversation/mentions.go:80-108 | Converting a line keeps its quote marker and makes it neither a fence nor split |
| Mentions.InsertedReferencesRead | internal/conversation/mentions.go:93-104 | Per line: every inserted reference is the construct there, and an underscore after it is escaped exactly when it would not close an italic |
| MentionReading.ReachesShifted | internal/conversation/chatv1.go:209-242 | Two lines equal over a stretch have the same construct starts in it, shifted |
| MentionReading.StatesAgree | internal/conversation/chatv1.go:156-189 | Lines that share a prefix, and agree on later backticks, give the parser the same state at its end |
| MentionReading.ItalicAgrees | internal/conversation/chatv1.go:193-205 | Whether an underscore closes an italic depends only on the line before it and on the backticks after |
| MentionTree.InsertedReferencesAreInTheTree | internal/conversation/mentions.go:80-108 | In the tree that parsing the converted line gives, every inserted reference has a reference node of its own for its member, and these nodes stand in the order of insertion |
| MentionTree.TreeReferences | internal/conversation/chatv1.go:155-310 | For every line: the reference nodes of its tree, at any depth, are exactly the references read in the line, in order |
| MentionUndone.ConversionIsUndone | internal/conversation/mentions.go:20-108 | Converting handles changes nothing else: each typed handle that names somebody becomes a reference to them, in order, and with the handles put back and the escapes after them taken out the line is the typed one |
| MentionScan.TypedHandlesAreHandles | internal/conversation/mentions.go:20-47 | Every token is a valid handle at a place where one may start, kept as typed by the parser, and tokens do not overlap |
| MentionScan.ScanMissesNothing | internal/conversation/mentions.go:20-47 | Every '@' that could begin a handle starts a token, or names no valid handle |
| MentionScan.KeptAsTyped | internal/conversation/mentions.go:20-47 | The array marks exactly the positions that the parser keeps as typed |
| MentionScan.HandlesInRun | internal/conversation/mentions.go:20-47 | The index loops over one run find exactly the scan's tokens |
| MentionScan.FindHandles | internal/conversation/mentions.go:20-47 | The loops over a line find exactly its typed handles |
| MentionRewrite.ReplaceHandles | internal/conversation/mentions.go:80-108 | The builder with its two offsets writes the body with each handle replaced |
| MentionRewrite.HandleTokens | internal/conversation/mentions.go:20-47 | The tokens of a body are those of its text lines, at the body's positions |
| MentionRewrite.OnePassIsLineByLine | internal/conversation/mentions.go:80-108 | The one pass over the body equals converting it line by line |
| MentionRewrite.ConvertHandles | internal/conversation/mentions.go:49-73 | Finding and replacing the handles gives the line-by-line conversion of the body |
| Conversation.HistoriesKeep | internal/conversation/branch_tx.go:12-87 | Over every history of committed, refused, failed and unknown transactions: one event per consumed sequence with no gap, every set conclusion is a message now in that same non-default topic, and no channel has more than 50 pins |
| Conversation.ReplayingTheLog | docs/domain/topics.md:106-126 | Replaying the log gives each message exactly the topic it is in now, a topic of its channel, and its last move |
| Conversation.RaisesReachTheLast | internal/conversation/ports.go:119-123 | After a confirmed change the notifier knows the last sequence, also those whose own commit had an unknown outcome; it is never told one that does not exist |
| Conversation.DirectoryKeeps | internal/org/handle.go:43-61 | In every history of joins and handle changes no two members have one handle, and no member leaves the directory |
| Conversation.OutcomeKept | internal/conversation/ports.go:36-48 | What any transaction commits keeps the database's invariant |
| Conversation.BranchKept | internal/conversation/branch_tx.go:12-87 | A committed branch keeps it, whatever the source's conclusion was |
| Conversation.ResolveKept | internal/conversation/resolution.go:43-99 | A committed resolution or reopening keeps it |
| Conversation.PinKept | internal/conversation/pinning.go:44-101 | A committed pin or unpin keeps it, the limit included |
| Conversation.InsertKept | internal/conversation/posting.go:140-214 | A committed post keeps it, keys and read range included |
| ConversationHistory.NothingIsLost | internal/conversation/branch_tx.go:41-51 | Over every history channels and topics stay, a message stays as posted but for its topic and move, and the log only grows |
| ConversationExact.PinnedExactly | internal/conversation/pinning.go:35-90 | In every history a message is pinned exactly if the last change of its pin pinned it, and by who did |
| ConversationExact.ConcludedExactly | internal/conversation/resolution.go:34-99 | A topic's conclusion is the message of the last resolution that changed it, unless a branch has moved that message away since |
| ConversationSteps.ConclusionStep | internal/conversation/resolution.go:34-99 | Each step leaves every conclusion as it was but for the resolution's own topic and the source that a branch takes the conclusion from; a confirmed request leaves it as asked |
| ConversationSteps.PinsStep | internal/conversation/pinning.go:35-90 | Pins change by a pin or unpin of that message and by nothing else, and a confirmed request leaves it as asked |
| ConversationExact.PlacedExactly | internal/conversation/posting.go:98-231 | A message is there exactly once it was posted, in the topic where the last step about it put it: the topic it was sent to, that of the message it answers, the default topic, or where the last branch moved it |
| ConversationExact.AnnouncedExactly | internal/conversation/ports.go:99-117 | Every change logs the events of what it did, at the next sequences in their order, and nothing else |
| ConversationExact.PostsAreStored | internal/conversation/posting.go:98-231 | A post that changed the database stored what was sent: body, author, place, answered message, key and quote, and one read range back to the channel's message before it |
| ConversationExact.RefusedForACause | internal/conversation/branch_tx.go:12-87 | Over every history: a branch, resolution, pin or post is refused only for the cause its error names, changing nothing, and whenever there is a cause; the 51st pin of a channel is refused |
| ConversationHistory.BranchMovesTheSelection | internal/conversation/branch_tx.go:12-87 | A committed branch moves exactly the selection, adds exactly the notice in the source, opens only the source and only if its conclusion went, and consumes a third sequence exactly then |
| ConversationHistory.SendingAgain | internal/conversation/posting.go:256-329 | Over every history with branching and handle changes, sending again with the key of a committed send never writes; the answer is the stored message exactly when the text it quotes, if any, reads as stored with the directory and placeholder of now; with another text it is that the key is reused, with none an invalid body; and no insert with the key commits again |
| ConversationHistory.QuotesThatStay | internal/conversation/posting.go:381-396 | When that is, as a sender can see it: quoting a whole message, if each reference in it shows what it showed; quoting a part, exactly if the part still occurs in what the message shows; quoting nothing, always |
| ConversationRetry.HandleChangeRefusesTheRetry | docs/domain/message-posting.md:36-42 | The documentation promises the stored message even after a handle change; the code does not keep that for quotes: a history in which, between a send and its equal retry, a member mentioned in the quoted message takes another handle, and the retry is refused |
| ConversationHistory.CommittedSends | internal/conversation/posting.go:140-227 | In a history every committed send is an earlier send for each later one |
| ConversationHistory.ReferencesNameMembers | internal/conversation/posting.go:229-256 | Over every history each reference in a stored message names a member of the organisation, however its sender wrote it, and notices reference nobody |
| ConversationHistory.NoticeIsText | internal/conversation/branch_tx.go:53-58 | The notice's stored body reads as its wording, typed markup and all |
| ConversationHistory.ReadRangesAreTight | internal/conversation/branch_tx.go:62-70 | Each range marked read for an author holds their message and no other of the channel, also none posted later |
| ConversationText.ValidTwice | internal/conversation/message.go:73-90 | A body that validation returns is valid and unchanged by it |
| ConversationTextExact.ValidExactly | internal/conversation/message.go:73-91 | The stored body is the typed one with its line ends unified and the space around it taken off, exactly if that has 1 to 4000 characters and none that is forbidden |
| ConversationTextExact.ExcerptExactly | internal/conversation/message.go:95-107 | A quote is the whole of what the original shows under a body's rules, or a part given under them that stands in it; else there is none |
| ConversationText.NothingTyped | internal/conversation/mentions.go:49-52 | A body without typed handles is converted to itself by every directory |
| ConversationText.ByHandle | internal/conversation/mentions.go:65-68 | The loop over the members gives each handle's member, whatever the case |
| ConversationText.EntryText | internal/conversation/text.go:72-99 | The builder writes the extraction with each reference shown as its member's handle, or as the placeholder |
| ConversationText.SameText | internal/conversation/text.go:72-99 | Directories and placeholders that show each reference alike give the same text |
| ConversationStore.MoveKept | internal/conversation/branch_tx.go:41-51 | A move leaves every conclusion but possibly the source's own in order |
| ConversationStore.PostKept | internal/conversation/posting.go:195-213 | A post leaves the rest in order |
| ConversationStore.ConclusionKept | internal/conversation/resolution.go:84-87 | Setting a checked conclusion, or clearing one, restores order |
| ConversationStore.PinAdded | internal/conversation/pinning.go:73-82 | A pin below the limit stays within it |
| ConversationStore.Previous | internal/conversation/ports.go:55-56 | LastMessageBefore gives the channel's newest message below a sequence, or zero |
| ConversationTx.MovedCount | internal/conversation/branch_tx.go:41-47 | The moved count equals the request's exactly when the selection is distinct and all of it is still in the source |
| ConversationTx.Conversations.ValidateBranch | internal/conversation/branch.go:67-91 | The loop refuses an empty, oversized or repeated selection, two destinations and the source as destination, and nothing else |
| ConversationTx.Conversations.Destine | internal/conversation/branch_tx.go:33-40 | The destination is found or created, or that is the error |
| ConversationTx.Conversations.Move | internal/conversation/branch_tx.go:41-52 | Moves and logs, or a conflict exactly when a selected message is not in the source |
| ConversationTx.Conversations.PostMessage | internal/conversation/branch_tx.go:58-73 | Insert, previous message, read range and event, in that order, are one posted message |
| ConversationTx.Conversations.Announce | internal/conversation/branch_tx.go:63-73 | The read range starts right after the channel's previous message and ends right after this one, and the event stands at its sequence |
| ConversationTx.Conversations.BranchMove | internal/conversation/branch_tx.go:17-52 | Both sequences, the lookups and the move in the code's order |
| ConversationTx.Conversations.Reopen | internal/conversation/branch_tx.go:74-83 | Clears the conclusion and logs it with a third sequence |
| ConversationTx.Conversations.BranchTx | internal/conversation/branch_tx.go:12-87 | The ordered writes leave exactly the branched database; a rule's error is the first rule broken |
| ConversationTx.Conversations.Branch | internal/conversation/branch.go:53-65 | One step of the history: committed and raised, refused, failed, or unknown and not raised |
| ConversationTx.Conversations.ResolveTx | internal/conversation/resolution.go:51-88 | The ordered writes set or clear the conclusion, or find nothing to change |
| ConversationTx.Conversations.Resolve | internal/conversation/resolution.go:43-99 | One step of the history; an unchanged conclusion consumes no sequence |
| ConversationTx.Conversations.PinTx | internal/conversation/pinning.go:52-90 | The ordered writes pin or unpin, refuse at the limit, or find nothing to change |
| ConversationTx.Conversations.SetPin | internal/conversation/pinning.go:44-101 | One step of the history; a no-op consumes no sequence |
| ConversationTx.Conversations.FindPlace | internal/conversation/posting.go:151-182 | Default, answered and given topic in the code's order of lookups and errors |
| ConversationTx.Conversations.FindQuote | internal/conversation/posting.go:183-194 | The quoted message is looked up in the channel and its text taken with the references read before, or that is the error |
| ConversationTx.Conversations.Excerpt | internal/conversation/posting.go:381-396 | The whole of what the original shows or a part of it, under a body's rules |
| ConversationTx.Conversations.InsertTx | internal/conversation/posting.go:140-214 | The ordered writes leave exactly the database with the message, or find the key taken |
| ConversationTx.Conversations.Insert | internal/conversation/posting.go:140-226 | One step of the history; raised only when confirmed |
| ConversationTx.Conversations.Repeat | internal/conversation/posting.go:256-329 | The transaction finds the key's message and the place; then, others in between, the quote's references are read; the answer is the stored message exactly when typed body, channel, the quote's text as the directory of the world it ends in reads it, and answered message are the same; nothing is written |
| ConversationTx.Conversations.Look | internal/conversation/posting.go:256-329 | What a repeat answers with is still the message the author's key stores when it answers; a request committed before is answered with that message exactly if its quote reads as stored in the world the read ends in |
| ConversationTx.Conversations.DraftBody | internal/conversation/posting.go:118-130 | Handles are converted with the directory of the world it starts in and references checked with that of the world it ends in; a body is refused exactly if it is invalid or references a stranger there |
| ConversationTx.Conversations.ConvertHandles | internal/conversation/mentions.go:49-73 | Indexing the members and replacing the tokens is the conversion of the body |
| ConversationTx.Conversations.References | internal/conversation/posting.go:346-379 | A quote is resolved with the directory of the world the read ends in, before the transaction, or fails |
| ConversationTx.Conversations.Post | internal/conversation/posting.go:131-227 | The draft is posted by one recorded step of the history, or refused; a key found taken is answered with the stored message; a request committed before is answered by what its quote reads in a world recorded during the call |
| ConversationTx.Conversations.Send | internal/conversation/posting.go:95-227 | With any number of other transactions and handle changes before, between and after its own, each a recorded step of the history: either one new message, posted by one of those steps under a new identifier with body, references and quote drafted from worlds of this call in the code's order; or the message its key stores; or nothing. A request committed before never posts again, and unless a store call fails its answer is that message exactly if in one world recorded during the call its quote reads as stored |
| ConversationTx.Conversations.Compose | internal/conversation/posting.go:112-227 | The rest of a send, when no repeat has answered: draft, quote, transaction, and the repeat if its key turns out taken, each in the worlds it passes |
| ConversationTx.AnswersAsRead | internal/conversation/posting.go:256-329 | The answer to a request sent again is the stored message exactly if its quote reads as stored in the world seen, and otherwise a refusal of the body or of the key |
| ConversationTx.UnchangedHandlesAnswer | internal/conversation/posting.go:256-379 | If in no world that a send passed somebody whom the quoted message mentions has another handle than when it was first sent, a request sent again is answered with the stored message unless a store call failed |
| ConversationTx.PathSince | internal/conversation/ports.go:36-48 | Between any two recorded worlds nothing is lost and nobody leaves the directory |
| ConversationTx.Conversations.Other | internal/conversation/ports.go:36-48 | Whatever transaction anybody runs in between is a recorded step of the history and takes no identifier handed out |
| ConversationTx.Conversations.SetHandle | internal/org/handle.go:43-61 | A handle somebody else has is refused, also in another case; otherwise the member has it from then on |
| ConversationTx.Conversations.Commit | internal/conversation/ports.go:36-48 | The commit is confirmed, refused, or unknown and then either |
| ConversationTx.Tx.NextEventSeq | internal/conversation/ports.go:99-105 | Takes the next sequence in the transaction's view |
| ConversationTx.Tx.GetTopic | internal/conversation/ports.go:60-61 | A topic of the channel, or not found |
| ConversationTx.Tx.GetDefaultTopic | internal/conversation/ports.go:57-59 | The channel's default topic, or not found |
| ConversationTx.Tx.CreateTopic | internal/conversation/ports.go:83-85 | Creates the topic, or its name is taken ignoring case |
| ConversationTx.Tx.MoveMessages | internal/conversation/ports.go:89-91 | Moves those still in the source and counts them |
| ConversationTx.Tx.InsertMessage | internal/conversation/ports.go:62-72 | Inserts the message and its key, or the author's key is taken |
| ConversationTx.Tx.LastMessageBefore | internal/conversation/ports.go:55-56 | The channel's previous message sequence |
| ConversationTx.Tx.MarkRead | internal/conversation/ports.go:186-199 | Adds one range for the author |
| ConversationTx.Tx.Append | internal/conversation/ports.go:110-114 | Appends the event at its sequence |
| ConversationTx.Tx.SetTopicConclusion | internal/conversation/ports.go:92-93 | Sets a checked conclusion, or reopens |
| ConversationTx.Tx.QuotedMessage | internal/conversation/ports.go:77-79 | The channel's message, or not found |
| ConversationTx.Tx.CountChannelPins | internal/conversation/pin.go:25-33 | Counts the channel's pins across its topics |
| ConversationTx.Tx.SetPins | internal/conversation/pin.go:25-33 | Sets or clears a message's pin |
| EventStream.CutRoundTrip | internal/web/stream_sender.go:69-96 | For any frames and heartbeats whose names hold no line break, and wherever the connection ends: the reader gets exactly the complete frames' id, name and data (CR and CRLF as LF) in order, up to the first reset or line it has no room for; heartbeats and a cut frame give nothing (section 9.2.6 of the WHATWG HTML standard) |
| EventStream.RoundTrip | internal/web/stream_sender.go:69-96 | The same for everything sent |
| EventStream.EndedRoundTrip | internal/web/stream_sender.go:24-67 | What arrived from a sender that stopped in the middle of a write reads as everything sent before, with the last item only if all of it arrived |
| LineEnds.Replacements | internal/web/stream_sender.go:85 | The two replacements make each of the standard's three line ends one LF |
| EventStream.CutItem | cmd/loadgen/main.go:337-339 | A frame cut anywhere before its blank line completes nothing |
| EventStream.ReadItem | cmd/loadgen/main.go:339-379 | One item is read as it was sent, and then the rest |
| EventStream.Framed | internal/web/stream_sender.go:79-91 | The buffer holds an id line unless ephemeral, the name, and each line of the data in its own field |
| EventStream.SseSender.Send | internal/web/stream_sender.go:79-96 | Writes one frame, or ends the stream with part of it written |
| EventStream.SseSender.Beat | internal/web/stream_sender.go:70-75 | Writes one comment, or ends the stream with part of it written |
| EventStream.SseSender.Write | internal/web/stream_sender.go:31-67 | A failed write may have written any part, and ends the stream |
| EventStream.ReadReset | cmd/loadgen/main.go:339-379 | The loop over the scanned lines reports the completed events in order, and a reset exactly when one is complete; receive is given the sequence of messages only |
| Decimal.Printed | internal/identity/password.go:214-225 | A printed number reads back, without leading zeros |
| Decimal.Canonical | internal/identity/password.go:219-223 | Digits without leading zeros are what printing gives |
| PasswordText.ParseIsFormat | internal/identity/password.go:168-225 | parse accepts exactly the strings format prints for parameters in range, and gives back those parameters |
| PasswordText.FormatFits | internal/identity/password.go:41-44 | No string for parameters in range is longer than 205 bytes |
| PasswordText.OneSpelling | internal/identity/password.go:174-175 | Hashes that parse alike are the same string |
| PasswordText.DecodesTheEncoded | internal/identity/password.go:197-208 | The strict decoder accepts exactly the encoder's strings, line breaks aside (section 4 of RFC 4648, without padding) |
| PasswordText.DecodeEncoded | internal/identity/password.go:168-172 | Decoding an encoding gives the bytes back |
| PasswordText.EncodeDecoded | internal/identity/password.go:197-204 | What decodes is an encoding: no bits are left over |

## Left out

- PostgreSQL: the stores are their interfaces' contracts as methods over one value; locks, isolation and the union of read ranges are not modelled.
- Organisations: presence, typing and conversation are modelled for one organisation, as their state is kept per organisation.
- Time: clocks and timers are steps that may happen at any moment, stale callbacks included; no duration is modelled, and CachedEvents' expiry is any moment.
- Argon2, SHA-256, the hashing slots of identity.Hasher and randomness: a digest is an unknown function.
- Unicode: the letter, digit, mark and space classes are unknown predicates that agree with ASCII; texts of the grammar are sequences of code points, so invalid UTF-8 and byte offsets are not modelled.
- Whole-tree preservation by replaceHandles, which the code does not promise.
- Statistics counters of the authorizer, the cache's Len and Waiting, and the hub's Waiting and Connections.
- HTTP handlers, rendering, JSON payload encoding, and the request parsing around openStream.
- StreamRun.Stream.Run: stores, renderers and owners answer as they like; a renderer is taken to give a message frame its event's sequence as ID, as its interface says.
- SessionStreams.InvKept: a token and its session's id are one number, as a token never names two sessions.
- Conversation.OutcomeKept: mention rows, and messages of the older plain_text format, which no path modelled here creates.
- ConversationTx.Conversations.Repeat: messages stored without a proof of their typed body, which the model never has.
- Conversation.ReplayingTheLog: message deletion, which no code path modelled here does.
- TypingObject.Organization.Start: the summaries inside the organisation object are values; TypingObject.PlaceSummary is their in-place form.
- EventStream.ReadReset: the scanner is its result, the list of lines up to one that does not fit; a char stands for a byte.
- PasswordText.ParseIsFormat: lengths count chars, which are bytes for the strings that parse accepts.
- PinsRounds.SharedSnapshotsAreFresh: the round's cache is used by its contract, that a Get returns a value loaded in that round; RealtimeCacheRuns proves that contract.
- RequestResync of the read changes, which is ReadChanged under another name.
- LiveDelivery.QuietStreamHasEverything: the generation that a presence or typing owner says its state covers is the owner's word.
- Typing signals: their signatures, acceptance deadlines and the closures that refuse late ones.
- Posting built without a member directory or a read-range writer.
