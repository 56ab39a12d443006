# Commy inbound delivery, verified

A Dafny 4.11 model of how Commy gets messages from a Zulip realm to an agent, and
proofs about it. `dafny verify dfyconfig.toml` checks the whole project.

## What is modelled

**The delivery protocol** (`Realm`, `Producer`, `DeliveryInvariant`, `DeliverySteps`,
`DeliveryFinish`, `Delivery`, `Chunks`, `Registration`, `Adoption`, `Forgotten`). The events producer is a state machine that
registers an event queue, polls it, moves a cursor, adopts a registration made by
`subscribe`, and recovers from a dead queue by registering a fresh one before it reads
the replay snapshot. It is interleaved step by step with the realm: posts, reactions, other
registrations, queue drops. A step of the program is split where another party can act
in between (begin, register, poll, finish; register, snapshot, backfill), and every
request may fail. An inductive invariant is kept by all fourteen actions; the theorems
about whole runs follow from it: no loss between adoptions, exactly what an adoption leaves
behind, when that is lost for good, and what each chunk says of its messages, mentions and
reactions.

**The pump** (`EventPump`, `PumpPasses`, `OnceOnly`, `EndToEnd`). The dispatch and its dedup
log of 1024 ids, a second invariant of the protocol that says what of each queue and each
replay the log still holds, and the composition: realm history to notifier.

**The window reader** (`HistoryPaging`). Backward paging with overlapping anchors, a
seen set, a cap and a page budget, over a history that may grow between requests.

**Subscription state** (`NarrowSet`, `SubscriptionRestore`, `Subscriptions`,
`ChannelsCatchUp`). The narrow set with its journal, the rebuild from realm rows and the
topic-level record, the same rules in the Zulip inbox and in the in-memory inbox, and the
first-message-per-topic filter.

**The single-flight bind** (`EnsureBound`), **thread resolution** (`ThreadResolution`),
and the codecs and bounds: **mention spans** (`HtmlText`, `RenderedMentions`,
`RenderedText`), **hash
components** (`Permalink`), the **message-ref cache** (`MessageRefCache`), the
**persisted cursor** (`QueueState`, whose hooks read and write in separate steps on two
fibers) and the **429 wait budget** (`RateLimit`).

Objects the program updates in place are classes whose methods are proved equal to a
step function of the old state (`EventPump`, `NarrowSet`, `ZulipInbox`, `SeatRealm`,
`MemoryInbox`, `EnsureBound`, `ThreadAdapter`, `MessageRefCache`, `QueueStateStore`,
`QueueStateHooks`); loops are methods with invariants (`MapBatch`, `AdvanceWatermark`,
`Render`, `FirstMessagePerTopic`, the eviction loop). The lemmas are about the step
functions and runs of them.

## Where the code does less than one would like

Each of these is proved, with the exact condition or the run that shows it.

- A registration adopted in the step that finds its queue dead is adopted again by every
  later step: recovery goes on from the pre-step state, the replacement queue is never
  polled and no live batch is finished again (`StuckForever`, `StuckIsReachable`,
  `AdoptionCommitsIffAlive`). The comment above `inboxEvents` (events.ts:781) says a dead
  queue is reset to undefined; the code registers the replacement at once, and the model
  follows the code.
- An adoption passes by what the queue before it had not handed on: it leaves nothing behind
  exactly when all the seat had been sent by its first subscribe had been polled by the time
  the new queue's first batch is handed on (`AdoptionClosesIff`, `AdoptionPassesBy`). What it
  passes by comes back with the next replay, unless the watermark has moved past it: then it is
  lost for good, and only then (`PassedByForGoodIff`, `AdoptionLosesForGood`). The no-loss
  theorem therefore holds between adoptions.
- Two recoveries with nothing stored in between hand on the same replay twice, and the dedup
  log absorbs the second copy exactly when the replay holds at most 1024 wanted messages
  (`RepeatedRecoveryAbsorbedIff`). With every replay that small, nothing is ever told twice
  (`NothingToldTwice`, `ExactlyOnceWhenReplaysFit`).
- A replay reads at most the newest 20000 messages of the realm. It is cut short, and the
  no-loss theorem stops there, exactly when the realm holds more than 19000 and none of the
  newest 20000 is older than the watermark (`ReplaySpentIff`). The comment above the read
  (adapter.ts:2286) promises everything missed, however many pages that spans; the model
  follows the code's budget of 20 pages.
- A notifier that fails once parks the pump: nothing is handed over from that event on
  (`ParkedAtFirstFailure`).
- What a boot registers can widen or narrow what a seat held: a topic-level intent in a channel
  held whole displaces the whole channel, and what is registered after buffering began is
  added back over the record (`RestartPreservesIffBootFits`). The defaults a persistent seat
  registers at every boot bring the new-topics reach back to a seat that had dropped it
  (`DefaultsAddNewTopics`).
- A `subscribe` whose request is lost records its narrow first, so every repeat succeeds
  without asking the realm and the seat stays deaf to the channel (`RetriesStayDeaf`,
  `NewSeatStaysDeaf`).
- The in-memory inbox keeps the narrows inside a channel named `mentions` when that
  channel is dropped (`MemoryStepAgreesIff`), and does not read it back
  (`ReadBackIsRows`).
- A post to a thread whose raw topic exceeds 60 characters is stored under a cut name
  that no read of the thread finds (`PostIsReadIffItFits`).
- `advance` is not told which queue was polled, and reads before it writes. So when the poller
  takes up a newly registered queue, the state file names that queue with its own event id
  exactly when its register's write went through and no write after it went anywhere
  (`TakenUpOnFileIff`); the name then stands, and a foreign event id goes only once the queue's
  own progress has passed it (`EpochOnFileIff`). Three runs show the ways it goes wrong
  (`AdoptedQueueMovesCandidate`, `AdvanceRevivesOldQueue`, `AdvanceMovesNewQueue`).
- An unreadable state file is taken for no file, so an early register overwrites the
  resume candidate (`RegisterKeepsCandidateIff`).
- A topic that carries the resolved prefix twice, or is the bare prefix, is not what its
  split puts together again (`ApplyUndoesSplit`).

## Model

| member | source | states |
|---|---|---|
| Delivery.NoLoss | packages/zulip/events.ts:925-952 | Between adoptions, in every interleaving, once a live batch carried a message: every later message of the seat's is emitted, or waits in the live queue, or falls in the next replay's window; all that was stored by the last completed poll or snapshot is emitted |
| Delivery.NothingSkipped | packages/zulip/events.ts:925-952 | No message past the last completed poll or snapshot can drop out: it is unread in the polled queue, or that queue is dead and the watermark does not lie past it |
| Delivery.LiveCycleCatchesUp | packages/zulip/events.ts:954-1052 | A poll, finished after any interference by others, leaves everything stored at the poll emitted |
| Delivery.RecoveryCatchesUp | packages/zulip/events.ts:910-952 | A replay read in full leaves everything stored at the snapshot emitted, however the realm moved before it was handed on |
| Delivery.RecoveryPollsFresh | packages/zulip/events.ts:925-952 | However a recovery ends, the producer goes on with the queue it registered, from its beginning, with the observed registration unchanged; only a replay that succeeded hands anything on |
| Delivery.ChunksAreTheQueue | packages/zulip/events.ts:954-1086 | While one queue is polled, the chunks are exactly that queue's mapped events between the two cursors, in id order, each once, whatever heartbeats, 429s and failing steps occur |
| Chunks.BatchSays | packages/zulip/events.ts:421-460 | A live batch posts exactly its messages, each once and in order, has a mention right after each post that mentions the seat and nowhere else, and shows exactly its reactions in order |
| Chunks.BatchMeans | packages/zulip/events.ts:667-730 | Event by event: a post, a mention or a reaction is in the chunk exactly when the batch holds the message, the message mentioning the seat, or the reaction |
| Chunks.ReplaySays | packages/zulip/events.ts:609-615 | A replay posts exactly its rows in the same way, each event marked as replayed |
| Chunks.ReplayMeans | packages/zulip/adapter.ts:2286-2345 | Event by event the same of a replay |
| Chunks.MentionsFollowPosts | packages/zulip/events.ts:421-460 | In every run whatever is emitted has its mention of the seat right behind it, and no mention stands alone |
| Chunks.RegistersOwn | packages/zulip/events.ts:546-565 | Every queue the seat registers asks for reactions |
| Chunks.ReactionsReachTheQueue | packages/zulip/in-process-realm.ts:306-319 | A reaction the realm sends the seat is on its live queue, in every run from there |
| Chunks.ReactionIsEmitted | packages/zulip/events.ts:1004-1028 | And is emitted once the cursor has passed it |
| Delivery.StuckForever | packages/zulip/events.ts:931-941 | A dead registration still to be adopted stays so in every run, and no live batch is ever finished |
| Delivery.AdoptionCommitsIffAlive | packages/zulip/events.ts:954-976 | After the poll of an adopted registration it is still to be adopted exactly when its queue was dead |
| Delivery.StuckIsReachable | packages/zulip/events.ts:954-976 | A first subscribe whose queue the realm drops before the first poll leads there |
| Delivery.StuckIsDeaf | packages/zulip/events.ts:933-942 | With no watermark, nothing is ever emitted from there |
| Adoption.BatchClosesIff | packages/zulip/events.ts:954-1052 | In every interleaving a finished batch leaves nothing stored before its poll behind exactly when its messages start no later in the inbox than the last completed poll or snapshot |
| Adoption.AdoptionClosesIff | packages/zulip/events.ts:954-976 | In every interleaving, taking up the queue of a first subscribe leaves nothing behind exactly when all that had been stored for the seat at that subscribe had been polled, or was in a snapshot, before its first batch is handed on |
| Registration.RunRegisters | packages/zulip/in-process-realm.ts:298-319 | Along every run, a live message queue registered in it was sent exactly the messages of its owner newer than its own id |
| Adoption.OwnBatchCloses | packages/zulip/events.ts:954-1052 | A batch of the queue polled before always does, once a live batch carried a message |
| Adoption.AdoptionPassesBy | packages/zulip/events.ts:954-976 | A message stored between the last poll and a first subscribe is not handed on by the adoption, and the live queue taken up never holds it |
| Forgotten.ForgottenForGood | packages/zulip/events.ts:910-952 | A message no queue has to come and the watermark has moved past is never emitted, in any run |
| Forgotten.ReplayHandsOn | packages/zulip/events.ts:925-952 | Until the watermark has moved past it, the death of the polled queue and its recovery hand it on, given a replay read in full |
| Forgotten.PassedByForGoodIff | packages/zulip/events.ts:910-976 | What an adoption passed by is handed on in no run exactly when it is older than the watermark |
| Forgotten.AdoptionLosesForGood | packages/zulip/events.ts:954-976 | A message stored between the last poll and a first subscribe, and one later message delivered live: the first is handed on in no run from there |
| Forgotten.RecoveryRuns | packages/zulip/events.ts:925-952 | The death of the polled queue and its recovery hand on exactly the replay since the watermark and leave the producer polling a live queue |
| DeliveryFinish.NextKeeps | packages/zulip/events.ts:812-1113 | Every action of the realm and of the producer keeps the delivery invariant |
| DeliveryFinish.RunKeeps | packages/zulip/events.ts:812-1113 | The invariant holds along every run |
| DeliveryFinish.SnapshotHoldsGap | packages/zulip/events.ts:910-924 | A replay read in full holds every message stored since the last completed poll, because none of them is older than the watermark |
| DeliveryFinish.ReplaySpentIff | packages/zulip/adapter.ts:2286-2294 | A replay is cut short exactly when the realm holds more than 19000 messages and none of the newest 20000 is older than the watermark; in any case it holds those of the 20000 that are not |
| DeliverySteps.AnswerIsUnread | packages/zulip/in-process-realm.ts:827-881 | A live queue answers a sound cursor with exactly the events after it, or with one heartbeat when there are none; pruning costs nothing unread |
| DeliverySteps.UnreadIsNewest | packages/zulip/in-process-realm.ts:298-319 | The unread messages of a live queue are the newest part of what the realm delivered to its owner |
| Producer.MapBatch | packages/zulip/events.ts:1004-1034 | The batch loops yield all mapped events in order, the highest id and the advanced watermark, or nothing at all when one mapping fails; Chunks says what is mapped |
| Producer.AdvanceWatermark | packages/zulip/events.ts:1030-1034 | The watermark loop is the fold of a monotonic advance over message events only |
| EventPump.EventPump.RecordMessageDelivery | packages/mcp/event-pump.ts:249-265 | The eviction loop leaves the last 1024 ids and the verdict tells new, repeated and non-message events apart |
| EventPump.EventPump.DispatchEvent | packages/mcp/event-pump.ts:320-359 | Unwanted and own events change nothing; a repeat is not handed over; all else is, once, unless the notifier fails, which parks the pump |
| EventPump.LogIsRecentDeliveries | packages/mcp/event-pump.ts:242-265 | The log is exactly the last 1024 delivered ids and never more |
| EventPump.EveryMessageDelivered | packages/mcp/event-pump.ts:320-359 | Every accepted message reaches the notifier at least once |
| EventPump.ReactionsHandedOver | packages/mcp/event-pump.ts:320-359 | For every stream the reactions handed to the notifier are exactly the wanted ones by others, in order and as often as they come |
| EventPump.HandedOverInOrder | packages/mcp/event-pump.ts:320-359 | The notifier is handed events of the stream as they came and in their order, and only wanted messages the bot did not send |
| EventPump.AtMostOnceIffPrompt | packages/mcp/event-pump.ts:242-265 | No message is handed over twice exactly when each repeat arrives before 1024 newer deliveries |
| EventPump.ParkedAtFirstFailure | packages/mcp/event-pump.ts:361-386 | Up to the first failure of the notifier it is handed what it would be handed without failures, and from that event on nothing |
| PumpPasses.FeedsBatch | packages/mcp/event-pump.ts:320-359 | A live batch is to the pump one pass over the ids of the messages it wants, posts and mentions alike |
| PumpPasses.FeedsReplay | packages/mcp/event-pump.ts:320-359 | So is a replay |
| PumpPasses.PassOverGap | packages/mcp/event-pump.ts:242-265 | A replay no larger than the log, offered to a pump told nothing else since its first message, is prompt, delivers what is new of it in its order, and is all in the log afterwards |
| PumpPasses.SecondPassIdleIff | packages/mcp/event-pump.ts:242-265 | Offered again, it delivers nothing exactly when it is no larger than the log |
| OnceOnly.NothingToldTwice | packages/zulip/events.ts:910-952 | In every interleaving from boot that takes up no other registration and whose replays are read in full and fit the log, every repeat is prompt and no message is handed over twice |
| OnceOnly.NextOnce | packages/zulip/events.ts:812-1113 | Every action keeps what that rests on: what was told is in timestamp order, and the log holds whatever the polled queue or the replay in hand can bring again |
| OnceOnly.RepeatedRecoveryAbsorbedIff | packages/zulip/events.ts:925-952 | After every such run, a queue that dies twice with nothing stored in between has the same replay handed on twice, and the notifier is spared the second copy, and every repeat, exactly when at most 1024 messages of it are wanted |
| EndToEnd.ExactlyOnce | packages/mcp/event-pump.ts:320-359 | Over any number of queue deaths, each wanted message not sent by the bot reaches the notifier exactly once, given prompt repeats |
| EndToEnd.ExactlyOnceWhenReplaysFit | packages/mcp/event-pump.ts:320-359 | The same from the protocol alone: replays read in full that fit the log are enough |
| EndToEnd.DeliveredOnce | packages/mcp/event-pump.ts:320-359 | An emitted message for the notifier is counted once in its deliveries and the log stays bounded |
| HistoryPaging.ReadWindowExact | packages/zulip/history-paging.ts:65-138 | Unless the page budget ended the walk, the answer is exactly the newest `cap` in-window messages, ascending |
| HistoryPaging.ReadWindowIs | packages/zulip/history-paging.ts:65-138 | With no assumption on timestamps, exactly what a reading comes to: which of the newest pages it reads, how many requests it makes, and whether the budget ended it |
| HistoryPaging.SpentIff | packages/zulip/history-paging.ts:82-121 | The budget ends a reading exactly when history goes on past the last page but one and the newest `pageSize * maxPages` messages neither reach past the window nor fill the cap; then every request was made and the answer is the in-window part of those |
| HistoryPaging.ShortHistoryIsRead | packages/zulip/history-paging.ts:65-138 | A history of at most `pageSize * (maxPages - 1)` messages is never cut short by the budget, and is answered in full |
| HistoryPaging.ReadWindowClosed | packages/zulip/history-paging.ts:65-138 | Where timestamps never decrease, the answer is the newest `cap` in-window messages of the newest `pageSize * maxPages`, whatever ended the walk |
| HistoryPaging.ReadingIsSuffix | packages/zulip/history-paging.ts:65-138 | In any case the answer is the capped in-window part of some suffix of history, within the page budget |
| HistoryPaging.ReadWindowStable | packages/zulip/history-paging.ts:82-137 | History growing at its new end between requests changes nothing: the answer is the one as of the first request |
| HistoryPaging.ReadWindowOrdered | packages/zulip/history-paging.ts:82-137 | With no assumption on timestamps: ids ascend, none repeats, all lie in the window, at most `cap` results and `maxPages` requests |
| HistoryPaging.AnchorFalls | packages/zulip/history-paging.ts:82-121 | Every page the walk continues from moves the anchor strictly back |
| HistoryPaging.AnchoredPage | packages/zulip/in-process-realm.ts:557-565 | A page anchored in old history is the same slice however much was appended |
| NarrowSet.LateLoadIsEarlyLoad | packages/mcp/narrow-set.ts:195-223 | Loading a base after journaled changes gives the membership of loading it first and applying them after |
| NarrowSet.EmptyLoadKeepsMembership | packages/mcp/narrow-set.ts:211-223 | Loading nothing leaves the live membership as the changes left it |
| NarrowSet.ReplayIsLastWord | packages/mcp/narrow-set.ts:136-139 | Membership after a journal is each key's last word in it, removal of a channel speaking for all its narrows |
| NarrowSet.ReplayIdempotent | packages/mcp/narrow-set.ts:216-220 | Replaying a journal on a membership that took it already changes nothing |
| NarrowSet.JournalIsBounded | packages/mcp/narrow-set.ts:195-223 | Outside a buffering window the journal is empty, over any run |
| NarrowSet.SurfacesAtMostOnce | packages/mcp/narrow-set.ts:180-192 | Over any run of add, remove, load and match a topic surfaces through the new-topics arm at most once, and once iff it became seen |
| NarrowSet.VerdictOverRuns | packages/mcp/narrow-set.ts:180-238 | After any run of adds, removes and matches the filter lets through exactly: what a held channel or topic names, a post or mention of the bot, and the first post of a topic only a new-topics narrow reaches |
| NarrowSet.SeenIffSurfaced | packages/mcp/narrow-set.ts:180-192 | A topic is marked seen exactly when the run surfaced it through that narrow |
| NarrowSet.NarrowSet.AddIntent | packages/mcp/narrow-set.ts:195-199 | The intent joins the membership, and the journal while recording |
| NarrowSet.NarrowSet.RemoveIntent | packages/mcp/narrow-set.ts:200-204 | The intent leaves, with its channel's narrows when it is a channel, and is journaled while recording |
| NarrowSet.NarrowSet.LoadBase | packages/mcp/narrow-set.ts:211-223 | The journal loop leaves the base, or the live set, with every delta replayed in order, and ends the window |
| NarrowSet.NarrowSet.Matches | packages/mcp/narrow-set.ts:180-238 | The verdict per event kind, with the topic marked seen exactly when the new-topics arm fires |
| SubscriptionRestore.RestartPreservesDelivery | packages/mcp/subscription-restore.ts:68-99 | After persisting the topic-level slice and rebuilding from it, every reference gets the answer it got before, and the same new-topics reach where that is no |
| SubscriptionRestore.RestartIsFixpoint | packages/mcp/subscription-restore.ts:68-99 | Persisting the rebuilt set and rebuilding again gives the same set, record and rows |
| SubscriptionRestore.RestartMember | packages/mcp/subscription-restore.ts:68-99 | Rebuilt from the persisted slice, the set holds the whole channels held before, and the narrower intents of the other channels |
| SubscriptionRestore.RestoredMember | packages/mcp/subscription-restore.ts:87-99 | A realm channel becomes whole unless a topic-level intent of the record or the boot names it |
| SubscriptionRestore.RestartPreservesIffBootFits | packages/mcp/subscription-restore.ts:176-203 | With intents registered at boot, before buffering or journaled after, every answer and the new-topics reach are preserved exactly when each of them fits what was held |
| SubscriptionRestore.BootRunIsRebuilt | packages/mcp/server.ts:898-903 | The narrow set's own run of a boot, registrations, buffering, registrations and load, ends in the set those theorems are about |
| SubscriptionRestore.DefaultsAddNewTopics | packages/mcp/server.ts:210-239 | A persistent seat's boot defaults bring the new-topics reach back to a seat that held only the broadcast topic |
| Subscriptions.SuccessKeepsAllInStep | packages/zulip/adapter.ts:2071-2172 | Over every sequence of successful calls the inbox holds what the narrow set holds, and the realm a row for exactly the channels listened to |
| Subscriptions.ThreeInStep | packages/memory/adapter.ts:1111-1130 | Over every such sequence that never drops the channel `mentions` all three implementations hold the same intents |
| Subscriptions.CallKeepsStep | packages/zulip/adapter.ts:2079-2151 | Whatever becomes of its requests, a call moves the inbox as it moves the narrow set |
| Subscriptions.ListeningIsIntent | packages/zulip/adapter.ts:555-559 | A channel is listened to exactly when some held intent names it |
| Subscriptions.RowsTrackIff | packages/zulip/adapter.ts:2079-2166 | After a call rows and listening still agree exactly when no request the call needed was lost on its way; an answer lost on the way back leaves them in step |
| Subscriptions.LostSubscribeIsDeaf | packages/zulip/adapter.ts:2079-2108 | A subscribe whose request was lost fails and leaves the channel listened to with no row and no queue registered |
| Subscriptions.RetriesStayDeaf | packages/zulip/adapter.ts:2079-2108 | No sequence of further subscribes brings the row, though each one for the channel succeeds once a queue is or can be registered |
| Subscriptions.NewSeatStaysDeaf | packages/zulip/adapter.ts:2047-2108 | A new seat's first subscribe is lost: its repeat succeeds, registers the queue, and leaves the seat with no row |
| Subscriptions.MemoryStepAgreesIff | packages/memory/adapter.ts:985-1130 | The in-memory inbox follows the narrow set on a change, unless it drops `mentions` while narrows in it are held |
| Subscriptions.MemoryRunInStep | packages/memory/adapter.ts:1111-1130 | It agrees over every sequence of changes that never drops the channel `mentions` |
| Subscriptions.ReadBackIsRows | packages/memory/adapter.ts:1131-1146 | Reading back gives the realm's rows, but for `mentions` held only whole |
| Subscriptions.DeliveredIff | packages/zulip/adapter.ts:1994-2020 | Behind the adapter's filter the narrow set loses no matching reference and no mention, only topics the filter saw in channels with no other narrow |
| Subscriptions.FilterOverRuns | packages/zulip/adapter.ts:1994-2020 | Over any run of calls and events the adapter's filter passes a post in a channel with a new-topics narrow exactly for another narrow, a mention, or as its topic's first post since that narrow was last given up |
| Subscriptions.SeenIffPosted | packages/zulip/adapter.ts:1994-2020 | The filter has seen a topic exactly when it was posted to under the narrow since it was last given up |
| Subscriptions.SubscribedIsRegistered | packages/zulip/adapter.ts:2047-2060 | Once a subscribe has succeeded the seat has a queue, in every run |
| Subscriptions.SeatRealm.PostSubscription | packages/zulip/in-process-realm.ts:1065-1104 | Subscribing creates the channel if need be and adds the row |
| Subscriptions.SeatRealm.DeleteSubscription | packages/zulip/in-process-realm.ts:1105-1136 | Removing a row of an unknown channel is refused; otherwise the row goes and the channel stays |
| Subscriptions.ZulipInbox.Subscribe | packages/zulip/adapter.ts:2071-2110 | The narrow is recorded first; the realm is asked only when the channel was not listened to; then a queue is registered if there is none |
| Subscriptions.ZulipInbox.Unsubscribe | packages/zulip/adapter.ts:2122-2172 | The narrow, or the whole channel with its seen topics, goes first; the realm is asked only when nothing in the channel is left |
| Subscriptions.ZulipInbox.Filter | packages/zulip/adapter.ts:1994-2020 | A post in a new-topics channel ticks its topic, and passes for another narrow, a mention or a first sight |
| Subscriptions.MemoryInbox.Subscribe | packages/memory/adapter.ts:1111-1114 | The target's key joins the set |
| Subscriptions.MemoryInbox.Unsubscribe | packages/memory/adapter.ts:1117-1130 | A channel takes its narrows with it, except `mentions` |
| ChannelsCatchUp.FirstMessagePerTopic | packages/mcp/channels-catch-up.ts:76-91 | The loop over the sorted messages yields the first of each topic |
| ChannelsCatchUp.SelectsEarliest | packages/mcp/channels-catch-up.ts:76-91 | A message is selected exactly when it has a topic and no message of that topic is earlier, or as early and before it in the input |
| ChannelsCatchUp.SelectionOrder | packages/mcp/channels-catch-up.ts:76-91 | The selection is in timestamp order with each topic once |
| ChannelsCatchUp.SortIsStable | packages/mcp/channels-catch-up.ts:79-82 | The sort orders by timestamp and keeps the posts of each timestamp as they came |
| ChannelsCatchUp.LiveArmAgreesWithCatchUp | packages/mcp/narrow-set.ts:180-189 | Fed one channel's messages in timestamp order, the live new-topics arm surfaces what catch-up selects, less topics already seen or held |
| ChannelsCatchUp.DispatchIsOrdered | packages/mcp/channels-catch-up.ts:120-131 | Everything fetched and not the bot's own is dispatched, as often as fetched, in timestamp order |
| ChannelsCatchUp.DispatchedIff | packages/mcp/channels-catch-up.ts:120-131 | A message is dispatched exactly when some fetch brought it and the bot did not send it, as often as it was fetched |
| EnsureBound.SingleFlight | packages/mcp/ensure-bound.ts:92-149 | In every interleaving at most one caller has an acquire or its hook running |
| EnsureBound.WaiterGetsItsExit | packages/mcp/ensure-bound.ts:113-123 | A waiter returns exactly the exit of the acquire it waited for, and every identity returned was acquired |
| EnsureBound.ExitIsFinal | packages/mcp/ensure-bound.ts:115-124 | The exit recorded for a deferred never changes |
| EnsureBound.FailureResets | packages/mcp/ensure-bound.ts:115-139 | A failed acquire or hook returns the cell to idle, no acquire is running then, nobody else is touched, and the next call acquires anew |
| EnsureBound.ReentryNeverWaits | packages/mcp/ensure-bound.ts:125-139 | A call made while the hook runs has its identity at once, and no waiter is held up by the hook |
| EnsureBound.HookDecides | packages/mcp/ensure-bound.ts:115-139 | In every run a call that acquired returns the recorded exit of its own acquire; when that succeeded and there is a hook, the hook ran to its end first and the call returns the identity or the hook's failure; a failed acquire and a waiter run no hook |
| EnsureBound.AcquiredOnce | packages/mcp/ensure-bound.ts:92-149 | In every run an identity is acquired anew only after a hook has failed |
| EnsureBound.WaiterIsDriven | packages/mcp/ensure-bound.ts:113-124 | A waiter can go on, or some caller about to end its acquire or complete that deferred exists |
| EnsureBound.StepsReturn | packages/mcp/ensure-bound.ts:94-141 | Every step but a new call brings its caller nearer its return and sets nobody back |
| EnsureBound.NextKeeps | packages/mcp/ensure-bound.ts:92-149 | Every step keeps the invariant that ties callers, cell, deferreds and exits |
| EnsureBound.EnsureBound.Enter | packages/mcp/ensure-bound.ts:97-114 | One atomic decision: have, await or run under a fresh deferred |
| EnsureBound.EnsureBound.AcquireExits | packages/mcp/ensure-bound.ts:115-123 | The cell takes the acquire's exit before the deferred does |
| EnsureBound.EnsureBound.Complete | packages/mcp/ensure-bound.ts:123-137 | The caller's own deferred is completed and the hook starts on success; HookDecides says it ends before the call does |
| EnsureBound.EnsureBound.HookExits | packages/mcp/ensure-bound.ts:130-139 | A failing hook sets the cell idle and fails the call; a good one returns the identity |
| EnsureBound.EnsureBound.Resume | packages/mcp/ensure-bound.ts:114 | A waiter returns what its deferred was completed with |
| ThreadResolution.ResolutionConserves | packages/zulip/adapter.ts:1696-1747 | From bare, resolved, both or neither: found iff the thread holds a message; one form is left with all its messages in id order and at most one notice; the rest of history is untouched |
| ThreadResolution.ResolutionIsIdempotent | packages/zulip/adapter.ts:1696-1747 | Repeating the call changes nothing |
| ThreadResolution.RenameIsNoticed | packages/zulip/in-process-realm.ts:781-786 | Renaming a plain thread's one form to the other is what the realm takes for a change of resolution |
| ThreadResolution.FittingPostIsRead | packages/zulip/adapter.ts:1759-1783 | A post whose addressed topic fits and whose name shows something, or whose thread is resolved, is accepted and is what an unbounded read of its thread ends with, from any realm |
| ThreadResolution.PostIsReadIffItFits | packages/zulip/in-process-realm.ts:53-54 | Under a length-keeping lower-casing a post is stored and read back exactly when the addressed topic has at most 60 characters and is not blank |
| ThreadResolution.PostNeverForks | packages/zulip/adapter.ts:1759-1783 | An accepted post leaves a thread in both forms exactly when it was in both before |
| ThreadResolution.PostAcceptedIff | packages/zulip/in-process-realm.ts:1147-1149 | A post is accepted exactly when its name has a visible character, or is cut with an ellipsis, or goes to the resolved form |
| ThreadResolution.PostStores | packages/zulip/in-process-realm.ts:1151-1170 | An accepted post is the newest message of the raw topic it was addressed to, as far as the realm keeps it |
| ThreadResolution.UnboundedRead | packages/zulip/adapter.ts:996-1043 | A read with no window is the newest `limit` messages, 100 by default |
| ThreadResolution.BoundedRead | packages/zulip/adapter.ts:996-1043 | A read with a window is the newest `limit` in-window messages, 100 by default, of what twenty pages hold |
| ThreadResolution.UnboundedThreadRead | packages/zulip/adapter.ts:2360-2373 | A thread is read under its bare form, else under its resolved one |
| ThreadResolution.AddressIsForm | packages/zulip/adapter.ts:1759-1783 | A post goes to the resolved form exactly when only that one exists |
| ThreadResolution.AsciiLowerFolds | packages/zulip/in-process-realm.ts:175 | ASCII lower-casing meets all that the theorems ask of a lower-casing |
| ThreadResolution.SplitUndoesApply | packages/zulip/resolved-topic.ts:27-46 | Splitting an applied name gives name and state back exactly for plain names |
| ThreadResolution.ApplyUndoesSplit | packages/zulip/resolved-topic.ts:27-46 | Applying a split topic gives it back exactly unless it is the bare prefix or carries it twice |
| ThreadResolution.ThreadAdapter.Resolve | packages/zulip/adapter.ts:1696-1747 | Finds the source form and renames it, is a no-op when only the target exists, and reports an absent thread |
| ThreadResolution.ThreadAdapter.Patch | packages/zulip/in-process-realm.ts:748-788 | The rename with all that share the topic, and the notice where resolution changed |
| ThreadResolution.ThreadAdapter.Publish | packages/zulip/adapter.ts:1786-1830 | The post goes to the thread's current form, cut to the limit, unless the topic is blank |
| RenderedMentions.ScannerAgreesWithRenderer | packages/zulip/rendered-mentions.ts:82-106 | For every split of a body into code, text and mention tokens the scanner reads back exactly the notified spans, in order, and their user ids: nothing can be forged, hidden or altered |
| RenderedText.BodyIsShown | packages/zulip/in-process-realm.ts:253-293 | For every split of a body the html, tags removed and entities resolved, shows exactly its text, its code and the names its mentions stand for |
| RenderedText.GroupReadsBack | packages/zulip/rendered-mentions.ts:69-101 | A user group's span is read back as that group by its whole name, whatever it contains |
| RenderedText.SilentGroupReadsBack | packages/zulip/rendered-mentions.ts:76-101 | A silent one is read back as nothing |
| RenderedMentions.LaterAttributeWins | packages/zulip/rendered-mentions.ts:28-40 | Of two attributes of one name the later counts |
| RenderedMentions.UserIdIff | packages/zulip/rendered-mentions.ts:91-95 | A span names a user exactly by a decimal numeral |
| RenderedMentions.TokenReadsBack | packages/zulip/rendered-mentions.ts:103-106 | One token contributes exactly its own spans whatever html follows it |
| RenderedMentions.NameSurvives | packages/zulip/rendered-mentions.ts:72-74 | A display name comes back whole from its span text |
| RenderedMentions.DigitsRoundTrip | packages/zulip/rendered-mentions.ts:91-95 | A user id written into a span is the number read from it |
| RenderedMentions.Render | packages/zulip/in-process-realm.ts:253-293 | The renderer's loop yields the html of all tokens and the set of users it notifies by name |
| HtmlText.UnescapeUndoesEscape | packages/zulip/rendered-mentions.ts:40-49 | `unescapeText` undoes `escapeHtml` on every string |
| HtmlText.EscapeIsEncoded | packages/zulip/in-process-realm.ts:210-216 | The five replacements in sequence write each special character as its one entity, with no double escaping |
| HtmlText.EscapedIsInert | packages/zulip/in-process-realm.ts:210-216 | Escaped text holds no angle bracket |
| Permalink.HashComponentRoundTrip | packages/zulip/permalink.ts:45-49 | Reading dots as percent signs and decoding (section 2.1 of RFC 3986, section 3 of RFC 3629) recovers every string of scalar values |
| Permalink.EncodingIsInjective | packages/zulip/permalink.ts:45-49 | Different values have different encodings |
| Permalink.EncodingAlphabet | packages/zulip/permalink.ts:35-49 | The output has only letters, digits, hyphens, underscores, tildes and dots, so no percent sign and no slash |
| Permalink.TopicLinkNamesOneThread | packages/zulip/permalink.ts:87-95 | In a channel, equal topic links name the same topic and anchor |
| Permalink.TopicLinkReadsBack | packages/zulip/permalink.ts:87-95 | After the channel's link a topic link has one segment that decodes to the topic, and then the anchor |
| MessageRefCache.CacheIsRecentPartOfMap | packages/zulip/events.ts:93-113 | Over any run the cache answers as an unbounded map for ids with fewer than `maxSize` distinct others used since, not at all for the rest, and holds at most `maxSize` |
| MessageRefCache.MissBringsNothingBack | packages/zulip/events.ts:105-112 | A get that misses changes nothing and is no use |
| MessageRefCache.RecentIff | packages/zulip/events.ts:93-113 | Having fewer than `n` distinct ids used since is being among the last `n` of the recency order |
| MessageRefCache.MessageRefCache.Set | packages/zulip/events.ts:96-103 | The entry moves or joins at the new end, and the oldest goes when the size is exceeded |
| MessageRefCache.MessageRefCache.Get | packages/zulip/events.ts:104-111 | A hit is returned and moves to the new end |
| QueueState.TakenUpOnFileIff | packages/mcp/queue-state-hooks.ts:81-101 | In every interleaving from a register, of the subscriber or of the poller, to the moment its queue is first polled: the file then names the polled queue with its own event id exactly when the register was written and no write after it went anywhere; the write is made exactly when the session was known, and the verdict in or nothing found on file |
| QueueState.EpochOnFileIff | packages/mcp/queue-state-hooks.ts:98-101 | While that queue is polled the name on file stands, and the event id is its own exactly when it was at the start or one of its own progress reports was written since |
| QueueState.AdoptedQueueMovesCandidate | packages/mcp/queue-state-hooks.ts:81-101 | A run after which the file names the resume candidate's queue with the adopted queue's event id |
| QueueState.AdvanceRevivesOldQueue | packages/mcp/queue-state-store.ts:119-133 | A register between an advance's read and its write: the file names the earlier queue again |
| QueueState.AdvanceMovesNewQueue | packages/mcp/queue-state-store.ts:119-133 | An advance of the earlier queue after the register: the file names the new queue with the earlier one's event id |
| QueueState.NextKeepsKnown | packages/mcp/queue-state-hooks.ts:81-115 | Every step keeps the invariant: ids on file and in hand were issued, progress reported is the polled queue's, a queue is not polled before its hook returns |
| QueueState.CandidateSurvives | packages/mcp/queue-state-hooks.ts:81-97 | In every interleaving of registers, boot checks and advances while the verdict is pending, a readable resume candidate keeps its queue id and its event id never falls |
| QueueState.RegisterKeepsCandidateIff | packages/mcp/queue-state-hooks.ts:81-97 | A register alone, made while the verdict is pending, keeps the candidate exactly when the file was readable or the write refused |
| QueueState.BootCheckDecidesIff | packages/mcp/server.ts:486-513 | The boot check decides against a resume exactly when the session is known and nothing can be resumed, and otherwise decides nothing |
| QueueState.VerdictIsFinal | packages/mcp/queue-state-hooks.ts:114-115 | The first verdict stands over any run |
| QueueState.VerdictIsFirstReport | packages/mcp/queue-state-hooks.ts:114-115 | In every run the verdict is what the first report said, or no resume when a boot check that found nothing came before |
| QueueState.ResumesWhatIsHeld | packages/mcp/queue-state-hooks.ts:102-113 | A seat resumes exactly the cursor its file holds, when the session is known and the file can be read |
| QueueState.OnlyAdvancesIff | packages/mcp/queue-state-store.ts:119-133 | Between wholesale writes every run keeps the queue id and never lowers the event id, exactly when no advance is in flight that read an earlier file |
| QueueState.CursorOnlyAdvances | packages/mcp/queue-state-store.ts:117-133 | Along such runs no advance comes to be in flight across a change of the file |
| QueueState.CursorIsHighest | packages/mcp/queue-state-store.ts:119-133 | When advances go through, the file holds the highest id reported, in whatever order they came |
| QueueState.AdvanceAlone | packages/mcp/queue-state-hooks.ts:98-101 | The hook with no other write in between is the advance of the store |
| QueueState.QueueStateStore.Write | packages/mcp/queue-state-store.ts:105-117 | The file is replaced, kept or left torn, as the write goes |
| QueueState.QueueStateStore.Advance | packages/mcp/queue-state-store.ts:119-133 | Only a higher id moves a readable cursor, and keeps its queue |
| QueueState.QueueStateHooks.OnFeed | packages/mcp/server.ts:517-518 | The session id becomes known; nothing else moves |
| QueueState.QueueStateHooks.OnQueueRegister | packages/mcp/queue-state-hooks.ts:81-97 | Up to its first suspension: about to write when the verdict is in, about to read when it is not, over when the session is unknown |
| QueueState.QueueStateHooks.OnQueueAdvance | packages/mcp/queue-state-hooks.ts:98-101 | Up to its first suspension: about to read when the session is known |
| QueueState.QueueStateHooks.ReadReturns | packages/mcp/queue-state-hooks.ts:87-93 | A register found a candidate and is over, or is about to write; an advance moves a lower cursor of the file as read |
| QueueState.QueueStateHooks.WriteReturns | packages/mcp/queue-state-store.ts:105-133 | The file takes the cursor decided on before, whatever it holds now, and the hook is over |
| QueueState.QueueStateHooks.OnResumeOutcome | packages/mcp/queue-state-hooks.ts:114-115 | First write wins |
| QueueState.QueueStateHooks.ReportNothingToResume | packages/mcp/server.ts:486-513 | Decides against a resume only when none is found |
| RateLimit.BudgetIsKept | packages/zulip/http.ts:212-254 | Whatever arrives, waits total at most 15000 ms in at most 150 waits, and a 429 is given up on only with the budget spent exactly |
| RateLimit.AbandonedIffSpent | packages/zulip/http.ts:234-254 | A 429 is given up on exactly when the waits so far have spent the budget |
| RateLimit.EachWaitIsAsked | packages/zulip/http.ts:212-254 | Each wait is the larger of `retry-after` and 100 ms, 1000 ms when absent, cut to what is left of the budget |

## Left out

- Delivery.NoLoss: starts at the first live batch that carried a message, since before it no watermark exists and a dead queue has nothing to replay from; it assumes message timestamps never decrease in id order.
- Delivery.ChunksAreTheQueue: takes the mapping of an event as a function of the event; the reads made while mapping (rendered content, reaction targets through the ref cache) are a success or a failure of the whole step.
- Heartbeats: a poll and its heartbeat are one atomic step that fires only when nothing is pending, so an event that arrives between the wait's end and the heartbeat, which the in-process realm answers with the heartbeat alone, is not modelled.
- Malformed event envelopes and direct messages, which the producer skips past: queued events are well formed.
- Post atomicity: the realm draws a message's id and stores the message in one step.
- Replay's filter on wildcard mentions by seat channel: replayed rows map as live ones do.
- One producer polls the seat's queues, and a `subscribe` registers a queue once; re-registration after a lost identity is not modelled.
- The replay snapshot is read in one step; ReadWindowStable is why later growth does not matter to it.
- OnceOnly.NothingToldTwice: takes up no other registration, since the first batch of an adopted queue can repeat what the queue before it handed on.
- EventPump.ParkedAtFirstFailure: the error block pushed before the pump parks is not part of the stream of deliveries.
- EndToEnd.ExactlyOnce: takes the narrow filter as a fixed predicate on messages; subscriptions that change during the run, and the adapter's own new-topics filter, are in Subscriptions and NarrowSet.
- HistoryPaging: a page is mapped row by row, one result a row; rows deleted or moved between requests are not modelled.
- RenderedMentions.ScannerAgreesWithRenderer: the regular expressions that split a raw body into code, text and tokens are not modelled; any split is allowed, and the lookup of a name is any function.
- RenderedMentions.DigitsRoundTrip: reads decimal numerals only, where the program's `Number` reads more.
- Subscriptions.SeatRealm.PostSubscription: channel names compare exactly, where the realm ignores case.
- Subscriptions.SeatRealm.DeleteSubscription: channel names compare exactly, where the realm ignores case.
- Subscriptions: calls of one inbox do not overlap; binding has succeeded.
- SubscriptionRestore.RestartPreservesIffBootFits: the boot's own subscribes have reached the realm, and the realm can be read; the boot that neither holds a record nor is bound loads nothing, which EmptyLoadKeepsMembership covers.
- ThreadResolution.PostAcceptedIff: the body is not blank and not over-long, and the channel exists; a post without a thread is left out.
- ThreadResolution: topic lower-casing is any function that leaves the prefix alone; lengths count characters, where the realm counts UTF-16 units; names that carry the prefix themselves are in the functions but not in the conservation theorems; each operation runs without interference.
- ThreadResolution.PostIsReadIffItFits: needs a lower-casing that keeps lengths for the direction that says a cut topic is lost; FittingPostIsRead does not.
- ChannelsCatchUp: the fetches and the clamped windows are parameters.
- EnsureBound: callers are not interrupted.
- Permalink: strings with lone surrogates, on which `encodeURIComponent` throws.
- QueueState: the 60-second verdict timer is one of the verdict calls; a write is one step, so two fibers' writes do not mix their bytes, and a read of a file being written is an unreadable one; the boot check runs before any hook call and is one step; file names and directories are left out.
- RateLimit: waits are real numbers; `retry-after` that is not a number is left out.
- HTTP, JSON and schema decoding, the file system, fibers, timers and the Effect layer wiring: a call is a success, a typed failure or a 429.
- Boot order and tool registration, session-to-session transitions of the identity cache, subscribe-token parsing, bot-name and description checks, the Hermes client, hooks and scripts.
