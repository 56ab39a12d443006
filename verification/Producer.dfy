/** The Zulip events producer, `inboxEvents` (packages/zulip/events.ts), as a
    state machine interleaved with the realm it polls. */
module Producer {
  import opened Core
  import opened Realm
  import HistoryPaging

  datatype InboundEvent =
    | MessagePosted(m: Message, replayed: bool)
    | MentionReceived(m: Message, replayed: bool)
    | ReactionSeen(target: nat, actor: UserId)

  predicate IsMessage(e: InboundEvent) { !e.ReactionSeen? }

  /** `messageToInboundEvents`: a mention of the bound identity follows its post. */
  function MessageToInbound(seat: UserId, m: Message): seq<InboundEvent> {
    [MessagePosted(m, false)] + if seat in m.mentioned then [MentionReceived(m, false)] else []
  }

  /** `processSingleEvent`, a function of the queued event alone. */
  function MapEvent(seat: UserId, e: QueuedEvent): seq<InboundEvent> {
    match e.body
    case MessageEvent(m) => MessageToInbound(seat, m)
    case ReactionEvent(target, actor) => [ReactionSeen(target, actor)]
    case _ => []
  }

  function MapEvents(seat: UserId, events: seq<QueuedEvent>): seq<InboundEvent> {
    if events == [] then [] else MapEvent(seat, events[0]) + MapEvents(seat, events[1..])
  }

  function MapMessages(seat: UserId, rows: seq<Message>): seq<InboundEvent> {
    if rows == [] then [] else MessageToInbound(seat, rows[0]) + MapMessages(seat, rows[1..])
  }

  function MarkReplayed(events: seq<InboundEvent>): seq<InboundEvent> {
    MapSeq((e: InboundEvent) => if IsMessage(e) then e.(replayed := true) else e, events)
  }

  /** The cursor the batch leaves: the highest id received, never below the old one. */
  function MaxId(last: int, events: seq<QueuedEvent>): int
    decreases |events|
  {
    if events == [] then last else MaxId(Max(last, events[0].id), events[1..])
  }

  /** `createWatermarkStore().advance`: monotonic. */
  function Advance(w: Option<nat>, timestamp: nat): Option<nat> {
    if w.Some? && timestamp <= w.value then w else Some(timestamp)
  }

  function AdvanceOver(w: Option<nat>, events: seq<InboundEvent>): Option<nat>
    decreases |events|
  {
    if events == [] then w else
    AdvanceOver(if IsMessage(events[0]) then Advance(w, events[0].m.timestamp) else w, events[1..])
  }

  datatype Cursor = Cursor(queueId: QueueId, lastEventId: int)

  /** What one answered poll makes of its batch. */
  datatype Batch = Batch(mapped: seq<InboundEvent>, maxId: int, watermark: Option<nat>)

  /** The batch loops of `step`. A read made while mapping the event at `failAt` can
      fail, and then the step yields nothing at all. */
  method MapBatch(seat: UserId, last: int, events: seq<QueuedEvent>, watermark: Option<nat>, failAt: Option<nat>)
    returns (r: Option<Batch>)
    ensures r.None? <==> failAt.Some? && failAt.value < |events|
    ensures r.Some? ==> r.value == Batch(MapEvents(seat, events), MaxId(last, events),
                                         AdvanceOver(watermark, MapEvents(seat, events)))
  {
    var maxId := last;
    var mapped: seq<InboundEvent> := [];
    for i := 0 to |events|
      invariant mapped + MapEvents(seat, events[i..]) == MapEvents(seat, events)
      invariant MaxId(maxId, events[i..]) == MaxId(last, events)
      invariant failAt.Some? ==> i <= failAt.value || |events| <= failAt.value
    {
      if failAt == Some(i) { return None; }
      ghost var rest := MapEvents(seat, events[i + 1..]);
      assert events[i..][0] == events[i] && events[i..][1..] == events[i + 1..];
      assert mapped + (MapEvent(seat, events[i]) + rest) == (mapped + MapEvent(seat, events[i])) + rest;
      if maxId < events[i].id { maxId := events[i].id; }
      mapped := mapped + MapEvent(seat, events[i]);
    }
    assert events[|events|..] == [];
    assert mapped == MapEvents(seat, events);
    var advanced := AdvanceWatermark(watermark, mapped);
    r := Some(Batch(mapped, maxId, advanced));
  }

  method AdvanceWatermark(watermark: Option<nat>, mapped: seq<InboundEvent>) returns (advanced: Option<nat>)
    ensures advanced == AdvanceOver(watermark, mapped)
  {
    advanced := watermark;
    for i := 0 to |mapped|
      invariant AdvanceOver(advanced, mapped[i..]) == AdvanceOver(watermark, mapped)
    {
      assert mapped[i..][0] == mapped[i] && mapped[i..][1..] == mapped[i + 1..];
      if IsMessage(mapped[i]) { advanced := Advance(advanced, mapped[i].m.timestamp); }
    }
    assert mapped[|mapped|..] == [];
  }

  /** The unfold's carried state. */
  datatype ProducerState = ProducerState(queue: Option<Cursor>, observed: Option<QueueId>)

  /** Where a step in progress stands. `adopted` is the observed registration id the
      step would commit; `upTo` counts the seat's messages stored when the step's
      poll or snapshot was served (bookkeeping, read by no transition). */
  datatype Phase =
    | Idle
    | Unregistered(adopted: Option<QueueId>)
    | Ready(adopted: Option<QueueId>, cursor: Cursor)
    | Mapping(adopted: Option<QueueId>, cursor: Cursor, batch: seq<QueuedEvent>, upTo: nat)
    | Recovering(anchor: Option<nat>)
    | Replaying(replacement: Cursor, since: nat)
    | Backfilling(replacement: Cursor, gap: seq<Message>, whole: bool, upTo: nat)

  const REPLAY_NUM_BEFORE: nat := 1000
  const HISTORY_MAX_PAGES: nat := 20

  /** `inbox.replay`: everything from `since` on, with no cap. */
  function ReplayOptions(since: nat): HistoryPaging.Options<Message> {
    HistoryPaging.Options(HistoryPaging.Window(Some(since), None), REPLAY_NUM_BEFORE, None, HISTORY_MAX_PAGES,
                          (m: Message) => m)
  }

  function ReplaySnapshot(history: seq<Message>, since: nat): HistoryPaging.Reading<Message> {
    HistoryPaging.ReadWindow(ReplayOptions(since), seq(HISTORY_MAX_PAGES, _ => history))
  }

  const OWN_EVENT_TYPES: Option<set<EventType>> := Some({MessageType, ReactionType, RealmType})

  /** The last four fields are bookkeeping no transition reads. `log` keeps every
      event ever put on a queue. `fromEvent` and `fromOut` are the polled queue's
      cursor and the output's length when that queue was taken up. `synced` counts
      the seat's messages stored at the last completed poll or snapshot, and
      `base` is the first of them known to be covered without a break. */
  datatype System = System(seat: UserId, realm: RealmState, registration: Option<Cursor>, producer: ProducerState,
                           phase: Phase, watermark: Option<nat>, out: seq<InboundEvent>,
                           log: map<QueueId, seq<QueuedEvent>>, fromEvent: int, fromOut: nat,
                           synced: nat, base: Option<nat>)

  function ToSeat(seat: UserId): Message -> bool { (m: Message) => seat in m.receivedBy }

  /** The messages the realm delivered to the seat, in id order. */
  function Inbox(s: System): seq<Message> { Filter(ToSeat(s.seat), s.realm.history) }

  /** The messages among queued events. */
  function MessagesOf(events: seq<QueuedEvent>): seq<Message> {
    if events == [] then [] else
    (if events[0].body.MessageEvent? then [events[0].body.m] else []) + MessagesOf(events[1..])
  }

  datatype Action =
    // the realm and its other clients
    | Post(draft: Message)
    | Broadcast(audience: set<UserId>, kind: EventType, body: EventBody)
    | RegisterOther(owner: UserId, eventTypes: Option<set<EventType>>)
    | Drop(id: QueueId)
    // the inbox's first subscribe
    | Subscribe
    // the producer
    | Begin
    | LazyRegister
    | Poll
    | Finish
    | Fail
    | Reregister
    | Snapshot
    | Backfill
    | ReplayFail

  predicate Enabled(s: System, a: Action) {
    match a
    case Post(draft) => s.realm.history == [] || s.realm.history[|s.realm.history| - 1].timestamp <= draft.timestamp
    case Broadcast(_, kind, body) => !body.MessageEvent? && !body.Heartbeat? && !kind.MessageType?
    case RegisterOther(_, _) => true
    case Drop(id) => id in s.realm.queues
    case Subscribe => s.registration.None?
    case Begin => s.phase.Idle?
    case LazyRegister => s.phase.Unregistered?
    case Poll => s.phase.Ready?
    case Finish => s.phase.Mapping?
    case Fail => s.phase.Unregistered? || s.phase.Ready? || s.phase.Mapping? || s.phase.Recovering?
    case Reregister => s.phase.Recovering?
    case Snapshot => s.phase.Replaying?
    case Backfill => s.phase.Backfilling?
    case ReplayFail => s.phase.Replaying? || s.phase.Backfilling?
  }

  /** The registration is adopted when it changed since the producer last looked. */
  predicate Adopts(s: System) {
    s.registration.Some? && Some(s.registration.value.queueId) != s.producer.observed
  }

  function Logged(s: System, audience: set<UserId>, kind: EventType, body: EventBody): map<QueueId, seq<QueuedEvent>> {
    map id | id in s.log ::
      if id in s.realm.queues && Receives(s.realm.queues[id], audience, kind)
      then s.log[id] + [QueuedEvent(s.realm.queues[id].lastIssued + 1, body)] else s.log[id]
  }

  function RegisterQueue(s: System, owner: UserId, eventTypes: Option<set<EventType>>): System {
    var realm := Register(s.realm, owner, eventTypes);
    s.(realm := realm, log := s.log[realm.serial := []])
  }

  function Begun(s: System): System {
    if Adopts(s) then s.(phase := Ready(Some(s.registration.value.queueId), s.registration.value))
    else if s.producer.queue.None? then s.(phase := Unregistered(s.producer.observed))
    else s.(phase := Ready(s.producer.observed, s.producer.queue.value))
  }

  /** `GET /events`, answered by a live queue or refused with BAD_EVENT_QUEUE_ID. */
  function PollAnswered(s: System): System
    requires s.phase.Ready?
  {
    var c := s.phase.cursor;
    if OwnsQueue(s.realm, s.seat, c.queueId) then
      var q := s.realm.queues[c.queueId];
      var answer := Answered(q, c.lastEventId);
      var beat := Filter(After(c.lastEventId), q.pending) == [];
      s.(realm := PollEvents(s.realm, c.queueId, c.lastEventId),
         log := if beat && c.queueId in s.log then s.log[c.queueId := s.log[c.queueId] + answer] else s.log,
         phase := Mapping(s.phase.adopted, c, answer, |Inbox(s)|))
    else s.(phase := Recovering(s.watermark))
  }

  /** Where the unread part of a queue's log starts in the seat's inbox. */
  function UnreadFrom(s: System, events: seq<QueuedEvent>, upTo: nat): int { upTo - |MessagesOf(events)| }

  function Finished(s: System): System
    requires s.phase.Mapping?
  {
    var Mapping(adopted, c, batch, upTo) := s.phase;
    var mapped := MapEvents(s.seat, batch);
    var maxId := MaxId(c.lastEventId, batch);
    var same := s.producer.queue.Some? && s.producer.queue.value.queueId == c.queueId;
    var from := UnreadFrom(s, batch, upTo);
    s.(producer := ProducerState(Some(Cursor(c.queueId, maxId)), adopted),
       phase := Idle,
       watermark := AdvanceOver(s.watermark, mapped),
       out := s.out + mapped,
       fromEvent := if same then s.fromEvent else c.lastEventId,
       fromOut := if same then s.fromOut else |s.out|,
       synced := upTo,
       base := if s.base.Some? && 0 <= from <= s.synced then Some(Min(s.base.value, from))
               else if MessagesOf(batch) != [] && 0 <= from then Some(from) else None)
  }

  /** `handleBadQueue`'s result: the replacement queue on the pre-step state. */
  function Replaced(s: System, replacement: Cursor, chunk: seq<InboundEvent>): System {
    s.(producer := s.producer.(queue := Some(replacement)), phase := Idle, out := s.out + chunk,
       fromEvent := replacement.lastEventId, fromOut := |s.out| + |chunk|)
  }

  function Next(s: System, a: Action): System
    requires Enabled(s, a)
  {
    match a
    case Post(draft) =>
      var m := draft.(id := s.realm.serial + 1);
      s.(realm := StoreMessage(s.realm, draft), log := Logged(s, m.receivedBy, MessageType, MessageEvent(m)))
    case Broadcast(audience, kind, body) =>
      s.(realm := Deliver(s.realm, audience, kind, body), log := Logged(s, audience, kind, body))
    case RegisterOther(owner, eventTypes) => RegisterQueue(s, owner, eventTypes)
    case Drop(id) => s.(realm := DropQueue(s.realm, id))
    case Subscribe =>
      var n := RegisterQueue(s, s.seat, OWN_EVENT_TYPES);
      n.(registration := Some(Cursor(n.realm.serial, -1)))
    case Begin => Begun(s)
    case LazyRegister =>
      var n := RegisterQueue(s, s.seat, OWN_EVENT_TYPES);
      n.(phase := Ready(s.phase.adopted, Cursor(n.realm.serial, -1)))
    case Poll => PollAnswered(s)
    case Finish => Finished(s)
    case Fail => s.(phase := Idle)
    case Reregister =>
      var n := RegisterQueue(s, s.seat, OWN_EVENT_TYPES);
      var replacement := Cursor(n.realm.serial, -1);
      if s.phase.anchor.None? then Replaced(n, replacement, [])
      else n.(phase := Replaying(replacement, s.phase.anchor.value))
    case Snapshot =>
      var reading := ReplaySnapshot(s.realm.history, s.phase.since);
      s.(phase := Backfilling(s.phase.replacement, reading.results, !reading.spent, |Inbox(s)|))
    case Backfill =>
      Replaced(s, s.phase.replacement, MarkReplayed(MapMessages(s.seat, s.phase.gap)))
        .(synced := s.phase.upTo, base := if s.phase.whole then s.base else None)
    case ReplayFail => Replaced(s, s.phase.replacement, []).(base := None)
  }

  predicate Runs(s: System, actions: seq<Action>)
    decreases |actions|
  {
    actions == [] || (Enabled(s, actions[0]) && Runs(Next(s, actions[0]), actions[1..]))
  }

  function Run(s: System, actions: seq<Action>): System
    requires Runs(s, actions)
    decreases |actions|
  {
    if actions == [] then s else Run(Next(s, actions[0]), actions[1..])
  }

  // ---- reading inbound events back ----

  function PostsIn(events: seq<InboundEvent>): seq<Message> {
    if events == [] then [] else (if events[0].MessagePosted? then [events[0].m] else []) + PostsIn(events[1..])
  }

  function MentionsIn(events: seq<InboundEvent>): seq<Message> {
    if events == [] then [] else (if events[0].MentionReceived? then [events[0].m] else []) + MentionsIn(events[1..])
  }

  datatype Reaction = Reaction(target: nat, actor: UserId)

  function ReactionsIn(events: seq<InboundEvent>): seq<Reaction> {
    if events == [] then [] else
    (if events[0].ReactionSeen? then [Reaction(events[0].target, events[0].actor)] else []) + ReactionsIn(events[1..])
  }

  lemma {:induction false} PostsConcat(a: seq<InboundEvent>, b: seq<InboundEvent>)
    ensures PostsIn(a + b) == PostsIn(a) + PostsIn(b)
  {
    if a == [] {
      assert a + b == b;
    } else {
      assert (a + b)[1..] == a[1..] + b;
      PostsConcat(a[1..], b);
      ConcatAssociates(if a[0].MessagePosted? then [a[0].m] else [], PostsIn(a[1..]), PostsIn(b));
    }
  }

  lemma {:induction false} MentionsConcat(a: seq<InboundEvent>, b: seq<InboundEvent>)
    ensures MentionsIn(a + b) == MentionsIn(a) + MentionsIn(b)
  {
    if a == [] {
      assert a + b == b;
    } else {
      assert (a + b)[1..] == a[1..] + b;
      MentionsConcat(a[1..], b);
      ConcatAssociates(if a[0].MentionReceived? then [a[0].m] else [], MentionsIn(a[1..]), MentionsIn(b));
    }
  }

  lemma {:induction false} ReactionsConcat(a: seq<InboundEvent>, b: seq<InboundEvent>)
    ensures ReactionsIn(a + b) == ReactionsIn(a) + ReactionsIn(b)
  {
    if a == [] {
      assert a + b == b;
    } else {
      assert (a + b)[1..] == a[1..] + b;
      ReactionsConcat(a[1..], b);
      ConcatAssociates(if a[0].ReactionSeen? then [Reaction(a[0].target, a[0].actor)] else [], ReactionsIn(a[1..]), ReactionsIn(b));
    }
  }

  lemma OneIn(e: InboundEvent)
    ensures PostsIn([e]) == if e.MessagePosted? then [e.m] else []
    ensures MentionsIn([e]) == if e.MentionReceived? then [e.m] else []
    ensures ReactionsIn([e]) == if e.ReactionSeen? then [Reaction(e.target, e.actor)] else []
  {
    assert [e][1..] == [];
  }
}
