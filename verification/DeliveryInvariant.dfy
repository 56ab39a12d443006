/** What every interleaving of the producer with its realm keeps. */
module DeliveryInvariant {
  import opened Core
  import opened Realm
  import opened Producer

  // ---- queued events and their messages ----

  lemma {:induction false} MessagesConcat(a: seq<QueuedEvent>, b: seq<QueuedEvent>)
    ensures MessagesOf(a + b) == MessagesOf(a) + MessagesOf(b)
  {
    if a == [] {
      assert a + b == b;
    } else {
      var head := if a[0].body.MessageEvent? then [a[0].body.m] else [];
      calc {
        MessagesOf(a + b);
      ==  { assert (a + b)[0] == a[0] && (a + b)[1..] == a[1..] + b; }
        head + MessagesOf(a[1..] + b);
      ==  { MessagesConcat(a[1..], b); }
        head + (MessagesOf(a[1..]) + MessagesOf(b));
      ==
        MessagesOf(a) + MessagesOf(b);
      }
    }
  }

  lemma MessagesSplit(log: seq<QueuedEvent>, k: nat)
    requires k <= |log|
    ensures MessagesOf(log) == MessagesOf(log[..k]) + MessagesOf(log[k..])
  {
    assert log == log[..k] + log[k..];
    MessagesConcat(log[..k], log[k..]);
  }

  lemma {:induction false} MapEventsConcat(seat: UserId, a: seq<QueuedEvent>, b: seq<QueuedEvent>)
    ensures MapEvents(seat, a + b) == MapEvents(seat, a) + MapEvents(seat, b)
  {
    if a == [] {
      assert a + b == b;
    } else {
      calc {
        MapEvents(seat, a + b);
      ==  { assert (a + b)[0] == a[0] && (a + b)[1..] == a[1..] + b; }
        MapEvent(seat, a[0]) + MapEvents(seat, a[1..] + b);
      ==  { MapEventsConcat(seat, a[1..], b); }
        MapEvent(seat, a[0]) + (MapEvents(seat, a[1..]) + MapEvents(seat, b));
      ==
        MapEvents(seat, a) + MapEvents(seat, b);
      }
    }
  }

  // ---- the realm ----

  predicate Numbered(log: seq<QueuedEvent>) {
    forall i :: 0 <= i < |log| ==> log[i].id == i
  }

  predicate HistoryOk(r: RealmState) {
    && Ascending(r.history) && Chronological(r.history)
    && forall i :: 0 <= i < |r.history| ==> r.history[i].id <= r.serial
  }

  /** A live queue holds the unpruned end of everything it was ever sent. */
  predicate QueueOk(q: EventQueue, log: seq<QueuedEvent>) {
    q.lastIssued == |log| - 1 && IsSuffix(q.pending, log)
  }

  /** A live message queue of the seat's has been sent the newest part of its inbox. */
  predicate CarriesInbox(s: System, id: QueueId)
    requires id in s.realm.queues && id in s.log
  {
    s.realm.queues[id].owner == s.seat && Wants(s.realm.queues[id], MessageType) ==> IsSuffix(MessagesOf(s.log[id]), Inbox(s))
  }

  predicate RealmOk(s: System) {
    && HistoryOk(s.realm)
    && (forall id :: id in s.log ==> id <= s.realm.serial && Numbered(s.log[id]))
    && (forall id :: id in s.realm.queues ==> id in s.log && QueueOk(s.realm.queues[id], s.log[id]) && CarriesInbox(s, id))
  }

  // ---- cursors ----

  /** A cursor into a queue whose unread events are all still held while it lives. */
  predicate CursorOk(s: System, c: Cursor) {
    && c.queueId in s.log
    && -1 <= c.lastEventId < |s.log[c.queueId]|
    && (c.queueId in s.realm.queues ==>
          var q := s.realm.queues[c.queueId];
          q.owner == s.seat && Wants(q, MessageType) && |s.log[c.queueId]| - |q.pending| <= c.lastEventId + 1)
  }

  function Unread(s: System, c: Cursor): seq<QueuedEvent>
    requires CursorOk(s, c)
  {
    s.log[c.queueId][c.lastEventId + 1..]
  }

  /** While its queue lives, nothing past `mark` in the inbox is missing from it. */
  predicate Unbroken(s: System, c: Cursor, mark: nat)
    requires CursorOk(s, c)
  {
    c.queueId in s.realm.queues ==> |Inbox(s)| - |MessagesOf(Unread(s, c))| <= mark
  }

  predicate RegistrationOk(s: System) {
    Adopts(s) ==>
      && CursorOk(s, s.registration.value)
      && (s.producer.queue.Some? ==> s.producer.queue.value.queueId != s.registration.value.queueId)
  }

  // ---- the step in progress ----

  predicate PollingOk(s: System, adopted: Option<QueueId>, c: Cursor) {
    && CursorOk(s, c)
    && (Adopts(s) && c.queueId == s.registration.value.queueId ==> c == s.registration.value && adopted == Some(c.queueId))
    && (Adopts(s) && c.queueId != s.registration.value.queueId ==> adopted == s.producer.observed)
    && (!Adopts(s) ==> adopted == s.producer.observed)
    && (s.producer.queue.Some? && s.producer.queue.value.queueId == c.queueId ==> c == s.producer.queue.value)
    && (s.producer.queue.Some? && s.producer.queue.value.queueId != c.queueId ==> Adopts(s) && c == s.registration.value)
  }

  predicate BatchOk(s: System, c: Cursor, batch: seq<QueuedEvent>, upTo: nat)
    requires CursorOk(s, c)
  {
    && s.synced <= upTo <= |Inbox(s)|
    && batch != [] && IsPrefix(batch, Unread(s, c))
    && IsSuffix(MessagesOf(batch), Inbox(s)[..upTo])
    && (c.queueId in s.realm.queues ==> MessagesOf(Unread(s, c)[|batch|..]) == Inbox(s)[upTo..])
    && (s.base.Some? && s.producer.queue == Some(c) ==> upTo - |MessagesOf(batch)| <= s.synced)
  }

  predicate ReplacementOk(s: System, c: Cursor) {
    && CursorOk(s, c) && c.lastEventId == -1
    && (Adopts(s) ==> c.queueId != s.registration.value.queueId)
  }

  predicate PhaseOk(s: System) {
    match s.phase
    case Idle => true
    case Unregistered(adopted) => adopted == s.producer.observed && s.producer.queue.None?
    case Ready(adopted, c) => PollingOk(s, adopted, c)
    case Mapping(adopted, c, batch, upTo) => PollingOk(s, adopted, c) && BatchOk(s, c, batch, upTo)
    case Recovering(anchor) => anchor == s.watermark
    case Replaying(c, since) => ReplacementOk(s, c) && s.watermark == Some(since)
    case Backfilling(c, gap, whole, upTo) =>
      && ReplacementOk(s, c) && s.watermark.Some?
      && s.synced <= upTo <= |Inbox(s)| && Unbroken(s, c, upTo)
      && (whole ==> forall i :: s.synced <= i < upTo ==> Inbox(s)[i] in gap)
  }

  // ---- what has been delivered ----

  predicate Emitted(out: seq<InboundEvent>, m: Message) {
    MessagePosted(m, false) in out || MessagePosted(m, true) in out
  }

  predicate CoverOk(s: System) {
    && s.synced <= |Inbox(s)|
    && (s.base.Some? ==>
          && s.base.value <= s.synced && s.watermark.Some? && s.producer.queue.Some?
          && (forall i :: s.base.value <= i < s.synced ==> Emitted(s.out, Inbox(s)[i])))
  }

  predicate ProducerOk(s: System) {
    s.producer.queue.Some? ==>
      && CursorOk(s, s.producer.queue.value)
      && (s.base.Some? ==> Unbroken(s, s.producer.queue.value, s.synced))
  }

  predicate WatermarkOk(s: System) {
    s.watermark.Some? ==>
      && s.realm.history != [] && s.watermark.value <= s.realm.history[|s.realm.history| - 1].timestamp
      && forall i :: s.synced <= i < |Inbox(s)| ==> s.watermark.value <= Inbox(s)[i].timestamp
  }

  /** From `fromOut` on, the output is exactly the mapping of the log's events after
      `fromEvent` and up to `last`. */
  predicate LiveTail(seat: UserId, log: seq<QueuedEvent>, out: seq<InboundEvent>, fromEvent: int, fromOut: nat, last: int) {
    && -1 <= fromEvent <= last < |log| && fromOut <= |out|
    && out[fromOut..] == MapEvents(seat, log[fromEvent + 1..last + 1])
  }

  /** Since the polled queue was taken up, the output is exactly its mapped events. */
  predicate LiveOk(s: System) {
    s.producer.queue.Some? && CursorOk(s, s.producer.queue.value) ==>
      var c := s.producer.queue.value;
      LiveTail(s.seat, s.log[c.queueId], s.out, s.fromEvent, s.fromOut, c.lastEventId)
  }

  predicate Inv(s: System) {
    && RealmOk(s) && RegistrationOk(s) && ProducerOk(s) && PhaseOk(s)
    && CoverOk(s) && WatermarkOk(s) && LiveOk(s)
  }

  // ---- steps that only add to the realm ----

  /** `n` is `s` with more history and longer logs: every queue still alive was sent
      exactly the messages its owner's inbox gained. */
  predicate Grown(s: System, n: System) {
    && n.seat == s.seat && n.realm.serial >= s.realm.serial
    && IsPrefix(s.realm.history, n.realm.history) && IsPrefix(Inbox(s), Inbox(n))
    && (forall id :: id in s.log ==> id in n.log && IsPrefix(s.log[id], n.log[id]))
    && (forall id :: id in n.log && id !in s.log ==> s.realm.serial < id)
    && (forall id :: id in s.log && id in n.realm.queues ==> id in s.realm.queues && SameQueue(s, n, id))
  }

  predicate SameQueue(s: System, n: System, id: QueueId)
    requires id in s.log && id in n.log && id in s.realm.queues && id in n.realm.queues
    requires IsPrefix(s.log[id], n.log[id]) && IsPrefix(Inbox(s), Inbox(n))
  {
    var q, k := s.realm.queues[id], n.realm.queues[id];
    && k.owner == q.owner && k.eventTypes == q.eventTypes
    && |n.log[id]| - |k.pending| == |s.log[id]| - |q.pending|
    && (q.owner == s.seat && Wants(q, MessageType) ==>
          MessagesOf(n.log[id][|s.log[id]|..]) == Inbox(n)[|Inbox(s)|..])
  }

  /** Everything but the realm, its logs, the registration and the phase is as it was. */
  predicate SameSeat(s: System, n: System) {
    && n.producer == s.producer && n.watermark == s.watermark && n.out == s.out
    && n.fromEvent == s.fromEvent && n.fromOut == s.fromOut && n.synced == s.synced && n.base == s.base
  }

  lemma CursorKept(s: System, n: System, c: Cursor)
    requires Grown(s, n) && CursorOk(s, c)
    ensures CursorOk(n, c)
    ensures IsPrefix(Unread(s, c), Unread(n, c))
    ensures c.queueId in n.realm.queues ==>
      MessagesOf(Unread(n, c)) == MessagesOf(Unread(s, c)) + Inbox(n)[|Inbox(s)|..]
    ensures n.log[c.queueId][..c.lastEventId + 1] == s.log[c.queueId][..c.lastEventId + 1]
  {
    var old', new' := s.log[c.queueId], n.log[c.queueId];
    assert old' == new'[..|old'|];
    assert Unread(n, c) == Unread(s, c) + new'[|old'|..];
    MessagesConcat(Unread(s, c), new'[|old'|..]);
  }

  lemma UnbrokenKept(s: System, n: System, c: Cursor, mark: nat)
    requires Grown(s, n) && CursorOk(s, c) && Unbroken(s, c, mark)
    ensures CursorOk(n, c) && Unbroken(n, c, mark)
  {
    CursorKept(s, n, c);
  }

  lemma BatchKept(s: System, n: System, c: Cursor, batch: seq<QueuedEvent>, upTo: nat)
    requires Grown(s, n) && SameSeat(s, n) && CursorOk(s, c) && BatchOk(s, c, batch, upTo)
    ensures CursorOk(n, c) && BatchOk(n, c, batch, upTo)
  {
    CursorKept(s, n, c);
    assert Inbox(n)[..upTo] == Inbox(s)[..upTo];
    if c.queueId in n.realm.queues {
      var gained := n.log[c.queueId][|s.log[c.queueId]|..];
      assert Unread(n, c)[|batch|..] == Unread(s, c)[|batch|..] + gained;
      MessagesConcat(Unread(s, c)[|batch|..], gained);
      assert Inbox(n)[upTo..] == Inbox(s)[upTo..] + Inbox(n)[|Inbox(s)|..];
    }
  }

  lemma PollingKept(s: System, n: System, adopted: Option<QueueId>, c: Cursor)
    requires Grown(s, n) && SameSeat(s, n) && RealmOk(s) && PollingOk(s, adopted, c)
    requires n.registration == s.registration
      || (s.registration.None? && n.registration.Some? && s.realm.serial < n.registration.value.queueId)
    ensures PollingOk(n, adopted, c)
  {
    CursorKept(s, n, c);
  }

  lemma WatermarkKept(s: System, n: System)
    requires Grown(s, n) && SameSeat(s, n) && WatermarkOk(s) && HistoryOk(n.realm)
    ensures WatermarkOk(n)
  {
    if s.watermark.Some? {
      var last := |s.realm.history| - 1;
      assert n.realm.history[last] == s.realm.history[last];
      forall i | s.synced <= i < |Inbox(n)| ensures s.watermark.value <= Inbox(n)[i].timestamp {
        if i < |Inbox(s)| {
          assert Inbox(n)[i] == Inbox(s)[i];
        } else {
          NewInboxIsLater(s, n, i);
        }
      }
    }
  }

  /** What an inbox gains was stored after everything the history already held. */
  lemma NewInboxIsLater(s: System, n: System, i: nat)
    requires n.seat == s.seat && IsPrefix(s.realm.history, n.realm.history) && s.realm.history != []
    requires Chronological(n.realm.history) && |Inbox(s)| <= i < |Inbox(n)|
    ensures s.realm.history[|s.realm.history| - 1].timestamp <= Inbox(n)[i].timestamp
  {
    var k := |s.realm.history|;
    FilterSplit(ToSeat(s.seat), n.realm.history, k);
    assert n.realm.history[..k] == s.realm.history;
    var m := Inbox(n)[i];
    assert m == Filter(ToSeat(s.seat), n.realm.history[k..])[i - |Inbox(s)|];
    FilterMember(ToSeat(s.seat), n.realm.history[k..], m);
    var j :| 0 <= j < |n.realm.history| - k && n.realm.history[k..][j] == m;
    assert n.realm.history[k - 1].timestamp <= n.realm.history[k + j].timestamp;
  }

  lemma PhaseKept(s: System, n: System)
    requires Inv(s) && Grown(s, n) && SameSeat(s, n) && n.phase == s.phase
    requires n.registration == s.registration
      || (s.registration.None? && n.registration.Some? && s.realm.serial < n.registration.value.queueId)
    ensures PhaseOk(n)
  {
    match s.phase
    case Ready(adopted, c) => PollingKept(s, n, adopted, c);
    case Mapping(adopted, c, batch, upTo) => PollingKept(s, n, adopted, c); BatchKept(s, n, c, batch, upTo);
    case Replaying(c, since) => CursorKept(s, n, c);
    case Backfilling(c, gap, whole, upTo) =>
      UnbrokenKept(s, n, c, upTo);
      assert forall i :: 0 <= i < upTo ==> Inbox(n)[i] == Inbox(s)[i];
    case _ =>
  }

  lemma LiveKept(s: System, n: System, c: Cursor)
    requires SameSeat(s, n) && n.seat == s.seat && s.producer.queue == Some(c) && CursorOk(s, c) && CursorOk(n, c)
    requires n.log[c.queueId][..c.lastEventId + 1] == s.log[c.queueId][..c.lastEventId + 1] && LiveOk(s)
    ensures LiveOk(n)
  {
    SameSlice(s.log[c.queueId], n.log[c.queueId], s.fromEvent + 1, c.lastEventId + 1);
  }

  lemma SameSlice(a: seq<QueuedEvent>, b: seq<QueuedEvent>, k: nat, e: nat)
    requires k <= e <= |a| && e <= |b| && a[..e] == b[..e]
    ensures a[k..e] == b[k..e]
  {
    assert a[k..e] == a[..e][k..] && b[k..e] == b[..e][k..];
  }

  /** Growth of the realm keeps everything the seat relies on. */
  lemma GrowthKeeps(s: System, n: System)
    requires Inv(s) && Grown(s, n) && SameSeat(s, n) && RealmOk(n)
    requires n.registration == s.registration
      || (s.registration.None? && n.registration.Some? && s.realm.serial < n.registration.value.queueId
          && CursorOk(n, n.registration.value))
    requires n.phase == s.phase || PhaseOk(n)
    ensures Inv(n)
  {
    if s.producer.queue.Some? {
      var c := s.producer.queue.value;
      CursorKept(s, n, c);
      if s.base.Some? { UnbrokenKept(s, n, c, s.synced); }
      LiveKept(s, n, c);
    }
    if n.registration == s.registration && Adopts(s) { CursorKept(s, n, s.registration.value); }
    if n.phase == s.phase { PhaseKept(s, n); }
    WatermarkKept(s, n);
    assert forall i :: 0 <= i < |Inbox(s)| ==> Inbox(n)[i] == Inbox(s)[i];
  }
}
