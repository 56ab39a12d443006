/** Every action of the realm and of the producer keeps the delivery invariant. */
module DeliverySteps {
  import opened Core
  import opened Realm
  import opened Producer
  import opened DeliveryInvariant

  // ---- the realm's own steps ----

  lemma InboxOfAppended(s: System, n: System, m: Message)
    requires n.seat == s.seat && n.realm.history == s.realm.history + [m]
    ensures Inbox(n) == Inbox(s) + if s.seat in m.receivedBy then [m] else []
  {
    FilterConcat(ToSeat(s.seat), s.realm.history, [m]);
  }

  lemma LoggedKeeps(s: System, audience: set<UserId>, kind: EventType, body: EventBody, id: QueueId)
    requires RealmOk(s) && id in s.log
    ensures var log := Logged(s, audience, kind, body); id in log && IsPrefix(s.log[id], log[id]) && Numbered(log[id])
  {
  }

  /** A delivery to the seat's message queues, with the inbox gaining the same messages. */
  lemma DeliveredGrows(s: System, n: System, audience: set<UserId>, kind: EventType, body: EventBody, gained: seq<Message>)
    requires RealmOk(s) && n.seat == s.seat && HistoryOk(n.realm)
    requires n.realm.serial >= s.realm.serial && IsPrefix(s.realm.history, n.realm.history)
    requires n.realm.queues == Deliver(s.realm, audience, kind, body).queues
    requires n.log == Logged(s, audience, kind, body)
    requires Inbox(n) == Inbox(s) + gained
    requires gained == if body.MessageEvent? && s.seat in audience then [body.m] else []
    requires body.MessageEvent? <==> kind.MessageType?
    ensures Grown(s, n) && RealmOk(n)
  {
    assert Inbox(n)[|Inbox(s)|..] == gained;
    assert n.log.Keys == s.log.Keys && n.realm.queues.Keys == s.realm.queues.Keys;
    forall id | id in s.log ensures IsPrefix(s.log[id], n.log[id]) && Numbered(n.log[id]) {
      LoggedKeeps(s, audience, kind, body, id);
    }
    forall id | id in s.realm.queues
      ensures QueueOk(n.realm.queues[id], n.log[id]) && CarriesInbox(n, id) && SameQueue(s, n, id)
    {
      DeliveredToQueue(s, n, audience, kind, body, gained, id);
    }
  }

  lemma DeliveredToQueue(s: System, n: System, audience: set<UserId>, kind: EventType, body: EventBody,
                         gained: seq<Message>, id: QueueId)
    requires RealmOk(s) && n.seat == s.seat && id in s.realm.queues
    requires n.realm.queues == Deliver(s.realm, audience, kind, body).queues
    requires n.log == Logged(s, audience, kind, body)
    requires Inbox(n) == Inbox(s) + gained && Inbox(n)[|Inbox(s)|..] == gained
    requires gained == if body.MessageEvent? && s.seat in audience then [body.m] else []
    requires body.MessageEvent? <==> kind.MessageType?
    ensures IsPrefix(s.log[id], n.log[id]) && SameQueue(s, n, id)
    ensures QueueOk(n.realm.queues[id], n.log[id]) && CarriesInbox(n, id)
  {
    var q, log := s.realm.queues[id], s.log[id];
    if Receives(q, audience, kind) {
      QueueGets(q, log, body);
      CarriesGained(s, n, id, if body.MessageEvent? then [body.m] else []);
    } else {
      assert n.log[id] == log && n.log[id][|log|..] == [];
      assert q.owner == s.seat && Wants(q, MessageType) ==> gained == [];
    }
  }

  /** A queue and its log after one more event. */
  lemma QueueGets(q: EventQueue, log: seq<QueuedEvent>, body: EventBody)
    requires QueueOk(q, log)
    ensures var e := QueuedEvent(q.lastIssued + 1, body);
      && QueueOk(Enqueue(q, body), log + [e]) && IsPrefix(log, log + [e]) && (log + [e])[|log|..] == [e]
      && MessagesOf([e]) == (if body.MessageEvent? then [body.m] else [])
      && MessagesOf(log + [e]) == MessagesOf(log) + MessagesOf([e])
  {
    var e := QueuedEvent(q.lastIssued + 1, body);
    SuffixGrows(q.pending, log, e);
    MessagesConcat(log, [e]);
    OneEvent(e);
  }

  lemma SuffixGrows<T>(a: seq<T>, s: seq<T>, x: T)
    requires IsSuffix(a, s)
    ensures IsSuffix(a + [x], s + [x]) && IsPrefix(s, s + [x]) && (s + [x])[|s|..] == [x]
  {
  }

  lemma OneEvent(e: QueuedEvent)
    ensures MessagesOf([e]) == if e.body.MessageEvent? then [e.body.m] else []
  {
    assert [e][1..] == [];
  }

  /** A queue sent what the inbox gained still carries the inbox's end. */
  lemma CarriesGained(s: System, n: System, id: QueueId, gained: seq<Message>)
    requires id in s.realm.queues && id in s.log && id in n.realm.queues && id in n.log && CarriesInbox(s, id)
    requires n.seat == s.seat && n.realm.queues[id].owner == s.realm.queues[id].owner
    requires n.realm.queues[id].eventTypes == s.realm.queues[id].eventTypes
    requires MessagesOf(n.log[id]) == MessagesOf(s.log[id]) + gained
    requires s.realm.queues[id].owner == s.seat && Wants(s.realm.queues[id], MessageType) ==> Inbox(n) == Inbox(s) + gained
    ensures CarriesInbox(n, id)
  {
  }

  lemma StoredHistoryOk(s: System, draft: Message)
    requires HistoryOk(s.realm) && Enabled(s, Post(draft))
    ensures HistoryOk(Next(s, Post(draft)).realm)
  {
    var h := s.realm.history;
    if h != [] {
      assert forall i :: 0 <= i < |h| ==> h[i].timestamp <= h[|h| - 1].timestamp <= draft.timestamp;
    }
  }

  /** What a post adds to the seat's inbox. */
  function PostGain(s: System, draft: Message): (gained: seq<Message>)
    ensures forall j :: 0 <= j < |gained| ==> s.realm.serial < gained[j].id
  {
    if s.seat in draft.receivedBy then [draft.(id := s.realm.serial + 1)] else []
  }

  lemma PostFields(s: System, draft: Message)
    requires Enabled(s, Post(draft))
    ensures var n, m := Next(s, Post(draft)), draft.(id := s.realm.serial + 1);
      && n.seat == s.seat && n.realm.serial == s.realm.serial + 1 && n.realm.history == s.realm.history + [m]
      && n.realm.queues == Deliver(s.realm, m.receivedBy, MessageType, MessageEvent(m)).queues
      && n.log == Logged(s, m.receivedBy, MessageType, MessageEvent(m))
  {
  }

  lemma PostGrows(s: System, draft: Message)
    requires RealmOk(s) && Enabled(s, Post(draft))
    ensures var n := Next(s, Post(draft)); Grown(s, n) && RealmOk(n) && Inbox(n) == Inbox(s) + PostGain(s, draft)
  {
    PostFields(s, draft);
    StoredHistoryOk(s, draft);
    StoredGrows(s, Next(s, Post(draft)), draft.(id := s.realm.serial + 1), PostGain(s, draft));
  }

  lemma StoredGrows(s: System, n: System, m: Message, gained: seq<Message>)
    requires RealmOk(s) && n.seat == s.seat && HistoryOk(n.realm)
    requires n.realm.serial >= s.realm.serial && n.realm.history == s.realm.history + [m]
    requires n.realm.queues == Deliver(s.realm, m.receivedBy, MessageType, MessageEvent(m)).queues
    requires n.log == Logged(s, m.receivedBy, MessageType, MessageEvent(m))
    requires gained == if s.seat in m.receivedBy then [m] else []
    ensures Grown(s, n) && RealmOk(n) && Inbox(n) == Inbox(s) + gained
  {
    InboxOfAppended(s, n, m);
    DeliveredGrows(s, n, m.receivedBy, MessageType, MessageEvent(m), gained);
  }

  lemma PostKeeps(s: System, draft: Message)
    requires Inv(s) && Enabled(s, Post(draft))
    ensures Inv(Next(s, Post(draft)))
  {
    PostGrows(s, draft);
    GrowthKeeps(s, Next(s, Post(draft)));
  }

  lemma BroadcastKeeps(s: System, audience: set<UserId>, kind: EventType, body: EventBody)
    requires Inv(s) && Enabled(s, Broadcast(audience, kind, body))
    ensures Inv(Next(s, Broadcast(audience, kind, body)))
  {
    var n := Next(s, Broadcast(audience, kind, body));
    DeliveredGrows(s, n, audience, kind, body, []);
    GrowthKeeps(s, n);
  }

  lemma RegisterGrows(s: System, owner: UserId, eventTypes: Option<set<EventType>>)
    requires RealmOk(s)
    ensures var n := RegisterQueue(s, owner, eventTypes);
      Grown(s, n) && RealmOk(n) && n.realm.serial !in s.log
  {
    var n := RegisterQueue(s, owner, eventTypes);
    QueueAdded(s, n, EventQueue(owner, eventTypes, -1, []));
    AddedGrows(s, n, EventQueue(owner, eventTypes, -1, []));
  }

  /** `n` is `s` with one new, empty queue. */
  predicate Adds(s: System, n: System, q: EventQueue) {
    && q.lastIssued == -1 && q.pending == []
    && n.seat == s.seat && n.realm.history == s.realm.history && n.realm.serial == s.realm.serial + 1
    && n.realm.queues == s.realm.queues[n.realm.serial := q] && n.log == s.log[n.realm.serial := []]
  }

  lemma QueueAdded(s: System, n: System, q: EventQueue)
    requires RealmOk(s) && Adds(s, n, q)
    ensures RealmOk(n)
  {
    forall id | id in n.realm.queues ensures id in n.log && QueueOk(n.realm.queues[id], n.log[id]) && CarriesInbox(n, id) {
      if id != n.realm.serial { assert id in s.realm.queues && CarriesInbox(s, id); }
    }
  }

  lemma AddedGrows(s: System, n: System, q: EventQueue)
    requires RealmOk(s) && Adds(s, n, q)
    ensures Grown(s, n) && n.realm.serial !in s.log
  {
    assert Inbox(n) == Inbox(s) && Inbox(n)[|Inbox(s)|..] == [];
    forall id | id in s.log ensures id in n.log && n.log[id] == s.log[id] && n.log[id][|s.log[id]|..] == [] {}
    forall id | id in s.log && id in n.realm.queues ensures id in s.realm.queues && SameQueue(s, n, id) {
      assert n.realm.queues[id] == s.realm.queues[id];
    }
  }

  /** The cursor `/register` hands back for a queue of the seat's. */
  lemma FreshCursor(s: System)
    requires RealmOk(s)
    ensures var n := RegisterQueue(s, s.seat, OWN_EVENT_TYPES);
      CursorOk(n, Cursor(n.realm.serial, -1))
  {
    RegisterGrows(s, s.seat, OWN_EVENT_TYPES);
  }

  lemma RegisterOtherKeeps(s: System, owner: UserId, eventTypes: Option<set<EventType>>)
    requires Inv(s)
    ensures Inv(Next(s, RegisterOther(owner, eventTypes)))
  {
    RegisterGrows(s, owner, eventTypes);
    GrowthKeeps(s, Next(s, RegisterOther(owner, eventTypes)));
  }

  lemma SubscribeKeeps(s: System)
    requires Inv(s) && Enabled(s, Subscribe)
    ensures Inv(Next(s, Subscribe))
  {
    var n, g := Next(s, Subscribe), RegisterQueue(s, s.seat, OWN_EVENT_TYPES);
    RegisterGrows(s, s.seat, OWN_EVENT_TYPES);
    FreshCursor(s);
    SameRealm(g, n);
    assert Grown(s, n) by { GrownToSame(s, g, n); }
    GrowthKeeps(s, n);
  }

  predicate RealmShared(a: System, b: System) {
    a.seat == b.seat && a.realm == b.realm && a.log == b.log
  }

  lemma SameRealm(a: System, b: System)
    requires RealmShared(a, b) && RealmOk(a)
    ensures Inbox(a) == Inbox(b) && RealmOk(b)
    ensures forall c :: CursorOk(a, c) ==> CursorOk(b, c)
  {
    forall id | id in b.realm.queues ensures CarriesInbox(b, id) { assert CarriesInbox(a, id); }
  }

  lemma GrownToSame(s: System, g: System, n: System)
    requires Grown(s, g) && RealmShared(g, n)
    ensures Grown(s, n)
  {
    assert Inbox(g) == Inbox(n);
    forall id | id in s.log && id in n.realm.queues ensures id in s.realm.queues && SameQueue(s, n, id) {
      assert SameQueue(s, g, id);
    }
  }

  lemma DropKeeps(s: System, id: QueueId)
    requires Inv(s) && Enabled(s, Drop(id))
    ensures Inv(Next(s, Drop(id)))
  {
    var n := Next(s, Drop(id));
    assert Inbox(n) == Inbox(s) && Inbox(n)[|Inbox(s)|..] == [];
    forall k | k in n.realm.queues ensures CarriesInbox(n, k) { assert CarriesInbox(s, k); }
    forall k | k in s.log && k in n.realm.queues ensures SameQueue(s, n, k) {
      assert n.log[k][|s.log[k]|..] == [];
    }
    GrowthKeeps(s, n);
  }

  // ---- the producer's steps ----

  /** Only the step in progress moved. */
  lemma PhaseMoved(s: System, n: System)
    requires Inv(s) && n == s.(phase := n.phase) && PhaseOk(n)
    ensures Inv(n)
  {
    SameRealm(s, n);
  }

  lemma BeginKeeps(s: System)
    requires Inv(s) && Enabled(s, Begin)
    ensures Inv(Next(s, Begin))
  {
    PhaseMoved(s, Next(s, Begin));
  }

  lemma FailKeeps(s: System)
    requires Inv(s) && Enabled(s, Fail)
    ensures Inv(Next(s, Fail))
  {
    PhaseMoved(s, Next(s, Fail));
  }

  lemma LazyRegisterKeeps(s: System)
    requires Inv(s) && Enabled(s, LazyRegister)
    ensures Inv(Next(s, LazyRegister))
  {
    var n, g := Next(s, LazyRegister), RegisterQueue(s, s.seat, OWN_EVENT_TYPES);
    RegisterGrows(s, s.seat, OWN_EVENT_TYPES);
    FreshCursor(s);
    SameRealm(g, n);
    GrownToSame(s, g, n);
    GrowthKeeps(s, n);
  }

  // ---- polling ----

  lemma {:induction false} AfterCut(events: seq<QueuedEvent>, k: int, last: int)
    requires forall i :: 0 <= i < |events| ==> events[i].id == k + i
    requires k <= last + 1 <= k + |events|
    ensures Filter(After(last), events) == events[last + 1 - k..]
  {
    var cut := last + 1 - k;
    FilterSplit(After(last), events, cut);
    FilterNone(After(last), events[..cut]);
    FilterAll(After(last), events[cut..]);
  }

  lemma DropDrop(log: seq<QueuedEvent>, a: nat, b: nat)
    requires a + b <= |log|
    ensures log[a..][b..] == log[a + b..]
  {
  }

  /** Pruning an unpruned end of a log up to a cursor leaves what follows the cursor. */
  lemma PrunedEnd(log: seq<QueuedEvent>, pending: seq<QueuedEvent>, last: int)
    requires Numbered(log) && IsSuffix(pending, log) && |log| - |pending| <= last + 1 <= |log|
    ensures Filter(After(last), pending) == log[last + 1..]
  {
    var k := |log| - |pending|;
    AfterCut(pending, k, last);
    DropDrop(log, k, last + 1 - k);
  }

  /** A live queue answers a sound cursor with everything it has not read, or with a
      heartbeat when there is nothing. */
  lemma AnswerIsUnread(s: System, c: Cursor)
    requires RealmOk(s) && CursorOk(s, c) && c.queueId in s.realm.queues
    ensures var q, log := s.realm.queues[c.queueId], s.log[c.queueId];
      && Filter(After(c.lastEventId), q.pending) == Unread(s, c)
      && (Unread(s, c) != [] ==> Polled(q, c.lastEventId) == q.(pending := Unread(s, c)))
      && (Unread(s, c) == [] ==>
            c.lastEventId + 1 == |log|
            && Polled(q, c.lastEventId) == q.(pending := [QueuedEvent(|log|, Heartbeat)], lastIssued := |log|))
  {
    PrunedEnd(s.log[c.queueId], s.realm.queues[c.queueId].pending, c.lastEventId);
  }

  predicate OtherQueuesKept(s: System, n: System, id: QueueId) {
    && n.seat == s.seat && n.realm.history == s.realm.history && n.realm.serial == s.realm.serial
    && n.realm.queues.Keys == s.realm.queues.Keys && n.log.Keys == s.log.Keys
    && (forall k :: k in s.log && k != id ==> n.log[k] == s.log[k])
    && (forall k :: k in s.realm.queues && k != id ==> n.realm.queues[k] == s.realm.queues[k])
  }

  lemma OneQueueChanged(s: System, n: System, id: QueueId, q: EventQueue, log: seq<QueuedEvent>)
    requires n.seat == s.seat && id in s.realm.queues && id in s.log
    requires n.realm == s.realm.(queues := s.realm.queues[id := q]) && n.log == s.log[id := log]
    ensures OtherQueuesKept(s, n, id) && n.realm.queues[id] == q && n.log[id] == log
  {
  }

  /** An answered poll of `c`: only the polled queue and its log change, and the queue
      now holds exactly what `c` has not read. */
  predicate PollsTo(s: System, n: System, c: Cursor)
    requires CursorOk(s, c) && c.queueId in s.realm.queues
  {
    var id := c.queueId;
    && OtherQueuesKept(s, n, id)
    && n.realm.queues[id].owner == s.realm.queues[id].owner && n.realm.queues[id].eventTypes == s.realm.queues[id].eventTypes
    && QueueOk(n.realm.queues[id], n.log[id]) && Numbered(n.log[id]) && IsPrefix(s.log[id], n.log[id])
    && |n.log[id]| - |n.realm.queues[id].pending| == c.lastEventId + 1
    && n.log[id][c.lastEventId + 1..] == n.realm.queues[id].pending != []
    && MessagesOf(n.log[id][|s.log[id]|..]) == []
  }

  lemma PollAnswers(s: System, c: Cursor)
    requires RealmOk(s) && s.phase.Ready? && s.phase.cursor == c && CursorOk(s, c) && OwnsQueue(s.realm, s.seat, c.queueId)
    ensures PollsTo(s, PollAnswered(s), c)
  {
    AnswerIsUnread(s, c);
    var n, log := PollAnswered(s), s.log[c.queueId];
    if Unread(s, c) == [] {
      PollFields(s, c, [QueuedEvent(|log|, Heartbeat)]);
      BeatsTo(s, n, c);
    } else {
      PollFields(s, c, []);
      assert log + [] == log;
      PrunesTo(s, n, c);
    }
  }

  /** What an answered poll changes, `gained` being what it added to the log. */
  lemma PollFields(s: System, c: Cursor, gained: seq<QueuedEvent>)
    requires s.phase.Ready? && s.phase.cursor == c && CursorOk(s, c) && OwnsQueue(s.realm, s.seat, c.queueId)
    requires var q := s.realm.queues[c.queueId];
      gained == if Filter(After(c.lastEventId), q.pending) == [] then Polled(q, c.lastEventId).pending else []
    ensures var n, q := PollAnswered(s), s.realm.queues[c.queueId];
      && n.seat == s.seat && n.realm == s.realm.(queues := s.realm.queues[c.queueId := Polled(q, c.lastEventId)])
      && n.log == s.log[c.queueId := s.log[c.queueId] + gained]
  {
    assert s.log[c.queueId] + [] == s.log[c.queueId];
    assert s.log == s.log[c.queueId := s.log[c.queueId]];
  }

  /** An answer with nothing unread: a heartbeat. */
  lemma BeatsTo(s: System, n: System, c: Cursor)
    requires CursorOk(s, c) && c.queueId in s.realm.queues && Numbered(s.log[c.queueId]) && n.seat == s.seat
    requires var q, log := s.realm.queues[c.queueId], s.log[c.queueId]; var beat := [QueuedEvent(|log|, Heartbeat)];
      && c.lastEventId + 1 == |log| && n.log == s.log[c.queueId := log + beat]
      && n.realm == s.realm.(queues := s.realm.queues[c.queueId := q.(pending := beat, lastIssued := |log|)])
    ensures PollsTo(s, n, c)
  {
    var q, log := s.realm.queues[c.queueId], s.log[c.queueId];
    var beat := QueuedEvent(|log|, Heartbeat);
    OneQueueChanged(s, n, c.queueId, q.(pending := [beat], lastIssued := |log|), log + [beat]);
    BeatLogged(q, log);
  }

  lemma BeatLogged(q: EventQueue, log: seq<QueuedEvent>)
    requires Numbered(log)
    ensures var beat := QueuedEvent(|log|, Heartbeat);
      && QueueOk(q.(pending := [beat], lastIssued := |log|), log + [beat]) && Numbered(log + [beat])
      && IsPrefix(log, log + [beat]) && (log + [beat])[|log|..] == [beat] && MessagesOf((log + [beat])[|log|..]) == []
  {
    var beat := QueuedEvent(|log|, Heartbeat);
    SuffixGrows([], log, beat);
    assert [] + [beat] == [beat];
    OneEvent(beat);
  }

  /** An answer with what was unread. */
  lemma PrunesTo(s: System, n: System, c: Cursor)
    requires RealmOk(s) && CursorOk(s, c) && c.queueId in s.realm.queues && n.seat == s.seat && Unread(s, c) != []
    requires n.realm == s.realm.(queues := s.realm.queues[c.queueId := s.realm.queues[c.queueId].(pending := Unread(s, c))])
    requires n.log == s.log
    ensures PollsTo(s, n, c)
  {
    assert n.log[c.queueId][|s.log[c.queueId]|..] == [];
  }

  /** A longer log with no further messages reads the same from any point. */
  lemma LogTail(log: seq<QueuedEvent>, longer: seq<QueuedEvent>, k: nat)
    requires IsPrefix(log, longer) && k <= |log| && MessagesOf(longer[|log|..]) == []
    ensures MessagesOf(longer[k..]) == MessagesOf(log[k..]) && longer[..k] == log[..k]
  {
    assert longer[k..] == log[k..] + longer[|log|..];
    MessagesConcat(log[k..], longer[|log|..]);
  }

  /** A cursor the poll did not move is as sound after it as before. */
  lemma PolledCursor(s: System, n: System, c: Cursor, d: Cursor)
    requires CursorOk(s, c) && c.queueId in s.realm.queues && PollsTo(s, n, c)
    requires CursorOk(s, d) && (d.queueId == c.queueId ==> d == c)
    ensures CursorOk(n, d) && MessagesOf(Unread(n, d)) == MessagesOf(Unread(s, d))
    ensures n.log[d.queueId][..d.lastEventId + 1] == s.log[d.queueId][..d.lastEventId + 1]
  {
    PolledCursorOk(s, n, c, d);
    if d.queueId == c.queueId { LogTail(s.log[c.queueId], n.log[c.queueId], c.lastEventId + 1); }
  }

  lemma PolledCursorOk(s: System, n: System, c: Cursor, d: Cursor)
    requires CursorOk(s, c) && c.queueId in s.realm.queues && PollsTo(s, n, c)
    requires CursorOk(s, d) && (d.queueId == c.queueId ==> d == c)
    ensures CursorOk(n, d) && IsPrefix(s.log[d.queueId], n.log[d.queueId])
    ensures d.queueId != c.queueId ==> n.log[d.queueId] == s.log[d.queueId]
  {
  }

  lemma PolledRealmOk(s: System, n: System, c: Cursor)
    requires RealmOk(s) && CursorOk(s, c) && c.queueId in s.realm.queues && PollsTo(s, n, c)
    ensures RealmOk(n) && Inbox(n) == Inbox(s)
  {
    forall id | id in n.realm.queues ensures QueueOk(n.realm.queues[id], n.log[id]) && CarriesInbox(n, id) {
      assert CarriesInbox(s, id);
      if id == c.queueId {
        LogTail(s.log[id], n.log[id], 0);
        assert s.log[id][0..] == s.log[id] && n.log[id][0..] == n.log[id];
      }
    }
  }

  /** The unread messages of a live queue are the newest part of the inbox. */
  lemma UnreadIsNewest(s: System, c: Cursor)
    requires RealmOk(s) && CursorOk(s, c) && c.queueId in s.realm.queues
    ensures IsSuffix(MessagesOf(Unread(s, c)), Inbox(s))
  {
    assert CarriesInbox(s, c.queueId);
    MessagesSplit(s.log[c.queueId], c.lastEventId + 1);
  }

  lemma PolledBatchOk(s: System, n: System, c: Cursor)
    requires RealmOk(s) && ProducerOk(s) && CoverOk(s)
    requires CursorOk(s, c) && c.queueId in s.realm.queues && PollsTo(s, n, c) && SameSeat(s, n)
    ensures CursorOk(n, c) && BatchOk(n, c, Unread(n, c), |Inbox(s)|)
  {
    PolledCursor(s, n, c, c);
    UnreadIsNewest(s, c);
    assert Inbox(n) == Inbox(s);
    assert Inbox(n)[..|Inbox(s)|] == Inbox(s) && Inbox(n)[|Inbox(s)|..] == [];
    assert Unread(n, c)[|Unread(n, c)|..] == [];
  }

  lemma PolledProducerOk(s: System, n: System, c: Cursor)
    requires RealmOk(s) && ProducerOk(s) && CursorOk(s, c) && c.queueId in s.realm.queues && PollsTo(s, n, c) && SameSeat(s, n)
    requires s.producer.queue.Some? && s.producer.queue.value.queueId == c.queueId ==> s.producer.queue.value == c
    ensures ProducerOk(n)
  {
    if s.producer.queue.Some? { PolledCursor(s, n, c, s.producer.queue.value); }
  }

  lemma PolledLiveOk(s: System, n: System, c: Cursor)
    requires ProducerOk(s) && LiveOk(s)
    requires CursorOk(s, c) && c.queueId in s.realm.queues && PollsTo(s, n, c) && SameSeat(s, n)
    requires s.producer.queue.Some? && s.producer.queue.value.queueId == c.queueId ==> s.producer.queue.value == c
    ensures LiveOk(n)
  {
    if s.producer.queue.Some? {
      PolledCursor(s, n, c, s.producer.queue.value);
      LiveKept(s, n, s.producer.queue.value);
    }
  }

  lemma PolledPollingOk(s: System, n: System, adopted: Option<QueueId>, c: Cursor)
    requires RealmOk(s) && RegistrationOk(s) && PollingOk(s, adopted, c) && c.queueId in s.realm.queues
    requires PollsTo(s, n, c) && SameSeat(s, n) && n.registration == s.registration
    ensures PollingOk(n, adopted, c) && RegistrationOk(n)
  {
    PolledCursor(s, n, c, c);
    if Adopts(s) { PolledCursor(s, n, c, s.registration.value); }
  }

  lemma PollKeeps(s: System)
    requires Inv(s) && Enabled(s, Poll)
    ensures Inv(Next(s, Poll))
  {
    var n := Next(s, Poll);
    var Ready(adopted, c) := s.phase;
    if OwnsQueue(s.realm, s.seat, c.queueId) {
      PollAnswers(s, c);
      AnsweredKeeps(s, n, adopted, c);
    } else {
      SameRealm(s, n);
    }
  }

  lemma AnsweredKeeps(s: System, n: System, adopted: Option<QueueId>, c: Cursor)
    requires Inv(s) && s.phase == Ready(adopted, c) && c.queueId in s.realm.queues
    requires PollsTo(s, n, c) && SameSeat(s, n) && n.registration == s.registration
    requires n.phase == Mapping(adopted, c, n.realm.queues[c.queueId].pending, |Inbox(s)|)
    ensures Inv(n)
  {
    PolledRealmOk(s, n, c);
    PolledBatchOk(s, n, c);
    PolledProducerOk(s, n, c);
    PolledLiveOk(s, n, c);
    PolledPollingOk(s, n, adopted, c);
  }
}
