/** What a queue registered during a run holds: exactly the messages its owner was sent
    since. Queue ids and message ids are drawn from the realm's one counter, so an id tells
    which came first. */
module Registration {
  import opened Core
  import opened Realm
  import opened Producer
  import opened DeliveryInvariant
  import opened DeliverySteps
  import opened DeliveryFinish

  function Newer(id: nat): Message -> bool { (m: Message) => id < m.id }

  /** A live message queue of the seat's registered after `boot` was sent the newer part of
      the inbox, all of it. */
  predicate HoldsNewer(s: System, id: QueueId)
    requires id in s.realm.queues && id in s.log
  {
    s.realm.queues[id].owner == s.seat && Wants(s.realm.queues[id], MessageType) ==>
      MessagesOf(s.log[id]) == Filter(Newer(id), Inbox(s))
  }

  /** The first batch of an adopted registration holds what was sent up to its poll. */
  predicate FirstBatchOk(s: System) {
    s.phase.Mapping? && Adopts(s) && s.phase.cursor == s.registration.value && s.phase.upTo <= |Inbox(s)| ==>
      && MessagesOf(s.phase.batch) == Filter(Newer(s.phase.cursor.queueId), Inbox(s)[..s.phase.upTo])
      && forall i :: s.phase.upTo <= i < |Inbox(s)| ==> s.phase.cursor.queueId < Inbox(s)[i].id
  }

  predicate Registered(s: System, boot: nat) {
    && boot <= s.realm.serial
    && (forall id :: id in s.realm.queues && boot < id ==> id in s.log && HoldsNewer(s, id))
    && (Adopts(s) ==> boot < s.registration.value.queueId && s.registration.value.lastEventId == -1)
    && FirstBatchOk(s)
  }

  // ---- the realm's steps ----

  lemma {:induction false} NoneNewer(id: nat, h: seq<Message>)
    requires forall i :: 0 <= i < |h| ==> h[i].id <= id
    ensures Filter(Newer(id), h) == []
  {
    FilterNone(Newer(id), h);
  }

  lemma InboxBelow(s: System, id: nat)
    requires HistoryOk(s.realm) && s.realm.serial <= id
    ensures forall i :: 0 <= i < |Inbox(s)| ==> Inbox(s)[i].id <= id
  {
    forall i | 0 <= i < |Inbox(s)| ensures Inbox(s)[i].id <= id { InboxNotAfterLast(s, i); }
  }

  /** A queue that was sent exactly what the inbox gained still holds its newer part. */
  lemma GainKeeps(s: System, n: System, id: QueueId, gained: seq<Message>)
    requires id in s.realm.queues && id in s.log && id in n.realm.queues && id in n.log && HoldsNewer(s, id)
    requires n.seat == s.seat && n.realm.queues[id].owner == s.realm.queues[id].owner
    requires n.realm.queues[id].eventTypes == s.realm.queues[id].eventTypes
    requires s.realm.queues[id].owner == s.seat && Wants(s.realm.queues[id], MessageType) ==>
      Inbox(n) == Inbox(s) + gained && MessagesOf(n.log[id]) == MessagesOf(s.log[id]) + gained
    requires forall i :: 0 <= i < |gained| ==> id < gained[i].id
    ensures HoldsNewer(n, id)
  {
    FilterConcat(Newer(id), Inbox(s), gained);
    FilterAll(Newer(id), gained);
  }

  /** Growth of the realm in which the inbox gained only messages stored now. */
  lemma GrowthRegisters(s: System, n: System, boot: nat)
    requires Inv(s) && RealmOk(n) && Grown(s, n) && Registered(s, boot)
    requires forall i :: |Inbox(s)| <= i < |Inbox(n)| ==> s.realm.serial < Inbox(n)[i].id
    requires forall id :: id in n.log && id !in s.log ==> n.log[id] == [] && n.realm.serial <= id
    ensures forall id :: id in n.realm.queues && boot < id ==> id in n.log && HoldsNewer(n, id)
  {
    forall id | id in n.realm.queues && boot < id ensures id in n.log && HoldsNewer(n, id) {
      assert id in n.log && CarriesInbox(n, id);
      if id in s.log {
        GrownQueue(s, n, id);
      } else {
        InboxBelow(n, id);
        NoneNewer(id, Inbox(n));
      }
    }
  }

  lemma GrownQueue(s: System, n: System, id: QueueId)
    requires RealmOk(s) && Grown(s, n) && id in s.log && id in n.log && id in n.realm.queues && id in s.realm.queues
    requires HoldsNewer(s, id)
    requires forall i :: |Inbox(s)| <= i < |Inbox(n)| ==> s.realm.serial < Inbox(n)[i].id
    ensures HoldsNewer(n, id)
  {
    var gained, log := Inbox(n)[|Inbox(s)|..], n.log[id];
    assert SameQueue(s, n, id);
    assert log == log[..|s.log[id]|] + log[|s.log[id]|..];
    MessagesConcat(s.log[id], log[|s.log[id]|..]);
    assert Inbox(n) == Inbox(s) + gained;
    forall i | 0 <= i < |gained| ensures id < gained[i].id { assert gained[i] == Inbox(n)[|Inbox(s)| + i]; }
    GainKeeps(s, n, id, gained);
  }

  /** A step in progress is not disturbed by newer messages. */
  lemma GrowthKeepsBatch(s: System, n: System)
    requires Inv(s) && Grown(s, n) && FirstBatchOk(s) && n.phase == s.phase && n.producer == s.producer
    requires n.registration == s.registration
      || (s.registration.None? && n.registration.Some? && s.realm.serial < n.registration.value.queueId)
    requires forall i :: |Inbox(s)| <= i < |Inbox(n)| ==> s.realm.serial < Inbox(n)[i].id
    ensures FirstBatchOk(n)
  {
    if n.phase.Mapping? && Adopts(n) && n.phase.cursor == n.registration.value {
      var upTo := s.phase.upTo;
      assert s.phase.cursor.queueId in s.log;
      assert n.registration == s.registration;
      assert Inbox(n)[..upTo] == Inbox(s)[..upTo];
      forall i | upTo <= i < |Inbox(n)| ensures n.phase.cursor.queueId < Inbox(n)[i].id {
        if i < |Inbox(s)| { assert Inbox(n)[i] == Inbox(s)[i]; }
      }
    }
  }

  /** Growth of the realm alone. */
  lemma GrownRegistered(s: System, n: System, boot: nat)
    requires Inv(s) && RealmOk(n) && Grown(s, n) && Registered(s, boot) && n.log.Keys == s.log.Keys
    requires n.phase == s.phase && n.producer == s.producer && n.registration == s.registration
    requires forall i :: |Inbox(s)| <= i < |Inbox(n)| ==> s.realm.serial < Inbox(n)[i].id
    ensures Registered(n, boot)
  {
    assert forall id :: id in n.log ==> id in s.log;
    GrowthRegisters(s, n, boot);
    GrowthKeepsBatch(s, n);
  }

  lemma AllLater(a: seq<Message>, b: seq<Message>, gained: seq<Message>, k: nat)
    requires b == a + gained && forall j :: 0 <= j < |gained| ==> k < gained[j].id
    ensures forall i :: |a| <= i < |b| ==> k < b[i].id
  {
  }

  lemma PostShape(s: System, draft: Message)
    requires Enabled(s, Post(draft))
    ensures var n := Next(s, Post(draft));
      && n.log.Keys == s.log.Keys && n.seat == s.seat
      && n.phase == s.phase && n.producer == s.producer && n.registration == s.registration
  {
  }

  lemma PostRegisters(s: System, draft: Message, boot: nat)
    requires Inv(s) && Enabled(s, Post(draft)) && Registered(s, boot)
    ensures Registered(Next(s, Post(draft)), boot)
  {
    var n, gained := Next(s, Post(draft)), PostGain(s, draft);
    PostGrows(s, draft);
    PostShape(s, draft);
    StoredRegisters(s, n, gained, boot);
  }

  lemma StoredRegisters(s: System, n: System, gained: seq<Message>, boot: nat)
    requires Inv(s) && RealmOk(n) && Grown(s, n) && Registered(s, boot) && n.log.Keys == s.log.Keys
    requires n.phase == s.phase && n.producer == s.producer && n.registration == s.registration
    requires Inbox(n) == Inbox(s) + gained && forall j :: 0 <= j < |gained| ==> s.realm.serial < gained[j].id
    ensures Registered(n, boot)
  {
    AllLater(Inbox(s), Inbox(n), gained, s.realm.serial);
    GrownRegistered(s, n, boot);
  }

  lemma BroadcastRegisters(s: System, audience: set<UserId>, kind: EventType, body: EventBody, boot: nat)
    requires Inv(s) && Enabled(s, Broadcast(audience, kind, body)) && Registered(s, boot)
    ensures Registered(Next(s, Broadcast(audience, kind, body)), boot)
  {
    var n := Next(s, Broadcast(audience, kind, body));
    DeliveredGrows(s, n, audience, kind, body, []);
    GrownRegistered(s, n, boot);
  }

  lemma QueueRegisters(s: System, owner: UserId, eventTypes: Option<set<EventType>>, boot: nat)
    requires Inv(s) && Registered(s, boot)
    ensures var g := RegisterQueue(s, owner, eventTypes);
      forall id :: id in g.realm.queues && boot < id ==> id in g.log && HoldsNewer(g, id)
  {
    var g := RegisterQueue(s, owner, eventTypes);
    RegisterGrows(s, owner, eventTypes);
    assert Inbox(g) == Inbox(s);
    GrowthRegisters(s, g, boot);
  }

  /** A step that takes no batch leaves what the queues hold, and adopts nothing new. */
  lemma SharedRegisters(g: System, n: System, boot: nat)
    requires forall id :: id in g.realm.queues && boot < id ==> id in g.log && HoldsNewer(g, id)
    requires RealmShared(g, n) && boot <= n.realm.serial && !n.phase.Mapping?
    requires Adopts(n) ==> boot < n.registration.value.queueId && n.registration.value.lastEventId == -1
    ensures Registered(n, boot)
  {
    assert Inbox(n) == Inbox(g);
    forall id | id in n.realm.queues && boot < id ensures id in n.log && HoldsNewer(n, id) { assert HoldsNewer(g, id); }
  }

  /** A queue is registered while a step may be in progress. */
  lemma RegisteredBeside(s: System, g: System, n: System, boot: nat)
    requires Inv(s) && Registered(s, boot) && Grown(s, g) && RealmShared(g, n) && Inbox(g) == Inbox(s)
    requires forall id :: id in g.realm.queues && boot < id ==> id in g.log && HoldsNewer(g, id)
    requires n.phase == s.phase && n.producer == s.producer
    requires n.registration == s.registration
      || (s.registration.None? && n.registration.Some? && s.realm.serial < n.registration.value.queueId
          && n.registration.value.lastEventId == -1)
    ensures Registered(n, boot)
  {
    GrownToSame(s, g, n);
    assert Inbox(n) == Inbox(g);
    GrowthKeepsBatch(s, n);
    forall id | id in n.realm.queues && boot < id ensures id in n.log && HoldsNewer(n, id) { assert HoldsNewer(g, id); }
  }

  lemma RegisterOtherRegisters(s: System, owner: UserId, eventTypes: Option<set<EventType>>, boot: nat)
    requires Inv(s) && Registered(s, boot)
    ensures Registered(Next(s, RegisterOther(owner, eventTypes)), boot)
  {
    var g := RegisterQueue(s, owner, eventTypes);
    QueueRegisters(s, owner, eventTypes, boot);
    RegisterGrows(s, owner, eventTypes);
    assert g.realm.history == s.realm.history;
    RegisteredBeside(s, g, Next(s, RegisterOther(owner, eventTypes)), boot);
  }

  lemma SubscribeRegisters(s: System, boot: nat)
    requires Inv(s) && Enabled(s, Subscribe) && Registered(s, boot)
    ensures Registered(Next(s, Subscribe), boot)
  {
    var g := RegisterQueue(s, s.seat, OWN_EVENT_TYPES);
    QueueRegisters(s, s.seat, OWN_EVENT_TYPES, boot);
    RegisterGrows(s, s.seat, OWN_EVENT_TYPES);
    assert g.realm.history == s.realm.history;
    RegisteredBeside(s, g, Next(s, Subscribe), boot);
  }

  lemma ReplacementRegisters(s: System, a: Action, boot: nat)
    requires Inv(s) && Enabled(s, a) && Registered(s, boot) && (a.LazyRegister? || a.Reregister?)
    ensures Registered(Next(s, a), boot)
  {
    QueueRegisters(s, s.seat, OWN_EVENT_TYPES, boot);
    SharedRegisters(RegisterQueue(s, s.seat, OWN_EVENT_TYPES), Next(s, a), boot);
  }

  lemma DropRegisters(s: System, id: QueueId, boot: nat)
    requires Inv(s) && Enabled(s, Drop(id)) && Registered(s, boot)
    ensures Registered(Next(s, Drop(id)), boot)
  {
    var n := Next(s, Drop(id));
    assert Inbox(n) == Inbox(s);
    forall k | k in n.realm.queues && boot < k ensures k in n.log && HoldsNewer(n, k) { assert HoldsNewer(s, k); }
  }

  // ---- the producer's steps ----

  lemma PollRegisters(s: System, boot: nat)
    requires Inv(s) && Enabled(s, Poll) && Registered(s, boot)
    ensures Registered(Next(s, Poll), boot)
  {
    var n, c := Next(s, Poll), s.phase.cursor;
    if OwnsQueue(s.realm, s.seat, c.queueId) {
      PollAnswers(s, c);
      AnsweredRegisters(s, n, s.phase.adopted, c, boot);
    } else {
      SharedRegisters(s, n, boot);
    }
  }

  lemma AnsweredRegisters(s: System, n: System, adopted: Option<QueueId>, c: Cursor, boot: nat)
    requires RealmOk(s) && CursorOk(s, c) && Registered(s, boot) && c.queueId in s.realm.queues
    requires PollsTo(s, n, c) && SameSeat(s, n) && n.registration == s.registration
    requires n.phase == Mapping(adopted, c, n.realm.queues[c.queueId].pending, |Inbox(s)|)
    ensures Registered(n, boot)
  {
    PolledRealmOk(s, n, c);
    PolledHolds(s, n, c, boot);
    AnsweredBatch(s, n, adopted, c);
  }

  lemma AnsweredBatch(s: System, n: System, adopted: Option<QueueId>, c: Cursor)
    requires CursorOk(s, c) && c.queueId in s.realm.queues && PollsTo(s, n, c) && Inbox(n) == Inbox(s)
    requires Adopts(n) && c == n.registration.value ==> c.lastEventId == -1 && HoldsNewer(n, c.queueId)
    requires n.phase == Mapping(adopted, c, n.realm.queues[c.queueId].pending, |Inbox(s)|)
    ensures FirstBatchOk(n)
  {
    PolledCursorOk(s, n, c, c);
    if Adopts(n) && c == n.registration.value { FirstBatch(n, c, |Inbox(s)|); }
  }

  /** A first answer is everything the queue holds. */
  lemma FirstBatch(n: System, c: Cursor, upTo: nat)
    requires CursorOk(n, c) && c.lastEventId == -1 && c.queueId in n.realm.queues && HoldsNewer(n, c.queueId)
    requires n.phase.Mapping? && n.phase.cursor == c && n.phase.upTo == upTo == |Inbox(n)|
    requires n.log[c.queueId][c.lastEventId + 1..] == n.phase.batch
    ensures FirstBatchOk(n)
  {
    WholeLog(n.log[c.queueId], c.lastEventId, n.phase.batch);
    assert Inbox(n)[..upTo] == Inbox(n);
  }

  lemma WholeLog(log: seq<QueuedEvent>, last: int, pending: seq<QueuedEvent>)
    requires last == -1 && log[last + 1..] == pending
    ensures pending == log
  {
  }

  lemma PolledHolds(s: System, n: System, c: Cursor, boot: nat)
    requires CursorOk(s, c) && c.queueId in s.realm.queues && PollsTo(s, n, c) && Registered(s, boot) && Inbox(n) == Inbox(s)
    ensures forall id :: id in n.realm.queues && boot < id ==> id in n.log && HoldsNewer(n, id)
  {
    forall id | id in n.realm.queues && boot < id ensures id in n.log && HoldsNewer(n, id) {
      assert id in s.realm.queues && HoldsNewer(s, id);
      if id == c.queueId {
        LogTail(s.log[id], n.log[id], 0);
        assert s.log[id][0..] == s.log[id] && n.log[id][0..] == n.log[id];
      }
    }
  }

  /** The producer's other steps share the realm and adopt no registration anew. */
  lemma QuietRegisters(s: System, a: Action, boot: nat)
    requires Inv(s) && Enabled(s, a) && Registered(s, boot)
    requires a.Begin? || a.Fail? || a.Finish? || a.Snapshot? || a.Backfill? || a.ReplayFail?
    ensures Registered(Next(s, a), boot)
  {
    var n := Next(s, a);
    assert RealmShared(s, n) && !n.phase.Mapping? && n.registration == s.registration;
    assert Adopts(n) ==> Adopts(s);
    SharedRegisters(s, n, boot);
  }

  lemma NextRegisters(s: System, a: Action, boot: nat)
    requires Inv(s) && Enabled(s, a) && Registered(s, boot)
    ensures Registered(Next(s, a), boot)
  {
    match a
    case Post(draft) => PostRegisters(s, draft, boot);
    case Broadcast(audience, kind, body) => BroadcastRegisters(s, audience, kind, body, boot);
    case RegisterOther(owner, eventTypes) => RegisterOtherRegisters(s, owner, eventTypes, boot);
    case Drop(id) => DropRegisters(s, id, boot);
    case Subscribe => SubscribeRegisters(s, boot);
    case LazyRegister => ReplacementRegisters(s, a, boot);
    case Reregister => ReplacementRegisters(s, a, boot);
    case Poll => PollRegisters(s, boot);
    case _ => QuietRegisters(s, a, boot);
  }

  lemma {:induction false} RunRegisters(s: System, actions: seq<Action>, boot: nat)
    requires Inv(s) && Registered(s, boot) && Runs(s, actions)
    ensures Registered(Run(s, actions), boot)
    decreases |actions|
  {
    if actions != [] {
      NextKeeps(s, actions[0]);
      NextRegisters(s, actions[0], boot);
      RunRegisters(Next(s, actions[0]), actions[1..], boot);
    }
  }

  /** Along a run the inbox only gains messages newer than everything before it. */
  lemma {:induction false} InboxOnlyGains(s: System, actions: seq<Action>)
    requires Inv(s) && Runs(s, actions)
    ensures Run(s, actions).seat == s.seat && s.realm.serial <= Run(s, actions).realm.serial
    ensures IsPrefix(Inbox(s), Inbox(Run(s, actions)))
    ensures forall i :: |Inbox(s)| <= i < |Inbox(Run(s, actions))| ==> s.realm.serial < Inbox(Run(s, actions))[i].id
    decreases |actions|
  {
    if actions != [] {
      var n, t := Next(s, actions[0]), Run(s, actions);
      NextKeeps(s, actions[0]);
      StepGains(s, actions[0]);
      InboxOnlyGains(n, actions[1..]);
      assert Inbox(s) == Inbox(n)[..|Inbox(s)|] == Inbox(t)[..|Inbox(n)|][..|Inbox(s)|];
      forall i | |Inbox(s)| <= i < |Inbox(t)| ensures s.realm.serial < Inbox(t)[i].id {
        if i < |Inbox(n)| { assert Inbox(t)[i] == Inbox(n)[i]; }
      }
    }
  }

  lemma StepGains(s: System, a: Action)
    requires Inv(s) && Enabled(s, a)
    ensures var n := Next(s, a);
      && n.seat == s.seat && s.realm.serial <= n.realm.serial
      && Inbox(n) == Inbox(s) + if a.Post? && s.seat in a.draft.receivedBy then [a.draft.(id := s.realm.serial + 1)] else []
  {
    if a.Post? {
      InboxOfAppended(s, Next(s, a), a.draft.(id := s.realm.serial + 1));
    } else {
      assert Next(s, a).realm.history == s.realm.history;
      assert Inbox(s) + [] == Inbox(s);
    }
  }
}
