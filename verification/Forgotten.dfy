/** What becomes of a message no live queue will bring any more: a replay hands it on while
    the watermark has not moved past it, and nothing does afterwards. */
module Forgotten {
  import opened Core
  import opened Realm
  import opened Producer
  import opened DeliveryInvariant
  import opened DeliverySteps
  import opened DeliveryFinish
  import opened Delivery
  import opened Registration
  import opened Adoption
  import HistoryPaging

  predicate NotAhead(s: System, c: Cursor, m: Message) {
    CursorOk(s, c) ==> m !in MessagesOf(Unread(s, c))
  }

  predicate NotInStep(s: System, m: Message) {
    match s.phase
    case Ready(_, c) => NotAhead(s, c, m)
    case Mapping(_, c, _, _) => NotAhead(s, c, m)
    case Replaying(c, _) => NotAhead(s, c, m)
    case Backfilling(c, gap, _, _) => NotAhead(s, c, m) && m !in gap
    case _ => true
  }

  /** The message is stored and not emitted, and neither the step in progress nor any queue
      the producer polls or is to adopt has it still to come. */
  predicate Behind(s: System, m: Message) {
    && m in s.realm.history && !Emitted(s.out, m)
    && (s.producer.queue.Some? ==> NotAhead(s, s.producer.queue.value, m))
    && (Adopts(s) ==> NotAhead(s, s.registration.value, m))
    && NotInStep(s, m)
  }

  /** The watermark has moved past it as well. */
  predicate IsForgotten(s: System, m: Message) {
    Behind(s, m) && s.watermark.Some? && m.timestamp < s.watermark.value
  }

  // ---- logs gain only what is stored now ----

  lemma EventLacks(e: QueuedEvent, m: Message)
    requires e.body.MessageEvent? ==> e.body.m != m
    ensures m !in MessagesOf([e])
  {
    OneEvent(e);
  }

  lemma LoggedGain(s: System, audience: set<UserId>, kind: EventType, body: EventBody, id: QueueId, m: Message)
    requires RealmOk(s) && id in s.log && (body.MessageEvent? ==> body.m != m)
    ensures var log := Logged(s, audience, kind, body);
      id in log && IsPrefix(s.log[id], log[id]) && m !in MessagesOf(log[id][|s.log[id]|..])
  {
    var log := Logged(s, audience, kind, body);
    if id in s.realm.queues && Receives(s.realm.queues[id], audience, kind) {
      var e := QueuedEvent(s.realm.queues[id].lastIssued + 1, body);
      EventLacks(e, m);
      assert log[id] == s.log[id] + [e] && log[id][|s.log[id]|..] == [e];
    } else {
      assert log[id][|s.log[id]|..] == [];
    }
  }

  lemma LogGain(s: System, a: Action, id: QueueId, m: Message)
    requires Inv(s) && Enabled(s, a) && id in s.log && m in s.realm.history
    ensures var n := Next(s, a);
      id in n.log && IsPrefix(s.log[id], n.log[id]) && m !in MessagesOf(n.log[id][|s.log[id]|..])
  {
    if a.Post? {
      var stored := a.draft.(id := s.realm.serial + 1);
      LoggedGain(s, stored.receivedBy, MessageType, MessageEvent(stored), id, m);
    } else if a.Broadcast? {
      LoggedGain(s, a.audience, a.kind, a.body, id, m);
    } else if a.Poll? {
      PollGain(s, id, m);
    } else {
      KeepsLog(s, a, id);
      assert s.log[id][|s.log[id]|..] == [];
    }
  }

  lemma PollGain(s: System, id: QueueId, m: Message)
    requires Inv(s) && Enabled(s, Poll) && id in s.log
    ensures var n := Next(s, Poll);
      id in n.log && IsPrefix(s.log[id], n.log[id]) && m !in MessagesOf(n.log[id][|s.log[id]|..])
  {
    assert s.log[id][|s.log[id]|..] == [];
    if OwnsQueue(s.realm, s.seat, s.phase.cursor.queueId) {
      PollAnswers(s, s.phase.cursor);
    } else {
      assert Next(s, Poll).log == s.log;
    }
  }

  lemma StillNotAhead(s: System, n: System, c: Cursor, m: Message)
    requires CursorOk(s, c) && NotAhead(s, c, m) && c.queueId in n.log && IsPrefix(s.log[c.queueId], n.log[c.queueId])
    requires m !in MessagesOf(n.log[c.queueId][|s.log[c.queueId]|..])
    ensures NotAhead(n, c, m)
  {
    if CursorOk(n, c) {
      var log, longer, k := s.log[c.queueId], n.log[c.queueId], c.lastEventId + 1;
      assert longer[k..] == log[k..] + longer[|log|..];
      MessagesConcat(log[k..], longer[|log|..]);
    }
  }

  lemma Stays(s: System, a: Action, c: Cursor, m: Message)
    requires Inv(s) && Enabled(s, a) && CursorOk(s, c) && m in s.realm.history && NotAhead(s, c, m)
    ensures NotAhead(Next(s, a), c, m)
  {
    LogGain(s, a, c.queueId, m);
    StillNotAhead(s, Next(s, a), c, m);
  }

  // ---- every step leaves it behind ----

  lemma InHistory(s: System, a: Action, m: Message)
    requires Enabled(s, a) && m in s.realm.history
    ensures m in Next(s, a).realm.history
  {
  }

  /** The steps of the realm and of other parties. */
  lemma RealmStep(s: System, a: Action, m: Message)
    requires Inv(s) && Enabled(s, a) && Behind(s, m) && IsRealmAction(a)
    ensures Behind(Next(s, a), m)
  {
    InHistory(s, a, m);
    RealmShape(s, a);
    if s.producer.queue.Some? { Stays(s, a, s.producer.queue.value, m); }
    if Adopts(s) { Stays(s, a, s.registration.value, m); }
    if a.Subscribe? { NewQueueLacks(Next(s, a), Next(s, a).registration.value, m); }
    PhaseStays(s, a, m);
  }

  lemma RealmShape(s: System, a: Action)
    requires Enabled(s, a) && IsRealmAction(a)
    ensures var n := Next(s, a);
      && n.phase == s.phase && n.producer == s.producer && n.out == s.out && n.watermark == s.watermark
      && (!a.Subscribe? ==> n.registration == s.registration)
      && (a.Subscribe? ==> n.registration == Some(Cursor(n.realm.serial, -1)) && n.realm.serial in n.log && n.log[n.realm.serial] == [])
  {
  }

  lemma NewQueueLacks(n: System, c: Cursor, m: Message)
    requires c.queueId in n.log && n.log[c.queueId] == []
    ensures NotAhead(n, c, m)
  {
  }

  lemma PhaseStays(s: System, a: Action, m: Message)
    requires Inv(s) && Enabled(s, a) && Behind(s, m) && Next(s, a).phase == s.phase
    ensures NotInStep(Next(s, a), m)
  {
    match s.phase
    case Ready(_, c) => Stays(s, a, c, m);
    case Mapping(_, c, _, _) => Stays(s, a, c, m);
    case Replaying(c, _) => Stays(s, a, c, m);
    case Backfilling(c, _, _, _) => Stays(s, a, c, m);
    case _ =>
  }

  /** The producer's steps that hand nothing on and leave its state alone. */
  lemma QuietProducerStep(s: System, a: Action, m: Message)
    requires Inv(s) && Enabled(s, a) && Behind(s, m)
    requires a.Begin? || a.LazyRegister? || a.Poll? || a.Fail?
    ensures Behind(Next(s, a), m)
  {
    var n := Next(s, a);
    QuietShape(s, a);
    InHistory(s, a, m);
    if s.producer.queue.Some? { Stays(s, a, s.producer.queue.value, m); }
    if Adopts(s) { Stays(s, a, s.registration.value, m); }
    match a
    case Poll => Stays(s, a, s.phase.cursor, m);
    case LazyRegister => NewQueueLacks(n, Cursor(n.realm.serial, -1), m);
    case _ =>
  }

  lemma QuietShape(s: System, a: Action)
    requires Enabled(s, a) && (a.Begin? || a.LazyRegister? || a.Poll? || a.Fail?)
    ensures var n := Next(s, a);
      && n.producer == s.producer && n.registration == s.registration && n.out == s.out && n.watermark == s.watermark
    ensures a.Fail? ==> Next(s, a).phase == Idle
    ensures a.Begin? ==> Next(s, a).phase.Unregistered? || BeginsWith(s, Next(s, a).phase)
    ensures a.Poll? ==> Next(s, a).phase.Recovering? || Next(s, a).phase.Mapping?
    ensures a.Poll? && Next(s, a).phase.Mapping? ==> Next(s, a).phase.cursor == s.phase.cursor
    ensures a.LazyRegister? ==>
      var n := Next(s, a);
      n.phase == Ready(s.phase.adopted, Cursor(n.realm.serial, -1)) && n.realm.serial in n.log && n.log[n.realm.serial] == []
  {
  }

  /** A step begins with the registration to adopt, or else with the queue polled so far. */
  predicate BeginsWith(s: System, phase: Phase) {
    phase.Ready? &&
    if Adopts(s) then phase.cursor == s.registration.value
    else s.producer.queue.Some? && phase.cursor == s.producer.queue.value
  }

  lemma FinishStep(s: System, m: Message)
    requires Inv(s) && Enabled(s, Finish) && Behind(s, m)
    ensures Behind(Next(s, Finish), m)
  {
    var Mapping(adopted, c, batch, upTo) := s.phase;
    var n := Next(s, Finish);
    FinishedCursor(s, c, batch);
    FinishedFields(s);
    BatchLacks(s, c, batch, m);
    ChunkLacks(s.seat, batch, m);
    HandedOnStep(s, n, Cursor(c.queueId, MaxId(c.lastEventId, batch)), MapEvents(s.seat, batch), m);
  }

  lemma BatchLacks(s: System, c: Cursor, batch: seq<QueuedEvent>, m: Message)
    requires CursorOk(s, c) && NotAhead(s, c, m) && IsPrefix(batch, Unread(s, c))
    ensures m !in MessagesOf(batch) && m !in MessagesOf(Unread(s, c)[|batch|..])
  {
    assert Unread(s, c) == batch + Unread(s, c)[|batch|..];
    MessagesConcat(batch, Unread(s, c)[|batch|..]);
  }

  /** A chunk without the message is handed on and the step ends on this cursor. */
  lemma HandedOnStep(s: System, n: System, d: Cursor, chunk: seq<InboundEvent>, m: Message)
    requires Inv(s) && Behind(s, m) && CursorOk(s, d) && NotAhead(s, d, m) && !Emitted(chunk, m)
    requires n.seat == s.seat && n.realm == s.realm && n.log == s.log && n.registration == s.registration && n.phase.Idle?
    requires n.producer.queue == Some(d) && (Adopts(n) ==> Adopts(s)) && n.out == s.out + chunk
    ensures Behind(n, m)
  {
    SameUnread(s, n, d, m);
    if Adopts(n) { SameUnread(s, n, s.registration.value, m); }
  }

  lemma ChunkLacks(seat: UserId, batch: seq<QueuedEvent>, m: Message)
    requires m !in MessagesOf(batch)
    ensures !Emitted(MapEvents(seat, batch), m)
  {
    if MessagePosted(m, false) in MapEvents(seat, batch) { MappedOnlyMessages(seat, batch, MessagePosted(m, false)); }
    if MessagePosted(m, true) in MapEvents(seat, batch) { MappedOnlyMessages(seat, batch, MessagePosted(m, true)); }
  }

  /** The steps of a recovery. A snapshot misses the message once its window starts later. */
  lemma RecoveryStep(s: System, a: Action, m: Message)
    requires Inv(s) && Enabled(s, a) && Behind(s, m) && (a.Reregister? || a.Snapshot? || a.Backfill? || a.ReplayFail?)
    requires a.Snapshot? ==> m.timestamp < s.phase.since
    ensures Behind(Next(s, a), m)
  {
    match a
    case Reregister => ReregisterStep(s, m);
    case Snapshot => SnapshotStep(s, m);
    case Backfill => BackfillStep(s, m);
    case ReplayFail => HandedOnStep(s, Next(s, a), s.phase.replacement, [], m);
  }

  lemma ReregisterStep(s: System, m: Message)
    requires Inv(s) && Enabled(s, Reregister) && Behind(s, m)
    ensures Behind(Next(s, Reregister), m)
  {
    var n := Next(s, Reregister);
    InHistory(s, Reregister, m);
    assert n.registration == s.registration && n.producer.observed == s.producer.observed && n.out == s.out + [] == s.out;
    if s.producer.queue.Some? { Stays(s, Reregister, s.producer.queue.value, m); }
    if Adopts(s) { Stays(s, Reregister, s.registration.value, m); }
    NewQueueLacks(n, Cursor(n.realm.serial, -1), m);
  }

  predicate CursorsOk(s: System) {
    (s.producer.queue.Some? ==> CursorOk(s, s.producer.queue.value)) && (Adopts(s) ==> CursorOk(s, s.registration.value))
  }

  lemma SnapshotStep(s: System, m: Message)
    requires HistoryOk(s.realm) && CursorsOk(s) && Behind(s, m) && s.phase.Replaying? && CursorOk(s, s.phase.replacement)
    requires m.timestamp < s.phase.since
    ensures Behind(Next(s, Snapshot), m)
  {
    SnapshotMisses(s, m);
    SnapshotInHand(s, Next(s, Snapshot), m);
  }

  lemma SnapshotMisses(s: System, m: Message)
    requires HistoryOk(s.realm) && s.phase.Replaying? && m.timestamp < s.phase.since
    ensures var n := Next(s, Snapshot);
      n.phase.Backfilling? && n == s.(phase := n.phase) && n.phase.replacement == s.phase.replacement && m !in n.phase.gap
  {
    SnapshotShape(s);
    SnapshotStartsAt(s.realm.history, s.phase.since, m);
  }

  lemma SnapshotShape(s: System)
    requires s.phase.Replaying?
    ensures var n := Next(s, Snapshot);
      n.phase.Backfilling? && n == s.(phase := n.phase) && n.phase.replacement == s.phase.replacement
      && n.phase.gap == ReplaySnapshot(s.realm.history, s.phase.since).results
  {
  }

  lemma SnapshotInHand(s: System, n: System, m: Message)
    requires CursorsOk(s) && Behind(s, m) && s.phase.Replaying? && CursorOk(s, s.phase.replacement)
    requires n.phase.Backfilling? && n == s.(phase := n.phase) && n.phase.replacement == s.phase.replacement && m !in n.phase.gap
    ensures Behind(n, m)
  {
    SameUnread(s, n, s.phase.replacement, m);
    if s.producer.queue.Some? { SameUnread(s, n, s.producer.queue.value, m); }
    if Adopts(n) { SameUnread(s, n, s.registration.value, m); }
  }

  lemma SnapshotStartsAt(h: seq<Message>, since: nat, m: Message)
    requires Ascending(h) && m.timestamp < since
    ensures m !in ReplaySnapshot(h, since).results
  {
    var o := ReplayOptions(since);
    HistoryPaging.ReadWindowOrdered(o, seq(HISTORY_MAX_PAGES, _ => h));
  }

  lemma BackfillStep(s: System, m: Message)
    requires Inv(s) && Enabled(s, Backfill) && Behind(s, m)
    ensures Behind(Next(s, Backfill), m)
  {
    var chunk := MarkReplayed(MapMessages(s.seat, s.phase.gap));
    if MessagePosted(m, false) in chunk { ReplayedRows(s.seat, s.phase.gap, MessagePosted(m, false)); }
    if MessagePosted(m, true) in chunk { ReplayedRows(s.seat, s.phase.gap, MessagePosted(m, true)); }
    HandedOnStep(s, Next(s, Backfill), s.phase.replacement, chunk, m);
  }

  lemma SameUnread(s: System, n: System, c: Cursor, m: Message)
    requires CursorOk(s, c) && NotAhead(s, c, m) && n.log == s.log
    ensures NotAhead(n, c, m)
  {
    assert CursorOk(n, c) ==> Unread(n, c) == Unread(s, c);
  }

  lemma BehindStep(s: System, a: Action, m: Message)
    requires Inv(s) && Enabled(s, a) && Behind(s, m) && (a.Snapshot? ==> m.timestamp < s.phase.since)
    ensures Behind(Next(s, a), m)
  {
    if IsRealmAction(a) {
      RealmStep(s, a, m);
    } else if a.Finish? {
      FinishStep(s, m);
    } else if a.Reregister? || a.Snapshot? || a.Backfill? || a.ReplayFail? {
      RecoveryStep(s, a, m);
    } else {
      QuietProducerStep(s, a, m);
    }
  }

  // ---- and the watermark never returns ----

  lemma {:induction false} AdvanceRises(w: Option<nat>, events: seq<InboundEvent>)
    requires w.Some?
    ensures AdvanceOver(w, events).Some? && w.value <= AdvanceOver(w, events).value
    decreases |events|
  {
    if events != [] {
      AdvanceRises(if IsMessage(events[0]) then Advance(w, events[0].m.timestamp) else w, events[1..]);
    }
  }

  lemma WatermarkRises(s: System, a: Action)
    requires Enabled(s, a) && s.watermark.Some?
    ensures Next(s, a).watermark.Some? && s.watermark.value <= Next(s, a).watermark.value
  {
    if a.Finish? { AdvanceRises(s.watermark, MapEvents(s.seat, s.phase.batch)); }
  }

  lemma ForgottenStep(s: System, a: Action, m: Message)
    requires Inv(s) && Enabled(s, a) && IsForgotten(s, m)
    ensures IsForgotten(Next(s, a), m)
  {
    assert a.Snapshot? ==> s.watermark == Some(s.phase.since);
    BehindStep(s, a, m);
    WatermarkRises(s, a);
  }

  /** A message left behind by every queue and by the watermark is never handed on, in any
      run. */
  lemma {:induction false} ForgottenForGood(s: System, actions: seq<Action>, m: Message)
    requires Inv(s) && IsForgotten(s, m) && Runs(s, actions)
    ensures IsForgotten(Run(s, actions), m) && !Emitted(Run(s, actions).out, m)
    decreases |actions|
  {
    if actions != [] {
      NextKeeps(s, actions[0]);
      ForgottenStep(s, actions[0], m);
      ForgottenForGood(Next(s, actions[0]), actions[1..], m);
    }
  }

  // ---- until then a replay hands it on ----

  function Recovery(id: QueueId): seq<Action> {
    [Drop(id)] + ([Begin] + ([Poll] + ([Reregister] + [Snapshot, Backfill])))
  }

  /** An idle producer with a live queue and a watermark, and no registration to adopt. */
  predicate Polling(t: System) {
    && t.phase.Idle? && !Adopts(t) && t.watermark.Some?
    && t.producer.queue.Some? && t.producer.queue.value.queueId in t.realm.queues
  }

  function Replayed(t: System): seq<InboundEvent>
    requires t.watermark.Some?
  {
    MarkReplayed(MapMessages(t.seat, ReplaySnapshot(t.realm.history, t.watermark.value).results))
  }

  /** The polled queue is dropped and the next poll refused. */
  lemma QueueDies(t: System)
    requires Polling(t)
    ensures var d := Next(t, Drop(t.producer.queue.value.queueId));
      && Enabled(d, Begin) && Enabled(Next(d, Begin), Poll)
      && Next(Next(d, Begin), Poll) == d.(phase := Recovering(t.watermark))
  {
  }

  /** A recovery takes up a fresh queue and hands on the replay. */
  lemma QueueReplaced(p: System, since: nat)
    requires p.phase == Recovering(Some(since))
    ensures Runs(p, [Reregister] + [Snapshot, Backfill])
    ensures var n := Run(p, [Reregister] + [Snapshot, Backfill]);
      && n.out == p.out + MarkReplayed(MapMessages(p.seat, ReplaySnapshot(p.realm.history, since).results))
      && n.phase.Idle? && n.seat == p.seat && n.realm.history == p.realm.history && n.watermark == p.watermark
      && n.registration == p.registration && n.producer.observed == p.producer.observed
      && n.producer.queue.Some? && n.producer.queue.value.queueId in n.realm.queues
  {
    var r := Next(p, Reregister);
    assert r.phase.Replaying? && r.phase.since == since && r.realm.history == p.realm.history && r.seat == p.seat;
    RunTwo(r, Snapshot, Backfill);
    RunMore(p, Reregister, [Snapshot, Backfill]);
  }

  /** The death of the polled queue and its recovery, with nothing between the steps, hands
      on the replay and leaves the producer polling again. */
  lemma RecoveryRuns(t: System)
    requires Polling(t)
    ensures Runs(t, Recovery(t.producer.queue.value.queueId))
    ensures var n := Run(t, Recovery(t.producer.queue.value.queueId));
      && n.out == t.out + Replayed(t) && Polling(n)
      && n.seat == t.seat && n.realm.history == t.realm.history && n.watermark == t.watermark
  {
    var id := t.producer.queue.value.queueId;
    var d := Next(t, Drop(id));
    QueueDies(t);
    QueueReplaced(d.(phase := Recovering(t.watermark)), t.watermark.value);
    RunMore(Next(d, Begin), Poll, [Reregister] + [Snapshot, Backfill]);
    RunMore(d, Begin, [Poll] + ([Reregister] + [Snapshot, Backfill]));
    RunMore(t, Drop(id), [Begin] + ([Poll] + ([Reregister] + [Snapshot, Backfill])));
  }

  lemma ReplayHandsOn(t: System, m: Message)
    requires HistoryOk(t.realm) && Polling(t) && m in t.realm.history
    requires t.watermark.value <= m.timestamp && !ReplaySnapshot(t.realm.history, t.watermark.value).spent
    ensures var recovery := Recovery(t.producer.queue.value.queueId);
      Runs(t, recovery) && Emitted(Run(t, recovery).out, m)
  {
    var h, since := t.realm.history, t.watermark.value;
    RecoveryRuns(t);
    SnapshotIsKept(h, since);
    FilterMember(HistoryPaging.Within(ReplayOptions(since).window), h, m);
    ReplayedPosts(t.seat, ReplaySnapshot(h, since).results, m);
  }

  lemma PassedIsBehind(t: System, m: Message)
    requires PassedBy(t, m) && t.phase.Idle? && !Adopts(t)
    ensures Behind(t, m)
  {
    FilterMember(ToSeat(t.seat), t.realm.history, m);
  }

  /** No run from here hands the message on. */
  ghost predicate NeverHandedOn(t: System, m: Message) {
    forall actions :: Runs(t, actions) ==> !Emitted(Run(t, actions).out, m)
  }

  /** A message an adoption passed by is lost for good exactly when the watermark has moved
      past it: until then the death of a queue still brings it back, provided the replay can
      be read in full. */
  lemma PassedByForGoodIff(t: System, m: Message)
    requires Inv(t) && PassedBy(t, m) && Polling(t) && !ReplaySnapshot(t.realm.history, t.watermark.value).spent
    ensures NeverHandedOn(t, m) <==> m.timestamp < t.watermark.value
  {
    PassedIsBehind(t, m);
    if m.timestamp < t.watermark.value {
      ForgottenIsNever(t, m);
    } else {
      ReplayHandsOn(t, m);
      HandedOnSometime(t, m, Recovery(t.producer.queue.value.queueId));
    }
  }

  lemma ForgottenIsNever(t: System, m: Message)
    requires Inv(t) && IsForgotten(t, m)
    ensures NeverHandedOn(t, m)
  {
    forall actions | Runs(t, actions) ensures !Emitted(Run(t, actions).out, m) { ForgottenForGood(t, actions, m); }
  }

  lemma HandedOnSometime(t: System, m: Message, actions: seq<Action>)
    requires Runs(t, actions) && Emitted(Run(t, actions).out, m)
    ensures !NeverHandedOn(t, m)
  {
  }

  // ---- a loss from start to finish ----

  lemma {:induction false} AdvanceReaches(w: Option<nat>, events: seq<InboundEvent>, e: InboundEvent)
    requires e in events && IsMessage(e)
    ensures AdvanceOver(w, events).Some? && e.m.timestamp <= AdvanceOver(w, events).value
    decreases |events|
  {
    var next := if IsMessage(events[0]) then Advance(w, events[0].m.timestamp) else w;
    if e == events[0] {
      AdvanceRises(next, events[1..]);
    } else {
      AdvanceReaches(next, events[1..], e);
    }
  }

  /** A later message is posted, polled from the live queue and handed on. */
  lemma LaterMovesPast(t: System, m: Message, later: Message)
    requires Inv(t) && Behind(t, m) && t.phase.Idle? && !Adopts(t) && Enabled(t, Post(later))
    requires t.producer.queue.Some? && OwnsQueue(t.realm, t.seat, t.producer.queue.value.queueId)
    requires t.seat in later.receivedBy && m.timestamp < later.timestamp
    ensures Runs(t, OneLive(later)) && Inv(Run(t, OneLive(later))) && IsForgotten(Run(t, OneLive(later)), m)
  {
    var p := Next(t, Post(later));
    var b := Next(p, Begin);
    LaterIsUnread(t, later);
    BeforeBegin(t, m, later);
    HandsOnUnread(b, later.(id := t.realm.serial + 1), m);
    RunTwo(b, Poll, Finish);
    RunMore(p, Begin, [Poll, Finish]);
    RunMore(t, Post(later), [Begin] + [Poll, Finish]);
  }

  function OneLive(later: Message): seq<Action> { [Post(later)] + ([Begin] + [Poll, Finish]) }

  lemma BeforeBegin(t: System, m: Message, later: Message)
    requires Inv(t) && Behind(t, m) && t.phase.Idle? && Enabled(t, Post(later))
    ensures var p := Next(t, Post(later)); Enabled(p, Begin) && Inv(Next(p, Begin)) && Behind(Next(p, Begin), m)
  {
    var p := Next(t, Post(later));
    NextKeeps(t, Post(later));
    BehindStep(t, Post(later), m);
    NextKeeps(p, Begin);
    BehindStep(p, Begin, m);
  }

  lemma LaterIsUnread(t: System, later: Message)
    requires Inv(t) && t.phase.Idle? && !Adopts(t) && Enabled(t, Post(later)) && t.seat in later.receivedBy
    requires t.producer.queue.Some? && OwnsQueue(t.realm, t.seat, t.producer.queue.value.queueId)
    ensures Enabled(Next(t, Post(later)), Begin)
    ensures var b, c := Next(Next(t, Post(later)), Begin), t.producer.queue.value;
      && b.phase.Ready? && b.phase.cursor == c && OwnsQueue(b.realm, b.seat, c.queueId)
      && CursorOk(b, c) && later.(id := t.realm.serial + 1) in MessagesOf(Unread(b, c))
  {
    var c := t.producer.queue.value;
    var p := Next(t, Post(later));
    PostShape(t, later);
    PostIsLogged(t, later, c);
    SameUnreadAfter(p, Next(p, Begin), c);
  }

  lemma PostIsLogged(t: System, later: Message, c: Cursor)
    requires Inv(t) && Enabled(t, Post(later)) && t.seat in later.receivedBy && CursorOk(t, c)
    requires OwnsQueue(t.realm, t.seat, c.queueId)
    ensures var p := Next(t, Post(later));
      OwnsQueue(p.realm, p.seat, c.queueId) && CursorOk(p, c) && later.(id := t.realm.serial + 1) in MessagesOf(Unread(p, c))
  {
    var e := QueuedEvent(t.realm.queues[c.queueId].lastIssued + 1, MessageEvent(later.(id := t.realm.serial + 1)));
    PostGrows(t, later);
    CursorKept(t, Next(t, Post(later)), c);
    PostExtends(t, later, c.queueId);
    EndsUnread(t.log[c.queueId], c.lastEventId + 1, e);
  }

  lemma PostExtends(t: System, later: Message, id: QueueId)
    requires Enabled(t, Post(later)) && t.seat in later.receivedBy && OwnsQueue(t.realm, t.seat, id) && id in t.log
    requires Wants(t.realm.queues[id], MessageType)
    ensures var p := Next(t, Post(later));
      && OwnsQueue(p.realm, p.seat, id) && id in p.log
      && p.log[id] == t.log[id] + [QueuedEvent(t.realm.queues[id].lastIssued + 1, MessageEvent(later.(id := t.realm.serial + 1)))]
  {
  }

  lemma SameUnreadAfter(p: System, b: System, c: Cursor)
    requires CursorOk(p, c) && RealmShared(p, b)
    ensures CursorOk(b, c) && Unread(b, c) == Unread(p, c)
  {
  }

  lemma EndsUnread(log: seq<QueuedEvent>, k: nat, e: QueuedEvent)
    requires k <= |log| && e.body.MessageEvent?
    ensures e.body.m in MessagesOf((log + [e])[k..])
  {
    assert (log + [e])[k..] == log[k..] + [e];
    MessagesConcat(log[k..], [e]);
    OneEvent(e);
  }

  lemma HandsOnUnread(b: System, later: Message, m: Message)
    requires Inv(b) && Behind(b, m) && b.phase.Ready? && CursorOk(b, b.phase.cursor)
    requires OwnsQueue(b.realm, b.seat, b.phase.cursor.queueId) && later in MessagesOf(Unread(b, b.phase.cursor))
    requires m.timestamp < later.timestamp
    ensures Enabled(Next(b, Poll), Finish)
    ensures Inv(Next(Next(b, Poll), Finish)) && IsForgotten(Next(Next(b, Poll), Finish), m)
  {
    var p := Next(b, Poll);
    NextKeeps(b, Poll);
    BehindStep(b, Poll, m);
    AnswerIsUnread(b, b.phase.cursor);
    assert Unread(b, b.phase.cursor) != [];
    assert p.phase.batch == Unread(b, b.phase.cursor);
    NextKeeps(p, Finish);
    BehindStep(p, Finish, m);
    MappedPosts(b.seat, p.phase.batch, later);
    AdvanceReaches(p.watermark, MapEvents(b.seat, p.phase.batch), MessagePosted(later, false));
  }

  /** A message stored after the last poll and before the first subscribe, and one later
      message delivered live: the first is never handed on, in any run from there. */
  lemma AdoptionLosesForGood(s: System, draft: Message, later: Message)
    requires Inv(s) && NothingEarly(s) && s.phase.Idle? && s.registration.None? && s.producer.observed.None?
    requires Enabled(s, Post(draft)) && s.seat in draft.receivedBy
    requires s.seat in later.receivedBy && draft.timestamp < later.timestamp
    ensures Runs(s, [Post(draft), Subscribe, Begin, Poll, Finish])
    ensures var t := Run(s, [Post(draft), Subscribe, Begin, Poll, Finish]);
      Runs(t, OneLive(later)) && NeverHandedOn(Run(t, OneLive(later)), draft.(id := s.realm.serial + 1))
  {
    var m := draft.(id := s.realm.serial + 1);
    AdoptionPassesBy(s, draft);
    var t := Run(s, [Post(draft), Subscribe, Begin, Poll, Finish]);
    RunKeeps(s, [Post(draft), Subscribe, Begin, Poll, Finish]);
    AdoptedState(s, draft);
    PassedIsBehind(t, m);
    LaterMovesPast(t, m, later);
    ForgottenIsNever(Run(t, OneLive(later)), m);
  }

  /** The state in which the adoption leaves the producer. */
  lemma AdoptedState(s: System, draft: Message)
    requires s.phase.Idle? && s.registration.None? && s.producer.observed.None? && Enabled(s, Post(draft))
    ensures Runs(s, [Post(draft), Subscribe, Begin, Poll, Finish])
    ensures var t := Run(s, [Post(draft), Subscribe, Begin, Poll, Finish]);
      && t.phase.Idle? && !Adopts(t) && t.seat == s.seat
      && t.realm.history == s.realm.history + [draft.(id := s.realm.serial + 1)]
      && t.producer.queue.Some? && OwnsQueue(t.realm, t.seat, t.producer.queue.value.queueId)
  {
    PostShape(s, draft);
    PostHistory(s, draft);
    TakenUp(Next(s, Post(draft)));
    RunFive(s, Post(draft), Subscribe, Begin, Poll, Finish);
  }

  lemma PostHistory(s: System, draft: Message)
    requires Enabled(s, Post(draft))
    ensures Next(s, Post(draft)).realm.history == s.realm.history + [draft.(id := s.realm.serial + 1)]
  {
  }

  lemma TakenUp(p: System)
    requires p.phase.Idle? && p.registration.None? && p.producer.observed.None?
    ensures Enabled(p, Subscribe) && Enabled(Next(p, Subscribe), Begin) && Enabled(Next(Next(p, Subscribe), Begin), Poll)
    ensures Enabled(Next(Next(Next(p, Subscribe), Begin), Poll), Finish)
    ensures var t := Next(Next(Next(Next(p, Subscribe), Begin), Poll), Finish);
      && t.phase.Idle? && !Adopts(t) && t.seat == p.seat && t.realm.history == p.realm.history
      && t.producer.queue.Some? && OwnsQueue(t.realm, t.seat, t.producer.queue.value.queueId)
  {
    var q := Next(p, Subscribe);
    var c := q.registration.value;
    var b := Next(q, Begin);
    assert b.phase == Ready(Some(c.queueId), c) && b.realm == q.realm && OwnsQueue(b.realm, b.seat, c.queueId);
    var r := Next(b, Poll);
    assert r.phase.Mapping? && r.phase.cursor == c && r.phase.adopted == Some(c.queueId) && r.registration == q.registration;
    assert OwnsQueue(r.realm, r.seat, c.queueId) && r.realm.history == p.realm.history;
  }
}
