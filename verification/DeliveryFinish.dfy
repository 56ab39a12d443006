/** The producer's steps that emit: finishing a live batch, and recovering from a
    dead queue. */
module DeliveryFinish {
  import opened Core
  import opened Realm
  import opened Producer
  import opened DeliveryInvariant
  import opened DeliverySteps
  import HistoryPaging

  // ---- what mapping does to messages ----

  lemma {:induction false} MappedPosts(seat: UserId, events: seq<QueuedEvent>, m: Message)
    ensures m in MessagesOf(events) ==> MessagePosted(m, false) in MapEvents(seat, events)
  {
    if events != [] {
      MappedPosts(seat, events[1..], m);
      if events[0].body == MessageEvent(m) { assert MapEvent(seat, events[0])[0] == MessagePosted(m, false); }
    }
  }

  lemma {:induction false} MappedOnlyMessages(seat: UserId, events: seq<QueuedEvent>, e: InboundEvent)
    requires e in MapEvents(seat, events) && IsMessage(e)
    ensures e.m in MessagesOf(events)
  {
    if e !in MapEvent(seat, events[0]) { MappedOnlyMessages(seat, events[1..], e); }
  }

  lemma {:induction false} ReplayedPosts(seat: UserId, rows: seq<Message>, m: Message)
    requires m in rows
    ensures MessagePosted(m, true) in MarkReplayed(MapMessages(seat, rows))
  {
    var mapped := MapMessages(seat, rows);
    PostedOfRow(seat, rows, m);
    var i :| 0 <= i < |mapped| && mapped[i] == MessagePosted(m, false);
    assert MarkReplayed(mapped)[i] == MessagePosted(m, true);
  }

  lemma {:induction false} PostedOfRow(seat: UserId, rows: seq<Message>, m: Message)
    requires m in rows
    ensures MessagePosted(m, false) in MapMessages(seat, rows)
  {
    if rows[0] == m {
      assert MessageToInbound(seat, m)[0] == MessagePosted(m, false);
    } else {
      PostedOfRow(seat, rows[1..], m);
    }
  }

  lemma {:induction false} AdvanceBound(w: Option<nat>, events: seq<InboundEvent>, bound: nat)
    requires w.Some? ==> w.value <= bound
    requires forall e :: e in events && IsMessage(e) ==> e.m.timestamp <= bound
    ensures AdvanceOver(w, events).Some? ==> AdvanceOver(w, events).value <= bound
    decreases |events|
  {
    if events != [] {
      AdvanceBound(if IsMessage(events[0]) then Advance(w, events[0].m.timestamp) else w, events[1..], bound);
    }
  }

  lemma {:induction false} AdvanceDefined(w: Option<nat>, events: seq<InboundEvent>)
    requires w.Some? || exists e :: e in events && IsMessage(e)
    ensures AdvanceOver(w, events).Some?
    decreases |events|
  {
    if events != [] {
      AdvanceDefined(if IsMessage(events[0]) then Advance(w, events[0].m.timestamp) else w, events[1..]);
    }
  }

  // ---- the inbox ----

  lemma {:induction false} FilterChronological(p: Message -> bool, h: seq<Message>)
    requires Chronological(h)
    ensures Chronological(Filter(p, h))
  {
    if h != [] {
      FilterChronological(p, h[1..]);
      forall i | 0 <= i < |Filter(p, h[1..])| ensures h[0].timestamp <= Filter(p, h[1..])[i].timestamp {
        var m := Filter(p, h[1..])[i];
        FilterMember(p, h[1..], m);
        var j :| 0 <= j < |h| - 1 && h[1..][j] == m;
        assert m == h[j + 1];
      }
    }
  }

  lemma InboxNotAfterLast(s: System, i: nat)
    requires HistoryOk(s.realm) && i < |Inbox(s)|
    ensures Inbox(s)[i] in s.realm.history
    ensures Inbox(s)[i].timestamp <= s.realm.history[|s.realm.history| - 1].timestamp
  {
    FilterMember(ToSeat(s.seat), s.realm.history, Inbox(s)[i]);
    var j :| 0 <= j < |s.realm.history| && s.realm.history[j] == Inbox(s)[i];
  }

  // ---- finishing a live batch ----

  lemma {:induction false} MaxIdOfRun(last: int, events: seq<QueuedEvent>)
    requires forall i :: 0 <= i < |events| ==> events[i].id == last + 1 + i
    ensures MaxId(last, events) == last + |events|
    decreases |events|
  {
    if events != [] { MaxIdOfRun(last + 1, events[1..]); }
  }

  lemma FinishedCursor(s: System, c: Cursor, batch: seq<QueuedEvent>)
    requires CursorOk(s, c) && Numbered(s.log[c.queueId]) && IsPrefix(batch, Unread(s, c)) && batch != []
    ensures var d := Cursor(c.queueId, MaxId(c.lastEventId, batch));
      && d.lastEventId == c.lastEventId + |batch| && CursorOk(s, d)
      && Unread(s, d) == Unread(s, c)[|batch|..]
      && s.log[c.queueId][c.lastEventId + 1..d.lastEventId + 1] == batch
  {
    UnreadIsTail(s, c);
    RunEnds(s.log[c.queueId], c.lastEventId, batch);
    CursorMoves(s, c, MaxId(c.lastEventId, batch), |batch|);
  }

  lemma UnreadIsTail(s: System, c: Cursor)
    requires CursorOk(s, c)
    ensures Unread(s, c) == s.log[c.queueId][c.lastEventId + 1..]
  {
  }

  lemma CursorMoves(s: System, c: Cursor, end: int, k: nat)
    requires CursorOk(s, c) && end == c.lastEventId + k < |s.log[c.queueId]|
    ensures CursorOk(s, Cursor(c.queueId, end)) && Unread(s, Cursor(c.queueId, end)) == Unread(s, c)[k..]
  {
    CursorForward(s, c, end);
    DropDrop(s.log[c.queueId], c.lastEventId + 1, k);
  }

  lemma CursorForward(s: System, c: Cursor, last: int)
    requires CursorOk(s, c) && c.lastEventId <= last < |s.log[c.queueId]|
    ensures CursorOk(s, Cursor(c.queueId, last)) && Unread(s, Cursor(c.queueId, last)) == s.log[c.queueId][last + 1..]
  {
  }

  lemma RunEnds(log: seq<QueuedEvent>, last: int, batch: seq<QueuedEvent>)
    requires Numbered(log) && -1 <= last < |log| && IsPrefix(batch, log[last + 1..])
    ensures var end := MaxId(last, batch);
      end == last + |batch| < |log| && log[last + 1..end + 1] == batch && log[end + 1..] == log[last + 1..][|batch|..]
  {
    RunIsSlice(log, last + 1, batch);
    MaxIdOfRun(last, batch);
    DropDrop(log, last + 1, |batch|);
  }

  lemma RunIsSlice(log: seq<QueuedEvent>, k: nat, batch: seq<QueuedEvent>)
    requires Numbered(log) && k <= |log| && IsPrefix(batch, log[k..])
    ensures k + |batch| <= |log| && batch == log[k..k + |batch|]
    ensures forall i :: 0 <= i < |batch| ==> batch[i].id == k + i
  {
    assert log[k..][..|batch|] == log[k..k + |batch|];
  }

  /** The batch's messages are a stretch of the inbox ending at `upTo`. */
  lemma BatchStretch(s: System, c: Cursor, batch: seq<QueuedEvent>, upTo: nat, i: nat)
    requires CursorOk(s, c) && BatchOk(s, c, batch, upTo) && upTo - |MessagesOf(batch)| <= i < upTo
    ensures Inbox(s)[i] in MessagesOf(batch)
  {
    SuffixAt(MessagesOf(batch), Inbox(s), upTo, i);
  }

  lemma SuffixAt(end: seq<Message>, all: seq<Message>, upTo: nat, i: nat)
    requires upTo <= |all| && IsSuffix(end, all[..upTo]) && upTo - |end| <= i < upTo
    ensures all[i] in end
  {
    assert end[i - (upTo - |end|)] == all[..upTo][i];
  }

  lemma FinishCovers(s: System)
    requires Inv(s) && s.phase.Mapping?
    ensures CoverOk(Finished(s))
  {
    var n := Finished(s);
    var Mapping(adopted, c, batch, upTo) := s.phase;
    var mapped := MapEvents(s.seat, batch);
    var from := upTo - |MessagesOf(batch)|;
    assert Inbox(n) == Inbox(s);
    forall i | from <= i < upTo ensures Emitted(n.out, Inbox(n)[i]) {
      BatchStretch(s, c, batch, upTo, i);
      MappedPosts(s.seat, batch, Inbox(s)[i]);
    }
    forall i | 0 <= i < upTo && Emitted(s.out, Inbox(s)[i]) ensures Emitted(n.out, Inbox(n)[i]) {}
    if n.base.Some? {
      if s.watermark.None? {
        assert MessagesOf(batch) != [];
        MappedPosts(s.seat, batch, MessagesOf(batch)[0]);
      }
      AdvanceDefined(s.watermark, mapped);
    }
  }

  lemma FinishWatermark(s: System)
    requires Inv(s) && s.phase.Mapping?
    ensures WatermarkOk(Finished(s))
  {
    var n := Finished(s);
    var Mapping(adopted, c, batch, upTo) := s.phase;
    var mapped := MapEvents(s.seat, batch);
    if n.watermark.Some? {
      forall i | upTo <= i < |Inbox(n)| ensures n.watermark.value <= Inbox(n)[i].timestamp {
        FilterChronological(ToSeat(s.seat), s.realm.history);
        forall e | e in mapped && IsMessage(e) ensures e.m.timestamp <= Inbox(s)[i].timestamp {
          MappedOnlyMessages(s.seat, batch, e);
          BatchMember(s, c, batch, upTo, e.m);
        }
        AdvanceBound(s.watermark, mapped, Inbox(s)[i].timestamp);
      }
      FinishWatermarkIsPast(s);
    }
  }

  lemma BatchMember(s: System, c: Cursor, batch: seq<QueuedEvent>, upTo: nat, m: Message)
    requires CursorOk(s, c) && BatchOk(s, c, batch, upTo) && m in MessagesOf(batch)
    ensures exists j :: 0 <= j < upTo && Inbox(s)[j] == m
  {
    SuffixMember(MessagesOf(batch), Inbox(s), upTo, m);
  }

  lemma SuffixMember(end: seq<Message>, all: seq<Message>, upTo: nat, m: Message)
    requires upTo <= |all| && IsSuffix(end, all[..upTo]) && m in end
    ensures exists j :: 0 <= j < upTo && all[j] == m
  {
    var k :| 0 <= k < |end| && end[k] == m;
    assert all[..upTo][upTo - |end| + k] == m;
  }

  lemma FinishWatermarkIsPast(s: System)
    requires Inv(s) && s.phase.Mapping? && Finished(s).watermark.Some?
    ensures s.realm.history != [] && Finished(s).watermark.value <= s.realm.history[|s.realm.history| - 1].timestamp
  {
    var Mapping(adopted, c, batch, upTo) := s.phase;
    var mapped := MapEvents(s.seat, batch);
    forall e | e in mapped && IsMessage(e)
      ensures s.realm.history != [] && e.m.timestamp <= s.realm.history[|s.realm.history| - 1].timestamp
    {
      MappedOnlyMessages(s.seat, batch, e);
      BatchMember(s, c, batch, upTo, e.m);
      var j :| 0 <= j < upTo && Inbox(s)[j] == e.m;
      InboxNotAfterLast(s, j);
    }
    if s.realm.history == [] {
      assert forall e :: e in mapped ==> !IsMessage(e);
      AdvanceBound(s.watermark, mapped, 0);
      NoMessagesNoAdvance(s.watermark, mapped);
    } else {
      AdvanceBound(s.watermark, mapped, s.realm.history[|s.realm.history| - 1].timestamp);
    }
  }

  lemma {:induction false} NoMessagesNoAdvance(w: Option<nat>, events: seq<InboundEvent>)
    requires forall e :: e in events ==> !IsMessage(e)
    ensures AdvanceOver(w, events) == w
    decreases |events|
  {
    if events != [] { NoMessagesNoAdvance(w, events[1..]); }
  }

  /** Appending a mapped batch to an output that ends with the mapping of what precedes it. */
  lemma LiveExtended(seat: UserId, log: seq<QueuedEvent>, out: seq<InboundEvent>, fromEvent: int, fromOut: nat, last: int, end: int)
    requires LiveTail(seat, log, out, fromEvent, fromOut, last) && last <= end < |log|
    ensures LiveTail(seat, log, out + MapEvents(seat, log[last + 1..end + 1]), fromEvent, fromOut, end)
  {
    assert log[fromEvent + 1..end + 1] == log[fromEvent + 1..last + 1] + log[last + 1..end + 1];
    MapEventsConcat(seat, log[fromEvent + 1..last + 1], log[last + 1..end + 1]);
    AppendedTail(out, MapEvents(seat, log[last + 1..end + 1]), fromOut);
  }

  lemma AppendedTail<T>(a: seq<T>, b: seq<T>, k: nat)
    requires k <= |a|
    ensures (a + b)[k..] == a[k..] + b
  {
  }

  /** The mapping of a batch alone is the whole of a stretch that starts with it. */
  lemma LiveStarts(seat: UserId, log: seq<QueuedEvent>, out: seq<InboundEvent>, last: int, end: int)
    requires -1 <= last <= end < |log|
    ensures LiveTail(seat, log, out + MapEvents(seat, log[last + 1..end + 1]), last, |out|, end)
  {
    AppendedTail(out, MapEvents(seat, log[last + 1..end + 1]), |out|);
  }

  /** A finished batch continues the live stretch, or starts one. */
  lemma BatchExtends(seat: UserId, log: seq<QueuedEvent>, out: seq<InboundEvent>, fromEvent: int, fromOut: nat,
                     last: int, end: int, same: bool)
    requires -1 <= last <= end < |log| && (same ==> LiveTail(seat, log, out, fromEvent, fromOut, last))
    ensures LiveTail(seat, log, out + MapEvents(seat, log[last + 1..end + 1]),
                     if same then fromEvent else last, if same then fromOut else |out|, end)
  {
    if same {
      LiveExtended(seat, log, out, fromEvent, fromOut, last, end);
    } else {
      LiveStarts(seat, log, out, last, end);
    }
  }

  lemma FinishedFields(s: System)
    requires s.phase.Mapping?
    ensures var n, c, batch := Finished(s), s.phase.cursor, s.phase.batch;
      var same := s.producer.queue.Some? && s.producer.queue.value.queueId == c.queueId;
      && n.seat == s.seat && n.realm == s.realm && n.log == s.log && n.out == s.out + MapEvents(s.seat, batch)
      && n.synced == s.phase.upTo
      && n.producer.queue == Some(Cursor(c.queueId, MaxId(c.lastEventId, batch)))
      && n.fromEvent == (if same then s.fromEvent else c.lastEventId) && n.fromOut == (if same then s.fromOut else |s.out|)
  {
  }

  lemma ContinuesLive(s: System, n: System, c: Cursor, d: Cursor, same: bool)
    requires c.queueId in s.log && n.seat == s.seat && n.log == s.log
    requires d.queueId == c.queueId && -1 <= c.lastEventId <= d.lastEventId < |s.log[c.queueId]|
    requires n.producer.queue == Some(d)
    requires n.out == s.out + MapEvents(s.seat, s.log[c.queueId][c.lastEventId + 1..d.lastEventId + 1])
    requires same ==> LiveTail(s.seat, s.log[c.queueId], s.out, s.fromEvent, s.fromOut, c.lastEventId)
    requires n.fromEvent == (if same then s.fromEvent else c.lastEventId) && n.fromOut == (if same then s.fromOut else |s.out|)
    ensures LiveOk(n)
  {
    BatchExtends(s.seat, s.log[c.queueId], s.out, s.fromEvent, s.fromOut, c.lastEventId, d.lastEventId, same);
  }

  lemma FinishLive(s: System)
    requires LiveOk(s) && s.phase.Mapping? && PollingOk(s, s.phase.adopted, s.phase.cursor)
    requires Numbered(s.log[s.phase.cursor.queueId]) && s.phase.batch != [] && IsPrefix(s.phase.batch, Unread(s, s.phase.cursor))
    ensures LiveOk(Finished(s))
  {
    var Mapping(adopted, c, batch, upTo) := s.phase;
    FinishedCursor(s, c, batch);
    FinishedFields(s);
    ContinuesLive(s, Finished(s), c, Cursor(c.queueId, MaxId(c.lastEventId, batch)),
                  s.producer.queue.Some? && s.producer.queue.value.queueId == c.queueId);
  }

  lemma FinishProducer(s: System)
    requires Inv(s) && s.phase.Mapping?
    ensures ProducerOk(Finished(s)) && RegistrationOk(Finished(s)) && RealmOk(Finished(s))
  {
    var n, c, batch := Finished(s), s.phase.cursor, s.phase.batch;
    FinishedCursor(s, c, batch);
    FinishedFields(s);
    TakesCursor(s, n, Cursor(c.queueId, MaxId(c.lastEventId, batch)), s.phase.upTo);
    FinishRegistration(s);
  }

  /** The step ends on a cursor of a queue that was sent everything past `upTo`. */
  lemma TakesCursor(s: System, n: System, e: Cursor, upTo: nat)
    requires RealmOk(s) && RealmShared(s, n) && CursorOk(s, e) && upTo <= |Inbox(s)|
    requires e.queueId in s.realm.queues ==> MessagesOf(Unread(s, e)) == Inbox(s)[upTo..]
    requires n.producer.queue == Some(e) && n.synced == upTo
    ensures ProducerOk(n) && RealmOk(n)
  {
    SameRealm(s, n);
    assert CursorOk(n, e) && Unread(n, e) == Unread(s, e);
  }

  lemma FinishRegistration(s: System)
    requires RegistrationOk(s) && s.phase.Mapping? && PollingOk(s, s.phase.adopted, s.phase.cursor)
    ensures RegistrationOk(Finished(s))
  {
    var n := Finished(s);
    if Adopts(n) { assert CursorOk(n, n.registration.value) == CursorOk(s, s.registration.value); }
  }

  lemma FinishKeeps(s: System)
    requires Inv(s) && Enabled(s, Finish)
    ensures Inv(Next(s, Finish))
  {
    FinishProducer(s);
    FinishCovers(s);
    FinishWatermark(s);
    FinishLive(s);
  }

  // ---- recovering from a dead queue ----

  /** A queue is registered and the step put aside. */
  lemma RegisteredIdle(s: System)
    requires Inv(s)
    ensures var g := RegisterQueue(s, s.seat, OWN_EVENT_TYPES).(phase := Idle);
      Inv(g) && ReplacementOk(g, Cursor(g.realm.serial, -1))
  {
    var r := RegisterQueue(s, s.seat, OWN_EVENT_TYPES);
    var g := r.(phase := Idle);
    RegisterGrows(s, s.seat, OWN_EVENT_TYPES);
    FreshCursor(s);
    SameRealm(r, g);
    GrownToSame(s, r, g);
    GrowthKeeps(s, g);
  }

  lemma ReregisterKeeps(s: System)
    requires Inv(s) && Enabled(s, Reregister)
    ensures Inv(Next(s, Reregister))
  {
    var g := RegisterQueue(s, s.seat, OWN_EVENT_TYPES).(phase := Idle);
    RegisteredIdle(s);
    ReregisterFields(s);
    ReplacementTaken(s, g, Next(s, Reregister), Cursor(g.realm.serial, -1));
  }

  lemma ReregisterFields(s: System)
    requires s.phase.Recovering?
    ensures var g, n := RegisterQueue(s, s.seat, OWN_EVENT_TYPES).(phase := Idle), Next(s, Reregister);
      var c := Cursor(g.realm.serial, -1);
      && g.watermark == s.watermark
      && (s.phase.anchor.Some? ==> n == g.(phase := Replaying(c, s.phase.anchor.value)))
      && (s.phase.anchor.None? ==> n == Replaced(g, c, []))
  {
  }

  /** Without a watermark the replacement is polled at once; with one it waits for a replay. */
  lemma ReplacementTaken(s: System, g: System, n: System, c: Cursor)
    requires Inv(g) && g.phase.Idle? && ReplacementOk(g, c) && s.phase == Recovering(g.watermark)
    requires s.phase.anchor.Some? ==> n == g.(phase := Replaying(c, s.phase.anchor.value))
    requires s.phase.anchor.None? ==> n == Replaced(g, c, [])
    ensures Inv(n)
  {
    if s.phase.anchor.Some? {
      PhaseMoved(g, n);
    } else {
      ReplacedKeeps(g, c, []);
    }
  }

  /** Taking up a replacement queue with no claim of continuity. */
  lemma ReplacedKeeps(s: System, c: Cursor, chunk: seq<InboundEvent>)
    requires Inv(s) && ReplacementOk(s, c)
    ensures Inv(Replaced(s, c, chunk).(base := None))
  {
    var n := Replaced(s, c, chunk).(base := None);
    SameRealm(s, n);
    assert n.out[|n.out|..] == [];
    assert n.log[c.queueId][0..0] == [];
  }

  /** A replay snapshot that ran to its end holds every message since its anchor. */
  lemma SnapshotIsKept(h: seq<Message>, since: nat)
    requires Ascending(h) && Chronological(h) && !ReplaySnapshot(h, since).spent
    ensures ReplaySnapshot(h, since).results == HistoryPaging.Kept(ReplayOptions(since).window, h)
  {
    var o := ReplayOptions(since);
    HistoryPaging.ReadWindowExact(o, seq(HISTORY_MAX_PAGES, _ => h));
    assert MapSeq(o.onRow, HistoryPaging.Kept(o.window, h)) == HistoryPaging.Kept(o.window, h);
  }

  /** A replay is cut short by its page budget exactly when the realm holds more than 19000
      messages and none of the newest 20000 is older than the watermark; it holds what of
      those is not, in any case. */
  lemma ReplaySpentIff(h: seq<Message>, since: nat)
    requires Ascending(h)
    ensures ReplaySnapshot(h, since).spent <==>
      |h| > 19000 && forall m :: m in TakeLast(h, 20000) ==> since <= m.timestamp
    ensures Chronological(h) ==>
      ReplaySnapshot(h, since).results == HistoryPaging.Kept(ReplayOptions(since).window, TakeLast(h, 20000))
  {
    var o, world := ReplayOptions(since), seq(HISTORY_MAX_PAGES, _ => h);
    var rows := TakeLast(h, 20000);
    assert o.pageSize * o.maxPages == 20000 && o.pageSize * (o.maxPages - 1) == 19000;
    assert world[0] == h;
    HistoryPaging.SpentIff(o, world);
    if Chronological(h) {
      HistoryPaging.ReadWindowClosed(o, world);
      assert MapSeq(o.onRow, HistoryPaging.Kept(o.window, rows)) == HistoryPaging.Kept(o.window, rows);
    }
  }

  lemma SnapshotHoldsGap(s: System)
    requires Inv(s) && s.phase.Replaying? && !ReplaySnapshot(s.realm.history, s.phase.since).spent
    ensures forall i :: s.synced <= i < |Inbox(s)| ==> Inbox(s)[i] in ReplaySnapshot(s.realm.history, s.phase.since).results
  {
    SnapshotIsKept(s.realm.history, s.phase.since);
    UnseenIsKept(s, s.phase.since);
  }

  lemma UnseenIsKept(s: System, since: nat)
    requires HistoryOk(s.realm) && WatermarkOk(s) && s.watermark == Some(since)
    ensures forall i :: s.synced <= i < |Inbox(s)| ==> Inbox(s)[i] in HistoryPaging.Kept(ReplayOptions(since).window, s.realm.history)
  {
    forall i | s.synced <= i < |Inbox(s)| ensures Inbox(s)[i] in HistoryPaging.Kept(ReplayOptions(since).window, s.realm.history) {
      InboxIsKept(s, since, i);
    }
  }

  lemma InboxIsKept(s: System, since: nat, i: nat)
    requires HistoryOk(s.realm) && WatermarkOk(s) && s.watermark == Some(since) && s.synced <= i < |Inbox(s)|
    ensures Inbox(s)[i] in HistoryPaging.Kept(ReplayOptions(since).window, s.realm.history)
  {
    InboxNotAfterLast(s, i);
    FilterMember(HistoryPaging.Within(ReplayOptions(since).window), s.realm.history, Inbox(s)[i]);
  }

  lemma SnapshotKeeps(s: System)
    requires Inv(s) && Enabled(s, Snapshot)
    ensures Inv(Next(s, Snapshot))
  {
    var reading := ReplaySnapshot(s.realm.history, s.phase.since);
    if !reading.spent { SnapshotHoldsGap(s); }
    SnapshotTaken(s, Next(s, Snapshot), reading.results, !reading.spent);
  }

  lemma SnapshotTaken(s: System, n: System, gap: seq<Message>, whole: bool)
    requires Inv(s) && s.phase.Replaying?
    requires n == s.(phase := Backfilling(s.phase.replacement, gap, whole, |Inbox(s)|))
    requires whole ==> forall i :: s.synced <= i < |Inbox(s)| ==> Inbox(s)[i] in gap
    ensures Inv(n)
  {
    SameRealm(s, n);
    PhaseMoved(s, n);
  }

  lemma BackfillKeeps(s: System)
    requires Inv(s) && Enabled(s, Backfill)
    ensures Inv(Next(s, Backfill))
  {
    var n := Next(s, Backfill);
    var Backfilling(c, gap, whole, upTo) := s.phase;
    SameRealm(s, n);
    assert n.out[|n.out|..] == [] && n.log[c.queueId][0..0] == [];
    if n.base.Some? {
      forall i | n.base.value <= i < upTo ensures Emitted(n.out, Inbox(n)[i]) {
        if s.synced <= i {
          ReplayedPosts(s.seat, gap, Inbox(s)[i]);
        } else {
          assert Emitted(s.out, Inbox(s)[i]);
        }
      }
    }
  }

  lemma ReplayFailKeeps(s: System)
    requires Inv(s) && Enabled(s, ReplayFail)
    ensures Inv(Next(s, ReplayFail))
  {
    ReplacedKeeps(s, s.phase.replacement, []);
  }

  // ---- every action ----

  lemma NextKeeps(s: System, a: Action)
    requires Inv(s) && Enabled(s, a)
    ensures Inv(Next(s, a))
  {
    match a
    case Post(draft) => PostKeeps(s, draft);
    case Broadcast(audience, kind, body) => BroadcastKeeps(s, audience, kind, body);
    case RegisterOther(owner, eventTypes) => RegisterOtherKeeps(s, owner, eventTypes);
    case Drop(id) => DropKeeps(s, id);
    case Subscribe => SubscribeKeeps(s);
    case Begin => BeginKeeps(s);
    case LazyRegister => LazyRegisterKeeps(s);
    case Poll => PollKeeps(s);
    case Finish => FinishKeeps(s);
    case Fail => FailKeeps(s);
    case Reregister => ReregisterKeeps(s);
    case Snapshot => SnapshotKeeps(s);
    case Backfill => BackfillKeeps(s);
    case ReplayFail => ReplayFailKeeps(s);
  }

  lemma {:induction false} RunKeeps(s: System, actions: seq<Action>)
    requires Inv(s) && Runs(s, actions)
    ensures Inv(Run(s, actions))
    decreases |actions|
  {
    if actions != [] {
      NextKeeps(s, actions[0]);
      RunKeeps(Next(s, actions[0]), actions[1..]);
    }
  }
}
