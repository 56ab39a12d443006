/** No message is handed to the notifier twice over a whole run, as long as every replay
    fits the dedup log: what the producer repeats, the log still holds. */
module OnceOnly {
  import opened Core
  import opened Realm
  import opened Producer
  import opened DeliveryInvariant
  import opened DeliverySteps
  import opened DeliveryFinish
  import opened Delivery
  import opened Registration
  import opened Adoption
  import opened Forgotten
  import opened EventPump
  import opened PumpPasses
  import HistoryPaging

  /** The ids handed to the notifier so far. */
  function Told(d: Deps, s: System): seq<nat> { Fresh(d, s.out) }

  /** Each was a wanted message's, and they were told in the order of their timestamps. */
  ghost predicate ToldWell(d: Deps, history: seq<Message>, told: seq<nat>) {
    && Distinct(told)
    && (forall id :: id in told ==> exists m :: m in history && m.id == id && Wanted(d, m))
    && (forall i, j, x, y :: 0 <= i < j < |told| && x in history && y in history && x.id == told[i] && y.id == told[j] ==>
          x.timestamp <= y.timestamp)
  }

  /** What was told is behind the watermark or was in a replay of the first `h` messages, and
      of those the wanted ones not behind the watermark were all told. */
  predicate Horizon(d: Deps, history: seq<Message>, told: seq<nat>, watermark: Option<nat>, h: nat) {
    && h <= |history|
    && (told != [] || h > 0 ==> watermark.Some?)
    && (forall x :: x in history && x.id in told ==> (watermark.Some? && x.timestamp <= watermark.value) || x in history[..h])
    && (forall x :: x in history[..h] && Wanted(d, x) && watermark.Some? && watermark.value <= x.timestamp ==> x.id in told)
  }

  function UnreadStart(s: System, c: Cursor): int
    requires CursorOk(s, c)
  {
    |Inbox(s)| - |MessagesOf(Unread(s, c))|
  }

  /** Of the inbox from `from` on, what the last completed poll or snapshot had seen is still
      in the log, if anything was told at all. */
  predicate HeldFrom(d: Deps, s: System, from: int) {
    s.out == [] || forall i :: from <= i < s.synced && 0 <= i < |Inbox(s)| && Wanted(d, Inbox(s)[i]) ==> Inbox(s)[i].id in Log(Told(d, s))
  }

  predicate QueueHeld(d: Deps, s: System, c: Cursor) {
    CursorOk(s, c) && c.queueId in s.realm.queues ==> HeldFrom(d, s, UnreadStart(s, c))
  }

  /** The queue was registered no earlier than the last completed poll or snapshot. */
  predicate StartsAfter(s: System, c: Cursor) {
    CursorOk(s, c) && c.queueId in s.realm.queues ==> s.synced <= UnreadStart(s, c)
  }

  predicate Own(s: System, c: Cursor) { s.producer.queue.None? || s.producer.queue == Some(c) }

  /** The replay in hand is the whole window of the first `g` messages and fits the log. */
  predicate GapFits(d: Deps, s: System, gap: seq<Message>, upTo: nat, g: nat) {
    && s.watermark.Some? && g <= |s.realm.history|
    && gap == HistoryPaging.Kept(ReplayOptions(s.watermark.value).window, s.realm.history[..g])
    && |WantedIds(d, gap)| <= SEEN_DELIVERED_CAPACITY
    && (forall x :: x in s.realm.history && x.id in Told(d, s) ==> x in s.realm.history[..g])
  }

  predicate StepFits(d: Deps, s: System, h: nat, g: nat) {
    match s.phase
    case Mapping(_, c, batch, upTo) => Own(s, c) ==> HeldFrom(d, s, upTo - |MessagesOf(batch)|)
    case Replaying(c, _) => StartsAfter(s, c)
    case Backfilling(c, gap, whole, upTo) => whole && StartsAfter(s, c) && GapFits(d, s, gap, upTo, g) && h <= g
    case _ => true
  }

  ghost predicate Once(d: Deps, s: System, h: nat, g: nat) {
    && PromptRepeats(d, s.out) && ToldWell(d, s.realm.history, Told(d, s))
    && Horizon(d, s.realm.history, Told(d, s), s.watermark, h)
    && (s.producer.queue.None? ==> s.out == [])
    && (s.producer.queue.Some? ==> QueueHeld(d, s, s.producer.queue.value))
    && StepFits(d, s, h, g)
  }

  // ---- ids and messages ----

  lemma SameId(history: seq<Message>, x: Message, y: Message)
    requires Ascending(history) && x in history && y in history && x.id == y.id
    ensures x == y
  {
    var i :| 0 <= i < |history| && history[i] == x;
    var j :| 0 <= j < |history| && history[j] == y;
  }

  lemma {:induction false} ToldWasSpoken(d: Deps, events: seq<InboundEvent>, id: nat)
    requires id in Fresh(d, events)
    ensures exists e :: e in events && IsMessage(e) && Wanted(d, e.m) && e.m.id == id
  {
    if events != [] {
      var before, last := events[..|events| - 1], events[|events| - 1];
      assert events == before + [last];
      FreshStep(d, before, last);
      if id in Fresh(d, before) {
        ToldWasSpoken(d, before, id);
        var e :| e in before && IsMessage(e) && Wanted(d, e.m) && e.m.id == id;
        assert e in events;
      }
    }
  }

  lemma {:induction false} WantedIdsOf(d: Deps, ms: seq<Message>)
    ensures forall id :: id in WantedIds(d, ms) <==> exists m :: m in ms && m.id == id && Wanted(d, m)
  {
    if ms != [] {
      WantedIdsOf(d, ms[1..]);
      assert ms == [ms[0]] + ms[1..];
      forall id ensures id in WantedIds(d, ms) <==> exists m :: m in ms && m.id == id && Wanted(d, m) {
        if m :| m in ms && m.id == id && Wanted(d, m) {
          assert m == ms[0] || m in ms[1..];
        }
        if id in WantedIds(d, ms[1..]) {
          var m :| m in ms[1..] && m.id == id && Wanted(d, m);
          assert m in ms;
        }
      }
    }
  }

  /** Ids in order are messages in order. */
  lemma {:induction false} WantedInOrder(d: Deps, ms: seq<Message>, p: nat, q: nat) returns (i: nat, j: nat)
    requires p < q < |WantedIds(d, ms)|
    ensures i < j < |ms| && ms[i].id == WantedIds(d, ms)[p] && ms[j].id == WantedIds(d, ms)[q]
  {
    var rest, ids := ms[1..], WantedIds(d, ms);
    if Wanted(d, ms[0]) {
      assert ids == [ms[0].id] + WantedIds(d, rest);
      if p == 0 {
        i := 0;
        j := WantedAt(d, rest, q - 1);
        j := j + 1;
      } else {
        i, j := WantedInOrder(d, rest, p - 1, q - 1);
        i, j := i + 1, j + 1;
      }
    } else {
      assert ids == WantedIds(d, rest);
      i, j := WantedInOrder(d, rest, p, q);
      i, j := i + 1, j + 1;
    }
  }

  lemma {:induction false} WantedAt(d: Deps, ms: seq<Message>, q: nat) returns (j: nat)
    requires q < |WantedIds(d, ms)|
    ensures j < |ms| && ms[j].id == WantedIds(d, ms)[q] && Wanted(d, ms[j])
  {
    var rest := ms[1..];
    if Wanted(d, ms[0]) && q == 0 {
      j := 0;
    } else {
      j := WantedAt(d, rest, if Wanted(d, ms[0]) then q - 1 else q);
      j := j + 1;
    }
  }

  lemma WantedDistinct(d: Deps, ms: seq<Message>)
    requires Ascending(ms)
    ensures Distinct(WantedIds(d, ms))
  {
    var ids := WantedIds(d, ms);
    forall p, q | 0 <= p < q < |ids| ensures ids[p] != ids[q] {
      var i, j := WantedInOrder(d, ms, p, q);
    }
  }

  // ---- what a chunk adds is later than what was told ----

  lemma LaterThanTold(d: Deps, history: seq<Message>, told: seq<nat>, watermark: Option<nat>, h: nat, y: Message)
    requires Ascending(history) && Chronological(history) && Horizon(d, history, told, watermark, h)
    requires y in history && Wanted(d, y) && y.id !in told && (watermark.Some? ==> watermark.value <= y.timestamp)
    ensures forall x :: x in history && x.id in told ==> x.timestamp <= y.timestamp
  {
    forall x | x in history && x.id in told ensures x.timestamp <= y.timestamp {
      if !(x.timestamp <= watermark.value) {
        assert x in history[..h] && y !in history[..h];
        InOrderOfStorage(history, h, x, y);
      }
    }
  }

  lemma InOrderOfStorage(history: seq<Message>, h: nat, x: Message, y: Message)
    requires Chronological(history) && h <= |history| && x in history[..h] && y in history && y !in history[..h]
    ensures x.timestamp <= y.timestamp
  {
    var i :| 0 <= i < h && history[..h][i] == x;
    var j :| 0 <= j < |history| && history[j] == y;
    forall k | 0 <= k < h ensures history[k] != y { assert history[..h][k] == history[k]; }
    assert history[i] == x;
  }

  /** Telling more of these rows, in their order, keeps what was told well told. */
  lemma ToldMore(d: Deps, history: seq<Message>, told: seq<nat>, after: seq<nat>, rows: seq<Message>)
    requires Ascending(history) && Chronological(rows) && ToldWell(d, history, told) && Gained(told, after, WantedIds(d, rows))
    requires forall m :: m in rows ==> m in history
    requires forall x, y :: x in history && x.id in told && y in rows && Wanted(d, y) && y.id !in told ==> x.timestamp <= y.timestamp
    ensures ToldWell(d, history, after)
  {
    var ids := WantedIds(d, rows);
    WantedIdsOf(d, rows);
    forall id | id in after ensures exists m :: m in history && m.id == id && Wanted(d, m) {
      var i :| 0 <= i < |after| && after[i] == id;
      if i < |told| {
        assert told[i] == after[..|told|][i] == id;
        assert id in told;
      } else {
        assert id in ids;
        var m :| m in rows && m.id == id && Wanted(d, m);
        assert m in history;
      }
    }
    forall i, j, x, y | 0 <= i < j < |after| && x in history && y in history && x.id == after[i] && y.id == after[j]
      ensures x.timestamp <= y.timestamp
    {
      PairInOrder(d, history, told, after, rows, i, j, x, y);
    }
  }

  lemma PairInOrder(d: Deps, history: seq<Message>, told: seq<nat>, after: seq<nat>, rows: seq<Message>,
                    i: nat, j: nat, x: Message, y: Message)
    requires Ascending(history) && Chronological(rows) && ToldWell(d, history, told) && Gained(told, after, WantedIds(d, rows))
    requires forall m :: m in rows ==> m in history
    requires forall u, v :: u in history && u.id in told && v in rows && Wanted(d, v) && v.id !in told ==> u.timestamp <= v.timestamp
    requires i < j < |after| && x in history && y in history && x.id == after[i] && y.id == after[j]
    ensures x.timestamp <= y.timestamp
  {
    if j < |told| {
      assert told[i] == x.id && told[j] == y.id;
    } else if i < |told| {
      assert told[i] == x.id;
      WantedIdsOf(d, rows);
      var v :| v in rows && v.id == after[j] && Wanted(d, v);
      SameId(history, v, y);
      assert y.id !in told by { forall k | 0 <= k < |told| ensures told[k] != y.id { assert after[k] == told[k]; } }
    } else {
      var p, q :| 0 <= p < q < |WantedIds(d, rows)| && WantedIds(d, rows)[p] == after[i] && WantedIds(d, rows)[q] == after[j];
      var k, l := WantedInOrder(d, rows, p, q);
      SameId(history, rows[k], x);
      SameId(history, rows[l], y);
    }
  }

  // ---- steps that hand nothing on ----

  lemma NewIsUntold(d: Deps, history: seq<Message>, told: seq<nat>, m: Message)
    requires ToldWell(d, history, told) && forall x :: x in history ==> x.id < m.id
    ensures m.id !in told
  {
  }

  /** Storing one more message leaves what was told well told. */
  lemma StoredWell(d: Deps, history: seq<Message>, told: seq<nat>, m: Message)
    requires ToldWell(d, history, told) && forall x :: x in history ==> x.id < m.id
    ensures ToldWell(d, history + [m], told)
  {
    NewIsUntold(d, history, told, m);
    forall id | id in told ensures exists x :: x in history + [m] && x.id == id && Wanted(d, x) {
      var x :| x in history && x.id == id && Wanted(d, x);
      assert x in history + [m];
    }
    forall i, j, x, y | 0 <= i < j < |told| && x in history + [m] && y in history + [m] && x.id == told[i] && y.id == told[j]
      ensures x.timestamp <= y.timestamp
    {
      assert x in history && y in history;
    }
  }

  lemma StoredHorizon(d: Deps, history: seq<Message>, told: seq<nat>, watermark: Option<nat>, h: nat, m: Message)
    requires ToldWell(d, history, told) && Horizon(d, history, told, watermark, h)
    requires forall x :: x in history ==> x.id < m.id
    ensures Horizon(d, history + [m], told, watermark, h)
  {
    NewIsUntold(d, history, told, m);
    assert (history + [m])[..h] == history[..h];
  }

  // ---- where a live queue starts ----

  lemma GrownStart(s: System, n: System, c: Cursor)
    requires Grown(s, n) && CursorOk(s, c) && c.queueId in n.realm.queues
    ensures c.queueId in s.realm.queues && CursorOk(n, c) && UnreadStart(n, c) == UnreadStart(s, c)
  {
    CursorKept(s, n, c);
    assert c.queueId in s.log;
  }

  lemma PolledStart(s: System, n: System, c: Cursor, e: Cursor)
    requires RealmOk(s) && CursorOk(s, c) && c.queueId in s.realm.queues && PollsTo(s, n, c)
    requires CursorOk(s, e) && (e.queueId == c.queueId ==> e == c)
    ensures CursorOk(n, e) && UnreadStart(n, e) == UnreadStart(s, e)
  {
    PolledCursor(s, n, c, e);
    PolledRealmOk(s, n, c);
  }

  lemma UnloggedStart(s: System, a: Action, c: Cursor)
    requires Inv(s) && Enabled(s, a) && CursorOk(s, c) && c.queueId in Next(s, a).realm.queues
    requires !a.Post? && !a.Broadcast? && !a.Poll?
    ensures c.queueId in s.realm.queues && CursorOk(Next(s, a), c) && UnreadStart(Next(s, a), c) == UnreadStart(s, c)
  {
    KeepsLog(s, a, c.queueId);
    SameQueueAfter(s, a, c.queueId);
    assert Next(s, a).realm.history == s.realm.history;
  }

  lemma SameQueueAfter(s: System, a: Action, id: QueueId)
    requires Inv(s) && Enabled(s, a) && id in s.log && id in Next(s, a).realm.queues && !a.Post? && !a.Broadcast? && !a.Poll?
    ensures id in s.realm.queues && Next(s, a).realm.queues[id] == s.realm.queues[id]
  {
    assert id <= s.realm.serial;
  }

  /** No action moves where a live queue starts, but for handing on its own batch. */
  lemma StartKept(s: System, a: Action, c: Cursor)
    requires Inv(s) && Enabled(s, a) && CursorOk(s, c) && c.queueId in Next(s, a).realm.queues
    requires a.Poll? && s.phase.cursor.queueId == c.queueId ==> s.phase.cursor == c
    ensures c.queueId in s.realm.queues && CursorOk(Next(s, a), c) && UnreadStart(Next(s, a), c) == UnreadStart(s, c)
  {
    match a
    case Post(draft) =>
      PostGrows(s, draft);
      GrownStart(s, Next(s, a), c);
    case Broadcast(audience, kind, body) =>
      DeliveredGrows(s, Next(s, a), audience, kind, body, []);
      GrownStart(s, Next(s, a), c);
    case Poll =>
      if OwnsQueue(s.realm, s.seat, s.phase.cursor.queueId) {
        PollAnswers(s, s.phase.cursor);
        PolledStart(s, Next(s, a), s.phase.cursor, c);
      }
    case _ => UnloggedStart(s, a, c);
  }

  // ---- the steps that hand nothing on keep it ----

  lemma HeldSame(d: Deps, s: System, n: System, from: int)
    requires HeldFrom(d, s, from) && n.out == s.out && n.synced == s.synced && s.synced <= |Inbox(s)|
    requires IsPrefix(Inbox(s), Inbox(n))
    ensures HeldFrom(d, n, from)
  {
    assert forall i :: 0 <= i < |Inbox(s)| ==> Inbox(n)[i] == Inbox(s)[i];
  }

  lemma NothingHeld(d: Deps, n: System, from: int)
    requires n.synced <= from
    ensures HeldFrom(d, n, from)
  {
  }

  /** What every step that hands nothing on does to the record of what was told. */
  lemma RecordKept(d: Deps, s: System, a: Action, h: nat)
    requires Inv(s) && Enabled(s, a) && ToldWell(d, s.realm.history, Told(d, s))
    requires Horizon(d, s.realm.history, Told(d, s), s.watermark, h)
    requires Next(s, a).out == s.out && Next(s, a).watermark == s.watermark
    ensures ToldWell(d, Next(s, a).realm.history, Told(d, Next(s, a)))
    ensures Horizon(d, Next(s, a).realm.history, Told(d, Next(s, a)), Next(s, a).watermark, h)
  {
    if a.Post? {
      var m := a.draft.(id := s.realm.serial + 1);
      PostHistory(s, a.draft);
      StoredWell(d, s.realm.history, Told(d, s), m);
      StoredHorizon(d, s.realm.history, Told(d, s), s.watermark, h, m);
    } else {
      assert Next(s, a).realm.history == s.realm.history;
    }
  }

  lemma QueueStays(d: Deps, s: System, a: Action, c: Cursor)
    requires Inv(s) && Enabled(s, a) && CursorOk(s, c) && QueueHeld(d, s, c)
    requires a.Poll? && s.phase.cursor.queueId == c.queueId ==> s.phase.cursor == c
    requires Next(s, a).out == s.out && Next(s, a).synced == s.synced
    ensures QueueHeld(d, Next(s, a), c)
  {
    var n := Next(s, a);
    if CursorOk(n, c) && c.queueId in n.realm.queues {
      StartKept(s, a, c);
      StepGains(s, a);
      HeldSame(d, s, n, UnreadStart(s, c));
    }
  }

  lemma StartStays(s: System, a: Action, c: Cursor)
    requires Inv(s) && Enabled(s, a) && CursorOk(s, c) && StartsAfter(s, c) && !a.Poll? && Next(s, a).synced == s.synced
    ensures StartsAfter(Next(s, a), c)
  {
    if CursorOk(Next(s, a), c) && c.queueId in Next(s, a).realm.queues { StartKept(s, a, c); }
  }

  lemma GapMore(d: Deps, s: System, n: System, stored: seq<Message>, gap: seq<Message>, upTo: nat, g: nat)
    requires GapFits(d, s, gap, upTo, g) && n.watermark == s.watermark && n.out == s.out
    requires n.realm.history == s.realm.history + stored && forall m :: m in stored ==> m.id !in Told(d, s)
    ensures GapFits(d, n, gap, upTo, g)
  {
    assert n.realm.history[..g] == s.realm.history[..g];
  }

  lemma GapStays(d: Deps, s: System, a: Action, gap: seq<Message>, upTo: nat, g: nat)
    requires Inv(s) && Enabled(s, a) && GapFits(d, s, gap, upTo, g) && ToldWell(d, s.realm.history, Told(d, s))
    requires Next(s, a).out == s.out && Next(s, a).watermark == s.watermark
    ensures GapFits(d, Next(s, a), gap, upTo, g)
  {
    if a.Post? {
      var m := a.draft.(id := s.realm.serial + 1);
      PostHistory(s, a.draft);
      NewIsUntold(d, s.realm.history, Told(d, s), m);
      GapMore(d, s, Next(s, a), [m], gap, upTo, g);
    } else {
      KeepsHistory(s, a);
      assert s.realm.history + [] == s.realm.history;
      GapMore(d, s, Next(s, a), [], gap, upTo, g);
    }
  }

  lemma KeepsHistory(s: System, a: Action)
    requires Enabled(s, a) && !a.Post?
    ensures Next(s, a).realm.history == s.realm.history
  {
  }

  lemma RealmKeepsOnce(d: Deps, s: System, a: Action, h: nat, g: nat)
    requires Inv(s) && Enabled(s, a) && IsRealmAction(a) && Once(d, s, h, g)
    ensures Once(d, Next(s, a), h, g)
  {
    var n := Next(s, a);
    RealmShape(s, a);
    RealmSynced(s, a);
    RecordKept(d, s, a, h);
    if s.producer.queue.Some? { QueueStays(d, s, a, s.producer.queue.value); }
    StepStays(d, s, a, h, g);
  }

  lemma RealmSynced(s: System, a: Action)
    requires Enabled(s, a) && IsRealmAction(a)
    ensures Next(s, a).synced == s.synced
  {
  }

  lemma StepStays(d: Deps, s: System, a: Action, h: nat, g: nat)
    requires Inv(s) && Enabled(s, a) && StepFits(d, s, h, g) && ToldWell(d, s.realm.history, Told(d, s))
    requires var n := Next(s, a);
      !a.Poll? && n.phase == s.phase && n.producer == s.producer && n.out == s.out && n.watermark == s.watermark && n.synced == s.synced
    ensures StepFits(d, Next(s, a), h, g)
  {
    var n := Next(s, a);
    match s.phase
    case Mapping(_, c, batch, upTo) =>
      StepGains(s, a);
      if Own(s, c) { HeldSame(d, s, n, upTo - |MessagesOf(batch)|); }
    case Replaying(c, _) => StartStays(s, a, c);
    case Backfilling(c, gap, whole, upTo) =>
      StartStays(s, a, c);
      GapStays(d, s, a, gap, upTo, g);
    case _ =>
  }

  lemma QuietKeepsOnce(d: Deps, s: System, a: Action, h: nat, g: nat)
    requires Inv(s) && Enabled(s, a) && Once(d, s, h, g) && (a.Begin? || a.LazyRegister? || a.Poll? || a.Fail?)
    ensures Once(d, Next(s, a), h, g)
  {
    var n := Next(s, a);
    QuietShape(s, a);
    QuietSynced(s, a);
    RecordKept(d, s, a, h);
    if s.producer.queue.Some? { QueueStays(d, s, a, s.producer.queue.value); }
    if a.Poll? && n.phase.Mapping? && Own(s, s.phase.cursor) { PolledHeld(d, s); }
  }

  lemma QuietSynced(s: System, a: Action)
    requires Enabled(s, a) && (a.Begin? || a.LazyRegister? || a.Poll? || a.Fail?)
    ensures Next(s, a).synced == s.synced
    ensures !a.Poll? ==> !Next(s, a).phase.Mapping? && !Next(s, a).phase.Replaying? && !Next(s, a).phase.Backfilling?
  {
  }

  /** The batch a poll takes starts where its queue did. */
  lemma PolledHeld(d: Deps, s: System)
    requires Inv(s) && Enabled(s, Poll) && Next(s, Poll).phase.Mapping? && Own(s, s.phase.cursor)
    requires s.producer.queue.None? ==> s.out == []
    requires s.producer.queue.Some? ==> QueueHeld(d, s, s.producer.queue.value)
    ensures var n := Next(s, Poll); HeldFrom(d, n, n.phase.upTo - |MessagesOf(n.phase.batch)|)
  {
    var n, c := Next(s, Poll), s.phase.cursor;
    PollAnswers(s, c);
    PolledStart(s, n, c, c);
    PolledRealmOk(s, n, c);
    if s.producer.queue.Some? { HeldSame(d, s, n, UnreadStart(s, c)); }
  }

  lemma NewQueueStart(n: System, c: Cursor)
    requires c.queueId in n.log && n.log[c.queueId] == [] && n.synced <= |Inbox(n)|
    ensures StartsAfter(n, c)
    ensures CursorOk(n, c) ==> UnreadStart(n, c) == |Inbox(n)|
  {
    if CursorOk(n, c) { assert Unread(n, c) == []; }
  }

  lemma ReregisterKeepsOnce(d: Deps, s: System, h: nat, g: nat)
    requires Inv(s) && Enabled(s, Reregister) && Once(d, s, h, g)
    ensures Once(d, Next(s, Reregister), h, g)
  {
    var n := Next(s, Reregister);
    ReregisterShape(s);
    RecordKept(d, s, Reregister, h);
    StepGains(s, Reregister);
    NewQueueStart(n, Cursor(n.realm.serial, -1));
    if n.phase.Replaying? && s.producer.queue.Some? { QueueStays(d, s, Reregister, s.producer.queue.value); }
  }

  lemma ReregisterShape(s: System)
    requires Enabled(s, Reregister)
    ensures var n := Next(s, Reregister);
      && n.out == s.out && n.watermark == s.watermark && n.synced == s.synced
      && n.realm.serial in n.log && n.log[n.realm.serial] == []
      && (if s.phase.anchor.Some? then n.phase.Replaying? && n.phase.replacement == Cursor(n.realm.serial, -1) && n.producer == s.producer
          else n.phase.Idle? && n.producer.queue == Some(Cursor(n.realm.serial, -1)))
  {
    assert s.out + [] == s.out;
  }

  /** The replay of a snapshot is read in full and its wanted messages fit the log. */
  predicate ReplayFits(d: Deps, history: seq<Message>, since: nat) {
    var reading := ReplaySnapshot(history, since);
    !reading.spent && |WantedIds(d, reading.results)| <= SEEN_DELIVERED_CAPACITY
  }

  lemma SnapshotFitting(d: Deps, s: System) returns (gap: seq<Message>)
    requires HistoryOk(s.realm) && s.phase.Replaying? && ReplayFits(d, s.realm.history, s.phase.since)
    ensures Next(s, Snapshot) == s.(phase := Backfilling(s.phase.replacement, gap, true, |Inbox(s)|))
    ensures gap == HistoryPaging.Kept(ReplayOptions(s.phase.since).window, s.realm.history)
    ensures |WantedIds(d, gap)| <= SEEN_DELIVERED_CAPACITY
  {
    gap := ReplaySnapshot(s.realm.history, s.phase.since).results;
    SnapshotShape(s);
    SnapshotIsWhole(s);
    SnapshotIsKept(s.realm.history, s.phase.since);
  }

  lemma SnapshotKeepsOnce(d: Deps, s: System, h: nat, g: nat)
    requires Inv(s) && Enabled(s, Snapshot) && Once(d, s, h, g) && ReplayFits(d, s.realm.history, s.phase.since)
    ensures Once(d, Next(s, Snapshot), h, |s.realm.history|)
  {
    var gap := SnapshotFitting(d, s);
    GapTaken(d, s, Next(s, Snapshot), h, g, gap);
  }

  lemma GapTaken(d: Deps, s: System, n: System, h: nat, g: nat, gap: seq<Message>)
    requires s.phase.Replaying? && s.watermark == Some(s.phase.since) && Once(d, s, h, g)
    requires n == s.(phase := Backfilling(s.phase.replacement, gap, true, |Inbox(s)|))
    requires gap == HistoryPaging.Kept(ReplayOptions(s.phase.since).window, s.realm.history)
    requires |WantedIds(d, gap)| <= SEEN_DELIVERED_CAPACITY
    ensures Once(d, n, h, |s.realm.history|)
  {
    assert Inbox(n) == Inbox(s);
    assert s.realm.history[..|s.realm.history|] == s.realm.history;
    PhaseAside(d, s, n, s.phase.replacement);
    if s.producer.queue.Some? { PhaseAside(d, s, n, s.producer.queue.value); }
  }

  /** What is held of a queue does not depend on the step in progress. */
  lemma PhaseAside(d: Deps, s: System, n: System, c: Cursor)
    requires n == s.(phase := n.phase)
    ensures QueueHeld(d, s, c) ==> QueueHeld(d, n, c)
    ensures StartsAfter(s, c) ==> StartsAfter(n, c)
  {
    assert CursorOk(n, c) == CursorOk(s, c) && Inbox(n) == Inbox(s);
  }

  lemma SnapshotIsWhole(s: System)
    requires s.phase.Replaying?
    ensures Next(s, Snapshot).phase.Backfilling?
    ensures Next(s, Snapshot).phase.whole == !ReplaySnapshot(s.realm.history, s.phase.since).spent
    ensures Next(s, Snapshot).phase.upTo == |Inbox(s)|
  {
  }

  lemma ReplayFailKeepsOnce(d: Deps, s: System, h: nat, g: nat)
    requires Inv(s) && Enabled(s, ReplayFail) && Once(d, s, h, g)
    ensures Once(d, Next(s, ReplayFail), h, g)
  {
    var n, c := Next(s, ReplayFail), s.phase.replacement;
    assert s.out + [] == s.out;
    RecordKept(d, s, ReplayFail, h);
    StartStays(s, ReplayFail, c);
    if CursorOk(n, c) && c.queueId in n.realm.queues { NothingHeld(d, n, UnreadStart(n, c)); }
  }

  // ---- handing on a live batch ----

  lemma BatchIsStretch(s: System)
    requires Inv(s) && s.phase.Mapping?
    ensures 0 <= StartOf(s) <= s.phase.upTo <= |Inbox(s)|
    ensures MessagesOf(s.phase.batch) == Inbox(s)[StartOf(s)..s.phase.upTo]
  {
    var upTo, from := s.phase.upTo, StartOf(s);
    assert Inbox(s)[..upTo][from..] == Inbox(s)[from..upTo];
  }

  lemma Appended(told: seq<nat>, held: seq<nat>, new': seq<nat>)
    requires Distinct(told) && Distinct(new') && forall i :: 0 <= i < |new'| ==> new'[i] !in told
    requires forall i :: 0 <= i < |held| ==> held[i] in told
    ensures Gained(told, told + new', held + new')
  {
    var after, ids := told + new', held + new';
    forall i | 0 <= i < |ids| ensures ids[i] in after { if i >= |held| { assert ids[i] == after[|told| + i - |held|]; } }
    forall i | |told| <= i < |after| ensures after[i] in ids { assert after[i] == ids[|held| + i - |told|]; }
    forall i, j | |told| <= i < j < |after| ensures Before(ids, after[i], after[j]) {
      assert ids[|held| + i - |told|] == after[i] && ids[|held| + j - |told|] == after[j];
    }
  }

  /** A stretch of the inbox is handed on: up to `cut` the log holds it or nothing was told,
      and the rest was never told. */
  lemma StretchPasses(d: Deps, told: seq<nat>, inbox: seq<Message>, from: nat, cut: nat, upTo: nat)
    requires Ascending(inbox) && Distinct(told) && from <= cut <= upTo <= |inbox|
    requires forall i :: cut <= i < upTo && Wanted(d, inbox[i]) ==> inbox[i].id !in told
    requires told == [] || forall i :: from <= i < cut && Wanted(d, inbox[i]) ==> inbox[i].id in Log(told)
    ensures var ids := WantedIds(d, inbox[from..upTo]); PromptPass(told, ids) && Gained(told, Pass(told, ids), ids)
  {
    if told == [] {
      var ids := WantedIds(d, inbox[from..upTo]);
      WantedDistinct(d, inbox[from..upTo]);
      PassOverNew(told, ids);
      Appended(told, [], ids);
      assert [] + ids == ids;
    } else {
      var held, rest := WantedIds(d, inbox[from..cut]), WantedIds(d, inbox[cut..upTo]);
      assert inbox[from..upTo] == inbox[from..cut] + inbox[cut..upTo];
      WantedConcat(d, inbox[from..cut], inbox[cut..upTo]);
      PassConcat(told, held, rest);
      forall i | 0 <= i < |held| ensures held[i] in Log(told) { var j := WantedAt(d, inbox[from..cut], i); }
      PassOverHeld(told, held);
      RestIsNew(d, told, inbox, cut, upTo);
      PassOverNew(told, rest);
      Appended(told, held, rest);
    }
  }

  lemma RestIsNew(d: Deps, told: seq<nat>, inbox: seq<Message>, cut: nat, upTo: nat)
    requires Ascending(inbox) && cut <= upTo <= |inbox|
    requires forall i :: cut <= i < upTo && Wanted(d, inbox[i]) ==> inbox[i].id !in told
    ensures var rest := WantedIds(d, inbox[cut..upTo]); Distinct(rest) && forall i :: 0 <= i < |rest| ==> rest[i] !in told
  {
    var rest := WantedIds(d, inbox[cut..upTo]);
    WantedDistinct(d, inbox[cut..upTo]);
    forall i | 0 <= i < |rest| ensures rest[i] !in told {
      var j := WantedAt(d, inbox[cut..upTo], i);
      assert inbox[cut..upTo][j] == inbox[cut + j];
    }
  }

  /** Nothing past the last completed poll or snapshot was told. */
  lemma LaterIsUntold(d: Deps, s: System, i: nat)
    requires HistoryOk(s.realm) && NothingEarly(s) && s.synced <= i < |Inbox(s)|
    ensures Inbox(s)[i].id !in Told(d, s)
  {
    if Inbox(s)[i].id in Told(d, s) {
      ToldWasSpoken(d, s.out, Inbox(s)[i].id);
      var e :| e in s.out && IsMessage(e) && Wanted(d, e.m) && e.m.id == Inbox(s)[i].id;
      InboxNotAfterLast(s, i);
      SameId(s.realm.history, e.m, Inbox(s)[i]);
      assert Spoken(s.out, Inbox(s)[i]);
    }
  }

  lemma BatchPasses(d: Deps, s: System)
    requires Inv(s) && NothingEarly(s) && s.phase.Mapping? && Distinct(Told(d, s)) && HeldFrom(d, s, StartOf(s))
    ensures var told, ids := Told(d, s), WantedIds(d, MessagesOf(s.phase.batch));
      PromptPass(told, ids) && Gained(told, Pass(told, ids), ids)
  {
    BatchIsStretch(s);
    InboxAscends(s);
    var from, upTo := StartOf(s), s.phase.upTo;
    var cut := Max(from, s.synced);
    forall i | cut <= i < upTo ensures Inbox(s)[i].id !in Told(d, s) { LaterIsUntold(d, s, i); }
    StretchPasses(d, Told(d, s), Inbox(s), from, cut, upTo);
  }

  lemma StretchIndex(inbox: seq<Message>, from: nat, upTo: nat, y: Message) returns (i: nat)
    requires from <= upTo <= |inbox| && y in inbox[from..upTo]
    ensures from <= i < upTo && inbox[i] == y
  {
    var k :| 0 <= k < upTo - from && inbox[from..upTo][k] == y;
    i := from + k;
  }

  lemma HeldAt(d: Deps, s: System, from: int, i: nat)
    requires HeldFrom(d, s, from) && Told(d, s) != [] && from <= i < s.synced && i < |Inbox(s)| && Wanted(d, Inbox(s)[i])
    ensures Inbox(s)[i].id in Told(d, s)
  {
    assert s.out != [];
  }

  /** A wanted message of the batch that was not told is past the last completed poll. */
  lemma UntoldIsPast(d: Deps, s: System, y: Message)
    requires Inv(s) && s.phase.Mapping? && HeldFrom(d, s, StartOf(s)) && Told(d, s) != []
    requires y in MessagesOf(s.phase.batch) && Wanted(d, y) && y.id !in Told(d, s)
    ensures s.watermark.Some? ==> s.watermark.value <= y.timestamp
  {
    BatchIsStretch(s);
    var i := StretchIndex(Inbox(s), StartOf(s), s.phase.upTo, y);
    if i < s.synced { HeldAt(d, s, StartOf(s), i); }
  }

  lemma RowsOfBatch(s: System)
    requires Inv(s) && s.phase.Mapping?
    ensures Chronological(MessagesOf(s.phase.batch))
    ensures forall m :: m in MessagesOf(s.phase.batch) ==> m in s.realm.history
  {
    BatchIsStretch(s);
    FilterChronological(ToSeat(s.seat), s.realm.history);
    forall m | m in MessagesOf(s.phase.batch) ensures m in s.realm.history {
      BatchMember(s, s.phase.cursor, s.phase.batch, s.phase.upTo, m);
      var j :| 0 <= j < s.phase.upTo && Inbox(s)[j] == m;
      InboxNotAfterLast(s, j);
    }
  }

  lemma BatchToldWell(d: Deps, s: System, h: nat)
    requires Inv(s) && NothingEarly(s) && s.phase.Mapping? && HeldFrom(d, s, StartOf(s))
    requires ToldWell(d, s.realm.history, Told(d, s)) && Horizon(d, s.realm.history, Told(d, s), s.watermark, h)
    ensures var ids := WantedIds(d, MessagesOf(s.phase.batch));
      PromptPass(Told(d, s), ids) && Gained(Told(d, s), Pass(Told(d, s), ids), ids) && ToldWell(d, s.realm.history, Pass(Told(d, s), ids))
  {
    var rows, told, history := MessagesOf(s.phase.batch), Told(d, s), s.realm.history;
    BatchPasses(d, s);
    RowsOfBatch(s);
    forall x, y | x in history && x.id in told && y in rows && Wanted(d, y) && y.id !in told ensures x.timestamp <= y.timestamp {
      UntoldIsPast(d, s, y);
      LaterThanTold(d, history, told, s.watermark, h, y);
    }
    ToldMore(d, history, told, Pass(told, WantedIds(d, rows)), rows);
  }

  /** The watermark moves past everything a batch tells. */
  lemma BatchHorizon(d: Deps, history: seq<Message>, told: seq<nat>, after: seq<nat>, w: Option<nat>, v: Option<nat>, h: nat,
                     rows: seq<Message>)
    requires Ascending(history) && Horizon(d, history, told, w, h) && Gained(told, after, WantedIds(d, rows))
    requires forall m :: m in rows ==> m in history && v.Some? && m.timestamp <= v.value
    requires w.Some? ==> v.Some? && w.value <= v.value
    ensures Horizon(d, history, after, v, h)
  {
    WantedIdsOf(d, rows);
    forall id | id in after ensures id in told || id in WantedIds(d, rows) {
      var i :| 0 <= i < |after| && after[i] == id;
      if i < |told| { assert after[..|told|][i] == told[i]; }
    }
    forall id | id in told ensures id in after { var i :| 0 <= i < |told| && told[i] == id; assert after[..|told|][i] == after[i]; }
    if after != [] { assert after[0] in told || after[0] in WantedIds(d, rows); }
    forall x | x in history && x.id in after && x.id !in told ensures v.Some? && x.timestamp <= v.value {
      var m :| m in rows && m.id == x.id && Wanted(d, m);
      SameId(history, m, x);
    }
  }

  lemma BatchReaches(s: System)
    requires Inv(s) && s.phase.Mapping?
    ensures forall m :: m in MessagesOf(s.phase.batch) ==> Finished(s).watermark.Some? && m.timestamp <= Finished(s).watermark.value
    ensures s.watermark.Some? ==> Finished(s).watermark.Some? && s.watermark.value <= Finished(s).watermark.value
  {
    var mapped := MapEvents(s.seat, s.phase.batch);
    forall m | m in MessagesOf(s.phase.batch) ensures Finished(s).watermark.Some? && m.timestamp <= Finished(s).watermark.value {
      MappedPosts(s.seat, s.phase.batch, m);
      AdvanceReaches(s.watermark, mapped, MessagePosted(m, false));
    }
    if s.watermark.Some? { AdvanceRises(s.watermark, mapped); }
  }

  /** What is left on the queue starts where the batch ended. */
  lemma RestOfQueue(d: Deps, s: System)
    requires Inv(s) && s.phase.Mapping?
    ensures QueueHeld(d, Finished(s), Finished(s).producer.queue.value)
  {
    var n, c, batch := Finished(s), s.phase.cursor, s.phase.batch;
    FinishedCursor(s, c, batch);
    var e := n.producer.queue.value;
    assert Inbox(n) == Inbox(s) && n.synced == s.phase.upTo;
    if e.queueId in n.realm.queues {
      assert Unread(n, e) == Unread(s, c)[|batch|..];
      NothingHeld(d, n, UnreadStart(n, e));
    }
  }

  lemma FinishKeepsOnce(d: Deps, s: System, h: nat, g: nat)
    requires Inv(s) && NothingEarly(s) && Enabled(s, Finish) && Once(d, s, h, g) && Own(s, s.phase.cursor)
    ensures Once(d, Next(s, Finish), h, g)
  {
    var n, batch := Next(s, Finish), s.phase.batch;
    BatchToldWell(d, s, h);
    RowsOfBatch(s);
    BatchReaches(s);
    FeedsBatch(d, s.out, s.seat, batch);
    FinishedFields(s);
    RestOfQueue(d, s);
    var rows := MessagesOf(batch);
    BatchHorizon(d, s.realm.history, Told(d, s), Pass(Told(d, s), WantedIds(d, rows)), s.watermark, n.watermark, h, rows);
  }

  // ---- handing on a replay ----

  /** What a whole window of the first `g` messages holds. */
  lemma GapRows(history: seq<Message>, g: nat, since: nat, gap: seq<Message>)
    requires Ascending(history) && Chronological(history) && g <= |history|
    requires gap == HistoryPaging.Kept(ReplayOptions(since).window, history[..g])
    ensures Ascending(gap) && Chronological(gap)
    ensures forall m :: m in gap <==> m in history[..g] && since <= m.timestamp
    ensures forall m :: m in gap ==> m in history
  {
    var within := HistoryPaging.Within(ReplayOptions(since).window);
    HistoryPaging.FilterAscending(within, history[..g]);
    FilterChronological(within, history[..g]);
    forall m ensures m in gap <==> m in history[..g] && since <= m.timestamp { FilterMember(within, history[..g], m); }
  }

  /** What was told since the first message of a replay is in the replay. */
  lemma GapCaughtUp(d: Deps, history: seq<Message>, told: seq<nat>, gap: seq<Message>, since: nat)
    requires Ascending(history) && ToldWell(d, history, told)
    requires forall m :: m in gap ==> m in history && since <= m.timestamp
    requires forall x :: x in history && x.id in told && since <= x.timestamp ==> x in gap
    ensures CaughtUp(told, WantedIds(d, gap))
  {
    WantedIdsOf(d, gap);
    forall i, j | 0 <= i <= j < |told| && told[i] in WantedIds(d, gap) ensures told[j] in WantedIds(d, gap) {
      if i < j {
        var x :| x in gap && x.id == told[i] && Wanted(d, x);
        assert told[j] in told;
        var y :| y in history && y.id == told[j] && Wanted(d, y);
        assert x.timestamp <= y.timestamp;
      }
    }
  }

  lemma GapToldWell(d: Deps, history: seq<Message>, told: seq<nat>, since: nat, h: nat, gap: seq<Message>)
    requires Ascending(history) && Chronological(history) && ToldWell(d, history, told) && Horizon(d, history, told, Some(since), h)
    requires Ascending(gap) && Chronological(gap) && |WantedIds(d, gap)| <= SEEN_DELIVERED_CAPACITY
    requires forall m :: m in gap ==> m in history && since <= m.timestamp
    requires forall x :: x in history && x.id in told && since <= x.timestamp ==> x in gap
    ensures var ids := WantedIds(d, gap); var after := Pass(told, ids);
      && PromptPass(told, ids) && Gained(told, after, ids) && ToldWell(d, history, after)
      && forall i :: 0 <= i < |ids| ==> ids[i] in Log(after)
  {
    var ids := WantedIds(d, gap);
    WantedDistinct(d, gap);
    GapCaughtUp(d, history, told, gap, since);
    PassOverGap(told, ids);
    forall x, y | x in history && x.id in told && y in gap && Wanted(d, y) && y.id !in told ensures x.timestamp <= y.timestamp {
      LaterThanTold(d, history, told, Some(since), h, y);
    }
    ToldMore(d, history, told, Pass(told, ids), gap);
  }

  lemma GapHorizon(d: Deps, history: seq<Message>, told: seq<nat>, after: seq<nat>, since: nat, g: nat, gap: seq<Message>)
    requires Ascending(history) && g <= |history| && Gained(told, after, WantedIds(d, gap))
    requires forall m :: m in gap <==> m in history[..g] && since <= m.timestamp
    requires forall x :: x in history && x.id in told ==> x in history[..g]
    ensures Horizon(d, history, after, Some(since), g)
  {
    WantedIdsOf(d, gap);
    forall x | x in history && x.id in after ensures x in history[..g] {
      var i :| 0 <= i < |after| && after[i] == x.id;
      if i < |told| {
        assert after[..|told|][i] == told[i];
      } else {
        var m :| m in gap && m.id == x.id && Wanted(d, m);
        assert m in history;
        SameId(history, m, x);
      }
    }
    forall x | x in history[..g] && Wanted(d, x) && since <= x.timestamp ensures x.id in after {
      assert x.id in WantedIds(d, gap);
    }
  }

  /** What the replacement queue was sent before the snapshot is in the replay. */
  lemma ReplacementHeld(d: Deps, s: System, n: System, c: Cursor, gap: seq<Message>, upTo: nat)
    requires StartsAfter(s, c) && n.realm == s.realm && n.log == s.log && n.seat == s.seat && n.synced == upTo
    requires forall i :: s.synced <= i < upTo && i < |Inbox(s)| ==> Inbox(s)[i] in gap
    requires forall m :: m in gap && Wanted(d, m) ==> m.id in Log(Told(d, n))
    ensures QueueHeld(d, n, c)
  {
    assert Inbox(n) == Inbox(s);
    assert CursorOk(n, c) == CursorOk(s, c);
    if CursorOk(s, c) && c.queueId in s.realm.queues { assert UnreadStart(n, c) == UnreadStart(s, c); }
  }

  lemma BackfillFields(s: System)
    requires s.phase.Backfilling?
    ensures var n := Next(s, Backfill);
      && n.out == s.out + MarkReplayed(MapMessages(s.seat, s.phase.gap)) && n.synced == s.phase.upTo
      && n.realm == s.realm && n.log == s.log && n.seat == s.seat && n.watermark == s.watermark
      && n.producer.queue == Some(s.phase.replacement) && n.phase.Idle?
  {
  }

  lemma BackfillKeepsOnce(d: Deps, s: System, h: nat, g: nat)
    requires Inv(s) && Enabled(s, Backfill) && Once(d, s, h, g)
    ensures Once(d, Next(s, Backfill), g, g)
  {
    BackfillFields(s);
    GapHandedOn(d, s, Next(s, Backfill), s.phase.replacement, s.phase.gap, s.phase.upTo, h, g);
  }

  lemma GapHandedOn(d: Deps, s: System, n: System, c: Cursor, gap: seq<Message>, upTo: nat, h: nat, g: nat)
    requires HistoryOk(s.realm) && PromptRepeats(d, s.out) && ToldWell(d, s.realm.history, Told(d, s))
    requires Horizon(d, s.realm.history, Told(d, s), s.watermark, h) && GapFits(d, s, gap, upTo, g) && StartsAfter(s, c)
    requires forall i :: s.synced <= i < upTo && i < |Inbox(s)| ==> Inbox(s)[i] in gap
    requires n.out == s.out + MarkReplayed(MapMessages(s.seat, gap)) && n.synced == upTo
    requires n.realm == s.realm && n.log == s.log && n.seat == s.seat && n.watermark == s.watermark
    requires n.producer.queue == Some(c) && n.phase.Idle?
    ensures Once(d, n, g, g)
  {
    var since := s.watermark.value;
    GapRows(s.realm.history, g, since, gap);
    GapToldWell(d, s.realm.history, Told(d, s), since, h, gap);
    FeedsReplay(d, s.out, s.seat, gap);
    GapHorizon(d, s.realm.history, Told(d, s), Told(d, n), since, g, gap);
    WantedIdsOf(d, gap);
    forall m | m in gap && Wanted(d, m) ensures m.id in Log(Told(d, n)) { assert m.id in WantedIds(d, gap); }
    ReplacementHeld(d, s, n, c, gap, upTo);
  }

  // ---- over whole runs ----

  /** A batch of the queue polled before, or a replay that fits. */
  predicate Fits(d: Deps, s: System, a: Action)
    requires Enabled(s, a)
  {
    match a
    case Finish => Own(s, s.phase.cursor)
    case Snapshot => ReplayFits(d, s.realm.history, s.phase.since)
    case _ => true
  }

  predicate Fitting(d: Deps, s: System, actions: seq<Action>)
    requires Runs(s, actions)
    decreases |actions|
  {
    actions == [] || (Fits(d, s, actions[0]) && Fitting(d, Next(s, actions[0]), actions[1..]))
  }

  lemma NextOnce(d: Deps, s: System, a: Action, h: nat, g: nat) returns (k: nat, l: nat)
    requires Inv(s) && NothingEarly(s) && Once(d, s, h, g) && Enabled(s, a) && Fits(d, s, a)
    ensures Once(d, Next(s, a), k, l)
  {
    k, l := h, g;
    if IsRealmAction(a) {
      RealmKeepsOnce(d, s, a, h, g);
    } else if a.Finish? {
      FinishKeepsOnce(d, s, h, g);
    } else if a.Reregister? || a.Snapshot? || a.Backfill? || a.ReplayFail? {
      k, l := RecoveryOnce(d, s, a, h, g);
    } else {
      QuietKeepsOnce(d, s, a, h, g);
    }
  }

  lemma RecoveryOnce(d: Deps, s: System, a: Action, h: nat, g: nat) returns (k: nat, l: nat)
    requires Inv(s) && Once(d, s, h, g) && Enabled(s, a) && Fits(d, s, a)
    requires a.Reregister? || a.Snapshot? || a.Backfill? || a.ReplayFail?
    ensures Once(d, Next(s, a), k, l)
  {
    k, l := h, g;
    match a
    case Snapshot => SnapshotKeepsOnce(d, s, h, g); l := |s.realm.history|;
    case Backfill => BackfillKeepsOnce(d, s, h, g); k := g;
    case Reregister => ReregisterKeepsOnce(d, s, h, g);
    case ReplayFail => ReplayFailKeepsOnce(d, s, h, g);
  }

  lemma {:induction false} RunOnce(d: Deps, s: System, actions: seq<Action>, h: nat, g: nat) returns (k: nat, l: nat)
    requires Inv(s) && NothingEarly(s) && Once(d, s, h, g) && Runs(s, actions) && Fitting(d, s, actions)
    ensures Inv(Run(s, actions)) && NothingEarly(Run(s, actions)) && Once(d, Run(s, actions), k, l)
    decreases |actions|
  {
    k, l := h, g;
    if actions != [] {
      NextKeeps(s, actions[0]);
      NextKnown(s, actions[0]);
      k, l := NextOnce(d, s, actions[0], h, g);
      k, l := RunOnce(d, Next(s, actions[0]), actions[1..], k, l);
    }
  }

  lemma BootOnce(d: Deps, s: System)
    requires Boots(s)
    ensures Inv(s) && NothingEarly(s) && Once(d, s, 0, 0)
  {
    BootKeeps(s, []);
    assert Told(d, s) == [];
  }

  /** In every interleaving from boot in which each replay is read in full and fits the
      dedup log, every repeat is prompt, so nothing is told twice. */
  lemma NothingToldTwice(d: Deps, s: System, actions: seq<Action>)
    requires Boots(s) && Runs(s, actions) && Fitting(d, s, actions)
    ensures PromptRepeats(d, Run(s, actions).out) && Distinct(Fresh(d, Run(s, actions).out))
  {
    BootOnce(d, s);
    var k, l := RunOnce(d, s, actions, 0, 0);
    AtMostOnceIffPrompt(d, Run(s, actions).out);
  }

  // ---- a recovery repeated ----

  /** What was told so far has caught up with the replay a recovery would hand on now. */
  lemma TellsReplay(d: Deps, t: System)
    requires Inv(t) && ToldWell(d, t.realm.history, Told(d, t)) && Polling(t)
    requires !ReplaySnapshot(t.realm.history, t.watermark.value).spent
    ensures var ids := WantedIds(d, ReplaySnapshot(t.realm.history, t.watermark.value).results);
      Distinct(ids) && CaughtUp(Told(d, t), ids)
  {
    var h, since := t.realm.history, t.watermark.value;
    var gap := ReplaySnapshot(h, since).results;
    SnapshotIsKept(h, since);
    assert h[..|h|] == h;
    GapRows(h, |h|, since, gap);
    WantedDistinct(d, gap);
    GapCaughtUp(d, h, Told(d, t), gap, since);
  }

  /** The polled queue of `t` dies and is recovered, and its replacement likewise. */
  lemma RecoveredTwice(t: System)
    requires Polling(t)
    ensures Runs(t, Recovery(t.producer.queue.value.queueId))
    ensures var u := Run(t, Recovery(t.producer.queue.value.queueId));
      && Polling(u) && u.out == t.out + Replayed(t) && Runs(u, Recovery(u.producer.queue.value.queueId))
      && Run(u, Recovery(u.producer.queue.value.queueId)).out == u.out + Replayed(t)
  {
    RecoveryRuns(t);
    RecoveryRuns(Run(t, Recovery(t.producer.queue.value.queueId)));
  }

  /** The output after one recovery. */
  function RecoveredOut(t: System): seq<InboundEvent>
    requires t.watermark.Some?
  {
    t.out + Replayed(t)
  }

  /** In every interleaving, a queue that dies twice with nothing stored in between has the
      producer hand on the same replay twice. The notifier is spared the second copy exactly
      when the messages it wants of the replay fit the dedup log; when they do not, some
      message is told twice. */
  lemma RepeatedRecoveryAbsorbedIff(d: Deps, s: System, before: seq<Action>)
    requires Boots(s) && Runs(s, before) && Fitting(d, s, before) && Polling(Run(s, before))
    requires !ReplaySnapshot(Run(s, before).realm.history, Run(s, before).watermark.value).spent
    ensures var t := Run(s, before); Runs(t, Recovery(t.producer.queue.value.queueId))
    ensures var t := Run(s, before); var u := Run(t, Recovery(t.producer.queue.value.queueId));
      && Polling(u) && u.out == RecoveredOut(t) && Runs(u, Recovery(u.producer.queue.value.queueId))
    ensures var t := Run(s, before); var u := Run(t, Recovery(t.producer.queue.value.queueId));
      var v := Run(u, Recovery(u.producer.queue.value.queueId));
      var replayed := WantedIds(d, ReplaySnapshot(t.realm.history, t.watermark.value).results);
      && (Fresh(d, v.out) == Fresh(d, u.out) <==> |replayed| <= SEEN_DELIVERED_CAPACITY)
      && (Distinct(Fresh(d, v.out)) <==> |replayed| <= SEEN_DELIVERED_CAPACITY)
  {
    var t := Run(s, before);
    var gap := ReplaySnapshot(t.realm.history, t.watermark.value).results;
    BootOnce(d, s);
    var k, l := RunOnce(d, s, before, 0, 0);
    RecoveredTwice(t);
    TellsReplay(d, t);
    FeedsReplay(d, t.out, t.seat, gap);
    FeedsReplay(d, RecoveredOut(t), t.seat, gap);
    SecondPassIdleIff(Told(d, t), WantedIds(d, gap));
    SecondPassDistinctIff(Told(d, t), WantedIds(d, gap));
  }
}
