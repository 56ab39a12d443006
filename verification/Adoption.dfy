/** What an adopted registration costs: the messages the queue before it had not yet
    handed on (packages/zulip/events.ts, `step`). */
module Adoption {
  import opened Core
  import opened Realm
  import opened Producer
  import opened DeliveryInvariant
  import opened DeliverySteps
  import opened DeliveryFinish
  import opened Delivery
  import opened Registration
  import HistoryPaging

  // ---- nothing is emitted before it is counted ----

  /** Some event is about the message. */
  predicate Spoken(events: seq<InboundEvent>, m: Message) { exists e :: e in events && IsMessage(e) && e.m == m }

  lemma EmittedIsSpoken(events: seq<InboundEvent>, m: Message)
    requires Emitted(events, m)
    ensures Spoken(events, m)
  {
    var e := if MessagePosted(m, false) in events then MessagePosted(m, false) else MessagePosted(m, true);
    assert e in events && IsMessage(e) && e.m == m;
  }

  /** The output and a replay in hand speak only of stored messages, and of none stored
      after the poll or snapshot they came from. */
  predicate NothingEarly(s: System) {
    && (forall e :: e in s.out && IsMessage(e) ==> e.m in s.realm.history)
    && (forall i :: s.synced <= i < |Inbox(s)| ==> !Spoken(s.out, Inbox(s)[i]))
    && (s.phase.Backfilling? ==> GapKnown(s, s.phase.gap, s.phase.upTo))
  }

  predicate GapKnown(s: System, gap: seq<Message>, upTo: nat) {
    && (forall m :: m in gap ==> m in s.realm.history)
    && (forall i :: upTo <= i < |Inbox(s)| ==> Inbox(s)[i] !in gap)
  }

  lemma InboxAscends(s: System)
    requires HistoryOk(s.realm)
    ensures Ascending(Inbox(s))
  {
    HistoryPaging.FilterAscending(ToSeat(s.seat), s.realm.history);
  }

  /** A step that hands nothing on and stores at most one message. */
  lemma StoringKeeps(s: System, n: System, stored: seq<Message>)
    requires HistoryOk(s.realm) && NothingEarly(s) && n.seat == s.seat && n.out == s.out && n.synced == s.synced
    requires n.realm.history == s.realm.history + stored && |stored| <= 1
    requires stored != [] ==> stored[0].id > s.realm.serial
    requires s.synced <= |Inbox(s)| && (s.phase.Backfilling? ==> s.phase.upTo <= |Inbox(s)|)
    requires n.phase.Backfilling? ==> n.phase == s.phase
    ensures NothingEarly(n)
  {
    if stored == [] {
      assert n.realm.history == s.realm.history;
    } else {
      InboxOfAppended(s, n, stored[0]);
      assert stored == [stored[0]];
      assert stored[0] !in s.realm.history;
    }
  }

  /** A replay snapshot holds stored messages only. */
  lemma SnapshotRow(h: seq<Message>, since: nat, m: Message)
    requires Ascending(h) && m in ReplaySnapshot(h, since).results
    ensures m in h
  {
    var o := ReplayOptions(since);
    var world := seq(HISTORY_MAX_PAGES, _ => h);
    HistoryPaging.ReadingIsSuffix(o, world);
    assert world[0] == h;
    var q: nat :| HistoryPaging.ReadsBackTo(o, HistoryPaging.ReadWindow(o, world), h, q);
    var kept := HistoryPaging.Kept(o.window, h[q..]);
    assert MapSeq(o.onRow, kept) == kept;
    FilterMember(HistoryPaging.Within(o.window), h[q..], m);
  }

  lemma SnapshotKnown(s: System)
    requires Inv(s) && NothingEarly(s) && s.phase.Replaying?
    ensures NothingEarly(Next(s, Snapshot))
  {
    var n, rows := Next(s, Snapshot), ReplaySnapshot(s.realm.history, s.phase.since).results;
    forall m | m in rows ensures m in s.realm.history { SnapshotRow(s.realm.history, s.phase.since, m); }
    assert Inbox(n) == Inbox(s);
  }

  lemma {:induction false} MappedRows(seat: UserId, rows: seq<Message>, e: InboundEvent)
    requires e in MapMessages(seat, rows)
    ensures IsMessage(e) && e.m in rows
  {
    if e !in MessageToInbound(seat, rows[0]) { MappedRows(seat, rows[1..], e); }
  }

  lemma ReplayedRows(seat: UserId, rows: seq<Message>, e: InboundEvent)
    requires e in MarkReplayed(MapMessages(seat, rows))
    ensures IsMessage(e) && e.m in rows
  {
    var mapped := MapMessages(seat, rows);
    var i :| 0 <= i < |mapped| && MarkReplayed(mapped)[i] == e;
    MappedRows(seat, rows, mapped[i]);
  }

  lemma BackfillKnown(s: System)
    requires Inv(s) && NothingEarly(s) && s.phase.Backfilling?
    ensures NothingEarly(Next(s, Backfill))
  {
    var n, chunk := Next(s, Backfill), MarkReplayed(MapMessages(s.seat, s.phase.gap));
    forall e | e in chunk ensures IsMessage(e) && e.m in s.phase.gap { ReplayedRows(s.seat, s.phase.gap, e); }
    ChunkKeeps(s, n, chunk, s.phase.upTo);
  }

  /** Handing on a chunk that speaks of no message stored after `upTo`. */
  lemma ChunkKeeps(s: System, n: System, chunk: seq<InboundEvent>, upTo: nat)
    requires NothingEarly(s) && n.seat == s.seat && n.realm == s.realm && !n.phase.Backfilling?
    requires n.out == s.out + chunk && n.synced == upTo && s.synced <= upTo
    requires forall e :: e in chunk && IsMessage(e) ==>
      e.m in s.realm.history && forall i :: upTo <= i < |Inbox(s)| ==> Inbox(s)[i] != e.m
    ensures NothingEarly(n)
  {
    forall i | upTo <= i < |Inbox(n)| ensures !Spoken(n.out, Inbox(n)[i]) {
      assert !Spoken(s.out, Inbox(s)[i]);
    }
  }

  lemma FinishKnown(s: System)
    requires Inv(s) && NothingEarly(s) && s.phase.Mapping?
    ensures NothingEarly(Next(s, Finish))
  {
    var Mapping(adopted, c, batch, upTo) := s.phase;
    var mapped := MapEvents(s.seat, batch);
    InboxAscends(s);
    forall e | e in mapped && IsMessage(e)
      ensures e.m in s.realm.history && forall i :: upTo <= i < |Inbox(s)| ==> Inbox(s)[i] != e.m
    {
      MappedOnlyMessages(s.seat, batch, e);
      BatchMember(s, c, batch, upTo, e.m);
      var j :| 0 <= j < upTo && Inbox(s)[j] == e.m;
      InboxNotAfterLast(s, j);
    }
    ChunkKeeps(s, Next(s, Finish), mapped, upTo);
  }

  /** The actions that store nothing and hand nothing on. */
  lemma QuietStep(s: System, a: Action)
    requires Enabled(s, a) && !a.Post? && !a.Snapshot? && !a.Backfill? && !a.Finish?
    ensures var n := Next(s, a);
      && n.seat == s.seat && n.out == s.out && n.synced == s.synced && n.realm.history == s.realm.history
      && (n.phase.Backfilling? ==> n.phase == s.phase)
  {
  }

  lemma NextKnown(s: System, a: Action)
    requires Inv(s) && NothingEarly(s) && Enabled(s, a)
    ensures NothingEarly(Next(s, a))
  {
    match a
    case Post(draft) => StoringKeeps(s, Next(s, a), [draft.(id := s.realm.serial + 1)]);
    case Snapshot => SnapshotKnown(s);
    case Backfill => BackfillKnown(s);
    case Finish => FinishKnown(s);
    case _ =>
      QuietStep(s, a);
      assert s.realm.history + [] == s.realm.history;
      StoringKeeps(s, Next(s, a), []);
  }

  lemma {:induction false} RunKnown(s: System, actions: seq<Action>)
    requires Inv(s) && NothingEarly(s) && Runs(s, actions)
    ensures NothingEarly(Run(s, actions))
    decreases |actions|
  {
    if actions != [] {
      NextKeeps(s, actions[0]);
      NextKnown(s, actions[0]);
      RunKnown(Next(s, actions[0]), actions[1..]);
    }
  }

  // ---- what a finished batch closes ----

  /** Where the batch's messages start in the seat's inbox. For a batch of a queue polled
      for the first time that is the inbox's length when the queue was registered. */
  function StartOf(s: System): int
    requires s.phase.Mapping?
  {
    s.phase.upTo - |MessagesOf(s.phase.batch)|
  }

  /** The batch in hand leaves nothing behind: everything stored up to its poll is emitted
      from the last completed poll on. */
  predicate Closes(s: System)
    requires Enabled(s, Finish)
  {
    var f := Next(s, Finish);
    forall i :: s.synced <= i < s.phase.upTo <= |Inbox(f)| ==> Emitted(f.out, Inbox(f)[i])
  }

  lemma BatchFrom(s: System, i: nat)
    requires Inv(s) && s.phase.Mapping? && i < |Inbox(s)| && Inbox(s)[i] in MessagesOf(s.phase.batch)
    ensures StartOf(s) <= i
  {
    var batch := MessagesOf(s.phase.batch);
    var k :| 0 <= k < |batch| && batch[k] == Inbox(s)[i];
    assert batch[k] == Inbox(s)[..s.phase.upTo][StartOf(s) + k];
    InboxAscends(s);
  }

  lemma FinishedEmits(s: System, i: nat)
    requires Inv(s) && NothingEarly(s) && s.phase.Mapping? && s.synced <= i < s.phase.upTo
    ensures Emitted(Next(s, Finish).out, Inbox(s)[i]) <==> StartOf(s) <= i
  {
    var Mapping(adopted, c, batch, upTo) := s.phase;
    var mapped, m := MapEvents(s.seat, batch), Inbox(s)[i];
    if Emitted(s.out, m) { EmittedIsSpoken(s.out, m); }
    if StartOf(s) <= i {
      BatchStretch(s, c, batch, upTo, i);
      MappedPosts(s.seat, batch, m);
    } else if MessagePosted(m, false) in mapped {
      MappedOnlyMessages(s.seat, batch, MessagePosted(m, false));
      BatchFrom(s, i);
    } else if MessagePosted(m, true) in mapped {
      MappedOnlyMessages(s.seat, batch, MessagePosted(m, true));
      BatchFrom(s, i);
    }
  }

  /** In every interleaving, a finished batch leaves nothing behind exactly when it starts
      no later than the last completed poll or snapshot. */
  lemma BatchClosesIff(s: System, before: seq<Action>)
    requires Boots(s) && Runs(s, before) && Run(s, before).phase.Mapping?
    ensures var d := Run(s, before); Closes(d) <==> StartOf(d) <= d.synced
  {
    BootKeeps(s, before);
    BootKeeps(s, []);
    RunKnown(s, before);
    StateCloses(Run(s, before));
  }

  lemma StateCloses(d: System)
    requires Inv(d) && NothingEarly(d) && d.phase.Mapping?
    ensures Closes(d) <==> StartOf(d) <= d.synced
  {
    assert 0 <= StartOf(d) <= d.phase.upTo && d.synced <= d.phase.upTo <= |Inbox(d)|;
    var f := Next(d, Finish);
    assert Inbox(f) == Inbox(d);
    forall i | d.synced <= i < d.phase.upTo ensures Emitted(f.out, Inbox(f)[i]) <==> StartOf(d) <= i { FinishedEmits(d, i); }
    if d.synced < StartOf(d) { assert !Emitted(f.out, Inbox(f)[d.synced]); }
  }

  // ---- what an adoption leaves behind ----

  lemma {:induction false} RegistrationStays(s: System, actions: seq<Action>)
    requires Runs(s, actions) && s.registration.Some?
    ensures Run(s, actions).registration == s.registration
    decreases |actions|
  {
    if actions != [] { RegistrationStays(Next(s, actions[0]), actions[1..]); }
  }

  /** The first batch of an adopted registration starts where the inbox ended when
      `subscribe` registered the queue. */
  lemma StartIsRegistration(b: System, after: seq<Action>, boot: nat)
    requires Inv(b) && Registered(b, boot) && Enabled(b, Subscribe) && Runs(Next(b, Subscribe), after)
    requires var d := Run(Next(b, Subscribe), after);
      d.phase.Mapping? && Adopts(d) && d.phase.cursor == d.registration.value
    ensures Inv(Run(Next(b, Subscribe), after)) && StartOf(Run(Next(b, Subscribe), after)) == |Inbox(b)|
  {
    var r := Next(b, Subscribe);
    SubscribeKeeps(b);
    SubscribeRegisters(b, boot);
    RunKeeps(r, after);
    RunRegisters(r, after, boot);
    RegistrationStays(r, after);
    InboxOnlyGains(r, after);
    assert r.realm.history == b.realm.history;
    InboxBelow(b, b.realm.serial);
    StartFrom(Run(r, after), b.realm.serial + 1, Inbox(b));
  }

  lemma StartFrom(d: System, id: nat, first: seq<Message>)
    requires Inv(d) && FirstBatchOk(d) && d.phase.Mapping? && Adopts(d) && d.phase.cursor == d.registration.value
    requires d.phase.cursor.queueId == id && IsPrefix(first, Inbox(d)) && (forall i :: 0 <= i < |first| ==> first[i].id < id)
    requires forall i :: |first| <= i < |Inbox(d)| ==> id < Inbox(d)[i].id
    ensures StartOf(d) == |first|
  {
    StretchFrom(id, first, Inbox(d), d.phase.upTo);
  }

  /** Of an inbox cut at `upTo`, the part newer than an id issued after `first` and before the
      rest is what follows `first`. */
  lemma StretchFrom(id: nat, first: seq<Message>, all: seq<Message>, upTo: nat)
    requires IsPrefix(first, all) && upTo <= |all| && (forall i :: 0 <= i < |first| ==> first[i].id < id)
    requires forall i :: |first| <= i < |all| ==> id < all[i].id
    requires forall i :: upTo <= i < |all| ==> id < all[i].id
    ensures |first| <= upTo && |Filter(Newer(id), all[..upTo])| == upTo - |first|
  {
    forall i | 0 <= i < |first| ensures all[i].id < id { assert all[i] == first[i]; }
    var next := if upTo < |all| then all[upTo].id else id;
    assert |first| <= upTo;
    FilterSplit(Newer(id), all[..upTo], |first|);
    FilterNone(Newer(id), all[..upTo][..|first|]);
    FilterAll(Newer(id), all[..upTo][|first|..]);
  }

  /** In every interleaving, taking up the queue of a first subscribe leaves nothing behind
      exactly when everything the seat had been sent by that subscribe had been polled, or
      was in a snapshot, by the time its first batch is handed on. */
  lemma AdoptionClosesIff(s: System, before: seq<Action>, after: seq<Action>)
    requires Boots(s) && Runs(s, before) && Enabled(Run(s, before), Subscribe)
    requires Runs(Next(Run(s, before), Subscribe), after)
    requires var d := Run(Next(Run(s, before), Subscribe), after);
      d.phase.Mapping? && Adopts(d) && d.phase.cursor == d.registration.value
    ensures var b := Run(s, before); var d := Run(Next(b, Subscribe), after);
      Closes(d) <==> |Inbox(b)| <= d.synced
  {
    var b := Run(s, before);
    BootKeeps(s, []);
    BootKeeps(s, before);
    RunKnown(s, before);
    RunRegisters(s, before, s.realm.serial);
    StartIsRegistration(b, after, s.realm.serial);
    NextKeeps(b, Subscribe);
    NextKnown(b, Subscribe);
    RunKnown(Next(b, Subscribe), after);
    StateCloses(Run(Next(b, Subscribe), after));
  }

  /** While the polled queue is not replaced it always closes, given a first live batch. */
  lemma OwnBatchCloses(s: System, before: seq<Action>)
    requires Boots(s) && Runs(s, before)
    requires var d := Run(s, before); d.phase.Mapping? && d.base.Some? && d.producer.queue == Some(d.phase.cursor)
    ensures Closes(Run(s, before))
  {
    BootKeeps(s, before);
    BatchClosesIff(s, before);
  }

  // ---- a message an adoption passes by ----

  /** The message is the seat's, it was not emitted, and the live queue now polled does not
      hold it. */
  predicate PassedBy(t: System, m: Message) {
    && m in Inbox(t) && !Emitted(t.out, m)
    && t.producer.queue.Some? && t.producer.queue.value.queueId in t.realm.queues
    && CursorOk(t, t.producer.queue.value) && m !in MessagesOf(Unread(t, t.producer.queue.value))
  }

  /** A message stored after the last poll and before the first subscribe: whatever queue
      holds it is given up for the one the subscribe registers, which never has it. */
  lemma AdoptionPassesBy(s: System, draft: Message)
    requires Inv(s) && NothingEarly(s) && s.phase.Idle? && s.registration.None? && s.producer.observed.None?
    requires Enabled(s, Post(draft)) && s.seat in draft.receivedBy
    ensures Runs(s, [Post(draft), Subscribe, Begin, Poll, Finish])
    ensures PassedBy(Run(s, [Post(draft), Subscribe, Begin, Poll, Finish]), draft.(id := s.realm.serial + 1))
  {
    PostKeeps(s, draft);
    PostIsNew(s, draft);
    TakesUpEmptyQueue(Next(s, Post(draft)), draft.(id := s.realm.serial + 1));
    RunFive(s, Post(draft), Subscribe, Begin, Poll, Finish);
  }

  lemma PostIsNew(s: System, draft: Message)
    requires Inv(s) && NothingEarly(s) && Enabled(s, Post(draft)) && s.seat in draft.receivedBy
    ensures var p, m := Next(s, Post(draft)), draft.(id := s.realm.serial + 1);
      && m in Inbox(p) && !Emitted(p.out, m)
      && p.phase == s.phase && p.registration == s.registration && p.producer == s.producer
  {
    var p, m := Next(s, Post(draft)), draft.(id := s.realm.serial + 1);
    InboxOfAppended(s, p, m);
    NewIsNotEmitted(s, m);
    assert m in Inbox(p);
    assert p.out == s.out;
  }

  lemma NewIsNotEmitted(s: System, m: Message)
    requires NothingEarly(s) && HistoryOk(s.realm) && m.id > s.realm.serial
    ensures !Emitted(s.out, m)
  {
    assert m !in s.realm.history;
    if Emitted(s.out, m) { EmittedIsSpoken(s.out, m); }
  }

  /** A first subscribe's queue, adopted and polled at once, answers with a heartbeat. */
  lemma TakesUpEmptyQueue(p: System, m: Message)
    requires Inv(p) && p.phase.Idle? && p.registration.None? && p.producer.observed.None?
    requires m in Inbox(p) && !Emitted(p.out, m)
    ensures Enabled(p, Subscribe)
    ensures Enabled(Next(p, Subscribe), Begin) && Enabled(Next(Next(p, Subscribe), Begin), Poll)
    ensures Enabled(Next(Next(Next(p, Subscribe), Begin), Poll), Finish)
    ensures PassedBy(Next(Next(Next(Next(p, Subscribe), Begin), Poll), Finish), m)
  {
    var q := Next(p, Subscribe);
    var c := q.registration.value;
    assert q.log[c.queueId] == [] && q.realm.queues[c.queueId] == EventQueue(p.seat, OWN_EVENT_TYPES, -1, []);
    var r := Next(Next(q, Begin), Poll);
    var beat := QueuedEvent(0, Heartbeat);
    assert r.phase.batch == [beat] && r.log[c.queueId] == [beat];
    assert [beat][1..] == [];
    var t := Next(r, Finish);
    assert MaxId(-1, [beat]) == 0 && MapEvents(p.seat, [beat]) == [];
    assert t.out == p.out + [] == p.out;
    assert Inbox(t) == Inbox(p);
  }

  lemma RunFive(s: System, a: Action, b: Action, c: Action, d: Action, e: Action)
    requires Enabled(s, a) && Enabled(Next(s, a), b) && Enabled(Next(Next(s, a), b), c)
    requires Enabled(Next(Next(Next(s, a), b), c), d) && Enabled(Next(Next(Next(Next(s, a), b), c), d), e)
    ensures Runs(s, [a, b, c, d, e])
    ensures Run(s, [a, b, c, d, e]) == Next(Next(Next(Next(Next(s, a), b), c), d), e)
  {
    var n := Next(s, a);
    var m := Next(Next(n, b), c);
    RunTwo(m, d, e);
    RunMore(Next(n, b), c, [d, e]);
    RunMore(n, b, [c] + [d, e]);
    RunMore(s, a, [b] + ([c] + [d, e]));
    assert [a] + ([b] + ([c] + [d, e])) == [a, b, c, d, e];
  }

  lemma RunMore(s: System, a: Action, rest: seq<Action>)
    requires Enabled(s, a) && Runs(Next(s, a), rest)
    ensures Runs(s, [a] + rest) && Run(s, [a] + rest) == Run(Next(s, a), rest)
  {
    assert ([a] + rest)[1..] == rest;
  }
}
