/** What the inbound delivery protocol promises over whole runs. */
module Delivery {
  import opened Core
  import opened Realm
  import opened Producer
  import opened DeliveryInvariant
  import opened DeliverySteps
  import opened DeliveryFinish

  /** A producer starting on any sound realm: with no queue, or with a resumed or
      registered one, and having seen whatever registration the inbox holds. */
  predicate Boots(s: System) {
    && RealmOk(s) && s.phase.Idle? && s.out == [] && s.base.None? && s.watermark.None?
    && s.synced == |Inbox(s)| && s.fromOut == 0
    && !Adopts(s)
    && (s.producer.queue.Some? ==> CursorOk(s, s.producer.queue.value) && s.fromEvent == s.producer.queue.value.lastEventId)
  }

  lemma BootKeeps(s: System, actions: seq<Action>)
    requires Boots(s) && Runs(s, actions)
    ensures Inv(Run(s, actions))
  {
    assert Inv(s) by {
      if s.producer.queue.Some? {
        var c := s.producer.queue.value;
        assert s.log[c.queueId][c.lastEventId + 1..c.lastEventId + 1] == [];
      }
    }
    RunKeeps(s, actions);
  }

  // ---- no loss across queue death ----

  /** A run in which every replay is read in full and no other registration is taken up. */
  predicate Lossless(s: System, actions: seq<Action>)
    requires Runs(s, actions)
    decreases |actions|
  {
    actions == [] ||
    (&& (actions[0].Snapshot? ==> !ReplaySnapshot(s.realm.history, s.phase.since).spent)
     && (actions[0].Finish? ==> s.producer.queue == Some(s.phase.cursor))
     && !actions[0].ReplayFail?
     && (s.phase.Backfilling? ==> s.phase.whole)
     && Lossless(Next(s, actions[0]), actions[1..]))
  }

  lemma {:induction false} LosslessKeepsBase(s: System, actions: seq<Action>)
    requires Inv(s) && s.base.Some? && Runs(s, actions) && Lossless(s, actions)
    ensures var t := Run(s, actions);
      Inv(t) && t.base.Some? && t.base.value <= s.base.value && t.synced >= s.synced
    decreases |actions|
  {
    if actions != [] {
      NextKeeps(s, actions[0]);
      LosslessStep(s, actions[0]);
      LosslessKeepsBase(Next(s, actions[0]), actions[1..]);
    }
  }

  lemma LosslessStep(s: System, a: Action)
    requires Inv(s) && s.base.Some? && Enabled(s, a) && !a.ReplayFail?
    requires a.Finish? ==> s.producer.queue == Some(s.phase.cursor)
    requires s.phase.Backfilling? ==> s.phase.whole
    ensures var n := Next(s, a); n.base.Some? && n.base.value <= s.base.value && n.synced >= s.synced
  {
  }

  /** A message of the seat's that has not been emitted yet is not lost: it waits in
      the polled queue, or that queue is dead and the next replay will cover it. */
  predicate StillToCome(s: System, m: Message) {
    && s.producer.queue.Some? && CursorOk(s, s.producer.queue.value) && s.watermark.Some?
    && (if s.producer.queue.value.queueId in s.realm.queues then m in MessagesOf(Unread(s, s.producer.queue.value))
        else s.watermark.value <= m.timestamp)
  }

  lemma UnreadHolds(s: System, c: Cursor, mark: nat, i: nat)
    requires RealmOk(s) && CursorOk(s, c) && c.queueId in s.realm.queues && Unbroken(s, c, mark)
    requires mark <= i < |Inbox(s)|
    ensures Inbox(s)[i] in MessagesOf(Unread(s, c))
  {
    UnreadIsNewest(s, c);
    var unread := MessagesOf(Unread(s, c));
    assert unread[i - (|Inbox(s)| - |unread|)] == Inbox(s)[i];
  }

  lemma NothingSkipped(s: System, i: nat)
    requires RealmOk(s) && ProducerOk(s) && CoverOk(s) && WatermarkOk(s)
    requires s.base.Some? && s.synced <= i < |Inbox(s)|
    ensures StillToCome(s, Inbox(s)[i])
  {
    var c := s.producer.queue.value;
    if c.queueId in s.realm.queues { UnreadHolds(s, c, s.synced, i); }
  }

  /** From the `first`-th message of the inbox on, everything up to `upTo` has been
      emitted and everything later has been or is still to come. */
  predicate Covered(s: System, first: nat, upTo: nat) {
    && first <= upTo <= |Inbox(s)|
    && (forall i :: first <= i < upTo ==> Emitted(s.out, Inbox(s)[i]))
    && (forall i :: upTo <= i < |Inbox(s)| ==> Emitted(s.out, Inbox(s)[i]) || StillToCome(s, Inbox(s)[i]))
  }

  lemma BaseCovers(s: System, first: nat, upTo: nat)
    requires Inv(s) && s.base.Some? && s.base.value <= first <= upTo <= s.synced
    ensures Covered(s, first, upTo) && upTo <= s.synced <= |Inbox(s)|
    ensures Covered(s, first, s.synced)
  {
    forall i | upTo <= i < |Inbox(s)| ensures Emitted(s.out, Inbox(s)[i]) || StillToCome(s, Inbox(s)[i]) {
      if s.synced <= i { NothingSkipped(s, i); }
    }
  }

  lemma FinishSetsBase(d: System)
    requires Inv(d) && d.phase.Mapping? && MessagesOf(d.phase.batch) != []
    ensures var first := d.phase.upTo - |MessagesOf(d.phase.batch)|; var f := Next(d, Finish);
      Inv(f) && f.base.Some? && 0 <= first <= d.phase.upTo == f.synced && f.base.value <= first
  {
    NextKeeps(d, Finish);
  }

  /** No loss: in every interleaving of posts, queue drops, failed steps, polls and
      recoveries, once a live batch has carried a message every message of the seat's
      from that batch on is emitted or still to come, and everything stored by the
      last completed poll or snapshot is emitted. */
  lemma NoLoss(s: System, before: seq<Action>, actions: seq<Action>)
    requires Boots(s) && Runs(s, before)
    requires var d := Run(s, before);
      && d.phase.Mapping? && MessagesOf(d.phase.batch) != []
      && Runs(Next(d, Finish), actions) && Lossless(Next(d, Finish), actions)
    ensures var d := Run(s, before); var t := Run(Next(d, Finish), actions);
      var first := d.phase.upTo - |MessagesOf(d.phase.batch)|;
      0 <= first <= d.phase.upTo <= t.synced && Covered(t, first, t.synced)
  {
    var d := Run(s, before);
    BootKeeps(s, before);
    FinishSetsBase(d);
    LosslessKeepsBase(Next(d, Finish), actions);
    var t := Run(Next(d, Finish), actions);
    BaseCovers(t, d.phase.upTo - |MessagesOf(d.phase.batch)|, t.synced);
  }

  // ---- what one cycle achieves ----

  predicate IsRealmAction(a: Action) {
    a.Post? || a.Broadcast? || a.RegisterOther? || a.Drop? || a.Subscribe?
  }

  lemma {:induction false} RealmActionsKeepPhase(s: System, actions: seq<Action>)
    requires Runs(s, actions) && forall i :: 0 <= i < |actions| ==> IsRealmAction(actions[i])
    ensures Run(s, actions).phase == s.phase
    decreases |actions|
  {
    if actions != [] {
      assert IsRealmAction(actions[0]);
      RealmActionsKeepPhase(Next(s, actions[0]), actions[1..]);
    }
  }

  /** A polled batch, finished after any interference, leaves everything stored at the
      poll emitted. */
  lemma LiveCycleCatchesUp(s: System, between: seq<Action>)
    requires Inv(s) && s.base.Some? && s.phase.Ready? && s.producer.queue == Some(s.phase.cursor)
    requires OwnsQueue(s.realm, s.seat, s.phase.cursor.queueId)
    requires Runs(Next(s, Poll), between) && forall i :: 0 <= i < |between| ==> IsRealmAction(between[i])
    ensures var d := Run(Next(s, Poll), between); d.phase.Mapping?
    ensures Covered(Next(Run(Next(s, Poll), between), Finish), s.base.value, |Inbox(s)|)
  {
    var p := Next(s, Poll);
    var d := Run(p, between);
    NextKeeps(s, Poll);
    RealmActionsKeepPhase(p, between);
    KeepBase(p, between);
    NextKeeps(d, Finish);
    LosslessStep(d, Finish);
    BaseCovers(Next(d, Finish), s.base.value, |Inbox(s)|);
  }

  lemma {:induction false} KeepBase(s: System, actions: seq<Action>)
    requires Inv(s) && Runs(s, actions) && forall i :: 0 <= i < |actions| ==> IsRealmAction(actions[i])
    ensures Inv(Run(s, actions)) && Run(s, actions).base == s.base && Run(s, actions).producer == s.producer
    decreases |actions|
  {
    if actions != [] {
      assert IsRealmAction(actions[0]);
      NextKeeps(s, actions[0]);
      KeepBase(Next(s, actions[0]), actions[1..]);
    }
  }

  /** A recovery whose snapshot is read in full leaves everything stored at the
      snapshot emitted, and polls a queue that was sent everything stored since. */
  lemma RecoveryCatchesUp(s: System, between: seq<Action>)
    requires Inv(s) && s.base.Some? && s.phase.Replaying? && !ReplaySnapshot(s.realm.history, s.phase.since).spent
    requires Runs(Next(s, Snapshot), between) && forall i :: 0 <= i < |between| ==> IsRealmAction(between[i])
    ensures var d := Run(Next(s, Snapshot), between); d.phase.Backfilling?
    ensures Covered(Next(Run(Next(s, Snapshot), between), Backfill), s.base.value, |Inbox(s)|)
  {
    var p := Next(s, Snapshot);
    var d := Run(p, between);
    NextKeeps(s, Snapshot);
    RealmActionsKeepPhase(p, between);
    KeepBase(p, between);
    NextKeeps(d, Backfill);
    BaseCovers(Next(d, Backfill), s.base.value, |Inbox(s)|);
  }

  /** The step ends with this queue polled next and this chunk handed on. */
  predicate TakesUp(p: System, n: System, c: Cursor, chunk: seq<InboundEvent>) {
    n.phase.Idle? && n.producer == p.producer.(queue := Some(c)) && n.out == p.out + chunk && n.watermark == p.watermark
  }

  /** A recovery waits for its replay, or has it in hand, with nothing else of the seat's moved. */
  predicate AwaitsReplay(p: System, s: System, c: Cursor) {
    && s.seat == p.seat && s.producer == p.producer && s.out == p.out && s.watermark == p.watermark
    && ((s.phase.Replaying? && s.phase.replacement == c) || (s.phase.Backfilling? && s.phase.replacement == c))
  }

  lemma {:induction false} StillAwaits(p: System, s: System, c: Cursor, between: seq<Action>)
    requires AwaitsReplay(p, s, c) && Runs(s, between)
    requires forall i :: 0 <= i < |between| ==> IsRealmAction(between[i]) || between[i].Snapshot?
    ensures AwaitsReplay(p, Run(s, between), c)
    decreases |between|
  {
    if between != [] {
      assert IsRealmAction(between[0]) || between[0].Snapshot?;
      StillAwaits(p, Next(s, between[0]), c, between[1..]);
    }
  }

  /** However a recovery ends, and whatever the realm does meanwhile, the producer goes on with
      the queue the recovery registered, from its beginning, and the registration it had
      observed stands; only a replay that succeeded hands anything on. */
  lemma RecoveryPollsFresh(p: System, between: seq<Action>, end: Action)
    requires p.phase.Recovering? && Runs(Next(p, Reregister), between)
    requires forall i :: 0 <= i < |between| ==> IsRealmAction(between[i]) || between[i].Snapshot?
    requires p.phase.anchor.Some? ==> (end.Backfill? || end.ReplayFail?) && Enabled(Run(Next(p, Reregister), between), end)
    ensures var own, q := Cursor(p.realm.serial + 1, -1), Run(Next(p, Reregister), between);
      if p.phase.anchor.None? then TakesUp(p, Next(p, Reregister), own, [])
      else TakesUp(p, Next(q, end), own, if end.Backfill? then MarkReplayed(MapMessages(p.seat, q.phase.gap)) else [])
  {
    var own, r := Cursor(p.realm.serial + 1, -1), Next(p, Reregister);
    if p.phase.anchor.Some? { StillAwaits(p, r, own, between); }
  }

  // ---- while one queue lives ----

  /** A run that goes on polling the same queue. */
  predicate StaysOn(s: System, actions: seq<Action>)
    requires Runs(s, actions)
    decreases |actions|
  {
    actions == [] ||
    (&& !actions[0].Reregister? && !actions[0].Backfill? && !actions[0].ReplayFail?
     && (actions[0].Finish? ==> s.producer.queue == Some(s.phase.cursor))
     && StaysOn(Next(s, actions[0]), actions[1..]))
  }

  /** `t` polls the same queue as `s`, no earlier in it, and has only added to the output. */
  predicate FurtherOn(s: System, t: System) {
    && s.producer.queue.Some? && t.producer.queue.Some? && t.seat == s.seat
    && t.producer.queue.value.queueId == s.producer.queue.value.queueId
    && t.producer.queue.value.lastEventId >= s.producer.queue.value.lastEventId
    && t.fromEvent == s.fromEvent && t.fromOut == s.fromOut && IsPrefix(s.out, t.out)
  }

  lemma StaysStep(s: System, a: Action)
    requires Inv(s) && s.producer.queue.Some? && Enabled(s, a)
    requires !a.Reregister? && !a.Backfill? && !a.ReplayFail? && (a.Finish? ==> s.producer.queue == Some(s.phase.cursor))
    ensures FurtherOn(s, Next(s, a))
  {
    if a.Finish? { FinishedCursor(s, s.phase.cursor, s.phase.batch); }
  }

  lemma FurtherTransitive(s: System, n: System, t: System)
    requires FurtherOn(s, n) && FurtherOn(n, t)
    ensures FurtherOn(s, t)
  {
    assert s.out == n.out[..|s.out|] == t.out[..|n.out|][..|s.out|];
  }

  lemma {:induction false} StaysPut(s: System, actions: seq<Action>)
    requires Inv(s) && s.producer.queue.Some? && Runs(s, actions) && StaysOn(s, actions)
    ensures Inv(Run(s, actions)) && FurtherOn(s, Run(s, actions))
    decreases |actions|
  {
    if actions != [] {
      var n := Next(s, actions[0]);
      NextKeeps(s, actions[0]);
      StaysStep(s, actions[0]);
      StaysPut(n, actions[1..]);
      FurtherTransitive(s, n, Run(n, actions[1..]));
    }
  }

  /** While one queue is polled, what a run emits is exactly the mapping of the events
      that queue issued between the two cursors, in id order, each id once, whatever
      heartbeats, 429s and steps failing in mid-batch happen on the way. */
  lemma ChunksAreTheQueue(s: System, before: seq<Action>, actions: seq<Action>)
    requires Boots(s) && Runs(s, before)
    requires var a := Run(s, before); a.producer.queue.Some? && Runs(a, actions) && StaysOn(a, actions)
    ensures var a := Run(s, before); EmitsQueueRun(a, Run(a, actions))
  {
    var a := Run(s, before);
    BootKeeps(s, before);
    StaysPut(a, actions);
    LogsGrow(a, actions);
    LiveDifference(a, Run(a, actions), a.producer.queue.value, Run(a, actions).producer.queue.value);
  }

  /** From `s` to `t` the output gained the mapping of one run of one queue's events. */
  predicate EmitsQueueRun(s: System, t: System) {
    && s.producer.queue.Some? && t.producer.queue.Some?
    && var c, d := s.producer.queue.value, t.producer.queue.value;
    && d.queueId == c.queueId && c.queueId in t.log && -1 <= c.lastEventId <= d.lastEventId < |t.log[c.queueId]|
    && t.out == s.out + MapEvents(s.seat, t.log[c.queueId][c.lastEventId + 1..d.lastEventId + 1])
    && forall k :: c.lastEventId < k <= d.lastEventId ==> t.log[c.queueId][k].id == k
  }

  lemma LiveDifference(s: System, t: System, c: Cursor, e: Cursor)
    requires FurtherOn(s, t) && s.producer.queue == Some(c) && t.producer.queue == Some(e) && CursorOk(s, c) && CursorOk(t, e)
    requires LiveTail(s.seat, s.log[c.queueId], s.out, s.fromEvent, s.fromOut, c.lastEventId)
    requires LiveTail(t.seat, t.log[c.queueId], t.out, t.fromEvent, t.fromOut, e.lastEventId)
    requires IsPrefix(s.log[c.queueId], t.log[c.queueId]) && Numbered(t.log[c.queueId])
    ensures EmitsQueueRun(s, t)
  {
    TailDifference(s.seat, s.log[c.queueId], t.log[c.queueId], s.out, t.out, s.fromEvent, s.fromOut, c.lastEventId, e.lastEventId);
  }

  /** Two points of one live stretch. */
  lemma TailDifference(seat: UserId, was: seq<QueuedEvent>, log: seq<QueuedEvent>, a: seq<InboundEvent>, t: seq<InboundEvent>,
                       fromEvent: int, fromOut: nat, last: int, end: int)
    requires LiveTail(seat, was, a, fromEvent, fromOut, last) && LiveTail(seat, log, t, fromEvent, fromOut, end)
    requires IsPrefix(was, log) && IsPrefix(a, t) && last <= end
    ensures t == a + MapEvents(seat, log[last + 1..end + 1])
  {
    SameSlice(was, log, fromEvent + 1, last + 1) by { assert log[..|was|][..last + 1] == log[..last + 1]; }
    AppendedPart(seat, a, t, fromOut, log, fromEvent + 1, last + 1, end + 1);
  }

  lemma AppendedPart(seat: UserId, a: seq<InboundEvent>, t: seq<InboundEvent>, k: nat, log: seq<QueuedEvent>,
                     x: nat, y: nat, z: nat)
    requires IsPrefix(a, t) && k <= |a| && x <= y <= z <= |log|
    requires a[k..] == MapEvents(seat, log[x..y]) && t[k..] == MapEvents(seat, log[x..z])
    ensures t == a + MapEvents(seat, log[y..z])
  {
    assert log[x..z] == log[x..y] + log[y..z];
    MapEventsConcat(seat, log[x..y], log[y..z]);
    TailGrew(a, t, k, a[k..], MapEvents(seat, log[y..z]));
  }

  lemma TailGrew<T>(a: seq<T>, t: seq<T>, k: nat, tail: seq<T>, gained: seq<T>)
    requires IsPrefix(a, t) && k <= |a| && a[k..] == tail && t[k..] == tail + gained
    ensures t == a + gained
  {
    assert |t| == |a| + |gained|;
    forall i | |a| <= i < |t| ensures t[i] == gained[i - |a|] { assert t[i] == t[k..][i - k]; }
  }

  lemma {:induction false} LogsGrow(s: System, actions: seq<Action>)
    requires Inv(s) && Runs(s, actions)
    ensures forall id :: id in s.log ==> id in Run(s, actions).log && IsPrefix(s.log[id], Run(s, actions).log[id])
    decreases |actions|
  {
    if actions != [] {
      var n := Next(s, actions[0]);
      NextKeeps(s, actions[0]);
      LogGrows(s, actions[0]);
      LogsGrow(n, actions[1..]);
      forall id | id in s.log ensures IsPrefix(s.log[id], Run(s, actions).log[id]) {
        var last := Run(s, actions).log[id];
        assert last[..|s.log[id]|] == last[..|n.log[id]|][..|s.log[id]|];
      }
    }
  }

  lemma KeepsLog(s: System, a: Action, id: QueueId)
    requires Inv(s) && Enabled(s, a) && id in s.log && !a.Post? && !a.Broadcast? && !a.Poll?
    ensures id in Next(s, a).log && Next(s, a).log[id] == s.log[id]
  {
    assert id <= s.realm.serial;
  }

  lemma LogGrows(s: System, a: Action)
    requires Inv(s) && Enabled(s, a)
    ensures forall id :: id in s.log ==> id in Next(s, a).log && IsPrefix(s.log[id], Next(s, a).log[id])
  {
    if a.Post? {
      PostGrows(s, a.draft);
    } else if a.Broadcast? {
      DeliveredGrows(s, Next(s, a), a.audience, a.kind, a.body, []);
    } else if a.Poll? {
      PollLogGrows(s);
    } else {
      forall id | id in s.log ensures id in Next(s, a).log && IsPrefix(s.log[id], Next(s, a).log[id]) { KeepsLog(s, a, id); }
    }
  }

  lemma PollLogGrows(s: System)
    requires Inv(s) && Enabled(s, Poll)
    ensures forall id :: id in s.log ==> id in Next(s, Poll).log && IsPrefix(s.log[id], Next(s, Poll).log[id])
  {
    if OwnsQueue(s.realm, s.seat, s.phase.cursor.queueId) { PollAnswers(s, s.phase.cursor); }
  }

  // ---- where the promise stops: a registration adopted after its queue died ----

  /** The inbox's registration is still to be adopted and its queue is gone. */
  predicate Stuck(s: System) {
    && Adopts(s) && s.registration.value.queueId !in s.realm.queues && s.registration.value.queueId <= s.realm.serial
    && (match s.phase
        case Idle => true
        case Ready(_, c) => c == s.registration.value
        case Recovering(_) => true
        case Replaying(_, _) => true
        case Backfilling(_, _, _, _) => true
        case _ => false)
  }

  /** `handleBadQueue` goes on from the pre-step state, so the dead registration is
      adopted again by the next step, and by every step after it: the replacement
      queues it registers are never polled and no live batch is ever finished. */
  lemma {:induction false} StuckForever(s: System, actions: seq<Action>)
    requires Stuck(s) && Runs(s, actions)
    ensures Stuck(Run(s, actions))
    ensures forall i :: 0 <= i < |actions| ==> !actions[i].Finish?
    decreases |actions|
  {
    if actions != [] {
      var n := Next(s, actions[0]);
      assert Stuck(n);
      StuckForever(n, actions[1..]);
      forall i | 0 <= i < |actions| ensures !actions[i].Finish? {
        if i > 0 { assert actions[i] == actions[1..][i - 1]; }
      }
    }
  }

  /** An adoption sticks exactly when its queue is alive at the poll: an answered poll
      commits the registration, a refused one leaves it to be adopted again. */
  lemma AdoptionCommitsIffAlive(s: System)
    requires Inv(s) && s.phase.Idle? && Adopts(s)
    ensures var p := Next(Next(s, Begin), Poll);
      var n := if p.phase.Mapping? then Next(p, Finish) else Next(p, Reregister);
      Adopts(n) <==> s.registration.value.queueId !in s.realm.queues
  {
  }

  /** Any idle producer reaches that state: a first subscribe registers a queue and the
      realm drops it before the producer has polled it. */
  lemma StuckIsReachable(s: System)
    requires Inv(s) && s.phase.Idle? && s.registration.None? && s.producer.observed.None?
    ensures var lost := [Subscribe, Drop(s.realm.serial + 1)];
      Runs(s, lost) && Inv(Run(s, lost)) && Stuck(Run(s, lost))
  {
    var drop := Drop(s.realm.serial + 1);
    LostRegistration(s);
    SubscribeKeeps(s);
    NextKeeps(Next(s, Subscribe), drop);
    RunTwo(s, Subscribe, drop);
  }

  lemma RunTwo(s: System, a: Action, b: Action)
    requires Enabled(s, a) && Enabled(Next(s, a), b)
    ensures Runs(s, [a, b]) && Run(s, [a, b]) == Next(Next(s, a), b)
  {
    var n := Next(s, a);
    assert [a, b][1..] == [b] && [b][1..] == [];
    assert Runs(n, [b]) by { assert Runs(Next(n, b), []); }
    assert Run(n, [b]) == Run(Next(n, b), [b][1..]) == Next(n, b);
  }

  lemma LostRegistration(s: System)
    requires Inv(s) && s.phase.Idle? && s.registration.None? && s.producer.observed.None?
    ensures Enabled(Next(s, Subscribe), Drop(s.realm.serial + 1))
    ensures Stuck(Next(Next(s, Subscribe), Drop(s.realm.serial + 1)))
  {
  }

  /** With no watermark to replay from, a stuck producer never emits anything again. */
  lemma {:induction false} StuckIsDeaf(s: System, actions: seq<Action>)
    requires Stuck(s) && s.watermark.None? && Runs(s, actions)
    requires s.phase.Idle? || s.phase.Ready? || s.phase == Recovering(None)
    ensures Run(s, actions).out == s.out
    decreases |actions|
  {
    if actions != [] { StuckIsDeaf(Next(s, actions[0]), actions[1..]); }
  }
}
