/** What the producer's chunks are made of: each message posted once in its order, a mention
    right after the post that carries it, every reaction (packages/zulip/events.ts,
    `messageToInboundEvents` and `processSingleEvent`). */
module Chunks {
  import opened Core
  import opened Realm
  import opened Producer
  import opened DeliveryInvariant
  import opened DeliveryFinish
  import opened Delivery

  // ---- reading a chunk back ----

  /** The reactions among queued events. */
  function ReactionsOf(events: seq<QueuedEvent>): seq<Reaction> {
    if events == [] then [] else
    (if events[0].body.ReactionEvent? then [Reaction(events[0].body.target, events[0].body.actor)] else [])
    + ReactionsOf(events[1..])
  }

  function Mentions(seat: UserId): Message -> bool { (m: Message) => seat in m.mentioned }

  /** Every message event says how it came. */
  predicate Marked(events: seq<InboundEvent>, replayed: bool) {
    forall i :: 0 <= i < |events| && IsMessage(events[i]) ==> events[i].replayed == replayed
  }

  /** A mention of the seat stands right after its post, and only there. */
  predicate Paired(seat: UserId, events: seq<InboundEvent>) {
    && (forall i :: 0 <= i < |events| && events[i].MentionReceived? ==>
          i > 0 && events[i - 1] == MessagePosted(events[i].m, events[i].replayed) && seat in events[i].m.mentioned)
    && (forall i :: 0 <= i < |events| && events[i].MessagePosted? && seat in events[i].m.mentioned ==>
          i + 1 < |events| && events[i + 1] == MentionReceived(events[i].m, events[i].replayed))
  }

  lemma PairedConcat(seat: UserId, a: seq<InboundEvent>, b: seq<InboundEvent>)
    requires Paired(seat, a) && Paired(seat, b)
    ensures Paired(seat, a + b)
  {
    var all := a + b;
    forall i | 0 <= i < |all| && all[i].MentionReceived?
      ensures i > 0 && all[i - 1] == MessagePosted(all[i].m, all[i].replayed) && seat in all[i].m.mentioned
    {
      if i >= |a| { assert b[i - |a|] == all[i] && b[i - |a| - 1] == all[i - 1]; }
    }
    forall i | 0 <= i < |all| && all[i].MessagePosted? && seat in all[i].m.mentioned
      ensures i + 1 < |all| && all[i + 1] == MentionReceived(all[i].m, all[i].replayed)
    {
      if i < |a| { assert a[i + 1] == all[i + 1]; } else { assert b[i - |a| + 1] == all[i + 1]; }
    }
  }

  // ---- one event ----

  /** What a message comes to, live or replayed. */
  predicate Says(seat: UserId, events: seq<InboundEvent>, posts: seq<Message>, reactions: seq<Reaction>, replayed: bool) {
    && PostsIn(events) == posts && MentionsIn(events) == Filter(Mentions(seat), posts) && ReactionsIn(events) == reactions
    && Marked(events, replayed) && Paired(seat, events)
  }

  lemma SaysNothing(seat: UserId, replayed: bool)
    ensures Says(seat, [], [], [], replayed)
  {
  }

  lemma SaysConcat(seat: UserId, a: seq<InboundEvent>, b: seq<InboundEvent>, p: seq<Message>, q: seq<Message>,
                   x: seq<Reaction>, y: seq<Reaction>, replayed: bool)
    requires Says(seat, a, p, x, replayed) && Says(seat, b, q, y, replayed)
    ensures Says(seat, a + b, p + q, x + y, replayed)
  {
    PostsConcat(a, b);
    MentionsConcat(a, b);
    ReactionsConcat(a, b);
    PairedConcat(seat, a, b);
    FilterConcat(Mentions(seat), p, q);
  }

  lemma MessageSays(seat: UserId, m: Message)
    ensures Says(seat, MessageToInbound(seat, m), [m], [], false)
  {
    var post, mention := MessagePosted(m, false), MentionReceived(m, false);
    assert [m][1..] == [];
    OneIn(post);
    if seat in m.mentioned {
      assert MessageToInbound(seat, m) == [post] + [mention];
      OneIn(mention);
      PostsConcat([post], [mention]);
      MentionsConcat([post], [mention]);
      ReactionsConcat([post], [mention]);
    } else {
      assert MessageToInbound(seat, m) == [post];
    }
  }

  lemma EventSays(seat: UserId, e: QueuedEvent)
    ensures Says(seat, MapEvent(seat, e), MessagesOf([e]), ReactionsOf([e]), false)
  {
    assert [e][1..] == [];
    match e.body
    case MessageEvent(m) => MessageSays(seat, m);
    case ReactionEvent(target, actor) => OneIn(ReactionSeen(target, actor));
    case _ => SaysNothing(seat, false);
  }

  // ---- whole chunks ----

  lemma {:induction false} ReactionsSplit(e: QueuedEvent, rest: seq<QueuedEvent>)
    ensures ReactionsOf([e] + rest) == ReactionsOf([e]) + ReactionsOf(rest)
    ensures MessagesOf([e] + rest) == MessagesOf([e]) + MessagesOf(rest)
  {
    assert ([e] + rest)[1..] == rest && [e][1..] == [];
  }

  /** A live batch comes to exactly its messages, each posted once and in order, the mentions
      of the seat among them right after their posts, and its reactions. */
  lemma {:induction false} BatchSays(seat: UserId, events: seq<QueuedEvent>)
    ensures Says(seat, MapEvents(seat, events), MessagesOf(events), ReactionsOf(events), false)
  {
    if events == [] {
      SaysNothing(seat, false);
    } else {
      var e, rest := events[0], events[1..];
      assert events == [e] + rest;
      EventSays(seat, e);
      BatchSays(seat, rest);
      SaysConcat(seat, MapEvent(seat, e), MapEvents(seat, rest), MessagesOf([e]), MessagesOf(rest), ReactionsOf([e]),
                 ReactionsOf(rest), false);
      ReactionsSplit(e, rest);
    }
  }

  lemma {:induction false} RowsSay(seat: UserId, rows: seq<Message>)
    ensures Says(seat, MapMessages(seat, rows), rows, [], false)
  {
    if rows == [] {
      SaysNothing(seat, false);
    } else {
      MessageSays(seat, rows[0]);
      RowsSay(seat, rows[1..]);
      SaysConcat(seat, MessageToInbound(seat, rows[0]), MapMessages(seat, rows[1..]), [rows[0]], rows[1..], [], [], false);
      assert rows == [rows[0]] + rows[1..];
    }
  }

  /** A replay comes to exactly its rows in the same way, each marked as replayed. */
  lemma ReplaySays(seat: UserId, rows: seq<Message>)
    ensures Says(seat, MarkReplayed(MapMessages(seat, rows)), rows, [], true)
  {
    RowsSay(seat, rows);
    MarkedAlike(MapMessages(seat, rows));
    MarkedPairs(seat, MapMessages(seat, rows));
  }

  lemma {:induction false} MarkedAlike(events: seq<InboundEvent>)
    ensures var marked := MarkReplayed(events);
      && PostsIn(marked) == PostsIn(events) && MentionsIn(marked) == MentionsIn(events) && ReactionsIn(marked) == ReactionsIn(events)
      && Marked(marked, true)
  {
    if events != [] {
      MarkedAlike(events[1..]);
      assert MarkReplayed(events)[1..] == MarkReplayed(events[1..]);
    }
  }

  lemma MarkedPairs(seat: UserId, events: seq<InboundEvent>)
    requires Paired(seat, events)
    ensures Paired(seat, MarkReplayed(events))
  {
    var marked := MarkReplayed(events);
    forall i | 0 <= i < |marked| && marked[i].MentionReceived?
      ensures i > 0 && marked[i - 1] == MessagePosted(marked[i].m, marked[i].replayed) && seat in marked[i].m.mentioned
    {
      assert events[i].MentionReceived?;
    }
    forall i | 0 <= i < |marked| && marked[i].MessagePosted? && seat in marked[i].m.mentioned
      ensures i + 1 < |marked| && marked[i + 1] == MentionReceived(marked[i].m, marked[i].replayed)
    {
      assert events[i].MessagePosted?;
    }
  }

  // ---- event by event ----

  lemma {:induction false} InPosts(events: seq<InboundEvent>, m: Message)
    ensures m in PostsIn(events) <==> exists r :: MessagePosted(m, r) in events
    ensures m in MentionsIn(events) <==> exists r :: MentionReceived(m, r) in events
  {
    if events != [] {
      InPosts(events[1..], m);
      assert events == [events[0]] + events[1..];
      if events[0].MessagePosted? && events[0].m == m { assert MessagePosted(m, events[0].replayed) in events; }
      if events[0].MentionReceived? && events[0].m == m { assert MentionReceived(m, events[0].replayed) in events; }
      if r :| MessagePosted(m, r) in events[1..] { assert MessagePosted(m, r) in events; }
      if r :| MentionReceived(m, r) in events[1..] { assert MentionReceived(m, r) in events; }
    }
  }

  lemma {:induction false} InReactions(events: seq<InboundEvent>, target: nat, actor: UserId)
    ensures Reaction(target, actor) in ReactionsIn(events) <==> ReactionSeen(target, actor) in events
  {
    if events != [] {
      InReactions(events[1..], target, actor);
      assert events == [events[0]] + events[1..];
    }
  }

  lemma {:induction false} InBatch(events: seq<QueuedEvent>, m: Message, target: nat, actor: UserId)
    ensures m in MessagesOf(events) <==> exists e :: e in events && e.body == MessageEvent(m)
    ensures Reaction(target, actor) in ReactionsOf(events) <==> exists e :: e in events && e.body == ReactionEvent(target, actor)
  {
    if events != [] {
      InBatch(events[1..], m, target, actor);
      assert events == [events[0]] + events[1..];
      assert events[0] in events;
      if e :| e in events[1..] && e.body == MessageEvent(m) { assert e in events; }
      if e :| e in events[1..] && e.body == ReactionEvent(target, actor) { assert e in events; }
    }
  }

  /** Event by event: a live batch posts the messages it holds, mentions the seat for those
      that mention it, and shows the reactions it holds; it does nothing else. */
  lemma BatchMeans(seat: UserId, events: seq<QueuedEvent>, m: Message, replayed: bool, target: nat, actor: UserId)
    ensures MessagePosted(m, replayed) in MapEvents(seat, events) <==>
      !replayed && exists e :: e in events && e.body == MessageEvent(m)
    ensures MentionReceived(m, replayed) in MapEvents(seat, events) <==>
      !replayed && seat in m.mentioned && exists e :: e in events && e.body == MessageEvent(m)
    ensures ReactionSeen(target, actor) in MapEvents(seat, events) <==>
      exists e :: e in events && e.body == ReactionEvent(target, actor)
  {
    var chunk := MapEvents(seat, events);
    BatchSays(seat, events);
    MarkIs(chunk, m, replayed, false);
    InPosts(chunk, m);
    InReactions(chunk, target, actor);
    InBatch(events, m, target, actor);
    FilterMember(Mentions(seat), MessagesOf(events), m);
  }

  lemma MarkIs(chunk: seq<InboundEvent>, m: Message, replayed: bool, mark: bool)
    requires Marked(chunk, mark)
    ensures MessagePosted(m, replayed) in chunk ==> replayed == mark
    ensures MentionReceived(m, replayed) in chunk ==> replayed == mark
  {
  }

  /** The same of a replay. */
  lemma ReplayMeans(seat: UserId, rows: seq<Message>, m: Message, replayed: bool, target: nat, actor: UserId)
    ensures var chunk := MarkReplayed(MapMessages(seat, rows));
      && (MessagePosted(m, replayed) in chunk <==> replayed && m in rows)
      && (MentionReceived(m, replayed) in chunk <==> replayed && m in rows && seat in m.mentioned)
      && ReactionSeen(target, actor) !in chunk
  {
    var chunk := MarkReplayed(MapMessages(seat, rows));
    ReplaySays(seat, rows);
    MarkIs(chunk, m, replayed, true);
    InPosts(chunk, m);
    InReactions(chunk, target, actor);
    FilterMember(Mentions(seat), rows, m);
  }

  // ---- over whole runs ----

  lemma OutGains(s: System, a: Action)
    requires Enabled(s, a)
    ensures Next(s, a).seat == s.seat
    ensures Next(s, a).out == s.out + if a.Finish? then MapEvents(s.seat, s.phase.batch)
                                      else if a.Backfill? then MarkReplayed(MapMessages(s.seat, s.phase.gap)) else []
  {
    assert s.out + [] == s.out;
  }

  /** In every run, whatever is emitted, live or replayed, has its mention of the seat right
      behind it, and no mention stands alone. */
  lemma {:induction false} MentionsFollowPosts(s: System, actions: seq<Action>)
    requires Runs(s, actions) && Paired(s.seat, s.out)
    ensures Run(s, actions).seat == s.seat && Paired(s.seat, Run(s, actions).out)
    decreases |actions|
  {
    if actions != [] {
      var a := actions[0];
      OutGains(s, a);
      if a.Finish? {
        BatchSays(s.seat, s.phase.batch);
        PairedConcat(s.seat, s.out, MapEvents(s.seat, s.phase.batch));
      } else if a.Backfill? {
        ReplaySays(s.seat, s.phase.gap);
        PairedConcat(s.seat, s.out, MarkReplayed(MapMessages(s.seat, s.phase.gap)));
      } else {
        assert s.out + [] == s.out;
      }
      MentionsFollowPosts(Next(s, a), actions[1..]);
    }
  }

  // ---- reactions ----

  /** A live queue of the seat's that asks for reactions, as those it registers do. */
  predicate OwnQueue(s: System, id: QueueId) {
    id in s.realm.queues && id in s.log && s.realm.queues[id].owner == s.seat && Wants(s.realm.queues[id], ReactionType)
  }

  /** The queues of a first subscribe, of a lazy register and of a recovery are such. */
  lemma RegistersOwn(s: System, a: Action)
    requires Enabled(s, a) && (a.Subscribe? || a.LazyRegister? || a.Reregister?)
    ensures OwnQueue(Next(s, a), Next(s, a).realm.serial)
  {
  }

  predicate Heard(s: System, id: QueueId, target: nat, actor: UserId) {
    id in s.log && exists e :: e in s.log[id] && e.body == ReactionEvent(target, actor)
  }

  lemma ReactionIsQueued(s: System, id: QueueId, audience: set<UserId>, target: nat, actor: UserId)
    requires OwnQueue(s, id) && s.seat in audience
    ensures Heard(Next(s, Broadcast(audience, ReactionType, ReactionEvent(target, actor))), id, target, actor)
  {
    var e := QueuedEvent(s.realm.queues[id].lastIssued + 1, ReactionEvent(target, actor));
    var n := Next(s, Broadcast(audience, ReactionType, ReactionEvent(target, actor)));
    assert n.log[id] == s.log[id] + [e];
    assert e in n.log[id];
  }

  /** A reaction the realm sends the seat is on its live queue, in every run from there. */
  lemma ReactionsReachTheQueue(s: System, id: QueueId, audience: set<UserId>, target: nat, actor: UserId, after: seq<Action>)
    requires Inv(s) && OwnQueue(s, id) && s.seat in audience
    requires Runs(Next(s, Broadcast(audience, ReactionType, ReactionEvent(target, actor))), after)
    ensures Heard(Run(Next(s, Broadcast(audience, ReactionType, ReactionEvent(target, actor))), after), id, target, actor)
  {
    var a := Broadcast(audience, ReactionType, ReactionEvent(target, actor));
    var n := Next(s, a);
    ReactionIsQueued(s, id, audience, target, actor);
    NextKeeps(s, a);
    LogsGrow(n, after);
    StillHeard(n.log[id], Run(n, after).log[id], ReactionEvent(target, actor));
  }

  lemma StillHeard(was: seq<QueuedEvent>, log: seq<QueuedEvent>, body: EventBody)
    requires IsPrefix(was, log) && exists e :: e in was && e.body == body
    ensures exists e :: e in log && e.body == body
  {
    var e :| e in was && e.body == body;
    var i :| 0 <= i < |was| && was[i] == e;
    assert log[i] == e;
  }

  /** And is emitted once the cursor has passed it. */
  lemma ReactionIsEmitted(s: System, t: System, k: int)
    requires EmitsQueueRun(s, t)
    requires s.producer.queue.value.lastEventId < k <= t.producer.queue.value.lastEventId
    requires t.log[s.producer.queue.value.queueId][k].body.ReactionEvent?
    ensures var body := t.log[s.producer.queue.value.queueId][k].body; ReactionSeen(body.target, body.actor) in t.out
  {
    var log, last := t.log[s.producer.queue.value.queueId], s.producer.queue.value.lastEventId;
    var batch := log[last + 1..t.producer.queue.value.lastEventId + 1];
    assert batch[k - last - 1] == log[k] && log[k] in batch;
    InBatch(batch, Message(0, 0, 0, "", 0, {}, {}), log[k].body.target, log[k].body.actor);
    BatchSays(s.seat, batch);
    InReactions(MapEvents(s.seat, batch), log[k].body.target, log[k].body.actor);
  }
}
