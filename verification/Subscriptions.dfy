/** One set of subscribe and unsubscribe rules, kept three times: by the narrow set, by
    the Zulip inbox over the seat's realm rows (packages/zulip/adapter.ts) and by the
    in-memory inbox (packages/memory/adapter.ts). A subscription target is an intent. */
module Subscriptions {
  import opened Core
  import opened NarrowSet

  // ---- the Zulip inbox and the rows the realm holds for the seat ----

  datatype HeldNarrow = HeldNarrow(channel: ChannelName, thread: Option<ThreadName>)

  datatype InboxState = InboxState(heldNarrows: set<HeldNarrow>, newTopicsChannels: set<ChannelName>,
                                   seenTopicsByChannel: map<ChannelName, set<ThreadName>>, registered: bool)

  function HeldNarrowOf(target: Intent): HeldNarrow
    requires !target.NewTopics?
  {
    HeldNarrow(target.channel, if target.Channel? then None else Some(target.thread))
  }

  predicate HoldsChannel(s: InboxState, c: ChannelName) {
    exists n :: n in s.heldNarrows && n.channel == c
  }

  predicate StreamIsListening(s: InboxState, c: ChannelName) {
    HoldsChannel(s, c) || c in s.newTopicsChannels
  }

  function Narrowed(s: InboxState, target: Intent): InboxState {
    if target.NewTopics?
    then s.(newTopicsChannels := s.newTopicsChannels + {target.channel})
    else s.(heldNarrows := s.heldNarrows + {HeldNarrowOf(target)})
  }

  function Widened(s: InboxState, target: Intent): InboxState {
    var dropped := s.(newTopicsChannels := s.newTopicsChannels - {target.channel},
                      seenTopicsByChannel := s.seenTopicsByChannel - {target.channel});
    match target
    case NewTopics(_) => dropped
    case Channel(c) => dropped.(heldNarrows := set n | n in s.heldNarrows && n.channel != c)
    case Thread(_, _) => s.(heldNarrows := s.heldNarrows - {HeldNarrowOf(target)})
  }

  datatype World = World(inbox: InboxState, channels: set<ChannelName>, rows: set<ChannelName>)

  const NEW_WORLD := World(InboxState({}, {}, map[], false), {}, {})

  /** What became of a request: answered, or failed after or before it reached the realm. */
  datatype Sent = Answered | AnswerLost | RequestLost

  /** A call, with the outcome of the requests it may make: of the subscriptions request,
      and whether an event queue could be registered. */
  datatype Call =
    | Subscribe(target: Intent, sent: Sent, registers: bool)
    | Unsubscribe(target: Intent, sent: Sent)

  /** Whether the call asks the realm for the seat's row, or for its removal. */
  predicate AsksRealm(w: World, call: Call) {
    match call
    case Subscribe(t, _, _) => !StreamIsListening(w.inbox, t.channel)
    case Unsubscribe(t, _) => !StreamIsListening(Widened(w.inbox, t), t.channel)
  }

  predicate Succeeds(w: World, call: Call) {
    match call
    case Subscribe(_, sent, registers) => (AsksRealm(w, call) ==> sent.Answered?) && (w.inbox.registered || registers)
    case Unsubscribe(t, sent) => AsksRealm(w, call) ==> sent.Answered? && t.channel in w.channels
  }

  function Called(w: World, call: Call): World {
    match call
    case Subscribe(t, sent, registers) =>
      var next := Narrowed(w.inbox, t);
      var queued := next.(registered := next.registered || registers);
      if !AsksRealm(w, call) then w.(inbox := queued)
      else match sent {
        case Answered => World(queued, w.channels + {t.channel}, w.rows + {t.channel})
        case AnswerLost => World(next, w.channels + {t.channel}, w.rows + {t.channel})
        case RequestLost => w.(inbox := next)
      }
    case Unsubscribe(t, sent) =>
      w.(inbox := Widened(w.inbox, t),
         rows := if AsksRealm(w, call) && !sent.RequestLost? && t.channel in w.channels then w.rows - {t.channel} else w.rows)
  }

  /** The adapter's own filter: it intercepts posts in channels with a new-topics narrow. */
  predicate ShouldDeliver(s: InboxState, e: Event) {
    e.Posted? && e.ref.channel in s.newTopicsChannels ==>
      HoldsChannel(s, e.ref.channel) || e.mentionsBot || FirstOfTopic(s, e.ref)
  }

  function SeenIn(s: InboxState, c: ChannelName): set<ThreadName> {
    if c in s.seenTopicsByChannel then s.seenTopicsByChannel[c] else {}
  }

  predicate FirstOfTopic(s: InboxState, ref: Ref) {
    ref.thread.Some? && ref.thread.value !in SeenIn(s, ref.channel)
  }

  function Observed(s: InboxState, e: Event): InboxState {
    if e.Posted? && e.ref.channel in s.newTopicsChannels && FirstOfTopic(s, e.ref)
    then s.(seenTopicsByChannel :=
            s.seenTopicsByChannel[e.ref.channel := SeenIn(s, e.ref.channel) + {e.ref.thread.value}])
    else s
  }

  class SeatRealm {
    var channels: set<ChannelName>
    var rows: set<ChannelName>

    constructor ()
      ensures channels == {} && rows == {}
    {
      channels, rows := {}, {};
    }

    method PostSubscription(name: ChannelName, sent: Sent) returns (ok: bool)
      modifies this
      ensures ok == sent.Answered?
      ensures channels == old(channels) + (if sent.RequestLost? then {} else {name})
      ensures rows == old(rows) + (if sent.RequestLost? then {} else {name})
    {
      ok := sent == Answered;
      if sent != RequestLost { channels, rows := channels + {name}, rows + {name}; }
    }

    method DeleteSubscription(name: ChannelName, sent: Sent) returns (ok: bool)
      modifies this
      ensures ok == (sent.Answered? && name in old(channels)) && channels == old(channels)
      ensures rows == old(rows) - (if !sent.RequestLost? && name in old(channels) then {name} else {})
    {
      ok := sent == Answered && name in channels;
      if sent != RequestLost && name in channels { rows := rows - {name}; }
    }
  }

  class ZulipInbox {
    var heldNarrows: set<HeldNarrow>
    var newTopicsChannels: set<ChannelName>
    var seenTopicsByChannel: map<ChannelName, set<ThreadName>>
    var registered: bool
    const realm: SeatRealm

    constructor ()
      ensures fresh(realm) && Abstract() == NEW_WORLD
    {
      heldNarrows, newTopicsChannels, seenTopicsByChannel, registered := {}, {}, map[], false;
      realm := new SeatRealm();
    }

    function Inbox(): InboxState reads this {
      InboxState(heldNarrows, newTopicsChannels, seenTopicsByChannel, registered)
    }

    function Abstract(): World reads this, realm { World(Inbox(), realm.channels, realm.rows) }

    method Subscribe(target: Intent, sent: Sent, registers: bool) returns (ok: bool)
      modifies this, realm
      ensures ok == Succeeds(old(Abstract()), Call.Subscribe(target, sent, registers))
      ensures Abstract() == Called(old(Abstract()), Call.Subscribe(target, sent, registers))
    {
      var wasListening := StreamIsListening(Inbox(), target.channel);
      if target.NewTopics? {
        newTopicsChannels := newTopicsChannels + {target.channel};
      } else {
        heldNarrows := heldNarrows + {HeldNarrowOf(target)};
      }
      ok := true;
      if !wasListening { ok := realm.PostSubscription(target.channel, sent); }
      if ok && !registered {
        registered := registers;
        ok := registers;
      }
    }

    method Unsubscribe(target: Intent, sent: Sent) returns (ok: bool)
      modifies this, realm
      ensures ok == Succeeds(old(Abstract()), Call.Unsubscribe(target, sent))
      ensures Abstract() == Called(old(Abstract()), Call.Unsubscribe(target, sent))
    {
      if target.Thread? {
        heldNarrows := heldNarrows - {HeldNarrowOf(target)};
      } else {
        newTopicsChannels := newTopicsChannels - {target.channel};
        seenTopicsByChannel := seenTopicsByChannel - {target.channel};
        if target.Channel? { heldNarrows := set n | n in heldNarrows && n.channel != target.channel; }
      }
      ok := true;
      if !StreamIsListening(Inbox(), target.channel) { ok := realm.DeleteSubscription(target.channel, sent); }
    }

    method Filter(e: Event) returns (pass: bool)
      modifies this
      ensures pass == ShouldDeliver(old(Inbox()), e)
      ensures Inbox() == Observed(old(Inbox()), e)
    {
      if !e.Posted? || e.ref.channel !in newTopicsChannels { return true; }
      var first := FirstOfTopic(Inbox(), e.ref);
      var holds := HoldsChannel(Inbox(), e.ref.channel);
      if first {
        var seen := SeenIn(Inbox(), e.ref.channel);
        seenTopicsByChannel := seenTopicsByChannel[e.ref.channel := seen + {e.ref.thread.value}];
      }
      pass := holds || e.mentionsBot || first;
    }
  }

  // ---- the in-memory inbox ----

  datatype SubKey =
    | MentionsKey
    | ChannelSub(channelName: ChannelName)
    | ThreadSub(channelName: ChannelName, threadName: ThreadName)
    | NewTopicsSub(channelName: ChannelName)

  const MENTIONS: ChannelName := "mentions"

  function SubscriptionKey(t: Intent): SubKey {
    match t
    case Channel(c) => if c == MENTIONS then MentionsKey else ChannelSub(c)
    case Thread(c, name) => ThreadSub(c, name)
    case NewTopics(c) => NewTopicsSub(c)
  }

  function MemoryApply(subs: set<SubKey>, d: Delta): set<SubKey> {
    if d.Add? then subs + {SubscriptionKey(d.key)}
    else if d.key.Channel? && d.key.channel != MENTIONS
    then set k | k in subs && (k.MentionsKey? || k.channelName != d.key.channel)
    else subs - {SubscriptionKey(d.key)}
  }

  function MemoryRun(deltas: seq<Delta>): set<SubKey> {
    if deltas == [] then {} else MemoryApply(MemoryRun(deltas[..|deltas| - 1]), deltas[|deltas| - 1])
  }

  /** The channels the in-memory inbox reads back. */
  function ReadBack(subs: set<SubKey>): set<ChannelName> {
    set k | k in subs && !k.MentionsKey? :: k.channelName
  }

  class MemoryInbox {
    var subs: set<SubKey>

    constructor ()
      ensures subs == {}
    {
      subs := {};
    }

    method Subscribe(target: Intent)
      modifies this
      ensures subs == MemoryApply(old(subs), Add(target))
    {
      subs := subs + {SubscriptionKey(target)};
    }

    method Unsubscribe(target: Intent)
      modifies this
      ensures subs == MemoryApply(old(subs), Remove(target))
    {
      if target.Channel? && target.channel != MENTIONS {
        subs := set k | k in subs && (k.MentionsKey? || k.channelName != target.channel);
      } else {
        subs := subs - {SubscriptionKey(target)};
      }
    }

    method Channels() returns (names: set<ChannelName>)
      ensures names == ReadBack(subs)
      ensures forall t: Intent :: SubscriptionKey(t) in subs && t != Channel(MENTIONS) ==> t.channel in names
      ensures forall c :: c in names ==> exists k :: k in subs && !k.MentionsKey? && k.channelName == c
    {
      names := set k | k in subs && !k.MentionsKey? :: k.channelName;
      forall t: Intent | SubscriptionKey(t) in subs && t != Channel(MENTIONS) ensures t.channel in names {
        assert SubscriptionKey(t).channelName == t.channel;
      }
    }
  }

  // ---- the Zulip inbox refines the narrow set ----

  /** The intent is held by the Zulip inbox. */
  predicate Holds(s: InboxState, k: Intent) {
    if k.NewTopics? then k.channel in s.newTopicsChannels else HeldNarrowOf(k) in s.heldNarrows
  }

  /** The inbox holds exactly these intents. */
  ghost predicate InStep(s: InboxState, keys: set<Intent>) {
    forall k :: k in keys <==> Holds(s, k)
  }

  ghost predicate RowsTrack(w: World) {
    w.rows <= w.channels && forall c :: c in w.rows <==> StreamIsListening(w.inbox, c)
  }

  function DeltaOf(call: Call): Delta { if call.Subscribe? then Add(call.target) else Remove(call.target) }

  lemma HeldIsIntent(n: HeldNarrow)
    ensures HeldNarrowOf(if n.thread.None? then Channel(n.channel) else Thread(n.channel, n.thread.value)) == n
  {
  }

  /** The channel is listened to exactly when some intent held names it. */
  lemma ListeningIsIntent(s: InboxState, keys: set<Intent>, c: ChannelName)
    requires InStep(s, keys)
    ensures StreamIsListening(s, c) <==> exists k :: k in keys && k.channel == c
  {
    if k :| k in keys && k.channel == c {
      if !k.NewTopics? { assert HeldNarrowOf(k) in s.heldNarrows; }
    }
    if HoldsChannel(s, c) {
      var n :| n in s.heldNarrows && n.channel == c;
      HeldIsIntent(n);
      var k := if n.thread.None? then Channel(n.channel) else Thread(n.channel, n.thread.value);
      assert Holds(s, k);
    }
    if c in s.newTopicsChannels { assert Holds(s, NewTopics(c)); }
  }

  /** Whatever becomes of its requests, a call moves the inbox exactly as it moves the
      narrow set. */
  lemma CallKeepsStep(w: World, keys: set<Intent>, call: Call)
    requires InStep(w.inbox, keys)
    ensures InStep(Called(w, call).inbox, Apply(DeltaOf(call), keys))
  {
  }

  lemma OtherChannelsUntouched(s: InboxState, t: Intent, c: ChannelName)
    requires c != t.channel
    ensures StreamIsListening(Narrowed(s, t), c) <==> StreamIsListening(s, c)
    ensures StreamIsListening(Widened(s, t), c) <==> StreamIsListening(s, c)
  {
    if HoldsChannel(s, c) {
      var n :| n in s.heldNarrows && n.channel == c;
      assert n in Narrowed(s, t).heldNarrows && n in Widened(s, t).heldNarrows;
    }
  }

  lemma NarrowedListens(s: InboxState, t: Intent)
    ensures StreamIsListening(Narrowed(s, t), t.channel)
  {
    if !t.NewTopics? { assert HeldNarrowOf(t) in Narrowed(s, t).heldNarrows; }
  }

  /** The call left the realm's row behind the narrow: its request was needed and never
      reached the realm. */
  predicate Diverges(w: World, call: Call) {
    AsksRealm(w, call) && call.sent.RequestLost? && (call.Unsubscribe? ==> StreamIsListening(w.inbox, call.target.channel))
  }

  /** After a call, the realm still holds a row for exactly the channels listened to, if
      and only if no request the call needed was lost on its way; an answer lost on the way
      back fails the call and leaves the two in step. */
  lemma RowsTrackIff(w: World, call: Call)
    requires RowsTrack(w)
    ensures RowsTrack(Called(w, call)) <==> !Diverges(w, call)
  {
    var n, t := Called(w, call), call.target;
    forall c | c != t.channel ensures c in n.rows <==> StreamIsListening(n.inbox, c) {
      OtherChannelsUntouched(w.inbox, t, c);
    }
    RowOfTarget(w, call);
  }

  lemma RowOfTarget(w: World, call: Call)
    requires RowsTrack(w)
    ensures var n, c := Called(w, call), call.target.channel;
      (c in n.rows <==> StreamIsListening(n.inbox, c)) <==> !Diverges(w, call)
  {
    NarrowedListens(w.inbox, call.target);
  }

  /** Every call succeeds when its turn comes. */
  predicate AllSucceed(w: World, calls: seq<Call>) {
    calls == [] || (AllSucceed(w, calls[..|calls| - 1]) && Succeeds(RunCalls(w, calls[..|calls| - 1]), calls[|calls| - 1]))
  }

  function RunCalls(w: World, calls: seq<Call>): World {
    if calls == [] then w else Called(RunCalls(w, calls[..|calls| - 1]), calls[|calls| - 1])
  }

  function DeltasOf(calls: seq<Call>): seq<Delta> { MapSeq((call: Call) => DeltaOf(call), calls) }

  /** Over every sequence of successful calls from a new seat, the inbox holds what the
      narrow set holds and the realm a row for exactly the channels listened to. */
  lemma {:induction false} SuccessKeepsAllInStep(calls: seq<Call>)
    requires AllSucceed(NEW_WORLD, calls)
    ensures InStep(RunCalls(NEW_WORLD, calls).inbox, Replay(DeltasOf(calls), {}))
    ensures RowsTrack(RunCalls(NEW_WORLD, calls))
  {
    if calls != [] {
      var before, call := calls[..|calls| - 1], calls[|calls| - 1];
      SuccessKeepsAllInStep(before);
      var w := RunCalls(NEW_WORLD, before);
      assert DeltasOf(calls)[..|calls| - 1] == DeltasOf(before);
      CallKeepsStep(w, Replay(DeltasOf(before), {}), call);
      RowsTrackIff(w, call);
      assert Succeeds(w, call) ==> !Diverges(w, call);
    }
  }

  // ---- where the rows are lost ----

  /** The inbox believes it listens to the channel and the realm holds no row for it. */
  predicate Deaf(w: World, c: ChannelName) { StreamIsListening(w.inbox, c) && c !in w.rows }

  /** A subscribe whose request was lost fails, leaves the seat deaf to the channel and
      registers no queue. */
  lemma LostSubscribeIsDeaf(w: World, t: Intent, registers: bool)
    requires RowsTrack(w) && !StreamIsListening(w.inbox, t.channel)
    ensures var call := Subscribe(t, RequestLost, registers);
      !Succeeds(w, call) && Deaf(Called(w, call), t.channel) && Called(w, call).inbox.registered == w.inbox.registered
  {
    NarrowedListens(w.inbox, t);
  }

  /** No number of repeats repairs it: the narrow recorded by the first attempt keeps every
      later subscribe from asking the realm, and each one for the channel succeeds as soon
      as there is a queue, or one can be registered. */
  lemma {:induction false} RetriesStayDeaf(w: World, c: ChannelName, calls: seq<Call>)
    requires Deaf(w, c) && forall i :: 0 <= i < |calls| ==> calls[i].Subscribe?
    ensures Deaf(RunCalls(w, calls), c)
    ensures forall t: Intent, sent: Sent, r: bool :: t.channel == c ==>
      (Succeeds(RunCalls(w, calls), Subscribe(t, sent, r)) <==> RunCalls(w, calls).inbox.registered || r)
  {
    if calls != [] {
      var before, call := calls[..|calls| - 1], calls[|calls| - 1];
      RetriesStayDeaf(w, c, before);
      var v := RunCalls(w, before);
      if call.target.channel == c { NarrowedListens(v.inbox, call.target); } else { OtherChannelsUntouched(v.inbox, call.target, c); }
      assert Called(v, call).inbox.heldNarrows == Narrowed(v.inbox, call.target).heldNarrows;
    }
  }

  /** From a new seat: a first subscribe lost on its way, and its repeat, which succeeds and
      registers the queue, leave the seat subscribed to nothing. */
  lemma NewSeatStaysDeaf(t: Intent, sent: Sent)
    ensures var first, again := Subscribe(t, RequestLost, true), Subscribe(t, sent, true);
      var w := Called(NEW_WORLD, first);
      !Succeeds(NEW_WORLD, first) && Succeeds(w, again) && Deaf(Called(w, again), t.channel) && Called(w, again).rows == {}
  {
    var w := Called(NEW_WORLD, Subscribe(t, RequestLost, true));
    LostSubscribeIsDeaf(NEW_WORLD, t, true);
    RetriesStayDeaf(w, t.channel, []);
    RetriesStayDeaf(w, t.channel, [Subscribe(t, sent, true)]);
    assert [Subscribe(t, sent, true)][..0] == [];
    assert RunCalls(w, [Subscribe(t, sent, true)]) == Called(w, Subscribe(t, sent, true));
  }

  // ---- the in-memory inbox refines the narrow set, but for one name ----

  function KeyIntent(k: SubKey): Intent {
    match k
    case MentionsKey => Channel(MENTIONS)
    case ChannelSub(c) => Channel(c)
    case ThreadSub(c, name) => Thread(c, name)
    case NewTopicsSub(c) => NewTopics(c)
  }

  ghost predicate MemoryInStep(subs: set<SubKey>, keys: set<Intent>) {
    ChannelSub(MENTIONS) !in subs && forall t :: t in keys <==> SubscriptionKey(t) in subs
  }

  lemma KeysRoundTrip(k: SubKey)
    requires k != ChannelSub(MENTIONS)
    ensures SubscriptionKey(KeyIntent(k)) == k
  {
  }

  /** The in-memory inbox takes each change as the narrow set does, except that dropping
      the channel named `mentions` keeps the narrows inside it. */
  lemma MemoryStepAgreesIff(subs: set<SubKey>, keys: set<Intent>, d: Delta)
    requires MemoryInStep(subs, keys)
    ensures MemoryInStep(MemoryApply(subs, d), Apply(d, keys)) <==>
      !(d == Remove(Channel(MENTIONS)) && exists k :: k in keys && k.channel == MENTIONS && !k.Channel?)
  {
    var after, want := MemoryApply(subs, d), Apply(d, keys);
    if d == Remove(Channel(MENTIONS)) {
      if k :| k in keys && k.channel == MENTIONS && !k.Channel? {
        assert SubscriptionKey(k) in after && k !in want;
      } else {
        forall t ensures t in want <==> SubscriptionKey(t) in after { }
      }
    } else {
      forall t ensures t in want <==> SubscriptionKey(t) in after {
        if SubscriptionKey(t) == SubscriptionKey(d.key) { assert t == d.key; }
      }
    }
  }

  /** The in-memory inbox and the narrow set agree over every sequence of changes that
      never drops the channel named `mentions`. */
  lemma {:induction false} MemoryRunInStep(deltas: seq<Delta>)
    requires forall i :: 0 <= i < |deltas| ==> deltas[i] != Remove(Channel(MENTIONS))
    ensures MemoryInStep(MemoryRun(deltas), Replay(deltas, {}))
  {
    if deltas != [] {
      var before := deltas[..|deltas| - 1];
      MemoryRunInStep(before);
      MemoryStepAgreesIff(MemoryRun(before), Replay(before, {}), deltas[|deltas| - 1]);
    }
  }

  /** What the in-memory inbox reads back is what the realm would: a row per channel any
      held intent names, except that `mentions` held whole is not read back for it. */
  lemma ReadBackIsRows(w: World, subs: set<SubKey>, keys: set<Intent>, c: ChannelName)
    requires RowsTrack(w) && InStep(w.inbox, keys) && MemoryInStep(subs, keys)
    ensures (c in ReadBack(subs) <==> c in w.rows) <==>
      !(c == MENTIONS && Channel(c) in keys && forall k :: k in keys && k.channel == c ==> k.Channel?)
  {
    ListeningIsIntent(w.inbox, keys, c);
    if c in ReadBack(subs) {
      var k :| k in subs && !k.MentionsKey? && k.channelName == c;
      KeysRoundTrip(k);
      assert KeyIntent(k) in keys && (c == MENTIONS ==> !KeyIntent(k).Channel?);
    }
    forall k | k in keys && k.channel == c && SubscriptionKey(k) != MentionsKey ensures c in ReadBack(subs) {
      assert SubscriptionKey(k) in subs && SubscriptionKey(k).channelName == c;
    }
  }

  /** The three agree: over every sequence of successful calls that never drops the
      channel named `mentions`, they hold the same intents. */
  lemma ThreeInStep(calls: seq<Call>)
    requires AllSucceed(NEW_WORLD, calls)
    requires forall i :: 0 <= i < |calls| ==> DeltaOf(calls[i]) != Remove(Channel(MENTIONS))
    ensures var held := Replay(DeltasOf(calls), {});
      InStep(RunCalls(NEW_WORLD, calls).inbox, held) && MemoryInStep(MemoryRun(DeltasOf(calls)), held)
  {
    SuccessKeepsAllInStep(calls);
    MemoryRunInStep(DeltasOf(calls));
  }

  // ---- the adapter's filter in front of the narrow set ----

  /** An event reaches the seat when the adapter's filter passes it and the narrow set
      then matches it. Over states in step the filter costs no matching reference and no
      mention: it only holds back topics of a new-topics narrow that it has seen itself,
      in channels with no other narrow. */
  lemma DeliveredIff(s: InboxState, n: State, e: Event)
    requires InStep(s, n.intents)
    ensures ShouldDeliver(s, e) && Verdict(n, e) <==>
      || RefMatches(e.ref, n.intents)
      || (!e.Reacted? && e.mentionsBot)
      || (e.Posted? && NewTopicFires(n, e.ref) && (HoldsChannel(s, e.ref.channel) || FirstOfTopic(s, e.ref)))
  {
    var c := e.ref.channel;
    assert NewTopics(c) in n.intents <==> c in s.newTopicsChannels by { assert Holds(s, NewTopics(c)) <==> c in s.newTopicsChannels; }
    if Channel(c) in n.intents {
      assert Holds(s, Channel(c));
      assert HoldsChannel(s, c);
    }
    if e.ref.thread.Some? && Thread(c, e.ref.thread.value) in n.intents {
      assert Holds(s, Thread(c, e.ref.thread.value));
      assert HoldsChannel(s, c);
    }
  }

  // ---- the adapter's filter over runs of calls and events ----

  datatype Step = Calls(call: Call) | Sees(event: Event)

  function Took(w: World, step: Step): World {
    match step
    case Calls(call) => Called(w, call)
    case Sees(e) => w.(inbox := Observed(w.inbox, e))
  }

  function RunSteps(w: World, steps: seq<Step>): World {
    if steps == [] then w else Took(RunSteps(w, steps[..|steps| - 1]), steps[|steps| - 1])
  }

  /** The step gives up the channel's new-topics narrow. */
  predicate Drops(step: Step, c: ChannelName) {
    step.Calls? && step.call.Unsubscribe? && step.call.target.channel == c && !step.call.target.Thread?
  }

  /** Since that narrow was last given up, the topic was posted to while it was held. */
  predicate PostedSince(w: World, steps: seq<Step>, c: ChannelName, topic: ThreadName) {
    steps != [] &&
    var before, step := steps[..|steps| - 1], steps[|steps| - 1];
    || (step.Sees? && step.event.Posted? && step.event.ref == Ref(c, Some(topic)) && c in RunSteps(w, before).inbox.newTopicsChannels)
    || (!Drops(step, c) && PostedSince(w, before, c, topic))
  }

  lemma CallsKeepSeen(w: World, call: Call, c: ChannelName)
    ensures SeenIn(Called(w, call).inbox, c) == if Drops(Calls(call), c) then {} else SeenIn(w.inbox, c)
  {
  }

  lemma EventsAddSeen(s: InboxState, e: Event, c: ChannelName, topic: ThreadName)
    ensures topic in SeenIn(Observed(s, e), c) <==>
      topic in SeenIn(s, c) || (e.Posted? && e.ref == Ref(c, Some(topic)) && c in s.newTopicsChannels)
  {
  }

  lemma {:induction false} SeenIffPosted(steps: seq<Step>, c: ChannelName, topic: ThreadName)
    ensures topic in SeenIn(RunSteps(NEW_WORLD, steps).inbox, c) <==> PostedSince(NEW_WORLD, steps, c, topic)
  {
    if steps != [] {
      var before, step := steps[..|steps| - 1], steps[|steps| - 1];
      SeenIffPosted(before, c, topic);
      match step
      case Calls(call) => CallsKeepSeen(RunSteps(NEW_WORLD, before), call, c);
      case Sees(e) => EventsAddSeen(RunSteps(NEW_WORLD, before).inbox, e, c, topic);
    }
  }

  /** What the adapter's filter does over any run: in a channel with a new-topics narrow, a post
      passes for another narrow in the channel, for a mention, or as the first post of its
      topic since the narrow was last given up; so a topic passes as first at most once, and
      again after the narrow was dropped. Everything else passes. */
  lemma FilterOverRuns(steps: seq<Step>, e: Event)
    ensures var s := RunSteps(NEW_WORLD, steps).inbox;
      ShouldDeliver(s, e) <==>
        || !e.Posted? || e.ref.channel !in s.newTopicsChannels
        || HoldsChannel(s, e.ref.channel) || e.mentionsBot
        || (e.ref.thread.Some? && !PostedSince(NEW_WORLD, steps, e.ref.channel, e.ref.thread.value))
  {
    if e.Posted? && e.ref.thread.Some? { SeenIffPosted(steps, e.ref.channel, e.ref.thread.value); }
  }

  /** Some subscribe of the run succeeded. */
  predicate Subscribed(w: World, steps: seq<Step>) {
    steps != [] &&
    var before, step := steps[..|steps| - 1], steps[|steps| - 1];
    Subscribed(w, before) || (step.Calls? && step.call.Subscribe? && Succeeds(RunSteps(w, before), step.call))
  }

  /** Once a subscribe has succeeded the seat has a queue, in every run; and a subscribe that
      finds none succeeds only by registering one. */
  lemma {:induction false} SubscribedIsRegistered(steps: seq<Step>)
    requires Subscribed(NEW_WORLD, steps)
    ensures RunSteps(NEW_WORLD, steps).inbox.registered
  {
    var before := steps[..|steps| - 1];
    if Subscribed(NEW_WORLD, before) { SubscribedIsRegistered(before); }
  }

  /** A queue is registered only by a subscribe that could. */
  lemma {:induction false} RegisteredBySubscribe(steps: seq<Step>)
    requires RunSteps(NEW_WORLD, steps).inbox.registered
    ensures exists i :: 0 <= i < |steps| && steps[i].Calls? && steps[i].call.Subscribe? && steps[i].call.registers
  {
    var before, step := steps[..|steps| - 1], steps[|steps| - 1];
    if RunSteps(NEW_WORLD, before).inbox.registered {
      RegisteredBySubscribe(before);
      var i :| 0 <= i < |before| && before[i].Calls? && before[i].call.Subscribe? && before[i].call.registers;
      assert steps[i] == before[i];
    }
  }
}
