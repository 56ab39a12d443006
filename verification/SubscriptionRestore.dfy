/** Rebuilding a narrow set from the realm's rows and the topic-level record
    (packages/mcp/subscription-restore.ts). */
module SubscriptionRestore {
  import opened Core
  import opened NarrowSet

  function Dedupe<T(==)>(s: seq<T>): seq<T> {
    if s == [] then [] else
    var before := Dedupe(s[..|s| - 1]);
    if s[|s| - 1] in before then before else before + [s[|s| - 1]]
  }

  function ChannelsOf(intents: seq<Intent>): set<ChannelName> { set k | k in intents :: k.channel }

  /** What is worth persisting: everything narrower than a channel, in channels the set
      does not also hold whole. */
  function TopicLevelIntents(intents: seq<Intent>): seq<Intent> {
    Filter(TopicLevelIn(ToSet(intents)), intents)
  }

  function TopicLevelIn(held: set<Intent>): Intent -> bool { (k: Intent) => !k.Channel? && Channel(k.channel) !in held }

  function AsChannels(names: seq<ChannelName>): seq<Intent> { MapSeq((c: ChannelName) => Channel(c), names) }

  function Outside(narrowed: set<ChannelName>): ChannelName -> bool { (c: ChannelName) => c !in narrowed }

  /** Every realm channel becomes a whole-channel narrow unless a topic intent names it. */
  function CombineWithRealm(realmChannels: seq<ChannelName>, topicIntents: seq<Intent>): seq<Intent> {
    var deduped := Dedupe(topicIntents);
    AsChannels(Filter(Outside(ChannelsOf(deduped)), Dedupe(realmChannels))) + deduped
  }

  /** What `restoreSubscriptions` loads: the record's topic-level slice, then the slice
      of what this boot registered already. */
  function Restored(rows: seq<ChannelName>, persisted: seq<Intent>, boot: seq<Intent>): seq<Intent> {
    CombineWithRealm(rows, TopicLevelIntents(persisted) + TopicLevelIntents(boot))
  }

  // ---- membership of each piece ----

  lemma {:induction false} DedupeMember<T>(s: seq<T>, x: T)
    ensures x in Dedupe(s) <==> x in s
  {
    if s != [] {
      DedupeMember(s[..|s| - 1], x);
      DedupeMember(s[..|s| - 1], s[|s| - 1]);
      assert s == s[..|s| - 1] + [s[|s| - 1]];
    }
  }

  lemma TopicLevelMember(intents: seq<Intent>, k: Intent)
    ensures k in TopicLevelIntents(intents) <==> k in intents && !k.Channel? && Channel(k.channel) !in intents
  {
    FilterMember(TopicLevelIn(ToSet(intents)), intents, k);
  }

  lemma CombinedMember(rows: seq<ChannelName>, topics: seq<Intent>, k: Intent)
    requires forall t :: t in topics ==> !t.Channel?
    ensures k in CombineWithRealm(rows, topics) <==>
      if k.Channel? then k.channel in rows && (forall t :: t in topics ==> t.channel != k.channel) else k in topics
  {
    var deduped := Dedupe(topics);
    var whole := Filter(Outside(ChannelsOf(deduped)), Dedupe(rows));
    forall t ensures t in deduped <==> t in topics { DedupeMember(topics, t); }
    FilterMember(Outside(ChannelsOf(deduped)), Dedupe(rows), k.channel);
    DedupeMember(rows, k.channel);
    if k.Channel? {
      if k.channel in whole {
        var i :| 0 <= i < |whole| && whole[i] == k.channel;
        assert AsChannels(whole)[i] == k;
      }
    }
  }

  lemma RestoredMember(rows: seq<ChannelName>, persisted: seq<Intent>, boot: seq<Intent>, k: Intent)
    ensures k in Restored(rows, persisted, boot) <==>
      if k.Channel? then
        k.channel in rows && forall t :: t in TopicLevelIntents(persisted) || t in TopicLevelIntents(boot) ==> t.channel != k.channel
      else k in TopicLevelIntents(persisted) || k in TopicLevelIntents(boot)
  {
    var topics := TopicLevelIntents(persisted) + TopicLevelIntents(boot);
    forall t | t in topics ensures !t.Channel? { TopicLevelMember(persisted, t); TopicLevelMember(boot, t); }
    CombinedMember(rows, topics, k);
    assert forall t :: t in topics <==> t in TopicLevelIntents(persisted) || t in TopicLevelIntents(boot);
  }

  /** What is persisted is its own topic-level slice. */
  lemma SliceOfSlice(intents: seq<Intent>, k: Intent)
    ensures k in TopicLevelIntents(TopicLevelIntents(intents)) <==> k in TopicLevelIntents(intents)
  {
    TopicLevelMember(TopicLevelIntents(intents), k);
    TopicLevelMember(intents, Channel(k.channel));
    TopicLevelMember(intents, k);
  }

  // ---- a restart with nothing registered at boot ----

  /** The rebuilt set, key by key: the held channels whole, and the topic-level intents
      of the others. */
  lemma RestartMember(rows: seq<ChannelName>, held: seq<Intent>, k: Intent)
    requires forall c :: c in rows <==> c in ChannelsOf(held)
    ensures k in Restored(rows, TopicLevelIntents(held), []) <==> k in held && (k.Channel? || Channel(k.channel) !in held)
  {
    RestoredMember(rows, TopicLevelIntents(held), [], k);
    assert TopicLevelIntents([]) == [];
    SliceOfSlice(held, k);
    TopicLevelMember(held, k);
    if k.Channel? {
      forall t | t in TopicLevelIntents(TopicLevelIntents(held)) && t.channel == k.channel ensures k !in held {
        SliceOfSlice(held, t);
        TopicLevelMember(held, t);
      }
      if k !in held && k.channel in rows {
        var t :| t in held && t.channel == k.channel;
        TopicLevelMember(held, t);
        SliceOfSlice(held, t);
      }
    }
  }

  /** The two sets answer a reference alike, with the same new-topics reach where the
      answer is no. */
  predicate DeliversAlike(a: set<Intent>, b: set<Intent>, ref: Ref) {
    && (RefMatches(ref, a) <==> RefMatches(ref, b))
    && (!RefMatches(ref, b) ==> (NewTopics(ref.channel) in a <==> NewTopics(ref.channel) in b))
  }

  /** A restart delivers what the set delivered. */
  lemma RestartPreservesDelivery(rows: seq<ChannelName>, held: seq<Intent>, ref: Ref)
    requires forall c :: c in rows <==> c in ChannelsOf(held)
    ensures DeliversAlike(ToSet(Restored(rows, TopicLevelIntents(held), [])), ToSet(held), ref)
  {
    RestartMember(rows, held, Channel(ref.channel));
    RestartMember(rows, held, NewTopics(ref.channel));
    if ref.thread.Some? { RestartMember(rows, held, Thread(ref.channel, ref.thread.value)); }
  }

  /** Persisting the rebuilt set and rebuilding again changes nothing. */
  lemma RestartIsFixpoint(rows: seq<ChannelName>, held: seq<Intent>)
    requires forall c :: c in rows <==> c in ChannelsOf(held)
    ensures var rebuilt := Restored(rows, TopicLevelIntents(held), []);
      && ToSet(Restored(rows, TopicLevelIntents(rebuilt), [])) == ToSet(rebuilt)
      && ToSet(TopicLevelIntents(rebuilt)) == ToSet(TopicLevelIntents(held))
      && ChannelsOf(rebuilt) == ChannelsOf(held)
  {
    var rebuilt := Restored(rows, TopicLevelIntents(held), []);
    forall c ensures c in ChannelsOf(rebuilt) <==> c in ChannelsOf(held) { RebuiltChannel(rows, held, c); }
    forall k
      ensures k in Restored(rows, TopicLevelIntents(rebuilt), []) <==> k in rebuilt
      ensures k in TopicLevelIntents(rebuilt) <==> k in TopicLevelIntents(held)
    {
      RestartMember(rows, held, k);
      RestartMember(rows, held, Channel(k.channel));
      RestartMember(rows, rebuilt, k);
      TopicLevelMember(held, k);
      TopicLevelMember(rebuilt, k);
    }
  }

  lemma RebuiltChannel(rows: seq<ChannelName>, held: seq<Intent>, c: ChannelName)
    requires forall x :: x in rows <==> x in ChannelsOf(held)
    ensures c in ChannelsOf(Restored(rows, TopicLevelIntents(held), [])) <==> c in ChannelsOf(held)
  {
    var rebuilt := Restored(rows, TopicLevelIntents(held), []);
    if c in ChannelsOf(held) {
      var k :| k in held && k.channel == c;
      RestartMember(rows, held, k);
      RestartMember(rows, held, Channel(c));
      assert k in rebuilt || Channel(c) in rebuilt;
    }
    if c in ChannelsOf(rebuilt) {
      var k :| k in rebuilt && k.channel == c;
      RestartMember(rows, held, k);
    }
  }

  // ---- a restart over intents this boot registered ----

  function Adds(intents: seq<Intent>): seq<Delta> { MapSeq((k: Intent) => Add(k), intents) }

  function Ops(deltas: seq<Delta>): seq<Op> { MapSeq((d: Delta) => Mutate(d), deltas) }

  /** The set a boot leaves: what it registered before buffering began (`early`) and what
      it journaled after, both of which went through `inbox.subscribe` and so have rows. */
  function Rebuilt(rows: seq<ChannelName>, record: seq<Intent>, early: seq<Intent>, journaled: seq<Intent>): set<Intent> {
    Replay(Adds(journaled), ToSet(Restored(rows, record, early + journaled)))
  }

  lemma {:induction false} AddsReplay(intents: seq<Intent>, keys: set<Intent>)
    ensures Replay(Adds(intents), keys) == keys + ToSet(intents)
  {
    if intents != [] {
      var before := intents[..|intents| - 1];
      AddsReplay(before, keys);
      assert Adds(intents)[..|intents| - 1] == Adds(before);
      assert intents == before + [intents[|intents| - 1]];
    }
  }

  lemma {:induction false} DeltasOfOps(deltas: seq<Delta>)
    ensures Deltas(Ops(deltas)) == deltas
    ensures forall i :: 0 <= i < |deltas| ==> IsRuntime(Ops(deltas)[i])
  {
    if deltas != [] {
      var before := deltas[..|deltas| - 1];
      DeltasOfOps(before);
      assert Ops(deltas)[..|deltas| - 1] == Ops(before);
    }
  }

  /** The narrow set's own run through a boot, from its first registrations to its load,
      ends in that set; what the restore reads of it on the way is all the boot registered. */
  lemma BootRunIsRebuilt(rows: seq<ChannelName>, record: seq<Intent>, early: seq<Intent>, journaled: seq<Intent>)
    ensures var live := Run(Next(Run(EMPTY, Ops(Adds(early))), BeginBuffering), Ops(Adds(journaled)));
      && live.intents == ToSet(early + journaled)
      && Next(live, Load(Some(Restored(rows, record, early + journaled)))).intents == Rebuilt(rows, record, early, journaled)
  {
    var begun := Next(Run(EMPTY, Ops(Adds(early))), BeginBuffering);
    AddsRun(EMPTY, early);
    AddsRun(begun, journaled);
    ToSetConcat(early, journaled);
    LoadedIs(Run(begun, Ops(Adds(journaled))), Adds(journaled), Some(Restored(rows, record, early + journaled)));
  }

  lemma ToSetConcat(a: seq<Intent>, b: seq<Intent>)
    ensures ToSet(a + b) == ToSet(a) + ToSet(b)
  {
  }

  lemma AddsRun(s: State, intents: seq<Intent>)
    ensures var n := Run(s, Ops(Adds(intents)));
      && n.intents == s.intents + ToSet(intents) && n.recording == s.recording
      && n.pending == if s.recording then s.pending + Adds(intents) else s.pending
  {
    DeltasOfOps(Adds(intents));
    RuntimeRun(s, Ops(Adds(intents)));
    AddsReplay(intents, s.intents);
  }

  /** An intent the boot registered leaves delivery as it was: in a channel held whole, when
      the boot holds it whole too or registered nothing narrower; in a channel held by
      topics, when it is one of them, or was displaced by the record without having been
      journaled; in no other channel. */
  predicate Fits(held: seq<Intent>, early: seq<Intent>, journaled: seq<Intent>, b: Intent) {
    if Channel(b.channel) in held then b.Channel? || Channel(b.channel) in early + journaled
    else if b.channel !in ChannelsOf(held) then false
    else if b.Channel? then b !in journaled
    else b in held || (b !in journaled && Channel(b.channel) in early + journaled)
  }

  predicate BootFits(held: seq<Intent>, early: seq<Intent>, journaled: seq<Intent>) {
    forall b :: b in early + journaled ==> Fits(held, early, journaled, b)
  }

  /** The rows when the restore reads them: those the held set left, and those of the boot's
      own subscribes. */
  ghost predicate BootRows(rows: seq<ChannelName>, held: seq<Intent>, early: seq<Intent>, journaled: seq<Intent>) {
    forall c :: c in rows <==> c in ChannelsOf(held) || c in ChannelsOf(early + journaled)
  }

  /** The set a boot leaves, key by key. */
  lemma RebuiltMember(rows: seq<ChannelName>, held: seq<Intent>, early: seq<Intent>, journaled: seq<Intent>, k: Intent)
    requires BootRows(rows, held, early, journaled)
    ensures var boot := early + journaled;
      k in Rebuilt(rows, TopicLevelIntents(held), early, journaled) <==>
        || k in journaled
        || (k.Channel? && (k.channel in ChannelsOf(held) || k.channel in ChannelsOf(boot))
            && (forall t :: t in TopicLevelIntents(held) || t in TopicLevelIntents(boot) ==> t.channel != k.channel))
        || (!k.Channel? && (k in TopicLevelIntents(held) || k in TopicLevelIntents(boot)))
  {
    var record := TopicLevelIntents(held);
    AddsReplay(journaled, ToSet(Restored(rows, record, early + journaled)));
    RestoredMember(rows, record, early + journaled, k);
    forall t ensures t in TopicLevelIntents(record) <==> t in record { SliceOfSlice(held, t); }
  }

  /** With intents registered at boot, a restart delivers as before exactly when each of
      them fits what was held. */
  lemma RestartPreservesIffBootFits(rows: seq<ChannelName>, held: seq<Intent>, early: seq<Intent>, journaled: seq<Intent>)
    requires BootRows(rows, held, early, journaled)
    ensures BootFits(held, early, journaled) <==>
      forall ref :: DeliversAlike(Rebuilt(rows, TopicLevelIntents(held), early, journaled), ToSet(held), ref)
  {
    var rebuilt := Rebuilt(rows, TopicLevelIntents(held), early, journaled);
    if BootFits(held, early, journaled) {
      forall ref ensures DeliversAlike(rebuilt, ToSet(held), ref) {
        FittingBootDelivers(rows, held, early, journaled, ref);
      }
    } else {
      var b :| b in early + journaled && !Fits(held, early, journaled, b);
      var ref := MisfitBootDiffers(rows, held, early, journaled, b);
      assert !DeliversAlike(rebuilt, ToSet(held), ref);
    }
  }

  lemma FittingBootDelivers(rows: seq<ChannelName>, held: seq<Intent>, early: seq<Intent>, journaled: seq<Intent>, ref: Ref)
    requires BootRows(rows, held, early, journaled) && BootFits(held, early, journaled)
    ensures DeliversAlike(Rebuilt(rows, TopicLevelIntents(held), early, journaled), ToSet(held), ref)
  {
    FittingChannel(rows, held, early, journaled, ref.channel);
    if Channel(ref.channel) !in held {
      FittingTopic(rows, held, early, journaled, NewTopics(ref.channel));
      if ref.thread.Some? { FittingTopic(rows, held, early, journaled, Thread(ref.channel, ref.thread.value)); }
    }
  }

  lemma FittingChannel(rows: seq<ChannelName>, held: seq<Intent>, early: seq<Intent>, journaled: seq<Intent>, c: ChannelName)
    requires BootRows(rows, held, early, journaled) && BootFits(held, early, journaled)
    ensures Channel(c) in Rebuilt(rows, TopicLevelIntents(held), early, journaled) <==> Channel(c) in held
  {
    var boot := early + journaled;
    RebuiltMember(rows, held, early, journaled, Channel(c));
    forall t | t in TopicLevelIntents(held) ensures t in held && Channel(t.channel) !in held { TopicLevelMember(held, t); }
    forall t | t in TopicLevelIntents(boot) ensures t in boot && !t.Channel? && Channel(t.channel) !in boot { TopicLevelMember(boot, t); }
    if Channel(c) !in held {
      if b :| b in boot && b.channel == c { assert Fits(held, early, journaled, b); }
      if c in ChannelsOf(held) {
        var t :| t in held && t.channel == c;
        TopicLevelMember(held, t);
      }
      assert Channel(c) in journaled ==> Channel(c) in boot;
    }
  }

  lemma FittingTopic(rows: seq<ChannelName>, held: seq<Intent>, early: seq<Intent>, journaled: seq<Intent>, k: Intent)
    requires BootRows(rows, held, early, journaled) && BootFits(held, early, journaled)
    requires !k.Channel? && Channel(k.channel) !in held
    ensures k in Rebuilt(rows, TopicLevelIntents(held), early, journaled) <==> k in held
  {
    var boot := early + journaled;
    RebuiltMember(rows, held, early, journaled, k);
    TopicLevelMember(held, k);
    TopicLevelMember(boot, k);
    assert k in journaled ==> k in boot;
    if k in boot { assert Fits(held, early, journaled, k); }
  }

  /** A reference on which an intent that does not fit makes a difference. */
  lemma MisfitBootDiffers(rows: seq<ChannelName>, held: seq<Intent>, early: seq<Intent>, journaled: seq<Intent>, b: Intent)
    returns (ref: Ref)
    requires BootRows(rows, held, early, journaled) && b in early + journaled && !Fits(held, early, journaled, b)
    ensures !DeliversAlike(Rebuilt(rows, TopicLevelIntents(held), early, journaled), ToSet(held), ref)
  {
    var boot, c := early + journaled, b.channel;
    ref := Ref(c, None);
    RebuiltMember(rows, held, early, journaled, Channel(c));
    RebuiltMember(rows, held, early, journaled, b);
    TopicLevelMember(boot, b);
    if Channel(c) in held {
      assert b in TopicLevelIntents(boot);
    } else if Channel(c) !in Rebuilt(rows, TopicLevelIntents(held), early, journaled) {
      MisfitIsTaken(rows, held, early, journaled, b);
      if b.Thread? { ref := Ref(c, Some(b.thread)); }
    }
  }

  /** Where the rebuilt set does not hold the channel, a misfit is a topic it took on. */
  lemma MisfitIsTaken(rows: seq<ChannelName>, held: seq<Intent>, early: seq<Intent>, journaled: seq<Intent>, b: Intent)
    requires BootRows(rows, held, early, journaled) && b in early + journaled && !Fits(held, early, journaled, b)
    requires Channel(b.channel) !in held && Channel(b.channel) !in Rebuilt(rows, TopicLevelIntents(held), early, journaled)
    ensures !b.Channel? && b !in held && b in Rebuilt(rows, TopicLevelIntents(held), early, journaled)
  {
    var boot, c := early + journaled, b.channel;
    RebuiltMember(rows, held, early, journaled, Channel(c));
    RebuiltMember(rows, held, early, journaled, b);
    TopicLevelMember(boot, b);
    if Channel(c) in boot && c !in ChannelsOf(held) {
      forall t | t in TopicLevelIntents(held) || t in TopicLevelIntents(boot) ensures t.channel != c {
        TopicLevelMember(held, t);
        TopicLevelMember(boot, t);
      }
    }
  }

  /** The defaults a persistent seat registers at every boot widen a seat that had come to
      hold only the broadcast topic: the first post of every other topic arrives again. */
  lemma DefaultsAddNewTopics(project: ChannelName, general: ThreadName)
    ensures var held, boot := [Thread(project, general)], [NewTopics(project), Thread(project, general)];
      && !BootFits(held, [], boot)
      && NewTopics(project) in Rebuilt([project], TopicLevelIntents(held), [], boot)
  {
    var held, boot := [Thread(project, general)], [NewTopics(project), Thread(project, general)];
    assert [] + boot == boot && boot[0] == NewTopics(project);
    assert !Fits(held, [], boot, NewTopics(project));
    AddsReplay(boot, ToSet(Restored([project], TopicLevelIntents(held), [] + boot)));
  }
}
