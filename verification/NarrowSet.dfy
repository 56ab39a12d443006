/** The seat's narrow filter (packages/mcp/narrow-set.ts). */
module NarrowSet {
  import opened Core

  type ChannelName = string
  type ThreadName = string

  /** A subscribe intent, and equally the structural key the set holds for it. */
  datatype Intent =
    | Channel(channel: ChannelName)
    | Thread(channel: ChannelName, thread: ThreadName)
    | NewTopics(channel: ChannelName)

  datatype Ref = Ref(channel: ChannelName, thread: Option<ThreadName>)

  /** An inbound event as the filter sees it. `mentionsBot` is what `mentionsIdentity` answers. */
  datatype Event =
    | Posted(ref: Ref, mentionsBot: bool)
    | Mentioned(ref: Ref, mentionsBot: bool)
    | Reacted(ref: Ref)

  /** Leaving a channel leaves every topic in it too. */
  function WithoutIntent(keys: set<Intent>, key: Intent): set<Intent> {
    if key.Channel? then set k | k in keys && k.channel != key.channel else keys - {key}
  }

  predicate RefMatches(ref: Ref, intents: set<Intent>) {
    Channel(ref.channel) in intents || (ref.thread.Some? && Thread(ref.channel, ref.thread.value) in intents)
  }

  datatype Delta = Add(key: Intent) | Remove(key: Intent)

  function Apply(d: Delta, keys: set<Intent>): set<Intent> {
    if d.Add? then keys + {d.key} else WithoutIntent(keys, d.key)
  }

  function Replay(deltas: seq<Delta>, keys: set<Intent>): set<Intent> {
    if deltas == [] then keys else Apply(deltas[|deltas| - 1], Replay(deltas[..|deltas| - 1], keys))
  }

  function ToSet(intents: seq<Intent>): set<Intent> { set k | k in intents }

  datatype State = State(intents: set<Intent>, seenTopics: set<Intent>, pending: seq<Delta>, recording: bool)

  const EMPTY := State({}, {}, [], false)

  /** Whether the new-topics arm is reached and fires for a posted reference. */
  predicate NewTopicFires(s: State, ref: Ref) {
    && !RefMatches(ref, s.intents)
    && ref.thread.Some? && NewTopics(ref.channel) in s.intents
    && Thread(ref.channel, ref.thread.value) !in s.seenTopics
  }

  predicate Verdict(s: State, e: Event) {
    match e
    case Posted(ref, mentionsBot) => RefMatches(ref, s.intents) || NewTopicFires(s, ref) || mentionsBot
    case Mentioned(ref, mentionsBot) => RefMatches(ref, s.intents) || mentionsBot
    case Reacted(ref) => RefMatches(ref, s.intents)
  }

  datatype Op =
    | Mutate(delta: Delta)
    | BeginBuffering
    | Load(base: Option<seq<Intent>>)
    | Match(event: Event)

  function Next(s: State, op: Op): State {
    match op
    case Mutate(d) => s.(intents := Apply(d, s.intents), pending := if s.recording then s.pending + [d] else s.pending)
    case BeginBuffering => s.(recording := true)
    case Load(base) =>
      s.(intents := Replay(s.pending, if base.Some? then ToSet(base.value) else s.intents), pending := [], recording := false)
    case Match(e) =>
      if e.Posted? && NewTopicFires(s, e.ref)
      then s.(seenTopics := s.seenTopics + {Thread(e.ref.channel, e.ref.thread.value)}) else s
  }

  function Run(s: State, ops: seq<Op>): State {
    if ops == [] then s else Next(Run(s, ops[..|ops| - 1]), ops[|ops| - 1])
  }

  class NarrowSet {
    var intents: set<Intent>
    var seenTopics: set<Intent>
    var pending: seq<Delta>
    var recording: bool

    constructor ()
      ensures Abstract() == EMPTY
    {
      intents, seenTopics, pending, recording := {}, {}, [], false;
    }

    function Abstract(): State reads this { State(intents, seenTopics, pending, recording) }

    method AddIntent(intent: Intent)
      modifies this
      ensures Abstract() == Next(old(Abstract()), Mutate(Add(intent)))
    {
      intents := intents + {intent};
      if recording { pending := pending + [Add(intent)]; }
    }

    method RemoveIntent(intent: Intent)
      modifies this
      ensures Abstract() == Next(old(Abstract()), Mutate(Remove(intent)))
    {
      intents := WithoutIntent(intents, intent);
      if recording { pending := pending + [Remove(intent)]; }
    }

    method Begin()
      modifies this
      ensures Abstract() == Next(old(Abstract()), BeginBuffering)
    {
      recording := true;
    }

    method LoadBase(base: Option<seq<Intent>>)
      modifies this
      ensures Abstract() == Next(old(Abstract()), Load(base))
    {
      if base.Some? { intents := ToSet(base.value); }
      ghost var seeded := intents;
      for i := 0 to |pending|
        invariant pending == old(pending) && seenTopics == old(seenTopics)
        invariant intents == Replay(pending[..i], seeded)
      {
        intents := if pending[i].Add? then intents + {pending[i].key} else WithoutIntent(intents, pending[i].key);
        assert pending[..i + 1][..i] == pending[..i];
      }
      assert pending[..|pending|] == pending;
      pending := [];
      recording := false;
    }

    method Matches(e: Event) returns (matched: bool)
      modifies this
      ensures matched == Verdict(old(Abstract()), e)
      ensures Abstract() == Next(old(Abstract()), Match(e))
    {
      matched := RefMatches(e.ref, intents);
      if e.Posted? && !matched && e.ref.thread.Some? && NewTopics(e.ref.channel) in intents {
        var topic := Thread(e.ref.channel, e.ref.thread.value);
        if topic !in seenTopics {
          seenTopics := seenTopics + {topic};
          matched := true;
        }
      }
      if !e.Reacted? { matched := matched || e.mentionsBot; }
    }
  }

  // ---- late load equals early load ----

  /** What one delta says of a key: held, dropped, or nothing. */
  function Touch(d: Delta, k: Intent): Option<bool> {
    if d.Add? then (if d.key == k then Some(true) else None)
    else if d.key == k || (d.key.Channel? && d.key.channel == k.channel) then Some(false) else None
  }

  /** What a journal says of a key: its last word, if any. */
  function LastWord(deltas: seq<Delta>, k: Intent): Option<bool> {
    if deltas == [] then None else
    var last := Touch(deltas[|deltas| - 1], k);
    if last.Some? then last else LastWord(deltas[..|deltas| - 1], k)
  }

  lemma {:induction false} ReplayIsLastWord(deltas: seq<Delta>, keys: set<Intent>, k: Intent)
    ensures k in Replay(deltas, keys) <==> if LastWord(deltas, k).Some? then LastWord(deltas, k).value else k in keys
  {
    if deltas != [] { ReplayIsLastWord(deltas[..|deltas| - 1], keys, k); }
  }

  /** Replaying a journal on a membership that already took it changes nothing. */
  lemma ReplayIdempotent(deltas: seq<Delta>, keys: set<Intent>)
    ensures Replay(deltas, Replay(deltas, keys)) == Replay(deltas, keys)
  {
    forall k ensures k in Replay(deltas, Replay(deltas, keys)) <==> k in Replay(deltas, keys) {
      ReplayIsLastWord(deltas, keys, k);
      ReplayIsLastWord(deltas, Replay(deltas, keys), k);
    }
  }

  predicate IsRuntime(op: Op) { op.Mutate? || op.Match? }

  function Deltas(ops: seq<Op>): seq<Delta> {
    if ops == [] then [] else
    Deltas(ops[..|ops| - 1]) + if ops[|ops| - 1].Mutate? then [ops[|ops| - 1].delta] else []
  }

  lemma {:induction false} RuntimeRun(s: State, ops: seq<Op>)
    requires forall i :: 0 <= i < |ops| ==> IsRuntime(ops[i])
    ensures Run(s, ops).intents == Replay(Deltas(ops), s.intents)
    ensures Run(s, ops).recording == s.recording
    ensures Run(s, ops).pending == if s.recording then s.pending + Deltas(ops) else s.pending
  {
    if ops != [] {
      var before, op := ops[..|ops| - 1], ops[|ops| - 1];
      RuntimeRun(s, before);
      assert IsRuntime(op);
      if op.Mutate? {
        var ds := Deltas(before) + [op.delta];
        assert ds[..|ds| - 1] == Deltas(before);
        assert s.pending + ds == (s.pending + Deltas(before)) + [op.delta];
      } else {
        assert Deltas(ops) == Deltas(before);
      }
    }
  }

  /** Loading late, after any journaled adds and removes, gives the membership that
      loading first and then applying them would have given. */
  lemma LateLoadIsEarlyLoad(s: State, base: seq<Intent>, ops: seq<Op>)
    requires s.pending == [] && !s.recording && forall i :: 0 <= i < |ops| ==> IsRuntime(ops[i])
    ensures var late := Next(Run(Next(s, BeginBuffering), ops), Load(Some(base)));
      && late.intents == Run(Next(s, Load(Some(base))), ops).intents
      && late.pending == [] && !late.recording
  {
    RuntimeRun(Next(s, BeginBuffering), ops);
    LoadedIs(Run(Next(s, BeginBuffering), ops), Deltas(ops), Some(base));
    RuntimeRun(Next(s, Load(Some(base))), ops);
    LoadedIs(s, [], Some(base));
  }

  /** Loading nothing keeps the live membership, journal and all. */
  lemma EmptyLoadKeepsMembership(s: State, ops: seq<Op>)
    requires s.pending == [] && !s.recording && forall i :: 0 <= i < |ops| ==> IsRuntime(ops[i])
    ensures var live := Run(Next(s, BeginBuffering), ops);
      Next(live, Load(None)).intents == live.intents == Replay(Deltas(ops), s.intents)
  {
    RuntimeRun(Next(s, BeginBuffering), ops);
    LoadedIs(Run(Next(s, BeginBuffering), ops), Deltas(ops), None);
    ReplayIdempotent(Deltas(ops), s.intents);
  }

  lemma LoadedIs(live: State, journal: seq<Delta>, base: Option<seq<Intent>>)
    requires live.pending == [] + journal
    ensures Next(live, Load(base)).intents == Replay(journal, if base.Some? then ToSet(base.value) else live.intents)
  {
    assert [] + journal == journal;
  }

  /** Outside a buffering window the journal is empty, over any run. */
  lemma {:induction false} JournalIsBounded(ops: seq<Op>)
    ensures !Run(EMPTY, ops).recording ==> Run(EMPTY, ops).pending == []
  {
    if ops != [] { JournalIsBounded(ops[..|ops| - 1]); }
  }

  // ---- each topic surfaces once ----

  /** How often the new-topics arm fires for one topic over a run. */
  function Surfaces(s: State, ops: seq<Op>, topic: Intent): nat {
    if ops == [] then 0 else
    var before, op := ops[..|ops| - 1], ops[|ops| - 1];
    Surfaces(s, before, topic) +
    if op.Match? && op.event.Posted? && NewTopicFires(Run(s, before), op.event.ref)
       && Thread(op.event.ref.channel, op.event.ref.thread.value) == topic then 1 else 0
  }

  /** Whatever is added, removed and loaded on the way, a topic surfaces at most once. */
  lemma {:induction false} SurfacesAtMostOnce(s: State, ops: seq<Op>, topic: Intent)
    ensures Surfaces(s, ops, topic) <= 1
    ensures Surfaces(s, ops, topic) == if topic in Run(s, ops).seenTopics && topic !in s.seenTopics then 1 else 0
    ensures topic in s.seenTopics ==> topic in Run(s, ops).seenTopics
  {
    if ops != [] { SurfacesAtMostOnce(s, ops[..|ops| - 1], topic); }
  }

  // ---- what a run delivers ----

  /** The last thing the run said of the intent is that it is held. */
  predicate HeldAfter(ops: seq<Op>, k: Intent) { LastWord(Deltas(ops), k) == Some(true) }

  /** The run surfaced the topic through its channel's new-topics narrow: it was posted to while
      that narrow was held and no other narrow of the set covered it. */
  predicate SurfacedBy(ops: seq<Op>, c: ChannelName, topic: ThreadName) {
    ops != [] &&
    var before, op := ops[..|ops| - 1], ops[|ops| - 1];
    || SurfacedBy(before, c, topic)
    || (op.Match? && op.event.Posted? && op.event.ref == Ref(c, Some(topic))
        && HeldAfter(before, NewTopics(c)) && !HeldAfter(before, Channel(c)) && !HeldAfter(before, Thread(c, topic)))
  }

  lemma RunHolds(ops: seq<Op>, k: Intent)
    requires forall i :: 0 <= i < |ops| ==> IsRuntime(ops[i])
    ensures k in Run(EMPTY, ops).intents <==> HeldAfter(ops, k)
  {
    RuntimeRun(EMPTY, ops);
    ReplayIsLastWord(Deltas(ops), {}, k);
  }

  lemma {:induction false} SeenIffSurfaced(ops: seq<Op>, c: ChannelName, topic: ThreadName)
    requires forall i :: 0 <= i < |ops| ==> IsRuntime(ops[i])
    ensures Thread(c, topic) in Run(EMPTY, ops).seenTopics <==> SurfacedBy(ops, c, topic)
  {
    if ops != [] {
      var before := ops[..|ops| - 1];
      SeenIffSurfaced(before, c, topic);
      RunHolds(before, NewTopics(c));
      RunHolds(before, Channel(c));
      RunHolds(before, Thread(c, topic));
    }
  }

  /** What the filter lets through after any run of adds, removes and matches: what a held
      channel or topic names; a post or mention of the bot; and the first post of a topic that
      only its channel's new-topics narrow reaches. */
  lemma VerdictOverRuns(ops: seq<Op>, e: Event)
    requires forall i :: 0 <= i < |ops| ==> IsRuntime(ops[i])
    ensures Verdict(Run(EMPTY, ops), e) <==>
      || HeldAfter(ops, Channel(e.ref.channel))
      || (e.ref.thread.Some? && HeldAfter(ops, Thread(e.ref.channel, e.ref.thread.value)))
      || (!e.Reacted? && e.mentionsBot)
      || (e.Posted? && e.ref.thread.Some? && HeldAfter(ops, NewTopics(e.ref.channel))
          && !SurfacedBy(ops, e.ref.channel, e.ref.thread.value))
  {
    RunHolds(ops, Channel(e.ref.channel));
    RunHolds(ops, NewTopics(e.ref.channel));
    if e.ref.thread.Some? {
      RunHolds(ops, Thread(e.ref.channel, e.ref.thread.value));
      SeenIffSurfaced(ops, e.ref.channel, e.ref.thread.value);
    }
  }
}
