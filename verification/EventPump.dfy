/** The event pump's dispatch and its bounded dedup log (packages/mcp/event-pump.ts). */
module EventPump {
  import opened Core
  import opened Realm
  import opened Producer

  const SEEN_DELIVERED_CAPACITY: nat := 1024

  /** What the pump is built with: the bot's own id, if it is bound, and the narrow filter,
      which looks at a message and not at how it arrived. */
  datatype Deps = Deps(bot: Option<UserId>, wants: Message -> bool, wantsReaction: nat -> bool)

  function Originator(e: InboundEvent): UserId {
    if e.ReactionSeen? then e.actor else e.m.sender
  }

  predicate Accepts(d: Deps, e: InboundEvent) {
    && (if e.ReactionSeen? then d.wantsReaction(e.target) else d.wants(e.m))
    && Some(Originator(e)) != d.bot
  }

  datatype Verdict = Duplicate | New | NotMessage

  /** `seen` is the insertion-ordered key list of the program's map. */
  datatype PumpState = PumpState(seen: seq<nat>, delivered: seq<InboundEvent>)

  function Record(seen: seq<nat>, e: InboundEvent): (Verdict, seq<nat>) {
    if !IsMessage(e) then (NotMessage, seen)
    else if e.m.id in seen then (Duplicate, seen)
    else (New, TakeLast(seen + [e.m.id], SEEN_DELIVERED_CAPACITY))
  }

  function Dispatch(d: Deps, p: PumpState, e: InboundEvent): PumpState {
    if !Accepts(d, e) then p else
    var (verdict, seen) := Record(p.seen, e);
    PumpState(seen, if verdict.Duplicate? then p.delivered else p.delivered + [e])
  }

  /** The pump fed a whole stream, last event last. */
  function Pump(d: Deps, events: seq<InboundEvent>): PumpState {
    if events == [] then PumpState([], []) else
    Dispatch(d, Pump(d, events[..|events| - 1]), events[|events| - 1])
  }

  /** The dispatch gets as far as the notifier. */
  predicate HandsOver(d: Deps, p: PumpState, e: InboundEvent) {
    Accepts(d, e) && !Record(p.seen, e).0.Duplicate?
  }

  /** The consuming loop: a notifier that fails parks it for good. */
  datatype Loop = Loop(pump: PumpState, parked: bool)

  function Consume(d: Deps, l: Loop, e: InboundEvent, fails: bool): Loop {
    if l.parked then l else
    var n := Dispatch(d, l.pump, e);
    if fails && HandsOver(d, l.pump, e) then Loop(n.(delivered := l.pump.delivered), true) else Loop(n, false)
  }

  /** The loop fed a whole stream, `fails` telling which calls of the notifier would fail. */
  function Consumed(d: Deps, events: seq<InboundEvent>, fails: nat -> bool): Loop {
    if events == [] then Loop(PumpState([], []), false) else
    Consume(d, Consumed(d, events[..|events| - 1], fails), events[|events| - 1], fails(|events| - 1))
  }

  class EventPump {
    const deps: Deps
    var seen: seq<nat>
    var delivered: seq<InboundEvent>
    var parked: bool

    constructor (deps: Deps)
      ensures this.deps == deps && Abstract() == Loop(Pump(deps, []), false)
    {
      this.deps := deps;
      seen := [];
      delivered := [];
      parked := false;
    }

    function Abstract(): Loop reads this { Loop(PumpState(seen, delivered), parked) }

    method RecordMessageDelivery(e: InboundEvent) returns (verdict: Verdict)
      requires |seen| <= SEEN_DELIVERED_CAPACITY
      modifies this`seen
      ensures (verdict, seen) == Record(old(seen), e) && |seen| <= SEEN_DELIVERED_CAPACITY
    {
      if !IsMessage(e) { return NotMessage; }
      if e.m.id in seen { return Duplicate; }
      seen := seen + [e.m.id];
      ghost var full := seen;
      while |seen| > SEEN_DELIVERED_CAPACITY
        invariant TakeLast(seen, SEEN_DELIVERED_CAPACITY) == TakeLast(full, SEEN_DELIVERED_CAPACITY)
      {
        seen := seen[1..];
      }
      return New;
    }

    /** `fails` tells whether the notifier would throw on this event. */
    method DispatchEvent(e: InboundEvent, fails: bool)
      requires |seen| <= SEEN_DELIVERED_CAPACITY
      modifies this
      ensures Abstract() == Consume(deps, old(Abstract()), e, fails) && |seen| <= SEEN_DELIVERED_CAPACITY
    {
      if parked || !Accepts(deps, e) { return; }
      var verdict := RecordMessageDelivery(e);
      if verdict == Duplicate { return; }
      if fails {
        parked := true;
      } else {
        delivered := delivered + [e];
      }
    }
  }

  // ---- a notifier that fails ----

  /** The notifier fails on the event at `k`, and on none handed to it before. */
  predicate FirstFailure(d: Deps, events: seq<InboundEvent>, fails: nat -> bool, k: nat) {
    && k < |events| && fails(k) && HandsOver(d, Pump(d, events[..k]), events[k])
    && NoFailure(d, events[..k], fails)
  }

  predicate NoFailure(d: Deps, events: seq<InboundEvent>, fails: nat -> bool) {
    forall i :: 0 <= i < |events| && fails(i) ==> !HandsOver(d, Pump(d, events[..i]), events[i])
  }

  lemma NoFailurePrefix(d: Deps, events: seq<InboundEvent>, fails: nat -> bool, k: nat)
    requires NoFailure(d, events, fails) && k <= |events|
    ensures NoFailure(d, events[..k], fails)
  {
    forall i | 0 <= i < k && fails(i) ensures !HandsOver(d, Pump(d, events[..k][..i]), events[..k][i]) {
      assert events[..k][..i] == events[..i];
    }
  }

  lemma {:induction false} NeverParked(d: Deps, events: seq<InboundEvent>, fails: nat -> bool)
    requires NoFailure(d, events, fails)
    ensures Consumed(d, events, fails) == Loop(Pump(d, events), false)
  {
    if events != [] {
      NoFailurePrefix(d, events, fails, |events| - 1);
      NeverParked(d, events[..|events| - 1], fails);
    }
  }

  /** Up to the first failure the notifier is handed what a pump that never fails hands it;
      from that event on, nothing. */
  lemma {:induction false} ParkedAtFirstFailure(d: Deps, events: seq<InboundEvent>, fails: nat -> bool, k: nat)
    requires FirstFailure(d, events, fails, k)
    ensures Consumed(d, events, fails).parked
    ensures Consumed(d, events, fails).pump.delivered == Pump(d, events[..k]).delivered
    decreases |events|
  {
    var before := events[..|events| - 1];
    if k == |events| - 1 {
      NeverParked(d, before, fails);
    } else {
      assert before[..k] == events[..k];
      ParkedAtFirstFailure(d, before, fails, k);
    }
  }

  // ---- the dedup log against the whole delivery history ----

  /** The ids of the messages handed to the notifier, in order, repeats included. */
  function DeliveredIds(delivered: seq<InboundEvent>): seq<nat> {
    if delivered == [] then [] else
    var e := delivered[|delivered| - 1];
    DeliveredIds(delivered[..|delivered| - 1]) + if IsMessage(e) then [e.m.id] else []
  }

  function Fresh(d: Deps, events: seq<InboundEvent>): seq<nat> {
    DeliveredIds(Pump(d, events).delivered)
  }

  /** The log is exactly the last 1024 delivered ids, and so never more. */
  lemma {:induction false} LogIsRecentDeliveries(d: Deps, events: seq<InboundEvent>)
    ensures Pump(d, events).seen == TakeLast(Fresh(d, events), SEEN_DELIVERED_CAPACITY)
    ensures |Pump(d, events).seen| <= SEEN_DELIVERED_CAPACITY
  {
    if events != [] {
      var before, e := events[..|events| - 1], events[|events| - 1];
      LogIsRecentDeliveries(d, before);
      FreshStep(d, before, e);
      assert events == before + [e];
    }
  }

  lemma FreshStep(d: Deps, events: seq<InboundEvent>, e: InboundEvent)
    ensures Fresh(d, events + [e]) == Fresh(d, events)
      + if Accepts(d, e) && IsMessage(e) && e.m.id !in Pump(d, events).seen then [e.m.id] else []
  {
    var all := events + [e];
    assert all[..|all| - 1] == events;
    var p := Pump(d, events);
    if Accepts(d, e) && Record(p.seen, e).0 != Duplicate {
      var grown := p.delivered + [e];
      assert grown[..|grown| - 1] == p.delivered;
    }
  }

  /** Every accepted message reaches the notifier at least once. */
  lemma {:induction false} EveryMessageDelivered(d: Deps, events: seq<InboundEvent>, e: InboundEvent)
    requires e in events && Accepts(d, e) && IsMessage(e)
    ensures e.m.id in Fresh(d, events)
  {
    var before, last := events[..|events| - 1], events[|events| - 1];
    assert events == before + [last];
    FreshStep(d, before, last);
    if e in before {
      EveryMessageDelivered(d, before, e);
    } else {
      LogIsRecentDeliveries(d, before);
      if e.m.id in Pump(d, before).seen { assert e.m.id in Fresh(d, before); }
    }
  }

  predicate Distinct(ids: seq<nat>) {
    forall i, j :: 0 <= i < j < |ids| ==> ids[i] != ids[j]
  }

  /** Every repeat of a delivered id arrives before 1024 newer ids were delivered. */
  predicate PromptRepeats(d: Deps, events: seq<InboundEvent>) {
    events == [] ||
    (var before, e := events[..|events| - 1], events[|events| - 1];
     && PromptRepeats(d, before)
     && (Accepts(d, e) && IsMessage(e) && e.m.id in Fresh(d, before) ==>
           e.m.id in TakeLast(Fresh(d, before), SEEN_DELIVERED_CAPACITY)))
  }

  /** The notifier is handed no message twice exactly when every repeat is prompt. */
  lemma {:induction false} AtMostOnceIffPrompt(d: Deps, events: seq<InboundEvent>)
    ensures Distinct(Fresh(d, events)) <==> PromptRepeats(d, events)
  {
    if events != [] {
      var before, e := events[..|events| - 1], events[|events| - 1];
      assert events == before + [e];
      AtMostOnceIffPrompt(d, before);
      FreshStep(d, before, e);
      LogIsRecentDeliveries(d, before);
      var was, now := Fresh(d, before), Fresh(d, events);
      assert forall i :: 0 <= i < |was| ==> now[i] == was[i];
      if |now| > |was| && e.m.id in was {
        var i :| 0 <= i < |was| && was[i] == e.m.id;
        assert now[i] == now[|was|];
      }
    }
  }

  // ---- what is handed over, event by event ----

  /** A reaction the filter wants, by someone else. */
  function WantsReaction(d: Deps): Reaction -> bool { (r: Reaction) => d.wantsReaction(r.target) && Some(r.actor) != d.bot }

  lemma {:induction false} FilterOne<T>(p: T -> bool, x: T)
    ensures Filter(p, [x]) == if p(x) then [x] else []
  {
    assert [x][1..] == [];
  }

  lemma DispatchReaction(d: Deps, p: PumpState, e: InboundEvent)
    ensures ReactionsIn(Dispatch(d, p, e).delivered) == ReactionsIn(p.delivered) + Filter(WantsReaction(d), ReactionsIn([e]))
  {
    OneIn(e);
    ReactionsConcat(p.delivered, [e]);
    if e.ReactionSeen? { FilterOne(WantsReaction(d), Reaction(e.target, e.actor)); }
  }

  /** The reactions handed to the notifier are exactly the wanted ones of the stream that are
      not the bot's own, in order and as often as they come. */
  lemma {:induction false} ReactionsHandedOver(d: Deps, events: seq<InboundEvent>)
    ensures ReactionsIn(Pump(d, events).delivered) == Filter(WantsReaction(d), ReactionsIn(events))
  {
    if events != [] {
      var before, e := events[..|events| - 1], events[|events| - 1];
      assert events == before + [e];
      ReactionsHandedOver(d, before);
      DispatchReaction(d, Pump(d, before), e);
      ReactionsConcat(before, [e]);
      FilterConcat(WantsReaction(d), ReactionsIn(before), ReactionsIn([e]));
    }
  }

  /** `a` is `b` with some events left out. */
  predicate LeavesOut(a: seq<InboundEvent>, b: seq<InboundEvent>)
    decreases |b|
  {
    a == [] ||
    (b != [] &&
     ((a[|a| - 1] == b[|b| - 1] && LeavesOut(a[..|a| - 1], b[..|b| - 1])) || LeavesOut(a, b[..|b| - 1])))
  }

  /** The notifier is handed events of the stream as they came, in their order, and of the
      messages only wanted ones that the bot did not send. */
  lemma {:induction false} HandedOverInOrder(d: Deps, events: seq<InboundEvent>)
    ensures LeavesOut(Pump(d, events).delivered, events)
    ensures forall e :: e in Pump(d, events).delivered && IsMessage(e) ==> d.wants(e.m) && Some(e.m.sender) != d.bot
  {
    if events != [] {
      var before, e := events[..|events| - 1], events[|events| - 1];
      assert events == before + [e];
      HandedOverInOrder(d, before);
      var was, now := Pump(d, before).delivered, Pump(d, events).delivered;
      if now != was { assert now == was + [e] && now[..|now| - 1] == was; }
    }
  }
}
