/** From the realm's history to the notifier. */
module EndToEnd {
  import opened Core
  import opened Producer
  import opened DeliveryInvariant
  import opened DeliveryFinish
  import opened Delivery
  import opened Adoption
  import opened EventPump
  import opened PumpPasses
  import opened OnceOnly

  function Count(ids: seq<nat>, id: nat): nat {
    if ids == [] then 0 else (if ids[0] == id then 1 else 0) + Count(ids[1..], id)
  }

  lemma {:induction false} DistinctCount(ids: seq<nat>, id: nat)
    requires Distinct(ids)
    ensures Count(ids, id) == if id in ids then 1 else 0
  {
    if ids != [] {
      assert forall i :: 0 <= i < |ids| - 1 ==> ids[1..][i] == ids[i + 1];
      DistinctCount(ids[1..], id);
      assert ids == [ids[0]] + ids[1..];
    }
  }

  /** End to end, over any number of queue deaths: if every repeat reached the pump
      promptly, each message for the notifier from the first live batch on that the
      last completed poll or snapshot could see was handed over exactly once, and no
      message at all was handed over twice. */
  lemma ExactlyOnce(d: Deps, s: System, before: seq<Action>, actions: seq<Action>, i: nat)
    requires Boots(s) && Runs(s, before)
    requires var b := Run(s, before);
      && b.phase.Mapping? && MessagesOf(b.phase.batch) != []
      && Runs(Next(b, Finish), actions) && Lossless(Next(b, Finish), actions)
    requires var b := Run(s, before); var t := Run(Next(b, Finish), actions);
      && b.phase.upTo - |MessagesOf(b.phase.batch)| <= i < t.synced <= |Inbox(t)|
      && Wanted(d, Inbox(t)[i]) && PromptRepeats(d, t.out)
    ensures var t := Run(Next(Run(s, before), Finish), actions);
      && Count(Fresh(d, t.out), Inbox(t)[i].id) == 1
      && Distinct(Fresh(d, t.out))
      && |Pump(d, t.out).seen| <= SEEN_DELIVERED_CAPACITY
  {
    var t := Run(Next(Run(s, before), Finish), actions);
    NoLoss(s, before, actions);
    assert Emitted(t.out, Inbox(t)[i]);
    DeliveredOnce(d, t.out, Inbox(t)[i]);
  }

  /** End to end, from the protocol alone: when every replay is read in full and fits the
      dedup log, and no other registration is taken up, each message for the notifier from
      the first live batch on is handed over exactly once, over any number of queue deaths. */
  lemma ExactlyOnceWhenReplaysFit(d: Deps, s: System, before: seq<Action>, actions: seq<Action>, i: nat)
    requires Boots(s) && Runs(s, before) && Fitting(d, s, before)
    requires var b := Run(s, before);
      && b.phase.Mapping? && MessagesOf(b.phase.batch) != [] && Own(b, b.phase.cursor)
      && Runs(Next(b, Finish), actions) && Lossless(Next(b, Finish), actions) && Fitting(d, Next(b, Finish), actions)
    requires var b := Run(s, before); var t := Run(Next(b, Finish), actions);
      b.phase.upTo - |MessagesOf(b.phase.batch)| <= i < t.synced <= |Inbox(t)| && Wanted(d, Inbox(t)[i])
    ensures var t := Run(Next(Run(s, before), Finish), actions);
      && Count(Fresh(d, t.out), Inbox(t)[i].id) == 1
      && Distinct(Fresh(d, t.out))
  {
    var b := Run(s, before);
    BootOnce(d, s);
    var h, g := RunOnce(d, s, before, 0, 0);
    NextKeeps(b, Finish);
    NextKnown(b, Finish);
    h, g := NextOnce(d, b, Finish, h, g);
    h, g := RunOnce(d, Next(b, Finish), actions, h, g);
    ExactlyOnce(d, s, before, actions, i);
  }

  lemma DeliveredOnce(d: Deps, out: seq<InboundEvent>, m: Message)
    requires Emitted(out, m) && Wanted(d, m) && PromptRepeats(d, out)
    ensures Count(Fresh(d, out), m.id) == 1 && Distinct(Fresh(d, out))
    ensures |Pump(d, out).seen| <= SEEN_DELIVERED_CAPACITY
  {
    var e := if MessagePosted(m, false) in out then MessagePosted(m, false) else MessagePosted(m, true);
    EveryMessageDelivered(d, out, e);
    AtMostOnceIffPrompt(d, out);
    DistinctCount(Fresh(d, out), m.id);
    LogIsRecentDeliveries(d, out);
  }
}
