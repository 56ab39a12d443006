/** What the producer's chunks are to the pump: passes over the ids of the messages it
    wants. */
module PumpPasses {
  import opened Core
  import opened Realm
  import opened Producer
  import opened EventPump

  predicate Wanted(d: Deps, m: Message) { d.wants(m) && Some(m.sender) != d.bot }

  /** The wanted ids among messages, in order. */
  function WantedIds(d: Deps, ms: seq<Message>): seq<nat> {
    if ms == [] then [] else (if Wanted(d, ms[0]) then [ms[0].id] else []) + WantedIds(d, ms[1..])
  }

  function Log(delivered: seq<nat>): seq<nat> { TakeLast(delivered, SEEN_DELIVERED_CAPACITY) }

  /** The delivered ids after one more id is offered. */
  function Offer(delivered: seq<nat>, id: nat): seq<nat> {
    if id in Log(delivered) then delivered else delivered + [id]
  }

  function Pass(delivered: seq<nat>, ids: seq<nat>): seq<nat>
    decreases |ids|
  {
    if ids == [] then delivered else Pass(Offer(delivered, ids[0]), ids[1..])
  }

  predicate PromptOffer(delivered: seq<nat>, id: nat) { id in delivered ==> id in Log(delivered) }

  /** Every id delivered before is offered again while the log still holds it. */
  predicate PromptPass(delivered: seq<nat>, ids: seq<nat>)
    decreases |ids|
  {
    ids == [] || (PromptOffer(delivered, ids[0]) && PromptPass(Offer(delivered, ids[0]), ids[1..]))
  }

  lemma {:induction false} PassConcat(delivered: seq<nat>, a: seq<nat>, b: seq<nat>)
    ensures Pass(delivered, a + b) == Pass(Pass(delivered, a), b)
    ensures PromptPass(delivered, a + b) <==> PromptPass(delivered, a) && PromptPass(Pass(delivered, a), b)
    decreases |a|
  {
    if a == [] {
      assert a + b == b;
    } else {
      assert (a + b)[1..] == a[1..] + b;
      PassConcat(Offer(delivered, a[0]), a[1..], b);
    }
  }

  // ---- a chunk is a pass ----

  /** From the one stream to the other, the pump makes a pass over these ids. */
  predicate Passes(d: Deps, was: seq<InboundEvent>, now: seq<InboundEvent>, ids: seq<nat>) {
    && Fresh(d, now) == Pass(Fresh(d, was), ids)
    && (PromptRepeats(d, now) <==> (PromptRepeats(d, was) && PromptPass(Fresh(d, was), ids)))
  }

  /** Fed the chunk after `out`, the pump makes a pass over these ids. */
  predicate Feeds(d: Deps, out: seq<InboundEvent>, chunk: seq<InboundEvent>, ids: seq<nat>) {
    Passes(d, out, out + chunk, ids)
  }

  lemma PassesOn(d: Deps, was: seq<InboundEvent>, mid: seq<InboundEvent>, now: seq<InboundEvent>, x: seq<nat>, y: seq<nat>)
    requires Passes(d, was, mid, x) && Passes(d, mid, now, y)
    ensures Passes(d, was, now, x + y)
  {
    PassConcat(Fresh(d, was), x, y);
  }

  lemma FeedsNothing(d: Deps, out: seq<InboundEvent>)
    ensures Feeds(d, out, [], [])
  {
    assert out + [] == out;
  }

  lemma FeedsConcat(d: Deps, out: seq<InboundEvent>, a: seq<InboundEvent>, b: seq<InboundEvent>, x: seq<nat>, y: seq<nat>)
    requires Feeds(d, out, a, x) && Feeds(d, out + a, b, y)
    ensures Feeds(d, out, a + b, x + y)
  {
    ConcatAssociates(out, a, b);
    PassesOn(d, out, out + a, out + (a + b), x, y);
  }

  function WantedId(d: Deps, e: InboundEvent): seq<nat> { if IsMessage(e) && Wanted(d, e.m) then [e.m.id] else [] }

  lemma PassOne(delivered: seq<nat>, id: nat)
    ensures Pass(delivered, [id]) == Offer(delivered, id)
    ensures PromptPass(delivered, [id]) <==> PromptOffer(delivered, id)
  {
    assert [id][1..] == [];
  }

  lemma OneMore(d: Deps, out: seq<InboundEvent>, e: InboundEvent)
    ensures Fresh(d, out + [e]) == if WantedId(d, e) == [] then Fresh(d, out) else Offer(Fresh(d, out), e.m.id)
  {
    LogIsRecentDeliveries(d, out);
    FreshStep(d, out, e);
    assert Fresh(d, out) + [] == Fresh(d, out);
  }

  lemma OneMorePrompt(d: Deps, out: seq<InboundEvent>, e: InboundEvent)
    ensures PromptRepeats(d, out + [e]) <==>
      PromptRepeats(d, out) && (WantedId(d, e) == [] || PromptOffer(Fresh(d, out), e.m.id))
  {
    var all := out + [e];
    assert all[..|all| - 1] == out;
  }

  lemma FeedsOne(d: Deps, out: seq<InboundEvent>, e: InboundEvent)
    ensures Feeds(d, out, [e], WantedId(d, e))
  {
    OneMore(d, out, e);
    OneMorePrompt(d, out, e);
    if WantedId(d, e) != [] { PassOne(Fresh(d, out), e.m.id); }
  }

  lemma OfferedAgain(delivered: seq<nat>, id: nat)
    ensures Pass(delivered, [id, id]) == Pass(delivered, [id])
    ensures PromptPass(delivered, [id, id]) <==> PromptPass(delivered, [id])
  {
    assert [id, id][1..] == [id] && [id][1..] == [];
    if id !in Log(delivered) {
      var now := Log(delivered + [id]);
      assert now[|now| - 1] == id;
    }
  }

  /** A message as the producer hands it on: its post, then its mention if it has one. */
  function Handed(m: Message, replayed: bool, mention: bool): seq<InboundEvent> {
    [MessagePosted(m, replayed)] + if mention then [MentionReceived(m, replayed)] else []
  }

  lemma FeedsMessage(d: Deps, out: seq<InboundEvent>, m: Message, replayed: bool, mention: bool)
    ensures Feeds(d, out, Handed(m, replayed, mention), WantedIds(d, [m]))
  {
    var post, at := MessagePosted(m, replayed), MentionReceived(m, replayed);
    assert [m][1..] == [] && WantedIds(d, [m]) == WantedId(d, post);
    FeedsOne(d, out, post);
    if mention {
      FeedsOne(d, out + [post], at);
      FeedsConcat(d, out, [post], [at], WantedId(d, post), WantedId(d, at));
      if Wanted(d, m) {
        assert WantedId(d, post) + WantedId(d, at) == [m.id, m.id];
        OfferedAgain(Fresh(d, out), m.id);
      }
    } else {
      assert Handed(m, replayed, mention) == [post];
    }
  }

  lemma {:induction false} WantedConcat(d: Deps, a: seq<Message>, b: seq<Message>)
    ensures WantedIds(d, a + b) == WantedIds(d, a) + WantedIds(d, b)
  {
    if a == [] {
      assert a + b == b;
    } else {
      assert (a + b)[1..] == a[1..] + b;
      WantedConcat(d, a[1..], b);
    }
  }

  lemma FeedsEvent(d: Deps, out: seq<InboundEvent>, seat: UserId, e: QueuedEvent)
    ensures Feeds(d, out, MapEvent(seat, e), WantedIds(d, if e.body.MessageEvent? then [e.body.m] else []))
  {
    match e.body
    case MessageEvent(m) =>
      assert MapEvent(seat, e) == Handed(m, false, seat in m.mentioned);
      FeedsMessage(d, out, m, false, seat in m.mentioned);
    case ReactionEvent(target, actor) => FeedsOne(d, out, ReactionSeen(target, actor));
    case _ => FeedsNothing(d, out);
  }

  /** A live batch. */
  lemma {:induction false} FeedsBatch(d: Deps, out: seq<InboundEvent>, seat: UserId, events: seq<QueuedEvent>)
    ensures Feeds(d, out, MapEvents(seat, events), WantedIds(d, MessagesOf(events)))
    decreases |events|
  {
    if events == [] {
      FeedsNothing(d, out);
    } else {
      var first := MapEvent(seat, events[0]);
      var head := if events[0].body.MessageEvent? then [events[0].body.m] else [];
      FeedsEvent(d, out, seat, events[0]);
      FeedsBatch(d, out + first, seat, events[1..]);
      FeedsConcat(d, out, first, MapEvents(seat, events[1..]), WantedIds(d, head), WantedIds(d, MessagesOf(events[1..])));
      WantedConcat(d, head, MessagesOf(events[1..]));
    }
  }

  /** A replay. */
  lemma {:induction false} FeedsReplay(d: Deps, out: seq<InboundEvent>, seat: UserId, rows: seq<Message>)
    ensures Feeds(d, out, MarkReplayed(MapMessages(seat, rows)), WantedIds(d, rows))
    decreases |rows|
  {
    if rows == [] {
      FeedsNothing(d, out);
    } else {
      var m, rest := rows[0], MarkReplayed(MapMessages(seat, rows[1..]));
      var first := Handed(m, true, seat in m.mentioned);
      assert MarkReplayed(MapMessages(seat, rows)) == first + rest;
      FeedsMessage(d, out, m, true, seat in m.mentioned);
      FeedsReplay(d, out + first, seat, rows[1..]);
      FeedsConcat(d, out, first, rest, WantedIds(d, [m]), WantedIds(d, rows[1..]));
      WantedConcat(d, [m], rows[1..]);
      assert rows == [m] + rows[1..];
    }
  }

  // ---- passes ----

  /** A pass over ids the log holds delivers nothing. */
  lemma {:induction false} PassOverHeld(delivered: seq<nat>, ids: seq<nat>)
    requires forall i :: 0 <= i < |ids| ==> ids[i] in Log(delivered)
    ensures Pass(delivered, ids) == delivered && PromptPass(delivered, ids)
    decreases |ids|
  {
    if ids != [] { PassOverHeld(delivered, ids[1..]); }
  }

  /** A pass over ids never delivered delivers each. */
  lemma {:induction false} PassOverNew(delivered: seq<nat>, ids: seq<nat>)
    requires Distinct(ids) && forall i :: 0 <= i < |ids| ==> ids[i] !in delivered
    ensures Pass(delivered, ids) == delivered + ids && PromptPass(delivered, ids)
    decreases |ids|
  {
    if ids == [] {
      assert delivered + [] == delivered;
    } else {
      assert ids[0] !in Log(delivered);
      forall i | 0 <= i < |ids| - 1 ensures ids[1..][i] !in delivered + [ids[0]] { assert ids[1..][i] == ids[i + 1]; }
      TailDistinct(ids, 1);
      PassOverNew(delivered + [ids[0]], ids[1..]);
      assert delivered + [ids[0]] + ids[1..] == delivered + ids by { assert [ids[0]] + ids[1..] == ids; }
    }
  }

  /** A pass never takes a delivery back. */
  lemma {:induction false} PassOnlyAdds(delivered: seq<nat>, ids: seq<nat>)
    ensures |delivered| <= |Pass(delivered, ids)| && Pass(delivered, ids)[..|delivered|] == delivered
    decreases |ids|
  {
    if ids != [] {
      var next := Offer(delivered, ids[0]);
      PassOnlyAdds(next, ids[1..]);
      assert Pass(delivered, ids)[..|delivered|] == Pass(delivered, ids)[..|next|][..|delivered|];
    }
  }

  /** A pass delivers nothing exactly when the log holds every id of it. */
  lemma {:induction false} PassIsIdleIff(delivered: seq<nat>, ids: seq<nat>)
    ensures Pass(delivered, ids) == delivered <==>
      forall i :: 0 <= i < |ids| ==> ids[i] in Log(delivered)
    decreases |ids|
  {
    if ids != [] {
      if ids[0] in Log(delivered) {
        PassIsIdleIff(delivered, ids[1..]);
        assert forall i :: 1 <= i < |ids| ==> ids[i] == ids[1..][i - 1];
      } else {
        PassOnlyAdds(delivered + [ids[0]], ids[1..]);
      }
    }
  }

  // ---- a gap against what was delivered before ----

  /** Everything delivered since the first of these ids is one of them. */
  predicate CaughtUp(delivered: seq<nat>, ids: seq<nat>) {
    forall i, j :: 0 <= i <= j < |delivered| && delivered[i] in ids ==> delivered[j] in ids
  }

  lemma {:induction false} CountOfDistinct(s: seq<nat>, all: set<nat>)
    requires Distinct(s) && forall i :: 0 <= i < |s| ==> s[i] in all
    ensures |s| <= |all|
    decreases |s|
  {
    if s != [] {
      var last, front := s[|s| - 1], s[..|s| - 1];
      assert forall i :: 0 <= i < |front| ==> front[i] == s[i];
      CountOfDistinct(front, all - {last});
    }
  }

  function Elements(s: seq<nat>): (r: set<nat>)
    ensures forall x :: x in r <==> x in s
  {
    set x | x in s
  }

  lemma {:induction false} ElementsOf(s: seq<nat>)
    ensures |Elements(s)| <= |s| && (Distinct(s) ==> |Elements(s)| == |s|)
  {
    if s != [] {
      var last, front := s[|s| - 1], s[..|s| - 1];
      ElementsOf(front);
      assert s == front + [last];
      assert Elements(s) == Elements(front) + {last};
      if Distinct(s) {
        assert forall i :: 0 <= i < |front| ==> front[i] == s[i];
        assert last !in front;
      }
    }
  }

  /** The one comes before the other among the ids. */
  predicate Before(ids: seq<nat>, a: nat, b: nat) {
    exists p, q :: 0 <= p < q < |ids| && ids[p] == a && ids[q] == b
  }

  lemma BeforeInTail(ids: seq<nat>, a: nat, b: nat)
    requires ids != [] && Before(ids[1..], a, b)
    ensures Before(ids, a, b)
  {
    var p, q :| 0 <= p < q < |ids| - 1 && ids[1..][p] == a && ids[1..][q] == b;
    assert ids[p + 1] == a && ids[q + 1] == b;
  }

  /** What `tail` became: it holds all the ids, kept what it had, and gained in order. */
  predicate Gained(tail: seq<nat>, after: seq<nat>, ids: seq<nat>) {
    && Distinct(after) && |tail| <= |after| && after[..|tail|] == tail
    && (forall i :: 0 <= i < |ids| ==> ids[i] in after)
    && (forall i :: |tail| <= i < |after| ==> after[i] in ids)
    && (forall i, j :: |tail| <= i < j < |after| ==> Before(ids, after[i], after[j]))
  }

  /** A pass over ids of a set no larger than the log, when everything delivered since the
      first of that set is in it: each id is delivered unless it was, and promptly. */
  lemma {:induction false} PassInside(head: seq<nat>, tail: seq<nat>, ids: seq<nat>, all: set<nat>) returns (after: seq<nat>)
    requires Distinct(tail) && |all| <= SEEN_DELIVERED_CAPACITY
    requires forall i :: 0 <= i < |head| ==> head[i] !in all
    requires forall i :: 0 <= i < |tail| ==> tail[i] in all
    requires forall i :: 0 <= i < |ids| ==> ids[i] in all
    ensures Pass(head + tail, ids) == head + after && PromptPass(head + tail, ids) && Gained(tail, after, ids)
    ensures forall i :: 0 <= i < |after| ==> after[i] in all
    decreases |ids|
  {
    after := tail;
    if ids != [] {
      var id := ids[0];
      CountOfDistinct(tail, all);
      TailInLog(head, tail);
      if id in tail {
        after := PassInside(head, tail, ids[1..], all);
        GainedMore(tail, tail, after, ids);
      } else {
        assert id !in head + tail && id !in Log(head + tail);
        assert head + tail + [id] == head + (tail + [id]);
        after := PassInside(head, tail + [id], ids[1..], all);
        GainedMore(tail, tail + [id], after, ids);
      }
    }
  }

  lemma TailInLog(head: seq<nat>, tail: seq<nat>)
    requires |tail| <= SEEN_DELIVERED_CAPACITY
    ensures forall id :: id in tail ==> id in Log(head + tail)
  {
    var all := head + tail;
    var k := |all| - |Log(all)|;
    forall id | id in tail ensures id in Log(all) {
      var i :| 0 <= i < |tail| && tail[i] == id;
      assert Log(all)[|head| + i - k] == id;
    }
  }

  lemma GainedMore(tail: seq<nat>, next: seq<nat>, after: seq<nat>, ids: seq<nat>)
    requires ids != [] && Gained(next, after, ids[1..])
    requires (next == tail && ids[0] in tail) || next == tail + [ids[0]]
    ensures Gained(tail, after, ids)
  {
    assert after[..|tail|] == after[..|next|][..|tail|];
    assert ids[0] in next && forall k :: 0 <= k < |next| ==> after[k] == next[k];
    forall i | 1 <= i < |ids| ensures ids[i] in after { assert ids[i] == ids[1..][i - 1]; }
    forall i, j | |tail| <= i < j < |after| ensures Before(ids, after[i], after[j]) {
      if |next| <= i {
        BeforeInTail(ids, after[i], after[j]);
      } else {
        assert after[i] == next[i] == ids[0];
        var q :| 0 <= q < |ids| - 1 && ids[1..][q] == after[j];
        assert ids[q + 1] == after[j];
      }
    }
  }

  lemma NotYetCaught(delivered: seq<nat>, ids: seq<nat>, i: nat, j: nat)
    requires CaughtUp(delivered, ids) && i <= j < |delivered| && delivered[j] !in ids
    ensures delivered[i] !in ids
  {
  }

  lemma {:induction false} SplitAt(delivered: seq<nat>, ids: seq<nat>) returns (k: nat)
    requires CaughtUp(delivered, ids)
    ensures k <= |delivered|
    ensures forall i :: 0 <= i < k ==> delivered[i] !in ids
    ensures forall i :: k <= i < |delivered| ==> delivered[i] in ids
  {
    k := |delivered|;
    while k > 0 && delivered[k - 1] in ids
      invariant k <= |delivered|
      invariant forall i :: k <= i < |delivered| ==> delivered[i] in ids
    {
      k := k - 1;
    }
    forall i | 0 <= i < k ensures delivered[i] !in ids { NotYetCaught(delivered, ids, i, k - 1); }
  }

  /** A gap no larger than the log, offered to a pump that has caught up with it: promptly
      offered, all in the log afterwards, and what it adds is new and in its order. */
  lemma PassOverGap(delivered: seq<nat>, ids: seq<nat>)
    requires Distinct(delivered) && Distinct(ids) && |ids| <= SEEN_DELIVERED_CAPACITY && CaughtUp(delivered, ids)
    ensures PromptPass(delivered, ids) && Gained(delivered, Pass(delivered, ids), ids)
    ensures forall i :: 0 <= i < |ids| ==> ids[i] in Log(Pass(delivered, ids))
  {
    ElementsOf(ids);
    var k := SplitAt(delivered, ids);
    var head, tail := delivered[..k], delivered[k..];
    assert delivered == head + tail;
    TailDistinct(delivered, k);
    var after := PassInside(head, tail, ids, Elements(ids));
    CountOfDistinct(after, Elements(ids));
    TailInLog(head, after);
    HeadKept(head, tail, after, ids);
  }

  lemma TailDistinct(s: seq<nat>, k: nat)
    requires Distinct(s) && k <= |s|
    ensures Distinct(s[k..])
  {
    forall i, j | 0 <= i < j < |s| - k ensures s[k..][i] != s[k..][j] { assert s[k..][i] == s[k + i] && s[k..][j] == s[k + j]; }
  }

  lemma HeadKept(head: seq<nat>, tail: seq<nat>, after: seq<nat>, ids: seq<nat>)
    requires Distinct(head + tail) && Gained(tail, after, ids)
    requires forall i :: 0 <= i < |head| ==> head[i] !in ids
    ensures Gained(head + tail, head + after, ids)
  {
    var was, now := head + tail, head + after;
    assert now[..|was|] == was;
    forall i, j | 0 <= i < j < |now| ensures now[i] != now[j] {
      if j < |was| {
        assert now[i] == was[i] && now[j] == was[j];
      } else if i >= |head| {
        assert now[i] == after[i - |head|] && now[j] == after[j - |head|];
      } else {
        assert now[j] == after[j - |head|] && after[j - |head|] in ids;
      }
    }
    forall i, j | |was| <= i < j < |now| ensures Before(ids, now[i], now[j]) {
      assert now[i] == after[i - |head|] && now[j] == after[j - |head|];
    }
  }

  /** A gap offered twice to a pump that had caught up with it: the second pass delivers
      nothing exactly when the gap is no larger than the log. */
  lemma SecondPassIdleIff(delivered: seq<nat>, ids: seq<nat>)
    requires Distinct(delivered) && Distinct(ids) && CaughtUp(delivered, ids)
    ensures Pass(Pass(delivered, ids), ids) == Pass(delivered, ids) <==> |ids| <= SEEN_DELIVERED_CAPACITY
  {
    var once := Pass(delivered, ids);
    PassIsIdleIff(once, ids);
    if |ids| <= SEEN_DELIVERED_CAPACITY {
      PassOverGap(delivered, ids);
    } else if forall i :: 0 <= i < |ids| ==> ids[i] in Log(once) {
      InLogCount(Log(once), ids);
    }
  }

  lemma InLogCount(log: seq<nat>, ids: seq<nat>)
    requires Distinct(ids) && forall i :: 0 <= i < |ids| ==> ids[i] in log
    ensures |ids| <= |log|
  {
    CountOfDistinct(ids, Elements(log));
    ElementsOf(log);
  }

  // ---- a pass that repeats ----

  lemma {:induction false} PassHolds(delivered: seq<nat>, ids: seq<nat>)
    ensures forall i :: 0 <= i < |ids| ==> ids[i] in Pass(delivered, ids)
    decreases |ids|
  {
    if ids != [] {
      var next := Offer(delivered, ids[0]);
      PassHolds(next, ids[1..]);
      PassOnlyAdds(next, ids[1..]);
      var k :| 0 <= k < |next| && next[k] == ids[0];
      assert Pass(next, ids[1..])[..|next|][k] == ids[0];
      forall i | 1 <= i < |ids| ensures ids[i] in Pass(delivered, ids) { assert ids[1..][i - 1] == ids[i]; }
    }
  }

  lemma DistinctPrefix(s: seq<nat>, k: nat)
    requires Distinct(s) && k <= |s|
    ensures Distinct(s[..k])
  {
  }

  /** A pass over ids all delivered before, not all in the log, delivers one again. */
  lemma {:induction false} PassRepeats(delivered: seq<nat>, ids: seq<nat>)
    requires forall i :: 0 <= i < |ids| ==> ids[i] in delivered
    requires exists i :: 0 <= i < |ids| && ids[i] !in Log(delivered)
    ensures !Distinct(Pass(delivered, ids))
    decreases |ids|
  {
    if ids[0] in Log(delivered) {
      var i :| 0 <= i < |ids| && ids[i] !in Log(delivered);
      assert ids[1..][i - 1] == ids[i];
      PassRepeats(delivered, ids[1..]);
    } else {
      var next := delivered + [ids[0]];
      var k :| 0 <= k < |delivered| && delivered[k] == ids[0];
      assert next[k] == next[|delivered|];
      PassOnlyAdds(next, ids[1..]);
      if Distinct(Pass(next, ids[1..])) { DistinctPrefix(Pass(next, ids[1..]), |next|); }
    }
  }

  /** The same gap offered twice: no id is delivered twice exactly when it fits the log. */
  lemma SecondPassDistinctIff(delivered: seq<nat>, ids: seq<nat>)
    requires Distinct(delivered) && Distinct(ids) && CaughtUp(delivered, ids)
    ensures Distinct(Pass(Pass(delivered, ids), ids)) <==> |ids| <= SEEN_DELIVERED_CAPACITY
  {
    var once := Pass(delivered, ids);
    SecondPassIdleIff(delivered, ids);
    if |ids| <= SEEN_DELIVERED_CAPACITY {
      PassOverGap(delivered, ids);
    } else {
      PassHolds(delivered, ids);
      PassIsIdleIff(once, ids);
      PassRepeats(once, ids);
    }
  }
}
