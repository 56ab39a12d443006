/** Boot-time catch-up of channel narrows (packages/mcp/channels-catch-up.ts). */
module ChannelsCatchUp {
  import opened Core
  import opened NarrowSet

  /** A message as a history read gives it. `mentionsBot` is what the live filter asks of it. */
  datatype Post = Post(id: nat, ts: nat, sender: nat, thread: Option<ThreadName>, mentionsBot: bool)

  /** `x` goes ahead of the posts that are not earlier than it. */
  function Insert(x: Post, sorted: seq<Post>): (r: seq<Post>)
    ensures |r| == |sorted| + 1
  {
    if sorted == [] || x.ts <= sorted[0].ts then [x] + sorted else [sorted[0]] + Insert(x, sorted[1..])
  }

  /** The stable sort by timestamp. */
  function Sort(s: seq<Post>): (r: seq<Post>)
    ensures |r| == |s|
  {
    if s == [] then [] else Insert(s[0], Sort(s[1..]))
  }

  predicate Sorted(s: seq<Post>) {
    forall i, j :: 0 <= i < j < |s| ==> s[i].ts <= s[j].ts
  }

  function FirstsFrom(seen: set<ThreadName>, ordered: seq<Post>): seq<Post>
    decreases |ordered|
  {
    if ordered == [] then []
    else if ordered[0].thread.None? || ordered[0].thread.value in seen then FirstsFrom(seen, ordered[1..])
    else [ordered[0]] + FirstsFrom(seen + {ordered[0].thread.value}, ordered[1..])
  }

  function FirstsOf(messages: seq<Post>): seq<Post> { FirstsFrom({}, Sort(messages)) }

  method FirstMessagePerTopic(messages: seq<Post>) returns (out: seq<Post>)
    ensures out == FirstsOf(messages)
  {
    var ordered := Sort(messages);
    var seen: set<ThreadName> := {};
    out := [];
    for i := 0 to |ordered|
      invariant out + FirstsFrom(seen, ordered[i..]) == FirstsOf(messages)
    {
      var m := ordered[i];
      assert ordered[i..][1..] == ordered[i + 1..];
      if m.thread.None? { continue; }
      if m.thread.value in seen { continue; }
      assert FirstsFrom(seen, ordered[i..]) == [m] + FirstsFrom(seen + {m.thread.value}, ordered[i + 1..]);
      seen := seen + {m.thread.value};
      out := out + [m];
    }
    assert ordered[|ordered|..] == [];
  }

  // ---- the sort ----

  function At(ts: nat): Post -> bool { (m: Post) => m.ts == ts }

  lemma {:induction false} InsertMember(x: Post, s: seq<Post>, m: Post)
    ensures m in Insert(x, s) <==> m == x || m in s
  {
    if s != [] && s[0].ts < x.ts {
      InsertMember(x, s[1..], m);
      assert s == [s[0]] + s[1..];
    }
  }

  lemma {:induction false} InsertSorted(x: Post, s: seq<Post>)
    requires Sorted(s)
    ensures Sorted(Insert(x, s))
  {
    if s != [] && s[0].ts < x.ts {
      var tail := Insert(x, s[1..]);
      InsertSorted(x, s[1..]);
      forall m | m in tail ensures s[0].ts <= m.ts { InsertMember(x, s[1..], m); }
      forall i, j | 0 <= i < j < |s| + 1 ensures Insert(x, s)[i].ts <= Insert(x, s)[j].ts {
        assert Insert(x, s)[j] == tail[j - 1] && tail[j - 1] in tail;
      }
    }
  }

  lemma {:induction false} InsertStable(x: Post, s: seq<Post>, ts: nat)
    requires Sorted(s)
    ensures Filter(At(ts), Insert(x, s)) == (if x.ts == ts then [x] else []) + Filter(At(ts), s)
  {
    if s != [] && s[0].ts < x.ts {
      InsertStable(x, s[1..], ts);
      FilterCons(s[0], Insert(x, s[1..]), ts);
      FilterCons(s[0], s[1..], ts);
      assert s == [s[0]] + s[1..];
    } else {
      FilterCons(x, s, ts);
    }
  }

  lemma FilterCons(x: Post, s: seq<Post>, ts: nat)
    ensures Filter(At(ts), [x] + s) == (if x.ts == ts then [x] else []) + Filter(At(ts), s)
  {
    assert ([x] + s)[1..] == s;
  }

  /** The sort orders by timestamp and, among equal timestamps, keeps every post in its
      place, so it neither drops nor repeats one. */
  lemma {:induction false} SortIsStable(s: seq<Post>, ts: nat)
    ensures Sorted(Sort(s))
    ensures Filter(At(ts), Sort(s)) == Filter(At(ts), s)
  {
    if s != [] {
      SortIsStable(s[1..], ts);
      InsertSorted(s[0], Sort(s[1..]));
      InsertStable(s[0], Sort(s[1..]), ts);
    }
  }

  // ---- which message is a topic's first ----

  function FirstIn(t: ThreadName, s: seq<Post>): Option<Post> {
    if s == [] then None else if s[0].thread == Some(t) then Some(s[0]) else FirstIn(t, s[1..])
  }

  lemma {:induction false} FirstInInsert(t: ThreadName, x: Post, s: seq<Post>)
    requires Sorted(s)
    ensures FirstIn(t, Insert(x, s)) ==
      if x.thread == Some(t) && (FirstIn(t, s).None? || x.ts <= FirstIn(t, s).value.ts) then Some(x) else FirstIn(t, s)
  {
    if s == [] || x.ts <= s[0].ts {
      FirstInMember(t, s);
      FirstInCons(t, x, s);
    } else {
      FirstInInsert(t, x, s[1..]);
      FirstInCons(t, s[0], Insert(x, s[1..]));
    }
  }

  lemma FirstInCons(t: ThreadName, x: Post, s: seq<Post>)
    ensures FirstIn(t, [x] + s) == if x.thread == Some(t) then Some(x) else FirstIn(t, s)
  {
    assert ([x] + s)[1..] == s;
  }

  lemma {:induction false} FirstInMember(t: ThreadName, s: seq<Post>)
    ensures FirstIn(t, s).Some? ==> FirstIn(t, s).value in s
  {
    if s != [] {
      FirstInMember(t, s[1..]);
      assert s == [s[0]] + s[1..];
    }
  }

  /** The `i`-th message has the least timestamp of its topic, and is the first the input
      gives with it. */
  predicate IsEarliest(messages: seq<Post>, i: nat)
    requires i < |messages|
  {
    forall j :: 0 <= j < |messages| && messages[j].thread == messages[i].thread ==>
      messages[i].ts < messages[j].ts || (messages[i].ts == messages[j].ts && i <= j)
  }

  lemma {:induction false} FirstIsEarliest(t: ThreadName, s: seq<Post>) returns (i: nat)
    ensures FirstIn(t, Sort(s)).None? ==> forall j :: 0 <= j < |s| ==> s[j].thread != Some(t)
    ensures FirstIn(t, Sort(s)).Some? ==> i < |s| && s[i].thread == Some(t) && s[i] == FirstIn(t, Sort(s)).value && IsEarliest(s, i)
  {
    i := 0;
    if s != [] {
      var rest := s[1..];
      var k := FirstIsEarliest(t, rest);
      SortIsStable(rest, 0);
      FirstInInsert(t, s[0], Sort(rest));
      assert forall j :: 1 <= j < |s| ==> s[j] == rest[j - 1];
      if FirstIn(t, Sort(rest)).Some? && !(s[0].thread == Some(t) && s[0].ts <= rest[k].ts) { i := k + 1; }
    }
  }

  lemma {:induction false} FirstsMember(seen: set<ThreadName>, s: seq<Post>, m: Post)
    ensures m in FirstsFrom(seen, s) <==> m.thread.Some? && m.thread.value !in seen && FirstIn(m.thread.value, s) == Some(m)
    decreases |s|
  {
    if s != [] {
      if s[0].thread.None? || s[0].thread.value in seen {
        FirstsMember(seen, s[1..], m);
      } else {
        FirstsMember(seen + {s[0].thread.value}, s[1..], m);
      }
    }
  }

  /** Two earliest messages of one topic are the same one. */
  lemma EarliestIsUnique(messages: seq<Post>, i: nat, j: nat)
    requires i < |messages| && j < |messages| && messages[i].thread == messages[j].thread
    requires IsEarliest(messages, i) && IsEarliest(messages, j)
    ensures i == j
  {
    assert messages[i].ts <= messages[j].ts <= messages[i].ts;
  }

  /** What catch-up selects, said of its input: a message is selected exactly when it has
      a topic and is the earliest of it. */
  lemma SelectsEarliest(messages: seq<Post>, m: Post)
    ensures m in FirstsOf(messages) <==>
      m.thread.Some? && exists i :: 0 <= i < |messages| && messages[i] == m && IsEarliest(messages, i)
  {
    FirstsMember({}, Sort(messages), m);
    if m.thread.Some? {
      var k := FirstIsEarliest(m.thread.value, messages);
      if i :| 0 <= i < |messages| && messages[i] == m && IsEarliest(messages, i) {
        EarliestIsUnique(messages, i, k);
      }
    }
  }

  predicate OncePerTopic(s: seq<Post>) {
    forall i, j :: 0 <= i < j < |s| ==> s[i].thread != s[j].thread
  }

  /** Each topic once, in timestamp order. */
  lemma {:induction false} SelectionOrder(seen: set<ThreadName>, s: seq<Post>)
    requires Sorted(s)
    ensures Sorted(FirstsFrom(seen, s)) && OncePerTopic(FirstsFrom(seen, s))
    ensures forall m :: m in FirstsFrom(seen, s) ==> m in s && m.thread.Some? && m.thread.value !in seen
    decreases |s|
  {
    if s != [] {
      assert s == [s[0]] + s[1..];
      if s[0].thread.None? || s[0].thread.value in seen {
        SelectionOrder(seen, s[1..]);
      } else {
        var more := seen + {s[0].thread.value};
        SelectionOrder(more, s[1..]);
        ConsKeepsOrder(s[0], FirstsFrom(more, s[1..]), s[1..]);
      }
    }
  }

  lemma ConsKeepsOrder(x: Post, tail: seq<Post>, s: seq<Post>)
    requires Sorted(tail) && OncePerTopic(tail) && Sorted([x] + s)
    requires forall m :: m in tail ==> m in s && m.thread != x.thread
    ensures Sorted([x] + tail) && OncePerTopic([x] + tail)
  {
    forall j | 0 <= j < |tail| ensures x.ts <= tail[j].ts && x.thread != tail[j].thread {
      assert tail[j] in s;
      var i :| 0 <= i < |s| && s[i] == tail[j];
      assert ([x] + s)[0] == x && ([x] + s)[i + 1] == s[i];
    }
  }

  // ---- the live filter over the same messages ----

  function Live(c: ChannelName, m: Post): Event { Posted(Ref(c, m.thread), m.mentionsBot) }

  /** The posts the new-topics arm surfaces when the messages arrive in this order. */
  function Surfaced(s: State, c: ChannelName, arriving: seq<Post>): seq<Post>
    decreases |arriving|
  {
    if arriving == [] then [] else
    (if NewTopicFires(s, Ref(c, arriving[0].thread)) then [arriving[0]] else [])
    + Surfaced(Next(s, Match(Live(c, arriving[0]))), c, arriving[1..])
  }

  /** The channel's topics the set has surfaced or holds as a narrow of their own. */
  function Known(s: State, c: ChannelName): set<ThreadName> {
    set k | k in s.seenTopics + s.intents && k.Thread? && k.channel == c :: k.thread
  }

  predicate ArmOpen(s: State, c: ChannelName) { NewTopics(c) in s.intents && Channel(c) !in s.intents }

  function Unknown(known: set<ThreadName>): Post -> bool { (m: Post) => m.thread.Some? && m.thread.value !in known }

  lemma FiresIff(s: State, c: ChannelName, m: Post)
    ensures NewTopicFires(s, Ref(c, m.thread)) <==> ArmOpen(s, c) && m.thread.Some? && m.thread.value !in Known(s, c)
  {
    if m.thread.Some? {
      var k := Thread(c, m.thread.value);
      assert k in s.seenTopics + s.intents ==> m.thread.value in Known(s, c);
    }
  }

  lemma KnownAfter(s: State, c: ChannelName, m: Post)
    ensures var n := Next(s, Match(Live(c, m)));
      && n.intents == s.intents
      && Known(n, c) == if NewTopicFires(s, Ref(c, m.thread)) then Known(s, c) + {m.thread.value} else Known(s, c)
  {
    var n := Next(s, Match(Live(c, m)));
    if NewTopicFires(s, Ref(c, m.thread)) {
      var k := Thread(c, m.thread.value);
      assert k in n.seenTopics + n.intents && k.Thread? && k.channel == c;
      forall t ensures t in Known(n, c) <==> t in Known(s, c) || t == m.thread.value {
        if t in Known(n, c) {
          var j :| j in n.seenTopics + n.intents && j.Thread? && j.channel == c && j.thread == t;
          assert j == k || j in s.seenTopics + s.intents;
        }
        if t in Known(s, c) {
          var j :| j in s.seenTopics + s.intents && j.Thread? && j.channel == c && j.thread == t;
          assert j in n.seenTopics + n.intents;
        }
      }
    }
  }

  lemma {:induction false} SurfacedIsFirsts(s: State, c: ChannelName, arriving: seq<Post>)
    ensures Surfaced(s, c, arriving) == if ArmOpen(s, c) then FirstsFrom(Known(s, c), arriving) else []
    decreases |arriving|
  {
    if arriving != [] {
      FiresIff(s, c, arriving[0]);
      KnownAfter(s, c, arriving[0]);
      SurfacedIsFirsts(Next(s, Match(Live(c, arriving[0]))), c, arriving[1..]);
    }
  }

  lemma {:induction false} FirstsSkip(seen: set<ThreadName>, known: set<ThreadName>, s: seq<Post>)
    ensures FirstsFrom(seen + known, s) == Filter(Unknown(known), FirstsFrom(seen, s))
    decreases |s|
  {
    if s != [] {
      if s[0].thread.None? || s[0].thread.value in seen {
        FirstsSkip(seen, known, s[1..]);
      } else {
        var t := s[0].thread.value;
        var tail := FirstsFrom(seen + {t}, s[1..]);
        FirstsSkip(seen + {t}, known, s[1..]);
        assert ([s[0]] + tail)[1..] == tail;
        assert t in known ==> seen + {t} + known == seen + known;
        assert t !in known ==> seen + {t} + known == seen + known + {t};
      }
    }
  }

  /** Fed one channel's messages in timestamp order, the live new-topics arm surfaces
      what catch-up selects from them, less the topics the set already surfaced or holds
      as narrows of their own; under a whole-channel narrow, or none, it surfaces nothing. */
  lemma LiveArmAgreesWithCatchUp(s: State, c: ChannelName, messages: seq<Post>)
    ensures Surfaced(s, c, Sort(messages)) ==
      if ArmOpen(s, c) then Filter(Unknown(Known(s, c)), FirstsOf(messages)) else []
    ensures ArmOpen(s, c) && Known(s, c) == {} ==> Surfaced(s, c, Sort(messages)) == FirstsOf(messages)
  {
    SurfacedIsFirsts(s, c, Sort(messages));
    FirstsSkip({}, Known(s, c), Sort(messages));
    assert {} + Known(s, c) == Known(s, c);
  }

  // ---- what catch-up dispatches ----

  function NotBy(self: nat): Post -> bool { (m: Post) => m.sender != self }

  function Dispatched(batches: seq<seq<Post>>, self: nat): seq<Post> {
    Sort(Filter(NotBy(self), Flatten(batches)))
  }

  /** Every message fetched and not the bot's own is dispatched, as often as it was
      fetched, in timestamp order and, within one timestamp, in fetch order. */
  lemma DispatchIsOrdered(batches: seq<seq<Post>>, self: nat, ts: nat)
    ensures Sorted(Dispatched(batches, self))
    ensures Filter(At(ts), Dispatched(batches, self)) == Filter(At(ts), Filter(NotBy(self), Flatten(batches)))
  {
    SortIsStable(Filter(NotBy(self), Flatten(batches)), ts);
  }

  /** Of one timestamp, by someone else. */
  function ByOthersAt(self: nat, ts: nat): Post -> bool { (m: Post) => m.ts == ts && m.sender != self }

  lemma {:induction false} FilterTwice(p: Post -> bool, q: Post -> bool, both: Post -> bool, s: seq<Post>)
    requires forall m :: both(m) <==> p(m) && q(m)
    ensures Filter(p, Filter(q, s)) == Filter(both, s)
  {
    if s != [] {
      FilterTwice(p, q, both, s[1..]);
      var rest := Filter(q, s[1..]);
      assert Filter(q, s) == (if q(s[0]) then [s[0]] else []) + rest;
      if q(s[0]) { assert ([s[0]] + rest)[1..] == rest; } else { assert [] + rest == rest; }
    }
  }

  lemma {:induction false} InFlatten(batches: seq<seq<Post>>, m: Post)
    ensures m in Flatten(batches) <==> exists b :: b in batches && m in b
  {
    if batches != [] {
      InFlatten(batches[1..], m);
      assert batches == [batches[0]] + batches[1..];
      assert batches[0] in batches;
      if b :| b in batches[1..] && m in b { assert b in batches; }
    }
  }

  /** Timestamp by timestamp, what is dispatched is what was fetched and sent by others, as often
      as it was fetched and in fetch order; so a message is dispatched exactly when some fetch
      brought it and the bot did not send it. */
  lemma DispatchedIff(batches: seq<seq<Post>>, self: nat, m: Post)
    ensures Filter(At(m.ts), Dispatched(batches, self)) == Filter(ByOthersAt(self, m.ts), Flatten(batches))
    ensures m in Dispatched(batches, self) <==> m.sender != self && exists b :: b in batches && m in b
  {
    DispatchIsOrdered(batches, self, m.ts);
    FilterTwice(At(m.ts), NotBy(self), ByOthersAt(self, m.ts), Flatten(batches));
    FilterMember(At(m.ts), Dispatched(batches, self), m);
    FilterMember(ByOthersAt(self, m.ts), Flatten(batches), m);
    InFlatten(batches, m);
  }
}
