/** The bounded cache of message references (packages/zulip/events.ts): a map whose
    iteration order is insertion order, re-inserted on use and cut at its old end. */
module MessageRefCache {
  import opened Core

  type MessageId = string

  /** A JavaScript map: its keys in insertion order, and what they hold. */
  datatype Entries<V> = Entries(order: seq<MessageId>, refs: map<MessageId, V>)

  predicate Distinct(s: seq<MessageId>) {
    forall i, j :: 0 <= i < j < |s| ==> s[i] != s[j]
  }

  ghost predicate Valid<V>(e: Entries<V>) {
    Distinct(e.order) && forall id :: id in e.order <==> id in e.refs
  }

  function Without(s: seq<MessageId>, id: MessageId): seq<MessageId> {
    if s == [] then [] else (if s[0] == id then [] else [s[0]]) + Without(s[1..], id)
  }

  function Delete<V>(e: Entries<V>, id: MessageId): Entries<V> {
    Entries(Without(e.order, id), e.refs - {id})
  }

  function Append<V>(e: Entries<V>, id: MessageId, ref: V): Entries<V> {
    Entries(e.order + [id], e.refs[id := ref])
  }

  function Trim<V>(e: Entries<V>, maxSize: nat): Entries<V> {
    if |e.order| > maxSize then Delete(e, e.order[0]) else e
  }

  function Store<V>(e: Entries<V>, maxSize: nat, id: MessageId, ref: V): Entries<V> {
    Trim(Append(if id in e.refs then Delete(e, id) else e, id, ref), maxSize)
  }

  function Touch<V>(e: Entries<V>, id: MessageId): Entries<V> {
    if id in e.refs then Append(Delete(e, id), id, e.refs[id]) else e
  }

  function Lookup<V>(e: Entries<V>, id: MessageId): Option<V> {
    if id in e.refs then Some(e.refs[id]) else None
  }

  datatype Op<V> = Set(id: MessageId, ref: V) | Get(id: MessageId)

  function Next<V>(e: Entries<V>, maxSize: nat, op: Op<V>): Entries<V> {
    if op.Set? then Store(e, maxSize, op.id, op.ref) else Touch(e, op.id)
  }

  function Run<V>(maxSize: nat, ops: seq<Op<V>>): Entries<V> {
    if ops == [] then Entries([], map[]) else Next(Run(maxSize, ops[..|ops| - 1]), maxSize, ops[|ops| - 1])
  }

  class MessageRefCache<V> {
    const maxSize: nat
    var order: seq<MessageId>
    var refs: map<MessageId, V>

    constructor (maxSize: nat)
      ensures this.maxSize == maxSize && Abstract() == Entries([], map[])
    {
      this.maxSize, order, refs := maxSize, [], map[];
    }

    function Abstract(): Entries<V> reads this { Entries(order, refs) }

    method Set(id: MessageId, ref: V)
      requires Valid(Abstract())
      modifies this
      ensures Abstract() == Next(old(Abstract()), maxSize, Op.Set(id, ref)) && Valid(Abstract())
    {
      StoreValid(Abstract(), maxSize, id, ref);
      if id in refs { order, refs := Without(order, id), refs - {id}; }
      order, refs := order + [id], refs[id := ref];
      if |order| > maxSize {
        var oldest := order[0];
        order, refs := Without(order, oldest), refs - {oldest};
      }
    }

    method Get(id: MessageId) returns (found: Option<V>)
      requires Valid(Abstract())
      modifies this
      ensures found == Lookup(old(Abstract()), id)
      ensures Abstract() == Next(old(Abstract()), maxSize, Op.Get(id)) && Valid(Abstract())
    {
      TouchValid(Abstract(), id);
      found := if id in refs then Some(refs[id]) else None;
      if found.Some? {
        order, refs := Without(order, id), refs - {id};
        order, refs := order + [id], refs[id := found.value];
      }
    }
  }

  lemma {:induction false} WithoutIs(s: seq<MessageId>, id: MessageId)
    ensures forall x :: x in Without(s, id) <==> x in s && x != id
    ensures Distinct(s) ==> Distinct(Without(s, id))
    ensures id !in s ==> Without(s, id) == s
  {
    if s != [] {
      WithoutIs(s[1..], id);
      assert s == [s[0]] + s[1..];
      if Distinct(s) {
        assert s[0] !in s[1..];
        assert s[0] !in Without(s[1..], id);
      }
    }
  }

  lemma DeleteValid<V>(e: Entries<V>, id: MessageId)
    requires Valid(e)
    ensures Valid(Delete(e, id)) && id !in Delete(e, id).order
  {
    WithoutIs(e.order, id);
  }

  lemma AppendValid<V>(e: Entries<V>, id: MessageId, ref: V)
    requires Valid(e) && id !in e.order
    ensures Valid(Append(e, id, ref))
  {
  }

  lemma StoreValid<V>(e: Entries<V>, maxSize: nat, id: MessageId, ref: V)
    requires Valid(e)
    ensures Valid(Store(e, maxSize, id, ref))
  {
    DeleteValid(e, id);
    var a := if id in e.refs then Delete(e, id) else e;
    AppendValid(a, id, ref);
    DeleteValid(Append(a, id, ref), Append(a, id, ref).order[0]);
  }

  lemma TouchValid<V>(e: Entries<V>, id: MessageId)
    requires Valid(e)
    ensures Valid(Touch(e, id))
  {
    WithoutIs(e.order, id);
  }

  // ---- the reference: an unbounded map and the trace of uses ----

  /** Every id set so far holds its last reference for ever. */
  function Unbounded<V>(ops: seq<Op<V>>): map<MessageId, V> {
    if ops == [] then map[] else
    var before, op := Unbounded(ops[..|ops| - 1]), ops[|ops| - 1];
    if op.Set? then before[op.id := op.ref] else before
  }

  /** The distinct ids used since `id` last was. */
  function Since(uses: seq<MessageId>, id: MessageId): set<MessageId> {
    if uses == [] || uses[|uses| - 1] == id then {} else Since(uses[..|uses| - 1], id) + {uses[|uses| - 1]}
  }

  /** The id is among the `maxSize` most recently used. */
  predicate Recent(uses: seq<MessageId>, maxSize: nat, id: MessageId) {
    id in uses && |Since(uses, id)| < maxSize
  }

  /** A use is a set, or a get of an id among the `maxSize` most recently used. */
  function Uses<V>(maxSize: nat, ops: seq<Op<V>>): seq<MessageId> {
    if ops == [] then [] else
    var before, op := Uses(maxSize, ops[..|ops| - 1]), ops[|ops| - 1];
    if op.Set? || Recent(before, maxSize, op.id) then before + [op.id] else before
  }

  /** All ids used, each at its last use. */
  function Recency(uses: seq<MessageId>): seq<MessageId> {
    if uses == [] then [] else Without(Recency(uses[..|uses| - 1]), uses[|uses| - 1]) + [uses[|uses| - 1]]
  }

  function Newer(order: seq<MessageId>, id: MessageId): set<MessageId> {
    if order == [] || order[|order| - 1] == id then {} else Newer(order[..|order| - 1], id) + {order[|order| - 1]}
  }

  lemma {:induction false} RecencyIs(uses: seq<MessageId>)
    ensures Distinct(Recency(uses)) && forall id :: id in Recency(uses) <==> id in uses
  {
    if uses != [] {
      RecencyIs(uses[..|uses| - 1]);
      WithoutIs(Recency(uses[..|uses| - 1]), uses[|uses| - 1]);
      assert uses == uses[..|uses| - 1] + [uses[|uses| - 1]];
    }
  }

  lemma {:induction false} NewerMember(order: seq<MessageId>, id: MessageId)
    ensures forall x :: x in Newer(order, id) ==> x in order
  {
    if order != [] {
      NewerMember(order[..|order| - 1], id);
      assert order == order[..|order| - 1] + [order[|order| - 1]];
    }
  }

  lemma TakeLastSnoc(front: seq<MessageId>, last: MessageId, n: nat)
    ensures TakeLast(front + [last], n) == if n == 0 then [] else TakeLast(front, n - 1) + [last]
  {
  }

  /** Being among the last `n` of an order is having fewer than `n` newer ones. */
  lemma {:induction false} LastIff(order: seq<MessageId>, n: nat, id: MessageId)
    requires Distinct(order) && id in order
    ensures id in TakeLast(order, n) <==> |Newer(order, id)| < n
  {
    var last, front := order[|order| - 1], order[..|order| - 1];
    assert order == front + [last];
    TakeLastSnoc(front, last, n);
    if last != id {
      NewerMember(front, id);
      LastIff(front, if n == 0 then 0 else n - 1, id);
      NewerGrows(front, last, id);
    }
  }

  lemma NewerGrows(front: seq<MessageId>, last: MessageId, id: MessageId)
    requires last != id && last !in front
    ensures |Newer(front + [last], id)| == |Newer(front, id)| + 1
  {
    NewerMember(front, id);
    assert (front + [last])[..|front|] == front;
  }

  lemma {:induction false} WithoutSnoc(s: seq<MessageId>, x: MessageId, id: MessageId)
    ensures Without(s + [x], id) == Without(s, id) + if x == id then [] else [x]
  {
    if s == [] {
      assert s + [x] == [x];
    } else {
      WithoutSnoc(s[1..], x, id);
      assert (s + [x])[1..] == s[1..] + [x];
    }
  }

  lemma {:induction false} NewerWithout(order: seq<MessageId>, x: MessageId, id: MessageId)
    requires x != id
    ensures Newer(Without(order, x), id) == Newer(order, id) - {x}
  {
    if order != [] {
      var last, front := order[|order| - 1], order[..|order| - 1];
      assert order == front + [last];
      WithoutSnoc(front, last, x);
      NewerWithout(front, x, id);
      var w := Without(front, x);
      if last == x {
        assert Without(order, x) == w + [] == w;
      } else {
        assert Without(order, x) == w + [last] && (w + [last])[..|w|] == w;
      }
    }
  }

  /** The order's newer ids are the distinct ids used since. */
  lemma {:induction false} NewerIsSince(uses: seq<MessageId>, id: MessageId)
    ensures Newer(Recency(uses), id) == Since(uses, id)
  {
    if uses != [] {
      var x, before := uses[|uses| - 1], uses[..|uses| - 1];
      var w := Without(Recency(before), x);
      assert (w + [x])[..|w|] == w;
      if x != id {
        NewerIsSince(before, id);
        NewerWithout(Recency(before), x, id);
      }
    }
  }

  lemma RecentIff(uses: seq<MessageId>, maxSize: nat, id: MessageId)
    ensures Recent(uses, maxSize, id) <==> id in TakeLast(Recency(uses), maxSize)
  {
    RecencyIs(uses);
    if id in uses {
      LastIff(Recency(uses), maxSize, id);
      NewerIsSince(uses, id);
    } else {
      assert forall x :: x in TakeLast(Recency(uses), maxSize) ==> x in Recency(uses);
    }
  }

  // ---- the cache keeps the most recently used ----

  /** The cache is the tail of the recency order, with the unbounded map's references. */
  ghost predicate Mirrors<V>(e: Entries<V>, maxSize: nat, uses: seq<MessageId>, all: map<MessageId, V>) {
    && e.order == TakeLast(Recency(uses), maxSize)
    && (forall id :: id in e.refs <==> id in e.order)
    && (forall id :: id in e.refs ==> id in all && e.refs[id] == all[id])
  }

  /** Moving an id that is among the last `n` to the end keeps the other ones. */
  lemma MoveKept(order: seq<MessageId>, n: nat, id: MessageId)
    requires Distinct(order) && id in TakeLast(order, n)
    ensures TakeLast(Without(order, id) + [id], n) == Without(TakeLast(order, n), id) + [id]
  {
    var kept := TakeLast(order, n);
    var cut := order[..|order| - |kept|];
    assert order == cut + kept;
    WithoutConcat(cut, kept, id);
    NotInFront(cut, kept, id);
    WithoutIs(cut, id);
    WithoutLength(kept, id);
    MoveTail(cut, Without(kept, id), id, n);
  }

  lemma NotInFront(a: seq<MessageId>, b: seq<MessageId>, id: MessageId)
    requires Distinct(a + b) && id in b
    ensures id !in a && Distinct(b)
  {
    var j :| 0 <= j < |b| && b[j] == id;
    assert (a + b)[|a| + j] == id;
    forall i | 0 <= i < |a| ensures a[i] != id { assert (a + b)[i] == a[i]; }
    forall i, k | 0 <= i < k < |b| ensures b[i] != b[k] { assert (a + b)[|a| + i] == b[i] && (a + b)[|a| + k] == b[k]; }
  }

  lemma MoveTail(cut: seq<MessageId>, others: seq<MessageId>, id: MessageId, n: nat)
    requires |others| + 1 == n || (|others| + 1 < n && cut == [])
    ensures TakeLast(cut + others + [id], n) == others + [id]
  {
    TakeLastSnoc(cut + others, id, n);
  }

  /** Putting another id at the end drops the oldest of the last `n` once they are `n`. */
  lemma PushNew(order: seq<MessageId>, n: nat, id: MessageId)
    requires Distinct(order) && id !in TakeLast(order, n) && n > 0
    ensures TakeLast(Without(order, id) + [id], n)
         == (if |TakeLast(order, n)| == n then TakeLast(order, n)[1..] else TakeLast(order, n)) + [id]
  {
    var kept := TakeLast(order, n);
    var cut := order[..|order| - |kept|];
    assert order == cut + kept;
    WithoutConcat(cut, kept, id);
    WithoutIs(kept, id);
    WithoutIs(cut, id);
    PushTail(Without(cut, id), kept, id, n);
  }

  lemma PushTail(rest: seq<MessageId>, kept: seq<MessageId>, id: MessageId, n: nat)
    requires 0 < n && (|kept| == n || (|kept| < n && rest == []))
    ensures TakeLast(rest + kept + [id], n) == (if |kept| == n then kept[1..] else kept) + [id]
  {
    TakeLastSnoc(rest + kept, id, n);
  }

  lemma {:induction false} WithoutConcat(a: seq<MessageId>, b: seq<MessageId>, id: MessageId)
    ensures Without(a + b, id) == Without(a, id) + Without(b, id)
  {
    if a == [] {
      assert a + b == b;
    } else {
      assert (a + b)[1..] == a[1..] + b;
      WithoutConcat(a[1..], b, id);
    }
  }

  lemma {:induction false} WithoutLength(s: seq<MessageId>, id: MessageId)
    requires Distinct(s) && id in s
    ensures |Without(s, id)| == |s| - 1
  {
    assert s == [s[0]] + s[1..];
    WithoutIs(s[1..], id);
    if s[0] != id { WithoutLength(s[1..], id); }
  }

  lemma WithoutFirst(s: seq<MessageId>)
    requires Distinct(s) && s != []
    ensures Without(s, s[0]) == s[1..]
  {
    WithoutIs(s[1..], s[0]);
    assert s[0] !in s[1..];
  }

  /** The order a store leaves behind. */
  lemma StoredOrder<V>(e: Entries<V>, maxSize: nat, id: MessageId, ref: V)
    requires Valid(e) && |e.order| <= maxSize
    ensures Store(e, maxSize, id, ref).order ==
      if maxSize == 0 then []
      else if id in e.order then Without(e.order, id) + [id]
      else (if |e.order| == maxSize then e.order[1..] else e.order) + [id]
  {
    var kept := if id in e.refs then Without(e.order, id) else e.order;
    WithoutIs(e.order, id);
    if id in e.order { WithoutLength(e.order, id); }
    assert Distinct(kept + [id]);
    WithoutFirst(kept + [id]);
  }

  lemma StoreMirrors<V>(e: Entries<V>, maxSize: nat, uses: seq<MessageId>, all: map<MessageId, V>, id: MessageId, ref: V)
    requires Mirrors(e, maxSize, uses, all) && Valid(e)
    ensures Mirrors(Store(e, maxSize, id, ref), maxSize, uses + [id], all[id := ref])
  {
    StoreValid(e, maxSize, id, ref);
    StoredRefs(e, maxSize, id, ref);
    RecencyIs(uses);
    StoredRecent(e, maxSize, uses, id, ref);
    MirrorsStored(Store(e, maxSize, id, ref), e, maxSize, uses + [id], all, id, ref);
  }

  lemma MirrorsStored<V>(n: Entries<V>, e: Entries<V>, maxSize: nat, uses: seq<MessageId>, all: map<MessageId, V>,
                         id: MessageId, ref: V)
    requires Valid(n) && n.order == TakeLast(Recency(uses), maxSize)
    requires forall x :: x in n.refs ==> if x == id then n.refs[x] == ref else x in e.refs && n.refs[x] == e.refs[x]
    requires forall x :: x in e.refs ==> x in all && e.refs[x] == all[x]
    ensures Mirrors(n, maxSize, uses, all[id := ref])
  {
  }

  lemma StoredRefs<V>(e: Entries<V>, maxSize: nat, id: MessageId, ref: V)
    ensures var n := Store(e, maxSize, id, ref);
      forall x :: x in n.refs ==> if x == id then n.refs[x] == ref else x in e.refs && n.refs[x] == e.refs[x]
  {
  }

  lemma StoredRecent<V>(e: Entries<V>, maxSize: nat, uses: seq<MessageId>, id: MessageId, ref: V)
    requires Valid(e) && e.order == TakeLast(Recency(uses), maxSize) && Distinct(Recency(uses))
    ensures Store(e, maxSize, id, ref).order == TakeLast(Recency(uses + [id]), maxSize)
  {
    assert (uses + [id])[..|uses|] == uses;
    StoredOrder(e, maxSize, id, ref);
    if id in e.order { MoveKept(Recency(uses), maxSize, id); } else if maxSize > 0 { PushNew(Recency(uses), maxSize, id); }
  }

  lemma TouchMirrors<V>(e: Entries<V>, maxSize: nat, uses: seq<MessageId>, all: map<MessageId, V>, id: MessageId)
    requires Mirrors(e, maxSize, uses, all) && Valid(e)
    ensures Mirrors(Touch(e, id), maxSize, if Recent(uses, maxSize, id) then uses + [id] else uses, all)
  {
    RecencyIs(uses);
    RecentIff(uses, maxSize, id);
    if id in e.order {
      assert (uses + [id])[..|uses|] == uses;
      MoveKept(Recency(uses), maxSize, id);
      TouchValid(e, id);
    }
  }

  lemma {:induction false} RunMirrors<V>(maxSize: nat, ops: seq<Op<V>>)
    ensures Valid(Run(maxSize, ops)) && Mirrors(Run(maxSize, ops), maxSize, Uses(maxSize, ops), Unbounded(ops))
  {
    if ops != [] {
      var before, op := ops[..|ops| - 1], ops[|ops| - 1];
      RunMirrors(maxSize, before);
      var e := Run(maxSize, before);
      if op.Set? {
        StoreValid(e, maxSize, op.id, op.ref);
        StoreMirrors(e, maxSize, Uses(maxSize, before), Unbounded(before), op.id, op.ref);
      } else {
        TouchValid(e, op.id);
        TouchMirrors(e, maxSize, Uses(maxSize, before), Unbounded(before), op.id);
      }
    }
  }

  /** Over any run of sets and gets the cache answers for an id as an unbounded map would
      if fewer than `maxSize` distinct other ids were used since it last was, and not at
      all otherwise; and it never holds more than `maxSize` entries. */
  lemma CacheIsRecentPartOfMap<V>(maxSize: nat, ops: seq<Op<V>>, id: MessageId)
    ensures var cache, all := Run(maxSize, ops), Unbounded(ops);
      && |cache.order| <= maxSize
      && (Recent(Uses(maxSize, ops), maxSize, id) ==> id in all && Lookup(cache, id) == Some(all[id]))
      && (!Recent(Uses(maxSize, ops), maxSize, id) ==> Lookup(cache, id) == None)
  {
    RunMirrors(maxSize, ops);
    RecentIff(Uses(maxSize, ops), maxSize, id);
  }

  /** A get that misses is not a use: only another set brings an evicted id back. */
  lemma MissBringsNothingBack<V>(maxSize: nat, ops: seq<Op<V>>, id: MessageId)
    requires Lookup(Run(maxSize, ops), id) == None
    ensures Run(maxSize, ops + [Get(id)]) == Run(maxSize, ops)
    ensures Uses(maxSize, ops + [Get(id)]) == Uses(maxSize, ops)
  {
    assert (ops + [Get(id)])[..|ops|] == ops;
    CacheIsRecentPartOfMap(maxSize, ops, id);
  }
}
