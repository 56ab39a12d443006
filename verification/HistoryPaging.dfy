/** Reading a time window out of history that can only be paged by anchor and
    count (packages/zulip/history-paging.ts). */
module HistoryPaging {
  import opened Core

  datatype Window = Window(since: Option<nat>, until: Option<nat>)

  predicate InWindow(w: Window, m: Message) {
    (w.since.Some? ==> w.since.value <= m.timestamp) && (w.until.Some? ==> m.timestamp <= w.until.value)
  }

  function Within(w: Window): Message -> bool { (m: Message) => InWindow(w, m) }
  function Below(id: nat): Message -> bool { (m: Message) => m.id < id }
  function At(id: nat): Message -> bool { (m: Message) => m.id == id }
  function NotIn(seen: set<nat>): Message -> bool { (m: Message) => m.id !in seen }

  function Kept(w: Window, rows: seq<Message>): seq<Message> {
    Filter(Within(w), rows)
  }

  /** `GET /messages` with `num_after` 0: the `n` rows before the anchor, then the
      anchor's own row. No anchor is `newest`. */
  function Page(h: seq<Message>, anchor: Option<nat>, n: nat): seq<Message> {
    match anchor
    case None => TakeLast(h, n)
    case Some(a) => TakeLast(Filter(Below(a), h), n) + Filter(At(a), h)
  }

  function MinId(rows: seq<Message>): (r: nat)
    requires rows != []
    ensures exists m :: m in rows && m.id == r
    ensures forall m :: m in rows ==> r <= m.id
  {
    if |rows| == 1 then rows[0].id else
      assert rows == [rows[0]] + rows[1..];
      Min(rows[0].id, MinId(rows[1..]))
  }

  function MinTimestamp(rows: seq<Message>): (r: nat)
    requires rows != []
    ensures exists m :: m in rows && m.timestamp == r
    ensures forall m :: m in rows ==> r <= m.timestamp
  {
    if |rows| == 1 then rows[0].timestamp else
      assert rows == [rows[0]] + rows[1..];
      Min(rows[0].timestamp, MinTimestamp(rows[1..]))
  }

  function Ids(rows: seq<Message>): set<nat> { set m | m in rows :: m.id }

  datatype Options<O> = Options(window: Window, pageSize: nat, cap: Option<nat>, maxPages: nat, onRow: Message -> O)

  /** The walk's record. `spent` is not in the program: it tells a walk that the
      page budget alone stopped from one that stopped for a reason of its own. */
  datatype Walk<O> = Walk(anchor: Option<nat>, pagesLeft: nat, seen: set<nat>, byPage: seq<seq<O>>,
                          collected: nat, more: bool, spent: bool)

  function Start<O>(o: Options<O>): Walk<O> {
    Walk(None, o.maxPages, {}, [], 0, o.maxPages > 0, o.maxPages == 0)
  }

  /** The walk after a non-empty page whose rows not seen before are `unseen`. */
  function Taken<O>(o: Options<O>, w: Walk<O>, rows: seq<Message>, unseen: seq<Message>): Walk<O>
    requires w.pagesLeft > 0 && rows != []
  {
    var out := MapSeq(o.onRow, Kept(o.window, unseen));
    var crossed := o.window.since.Some? && MinTimestamp(rows) < o.window.since.value;
    var collected := w.collected + |out|;
    var capMet := o.cap.Some? && o.cap.value <= collected;
    Walk(Some(MinId(rows)), w.pagesLeft - 1, w.seen + Ids(rows), w.byPage + [out], collected,
         w.pagesLeft > 1 && !crossed && !capMet, w.pagesLeft == 1 && !crossed && !capMet)
  }

  /** One request and what the walk makes of its page. */
  function Step<O>(o: Options<O>, w: Walk<O>, h: seq<Message>): Walk<O>
    requires w.pagesLeft > 0
  {
    var rows := Page(h, w.anchor, o.pageSize);
    var unseen := Filter(NotIn(w.seen), rows);
    if rows == [] || unseen == [] then w.(more := false) else Taken(o, w, rows, unseen)
  }

  datatype Reading<O> = Reading(results: seq<O>, spent: bool, requests: nat)

  /** The iteration, with the number of requests made. `world[i]` is the history the
      i-th request is served from. */
  function Iterate<O>(o: Options<O>, w: Walk<O>, world: seq<seq<Message>>, requests: nat): (Walk<O>, nat)
    requires w.more ==> w.pagesLeft > 0 && |world| == requests + w.pagesLeft
    decreases if w.more then w.pagesLeft + 1 else 0
  {
    if !w.more then (w, requests) else Iterate(o, Step(o, w, world[requests]), world, requests + 1)
  }

  function Capped<T>(cap: Option<nat>, s: seq<T>): seq<T> {
    if cap.None? then s else TakeLast(s, cap.value)
  }

  function ReadWindow<O>(o: Options<O>, world: seq<seq<Message>>): Reading<O>
    requires |world| == o.maxPages
  {
    var (w, requests) := Iterate(o, Start(o), world, 0);
    Reading(Capped(o.cap, Flatten(Reverse(w.byPage))), w.spent, requests)
  }

  /** History only grows at its new end from one request to the next. */
  predicate Grows(world: seq<seq<Message>>) {
    && (forall i :: 0 <= i < |world| ==> Ascending(world[i]))
    && forall i :: 0 <= i < |world| ==> IsPrefix(world[0], world[i])
  }

  /** The reference answer: the newest `cap` in-window messages, oldest first. */
  function Answer<O>(o: Options<O>, h: seq<Message>): seq<O> {
    MapSeq(o.onRow, Capped(o.cap, Kept(o.window, h)))
  }

  // ---- one page over an ascending history ----

  lemma RowsBelow(h: seq<Message>, p: nat)
    requires Ascending(h) && p < |h|
    ensures Filter(Below(h[p].id), h) == h[..p]
  {
    FilterSplit(Below(h[p].id), h, p);
    FilterAll(Below(h[p].id), h[..p]);
    FilterNone(Below(h[p].id), h[p..]);
  }

  lemma RowAt(h: seq<Message>, p: nat)
    requires Ascending(h) && p < |h|
    ensures Filter(At(h[p].id), h) == [h[p]]
  {
    FilterSplit(At(h[p].id), h, p);
    FilterNone(At(h[p].id), h[..p]);
    FilterNone(At(h[p].id), h[p..][1..]);
  }

  /** A page anchored inside the first history is the same slice of it however
      much has been appended since. */
  lemma AnchoredPage(h0: seq<Message>, h: seq<Message>, p: nat, n: nat)
    requires Ascending(h) && IsPrefix(h0, h) && p < |h0|
    ensures Page(h, Some(h0[p].id), n) == h0[(if p <= n then 0 else p - n)..p + 1]
  {
    RowsBelow(h, p);
    RowAt(h, p);
    assert h[p] == h0[p] && h[..p] == h0[..p];
    var q := if p <= n then 0 else p - n;
    assert TakeLast(h0[..p], n) == h0[q..p];
    assert h0[q..p] + [h0[p]] == h0[q..p + 1];
  }

  lemma SliceMinima(h: seq<Message>, a: nat, b: nat)
    requires Ascending(h) && a < b <= |h|
    ensures MinId(h[a..b]) == h[a].id
    ensures Chronological(h) ==> MinTimestamp(h[a..b]) == h[a].timestamp
  {
    assert h[a] == h[a..b][0] && h[a] in h[a..b];
    forall m | m in h[a..b] ensures h[a].id <= m.id && (Chronological(h) ==> h[a].timestamp <= m.timestamp) {
      var i :| 0 <= i < b - a && h[a..b][i] == m;
      assert m == h[a + i];
    }
  }

  lemma IdsOfSlice(h: seq<Message>, a: nat, b: nat, i: nat)
    requires Ascending(h) && a <= b <= |h| && i < |h|
    ensures h[i].id in Ids(h[a..b]) <==> a <= i < b
  {
    if h[i].id in Ids(h[a..b]) {
      var m :| m in h[a..b] && m.id == h[i].id;
      var j :| 0 <= j < b - a && h[a..b][j] == m;
      assert m == h[a + j];
    }
    if a <= i < b { assert h[a..b][i - a] == h[i]; }
  }

  /** Of a page `h[q..b]` overlapping what was seen from `p` on, only `h[q..p]` is new. */
  lemma FreshRows(h: seq<Message>, q: nat, p: nat, b: nat)
    requires Ascending(h) && q <= p <= b <= |h|
    ensures Filter(NotIn(Ids(h[p..|h|])), h[q..b]) == h[q..p]
  {
    var unseen := NotIn(Ids(h[p..|h|]));
    forall i | q <= i < b ensures unseen(h[i]) <==> i < p { IdsOfSlice(h, p, |h|, i); }
    FilterCut(unseen, h, q, p, b);
  }

  lemma FilterCut(f: Message -> bool, h: seq<Message>, q: nat, p: nat, b: nat)
    requires q <= p <= b <= |h| && forall i :: q <= i < b ==> (f(h[i]) <==> i < p)
    ensures Filter(f, h[q..b]) == h[q..p]
  {
    assert h[q..b] == h[q..p] + h[p..b];
    FilterConcat(f, h[q..p], h[p..b]);
    FilterAll(f, h[q..p]);
    FilterNone(f, h[p..b]);
  }

  lemma SeenJoin(h: seq<Message>, q: nat, p: nat, b: nat)
    requires q <= p <= b <= |h|
    ensures Ids(h[p..|h|]) + Ids(h[q..b]) == Ids(h[q..|h|])
  {
    assert h[q..|h|] == h[q..p] + h[p..|h|];
    assert h[q..b] == h[q..p] + h[p..b];
    assert h[p..|h|] == h[p..b] + h[b..|h|];
  }

  // ---- the walk's invariant ----

  /** The walk has seen and mapped exactly `h[p..]`, newest page first. */
  ghost predicate Holds<O>(o: Options<O>, w: Walk<O>, h: seq<Message>, p: nat) {
    && p <= |h|
    && w.seen == Ids(h[p..|h|])
    && Flatten(Reverse(w.byPage)) == MapSeq(o.onRow, Kept(o.window, h[p..]))
    && w.collected == |Kept(o.window, h[p..])|
  }

  ghost predicate Reached<O>(o: Options<O>, w: Walk<O>, h: seq<Message>, p: nat) {
    p < |h| && w.anchor == Some(h[p].id) && Holds(o, w, h, p)
  }

  /** What a walk holding everything from index `p` may claim when it stops. */
  ghost predicate Settled<O>(o: Options<O>, w: Walk<O>, h: seq<Message>, p: nat) {
    && p <= |h|
    && Flatten(Reverse(w.byPage)) == MapSeq(o.onRow, Kept(o.window, h[p..]))
    && (!w.spent && Chronological(h) ==>
          MapSeq(o.onRow, Capped(o.cap, Kept(o.window, h[p..]))) == Answer(o, h))
  }

  lemma NothingOlder<O>(o: Options<O>, h: seq<Message>, p: nat)
    requires Chronological(h) && p < |h| && o.window.since.Some? && h[p].timestamp < o.window.since.value
    ensures Kept(o.window, h) == Kept(o.window, h[p..])
  {
    assert h == h[..p] + h[p..];
    FilterConcat(Within(o.window), h[..p], h[p..]);
    FilterNone(Within(o.window), h[..p]);
  }

  lemma EnoughHeld<O>(o: Options<O>, h: seq<Message>, p: nat)
    requires p <= |h| && o.cap.Some? && o.cap.value <= |Kept(o.window, h[p..])|
    ensures Capped(o.cap, Kept(o.window, h)) == Capped(o.cap, Kept(o.window, h[p..]))
  {
    assert h == h[..p] + h[p..];
    FilterConcat(Within(o.window), h[..p], h[p..]);
  }

  lemma MapSeqConcat<T, O>(f: T -> O, a: seq<T>, b: seq<T>)
    ensures MapSeq(f, a + b) == MapSeq(f, a) + MapSeq(f, b)
  {
  }

  /** Taking a page whose new rows are `h[q..p]` moves the walk from `p` to `q`. */
  lemma PageTaken<O>(o: Options<O>, byPage: seq<seq<O>>, h: seq<Message>, q: nat, p: nat)
    requires q <= p <= |h|
    requires Flatten(Reverse(byPage)) == MapSeq(o.onRow, Kept(o.window, h[p..]))
    ensures Flatten(Reverse(byPage + [MapSeq(o.onRow, Kept(o.window, h[q..p]))])) == MapSeq(o.onRow, Kept(o.window, h[q..]))
    ensures |Kept(o.window, h[q..])| == |Kept(o.window, h[q..p])| + |Kept(o.window, h[p..])|
  {
    assert h[q..] == h[q..p] + h[p..];
    FilterConcat(Within(o.window), h[q..p], h[p..]);
    MapSeqConcat(o.onRow, Kept(o.window, h[q..p]), Kept(o.window, h[p..]));
    ReverseSnoc(byPage, MapSeq(o.onRow, Kept(o.window, h[q..p])));
  }

  /** Why a walk that has just reached index `q` may stop. */
  lemma StopsHonestly<O>(o: Options<O>, w: Walk<O>, h: seq<Message>, q: nat)
    requires Reached(o, w, h, q)
    requires w.spent || !Chronological(h) || (o.window.since.Some? && h[q].timestamp < o.window.since.value)
          || (o.cap.Some? && o.cap.value <= w.collected)
    ensures Settled(o, w, h, q)
  {
    if !w.spent && Chronological(h) {
      if o.window.since.Some? && h[q].timestamp < o.window.since.value {
        NothingOlder(o, h, q);
      } else {
        EnoughHeld(o, h, q);
      }
    }
  }

  /** A page `h[q..b]` that reaches below `p` moves the walk from `p` to `q`. */
  lemma TakenMoves<O>(o: Options<O>, w: Walk<O>, h: seq<Message>, q: nat, p: nat, b: nat)
    requires w.pagesLeft > 0 && Holds(o, w, h, p) && Ascending(h) && q < p <= b <= |h|
    ensures h[q..b] != [] && Reached(o, Taken(o, w, h[q..b], h[q..p]), h, q)
  {
    SliceMinima(h, q, b);
    SeenJoin(h, q, p, b);
    PageTaken(o, w.byPage, h, q, p);
  }

  lemma PageMoves<O>(o: Options<O>, w: Walk<O>, h: seq<Message>, served: seq<Message>, q: nat, p: nat, b: nat)
    requires w.pagesLeft > 0 && Holds(o, w, h, p) && Ascending(h) && q < p <= b <= |h|
    requires Page(served, w.anchor, o.pageSize) == h[q..b]
    ensures var n := Step(o, w, served);
      && n.pagesLeft == w.pagesLeft - 1 && Reached(o, n, h, q)
      && (n.more ==> n.pagesLeft > 0 && !n.spent)
      && (!n.more ==> Settled(o, n, h, q))
  {
    FreshRows(h, q, p, b);
    assert Filter(NotIn(w.seen), h[q..b]) == h[q..p] != [];
    var n := Taken(o, w, h[q..b], h[q..p]);
    TakenMoves(o, w, h, q, p, b);
    if !n.more {
      if Chronological(h) { SliceMinima(h, q, b); }
      StopsHonestly(o, n, h, q);
    }
  }

  /** A page that reaches nothing new ends the walk where it stands. */
  lemma NothingNew<O>(o: Options<O>, w: Walk<O>, h: seq<Message>, served: seq<Message>, b: nat)
    requires w.pagesLeft > 0 && Holds(o, w, h, 0) && Ascending(h) && b <= |h|
    requires Page(served, w.anchor, o.pageSize) == h[0..b]
    ensures Step(o, w, served) == w.(more := false)
  {
    FreshRows(h, 0, 0, b);
  }

  /** One more request, served from a grown history. */
  lemma Continues<O>(o: Options<O>, w: Walk<O>, h: seq<Message>, served: seq<Message>, p: nat) returns (q: nat)
    requires o.pageSize > 0 && w.pagesLeft > 0 && !w.spent && Reached(o, w, h, p)
    requires Ascending(h) && Ascending(served) && IsPrefix(h, served)
    ensures var n := Step(o, w, served); !n.more ==> Settled(o, n, h, q)
    ensures var n := Step(o, w, served);
      if p == 0 then n == w.(more := false)
      else q < p && Reached(o, n, h, q) && n.pagesLeft == w.pagesLeft - 1 && (n.more ==> n.pagesLeft > 0 && !n.spent)
  {
    q := if p <= o.pageSize then 0 else p - o.pageSize;
    AnchoredPage(h, served, p, o.pageSize);
    if p == 0 {
      NothingNew(o, w, h, served, 1);
      assert h[0..] == h;
    } else {
      PageMoves(o, w, h, served, q, p, p + 1);
    }
  }

  lemma {:induction false} IterateFrom<O>(o: Options<O>, w: Walk<O>, world: seq<seq<Message>>, requests: nat, p: nat)
    returns (q: nat)
    requires |world| == requests + w.pagesLeft && world != [] && Grows(world) && o.pageSize > 0
    requires Reached(o, w, world[0], p)
    requires w.more && !w.spent && w.pagesLeft > 0
    ensures Iterate(o, w, world, requests).1 <= |world| && Settled(o, Iterate(o, w, world, requests).0, world[0], q)
    decreases w.pagesLeft
  {
      var next := Step(o, w, world[requests]);
      q := Continues(o, w, world[0], world[requests], p);
      if next.more { q := IterateFrom(o, next, world, requests + 1, q); }
  }

  /** Every reading is the capped in-window part of `h[q..]` for some `q`, where `h`
      is the history the first request saw, and the whole answer unless the budget stopped it. */
  ghost predicate ReadsBackTo<O>(o: Options<O>, r: Reading<O>, h: seq<Message>, q: nat) {
    && q <= |h|
    && r.results == MapSeq(o.onRow, Capped(o.cap, Kept(o.window, h[q..])))
    && (!r.spent && Chronological(h) ==> r.results == Answer(o, h))
  }

  lemma SettledReading<O>(o: Options<O>, w: Walk<O>, h: seq<Message>, q: nat, requests: nat)
    requires Settled(o, w, h, q)
    ensures ReadsBackTo(o, Reading(Capped(o.cap, Flatten(Reverse(w.byPage))), w.spent, requests), h, q)
  {
    CappedMap(o, Kept(o.window, h[q..]));
  }

  /** The first request, read from `newest`. */
  lemma FirstStep<O>(o: Options<O>, h: seq<Message>) returns (q: nat)
    requires o.maxPages > 0 && Ascending(h)
    ensures var n := Step(o, Start(o), h);
      if o.pageSize == 0 || h == [] then n == Start(o).(more := false)
      else Reached(o, n, h, q) && n.pagesLeft == o.maxPages - 1 && (n.more ==> n.pagesLeft > 0 && !n.spent)
           && (!n.more ==> Settled(o, n, h, q))
  {
    q := if |h| <= o.pageSize then 0 else |h| - o.pageSize;
    if o.pageSize == 0 || h == [] {
      assert Page(h, None, o.pageSize) == [];
    } else {
      assert h[|h|..] == [] && h[q..|h|] == h[q..];
      PageMoves(o, Start(o), h, h, q, |h|, |h|);
    }
  }

  lemma WholeWalk<O>(o: Options<O>, world: seq<seq<Message>>) returns (q: nat)
    requires |world| == o.maxPages > 0 && Grows(world) && o.pageSize > 0 && world[0] != []
    ensures Iterate(o, Start(o), world, 0).1 <= |world| && Settled(o, Iterate(o, Start(o), world, 0).0, world[0], q)
  {
    q := FirstStep(o, world[0]);
    var next := Step(o, Start(o), world[0]);
    if next.more { q := IterateFrom(o, next, world, 1, q); }
  }

  lemma CappedMap<O>(o: Options<O>, s: seq<Message>)
    ensures Capped(o.cap, MapSeq(o.onRow, s)) == MapSeq(o.onRow, Capped(o.cap, s))
  {
  }

  // ---- main results ----

  lemma ReadingIsSuffix<O>(o: Options<O>, world: seq<seq<Message>>)
    requires |world| == o.maxPages && Grows(world) && (o.pageSize > 0 || o.cap == Some(0))
    ensures ReadWindow(o, world).requests <= o.maxPages
    ensures world != [] ==> exists q :: ReadsBackTo(o, ReadWindow(o, world), world[0], q)
  {
    if world != [] {
      var h := world[0];
      var (end, made) := Iterate(o, Start(o), world, 0);
      if o.pageSize > 0 && h != [] {
        var q := WholeWalk(o, world);
        SettledReading(o, end, h, q, made);
      } else {
        var stopped := Start(o).(more := false);
        assert Page(h, None, o.pageSize) == [];
        assert Step(o, Start(o), h) == stopped;
        assert (end, made) == Iterate(o, stopped, world, 1);
        assert h[|h|..] == [];
        assert Settled(o, end, h, |h|);
        SettledReading(o, end, h, |h|, made);
      }
    }
  }

  /** A walk that stopped for any reason but its budget answers with exactly the
      newest `cap` in-window messages, ascending, as of the first request, however
      much history grew while it was reading. */
  lemma ReadWindowExact<O>(o: Options<O>, world: seq<seq<Message>>)
    requires |world| == o.maxPages && Grows(world) && (o.pageSize > 0 || o.cap == Some(0))
    requires world != [] && Chronological(world[0]) && !ReadWindow(o, world).spent
    ensures ReadWindow(o, world).results == Answer(o, world[0])
  {
    ReadingIsSuffix(o, world);
  }

  /** Appending to history between requests changes nothing about the reading. */
  lemma ReadWindowStable<O>(o: Options<O>, world: seq<seq<Message>>, still: seq<seq<Message>>)
    requires |world| == |still| == o.maxPages && Grows(world) && (o.pageSize > 0 || o.cap == Some(0))
    requires forall i :: 0 <= i < |still| ==> still[i] == world[0]
    ensures ReadWindow(o, world) == ReadWindow(o, still)
  {
    if world != [] {
      var q := FirstStep(o, world[0]);
      var next := Step(o, Start(o), world[0]);
      assert still[0] == world[0];
      if next.more { SameWalk(o, next, world, still, 1, q); }
      assert Iterate(o, Start(o), world, 0) == Iterate(o, Start(o), still, 0);
    }
  }

  lemma SameStep<O>(o: Options<O>, w: Walk<O>, h: seq<Message>, a: seq<Message>, b: seq<Message>, p: nat)
    requires w.pagesLeft > 0 && Reached(o, w, h, p)
    requires Ascending(a) && Ascending(b) && IsPrefix(h, a) && IsPrefix(h, b)
    ensures Step(o, w, a) == Step(o, w, b)
  {
    AnchoredPage(h, a, p, o.pageSize);
    AnchoredPage(h, b, p, o.pageSize);
    SamePage(o, w, a, b);
  }

  lemma SamePage<O>(o: Options<O>, w: Walk<O>, a: seq<Message>, b: seq<Message>)
    requires w.pagesLeft > 0 && Page(a, w.anchor, o.pageSize) == Page(b, w.anchor, o.pageSize)
    ensures Step(o, w, a) == Step(o, w, b)
  {
  }

  lemma {:induction false} SameWalk<O>(o: Options<O>, w: Walk<O>, world: seq<seq<Message>>, still: seq<seq<Message>>,
                                       requests: nat, p: nat)
    requires |world| == |still| == requests + w.pagesLeft && world != [] && Grows(world) && o.pageSize > 0
    requires forall i :: 0 <= i < |still| ==> still[i] == world[0]
    requires w.more && !w.spent && w.pagesLeft > 0 && Reached(o, w, world[0], p)
    ensures Iterate(o, w, world, requests) == Iterate(o, w, still, requests)
    decreases w.pagesLeft
  {
    var next := Step(o, w, world[requests]);
    SameStep(o, w, world[0], world[requests], still[requests], p);
    var q := Continues(o, w, world[0], world[requests], p);
    if next.more { SameWalk(o, next, world, still, requests + 1, q); }
  }

  /** With no assumption on timestamps, no id repeats, ids ascend, every result lies
      in the window, and no more requests are made than the budget allows. */
  lemma ReadWindowOrdered(o: Options<Message>, world: seq<seq<Message>>)
    requires |world| == o.maxPages && Grows(world) && (o.pageSize > 0 || o.cap == Some(0))
    requires forall m :: o.onRow(m) == m
    ensures var r := ReadWindow(o, world);
      && r.requests <= o.maxPages
      && Ascending(r.results)
      && (forall i :: 0 <= i < |r.results| ==> InWindow(o.window, r.results[i]))
      && (o.cap.Some? ==> |r.results| <= o.cap.value)
  {
    ReadingIsSuffix(o, world);
    if world != [] {
      var q :| ReadsBackTo(o, ReadWindow(o, world), world[0], q);
      KeptOrdered(o, world[0], q, ReadWindow(o, world));
    } else {
      assert ReadWindow(o, world).results == [];
    }
  }

  lemma KeptOrdered(o: Options<Message>, h: seq<Message>, q: nat, r: Reading<Message>)
    requires Ascending(h) && (forall m :: o.onRow(m) == m) && ReadsBackTo(o, r, h, q)
    ensures Ascending(r.results) && (forall i :: 0 <= i < |r.results| ==> InWindow(o.window, r.results[i]))
    ensures o.cap.Some? ==> |r.results| <= o.cap.value
  {
    FilterAscending(Within(o.window), h[q..]);
    KeptInWindow(o.window, h[q..]);
  }

  lemma {:induction false} KeptInWindow(w: Window, rows: seq<Message>)
    ensures forall i :: 0 <= i < |Kept(w, rows)| ==> InWindow(w, Kept(w, rows)[i])
  {
    if rows != [] {
      KeptInWindow(w, rows[1..]);
      assert Kept(w, rows) == (if InWindow(w, rows[0]) then [rows[0]] else []) + Kept(w, rows[1..]);
    }
  }

  lemma {:induction false} FilterAscending(p: Message -> bool, h: seq<Message>)
    requires Ascending(h)
    ensures Ascending(Filter(p, h))
  {
    if h != [] {
      FilterAscending(p, h[1..]);
      forall m | m in Filter(p, h[1..]) ensures h[0].id < m.id {
        FilterMember(p, h[1..], m);
        var i :| 0 <= i < |h| - 1 && h[1..][i] == m;
        assert m == h[i + 1];
      }
    }
  }

  /** Every page the walk continues from has moved the anchor strictly back, so the
      walk cannot circle. */
  lemma AnchorFalls<O>(o: Options<O>, w: Walk<O>, h: seq<Message>, served: seq<Message>, p: nat)
    requires o.pageSize > 0 && w.pagesLeft > 0 && w.more && !w.spent && Reached(o, w, h, p)
    requires Ascending(h) && Ascending(served) && IsPrefix(h, served)
    requires Step(o, w, served).more
    ensures Step(o, w, served).anchor.Some? && Step(o, w, served).anchor.value < w.anchor.value
    ensures Step(o, w, served).pagesLeft == w.pagesLeft - 1
  {
    var q := Continues(o, w, h, served, p);
  }

  // ---- exactly how far a walk reads ----

  /** The newest `k` pages' worth of history. */
  function Newest<O>(o: Options<O>, h: seq<Message>, k: nat): seq<Message> { TakeLast(h, o.pageSize * k) }

  /** These rows reach past the window's start, or already hold as many results as asked for. */
  ghost predicate Enough<O>(o: Options<O>, rows: seq<Message>) {
    || (o.window.since.Some? && exists m :: m in rows && m.timestamp < o.window.since.value)
    || (o.cap.Some? && o.cap.value <= |Kept(o.window, rows)|)
  }

  /** How many pages a walk that has read `k` of them reads in all. */
  ghost function Depth<O>(o: Options<O>, h: seq<Message>, k: nat): (n: nat)
    requires k <= o.maxPages
    ensures k <= n <= o.maxPages
    decreases o.maxPages - k
  {
    if k == o.maxPages || Enough(o, Newest(o, h, k)) || |h| <= o.pageSize * k then k else Depth(o, h, k + 1)
  }

  /** The reading of a walk that has come as far as `k` pages: the pages it reads, the reason
      for stopping, and one more request where history alone ends the walk. */
  ghost function ExpectedFrom<O>(o: Options<O>, h: seq<Message>, k: nat): Reading<O>
    requires k <= o.maxPages
  {
    ReadTo(o, Newest(o, h, Depth(o, h, k)), Depth(o, h, k))
  }

  ghost function ReadTo<O>(o: Options<O>, rows: seq<Message>, n: nat): Reading<O> {
    var last := n == o.maxPages || Enough(o, rows);
    Reading(MapSeq(o.onRow, Capped(o.cap, Kept(o.window, rows))), n == o.maxPages && !Enough(o, rows), if last then n else n + 1)
  }

  ghost function Expected<O>(o: Options<O>, h: seq<Message>): Reading<O>
    requires o.maxPages > 0
  {
    if o.pageSize == 0 || h == [] then Reading([], false, 1) else ExpectedFrom(o, h, 1)
  }

  /** Where `k` pages' worth of history begins. */
  function Begins<O>(o: Options<O>, h: seq<Message>, k: nat): nat {
    if |h| <= o.pageSize * k then 0 else |h| - o.pageSize * k
  }

  lemma NewestFrom<O>(o: Options<O>, h: seq<Message>, k: nat)
    ensures Newest(o, h, k) == h[Begins(o, h, k)..]
  {
  }

  lemma OnePageBack<O>(o: Options<O>, h: seq<Message>, k: nat)
    ensures var p, q := Begins(o, h, k), Begins(o, h, k + 1);
      (if p <= o.pageSize then 0 else p - o.pageSize) == q <= p
  {
    assert o.pageSize * (k + 1) == o.pageSize * k + o.pageSize;
  }

  /** The page's rows decide with those before them. */
  lemma CrossedIff(rows: seq<Message>, before: seq<Message>, all: seq<Message>, since: nat)
    requires rows != [] && (forall m :: m in before ==> since <= m.timestamp)
    requires forall m :: m in rows || m in before <==> m in all
    ensures MinTimestamp(rows) < since <==> exists m :: m in all && m.timestamp < since
  {
  }

  /** Nothing the walk holds from index `p` on is older than the window. */
  predicate NotCrossed<O>(o: Options<O>, h: seq<Message>, p: nat) {
    p <= |h| && (o.window.since.Some? ==> forall m :: m in h[p..] ==> o.window.since.value <= m.timestamp)
  }

  lemma PageAndRest(h: seq<Message>, q: nat, p: nat, b: nat)
    requires q <= p <= b <= |h|
    ensures forall m :: m in h[q..b] || m in h[p..] <==> m in h[q..]
  {
    assert h[q..] == h[q..b] + h[b..] && h[q..] == h[q..p] + h[p..] && h[p..] == h[p..b] + h[b..];
  }

  lemma PageCrosses<O>(o: Options<O>, h: seq<Message>, q: nat, p: nat, b: nat)
    requires q < p <= b <= |h| && NotCrossed(o, h, p) && o.window.since.Some?
    ensures h[q..b] != []
    ensures MinTimestamp(h[q..b]) < o.window.since.value <==> exists m :: m in h[q..] && m.timestamp < o.window.since.value
  {
    PageAndRest(h, q, p, b);
    CrossedIff(h[q..b], h[p..], h[q..], o.window.since.value);
  }

  /** What the walk makes of a page that moves it from `p` to `q`. */
  lemma TakenStops<O>(o: Options<O>, w: Walk<O>, h: seq<Message>, q: nat, p: nat, b: nat)
    requires w.pagesLeft > 0 && Holds(o, w, h, p) && Ascending(h) && q < p <= b <= |h| && NotCrossed(o, h, p)
    ensures h[q..b] != []
    ensures var n := Taken(o, w, h[q..b], h[q..p]);
      (n.more <==> w.pagesLeft > 1 && !Enough(o, h[q..])) && (n.spent <==> w.pagesLeft == 1 && !Enough(o, h[q..]))
  {
    TakenMoves(o, w, h, q, p, b);
    if o.window.since.Some? { PageCrosses(o, h, q, p, b); }
    FlagsOf(o, w, h[q..b], h[q..p], h[q..]);
  }

  lemma FlagsOf<O>(o: Options<O>, w: Walk<O>, rows: seq<Message>, unseen: seq<Message>, all: seq<Message>)
    requires w.pagesLeft > 0 && rows != [] && Taken(o, w, rows, unseen).collected == |Kept(o.window, all)|
    requires o.window.since.Some? ==>
      (MinTimestamp(rows) < o.window.since.value <==> exists m :: m in all && m.timestamp < o.window.since.value)
    ensures var n := Taken(o, w, rows, unseen);
      (n.more <==> w.pagesLeft > 1 && !Enough(o, all)) && (n.spent <==> w.pagesLeft == 1 && !Enough(o, all))
  {
  }

  lemma StepStops<O>(o: Options<O>, w: Walk<O>, h: seq<Message>, served: seq<Message>, q: nat, p: nat, b: nat)
    requires w.pagesLeft > 0 && Holds(o, w, h, p) && Ascending(h) && q < p <= b <= |h|
    requires NotCrossed(o, h, p) && Page(served, w.anchor, o.pageSize) == h[q..b]
    ensures var n := Step(o, w, served);
      && (n.more <==> w.pagesLeft > 1 && !Enough(o, h[q..])) && (n.spent <==> w.pagesLeft == 1 && !Enough(o, h[q..]))
      && n.pagesLeft == w.pagesLeft - 1 && Reached(o, n, h, q)
  {
    FreshRows(h, q, p, b);
    assert Filter(NotIn(w.seen), h[q..b]) == h[q..p] != [];
    TakenMoves(o, w, h, q, p, b);
    TakenStops(o, w, h, q, p, b);
  }

  /** The walk stands after `k` pages, with no reason to stop so far. */
  ghost predicate Underway<O>(o: Options<O>, w: Walk<O>, h: seq<Message>, k: nat) {
    && h != [] && o.pageSize > 0 && 0 < k < o.maxPages && w.pagesLeft == o.maxPages - k
    && Reached(o, w, h, Begins(o, h, k)) && w.more && !w.spent && !Enough(o, Newest(o, h, k))
  }

  lemma {:induction false} WalkIs<O>(o: Options<O>, w: Walk<O>, world: seq<seq<Message>>, k: nat)
    requires |world| == o.maxPages && world != [] && Grows(world) && Underway(o, w, world[0], k)
    ensures ReadingOf(o, Iterate(o, w, world, k)) == ExpectedFrom(o, world[0], k)
    decreases o.maxPages - k
  {
    var h, next := world[0], Step(o, w, world[k]);
    if Begins(o, h, k) == 0 {
      HistoryEnds(o, w, h, world[k], k);
      assert Iterate(o, next, world, k + 1) == (next, k + 1);
    } else {
      PageFurther(o, w, h, world[k], k);
      if next.more {
        WalkIs(o, next, world, k + 1);
      } else {
        assert Iterate(o, next, world, k + 1) == (next, k + 1);
      }
    }
  }

  function ReadingOf<O>(o: Options<O>, end: (Walk<O>, nat)): Reading<O> {
    Reading(Capped(o.cap, Flatten(Reverse(end.0.byPage))), end.0.spent, end.1)
  }

  /** All of history has been read: one more request finds nothing new. */
  lemma HistoryEnds<O>(o: Options<O>, w: Walk<O>, h: seq<Message>, served: seq<Message>, k: nat)
    requires Underway(o, w, h, k) && Begins(o, h, k) == 0 && Ascending(h) && Ascending(served) && IsPrefix(h, served)
    ensures var n := Step(o, w, served); !n.more && ReadingOf(o, (n, k + 1)) == ExpectedFrom(o, h, k)
  {
    NewestFrom(o, h, k);
    AnchoredPage(h, served, 0, o.pageSize);
    NothingNew(o, w, h, served, 1);
    CappedMap(o, Kept(o.window, h[0..]));
  }

  /** A page further back: the walk goes on, or has come to its end. */
  lemma PageFurther<O>(o: Options<O>, w: Walk<O>, h: seq<Message>, served: seq<Message>, k: nat)
    requires Underway(o, w, h, k) && Begins(o, h, k) > 0 && Ascending(h) && Ascending(served) && IsPrefix(h, served)
    ensures var n := Step(o, w, served);
      && ExpectedFrom(o, h, k) == ExpectedFrom(o, h, k + 1)
      && (if n.more then Underway(o, n, h, k + 1) else ReadingOf(o, (n, k + 1)) == ExpectedFrom(o, h, k + 1))
  {
    DeeperByOne(o, h, k);
    PageTurned(o, w, h, served, k);
    PageReached(o, Step(o, w, served), h, k + 1);
  }

  lemma DeeperByOne<O>(o: Options<O>, h: seq<Message>, k: nat)
    requires k < o.maxPages && !Enough(o, Newest(o, h, k)) && Begins(o, h, k) > 0
    ensures ExpectedFrom(o, h, k) == ExpectedFrom(o, h, k + 1)
  {
  }

  lemma PageTurned<O>(o: Options<O>, w: Walk<O>, h: seq<Message>, served: seq<Message>, k: nat)
    requires Underway(o, w, h, k) && Begins(o, h, k) > 0 && Ascending(h) && Ascending(served) && IsPrefix(h, served)
    ensures var n, q := Step(o, w, served), Begins(o, h, k + 1);
      && Reached(o, n, h, q) && n.pagesLeft == o.maxPages - (k + 1)
      && (n.more <==> k + 1 < o.maxPages && !Enough(o, h[q..])) && (n.spent <==> k + 1 == o.maxPages && !Enough(o, h[q..]))
  {
    var p, q := Begins(o, h, k), Begins(o, h, k + 1);
    NewestFrom(o, h, k);
    OnePageBack(o, h, k);
    AnchoredPage(h, served, p, o.pageSize);
    StepStops(o, w, h, served, q, p, p + 1);
  }

  /** A walk that has just read its `k`-th page. */
  lemma PageReached<O>(o: Options<O>, n: Walk<O>, h: seq<Message>, k: nat)
    requires h != [] && o.pageSize > 0 && 0 < k <= o.maxPages && n.pagesLeft == o.maxPages - k
    requires Reached(o, n, h, Begins(o, h, k))
    requires n.more <==> k < o.maxPages && !Enough(o, h[Begins(o, h, k)..])
    requires n.spent <==> k == o.maxPages && !Enough(o, h[Begins(o, h, k)..])
    ensures n.more ==> Underway(o, n, h, k)
    ensures !n.more ==> ReadingOf(o, (n, k)) == ExpectedFrom(o, h, k)
  {
    NewestFrom(o, h, k);
    if !n.more { CappedMap(o, Kept(o.window, h[Begins(o, h, k)..])); }
  }

  /** Exactly what any reading comes to, with no assumption on timestamps: the rows, the
      number of requests, and whether the page budget ended it. */
  lemma ReadWindowIs<O>(o: Options<O>, world: seq<seq<Message>>)
    requires |world| == o.maxPages > 0 && Grows(world)
    ensures ReadWindow(o, world) == Expected(o, world[0])
  {
    var h, w := world[0], Step(o, Start(o), world[0]);
    if o.pageSize == 0 || h == [] {
      assert Page(h, None, o.pageSize) == [];
      assert Iterate(o, w, world, 1) == (w, 1);
    } else {
      FirstPage(o, h);
      if w.more { WalkIs(o, w, world, 1); } else { assert Iterate(o, w, world, 1) == (w, 1); }
    }
  }

  lemma FirstPage<O>(o: Options<O>, h: seq<Message>)
    requires o.maxPages > 0 && Ascending(h) && h != [] && o.pageSize > 0
    ensures var n := Step(o, Start(o), h);
      if n.more then Underway(o, n, h, 1) else ReadingOf(o, (n, 1)) == ExpectedFrom(o, h, 1)
  {
    var q := Begins(o, h, 1);
    assert h[|h|..] == [] && h[q..|h|] == h[q..];
    StepStops(o, Start(o), h, h, q, |h|, |h|);
    PageReached(o, Step(o, Start(o), h), h, 1);
  }

  // ---- the page budget ----

  lemma {:induction false} DepthStops<O>(o: Options<O>, h: seq<Message>, k: nat)
    requires k <= o.maxPages
    ensures var n := Depth(o, h, k); n == o.maxPages || Enough(o, Newest(o, h, n)) || |h| <= o.pageSize * n
    ensures forall j :: k <= j < Depth(o, h, k) ==> !Enough(o, Newest(o, h, j)) && |h| > o.pageSize * j
    decreases o.maxPages - k
  {
    if Depth(o, h, k) > k { DepthStops(o, h, k + 1); }
  }

  /** More rows are still enough. */
  lemma EnoughGrows<O>(o: Options<O>, rows: seq<Message>, more: seq<Message>)
    requires IsSuffix(rows, more) && Enough(o, rows)
    ensures Enough(o, more)
  {
    var k := |more| - |rows|;
    assert more == more[..k] + rows;
    FilterConcat(Within(o.window), more[..k], rows);
  }

  lemma PagesGrow(size: nat, j: nat, k: nat)
    requires j <= k
    ensures size * j <= size * k
  {
    assert size * k == size * j + size * (k - j);
  }

  lemma TakeLastGrows<T>(s: seq<T>, a: nat, b: nat)
    requires a <= b
    ensures IsSuffix(TakeLast(s, a), TakeLast(s, b))
  {
  }

  lemma NewestGrows<O>(o: Options<O>, h: seq<Message>, j: nat, k: nat)
    requires j <= k
    ensures IsSuffix(Newest(o, h, j), Newest(o, h, k))
  {
    PagesGrow(o.pageSize, j, k);
    TakeLastGrows(h, o.pageSize * j, o.pageSize * k);
  }

  lemma DepthSpends<O>(o: Options<O>, h: seq<Message>)
    requires o.maxPages > 0 && o.pageSize > 0 && h != []
    ensures Depth(o, h, 1) == o.maxPages && !Enough(o, Newest(o, h, Depth(o, h, 1))) <==>
      |h| > o.pageSize * (o.maxPages - 1) && !Enough(o, Newest(o, h, o.maxPages))
  {
    var n, m := Depth(o, h, 1), o.maxPages;
    DepthStops(o, h, 1);
    if n == m {
      if m == 1 { assert o.pageSize * (m - 1) == 0; }
    } else if Enough(o, Newest(o, h, n)) {
      NewestGrows(o, h, n, m);
      EnoughGrows(o, Newest(o, h, n), Newest(o, h, m));
    } else {
      PagesGrow(o.pageSize, n, m - 1);
    }
  }

  /** The budget ends a reading exactly when a further page would have been needed and there
      was one to read; then every request of the budget was made, and what is answered is the
      in-window part of the newest `pageSize * maxPages` messages. */
  lemma SpentIff<O>(o: Options<O>, world: seq<seq<Message>>)
    requires |world| == o.maxPages > 0 && Grows(world) && o.pageSize > 0
    ensures var r, rows := ReadWindow(o, world), Newest(o, world[0], o.maxPages);
      && (r.spent <==> |world[0]| > o.pageSize * (o.maxPages - 1) && !Enough(o, rows))
      && (r.spent ==> r.requests == o.maxPages && r.results == MapSeq(o.onRow, Kept(o.window, rows)))
  {
    var h, m := world[0], o.maxPages;
    ReadWindowIs(o, world);
    if h != [] {
      DepthSpends(o, h);
      if !Enough(o, Newest(o, h, m)) { NotCapped(o, Kept(o.window, Newest(o, h, m))); }
    }
  }

  lemma NotCapped<O>(o: Options<O>, kept: seq<Message>)
    requires o.cap.Some? ==> |kept| < o.cap.value
    ensures Capped(o.cap, kept) == kept
  {
  }

  /** A history of fewer pages than the budget is always read for as far as it takes. */
  lemma ShortHistoryIsRead<O>(o: Options<O>, world: seq<seq<Message>>)
    requires |world| == o.maxPages > 0 && Grows(world) && o.pageSize > 0
    requires |world[0]| <= o.pageSize * (o.maxPages - 1)
    ensures !ReadWindow(o, world).spent
    ensures Chronological(world[0]) ==> ReadWindow(o, world).results == Answer(o, world[0])
  {
    SpentIff(o, world);
    if Chronological(world[0]) { ReadWindowExact(o, world); }
  }

  /** Where timestamps never decrease, a reading is the newest `cap` in-window messages of the
      newest `pageSize * maxPages`, whatever ended it. */
  lemma ReadWindowClosed<O>(o: Options<O>, world: seq<seq<Message>>)
    requires |world| == o.maxPages > 0 && Grows(world) && Chronological(world[0])
    ensures ReadWindow(o, world).results
      == MapSeq(o.onRow, Capped(o.cap, Kept(o.window, Newest(o, world[0], o.maxPages))))
  {
    var h, m := world[0], o.maxPages;
    ReadWindowIs(o, world);
    if o.pageSize == 0 || h == [] {
      assert Newest(o, h, m) == [];
    } else {
      var n := Depth(o, h, 1);
      DepthStops(o, h, 1);
      NewestGrows(o, h, n, m);
      SameAnswer(o, h, Begins(o, h, n), Begins(o, h, m));
      NewestFrom(o, h, n);
      NewestFrom(o, h, m);
    }
  }

  /** Rows before those that are enough add nothing to the answer. */
  lemma SameAnswer<O>(o: Options<O>, h: seq<Message>, p: nat, q: nat)
    requires q <= p <= |h| && Chronological(h) && (Enough(o, h[p..]) || p == q)
    ensures Capped(o.cap, Kept(o.window, h[p..])) == Capped(o.cap, Kept(o.window, h[q..]))
  {
    assert h[q..] == h[q..p] + h[p..];
    FilterConcat(Within(o.window), h[q..p], h[p..]);
    if o.cap.None? || o.cap.value > |Kept(o.window, h[p..])| {
      if p > q { OlderIsOutside(o, h, p, q); }
    }
  }

  lemma OlderIsOutside<O>(o: Options<O>, h: seq<Message>, p: nat, q: nat)
    requires q <= p <= |h| && Chronological(h) && o.window.since.Some?
    requires exists m :: m in h[p..] && m.timestamp < o.window.since.value
    ensures Kept(o.window, h[q..p]) == []
  {
    var m :| m in h[p..] && m.timestamp < o.window.since.value;
    var i :| 0 <= i < |h| - p && h[p..][i] == m;
    FilterNone(Within(o.window), h[q..p]);
  }
}
