/** Resolving, posting to and reading a thread whose resolution is a topic rename
    (packages/zulip/adapter.ts, resolved-topic.ts and in-process-realm.ts). */
module ThreadResolution {
  import opened Core
  import opened Realm
  import HistoryPaging

  const PREFIX: string := "\U{2714} "
  const TOPIC_LIMIT := 60
  const ELLIPSIS := "..."
  const HISTORY_DEFAULT_LIMIT := 100
  const HISTORY_MAX_PAGES := 20

  // ---- the prefix ----

  predicate IsResolved(topic: string) { PREFIX <= topic }

  function StripPrefix(topic: string): string { if IsResolved(topic) then topic[|PREFIX|..] else topic }

  function SplitTopic(raw: string): (string, bool) {
    var stripped := StripPrefix(raw);
    if IsResolved(raw) && |stripped| > 0 then (stripped, true) else (raw, false)
  }

  function ApplyPrefix(name: string, resolved: bool): string {
    if resolved then (if IsResolved(name) then name else PREFIX + name) else StripPrefix(name)
  }

  /** Applying a state to a name and splitting the topic gives both back, exactly for
      plain names, and for the empty one only unresolved. */
  lemma SplitUndoesApply(name: string, resolved: bool)
    ensures SplitTopic(ApplyPrefix(name, resolved)) == (name, resolved) <==> !IsResolved(name) && (resolved ==> name != "")
  {
    if !IsResolved(name) {
      assert (PREFIX + name)[|PREFIX|..] == name;
    } else {
      var base := name[|PREFIX|..];
      assert name == PREFIX + base;
      assert |base| < |name| && (IsResolved(base) ==> |base[|PREFIX|..]| < |name|);
    }
  }

  /** Splitting a topic and applying the state found gives the topic back, unless it is
      the bare prefix or carries the prefix twice. */
  lemma ApplyUndoesSplit(raw: string)
    ensures ApplyPrefix(SplitTopic(raw).0, SplitTopic(raw).1) == raw <==> raw != PREFIX && !IsResolved(StripPrefix(raw))
  {
    if IsResolved(raw) {
      var base := raw[|PREFIX|..];
      assert raw == PREFIX + base;
      if base == "" { assert ApplyPrefix(raw, false) == ""; }
    }
  }

  // ---- names compared by the realm ----

  /** What topic comparison needs of lower-casing: that it leaves the prefix alone and
      makes no prefix out of anything else. */
  ghost predicate Folds(fold: string -> string) {
    && (forall t :: fold(PREFIX + t) == PREFIX + fold(t))
    && (forall t :: IsResolved(fold(t)) ==> IsResolved(t))
  }

  ghost predicate KeepsLength(fold: string -> string) { forall t :: |fold(t)| == |t| }

  function LowerChar(c: char): char { if 'A' <= c <= 'Z' then (c as int + 32) as char else c }
  function AsciiLower(t: string): string { MapSeq(LowerChar, t) }

  lemma AsciiLowerFolds()
    ensures Folds(AsciiLower) && KeepsLength(AsciiLower)
  {
    forall t ensures AsciiLower(PREFIX + t) == PREFIX + AsciiLower(t) {
      assert LowerChar(PREFIX[0]) == PREFIX[0] && LowerChar(PREFIX[1]) == PREFIX[1];
    }
    forall t | IsResolved(AsciiLower(t)) ensures IsResolved(t) {
      assert AsciiLower(t)[0] == LowerChar(t[0]) == PREFIX[0] && AsciiLower(t)[1] == LowerChar(t[1]) == PREFIX[1];
    }
  }

  function InForm(fold: string -> string, c: nat, topic: string): Message -> bool {
    (m: Message) => m.stream == c && fold(m.topic) == fold(topic)
  }

  function InThread(fold: string -> string, c: nat, name: string): Message -> bool {
    (m: Message) => m.stream == c && (fold(m.topic) == fold(name) || fold(m.topic) == fold(PREFIX + name))
  }

  function Elsewhere(fold: string -> string, c: nat, name: string): Message -> bool {
    (m: Message) => !(m.stream == c && (fold(m.topic) == fold(name) || fold(m.topic) == fold(PREFIX + name)))
  }

  /** A raw topic's messages, in id order: what a channel and topic narrow selects. */
  function Topic(fold: string -> string, r: RealmState, c: nat, topic: string): seq<Message> {
    Filter(InForm(fold, c, topic), r.history)
  }

  /** A thread's messages under either form. */
  function Thread(fold: string -> string, r: RealmState, c: nat, name: string): seq<Message> {
    Filter(InThread(fold, c, name), r.history)
  }

  function Newest(fold: string -> string, r: RealmState, c: nat, topic: string): Option<Message> {
    var page := HistoryPaging.Page(Topic(fold, r, c, topic), None, 1);
    if page == [] then None else Some(page[|page| - 1])
  }

  // ---- the realm's rename ----

  /** `propagate_mode=change_all`: the message and all that share its topic. */
  function Rename(fold: string -> string, of: Message, topic: string): Message -> Message {
    (m: Message) => if m.id == of.id || (m.stream == of.stream && fold(m.topic) == fold(of.topic)) then m.(topic := topic) else m
  }

  predicate Resolving(fold: string -> string, of: Message, topic: string) {
    IsResolved(topic) && fold(StripPrefix(topic)) == fold(of.topic)
  }

  predicate Unresolving(fold: string -> string, of: Message, topic: string) {
    IsResolved(of.topic) && fold(StripPrefix(of.topic)) == fold(topic)
  }

  /** The rename, and the realm's notice in the topic whose resolution it changed. */
  function EditTopic(fold: string -> string, r: RealmState, of: Message, topic: string, notice: Message): RealmState {
    var renamed := r.(history := MapSeq(Rename(fold, of, topic), r.history));
    if Resolving(fold, of, topic) || Unresolving(fold, of, topic)
    then StoreMessage(renamed, notice.(stream := of.stream, topic := topic)) else renamed
  }

  // ---- the adapter's operations ----

  function SourceOf(thread: string, resolved: bool): string { if resolved then thread else ApplyPrefix(thread, true) }

  function SetThreadResolved(fold: string -> string, r: RealmState, c: nat, thread: string, resolved: bool, notice: Message)
    : (RealmState, bool)
  {
    var source, target := SourceOf(thread, resolved), ApplyPrefix(thread, resolved);
    match Newest(fold, r, c, source)
    case Some(of) => (if source == target then r else EditTopic(fold, r, of, target, notice), true)
    case None => (r, Newest(fold, r, c, target).Some?)
  }

  function AddressThread(fold: string -> string, r: RealmState, c: nat, thread: string): string {
    if Newest(fold, r, c, thread).Some? then thread
    else if Newest(fold, r, c, ApplyPrefix(thread, true)).Some? then ApplyPrefix(thread, true)
    else thread
  }

  function TruncateTopic(topic: string): string {
    if |topic| > TOPIC_LIMIT then topic[..TOPIC_LIMIT - |ELLIPSIS|] + ELLIPSIS else topic
  }

  predicate Blank(t: string) { forall i :: 0 <= i < |t| ==> IsSpace(t[i]) }

  /** A post to a thread; the realm refuses a blank topic. */
  function Post(fold: string -> string, r: RealmState, c: nat, thread: string, draft: Message): Option<RealmState> {
    var topic := TruncateTopic(AddressThread(fold, r, c, thread));
    if Blank(topic) then None else Some(StoreMessage(r, draft.(stream := c, topic := topic)))
  }

  datatype Range = Range(limit: Option<nat>, since: Option<nat>, until: Option<nat>)

  function Same(m: Message): Message { m }

  function Limit(range: Range): nat { if range.limit.Some? then range.limit.value else HISTORY_DEFAULT_LIMIT }

  function ReadMessages(range: Range, h: seq<Message>): seq<Message> {
    var cap := Limit(range);
    var bounded := range.since.Some? || range.until.Some?;
    var maxPages := if bounded then HISTORY_MAX_PAGES else 1;
    var options := HistoryPaging.Options(HistoryPaging.Window(range.since, range.until),
                                         if bounded then Max(cap, HISTORY_DEFAULT_LIMIT) else cap, Some(cap), maxPages, Same);
    HistoryPaging.ReadWindow(options, seq(maxPages, _ => h)).results
  }

  function ReadThread(fold: string -> string, r: RealmState, c: nat, thread: string, range: Range): seq<Message> {
    var bare := ReadMessages(range, Topic(fold, r, c, thread));
    if |bare| > 0 then bare else ReadMessages(range, Topic(fold, r, c, ApplyPrefix(thread, true)))
  }

  /** The adapter over its realm. `notice` and `draft` carry what the model does not
      decide: sender, timestamp, audience and mentions. */
  class ThreadAdapter {
    const fold: string -> string
    var realm: RealmState

    constructor (fold: string -> string, realm: RealmState)
      ensures this.fold == fold && this.realm == realm
    {
      this.fold, this.realm := fold, realm;
    }

    method Resolve(c: nat, thread: string, resolved: bool, notice: Message) returns (found: bool)
      modifies this
      ensures (realm, found) == SetThreadResolved(fold, old(realm), c, thread, resolved, notice)
    {
      var source := if resolved then thread else ApplyPrefix(thread, true);
      var target := ApplyPrefix(thread, resolved);
      var newest := Newest(fold, realm, c, source);
      if newest.None? {
        var there := Newest(fold, realm, c, target);
        return there.Some?;
      }
      if source != target { Patch(newest.value, target, notice); }
      found := true;
    }

    method Patch(of: Message, topic: string, notice: Message)
      modifies this
      ensures realm == EditTopic(fold, old(realm), of, topic, notice)
    {
      realm := realm.(history := MapSeq(Rename(fold, of, topic), realm.history));
      var resolving := IsResolved(topic) && fold(StripPrefix(topic)) == fold(of.topic);
      var unresolving := IsResolved(of.topic) && fold(StripPrefix(of.topic)) == fold(topic);
      if resolving || unresolving { realm := StoreMessage(realm, notice.(stream := of.stream, topic := topic)); }
    }

    method Publish(c: nat, thread: string, draft: Message) returns (accepted: bool)
      modifies this
      ensures accepted == Post(fold, old(realm), c, thread, draft).Some?
      ensures realm == if accepted then Post(fold, old(realm), c, thread, draft).value else old(realm)
    {
      var topic := thread;
      var plain := Newest(fold, realm, c, thread);
      if plain.None? {
        var resolved := Newest(fold, realm, c, ApplyPrefix(thread, true));
        if resolved.Some? { topic := ApplyPrefix(thread, true); }
      }
      topic := TruncateTopic(topic);
      accepted := !Blank(topic);
      if accepted { realm := StoreMessage(realm, draft.(stream := c, topic := topic)); }
    }
  }

  // ---- lists of messages ----

  predicate Valid(r: RealmState) {
    Ascending(r.history) && forall i :: 0 <= i < |r.history| ==> r.history[i].id <= r.serial
  }

  lemma {:induction false} FilterMap<T>(p: T -> bool, q: T -> bool, f: T -> T, s: seq<T>)
    requires forall i :: 0 <= i < |s| ==> (p(f(s[i])) <==> q(s[i]))
    ensures Filter(p, MapSeq(f, s)) == MapSeq(f, Filter(q, s))
  {
    if s != [] {
      FilterMap(p, q, f, s[1..]);
      assert MapSeq(f, s)[1..] == MapSeq(f, s[1..]);
      assert MapSeq(f, s)[0] == f(s[0]);
    }
  }

  lemma {:induction false} FilterSame<T>(p: T -> bool, q: T -> bool, s: seq<T>)
    requires forall i :: 0 <= i < |s| ==> (p(s[i]) <==> q(s[i]))
    ensures Filter(p, s) == Filter(q, s)
  {
    if s != [] { FilterSame(p, q, s[1..]); }
  }

  lemma FilterSnoc<T>(p: T -> bool, s: seq<T>, x: T)
    ensures Filter(p, s + [x]) == Filter(p, s) + if p(x) then [x] else []
  {
    FilterConcat(p, s, [x]);
    assert [x][1..] == [];
  }

  function Untitled(m: Message): Message { m.(topic := "") }

  // ---- resolution conserves and repairs ----

  lemma NewestIs(fold: string -> string, r: RealmState, c: nat, topic: string)
    ensures Newest(fold, r, c, topic).None? <==> Topic(fold, r, c, topic) == []
    ensures Newest(fold, r, c, topic).Some? ==>
      Newest(fold, r, c, topic).value in r.history && InForm(fold, c, topic)(Newest(fold, r, c, topic).value)
  {
    var h := Topic(fold, r, c, topic);
    if h != [] { FilterMember(InForm(fold, c, topic), r.history, h[|h| - 1]); }
  }

  /** The two forms of a plain name are different topics. */
  lemma FormsDiffer(fold: string -> string, name: string)
    requires Folds(fold)
    ensures fold(name) != fold(PREFIX + name)
  {
    assert |fold(PREFIX + name)| == |PREFIX| + |fold(name)|;
  }

  /** Renaming a plain thread's one form to the other is a change of resolution, so the
      realm posts its notice. */
  lemma RenameIsNoticed(fold: string -> string, of: Message, name: string, resolved: bool)
    requires Folds(fold) && !IsResolved(name)
    requires fold(of.topic) == fold(SourceOf(name, resolved))
    ensures Resolving(fold, of, ApplyPrefix(name, resolved)) || Unresolving(fold, of, ApplyPrefix(name, resolved))
  {
    if resolved {
      assert (PREFIX + name)[|PREFIX|..] == name;
    } else {
      assert fold(of.topic) == PREFIX + fold(name);
      assert IsResolved(of.topic);
      var base := of.topic[|PREFIX|..];
      assert of.topic == PREFIX + base;
      assert (PREFIX + fold(base))[|PREFIX|..] == fold(base) && (PREFIX + fold(name))[|PREFIX|..] == fold(name);
    }
  }

  /** The renamed history, form by form. */
  lemma Renamed(fold: string -> string, h: seq<Message>, c: nat, name: string, source: string, target: string, of: Message)
    requires Ascending(h) && of in h && InForm(fold, c, source)(of)
    requires fold(source) != fold(target)
    requires (source == name && target == PREFIX + name) || (source == PREFIX + name && target == name)
    ensures var n := MapSeq(Rename(fold, of, target), h);
      && Ascending(n)
      && Filter(InForm(fold, c, source), n) == []
      && Filter(InForm(fold, c, target), n) == MapSeq(Rename(fold, of, target), Filter(InThread(fold, c, name), h))
      && Filter(Elsewhere(fold, c, name), n) == Filter(Elsewhere(fold, c, name), h)
  {
    var ren := Rename(fold, of, target);
    var n := MapSeq(ren, h);
    forall i | 0 <= i < |h|
      ensures n[i] == if InForm(fold, c, source)(h[i]) then h[i].(topic := target) else h[i]
    {
      var j :| 0 <= j < |h| && h[j] == of;
      if h[i].id == of.id { assert i == j; }
    }
    FilterNone(InForm(fold, c, source), n);
    FilterMap(InForm(fold, c, target), InThread(fold, c, name), ren, h);
    FilterMap(Elsewhere(fold, c, name), Elsewhere(fold, c, name), ren, h);
    Untouched(ren, Filter(Elsewhere(fold, c, name), h), Elsewhere(fold, c, name), h);
  }

  lemma Untouched(f: Message -> Message, kept: seq<Message>, p: Message -> bool, h: seq<Message>)
    requires kept == Filter(p, h)
    requires forall i :: 0 <= i < |h| && p(h[i]) ==> f(h[i]) == h[i]
    ensures MapSeq(f, kept) == kept
  {
    forall i | 0 <= i < |kept| ensures f(kept[i]) == kept[i] {
      FilterMember(p, h, kept[i]);
    }
  }

  /** Resolving or unresolving a plain thread, whatever forms it is in: it is found
      exactly when it holds a message; then one form is left, holding all of the thread's
      messages in id order and, when a rename was needed, the realm's notice after them;
      the rest of the realm's history is as it was. */
  lemma ResolutionConserves(fold: string -> string, r: RealmState, c: nat, name: string, resolved: bool, notice: Message)
    requires Folds(fold) && !IsResolved(name) && Valid(r)
    ensures var (n, found) := SetThreadResolved(fold, r, c, name, resolved, notice);
      var (source, target) := (SourceOf(name, resolved), ApplyPrefix(name, resolved));
      && Valid(n)
      && (found <==> Thread(fold, r, c, name) != [])
      && (!found ==> n == r)
      && Topic(fold, n, c, source) == []
      && MapSeq(Untitled, Topic(fold, n, c, target))
         == MapSeq(Untitled, Thread(fold, r, c, name))
            + (if Topic(fold, r, c, source) == [] then [] else [Untitled(notice.(id := r.serial + 1, stream := c))])
      && Filter(Elsewhere(fold, c, name), n.history) == Filter(Elsewhere(fold, c, name), r.history)
  {
    var source, target := SourceOf(name, resolved), ApplyPrefix(name, resolved);
    NewestIs(fold, r, c, source);
    NewestIs(fold, r, c, target);
    FormsDiffer(fold, name);
    if Topic(fold, r, c, source) == [] {
      OneForm(fold, r, c, name, source, target);
    } else {
      var of := Newest(fold, r, c, source).value;
      RenameIsNoticed(fold, of, name, resolved);
      RenameConserves(fold, r, c, name, source, target, of, notice);
      FilterMember(InForm(fold, c, source), r.history, Topic(fold, r, c, source)[0]);
      FilterMember(InThread(fold, c, name), r.history, Topic(fold, r, c, source)[0]);
    }
  }

  lemma OneForm(fold: string -> string, r: RealmState, c: nat, name: string, source: string, target: string)
    requires (source == name && target == PREFIX + name) || (source == PREFIX + name && target == name)
    requires Topic(fold, r, c, source) == []
    ensures Topic(fold, r, c, target) == Thread(fold, r, c, name)
  {
    forall i | 0 <= i < |r.history| ensures InForm(fold, c, target)(r.history[i]) <==> InThread(fold, c, name)(r.history[i]) {
      FilterMember(InForm(fold, c, source), r.history, r.history[i]);
    }
    FilterSame(InForm(fold, c, target), InThread(fold, c, name), r.history);
  }

  lemma RenameConserves(fold: string -> string, r: RealmState, c: nat, name: string, source: string, target: string,
                        of: Message, notice: Message)
    requires Valid(r) && of in r.history && InForm(fold, c, source)(of) && fold(source) != fold(target)
    requires (source == name && target == PREFIX + name) || (source == PREFIX + name && target == name)
    requires Resolving(fold, of, target) || Unresolving(fold, of, target)
    ensures var n := EditTopic(fold, r, of, target, notice);
      && Valid(n)
      && Topic(fold, n, c, source) == []
      && MapSeq(Untitled, Topic(fold, n, c, target))
         == MapSeq(Untitled, Thread(fold, r, c, name)) + [Untitled(notice.(id := r.serial + 1, stream := c))]
      && Filter(Elsewhere(fold, c, name), n.history) == Filter(Elsewhere(fold, c, name), r.history)
  {
    var ren := Rename(fold, of, target);
    Renamed(fold, r.history, c, name, source, target, of);
    EditedHistory(fold, r, of, target, notice);
    FormsAfterNotice(fold, r, EditTopic(fold, r, of, target, notice), ren, c, name, source, target,
                     notice.(id := r.serial + 1, stream := c, topic := target));
  }

  lemma FormsAfterNotice(fold: string -> string, r: RealmState, n: RealmState, ren: Message -> Message, c: nat, name: string,
                         source: string, target: string, told: Message)
    requires n.history == MapSeq(ren, r.history) + [told] && told.stream == c && told.topic == target
    requires fold(source) != fold(target) && forall m :: Untitled(ren(m)) == Untitled(m)
    requires (source == name && target == PREFIX + name) || (source == PREFIX + name && target == name)
    requires Filter(InForm(fold, c, source), MapSeq(ren, r.history)) == []
    requires Filter(InForm(fold, c, target), MapSeq(ren, r.history)) == MapSeq(ren, Thread(fold, r, c, name))
    requires Filter(Elsewhere(fold, c, name), MapSeq(ren, r.history)) == Filter(Elsewhere(fold, c, name), r.history)
    ensures Topic(fold, n, c, source) == []
    ensures MapSeq(Untitled, Topic(fold, n, c, target)) == MapSeq(Untitled, Thread(fold, r, c, name)) + [Untitled(told)]
    ensures Filter(Elsewhere(fold, c, name), n.history) == Filter(Elsewhere(fold, c, name), r.history)
  {
    NoticeAppended(fold, n.history, MapSeq(ren, r.history), c, name, source, target, told);
    Retitled(ren, Thread(fold, r, c, name), told);
  }

  lemma EditedHistory(fold: string -> string, r: RealmState, of: Message, topic: string, notice: Message)
    requires Valid(r) && (Resolving(fold, of, topic) || Unresolving(fold, of, topic))
    ensures var n := EditTopic(fold, r, of, topic, notice);
      && Valid(n)
      && n.history == MapSeq(Rename(fold, of, topic), r.history) + [notice.(id := r.serial + 1, stream := of.stream, topic := topic)]
  {
  }

  lemma NoticeAppended(fold: string -> string, h: seq<Message>, renamed: seq<Message>, c: nat, name: string, source: string,
                       target: string, told: Message)
    requires h == renamed + [told] && told.stream == c && told.topic == target && fold(source) != fold(target)
    requires (source == name && target == PREFIX + name) || (source == PREFIX + name && target == name)
    ensures Filter(InForm(fold, c, source), h) == Filter(InForm(fold, c, source), renamed)
    ensures Filter(InForm(fold, c, target), h) == Filter(InForm(fold, c, target), renamed) + [told]
    ensures Filter(Elsewhere(fold, c, name), h) == Filter(Elsewhere(fold, c, name), renamed)
  {
    FilterSnoc(InForm(fold, c, source), renamed, told);
    FilterSnoc(InForm(fold, c, target), renamed, told);
    FilterSnoc(Elsewhere(fold, c, name), renamed, told);
  }

  lemma Retitled(ren: Message -> Message, s: seq<Message>, told: Message)
    requires forall m :: Untitled(ren(m)) == Untitled(m)
    ensures MapSeq(Untitled, MapSeq(ren, s) + [told]) == MapSeq(Untitled, s) + [Untitled(told)]
  {
  }

  /** Repeating the call changes nothing, so the realm posts no second notice. */
  lemma ResolutionIsIdempotent(fold: string -> string, r: RealmState, c: nat, name: string, resolved: bool, notice: Message,
                               again: Message)
    requires Folds(fold) && !IsResolved(name) && Valid(r) && Thread(fold, r, c, name) != []
    ensures var n := SetThreadResolved(fold, r, c, name, resolved, notice).0;
      SetThreadResolved(fold, n, c, name, resolved, again) == (n, true)
  {
    var n := SetThreadResolved(fold, r, c, name, resolved, notice).0;
    ResolutionConserves(fold, r, c, name, resolved, notice);
    NewestIs(fold, n, c, SourceOf(name, resolved));
    NewestIs(fold, n, c, ApplyPrefix(name, resolved));
  }

  // ---- a post and a read mean the same thread ----

  /** A read with no window is the newest `cap` messages. */
  lemma UnboundedRead(range: Range, h: seq<Message>)
    requires range.since.None? && range.until.None?
    ensures ReadMessages(range, h) == TakeLast(h, Limit(range))
  {
    var cap := Limit(range);
    var o := HistoryPaging.Options(HistoryPaging.Window(None, None), cap, Some(cap), 1, Same);
    var rows := TakeLast(h, cap);
    FilterAll(HistoryPaging.NotIn({}), rows);
    FilterAll(HistoryPaging.Within(o.window), rows);
    assert MapSeq(Same, rows) == rows;
    assert HistoryPaging.Page(h, None, cap) == rows;
    OnePage(o, h, rows);
  }

  lemma SteadyRead(o: HistoryPaging.Options<Message>, h: seq<Message>, reach: nat)
    requires Ascending(h) && Chronological(h) && o.maxPages > 0 && o.onRow == Same && reach == o.pageSize * o.maxPages
    ensures HistoryPaging.ReadWindow(o, seq(o.maxPages, _ => h)).results
      == HistoryPaging.Capped(o.cap, Filter(HistoryPaging.Within(o.window), TakeLast(h, reach)))
  {
    var world := seq(o.maxPages, _ => h);
    assert world[0] == h;
    HistoryPaging.ReadWindowClosed(o, world);
    AllSame(HistoryPaging.Capped(o.cap, HistoryPaging.Kept(o.window, TakeLast(h, reach))));
  }

  lemma AllSame(s: seq<Message>)
    ensures MapSeq(Same, s) == s
  {
  }

  lemma BoundedOptions(range: Range, h: seq<Message>)
    requires range.since.Some? || range.until.Some?
    ensures var o := HistoryPaging.Options(HistoryPaging.Window(range.since, range.until), Max(Limit(range), HISTORY_DEFAULT_LIMIT),
                                           Some(Limit(range)), HISTORY_MAX_PAGES, Same);
      ReadMessages(range, h) == HistoryPaging.ReadWindow(o, seq(o.maxPages, _ => h)).results
  {
  }

  /** A read with a window is the newest `limit` in-window messages, 100 by default, of as many
      as twenty pages hold. */
  lemma BoundedRead(range: Range, h: seq<Message>)
    requires Ascending(h) && Chronological(h) && (range.since.Some? || range.until.Some?)
    ensures var reach := 20 * if Limit(range) < 100 then 100 else Limit(range);
      var within := HistoryPaging.Within(HistoryPaging.Window(range.since, range.until));
      ReadMessages(range, h) == TakeLast(Filter(within, TakeLast(h, reach)), Limit(range))
  {
    var o := HistoryPaging.Options(HistoryPaging.Window(range.since, range.until), Max(Limit(range), HISTORY_DEFAULT_LIMIT),
                                   Some(Limit(range)), HISTORY_MAX_PAGES, Same);
    BoundedOptions(range, h);
    SteadyRead(o, h, 20 * if Limit(range) < 100 then 100 else Limit(range));
  }

  /** A walk with a budget of one page answers with that page, capped. */
  lemma OnePage(o: HistoryPaging.Options<Message>, h: seq<Message>, rows: seq<Message>)
    requires o.maxPages == 1 && HistoryPaging.Page(h, None, o.pageSize) == rows && MapSeq(o.onRow, rows) == rows
    requires Filter(HistoryPaging.NotIn({}), rows) == rows && HistoryPaging.Kept(o.window, rows) == rows
    ensures HistoryPaging.ReadWindow(o, seq(1, _ => h)).results == HistoryPaging.Capped(o.cap, rows)
  {
    var world := seq(1, _ => h);
    var w := HistoryPaging.Step(o, HistoryPaging.Start(o), world[0]);
    assert HistoryPaging.Iterate(o, HistoryPaging.Start(o), world, 0) == HistoryPaging.Iterate(o, w, world, 1) == (w, 1);
    if rows != [] {
      assert w.byPage == [rows];
      OneBatch(rows);
    }
  }

  lemma OneBatch<T>(rows: seq<T>)
    ensures Flatten(Reverse([rows])) == rows
  {
    assert [rows][1..] == [] && Reverse([rows]) == [rows];
    assert rows + [] == rows;
  }

  /** The post is what an unbounded read of its thread now ends with. */
  predicate EndsRead(fold: string -> string, n: RealmState, c: nat, name: string, range: Range, posted: Message) {
    var read := ReadThread(fold, n, c, name, range);
    read != [] && read[|read| - 1] == posted
  }

  /** Only the thread's resolved form exists. */
  predicate OnlyResolved(fold: string -> string, r: RealmState, c: nat, name: string) {
    Topic(fold, r, c, name) == [] && Topic(fold, r, c, ApplyPrefix(name, true)) != []
  }

  lemma AddressIsForm(fold: string -> string, r: RealmState, c: nat, name: string)
    requires !IsResolved(name)
    ensures AddressThread(fold, r, c, name) == if OnlyResolved(fold, r, c, name) then PREFIX + name else name
  {
    NewestIs(fold, r, c, name);
    NewestIs(fold, r, c, PREFIX + name);
  }

  /** The form a read of the thread takes, as a post's address does: bare, else resolved. */
  function ReadForm(fold: string -> string, n: RealmState, c: nat, name: string): seq<Message> {
    if Topic(fold, n, c, name) != [] then Topic(fold, n, c, name) else Topic(fold, n, c, PREFIX + name)
  }

  lemma UnboundedThreadRead(fold: string -> string, n: RealmState, c: nat, name: string, range: Range)
    requires !IsResolved(name) && range.since.None? && range.until.None? && range.limit != Some(0)
    ensures ReadThread(fold, n, c, name, range)
         == TakeLast(ReadForm(fold, n, c, name), Limit(range))
  {
    UnboundedRead(range, Topic(fold, n, c, name));
    UnboundedRead(range, Topic(fold, n, c, PREFIX + name));
  }

  lemma FormsAfterPost(fold: string -> string, r: RealmState, c: nat, name: string, draft: Message)
    requires Post(fold, r, c, name, draft).Some?
    ensures var n, posted := Post(fold, r, c, name, draft).value, Posted(fold, r, c, name, draft);
      && n.history == r.history + [posted]
      && Topic(fold, n, c, name) == Topic(fold, r, c, name) + (if fold(posted.topic) == fold(name) then [posted] else [])
      && Topic(fold, n, c, PREFIX + name)
         == Topic(fold, r, c, PREFIX + name) + (if fold(posted.topic) == fold(PREFIX + name) then [posted] else [])
  {
    var posted := Posted(fold, r, c, name, draft);
    FilterSnoc(InForm(fold, c, name), r.history, posted);
    FilterSnoc(InForm(fold, c, PREFIX + name), r.history, posted);
  }

  /** The message a post stores. */
  function Posted(fold: string -> string, r: RealmState, c: nat, name: string, draft: Message): Message {
    draft.(id := r.serial + 1, stream := c, topic := TruncateTopic(AddressThread(fold, r, c, name)))
  }

  predicate Visible(t: string) { exists i :: 0 <= i < |t| && !IsSpace(t[i]) }

  /** A post is accepted exactly when its thread's name has a visible character, or is too
      long to be kept whole, in which case the ellipsis is one, or when it goes to the
      resolved form, whose prefix is one. */
  lemma PostAcceptedIff(fold: string -> string, r: RealmState, c: nat, name: string, draft: Message)
    ensures Post(fold, r, c, name, draft).Some? <==> Visible(name) || |name| > TOPIC_LIMIT || OnlyResolved(fold, r, c, name)
  {
    NewestIs(fold, r, c, name);
    NewestIs(fold, r, c, ApplyPrefix(name, true));
    var address := AddressThread(fold, r, c, name);
    CutKeepsVisible(address);
    if IsResolved(name) {
      assert name[0] == PREFIX[0] && !IsSpace(name[0]);
    } else {
      assert (PREFIX + name)[0] == PREFIX[0] && !IsSpace(PREFIX[0]);
    }
  }

  lemma CutKeepsVisible(topic: string)
    ensures Blank(TruncateTopic(topic)) <==> |topic| <= TOPIC_LIMIT && !Visible(topic)
  {
    if |topic| > TOPIC_LIMIT { assert TruncateTopic(topic)[TOPIC_LIMIT - 1] == '.'; }
  }

  /** What an accepted post leaves: the realm with one more message, the newest of the raw
      topic it was addressed to as far as the realm keeps it; a refused one changes nothing. */
  lemma PostStores(fold: string -> string, r: RealmState, c: nat, name: string, draft: Message)
    requires Post(fold, r, c, name, draft).Some?
    ensures var n, posted := Post(fold, r, c, name, draft).value, Posted(fold, r, c, name, draft);
      && n.history == r.history + [posted] && posted.id == r.serial + 1 && posted.stream == c
      && (|AddressThread(fold, r, c, name)| <= TOPIC_LIMIT ==> posted.topic == AddressThread(fold, r, c, name))
      && Newest(fold, n, c, posted.topic) == Some(posted)
  {
    var posted := Posted(fold, r, c, name, draft);
    FilterSnoc(InForm(fold, c, posted.topic), r.history, posted);
  }

  /** A post stored under its whole name is read back last, from any realm: the thread
      bare, resolved, in both forms or new. Every name with a visible character is stored. */
  lemma FittingPostIsRead(fold: string -> string, r: RealmState, c: nat, name: string, draft: Message, range: Range)
    requires Folds(fold) && !IsResolved(name) && range.since.None? && range.until.None? && range.limit != Some(0)
    requires |AddressThread(fold, r, c, name)| <= TOPIC_LIMIT && (Visible(name) || OnlyResolved(fold, r, c, name))
    ensures Post(fold, r, c, name, draft).Some?
    ensures EndsRead(fold, Post(fold, r, c, name, draft).value, c, name, range, Posted(fold, r, c, name, draft))
  {
    AddressIsForm(fold, r, c, name);
    FormsDiffer(fold, name);
    PostAcceptedIff(fold, r, c, name, draft);
    FormsAfterPost(fold, r, c, name, draft);
    UnboundedThreadRead(fold, Post(fold, r, c, name, draft).value, c, name, range);
  }

  lemma CutTopicIsLost(fold: string -> string, name: string, address: string)
    requires Folds(fold) && KeepsLength(fold) && !IsResolved(name) && (address == name || address == PREFIX + name)
    requires |address| > TOPIC_LIMIT
    ensures fold(TruncateTopic(address)) != fold(name) && fold(TruncateTopic(address)) != fold(PREFIX + name)
  {
    var cut := TruncateTopic(address);
    assert |fold(cut)| == |cut| == TOPIC_LIMIT;
    assert |fold(name)| == |name| && |fold(PREFIX + name)| == |name| + 2;
    if address == PREFIX + name && |name| == TOPIC_LIMIT {
      assert cut == PREFIX + cut[|PREFIX|..];
      assert fold(cut) == PREFIX + fold(cut[|PREFIX|..]);
      assert IsResolved(fold(cut));
    }
  }

  /** Under a lower-casing that keeps lengths, a post is stored and read back last exactly
      when its topic shows something and the topic it was addressed to fits the realm's
      limit; a longer one is stored cut short, where no read of its thread finds it. */
  lemma PostIsReadIffItFits(fold: string -> string, r: RealmState, c: nat, name: string, draft: Message, range: Range)
    requires Folds(fold) && KeepsLength(fold) && !IsResolved(name) && Valid(r)
    requires range.since.None? && range.until.None? && range.limit != Some(0)
    ensures var n := Post(fold, r, c, name, draft);
      n.Some? && EndsRead(fold, n.value, c, name, range, Posted(fold, r, c, name, draft)) <==>
        |AddressThread(fold, r, c, name)| <= TOPIC_LIMIT && (Visible(name) || OnlyResolved(fold, r, c, name))
  {
    PostAcceptedIff(fold, r, c, name, draft);
    AddressIsForm(fold, r, c, name);
    if Post(fold, r, c, name, draft).Some? {
      if |AddressThread(fold, r, c, name)| <= TOPIC_LIMIT {
        FittingPostIsRead(fold, r, c, name, draft, range);
      } else {
        CutPostIsNotRead(fold, r, c, name, draft, range);
      }
    }
  }

  lemma CutPostIsNotRead(fold: string -> string, r: RealmState, c: nat, name: string, draft: Message, range: Range)
    requires Folds(fold) && KeepsLength(fold) && !IsResolved(name) && Valid(r)
    requires range.since.None? && range.until.None? && range.limit != Some(0) && Post(fold, r, c, name, draft).Some?
    requires |AddressThread(fold, r, c, name)| > TOPIC_LIMIT
    ensures !EndsRead(fold, Post(fold, r, c, name, draft).value, c, name, range, Posted(fold, r, c, name, draft))
  {
    var n, posted := Post(fold, r, c, name, draft).value, Posted(fold, r, c, name, draft);
    AddressIsForm(fold, r, c, name);
    CutTopicIsLost(fold, name, AddressThread(fold, r, c, name));
    FormsAfterPost(fold, r, c, name, draft);
    NotInForm(fold, r, c, name, posted);
    NotInForm(fold, r, c, PREFIX + name, posted);
    assert posted !in ReadForm(fold, n, c, name);
    UnboundedThreadRead(fold, n, c, name, range);
    NotInTail(ReadForm(fold, n, c, name), Limit(range), posted);
  }

  lemma NotInTail(h: seq<Message>, n: nat, m: Message)
    requires m !in h
    ensures m !in TakeLast(h, n)
  {
  }

  lemma NotInForm(fold: string -> string, r: RealmState, c: nat, topic: string, posted: Message)
    requires Valid(r) && posted.id > r.serial
    ensures posted !in Topic(fold, r, c, topic)
  {
    FilterMember(InForm(fold, c, topic), r.history, posted);
  }

  predicate Forked(fold: string -> string, r: RealmState, c: nat, name: string) {
    Topic(fold, r, c, name) != [] && Topic(fold, r, c, PREFIX + name) != []
  }

  /** No post forks a thread: one that is in a single form, or in none, stays so. */
  lemma PostNeverForks(fold: string -> string, r: RealmState, c: nat, name: string, draft: Message)
    requires Folds(fold) && !IsResolved(name) && |name| + |PREFIX| <= TOPIC_LIMIT
    ensures var n := Post(fold, r, c, name, draft);
      n.Some? ==> (Forked(fold, n.value, c, name) <==> Forked(fold, r, c, name))
  {
    if Post(fold, r, c, name, draft).None? { return; }
    AddressIsForm(fold, r, c, name);
    FormsDiffer(fold, name);
    FormsAfterPost(fold, r, c, name, draft);
  }
}
