/** Values and sequence functions shared by every module of the model. */
module Core {
  datatype Option<+T> = None | Some(value: T)

  /** A stored channel message, as `RealmMessage` holds it. `mentioned` are the
      users its rendering notifies; `receivedBy` are those it was delivered to. */
  datatype Message = Message(id: nat, sender: nat, stream: nat, topic: string, timestamp: nat,
                             mentioned: set<nat>, receivedBy: set<nat>)

  function Filter<T>(p: T -> bool, s: seq<T>): (r: seq<T>)
    ensures |r| <= |s|
  {
    if s == [] then [] else (if p(s[0]) then [s[0]] else []) + Filter(p, s[1..])
  }

  lemma {:induction false} FilterMember<T>(p: T -> bool, s: seq<T>, x: T)
    ensures x in Filter(p, s) <==> x in s && p(x)
  {
    if s != [] {
      assert s == [s[0]] + s[1..];
      FilterMember(p, s[1..], x);
    }
  }

  lemma {:induction false} FilterConcat<T>(p: T -> bool, a: seq<T>, b: seq<T>)
    ensures Filter(p, a + b) == Filter(p, a) + Filter(p, b)
  {
    if a == [] {
      assert a + b == b;
    } else {
      var head := if p(a[0]) then [a[0]] else [];
      FilterConcat(p, a[1..], b);
      assert (a + b)[0] == a[0] && (a + b)[1..] == a[1..] + b;
      ConcatAssociates(head, Filter(p, a[1..]), Filter(p, b));
    }
  }

  lemma ConcatAssociates<T>(a: seq<T>, b: seq<T>, c: seq<T>)
    ensures a + (b + c) == (a + b) + c
  {
  }

  lemma FilterSplit<T>(p: T -> bool, s: seq<T>, k: nat)
    requires k <= |s|
    ensures Filter(p, s) == Filter(p, s[..k]) + Filter(p, s[k..])
  {
    assert s == s[..k] + s[k..];
    FilterConcat(p, s[..k], s[k..]);
  }

  lemma {:induction false} FilterAll<T>(p: T -> bool, s: seq<T>)
    requires forall i :: 0 <= i < |s| ==> p(s[i])
    ensures Filter(p, s) == s
  {
    if s != [] { FilterAll(p, s[1..]); }
  }

  lemma {:induction false} FilterNone<T>(p: T -> bool, s: seq<T>)
    requires forall i :: 0 <= i < |s| ==> !p(s[i])
    ensures Filter(p, s) == []
  {
    if s != [] { FilterNone(p, s[1..]); }
  }

  function MapSeq<T, U>(f: T -> U, s: seq<T>): (r: seq<U>)
    ensures |r| == |s| && forall i :: 0 <= i < |s| ==> r[i] == f(s[i])
  {
    seq(|s|, i requires 0 <= i < |s| => f(s[i]))
  }

  /** The last `n` elements, or all of them when there are fewer. */
  function TakeLast<T>(s: seq<T>, n: nat): (r: seq<T>)
    ensures |r| == if |s| <= n then |s| else n
  {
    if |s| <= n then s else s[|s| - n..]
  }

  predicate IsSuffix<T(==)>(a: seq<T>, s: seq<T>) {
    |a| <= |s| && a == s[|s| - |a|..]
  }

  predicate IsPrefix<T(==)>(a: seq<T>, s: seq<T>) {
    |a| <= |s| && a == s[..|a|]
  }

  function Flatten<T>(pages: seq<seq<T>>): seq<T> {
    if pages == [] then [] else pages[0] + Flatten(pages[1..])
  }

  function Reverse<T>(s: seq<T>): (r: seq<T>)
    ensures |r| == |s|
  {
    if s == [] then [] else Reverse(s[1..]) + [s[0]]
  }

  lemma {:induction false} ReverseSnoc<T>(s: seq<T>, x: T)
    ensures Reverse(s + [x]) == [x] + Reverse(s)
  {
    if s == [] {
      assert s + [x] == [x];
    } else {
      assert (s + [x])[1..] == s[1..] + [x];
      ReverseSnoc(s[1..], x);
    }
  }

  function Max(a: int, b: int): int { if a < b then b else a }
  function Min(a: int, b: int): int { if a < b then a else b }

  /** JavaScript white space: what `trim` strips and `\s` matches. */
  predicate IsSpace(c: char) {
    || '\t' <= c <= '\r' || c == ' ' || c == '\U{A0}' || c == '\U{1680}' || '\U{2000}' <= c <= '\U{200A}'
    || c == '\U{2028}' || c == '\U{2029}' || c == '\U{202F}' || c == '\U{205F}' || c == '\U{3000}' || c == '\U{FEFF}'
  }

  /** A realm's message history: ids ascend. */
  predicate Ascending(h: seq<Message>) {
    forall i, j :: 0 <= i < j < |h| ==> h[i].id < h[j].id
  }

  /** Message timestamps never decrease in id order. */
  predicate Chronological(h: seq<Message>) {
    forall i, j :: 0 <= i < j < |h| ==> h[i].timestamp <= h[j].timestamp
  }
}
