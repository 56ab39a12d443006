/** Hash components of narrow links (packages/zulip/permalink.ts). A `char` is a Unicode
    scalar value and a byte a number below 256. */
module Permalink {
  import opened Core

  // ---- UTF-8 and percent-encoding ----

  function Utf8(c: char): (bytes: seq<nat>)
    ensures bytes != [] && forall i :: 0 <= i < |bytes| ==> bytes[i] < 256
  {
    var p := c as int;
    if p < 0x80 then [p]
    else if p < 0x800 then [0xC0 + p / 64, 0x80 + p % 64]
    else if p < 0x1_0000 then [0xE0 + p / 4096, 0x80 + p / 64 % 64, 0x80 + p % 64]
    else [0xF0 + p / 262144, 0x80 + p / 4096 % 64, 0x80 + p / 64 % 64, 0x80 + p % 64]
  }

  function Hex(d: nat): char
    requires d < 16
  {
    if d < 10 then ('0' as int + d) as char else ('A' as int + d - 10) as char
  }

  function HexValue(c: char): Option<nat> {
    if '0' <= c <= '9' then Some(c as int - '0' as int)
    else if 'A' <= c <= 'F' then Some(c as int - 'A' as int + 10)
    else if 'a' <= c <= 'f' then Some(c as int - 'a' as int + 10)
    else None
  }

  function Percent(bytes: seq<nat>): string
    requires forall i :: 0 <= i < |bytes| ==> bytes[i] < 256
  {
    if bytes == [] then "" else ['%', Hex(bytes[0] / 16), Hex(bytes[0] % 16)] + Percent(bytes[1..])
  }

  predicate Plain(c: char) {
    'a' <= c <= 'z' || 'A' <= c <= 'Z' || '0' <= c <= '9' || c == '-' || c == '_' || c == '~'
  }

  /** What `encodeURIComponent` leaves alone. */
  predicate Unescaped(c: char) {
    Plain(c) || c == '.' || c == '!' || c == '*' || c == '\'' || c == '(' || c == ')'
  }

  function EncodeUriComponent(s: string): string {
    if s == "" then "" else (if Unescaped(s[0]) then [s[0]] else Percent(Utf8(s[0]))) + EncodeUriComponent(s[1..])
  }

  function Replacement(c: char): string {
    match c
    case '%' => "."
    case '!' => ".21"
    case '\'' => ".27"
    case '(' => ".28"
    case ')' => ".29"
    case '*' => ".2A"
    case '.' => ".2E"
    case _ => [c]
  }

  function ReplaceEach(s: string): string {
    if s == "" then "" else Replacement(s[0]) + ReplaceEach(s[1..])
  }

  function EncodeHashComponent(value: string): string { ReplaceEach(EncodeUriComponent(value)) }

  // ---- the reader of such a link: section 2.1 of RFC 3986 over section 3 of RFC 3629 ----

  function EscapedByte(s: string): Option<nat> {
    if |s| >= 3 && s[0] == '%' && HexValue(s[1]).Some? && HexValue(s[2]).Some?
    then Some(16 * HexValue(s[1]).value + HexValue(s[2]).value) else None
  }

  /** `n` escaped continuation octets, six bits each, after the bits so far. */
  function Continue(s: string, n: nat, bits: nat): (r: Option<nat>)
    ensures r.Some? ==> 3 * n <= |s|
  {
    if n == 0 then Some(bits) else
    var b := EscapedByte(s);
    if b.Some? && 0x80 <= b.value < 0xC0 then Continue(s[3..], n - 1, bits * 64 + b.value - 0x80) else None
  }

  /** A scalar value needs its shortest form, and no surrogate is one. */
  function Scalar(p: nat, least: nat): Option<char> {
    if least <= p < 0xD800 || (least <= p && 0xE000 <= p < 0x11_0000) then Some(p as char) else None
  }

  /** The scalar an escape sequence spells, with the number of octets it takes. */
  function DecodeScalar(s: string): (r: Option<(char, nat)>)
    ensures r.Some? ==> 0 < r.value.1 && 3 * r.value.1 <= |s|
  {
    var b := EscapedByte(s);
    if b.None? then None else
    var (n, bits, least) :=
      if b.value < 0x80 then (0, b.value, 0)
      else if 0xC0 <= b.value < 0xE0 then (1, b.value - 0xC0, 0x80)
      else if 0xE0 <= b.value < 0xF0 then (2, b.value - 0xE0, 0x800)
      else if 0xF0 <= b.value < 0xF8 then (3, b.value - 0xF0, 0x1_0000)
      else (0, b.value, 0x11_0000);
    var p := Continue(s[3..], n, bits);
    if p.None? || Scalar(p.value, least).None? then None else Some((Scalar(p.value, least).value, n + 1))
  }

  function DecodeUriComponent(s: string): Option<string> {
    if s == "" then Some("")
    else if s[0] != '%' then Prepend(s[0], DecodeUriComponent(s[1..]))
    else
      var d := DecodeScalar(s);
      if d.None? then None
      else Prepend(d.value.0, DecodeUriComponent(s[3 * d.value.1..]))
  }

  function Prepend(c: char, rest: Option<string>): Option<string> {
    if rest.None? then None else Some([c] + rest.value)
  }

  function Undot(c: char): char { if c == '.' then '%' else c }

  function DecodeHashComponent(s: string): Option<string> { DecodeUriComponent(MapSeq(Undot, s)) }

  // ---- the round trip ----

  lemma HexRoundTrip(b: nat)
    requires b < 256
    ensures Hex(b / 16) != '.' && Hex(b % 16) != '.' && Hex(b / 16) != '%' && Hex(b % 16) != '%'
    ensures HexValue(Hex(b / 16)) == Some(b / 16) && HexValue(Hex(b % 16)) == Some(b % 16)
    ensures Plain(Hex(b / 16)) && Plain(Hex(b % 16))
  {
  }

  lemma EscapedFirst(b: nat, rest: string)
    requires b < 256
    ensures EscapedByte(['%', Hex(b / 16), Hex(b % 16)] + rest) == Some(b)
  {
    HexRoundTrip(b);
    var s := ['%', Hex(b / 16), Hex(b % 16)] + rest;
    assert s[0] == '%' && s[1] == Hex(b / 16) && s[2] == Hex(b % 16);
  }

  lemma FirstByte(bytes: seq<nat>, rest: string)
    requires bytes != [] && forall i :: 0 <= i < |bytes| ==> bytes[i] < 256
    ensures EscapedByte(Percent(bytes) + rest) == Some(bytes[0])
    ensures |Percent(bytes) + rest| >= 3 && (Percent(bytes) + rest)[3..] == Percent(bytes[1..]) + rest
    ensures (Percent(bytes) + rest)[0] == '%'
  {
    var head, tail := ['%', Hex(bytes[0] / 16), Hex(bytes[0] % 16)], Percent(bytes[1..]);
    assert Percent(bytes) + rest == head + (tail + rest);
    EscapedFirst(bytes[0], tail + rest);
  }

  lemma {:induction false} PercentLength(bytes: seq<nat>)
    requires forall i :: 0 <= i < |bytes| ==> bytes[i] < 256
    ensures |Percent(bytes)| == 3 * |bytes|
  {
    if bytes != [] { PercentLength(bytes[1..]); }
  }

  /** Reading back the continuation octets of a value. */
  lemma {:induction false} ContinueReads(bytes: seq<nat>, bits: nat, rest: string)
    requires forall i :: 0 <= i < |bytes| ==> 0x80 <= bytes[i] < 0xC0
    ensures Continue(Percent(bytes) + rest, |bytes|, bits) == Some(Joined(bytes, bits))
  {
    if bytes != [] {
      FirstByte(bytes, rest);
      ContinueReads(bytes[1..], bits * 64 + bytes[0] - 0x80, rest);
    }
  }

  function Joined(bytes: seq<nat>, bits: nat): nat
    requires forall i :: 0 <= i < |bytes| ==> 0x80 <= bytes[i] < 0xC0
  {
    if bytes == [] then bits else Joined(bytes[1..], bits * 64 + bytes[0] - 0x80)
  }

  predicate IsTail(bytes: seq<nat>) { forall i :: 0 <= i < |bytes| ==> 0x80 <= bytes[i] < 0xC0 }

  lemma JoinedTwo(x: nat, y: nat, bits: nat)
    requires IsTail([x, y])
    ensures Joined([x, y], bits) == (bits * 64 + x - 0x80) * 64 + y - 0x80
  {
    assert [x, y][0] == x && [x, y][1] == y;
    assert [x, y][1..] == [y] && [y][1..] == [];
    assert IsTail([y]);
    assert Joined([y], bits * 64 + x - 0x80) == (bits * 64 + x - 0x80) * 64 + y - 0x80;
  }

  lemma JoinedThree(x: nat, y: nat, z: nat, bits: nat)
    requires IsTail([x, y, z])
    ensures Joined([x, y, z], bits) == ((bits * 64 + x - 0x80) * 64 + y - 0x80) * 64 + z - 0x80
  {
    assert [x, y, z][0] == x && [x, y, z][1] == y && [x, y, z][2] == z;
    assert [x, y, z][1..] == [y, z];
    assert IsTail([y, z]);
    JoinedTwo(y, z, bits * 64 + x - 0x80);
  }

  /** What the first octet's mark takes away from it. */
  function Lead(n: nat): nat { if n <= 1 then 0 else if n == 2 then 0xC0 else if n == 3 then 0xE0 else 0xF0 }

  /** The payload of a character's octets is its code point. */
  lemma Utf8Payload(c: char)
    ensures var bytes := Utf8(c);
      && 1 <= |bytes| <= 4 && Lead(|bytes|) <= bytes[0] && IsTail(bytes[1..])
      && Joined(bytes[1..], bytes[0] - Lead(|bytes|)) == c as int
  {
    var bytes, p := Utf8(c), c as int;
    if |bytes| == 2 {
      assert bytes[1..] == [bytes[1]] && [bytes[1]][1..] == [];
    } else if |bytes| == 3 {
      assert bytes[1..] == [bytes[1], bytes[2]];
      JoinedTwo(bytes[1], bytes[2], bytes[0] - 0xE0);
      Digits(p);
    } else if |bytes| == 4 {
      assert bytes[1..] == [bytes[1], bytes[2], bytes[3]];
      JoinedThree(bytes[1], bytes[2], bytes[3], bytes[0] - 0xF0);
      Digits(p);
    }
  }

  lemma Digits(p: nat)
    ensures p == p / 64 * 64 + p % 64
    ensures p / 64 == p / 4096 * 64 + p / 64 % 64
    ensures p / 4096 == p / 262144 * 64 + p / 4096 % 64
  {
  }

  lemma ScalarReads(c: char, rest: string)
    ensures DecodeScalar(Percent(Utf8(c)) + rest) == Some((c, |Utf8(c)|))
  {
    var bytes := Utf8(c);
    FirstByte(bytes, rest);
    Utf8Payload(c);
    ContinueReads(bytes[1..], bytes[0] - Lead(|bytes|), rest);
  }

  /** One character's part of the encoding. */
  function Piece(c: char): string { ReplaceEach(if Unescaped(c) then [c] else Percent(Utf8(c))) }

  lemma {:induction false} ReplaceConcat(a: string, b: string)
    ensures ReplaceEach(a + b) == ReplaceEach(a) + ReplaceEach(b)
  {
    if a == "" {
      assert a + b == b;
    } else {
      assert (a + b)[1..] == a[1..] + b;
      ReplaceConcat(a[1..], b);
    }
  }

  lemma EncodeCons(s: string)
    requires s != ""
    ensures EncodeHashComponent(s) == Piece(s[0]) + EncodeHashComponent(s[1..])
  {
    ReplaceConcat(if Unescaped(s[0]) then [s[0]] else Percent(Utf8(s[0])), EncodeUriComponent(s[1..]));
  }

  /** Only the percent signs of an escaped byte are replaced. */
  lemma {:induction false} PercentPiece(bytes: seq<nat>)
    requires forall i :: 0 <= i < |bytes| ==> bytes[i] < 256
    ensures MapSeq(Undot, ReplaceEach(Percent(bytes))) == Percent(bytes)
    ensures forall i :: 0 <= i < |ReplaceEach(Percent(bytes))| ==> ReplaceEach(Percent(bytes))[i] == '.' || Plain(ReplaceEach(Percent(bytes))[i])
  {
    if bytes != [] {
      var a, b := Hex(bytes[0] / 16), Hex(bytes[0] % 16);
      HexRoundTrip(bytes[0]);
      PercentPiece(bytes[1..]);
      ReplaceConcat(['%', a, b], Percent(bytes[1..]));
      ThreeReplaced(a, b);
    }
  }

  lemma ReplaceOne(c: char)
    ensures ReplaceEach([c]) == Replacement(c)
  {
    assert [c][1..] == "" && Replacement(c) + "" == Replacement(c);
  }

  lemma ThreeReplaced(a: char, b: char)
    requires Plain(a) && Plain(b)
    ensures ReplaceEach(['%', a, b]) == ['.', a, b]
  {
    assert ['%', a, b][1..] == [a, b] && [a, b][1..] == [b];
    ReplaceOne(b);
    assert ReplaceEach([a, b]) == [a] + [b];
  }

  /** Undotted, a character's part is itself, or the percent-encoding of its octets. */
  lemma PieceUndotted(c: char)
    ensures MapSeq(Undot, Piece(c)) == if Plain(c) then [c] else Percent(Utf8(c))
    ensures forall i :: 0 <= i < |Piece(c)| ==> Piece(c)[i] == '.' || Plain(Piece(c)[i])
  {
    if Unescaped(c) {
      ReplaceOne(c);
      if !Plain(c) {
        assert Utf8(c) == [c as int] && Utf8(c)[1..] == [];
        assert Percent(Utf8(c)) == ['%', Hex(c as int / 16), Hex(c as int % 16)];
      }
    } else {
      PercentPiece(Utf8(c));
    }
  }

  lemma DecodePiece(c: char, rest: string)
    ensures DecodeUriComponent((if Plain(c) then [c] else Percent(Utf8(c))) + rest) == Prepend(c, DecodeUriComponent(rest))
  {
    if Plain(c) {
      assert ([c] + rest)[1..] == rest;
    } else {
      ScalarReads(c, rest);
      PercentLength(Utf8(c));
      FirstByte(Utf8(c), rest);
      assert (Percent(Utf8(c)) + rest)[3 * |Utf8(c)|..] == rest;
    }
  }

  lemma UndotConcat(a: string, b: string)
    ensures MapSeq(Undot, a + b) == MapSeq(Undot, a) + MapSeq(Undot, b)
  {
  }

  /** Reading an encoded component recovers the value, whatever scalar values it holds. */
  lemma {:induction false} HashComponentRoundTrip(s: string)
    ensures DecodeHashComponent(EncodeHashComponent(s)) == Some(s)
  {
    if s != "" {
      HashComponentRoundTrip(s[1..]);
      EncodeCons(s);
      PieceUndotted(s[0]);
      UndotConcat(Piece(s[0]), EncodeHashComponent(s[1..]));
      DecodePiece(s[0], MapSeq(Undot, EncodeHashComponent(s[1..])));
      assert [s[0]] + s[1..] == s;
    }
  }

  /** Different values have different encodings. */
  lemma EncodingIsInjective(a: string, b: string)
    requires EncodeHashComponent(a) == EncodeHashComponent(b)
    ensures a == b
  {
    HashComponentRoundTrip(a);
    HashComponentRoundTrip(b);
  }

  /** An encoding is letters, digits, hyphens, underscores, tildes and dots: no percent
      sign, and nothing that ends a path segment. */
  lemma {:induction false} EncodingAlphabet(s: string)
    ensures forall i :: 0 <= i < |EncodeHashComponent(s)| ==> EncodeHashComponent(s)[i] == '.' || Plain(EncodeHashComponent(s)[i])
    ensures '%' !in EncodeHashComponent(s) && '/' !in EncodeHashComponent(s)
  {
    if s != "" {
      EncodingAlphabet(s[1..]);
      EncodeCons(s);
      PieceUndotted(s[0]);
    }
  }

  function TopicPermalink(channel: string, topic: string, anchor: string): string {
    channel + "/topic/" + EncodeHashComponent(topic) + "/with/" + anchor
  }

  lemma CutAtSlash(e: string, f: string, x: string, y: string)
    requires e + "/" + x == f + "/" + y && '/' !in e && '/' !in f
    ensures e == f && x == y
  {
    var s := e + "/" + x;
    forall k | 0 <= k < |e| ensures s[k] != '/' { assert s[k] == e[k] && e[k] in e; }
    forall k | 0 <= k < |f| ensures s[k] != '/' { assert s[k] == f[k] && f[k] in f; }
    assert s[|e|] == '/' && s[|f|] == '/';
    assert s[..|e|] == e && (f + "/" + y)[..|f|] == f;
    assert s[|e| + 1..] == x && (f + "/" + y)[|f| + 1..] == y;
  }

  /** No two threads of a channel, and no two anchors in one, share a link: the topic
      cannot run into the part that follows it. */
  lemma TopicLinkNamesOneThread(channel: string, s: string, t: string, a: string, b: string)
    requires TopicPermalink(channel, s, a) == TopicPermalink(channel, t, b)
    ensures s == t && a == b
  {
    EncodingAlphabet(s);
    EncodingAlphabet(t);
    var front := channel + "/topic/";
    var x, y := EncodeHashComponent(s) + "/" + ("with/" + a), EncodeHashComponent(t) + "/" + ("with/" + b);
    assert TopicPermalink(channel, s, a) == front + x && TopicPermalink(channel, t, b) == front + y;
    assert (front + x)[|front|..] == x && (front + y)[|front|..] == y;
    CutAtSlash(EncodeHashComponent(s), EncodeHashComponent(t), "with/" + a, "with/" + b);
    assert ("with/" + a)[5..] == a && ("with/" + b)[5..] == b;
    EncodingIsInjective(s, t);
  }

  predicate LinkHas(link: string, channel: string, segment: string, topic: string, anchor: string) {
    link == channel + "/topic/" + segment + "/with/" + anchor && '/' !in segment && DecodeHashComponent(segment) == Some(topic)
  }

  /** What a reader of a topic link finds in it: after the channel's link the topic, encoded in
      one segment that decodes to it, and the anchor. */
  lemma TopicLinkReadsBack(channel: string, topic: string, anchor: string)
    ensures exists segment :: LinkHas(TopicPermalink(channel, topic, anchor), channel, segment, topic, anchor)
  {
    var segment := EncodeHashComponent(topic);
    EncodingAlphabet(topic);
    HashComponentRoundTrip(topic);
    assert LinkHas(TopicPermalink(channel, topic, anchor), channel, segment, topic, anchor);
  }
}
