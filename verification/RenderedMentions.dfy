/** Mention spans: what the realm renders into a body (packages/zulip/in-process-realm.ts)
    and what the adapter reads back out of the html (packages/zulip/rendered-mentions.ts). */
module RenderedMentions {
  import opened Core
  import opened HtmlText

  // ---- character classes of the scanner's patterns ----

  predicate IsDigit(c: char) { '0' <= c <= '9' }
  predicate IsWord(c: char) { IsDigit(c) || 'a' <= c <= 'z' || 'A' <= c <= 'Z' || c == '_' }
  predicate IsName(c: char) { IsWord(c) || c == '-' }

  /** How far a run of characters satisfying `p` reaches. */
  function RunOf(p: char -> bool, s: string): (n: nat)
    ensures n <= |s| && (forall i :: 0 <= i < n ==> p(s[i])) && (n < |s| ==> !p(s[n]))
  {
    if s == "" || !p(s[0]) then 0 else
    var n := 1 + RunOf(p, s[1..]);
    assert forall i :: 1 <= i < n ==> p(s[1..][i - 1]) && s[1..][i - 1] == s[i];
    n
  }

  function Not(stop: char): char -> bool { (c: char) => c != stop }

  lemma RunEnds(p: char -> bool, u: string, rest: string)
    requires (forall i :: 0 <= i < |u| ==> p(u[i])) && (rest == "" || !p(rest[0]))
    ensures RunOf(p, u + rest) == |u|
  {
    assert forall i :: 0 <= i < |u| ==> (u + rest)[i] == u[i];
    assert rest != "" ==> (u + rest)[|u|] == rest[0];
  }

  // ---- the scanner ----

  datatype SpanTag = SpanTag(attributes: string, text: string)

  /** `rendered.matchAll(/<span\b([^>]*)>([^<]*)/g)`. */
  function SpanTags(s: string): seq<SpanTag>
    decreases |s|
  {
    if |s| < 5 then []
    else if s[..5] == "<span" && (|s| == 5 || !IsWord(s[5])) && RunOf(Not('>'), s[5..]) < |s| - 5 then
      var close := 5 + RunOf(Not('>'), s[5..]);
      var rest := s[close + 1..];
      var n := RunOf(Not('<'), rest);
      [SpanTag(s[5..close], rest[..n])] + SpanTags(rest[n..])
    else SpanTags(s[1..])
  }

  datatype Match = Match(name: string, value: string, end: nat)

  /** One match of `([\w-]+)\s*=\s*"([^"]*)"` at the start of `s`. */
  function AttributeAt(s: string): (m: Option<Match>)
    ensures m.Some? ==> 0 < m.value.end <= |s|
  {
    AfterName(s, RunOf(IsName, s))
  }

  function AfterName(s: string, n: nat): (m: Option<Match>)
    requires n <= |s|
    ensures m.Some? ==> 0 < m.value.end <= |s|
  {
    var eq := n + RunOf(IsSpace, s[n..]);
    if n == 0 || eq == |s| || s[eq] != '=' then None else AfterEquals(s, n, eq)
  }

  function AfterEquals(s: string, n: nat, eq: nat): (m: Option<Match>)
    requires n <= eq < |s|
    ensures m.Some? ==> 0 < m.value.end <= |s|
  {
    var open := eq + 1 + RunOf(IsSpace, s[eq + 1..]);
    if open == |s| || s[open] != '"' then None else AfterQuote(s, n, open)
  }

  function AfterQuote(s: string, n: nat, open: nat): (m: Option<Match>)
    requires n <= open < |s|
    ensures m.Some? ==> 0 < m.value.end <= |s|
  {
    var close := open + 1 + RunOf(Not('"'), s[open + 1..]);
    if close == |s| then None else Some(Match(s[..n], s[open + 1..close], close + 1))
  }

  /** `attributesOf`: a later attribute of the same name wins. */
  function AttributesOf(s: string): map<string, string>
    decreases |s|
  {
    if s == "" then map[] else
    match AttributeAt(s)
    case Some(m) => map[m.name := m.value] + AttributesOf(s[m.end..])
    case None => AttributesOf(s[1..])
  }

  /** `value.split(/\s+/)`, as the set the scanner makes of it. */
  function Classes(s: string): set<string>
    decreases |s|
  {
    var n := RunOf((c: char) => !IsSpace(c), s);
    if n == |s| then {s} else {s[..n]} + Classes(s[n + RunOf(IsSpace, s[n..])..])
  }

  /** `Number(text)` of a decimal numeral; nothing for anything else. */
  function NumberOf(s: string): Option<nat> {
    if s == "" || exists i :: 0 <= i < |s| && !IsDigit(s[i]) then None else Some(Decimal(s))
  }

  function Decimal(s: string): nat
    requires forall i :: 0 <= i < |s| ==> IsDigit(s[i])
  {
    if s == "" then 0 else
    assert IsDigit(s[|s| - 1]);
    Decimal(s[..|s| - 1]) * 10 + (s[|s| - 1] as int - '0' as int)
  }

  datatype MentionSpan =
    | UserSpan(userId: Option<nat>)
    | GroupSpan(name: string)
    | ChannelWildcardSpan
    | TopicWildcardSpan

  function WithoutSigil(text: string): string {
    var plain := UnescapeText(text);
    if plain != "" && plain[0] == '@' then plain[1..] else plain
  }

  const SILENT := "silent"
  const TOPIC_WILDCARD := "topic-mention"
  const CHANNEL_WILDCARD := "channel-wildcard-mention"
  const GROUP := "user-group-mention"
  const USER := "user-mention"
  const CLASS := "class"
  const USER_ID := "data-user-id"

  /** The wildcard checks come before the user check, whose class they stack on. */
  function ByClass(classes: set<string>, userId: Option<nat>, text: string): Option<MentionSpan> {
    if SILENT in classes then None
    else if TOPIC_WILDCARD in classes then Some(TopicWildcardSpan)
    else if CHANNEL_WILDCARD in classes then Some(ChannelWildcardSpan)
    else if GROUP in classes then Some(GroupSpan(WithoutSigil(text)))
    else if USER in classes then Some(UserSpan(userId))
    else None
  }

  function ClassifySpan(attributes: map<string, string>, text: string): Option<MentionSpan> {
    ByClass(Classes(if CLASS in attributes then attributes[CLASS] else ""),
            if USER_ID in attributes then NumberOf(attributes[USER_ID]) else None, text)
  }

  function One(span: Option<MentionSpan>): seq<MentionSpan> {
    match span
    case Some(s) => [s]
    case None => []
  }

  function Classified(tags: seq<SpanTag>): seq<MentionSpan> {
    if tags == [] then [] else
    One(ClassifySpan(AttributesOf(tags[0].attributes), tags[0].text)) + Classified(tags[1..])
  }

  function MentionSpans(rendered: string): seq<MentionSpan> { Classified(SpanTags(rendered)) }

  function UserIds(spans: seq<MentionSpan>): set<nat> {
    set s | s in spans && s.UserSpan? && s.userId.Some? :: s.userId.value
  }

  function MentionedUserIds(rendered: string): set<nat> { UserIds(MentionSpans(rendered)) }

  // ---- the renderer ----

  datatype RealmUser = RealmUser(userId: nat, fullName: string, isActive: bool)

  /** A body as the renderer splits it: code, plain text, and mention tokens with the
      whole source text each was written as. */
  datatype Token =
    | Code(body: string)
    | Text(text: string)
    | MentionToken(whole: string, silent: bool, token: string)

  type Lookup = string -> Option<RealmUser>

  const CHANNEL_WILDCARDS: set<string> := {"all", "everyone", "stream", "channel"}

  function DigitsOf(n: nat): string {
    (if n < 10 then "" else DigitsOf(n / 10)) + [('0' as int + n % 10) as char]
  }

  function Attr(name: string, value: string): string { " " + name + "=\"" + value + "\"" }

  function SpanHtml(attributes: string, text: string): string { "<span" + attributes + ">" + text + "</span>" }

  /** What a mention token notifies: nothing, an audience, or one user. */
  function Notifies(lookup: Lookup, silent: bool, token: string): Option<MentionSpan> {
    if !silent && token in CHANNEL_WILDCARDS then Some(ChannelWildcardSpan)
    else if !silent && token == "topic" then Some(TopicWildcardSpan)
    else match lookup(token)
      case None => None
      case Some(u) => if silent || !u.isActive then None else Some(UserSpan(Some(u.userId)))
  }

  function UserHtml(classes: string, id: string, text: string): string {
    SpanHtml(Attr(CLASS, classes) + Attr(USER_ID, id), text)
  }

  function RenderMention(lookup: Lookup, whole: string, silent: bool, token: string): string {
    if !silent && token in CHANNEL_WILDCARDS then UserHtml(USER + " " + CHANNEL_WILDCARD, "*", "@" + EscapeHtml(token))
    else if !silent && token == "topic" then SpanHtml(Attr(CLASS, TOPIC_WILDCARD), "@" + EscapeHtml(token))
    else match lookup(token)
      case None => EscapeHtml(whole)
      case Some(u) =>
        if silent || !u.isActive then UserHtml(USER + " " + SILENT, DigitsOf(u.userId), EscapeHtml(u.fullName))
        else UserHtml(USER, DigitsOf(u.userId), "@" + EscapeHtml(u.fullName))
  }

  function TokenHtml(lookup: Lookup, t: Token): string {
    match t
    case Code(body) => "<code>" + EscapeHtml(body) + "</code>"
    case Text(text) => EscapeHtml(text)
    case MentionToken(whole, silent, token) => RenderMention(lookup, whole, silent, token)
  }

  function BodyHtml(lookup: Lookup, tokens: seq<Token>): string {
    if tokens == [] then "" else TokenHtml(lookup, tokens[0]) + BodyHtml(lookup, tokens[1..])
  }

  function Html(lookup: Lookup, tokens: seq<Token>): string { "<p>" + BodyHtml(lookup, tokens) + "</p>" }

  function TokenSpans(lookup: Lookup, t: Token): seq<MentionSpan> {
    if t.MentionToken? then One(Notifies(lookup, t.silent, t.token)) else []
  }

  /** The notifying mentions of a body, in order. */
  function Notified(lookup: Lookup, tokens: seq<Token>): seq<MentionSpan> {
    if tokens == [] then [] else TokenSpans(lookup, tokens[0]) + Notified(lookup, tokens[1..])
  }

  /** The first `i` tokens of a body have been rendered. */
  ghost predicate RenderedTo(lookup: Lookup, tokens: seq<Token>, i: nat, body: string, mentioned: set<nat>) {
    && i <= |tokens|
    && body + BodyHtml(lookup, tokens[i..]) == BodyHtml(lookup, tokens)
    && mentioned + UserIds(Notified(lookup, tokens[i..])) == UserIds(Notified(lookup, tokens))
  }

  /** The renderer's loop over a body, with the set of users it notifies by name. */
  method Render(lookup: Lookup, tokens: seq<Token>) returns (html: string, mentioned: set<nat>)
    ensures html == Html(lookup, tokens)
    ensures mentioned == UserIds(Notified(lookup, tokens))
  {
    var body := "";
    mentioned := {};
    for i := 0 to |tokens|
      invariant RenderedTo(lookup, tokens, i, body, mentioned)
    {
      var part, user := RenderToken(lookup, tokens[i]);
      TokenDone(lookup, tokens, i, body, mentioned, user);
      body := body + part;
      if user.Some? { mentioned := mentioned + {user.value}; }
    }
    assert tokens[|tokens|..] == [];
    html := "<p>" + body + "</p>";
  }

  method RenderToken(lookup: Lookup, t: Token) returns (html: string, user: Option<nat>)
    ensures html == TokenHtml(lookup, t)
    ensures UserIds(TokenSpans(lookup, t)) == if user.Some? then {user.value} else {}
  {
    html, user := TokenHtml(lookup, t), None;
    if t.MentionToken? {
      var notified := Notifies(lookup, t.silent, t.token);
      if notified.Some? && notified.value.UserSpan? { user := notified.value.userId; }
    }
  }

  lemma TokenDone(lookup: Lookup, tokens: seq<Token>, i: nat, body: string, mentioned: set<nat>, user: Option<nat>)
    requires i < |tokens| && RenderedTo(lookup, tokens, i, body, mentioned)
    requires UserIds(TokenSpans(lookup, tokens[i])) == if user.Some? then {user.value} else {}
    ensures RenderedTo(lookup, tokens, i + 1, body + TokenHtml(lookup, tokens[i]),
                       if user.Some? then mentioned + {user.value} else mentioned)
  {
    assert tokens[i..][0] == tokens[i] && tokens[i..][1..] == tokens[i + 1..];
    UserIdsConcat(TokenSpans(lookup, tokens[i]), Notified(lookup, tokens[i + 1..]));
    assert body + (TokenHtml(lookup, tokens[i]) + BodyHtml(lookup, tokens[i + 1..]))
        == (body + TokenHtml(lookup, tokens[i])) + BodyHtml(lookup, tokens[i + 1..]);
  }

  lemma UserIdsConcat(a: seq<MentionSpan>, b: seq<MentionSpan>)
    ensures UserIds(a + b) == UserIds(a) + UserIds(b)
  {
    assert forall s :: s in a + b <==> s in a || s in b;
  }

  // ---- scanning what was rendered ----

  predicate Lacks(s: string, c: char) { forall i :: 0 <= i < |s| ==> s[i] != c }

  /** Text with no `<` in it holds no span. */
  lemma {:induction false} ScanSkips(u: string, rest: string)
    requires Lacks(u, '<')
    ensures SpanTags(u + rest) == SpanTags(rest)
  {
    if u == "" {
      assert u + rest == rest;
    } else {
      ScanSkips(u[1..], rest);
      assert (u + rest)[1..] == u[1..] + rest && (u + rest)[0] == u[0];
      if |u + rest| < 5 { ShortHasNoSpan(u[1..] + rest); }
    }
  }

  lemma ShortHasNoSpan(s: string)
    requires |s| < 5
    ensures SpanTags(s) == []
  {
  }

  /** Nor does a tag that does not begin like one. */
  lemma ScanSkipsTag(tag: string, rest: string)
    requires |tag| > 1 && tag[0] == '<' && tag[1] != 's' && Lacks(tag[1..], '<')
    ensures SpanTags(tag + rest) == SpanTags(rest)
  {
    var s := tag + rest;
    assert s[1] == tag[1] && s[1..] == tag[1..] + rest;
    if |s| >= 5 { assert s[..5][1] == tag[1]; }
    ScanSkips(tag[1..], rest);
    if |s| < 5 { ShortHasNoSpan(rest); }
  }

  lemma Slices(a: string, b: string, c: string)
    ensures var s := a + b + c;
      s[..|a|] == a && s[|a|..|a| + |b|] == b && s[|a|..] == b + c && s[|a| + |b|..] == c
  {
  }

  lemma TakesSpanAt(s: string, attributes: string, text: string, tail: string)
    requires s == "<span" + attributes + (">" + (text + tail)) && tail != "" && tail[0] == '<'
    requires attributes != "" && attributes[0] == ' ' && Lacks(attributes, '>') && Lacks(text, '<')
    ensures SpanTags(s) == [SpanTag(attributes, text)] + SpanTags(tail)
  {
    var body := text + tail;
    var close := 5 + |attributes|;
    Slices("<span", attributes, ">" + body);
    assert s[5] == s[5..][0] == ' ';
    RunEnds(Not('>'), attributes, ">" + body);
    assert s[close + 1..] == s[close..][1..] == body;
    Slices("", text, tail);
    assert "" + text + tail == body;
    RunEnds(Not('<'), text, tail);
  }

  /** A span the renderer wrote is read back as written, and the scan goes on after it. */
  lemma ScanTakesSpan(attributes: string, text: string, rest: string)
    requires attributes != "" && attributes[0] == ' ' && Lacks(attributes, '>') && Lacks(text, '<')
    ensures SpanTags(SpanHtml(attributes, text) + rest) == [SpanTag(attributes, text)] + SpanTags(rest)
  {
    var tail := "</span>" + rest;
    SpanRegroup("<span", attributes, ">", text, "</span>", rest);
    TakesSpanAt(SpanHtml(attributes, text) + rest, attributes, text, tail);
    CloseSpan(rest);
  }

  lemma SpanRegroup(open: string, a: string, end: string, t: string, close: string, rest: string)
    ensures open + a + end + t + close + rest == open + a + (end + (t + (close + rest)))
  {
  }

  lemma CloseSpan(rest: string)
    ensures SpanTags("</span>" + rest) == SpanTags(rest)
  {
    ScanSkipsTag("</span>", rest);
  }

  // ---- reading attributes ----

  lemma RunIs(p: char -> bool, s: string, n: nat)
    requires n <= |s| && (forall i :: 0 <= i < n ==> p(s[i])) && (n < |s| ==> !p(s[n]))
    ensures RunOf(p, s) == n
  {
  }

  lemma AttributeShape(s: string, n: nat, v: nat)
    requires 0 < n && n + 2 + v < |s| && (forall i :: 0 <= i < n ==> IsName(s[i]))
    requires s[n] == '=' && s[n + 1] == '"' && Lacks(s[n + 2..n + 2 + v], '"') && s[n + 2 + v] == '"'
    ensures AttributeAt(s) == Some(Match(s[..n], s[n + 2..n + 2 + v], n + v + 3))
  {
    RunIs(IsName, s, n);
    AttributeOfRun(s, n, v);
  }

  lemma AttributeOfRun(s: string, n: nat, v: nat)
    requires 0 < n && n + 2 + v < |s| && RunOf(IsName, s) == n
    requires s[n] == '=' && s[n + 1] == '"' && Lacks(s[n + 2..n + 2 + v], '"') && s[n + 2 + v] == '"'
    ensures AttributeAt(s) == Some(Match(s[..n], s[n + 2..n + 2 + v], n + v + 3))
  {
    HeadEnds(s, n);
    QuoteEnds(s, n, n + 1, v);
  }

  lemma HeadEnds(s: string, n: nat)
    requires 0 < n && n + 1 < |s| && RunOf(IsName, s) == n && s[n] == '=' && s[n + 1] == '"'
    ensures AttributeAt(s) == AfterQuote(s, n, n + 1)
  {
    NameEnds(s, n);
    EqualsEnds(s, n);
  }

  lemma QuoteEnds(s: string, n: nat, open: nat, v: nat)
    requires n <= open && open + 1 + v < |s| && Lacks(s[open + 1..open + 1 + v], '"') && s[open + 1 + v] == '"'
    ensures AfterQuote(s, n, open) == Some(Match(s[..n], s[open + 1..open + 1 + v], open + v + 2))
  {
    QuotedRun(s, open + 1, v);
  }

  lemma NoRun(p: char -> bool, s: string, k: nat)
    requires k < |s| && !p(s[k])
    ensures RunOf(p, s[k..]) == 0
  {
    assert s[k..][0] == s[k];
  }

  lemma NameEnds(s: string, n: nat)
    requires 0 < n < |s| && s[n] == '='
    ensures AfterName(s, n) == AfterEquals(s, n, n)
  {
    NoRun(IsSpace, s, n);
  }

  lemma EqualsEnds(s: string, n: nat)
    requires n + 1 < |s| && s[n + 1] == '"'
    ensures AfterEquals(s, n, n) == AfterQuote(s, n, n + 1)
  {
    NoRun(IsSpace, s, n + 1);
  }

  lemma QuotedRun(s: string, from: nat, v: nat)
    requires from + v < |s| && Lacks(s[from..from + v], '"') && s[from + v] == '"'
    ensures RunOf(Not('"'), s[from..]) == v
  {
    var tail := s[from..];
    forall i | 0 <= i < v ensures tail[i] != '"' { assert tail[i] == s[from..from + v][i]; }
    RunIs(Not('"'), tail, v);
  }

  /** `s` is `name="value"` followed by `rest`. */
  ghost predicate Written(s: string, name: string, value: string, rest: string) {
    var n, v := |name|, |value|;
    && |s| == n + v + 3 + |rest| && s[..n] == name && s[n] == '=' && s[n + 1] == '"'
    && s[n + 2..n + 2 + v] == value && s[n + 2 + v] == '"' && s[n + v + 3..] == rest
  }

  lemma SkipsSpace(written: string)
    ensures AttributesOf(" " + written) == AttributesOf(written)
  {
    var s := " " + written;
    assert s[1..] == written;
    RunIs(IsName, s, 0);
  }

  lemma TakesMatch(s: string, m: Match, rest: string)
    requires s != "" && AttributeAt(s) == Some(m) && s[m.end..] == rest
    ensures AttributesOf(s) == map[m.name := m.value] + AttributesOf(rest)
  {
  }

  lemma ReadsWritten(s: string, name: string, value: string, rest: string)
    requires name != "" && (forall i :: 0 <= i < |name| ==> IsName(name[i])) && Lacks(value, '"')
    requires Written(s, name, value, rest)
    ensures AttributesOf(s) == map[name := value] + AttributesOf(rest)
  {
    var m := Match(name, value, |name| + |value| + 3);
    MatchesWritten(s, name, value, rest);
    TakesMatch(s, m, rest);
  }

  lemma MatchesWritten(s: string, name: string, value: string, rest: string)
    requires name != "" && (forall i :: 0 <= i < |name| ==> IsName(name[i])) && Lacks(value, '"')
    requires Written(s, name, value, rest)
    ensures AttributeAt(s) == Some(Match(name, value, |name| + |value| + 3))
  {
    assert forall i :: 0 <= i < |name| ==> s[i] == s[..|name|][i];
    AttributeShape(s, |name|, |value|);
  }

  lemma AttrIsWritten(name: string, value: string, rest: string) returns (written: string)
    ensures Attr(name, value) + rest == " " + written && Written(written, name, value, rest)
  {
    written := name + "=\"" + value + "\"" + rest;
  }

  lemma ReadsAttribute(name: string, value: string, rest: string)
    requires name != "" && (forall i :: 0 <= i < |name| ==> IsName(name[i])) && Lacks(value, '"')
    ensures AttributesOf(Attr(name, value) + rest) == map[name := value] + AttributesOf(rest)
  {
    var written := AttrIsWritten(name, value, rest);
    SkipsSpace(written);
    ReadsWritten(written, name, value, rest);
  }

  lemma {:induction false} DigitsRoundTrip(n: nat)
    ensures DigitsOf(n) != "" && (forall i :: 0 <= i < |DigitsOf(n)| ==> IsDigit(DigitsOf(n)[i]))
    ensures NumberOf(DigitsOf(n)) == Some(n)
  {
    var head := if n < 10 then "" else DigitsOf(n / 10);
    var last := ('0' as int + n % 10) as char;
    if n >= 10 { DigitsRoundTrip(n / 10); }
    assert DigitsOf(n) == head + [last] && IsDigit(last);
    DecimalSnoc(head, last);
    assert n / 10 * 10 + n % 10 == n;
  }

  lemma DecimalSnoc(head: string, last: char)
    requires IsDigit(last) && forall i :: 0 <= i < |head| ==> IsDigit(head[i])
    ensures Decimal(head + [last]) == Decimal(head) * 10 + (last as int - '0' as int)
  {
    assert (head + [last])[..|head|] == head;
  }

  lemma ClassPair(a: string, b: string)
    requires a != "" && b != "" && (forall i :: 0 <= i < |a| ==> !IsSpace(a[i])) && (forall i :: 0 <= i < |b| ==> !IsSpace(b[i]))
    ensures Classes(a) == {a} && Classes(a + " " + b) == {a, b}
  {
    var p := (c: char) => !IsSpace(c);
    var s := a + " " + b;
    assert a + "" == a && b + "" == b;
    RunEnds(p, a, "");
    RunEnds(p, b, "");
    assert s == a + (" " + b);
    RunEnds(p, a, " " + b);
    assert s[..|a|] == a && s[|a|..] == " " + b;
    RunEnds(IsSpace, " ", b);
    assert s[|a| + 1..] == b;
  }

  // ---- what each rendered span reads back as ----

  lemma {:induction false} ClassAlone(a: string)
    requires forall i :: 0 <= i < |a| ==> !IsSpace(a[i])
    ensures Classes(a) == {a}
  {
    RunIs((c: char) => !IsSpace(c), a, |a|);
  }

  predicate IsWordOfClass(w: string) {
    w != "" && forall i :: 0 <= i < |w| ==> !IsSpace(w[i]) && w[i] != '"' && w[i] != '>'
  }

  lemma ClassWords()
    ensures IsWordOfClass(SILENT) && IsWordOfClass(TOPIC_WILDCARD) && IsWordOfClass(CHANNEL_WILDCARD) && IsWordOfClass(USER)
    ensures |SILENT| == 6 && |TOPIC_WILDCARD| == 13 && |CHANNEL_WILDCARD| == 24 && |GROUP| == 18 && |USER| == 12
  {
  }

  lemma AttributeNames()
    ensures CLASS != "" && USER_ID != "" && CLASS != USER_ID
    ensures forall i :: 0 <= i < |CLASS| ==> IsName(CLASS[i])
    ensures forall i :: 0 <= i < |USER_ID| ==> IsName(USER_ID[i])
  {
  }

  lemma OneAttribute(name: string, value: string)
    requires name != "" && (forall i :: 0 <= i < |name| ==> IsName(name[i])) && Lacks(value, '"')
    ensures AttributesOf(Attr(name, value)) == map[name := value]
  {
    assert Attr(name, value) + "" == Attr(name, value);
    ReadsAttribute(name, value, "");
  }

  lemma TwoAttributes(a: string, x: string, b: string, y: string)
    requires a != "" && b != "" && a != b && Lacks(x, '"') && Lacks(y, '"')
    requires (forall i :: 0 <= i < |a| ==> IsName(a[i])) && (forall i :: 0 <= i < |b| ==> IsName(b[i]))
    ensures AttributesOf(Attr(a, x) + Attr(b, y)) == map[a := x, b := y]
  {
    OneAttribute(b, y);
    ReadsAttribute(a, x, Attr(b, y));
  }

  /** A user span of the renderer's, classified by its classes and its id. */
  lemma UserSpanClass(classes: string, id: string, text: string)
    requires Lacks(classes, '"') && Lacks(id, '"')
    ensures ClassifySpan(AttributesOf(Attr(CLASS, classes) + Attr(USER_ID, id)), text)
      == ByClass(Classes(classes), NumberOf(id), text)
  {
    AttributeNames();
    TwoAttributes(CLASS, classes, USER_ID, id);
  }

  lemma TopicReadsBack(text: string)
    ensures ClassifySpan(AttributesOf(Attr(CLASS, TOPIC_WILDCARD)), text) == Some(TopicWildcardSpan)
  {
    AttributeNames();
    ClassWords();
    OneAttribute(CLASS, TOPIC_WILDCARD);
    ClassAlone(TOPIC_WILDCARD);
    assert SILENT !in {TOPIC_WILDCARD};
  }

  lemma ClassOutcomes(userId: Option<nat>, text: string)
    ensures ByClass({USER, CHANNEL_WILDCARD}, userId, text) == Some(ChannelWildcardSpan)
    ensures ByClass({USER, SILENT}, userId, text) == None
    ensures ByClass({USER}, userId, text) == Some(UserSpan(userId))
  {
    ClassWords();
  }

  lemma UserClasses(extra: string)
    requires extra == "" || IsWordOfClass(extra)
    ensures var classes := if extra == "" then USER else USER + " " + extra;
      && Lacks(classes, '"') && Lacks(classes, '>')
      && Classes(classes) == if extra == "" then {USER} else {USER, extra}
  {
    ClassWords();
    if extra == "" { ClassAlone(USER); } else { WordPair(USER, extra); }
  }

  lemma WordPair(a: string, b: string)
    requires IsWordOfClass(a) && IsWordOfClass(b)
    ensures var classes := a + " " + b; Lacks(classes, '"') && Lacks(classes, '>') && Classes(classes) == {a, b}
  {
    PairLacks(a, b, '"');
    PairLacks(a, b, '>');
    ClassPair(a, b);
  }

  lemma PairLacks(a: string, b: string, c: char)
    requires Lacks(a, c) && Lacks(b, c) && c != ' '
    ensures Lacks(a + " " + b, c)
  {
  }

  lemma UserHtmlByClass(classes: string, id: string, text: string, rest: string)
    requires Lacks(classes, '"') && Lacks(classes, '>') && Lacks(id, '"') && Lacks(id, '>') && Lacks(text, '<')
    ensures MentionSpans(UserHtml(classes, id, text) + rest)
      == One(ByClass(Classes(classes), NumberOf(id), text)) + MentionSpans(rest)
  {
    UserSpanClass(classes, id, text);
    AttrLacks(CLASS, classes);
    AttrLacks(USER_ID, id);
    SpanReadsBack(Attr(CLASS, classes) + Attr(USER_ID, id), text, rest);
  }

  /** What a rendered user span reads back as, from its class words and id. */
  lemma UserHtmlReadsBack(extra: string, id: string, text: string, rest: string)
    requires (extra == "" || IsWordOfClass(extra)) && Lacks(id, '"') && Lacks(id, '>') && Lacks(text, '<')
    ensures MentionSpans(UserHtml(if extra == "" then USER else USER + " " + extra, id, text) + rest)
      == One(ByClass(if extra == "" then {USER} else {USER, extra}, NumberOf(id), text)) + MentionSpans(rest)
  {
    UserClasses(extra);
    UserHtmlByClass(if extra == "" then USER else USER + " " + extra, id, text, rest);
  }

  lemma AttrLacks(name: string, value: string)
    requires name == CLASS || name == USER_ID
    requires Lacks(value, '>')
    ensures Lacks(Attr(name, value), '>') && Attr(name, value) != "" && Attr(name, value)[0] == ' '
  {
    AttributeNames();
    assert Lacks(name, '>');
  }

  lemma SpanReadsBack(attributes: string, text: string, rest: string)
    requires attributes != "" && attributes[0] == ' ' && Lacks(attributes, '>') && Lacks(text, '<')
    ensures MentionSpans(SpanHtml(attributes, text) + rest)
      == One(ClassifySpan(AttributesOf(attributes), text)) + MentionSpans(rest)
  {
    ScanTakesSpan(attributes, text, rest);
    ClassifiedFirst(SpanTag(attributes, text), SpanTags(rest));
  }

  lemma ClassifiedFirst(tag: SpanTag, tags: seq<SpanTag>)
    ensures Classified([tag] + tags) == One(ClassifySpan(AttributesOf(tag.attributes), tag.text)) + Classified(tags)
  {
    assert ([tag] + tags)[1..] == tags;
  }

  // ---- agreement ----

  lemma CodeReadsBack(body: string, rest: string)
    ensures SpanTags("<code>" + EscapeHtml(body) + "</code>" + rest) == SpanTags(rest)
  {
    EscapedIsInert(body);
    CodeSkipped(EscapeHtml(body), rest);
  }

  lemma Regroup(a: string, b: string, c: string, d: string)
    ensures a + b + c + d == a + (b + (c + d))
  {
  }

  lemma CodeSkipped(text: string, rest: string)
    requires Lacks(text, '<')
    ensures SpanTags("<code>" + text + "</code>" + rest) == SpanTags(rest)
  {
    var close := "</code>" + rest;
    Regroup("<code>", text, "</code>", rest);
    OpenCode(text + close);
    ScanSkips(text, close);
    CloseCode(rest);
  }

  lemma CloseCode(rest: string)
    ensures SpanTags("</code>" + rest) == SpanTags(rest)
  {
    ScanSkipsTag("</code>", rest);
  }

  lemma OpenCode(rest: string)
    ensures SpanTags("<code>" + rest) == SpanTags(rest)
  {
    ScanSkipsTag("<code>", rest);
  }

  /** One token's html contributes exactly the spans the token notifies. */
  lemma TokenReadsBack(lookup: Lookup, t: Token, rest: string)
    ensures MentionSpans(TokenHtml(lookup, t) + rest) == TokenSpans(lookup, t) + MentionSpans(rest)
  {
    match t
    case Text(text) => EscapedIsInert(text); ScanSkips(EscapeHtml(text), rest);
    case Code(body) => CodeReadsBack(body, rest);
    case MentionToken(whole, silent, token) => MentionReadsBack(lookup, whole, silent, token, rest);
  }

  lemma MentionReadsBack(lookup: Lookup, whole: string, silent: bool, token: string, rest: string)
    ensures MentionSpans(RenderMention(lookup, whole, silent, token) + rest)
      == One(Notifies(lookup, silent, token)) + MentionSpans(rest)
  {
    if !silent && token in CHANNEL_WILDCARDS {
      WildcardReadsBack(token, rest);
    } else if !silent && token == "topic" {
      TopicTokenReadsBack(token, rest);
    } else {
      match lookup(token)
      case None => EscapedIsInert(whole); ScanSkips(EscapeHtml(whole), rest);
      case Some(u) => if silent || !u.isActive { SilentReadsBack(u, rest); } else { UserReadsBack(u, rest); }
    }
  }

  lemma WildcardReadsBack(token: string, rest: string)
    ensures MentionSpans(UserHtml(USER + " " + CHANNEL_WILDCARD, "*", "@" + EscapeHtml(token)) + rest)
      == [ChannelWildcardSpan] + MentionSpans(rest)
  {
    EscapedIsInert(token);
    ClassWords();
    ClassOutcomes(NumberOf("*"), "@" + EscapeHtml(token));
    UserHtmlReadsBack(CHANNEL_WILDCARD, "*", "@" + EscapeHtml(token), rest);
  }

  lemma TopicTokenReadsBack(token: string, rest: string)
    ensures MentionSpans(SpanHtml(Attr(CLASS, TOPIC_WILDCARD), "@" + EscapeHtml(token)) + rest)
      == [TopicWildcardSpan] + MentionSpans(rest)
  {
    EscapedIsInert(token);
    TopicSpanReadsBack("@" + EscapeHtml(token), rest);
  }

  lemma TopicSpanReadsBack(text: string, rest: string)
    requires Lacks(text, '<')
    ensures MentionSpans(SpanHtml(Attr(CLASS, TOPIC_WILDCARD), text) + rest) == [TopicWildcardSpan] + MentionSpans(rest)
  {
    ClassWords();
    AttrLacks(CLASS, TOPIC_WILDCARD);
    TopicReadsBack(text);
    SpanReadsBack(Attr(CLASS, TOPIC_WILDCARD), text, rest);
  }

  lemma SilentReadsBack(u: RealmUser, rest: string)
    ensures MentionSpans(UserHtml(USER + " " + SILENT, DigitsOf(u.userId), EscapeHtml(u.fullName)) + rest) == MentionSpans(rest)
  {
    EscapedIsInert(u.fullName);
    DigitsRoundTrip(u.userId);
    ClassWords();
    ClassOutcomes(Some(u.userId), EscapeHtml(u.fullName));
    UserHtmlReadsBack(SILENT, DigitsOf(u.userId), EscapeHtml(u.fullName), rest);
  }

  lemma UserReadsBack(u: RealmUser, rest: string)
    ensures MentionSpans(UserHtml(USER, DigitsOf(u.userId), "@" + EscapeHtml(u.fullName)) + rest)
      == [UserSpan(Some(u.userId))] + MentionSpans(rest)
  {
    EscapedIsInert(u.fullName);
    DigitsRoundTrip(u.userId);
    ClassOutcomes(Some(u.userId), "@" + EscapeHtml(u.fullName));
    UserHtmlReadsBack("", DigitsOf(u.userId), "@" + EscapeHtml(u.fullName), rest);
  }

  lemma {:induction false} BodyReadsBack(lookup: Lookup, tokens: seq<Token>)
    ensures MentionSpans(BodyHtml(lookup, tokens) + "</p>") == Notified(lookup, tokens)
  {
    if tokens == [] {
      assert "" + "</p>" == "</p>" + "";
      ScanSkipsTag("</p>", "");
    } else {
      var rest := BodyHtml(lookup, tokens[1..]) + "</p>";
      assert BodyHtml(lookup, tokens) + "</p>" == TokenHtml(lookup, tokens[0]) + rest;
      TokenReadsBack(lookup, tokens[0], rest);
      BodyReadsBack(lookup, tokens[1..]);
    }
  }

  /** The scanner reads back exactly the mentions the renderer notified, in order: no
      body text and no display name can add, hide or change one. */
  lemma ScannerAgreesWithRenderer(lookup: Lookup, tokens: seq<Token>)
    ensures MentionSpans(Html(lookup, tokens)) == Notified(lookup, tokens)
    ensures MentionedUserIds(Html(lookup, tokens)) == UserIds(Notified(lookup, tokens))
  {
    assert Html(lookup, tokens) == "<p>" + (BodyHtml(lookup, tokens) + "</p>");
    ScanSkipsTag("<p>", BodyHtml(lookup, tokens) + "</p>");
    BodyReadsBack(lookup, tokens);
  }

  /** A display name survives the trip through the html whatever it contains. */
  lemma NameSurvives(name: string)
    ensures WithoutSigil("@" + EscapeHtml(name)) == name
  {
    UnescapeUndoesEscape(name);
    UnescapeKeepsSigil(EscapeHtml(name));
  }

  lemma ReplaceKeepsHead(s: string, pat: string, sub: string)
    requires pat != "" && pat[0] == '&'
    ensures ReplaceAll("@" + s, pat, sub) == "@" + ReplaceAll(s, pat, sub)
  {
    assert ("@" + s)[1..] == s;
  }

  lemma UnescapeKeepsSigil(s: string)
    ensures UnescapeText("@" + s) == "@" + UnescapeText(s)
  {
    var s1 := ReplaceAll(s, "&lt;", "<");
    var s2 := ReplaceAll(s1, "&gt;", ">");
    var s3 := ReplaceAll(s2, "&quot;", "\"");
    var s4 := ReplaceAll(s3, "&#39;", "'");
    ReplaceKeepsHead(s, "&lt;", "<");
    ReplaceKeepsHead(s1, "&gt;", ">");
    ReplaceKeepsHead(s2, "&quot;", "\"");
    ReplaceKeepsHead(s3, "&#39;", "'");
    ReplaceKeepsHead(s4, "&amp;", "&");
  }

  // ---- what no rendered span shows ----

  /** Of two attributes of one name the later counts. */
  lemma LaterAttributeWins(name: string, x: string, y: string)
    requires name != "" && (forall i :: 0 <= i < |name| ==> IsName(name[i])) && Lacks(x, '"') && Lacks(y, '"')
    ensures AttributesOf(Attr(name, x) + Attr(name, y)) == map[name := y]
  {
    OneAttribute(name, y);
    ReadsAttribute(name, x, Attr(name, y));
  }

  /** Only a decimal numeral names a user. */
  lemma UserIdIff(s: string, id: nat)
    ensures NumberOf(s).Some? <==> s != "" && forall i :: 0 <= i < |s| ==> '0' <= s[i] <= '9'
    ensures NumberOf(DigitsOf(id)) == Some(id)
  {
    DigitsRoundTrip(id);
    if s != "" && !(forall i :: 0 <= i < |s| ==> '0' <= s[i] <= '9') {
      var i :| 0 <= i < |s| && !('0' <= s[i] <= '9');
      assert !IsDigit(s[i]);
    }
  }
}
