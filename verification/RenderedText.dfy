/** What a reader sees of a rendered body: its text, code and names, as written
    (packages/zulip/in-process-realm.ts); and the spans the realm writes for user groups
    (packages/zulip/rendered-mentions.ts). */
module RenderedText {
  import opened Core
  import opened HtmlText
  import opened RenderedMentions

  /** The html without its tags. */
  function Stripped(html: string): string
    decreases |html|
  {
    if html == "" then ""
    else if html[0] != '<' then [html[0]] + Stripped(html[1..])
    else
      var n := RunOf(Not('>'), html);
      if n == |html| then "" else Stripped(html[n + 1..])
  }

  lemma {:induction false} TextStays(u: string, rest: string)
    requires Lacks(u, '<')
    ensures Stripped(u + rest) == u + Stripped(rest)
  {
    if u == "" {
      assert u + rest == rest;
    } else {
      TextStays(u[1..], rest);
      assert (u + rest)[0] == u[0] && (u + rest)[1..] == u[1..] + rest;
      assert u == [u[0]] + u[1..];
    }
  }

  lemma TagGoes(inner: string, rest: string)
    requires Lacks(inner, '>')
    ensures Stripped("<" + inner + ">" + rest) == Stripped(rest)
  {
    var tag, html := "<" + inner, "<" + inner + ">" + rest;
    assert html == tag + (">" + rest);
    RunEnds(Not('>'), tag, ">" + rest);
    assert html[|tag| + 1..] == rest;
  }

  lemma ElementShows(open: string, text: string, close: string, rest: string)
    requires Lacks(open, '>') && Lacks(close, '>') && Lacks(text, '<')
    ensures Stripped("<" + open + ">" + text + "<" + close + ">" + rest) == text + Stripped(rest)
  {
    var end := "<" + close + ">" + rest;
    assert "<" + open + ">" + text + "<" + close + ">" + rest == "<" + open + ">" + (text + end);
    TagGoes(open, text + end);
    TextStays(text, end);
    TagGoes(close, rest);
  }

  // ---- escaping is character by character ----

  lemma {:induction false} EncodedConcat(done: set<char>, a: string, b: string)
    requires done <= SPECIAL
    ensures Encoded(done, a + b) == Encoded(done, a) + Encoded(done, b)
  {
    if a == "" {
      assert a + b == b;
    } else {
      assert (a + b)[1..] == a[1..] + b;
      EncodedConcat(done, a[1..], b);
      ConcatAssociates(Unit(done, a[0]), Encoded(done, a[1..]), Encoded(done, b));
    }
  }

  lemma EscapeConcat(a: string, b: string)
    ensures EscapeHtml(a + b) == EscapeHtml(a) + EscapeHtml(b)
  {
    EscapeIsEncoded(a);
    EscapeIsEncoded(b);
    EscapeIsEncoded(a + b);
    EncodedConcat(SPECIAL, a, b);
  }

  lemma EscapeSigil(s: string)
    ensures EscapeHtml("@" + s) == "@" + EscapeHtml(s)
  {
    EscapeIsEncoded("@" + s);
    EscapeIsEncoded(s);
    assert ("@" + s)[1..] == s;
  }

  // ---- what a body shows ----

  /** What one token shows: text and code as they are, a mention by the name it stands for,
      and one that stands for nothing as it was written. */
  function Shown(lookup: Lookup, t: Token): string {
    match t
    case Code(body) => body
    case Text(text) => text
    case MentionToken(whole, silent, token) =>
      if !silent && (token in {"all", "everyone", "stream", "channel", "topic"}) then "@" + token
      else if lookup(token).None? then whole
      else (if silent || !lookup(token).value.isActive then "" else "@") + lookup(token).value.fullName
  }

  function ShownBody(lookup: Lookup, tokens: seq<Token>): string {
    if tokens == [] then "" else Shown(lookup, tokens[0]) + ShownBody(lookup, tokens[1..])
  }

  lemma SpanShows(attributes: string, text: string, rest: string)
    requires Lacks(attributes, '>') && Lacks(text, '<')
    ensures Stripped(SpanHtml(attributes, text) + rest) == text + Stripped(rest)
  {
    assert SpanHtml(attributes, text) + rest == "<" + ("span" + attributes) + ">" + text + "<" + "/span" + ">" + rest;
    ElementShows("span" + attributes, text, "/span", rest);
  }

  lemma CodeShows(body: string, rest: string)
    ensures Stripped("<code>" + EscapeHtml(body) + "</code>" + rest) == EscapeHtml(body) + Stripped(rest)
  {
    EscapedIsInert(body);
    assert "<code>" + EscapeHtml(body) + "</code>" + rest == "<" + "code" + ">" + EscapeHtml(body) + "<" + "/code" + ">" + rest;
    ElementShows("code", EscapeHtml(body), "/code", rest);
  }

  lemma UserShows(classes: string, id: string, text: string, rest: string)
    requires Lacks(classes, '>') && Lacks(id, '>') && Lacks(text, '<')
    ensures Stripped(UserHtml(classes, id, text) + rest) == text + Stripped(rest)
  {
    AttrLacks(CLASS, classes);
    AttrLacks(USER_ID, id);
    SpanShows(Attr(CLASS, classes) + Attr(USER_ID, id), text, rest);
  }

  lemma DigitsLack(n: nat)
    ensures Lacks(DigitsOf(n), '>')
  {
    DigitsRoundTrip(n);
  }

  lemma QuietShows(u: RealmUser, rest: string)
    ensures Stripped(UserHtml(USER + " " + SILENT, DigitsOf(u.userId), EscapeHtml(u.fullName)) + rest)
      == EscapeHtml(u.fullName) + Stripped(rest)
  {
    EscapedIsInert(u.fullName);
    DigitsLack(u.userId);
    ClassWords();
    UserClasses(SILENT);
    UserShows(USER + " " + SILENT, DigitsOf(u.userId), EscapeHtml(u.fullName), rest);
  }

  lemma NamedShows(u: RealmUser, rest: string)
    ensures Stripped(UserHtml(USER, DigitsOf(u.userId), "@" + EscapeHtml(u.fullName)) + rest)
      == EscapeHtml("@" + u.fullName) + Stripped(rest)
  {
    EscapedIsInert(u.fullName);
    DigitsLack(u.userId);
    EscapeSigil(u.fullName);
    ClassLacks();
    UserShows(USER, DigitsOf(u.userId), "@" + EscapeHtml(u.fullName), rest);
  }

  lemma ClassLacks()
    ensures Lacks(USER, '>')
  {
    ClassWords();
  }

  lemma WildcardShows(token: string, rest: string)
    ensures Stripped(UserHtml(USER + " " + CHANNEL_WILDCARD, "*", "@" + EscapeHtml(token)) + rest)
      == EscapeHtml("@" + token) + Stripped(rest)
    ensures Stripped(SpanHtml(Attr(CLASS, TOPIC_WILDCARD), "@" + EscapeHtml(token)) + rest) == EscapeHtml("@" + token) + Stripped(rest)
  {
    EscapedIsInert(token);
    EscapeSigil(token);
    ClassWords();
    UserClasses(CHANNEL_WILDCARD);
    UserShows(USER + " " + CHANNEL_WILDCARD, "*", "@" + EscapeHtml(token), rest);
    AttrLacks(CLASS, TOPIC_WILDCARD);
    SpanShows(Attr(CLASS, TOPIC_WILDCARD), "@" + EscapeHtml(token), rest);
  }

  lemma UnknownShows(whole: string, rest: string)
    ensures Stripped(EscapeHtml(whole) + rest) == EscapeHtml(whole) + Stripped(rest)
  {
    EscapedIsInert(whole);
    TextStays(EscapeHtml(whole), rest);
  }

  lemma MentionShows(lookup: Lookup, whole: string, silent: bool, token: string, rest: string)
    ensures Stripped(RenderMention(lookup, whole, silent, token) + rest)
      == EscapeHtml(Shown(lookup, MentionToken(whole, silent, token))) + Stripped(rest)
  {
    if !silent && (token in CHANNEL_WILDCARDS || token == "topic") {
      WildcardShows(token, rest);
    } else {
      match lookup(token)
      case None => UnknownShows(whole, rest);
      case Some(u) =>
        assert "" + u.fullName == u.fullName;
        if silent || !u.isActive { QuietShows(u, rest); } else { NamedShows(u, rest); }
    }
  }

  lemma TokenShows(lookup: Lookup, t: Token, rest: string)
    ensures Stripped(TokenHtml(lookup, t) + rest) == EscapeHtml(Shown(lookup, t)) + Stripped(rest)
  {
    match t
    case Text(text) => UnknownShows(text, rest);
    case Code(body) => CodeShows(body, rest);
    case MentionToken(whole, silent, token) => MentionShows(lookup, whole, silent, token, rest);
  }

  lemma {:induction false} BodyShows(lookup: Lookup, tokens: seq<Token>)
    ensures Stripped(BodyHtml(lookup, tokens) + "</p>") == EscapeHtml(ShownBody(lookup, tokens))
  {
    if tokens == [] {
      assert "" + "</p>" == "<" + "/p" + ">" + "";
      TagGoes("/p", "");
    } else {
      var rest := BodyHtml(lookup, tokens[1..]) + "</p>";
      assert BodyHtml(lookup, tokens) + "</p>" == TokenHtml(lookup, tokens[0]) + rest;
      TokenShows(lookup, tokens[0], rest);
      BodyShows(lookup, tokens[1..]);
      EscapeConcat(Shown(lookup, tokens[0]), ShownBody(lookup, tokens[1..]));
    }
  }

  lemma OpenParagraph(rest: string)
    ensures Stripped("<p>" + rest) == Stripped(rest)
  {
    assert "<p>" + rest == "<" + "p" + ">" + rest;
    TagGoes("p", rest);
  }

  lemma ParagraphShows(lookup: Lookup, tokens: seq<Token>)
    ensures Stripped(Html(lookup, tokens)) == EscapeHtml(ShownBody(lookup, tokens))
  {
    var rest := BodyHtml(lookup, tokens) + "</p>";
    assert Html(lookup, tokens) == "<p>" + rest;
    OpenParagraph(rest);
    BodyShows(lookup, tokens);
  }

  /** A reader of the html, its tags removed and its entities resolved, sees exactly the text
      and the code of the body and the names its mentions stand for, whatever they contain. */
  lemma BodyIsShown(lookup: Lookup, tokens: seq<Token>)
    ensures UnescapeText(Stripped(Html(lookup, tokens))) == ShownBody(lookup, tokens)
  {
    ParagraphShows(lookup, tokens);
    UnescapeUndoesEscape(ShownBody(lookup, tokens));
  }

  // ---- user groups ----

  const GROUP_ID := "data-user-group-id"

  lemma GroupWords()
    ensures IsWordOfClass(GROUP) && IsWordOfClass(SILENT) && GROUP != SILENT && GROUP != TOPIC_WILDCARD && GROUP != CHANNEL_WILDCARD
    ensures GROUP_ID != "" && GROUP_ID != CLASS && GROUP_ID != USER_ID && Lacks(GROUP_ID, '>')
    ensures forall i :: 0 <= i < |GROUP_ID| ==> IsName(GROUP_ID[i])
  {
    ClassWords();
  }

  lemma GroupAttributes(classes: string, id: string, text: string)
    requires Lacks(classes, '"') && Lacks(id, '"')
    ensures ClassifySpan(AttributesOf(Attr(CLASS, classes) + Attr(GROUP_ID, id)), text) == ByClass(Classes(classes), None, text)
  {
    GroupWords();
    AttributeNames();
    TwoAttributes(CLASS, classes, GROUP_ID, id);
  }

  lemma GroupAttributesShape(classes: string, id: string)
    requires Lacks(classes, '>') && Lacks(id, '>')
    ensures var a := Attr(CLASS, classes) + Attr(GROUP_ID, id); a != "" && a[0] == ' ' && Lacks(a, '>')
  {
    GroupWords();
    AttrLacks(CLASS, classes);
    assert Lacks(Attr(GROUP_ID, id), '>');
  }

  lemma GroupSpanByClass(classes: string, id: string, text: string, rest: string)
    requires Lacks(classes, '"') && Lacks(classes, '>') && Lacks(id, '"') && Lacks(id, '>') && Lacks(text, '<')
    ensures MentionSpans(SpanHtml(Attr(CLASS, classes) + Attr(GROUP_ID, id), text) + rest)
      == One(ByClass(Classes(classes), None, text)) + MentionSpans(rest)
  {
    GroupAttributes(classes, id, text);
    GroupAttributesShape(classes, id);
    SpanReadsBack(Attr(CLASS, classes) + Attr(GROUP_ID, id), text, rest);
  }

  lemma GroupOutcomes(text: string)
    ensures ByClass({GROUP}, None, text) == Some(GroupSpan(WithoutSigil(text)))
    ensures ByClass({GROUP, SILENT}, None, text) == None
  {
    GroupWords();
  }

  lemma GroupClasses()
    ensures Lacks(GROUP, '"') && Lacks(GROUP, '>') && Classes(GROUP) == {GROUP}
  {
    GroupWords();
    ClassAlone(GROUP);
  }

  lemma GroupSpanOf(classes: string, id: string, text: string, name: string, rest: string)
    requires Lacks(classes, '"') && Lacks(classes, '>') && Lacks(id, '"') && Lacks(id, '>') && Lacks(text, '<')
    requires Classes(classes) == {GROUP} && WithoutSigil(text) == name
    ensures MentionSpans(SpanHtml(Attr(CLASS, classes) + Attr(GROUP_ID, id), text) + rest) == [GroupSpan(name)] + MentionSpans(rest)
  {
    GroupOutcomes(text);
    GroupSpanByClass(classes, id, text, rest);
  }

  lemma SigilText(name: string)
    ensures Lacks("@" + EscapeHtml(name), '<') && WithoutSigil("@" + EscapeHtml(name)) == name
  {
    EscapedIsInert(name);
    NameSurvives(name);
  }

  /** A group's span is read back as that group, by its whole name. */
  lemma GroupReadsBack(id: string, name: string, rest: string)
    requires Lacks(id, '"') && Lacks(id, '>')
    ensures MentionSpans(SpanHtml(Attr(CLASS, GROUP) + Attr(GROUP_ID, id), "@" + EscapeHtml(name)) + rest)
      == [GroupSpan(name)] + MentionSpans(rest)
  {
    SigilText(name);
    GroupClasses();
    GroupSpanOf(GROUP, id, "@" + EscapeHtml(name), name, rest);
  }

  /** A silent one is read back as nothing. */
  lemma SilentGroupReadsBack(id: string, name: string, rest: string)
    requires Lacks(id, '"') && Lacks(id, '>')
    ensures MentionSpans(SpanHtml(Attr(CLASS, GROUP + " " + SILENT) + Attr(GROUP_ID, id), EscapeHtml(name)) + rest)
      == MentionSpans(rest)
  {
    EscapedIsInert(name);
    GroupWords();
    WordPair(GROUP, SILENT);
    GroupOutcomes(EscapeHtml(name));
    GroupSpanByClass(GROUP + " " + SILENT, id, EscapeHtml(name), rest);
  }
}
