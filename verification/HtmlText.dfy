/** Escaping of text into html by the realm (packages/zulip/in-process-realm.ts) and its
    undoing by the mention scanner (packages/zulip/rendered-mentions.ts). */
module HtmlText {
  // ---- escaping and its inverse ----

  /** `text.replace(/pat/g, sub)` for a literal pattern. */
  function ReplaceAll(s: string, pat: string, sub: string): string
    requires pat != ""
  {
    if s == "" then ""
    else if pat <= s then sub + ReplaceAll(s[|pat|..], pat, sub)
    else [s[0]] + ReplaceAll(s[1..], pat, sub)
  }

  function EscapeHtml(text: string): string {
    ReplaceAll(ReplaceAll(ReplaceAll(ReplaceAll(ReplaceAll(text, "&", "&amp;"), "<", "&lt;"), ">", "&gt;"),
                          "\"", "&quot;"), "'", "&#39;")
  }

  function UnescapeText(text: string): string {
    ReplaceAll(ReplaceAll(ReplaceAll(ReplaceAll(ReplaceAll(text, "&lt;", "<"), "&gt;", ">"), "&quot;", "\""),
                          "&#39;", "'"), "&amp;", "&")
  }

  const SPECIAL: set<char> := {'&', '<', '>', '"', '\''}

  function Entity(c: char): string
    requires c in SPECIAL
  {
    if c == '&' then "&amp;" else if c == '<' then "&lt;" else if c == '>' then "&gt;"
    else if c == '"' then "&quot;" else "&#39;"
  }

  function Unit(done: set<char>, c: char): string
    requires done <= SPECIAL
  {
    if c in done then Entity(c) else [c]
  }

  /** `s` with just the characters in `done` written as entities. */
  function Encoded(done: set<char>, s: string): string
    requires done <= SPECIAL
  {
    if s == "" then "" else Unit(done, s[0]) + Encoded(done, s[1..])
  }

  lemma {:induction false} SkipUnit(u: string, rest: string, pat: string, sub: string)
    requires pat != "" && forall i :: 0 <= i < |u| ==> !(pat <= (u + rest)[i..])
    ensures ReplaceAll(u + rest, pat, sub) == u + ReplaceAll(rest, pat, sub)
  {
    if u == "" {
      assert u + rest == rest;
    } else {
      assert (u + rest)[0..] == u + rest && (u + rest)[1..] == u[1..] + rest;
      forall i | 0 <= i < |u| - 1 ensures !(pat <= (u[1..] + rest)[i..]) {
        assert (u[1..] + rest)[i..] == (u + rest)[i + 1..];
      }
      SkipUnit(u[1..], rest, pat, sub);
      assert u == [u[0]] + u[1..];
    }
  }

  lemma EntityShape(c: char)
    requires c in SPECIAL
    ensures |Entity(c)| > 1 && Entity(c)[0] == '&'
    ensures forall i :: 1 <= i < |Entity(c)| ==> Entity(c)[i] !in SPECIAL
  {
  }

  /** While escaping, a unit that is not the character `c` does not contain it. */
  lemma UnitLacks(done: set<char>, c: char, d: char, rest: string)
    requires done <= SPECIAL && c in SPECIAL && c !in done && c != d && (c == '&' ==> done == {})
    ensures var u := Unit(done, d); forall i :: 0 <= i < |u| ==> !([c] <= (u + rest)[i..])
  {
    if d in done { EntityShape(d); }
    var u := Unit(done, d);
    assert forall i :: 0 <= i < |u| ==> (u + rest)[i..][0] == u[i] != c;
  }

  /** While unescaping, no entity but `c`'s own starts inside another character's unit. */
  lemma UnitMisses(done: set<char>, c: char, d: char, rest: string)
    requires done <= SPECIAL && c in done && '&' in done && c != d
    ensures var u := Unit(done, d); forall i :: 0 <= i < |u| ==> !(Entity(c) <= (u + rest)[i..])
  {
    EntityShape(c);
    if d in done { EntityShape(d); }
    var u := Unit(done, d);
    forall i | 0 <= i < |u| ensures !(Entity(c) <= (u + rest)[i..]) {
      var tail := (u + rest)[i..];
      assert tail[0] == u[i];
      if i == 0 && d in done {
        assert tail[1] == Entity(d)[1] != Entity(c)[1];
      } else {
        assert tail[0] != '&';
      }
    }
  }

  /** One escaping pass: entities already written hold no character still to escape. */
  lemma {:induction false} EscapePass(done: set<char>, c: char, s: string)
    requires done <= SPECIAL && c in SPECIAL && c !in done && (c == '&' ==> done == {})
    ensures ReplaceAll(Encoded(done, s), [c], Entity(c)) == Encoded(done + {c}, s)
  {
    if s != "" {
      var unit, rest := Unit(done, s[0]), Encoded(done, s[1..]);
      EscapePass(done, c, s[1..]);
      if s[0] == c {
        assert (unit + rest)[1..] == rest;
      } else {
        UnitLacks(done, c, s[0], rest);
        SkipUnit(unit, rest, [c], Entity(c));
      }
    }
  }

  /** One unescaping pass. `&amp;` may go only last, or it would expose new entities. */
  lemma {:induction false} UnescapePass(done: set<char>, c: char, s: string)
    requires done <= SPECIAL && c in done && '&' in done && (c == '&' ==> done == {'&'})
    ensures ReplaceAll(Encoded(done, s), Entity(c), [c]) == Encoded(done - {c}, s)
  {
    if s != "" {
      var unit, rest := Unit(done, s[0]), Encoded(done, s[1..]);
      UnescapePass(done, c, s[1..]);
      if s[0] == c {
        assert Entity(c) <= unit + rest && (unit + rest)[|Entity(c)|..] == rest;
      } else {
        UnitMisses(done, c, s[0], rest);
        SkipUnit(unit, rest, Entity(c), [c]);
      }
    }
  }

  lemma {:induction false} EncodedNothing(s: string)
    ensures Encoded({}, s) == s
  {
    if s != "" { EncodedNothing(s[1..]); }
  }

  /** The five passes together write exactly the five entities. */
  lemma EscapeIsEncoded(s: string)
    ensures EscapeHtml(s) == Encoded(SPECIAL, s)
  {
    EncodedNothing(s);
    EscapePass({}, '&', s);
    EscapePass({'&'}, '<', s);
    EscapePass({'&', '<'}, '>', s);
    EscapePass({'&', '<', '>'}, '"', s);
    EscapePass({'&', '<', '>', '"'}, '\'', s);
    assert {} + {'&'} == {'&'} && {'&'} + {'<'} == {'&', '<'} && {'&', '<'} + {'>'} == {'&', '<', '>'};
    assert {'&', '<', '>'} + {'"'} == {'&', '<', '>', '"'} && {'&', '<', '>', '"'} + {'\''} == SPECIAL;
  }

  /** Unescaping undoes escaping, on every string. */
  lemma UnescapeUndoesEscape(s: string)
    ensures UnescapeText(EscapeHtml(s)) == s
  {
    EscapeIsEncoded(s);
    Unescaped(SPECIAL, '<', {'&', '>', '"', '\''}, s);
    Unescaped({'&', '>', '"', '\''}, '>', {'&', '"', '\''}, s);
    Unescaped({'&', '"', '\''}, '"', {'&', '\''}, s);
    Unescaped({'&', '\''}, '\'', {'&'}, s);
    Unescaped({'&'}, '&', {}, s);
    EncodedNothing(s);
  }

  lemma Unescaped(done: set<char>, c: char, left: set<char>, s: string)
    requires done == left + {c} && c !in left && done <= SPECIAL && '&' in done && (c == '&' ==> left == {})
    ensures ReplaceAll(Encoded(done, s), Entity(c), [c]) == Encoded(left, s)
  {
    UnescapePass(done, c, s);
    assert done - {c} == left;
  }

  lemma {:induction false} EscapedIsInert(s: string)
    ensures forall i :: 0 <= i < |EscapeHtml(s)| ==> EscapeHtml(s)[i] != '<' && EscapeHtml(s)[i] != '>'
  {
    EscapeIsEncoded(s);
    EncodedIsInert(s);
  }

  lemma {:induction false} EncodedIsInert(s: string)
    ensures forall i :: 0 <= i < |Encoded(SPECIAL, s)| ==> Encoded(SPECIAL, s)[i] != '<' && Encoded(SPECIAL, s)[i] != '>'
  {
    if s != "" { EncodedIsInert(s[1..]); }
  }
}
