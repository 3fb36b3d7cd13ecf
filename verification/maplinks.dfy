/** Map links of the API reference page: the link that stands for a named map
    type, and the type of a map field that is written for it. */
module MapLinks {
  import opened Api
  import opened Text

  predicate Word(c: char) {
    '0' <= c <= '9' || 'A' <= c <= 'Z' || 'a' <= c <= 'z' || c == '_'
  }

  /** The codes of the ASCII digits, the letters and the underscore. */
  lemma WordIff(c: char)
    ensures
      Word(c) <==>
      48 <= c as int <= 57 || 65 <= c as int <= 90 || 97 <= c as int <= 122 || c as int == 95
  {}

  predicate Words(w: string) {
    w != "" && forall i :: 0 <= i < |w| ==> Word(w[i])
  }

  /** [map[key]value](#anchor) */
  datatype Link = Link(key: string, value: string, anchor: string)

  predicate WellFormed(link: Link) {
    Words(link.key) && Words(link.value) && ')' !in link.anchor
  }

  const OPEN := "[map["
  const HASH := "](#"

  // The text of a link, in front of rest.

  function HashText(link: Link, rest: string): string {
    HASH + (link.anchor + (")" + rest))
  }

  function ValueText(link: Link, rest: string): string {
    "]" + (link.value + HashText(link, rest))
  }

  function LinkText(link: Link, rest: string): string {
    OPEN + (link.key + ValueText(link, rest))
  }

  function FieldEnd(link: Link): string {
    link.value + (HASH + (ToLower(link.value) + "))"))
  }

  /** object (keys:key, values:[value](#value)) */
  function Field(link: Link): string {
    "object (keys:" + (link.key + (", values:" + ("[" + FieldEnd(link))))
  }

  // The match at the start of a text.

  /** A piece of a text, and what follows it. */
  datatype Cut = Cut(piece: string, rest: string)

  datatype Found = Found(link: Link, rest: string)

  /** What follows w in s. */
  function Skip(w: string, s: string): (rest: Option<string>)
    ensures rest.Some? ==> s == w + rest.value
  {
    if w <= s then Some(s[|w|..]) else None
  }

  /** The longest prefix of word characters. */
  function TakeWord(s: string): (cut: Cut)
    ensures s == cut.piece + cut.rest && forall i :: 0 <= i < |cut.piece| ==> Word(cut.piece[i])
  {
    if s != "" && Word(s[0]) then
      var cut := TakeWord(s[1..]);
      Cut([s[0]] + cut.piece, cut.rest)
    else Cut("", s)
  }

  /** What stands in front of the first closing parenthesis, and what follows
      it. */
  function TakeAnchor(s: string): (cut: Option<Cut>)
    ensures cut.Some? ==> s == cut.value.piece + (")" + cut.value.rest) && ')' !in cut.value.piece
    ensures cut.Some? <==> ')' in s
  {
    if s == "" then None
    else if s[0] == ')' then Some(Cut("", s[1..]))
    else
      var cut := TakeAnchor(s[1..]);
      if cut.Some? then Some(Cut([s[0]] + cut.value.piece, cut.value.rest)) else None
  }

  function MatchHash(key: string, value: string, s: string): (found: Option<Found>)
    ensures
      found.Some? ==>
        var link := found.value.link;
        && link.key == key && link.value == value && ')' !in link.anchor
        && s == HashText(link, found.value.rest)
  {
    var after := Skip(HASH, s);
    if after.None? then None
    else
      var cut := TakeAnchor(after.value);
      if cut.None? then None else Some(Found(Link(key, value, cut.value.piece), cut.value.rest))
  }

  function MatchValue(key: string, s: string): (found: Option<Found>)
    ensures
      found.Some? ==>
        var link := found.value.link;
        && link.key == key && Words(link.value) && ')' !in link.anchor
        && s == ValueText(link, found.value.rest)
  {
    var after := Skip("]", s);
    if after.None? then None
    else
      var cut := TakeWord(after.value);
      if cut.piece == "" then None else MatchHash(key, cut.piece, cut.rest)
  }

  function Match(s: string): (found: Option<Found>)
    ensures found.Some? ==> WellFormed(found.value.link) && s == LinkText(found.value.link, found.value.rest)
  {
    var after := Skip(OPEN, s);
    if after.None? then None
    else
      var cut := TakeWord(after.value);
      if cut.piece == "" then None else MatchValue(cut.piece, cut.rest)
  }

  lemma SkipIs(w: string, rest: string)
    ensures Skip(w, w + rest) == Some(rest)
  {}

  lemma {:induction false} TakeWordIs(w: string, rest: string)
    requires forall i :: 0 <= i < |w| ==> Word(w[i])
    requires rest != "" ==> !Word(rest[0])
    ensures TakeWord(w + rest) == Cut(w, rest)
  {
    if w == "" {
      assert w + rest == rest;
    } else {
      assert (w + rest)[1..] == w[1..] + rest;
      TakeWordIs(w[1..], rest);
    }
  }

  lemma {:induction false} TakeAnchorIs(a: string, rest: string)
    requires ')' !in a
    ensures TakeAnchor(a + (")" + rest)) == Some(Cut(a, rest))
  {
    if a == "" {
      assert a + (")" + rest) == ")" + rest;
    } else {
      TakeAnchorIs(a[1..], rest);
      TakeAnchorStep(a[0], a[1..] + (")" + rest));
      assert a == [a[0]] + a[1..];
      assert [a[0]] + (a[1..] + (")" + rest)) == a + (")" + rest);
    }
  }

  lemma TakeAnchorStep(c: char, s: string)
    requires c != ')'
    ensures
      var cut := TakeAnchor(s);
      TakeAnchor([c] + s) == if cut.Some? then Some(Cut([c] + cut.value.piece, cut.value.rest)) else None
  {
    assert ([c] + s)[1..] == s;
  }

  /** The first three parts of a link, in front of rest. */
  function HeadText(key: string, value: string, rest: string): string {
    OPEN + (key + ("]" + (value + (HASH + rest))))
  }

  /** The anchor of a head decides the match. */
  lemma HeadMatches(key: string, value: string, rest: string)
    requires Words(key) && Words(value)
    ensures
      Match(HeadText(key, value, rest)) ==
      match TakeAnchor(rest)
      case None => None
      case Some(cut) => Some(Found(Link(key, value, cut.piece), cut.rest))
  {
    var s4 := HASH + rest;
    var s2 := "]" + (value + s4);
    SkipIs(OPEN, key + s2);
    TakeWordIs(key, s2);
    SkipIs("]", value + s4);
    TakeWordIs(value, s4);
    SkipIs(HASH, rest);
  }

  /** Match finds the one link that s starts with. */
  lemma MatchIsTheLink(s: string, link: Link, rest: string)
    ensures Match(s) == Some(Found(link, rest)) <==> WellFormed(link) && s == LinkText(link, rest)
  {
    if WellFormed(link) && s == LinkText(link, rest) {
      TakeAnchorIs(link.anchor, rest);
      HeadMatches(link.key, link.value, link.anchor + (")" + rest));
    }
  }

  // Leftmost matches, each after the end of the one before.

  function Rewritten(s: string): string
    decreases |s|
  {
    if s == "" then ""
    else
      match Match(s)
      case None => [s[0]] + Rewritten(s[1..])
      case Some(found) => Field(found.link) + Rewritten(found.rest)
  }

  /** What is written for a link, whatever its anchor and the text behind it:
      the key, and the value with a link to its lower-case name. */
  lemma LinkIsWrittenAs(key: string, value: string, anchor: string, rest: string)
    requires Words(key) && Words(value) && ')' !in anchor
    ensures
      Rewritten("[map[" + (key + ("]" + (value + ("](#" + (anchor + (")" + rest))))))) ==
      "object (keys:" + (key + (", values:[" + (value + ("](#" + (ToLower(value) + ("))" + Rewritten(rest)))))))
  {
    var link := Link(key, value, anchor);
    MatchIsTheLink(LinkText(link, rest), link, rest);
    FieldThen(link, Rewritten(rest));
  }

  lemma FieldThen(link: Link, tail: string)
    ensures
      Field(link) + tail ==
      "object (keys:" + (link.key + (", values:[" + (link.value + ("](#" + (ToLower(link.value) + ("))" + tail))))))
  {
    var end := link.value + (HASH + (ToLower(link.value) + ("))" + tail)));
    assert FieldEnd(link) + tail == end;
    assert ", values:" + ("[" + end) == ", values:[" + end;
  }

  predicate HasLink(s: string) {
    s != "" && (Match(s).Some? || HasLink(s[1..]))
  }

  lemma {:induction false} NoLinkIsKept(s: string)
    requires !HasLink(s)
    ensures Rewritten(s) == s
  {
    if s != "" {
      NoLinkIsKept(s[1..]);
      assert s == [s[0]] + s[1..];
    }
  }

  // What is written for a link holds no link.

  lemma {:induction false} SkipText(a: string, tail: string)
    requires '[' !in a
    ensures HasLink(a + tail) <==> HasLink(tail)
  {
    if a == "" {
      assert a + tail == tail;
    } else {
      assert (a + tail)[1..] == a[1..] + tail;
      assert (a + tail)[0] == a[0] != OPEN[0];
      SkipText(a[1..], tail);
    }
  }

  /** The link to the value type is no map link. */
  lemma ValueIsNoLink(value: string, tail: string)
    requires Words(value)
    ensures !(OPEN <= "[" + (value + (HASH + tail)))
  {
    var s := "[" + (value + (HASH + tail));
    var open := OPEN;
    assert open[1] == 'm' && open[2] == 'a' && open[3] == 'p' && open[4] == '[';
    if |value| > 3 {
      assert s[4] == value[3] != open[4];
    } else {
      assert s[|value| + 1] == HASH[0] != open[|value| + 1];
    }
  }

  lemma OpenStartsMatch(s: string)
    requires !(OPEN <= s) && s != ""
    ensures HasLink(s) <==> HasLink(s[1..])
  {}

  lemma FieldEndHasNoLink(link: Link, tail: string)
    requires WellFormed(link)
    ensures HasLink("[" + (FieldEnd(link) + tail)) <==> HasLink(tail)
  {
    var end := FieldEnd(link) + tail;
    assert end == link.value + (HASH + (ToLower(link.value) + "))" + tail));
    ValueIsNoLink(link.value, ToLower(link.value) + "))" + tail);
    OpenStartsMatch("[" + end);
    assert ("[" + end)[1..] == end;
    assert '[' !in link.value && '[' !in ToLower(link.value);
    SkipText(FieldEnd(link), tail);
  }

  lemma FieldHasNoLink(link: Link, tail: string)
    requires WellFormed(link)
    ensures HasLink(Field(link) + tail) <==> HasLink(tail)
  {
    var before := "object (keys:" + (link.key + ", values:");
    assert Field(link) + tail == before + ("[" + (FieldEnd(link) + tail));
    assert '[' !in link.key;
    SkipText(before, "[" + (FieldEnd(link) + tail));
    FieldEndHasNoLink(link, tail);
  }

  // A link in the result was a link in the source.

  /** Whether a text without blanks can end here, and not inside the first word
      of a field. */
  predicate EndsAtHash(u: string) {
    ' ' !in u && (u != "" ==> u[|u| - 1] == '#')
  }

  /** The start of a result that holds no field is the start of the source. */
  lemma {:induction false} StartIsCopied(s: string, u: string)
    requires u <= Rewritten(s) && EndsAtHash(u)
    ensures u <= s && Rewritten(s) == u + Rewritten(s[|u|..])
  {
    if u == "" {
      assert s[0..] == s;
    } else if Match(s).Some? {
      FieldStarts(Match(s).value.link, Rewritten(s), u);
    } else {
      PrefixTail(s[0], Rewritten(s[1..]), u);
      StartIsCopied(s[1..], u[1..]);
      PrefixGrows(s, u);
      OneMore(u, Rewritten(s[|u|..]));
    }
  }

  lemma PrefixTail(c: char, t: string, u: string)
    requires u <= [c] + t && u != ""
    ensures u[0] == c && u[1..] <= t && (EndsAtHash(u) ==> EndsAtHash(u[1..]))
  {}

  lemma OneMore(u: string, tail: string)
    requires u != ""
    ensures [u[0]] + (u[1..] + tail) == u + tail
  {
    assert u == [u[0]] + u[1..];
  }

  lemma PrefixGrows(s: string, u: string)
    requires s != "" && u != "" && s[0] == u[0] && u[1..] <= s[1..]
    ensures u <= s && s[1..][|u| - 1..] == s[|u|..]
  {
    assert s == [s[0]] + s[1..] && u == [u[0]] + u[1..];
    assert forall i :: 0 < i < |u| ==> u[i] == u[1..][i - 1] == s[1..][i - 1] == s[i];
  }

  lemma FieldStarts(link: Link, t: string, u: string)
    requires Field(link) <= t && u <= t && u != ""
    ensures !EndsAtHash(u)
  {
    var word := "object ";
    assert word <= t;
    if |u| > 6 {
      assert u[6] == t[6] == word[6];
    } else {
      assert u[|u| - 1] == t[|u| - 1] == word[|u| - 1];
    }
  }

  lemma {:induction false} ParenWasThere(s: string)
    requires ')' in Rewritten(s)
    ensures ')' in s
    decreases |s|
  {
    if Match(s).Some? {
      ParenInLink(Match(s).value.link, Match(s).value.rest);
    } else if s[0] != ')' {
      ParenWasThere(s[1..]);
    }
  }

  lemma ParenInLink(link: Link, rest: string)
    ensures ')' in LinkText(link, rest)
  {
    var before := OPEN + (link.key + ("]" + (link.value + (HASH + link.anchor))));
    assert LinkText(link, rest) == before + (")" + rest);
    assert LinkText(link, rest)[|before|] == ')';
  }

  /** The first three parts of a link. */
  function Head(link: Link): string {
    HeadText(link.key, link.value, "")
  }

  lemma HeadIsPlain(link: Link)
    requires WellFormed(link)
    ensures EndsAtHash(Head(link)) && '&' !in Head(link)
  {
    assert ' ' !in link.key && ' ' !in link.value && '&' !in link.key && '&' !in link.value;
    var before := OPEN + (link.key + ("]" + (link.value + "](")));
    assert Head(link) == before + "#";
    assert ' ' !in before && '&' !in before;
  }

  lemma HeadThenRest(link: Link, rest: string)
    ensures HeadText(link.key, link.value, rest) == Head(link) + rest
  {}

  /** The head of the link that t starts with, and the closing parenthesis after
      it. */
  lemma MatchHasHead(t: string)
    requires Match(t).Some?
    ensures
      var link := Match(t).value.link;
      WellFormed(link) && Head(link) <= t && ')' in t[|Head(link)|..]
  {
    var found := Match(t).value;
    var rest := found.link.anchor + (")" + found.rest);
    HeadThenRest(found.link, rest);
    assert t == Head(found.link) + rest;
    assert t[|Head(found.link)|..] == rest;
    assert rest[|found.link.anchor|] == ')';
  }

  lemma HeadMakesMatch(s: string, link: Link)
    requires WellFormed(link) && Head(link) <= s && ')' in s[|Head(link)|..]
    ensures Match(s).Some?
  {
    var rest := s[|Head(link)|..];
    HeadThenRest(link, rest);
    assert s == Head(link) + rest;
    HeadMatches(link.key, link.value, rest);
  }

  lemma MatchWasThere(s: string)
    requires Match(Rewritten(s)).Some?
    ensures Match(s).Some?
  {
    var t := Rewritten(s);
    var link := Match(t).value.link;
    MatchHasHead(t);
    HeadIsPlain(link);
    StartIsCopied(s, Head(link));
    var rest := s[|Head(link)|..];
    assert t[|Head(link)|..] == Rewritten(rest);
    ParenWasThere(rest);
    HeadMakesMatch(s, link);
  }

  lemma {:induction false} RewrittenHasNoLink(s: string)
    ensures !HasLink(Rewritten(s))
    decreases |s|
  {
    if s != "" {
      match Match(s)
      case Some(found) =>
        RewrittenHasNoLink(found.rest);
        FieldHasNoLink(found.link, Rewritten(found.rest));
      case None =>
        RewrittenHasNoLink(s[1..]);
        if Match(Rewritten(s)).Some? {
          MatchWasThere(s);
        }
        assert Rewritten(s)[1..] == Rewritten(s[1..]);
    }
  }

  /** One pass rewrites every map link of the page. */
  lemma RewrittenTwice(s: string)
    ensures Rewritten(Rewritten(s)) == Rewritten(s)
  {
    RewrittenHasNoLink(s);
    NoLinkIsKept(Rewritten(s));
  }

  // Entities make no link.

  predicate IsEntity(c: char, t: string) {
    (c == '<' && "&lt;" <= t) || (c == '>' && "&gt;" <= t)
  }

  /** Whether t is s with some angle brackets written as entities. */
  predicate Marked(s: string, t: string) {
    if s == "" then t == ""
    else if IsEntity(s[0], t) then Marked(s[1..], t[4..])
    else t != "" && t[0] == s[0] && Marked(s[1..], t[1..])
  }

  lemma {:induction false} MarkedConcat(a: string, c: string, b: string, d: string)
    requires Marked(a, c) && Marked(b, d)
    ensures Marked(a + b, c + d)
    decreases |a|
  {
    if a == "" {
      assert a + b == b && c + d == d;
    } else {
      var k := if IsEntity(a[0], c) then 4 else 1;
      MarkedConcat(a[1..], c[k..], b, d);
      assert (a + b)[1..] == a[1..] + b && (c + d)[k..] == c[k..] + d;
      if k == 4 {
        assert (c + d)[..4] == c[..4];
      } else {
        assert (c + d)[0] == c[0] != '&' || a[0] == '&';
      }
    }
  }

  lemma {:induction false} MarkedSelf(s: string)
    ensures Marked(s, s)
  {
    if s != "" {
      MarkedSelf(s[1..]);
    }
  }

  lemma MarkedFirst(s: string, t: string)
    requires Marked(s, t) && t != "" && t[0] != '&'
    ensures s != "" && s[0] == t[0] && Marked(s[1..], t[1..])
  {}

  lemma {:induction false} MarkedStart(s: string, u: string, rest: string)
    requires Marked(s, u + rest) && '&' !in u
    ensures exists r :: s == u + r && Marked(r, rest)
    decreases |u|
  {
    if u == "" {
      assert u + rest == rest && s == u + s;
    } else {
      assert (u + rest)[0] == u[0] && (u + rest)[1..] == u[1..] + rest;
      MarkedFirst(s, u + rest);
      MarkedStart(s[1..], u[1..], rest);
      var r :| s[1..] == u[1..] + r && Marked(r, rest);
      FirstAndRest(s, u, r);
    }
  }

  lemma FirstAndRest(s: string, u: string, r: string)
    requires s != "" && u != "" && s[0] == u[0] && s[1..] == u[1..] + r
    ensures s == u + r
  {
    assert s == [s[0]] + s[1..] && u == [u[0]] + u[1..];
  }

  lemma {:induction false} MarkedParen(s: string, t: string)
    requires Marked(s, t) && ')' in t
    ensures ')' in s
    decreases |s|
  {
    if s != "" && s[0] != ')' {
      var k := if IsEntity(s[0], t) then 4 else 1;
      assert t == t[..k] + t[k..];
      assert ')' !in t[..k];
      MarkedParen(s[1..], t[k..]);
    }
  }

  lemma MarkedHead(s: string, head: string, rest: string, t: string)
    requires Marked(s, t) && head <= t && rest == t[|head|..] && '&' !in head && ')' in rest
    ensures head <= s && ')' in s[|head|..]
  {
    assert t == head + rest;
    MarkedStart(s, head, rest);
    var r :| s == head + r && Marked(r, rest);
    MarkedParen(r, rest);
    assert s[|head|..] == r;
  }

  lemma MarkedMatch(s: string, t: string)
    requires Marked(s, t) && Match(t).Some?
    ensures Match(s).Some?
  {
    var link := Match(t).value.link;
    MatchHasHead(t);
    HeadIsPlain(link);
    MarkedHead(s, Head(link), t[|Head(link)|..], t);
    HeadMakesMatch(s, link);
  }

  /** Escaping makes no map link. */
  lemma {:induction false} MarkedHasNoLink(s: string, t: string)
    requires Marked(s, t) && !HasLink(s)
    ensures !HasLink(t)
    decreases |s|
  {
    if s != "" {
      if Match(t).Some? {
        MarkedMatch(s, t);
      }
      if IsEntity(s[0], t) {
        MarkedHasNoLink(s[1..], t[4..]);
        assert t == t[..4] + t[4..];
        SkipText(t[..4], t[4..]);
      } else {
        MarkedHasNoLink(s[1..], t[1..]);
      }
    }
  }
}
