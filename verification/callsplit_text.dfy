/** The text that the rewrite writes: which characters stand in the output, and
    how the lines of a split call start. */
module CallSplitText {
  import opened CallSplit
  import opened CallSplitPass
  import opened CallSplitFixpoint

  /** The closing parens that get a comma in front of them. */
  function Commas(src: string, calls: seq<Call>): set<nat>
    requires CallsOk(src, calls)
  {
    set k | 0 <= k < |calls| && AddsComma(src, calls[k]) :: calls[k].rparen
  }

  function CommaAt(commas: set<nat>, q: nat): string {
    if q in commas then "," else ""
  }

  /** The characters of src[p..q] that are no space, with a comma in front of each
      position of commas behind p, up to q. */
  function VisibleText(src: string, commas: set<nat>, p: nat, q: nat): string
    requires p <= q <= |src|
  {
    if p == q then ""
    else (VisibleText(src, commas, p, q - 1) + Visible(src[q - 1])) + CommaAt(commas, q)
  }

  lemma OpeningIsSpace(src: string, c: Call)
    requires CallOk(src, c)
    ensures NonSpace("\n" + Indent(src, c) + "\t") == ""
  {
    var s := "\n" + Indent(src, c) + "\t";
    IndentIsBlank(src, c);
    forall k | 0 <= k < |s| ensures Space(s[k]) {
      assert 0 < k < |s| - 1 ==> s[k] == Indent(src, c)[k - 1];
    }
    AllSpace(s);
  }

  lemma OneOffsetOneCall(src: string, calls: seq<Call>, k: nat, m: nat, x: nat)
    requires WellFormed(src, calls) && k < |calls| && m < |calls| && k != m
    requires x == calls[k].lparen + 1 || x == calls[k].rparen
    ensures x != calls[m].rparen
  {
    ApartBothWays(calls, k, m);
    ApartOffsets(src, calls[m], calls[k], calls[m].rparen, x);
  }

  /** The comma in front of the closing paren of call k is its own. */
  lemma OwnComma(src: string, calls: seq<Call>, k: nat, x: nat)
    requires WellFormed(src, calls) && k < |calls| && SplitAfterFirstArg(src, calls[k])
    requires x == calls[k].lparen + 1 || x == calls[k].rparen
    ensures x in Commas(src, calls) <==> x == calls[k].rparen && AddsComma(src, calls[k])
  {
    ArgsLeaveRoom(src, calls[k]);
    if x in Commas(src, calls) {
      var m :| 0 <= m < |calls| && AddsComma(src, calls[m]) && calls[m].rparen == x;
      if m != k {
        OneOffsetOneCall(src, calls, k, m, x);
      }
    }
  }

  /** An edit has a comma in it exactly when it adds one. */
  lemma EditIsVisible(src: string, c: Call, e: Edit)
    requires CallOk(src, c) && SplitAfterFirstArg(src, c) && e in EditsOfCall(src, c)
    ensures e.offset == c.lparen + 1 || e.offset == c.rparen
    ensures NonSpace(e.text) == if e.offset == c.rparen && AddsComma(src, c) then "," else ""
  {
    EditIsOne(src, c, e);
    ArgsLeaveRoom(src, c);
    if e.offset == c.rparen {
      NonSpaceOfClosing(src, c);
    } else {
      OpeningIsSpace(src, c);
    }
  }

  lemma EditIsOne(src: string, c: Call, e: Edit)
    requires CallOk(src, c) && SplitAfterFirstArg(src, c) && e in EditsOfCall(src, c)
    ensures
      || e == Edit(c.lparen + 1, "\n" + Indent(src, c) + "\t")
      || (e == Edit(c.rparen, ClosingIfSplit(src, c)) && e.text != "")
  {}

  /** What the edits write at q, but for space. */
  lemma TextIsVisible(src: string, calls: seq<Call>, q: nat)
    requires WellFormed(src, calls)
    ensures NonSpace(TextAt(EditsOf(src, calls), q)) == CommaAt(Commas(src, calls), q)
  {
    var edits := EditsOf(src, calls);
    if i :| 0 <= i < |edits| && edits[i].offset == q {
      EditsAreDistinct(src, calls);
      TextOfOne(edits, edits[i]);
      var k := EditComesFrom(src, calls, edits[i]);
      EditIsVisible(src, calls[k], edits[i]);
      OwnComma(src, calls, k, q);
    } else {
      NoTextBefore(edits, q);
      NoEditNoComma(src, calls, q);
    }
  }

  lemma NoEditNoComma(src: string, calls: seq<Call>, q: nat)
    requires CallsOk(src, calls)
    requires forall i :: 0 <= i < |EditsOf(src, calls)| ==> EditsOf(src, calls)[i].offset != q
    ensures q !in Commas(src, calls)
  {
    if q in Commas(src, calls) {
      var k :| 0 <= k < |calls| && AddsComma(src, calls[k]) && calls[k].rparen == q;
      SplitHasEdit(src, calls, k, EditsOfCall(src, calls[k])[1]);
    }
  }

  /** The edits write the commas, and else only space. */
  ghost predicate WriteOnly(edits: seq<Edit>, commas: set<nat>) {
    forall x: nat :: NonSpace(TextAt(edits, x)) == CommaAt(commas, x)
  }

  lemma EditsWriteOnly(src: string, calls: seq<Call>)
    requires WellFormed(src, calls)
    ensures WriteOnly(EditsOf(src, calls), Commas(src, calls))
  {
    forall x: nat ensures NonSpace(TextAt(EditsOf(src, calls), x)) == CommaAt(Commas(src, calls), x) {
      TextIsVisible(src, calls, x);
    }
  }

  lemma {:induction false} BetweenIsVisible(src: string, edits: seq<Edit>, commas: set<nat>, p: nat, q: nat)
    requires WriteOnly(edits, commas) && p <= q <= |src|
    ensures NonSpace(Between(src, edits, p, q)) == VisibleText(src, commas, p, q)
    decreases q
  {
    if p < q {
      BetweenIsVisible(src, edits, commas, p, q - 1);
      assert NonSpace(TextAt(edits, q)) == CommaAt(commas, q);
      BetweenStep(src, edits, p, q);
      VisibleStep(
        Between(src, edits, p, q - 1), src[q - 1], TextAt(edits, q), Between(src, edits, p, q),
        VisibleText(src, commas, p, q - 1), CommaAt(commas, q));
    }
  }

  lemma BetweenStep(src: string, edits: seq<Edit>, p: nat, q: nat)
    requires p < q <= |src|
    ensures Between(src, edits, p, q) == Between(src, edits, p, q - 1) + [src[q - 1]] + TextAt(edits, q)
  {}

  lemma VisibleStep(a: string, c: char, b: string, whole: string, v: string, w: string)
    requires NonSpace(a) == v && NonSpace(b) == w && whole == a + [c] + b
    ensures NonSpace(whole) == (v + Visible(c)) + w
  {
    NonSpaceOfThree(a, c, b);
  }

  lemma NonSpaceOfThree(a: string, c: char, b: string)
    ensures NonSpace(a + [c] + b) == (NonSpace(a) + Visible(c)) + NonSpace(b)
  {
    NonSpaceConcat(a + [c], b);
    NonSpaceConcat(a, [c]);
    assert [c][1..] == "" && Visible(c) + "" == Visible(c);
  }

  /** Between any two tokens, the output has the characters of the source, and the
      added commas, but for space. */
  lemma OutputIsVisible(src: string, calls: seq<Call>, p: nat, q: nat)
    requires WellFormed(src, calls) && Token(src, p) && Token(src, q) && p < q
    ensures
      var edits, out := EditsOf(src, calls), Output(src, calls);
      var a, b := Place(src, edits, p), Place(src, edits, q);
      && a < b < |out| && out[a] == src[p] && out[b] == src[q]
      && NonSpace(out[a..b]) == VisibleText(src, Commas(src, calls), p, q)
  {
    var edits := EditsOf(src, calls);
    OutputBetween(src, edits, p, q);
    OutputAt(src, edits, p);
    OutputAt(src, edits, q);
    SqueezedKeepsNonSpace(Between(src, edits, p, q));
    EditsWriteOnly(src, calls);
    BetweenIsVisible(src, edits, Commas(src, calls), p, q);
  }

  /** The whole output has the characters of the source, each in its place, and
      one comma more in front of the closing paren of each call that gets one;
      nothing else but space. */
  lemma OutputIsSource(src: string, calls: seq<Call>)
    requires WellFormed(src, calls)
    ensures NonSpace(Output(src, calls)) == VisibleText(src, Commas(src, calls), 0, |src|)
  {
    var edits := EditsOf(src, calls);
    SqueezedKeepsNonSpace(Weave(src, edits));
    WovenParts(src, edits, 0, |src|);
    EditsAreOwned(src, calls);
    forall i | 0 <= i < |edits| ensures edits[i].offset != 0 {
      assert Owned(src, calls, edits[i]);
    }
    NoTextBefore(edits, 0);
    assert "" + "" + Between(src, edits, 0, |src|) == Between(src, edits, 0, |src|);
    EditsWriteOnly(src, calls);
    BetweenIsVisible(src, edits, Commas(src, calls), 0, |src|);
  }

  /** Where no call gets a comma, that is the source itself. */
  lemma {:induction false} NoCommaNoChange(src: string, q: nat)
    requires q <= |src|
    ensures VisibleText(src, {}, 0, q) == NonSpace(src[..q])
  {
    if q > 0 {
      NoCommaNoChange(src, q - 1);
      NonSpaceOfThree(src[..q - 1], src[q - 1], "");
      assert src[..q - 1] + [src[q - 1]] + "" == src[..q];
    }
  }

  // How the lines of a split call start.

  lemma OwnOpening(src: string, c: Call, e: Edit)
    requires CallOk(src, c) && SplitAfterFirstArg(src, c) && e in EditsOfCall(src, c)
    ensures !(c.lparen + 1 < e.offset <= First(c).pos)
  {
    assert ArgOk(src, c, First(c));
    EditIsOne(src, c, e);
  }

  /** Only the opening edit of a split call stands between its paren and its first
      argument. */
  lemma OpeningAlone(src: string, calls: seq<Call>, n: nat, e: Edit)
    requires WellFormed(src, calls) && n < |calls| && SplitAfterFirstArg(src, calls[n]) && e in EditsOf(src, calls)
    ensures !(calls[n].lparen + 1 < e.offset <= First(calls[n]).pos)
  {
    var k := EditComesFrom(src, calls, e);
    if k == n {
      OwnOpening(src, calls[n], e);
    } else {
      ApartBothWays(calls, k, n);
      EditsOfCallAreOwned(src, calls[k], e);
      OtherIsOutside(src, calls[n], calls[k], e.offset);
    }
  }

  lemma OtherIsOutside(src: string, c: Call, d: Call, x: nat)
    requires CallOk(src, c) && CallOk(src, d) && Apart(c, d) && c.args != []
    requires x == d.lparen + 1 || x == d.rparen
    ensures !(c.lparen < x <= First(c).pos)
  {
    assert ArgOk(src, c, First(c));
    if Inside(d, c) {
      var k :| 0 <= k < |c.args| && c.args[k].pos <= d.lparen && d.rparen < c.args[k].end;
      assert k > 0 ==> c.args[0].end <= c.args[k].pos;
    } else if Inside(c, d) {
      var k :| 0 <= k < |d.args| && d.args[k].pos <= c.lparen && c.rparen < d.args[k].end;
      assert ArgOk(src, d, d.args[k]);
    }
  }

  lemma BetweenOne(src: string, edits: seq<Edit>, p: nat)
    requires p < |src|
    ensures Between(src, edits, p, p + 1) == [src[p]] + TextAt(edits, p + 1)
  {
    assert Between(src, edits, p, p) == "" && "" + [src[p]] == [src[p]];
  }

  lemma TextOfOwn(src: string, calls: seq<Call>, n: nat, e: Edit)
    requires WellFormed(src, calls) && n < |calls| && SplitAfterFirstArg(src, calls[n])
    requires e in EditsOfCall(src, calls[n])
    ensures TextAt(EditsOf(src, calls), e.offset) == e.text
  {
    SplitHasEdit(src, calls, n, e);
    EditsAreDistinct(src, calls);
    TextOfOne(EditsOf(src, calls), e);
  }

  /** Behind the opening paren of c the edits write the opening text of c, and
      nothing else up to its first argument. */
  ghost predicate EditsOpen(src: string, edits: seq<Edit>, c: Call) {
    && CallOk(src, c) && SplitAfterFirstArg(src, c)
    && TextAt(edits, c.lparen + 1) == EditsOfCall(src, c)[0].text
    && !EditIn(edits, c.lparen + 1, First(c).pos)
  }

  lemma OwnEditsOpen(src: string, calls: seq<Call>, n: nat)
    requires WellFormed(src, calls) && n < |calls| && SplitAfterFirstArg(src, calls[n])
    ensures EditsOpen(src, EditsOf(src, calls), calls[n])
  {
    var c, edits := calls[n], EditsOf(src, calls);
    TextOfOwn(src, calls, n, EditsOfCall(src, c)[0]);
    forall i | 0 <= i < |edits| ensures !(c.lparen + 1 < edits[i].offset <= First(c).pos) {
      OpeningAlone(src, calls, n, edits[i]);
    }
  }

  /** What the weave has between the opening paren and the first argument. */
  lemma OpeningIsWoven(src: string, edits: seq<Edit>, c: Call)
    requires EditsOpen(src, edits, c)
    ensures ArgOk(src, c, First(c))
    ensures
      Between(src, edits, c.lparen, First(c).pos) ==
      ([src[c.lparen]] + EditsOfCall(src, c)[0].text) + src[c.lparen + 1..First(c).pos]
  {
    assert ArgOk(src, c, First(c));
    BetweenOne(src, edits, c.lparen);
    BetweenIsSource(src, edits, c.lparen + 1, First(c).pos);
    BetweenParts(src, edits, c.lparen, c.lparen + 1, First(c).pos);
  }

  predicate OneLine(s: string) {
    forall i :: 0 <= i < |s| ==> s[i] != '\n'
  }

  /** A text with one line end. */
  function TwoLines(before: string, rest: string): string {
    before + (['\n'] + rest)
  }

  lemma EndOfTwoLines(before: string, rest: string, i: nat)
    requires OneLine(before) && OneLine(rest) && i < |TwoLines(before, rest)|
    ensures TwoLines(before, rest)[i] == '\n' <==> i == |before|
  {
    var s := TwoLines(before, rest);
    if i < |before| {
      assert s[i] == before[i];
    } else if i > |before| {
      assert s[i] == rest[i - |before| - 1];
    }
  }

  lemma PartsOfTwoLines(before: string, rest: string)
    ensures |TwoLines(before, rest)| == |before| + 1 + |rest|
    ensures TwoLines(before, rest)[|before|] == '\n' && TwoLines(before, rest)[|before| + 1..] == rest
  {}

  /** It is not squeezed. */
  lemma TwoLinesStay(before: string, rest: string)
    requires OneLine(before) && OneLine(rest)
    ensures Squeezed(TwoLines(before, rest)) == TwoLines(before, rest)
  {
    var s := TwoLines(before, rest);
    forall i | 0 <= i < |s| - 2 ensures !(s[i] == ',' && s[i + 1] == '\n' && s[i + 2] == '\n') {
      EndOfTwoLines(before, rest, i + 1);
      EndOfTwoLines(before, rest, i + 2);
    }
    SqueezedIff(s);
  }

  /** The line with out[b] starts with line, which ends at b. */
  predicate StartsLine(out: string, b: nat, line: string) {
    |line| <= b < |out| && IsLineStart(out, b, b - |line|) && out[b - |line|..b] == line
  }

  /** The line that it ends on. */
  lemma LastOfTwoLines(out: string, a: nat, b: nat, before: string, rest: string)
    requires a <= b < |out| && OneLine(before) && OneLine(rest)
    requires out[a..b] == Squeezed(TwoLines(before, rest))
    ensures b == a + |before| + 1 + |rest| && StartsLine(out, b, rest)
  {
    TwoLinesStay(before, rest);
    PartsOfTwoLines(before, rest);
    LineStarts(out, a, b, |before| + 1, rest);
  }

  lemma LineStarts(out: string, a: nat, b: nat, n: nat, rest: string)
    requires a <= b < |out| && 0 < n <= b - a && OneLine(rest)
    requires out[a..b][n - 1] == '\n' && out[a..b][n..] == rest
    ensures StartsLine(out, b, rest)
  {
    assert out[a + n..b] == rest && out[a + n - 1] == '\n';
    forall i | a + n <= i < b ensures out[i] != '\n' {
      assert out[i] == rest[i - (a + n)];
    }
  }

  lemma IndentIsOneLine(src: string, c: Call)
    requires CallOk(src, c)
    ensures OneLine(Indent(src, c))
  {
    IndentIsBlank(src, c);
  }

  lemma SourceIsOneLine(src: string, p: nat, q: nat)
    requires p <= q <= |src| && !Breaks(src, p, q)
    ensures OneLine(src[p..q])
  {
    forall i | 0 <= i < |src[p..q]| ensures src[p..q][i] != '\n' {
      assert src[p..q][i] == src[p + i];
    }
  }

  lemma OneLineOfTwo(a: string, b: string)
    requires OneLine(a) && OneLine(b)
    ensures OneLine(a + b)
  {}

  /** The line of the first argument, up to it. */
  function FirstLine(src: string, c: Call): string
    requires CallOk(src, c) && c.args != []
  {
    assert ArgOk(src, c, First(c));
    (Indent(src, c) + "\t") + src[c.lparen + 1..First(c).pos]
  }

  /** Where the first argument starts in the output. */
  function PlaceOfFirst(src: string, edits: seq<Edit>, c: Call): nat
    requires CallOk(src, c) && c.args != []
  {
    assert ArgOk(src, c, First(c));
    Place(src, edits, First(c).pos)
  }

  lemma FirstLineIsOne(src: string, c: Call)
    requires CallOk(src, c) && SplitAfterFirstArg(src, c)
    ensures OneLine(FirstLine(src, c))
  {
    SplitIff(src, c);
    IndentIsOneLine(src, c);
    SourceIsOneLine(src, c.lparen + 1, First(c).pos);
    OneLineOfTwo(Indent(src, c), "\t");
    OneLineOfTwo(Indent(src, c) + "\t", src[c.lparen + 1..First(c).pos]);
  }

  lemma OpeningIsTwoLines(src: string, c: Call)
    requires CallOk(src, c) && SplitAfterFirstArg(src, c)
    ensures ArgOk(src, c, First(c))
    ensures
      ([src[c.lparen]] + EditsOfCall(src, c)[0].text) + src[c.lparen + 1..First(c).pos] ==
      TwoLines(['('], FirstLine(src, c))
  {
    assert ArgOk(src, c, First(c));
    assert "\n" + Indent(src, c) + "\t" == ['\n'] + (Indent(src, c) + "\t");
    Regrouped('(', Indent(src, c) + "\t", src[c.lparen + 1..First(c).pos]);
  }

  lemma Regrouped(c: char, x: string, y: string)
    ensures ([c] + (['\n'] + x)) + y == [c] + (['\n'] + (x + y))
  {}

  /** The first argument of a split call stands on a line that starts with the
      indent of the line of its opening paren and a tab. */
  lemma FirstArgIsIndented(src: string, calls: seq<Call>, n: nat)
    requires WellFormed(src, calls) && n < |calls| && SplitAfterFirstArg(src, calls[n])
    ensures
      var c := calls[n];
      StartsLine(Output(src, calls), PlaceOfFirst(src, EditsOf(src, calls), c), FirstLine(src, c))
  {
    OwnEditsOpen(src, calls, n);
    FirstLineStarts(src, EditsOf(src, calls), calls[n]);
  }

  lemma FirstLineStarts(src: string, edits: seq<Edit>, c: Call)
    requires EditsOpen(src, edits, c)
    ensures StartsLine(Squeeze(src, edits), PlaceOfFirst(src, edits, c), FirstLine(src, c))
  {
    assert ArgOk(src, c, First(c));
    OutputAt(src, edits, First(c).pos);
    OutputBetween(src, edits, c.lparen, First(c).pos);
    OpeningIsWoven(src, edits, c);
    OpeningIsTwoLines(src, c);
    FirstLineIsOne(src, c);
    LastOfTwoLines(
      Squeeze(src, edits), Place(src, edits, c.lparen), Place(src, edits, First(c).pos), ['('], FirstLine(src, c));
  }

  /** The line of the last argument from its last character on, and its comma. */
  function LastLine(src: string, c: Call): string
    requires CallOk(src, c) && c.args != []
  {
    assert ArgOk(src, c, Last(c));
    src[Last(c).end - 1..c.rparen] + if AddsComma(src, c) then "," else ""
  }

  lemma LastLineIsOne(src: string, c: Call)
    requires CallOk(src, c) && SplitAfterFirstArg(src, c) && '\n' !in Behind(src, c)
    ensures OneLine(LastLine(src, c))
  {
    assert ArgOk(src, c, Last(c));
    BreaksIsIn(src, Last(c).end, c.rparen);
    SourceIsOneLine(src, Last(c).end - 1, c.rparen);
    OneLineOfTwo(src[Last(c).end - 1..c.rparen], if AddsComma(src, c) then "," else "");
  }

  lemma ClosingIsTwoLines(src: string, c: Call)
    requires CallOk(src, c) && SplitAfterFirstArg(src, c) && '\n' !in Behind(src, c)
    ensures ArgOk(src, c, Last(c))
    ensures
      src[Last(c).end - 1..c.rparen] + ClosingIfSplit(src, c) == TwoLines(LastLine(src, c), Indent(src, c))
  {
    assert ArgOk(src, c, Last(c));
    var x := src[Last(c).end - 1..c.rparen];
    assert ",\n" + Indent(src, c) == "," + (['\n'] + Indent(src, c));
    assert x + ("," + (['\n'] + Indent(src, c))) == (x + ",") + (['\n'] + Indent(src, c));
    assert x + "" == x;
  }

  /** Where the closing paren stood on the line of the last argument, it gets a
      line of its own, with the indent of the line of the opening paren. */
  lemma ClosingIsIndented(src: string, calls: seq<Call>, n: nat)
    requires WellFormed(src, calls) && n < |calls| && SplitAfterFirstArg(src, calls[n])
    requires '\n' !in Behind(src, calls[n])
    ensures
      var c := calls[n];
      StartsLine(Output(src, calls), Place(src, EditsOf(src, calls), c.rparen), Indent(src, c))
  {
    OwnEditsFit(src, calls, n);
    LastLineEnds(src, EditsOf(src, calls), calls[n]);
  }

  lemma LastLineEnds(src: string, edits: seq<Edit>, c: Call)
    requires EditsFit(src, edits, c) && SplitAfterFirstArg(src, c) && '\n' !in Behind(src, c)
    ensures StartsLine(Squeeze(src, edits), Place(src, edits, c.rparen), Indent(src, c))
  {
    var out := Squeeze(src, edits);
    assert ArgOk(src, c, Last(c));
    OutputBehind(src, edits, c);
    OutputAt(src, edits, c.rparen);
    ClosingIsTwoLines(src, c);
    LastLineIsOne(src, c);
    IndentIsOneLine(src, c);
    LastOfTwoLines(
      out, Place(src, edits, Last(c).end - 1), Place(src, edits, c.rparen), LastLine(src, c), Indent(src, c));
  }
}
