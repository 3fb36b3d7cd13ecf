/** One pass of the rewrite is enough: what the parser and the next pass find in
    the output. */
module CallSplitFixpoint {
  import opened CallSplit
  import opened CallSplitPass

  // The squeeze takes line ends only.

  function Visible(c: char): string {
    if Space(c) then "" else [c]
  }

  function NonSpace(s: string): string {
    if s == "" then "" else Visible(s[0]) + NonSpace(s[1..])
  }

  lemma Rejoined(a: string, b: string, c: string)
    ensures a + (b + c) == (a + b) + c
  {}

  lemma {:induction false} NonSpaceConcat(a: string, b: string)
    ensures NonSpace(a + b) == NonSpace(a) + NonSpace(b)
  {
    if a == "" {
      assert a + b == b;
    } else {
      NonSpaceConcat(a[1..], b);
      assert (a + b)[0] == a[0] && (a + b)[1..] == a[1..] + b;
      Rejoined(Visible(a[0]), NonSpace(a[1..]), NonSpace(b));
    }
  }

  lemma {:induction false} SqueezedKeepsNonSpace(s: string)
    ensures NonSpace(Squeezed(s)) == NonSpace(s)
  {
    if s != "" {
      if DoubleEnd(s) {
        SqueezedKeepsNonSpace(s[3..]);
        NonSpaceConcat(",\n\n", s[3..]);
        NonSpaceConcat(",\n", Squeezed(s[3..]));
        assert s == ",\n\n" + s[3..];
        NonSpaceOfEnds();
      } else {
        SqueezedKeepsNonSpace(s[1..]);
        assert ([s[0]] + Squeezed(s[1..]))[1..] == Squeezed(s[1..]);
      }
    }
  }

  lemma NonSpaceOfEnds()
    ensures NonSpace(",\n\n") == NonSpace(",\n") == ","
  {
    assert ",\n\n"[1..] == "\n\n" && "\n\n"[1..] == "\n" && "\n"[1..] == "" && ",\n"[1..] == "\n";
    assert NonSpace("\n") == "" && NonSpace("\n\n") == "";
  }

  lemma {:induction false} AllSpace(s: string)
    ensures NonSpace(s) == "" <==> forall k :: 0 <= k < |s| ==> Space(s[k])
  {
    if s != "" {
      AllSpace(s[1..]);
      assert forall k :: 0 < k < |s| ==> s[k] == s[1..][k - 1];
      if forall k :: 0 <= k < |s[1..]| ==> Space(s[1..][k]) {
        forall k | 0 < k < |s| ensures Space(s[k]) {
          assert Space(s[1..][k - 1]);
        }
      } else {
        var k :| 0 <= k < |s[1..]| && !Space(s[1..][k]);
        assert !Space(s[k + 1]);
      }
    }
  }

  /** A text is only a comma exactly when that is all of it but the space. */
  lemma {:induction false} OnlyCommaIff(s: string)
    ensures OnlyComma(s) <==> NonSpace(s) == ","
  {
    if s != "" {
      var rest := s[1..];
      AllSpace(rest);
      OnlyCommaIff(rest);
      if Space(s[0]) {
        OnlyCommaOfRest(s);
      } else {
        OnlyCommaFirst(s);
        assert NonSpace(s) == [s[0]] + NonSpace(rest);
        assert NonSpace(rest) == "" ==> [s[0]] + NonSpace(rest) == [s[0]];
      }
    }
  }

  lemma OnlyCommaOfRest(s: string)
    requires s != "" && Space(s[0])
    ensures OnlyComma(s) <==> OnlyComma(s[1..])
  {
    var rest := s[1..];
    assert forall k :: 0 <= k < |rest| ==> rest[k] == s[k + 1];
    if OnlyComma(s) {
      var i :| 0 <= i < |s| && s[i] == ',' && forall k :: 0 <= k < |s| && k != i ==> Space(s[k]);
      assert rest[i - 1] == ',';
    }
    if OnlyComma(rest) {
      var i :| 0 <= i < |rest| && rest[i] == ',' && forall k :: 0 <= k < |rest| && k != i ==> Space(rest[k]);
      assert s[i + 1] == ',';
      forall k | 0 <= k < |s| && k != i + 1 ensures Space(s[k]) {
        assert k > 0 ==> Space(rest[k - 1]);
      }
    }
  }

  lemma OnlyCommaFirst(s: string)
    requires s != "" && !Space(s[0])
    ensures OnlyComma(s) <==> s[0] == ',' && forall k :: 0 <= k < |s[1..]| ==> Space(s[1..][k])
  {
    var rest := s[1..];
    assert forall k :: 0 <= k < |rest| ==> rest[k] == s[k + 1];
    if OnlyComma(s) {
      var i :| 0 <= i < |s| && s[i] == ',' && forall k :: 0 <= k < |s| && k != i ==> Space(s[k]);
      assert i == 0;
    }
    if s[0] == ',' && forall k :: 0 <= k < |rest| ==> Space(rest[k]) {
      forall k | 0 <= k < |s| && k != 0 ensures Space(s[k]) {
        assert Space(rest[k - 1]);
      }
    }
  }

  // The edits behind the last argument of a call.

  lemma {:induction false} TextOfOne(edits: seq<Edit>, e: Edit)
    requires Distinct(edits) && e in edits
    ensures TextAt(edits, e.offset) == e.text
  {
    var n := |edits| - 1;
    if edits[n] == e {
      NoTextBefore(edits[..n], e.offset);
    } else {
      var i :| 0 <= i < |edits| && edits[i] == e;
      assert edits[..n][i] == e;
      TextOfOne(edits[..n], e);
    }
  }

  lemma EditComesFrom(src: string, calls: seq<Call>, e: Edit) returns (k: nat)
    requires CallsOk(src, calls) && e in EditsOf(src, calls)
    ensures k < |calls| && SplitAfterFirstArg(src, calls[k]) && e in EditsOfCall(src, calls[k])
  {
    k := FlatComesFrom(EditLists(src, calls), |calls|, e);
  }

  /** No edit of another call stands behind the last argument of c, up to its
      closing paren. */
  lemma OtherEditsAreOutside(src: string, c: Call, d: Call, e: Edit)
    requires CallOk(src, c) && c.args != [] && EditOfCall(src, d, e) && Apart(c, d)
    ensures ArgOk(src, c, Last(c)) && !(Last(c).end - 1 < e.offset <= c.rparen)
  {
    assert ArgOk(src, c, Last(c)) && d.lparen < d.rparen;
    if Inside(d, c) {
      var k :| 0 <= k < |c.args| && c.args[k].pos <= d.lparen && d.rparen < c.args[k].end;
      assert k < |c.args| - 1 ==> c.args[k].end <= Last(c).pos;
    } else if Inside(c, d) {
      var k :| 0 <= k < |d.args| && d.args[k].pos <= c.lparen && c.rparen < d.args[k].end;
      assert ArgOk(src, d, d.args[k]);
    }
  }

  lemma OwnEditBehind(src: string, c: Call, e: Edit)
    requires CallOk(src, c) && SplitAfterFirstArg(src, c) && e in EditsOfCall(src, c)
    ensures
      ArgOk(src, c, Last(c)) &&
      (Last(c).end - 1 < e.offset <= c.rparen ==> e == Edit(c.rparen, Closing(src, c)) && Closing(src, c) != "")
  {
    SplitIff(src, c);
  }

  /** Behind the last argument of a call the only edit is its own closing one. */
  lemma EditsBehind(src: string, calls: seq<Call>, n: nat, e: Edit)
    requires WellFormed(src, calls) && n < |calls| && calls[n].args != [] && e in EditsOf(src, calls)
    ensures ArgOk(src, calls[n], Last(calls[n]))
    ensures
      var c := calls[n];
      Last(c).end - 1 < e.offset <= c.rparen ==>
        SplitAfterFirstArg(src, c) && e == Edit(c.rparen, Closing(src, c)) && Closing(src, c) != ""
  {
    assert ArgOk(src, calls[n], Last(calls[n]));
    var k := EditComesFrom(src, calls, e);
    if k == n {
      OwnEditBehind(src, calls[n], e);
    } else {
      EditsOfCallAreOwned(src, calls[k], e);
      ApartBothWays(calls, k, n);
      OtherEditsAreOutside(src, calls[n], calls[k], e);
    }
  }

  function ClosingIfSplit(src: string, c: Call): string
    requires CallOk(src, c) && c.args != []
  {
    if SplitAfterFirstArg(src, c) then Closing(src, c) else ""
  }

  /** What the edits write at the closing paren of a call. */
  lemma TextAtClosing(src: string, calls: seq<Call>, n: nat)
    requires WellFormed(src, calls) && n < |calls| && calls[n].args != []
    ensures TextAt(EditsOf(src, calls), calls[n].rparen) == ClosingIfSplit(src, calls[n])
  {
    var c, edits := calls[n], EditsOf(src, calls);
    assert ArgOk(src, c, Last(c));
    EditsAreDistinct(src, calls);
    if SplitAfterFirstArg(src, c) && Closing(src, c) != "" {
      var e := EditsOfCall(src, c)[1];
      SplitHasEdit(src, calls, n, e);
      TextOfOne(edits, e);
    } else {
      forall i | 0 <= i < |edits| ensures edits[i].offset != c.rparen {
        EditsBehind(src, calls, n, edits[i]);
      }
      NoTextBefore(edits, c.rparen);
    }
  }

  lemma {:induction false} BetweenIsSource(src: string, edits: seq<Edit>, p: nat, q: nat)
    requires p <= q <= |src| && !EditIn(edits, p, q)
    ensures Between(src, edits, p, q) == src[p..q]
    decreases q
  {
    if p < q {
      EditInStep(edits, p, q);
      BetweenIsSource(src, edits, p, q - 1);
      NoTextBefore(edits, q);
      assert src[p..q] == src[p..q - 1] + [src[q - 1]];
    }
  }

  lemma BetweenAndText(src: string, edits: seq<Edit>, p: nat, q: nat)
    requires p < q <= |src| && !EditIn(edits, p, q - 1)
    ensures Between(src, edits, p, q) == src[p..q] + TextAt(edits, q)
  {
    BetweenIsSource(src, edits, p, q - 1);
    SliceLast(src, p, q);
  }

  lemma SliceLast(src: string, p: nat, q: nat)
    requires p < q <= |src|
    ensures src[p..q] == src[p..q - 1] + [src[q - 1]]
  {}

  lemma NoEditBehind(src: string, calls: seq<Call>, n: nat)
    requires WellFormed(src, calls) && n < |calls| && calls[n].args != []
    ensures ArgOk(src, calls[n], Last(calls[n]))
    ensures !EditIn(EditsOf(src, calls), Last(calls[n]).end - 1, calls[n].rparen - 1)
  {
    var c, edits := calls[n], EditsOf(src, calls);
    assert ArgOk(src, c, Last(c));
    forall i | 0 <= i < |edits| ensures !(Last(c).end - 1 < edits[i].offset <= c.rparen - 1) {
      EditsBehind(src, calls, n, edits[i]);
    }
  }

  /** Behind the last argument of c the edits write the closing text of c, and
      nothing else. */
  ghost predicate EditsFit(src: string, edits: seq<Edit>, c: Call) {
    CallOk(src, c) && CommasOk(src, c) &&
    (c.args != [] ==>
       assert ArgOk(src, c, Last(c));
       && !EditIn(edits, Last(c).end - 1, c.rparen - 1)
       && TextAt(edits, c.rparen) == ClosingIfSplit(src, c))
  }

  lemma OwnEditsFit(src: string, calls: seq<Call>, n: nat)
    requires WellFormed(src, calls) && n < |calls|
    ensures EditsFit(src, EditsOf(src, calls), calls[n])
  {
    if calls[n].args != [] {
      NoEditBehind(src, calls, n);
      TextAtClosing(src, calls, n);
    }
  }

  /** What stands in the output behind the last argument of a call. */
  lemma OutputBehind(src: string, edits: seq<Edit>, c: Call)
    requires EditsFit(src, edits, c) && c.args != []
    ensures ArgOk(src, c, Last(c))
    ensures
      var a, b, out := Place(src, edits, Last(c).end - 1), Place(src, edits, c.rparen), Squeeze(src, edits);
      a < b < |out| && out[a..b] == Squeezed(src[Last(c).end - 1..c.rparen] + ClosingIfSplit(src, c))
  {
    assert ArgOk(src, c, Last(c));
    BetweenAndText(src, edits, Last(c).end - 1, c.rparen);
    OutputBetween(src, edits, Last(c).end - 1, c.rparen);
  }

  // The commas of the output.

  lemma {:induction false} SqueezedBlanks(s: string)
    requires forall k :: 0 <= k < |s| ==> Blank(s[k])
    ensures Squeezed(s) == s
  {
    if s != "" {
      SqueezedBlanks(s[1..]);
    }
  }

  lemma SqueezedOne(c: char, rest: string)
    requires !DoubleEnd([c] + rest)
    ensures Squeezed([c] + rest) == [c] + Squeezed(rest)
  {
    assert ([c] + rest)[1..] == rest;
  }

  lemma EndThenBlanks(indent: string)
    requires forall k :: 0 <= k < |indent| ==> Blank(indent[k])
    ensures Squeezed(['\n'] + indent) == ['\n'] + indent
  {
    SqueezedBlanks(indent);
    SqueezedOne('\n', indent);
  }

  lemma NoDoubleEnd(indent: string)
    requires indent != "" ==> indent[0] != '\n'
    ensures !DoubleEnd([','] + (['\n'] + indent))
  {
    var s := [','] + (['\n'] + indent);
    assert |s| >= 3 ==> s[2] == indent[0];
  }

  lemma SqueezedClosing(indent: string)
    requires forall k :: 0 <= k < |indent| ==> Blank(indent[k])
    ensures Squeezed(",\n" + indent) == ",\n" + indent
  {
    EndThenBlanks(indent);
    NoDoubleEnd(indent);
    SqueezedOne(',', ['\n'] + indent);
    assert ",\n" + indent == [','] + (['\n'] + indent);
  }

  lemma IndentIsBlank(src: string, c: Call)
    requires CallOk(src, c)
    ensures forall k :: 0 <= k < |Indent(src, c)| ==> Blank(Indent(src, c)[k])
  {
    var start := StartOfLine(src, c.lparen);
    assert IsIndent(src, start, Indent(src, c));
    forall k | 0 <= k < |Indent(src, c)| ensures Blank(Indent(src, c)[k]) {
      assert Indent(src, c)[k] == src[start + k];
    }
  }

  /** An edit at q is written behind each token before q. */
  lemma EditPlaceIsBehind(src: string, edits: seq<Edit>, t: nat, q: nat)
    requires Token(src, t) && t < q <= |src|
    ensures Place(src, edits, t) < EditPlace(src, edits, q)
  {
    var rest := Between(src, edits, t, q - 1) + [src[q - 1]];
    WovenParts(src, edits, t, q - 1);
    assert Woven(src, edits, q - 1) + [src[q - 1]] == Woven(src, edits, t) + rest;
    if t < q - 1 {
      BetweenStarts(src, edits, t, q - 1);
    }
    assert rest[0] == src[t];
    SqueezedConcat(Woven(src, edits, t), rest);
    SqueezedBreaks(rest);
  }

  lemma WovenStepIs(src: string, edits: seq<Edit>, q: nat)
    requires 0 < q <= |src|
    ensures Woven(src, edits, q) == (Woven(src, edits, q - 1) + [src[q - 1]]) + TextAt(edits, q)
  {}

  lemma OutputStarts(src: string, edits: seq<Edit>, q: nat, front: string, text: string)
    requires Token(src, q) && Squeezed(Woven(src, edits, q)) == front + text && text != ""
    ensures |front| < Place(src, edits, q) < |Squeeze(src, edits)|
    ensures Squeeze(src, edits)[|front|] == text[0]
  {
    OutputAt(src, edits, q);
    var rest := Squeezed(Between(src, edits, q, |src|));
    assert ((front + text) + rest)[|front|] == text[0];
  }

  /** A comma that the rewrite adds stands in front of the closing paren. */
  lemma AddedComma(src: string, edits: seq<Edit>, c: Call)
    requires EditsFit(src, edits, c) && AddsComma(src, c)
    ensures
      var p := EditPlace(src, edits, c.rparen);
      p < Place(src, edits, c.rparen) < |Squeeze(src, edits)| && Squeeze(src, edits)[p] == ','
  {
    var before := Woven(src, edits, c.rparen - 1) + [src[c.rparen - 1]];
    ClosingAdds(src, c);
    WovenStepIs(src, edits, c.rparen);
    SqueezedWoven(Woven(src, edits, c.rparen), before, ClosingIfSplit(src, c));
    OutputStarts(src, edits, c.rparen, Squeezed(before), ClosingIfSplit(src, c));
  }

  lemma ClosingAdds(src: string, c: Call)
    requires CallOk(src, c) && AddsComma(src, c)
    ensures c.args != []
    ensures
      var text := ClosingIfSplit(src, c);
      text != "" && text[0] == ',' && Squeezed(text) == text
  {
    IndentIsBlank(src, c);
    SqueezedClosing(Indent(src, c));
  }

  lemma SqueezedWoven(woven: string, before: string, text: string)
    requires woven == before + text && text != "" && text[0] != '\n' && Squeezed(text) == text
    ensures Squeezed(woven) == Squeezed(before) + text
  {
    SqueezedConcat(before, text);
  }

  lemma MovedCommaIsOk(src: string, edits: seq<Edit>, c: Call, k: nat)
    requires CallOk(src, c) && CommasOk(src, c) && k < |c.commas|
    ensures c.args != [] && ArgOk(src, c, Last(c)) && c.commas[k] < c.rparen
    ensures
      var p, out := Place(src, edits, c.commas[k]), Squeeze(src, edits);
      && Place(src, edits, Last(c).end - 1) < p < Place(src, edits, c.rparen) < |out|
      && out[p] == ','
  {
    assert ArgOk(src, c, Last(c));
    PlacesInOrder(src, edits, Last(c).end - 1, c.commas[k]);
    PlacesInOrder(src, edits, c.commas[k], c.rparen);
  }

  lemma SameTail(a: string, b: string)
    requires a != "" && b != "" && a[0] == b[0] && NonSpace(a) == NonSpace(b)
    ensures NonSpace(a[1..]) == NonSpace(b[1..])
  {
    if Space(a[0]) {
      assert "" + NonSpace(a[1..]) == NonSpace(a[1..]) && "" + NonSpace(b[1..]) == NonSpace(b[1..]);
    } else {
      assert NonSpace(a)[1..] == NonSpace(a[1..]);
      assert NonSpace(b)[1..] == NonSpace(b[1..]);
    }
  }

  lemma OnlyCommaSqueezed(s: string)
    requires s != ""
    ensures Squeezed(s) != "" && (OnlyComma(Squeezed(s)[1..]) <==> OnlyComma(s[1..]))
  {
    SqueezedRest(s);
    OnlyCommaIff(Squeezed(s)[1..]);
    OnlyCommaIff(s[1..]);
  }

  /** Where the output has only a comma behind the last argument, the parser
      finds that comma: it was there, or the rewrite added it. */
  lemma OnlyCommaIsFound(src: string, edits: seq<Edit>, c: Call)
    requires EditsFit(src, edits, c) && c.args != [] && c.commas == [] && !AddsComma(src, c)
    ensures ArgOk(src, c, Last(c))
    ensures
      var a, b, out := Place(src, edits, Last(c).end - 1), Place(src, edits, c.rparen), Squeeze(src, edits);
      a < b < |out| && !OnlyComma(out[a + 1..b])
  {
    OutputBehind(src, edits, c);
    var s := src[Last(c).end - 1..c.rparen];
    assert ClosingIfSplit(src, c) == "" && s + "" == s;
    OnlyCommaSqueezed(s);
    assert s[1..] == Behind(src, c);
    var a, b, out := Place(src, edits, Last(c).end - 1), Place(src, edits, c.rparen), Squeeze(src, edits);
    assert out[a..b][1..] == out[a + 1..b];
  }

  lemma CommasAscend(src: string, edits: seq<Edit>, c: Call, j: nat, k: nat)
    requires CallOk(src, c) && CommasOk(src, c) && j < k < |MovedCommas(src, edits, c)|
    ensures MovedCommas(src, edits, c)[j] < MovedCommas(src, edits, c)[k]
  {
    MovedCommaIsOk(src, edits, c, j);
    if k < |c.commas| {
      MovedCommaIsOk(src, edits, c, k);
      PlacesInOrder(src, edits, c.commas[j], c.commas[k]);
    } else {
      EditPlaceIsBehind(src, edits, c.commas[j], c.rparen);
    }
  }

  lemma CommaStandsBehind(src: string, edits: seq<Edit>, c: Call, k: nat)
    requires EditsFit(src, edits, c) && c.args != [] && k < |MovedCommas(src, edits, c)|
    ensures ArgOk(src, c, Last(c))
    ensures
      var comma, out := MovedCommas(src, edits, c)[k], Squeeze(src, edits);
      && Place(src, edits, Last(c).end - 1) < comma < Place(src, edits, c.rparen) < |out|
      && out[comma] == ','
  {
    assert ArgOk(src, c, Last(c));
    if k < |c.commas| {
      MovedCommaIsOk(src, edits, c, k);
    } else {
      AddedComma(src, edits, c);
      EditPlaceIsBehind(src, edits, Last(c).end - 1, c.rparen);
    }
  }

  lemma MovedCommasOk(src: string, edits: seq<Edit>, c: Call)
    requires EditsFit(src, edits, c)
    ensures
      var d := Moved(src, edits, c);
      CallOk(Squeeze(src, edits), d) && CommasOk(Squeeze(src, edits), d)
  {
    MovedCallIsOk(src, edits, c);
    if c.args != [] {
      CommasOfMoved(src, edits, c);
    }
  }

  /** The commas stand in the output behind position last, in front of end. */
  predicate StandBehind(out: string, commas: seq<nat>, last: nat, end: nat) {
    && (forall k :: 0 <= k < |commas| ==> last < commas[k] < end && commas[k] < |out| && out[commas[k]] == ',')
    && (forall j, k :: 0 <= j < k < |commas| ==> commas[j] < commas[k])
    && (commas == [] ==> last < end <= |out| && !OnlyComma(out[last + 1..end]))
  }

  lemma CommasOkWhen(out: string, d: Call, last: nat)
    requires CallOk(out, d) && d.args != [] && Last(d).end == last + 1
    requires StandBehind(out, d.commas, last, d.rparen)
    ensures CommasOk(out, d)
  {
    assert ArgOk(out, d, Last(d));
  }

  lemma MovedStandBehind(src: string, edits: seq<Edit>, c: Call)
    requires EditsFit(src, edits, c) && c.args != []
    ensures ArgOk(src, c, Last(c))
    ensures
      StandBehind(
        Squeeze(src, edits), MovedCommas(src, edits, c), Place(src, edits, Last(c).end - 1),
        Place(src, edits, c.rparen))
  {
    assert ArgOk(src, c, Last(c));
    var last, end, out := Place(src, edits, Last(c).end - 1), Place(src, edits, c.rparen), Squeeze(src, edits);
    var commas := MovedCommas(src, edits, c);
    forall k | 0 <= k < |commas| ensures last < commas[k] < end && commas[k] < |out| && out[commas[k]] == ',' {
      CommaStandsBehind(src, edits, c, k);
    }
    forall j, k | 0 <= j < k < |commas| ensures commas[j] < commas[k] {
      CommasAscend(src, edits, c, j, k);
    }
    if commas == [] {
      OnlyCommaIsFound(src, edits, c);
    }
  }

  lemma CommasOfMoved(src: string, edits: seq<Edit>, c: Call)
    requires EditsFit(src, edits, c) && c.args != []
    requires CallOk(Squeeze(src, edits), Moved(src, edits, c))
    ensures CommasOk(Squeeze(src, edits), Moved(src, edits, c))
  {
    MovedLast(src, edits, c);
    MovedStandBehind(src, edits, c);
    CommasOkWhen(Squeeze(src, edits), Moved(src, edits, c), Place(src, edits, Last(c).end - 1));
  }

  /** The calls of the output lie in it as those of the source do in theirs. */
  lemma MovedWellFormed(src: string, calls: seq<Call>)
    requires WellFormed(src, calls)
    ensures WellFormed(Output(src, calls), MovedCalls(src, EditsOf(src, calls), calls))
  {
    var edits := EditsOf(src, calls);
    var there := MovedCalls(src, edits, calls);
    forall i | 0 <= i < |calls| ensures CallOk(Output(src, calls), there[i]) && CommasOk(Output(src, calls), there[i]) {
      OwnEditsFit(src, calls, i);
      MovedCommasOk(src, edits, calls[i]);
    }
    forall i, j | 0 <= i < j < |calls| ensures Apart(there[i], there[j]) {
      MovedApart(src, edits, calls[i], calls[j]);
    }
  }

  /** One pass is a fixpoint: no call of the output is split, at any depth, and
      the next pass has nothing to edit. */
  lemma {:induction false} OnePassIsEnough(src: string, calls: seq<Call>)
    requires WellFormed(src, calls)
    ensures
      var out, there := Output(src, calls), MovedCalls(src, EditsOf(src, calls), calls);
      WellFormed(out, there) && EditsOf(out, there) == [] && Offenders(out, there, |there|) == 0
  {
    var edits := EditsOf(src, calls);
    var out, there := Output(src, calls), MovedCalls(src, edits, calls);
    MovedWellFormed(src, calls);
    forall i | 0 <= i < |there| ensures !SplitAfterFirstArg(out, there[i]) {
      CallIsNotSplit(src, calls, i);
    }
    NoEdits(out, there);
  }

  // Whether the parser takes the output.

  /** No call has two commas behind its last argument. */
  predicate OneCommaEach(calls: seq<Call>) {
    forall i :: 0 <= i < |calls| ==> |calls[i].commas| <= 1
  }

  /** A split call with the closing paren on the line of its last argument, and
      with a comma there beside something other than space. */
  predicate DoublesComma(src: string, c: Call)
    requires CallOk(src, c)
  {
    && SplitAfterFirstArg(src, c) && !Breaks(src, Last(c).end, c.rparen)
    && c.commas != [] && !OnlyComma(Behind(src, c))
  }

  lemma CommaCount(src: string, edits: seq<Edit>, c: Call)
    requires CallOk(src, c) && CommasOk(src, c) && |c.commas| <= 1
    ensures |Moved(src, edits, c).commas| <= 1 <==> !DoublesComma(src, c)
  {
    if SplitAfterFirstArg(src, c) {
      assert ArgOk(src, c, Last(c));
      BreaksIsIn(src, Last(c).end, c.rparen);
    }
  }

  /** Behind the last argument of d in the output stands what stands there in the
      source, and the comma that the rewrite adds, but for space. */
  ghost predicate SameBehind(src: string, c: Call, out: string, d: Call) {
    && CallOk(src, c) && CallOk(out, d) && (c.args == [] <==> d.args == [])
    && (c.args != [] ==> NonSpace(Behind(out, d)) == NonSpace(Behind(src, c)) + if AddsComma(src, c) then "," else "")
  }

  lemma NonSpaceOfClosing(src: string, c: Call)
    requires CallOk(src, c) && c.args != []
    ensures NonSpace(ClosingIfSplit(src, c)) == if AddsComma(src, c) then "," else ""
  {
    var indent := Indent(src, c);
    IndentIsBlank(src, c);
    AllSpace(indent);
    NonSpaceConcat(",\n", indent);
    NonSpaceConcat("\n", indent);
    NonSpaceOfEnds();
    AllSpace("\n");
  }

  lemma VisibleBehind(src: string, edits: seq<Edit>, c: Call)
    requires EditsFit(src, edits, c) && c.args != []
    ensures ArgOk(src, c, Last(c))
    ensures
      var a, b, out := Place(src, edits, Last(c).end - 1), Place(src, edits, c.rparen), Squeeze(src, edits);
      && a < b < |out|
      && NonSpace(out[a + 1..b]) == NonSpace(Behind(src, c)) + if AddsComma(src, c) then "," else ""
  {
    OutputBehind(src, edits, c);
    SqueezedBehind(src, c);
    VisibleTail(
      Squeeze(src, edits), Place(src, edits, Last(c).end - 1), Place(src, edits, c.rparen),
      Squeezed(src[Last(c).end - 1..c.rparen] + ClosingIfSplit(src, c)));
  }

  lemma VisibleTail(out: string, a: nat, b: nat, s: string)
    requires a < b <= |out| && out[a..b] == s
    ensures NonSpace(out[a + 1..b]) == NonSpace(s[1..])
  {
    assert s[1..] == out[a + 1..b];
  }

  /** The same of the text from the last character of the last argument on. */
  lemma SqueezedBehind(src: string, c: Call)
    requires CallOk(src, c) && c.args != []
    ensures ArgOk(src, c, Last(c))
    ensures
      var x := src[Last(c).end - 1..c.rparen] + ClosingIfSplit(src, c);
      && Squeezed(x) != ""
      && NonSpace(Squeezed(x)[1..]) == NonSpace(Behind(src, c)) + if AddsComma(src, c) then "," else ""
  {
    assert ArgOk(src, c, Last(c));
    var x := src[Last(c).end - 1..c.rparen] + ClosingIfSplit(src, c);
    SqueezedRest(x);
    assert x[1..] == Behind(src, c) + ClosingIfSplit(src, c);
    NonSpaceConcat(Behind(src, c), ClosingIfSplit(src, c));
    NonSpaceOfClosing(src, c);
  }

  lemma SqueezedRest(x: string)
    requires x != ""
    ensures Squeezed(x) != "" && NonSpace(Squeezed(x)[1..]) == NonSpace(x[1..])
  {
    SqueezedKeepsNonSpace(x);
    SqueezedBreaks(x);
    SameTail(Squeezed(x), x);
  }

  lemma MovedHasSameBehind(src: string, edits: seq<Edit>, c: Call)
    requires EditsFit(src, edits, c)
    ensures SameBehind(src, c, Squeeze(src, edits), Moved(src, edits, c))
  {
    MovedCallIsOk(src, edits, c);
    if c.args != [] {
      VisibleBehind(src, edits, c);
      BehindMoved(src, edits, c);
    }
  }

  lemma BehindMoved(src: string, edits: seq<Edit>, c: Call)
    requires CallOk(src, c) && CommasOk(src, c) && c.args != []
    requires ArgOk(src, c, Last(c))
    requires Place(src, edits, Last(c).end - 1) < Place(src, edits, c.rparen) < |Squeeze(src, edits)|
    ensures
      var out, d := Squeeze(src, edits), Moved(src, edits, c);
      && CallOk(out, d) && d.args != []
      && Behind(out, d) == out[Place(src, edits, Last(c).end - 1) + 1..Place(src, edits, c.rparen)]
  {
    MovedLast(src, edits, c);
  }

  /** The output has at most one comma in front of each closing paren, as the
      parser demands, exactly when no split call closes on the line of its last
      argument behind a comma that stands beside a comment or an ellipsis. The
      moved commas are all there are: behind the last argument of each call the
      rewrite writes no other character but space. */
  lemma ParsesIff(src: string, calls: seq<Call>)
    requires WellFormed(src, calls) && OneCommaEach(calls)
    ensures
      var out, there := Output(src, calls), MovedCalls(src, EditsOf(src, calls), calls);
      && (OneCommaEach(there) <==> forall i :: 0 <= i < |calls| ==> !DoublesComma(src, calls[i]))
      && (forall i :: 0 <= i < |calls| ==> SameBehind(src, calls[i], out, there[i]))
  {
    var edits := EditsOf(src, calls);
    var there := MovedCalls(src, edits, calls);
    forall i | 0 <= i < |calls| ensures |there[i].commas| <= 1 <==> !DoublesComma(src, calls[i]) {
      CommaCount(src, edits, calls[i]);
    }
    forall i | 0 <= i < |calls| ensures SameBehind(src, calls[i], Output(src, calls), there[i]) {
      OwnEditsFit(src, calls, i);
      MovedHasSameBehind(src, edits, calls[i]);
    }
  }

  const COMMENTED := "f(a,\n\tb, /* c */)"
  const COMMENTED_CALL := Call(1, [Arg(2, 3), Arg(6, 7)], [7], 16)

  /** A file that parses and whose output has two commas in front of a closing
      paren. */
  lemma DoubledComma()
    ensures WellFormed(COMMENTED, [COMMENTED_CALL]) && OneCommaEach([COMMENTED_CALL])
    ensures
      var calls := [COMMENTED_CALL];
      var edits, out := EditsOf(COMMENTED, calls), Output(COMMENTED, calls);
      var d := Moved(COMMENTED, edits, COMMENTED_CALL);
      && |d.commas| == 2 && d.commas[0] < d.commas[1] < d.rparen < |out|
      && out[d.commas[0]] == out[d.commas[1]] == ',' && out[d.rparen] == ')'
  {
    var c, calls := COMMENTED_CALL, [COMMENTED_CALL];
    CommentedIsWellFormed();
    OwnEditsFit(COMMENTED, calls, 0);
    MovedCommasOk(COMMENTED, EditsOf(COMMENTED, calls), c);
    assert AddsComma(COMMENTED, c);
  }

  lemma CommentedIsWellFormed()
    ensures WellFormed(COMMENTED, [COMMENTED_CALL]) && AddsComma(COMMENTED, COMMENTED_CALL)
  {
    var src, c := COMMENTED, COMMENTED_CALL;
    assert ArgOk(src, c, c.args[0]) && ArgOk(src, c, c.args[1]);
    assert CallOk(src, c);
    var behind := Behind(src, c);
    assert behind == ", /* c */";
    assert behind[0] == ',' && behind[2] == '/' && !OnlyComma(behind) by {
      assert !Space(behind[0]) && !Space(behind[2]);
    }
    assert src[4] == '\n';
    SplitIff(src, c);
    assert Breaks(src, 2, 6);
  }

  // What the squeeze changes besides.

  /** A comma and two line ends. */
  predicate HasDoubleEnd(s: string) {
    exists i :: 0 <= i < |s| - 2 && s[i] == ',' && s[i + 1] == '\n' && s[i + 2] == '\n'
  }

  lemma DoubleEndInRest(s: string)
    requires s != ""
    ensures HasDoubleEnd(s) <==> DoubleEnd(s) || HasDoubleEnd(s[1..])
  {
    var rest := s[1..];
    assert forall k :: 0 <= k < |rest| ==> rest[k] == s[k + 1];
    if HasDoubleEnd(s) {
      var i :| 0 <= i < |s| - 2 && s[i] == ',' && s[i + 1] == '\n' && s[i + 2] == '\n';
      assert i > 0 ==> rest[i - 1] == ',' && rest[i] == '\n' && rest[i + 1] == '\n';
    }
    if HasDoubleEnd(rest) {
      var i :| 0 <= i < |rest| - 2 && rest[i] == ',' && rest[i + 1] == '\n' && rest[i + 2] == '\n';
      assert s[i + 1] == ',' && s[i + 2] == '\n' && s[i + 3] == '\n';
    }
  }

  lemma {:induction false} SqueezedIsShorter(s: string)
    ensures |Squeezed(s)| <= |s|
  {
    if s != "" {
      SqueezedIsShorter(if DoubleEnd(s) then s[3..] else s[1..]);
    }
  }

  /** The squeeze keeps a text exactly when it holds no comma with two line ends
      behind it. */
  lemma {:induction false} SqueezedIff(s: string)
    ensures Squeezed(s) == s <==> !HasDoubleEnd(s)
  {
    if s != "" {
      DoubleEndInRest(s);
      if DoubleEnd(s) {
        SqueezedIsShorter(s[3..]);
      } else {
        SqueezedIff(s[1..]);
        assert Squeezed(s)[1..] == Squeezed(s[1..]);
        assert s == [s[0]] + s[1..];
      }
    }
  }

  /** The text between two tokens that no edit parts, such as that of a raw
      string, comes out as it was exactly when it holds no comma with two line
      ends behind it. */
  lemma TextStaysIff(src: string, edits: seq<Edit>, p: nat, q: nat)
    requires Token(src, p) && Token(src, q) && p < q && !EditIn(edits, p, q)
    ensures Place(src, edits, p) < Place(src, edits, q) < |Squeeze(src, edits)|
    ensures
      Squeeze(src, edits)[Place(src, edits, p)..Place(src, edits, q)] == src[p..q] <==> !HasDoubleEnd(src[p..q])
  {
    OutputBetween(src, edits, p, q);
    BetweenIsSource(src, edits, p, q);
    SqueezedIff(src[p..q]);
  }

  const RAW := "f(a,\n\tb, `x,\n\ny`)"
  const RAW_CALL := Call(1, [Arg(2, 3), Arg(6, 7), Arg(9, 16)], [], 16)

  /** A raw string that the rewrite of the call around it changes. */
  lemma RawStringChanges()
    ensures WellFormed(RAW, [RAW_CALL]) && RAW[9] == RAW[15] == '`'
    ensures
      var edits, out := EditsOf(RAW, [RAW_CALL]), Output(RAW, [RAW_CALL]);
      && Place(RAW, edits, 9) < Place(RAW, edits, 15) < |out|
      && out[Place(RAW, edits, 9)..Place(RAW, edits, 15)] != RAW[9..15]
  {
    RawIsWellFormed();
    RawHasNoEdit();
    var s := RAW[9..15];
    assert s[2] == ',' && s[3] == '\n' && s[4] == '\n';
    TextStaysIff(RAW, EditsOf(RAW, [RAW_CALL]), 9, 15);
  }

  lemma RawIsWellFormed()
    ensures WellFormed(RAW, [RAW_CALL])
  {
    var src, c := RAW, RAW_CALL;
    assert ArgOk(src, c, c.args[0]) && ArgOk(src, c, c.args[1]) && ArgOk(src, c, c.args[2]);
    assert CallOk(src, c);
    assert Behind(src, c) == "";
  }

  lemma RawHasNoEdit()
    requires CallsOk(RAW, [RAW_CALL])
    ensures !EditIn(EditsOf(RAW, [RAW_CALL]), 9, 15)
  {
    var edits := EditsOf(RAW, [RAW_CALL]);
    forall i | 0 <= i < |edits| ensures !(9 < edits[i].offset <= 15) {
      var k := EditComesFrom(RAW, [RAW_CALL], edits[i]);
      EditsOfCallAreOwned(RAW, [RAW_CALL][k], edits[i]);
    }
  }
}
