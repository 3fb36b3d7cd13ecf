/** Where the parts of the source stand in the output of the rewrite, and which
    lines they are on. */
module CallSplitPass {
  import opened CallSplit

  // What the weave puts between two positions of the source.

  function Between(src: string, edits: seq<Edit>, p: nat, q: nat): string
    requires p <= q <= |src|
  {
    if p == q then "" else Between(src, edits, p, q - 1) + [src[q - 1]] + TextAt(edits, q)
  }

  lemma {:induction false} WovenParts(src: string, edits: seq<Edit>, p: nat, q: nat)
    requires p <= q <= |src|
    ensures Woven(src, edits, q) == Woven(src, edits, p) + Between(src, edits, p, q)
    decreases q
  {
    if p == q {
      assert Woven(src, edits, p) + "" == Woven(src, edits, p);
    } else {
      WovenParts(src, edits, p, q - 1);
      var a, b := Woven(src, edits, p), Between(src, edits, p, q - 1);
      assert ((a + b) + [src[q - 1]]) + TextAt(edits, q) == a + (b + [src[q - 1]] + TextAt(edits, q));
    }
  }

  lemma {:induction false} BetweenParts(src: string, edits: seq<Edit>, p: nat, q: nat, r: nat)
    requires p <= q <= r <= |src|
    ensures Between(src, edits, p, r) == Between(src, edits, p, q) + Between(src, edits, q, r)
    decreases r
  {
    if q < r {
      BetweenParts(src, edits, p, q, r - 1);
      var a, b := Between(src, edits, p, q), Between(src, edits, q, r - 1);
      assert ((a + b) + [src[r - 1]]) + TextAt(edits, r) == a + (b + [src[r - 1]] + TextAt(edits, r));
    }
  }

  lemma {:induction false} BetweenStarts(src: string, edits: seq<Edit>, p: nat, q: nat)
    requires p < q <= |src|
    ensures Between(src, edits, p, q) != "" && Between(src, edits, p, q)[0] == src[p]
    decreases q
  {
    if p < q - 1 {
      BetweenStarts(src, edits, p, q - 1);
    }
  }

  /** Some edit stands behind position p, up to q. */
  predicate EditIn(edits: seq<Edit>, p: nat, q: nat) {
    exists i :: 0 <= i < |edits| && p < edits[i].offset <= q
  }

  predicate AllBreak(edits: seq<Edit>) {
    forall i :: 0 <= i < |edits| ==> '\n' in edits[i].text
  }

  lemma {:induction false} TextBreaks(edits: seq<Edit>, p: nat)
    requires AllBreak(edits)
    ensures '\n' in TextAt(edits, p) <==> exists i :: 0 <= i < |edits| && edits[i].offset == p
  {
    if edits != [] {
      var n := |edits| - 1;
      TextBreaks(edits[..n], p);
      if i :| 0 <= i < |edits| && edits[i].offset == p {
        if i < n {
          assert edits[..n][i].offset == p;
        }
      }
      if i :| 0 <= i < n && edits[..n][i].offset == p {
        assert edits[i].offset == p;
      }
    }
  }

  /** A line ends in the weave exactly where one ends in the source, or where an
      edit is. */
  lemma {:induction false} BetweenBreaks(src: string, edits: seq<Edit>, p: nat, q: nat)
    requires p <= q <= |src| && AllBreak(edits)
    ensures '\n' in Between(src, edits, p, q) <==> Breaks(src, p, q) || EditIn(edits, p, q)
    decreases q
  {
    if p < q {
      BetweenBreaks(src, edits, p, q - 1);
      TextBreaks(edits, q);
      BreaksStep(src, p, q);
      EditInStep(edits, p, q);
    }
  }

  lemma BreaksStep(src: string, p: nat, q: nat)
    requires p < q <= |src|
    ensures Breaks(src, p, q) <==> Breaks(src, p, q - 1) || src[q - 1] == '\n'
  {}

  lemma EditInStep(edits: seq<Edit>, p: nat, q: nat)
    requires p < q
    ensures EditIn(edits, p, q) <==> EditIn(edits, p, q - 1) || exists i :: 0 <= i < |edits| && edits[i].offset == q
  {}

  // What the last replacement keeps.

  /** A text that does not start with a line end is squeezed on its own. */
  lemma {:induction false} SqueezedConcat(a: string, b: string)
    requires b == "" || b[0] != '\n'
    ensures Squeezed(a + b) == Squeezed(a) + Squeezed(b)
    decreases |a|
  {
    if a == "" {
      assert a + b == b;
    } else {
      var k := if DoubleEnd(a) then 3 else 1;
      var head := if DoubleEnd(a) then ",\n" else [a[0]];
      SqueezedConcat(a[k..], b);
      assert (a + b)[k..] == a[k..] + b;
      DoubleEndIsLocal(a, b);
      assert head + (Squeezed(a[k..]) + Squeezed(b)) == (head + Squeezed(a[k..])) + Squeezed(b);
    }
  }

  lemma DoubleEndIsLocal(a: string, b: string)
    requires a != "" && (b == "" || b[0] != '\n')
    ensures DoubleEnd(a + b) <==> DoubleEnd(a)
  {}

  lemma {:induction false} SqueezedBreaks(s: string)
    ensures '\n' in Squeezed(s) <==> '\n' in s
    ensures s != "" ==> Squeezed(s) != "" && Squeezed(s)[0] == s[0]
  {
    if s != "" {
      var k := if DoubleEnd(s) then 3 else 1;
      SqueezedBreaks(s[k..]);
      assert s == s[..k] + s[k..];
      if k == 3 {
        assert s[1] == '\n';
        assert (",\n" + Squeezed(s[3..]))[1] == '\n';
      }
    }
  }

  // Where a byte of the source stands in the output.

  /** A position of the source that holds no line end. */
  predicate Token(src: string, p: nat) {
    p < |src| && src[p] != '\n'
  }

  function Place(src: string, edits: seq<Edit>, p: nat): nat
    requires p <= |src|
  {
    |Squeezed(Woven(src, edits, p))|
  }

  function Squeeze(src: string, edits: seq<Edit>): string {
    Squeezed(Weave(src, edits))
  }

  /** The output before a token, and from it on. */
  lemma OutputAt(src: string, edits: seq<Edit>, p: nat)
    requires Token(src, p)
    ensures
      Squeeze(src, edits) ==
      Squeezed(Woven(src, edits, p)) + Squeezed(Between(src, edits, p, |src|))
    ensures Place(src, edits, p) < |Squeeze(src, edits)|
    ensures Squeeze(src, edits)[Place(src, edits, p)] == src[p]
  {
    var n := |src|;
    WovenParts(src, edits, p, n);
    BetweenStarts(src, edits, p, n);
    SqueezedConcat(Woven(src, edits, p), Between(src, edits, p, n));
    SqueezedBreaks(Between(src, edits, p, n));
  }

  /** What stands between two tokens of the output. */
  lemma OutputBetween(src: string, edits: seq<Edit>, p: nat, q: nat)
    requires Token(src, p) && Token(src, q) && p < q
    ensures
      var a, b := Place(src, edits, p), Place(src, edits, q);
      && a < b < |Squeeze(src, edits)|
      && Squeeze(src, edits)[a..b] == Squeezed(Between(src, edits, p, q))
  {
    var part := Between(src, edits, p, q);
    OutputAt(src, edits, q);
    WovenParts(src, edits, p, q);
    BetweenStarts(src, edits, p, q);
    SqueezedConcat(Woven(src, edits, p), part);
    SqueezedBreaks(part);
    SliceOfThree(
      Squeezed(Woven(src, edits, p)), Squeezed(part), Squeezed(Between(src, edits, q, |src|)), Squeeze(src, edits));
  }

  lemma SliceOfThree(a: string, b: string, c: string, s: string)
    requires s == (a + b) + c
    ensures s[|a|..|a + b|] == b
  {}

  /** Two tokens are on two lines of the output exactly when they were, or an
      edit came between them. */
  lemma OutputBreaks(src: string, edits: seq<Edit>, p: nat, q: nat)
    requires Token(src, p) && Token(src, q) && p < q && AllBreak(edits)
    ensures Place(src, edits, p) < Place(src, edits, q) < |Squeeze(src, edits)|
    ensures
      var a, b := Place(src, edits, p), Place(src, edits, q);
      Breaks(Squeeze(src, edits), a, b) <==> Breaks(src, p, q) || EditIn(edits, p, q)
  {
    OutputBetween(src, edits, p, q);
    BetweenBreaks(src, edits, p, q);
    SqueezedBreaks(Between(src, edits, p, q));
    BreaksIsIn(Squeeze(src, edits), Place(src, edits, p), Place(src, edits, q));
  }

  lemma BreaksIsIn(s: string, a: nat, b: nat)
    requires a <= b <= |s|
    ensures Breaks(s, a, b) <==> '\n' in s[a..b]
  {
    if i :| a <= i < b && s[i] == '\n' {
      assert s[a..b][i - a] == '\n';
    }
  }

  // The calls of the output: those of the source, where they stand now.

  function MovedArg(src: string, edits: seq<Edit>, c: Call, arg: Arg): Arg
    requires ArgOk(src, c, arg)
  {
    Arg(Place(src, edits, arg.pos), Place(src, edits, arg.end - 1) + 1)
  }

  /** The rewrite adds a comma behind the last argument. */
  predicate AddsComma(src: string, c: Call)
    requires CallOk(src, c)
  {
    SplitAfterFirstArg(src, c) && '\n' !in Behind(src, c) && !OnlyComma(Behind(src, c))
  }

  /** Where the text of an edit at p starts in the output. */
  function EditPlace(src: string, edits: seq<Edit>, p: nat): nat
    requires 0 < p <= |src|
  {
    |Squeezed(Woven(src, edits, p - 1) + [src[p - 1]])|
  }

  function MovedCommas(src: string, edits: seq<Edit>, c: Call): seq<nat>
    requires CallOk(src, c) && CommasOk(src, c)
  {
    seq(|c.commas|, k requires 0 <= k < |c.commas| => Place(src, edits, c.commas[k])) +
    if AddsComma(src, c) then [EditPlace(src, edits, c.rparen)] else []
  }

  function Moved(src: string, edits: seq<Edit>, c: Call): Call
    requires CallOk(src, c) && CommasOk(src, c)
  {
    var args := seq(|c.args|, k requires 0 <= k < |c.args| =>
      assert ArgOk(src, c, c.args[k]); MovedArg(src, edits, c, c.args[k]));
    Call(Place(src, edits, c.lparen), args, MovedCommas(src, edits, c), Place(src, edits, c.rparen))
  }

  predicate AllCommasOk(src: string, calls: seq<Call>)
    requires CallsOk(src, calls)
  {
    forall i :: 0 <= i < |calls| ==> CommasOk(src, calls[i])
  }

  function MovedCalls(src: string, edits: seq<Edit>, calls: seq<Call>): (r: seq<Call>)
    requires CallsOk(src, calls) && AllCommasOk(src, calls)
    ensures |r| == |calls|
  {
    seq(|calls|, i requires 0 <= i < |calls| => Moved(src, edits, calls[i]))
  }

  /** The order of two tokens. */
  lemma PlacesInOrder(src: string, edits: seq<Edit>, p: nat, q: nat)
    requires Token(src, p) && Token(src, q)
    ensures Place(src, edits, p) < Place(src, edits, q) <==> p < q
    ensures Place(src, edits, q) < |Squeeze(src, edits)|
    ensures Squeeze(src, edits)[Place(src, edits, q)] == src[q]
  {
    OutputAt(src, edits, q);
    if p < q {
      OutputBetween(src, edits, p, q);
    } else if q < p {
      OutputBetween(src, edits, q, p);
    }
  }

  lemma MovedArgIsOk(src: string, edits: seq<Edit>, c: Call, k: nat)
    requires CallOk(src, c) && CommasOk(src, c) && k < |c.args|
    ensures ArgOk(Squeeze(src, edits), Moved(src, edits, c), Moved(src, edits, c).args[k])
  {
    var arg := c.args[k];
    assert ArgOk(src, c, arg);
    PlacesInOrder(src, edits, c.lparen, arg.pos);
    PlacesInOrder(src, edits, arg.end - 1, arg.pos);
    PlacesInOrder(src, edits, arg.pos, arg.end - 1);
    PlacesInOrder(src, edits, arg.end - 1, c.rparen);
  }

  lemma MovedCallIsOk(src: string, edits: seq<Edit>, c: Call)
    requires CallOk(src, c) && CommasOk(src, c)
    ensures CallOk(Squeeze(src, edits), Moved(src, edits, c))
  {
    var d := Moved(src, edits, c);
    PlacesInOrder(src, edits, c.rparen, c.lparen);
    PlacesInOrder(src, edits, c.lparen, c.rparen);
    forall k | 0 <= k < |d.args| ensures ArgOk(Squeeze(src, edits), d, d.args[k]) {
      MovedArgIsOk(src, edits, c, k);
    }
    forall j, k | 0 <= j < k < |d.args| ensures d.args[j].end <= d.args[k].pos {
      assert ArgOk(src, c, c.args[j]) && ArgOk(src, c, c.args[k]);
      PlacesInOrder(src, edits, c.args[j].end - 1, c.args[k].pos);
    }
  }

  lemma MovedInside(src: string, edits: seq<Edit>, d: Call, c: Call)
    requires CallOk(src, c) && CommasOk(src, c) && CallOk(src, d) && CommasOk(src, d) && Inside(d, c)
    ensures Inside(Moved(src, edits, d), Moved(src, edits, c))
  {
    var k :| 0 <= k < |c.args| && c.args[k].pos <= d.lparen && d.rparen < c.args[k].end;
    assert ArgOk(src, c, c.args[k]);
    PlacesInOrder(src, edits, d.lparen, c.args[k].pos);
    PlacesInOrder(src, edits, c.args[k].end - 1, d.rparen);
    var there := Moved(src, edits, c).args[k];
    assert there.pos <= Place(src, edits, d.lparen) && Place(src, edits, d.rparen) < there.end;
  }

  lemma MovedApart(src: string, edits: seq<Edit>, c: Call, d: Call)
    requires CallOk(src, c) && CommasOk(src, c) && CallOk(src, d) && CommasOk(src, d) && Apart(c, d)
    ensures Apart(Moved(src, edits, c), Moved(src, edits, d))
  {
    if Inside(d, c) {
      MovedInside(src, edits, d, c);
    } else if Inside(c, d) {
      MovedInside(src, edits, c, d);
    } else {
      PlacesInOrder(src, edits, d.rparen, c.lparen);
      PlacesInOrder(src, edits, c.rparen, d.lparen);
    }
  }

  // Split calls, told by the line ends between their parts.

  lemma SplitIff(src: string, c: Call)
    requires CallOk(src, c) && c.args != []
    ensures ArgOk(src, c, First(c)) && ArgOk(src, c, Last(c)) && First(c).pos <= Last(c).pos
    ensures
      SplitAfterFirstArg(src, c) <==>
      && !Breaks(src, c.lparen, First(c).pos)
      && !Breaks(src, First(c).pos, First(c).end - 1)
      && Breaks(src, First(c).pos, Last(c).pos)
  {
    var first, last := First(c), Last(c);
    assert ArgOk(src, c, first) && ArgOk(src, c, last);
    assert |c.args| > 1 ==> c.args[0].end <= c.args[|c.args| - 1].pos;
    LineBreaks(src, c.lparen, first.pos);
    LineBreaks(src, first.pos, first.end);
    LineBreaks(src, first.pos, last.pos);
    BreaksStep(src, first.pos, first.end);
  }

  /** A call that is not split, and none of whose edits break its arguments. */
  lemma UnsplitHasNoEdits(src: string, c: Call, d: Call, e: Edit)
    requires CallOk(src, c) && c.args != [] && !Breaks(src, First(c).pos, Last(c).pos)
    requires EditOfCall(src, d, e) && Apart(c, d)
    ensures ArgOk(src, c, First(c)) && ArgOk(src, c, Last(c))
    ensures !(First(c).pos < e.offset <= Last(c).pos)
  {
    var first, last := First(c), Last(c);
    assert ArgOk(src, c, first) && ArgOk(src, c, last);
    SplitIff(src, d);
    if Inside(d, c) {
      var k :| 0 <= k < |c.args| && c.args[k].pos <= d.lparen && d.rparen < c.args[k].end;
      if k < |c.args| - 1 {
        SplitArgBreaks(src, c, d, k);
      }
    } else if Inside(c, d) {
      var k :| 0 <= k < |d.args| && d.args[k].pos <= c.lparen && c.rparen < d.args[k].end;
      assert ArgOk(src, d, d.args[k]);
    }
  }

  /** A split call in an argument before the last breaks the arguments. */
  lemma SplitArgBreaks(src: string, c: Call, d: Call, k: nat)
    requires CallOk(src, c) && CallOk(src, d) && SplitAfterFirstArg(src, d)
    requires k < |c.args| - 1 && c.args[k].pos <= d.lparen && d.rparen < c.args[k].end
    ensures ArgOk(src, c, First(c)) && ArgOk(src, c, Last(c)) && First(c).pos <= Last(c).pos
    ensures Breaks(src, First(c).pos, Last(c).pos)
  {
    SplitIff(src, d);
    assert ArgOk(src, c, First(c)) && ArgOk(src, c, Last(c)) && ArgOk(src, c, c.args[k]);
    assert c.args[k].end <= Last(c).pos;
    assert k > 0 ==> c.args[0].end <= c.args[k].pos;
    var i :| First(d).pos <= i < Last(d).pos && src[i] == '\n';
    assert First(c).pos <= i < Last(c).pos;
  }

  /** The edits of a well formed file leave the arguments of a call alone that
      are on one line. */
  lemma OneLineStays(src: string, calls: seq<Call>, edits: seq<Edit>, n: nat)
    requires WellFormed(src, calls) && AllOwned(src, calls, edits) && n < |calls|
    requires calls[n].args != [] && !SplitAfterFirstArg(src, calls[n])
    ensures ArgOk(src, calls[n], First(calls[n])) && ArgOk(src, calls[n], Last(calls[n]))
    ensures
      var first, last := First(calls[n]).pos, Last(calls[n]).pos;
      first <= last && (!Breaks(src, first, last) ==> !EditIn(edits, first, last))
  {
    var c := calls[n];
    SplitIff(src, c);
    if !Breaks(src, First(c).pos, Last(c).pos) {
      forall i | 0 <= i < |edits| ensures !(First(c).pos < edits[i].offset <= Last(c).pos) {
        assert Owned(src, calls, edits[i]);
        var k :| 0 <= k < |calls| && EditOfCall(src, calls[k], edits[i]);
        assert k != n;
        ApartBothWays(calls, k, n);
        UnsplitHasNoEdits(src, c, calls[k], edits[i]);
      }
    }
  }

  lemma ApartBothWays(calls: seq<Call>, k: nat, n: nat)
    requires k < |calls| && n < |calls| && k != n
    requires forall i, j :: 0 <= i < j < |calls| ==> Apart(calls[i], calls[j])
    ensures Apart(calls[n], calls[k])
  {
    assert k < n ==> Apart(calls[k], calls[n]);
  }

  /** The parts of a call, in the output. */
  lemma MovedBreaks(src: string, edits: seq<Edit>, c: Call)
    requires CallOk(src, c) && CommasOk(src, c) && c.args != [] && AllBreak(edits)
    ensures ArgOk(src, c, First(c)) && ArgOk(src, c, Last(c)) && First(c).pos <= Last(c).pos
    ensures
      var out, d := Squeeze(src, edits), Moved(src, edits, c);
      var first, last := First(c), Last(c);
      && CallOk(out, d) && d.args != [] && ArgOk(out, d, First(d)) && ArgOk(out, d, Last(d))
      && First(d).pos <= Last(d).pos
      && (Breaks(out, d.lparen, First(d).pos) <==>
          Breaks(src, c.lparen, first.pos) || EditIn(edits, c.lparen, first.pos))
      && (Breaks(src, first.pos, first.end - 1) ==> Breaks(out, First(d).pos, First(d).end - 1))
      && (Breaks(out, First(d).pos, Last(d).pos) <==>
          Breaks(src, first.pos, last.pos) || EditIn(edits, first.pos, last.pos))
  {
    var first, last := First(c), Last(c);
    SplitIff(src, c);
    MovedCallIsOk(src, edits, c);
    SplitIff(Squeeze(src, edits), Moved(src, edits, c));
    OutputBreaks(src, edits, c.lparen, first.pos);
    if first.pos < first.end - 1 {
      OutputBreaks(src, edits, first.pos, first.end - 1);
    }
    if first.pos < last.pos {
      OutputBreaks(src, edits, first.pos, last.pos);
    }
  }

  lemma SplitHasEdit(src: string, calls: seq<Call>, n: nat, e: Edit)
    requires CallsOk(src, calls) && n < |calls| && SplitAfterFirstArg(src, calls[n])
    requires e in EditsOfCall(src, calls[n])
    ensures e in EditsOf(src, calls)
  {
    FlatHas(EditLists(src, calls), n, |calls|, e);
  }

  lemma EditsBreak(src: string, calls: seq<Call>, edits: seq<Edit>)
    requires AllOwned(src, calls, edits)
    ensures AllBreak(edits)
  {
    forall i | 0 <= i < |edits| ensures '\n' in edits[i].text {
      assert Owned(src, calls, edits[i]);
    }
  }

  lemma EditAt(edits: seq<Edit>, e: Edit, p: nat, q: nat)
    requires e in edits && p < e.offset <= q
    ensures EditIn(edits, p, q)
  {}

  /** After one pass the call is not split. */
  lemma {:induction false} CallIsNotSplit(src: string, calls: seq<Call>, n: nat)
    requires WellFormed(src, calls) && n < |calls|
    ensures
      var edits := EditsOf(src, calls);
      CallOk(Output(src, calls), Moved(src, edits, calls[n])) &&
      !SplitAfterFirstArg(Output(src, calls), Moved(src, edits, calls[n]))
  {
    var edits, c := EditsOf(src, calls), calls[n];
    EditsAreOwned(src, calls);
    EditsBreak(src, calls, edits);
    MovedCallIsOk(src, edits, c);
    if c.args != [] {
      MovedBreaks(src, edits, c);
      SplitIff(src, c);
      SplitIff(Squeeze(src, edits), Moved(src, edits, c));
      if SplitAfterFirstArg(src, c) {
        var opening := EditsOfCall(src, c)[0];
        SplitHasEdit(src, calls, n, opening);
        EditAt(edits, opening, c.lparen, First(c).pos);
      } else {
        OneLineStays(src, calls, edits, n);
      }
    }
  }

  lemma {:induction false} NoOffenders(src: string, calls: seq<Call>, n: nat)
    requires CallsOk(src, calls) && n <= |calls|
    requires forall i :: 0 <= i < n ==> !SplitAfterFirstArg(src, calls[i])
    ensures Offenders(src, calls, n) == 0
  {
    if n > 0 {
      NoOffenders(src, calls, n - 1);
    }
  }

  lemma NoEdits(src: string, calls: seq<Call>)
    requires CallsOk(src, calls) && forall i :: 0 <= i < |calls| ==> !SplitAfterFirstArg(src, calls[i])
    ensures EditsOf(src, calls) == [] && Offenders(src, calls, |calls|) == 0
  {
    NoOffenders(src, calls, |calls|);
    if EditsOf(src, calls) != [] {
      var k := FlatComesFrom(EditLists(src, calls), |calls|, EditsOf(src, calls)[0]);
      assert false;
    }
  }

  lemma BreaksIsBelow(text: string, p: nat, q: nat)
    requires p <= q <= |text| && Breaks(text, p, q)
    ensures Line(text, p) < Line(text, q)
  {
    LineBreaks(text, p, q);
  }

  lemma OpensBelow(src: string, edits: seq<Edit>, c: Call, opening: Edit)
    requires CallOk(src, c) && CommasOk(src, c) && c.args != [] && AllBreak(edits)
    requires opening in edits && opening.offset == c.lparen + 1
    ensures
      var out, d := Squeeze(src, edits), Moved(src, edits, c);
      && CallOk(out, d) && d.args != [] && ArgOk(out, d, First(d)) && Line(out, d.lparen) < Line(out, First(d).pos)
  {
    MovedBreaks(src, edits, c);
    EditAt(edits, opening, c.lparen, First(c).pos);
    BreaksIsBelow(Squeeze(src, edits), Moved(src, edits, c).lparen, First(Moved(src, edits, c)).pos);
  }

  lemma ClosingEdit(src: string, c: Call)
    requires CallOk(src, c) && c.args != []
    ensures ArgOk(src, c, Last(c))
    ensures
      !Breaks(src, Last(c).end, c.rparen) ==>
      |EditsOfCall(src, c)| == 2 && EditsOfCall(src, c)[1].offset == c.rparen
  {
    assert ArgOk(src, c, Last(c));
    BreaksIsIn(src, Last(c).end, c.rparen);
  }

  lemma {:induction false} ClosingBreaks(src: string, calls: seq<Call>, n: nat, edits: seq<Edit>)
    requires WellFormed(src, calls) && n < |calls| && SplitAfterFirstArg(src, calls[n])
    requires edits == EditsOf(src, calls)
    ensures ArgOk(src, calls[n], Last(calls[n]))
    ensures
      var p, q := Last(calls[n]).end - 1, calls[n].rparen;
      Breaks(src, p, q) || EditIn(edits, p, q)
  {
    var c := calls[n];
    ClosingEdit(src, c);
    if Breaks(src, Last(c).end, c.rparen) {
      var i :| Last(c).end <= i < c.rparen && src[i] == '\n';
      assert Breaks(src, Last(c).end - 1, c.rparen);
    } else {
      var closing := EditsOfCall(src, c)[1];
      SplitHasEdit(src, calls, n, closing);
      EditAt(edits, closing, Last(c).end - 1, c.rparen);
    }
  }

  lemma LineBelow(text: string, end: nat, q: nat)
    requires 0 < end <= q <= |text| && text[end - 1] != '\n' && Breaks(text, end - 1, q)
    ensures Line(text, end) < Line(text, q)
  {
    LineBreaks(text, end - 1, q);
    LineBreaks(text, end - 1, end);
  }

  lemma MovedLast(src: string, edits: seq<Edit>, c: Call)
    requires CallOk(src, c) && CommasOk(src, c) && c.args != []
    ensures
      var out, d := Squeeze(src, edits), Moved(src, edits, c);
      && ArgOk(src, c, Last(c))
      && CallOk(out, d) && d.args != [] && ArgOk(out, d, Last(d))
      && Last(d).end - 1 == Place(src, edits, Last(c).end - 1)
  {
    MovedCallIsOk(src, edits, c);
    MovedArgIsOk(src, edits, c, |c.args| - 1);
    assert ArgOk(src, c, Last(c));
  }

  lemma ClosesBelow(src: string, edits: seq<Edit>, c: Call)
    requires CallOk(src, c) && CommasOk(src, c) && c.args != [] && AllBreak(edits) && ArgOk(src, c, Last(c))
    requires Breaks(src, Last(c).end - 1, c.rparen) || EditIn(edits, Last(c).end - 1, c.rparen)
    ensures
      var out, d := Squeeze(src, edits), Moved(src, edits, c);
      && CallOk(out, d) && d.args != [] && ArgOk(out, d, Last(d)) && Line(out, Last(d).end) < Line(out, d.rparen)
  {
    MovedLast(src, edits, c);
    OutputBreaks(src, edits, Last(c).end - 1, c.rparen);
    LineBelow(Squeeze(src, edits), Last(Moved(src, edits, c)).end, Moved(src, edits, c).rparen);
  }

  /** A call that was split has its arguments below the opening paren, and the
      closing paren below them. */
  lemma {:induction false} SplitIsOpened(src: string, calls: seq<Call>, n: nat)
    requires WellFormed(src, calls) && n < |calls| && SplitAfterFirstArg(src, calls[n])
    ensures
      var out, d := Output(src, calls), Moved(src, EditsOf(src, calls), calls[n]);
      && CallOk(out, d) && d.args != [] && ArgOk(out, d, First(d)) && ArgOk(out, d, Last(d))
      && Line(out, d.lparen) < Line(out, First(d).pos)
      && Line(out, Last(d).end) < Line(out, d.rparen)
  {
    var edits := EditsOf(src, calls);
    var opening := EditsOfCall(src, calls[n])[0];
    EditsAreOwned(src, calls);
    EditsBreak(src, calls, edits);
    SplitHasEdit(src, calls, n, opening);
    OpensBelow(src, edits, calls[n], opening);
    ClosingBreaks(src, calls, n, edits);
    ClosesBelow(src, edits, calls[n]);
  }
}
