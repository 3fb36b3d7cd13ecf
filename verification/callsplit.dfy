/** The rewrite of calls that span lines: the first argument starts on the line
    after the opening paren, and the closing paren stands on its own line. */
module CallSplit {
  import opened Api

  // Lines.

  /** The line of position p, counted from zero. */
  function Line(text: string, p: nat): nat
    requires p <= |text|
  {
    if p == 0 then 0 else Line(text, p - 1) + if text[p - 1] == '\n' then 1 else 0
  }

  /** Some line ends in text[p..q]. */
  predicate Breaks(text: string, p: nat, q: nat)
    requires p <= q <= |text|
  {
    exists i :: p <= i < q && text[i] == '\n'
  }

  lemma {:induction false} LineBreaks(text: string, p: nat, q: nat)
    requires p <= q <= |text|
    ensures Line(text, p) <= Line(text, q)
    ensures Line(text, p) == Line(text, q) <==> !Breaks(text, p, q)
    decreases q
  {
    if p < q {
      LineBreaks(text, p, q - 1);
      if text[q - 1] == '\n' {
        assert Breaks(text, p, q);
      }
    }
  }

  predicate Blank(c: char) {
    c == '\t' || c == ' '
  }

  predicate Space(c: char) {
    Blank(c) || c == '\n' || c == '\r' || c == '\U{0B}' || c == '\U{0C}'
  }

  // Calls, as the parser gives them.

  datatype Arg = Arg(pos: nat, end: nat)

  /** commas are the comma tokens between the last argument and the closing
      paren, which a file that parses has at most one of. A comma in a comment is
      no token. */
  datatype Call = Call(lparen: nat, args: seq<Arg>, commas: seq<nat>, rparen: nat)

  predicate ArgOk(src: string, c: Call, arg: Arg) {
    && c.lparen < arg.pos < arg.end <= c.rparen < |src|
    && src[arg.pos] != '\n' && src[arg.end - 1] != '\n'
  }

  predicate CallOk(src: string, c: Call) {
    && c.lparen < c.rparen < |src| && src[c.lparen] == '(' && src[c.rparen] == ')'
    && (forall k :: 0 <= k < |c.args| ==> ArgOk(src, c, c.args[k]))
    && (forall j, k :: 0 <= j < k < |c.args| ==> c.args[j].end <= c.args[k].pos)
  }

  /** s without the space around it is one comma. */
  predicate OnlyComma(s: string) {
    exists i ::
      0 <= i < |s| && s[i] == ',' && forall k :: 0 <= k < |s| && k != i ==> Space(s[k])
  }

  /** What stands between the last argument and the closing paren. */
  function Behind(src: string, c: Call): string
    requires CallOk(src, c) && c.args != []
  {
    assert ArgOk(src, c, Last(c));
    src[Last(c).end..c.rparen]
  }

  predicate CommasOk(src: string, c: Call)
    requires CallOk(src, c)
  {
    if c.args == [] then c.commas == []
    else
      assert ArgOk(src, c, Last(c));
      && (forall k :: 0 <= k < |c.commas| ==> Last(c).end <= c.commas[k] < c.rparen && src[c.commas[k]] == ',')
      && (forall j, k :: 0 <= j < k < |c.commas| ==> c.commas[j] < c.commas[k])
      && (OnlyComma(Behind(src, c)) ==> c.commas != [])
  }

  /** d stands in an argument of c. */
  predicate Inside(d: Call, c: Call) {
    exists k :: 0 <= k < |c.args| && c.args[k].pos <= d.lparen && d.rparen < c.args[k].end
  }

  predicate Apart(c: Call, d: Call) {
    d.rparen < c.lparen || c.rparen < d.lparen || Inside(d, c) || Inside(c, d)
  }

  predicate WellFormed(src: string, calls: seq<Call>) {
    && (forall i :: 0 <= i < |calls| ==> CallOk(src, calls[i]) && CommasOk(src, calls[i]))
    && (forall i, j :: 0 <= i < j < |calls| ==> Apart(calls[i], calls[j]))
  }

  function First(c: Call): Arg
    requires c.args != []
  {
    c.args[0]
  }

  function Last(c: Call): Arg
    requires c.args != []
  {
    c.args[|c.args| - 1]
  }

  predicate SplitAfterFirstArg(src: string, c: Call)
    requires CallOk(src, c)
  {
    c.args != [] &&
    var lparen := Line(src, c.lparen);
    var first := First(c);
    assert ArgOk(src, c, first) && ArgOk(src, c, Last(c));
    var firstStart, firstEnd := Line(src, first.pos), Line(src, first.end);
    var lastStart := Line(src, Last(c).pos);
    firstStart == lparen && firstEnd == firstStart && lastStart != firstStart
  }

  // The edits of one call.

  datatype Edit = Edit(offset: nat, text: string)

  predicate IsLineStart(src: string, p: nat, start: nat)
    requires p <= |src|
  {
    start <= p && !Breaks(src, start, p) && (start > 0 ==> src[start - 1] == '\n')
  }

  predicate IsIndent(src: string, start: nat, indent: string) {
    && start + |indent| <= |src| && indent == src[start..start + |indent|]
    && (forall i :: start <= i < start + |indent| ==> Blank(src[i]))
    && (start + |indent| < |src| ==> !Blank(src[start + |indent|]))
  }

  function StartOfLine(src: string, p: nat): (start: nat)
    requires p <= |src|
    ensures IsLineStart(src, p, start)
  {
    if p == 0 || src[p - 1] == '\n' then p else StartOfLine(src, p - 1)
  }

  function BlanksFrom(src: string, start: nat): (indent: string)
    requires start <= |src|
    ensures IsIndent(src, start, indent)
    decreases |src| - start
  {
    if start < |src| && Blank(src[start]) then [src[start]] + BlanksFrom(src, start + 1) else ""
  }

  lemma OneLineStart(src: string, p: nat, a: nat, b: nat)
    requires p <= |src| && IsLineStart(src, p, a) && IsLineStart(src, p, b)
    ensures a == b
  {}

  lemma OneIndent(src: string, start: nat, a: string, b: string)
    requires IsIndent(src, start, a) && IsIndent(src, start, b)
    ensures a == b
  {
    assert |a| == |b|;
  }

  /** The indent of the line of the opening paren. */
  function Indent(src: string, c: Call): string
    requires CallOk(src, c)
  {
    BlanksFrom(src, StartOfLine(src, c.lparen))
  }

  /** The tabs and spaces at the start of that line. */
  lemma IndentIs(src: string, c: Call, start: nat, indent: string)
    requires CallOk(src, c) && IsLineStart(src, c.lparen, start)
    requires start + |indent| <= |src| && src[start..start + |indent|] == indent
    requires forall i :: 0 <= i < |indent| ==> indent[i] == ' ' || indent[i] == '\t'
    requires start + |indent| < |src| ==> src[start + |indent|] != ' ' && src[start + |indent|] != '\t'
    ensures Indent(src, c) == indent
  {
    OneLineStart(src, c.lparen, start, StartOfLine(src, c.lparen));
    forall i | start <= i < start + |indent| ensures Blank(src[i]) {
      assert src[i] == indent[i - start];
    }
    OneIndent(src, start, indent, BlanksFrom(src, start));
  }

  function ClosingText(between: string, indent: string): string {
    if '\n' in between then "" else if OnlyComma(between) then "\n" + indent else ",\n" + indent
  }

  function Closing(src: string, c: Call): string
    requires CallOk(src, c) && c.args != []
  {
    ClosingText(Behind(src, c), Indent(src, c))
  }

  function EditsOfCall(src: string, c: Call): seq<Edit>
    requires CallOk(src, c) && c.args != []
  {
    var closing := Closing(src, c);
    [Edit(c.lparen + 1, "\n" + Indent(src, c) + "\t")] + if closing == "" then [] else [Edit(c.rparen, closing)]
  }

  method Rewrite(src: string, c: Call) returns (edits: seq<Edit>)
    requires CallOk(src, c) && c.args != []
    ensures edits == EditsOfCall(src, c)
  {
    assert ArgOk(src, c, Last(c));
    var lastEnd := Last(c).end;
    var lineStart: nat := c.lparen;
    while lineStart > 0 && src[lineStart - 1] != '\n'
      invariant lineStart <= c.lparen && !Breaks(src, lineStart, c.lparen)
    {
      lineStart := lineStart - 1;
    }
    OneLineStart(src, c.lparen, lineStart, StartOfLine(src, c.lparen));
    var indent := "";
    var i := lineStart;
    while i < |src| && Blank(src[i])
      invariant lineStart <= i <= |src| && indent == src[lineStart..i]
      invariant forall k :: lineStart <= k < i ==> Blank(src[k])
    {
      indent := indent + [src[i]];
      i := i + 1;
    }
    OneIndent(src, lineStart, indent, BlanksFrom(src, lineStart));
    edits := [Edit(c.lparen + 1, "\n" + indent + "\t")];
    var between := src[lastEnd..c.rparen];
    if '\n' in between {
    } else if OnlyComma(between) {
      edits := edits + [Edit(c.rparen, "\n" + indent)];
    } else {
      edits := edits + [Edit(c.rparen, ",\n" + indent)];
    }
  }

  // The weave: each byte of the source in order, each edit in front of the byte
  // at its offset.

  function TextAt(edits: seq<Edit>, p: nat): string {
    if edits == [] then ""
    else TextAt(edits[..|edits| - 1], p) + if Latest(edits).offset == p then Latest(edits).text else ""
  }

  function Latest(edits: seq<Edit>): Edit
    requires edits != []
  {
    edits[|edits| - 1]
  }

  /** The source before position p, and the edits up to there. */
  function Woven(src: string, edits: seq<Edit>, p: nat): string
    requires p <= |src|
  {
    (if p == 0 then "" else Woven(src, edits, p - 1) + [src[p - 1]]) + TextAt(edits, p)
  }

  function Weave(src: string, edits: seq<Edit>): string {
    Woven(src, edits, |src|)
  }

  // One edit after another, from the last offset to the first.

  function Spliced(out: string, e: Edit): string
    requires e.offset <= |out|
  {
    out[..e.offset] + (e.text + out[e.offset..])
  }

  predicate Descending(edits: seq<Edit>) {
    forall i, j :: 0 <= i < j < |edits| ==> edits[i].offset > edits[j].offset
  }

  predicate InRange(src: string, edits: seq<Edit>) {
    forall i :: 0 <= i < |edits| ==> edits[i].offset <= |src|
  }

  lemma {:induction false} NoTextBefore(edits: seq<Edit>, p: nat)
    requires forall i :: 0 <= i < |edits| ==> edits[i].offset != p
    ensures TextAt(edits, p) == ""
  {
    if edits != [] {
      NoTextBefore(edits[..|edits| - 1], p);
    }
  }

  /** Before the first edit the weave is the source. */
  lemma {:induction false} WovenIsSource(src: string, edits: seq<Edit>, p: nat)
    requires p <= |src| && forall i :: 0 <= i < |edits| ==> edits[i].offset > p
    ensures Woven(src, edits, p) == src[..p]
  {
    NoTextBefore(edits, p);
    if p > 0 {
      WovenIsSource(src, edits, p - 1);
      assert src[..p] == src[..p - 1] + [src[p - 1]];
    }
  }

  lemma TextWithFirst(edits: seq<Edit>, e: Edit, p: nat)
    ensures TextAt(edits + [e], p) == TextAt(edits, p) + if e.offset == p then e.text else ""
  {
    assert (edits + [e])[..|edits|] == edits;
  }

  /** One more edit, in front of all others. */
  lemma {:induction false} WovenWithFirst(src: string, edits: seq<Edit>, e: Edit, p: nat)
    requires e.offset <= p <= |src| && forall i :: 0 <= i < |edits| ==> edits[i].offset > e.offset
    ensures e.offset <= |Woven(src, edits, p)| && Woven(src, edits + [e], p) == Spliced(Woven(src, edits, p), e)
    decreases p
  {
    if p == e.offset {
      WovenIsSource(src, edits, p);
      SourceBeforeFirst(src, edits, e);
      assert src[..p] + e.text == Spliced(src[..p], e);
    } else {
      WovenWithFirst(src, edits, e, p - 1);
      TextWithFirst(edits, e, p);
      WovenStep(Woven(src, edits, p - 1), e, [src[p - 1]], TextAt(edits, p));
    }
  }

  lemma WovenStep(out: string, e: Edit, byte: string, text: string)
    requires e.offset <= |out|
    ensures (Spliced(out, e) + byte) + (text + "") == Spliced((out + byte) + text, e)
    ensures (Spliced(out, e) + byte) + text == Spliced((out + byte) + text, e)
  {
    SplicedThenMore(out, e, byte);
    SplicedThenMore(out + byte, e, text);
    assert text + "" == text;
  }

  lemma SourceBeforeFirst(src: string, edits: seq<Edit>, e: Edit)
    requires e.offset <= |src| && forall i :: 0 <= i < |edits| ==> edits[i].offset > e.offset
    ensures Woven(src, edits + [e], e.offset) == src[..e.offset] + e.text
  {
    var p := e.offset;
    TextWithFirst(edits, e, p);
    NoTextBefore(edits, p);
    assert TextAt(edits + [e], p) == "" + e.text == e.text;
    if p == 0 {
      assert src[..p] == "";
    } else {
      SourceUpTo(src, edits + [e], p);
    }
  }

  lemma SourceUpTo(src: string, edits: seq<Edit>, p: nat)
    requires 0 < p <= |src| && forall i :: 0 <= i < |edits| ==> edits[i].offset >= p
    ensures Woven(src, edits, p) == src[..p] + TextAt(edits, p)
  {
    WovenIsSource(src, edits, p - 1);
    assert src[..p] == src[..p - 1] + [src[p - 1]];
  }

  lemma SplicedThenMore(out: string, e: Edit, more: string)
    requires e.offset <= |out|
    ensures Spliced(out + more, e) == Spliced(out, e) + more
  {
    assert (out + more)[..e.offset] == out[..e.offset];
    assert (out + more)[e.offset..] == out[e.offset..] + more;
  }

  // Slices of Go: a window on an array that others may hold as well.

  datatype Slice = Slice(data: array<char>, length: nat, capacity: nat)

  predicate Whole(s: Slice) {
    s.length <= s.capacity <= s.data.Length
  }

  function Contents(s: Slice): string
    requires Whole(s)
    reads s.data
  {
    s.data[..s.length]
  }

  /** The built-in append: it writes behind the end of s when there is room, and
      else moves to a new array. */
  method Append(s: Slice, extra: string) returns (r: Slice)
    requires Whole(s)
    modifies if 0 < |extra| <= s.capacity - s.length then {s.data} else {}
    ensures Whole(r) && Contents(r) == old(Contents(s)) + extra
    ensures |extra| > s.capacity - s.length ==> fresh(r.data)
  {
    var n := s.length;
    ghost var before := s.data[..n];
    if extra == "" {
      r := s;
      assert before + extra == before;
    } else if |extra| <= s.capacity - n {
      for i := 0 to |extra|
        invariant s.data[..n] == before && s.data[n..n + i] == extra[..i]
      {
        s.data[n + i] := extra[i];
        assert s.data[n..n + i + 1] == s.data[n..n + i] + [extra[i]];
      }
      r := Slice(s.data, n + |extra|, s.capacity);
      assert extra[..|extra|] == extra;
      assert s.data[..n + |extra|] == s.data[..n] + s.data[n..n + |extra|];
      assert Contents(r) == before + extra;
    } else {
      var grown := new char[n + |extra|](i requires 0 <= i < n + |extra| reads s.data =>
        if i < n && i < s.data.Length then s.data[i] else if i >= n then extra[i - n] else ' ');
      r := Slice(grown, grown.Length, grown.Length);
      assert grown[..] == before + extra;
      assert Contents(r) == grown[..];
    }
  }

  /** The step of the edit loop: the capacity of its first slice is cut, so that
      it never writes to the array of out. */
  method Splice(out: Slice, e: Edit) returns (r: Slice)
    requires Whole(out) && e.offset <= out.length && e.text != ""
    ensures Whole(r) && fresh(r.data) && Contents(r) == Spliced(Contents(out), e)
  {
    ghost var before := Contents(out);
    var text := new char[|e.text|](i requires 0 <= i < |e.text| => e.text[i]);
    assert text[..] == e.text;
    var rest := Append(Slice(text, text.Length, text.Length), out.data[e.offset..out.length]);
    assert out.data[e.offset..out.length] == before[e.offset..];
    assert out.data[..e.offset] == before[..e.offset];
    r := Append(Slice(out.data, e.offset, e.offset), rest.data[..rest.length]);
  }

  // The edits of a file.

  predicate CallsOk(src: string, calls: seq<Call>) {
    forall i :: 0 <= i < |calls| ==> CallOk(src, calls[i])
  }

  function EditsIfSplit(src: string, c: Call): seq<Edit>
    requires CallOk(src, c)
  {
    if SplitAfterFirstArg(src, c) then EditsOfCall(src, c) else []
  }

  /** The edits of each call. */
  function EditLists(src: string, calls: seq<Call>): (lists: seq<seq<Edit>>)
    requires CallsOk(src, calls)
    ensures |lists| == |calls| && forall i :: 0 <= i < |calls| ==> lists[i] == EditsIfSplit(src, calls[i])
  {
    seq(|calls|, i requires 0 <= i < |calls| => EditsIfSplit(src, calls[i]))
  }

  /** The first n lists, one after the other. */
  function Flat(lists: seq<seq<Edit>>, n: nat): seq<Edit>
    requires n <= |lists|
  {
    if n == 0 then [] else Flat(lists, n - 1) + lists[n - 1]
  }

  function EditsOf(src: string, calls: seq<Call>): seq<Edit>
    requires CallsOk(src, calls)
  {
    Flat(EditLists(src, calls), |calls|)
  }

  lemma {:induction false} FlatHas(lists: seq<seq<Edit>>, k: nat, n: nat, e: Edit)
    requires k < n <= |lists| && e in lists[k]
    ensures e in Flat(lists, n)
  {
    if k < n - 1 {
      FlatHas(lists, k, n - 1, e);
    }
  }

  lemma {:induction false} FlatComesFrom(lists: seq<seq<Edit>>, n: nat, e: Edit) returns (k: nat)
    requires n <= |lists| && e in Flat(lists, n)
    ensures k < n && e in lists[k]
  {
    if e in lists[n - 1] {
      k := n - 1;
    } else {
      k := FlatComesFrom(lists, n - 1, e);
    }
  }

  predicate Distinct(edits: seq<Edit>) {
    forall i, j :: 0 <= i < j < |edits| ==> edits[i].offset != edits[j].offset
  }

  predicate NoneShared(a: seq<Edit>, b: seq<Edit>) {
    forall i, j :: 0 <= i < |a| && 0 <= j < |b| ==> a[i].offset != b[j].offset
  }

  lemma DistinctConcat(a: seq<Edit>, b: seq<Edit>)
    requires Distinct(a) && Distinct(b) && NoneShared(a, b)
    ensures Distinct(a + b)
  {}

  lemma {:induction false} FlatIsDistinct(lists: seq<seq<Edit>>, n: nat)
    requires n <= |lists|
    requires forall k :: 0 <= k < |lists| ==> Distinct(lists[k])
    requires forall j, k :: 0 <= j < k < |lists| ==> NoneShared(lists[j], lists[k])
    ensures Distinct(Flat(lists, n))
  {
    if n > 0 {
      var before, last := Flat(lists, n - 1), lists[n - 1];
      FlatIsDistinct(lists, n - 1);
      forall i, j | 0 <= i < |before| && 0 <= j < |last| ensures before[i].offset != last[j].offset {
        var k := FlatComesFrom(lists, n - 1, before[i]);
        assert NoneShared(lists[k], lists[n - 1]);
      }
      DistinctConcat(before, last);
    }
  }

  /** The number of split calls among the first n. */
  function Offenders(src: string, calls: seq<Call>, n: nat): nat
    requires CallsOk(src, calls) && n <= |calls|
  {
    if n == 0 then 0 else Offenders(src, calls, n - 1) + if SplitAfterFirstArg(src, calls[n - 1]) then 1 else 0
  }

  /** Which calls are split. */
  function Splits(src: string, calls: seq<Call>): (splits: seq<bool>)
    requires CallsOk(src, calls)
    ensures |splits| == |calls| && forall k :: 0 <= k < |calls| ==> splits[k] == SplitAfterFirstArg(src, calls[k])
  {
    seq(|calls|, k requires 0 <= k < |calls| => SplitAfterFirstArg(src, calls[k]))
  }

  function Chosen(splits: seq<bool>, n: nat): set<nat>
    requires n <= |splits|
  {
    set k | 0 <= k < n && splits[k]
  }

  lemma OneMoreChosen(splits: seq<bool>, n: nat)
    requires n < |splits|
    ensures |Chosen(splits, n + 1)| == |Chosen(splits, n)| + if splits[n] then 1 else 0
  {
    assert Chosen(splits, n + 1) == Chosen(splits, n) + if splits[n] then {n} else {};
  }

  /** The count is the number of the split calls. */
  lemma {:induction false} OffendersAre(src: string, calls: seq<Call>, n: nat)
    requires CallsOk(src, calls) && n <= |calls|
    ensures Offenders(src, calls, n) == |Chosen(Splits(src, calls), n)|
  {
    if n > 0 {
      var splits := Splits(src, calls);
      OffendersAre(src, calls, n - 1);
      OneMoreChosen(splits, n - 1);
      assert splits[n - 1] == SplitAfterFirstArg(src, calls[n - 1]);
    }
  }

  predicate EditOfCall(src: string, c: Call, e: Edit) {
    && CallOk(src, c) && SplitAfterFirstArg(src, c)
    && (e.offset == c.lparen + 1 || e.offset == c.rparen) && '\n' in e.text
  }

  /** Some call has the edit e. */
  predicate Owned(src: string, calls: seq<Call>, e: Edit) {
    exists k :: 0 <= k < |calls| && EditOfCall(src, calls[k], e)
  }

  predicate AllOwned(src: string, calls: seq<Call>, edits: seq<Edit>) {
    forall i :: 0 <= i < |edits| ==> Owned(src, calls, edits[i])
  }

  lemma EditsOfCallAreOwned(src: string, c: Call, e: Edit)
    requires CallOk(src, c) && SplitAfterFirstArg(src, c) && e in EditsOfCall(src, c)
    ensures EditOfCall(src, c, e)
  {
    var opening, closing := "\n" + Indent(src, c) + "\t", Closing(src, c);
    assert opening[0] == '\n';
    assert closing != "" ==> closing[0] == '\n' || closing[1] == '\n';
  }

  lemma EditsAreOwned(src: string, calls: seq<Call>)
    requires CallsOk(src, calls)
    ensures AllOwned(src, calls, EditsOf(src, calls))
  {
    var edits := EditsOf(src, calls);
    forall i | 0 <= i < |edits| ensures Owned(src, calls, edits[i]) {
      var k := FlatComesFrom(EditLists(src, calls), |calls|, edits[i]);
      EditsOfCallAreOwned(src, calls[k], edits[i]);
    }
  }

  lemma ApartOffsets(src: string, c: Call, d: Call, x: nat, y: nat)
    requires CallOk(src, c) && CallOk(src, d) && Apart(c, d)
    requires x == c.lparen + 1 || x == c.rparen
    requires y == d.lparen + 1 || y == d.rparen
    ensures x != y
  {
    if Inside(d, c) {
      var k :| 0 <= k < |c.args| && c.args[k].pos <= d.lparen && d.rparen < c.args[k].end;
      assert ArgOk(src, c, c.args[k]);
    } else if Inside(c, d) {
      var k :| 0 <= k < |d.args| && d.args[k].pos <= c.lparen && c.rparen < d.args[k].end;
      assert ArgOk(src, d, d.args[k]);
    }
  }

  lemma EditsOfOneCall(src: string, c: Call)
    requires CallOk(src, c)
    ensures Distinct(EditsIfSplit(src, c))
  {
    if SplitAfterFirstArg(src, c) {
      ArgsLeaveRoom(src, c);
    }
  }

  lemma EditsOfTwoCalls(src: string, c: Call, d: Call)
    requires CallOk(src, c) && CallOk(src, d) && Apart(c, d)
    ensures NoneShared(EditsIfSplit(src, c), EditsIfSplit(src, d))
  {
    var a, b := EditsIfSplit(src, c), EditsIfSplit(src, d);
    forall i, j | 0 <= i < |a| && 0 <= j < |b| ensures a[i].offset != b[j].offset {
      EditsOfCallAreOwned(src, c, a[i]);
      EditsOfCallAreOwned(src, d, b[j]);
      ApartOffsets(src, c, d, a[i].offset, b[j].offset);
    }
  }

  /** No two edits of a file have the same offset. */
  lemma EditsAreDistinct(src: string, calls: seq<Call>)
    requires WellFormed(src, calls)
    ensures Distinct(EditsOf(src, calls))
  {
    var lists := EditLists(src, calls);
    forall k | 0 <= k < |lists| ensures Distinct(lists[k]) {
      EditsOfOneCall(src, calls[k]);
    }
    forall j, k | 0 <= j < k < |lists| ensures NoneShared(lists[j], lists[k]) {
      EditsOfTwoCalls(src, calls[j], calls[k]);
    }
    FlatIsDistinct(lists, |calls|);
  }

  lemma ArgsLeaveRoom(src: string, c: Call)
    requires CallOk(src, c) && c.args != []
    ensures c.lparen + 1 < c.rparen
  {
    assert ArgOk(src, c, First(c));
  }

  // The sort by descending offset.

  function Insert(e: Edit, edits: seq<Edit>): (r: seq<Edit>)
    ensures |r| == |edits| + 1 && forall i :: 0 <= i < |r| ==> r[i] == e || r[i] in edits
  {
    if edits == [] || Latest(edits).offset > e.offset then edits + [e]
    else Insert(e, edits[..|edits| - 1]) + [Latest(edits)]
  }

  function Sorted(edits: seq<Edit>): (r: seq<Edit>)
    ensures |r| == |edits| && forall i :: 0 <= i < |r| ==> r[i] in edits
  {
    if edits == [] then [] else Insert(Latest(edits), Sorted(edits[..|edits| - 1]))
  }

  predicate Fresh(e: Edit, edits: seq<Edit>) {
    forall i :: 0 <= i < |edits| ==> edits[i].offset != e.offset
  }

  lemma {:induction false} InsertIsDescending(e: Edit, edits: seq<Edit>)
    requires Descending(edits) && Fresh(e, edits)
    ensures Descending(Insert(e, edits))
  {
    if edits == [] || Latest(edits).offset > e.offset {
      DescendingWith(edits, e);
    } else {
      var before := edits[..|edits| - 1];
      InsertIsDescending(e, before);
      forall i | 0 <= i < |Insert(e, before)| ensures Insert(e, before)[i].offset > Latest(edits).offset {
        assert Insert(e, before)[i] == e || Insert(e, before)[i] in before;
      }
    }
  }

  lemma DescendingWith(edits: seq<Edit>, e: Edit)
    requires Descending(edits) && (edits != [] ==> Latest(edits).offset > e.offset)
    ensures Descending(edits + [e])
  {
    forall i | 0 <= i < |edits| ensures edits[i].offset > e.offset {
      assert edits[i].offset >= edits[|edits| - 1].offset;
    }
  }

  lemma {:induction false} InsertKeepsText(e: Edit, edits: seq<Edit>, p: nat)
    requires Fresh(e, edits)
    ensures TextAt(Insert(e, edits), p) == TextAt(edits, p) + if e.offset == p then e.text else ""
  {
    if edits == [] || Latest(edits).offset > e.offset {
      TextWithFirst(edits, e, p);
    } else {
      var before, last := edits[..|edits| - 1], Latest(edits);
      assert last.offset != e.offset;
      InsertKeepsText(e, before, p);
      TextWithFirst(Insert(e, before), last, p);
      if last.offset == p {
        assert TextAt(Insert(e, before), p) == TextAt(before, p);
      } else {
        assert TextAt(edits, p) == TextAt(before, p);
      }
    }
  }

  lemma {:induction false} SortedKeeps(edits: seq<Edit>, p: nat)
    requires Distinct(edits)
    ensures Descending(Sorted(edits)) && TextAt(Sorted(edits), p) == TextAt(edits, p)
  {
    if edits != [] {
      var before := edits[..|edits| - 1];
      SortedKeeps(before, p);
      assert Fresh(Latest(edits), Sorted(before)) by {
        forall i | 0 <= i < |before| ensures Sorted(before)[i].offset != Latest(edits).offset {
          var j :| 0 <= j < |before| && before[j] == Sorted(before)[i];
          assert edits[j] == before[j];
        }
      }
      InsertIsDescending(Latest(edits), Sorted(before));
      InsertKeepsText(Latest(edits), Sorted(before), p);
    }
  }

  lemma {:induction false} SameTexts(src: string, a: seq<Edit>, b: seq<Edit>, p: nat)
    requires p <= |src| && forall k: nat :: TextAt(a, k) == TextAt(b, k)
    ensures Woven(src, a, p) == Woven(src, b, p)
  {
    if p > 0 {
      SameTexts(src, a, b, p - 1);
    }
    assert TextAt(a, p) == TextAt(b, p);
  }

  /** The sort does not change the weave. */
  lemma SortedWeave(src: string, edits: seq<Edit>)
    requires Distinct(edits)
    ensures Weave(src, Sorted(edits)) == Weave(src, edits)
  {
    forall k: nat ensures TextAt(Sorted(edits), k) == TextAt(edits, k) {
      SortedKeeps(edits, k);
    }
    SameTexts(src, Sorted(edits), edits, |src|);
  }

  // The last replacement: one line end of two after a comma.

  predicate DoubleEnd(s: string) {
    |s| >= 3 && s[0] == ',' && s[1] == '\n' && s[2] == '\n'
  }

  function Squeezed(s: string): string {
    if s == "" then "" else if DoubleEnd(s) then ",\n" + Squeezed(s[3..]) else [s[0]] + Squeezed(s[1..])
  }

  function Output(src: string, calls: seq<Call>): string
    requires CallsOk(src, calls)
  {
    Squeezed(Weave(src, EditsOf(src, calls)))
  }

  lemma OffsetsAreInRange(src: string, calls: seq<Call>, edits: seq<Edit>)
    requires AllOwned(src, calls, edits)
    ensures InRange(src, edits) && forall i :: 0 <= i < |edits| ==> edits[i].text != ""
  {
    forall i | 0 <= i < |edits| ensures edits[i].offset <= |src| && edits[i].text != "" {
      assert Owned(src, calls, edits[i]);
    }
  }

  lemma SortedAreOwned(src: string, calls: seq<Call>, edits: seq<Edit>)
    requires AllOwned(src, calls, edits)
    ensures AllOwned(src, calls, Sorted(edits))
  {
    forall i | 0 <= i < |edits| ensures Owned(src, calls, Sorted(edits)[i]) {
      assert Sorted(edits)[i] in edits;
    }
  }

  /** The edit loop: edits from the last offset to the first. */
  method ApplyAll(src: array<char>, edits: seq<Edit>) returns (out: Slice)
    requires Descending(edits) && InRange(src[..], edits)
    requires forall i :: 0 <= i < |edits| ==> edits[i].text != ""
    ensures Whole(out) && Contents(out) == Weave(src[..], edits)
    ensures src[..] == old(src[..])
  {
    out := Slice(src, src.Length, src.Length);
    WeaveOfNothing(src[..]);
    for i := 0 to |edits|
      invariant Whole(out) && Contents(out) == Weave(src[..], edits[..i])
    {
      WovenWithFirst(src[..], edits[..i], edits[i], |src[..]|);
      assert edits[..i + 1] == edits[..i] + [edits[i]];
      out := Splice(out, edits[i]);
    }
    assert edits[..|edits|] == edits;
  }

  lemma {:induction false} NothingWoven(src: string, p: nat)
    requires p <= |src|
    ensures Woven(src, [], p) == src[..p]
  {
    if p > 0 {
      NothingWoven(src, p - 1);
      assert src[..p] == src[..p - 1] + [src[p - 1]];
    }
  }

  lemma WeaveOfNothing(src: string)
    ensures Weave(src, []) == src
  {
    NothingWoven(src, |src|);
    assert src[..|src|] == src;
  }

  /** What the walk does at one call. */
  method InspectCall(src: string, c: Call) returns (found: bool, edits: seq<Edit>)
    requires CallOk(src, c)
    ensures found == SplitAfterFirstArg(src, c) && edits == EditsIfSplit(src, c)
  {
    found, edits := SplitAfterFirstArg(src, c), [];
    if found {
      edits := Rewrite(src, c);
    }
  }

  /** The walk over the calls. */
  method Inspect(src: string, calls: seq<Call>) returns (edits: seq<Edit>, offenders: nat)
    requires CallsOk(src, calls)
    ensures edits == EditsOf(src, calls) && offenders == Offenders(src, calls, |calls|)
  {
    ghost var lists := EditLists(src, calls);
    edits, offenders := [], 0;
    for i := 0 to |calls|
      invariant edits == Flat(lists, i) && offenders == Offenders(src, calls, i)
    {
      var found, more := InspectCall(src, calls[i]);
      edits := edits + more;
      offenders := offenders + if found then 1 else 0;
    }
  }

  /** process: what it returns, and what it writes to the file, if anything. */
  method Process(src: array<char>, calls: seq<Call>, check: bool) returns (n: nat, written: Option<string>)
    requires WellFormed(src[..], calls)
    ensures n == Offenders(src[..], calls, |calls|)
    ensures written == if check || EditsOf(src[..], calls) == [] then None else Some(Output(src[..], calls))
    ensures src[..] == old(src[..])
  {
    var edits;
    edits, n := Inspect(src[..], calls);
    if check {
      return n, None;
    }
    if |edits| == 0 {
      return n, None;
    }
    EditsAreDistinct(src[..], calls);
    EditsAreOwned(src[..], calls);
    SortedKeeps(edits, 0);
    SortedAreOwned(src[..], calls, edits);
    OffsetsAreInRange(src[..], calls, Sorted(edits));
    SortedWeave(src[..], edits);
    var out := ApplyAll(src, Sorted(edits));
    written := Some(Squeezed(out.data[..out.length]));
  }
}
