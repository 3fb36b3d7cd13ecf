/** The whole correction of an API reference page, and what a second one does. */
module Page {
  import opened Api
  import opened ApiReference
  import opened MapLinks

  // Lines.

  /** The lines of a page: what strings.Split gives for a line feed. */
  function Lines(s: string): (lines: seq<string>)
    ensures lines != [] && forall i :: 0 <= i < |lines| ==> '\n' !in lines[i]
  {
    if s == "" then [""]
    else
      var rest := Lines(s[1..]);
      if s[0] == '\n' then [""] + rest else [[s[0]] + rest[0]] + rest[1..]
  }

  function Joined(lines: seq<string>): string
    requires lines != []
  {
    if |lines| == 1 then lines[0] else lines[0] + ("\n" + Joined(lines[1..]))
  }

  lemma {:induction false} LinesOfText(line: string, tail: string)
    requires '\n' !in line
    ensures Lines(line + tail) == [line + Lines(tail)[0]] + Lines(tail)[1..]
  {
    if line == "" {
      assert line + tail == tail && line + Lines(tail)[0] == Lines(tail)[0];
    } else {
      assert (line + tail)[1..] == line[1..] + tail;
      LinesOfText(line[1..], tail);
      assert [line[0]] + (line[1..] + Lines(tail)[0]) == line + Lines(tail)[0];
    }
  }

  lemma {:induction false} LinesOfJoined(lines: seq<string>)
    requires lines != [] && forall i :: 0 <= i < |lines| ==> '\n' !in lines[i]
    ensures Lines(Joined(lines)) == lines
  {
    var line := lines[0];
    if |lines| == 1 {
      LinesOfText(line, "");
      assert line + "" == line;
    } else {
      var rest := Joined(lines[1..]);
      LinesOfJoined(lines[1..]);
      assert ("\n" + rest)[1..] == rest;
      LinesOfText(line, "\n" + rest);
      assert line + "" == line;
    }
  }

  lemma {:induction false} JoinedLines(s: string)
    ensures Joined(Lines(s)) == s
  {
    if s != "" {
      JoinedLines(s[1..]);
      assert s == [s[0]] + s[1..];
    }
  }

  // Escaping, line by line.

  function EscapedLines(lines: seq<string>): (r: seq<string>)
    ensures |r| == |lines| && forall i :: 0 <= i < |r| ==> r[i] == Escaped(lines[i])
  {
    seq(|lines|, i requires 0 <= i < |lines| => Escaped(lines[i]))
  }

  function EscapedPage(page: string): string {
    Joined(EscapedLines(Lines(page)))
  }

  method EscapeAngles(page: string) returns (out: string)
    ensures out == EscapedPage(page)
  {
    var split := Lines(page);
    var lines := new string[|split|](i requires 0 <= i < |split| => split[i]);
    for i := 0 to lines.Length
      invariant forall k :: 0 <= k < i ==> lines[k] == Escaped(split[k])
      invariant forall k :: i <= k < lines.Length ==> lines[k] == split[k]
    {
      lines[i] := EscapeLine(lines[i]);
    }
    assert lines[..] == EscapedLines(split);
    return Joined(lines[..]);
  }

  lemma {:induction false} EscapedIsMarked(s: string)
    ensures Marked(s, Escaped(s))
    decreases |s|
  {
    if s != "" {
      var n := StepLength(s);
      EscapedIsMarked(s[n..]);
      StepIsMarked(s);
      MarkedConcat(s[..n], StepText(s), s[n..], Escaped(s[n..]));
      assert s == s[..n] + s[n..];
    }
  }

  lemma StepIsMarked(s: string)
    requires s != ""
    ensures Marked(s[..StepLength(s)], StepText(s))
  {
    if s[0] != '`' && !StartsWithBreak(s) && Special(s[0]) {
      var t := Entity(s[0]);
      assert s[..1] == [s[0]] && t[4..] == "";
    } else {
      MarkedSelf(StepText(s));
    }
  }

  lemma {:induction false} MarkedLineFeed(s: string, t: string)
    requires Marked(s, t) && '\n' in t
    ensures '\n' in s
    decreases |s|
  {
    if s != "" && s[0] != '\n' {
      var k := if IsEntity(s[0], t) then 4 else 1;
      assert t == t[..k] + t[k..];
      assert '\n' !in t[..k];
      MarkedLineFeed(s[1..], t[k..]);
    }
  }

  lemma LinesOfEscaped(page: string)
    ensures Lines(EscapedPage(page)) == EscapedLines(Lines(page))
  {
    var lines := Lines(page);
    forall i | 0 <= i < |lines| ensures '\n' !in Escaped(lines[i]) {
      EscapedIsMarked(lines[i]);
      if '\n' in Escaped(lines[i]) {
        MarkedLineFeed(lines[i], Escaped(lines[i]));
      }
    }
    LinesOfJoined(EscapedLines(lines));
  }

  lemma EscapedPageTwice(page: string)
    ensures EscapedPage(EscapedPage(page)) == EscapedPage(page)
  {
    var lines := Lines(page);
    LinesOfEscaped(page);
    forall i | 0 <= i < |lines| ensures Escaped(Escaped(lines[i])) == Escaped(lines[i]) {
      EscapedTwice(lines[i]);
    }
    assert EscapedLines(EscapedLines(lines)) == EscapedLines(lines);
  }

  lemma {:induction false} JoinedIsMarked(a: seq<string>, b: seq<string>)
    requires a != [] && |a| == |b| && forall i :: 0 <= i < |a| ==> Marked(a[i], b[i])
    ensures Marked(Joined(a), Joined(b))
  {
    if |a| > 1 {
      var s, t := Joined(a[1..]), Joined(b[1..]);
      JoinedIsMarked(a[1..], b[1..]);
      MarkedSelf("\n");
      MarkedConcat("\n", "\n", s, t);
      MarkedConcat(a[0], b[0], "\n" + s, "\n" + t);
    }
  }

  lemma EscapedPageIsMarked(page: string)
    ensures Marked(page, EscapedPage(page))
  {
    var lines := Lines(page);
    forall i | 0 <= i < |lines| ensures Marked(lines[i], Escaped(lines[i])) {
      EscapedIsMarked(lines[i]);
    }
    JoinedIsMarked(lines, EscapedLines(lines));
    JoinedLines(page);
  }

  // The whole correction.

  function Processed(page: string): string {
    EscapedPage(Rewritten(page))
  }

  /** anchorsOk says whether each link of a page points at the anchor of a
      heading. */
  method Process(page: string, anchorsOk: string -> bool) returns (r: Result<string, ()>)
    ensures r == if anchorsOk(Processed(page)) then Ok(Processed(page)) else Err(())
  {
    var out := Rewritten(page);
    out := EscapeAngles(out);
    if !anchorsOk(out) {
      return Err(());
    }
    return Ok(out);
  }

  lemma ProcessedHasNoLink(page: string)
    ensures !HasLink(Processed(page))
  {
    RewrittenHasNoLink(page);
    EscapedPageIsMarked(Rewritten(page));
    MarkedHasNoLink(Rewritten(page), Processed(page));
  }

  /** A page that process returned comes back unchanged. */
  lemma ProcessedTwice(page: string)
    ensures Processed(Processed(page)) == Processed(page)
  {
    ProcessedHasNoLink(page);
    NoLinkIsKept(Processed(page));
    EscapedPageTwice(Rewritten(page));
  }

  /** No angle bracket of the result stands outside a code span and a line break
      of its line, and each line keeps its code spans. */
  lemma ProcessedLines(page: string)
    ensures
      var before, after := Lines(Rewritten(page)), Lines(Processed(page));
      |after| == |before| &&
      forall i :: 0 <= i < |after| ==> !HasStray(after[i]) && Spans(after[i]) == Spans(before[i])
  {
    var before, after := Lines(Rewritten(page)), Lines(Processed(page));
    LinesOfEscaped(Rewritten(page));
    forall i | 0 <= i < |after| ensures !HasStray(after[i]) && Spans(after[i]) == Spans(before[i]) {
      EscapedHasNoStray(before[i]);
      EscapedKeepsSpans(before[i]);
    }
  }
}
