/** The post-processing of the API reference page: it escapes each angle bracket
    outside a code span, and writes each map link as the type of a map field. */
module ApiReference {
  import opened Api

  // Code spans, as section 6.1 of CommonMark 0.31.2 has them.

  predicate StartsWithTick(s: string) {
    s != "" && s[0] == '`'
  }

  /** The length of the run of backticks at the start of s. */
  function RunLength(s: string): (n: nat)
    ensures n <= |s| && forall i :: 0 <= i < n ==> s[i] == '`'
    ensures n < |s| ==> s[n] != '`'
    ensures n > 0 <==> StartsWithTick(s)
  {
    if StartsWithTick(s) then 1 + RunLength(s[1..]) else 0
  }

  /** The lengths of the runs of backticks of s, in order. */
  function Runs(s: string): seq<nat> {
    if s == "" then []
    else if s[0] != '`' then Runs(s[1..])
    else [RunLength(s)] + Runs(s[RunLength(s)..])
  }

  /** The end of the first run of length open in s, when it has one. */
  function CloseAt(s: string, open: nat): (end: Option<nat>)
    ensures end.Some? ==> open <= end.value <= |s| && (end.value < |s| ==> s[end.value] != '`' || open == 0)
  {
    if s == "" then None
    else if s[0] != '`' then
      var end := CloseAt(s[1..], open);
      if end.Some? then Some(end.value + 1) else None
    else
      var run := RunLength(s);
      if run == open then Some(run)
      else
        var end := CloseAt(s[run..], open);
        if end.Some? then Some(run + end.value) else None
  }

  /** The length of the code span at the start of s, or of the run of backticks
      there when it is plain text. */
  function SpanLength(s: string): (n: nat)
    requires StartsWithTick(s)
    ensures RunLength(s) <= n <= |s| && !StartsWithTick(s[n..])
  {
    var open := RunLength(s);
    var end := CloseAt(s[open..], open);
    if end.Some? then open + end.value else open
  }

  const LINE_BREAK := "<br />"

  predicate StartsWithBreak(s: string) {
    LINE_BREAK <= s
  }

  function Entity(c: char): string {
    if c == '<' then "&lt;" else "&gt;"
  }

  /** How much of s the next step takes, and what it writes for it. */
  function StepLength(s: string): (n: nat)
    requires s != ""
    ensures 0 < n <= |s|
  {
    if s[0] == '`' then SpanLength(s) else if StartsWithBreak(s) then |LINE_BREAK| else 1
  }

  function StepText(s: string): string
    requires s != ""
  {
    if s[0] != '`' && !StartsWithBreak(s) && (s[0] == '<' || s[0] == '>') then Entity(s[0]) else s[..StepLength(s)]
  }

  function Escaped(s: string): string
    decreases |s|
  {
    if s == "" then "" else StepText(s) + Escaped(s[StepLength(s)..])
  }

  // The text of a line, part by part.

  lemma EscapedBreak(s: string)
    ensures Escaped("<br />" + s) == "<br />" + Escaped(s)
  {
    var x := "<br />" + s;
    assert x[6..] == s && x[..6] == "<br />";
  }

  lemma EscapedAngles(s: string)
    ensures !("br />" <= s) ==> Escaped("<" + s) == "&lt;" + Escaped(s)
    ensures Escaped(">" + s) == "&gt;" + Escaped(s)
  {
    assert ("<" + s)[1..] == s && (">" + s)[1..] == s;
    assert "br />" == "<br />"[1..];
  }

  lemma EscapedPlain(c: char, s: string)
    requires c != '`' && c != '<' && c != '>'
    ensures Escaped([c] + s) == [c] + Escaped(s)
  {
    assert ([c] + s)[1..] == s && ([c] + s)[..1] == [c];
  }

  /** A code span and a line break stay as they are, each other angle bracket becomes
      its entity, and each other character stays. */
  lemma EscapedParts(c: char, s: string)
    ensures Escaped("") == ""
    ensures StartsWithTick(s) ==> Escaped(s) == s[..SpanLength(s)] + Escaped(s[SpanLength(s)..])
    ensures Escaped("<br />" + s) == "<br />" + Escaped(s)
    ensures !("br />" <= s) ==> Escaped("<" + s) == "&lt;" + Escaped(s)
    ensures Escaped(">" + s) == "&gt;" + Escaped(s)
    ensures c != '`' && c != '<' && c != '>' ==> Escaped([c] + s) == [c] + Escaped(s)
  {
    EscapedBreak(s);
    EscapedAngles(s);
    if c != '`' && c != '<' && c != '>' {
      EscapedPlain(c, s);
    }
  }

  method BacktickRun(s: string) returns (n: nat)
    ensures n == RunLength(s)
  {
    n := 0;
    while n < |s| && s[n] == '`'
      invariant n <= |s| && RunLength(s) == n + RunLength(s[n..])
    {
      assert s[n..][1..] == s[n + 1..];
      n := n + 1;
    }
  }

  /** The end of the span at the start of s, when rest is what follows from
      position i of the search on. */
  function CloseFrom(s: string, i: nat, open: nat): Option<nat>
    requires i <= |s|
  {
    var rest := CloseAt(s[i..], open);
    if rest.Some? then Some(i + rest.value) else None
  }

  /** The length of the span at the start of s, as the search from position i
      finds it. */
  function SpanFrom(s: string, i: nat, open: nat): nat
    requires i <= |s|
  {
    var end := CloseFrom(s, i, open);
    if end.Some? then end.value else open
  }

  lemma SpanSkips(s: string, i: nat, open: nat)
    requires i < |s| && s[i] != '`'
    ensures SpanFrom(s, i, open) == SpanFrom(s, i + 1, open)
  {
    assert s[i..][1..] == s[i + 1..];
  }

  lemma SpanAtRun(s: string, i: nat, open: nat, run: nat)
    requires i < |s| && s[i] == '`' && run == RunLength(s[i..])
    ensures 0 < run && i + run <= |s|
    ensures SpanFrom(s, i, open) == if run == open then i + run else SpanFrom(s, i + run, open)
  {
    assert s[i..][run..] == s[i + run..];
  }

  lemma SpanIsFound(s: string)
    requires StartsWithTick(s)
    ensures SpanLength(s) == SpanFrom(s, RunLength(s), RunLength(s))
    ensures SpanFrom(s, |s|, RunLength(s)) == RunLength(s)
  {}

  method CodeSpanLen(s: string) returns (n: nat)
    requires StartsWithTick(s)
    ensures n == SpanLength(s)
  {
    var open := BacktickRun(s);
    SpanIsFound(s);
    var i := open;
    while i < |s|
      invariant open <= i <= |s|
      invariant SpanLength(s) == SpanFrom(s, i, open)
    {
      if s[i] != '`' {
        SpanSkips(s, i, open);
        i := i + 1;
      } else {
        var run := BacktickRun(s[i..]);
        SpanAtRun(s, i, open, run);
        if run == open {
          return i + run;
        }
        i := i + run;
      }
    }
    return open;
  }

  predicate Special(c: char) {
    c == '`' || c == '<' || c == '>'
  }

  /** The first position of a backtick or an angle bracket. */
  method IndexAny(s: string) returns (i: nat)
    ensures i <= |s| && forall k :: 0 <= k < i ==> !Special(s[k])
    ensures i < |s| ==> Special(s[i])
  {
    i := 0;
    while i < |s| && !Special(s[i])
      invariant i <= |s| && forall k :: 0 <= k < i ==> !Special(s[k])
    {
      i := i + 1;
    }
  }

  lemma CopyOne(s: string, i: nat)
    requires i < |s| && !Special(s[i])
    ensures Escaped(s[i..]) == [s[i]] + Escaped(s[i + 1..])
  {
    var rest := s[i..];
    assert rest[0] != LINE_BREAK[0];
    assert StepText(rest) == [s[i]] && rest[1..] == s[i + 1..];
  }

  lemma SliceOne(s: string, i: nat, n: nat, tail: string)
    requires i < n <= |s|
    ensures [s[i]] + (s[i + 1..n] + tail) == s[i..n] + tail
  {}

  lemma {:induction false} CopiedFrom(s: string, i: nat, n: nat)
    requires i <= n <= |s| && forall k :: i <= k < n ==> !Special(s[k])
    ensures Escaped(s[i..]) == s[i..n] + Escaped(s[n..])
    decreases n - i
  {
    if i < n {
      CopyOne(s, i);
      CopiedFrom(s, i + 1, n);
      SliceOne(s, i, n, Escaped(s[n..]));
    }
  }

  /** Text without backticks and angle brackets is copied. */
  lemma PlainIsCopied(s: string, i: nat)
    requires i <= |s| && forall k :: 0 <= k < i ==> !Special(s[k])
    ensures Escaped(s) == s[..i] + Escaped(s[i..])
  {
    CopiedFrom(s, 0, i);
    assert s[0..] == s && s[0..i] == s[..i];
  }

  predicate Wrote(line: string, b: string, rest: string) {
    b + Escaped(rest) == Escaped(line)
  }

  lemma WroteStep(line: string, b: string, rest: string)
    requires Wrote(line, b, rest) && rest != ""
    ensures Wrote(line, b + StepText(rest), rest[StepLength(rest)..])
  {
    var text, after := StepText(rest), Escaped(rest[StepLength(rest)..]);
    assert b + (text + after) == (b + text) + after;
  }

  lemma WrotePlain(line: string, b: string, rest: string, i: nat)
    requires Wrote(line, b, rest) && i <= |rest| && forall k :: 0 <= k < i ==> !Special(rest[k])
    ensures Wrote(line, b + rest[..i], rest[i..])
  {
    PlainIsCopied(rest, i);
    assert b + (rest[..i] + Escaped(rest[i..])) == (b + rest[..i]) + Escaped(rest[i..]);
  }

  /** The switch of escapeLine. */
  method EscapeNext(rest: string) returns (text: string, n: nat)
    requires rest != "" && Special(rest[0])
    ensures text == StepText(rest) && n == StepLength(rest)
  {
    if rest[0] == '`' {
      n := CodeSpanLen(rest);
      text := rest[..n];
    } else if StartsWithBreak(rest) {
      n := |LINE_BREAK|;
      text := LINE_BREAK;
    } else if rest[0] == '<' {
      return "&lt;", 1;
    } else {
      return "&gt;", 1;
    }
  }

  method EscapeLine(line: string) returns (b: string)
    ensures b == Escaped(line)
  {
    b := "";
    var rest := line;
    while rest != ""
      invariant Wrote(line, b, rest)
      decreases |rest|
    {
      var i := IndexAny(rest);
      WrotePlain(line, b, rest, i);
      b := b + rest[..i];
      rest := rest[i..];
      if rest == "" {
        break;
      }
      WroteStep(line, b, rest);
      var text, n := EscapeNext(rest);
      b := b + text;
      rest := rest[n..];
    }
  }

  // A second pass finds the same code spans, and nothing to escape.

  lemma {:induction false} RunConcat(a: string, b: string)
    requires !StartsWithTick(b)
    ensures RunLength(a + b) == RunLength(a)
  {
    if a == "" {
      assert a + b == b;
    } else {
      assert (a + b)[1..] == a[1..] + b;
      RunConcat(a[1..], b);
    }
  }

  lemma {:induction false} RunsConcat(a: string, b: string)
    requires !StartsWithTick(b)
    ensures Runs(a + b) == Runs(a) + Runs(b)
    decreases |a|
  {
    if a == "" {
      assert a + b == b;
    } else if a[0] != '`' {
      assert (a + b)[1..] == a[1..] + b;
      RunsConcat(a[1..], b);
    } else {
      var run := RunLength(a);
      RunConcat(a, b);
      assert (a + b)[run..] == a[run..] + b;
      RunsConcat(a[run..], b);
    }
  }

  /** Text without backticks has no runs. */
  lemma {:induction false} RunsSkip(a: string, b: string)
    requires forall i :: 0 <= i < |a| ==> a[i] != '`'
    ensures Runs(a + b) == Runs(b)
  {
    if a == "" {
      assert a + b == b;
    } else {
      assert (a + b)[1..] == a[1..] + b;
      RunsSkip(a[1..], b);
    }
  }

  lemma {:induction false} CloseIffRun(s: string, open: nat)
    ensures CloseAt(s, open).Some? <==> open in Runs(s)
    decreases |s|
  {
    if s != "" {
      if s[0] != '`' {
        CloseIffRun(s[1..], open);
      } else {
        CloseIffRun(s[RunLength(s)..], open);
      }
    }
  }

  /** A place that is n characters later. */
  function Shifted(end: Option<nat>, n: nat): Option<nat> {
    if end.Some? then Some(end.value + n) else None
  }

  lemma CloseAfterText(head: string, x: string, open: nat)
    requires head != "" && head[0] != '`'
    ensures CloseAt(head + x, open) == Shifted(CloseAt(head[1..] + x, open), 1)
  {
    assert (head + x)[1..] == head[1..] + x;
  }

  /** Backticks and then something else. */
  lemma TicksThen(ticks: string, x: string)
    requires RunLength(ticks) == |ticks| && !StartsWithTick(x)
    ensures RunLength(ticks + x) == |ticks| && (ticks + x)[|ticks|..] == x
  {
    RunConcat(ticks, x);
  }

  lemma CloseAfterRun(s: string, run: nat, x: string, open: nat)
    requires RunLength(s) == run > 0 && s[run..] == x
    ensures CloseAt(s, open) == if run == open then Some(open) else Shifted(CloseAt(x, open), run)
  {}

  /** s is a run of backticks and then something else. */
  lemma RunAndRest(s: string) returns (ticks: string, rest: string)
    ensures s == ticks + rest && |ticks| == RunLength(s) && RunLength(ticks) == |ticks| && !StartsWithTick(rest)
  {
    ticks, rest := s[..RunLength(s)], s[RunLength(s)..];
    AllTicks(ticks);
  }

  /** What follows the closing run does not matter. */
  lemma {:induction false} CloseIsLocal(head: string, rest: string, open: nat, t: string)
    requires CloseAt(head + rest, open) == Some(|head|) && open > 0
    requires !StartsWithTick(rest) && !StartsWithTick(t)
    ensures CloseAt(head + t, open) == Some(|head|)
    decreases |head|
  {
    if head[0] != '`' {
      CloseAfterText(head, rest, open);
      CloseIsLocal(head[1..], rest, open, t);
      CloseAfterText(head, t, open);
    } else {
      var ticks, mid := RunAndRest(head);
      CloseBehindRun(ticks, mid, rest, open);
      if |ticks| != open {
        CloseIsLocal(mid, rest, open, t);
      }
      CloseBehindRun(ticks, mid, t, open);
    }
  }

  lemma CloseBehindRun(ticks: string, mid: string, x: string, open: nat)
    requires ticks != "" && RunLength(ticks) == |ticks| && !StartsWithTick(mid) && !StartsWithTick(x)
    ensures RunLength((ticks + mid) + x) == |ticks| && ((ticks + mid) + x)[|ticks|..] == mid + x
    ensures
      CloseAt((ticks + mid) + x, open) ==
      if |ticks| == open then Some(open) else Shifted(CloseAt(mid + x, open), |ticks|)
  {
    TicksThen(ticks, mid + x);
    assert ticks + (mid + x) == (ticks + mid) + x;
    CloseAfterRun((ticks + mid) + x, |ticks|, mid + x, open);
  }

  lemma {:induction false} AllTicks(s: string)
    requires forall i :: 0 <= i < |s| ==> s[i] == '`'
    ensures RunLength(s) == |s|
  {
    if s != "" {
      AllTicks(s[1..]);
    }
  }

  lemma EscapedTick(s: string)
    ensures StartsWithTick(Escaped(s)) <==> StartsWithTick(s)
  {
    if s != "" {
      assert Escaped(s)[0] == StepText(s)[0];
    }
  }

  /** What one step writes is all that it takes, or text without backticks. */
  lemma StepIsLocal(s: string)
    requires s != ""
    ensures s[0] == '`' ==> StepText(s) == s[..StepLength(s)] && !StartsWithTick(s[StepLength(s)..])
    ensures s[0] != '`' ==> '`' !in StepText(s) && '`' !in s[..StepLength(s)]
    ensures s == s[..StepLength(s)] + s[StepLength(s)..]
  {
    if s[0] != '`' && StartsWithBreak(s) {
      assert s[..|LINE_BREAK|] == LINE_BREAK;
    }
  }

  lemma StepKeepsRuns(s: string, text: string, tail: string)
    requires s != "" && text == StepText(s)
    requires Runs(tail) == Runs(s[StepLength(s)..])
    requires StartsWithTick(tail) <==> StartsWithTick(s[StepLength(s)..])
    ensures Runs(text + tail) == Runs(s)
  {
    var before, rest := s[..StepLength(s)], s[StepLength(s)..];
    StepIsLocal(s);
    if s[0] == '`' {
      RunsConcat(before, rest);
      RunsConcat(before, tail);
    } else {
      RunsSkip(before, rest);
      RunsSkip(text, tail);
    }
  }

  /** Escaping preserves the sequence of runs of backticks. */
  lemma {:induction false} EscapedKeepsRuns(s: string)
    ensures Runs(Escaped(s)) == Runs(s)
    decreases |s|
  {
    if s != "" {
      var rest := s[StepLength(s)..];
      EscapedKeepsRuns(rest);
      EscapedTick(rest);
      StepKeepsRuns(s, StepText(s), Escaped(rest));
    }
  }

  /** Whether the run at the start of s opens a code span. */
  predicate OpensSpan(s: string) {
    StartsWithTick(s) && CloseAt(s[RunLength(s)..], RunLength(s)).Some?
  }

  /** The opening run of a span, the rest of the span, and what follows it. */
  lemma SpanParts(s: string) returns (ticks: string, mid: string, rest: string)
    requires OpensSpan(s)
    ensures s[..SpanLength(s)] == ticks + mid && ticks != "" && RunLength(ticks) == |ticks|
    ensures !StartsWithTick(mid) && !StartsWithTick(rest) && CloseAt(mid + rest, |ticks|) == Some(|mid|)
  {
    var n, open := SpanLength(s), RunLength(s);
    ticks, mid, rest := s[..open], s[open..n], s[n..];
    AllTicks(ticks);
    assert s[open..] == mid + rest;
  }

  lemma SpanIsLocal(s: string, tail: string)
    requires OpensSpan(s) && !StartsWithTick(tail)
    ensures
      var t := s[..SpanLength(s)] + tail;
      OpensSpan(t) && SpanLength(t) == SpanLength(s)
  {
    var ticks, mid, rest := SpanParts(s);
    CloseIsLocal(mid, rest, |ticks|, tail);
    CloseBehindRun(ticks, mid, tail, |ticks|);
    OpensByDefinition((ticks + mid) + tail, |ticks|, mid + tail);
  }

  lemma OpensByDefinition(s: string, run: nat, x: string)
    requires RunLength(s) == run > 0 && s[run..] == x && CloseAt(x, run).Some?
    ensures OpensSpan(s) && SpanLength(s) == run + CloseAt(x, run).value
  {}

  lemma NoSpanIsLocal(s: string, tail: string)
    requires StartsWithTick(s) && !OpensSpan(s) && !StartsWithTick(tail)
    requires Runs(tail) == Runs(s[RunLength(s)..])
    ensures
      var t := s[..SpanLength(s)] + tail;
      StartsWithTick(t) && !OpensSpan(t) && SpanLength(t) == SpanLength(s)
  {
    var open := RunLength(s);
    var t := s[..open] + tail;
    AllTicks(s[..open]);
    RunConcat(s[..open], tail);
    assert t[open..] == tail;
    CloseIffRun(s[open..], open);
    CloseIffRun(tail, open);
  }

  /** The span at the start of s is the span at the start of what is written for
      s. */
  lemma SpanStays(s: string)
    requires StartsWithTick(s)
    ensures StartsWithTick(Escaped(s)) && SpanLength(Escaped(s)) == SpanLength(s)
    ensures OpensSpan(s) <==> OpensSpan(Escaped(s))
  {
    var rest := s[SpanLength(s)..];
    EscapedTick(rest);
    if OpensSpan(s) {
      SpanIsLocal(s, Escaped(rest));
    } else {
      EscapedKeepsRuns(rest);
      NoSpanIsLocal(s, Escaped(rest));
    }
  }

  /** A text that starts with what one step wrote, and whose first span is that
      of the step. */
  lemma StepIsCopied(s: string, t: string, text: string)
    requires s != "" && text == StepText(s) && text <= t
    requires s[0] == '`' ==> StartsWithTick(t) && SpanLength(t) == SpanLength(s)
    ensures Escaped(t) == text + Escaped(t[|text|..])
  {
    if s[0] == '`' {
      assert t[..|text|] == text;
    } else if StartsWithBreak(s) {
      assert t[..|text|] == text;
      assert StartsWithBreak(t);
    } else {
      assert forall i :: 0 <= i < |text| ==> !Special(text[i]) && t[i] == text[i];
      PlainIsCopied(t, |text|);
      assert t[..|text|] == text;
    }
  }

  /** The first step on what is written for s copies what the first step on s
      wrote. */
  lemma SecondStep(s: string)
    requires s != ""
    ensures Escaped(Escaped(s)) == StepText(s) + Escaped(Escaped(s[StepLength(s)..]))
  {
    var text, tail := StepText(s), Escaped(s[StepLength(s)..]);
    if s[0] == '`' {
      SpanStays(s);
    }
    StepIsCopied(s, Escaped(s), text);
    assert (text + tail)[|text|..] == tail;
  }

  lemma {:induction false} EscapedTwice(s: string)
    ensures Escaped(Escaped(s)) == Escaped(s)
    decreases |s|
  {
    if s != "" {
      SecondStep(s);
      EscapedTwice(s[StepLength(s)..]);
    }
  }

  /** Some angle bracket of s stands outside a code span and a line break. */
  predicate HasStray(s: string)
    decreases |s|
  {
    s != "" &&
    ((s[0] in {'<', '>'} && !StartsWithBreak(s)) || HasStray(s[StepLength(s)..]))
  }

  lemma {:induction false} StrayGrows(s: string)
    ensures |Escaped(s)| >= |s|
    ensures HasStray(s) <==> |Escaped(s)| > |s|
    ensures HasStray(s) <==> Escaped(s) != s
    decreases |s|
  {
    if s != "" {
      var n := StepLength(s);
      StrayGrows(s[n..]);
      assert s == s[..n] + s[n..];
    }
  }

  /** No angle bracket stays outside a code span and a line break. */
  lemma EscapedHasNoStray(s: string)
    ensures !HasStray(Escaped(s))
  {
    EscapedTwice(s);
    StrayGrows(Escaped(s));
  }

  function FirstSpan(s: string): seq<string> {
    if OpensSpan(s) then [s[..SpanLength(s)]] else []
  }

  /** The code spans of s, in order. */
  function Spans(s: string): seq<string>
    decreases |s|
  {
    if s == "" then [] else FirstSpan(s) + Spans(s[StepLength(s)..])
  }

  lemma SpansSkipOne(s: string, i: nat)
    requires i < |s| && !Special(s[i])
    ensures Spans(s[i..]) == Spans(s[i + 1..])
  {
    var rest := s[i..];
    assert rest[0] != LINE_BREAK[0];
    assert rest[1..] == s[i + 1..];
  }

  lemma {:induction false} SpansSkip(s: string, i: nat, n: nat)
    requires i <= n <= |s| && forall k :: i <= k < n ==> !Special(s[k])
    ensures Spans(s[i..]) == Spans(s[n..])
    decreases n - i
  {
    if i < n {
      SpansSkipOne(s, i);
      SpansSkip(s, i + 1, n);
    }
  }

  lemma SpansBehind(s: string, text: string, tail: string)
    requires s == text + tail && forall k :: 0 <= k < |text| ==> !Special(text[k])
    ensures Spans(s) == Spans(tail)
  {
    assert forall i :: 0 <= i < |text| ==> s[i] == text[i];
    SpansSkip(s, 0, |text|);
    assert s[|text|..] == tail && s[0..] == s;
  }

  /** Behind a first step that ends at n, the spans are those of the rest. */
  lemma SpansAfterStep(text: string, tail: string)
    requires text != "" && StepLength(text + tail) == |text|
    ensures Spans(text + tail) == FirstSpan(text + tail) + Spans(tail)
  {
    assert (text + tail)[|text|..] == tail;
  }

  lemma SpansOfTick(s: string)
    requires s != "" && s[0] == '`'
    ensures Spans(Escaped(s)) == FirstSpan(s) + Spans(Escaped(s[StepLength(s)..]))
  {
    var text, tail := StepText(s), Escaped(s[StepLength(s)..]);
    SpanStays(s);
    assert (text + tail)[..|text|] == text;
    SpansAfterStep(text, tail);
  }

  lemma SpansOfBreak(s: string)
    requires s != "" && s[0] != '`' && StartsWithBreak(s)
    ensures Spans(Escaped(s)) == FirstSpan(s) + Spans(Escaped(s[StepLength(s)..]))
  {
    var text, tail := StepText(s), Escaped(s[StepLength(s)..]);
    assert text == LINE_BREAK;
    assert (text + tail)[..|text|] == text && (text + tail)[0] == LINE_BREAK[0];
    SpansAfterStep(text, tail);
  }

  lemma PlainStep(s: string)
    requires s != "" && s[0] != '`' && !StartsWithBreak(s)
    ensures FirstSpan(s) == [] && forall k :: 0 <= k < |StepText(s)| ==> !Special(StepText(s)[k])
  {}

  lemma SpansOfPlain(s: string)
    requires s != "" && s[0] != '`' && !StartsWithBreak(s)
    ensures Spans(Escaped(s)) == FirstSpan(s) + Spans(Escaped(s[StepLength(s)..]))
  {
    PlainStep(s);
    SpansBehind(Escaped(s), StepText(s), Escaped(s[StepLength(s)..]));
  }

  /** The spans of what is written for s: that of the first step, and those of
      what is written for the rest. */
  lemma SpansOfEscaped(s: string)
    requires s != ""
    ensures Spans(Escaped(s)) == FirstSpan(s) + Spans(Escaped(s[StepLength(s)..]))
  {
    if s[0] == '`' {
      SpansOfTick(s);
    } else if StartsWithBreak(s) {
      SpansOfBreak(s);
    } else {
      SpansOfPlain(s);
    }
  }

  /** Escaping changes no code span. */
  lemma {:induction false} EscapedKeepsSpans(s: string)
    ensures Spans(Escaped(s)) == Spans(s)
    decreases |s|
  {
    if s != "" {
      SpansOfEscaped(s);
      EscapedKeepsSpans(s[StepLength(s)..]);
    }
  }
}
