/** The versions of an example inventory, each with the dotted path of the
    mappings around it. */
module ExampleVersions {
  import opened Api

  /** A line as the reader tells it apart. A fence starts with three backticks,
      and may open a block of YAML. A key has the indentation that its dash
      counts to, and the value behind it. Blank lines and comments are Other. */
  datatype Line = Fence(yaml: bool) | Separator | Key(indent: nat, name: string, value: string) | Other

  datatype Entry = Entry(indent: nat, name: string)

  datatype Version = Version(path: string, value: string, line: nat)

  const VERSION := "version"

  // Which lines are read.

  /** Whether the reader is inside the YAML before line n. */
  predicate Reading(lines: seq<Line>, markdown: bool, n: nat)
    requires n <= |lines|
  {
    if !markdown then true
    else if n == 0 then false
    else if lines[n - 1].Fence? then !Reading(lines, markdown, n - 1) && lines[n - 1].yaml
    else Reading(lines, markdown, n - 1)
  }

  predicate Resets(line: Line, markdown: bool) {
    line.Separator? || (markdown && line.Fence?)
  }

  // The mappings around a key.

  /** The nearest key before line n since the last reset. */
  function LastKey(lines: seq<Line>, markdown: bool, n: nat): (p: Option<nat>)
    requires n <= |lines|
    ensures p.Some? ==> p.value < n && lines[p.value].Key?
  {
    if n == 0 || Resets(lines[n - 1], markdown) then None
    else if lines[n - 1].Key? then Some(n - 1)
    else LastKey(lines, markdown, n - 1)
  }

  /** The nearest key before line n with a smaller indentation since the last
      reset. */
  function Parent(lines: seq<Line>, markdown: bool, n: nat, indent: nat): (p: Option<nat>)
    requires n <= |lines|
    ensures p.Some? ==> p.value < n && lines[p.value].Key? && lines[p.value].indent < indent
  {
    if n == 0 || Resets(lines[n - 1], markdown) then None
    else if lines[n - 1].Key? && lines[n - 1].indent < indent then Some(n - 1)
    else Parent(lines, markdown, n - 1, indent)
  }

  /** The key at line i below its parent, the parent of that, and so on. */
  function Chain(lines: seq<Line>, markdown: bool, i: nat): (chain: seq<nat>)
    requires i < |lines| && lines[i].Key?
    ensures chain != [] && chain[|chain| - 1] == i
    ensures forall k :: 0 <= k < |chain| ==> chain[k] <= i && lines[chain[k]].Key?
  {
    var p := Parent(lines, markdown, i, lines[i].indent);
    if p.None? then [i] else Chain(lines, markdown, p.value) + [i]
  }

  function ChainOf(lines: seq<Line>, markdown: bool, p: Option<nat>): (chain: seq<nat>)
    requires p.Some? ==> p.value < |lines| && lines[p.value].Key?
    ensures forall k :: 0 <= k < |chain| ==> chain[k] < |lines| && lines[chain[k]].Key?
  {
    if p.None? then [] else Chain(lines, markdown, p.value)
  }

  function Entries(lines: seq<Line>, chain: seq<nat>): (keys: seq<Entry>)
    requires forall k :: 0 <= k < |chain| ==> chain[k] < |lines| && lines[chain[k]].Key?
    ensures |keys| == |chain|
    ensures forall k :: 0 <= k < |chain| ==> keys[k] == Entry(lines[chain[k]].indent, lines[chain[k]].name)
  {
    seq(|chain|, k requires 0 <= k < |chain| => Entry(lines[chain[k]].indent, lines[chain[k]].name))
  }

  /** The key stack before line n. */
  function StackAt(lines: seq<Line>, markdown: bool, n: nat): seq<Entry>
    requires n <= |lines|
  {
    Entries(lines, ChainOf(lines, markdown, LastKey(lines, markdown, n)))
  }

  function Names(keys: seq<Entry>): string {
    if keys == [] then ""
    else if |keys| == 1 then keys[0].name
    else Names(keys[..|keys| - 1]) + ("." + keys[|keys| - 1].name)
  }

  /** The version at a line that is read. */
  predicate IsVersion(lines: seq<Line>, markdown: bool, i: nat)
    requires i < |lines|
  {
    Reading(lines, markdown, i) && lines[i].Key? && lines[i].name == VERSION
  }

  function VersionAt(lines: seq<Line>, markdown: bool, i: nat): Version
    requires i < |lines| && lines[i].Key?
  {
    Version(Names(Entries(lines, Chain(lines, markdown, i))), lines[i].value, i + 1)
  }

  /** The versions of the first n lines. */
  function Versions(lines: seq<Line>, markdown: bool, n: nat): seq<Version>
    requires n <= |lines|
  {
    if n == 0 then []
    else
      Versions(lines, markdown, n - 1) +
      if IsVersion(lines, markdown, n - 1) then [VersionAt(lines, markdown, n - 1)] else []
  }

  // The pops of the key stack.

  lemma {:induction false} NoKeyBetween(lines: seq<Line>, markdown: bool, n: nat, indent: nat)
    requires n <= |lines|
    ensures
      var last := LastKey(lines, markdown, n);
      Parent(lines, markdown, n, indent) ==
      if last.None? then None else Parent(lines, markdown, last.value + 1, indent)
  {
    if n > 0 && !Resets(lines[n - 1], markdown) && !lines[n - 1].Key? {
      NoKeyBetween(lines, markdown, n - 1, indent);
    }
  }

  /** A key that is not below a smaller bound leaves the search to its parent. */
  lemma {:induction false} SkipToParent(lines: seq<Line>, markdown: bool, n: nat, indent: nat, bound: nat)
    requires n <= |lines| && indent <= bound
    ensures
      var p := Parent(lines, markdown, n, bound);
      Parent(lines, markdown, n, indent) == if p.None? then None else Parent(lines, markdown, p.value + 1, indent)
  {
    if n > 0 && !Resets(lines[n - 1], markdown) && !(lines[n - 1].Key? && lines[n - 1].indent < bound) {
      SkipToParent(lines, markdown, n - 1, indent, bound);
    }
  }

  /** The search from behind the top x of the stack finds what the search from
      line n finds. */
  ghost predicate Found(lines: seq<Line>, markdown: bool, n: nat, indent: nat, x: Option<nat>)
    requires n <= |lines|
  {
    && (x.Some? ==> x.value < n && lines[x.value].Key?)
    && Parent(lines, markdown, n, indent) ==
       if x.None? then None else Parent(lines, markdown, x.value + 1, indent)
  }

  lemma PopKeepsFound(lines: seq<Line>, markdown: bool, n: nat, indent: nat, x: nat)
    requires n <= |lines| && Found(lines, markdown, n, indent, Some(x)) && lines[x].indent >= indent
    ensures Found(lines, markdown, n, indent, Parent(lines, markdown, x, lines[x].indent))
  {
    SkipToParent(lines, markdown, x, indent, lines[x].indent);
  }

  lemma EntriesOfChain(lines: seq<Line>, markdown: bool, x: nat)
    requires x < |lines| && lines[x].Key?
    ensures
      var keys := Entries(lines, Chain(lines, markdown, x));
      var p := Parent(lines, markdown, x, lines[x].indent);
      && keys[..|keys| - 1] == Entries(lines, ChainOf(lines, markdown, p))
      && keys[|keys| - 1] == Entry(lines[x].indent, lines[x].name)
  {}

  /** The stack is the chain of x, and the search may go on from there. */
  ghost predicate OnTop(
      lines: seq<Line>, markdown: bool, n: nat, indent: nat, x: Option<nat>, keys: seq<Entry>)
    requires n <= |lines|
  {
    Found(lines, markdown, n, indent, x) && keys == Entries(lines, ChainOf(lines, markdown, x))
  }

  lemma PopStep(lines: seq<Line>, markdown: bool, n: nat, indent: nat, x: Option<nat>, keys: seq<Entry>)
    returns (next: Option<nat>)
    requires n <= |lines| && OnTop(lines, markdown, n, indent, x, keys)
    requires keys != [] && keys[|keys| - 1].indent >= indent
    ensures OnTop(lines, markdown, n, indent, next, keys[..|keys| - 1])
  {
    EntriesOfChain(lines, markdown, x.value);
    PopKeepsFound(lines, markdown, n, indent, x.value);
    next := Parent(lines, markdown, x.value, lines[x.value].indent);
  }

  lemma PopsDone(lines: seq<Line>, markdown: bool, n: nat, indent: nat, x: Option<nat>, keys: seq<Entry>)
    requires n <= |lines| && OnTop(lines, markdown, n, indent, x, keys)
    requires keys == [] || keys[|keys| - 1].indent < indent
    ensures keys == Entries(lines, ChainOf(lines, markdown, Parent(lines, markdown, n, indent)))
  {
    if x.Some? {
      EntriesOfChain(lines, markdown, x.value);
    }
  }

  /** The inner loop: the keys that stand at the indentation or deeper go. */
  method Pop(stack: seq<Entry>, indent: nat, ghost lines: seq<Line>, ghost markdown: bool, ghost n: nat)
    returns (keys: seq<Entry>)
    requires n <= |lines| && stack == StackAt(lines, markdown, n)
    ensures keys == Entries(lines, ChainOf(lines, markdown, Parent(lines, markdown, n, indent)))
  {
    keys := stack;
    ghost var x := LastKey(lines, markdown, n);
    NoKeyBetween(lines, markdown, n, indent);
    while |keys| > 0 && keys[|keys| - 1].indent >= indent
      invariant OnTop(lines, markdown, n, indent, x, keys)
      decreases |keys|
    {
      x := PopStep(lines, markdown, n, indent, x, keys);
      keys := keys[..|keys| - 1];
    }
    PopsDone(lines, markdown, n, indent, x, keys);
  }

  lemma PushedIsChain(lines: seq<Line>, markdown: bool, i: nat, keys: seq<Entry>)
    requires i < |lines| && lines[i].Key?
    requires keys == Entries(lines, ChainOf(lines, markdown, Parent(lines, markdown, i, lines[i].indent)))
    ensures keys + [Entry(lines[i].indent, lines[i].name)] == Entries(lines, Chain(lines, markdown, i))
    ensures keys + [Entry(lines[i].indent, lines[i].name)] == StackAt(lines, markdown, i + 1)
  {
    EntriesOfChain(lines, markdown, i);
  }

  /** The names of the stack, joined with dots. */
  method JoinNames(keys: seq<Entry>) returns (path: string)
    ensures path == Names(keys)
  {
    path := "";
    for k := 0 to |keys|
      invariant path == Names(keys[..k])
    {
      assert keys[..k + 1][..k] == keys[..k];
      path := if k == 0 then keys[k].name else path + ("." + keys[k].name);
    }
    assert keys[..|keys|] == keys;
  }

  /** What one key line does to the stack, and the version it holds. */
  method ReadKey(stack: seq<Entry>, lines: seq<Line>, i: nat, ghost markdown: bool)
    returns (keys: seq<Entry>, found: seq<Version>)
    requires i < |lines| && lines[i].Key? && stack == StackAt(lines, markdown, i)
    ensures keys == StackAt(lines, markdown, i + 1)
    ensures found == if lines[i].name == VERSION then [VersionAt(lines, markdown, i)] else []
  {
    keys := Pop(stack, lines[i].indent, lines, markdown, i);
    PushedIsChain(lines, markdown, i, keys);
    keys := keys + [Entry(lines[i].indent, lines[i].name)];
    found := [];
    if lines[i].name == VERSION {
      var path := JoinNames(keys);
      found := [Version(path, lines[i].value, i + 1)];
    }
  }

  /** A line that is no key and no reset leaves the stack alone, and a reset
      empties it. */
  lemma StackAfter(lines: seq<Line>, markdown: bool, i: nat)
    requires i < |lines|
    ensures Resets(lines[i], markdown) ==> StackAt(lines, markdown, i + 1) == []
    ensures
      !Resets(lines[i], markdown) && !lines[i].Key? ==>
      StackAt(lines, markdown, i + 1) == StackAt(lines, markdown, i)
  {}

  method ReadDocument(lines: seq<Line>, markdown: bool) returns (versions: seq<Version>)
    ensures versions == Versions(lines, markdown, |lines|)
  {
    versions := [];
    var reading := !markdown;
    var keys: seq<Entry> := [];
    for i := 0 to |lines|
      invariant reading == Reading(lines, markdown, i)
      invariant reading ==> keys == StackAt(lines, markdown, i)
      invariant versions == Versions(lines, markdown, i)
    {
      var line := lines[i];
      StackAfter(lines, markdown, i);
      if markdown {
        if !reading && line.Fence? && line.yaml {
          reading, keys := true, [];
          continue;
        } else if reading && line.Fence? {
          reading := false;
          continue;
        } else if !reading {
          continue;
        }
      }
      if line.Separator? {
        keys := [];
        continue;
      }
      if !line.Key? {
        continue;
      }
      var found;
      keys, found := ReadKey(keys, lines, i, markdown);
      versions := versions + found;
    }
  }

  // What the chain of a key is.

  /** No reset and no key with a smaller indentation stands between. */
  predicate NothingBetween(lines: seq<Line>, markdown: bool, from: nat, to: nat, indent: nat)
    requires to <= |lines|
  {
    forall j :: from <= j < to ==>
      !Resets(lines[j], markdown) && (lines[j].Key? ==> lines[j].indent >= indent)
  }

  /** c is the nearest earlier key with a smaller indentation than the key at
      d. */
  predicate Encloses(lines: seq<Line>, markdown: bool, c: nat, d: nat)
    requires c < d < |lines| && lines[c].Key? && lines[d].Key?
  {
    lines[c].indent < lines[d].indent && NothingBetween(lines, markdown, c + 1, d, lines[d].indent)
  }

  /** No key since the last reset has a smaller indentation than the key at d. */
  ghost predicate IsOutermost(lines: seq<Line>, markdown: bool, d: nat)
    requires d < |lines| && lines[d].Key?
  {
    exists from: nat ::
      && from <= d && NothingBetween(lines, markdown, from, d, lines[d].indent)
      && (from > 0 ==> Resets(lines[from - 1], markdown))
  }

  lemma {:induction false} ParentIsNearest(lines: seq<Line>, markdown: bool, n: nat, indent: nat)
    requires n <= |lines|
    ensures
      var p := Parent(lines, markdown, n, indent);
      && (p.Some? ==> NothingBetween(lines, markdown, p.value + 1, n, indent))
      && (p.None? ==>
          exists from: nat ::
            && from <= n && NothingBetween(lines, markdown, from, n, indent)
            && (from > 0 ==> Resets(lines[from - 1], markdown)))
  {
    if n == 0 || Resets(lines[n - 1], markdown) {
      assert NothingBetween(lines, markdown, n, n, indent);
    } else if !(lines[n - 1].Key? && lines[n - 1].indent < indent) {
      ParentIsNearest(lines, markdown, n - 1, indent);
      var p := Parent(lines, markdown, n - 1, indent);
      if p.None? {
        var from: nat :|
          && from <= n - 1 && NothingBetween(lines, markdown, from, n - 1, indent)
          && (from > 0 ==> Resets(lines[from - 1], markdown));
        assert NothingBetween(lines, markdown, from, n, indent);
      }
    }
  }

  /** The chain of a key: each key of it encloses the next, the first has none
      around it, and so the indentations increase strictly. */
  lemma {:induction false} ChainIsEnclosing(lines: seq<Line>, markdown: bool, i: nat)
    requires i < |lines| && lines[i].Key?
    ensures IsNested(lines, markdown, Chain(lines, markdown, i))
  {
    ParentIsNearest(lines, markdown, i, lines[i].indent);
    var p := Parent(lines, markdown, i, lines[i].indent);
    if p.Some? {
      ChainIsEnclosing(lines, markdown, p.value);
      NestedMore(lines, markdown, Chain(lines, markdown, p.value), i);
    }
  }

  /** The first key of the chain is an outermost one, and each encloses the next. */
  ghost predicate IsNested(lines: seq<Line>, markdown: bool, chain: seq<nat>) {
    && chain != [] && (forall k :: 0 <= k < |chain| ==> chain[k] < |lines| && lines[chain[k]].Key?)
    && IsOutermost(lines, markdown, chain[0])
    && forall k :: 0 <= k < |chain| - 1 ==>
         chain[k] < chain[k + 1] && Encloses(lines, markdown, chain[k], chain[k + 1])
  }

  lemma NestedMore(lines: seq<Line>, markdown: bool, chain: seq<nat>, i: nat)
    requires IsNested(lines, markdown, chain) && chain[|chain| - 1] < i < |lines| && lines[i].Key?
    requires Encloses(lines, markdown, chain[|chain| - 1], i)
    ensures IsNested(lines, markdown, chain + [i])
  {}

  /** No key of a chain stands before a separator, or a fence of a page, that the
      key itself stands behind. */
  lemma {:induction false} ChainStaysInside(lines: seq<Line>, markdown: bool, i: nat, j: nat, k: nat)
    requires j <= i < |lines| && lines[i].Key? && (lines[j].Separator? || (markdown && lines[j].Fence?))
    requires k < |Chain(lines, markdown, i)|
    ensures j < Chain(lines, markdown, i)[k]
  {
    var p := Parent(lines, markdown, i, lines[i].indent);
    if p.Some? {
      ParentIsNearest(lines, markdown, i, lines[i].indent);
      assert j < i && j <= p.value;
      if k < |Chain(lines, markdown, p.value)| {
        ChainStaysInside(lines, markdown, p.value, j, k);
      }
    }
  }

  predicate IsFence(line: Line) {
    line == Fence(true) || line == Fence(false)
  }

  /** A line of a page is read exactly when it stands in a block of YAML: the last
      fence before it opens one. */
  lemma {:induction false} ReadingIff(lines: seq<Line>, n: nat)
    requires n <= |lines|
    ensures Reading(lines, false, n)
    ensures
      Reading(lines, true, n) <==>
      exists i ::
        && 0 <= i < n && lines[i] == Fence(true) && !Reading(lines, true, i)
        && forall j :: i < j < n ==> !IsFence(lines[j])
  {
    if n > 0 {
      ReadingIff(lines, n - 1);
    }
  }

  predicate Increasing(keys: seq<Entry>) {
    forall k :: 0 <= k < |keys| - 1 ==> keys[k].indent < keys[k + 1].indent
  }

  /** The key stack always has strictly increasing indentations. */
  lemma StackIncreases(lines: seq<Line>, markdown: bool, n: nat)
    requires n <= |lines|
    ensures Increasing(StackAt(lines, markdown, n))
  {
    var last := LastKey(lines, markdown, n);
    if last.Some? {
      ChainIsEnclosing(lines, markdown, last.value);
    }
  }

  /** Exactly the version keys that are read are found: on the line with the number
      of the version, counted from one, with the value of the key there, and the
      path of the keys around it. */
  lemma {:induction false} VersionsAre(lines: seq<Line>, markdown: bool, n: nat, v: Version)
    requires n <= |lines|
    ensures
      v in Versions(lines, markdown, n) <==>
      && 1 <= v.line <= n && Reading(lines, markdown, v.line - 1)
      && lines[v.line - 1].Key? && lines[v.line - 1].name == "version" && v.value == lines[v.line - 1].value
      && v.path == Names(Entries(lines, Chain(lines, markdown, v.line - 1)))
  {
    if n > 0 {
      VersionsAre(lines, markdown, n - 1, v);
    }
  }

  /** The parts of a path between its dots. */
  function Parts(path: string): (parts: seq<string>)
    ensures parts != []
  {
    if path == "" then [""]
    else
      var before, c := Parts(path[..|path| - 1]), path[|path| - 1];
      if c == '.' then before + [""] else before[..|before| - 1] + [before[|before| - 1] + [c]]
  }

  lemma {:induction false} PartsMore(path: string, name: string)
    requires '.' !in name
    ensures Parts(path + ("." + name)) == Parts(path) + [name]
    decreases |name|
  {
    var s := path + ("." + name);
    if name == "" {
      assert s[..|s| - 1] == path && s[|s| - 1] == '.';
    } else {
      var n := |name| - 1;
      PartsMore(path, name[..n]);
      assert s[..|s| - 1] == path + ("." + name[..n]) && s[|s| - 1] == name[n];
      var before := Parts(path) + [name[..n]];
      assert before[..|before| - 1] == Parts(path) && name[..n] + [name[n]] == name;
    }
  }

  lemma {:induction false} PartsOfName(name: string)
    requires '.' !in name
    ensures Parts(name) == [name]
    decreases |name|
  {
    if name != "" {
      var n := |name| - 1;
      PartsOfName(name[..n]);
      assert name[..n] + [name[n]] == name;
    }
  }

  predicate NoDots(keys: seq<Entry>) {
    forall k :: 0 <= k < |keys| ==> '.' !in keys[k].name
  }

  function KeyNames(keys: seq<Entry>): (names: seq<string>)
    ensures |names| == |keys| && forall k :: 0 <= k < |keys| ==> names[k] == keys[k].name
  {
    seq(|keys|, k requires 0 <= k < |keys| => keys[k].name)
  }

  lemma MoreNames(keys: seq<Entry>, last: Entry)
    requires keys != [] && '.' !in last.name && Parts(Names(keys)) == KeyNames(keys)
    ensures Parts(Names(keys + [last])) == KeyNames(keys + [last])
  {
    var all := keys + [last];
    assert all[..|all| - 1] == keys;
    PartsMore(Names(keys), last.name);
    assert KeyNames(all) == KeyNames(keys) + [last.name];
  }

  lemma FrontAndLast(keys: seq<Entry>)
    requires keys != [] && NoDots(keys)
    ensures
      var front, last := keys[..|keys| - 1], keys[|keys| - 1];
      keys == front + [last] && NoDots(front) && '.' !in last.name
  {}

  /** The parts of the path are the names of the keys, from the outermost in, when
      no name has a dot. */
  lemma {:induction false} NamesAreParts(keys: seq<Entry>)
    requires keys != [] && NoDots(keys)
    ensures Parts(Names(keys)) == KeyNames(keys)
    decreases |keys|
  {
    FrontAndLast(keys);
    if |keys| == 1 {
      PartsOfName(keys[0].name);
    } else {
      NamesAreParts(keys[..|keys| - 1]);
      MoreNames(keys[..|keys| - 1], keys[|keys| - 1]);
    }
  }
}
