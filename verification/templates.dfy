/** Templates of the contract: text with field references, which the suite
    checks and fills, and which the echo plugin fills without the check. */
module Templates {
  import opened Api
  import opened Json

  // A parsed template.

  datatype Arg = Field(head: string, keys: seq<string>) | Identifier(name: string) | Variable | Dot | OtherArg

  /** An action has its first argument, the number of arguments after it, of
      further commands and of declared variables. */
  datatype Node =
    | TextNode(text: string)
    | IfNode | RangeNode | WithNode | TemplateNode | CommentNode
    | ActionNode(decls: nat, moreCmds: nat, first: Arg, moreArgs: nat)
    | OtherNode(construct: string)

  datatype Parsed = Parsed(defines: seq<string>, nodes: seq<Node>)

  /** What the placeholders of one request stand for. */
  datatype Values = Values(fields: map<string, string>, parameters: map<string, Value>, outputs: map<string, string>)

  /** The template library: parse is the lenient parser of the check, strict
      says whether the parser of the renderer takes a text with functions, print
      writes a parameter, and run executes what the check does not allow. */
  datatype Library = Library(
    parse: string -> Option<Parsed>,
    strict: Parsed -> bool,
    print_: Value -> string,
    run: (Parsed, Values) -> Option<string>)

  // The check.

  datatype Placeholders = Placeholders(fields: set<string>, maps: set<string>, refused: map<string, string>)

  const REQUEST_FIELDS := {"namespace", "claim", "request", "serviceAccount"}
  const GRANT := Placeholders(REQUEST_FIELDS, {"parameters", "outputs"}, map[])
  const PARAMETER := Placeholders(REQUEST_FIELDS, {"parameters"}, map["outputs" := "rendered before the outputs"])

  datatype Problem = NotAllowed(construct: string) | Refused(name: string) | TakesOneKey(name: string) | NotInContract

  function CheckAction(action: Node, allowed: Placeholders): Option<Problem>
    requires action.ActionNode?
  {
    if action.decls > 0 then Some(NotAllowed("variable"))
    else if action.moreCmds > 0 then Some(NotAllowed("pipeline"))
    else
      match action.first
      case Identifier(name) => Some(NotAllowed("function call " + name))
      case Variable => Some(NotAllowed("variable"))
      case Dot => Some(NotAllowed("dot"))
      case OtherArg => Some(NotAllowed("the expression"))
      case Field(head, keys) =>
        if action.moreArgs > 0 then Some(NotAllowed("function call"))
        else if (keys == [] && head in allowed.fields) || (|keys| == 1 && head in allowed.maps) then None
        else if head in allowed.refused && allowed.refused[head] != "" then Some(Refused(head))
        else if head in allowed.maps then Some(TakesOneKey(head))
        else Some(NotInContract)
  }

  function CheckNode(node: Node, allowed: Placeholders): Option<Problem> {
    match node
    case TextNode(_) => None
    case IfNode => Some(NotAllowed("if"))
    case RangeNode => Some(NotAllowed("range"))
    case WithNode => Some(NotAllowed("with"))
    case TemplateNode => Some(NotAllowed("template"))
    case CommentNode => Some(NotAllowed("comment"))
    case ActionNode(_, _, _, _) => CheckAction(node, allowed)
    case OtherNode(construct) => Some(NotAllowed(construct))
  }

  /** A single field reference. */
  predicate IsReference(node: Node) {
    node.ActionNode? && node.decls == 0 && node.moreCmds == 0 && node.first.Field? && node.moreArgs == 0
  }

  /** Text, or one field reference that the placeholders hold. */
  predicate Allowed(node: Node, allowed: Placeholders) {
    || node.TextNode?
    || (IsReference(node) &&
        ((node.first.keys == [] && node.first.head in allowed.fields) ||
         (|node.first.keys| == 1 && node.first.head in allowed.maps)))
  }

  predicate AllAllowed(nodes: seq<Node>, allowed: Placeholders) {
    forall i :: 0 <= i < |nodes| ==> Allowed(nodes[i], allowed)
  }

  lemma CheckNodeIff(node: Node, allowed: Placeholders)
    ensures CheckNode(node, allowed).None? <==> Allowed(node, allowed)
  {}

  /** .name */
  function Name(name: string): Node {
    ActionNode(0, 0, Field(name, []), 0)
  }

  /** .name.key */
  function NameOfKey(name: string, key: string): Node {
    ActionNode(0, 0, Field(name, [key]), 0)
  }

  /** The references that the template of a Grant can hold, and those that a
      parameter can, which is rendered before there are outputs. */
  lemma PlaceholdersAre(name: string, key: string)
    ensures
      forall allowed :: allowed == GRANT || allowed == PARAMETER ==>
        (Allowed(Name(name), allowed) <==>
         name == "namespace" || name == "claim" || name == "request" || name == "serviceAccount")
    ensures Allowed(NameOfKey(name, key), GRANT) <==> name == "parameters" || name == "outputs"
    ensures Allowed(NameOfKey(name, key), PARAMETER) <==> name == "parameters"
    ensures CheckNode(NameOfKey("outputs", key), PARAMETER) == Some(Refused("outputs"))
    ensures CheckNode(Name("outputs"), PARAMETER) == Some(Refused("outputs"))
    ensures CheckNode(Name("outputs"), GRANT) == Some(TakesOneKey("outputs"))
  {}

  /** The check passes text without defines whose nodes are all allowed. */
  predicate Passes(lib: Library, text: string, allowed: Placeholders) {
    match lib.parse(text)
    case None => false
    case Some(p) => p.defines == [] && AllAllowed(p.nodes, allowed)
  }

  /** A problem for each template that is defined. */
  function DefineProblems(defines: seq<string>): seq<Problem> {
    seq(|defines|, i requires 0 <= i < |defines| => NotAllowed("define " + defines[i]))
  }

  /** The problems of the first n nodes. */
  function NodeProblems(nodes: seq<Node>, allowed: Placeholders, n: nat): (problems: seq<Problem>)
    requires n <= |nodes|
    ensures problems == [] <==> forall i :: 0 <= i < n ==> CheckNode(nodes[i], allowed).None?
  {
    if n == 0 then []
    else
      var last := CheckNode(nodes[n - 1], allowed);
      NodeProblems(nodes, allowed, n - 1) + if last.Some? then [last.value] else []
  }

  /** The problems of a text that parses, one for each define and for each node that
      is not allowed, in their order. */
  method CheckTemplate(lib: Library, text: string, allowed: Placeholders) returns (ok: bool, problems: seq<Problem>)
    ensures ok <==> Passes(lib, text, allowed)
    ensures
      problems ==
      match lib.parse(text)
      case None => []
      case Some(p) => DefineProblems(p.defines) + NodeProblems(p.nodes, allowed, |p.nodes|)
  {
    problems := [];
    var parsed := lib.parse(text);
    if parsed.None? {
      return false, [];
    }
    var defines, nodes := parsed.value.defines, parsed.value.nodes;
    for i := 0 to |defines|
      invariant problems == DefineProblems(defines[..i])
    {
      assert DefineProblems(defines[..i + 1]) == DefineProblems(defines[..i]) + [NotAllowed("define " + defines[i])];
      problems := problems + [NotAllowed("define " + defines[i])];
    }
    assert defines[..|defines|] == defines;
    for i := 0 to |nodes|
      invariant problems == DefineProblems(defines) + NodeProblems(nodes, allowed, i)
    {
      var problem := CheckNode(nodes[i], allowed);
      if problem.Some? {
        problems := problems + [problem.value];
      }
    }
    NoProblemsIff(nodes, allowed);
    ok := problems == [];
  }

  lemma NoProblemsIff(nodes: seq<Node>, allowed: Placeholders)
    ensures NodeProblems(nodes, allowed, |nodes|) == [] <==> AllAllowed(nodes, allowed)
  {
    forall i | 0 <= i < |nodes| ensures CheckNode(nodes[i], allowed).None? <==> Allowed(nodes[i], allowed) {
      CheckNodeIff(nodes[i], allowed);
    }
  }

  // Execution, with a missing key as an error.

  /** Text and single field references need nothing else of the library. */
  predicate Plain(node: Node) {
    node.TextNode? || (IsReference(node) && |node.first.keys| <= 1)
  }

  predicate AllPlain(nodes: seq<Node>) {
    forall i :: 0 <= i < |nodes| ==> Plain(nodes[i])
  }

  function Lookup(lib: Library, values: Values, head: string, keys: seq<string>): Option<string>
    requires |keys| <= 1
  {
    if keys == [] then if head in values.fields then Some(values.fields[head]) else None
    else
      var key := keys[0];
      if head == "parameters" && key in values.parameters then Some(lib.print_(values.parameters[key]))
      else if head == "outputs" && key in values.outputs then Some(values.outputs[key])
      else None
  }

  function ExecuteNode(lib: Library, values: Values, node: Node): Option<string>
    requires Plain(node)
  {
    if node.TextNode? then Some(node.text) else Lookup(lib, values, node.first.head, node.first.keys)
  }

  /** The first n nodes. */
  function ExecuteNodes(lib: Library, values: Values, nodes: seq<Node>, n: nat): Option<string>
    requires AllPlain(nodes) && n <= |nodes|
  {
    if n == 0 then Some("")
    else
      var before, last := ExecuteNodes(lib, values, nodes, n - 1), ExecuteNode(lib, values, nodes[n - 1]);
      if before.Some? && last.Some? then Some(before.value + last.value) else None
  }

  /** template.Parse and Execute. */
  function Execute(lib: Library, values: Values, text: string): Option<string> {
    match lib.parse(text)
    case None => None
    case Some(p) =>
      if p.defines == [] && AllPlain(p.nodes) then ExecuteNodes(lib, values, p.nodes, |p.nodes|)
      else if lib.strict(p) then lib.run(p, values)
      else None
  }

  // The renderer of the suite: the check, the parameters and outputs that the
  // text names, and then the execution.

  predicate HasValue(node: Node, values: Values) {
    node.ActionNode? && node.first.Field? && |node.first.keys| == 1 ==>
      && (node.first.head == "parameters" ==> node.first.keys[0] in values.parameters)
      && (node.first.head == "outputs" ==> node.first.keys[0] in values.outputs)
  }

  predicate AllHaveValues(nodes: seq<Node>, values: Values) {
    forall i :: 0 <= i < |nodes| ==> HasValue(nodes[i], values)
  }

  predicate Fillable(lib: Library, allowed: Placeholders, values: Values, text: string) {
    Passes(lib, text, allowed) && AllHaveValues(lib.parse(text).value.nodes, values)
  }

  function RenderTemplate(lib: Library, allowed: Placeholders, values: Values, text: string): Option<string> {
    if Fillable(lib, allowed, values, text) then Execute(lib, values, text) else None
  }

  method FillTemplate(lib: Library, allowed: Placeholders, values: Values, text: string) returns (r: Option<string>)
    ensures r == RenderTemplate(lib, allowed, values, text)
    ensures r.Some? ==> Passes(lib, text, allowed) && IsFilling(lib, values, lib.parse(text).value.nodes, r.value)
  {
    var ok, _ := CheckTemplate(lib, text, allowed);
    if !ok {
      return None;
    }
    var nodes := lib.parse(text).value.nodes;
    for i := 0 to |nodes|
      invariant AllHaveValues(nodes[..i], values)
    {
      assert nodes[..i + 1] == nodes[..i] + [nodes[i]];
      if !HasValue(nodes[i], values) {
        return None;
      }
    }
    assert nodes[..|nodes|] == nodes;
    r := Execute(lib, values, text);
    if r.Some? {
      RendersTo(lib, allowed, values, text, r.value);
    }
  }

  // What a rendered text is.

  /** What a node stands for: its text, a value of the request, the print of a
      parameter, or an output. */
  predicate IsPiece(lib: Library, values: Values, node: Node, piece: string) {
    || node == TextNode(piece)
    || (IsReference(node) &&
        var head, keys := node.first.head, node.first.keys;
        || (keys == [] && head in values.fields && piece == values.fields[head])
        || (|keys| == 1 && head == "parameters" && keys[0] in values.parameters &&
            piece == lib.print_(values.parameters[keys[0]]))
        || (|keys| == 1 && head == "outputs" && keys[0] in values.outputs && piece == values.outputs[keys[0]]))
  }

  /** The pieces one behind the other. */
  function Joined(pieces: seq<string>): string {
    if pieces == [] then "" else pieces[0] + Joined(pieces[1..])
  }

  lemma {:induction false} JoinedBoth(a: seq<string>, b: seq<string>)
    ensures Joined(a + b) == Joined(a) + Joined(b)
    decreases |a|
  {
    if a == [] {
      assert a + b == b;
    } else {
      JoinedBoth(a[1..], b);
      assert (a + b)[1..] == a[1..] + b;
      assert a[0] + (Joined(a[1..]) + Joined(b)) == (a[0] + Joined(a[1..])) + Joined(b);
    }
  }

  lemma JoinedOne(piece: string)
    ensures Joined([piece]) == piece
  {
    assert [piece][1..] == [];
  }

  lemma JoinedMore(front: seq<string>, last: string)
    ensures Joined(front + [last]) == Joined(front) + last
  {
    JoinedBoth(front, [last]);
    JoinedOne(last);
  }

  predicate ArePieces(lib: Library, values: Values, nodes: seq<Node>, n: nat, pieces: seq<string>)
    requires n <= |nodes|
  {
    |pieces| == n && forall i :: 0 <= i < n ==> IsPiece(lib, values, nodes[i], pieces[i])
  }

  /** text is what the nodes stand for, one behind the other. */
  ghost predicate IsFilling(lib: Library, values: Values, nodes: seq<Node>, text: string) {
    exists pieces :: ArePieces(lib, values, nodes, |nodes|, pieces) && text == Joined(pieces)
  }

  lemma NodeIsPiece(lib: Library, values: Values, node: Node, piece: string)
    requires Plain(node)
    ensures ExecuteNode(lib, values, node) == Some(piece) <==> IsPiece(lib, values, node, piece)
  {}

  /** The pieces of the first n nodes give what they execute to. */
  lemma {:induction false} PiecesExecute(lib: Library, values: Values, nodes: seq<Node>, n: nat, pieces: seq<string>)
    requires AllPlain(nodes) && n <= |nodes| && ArePieces(lib, values, nodes, n, pieces)
    ensures ExecuteNodes(lib, values, nodes, n) == Some(Joined(pieces))
  {
    if n > 0 {
      PiecesExecute(lib, values, nodes, n - 1, pieces[..n - 1]);
      LastPiece(lib, values, nodes, n, pieces[..n - 1], pieces[n - 1]);
      FrontAndLast(pieces);
    }
  }

  lemma FrontAndLast(pieces: seq<string>)
    requires pieces != []
    ensures pieces == pieces[..|pieces| - 1] + [pieces[|pieces| - 1]]
  {}

  lemma LastPiece(lib: Library, values: Values, nodes: seq<Node>, n: nat, front: seq<string>, last: string)
    requires AllPlain(nodes) && 0 < n <= |nodes| && IsPiece(lib, values, nodes[n - 1], last)
    requires ExecuteNodes(lib, values, nodes, n - 1) == Some(Joined(front))
    ensures ExecuteNodes(lib, values, nodes, n) == Some(Joined(front + [last]))
  {
    NodeIsPiece(lib, values, nodes[n - 1], last);
    JoinedMore(front, last);
  }

  lemma {:induction false} ExecutedPieces(lib: Library, values: Values, nodes: seq<Node>, n: nat)
    returns (pieces: seq<string>)
    requires AllPlain(nodes) && n <= |nodes| && ExecuteNodes(lib, values, nodes, n).Some?
    ensures ArePieces(lib, values, nodes, n, pieces)
  {
    pieces := [];
    if n > 0 {
      pieces := ExecutedPieces(lib, values, nodes, n - 1);
      var last := ExecuteNode(lib, values, nodes[n - 1]).value;
      NodeIsPiece(lib, values, nodes[n - 1], last);
      pieces := pieces + [last];
    }
  }

  /** The nodes execute to a text exactly when it is what they stand for, in
      their order. */
  lemma NodesFill(lib: Library, values: Values, nodes: seq<Node>, text: string)
    requires AllPlain(nodes)
    ensures ExecuteNodes(lib, values, nodes, |nodes|) == Some(text) <==> IsFilling(lib, values, nodes, text)
  {
    if ExecuteNodes(lib, values, nodes, |nodes|) == Some(text) {
      var pieces := ExecutedPieces(lib, values, nodes, |nodes|);
      PiecesExecute(lib, values, nodes, |nodes|, pieces);
    }
    if IsFilling(lib, values, nodes, text) {
      var pieces :| ArePieces(lib, values, nodes, |nodes|, pieces) && text == Joined(pieces);
      PiecesExecute(lib, values, nodes, |nodes|, pieces);
    }
  }

  /** The text of a + b is the text of a, followed by that of b. */
  lemma FillingOfBoth(lib: Library, values: Values, a: seq<Node>, b: seq<Node>, s: string, t: string)
    requires IsFilling(lib, values, a, s) && IsFilling(lib, values, b, t)
    ensures IsFilling(lib, values, a + b, s + t)
  {
    var p :| ArePieces(lib, values, a, |a|, p) && s == Joined(p);
    var q :| ArePieces(lib, values, b, |b|, q) && t == Joined(q);
    JoinedBoth(p, q);
    assert ArePieces(lib, values, a + b, |a + b|, p + q);
  }

  /** What the suite renders a text to: for each text and result, it is the text
      that its nodes stand for, in their order, and nothing when the check, or
      the value of a name, is missing. */
  lemma RendersTo(lib: Library, allowed: Placeholders, values: Values, text: string, r: string)
    ensures
      RenderTemplate(lib, allowed, values, text) == Some(r) <==>
      Passes(lib, text, allowed) && AllPlain(lib.parse(text).value.nodes) &&
      AllHaveValues(lib.parse(text).value.nodes, values) && IsFilling(lib, values, lib.parse(text).value.nodes, r)
  {
    if Passes(lib, text, allowed) {
      AllowedArePlain(lib.parse(text).value.nodes, allowed);
      NodesFill(lib, values, lib.parse(text).value.nodes, r);
    }
  }

  /** The same of echo, which does not check: on text and single references. */
  lemma ExecutesTo(lib: Library, values: Values, text: string, nodes: seq<Node>, r: string)
    requires lib.parse(text) == Some(Parsed([], nodes)) && AllPlain(nodes)
    ensures Execute(lib, values, text) == Some(r) <==> IsFilling(lib, values, nodes, r)
  {
    NodesFill(lib, values, nodes, r);
  }

  /** Two texts one behind the other render to their renderings one behind the
      other. */
  lemma RendersInOrder(
      lib: Library, allowed: Placeholders, values: Values, a: string, b: string, both: string,
      x: seq<Node>, y: seq<Node>)
    requires lib.parse(a) == Some(Parsed([], x)) && lib.parse(b) == Some(Parsed([], y))
    requires lib.parse(both) == Some(Parsed([], x + y))
    requires RenderTemplate(lib, allowed, values, a).Some? && RenderTemplate(lib, allowed, values, b).Some?
    ensures
      RenderTemplate(lib, allowed, values, both) ==
      Some(RenderTemplate(lib, allowed, values, a).value + RenderTemplate(lib, allowed, values, b).value)
  {
    var s, t := RenderTemplate(lib, allowed, values, a).value, RenderTemplate(lib, allowed, values, b).value;
    RendersTo(lib, allowed, values, a, s);
    RendersTo(lib, allowed, values, b, t);
    FillingOfBoth(lib, values, x, y, s, t);
    RendersTo(lib, allowed, values, both, s + t);
  }

  /** Placeholders whose names have values: a name of fields stands for a
      string, and a name of maps for the parameters or the outputs. */
  predicate Served(allowed: Placeholders, values: Values) {
    allowed.fields <= values.fields.Keys && allowed.maps <= {"parameters", "outputs"}
  }

  lemma {:induction false} NodesExecute(
      lib: Library, allowed: Placeholders, values: Values, nodes: seq<Node>, n: nat)
    requires Served(allowed, values) && AllAllowed(nodes, allowed) && AllPlain(nodes) && n <= |nodes|
    ensures ExecuteNodes(lib, values, nodes, n).Some? <==> forall i :: 0 <= i < n ==> HasValue(nodes[i], values)
  {
    if n > 0 {
      NodesExecute(lib, allowed, values, nodes, n - 1);
      assert Allowed(nodes[n - 1], allowed);
      assert ExecuteNode(lib, values, nodes[n - 1]).Some? <==> HasValue(nodes[n - 1], values);
    }
  }

  lemma AllowedArePlain(nodes: seq<Node>, allowed: Placeholders)
    requires AllAllowed(nodes, allowed)
    ensures AllPlain(nodes)
  {
    forall i | 0 <= i < |nodes| ensures Plain(nodes[i]) {
      assert Allowed(nodes[i], allowed);
    }
  }

  /** A text that passes the check renders exactly when each parameter and each
      output that it names has a value. */
  lemma RendersIff(lib: Library, allowed: Placeholders, values: Values, text: string)
    requires Served(allowed, values)
    ensures RenderTemplate(lib, allowed, values, text).Some? <==> Fillable(lib, allowed, values, text)
  {
    if Passes(lib, text, allowed) {
      var nodes := lib.parse(text).value.nodes;
      AllowedArePlain(nodes, allowed);
      NodesExecute(lib, allowed, values, nodes, |nodes|);
    }
  }

  /** The node is a reference to the parameter name. */
  predicate NamesParameter(node: Node, name: string) {
    IsReference(node) && node.first.head == "parameters" && node.first.keys == [name]
  }

  /** Some text that passes the check names the parameter. */
  ghost predicate Nameable(lib: Library, allowed: Placeholders, name: string) {
    exists text, i :: NamesAt(lib, allowed, name, text, i)
  }

  ghost predicate NamesAt(lib: Library, allowed: Placeholders, name: string, text: string, i: nat) {
    && Passes(lib, text, allowed)
    && i < |lib.parse(text).value.nodes| && NamesParameter(lib.parse(text).value.nodes[i], name)
  }

  /** Values that give one text for each placeholder that a text can name. */
  ghost predicate Agree(lib: Library, allowed: Placeholders, a: Values, b: Values) {
    && a.parameters.Keys == b.parameters.Keys && a.outputs == b.outputs
    && (forall name :: name in a.parameters && Nameable(lib, allowed, name) ==>
          lib.print_(a.parameters[name]) == lib.print_(b.parameters[name]))
    && forall f :: f in allowed.fields ==> f in a.fields && f in b.fields && a.fields[f] == b.fields[f]
  }

  lemma SameNode(lib: Library, allowed: Placeholders, a: Values, b: Values, text: string, i: nat)
    requires Agree(lib, allowed, a, b) && Passes(lib, text, allowed) && i < |lib.parse(text).value.nodes|
    ensures Plain(lib.parse(text).value.nodes[i])
    ensures
      ExecuteNode(lib, a, lib.parse(text).value.nodes[i]) == ExecuteNode(lib, b, lib.parse(text).value.nodes[i])
  {
    var node := lib.parse(text).value.nodes[i];
    assert Allowed(node, allowed);
    if node.ActionNode? && node.first.keys != [] && node.first.head == "parameters" {
      assert NamesAt(lib, allowed, node.first.keys[0], text, i);
    }
  }

  lemma {:induction false} SameNodes(lib: Library, allowed: Placeholders, a: Values, b: Values, text: string, n: nat)
    requires Agree(lib, allowed, a, b) && Passes(lib, text, allowed)
    requires n <= |lib.parse(text).value.nodes| && AllPlain(lib.parse(text).value.nodes)
    ensures ExecuteNodes(lib, a, lib.parse(text).value.nodes, n) == ExecuteNodes(lib, b, lib.parse(text).value.nodes, n)
  {
    if n > 0 {
      SameNodes(lib, allowed, a, b, text, n - 1);
      SameNode(lib, allowed, a, b, text, n - 1);
    }
  }

  /** On a text that passes the check, the renderer that does not check gives
      the same. */
  lemma UncheckedAgrees(lib: Library, allowed: Placeholders, a: Values, b: Values, text: string)
    requires Agree(lib, allowed, a, b) && Served(allowed, a) && Passes(lib, text, allowed)
    ensures Execute(lib, b, text) == RenderTemplate(lib, allowed, a, text)
  {
    var nodes := lib.parse(text).value.nodes;
    AllowedArePlain(nodes, allowed);
    SameNodes(lib, allowed, a, b, text, |nodes|);
    NodesExecute(lib, allowed, a, nodes, |nodes|);
  }
}
