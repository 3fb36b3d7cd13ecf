/** The fragment that the Grant of a template must hold, and the one that the
    echo plugin writes. */
module Fragments {
  import opened Api
  import opened Json
  import opened Templates
  import opened Documents

  datatype Request = Request(
    namespace: string, claim: string, name: string, serviceAccount: string,
    parameters: map<string, Value>, outputs: map<string, string>)

  /** The values of the suite. */
  function SuiteValues(req: Request, parameters: map<string, Value>, outputs: map<string, string>): Values {
    Values(
      map[
        "namespace" := req.namespace, "claim" := req.claim, "request" := req.name,
        "serviceAccount" := req.serviceAccount, "pods" := ""],
      parameters, outputs)
  }

  /** The values of the echo plugin, which reads the parameters as they are. */
  function EchoValues(req: Request): Values {
    Values(
      map[
        "namespace" := req.namespace, "claim" := req.claim, "request" := req.name,
        "serviceAccount" := req.serviceAccount],
      req.parameters, req.outputs)
  }

  lemma NameRenders(lib: Library, values: Values, name: string)
    requires name in values.fields
    ensures ExecuteNodes(lib, values, [Name(name)], 1) == Some(values.fields[name])
  {
    assert ExecuteNodes(lib, values, [Name(name)], 0) == Some("") && "" + values.fields[name] == values.fields[name];
  }

  /** What the names of a template stand for. */
  ghost predicate NamesMean(lib: Library, values: Values, req: Request) {
    && ExecuteNodes(lib, values, [Name("namespace")], 1) == Some(req.namespace)
    && ExecuteNodes(lib, values, [Name("claim")], 1) == Some(req.claim)
    && ExecuteNodes(lib, values, [Name("request")], 1) == Some(req.name)
    && ExecuteNodes(lib, values, [Name("serviceAccount")], 1) == Some(req.serviceAccount)
  }

  /** They stand for the same to the suite and to the echo plugin. */
  lemma PlaceholdersMean(lib: Library, req: Request, parameters: map<string, Value>, outputs: map<string, string>)
    ensures NamesMean(lib, SuiteValues(req, parameters, outputs), req)
    ensures NamesMean(lib, EchoValues(req), req)
    ensures
      var values := SuiteValues(req, parameters, outputs);
      values.parameters == parameters && values.outputs == outputs
    ensures EchoValues(req).parameters == req.parameters && EchoValues(req).outputs == req.outputs
  {
    AllNamesRender(lib, SuiteValues(req, parameters, outputs));
    AllNamesRender(lib, EchoValues(req));
  }

  lemma AllNamesRender(lib: Library, values: Values)
    requires REQUEST_FIELDS <= values.fields.Keys
    ensures forall name :: name in REQUEST_FIELDS ==>
      ExecuteNodes(lib, values, [Name(name)], 1) == Some(values.fields[name])
  {
    forall name | name in REQUEST_FIELDS
      ensures ExecuteNodes(lib, values, [Name(name)], 1) == Some(values.fields[name])
    {
      NameRenders(lib, values, name);
    }
  }

  // The parameters that the registration marks as templates.

  const FLEET_TEMPLATE := "x-fleet-template"

  type Properties = map<string, map<string, Value>>

  predicate IsMarked(property: map<string, Value>) {
    FLEET_TEMPLATE in property && property[FLEET_TEMPLATE] == Bool(true)
  }

  function Marked(properties: Properties): set<string> {
    set name | name in properties && IsMarked(properties[name])
  }

  predicate AreProperties(properties: Properties, keys: seq<string>) {
    forall i :: 0 <= i < |keys| ==> keys[i] in properties
  }

  /** The marked ones of the first n keys. */
  function MarkedKeys(properties: Properties, keys: seq<string>, n: nat): seq<string>
    requires AreProperties(properties, keys) && n <= |keys|
  {
    if n == 0 then []
    else MarkedKeys(properties, keys, n - 1) + if IsMarked(properties[keys[n - 1]]) then [keys[n - 1]] else []
  }

  lemma {:induction false} MarkedKeysHave(properties: Properties, keys: seq<string>, n: nat, i: nat)
    requires AreProperties(properties, keys) && i < n <= |keys| && IsMarked(properties[keys[i]])
    ensures keys[i] in MarkedKeys(properties, keys, n)
  {
    if i < n - 1 {
      MarkedKeysHave(properties, keys, n - 1, i);
    }
  }

  lemma {:induction false} MarkedKeyIs(properties: Properties, keys: seq<string>, n: nat, x: string) returns (i: nat)
    requires AreProperties(properties, keys) && n <= |keys| && x in MarkedKeys(properties, keys, n)
    ensures i < n && x == keys[i] && IsMarked(properties[x])
  {
    if x == keys[n - 1] && IsMarked(properties[x]) {
      i := n - 1;
    } else {
      i := MarkedKeyIs(properties, keys, n - 1, x);
    }
  }

  lemma {:induction false} MarkedKeysAscend(properties: Properties, keys: seq<string>, n: nat)
    requires AreProperties(properties, keys) && n <= |keys| && Ascending(keys)
    ensures Ascending(MarkedKeys(properties, keys, n))
  {
    if n > 0 {
      var before := MarkedKeys(properties, keys, n - 1);
      MarkedKeysAscend(properties, keys, n - 1);
      forall j | 0 <= j < |before| ensures Less(before[j], keys[n - 1]) {
        var i := MarkedKeyIs(properties, keys, n - 1, before[j]);
      }
    }
  }

  lemma MarkedKeysAreMarked(properties: Properties, keys: seq<string>)
    requires KeysOf(keys, properties.Keys) && Ascending(keys) && AreProperties(properties, keys)
    ensures
      var names := MarkedKeys(properties, keys, |keys|);
      Ascending(names) && KeysOf(names, Marked(properties))
  {
    var names := MarkedKeys(properties, keys, |keys|);
    MarkedKeysAscend(properties, keys, |keys|);
    forall j | 0 <= j < |names| ensures names[j] in Marked(properties) {
      var i := MarkedKeyIs(properties, keys, |keys|, names[j]);
    }
    forall k | k in Marked(properties) ensures k in names {
      var i :| 0 <= i < |keys| && keys[i] == k;
      MarkedKeysHave(properties, keys, |keys|, i);
    }
  }

  /** The loop over the sorted names. */
  method CollectMarked(properties: Properties, keys: seq<string>) returns (names: seq<string>)
    requires AreProperties(properties, keys)
    ensures names == MarkedKeys(properties, keys, |keys|)
  {
    names := [];
    for i := 0 to |keys|
      invariant names == MarkedKeys(properties, keys, i)
    {
      if IsMarked(properties[keys[i]]) {
        names := names + [keys[i]];
      }
    }
  }

  /** The marked names, in order. */
  method TemplateParameters(properties: Properties) returns (names: seq<string>)
    ensures Ascending(names) && KeysOf(names, Marked(properties))
    ensures forall name ::
      name in names <==>
      && name in properties && "x-fleet-template" in properties[name]
      && properties[name]["x-fleet-template"] == Bool(true)
  {
    var keys := SortKeys(properties.Keys);
    names := CollectMarked(properties, keys);
    MarkedKeysAreMarked(properties, keys);
  }

  // Each marked parameter is rendered from the original parameters, without
  // outputs.

  function ParameterEnv(lib: Library, req: Request): Env {
    Env(lib, PARAMETER, SuiteValues(req, req.parameters, map[]))
  }

  function ParameterPath(name: string): string {
    "spec.parameters." + name
  }

  ghost function Parameter(lib: Library, req: Request, name: string): Result<Value, string>
    requires name in req.parameters
  {
    Rendered(ParameterEnv(lib, req), ParameterPath(name), req.parameters[name])
  }

  /** A parameter is rendered before there are outputs: it cannot name one, and
      the outputs of the request do not count. */
  lemma ParametersComeFirst(lib: Library, req: Request, name: string, outputs: map<string, string>)
    requires name in req.parameters
    ensures Parameter(lib, req.(outputs := outputs), name) == Parameter(lib, req, name)
    ensures
      forall text, i, key ::
        && req.parameters[name] == Text(text) && lib.parse(text).Some? && 0 <= i < |lib.parse(text).value.nodes|
        && lib.parse(text).value.nodes[i] == NameOfKey("outputs", key)
        ==> Parameter(lib, req, name) == Err(ParameterPath(name))
  {
    forall text, i, key |
      && req.parameters[name] == Text(text) && lib.parse(text).Some? && 0 <= i < |lib.parse(text).value.nodes|
      && lib.parse(text).value.nodes[i] == NameOfKey("outputs", key)
      ensures Parameter(lib, req, name) == Err(ParameterPath(name))
    {
      PlaceholdersAre("outputs", key);
      assert !Allowed(lib.parse(text).value.nodes[i], PARAMETER);
      assert Fill(ParameterEnv(lib, req), text).None?;
    }
  }

  /** Each marked parameter that the request has renders. */
  ghost predicate AllFill(lib: Library, req: Request, marked: set<string>) {
    forall name :: name in marked && name in req.parameters ==> Parameter(lib, req, name).Ok?
  }

  /** The parameters with the marked ones rendered, all at once. */
  ghost function Filled(lib: Library, req: Request, marked: set<string>): map<string, Value>
    requires AllFill(lib, req, marked)
  {
    map name | name in req.parameters ::
      if name in marked then Parameter(lib, req, name).value else req.parameters[name]
  }

  /** The loop over the marked parameters: in any order it fills the same. */
  method FillParameters(lib: Library, req: Request, order: seq<string>, ghost marked: set<string>)
    returns (r: Result<map<string, Value>, string>)
    requires KeysOf(order, marked)
    ensures r.Ok? <==> AllFill(lib, req, marked)
    ensures r.Ok? ==> r.value == Filled(lib, req, marked)
  {
    var rendered := req.parameters;
    ghost var done := {};
    for i := 0 to |order|
      invariant KeysOf(order[..i], done) && done <= marked
      invariant AllFill(lib, req, done) && rendered == Filled(lib, req, done)
    {
      var name := order[i];
      assert KeysOf(order[..i + 1], done + {name}) by {
        assert order[..i + 1] == order[..i] + [name];
      }
      if name in req.parameters {
        var value := RenderLeaves(ParameterEnv(lib, req), ParameterPath(name), req.parameters[name]);
        assert value == Parameter(lib, req, name);
        if value.Err? {
          return Err(value.error);
        }
        rendered := rendered[name := value.value];
      }
      done := done + {name};
      assert rendered == Filled(lib, req, done);
    }
    assert order[..|order|] == order;
    assert done == marked;
    r := Ok(rendered);
  }

  // The fragment.

  function GrantEnv(lib: Library, req: Request, parameters: map<string, Value>): Env {
    Env(lib, GRANT, SuiteValues(req, parameters, req.outputs))
  }

  method ExpectedFragment(lib: Library, properties: Properties, req: Request, path: string, template: Option<Value>)
    returns (r: Result<Value, string>)
    ensures
      r.Ok? <==>
      && template.Some? && AllFill(lib, req, Marked(properties))
      && Rendered(GrantEnv(lib, req, Filled(lib, req, Marked(properties))), path, template.value).Ok?
    ensures r.Ok? ==> r == Rendered(GrantEnv(lib, req, Filled(lib, req, Marked(properties))), path, template.value)
  {
    if template.None? {
      return Err(path);
    }
    var order := TemplateParameters(properties);
    var parameters := FillParameters(lib, req, order, Marked(properties));
    if parameters.Err? {
      return Err(parameters.error);
    }
    r := RenderLeaves(GrantEnv(lib, req, parameters.value), path, template.value);
  }

  /** The fragment that the suite expects, if any. */
  ghost function Expected(lib: Library, req: Request, marked: set<string>, path: string, template: Value)
    : Option<Value>
  {
    if AllFill(lib, req, marked) then Document(Rendered(GrantEnv(lib, req, Filled(lib, req, marked)), path, template))
    else None
  }

  /** On each checked template, the echo plugin writes the fragment that the
      suite expects, and nothing when the suite expects none. */
  ghost predicate EchoFollows(lib: Library, req: Request, marked: set<string>) {
    forall path, template :: Checked(lib, GRANT, template) ==>
      EchoRendered(lib, EchoValues(req), template) == Expected(lib, req, marked, path, template)
  }

  /** Each marked parameter that a template can name prints the same before and
      after it is filled. */
  ghost predicate PrintsSame(lib: Library, req: Request, marked: set<string>)
    requires AllFill(lib, req, marked)
  {
    forall name :: name in marked && name in req.parameters && Nameable(lib, GRANT, name) ==>
      lib.print_(Parameter(lib, req, name).value) == lib.print_(req.parameters[name])
  }

  lemma PrintsSameAgree(lib: Library, req: Request, marked: set<string>)
    requires AllFill(lib, req, marked) && PrintsSame(lib, req, marked)
    ensures Agree(lib, GRANT, GrantEnv(lib, req, Filled(lib, req, marked)).values, EchoValues(req))
  {}

  /** When each marked parameter prints the same before and after it is filled,
      the echo plugin writes the fragment that the suite expects. */
  lemma EchoWritesExpected(lib: Library, req: Request, marked: set<string>, path: string, template: Value)
    requires Checked(lib, GRANT, template) && AllFill(lib, req, marked) && PrintsSame(lib, req, marked)
    ensures EchoRendered(lib, EchoValues(req), template) == Expected(lib, req, marked, path, template)
  {
    var env := GrantEnv(lib, req, Filled(lib, req, marked));
    PrintsSameAgree(lib, req, marked);
    assert GRANT.fields <= env.values.fields.Keys;
    RenderersAgree(env, EchoValues(req), path, template);
  }

  function Reference(name: string): Node {
    ActionNode(0, 0, Field("parameters", [name]), 0)
  }

  /** A parameter that a text can name can be all that a text holds. */
  ghost predicate NamesStandAlone(lib: Library) {
    forall name :: Nameable(lib, GRANT, name) ==> exists text :: lib.parse(text) == Some(Parsed([], [Reference(name)]))
  }

  lemma RenderedReference(lib: Library, values: Values, name: string, text: string)
    requires lib.parse(text) == Some(Parsed([], [Reference(name)])) && name in values.parameters
    ensures Passes(lib, text, GRANT) && Fillable(lib, GRANT, values, text)
    ensures Execute(lib, values, text) == Some(lib.print_(values.parameters[name]))
  {
    var nodes := [Reference(name)];
    assert Allowed(nodes[0], GRANT) && Plain(nodes[0]);
    assert ExecuteNodes(lib, values, nodes, 0) == Some("");
    assert "" + lib.print_(values.parameters[name]) == lib.print_(values.parameters[name]);
  }

  /** A template that is one reference tells the two prints apart. */
  lemma ReferenceTells(lib: Library, req: Request, marked: set<string>, name: string, text: string)
    requires AllFill(lib, req, marked) && name in marked && name in req.parameters
    requires lib.parse(text) == Some(Parsed([], [Reference(name)]))
    ensures Checked(lib, GRANT, Text(text))
    ensures
      EchoRendered(lib, EchoValues(req), Text(text)) == Expected(lib, req, marked, "", Text(text)) <==>
      lib.print_(Parameter(lib, req, name).value) == lib.print_(req.parameters[name])
  {
    RenderedReference(lib, GrantEnv(lib, req, Filled(lib, req, marked)).values, name, text);
    RenderedReference(lib, EchoValues(req), name, text);
  }

  /** The two agree on every checked template exactly when each marked parameter
      renders, and prints the same before and after. */
  lemma EchoFollowsIff(lib: Library, req: Request, marked: set<string>)
    requires NamesStandAlone(lib)
    ensures EchoFollows(lib, req, marked) <==> AllFill(lib, req, marked) && PrintsSame(lib, req, marked)
  {
    if EchoFollows(lib, req, marked) {
      assert Checked(lib, GRANT, Null);
      assert EchoRendered(lib, EchoValues(req), Null) == Expected(lib, req, marked, "", Null);
      forall name | name in marked && name in req.parameters && Nameable(lib, GRANT, name)
        ensures lib.print_(Parameter(lib, req, name).value) == lib.print_(req.parameters[name])
      {
        var text :| lib.parse(text) == Some(Parsed([], [Reference(name)]));
        ReferenceTells(lib, req, marked, name, text);
      }
    }
    if AllFill(lib, req, marked) && PrintsSame(lib, req, marked) {
      forall path, template | Checked(lib, GRANT, template)
        ensures EchoRendered(lib, EchoValues(req), template) == Expected(lib, req, marked, path, template)
      {
        EchoWritesExpected(lib, req, marked, path, template);
      }
    }
  }

  // Parameters without a placeholder.

  /** The text opens no action. */
  predicate NoAction(text: string) {
    forall i :: 0 <= i < |text| - 1 ==> !(text[i] == '{' && text[i + 1] == '{')
  }

  /** Each string value opens no action. */
  predicate NoActions(v: Value) {
    match v
    case Text(text) => NoAction(text)
    case List(items) => forall i :: 0 <= i < |items| ==> NoActions(items[i])
    case Object(fields) => forall k :: k in fields ==> NoActions(fields[k])
    case _ => true
  }

  /** The parser takes a text that opens no action as it is. */
  ghost predicate TextIsText(lib: Library) {
    forall text :: NoAction(text) ==> lib.parse(text) == Some(Parsed([], if text == "" then [] else [TextNode(text)]))
  }

  lemma NoActionFills(env: Env, text: string)
    requires TextIsText(env.lib) && NoAction(text)
    ensures Fill(env, text) == Some(text)
  {
    var nodes := env.lib.parse(text).value.nodes;
    assert forall i :: 0 <= i < |nodes| ==> nodes[i] == TextNode(text);
    assert ExecuteNodes(env.lib, env.values, nodes, 0) == Some("");
    assert "" + text == text;
  }

  /** A document without an action renders to itself. */
  lemma {:induction false} NoActionsRender(env: Env, path: string, v: Value)
    requires TextIsText(env.lib) && NoActions(v)
    ensures Rendered(env, path, v) == Ok(v)
    decreases v, 1, 0
  {
    match v
    case Text(text) => NoActionFills(env, text);
    case List(items) => NoActionItems(env, path, v, |items|);
    case Object(fields) =>
      var keys := SortedKeys(fields.Keys);
      NoActionFields(env, path, v, keys, |keys|);
    case _ =>
  }

  lemma {:induction false} NoActionItems(env: Env, path: string, v: Value, n: nat)
    requires TextIsText(env.lib) && v.List? && NoActions(v) && n <= |v.items|
    ensures RenderedItems(env, path, v, n) == Ok(v.items)
    decreases v, 0, n
  {
    if n > 0 {
      NoActionItems(env, path, v, n - 1);
      NoActionsRender(env, ItemPath(path, n - 1), v.items[n - 1]);
      assert v.items[n - 1 := v.items[n - 1]] == v.items;
    }
  }

  lemma {:induction false} NoActionFields(env: Env, path: string, v: Value, keys: seq<string>, n: nat)
    requires TextIsText(env.lib) && HasKeys(v, keys) && NoActions(v) && n <= |keys|
    ensures RenderedFields(env, path, v, keys, n) == Ok(v.fields)
    decreases v, 0, n
  {
    if n > 0 {
      var key := keys[n - 1];
      NoActionFields(env, path, v, keys, n - 1);
      NoActionsRender(env, KeyPath(path, key), v.fields[key]);
      assert v.fields[key := v.fields[key]] == v.fields;
    }
  }

  /** No marked parameter of the request holds a placeholder. */
  predicate NothingToFill(req: Request, marked: set<string>) {
    forall name :: name in marked && name in req.parameters ==> NoActions(req.parameters[name])
  }

  /** Where no marked parameter holds a placeholder, the echo plugin writes the
      fragment that the suite expects. */
  lemma NothingToFillFollows(lib: Library, req: Request, marked: set<string>)
    requires TextIsText(lib) && NothingToFill(req, marked)
    ensures AllFill(lib, req, marked) && PrintsSame(lib, req, marked)
    ensures EchoFollows(lib, req, marked)
  {
    forall name | name in marked && name in req.parameters
      ensures Parameter(lib, req, name) == Ok(req.parameters[name])
    {
      NoActionsRender(ParameterEnv(lib, req), ParameterPath(name), req.parameters[name]);
    }
    forall path, template | Checked(lib, GRANT, template)
      ensures EchoRendered(lib, EchoValues(req), template) == Expected(lib, req, marked, path, template)
    {
      EchoWritesExpected(lib, req, marked, path, template);
    }
  }

  // A request on which the two disagree.

  const NAMESPACE_TEXT := "{{ .namespace }}"
  const X_TEXT := "{{ .parameters.x }}"
  const NAMESPACE_NODE := ActionNode(0, 0, Field("namespace", []), 0)

  /** The library parses the two placeholders, and prints a text as it is. */
  ghost predicate ReadsPlaceholders(lib: Library) {
    && lib.parse(NAMESPACE_TEXT) == Some(Parsed([], [NAMESPACE_NODE]))
    && lib.parse(X_TEXT) == Some(Parsed([], [Reference("x")]))
    && forall text :: lib.print_(Text(text)) == text
  }

  /** A marked parameter that names the namespace: the suite expects the
      namespace in the fragment, and the echo plugin writes the placeholder. */
  lemma EchoWritesPlaceholder(lib: Library, req: Request, marked: set<string>)
    requires ReadsPlaceholders(lib) && marked * req.parameters.Keys == {"x"}
    requires req.parameters["x"] == Text(NAMESPACE_TEXT) && req.namespace != NAMESPACE_TEXT
    ensures Checked(lib, GRANT, Text(X_TEXT))
    ensures EchoRendered(lib, EchoValues(req), Text(X_TEXT)) == Some(Text(NAMESPACE_TEXT))
    ensures Expected(lib, req, marked, "", Text(X_TEXT)) == Some(Text(req.namespace))
    ensures !EchoFollows(lib, req, marked)
  {
    assert "x" in marked * req.parameters.Keys;
    NamespaceFills(lib, req);
    assert AllFill(lib, req, marked) by {
      assert forall name :: name in marked && name in req.parameters ==> name in marked * req.parameters.Keys;
    }
    RenderedReference(lib, EchoValues(req), "x", X_TEXT);
    RenderedReference(lib, GrantEnv(lib, req, Filled(lib, req, marked)).values, "x", X_TEXT);
  }

  lemma NamespaceFills(lib: Library, req: Request)
    requires ReadsPlaceholders(lib) && "x" in req.parameters && req.parameters["x"] == Text(NAMESPACE_TEXT)
    ensures Parameter(lib, req, "x") == Ok(Text(req.namespace))
  {
    var env := ParameterEnv(lib, req);
    var nodes := [NAMESPACE_NODE];
    assert Allowed(nodes[0], PARAMETER) && Plain(nodes[0]);
    assert ExecuteNodes(lib, env.values, nodes, 0) == Some("");
    assert "" + req.namespace == req.namespace;
  }

  /** A library that knows two placeholders. */
  function SmallLibrary(): Library {
    Library(
      text =>
        if text == NAMESPACE_TEXT then Some(Parsed([], [NAMESPACE_NODE]))
        else if text == X_TEXT then Some(Parsed([], [Reference("x")]))
        else Some(Parsed([], if text == "" then [] else [TextNode(text)])),
      p => true,
      (v: Value) => if v.Text? then v.text else "",
      (p, values) => None)
  }

  /** What the theorems ask of the library can be met at once. */
  lemma SomeLibraryIsOk()
    ensures exists lib :: NamesStandAlone(lib) && TextIsText(lib) && ReadsPlaceholders(lib)
  {
    var lib := SmallLibrary();
    forall name | Nameable(lib, GRANT, name)
      ensures exists text :: lib.parse(text) == Some(Parsed([], [Reference(name)]))
    {
      var text, i :| NamesAt(lib, GRANT, name, text, i);
      assert text == X_TEXT && name == "x";
      assert lib.parse(X_TEXT) == Some(Parsed([], [Reference(name)]));
    }
    forall text | NoAction(text)
      ensures lib.parse(text) == Some(Parsed([], if text == "" then [] else [TextNode(text)]))
    {
      assert NAMESPACE_TEXT[0] == NAMESPACE_TEXT[1] == X_TEXT[0] == X_TEXT[1] == '{';
    }
    assert NamesStandAlone(lib) && TextIsText(lib) && ReadsPlaceholders(lib);
  }

  /** The suite accepts the fragment that echo writes exactly when its numbers
      are exact. */
  lemma EchoFragmentIsSame(lib: Library, req: Request, marked: set<string>, path: string, template: Value)
    requires Checked(lib, GRANT, template) && AllFill(lib, req, marked) && PrintsSame(lib, req, marked)
    requires EchoRendered(lib, EchoValues(req), template).Some?
    ensures
      var fragment := EchoRendered(lib, EchoValues(req), template).value;
      var expected := Expected(lib, req, marked, path, template);
      expected.Some? && (SameValue(fragment, expected.value) <==> Exact(fragment))
  {
    EchoWritesExpected(lib, req, marked, path, template);
    SameAsItself(EchoRendered(lib, EchoValues(req), template).value);
  }
}
