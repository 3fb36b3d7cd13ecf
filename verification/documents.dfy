/** Documents of templates: the renderer of the suite, that of the echo plugin,
    and the fragment that a Grant must hold. */
module Documents {
  import opened Api
  import opened Json
  import opened Templates

  /** What a rendering needs: the library, the placeholders and their values. */
  datatype Env = Env(lib: Library, allowed: Placeholders, values: Values)

  function Fill(env: Env, text: string): Option<string> {
    RenderTemplate(env.lib, env.allowed, env.values, text)
  }

  // The renderer of the suite: in order, up to the first error, which names the
  // path of its value.

  ghost function Rendered(env: Env, path: string, v: Value): Result<Value, string>
    decreases v, 1, 0
  {
    match v
    case Text(text) => if Fill(env, text).Some? then Ok(Text(Fill(env, text).value)) else Err(path)
    case List(items) =>
      var r := RenderedItems(env, path, v, |items|);
      if r.Ok? then Ok(List(r.value)) else Err(r.error)
    case Object(fields) =>
      var keys := SortedKeys(fields.Keys);
      var r := RenderedFields(env, path, v, keys, |keys|);
      if r.Ok? then Ok(Value.Object(r.value)) else Err(r.error)
    case _ => Ok(v)
  }

  /** The array with its first n items rendered. */
  ghost function RenderedItems(env: Env, path: string, v: Value, n: nat): (r: Result<seq<Value>, string>)
    requires v.List? && n <= |v.items|
    ensures r.Ok? ==> |r.value| == |v.items| && r.value[n..] == v.items[n..]
    decreases v, 0, n
  {
    if n == 0 then Ok(v.items)
    else
      var before := RenderedItems(env, path, v, n - 1);
      if before.Err? then before
      else
        var item := Rendered(env, ItemPath(path, n - 1), v.items[n - 1]);
        if item.Err? then Err(item.error) else Ok(before.value[n - 1 := item.value])
  }

  /** The object with the values of the first n keys rendered. */
  ghost function RenderedFields(env: Env, path: string, v: Value, keys: seq<string>, n: nat)
    : (r: Result<map<string, Value>, string>)
    requires HasKeys(v, keys) && n <= |keys|
    ensures r.Ok? ==> r.value.Keys == v.fields.Keys
    decreases v, 0, n
  {
    if n == 0 then Ok(v.fields)
    else
      var before := RenderedFields(env, path, v, keys, n - 1);
      if before.Err? then before
      else
        var field := Rendered(env, KeyPath(path, keys[n - 1]), v.fields[keys[n - 1]]);
        if field.Err? then Err(field.error) else Ok(before.value[keys[n - 1] := field.value])
  }

  method RenderLeaves(env: Env, path: string, v: Value) returns (r: Result<Value, string>)
    ensures r == Rendered(env, path, v)
    decreases v, 1
  {
    match v
    case Text(text) =>
      var filled := FillTemplate(env.lib, env.allowed, env.values, text);
      r := if filled.Some? then Ok(Text(filled.value)) else Err(path);
    case List(items) =>
      r := RenderItems(env, path, v);
    case Object(fields) =>
      r := RenderFields(env, path, v);
    case _ =>
      r := Ok(v);
  }

  method RenderItems(env: Env, path: string, v: Value) returns (r: Result<Value, string>)
    requires v.List?
    ensures r == Rendered(env, path, v)
    decreases v, 0, 1
  {
    var items := RenderEach(env, path, v);
    r := if items.Ok? then Ok(List(items.value)) else Err(items.error);
  }

  /** The loop over an array, which overwrites its items. */
  method RenderEach(env: Env, path: string, v: Value) returns (r: Result<seq<Value>, string>)
    requires v.List?
    ensures r == RenderedItems(env, path, v, |v.items|)
    decreases v, 0, 0
  {
    var items := v.items;
    for i := 0 to |items|
      invariant |items| == |v.items| && RenderedItems(env, path, v, i) == Ok(items)
    {
      assert items[i] == items[i..][0] == v.items[i..][0] == v.items[i];
      var item := RenderLeaves(env, ItemPath(path, i), items[i]);
      if item.Err? {
        ItemsFail(env, path, v, i + 1, |items|);
        return Err(item.error);
      }
      items := items[i := item.value];
    }
    r := Ok(items);
  }

  lemma {:induction false} ItemsFail(env: Env, path: string, v: Value, i: nat, n: nat)
    requires v.List? && i <= n <= |v.items| && RenderedItems(env, path, v, i).Err?
    ensures RenderedItems(env, path, v, n) == RenderedItems(env, path, v, i)
    decreases n
  {
    if i < n {
      ItemsFail(env, path, v, i, n - 1);
    }
  }

  method RenderFields(env: Env, path: string, v: Value) returns (r: Result<Value, string>)
    requires v.Object?
    ensures r == Rendered(env, path, v)
    decreases v, 0, 1
  {
    var keys := SortKeys(v.fields.Keys);
    var fields := RenderKeys(env, path, v, keys);
    r := if fields.Ok? then Ok(Value.Object(fields.value)) else Err(fields.error);
  }

  /** The loop over the sorted keys of an object, which overwrites its values. */
  method RenderKeys(env: Env, path: string, v: Value, keys: seq<string>) returns (r: Result<map<string, Value>, string>)
    requires HasKeys(v, keys) && Ascending(keys)
    ensures r == RenderedFields(env, path, v, keys, |keys|)
    decreases v, 0, 0
  {
    var fields := v.fields;
    for i := 0 to |keys|
      invariant RenderedFields(env, path, v, keys, i) == Ok(fields)
    {
      NextField(env, path, v, keys, i);
      var field := RenderLeaves(env, KeyPath(path, keys[i]), fields[keys[i]]);
      if field.Err? {
        return Err(field.error);
      }
      fields := fields[keys[i] := field.value];
    }
    r := Ok(fields);
  }

  /** What the field of the next key adds, or that it fails the whole. */
  lemma NextField(env: Env, path: string, v: Value, keys: seq<string>, i: nat)
    requires HasKeys(v, keys) && Ascending(keys) && i < |keys| && RenderedFields(env, path, v, keys, i).Ok?
    ensures
      var before := RenderedFields(env, path, v, keys, i).value;
      var field := Rendered(env, KeyPath(path, keys[i]), v.fields[keys[i]]);
      && before[keys[i]] == v.fields[keys[i]]
      && if field.Err? then RenderedFields(env, path, v, keys, |keys|) == Err(field.error)
         else RenderedFields(env, path, v, keys, i + 1) == Ok(before[keys[i] := field.value])
  {
    KeyIsUntouched(env, path, v, keys, i);
    if Rendered(env, KeyPath(path, keys[i]), v.fields[keys[i]]).Err? {
      FieldsFail(env, path, v, keys, i + 1, |keys|);
    }
  }

  lemma {:induction false} FieldsFail(env: Env, path: string, v: Value, keys: seq<string>, i: nat, n: nat)
    requires HasKeys(v, keys) && i <= n <= |keys| && RenderedFields(env, path, v, keys, i).Err?
    ensures RenderedFields(env, path, v, keys, n) == RenderedFields(env, path, v, keys, i)
    decreases n
  {
    if i < n {
      FieldsFail(env, path, v, keys, i, n - 1);
    }
  }

  lemma AscendingIsDistinct(keys: seq<string>, i: nat, j: nat)
    requires Ascending(keys) && i < j < |keys|
    ensures keys[i] != keys[j]
  {
    LessIsTotal(keys[i], keys[j]);
  }

  /** The first n keys leave the others alone. */
  lemma {:induction false} UntouchedUpTo(env: Env, path: string, v: Value, keys: seq<string>, i: nat, n: nat)
    requires HasKeys(v, keys) && Ascending(keys) && n <= i < |keys|
    requires RenderedFields(env, path, v, keys, n).Ok?
    ensures RenderedFields(env, path, v, keys, n).value[keys[i]] == v.fields[keys[i]]
    decreases n
  {
    if n > 0 {
      UntouchedUpTo(env, path, v, keys, i, n - 1);
      AscendingIsDistinct(keys, n - 1, i);
    }
  }

  lemma KeyIsUntouched(env: Env, path: string, v: Value, keys: seq<string>, i: nat)
    requires HasKeys(v, keys) && Ascending(keys) && i < |keys|
    requires RenderedFields(env, path, v, keys, i).Ok?
    ensures RenderedFields(env, path, v, keys, i).value[keys[i]] == v.fields[keys[i]]
  {
    UntouchedUpTo(env, path, v, keys, i, i);
  }

  // Rendering commutes with the enumeration of the leaves.

  /** Each leaf rendered in turn, up to the first that does not render. */
  function RenderedLeaves(env: Env, leaves: seq<Leaf>, n: nat): (r: Result<seq<Leaf>, string>)
    requires n <= |leaves|
    ensures r.Ok? ==> |r.value| == n
  {
    if n == 0 then Ok([])
    else
      var before, last := RenderedLeaves(env, leaves, n - 1), leaves[n - 1];
      if before.Err? then before
      else if Fill(env, last.value).None? then Err(last.path)
      else Ok(before.value + [Leaf(last.path, Fill(env, last.value).value)])
  }

  function AllLeaves(env: Env, leaves: seq<Leaf>): Result<seq<Leaf>, string> {
    RenderedLeaves(env, leaves, |leaves|)
  }

  lemma {:induction false} LeavesOfPrefix(env: Env, a: seq<Leaf>, b: seq<Leaf>, n: nat)
    requires n <= |a|
    ensures RenderedLeaves(env, a + b, n) == RenderedLeaves(env, a, n)
  {
    if n > 0 {
      LeavesOfPrefix(env, a, b, n - 1);
    }
  }

  lemma {:induction false} LeavesOfSuffix(env: Env, a: seq<Leaf>, b: seq<Leaf>, n: nat)
    requires n <= |b|
    ensures
      var x, y := AllLeaves(env, a), RenderedLeaves(env, b, n);
      RenderedLeaves(env, a + b, |a| + n) ==
      if x.Err? then x else if y.Err? then y else Ok(x.value + y.value)
  {
    if n == 0 {
      LeavesOfPrefix(env, a, b, |a|);
      var x := AllLeaves(env, a);
      assert x.Ok? ==> x.value + [] == x.value;
    } else {
      LeavesOfSuffix(env, a, b, n - 1);
      assert (a + b)[|a| + n - 1] == b[n - 1];
      var x, y := AllLeaves(env, a), RenderedLeaves(env, b, n - 1);
      if x.Ok? && y.Ok? && Fill(env, b[n - 1].value).Some? {
        var last := [Leaf(b[n - 1].path, Fill(env, b[n - 1].value).value)];
        assert (x.value + y.value) + last == x.value + (y.value + last);
      }
    }
  }

  /** One list of leaves after the other. */
  lemma LeavesConcat(env: Env, a: seq<Leaf>, b: seq<Leaf>)
    ensures
      var x, y := AllLeaves(env, a), AllLeaves(env, b);
      AllLeaves(env, a + b) == if x.Err? then x else if y.Err? then y else Ok(x.value + y.value)
  {
    LeavesOfSuffix(env, a, b, |b|);
    assert |a + b| == |a| + |b|;
  }

  // The rendered parts, one by one.

  /** What item i of an array renders to. */
  ghost function Item(env: Env, path: string, v: Value, i: nat): Result<Value, string>
    requires v.List? && i < |v.items|
  {
    Rendered(env, ItemPath(path, i), v.items[i])
  }

  /** What the value of a key renders to. */
  ghost function Member(env: Env, path: string, v: Value, k: string): Result<Value, string>
    requires v.Object? && k in v.fields
  {
    Rendered(env, KeyPath(path, k), v.fields[k])
  }

  lemma {:induction false} AllItemsRender(env: Env, path: string, v: Value, n: nat)
    requires v.List? && n <= |v.items| && forall i: nat :: i < n ==> Item(env, path, v, i).Ok?
    ensures RenderedItems(env, path, v, n).Ok?
  {
    if n > 0 {
      AllItemsRender(env, path, v, n - 1);
      assert Item(env, path, v, n - 1).Ok?;
    }
  }

  lemma {:induction false} RenderedItemIs(env: Env, path: string, v: Value, n: nat, i: nat)
    requires v.List? && i < n <= |v.items| && RenderedItems(env, path, v, n).Ok?
    ensures Item(env, path, v, i) == Ok(RenderedItems(env, path, v, n).value[i])
  {
    if i < n - 1 {
      RenderedItemIs(env, path, v, n - 1, i);
    }
  }

  lemma {:induction false} RenderedFieldIs(env: Env, path: string, v: Value, keys: seq<string>, n: nat, i: nat)
    requires HasKeys(v, keys) && Ascending(keys) && i < n <= |keys|
    requires RenderedFields(env, path, v, keys, n).Ok?
    ensures Member(env, path, v, keys[i]) == Ok(RenderedFields(env, path, v, keys, n).value[keys[i]])
  {
    if i < n - 1 {
      RenderedFieldIs(env, path, v, keys, n - 1, i);
      AscendingIsDistinct(keys, i, n - 1);
    }
  }

  lemma {:induction false} FailingField(env: Env, path: string, v: Value, keys: seq<string>, n: nat) returns (i: nat)
    requires HasKeys(v, keys) && n <= |keys| && RenderedFields(env, path, v, keys, n).Err?
    ensures i < n && Member(env, path, v, keys[i]).Err?
  {
    if RenderedFields(env, path, v, keys, n - 1).Err? {
      i := FailingField(env, path, v, keys, n - 1);
    } else {
      i := n - 1;
    }
  }

  // The leaves of a document whose parts are rendered.

  lemma {:induction false} SameItemLeaves(path: string, v: Value, w: Value, n: nat)
    requires v.List? && w.List? && n <= |v.items| && n <= |w.items|
    requires forall i :: 0 <= i < n ==> v.items[i] == w.items[i]
    ensures ItemLeaves(path, v, n) == ItemLeaves(path, w, n)
  {
    if n > 0 {
      SameItemLeaves(path, v, w, n - 1);
    }
  }

  lemma {:induction false} SameKeyLeaves(path: string, v: Value, w: Value, keys: seq<string>, n: nat)
    requires HasKeys(v, keys) && HasKeys(w, keys) && n <= |keys|
    requires forall i :: 0 <= i < n ==> v.fields[keys[i]] == w.fields[keys[i]]
    ensures KeyLeaves(path, v, keys, n) == KeyLeaves(path, w, keys, n)
  {
    if n > 0 {
      SameKeyLeaves(path, v, w, keys, n - 1);
    }
  }

  lemma LeavesAfterItem(path: string, items: seq<Value>, n: nat, item: Value)
    requires 0 < n <= |items|
    ensures
      ItemLeaves(path, List(items[n - 1 := item]), n) ==
      ItemLeaves(path, List(items), n - 1) + Leaves(ItemPath(path, n - 1), item)
  {
    SameItemLeaves(path, List(items), List(items[n - 1 := item]), n - 1);
  }

  lemma LeavesAfterField(path: string, fields: map<string, Value>, keys: seq<string>, n: nat, field: Value)
    requires HasKeys(Value.Object(fields), keys) && Ascending(keys) && 0 < n <= |keys|
    ensures
      KeyLeaves(path, Value.Object(fields[keys[n - 1] := field]), keys, n) ==
      KeyLeaves(path, Value.Object(fields), keys, n - 1) + Leaves(KeyPath(path, keys[n - 1]), field)
  {
    forall i | 0 <= i < n - 1 ensures keys[i] != keys[n - 1] {
      AscendingIsDistinct(keys, i, n - 1);
    }
    SameKeyLeaves(path, Value.Object(fields), Value.Object(fields[keys[n - 1] := field]), keys, n - 1);
  }

  /** The leaves of a rendered document, or the error of the rendering. */
  ghost function LeavesOf(path: string, r: Result<Value, string>): Result<seq<Leaf>, string> {
    if r.Ok? then Ok(Leaves(path, r.value)) else Err(r.error)
  }

  lemma OneLeaf(env: Env, path: string, text: string)
    ensures
      AllLeaves(env, [Leaf(path, text)]) ==
      if Fill(env, text).Some? then Ok([Leaf(path, Fill(env, text).value)]) else Err(path)
  {
    var leaves := [Leaf(path, text)];
    assert RenderedLeaves(env, leaves, 0) == Ok([]);
    if Fill(env, text).Some? {
      assert [] + [Leaf(path, Fill(env, text).value)] == [Leaf(path, Fill(env, text).value)];
    }
  }

  /** Rendering commutes with the enumeration of the leaves: the rendered
      document has the rendered leaves, with the same paths in the same order,
      and the first leaf that does not render gives the error. */
  lemma {:induction false} LeavesCommute(env: Env, path: string, v: Value)
    ensures AllLeaves(env, Leaves(path, v)) == LeavesOf(path, Rendered(env, path, v))
    decreases v, 1, 0
  {
    match v
    case Text(text) =>
      OneLeaf(env, path, text);
    case List(items) =>
      ItemsCommute(env, path, v, |items|);
    case Object(fields) =>
      var keys := SortedKeys(fields.Keys);
      FieldsCommute(env, path, v, keys, |keys|);
    case _ =>
  }

  lemma {:induction false} ItemsCommute(env: Env, path: string, v: Value, n: nat)
    requires v.List? && n <= |v.items|
    ensures
      var r := RenderedItems(env, path, v, n);
      AllLeaves(env, ItemLeaves(path, v, n)) ==
      if r.Ok? then Ok(ItemLeaves(path, List(r.value), n)) else Err(r.error)
    decreases v, 0, n
  {
    if n > 0 {
      ItemsCommute(env, path, v, n - 1);
      LeavesCommute(env, ItemPath(path, n - 1), v.items[n - 1]);
      LeavesConcat(env, ItemLeaves(path, v, n - 1), Leaves(ItemPath(path, n - 1), v.items[n - 1]));
      var before, item := RenderedItems(env, path, v, n - 1), Rendered(env, ItemPath(path, n - 1), v.items[n - 1]);
      if before.Ok? && item.Ok? {
        LeavesAfterItem(path, before.value, n, item.value);
      }
    }
  }

  lemma {:induction false} FieldsCommute(env: Env, path: string, v: Value, keys: seq<string>, n: nat)
    requires HasKeys(v, keys) && Ascending(keys) && n <= |keys|
    ensures
      var r := RenderedFields(env, path, v, keys, n);
      AllLeaves(env, KeyLeaves(path, v, keys, n)) ==
      if r.Ok? then Ok(KeyLeaves(path, Value.Object(r.value), keys, n)) else Err(r.error)
    decreases v, 0, n
  {
    if n > 0 {
      var key := keys[n - 1];
      FieldsCommute(env, path, v, keys, n - 1);
      LeavesCommute(env, KeyPath(path, key), v.fields[key]);
      LeavesConcat(env, KeyLeaves(path, v, keys, n - 1), Leaves(KeyPath(path, key), v.fields[key]));
      var before, field := RenderedFields(env, path, v, keys, n - 1), Rendered(env, KeyPath(path, key), v.fields[key]);
      if before.Ok? && field.Ok? {
        LeavesAfterField(path, before.value, keys, n, field.value);
      }
    }
  }

  lemma {:induction false} LeavesRender(env: Env, leaves: seq<Leaf>, n: nat)
    requires n <= |leaves|
    ensures
      var r := RenderedLeaves(env, leaves, n);
      && (r.Ok? <==> forall i :: 0 <= i < n ==> Fill(env, leaves[i].value).Some?)
      && (r.Ok? ==>
          forall i :: 0 <= i < n ==> r.value[i] == Leaf(leaves[i].path, Fill(env, leaves[i].value).value))
  {
    if n > 0 {
      LeavesRender(env, leaves, n - 1);
    }
  }

  /** A document renders exactly when each leaf does, and then only the leaves
      differ, each by its own rendering. */
  lemma RendersIffLeavesDo(env: Env, path: string, v: Value)
    ensures
      var r, before := Rendered(env, path, v), Leaves(path, v);
      && (r.Ok? <==> forall i :: 0 <= i < |before| ==> Fill(env, before[i].value).Some?)
      && (r.Ok? ==>
          var after := Leaves(path, r.value);
          && SameShape(v, r.value) && |after| == |before|
          && forall i :: 0 <= i < |before| ==>
               after[i].path == before[i].path && Fill(env, before[i].value) == Some(after[i].value))
  {
    LeavesCommute(env, path, v);
    LeavesRender(env, Leaves(path, v), |Leaves(path, v)|);
    if Rendered(env, path, v).Ok? {
      ShapeIsKept(env, path, v);
    }
  }

  lemma {:induction false} ShapeIsKept(env: Env, path: string, v: Value)
    requires Rendered(env, path, v).Ok?
    ensures SameShape(v, Rendered(env, path, v).value)
    decreases v
  {
    var w := Rendered(env, path, v).value;
    match v
    case Text(text) =>
    case List(items) =>
      forall i | 0 <= i < |items| ensures SameShape(items[i], w.items[i]) {
        RenderedItemIs(env, path, v, |items|, i);
        ShapeIsKept(env, ItemPath(path, i), items[i]);
      }
    case Object(fields) =>
      RenderedIsObject(env, path, v);
      forall k | k in fields ensures SameShape(fields[k], w.fields[k]) {
        FieldIsRendered(env, path, v, k);
        ShapeIsKept(env, KeyPath(path, k), fields[k]);
      }
    case _ =>
  }

  lemma RenderedIsObject(env: Env, path: string, v: Value)
    requires v.Object? && Rendered(env, path, v).Ok?
    ensures Rendered(env, path, v).value.Object? && Rendered(env, path, v).value.fields.Keys == v.fields.Keys
  {}

  lemma FieldIsRendered(env: Env, path: string, v: Value, k: string)
    requires v.Object? && Rendered(env, path, v).Ok? && k in v.fields
    ensures
      var w := Rendered(env, path, v).value;
      w.Object? && w.fields.Keys == v.fields.Keys && Rendered(env, KeyPath(path, k), v.fields[k]) == Ok(w.fields[k])
  {
    var keys := SortedKeys(v.fields.Keys);
    var i :| 0 <= i < |keys| && keys[i] == k;
    RenderedFieldIs(env, path, v, keys, |keys|, i);
  }

  // The check of a whole document.

  /** Each string value of the document passes the check. */
  predicate Checked(lib: Library, allowed: Placeholders, v: Value) {
    match v
    case Text(text) => Passes(lib, text, allowed)
    case List(items) => forall i :: 0 <= i < |items| ==> Checked(lib, allowed, items[i])
    case Object(fields) => forall k :: k in fields ==> Checked(lib, allowed, fields[k])
    case _ => true
  }

  predicate LeavesPass(lib: Library, allowed: Placeholders, leaves: seq<Leaf>) {
    forall i :: 0 <= i < |leaves| ==> Passes(lib, leaves[i].value, allowed)
  }

  lemma PassConcat(lib: Library, allowed: Placeholders, a: seq<Leaf>, b: seq<Leaf>)
    ensures LeavesPass(lib, allowed, a + b) <==> LeavesPass(lib, allowed, a) && LeavesPass(lib, allowed, b)
  {
    if LeavesPass(lib, allowed, a + b) {
      forall i | 0 <= i < |a| ensures Passes(lib, a[i].value, allowed) {
        assert (a + b)[i] == a[i];
      }
      forall i | 0 <= i < |b| ensures Passes(lib, b[i].value, allowed) {
        assert (a + b)[|a| + i] == b[i];
      }
    }
  }

  /** The check of the leaves is the check of the document. */
  lemma {:induction false} CheckedIff(lib: Library, allowed: Placeholders, path: string, v: Value)
    ensures LeavesPass(lib, allowed, Leaves(path, v)) <==> Checked(lib, allowed, v)
    decreases v, 1, 0
  {
    match v
    case Text(text) =>
      assert [Leaf(path, text)][0].value == text;
    case List(items) =>
      ItemsCheckedIff(lib, allowed, path, v, |items|);
    case Object(fields) =>
      var keys := SortedKeys(fields.Keys);
      FieldsCheckedIff(lib, allowed, path, v, keys, |keys|);
      assert forall k :: k in fields ==> k in keys;
    case _ =>
  }

  predicate ItemsChecked(lib: Library, allowed: Placeholders, v: Value, n: nat)
    requires v.List? && n <= |v.items|
  {
    forall i :: 0 <= i < n ==> Checked(lib, allowed, v.items[i])
  }

  lemma NextItemChecked(lib: Library, allowed: Placeholders, v: Value, n: nat)
    requires v.List? && 0 < n <= |v.items|
    ensures
      ItemsChecked(lib, allowed, v, n) <==>
      ItemsChecked(lib, allowed, v, n - 1) && Checked(lib, allowed, v.items[n - 1])
  {}

  lemma {:induction false} ItemsCheckedIff(lib: Library, allowed: Placeholders, path: string, v: Value, n: nat)
    requires v.List? && n <= |v.items|
    ensures LeavesPass(lib, allowed, ItemLeaves(path, v, n)) <==> ItemsChecked(lib, allowed, v, n)
    decreases v, 0, n
  {
    if n > 0 {
      NextItemChecked(lib, allowed, v, n);
      ItemsCheckedIff(lib, allowed, path, v, n - 1);
      CheckedIff(lib, allowed, ItemPath(path, n - 1), v.items[n - 1]);
      PassConcat(lib, allowed, ItemLeaves(path, v, n - 1), Leaves(ItemPath(path, n - 1), v.items[n - 1]));
    }
  }

  lemma {:induction false} FieldsCheckedIff(
      lib: Library, allowed: Placeholders, path: string, v: Value, keys: seq<string>, n: nat)
    requires HasKeys(v, keys) && n <= |keys|
    ensures
      LeavesPass(lib, allowed, KeyLeaves(path, v, keys, n)) <==>
      forall i :: 0 <= i < n ==> Checked(lib, allowed, v.fields[keys[i]])
    decreases v, 0, n
  {
    if n > 0 {
      var key := keys[n - 1];
      FieldsCheckedIff(lib, allowed, path, v, keys, n - 1);
      CheckedIff(lib, allowed, KeyPath(path, key), v.fields[key]);
      PassConcat(lib, allowed, KeyLeaves(path, v, keys, n - 1), Leaves(KeyPath(path, key), v.fields[key]));
    }
  }

  /** A leaf with this path does not pass. */
  predicate FailsAt(lib: Library, allowed: Placeholders, leaves: seq<Leaf>, path: string) {
    exists i :: 0 <= i < |leaves| && leaves[i].path == path && !Passes(lib, leaves[i].value, allowed)
  }

  /** The paths of the string values that do not pass. */
  method CheckJSONTemplates(lib: Library, allowed: Placeholders, path: string, v: Value) returns (errs: seq<string>)
    ensures errs == [] <==> Checked(lib, allowed, v)
    ensures forall p :: p in errs <==> FailsAt(lib, allowed, Leaves(path, v), p)
  {
    var leaves := AppendLeaves([], path, v);
    assert leaves == Leaves(path, v);
    CheckedIff(lib, allowed, path, v);
    errs := CheckLeaves(lib, allowed, leaves);
  }

  method CheckLeaves(lib: Library, allowed: Placeholders, leaves: seq<Leaf>) returns (errs: seq<string>)
    ensures errs == [] <==> LeavesPass(lib, allowed, leaves)
    ensures forall p :: p in errs <==> FailsAt(lib, allowed, leaves, p)
  {
    errs := [];
    for i := 0 to |leaves|
      invariant errs == [] <==> forall k :: 0 <= k < i ==> Passes(lib, leaves[k].value, allowed)
      invariant forall p :: p in errs <==> FailsAt(lib, allowed, leaves[..i], p)
    {
      var ok, _ := CheckTemplate(lib, leaves[i].value, allowed);
      NextFails(lib, allowed, leaves, i);
      if !ok {
        errs := errs + [leaves[i].path];
      }
    }
    assert leaves[..|leaves|] == leaves;
  }

  lemma NextFails(lib: Library, allowed: Placeholders, leaves: seq<Leaf>, i: nat)
    requires i < |leaves|
    ensures forall p ::
      FailsAt(lib, allowed, leaves[..i + 1], p) <==>
      FailsAt(lib, allowed, leaves[..i], p) || (leaves[i].path == p && !Passes(lib, leaves[i].value, allowed))
  {
    assert leaves[..i + 1] == leaves[..i] + [leaves[i]];
    forall p
      ensures
        FailsAt(lib, allowed, leaves[..i + 1], p) <==>
        FailsAt(lib, allowed, leaves[..i], p) || (leaves[i].path == p && !Passes(lib, leaves[i].value, allowed))
    {
      if FailsAt(lib, allowed, leaves[..i], p) {
        var k :| 0 <= k < i && leaves[..i][k].path == p && !Passes(lib, leaves[..i][k].value, allowed);
        assert leaves[..i + 1][k] == leaves[..i][k];
      }
      if FailsAt(lib, allowed, leaves[..i + 1], p) {
        var k :| 0 <= k < i + 1 && leaves[..i + 1][k].path == p && !Passes(lib, leaves[..i + 1][k].value, allowed);
        assert k < i ==> leaves[..i][k] == leaves[..i + 1][k];
      }
      assert leaves[..i + 1][i] == leaves[i];
    }
  }

  // The renderer of the echo plugin: without the check, and with the keys of an
  // object in any order.

  function EchoRendered(lib: Library, values: Values, v: Value): Option<Value> {
    match v
    case Text(text) =>
      var filled := Execute(lib, values, text);
      if filled.Some? then Some(Text(filled.value)) else None
    case List(items) =>
      if forall i :: 0 <= i < |items| ==> EchoRendered(lib, values, items[i]).Some?
      then Some(List(seq(|items|, i requires 0 <= i < |items| => EchoRendered(lib, values, items[i]).value)))
      else None
    case Object(fields) =>
      if forall k :: k in fields ==> EchoRendered(lib, values, fields[k]).Some?
      then Some(Value.Object(map k | k in fields :: EchoRendered(lib, values, fields[k]).value))
      else None
    case _ => Some(v)
  }

  method RenderValue(lib: Library, values: Values, v: Value) returns (r: Option<Value>)
    ensures r == EchoRendered(lib, values, v)
    decreases v, 1
  {
    match v
    case Text(text) =>
      var filled := Execute(lib, values, text);
      r := if filled.Some? then Some(Text(filled.value)) else None;
    case List(items) =>
      r := RenderArray(lib, values, v);
    case Object(fields) =>
      r := RenderMap(lib, values, v);
    case _ =>
      r := Some(v);
  }

  method RenderArray(lib: Library, values: Values, v: Value) returns (r: Option<Value>)
    requires v.List?
    ensures r == EchoRendered(lib, values, v)
    decreases v, 0
  {
    var items := v.items;
    for i := 0 to |items|
      invariant |items| == |v.items| && items[i..] == v.items[i..]
      invariant forall k :: 0 <= k < i ==> EchoRendered(lib, values, v.items[k]) == Some(items[k])
    {
      assert items[i] == items[i..][0] == v.items[i];
      var item := RenderValue(lib, values, items[i]);
      if item.None? {
        return None;
      }
      items := items[i := item.value];
    }
    r := Some(List(items));
    assert items == EchoRendered(lib, values, v).value.items;
  }

  method RenderMap(lib: Library, values: Values, v: Value) returns (r: Option<Value>)
    requires v.Object?
    ensures r == EchoRendered(lib, values, v)
    decreases v, 0
  {
    var fields, rest := v.fields, v.fields.Keys;
    while rest != {}
      invariant rest <= v.fields.Keys == fields.Keys
      invariant forall k :: k in rest ==> fields[k] == v.fields[k]
      invariant forall k :: k in v.fields && k !in rest ==> EchoRendered(lib, values, v.fields[k]) == Some(fields[k])
      decreases |rest|
    {
      var key :| key in rest;
      var field := RenderValue(lib, values, fields[key]);
      if field.None? {
        return None;
      }
      fields := fields[key := field.value];
      rest := rest - {key};
    }
    r := Some(Value.Object(fields));
    FieldsOfMap(lib, values, v, fields);
  }

  lemma FieldsOfMap(lib: Library, values: Values, v: Value, fields: map<string, Value>)
    requires v.Object? && fields.Keys == v.fields.Keys
    requires forall k :: k in v.fields ==> EchoRendered(lib, values, v.fields[k]) == Some(fields[k])
    ensures EchoRendered(lib, values, v) == Some(Value.Object(fields))
  {
    assert fields == EchoRendered(lib, values, v).value.fields;
  }

  /** A rendering without its error. */
  function Document(r: Result<Value, string>): Option<Value> {
    if r.Ok? then Some(r.value) else None
  }

  /** On a checked document the two renderers give the same. */
  lemma {:induction false} RenderersAgree(env: Env, values: Values, path: string, v: Value)
    requires Served(env.allowed, env.values) && Agree(env.lib, env.allowed, env.values, values)
    requires Checked(env.lib, env.allowed, v)
    ensures EchoRendered(env.lib, values, v) == Document(Rendered(env, path, v))
    decreases v, 1
  {
    match v
    case Text(text) =>
      UncheckedAgrees(env.lib, env.allowed, env.values, values, text);
    case List(items) =>
      ArraysAgree(env, values, path, v);
    case Object(fields) =>
      MapsAgree(env, values, path, v);
    case _ =>
  }

  lemma {:induction false} ArraysAgree(env: Env, values: Values, path: string, v: Value)
    requires Served(env.allowed, env.values) && Agree(env.lib, env.allowed, env.values, values)
    requires Checked(env.lib, env.allowed, v) && v.List?
    ensures EchoRendered(env.lib, values, v) == Document(Rendered(env, path, v))
    decreases v, 0
  {
    var n := |v.items|;
    forall i: nat | i < n
      ensures EchoRendered(env.lib, values, v.items[i]) == Document(Item(env, path, v, i))
    {
      RenderersAgree(env, values, ItemPath(path, i), v.items[i]);
    }
    if RenderedItems(env, path, v, n).Ok? {
      ArrayIsRendered(env, values, path, v);
    } else {
      if forall i: nat :: i < n ==> Item(env, path, v, i).Ok? {
        AllItemsRender(env, path, v, n);
      }
      var i: nat :| i < n && Item(env, path, v, i).Err?;
      assert EchoRendered(env.lib, values, v.items[i]).None?;
    }
  }

  lemma {:induction false} ArrayIsRendered(env: Env, values: Values, path: string, v: Value)
    requires v.List? && RenderedItems(env, path, v, |v.items|).Ok?
    requires
      forall i: nat :: i < |v.items| ==>
        EchoRendered(env.lib, values, v.items[i]) == Document(Item(env, path, v, i))
    ensures EchoRendered(env.lib, values, v) == Some(List(RenderedItems(env, path, v, |v.items|).value))
  {
    var items := RenderedItems(env, path, v, |v.items|).value;
    forall i: nat | i < |items| ensures EchoRendered(env.lib, values, v.items[i]) == Some(items[i]) {
      RenderedItemIs(env, path, v, |v.items|, i);
    }
    assert EchoRendered(env.lib, values, v).value.items == items;
  }

  lemma {:induction false} MapsAgree(env: Env, values: Values, path: string, v: Value)
    requires Served(env.allowed, env.values) && Agree(env.lib, env.allowed, env.values, values)
    requires Checked(env.lib, env.allowed, v) && v.Object?
    ensures EchoRendered(env.lib, values, v) == Document(Rendered(env, path, v))
    decreases v, 0
  {
    forall k | k in v.fields
      ensures EchoRendered(env.lib, values, v.fields[k]) == Document(Member(env, path, v, k))
    {
      RenderersAgree(env, values, KeyPath(path, k), v.fields[k]);
    }
    if Rendered(env, path, v).Ok? {
      MapIsRendered(env, values, path, v);
    } else {
      var k := SomeFieldFails(env, path, v);
      assert EchoRendered(env.lib, values, v.fields[k]).None?;
    }
  }

  lemma {:induction false} SomeFieldFails(env: Env, path: string, v: Value) returns (k: string)
    requires v.Object? && Rendered(env, path, v).Err?
    ensures k in v.fields && Member(env, path, v, k).Err?
  {
    var keys := SortedKeys(v.fields.Keys);
    var i := FailingField(env, path, v, keys, |keys|);
    k := keys[i];
  }

  lemma {:induction false} MapIsRendered(env: Env, values: Values, path: string, v: Value)
    requires v.Object? && Rendered(env, path, v).Ok?
    requires
      forall k :: k in v.fields ==> EchoRendered(env.lib, values, v.fields[k]) == Document(Member(env, path, v, k))
    ensures EchoRendered(env.lib, values, v) == Some(Rendered(env, path, v).value)
  {
    var w := Rendered(env, path, v).value;
    RenderedIsObject(env, path, v);
    forall k | k in v.fields ensures EchoRendered(env.lib, values, v.fields[k]) == Some(w.fields[k]) {
      FieldIsRendered(env, path, v, k);
    }
    assert EchoRendered(env.lib, values, v).value.fields == w.fields;
  }
}
