/** JSON documents as the decoder gives them: the string values of a document
    with their paths, and the equality of two documents. */
module Json {
  import opened Api

  /** A number as its digits give it: mantissa * 10^exponent. Exact fractions
      cannot hold a number with too large an exponent. */
  datatype Number = Decimal(mantissa: int, exponent: int) | TooLarge(text: string)

  datatype Value =
    | Null
    | Bool(b: bool)
    | Num(number: Number)
    | Text(text: string)
    | List(items: seq<Value>)
    | Object(fields: map<string, Value>)

  // The byte order of keys.

  predicate Less(a: string, b: string) {
    b != "" && (a == "" || a[0] < b[0] || (a[0] == b[0] && Less(a[1..], b[1..])))
  }

  /** One is a proper prefix of the other, or the first character in which they
      differ is lower. */
  predicate IsBefore(a: string, b: string, i: nat) {
    && i <= |a| && i < |b| && a[..i] == b[..i]
    && (i < |a| ==> a[i] < b[i])
  }

  lemma {:induction false} LessIff(a: string, b: string)
    ensures Less(a, b) <==> exists i :: IsBefore(a, b, i)
  {
    if Less(a, b) {
      var i := LessHasPlace(a, b);
    }
    if i :| IsBefore(a, b, i) {
      PlaceIsLess(a, b, i);
    }
  }

  lemma {:induction false} LessHasPlace(a: string, b: string) returns (i: nat)
    requires Less(a, b)
    ensures IsBefore(a, b, i)
  {
    if a == "" || a[0] < b[0] {
      i := 0;
    } else {
      var j := LessHasPlace(a[1..], b[1..]);
      i := j + 1;
      assert a[..i] == [a[0]] + a[1..][..j] && b[..i] == [b[0]] + b[1..][..j];
    }
  }

  lemma {:induction false} PlaceIsLess(a: string, b: string, i: nat)
    requires IsBefore(a, b, i)
    ensures Less(a, b)
  {
    if i > 0 {
      assert a[0] == a[..i][0] == b[..i][0] == b[0];
      assert a[1..][..i - 1] == a[..i][1..] && b[1..][..i - 1] == b[..i][1..];
      PlaceIsLess(a[1..], b[1..], i - 1);
    }
  }

  lemma {:induction false} LessIsTotal(a: string, b: string)
    ensures a == b || Less(a, b) || Less(b, a)
    ensures !(Less(a, b) && Less(b, a)) && !Less(a, a)
  {
    if a != "" && b != "" && a[0] == b[0] {
      LessIsTotal(a[1..], b[1..]);
      assert a == [a[0]] + a[1..] && b == [b[0]] + b[1..];
    }
    if a != "" {
      LessIsTotal(a[1..], a[1..]);
    }
  }

  lemma {:induction false} LessIsTransitive(a: string, b: string, c: string)
    requires Less(a, b) && Less(b, c)
    ensures Less(a, c)
  {
    if a != "" && a[0] == b[0] == c[0] {
      LessIsTransitive(a[1..], b[1..], c[1..]);
    }
  }

  predicate Ascending(keys: seq<string>) {
    forall i, j :: 0 <= i < j < |keys| ==> Less(keys[i], keys[j])
  }

  predicate KeysOf(s: seq<string>, keys: set<string>) {
    && (forall i :: 0 <= i < |s| ==> s[i] in keys)
    && (forall k :: k in keys ==> k in s)
  }

  /** The least of a set of keys. */
  ghost function Least(keys: set<string>): (k: string)
    requires keys != {}
    ensures k in keys && forall x :: x in keys && x != k ==> Less(k, x)
    decreases |keys|
  {
    var x :| x in keys;
    if keys == {x} then x
    else
      assert keys - {x} != {};
      var y := Least(keys - {x});
      LessIsTotal(x, y);
      LeastOfMore(keys, x, y);
      if Less(x, y) then x else y
  }

  lemma LeastOfMore(keys: set<string>, x: string, y: string)
    requires x in keys && forall z :: z in keys - {x} && z != y ==> Less(y, z)
    ensures Less(x, y) ==> forall z :: z in keys && z != x ==> Less(x, z)
  {
    if Less(x, y) {
      forall z | z in keys && z != x ensures Less(x, z) {
        if z != y {
          assert z in keys - {x};
          LessIsTransitive(x, y, z);
        }
      }
    }
  }

  ghost function SortedKeys(keys: set<string>): (s: seq<string>)
    ensures Ascending(s) && KeysOf(s, keys)
    decreases |keys|
  {
    if keys == {} then []
    else
      var k := Least(keys);
      [k] + SortedKeys(keys - {k})
  }

  lemma {:induction false} AscendingIsUnique(a: seq<string>, b: seq<string>, keys: set<string>)
    requires Ascending(a) && Ascending(b) && KeysOf(a, keys) && KeysOf(b, keys)
    ensures a == b
  {
    NoKeys(a, keys);
    NoKeys(b, keys);
    if keys != {} {
      SameFirst(a, b, keys);
      var rest := keys - {a[0]};
      RestOfKeys(a, keys);
      RestOfKeys(b, keys);
      AscendingIsUnique(a[1..], b[1..], rest);
      assert a == [a[0]] + a[1..] && b == [b[0]] + b[1..];
    }
  }

  lemma NoKeys(s: seq<string>, keys: set<string>)
    requires KeysOf(s, keys)
    ensures s == [] <==> keys == {}
  {
    if s != [] {
      assert s[0] in keys;
    }
    if k :| k in keys {
      assert k in s;
    }
  }

  lemma SameFirst(a: seq<string>, b: seq<string>, keys: set<string>)
    requires Ascending(a) && Ascending(b) && KeysOf(a, keys) && KeysOf(b, keys) && a != [] && b != []
    ensures a[0] == b[0]
  {
    var i :| 0 <= i < |b| && b[i] == a[0];
    var j :| 0 <= j < |a| && a[j] == b[0];
    LessIsTotal(a[0], b[0]);
  }

  lemma RestOfKeys(s: seq<string>, keys: set<string>)
    requires Ascending(s) && KeysOf(s, keys) && s != []
    ensures Ascending(s[1..]) && KeysOf(s[1..], keys - {s[0]})
  {
    forall i | 0 <= i < |s[1..]| ensures s[1..][i] in keys - {s[0]} {
      LessIsTotal(s[0], s[i + 1]);
    }
    forall k | k in keys - {s[0]} ensures k in s[1..] {
      var i :| 0 <= i < |s| && s[i] == k;
      assert s[1..][i - 1] == k;
    }
  }

  function InsertKey(k: string, keys: seq<string>): (r: seq<string>)
    ensures forall x :: x in r <==> x == k || x in keys
  {
    if keys == [] || Less(k, keys[0]) then [k] + keys else [keys[0]] + InsertKey(k, keys[1..])
  }

  lemma {:induction false} InsertKeyIsAscending(k: string, keys: seq<string>)
    requires Ascending(keys) && k !in keys
    ensures Ascending(InsertKey(k, keys))
  {
    var r := InsertKey(k, keys);
    if keys == [] {
    } else if Less(k, keys[0]) {
      forall j | 0 < j < |keys| ensures Less(k, keys[j]) {
        LessIsTransitive(k, keys[0], keys[j]);
      }
    } else {
      InsertKeyIsAscending(k, keys[1..]);
      LessIsTotal(k, keys[0]);
      forall j | 0 < j < |r| ensures Less(keys[0], r[j]) {
        assert r[j] in InsertKey(k, keys[1..]);
      }
    }
  }

  lemma InsertKeyHas(k: string, s: seq<string>, keys: set<string>)
    requires KeysOf(s, keys)
    ensures KeysOf(InsertKey(k, s), keys + {k})
  {
    var r := InsertKey(k, s);
    forall i | 0 <= i < |r| ensures r[i] in keys + {k} {
      assert r[i] in r;
    }
  }

  /** slices.Sorted over maps.Keys: the keys come in any order. */
  method SortKeys(keys: set<string>) returns (s: seq<string>)
    ensures s == SortedKeys(keys)
  {
    s := [];
    var rest := keys;
    while rest != {}
      invariant rest <= keys && Ascending(s) && KeysOf(s, keys - rest)
      decreases |rest|
    {
      var k :| k in rest;
      InsertKeyIsAscending(k, s);
      InsertKeyHas(k, s, keys - rest);
      assert keys - (rest - {k}) == (keys - rest) + {k};
      s := InsertKey(k, s);
      rest := rest - {k};
    }
    assert keys - rest == keys;
    AscendingIsUnique(s, SortedKeys(keys), keys);
  }

  // The string values of a document, with their paths.

  datatype Leaf = Leaf(path: string, value: string)

  function Digits(n: nat): string {
    (if n < 10 then "" else Digits(n / 10)) + [DigitOf(n)]
  }

  /** The last digit of n. */
  function DigitOf(n: nat): char {
    "0123456789"[n % 10]
  }

  /** The number that digits denote. */
  function Denotes(digits: string): int {
    if digits == "" then 0
    else 10 * Denotes(digits[..|digits| - 1]) + (digits[|digits| - 1] as int - '0' as int)
  }

  lemma {:induction false} DigitsDenote(n: nat)
    ensures Denotes(Digits(n)) == n
    decreases n
  {
    DigitIs(n % 10);
    assert DigitOf(n) == DigitOf(n % 10);
    if n < 10 {
      DenotesMore("", DigitOf(n));
      assert "" + [DigitOf(n)] == [DigitOf(n)];
    } else {
      DigitsDenote(n / 10);
      DenotesMore(Digits(n / 10), DigitOf(n));
    }
  }

  lemma DigitIs(d: nat)
    requires d < 10
    ensures DigitOf(d) as int == '0' as int + d
  {
    assert d == 0 || d == 1 || d == 2 || d == 3 || d == 4 || d == 5 || d == 6 || d == 7 || d == 8 || d == 9;
  }

  lemma DenotesMore(digits: string, digit: char)
    ensures Denotes(digits + [digit]) == 10 * Denotes(digits) + (digit as int - '0' as int)
  {
    assert (digits + [digit])[..|digits|] == digits;
  }

  function ItemPath(path: string, i: nat): string {
    path + ("[" + Digits(i) + "]")
  }

  function KeyPath(path: string, key: string): string {
    path + ("." + key)
  }

  ghost function Leaves(path: string, v: Value): seq<Leaf>
    decreases v, 1, 0
  {
    match v
    case Text(text) => [Leaf(path, text)]
    case List(items) => ItemLeaves(path, v, |items|)
    case Object(fields) => KeyLeaves(path, v, SortedKeys(fields.Keys), |SortedKeys(fields.Keys)|)
    case _ => []
  }

  /** The leaves of the first n items. */
  ghost function ItemLeaves(path: string, v: Value, n: nat): seq<Leaf>
    requires v.List? && n <= |v.items|
    decreases v, 0, n
  {
    if n == 0 then [] else ItemLeaves(path, v, n - 1) + Leaves(ItemPath(path, n - 1), v.items[n - 1])
  }

  // What the leaves are.

  /** A step into an array or an object. */
  datatype Step = At(i: nat) | Under(key: string)

  function StepText(step: Step): string {
    match step
    case At(i) => "[" + Digits(i) + "]"
    case Under(key) => "." + key
  }

  /** The path of what the steps lead to. */
  function PathText(path: string, steps: seq<Step>): string
    decreases |steps|
  {
    if steps == [] then path else PathText(path + StepText(steps[0]), steps[1..])
  }

  /** What the steps lead to in v. */
  function ValueAt(v: Value, steps: seq<Step>): Option<Value>
    decreases |steps|
  {
    if steps == [] then Some(v)
    else
      match steps[0]
      case At(i) => if v.List? && i < |v.items| then ValueAt(v.items[i], steps[1..]) else None
      case Under(key) => if v.Object? && key in v.fields then ValueAt(v.fields[key], steps[1..]) else None
  }

  lemma {:induction false} ItemHasLeaf(path: string, v: Value, n: nat, i: nat, leaf: Leaf)
    requires v.List? && i < n <= |v.items| && leaf in Leaves(ItemPath(path, i), v.items[i])
    ensures leaf in ItemLeaves(path, v, n)
    decreases n
  {
    if i < n - 1 {
      ItemHasLeaf(path, v, n - 1, i, leaf);
    }
  }

  lemma {:induction false} KeyHasLeaf(path: string, v: Value, keys: seq<string>, n: nat, i: nat, leaf: Leaf)
    requires HasKeys(v, keys) && i < n <= |keys| && leaf in Leaves(KeyPath(path, keys[i]), v.fields[keys[i]])
    ensures leaf in KeyLeaves(path, v, keys, n)
    decreases n
  {
    if i < n - 1 {
      KeyHasLeaf(path, v, keys, n - 1, i, leaf);
    }
  }

  lemma {:induction false} StepsHaveLeaf(path: string, v: Value, steps: seq<Step>, text: string)
    requires ValueAt(v, steps) == Some(Text(text))
    ensures Leaf(PathText(path, steps), text) in Leaves(path, v)
    decreases |steps|
  {
    if steps != [] {
      var leaf := Leaf(PathText(path, steps), text);
      match steps[0] {
        case At(i) =>
          StepsHaveLeaf(ItemPath(path, i), v.items[i], steps[1..], text);
          ItemHasLeaf(path, v, |v.items|, i, leaf);
        case Under(key) =>
          var keys := SortedKeys(v.fields.Keys);
          var i :| 0 <= i < |keys| && keys[i] == key;
          StepsHaveLeaf(KeyPath(path, key), v.fields[key], steps[1..], text);
          KeyHasLeaf(path, v, keys, |keys|, i, leaf);
      }
    }
  }

  lemma {:induction false} LeafOfItem(path: string, v: Value, n: nat, leaf: Leaf) returns (i: nat)
    requires v.List? && n <= |v.items| && leaf in ItemLeaves(path, v, n)
    ensures i < n && leaf in Leaves(ItemPath(path, i), v.items[i])
    decreases n
  {
    if leaf in ItemLeaves(path, v, n - 1) {
      i := LeafOfItem(path, v, n - 1, leaf);
    } else {
      i := n - 1;
    }
  }

  lemma {:induction false} LeafOfKey(path: string, v: Value, keys: seq<string>, n: nat, leaf: Leaf) returns (i: nat)
    requires HasKeys(v, keys) && n <= |keys| && leaf in KeyLeaves(path, v, keys, n)
    ensures i < n && leaf in Leaves(KeyPath(path, keys[i]), v.fields[keys[i]])
    decreases n
  {
    if leaf in KeyLeaves(path, v, keys, n - 1) {
      i := LeafOfKey(path, v, keys, n - 1, leaf);
    } else {
      i := n - 1;
    }
  }

  lemma {:induction false} LeafHasSteps(path: string, v: Value, leaf: Leaf) returns (steps: seq<Step>)
    requires leaf in Leaves(path, v)
    ensures ValueAt(v, steps) == Some(Text(leaf.value)) && PathText(path, steps) == leaf.path
    decreases v
  {
    steps := [];
    if v.List? {
      var i := LeafOfItem(path, v, |v.items|, leaf);
      var rest := LeafHasSteps(ItemPath(path, i), v.items[i], leaf);
      steps := [At(i)] + rest;
      assert steps[1..] == rest;
    } else if v.Object? {
      var keys := SortedKeys(v.fields.Keys);
      var i := LeafOfKey(path, v, keys, |keys|, leaf);
      var rest := LeafHasSteps(KeyPath(path, keys[i]), v.fields[keys[i]], leaf);
      steps := [Under(keys[i])] + rest;
      assert steps[1..] == rest;
    }
  }

  /** The leaves are the string values of the document at any depth, each with its
      path: .key for a step into an object, and [i] for one into an array. */
  lemma LeafIff(path: string, v: Value, leaf: Leaf)
    ensures
      leaf in Leaves(path, v) <==>
      exists steps :: ValueAt(v, steps) == Some(Text(leaf.value)) && PathText(path, steps) == leaf.path
  {
    if leaf in Leaves(path, v) {
      var steps := LeafHasSteps(path, v, leaf);
    }
    if steps :| ValueAt(v, steps) == Some(Text(leaf.value)) && PathText(path, steps) == leaf.path {
      StepsHaveLeaf(path, v, steps, leaf.value);
    }
  }

  predicate HasKeys(v: Value, keys: seq<string>) {
    v.Object? && forall i :: 0 <= i < |keys| ==> keys[i] in v.fields
  }

  /** The leaves under the first n keys. */
  ghost function KeyLeaves(path: string, v: Value, keys: seq<string>, n: nat): seq<Leaf>
    requires HasKeys(v, keys) && n <= |keys|
    decreases v, 0, n
  {
    if n == 0 then []
    else KeyLeaves(path, v, keys, n - 1) + Leaves(KeyPath(path, keys[n - 1]), v.fields[keys[n - 1]])
  }

  method AppendLeaves(leaves: seq<Leaf>, path: string, v: Value) returns (r: seq<Leaf>)
    ensures r == leaves + Leaves(path, v)
    decreases v, 1
  {
    match v
    case Text(text) =>
      r := leaves + [Leaf(path, text)];
    case List(items) =>
      r := AppendItems(leaves, path, v);
    case Object(fields) =>
      r := AppendFields(leaves, path, v);
    case _ =>
      r := leaves;
  }

  /** One more list of leaves. */
  lemma Appended(leaves: seq<Leaf>, before: seq<Leaf>, more: seq<Leaf>)
    ensures (leaves + before) + more == leaves + (before + more)
  {}

  /** The loop over an array. */
  method AppendItems(leaves: seq<Leaf>, path: string, v: Value) returns (r: seq<Leaf>)
    requires v.List?
    ensures r == leaves + ItemLeaves(path, v, |v.items|)
    decreases v, 0
  {
    r := leaves;
    for i := 0 to |v.items|
      invariant r == leaves + ItemLeaves(path, v, i)
    {
      Appended(leaves, ItemLeaves(path, v, i), Leaves(ItemPath(path, i), v.items[i]));
      r := AppendLeaves(r, ItemPath(path, i), v.items[i]);
    }
  }

  /** The loop over the sorted keys of an object. */
  method AppendFields(leaves: seq<Leaf>, path: string, v: Value) returns (r: seq<Leaf>)
    requires v.Object?
    ensures r == leaves + KeyLeaves(path, v, SortedKeys(v.fields.Keys), |SortedKeys(v.fields.Keys)|)
    decreases v, 0
  {
    var keys := SortKeys(v.fields.Keys);
    r := AppendKeys(leaves, path, v, keys);
  }

  method AppendKeys(leaves: seq<Leaf>, path: string, v: Value, keys: seq<string>) returns (r: seq<Leaf>)
    requires HasKeys(v, keys)
    ensures r == leaves + KeyLeaves(path, v, keys, |keys|)
    decreases v, 0, 0
  {
    r := leaves;
    for i := 0 to |keys|
      invariant r == leaves + KeyLeaves(path, v, keys, i)
    {
      Appended(leaves, KeyLeaves(path, v, keys, i), Leaves(KeyPath(path, keys[i]), v.fields[keys[i]]));
      r := AppendLeaves(r, KeyPath(path, keys[i]), v.fields[keys[i]]);
    }
  }

  /** Two documents that differ in their string values only. */
  predicate SameShape(v: Value, w: Value) {
    match v
    case Text(_) => w.Text?
    case List(items) =>
      && w.List? && |w.items| == |items|
      && forall i :: 0 <= i < |items| ==> SameShape(items[i], w.items[i])
    case Object(fields) =>
      && w.Object? && w.fields.Keys == fields.Keys
      && forall k :: k in fields ==> SameShape(fields[k], w.fields[k])
    case _ => v == w
  }

  // Equality of documents.

  /** A fraction with a positive denominator. */
  datatype Rat = Rat(num: int, den: int)

  function Pow10(n: nat): (p: int)
    ensures p > 0
  {
    if n == 0 then 1 else 10 * Pow10(n - 1)
  }

  /** The exact fraction of a number, when there is one. */
  function ToRat(n: Number): (r: Option<Rat>)
    ensures r.Some? ==> r.value.den > 0
  {
    match n
    case TooLarge(_) => None
    case Decimal(mantissa, exponent) =>
      if exponent >= 0 then Some(Rat(mantissa * Pow10(exponent), 1)) else Some(Rat(mantissa, Pow10(-exponent)))
  }

  /** The comparison of two fractions crosses their denominators. */
  predicate SameRat(a: Rat, b: Rat) {
    a.num * b.den == b.num * a.den
  }

  predicate SameNumber(a: Number, b: Number) {
    var x, y := ToRat(a), ToRat(b);
    x.Some? && y.Some? && SameRat(x.value, y.value)
  }

  predicate SameValue(a: Value, b: Value) {
    match a
    case Num(x) => b.Num? && SameNumber(x, b.number)
    case List(x) => b.List? && |x| == |b.items| && forall i :: 0 <= i < |x| ==> SameValue(x[i], b.items[i])
    case Object(x) =>
      && b.Object? && |x| == |b.fields|
      && forall k :: k in x ==> k in b.fields && SameValue(x[k], b.fields[k])
    case _ => a == b
  }

  lemma OneMoreTen(n: nat)
    ensures Pow10(n + 1) == 10 * Pow10(n)
  {}

  lemma Scaled(m: int, p: int)
    ensures m * (10 * p) == (10 * m) * p
  {}

  /** A number stays the same when its digits get a zero and its exponent goes down. */
  lemma OneMoreZero(mantissa: int, exponent: int)
    ensures SameNumber(Decimal(mantissa, exponent), Decimal(10 * mantissa, exponent - 1))
  {
    if exponent > 0 {
      OneMoreTen(exponent - 1);
      Scaled(mantissa, Pow10(exponent - 1));
    } else {
      OneMoreTen(-exponent);
      Scaled(mantissa, Pow10(-exponent));
    }
  }

  // What a document stands for.

  datatype Meaning =
    | Atom(value: Value)
    | NoFraction
    | Rational(number: real)
    | Items(items: seq<Meaning>)
    | Fields(fields: map<string, Meaning>)

  /** The number that the digits denote. */
  function Denoted(n: Number): real
    requires n.Decimal?
  {
    if n.exponent >= 0 then n.mantissa as real * Pow10(n.exponent) as real
    else n.mantissa as real / Pow10(-n.exponent) as real
  }

  function MeaningOf(v: Value): Meaning {
    match v
    case Num(n) => if n.Decimal? then Rational(Denoted(n)) else NoFraction
    case List(items) => Items(seq(|items|, i requires 0 <= i < |items| => MeaningOf(items[i])))
    case Object(fields) => Fields(map k | k in fields :: MeaningOf(fields[k]))
    case _ => Atom(v)
  }

  /** Each number of the document has an exact fraction. */
  predicate Exact(v: Value) {
    match v
    case Num(n) => n.Decimal?
    case List(items) => forall i :: 0 <= i < |items| ==> Exact(items[i])
    case Object(fields) => forall k :: k in fields ==> Exact(fields[k])
    case _ => true
  }

  lemma CrossProducts(a: int, b: int, c: int, d: int)
    requires b > 0 && d > 0
    ensures a * d == c * b <==> a as real / b as real == c as real / d as real
  {
    var x, y := a as real / b as real, c as real / d as real;
    assert x * b as real == a as real && y * d as real == c as real;
    assert (a * d) as real == a as real * d as real == x * (b as real * d as real);
    assert (c * b) as real == c as real * b as real == y * (b as real * d as real);
    assert b as real * d as real > 0.0;
  }

  lemma RatIsDenoted(n: Number)
    requires n.Decimal?
    ensures Denoted(n) == ToRat(n).value.num as real / ToRat(n).value.den as real
  {
    if n.exponent >= 0 {
      assert (n.mantissa * Pow10(n.exponent)) as real == n.mantissa as real * Pow10(n.exponent) as real;
    }
  }

  /** Two numbers are the same exactly when they denote one rational. */
  lemma SameNumberIff(a: Number, b: Number)
    requires a.Decimal? && b.Decimal?
    ensures SameNumber(a, b) <==> Denoted(a) == Denoted(b)
  {
    var x, y := ToRat(a).value, ToRat(b).value;
    RatIsDenoted(a);
    RatIsDenoted(b);
    CrossProducts(x.num, x.den, y.num, y.den);
  }

  /** Two exact documents are the same exactly when they mean the same: at any
      depth, with the keys in any order. */
  lemma {:induction false} SameValueIff(a: Value, b: Value)
    requires Exact(a) && Exact(b)
    ensures SameValue(a, b) <==> MeaningOf(a) == MeaningOf(b)
    decreases a
  {
    match a
    case Num(x) =>
      if b.Num? {
        SameNumberIff(x, b.number);
      }
    case List(x) =>
      if b.List? {
        assert |MeaningOf(a).items| == |x| && |MeaningOf(b).items| == |b.items|;
        if |x| == |b.items| {
          SameItemsIff(a, b);
        }
      }
    case Object(x) =>
      if b.Object? {
        SameFieldsIff(a, b);
      }
    case _ =>
  }

  lemma {:induction false} SameItemsIff(a: Value, b: Value)
    requires a.List? && b.List? && |a.items| == |b.items| && Exact(a) && Exact(b)
    ensures SameValue(a, b) <==> MeaningOf(a) == MeaningOf(b)
    decreases a, 0
  {
    var x, y := MeaningOf(a).items, MeaningOf(b).items;
    forall i | 0 <= i < |a.items| ensures SameValue(a.items[i], b.items[i]) <==> x[i] == y[i] {
      SameValueIff(a.items[i], b.items[i]);
    }
    if SameValue(a, b) {
      assert x == y;
    }
    if x == y {
      forall i | 0 <= i < |a.items| ensures SameValue(a.items[i], b.items[i]) {
        assert x[i] == y[i];
      }
    }
  }

  lemma {:induction false} SameFieldsIff(a: Value, b: Value)
    requires a.Object? && b.Object? && Exact(a) && Exact(b)
    ensures SameValue(a, b) <==> MeaningOf(a) == MeaningOf(b)
    decreases a, 0
  {
    var x, y := MeaningOf(a).fields, MeaningOf(b).fields;
    forall k | k in a.fields && k in b.fields ensures SameValue(a.fields[k], b.fields[k]) <==> x[k] == y[k] {
      SameValueIff(a.fields[k], b.fields[k]);
    }
    assert x.Keys == a.fields.Keys && y.Keys == b.fields.Keys;
    if SameValue(a, b) {
      SameKeys(a.fields.Keys, b.fields.Keys);
      assert x == y;
    }
    if x == y {
      assert a.fields.Keys == b.fields.Keys;
      assert |a.fields| == |a.fields.Keys| == |b.fields|;
    }
  }

  lemma SameKeys(a: set<string>, b: set<string>)
    requires a <= b && |a| == |b|
    ensures a == b
  {
    if k :| k in b && k !in a {
      assert a + {k} <= b;
      SubsetSize(a + {k}, b);
    }
  }

  lemma {:induction false} SubsetSize(a: set<string>, b: set<string>)
    requires a <= b
    ensures |a| <= |b|
  {
    if k :| k in a {
      SubsetSize(a - {k}, b - {k});
    }
  }

  /** On exact documents the comparison is an equivalence. */
  lemma SameValueIsEquivalence(a: Value, b: Value, c: Value)
    requires Exact(a) && Exact(b) && Exact(c)
    ensures SameValue(a, a)
    ensures SameValue(a, b) ==> SameValue(b, a)
    ensures SameValue(a, b) && SameValue(b, c) ==> SameValue(a, c)
  {
    SameValueIff(a, a);
    SameValueIff(a, b);
    SameValueIff(b, a);
    SameValueIff(b, c);
    SameValueIff(a, c);
  }

  /** A document is the same as itself exactly when it is exact. */
  lemma {:induction false} SameAsItself(v: Value)
    ensures SameValue(v, v) <==> Exact(v)
  {
    match v
    case List(items) =>
      forall i | 0 <= i < |items| ensures SameValue(items[i], items[i]) <==> Exact(items[i]) {
        SameAsItself(items[i]);
      }
    case Object(fields) =>
      forall k | k in fields ensures SameValue(fields[k], fields[k]) <==> Exact(fields[k]) {
        SameAsItself(fields[k]);
      }
    case Num(n) =>
      if n.Decimal? {
        SameNumberIff(n, n);
      }
    case _ =>
  }
}
