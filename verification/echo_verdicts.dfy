/** What every run of echo leaves, judged by the verdicts of the suite: the
    deletion policies, and the recordings of the history. */
module EchoVerdicts {
  import opened Api
  import opened Cluster
  import opened EchoCalls
  import opened Recording
  import Protocol

  // The deletion policies.

  /** The object at k carries the labels of the request h. */
  predicate CarriesLabels(k: ObjKey, o: Obj, h: ReqKey) {
    o.labels.request == h.name &&
    if k.kind == StorageClass then o.labels.requestNamespace.None? || o.labels.requestNamespace == Some(h.ns)
    else k.ns == h.ns
  }

  /** Delete: once the finalizer is gone, and until a further request of the name
      holds it, no object with the labels that echo writes for the request is
      left, also when the spec changed, an earlier request of the name left
      objects, or the name was used again. */
  lemma DeleteLeavesNothing(w: World, h: ReqKey, k: ObjKey)
    requires Inv(w) && w.currentReads
    requires h in w.finished && w.finished[h].policy == Delete && !Lives(w, h) && k in w.objects
    ensures !(CarriesLabels(k, w.objects[k], h) && Own(w.opts, w.objects[k]))
  {
    assert ObjectOk(w, k, w.objects[k]);
  }

  /** The verdict about a copy of an object of the request passes exactly when no
      other writer took the name with the label of the request. */
  lemma DeletePasses(w: World, h: ReqKey, k: ObjKey, before: Obj)
    requires Inv(w) && w.currentReads
    requires h in w.finished && w.finished[h].policy == Delete && !Lives(w, h)
    requires WroteObject(k, before) in w.history && Home(k, before) == h
    ensures Now(w, k, before) == None <==> !OthersTook(w, k, h)
  {
    assert CopyOk(w, k, before);
    if k in w.objects {
      DeleteLeavesNothing(w, h, k);
      assert ObjectOk(w, k, w.objects[k]);
    }
  }

  /** Some object with the label of the request is at k. */
  predicate OthersTook(w: World, k: ObjKey, h: ReqKey) {
    k in w.objects && w.objects[k].labels.request == h.name
  }

  datatype OrphanProblem = StillExists | Gone | WrittenAgain | BeingDeleted | LostLabel(key: string) | StillOwned

  /** The object of before that is at its name now, or None when it is gone or
      another object without the request label took the name. */
  function Now(w: World, k: ObjKey, before: Obj): Option<Obj> {
    if k !in w.objects then None
    else
      var got := w.objects[k];
      if got.uid != before.uid && got.labels.request != before.labels.request then None else Some(got)
  }

  /** orphanProblems. An object without its own finalizers is never being
      deleted: it is gone. */
  function OrphanProblems(row: Row, k: ObjKey, before: Obj, now: Option<Obj>, request: Request): seq<OrphanProblem> {
    if row.onOrphan == Deleted then (if now.Some? then [StillExists] else [])
    else if now.None? then [Gone]
    else if now.value.uid != before.uid then [WrittenAgain]
    else
      var labels, was := now.value.labels, before.labels;
      (if labels.registration != was.registration || labels.registration == ""
       then [LostLabel(LABEL_REGISTRATION)] else []) +
      (if labels.request != was.request || labels.request == "" then [LostLabel(LABEL_REQUEST)] else []) +
      (if k.kind != StorageClass && request.uid in now.value.owners then [StillOwned] else [])
  }

  predicate KeptLabel(now: string, before: string) {
    now == before && before != ""
  }

  /** The object from before with both of its labels, which the request does not
      own unless the object has no namespace. */
  predicate IsLeft(k: ObjKey, before: Obj, now: Option<Obj>, request: Request) {
    && now.Some? && now.value.uid == before.uid
    && KeptLabel(now.value.labels.registration, before.labels.registration)
    && KeptLabel(now.value.labels.request, before.labels.request)
    && (k.kind != StorageClass ==> request.uid !in now.value.owners)
  }

  /** A row has no problem exactly when its object is gone, or is left, as the row
      says; and each problem says what is wrong. */
  lemma OrphanProblemsIff(row: Row, k: ObjKey, before: Obj, now: Option<Obj>, request: Request)
    ensures
      OrphanProblems(row, k, before, now, request) == [] <==>
      if row.onOrphan == Deleted then now.None? else IsLeft(k, before, now, request)
    ensures
      var found, same := OrphanProblems(row, k, before, now, request), now.Some? && now.value.uid == before.uid;
      && (StillExists in found <==> row.onOrphan == Deleted && now.Some?)
      && (Gone in found <==> row.onOrphan == Kept && now.None?)
      && (WrittenAgain in found <==> row.onOrphan == Kept && now.Some? && !same)
      && (LostLabel(LABEL_REGISTRATION) in found <==>
            row.onOrphan == Kept && same && !KeptLabel(now.value.labels.registration, before.labels.registration))
      && (LostLabel(LABEL_REQUEST) in found <==>
            row.onOrphan == Kept && same && !KeptLabel(now.value.labels.request, before.labels.request))
      && (StillOwned in found <==>
            row.onOrphan == Kept && same && k.kind != StorageClass && request.uid in now.value.owners)
  {
    assert |LABEL_REGISTRATION| != |LABEL_REQUEST|;
  }

  /** read is a state of the request whose finalizer was removed last, and row is
      its row of the object at k. */
  ghost predicate HadRow(w: World, h: ReqKey, read: Request, row: Row, k: ObjKey) {
    && h in w.finished && WroteRequest(read) in w.history && read.key == h && read.uid == w.finished[h].uid
    && row in read.rows && row.kind == k.kind && row.name == k.name
  }

  /** Orphan: once the finalizer is gone, a row that the request had at any time
      and that says Kept has no problem, for any copy of its object from any time
      before, exactly when the controller did not delete that object. A row that
      says Deleted has none exactly when no other writer took the name with the
      label of the request. */
  lemma OrphanFollowsItsRows(w: World, h: ReqKey, read: Request, row: Row, k: ObjKey, before: Obj)
    requires Inv(w) && w.currentReads && w.opts.registration != ""
    requires HadRow(w, h, read, row, k) && w.finished[h].policy == Orphan && !Lives(w, h)
    requires WroteObject(k, before) in w.history && Home(k, before) == h
    ensures
      OrphanProblems(row, k, before, Now(w, k, before), read) == [] <==>
      if row.onOrphan == Deleted then !OthersTook(w, k, h) else !Taken(w, k, before.uid)
  {
    assert CopyOk(w, k, before);
    RowsFollowKind(w, read, row);
    if k in w.objects {
      assert ObjectOk(w, k, w.objects[k]);
    }
    if row.onOrphan == Kept && Taken(w, k, before.uid) {
      TakenIsGone(w, k, before.uid);
    }
  }

  lemma TakenIsGone(w: World, k: ObjKey, uid: Uid)
    requires RemovalsOk(w) && Taken(w, k, uid)
    ensures !StillAt(w, k, uid)
  {
    var o, r :| Removed(k, o, r) in w.history && o.uid == uid;
    assert RemovalOk(w, k, o, r);
  }

  /** No state of the request whose finalizer was removed last has the object
      deleted by a pass that reads it: each one that is being deleted has the
      policy Orphan, and each other one that holds the finalizer and renders wants
      the Grant. */
  ghost predicate AlwaysKept(w: World, h: ReqKey, k: ObjKey)
    requires h in w.finished
  {
    forall r :: WroteRequest(r) in w.history && r.key == h && r.uid == w.finished[h].uid ==> !Justified(r, k)
  }

  /** The controller deleted the object at k with the UID in the first n writes. */
  ghost predicate TakenBefore(w: World, k: ObjKey, uid: Uid, n: nat) {
    exists i :: 0 <= i < n && IsTaking(w, k, uid, i)
  }

  predicate IsTaking(w: World, k: ObjKey, uid: Uid, i: nat) {
    i < |w.history| && w.history[i].Removed? && w.history[i].k == k && w.history[i].o.uid == uid
  }

  /** An object that every state of the request keeps, and that was not gone when
      the request was created, is not deleted, so Orphan follows the row. The UID
      of a request is the place of its creation in the history. */
  lemma OrphanKeepsWanted(w: World, h: ReqKey, read: Request, row: Row, k: ObjKey, before: Obj)
    requires Inv(w) && w.currentReads && w.opts.registration != ""
    requires HadRow(w, h, read, row, k) && w.finished[h].policy == Orphan && !Lives(w, h) && row.onOrphan == Kept
    requires WroteObject(k, before) in w.history && Home(k, before) == h
    requires AlwaysKept(w, h, k) && !TakenBefore(w, k, before.uid, w.finished[h].uid)
    ensures OrphanProblems(row, k, before, Now(w, k, before), read) == []
  {
    OrphanFollowsItsRows(w, h, read, row, k, before);
    if Taken(w, k, before.uid) {
      assert CopyOk(w, k, before);
      KeptIsNotTaken(w, h, k, before);
    }
  }

  lemma KeptIsNotTaken(w: World, h: ReqKey, k: ObjKey, before: Obj)
    requires RemovalsOk(w) && TimesOk(w) && CopyOk(w, k, before) && Home(k, before) == h && !Lives(w, h)
    requires h in w.finished && AlwaysKept(w, h, k) && !TakenBefore(w, k, before.uid, w.finished[h].uid)
    ensures !Taken(w, k, before.uid)
  {
    forall o, r | Removed(k, o, r) in w.history ensures o.uid != before.uid {
      assert RemovalOk(w, k, o, r);
      var i :| 0 <= i < |w.history| && w.history[i] == Removed(k, o, r);
      assert InTime(w, i, w.history[i].r);
      if o.uid == before.uid {
        assert IsTaking(w, k, before.uid, i);
      }
    }
  }

  lemma RowsFollowKind(w: World, read: Request, row: Row)
    requires Inv(w) && w.currentReads && WroteRequest(read) in w.history && row in read.rows
    ensures row.onOrphan == if row.kind == Ingress then Deleted else Kept
  {
    assert RowsAreOf(w.opts, read);
    var names: seq<string> :| read.rows == RowsOf(w.opts, read.key, names);
    var i :| 0 <= i < |RowsOf(w.opts, read.key, names)| && RowsOf(w.opts, read.key, names)[i] == row;
  }

  /** Each object that the controller deleted carried the labels of echo and of
      the request that the pass was for, and those of no other request; and the
      state of the request that the pass had read gave a reason: its spec wants
      the Grant no longer, or its deletion policy deletes the object. */
  lemma DeletesOnlyItsOwn(w: World, k: ObjKey, o: Obj, r: Request, other: ReqKey)
    requires Inv(w) && w.currentReads && Removed(k, o, r) in w.history
    ensures Own(w.opts, o) && CarriesLabels(k, o, r.key) && WroteRequest(r) in w.history && Justified(r, k)
    ensures other != r.key ==> !CarriesLabels(k, o, other)
  {
    assert RemovalOk(w, k, o, r);
  }

  /** The namespace of b is that of a, a dash and the start of the name of a, and
      the rest of the name of a is a dash and the name of b. */
  predicate Splits(a: ReqKey, b: ReqKey) {
    && |a.ns| < |b.ns| && b.ns[..|a.ns|] == a.ns && b.ns[|a.ns|] == '-'
    && a.name == b.ns[|a.ns| + 1..] + ("-" + b.name)
  }

  lemma SplitsHaveOneName(a: ReqKey, b: ReqKey)
    requires Splits(a, b)
    ensures StorageClassKey(a) == StorageClassKey(b)
  {
    var p := b.ns[|a.ns| + 1..];
    assert b.ns == a.ns + ("-" + p);
    assert a.ns + "-" + (p + ("-" + b.name)) + "-echo" == (a.ns + ("-" + p)) + "-" + b.name + "-echo";
  }

  lemma SameStart(a: string, b: string, x: string, y: string)
    requires a + x == b + y && |a| <= |b|
    ensures b[..|a|] == a && x == b[|a|..] + y
  {
    assert (a + x)[..|a|] == a && (b + y)[..|a|] == b[..|a|];
    assert (a + x)[|a|..] == x && (b + y)[|a|..] == b[|a|..] + y;
  }

  lemma OneNameSplits(a: ReqKey, b: ReqKey)
    requires StorageClassKey(a) == StorageClassKey(b) && |a.ns| <= |b.ns|
    ensures a == b || Splits(a, b)
  {
    var x, y := "-" + a.name, "-" + b.name;
    assert a.ns + "-" + a.name + "-echo" == (a.ns + x) + "-echo";
    assert b.ns + "-" + b.name + "-echo" == (b.ns + y) + "-echo";
    assert ((a.ns + x) + "-echo")[..|a.ns + x|] == a.ns + x;
    assert ((b.ns + y) + "-echo")[..|b.ns + y|] == b.ns + y;
    SameStart(a.ns, b.ns, x, y);
    var rest := b.ns[|a.ns|..];
    if rest == "" {
      assert b.ns == a.ns && x[1..] == a.name && y[1..] == b.name;
    } else {
      assert x[0] == rest[0] == b.ns[|a.ns|];
      assert x[1..] == a.name && (rest + y)[1..] == rest[1..] + y;
      assert rest[1..] == b.ns[|a.ns| + 1..];
    }
  }

  /** Two requests give one StorageClass name exactly when they are one, or the
      name of one splits at a dash so that its start moves to the namespace. So
      the labels, and not the name, say whose the object is. */
  lemma SameStorageClass(a: ReqKey, b: ReqKey)
    ensures StorageClassKey(a) == StorageClassKey(b) <==> a == b || Splits(a, b) || Splits(b, a)
  {
    if StorageClassKey(a) == StorageClassKey(b) {
      if |a.ns| <= |b.ns| {
        OneNameSplits(a, b);
      } else {
        OneNameSplits(b, a);
      }
    }
    if Splits(a, b) {
      SplitsHaveOneName(a, b);
    } else if Splits(b, a) {
      SplitsHaveOneName(b, a);
    }
  }

  /** A name with a dash collides with the request that the dash splits off. */
  lemma StorageClassesCollide(ns: string, p: string, name: string)
    ensures StorageClassKey(ReqKey(ns, p + ("-" + name))) == StorageClassKey(ReqKey(ns + ("-" + p), name))
    ensures ReqKey(ns, p + ("-" + name)) != ReqKey(ns + ("-" + p), name)
  {
    var a, b := ReqKey(ns, p + ("-" + name)), ReqKey(ns + ("-" + p), name);
    assert b.ns[..|ns|] == ns && b.ns[|ns|] == '-' && b.ns[|ns| + 1..] == p;
    SplitsHaveOneName(a, b);
  }

  // The recordings.

  function RequestState(r: Request, version: nat): Object {
    Object(
      "PluginRequest", r.key.ns, r.key.name, r.uid, Comparable(version), false, map[], {}, r.deleting,
      if r.finalizer then {FINALIZER_CLEANUP} else {}, if r.outputs then map["output" := "value"] else map[], map[])
  }

  function RegistrationState(ready: bool, version: nat): Object {
    Object(
      "PluginRegistration", "", "", 0, Comparable(version), false, map[], {}, false, {}, map[],
      map["Ready" := Condition(if ready then True else False, "", "", 0, 0)])
  }

  function KindState(k: ObjKey, o: Obj, version: nat): Object {
    Object(
      "", k.ns, k.name, o.uid, Comparable(version), true, map[LABEL_REQUEST := o.labels.request], o.owners, false,
      {}, map[], map[])
  }

  /** An object with a request label that a write or a deletion gives. */
  datatype Placed = Placed(k: ObjKey, o: Obj)

  function PlacedBy(x: Write): Option<Placed> {
    match x
    case WroteObject(k, o) => Some(Placed(k, o))
    case WroteForeign(k, o) => Some(Placed(k, o))
    case Removed(k, o, _) => Some(Placed(k, o))
    case Vanished(k, o) => Some(Placed(k, o))
    case RemovedForeign(k, o) => Some(Placed(k, o))
    case _ => None
  }

  /** A state of a request that a write or a deletion gives. */
  function RequestBy(x: Write): Option<Request> {
    match x
    case WroteRequest(r) => Some(r)
    case RemovedRequest(r) => Some(r)
    case _ => None
  }

  /** What the recorder of the run observes of write i: a request of the
      namespace with the finalizer, or an object with a request label. The event
      of a deletion has the last state, at the version of the deletion. */
  function RunObservation(history: seq<Write>, ns: string, i: nat): Option<Observation>
    requires i < |history|
  {
    var request, placed := RequestBy(history[i]), PlacedBy(history[i]);
    if request.Some? then
      var obj := RequestState(request.value, i + 1);
      var key := Protocol.RequestKeyOf().key(obj);
      if request.value.key.ns == ns && key != NoKey then Some(Observation(obj, key)) else None
    else if placed.Some? then
      var obj := KindState(placed.value.k, placed.value.o, i + 1);
      Some(Observation(obj, Protocol.KindKeyOf().key(obj)))
    else None
  }

  /** What the recorder of checkRegistrationFirst observes of write i. */
  function OrderObservation(history: seq<Write>, h: ReqKey, i: nat): Option<Observation>
    requires i < |history|
  {
    var request := RequestBy(history[i]);
    if history[i].WroteRegistration? then
      var obj := RegistrationState(history[i].ready, i + 1);
      var key := Protocol.ReadyKeyOf().key(obj);
      if key != NoKey then Some(Observation(obj, key)) else None
    else if request.Some? && request.value.key == h then
      var obj := RequestState(request.value, i + 1);
      var key := Protocol.ServedKeyOf().key(obj);
      if key != NoKey then Some(Observation(obj, key)) else None
    else None
  }

  /** arrived is a complete recording of the history by the recorder of the run:
      it holds each observation, in any order and with repeats or not. */
  ghost predicate RecordsRun(history: seq<Write>, ns: string, arrived: seq<Observation>) {
    && (forall a :: 0 <= a < |arrived| ==>
          exists i :: 0 <= i < |history| && RunObservation(history, ns, i) == Some(arrived[a]))
    && (forall i :: 0 <= i < |history| && RunObservation(history, ns, i).Some? ==>
          RunObservation(history, ns, i).value in arrived)
  }

  /** The same of the recorder of checkRegistrationFirst. */
  ghost predicate RecordsOrder(history: seq<Write>, h: ReqKey, arrived: seq<Observation>) {
    && (forall a :: 0 <= a < |arrived| ==>
          exists i :: 0 <= i < |history| && OrderObservation(history, h, i) == Some(arrived[a]))
    && (forall i :: 0 <= i < |history| && OrderObservation(history, h, i).Some? ==>
          OrderObservation(history, h, i).value in arrived)
  }

  predicate CarriesName(x: Write, h: ReqKey) {
    PlacedBy(x).Some? && PlacedBy(x).value.o.labels.request == h.name
  }

  /** The names of the requests of the run are its own: an object with the label
      of one is of echo, and of the namespace of the run. */
  ghost predicate OwnNames(history: seq<Write>, h: ReqKey) {
    forall x :: x in history && CarriesName(x, h) ==>
      !x.WroteForeign? && !x.RemovedForeign? && Home(x.k, x.o) == h
  }

  /** Some state of h held the finalizer. */
  ghost predicate EverFinalized(history: seq<Write>, h: ReqKey) {
    FinalizedBefore(history, |history|, h)
  }

  /** finalizerProblem never reports an object before the finalizer on a
      complete recording of a run of echo, in whatever order it arrived; it
      passes exactly when the request got the finalizer. */
  lemma EchoPassesFinalizer(history: seq<Write>, h: ReqKey, arrived: seq<Observation>)
    requires OrderOk(history) && OwnNames(history, h) && RecordsRun(history, h.ns, arrived)
    ensures
      FinalizerVerdict(ObservedAll(INITIAL, arrived), h.name) ==
      if EverFinalized(history, h) then None else Some(NeverServed)
  {
    var s := ObservedAll(INITIAL, arrived);
    NoFailures(arrived);
    RecordedComparable(history, h, arrived);
    var fKey, oKey := FinalizerKey(h.name), ObjectKey(h.name);
    if fKey in s.marks {
      var a := MarkIndex(arrived, fKey);
      var i: nat :| i < |history| && RunObservation(history, h.ns, i) == Some(arrived[a]);
      StateIsFinalized(history, h, i);
    }
    if EverFinalized(history, h) {
      var j: nat := FinalizedIndex(history, |history|, h);
      RecordedFinalizer(history, h, arrived, j);
    }
    if oKey in s.marks {
      FinalizerIsMarkedFirst(history, h, arrived);
    }
  }

  /** The mark of the finalizer is before that of the objects. */
  lemma FinalizerIsMarkedFirst(history: seq<Write>, h: ReqKey, arrived: seq<Observation>)
    requires OrderOk(history) && OwnNames(history, h) && RecordsRun(history, h.ns, arrived) && AllComparable(arrived)
    requires ObjectKey(h.name) in ObservedAll(INITIAL, arrived).marks
    ensures
      var marks := ObservedAll(INITIAL, arrived).marks;
      var f, o := FinalizerKey(h.name), ObjectKey(h.name);
      && EverFinalized(history, h) && f in marks && marks[f].version.Comparable? && marks[o].version.Comparable?
      && marks[f].version.n < marks[o].version.n
  {
    var a := MarkIndex(arrived, ObjectKey(h.name));
    var i: nat :| i < |history| && RunObservation(history, h.ns, i) == Some(arrived[a]);
    ObjectIsFinalized(history, h, i);
    var j: nat := FinalizedIndex(history, i, h);
    RecordedFinalizer(history, h, arrived, j);
  }

  /** A state of the request with the finalizer, in a write or a deletion. */
  lemma StateIsFinalized(history: seq<Write>, h: ReqKey, i: nat)
    requires OrderOk(history) && i < |history| && RequestBy(history[i]).Some?
    requires
      var r := RequestBy(history[i]).value;
      r.key == h && r.finalizer
    ensures EverFinalized(history, h)
  {
    assert WriteInOrder(history, i);
    if history[i].RemovedRequest? {
      var j :| 0 <= j < i && history[j] == WroteRequest(history[i].r);
    }
  }

  /** An object of the request, in a write or a deletion, follows the
      finalizer. */
  lemma ObjectIsFinalized(history: seq<Write>, h: ReqKey, i: nat)
    requires OrderOk(history) && OwnNames(history, h) && i < |history| && CarriesName(history[i], h)
    ensures FinalizedBefore(history, i, h)
  {
    assert history[i] in history;
    assert WriteInOrder(history, i);
    if !history[i].WroteObject? {
      var j :| 0 <= j < i && history[j] == WroteObject(history[i].k, history[i].o);
      assert WriteInOrder(history, j);
      FinalizedLater(history, j, i, h);
    }
  }

  lemma FinalizedLater(history: seq<Write>, j: nat, i: nat, h: ReqKey)
    requires j <= i <= |history| && FinalizedBefore(history, j, h)
    ensures FinalizedBefore(history, i, h)
  {
    var n :| 0 <= n < j <= |history| && history[n].WroteRequest? && history[n].r.key == h && history[n].r.finalizer;
  }

  lemma FinalizedIndex(history: seq<Write>, n: nat, h: ReqKey) returns (j: nat)
    requires n <= |history| && FinalizedBefore(history, n, h)
    ensures j < n && history[j].WroteRequest? && history[j].r.key == h && history[j].r.finalizer
  {
    j :| 0 <= j < n && history[j].WroteRequest? && history[j].r.key == h && history[j].r.finalizer;
  }

  lemma RecordedFinalizer(history: seq<Write>, h: ReqKey, arrived: seq<Observation>, j: nat)
    requires RecordsRun(history, h.ns, arrived) && AllComparable(arrived)
    requires j < |history| && history[j].WroteRequest? && history[j].r.key == h && history[j].r.finalizer
    ensures
      var s, key := ObservedAll(INITIAL, arrived), FinalizerKey(h.name);
      key in s.marks && s.marks[key].version.Comparable? && s.marks[key].version.n <= j + 1
  {
    assert RunObservation(history, h.ns, j).Some? && RunObservation(history, h.ns, j).value.key == FinalizerKey(h.name);
    assert RunObservation(history, h.ns, j).value in arrived;
    var a: nat :| a < |arrived| && arrived[a] == RunObservation(history, h.ns, j).value;
    LeastMark(arrived, a);
  }

  lemma RecordedComparable(history: seq<Write>, h: ReqKey, arrived: seq<Observation>)
    requires RecordsRun(history, h.ns, arrived)
    ensures AllComparable(arrived)
  {
    forall a | 0 <= a < |arrived|
      ensures arrived[a].obj.version.Comparable?
    {
      var i: nat :| i < |history| && RunObservation(history, h.ns, i) == Some(arrived[a]);
    }
  }

  lemma {:induction false} NoFailures(arrived: seq<Observation>)
    ensures ObservedAll(INITIAL, arrived).failures == []
  {
    if arrived != [] {
      NoFailures(arrived[..|arrived| - 1]);
    }
  }

  predicate IsServed(r: Request) {
    r.finalizer || r.outputs
  }

  /** Some state of h was served: it held the finalizer or outputs. */
  ghost predicate EverServed(history: seq<Write>, h: ReqKey) {
    exists i :: 0 <= i < |history| && history[i].WroteRequest? && history[i].r.key == h && IsServed(history[i].r)
  }

  /** orderVerdict never reports a request that was served before the
      registration on a complete recording of a run of echo: it passes exactly
      when the request was served. */
  lemma EchoPassesOrder(history: seq<Write>, h: ReqKey, arrived: seq<Observation>)
    requires OrderOk(history) && RecordsOrder(history, h, arrived)
    ensures
      OrderVerdict(ObservedAll(INITIAL, arrived)) ==
      if EverServed(history, h) then None
      else if ReadyBefore(history, |history|) then Some(NeverServed)
      else Some(NeverReady)
  {
    NoFailures(arrived);
    OrderComparable(history, h, arrived);
    ReadyIsMarked(history, h, arrived);
    ServedIsMarked(history, h, arrived);
  }

  lemma ReadyIsMarked(history: seq<Write>, h: ReqKey, arrived: seq<Observation>)
    requires RecordsOrder(history, h, arrived) && AllComparable(arrived)
    ensures RegistrationReady in ObservedAll(INITIAL, arrived).marks <==> ReadyBefore(history, |history|)
  {
    if RegistrationReady in ObservedAll(INITIAL, arrived).marks {
      var a := MarkIndex(arrived, RegistrationReady);
      var i: nat :| i < |history| && OrderObservation(history, h, i) == Some(arrived[a]);
      assert history[i] == WroteRegistration(true);
    }
    if ReadyBefore(history, |history|) {
      RecordedReady(history, h, arrived, |history|);
    }
  }

  /** The mark of the served request is there when the request was served, and is
      behind that of the registration. */
  lemma ServedIsMarked(history: seq<Write>, h: ReqKey, arrived: seq<Observation>)
    requires OrderOk(history) && RecordsOrder(history, h, arrived) && AllComparable(arrived)
    ensures
      var marks := ObservedAll(INITIAL, arrived).marks;
      && (RequestServed in marks <==> EverServed(history, h))
      && (RequestServed in marks ==>
            && RegistrationReady in marks
            && marks[RegistrationReady].version.Comparable? && marks[RequestServed].version.Comparable?
            && marks[RegistrationReady].version.n < marks[RequestServed].version.n)
  {
    if EverServed(history, h) {
      var i: nat :| i < |history| && history[i].WroteRequest? && history[i].r.key == h && IsServed(history[i].r);
      RecordedServed(history, h, arrived, i);
    }
    if RequestServed in ObservedAll(INITIAL, arrived).marks {
      var a := MarkIndex(arrived, RequestServed);
      var i: nat :| i < |history| && OrderObservation(history, h, i) == Some(arrived[a]);
      ServedIsReady(history, h, i);
      RecordedReady(history, h, arrived, i);
    }
  }

  /** A served state of the request, in a write or a deletion, follows the
      registration. */
  lemma ServedIsReady(history: seq<Write>, h: ReqKey, i: nat)
    requires OrderOk(history) && i < |history| && RequestBy(history[i]).Some?
    requires
      var r := RequestBy(history[i]).value;
      r.key == h && IsServed(r)
    ensures EverServed(history, h) && ReadyBefore(history, i)
  {
    assert WriteInOrder(history, i);
    if history[i].RemovedRequest? {
      var j :| 0 <= j < i && history[j] == WroteRequest(history[i].r);
      assert WriteInOrder(history, j);
      var n :| 0 <= n < j && history[n] == WroteRegistration(true);
    }
  }

  lemma RecordedServed(history: seq<Write>, h: ReqKey, arrived: seq<Observation>, i: nat)
    requires RecordsOrder(history, h, arrived) && AllComparable(arrived) && i < |history|
    requires history[i].WroteRequest? && history[i].r.key == h && IsServed(history[i].r)
    ensures RequestServed in ObservedAll(INITIAL, arrived).marks
  {
    if history[i].r.outputs {
      assert "output" in RequestState(history[i].r, i + 1).outputs;
    }
    assert OrderObservation(history, h, i).Some?;
    var a: nat :| a < |arrived| && arrived[a] == OrderObservation(history, h, i).value;
    LeastMark(arrived, a);
  }

  lemma RecordedReady(history: seq<Write>, h: ReqKey, arrived: seq<Observation>, n: nat)
    requires RecordsOrder(history, h, arrived) && AllComparable(arrived) && n <= |history| && ReadyBefore(history, n)
    ensures
      var s := ObservedAll(INITIAL, arrived);
      && RegistrationReady in s.marks && s.marks[RegistrationReady].version.Comparable?
      && s.marks[RegistrationReady].version.n <= n
  {
    var j: nat :| j < n && history[j] == WroteRegistration(true);
    assert OrderObservation(history, h, j).Some?;
    var a: nat :| a < |arrived| && arrived[a] == OrderObservation(history, h, j).value;
    LeastMark(arrived, a);
  }

  lemma OrderComparable(history: seq<Write>, h: ReqKey, arrived: seq<Observation>)
    requires RecordsOrder(history, h, arrived)
    ensures AllComparable(arrived)
  {
    forall a | 0 <= a < |arrived|
      ensures arrived[a].obj.version.Comparable?
    {
      var i: nat :| i < |history| && OrderObservation(history, h, i) == Some(arrived[a]);
    }
  }
}
