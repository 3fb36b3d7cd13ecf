/** The cluster that the echo controller works on, and the other clients that
    change it between any two calls of the controller. */
module Cluster {
  import opened Api

  datatype ReqKey = ReqKey(ns: string, name: string)

  datatype Kind = ConfigMap | StorageClass | Ingress | Grant

  /** The key of an object. ns is empty for a StorageClass. */
  datatype ObjKey = ObjKey(kind: Kind, ns: string, name: string)

  datatype Policy = Delete | Orphan

  datatype OnOrphan = Kept | Deleted

  datatype Row = Row(kind: Kind, name: string, onOrphan: OnOrphan)

  /** A PluginRequest. grants is what the grant templates give for its spec: the
      names of its Grants, or None when a template cannot be rendered. */
  datatype Request = Request(
    key: ReqKey, uid: Uid, version: nat,
    registration: string, policy: Policy, grants: Option<seq<string>>,
    finalizer: bool, deleting: bool, outputs: bool, rows: seq<Row>)

  /** The labels that echo reads. An absent label is empty or None. */
  datatype Labels = Labels(registration: string, request: string, requestNamespace: Option<string>)

  datatype Obj = Obj(uid: Uid, version: nat, labels: Labels, owners: set<Uid>)

  datatype Options = Options(registration: string, access: bool)

  /** One write that the server took, at the resource version that is its
      place in the history. A deletion holds the last state of what it removes.
      WroteObject, Removed and Vanished are of objects of echo: Removed is a deletion
      by the pass that read r, and Vanished one by another client. WroteForeign and
      RemovedForeign are of other objects with a request label, and WroteOther is
      of objects without one. */
  datatype Write =
    | WroteRequest(r: Request)
    | RemovedRequest(r: Request)
    | WroteRegistration(ready: bool)
    | WroteObject(k: ObjKey, o: Obj)
    | Removed(k: ObjKey, o: Obj, r: Request)
    | Vanished(k: ObjKey, o: Obj)
    | WroteForeign(k: ObjKey, o: Obj)
    | RemovedForeign(k: ObjKey, o: Obj)
    | WroteOther

  /** The state of the cluster. finished holds, for each name, the last request
      whose finalizer the controller removed. currentReads says that a read gives
      the current state; otherwise a read of a request or of the registration
      gives some state that occurred, and a read of another object gives
      anything. */
  datatype World = World(
    opts: Options, currentReads: bool,
    requests: map<ReqKey, Request>, finished: map<ReqKey, Request>,
    objects: map<ObjKey, Obj>, ready: bool, history: seq<Write>)

  predicate Labelled(o: Obj) {
    o.labels.request != ""
  }

  /** The object carries the labels that echo writes. */
  predicate Own(opts: Options, o: Obj) {
    Labelled(o) && o.labels.registration == opts.registration
  }

  /** The request whose labels the object at k carries. */
  function Home(k: ObjKey, o: Obj): ReqKey {
    if k.kind != StorageClass then ReqKey(k.ns, o.labels.request)
    else match o.labels.requestNamespace
         case Some(ns) => ReqKey(ns, o.labels.request)
         case None => ReqKey("", o.labels.request)
  }

  /** An object of h is at k. */
  predicate HasHome(w: World, k: ObjKey, h: ReqKey) {
    k in w.objects && Own(w.opts, w.objects[k]) && Home(k, w.objects[k]) == h
  }

  function ConfigMapKey(h: ReqKey): ObjKey {
    ObjKey(ConfigMap, h.ns, h.name + "-echo")
  }

  function StorageClassKey(h: ReqKey): ObjKey {
    ObjKey(StorageClass, "", h.ns + "-" + h.name + "-echo")
  }

  function IngressKey(h: ReqKey): ObjKey {
    ObjKey(Ingress, h.ns, h.name + "-echo")
  }

  function GrantKey(h: ReqKey, name: string): ObjKey {
    ObjKey(Grant, h.ns, name)
  }

  /** k is the name of an object that echo writes for some spec of h. */
  predicate AtOwnKey(opts: Options, h: ReqKey, k: ObjKey) {
    match k.kind
    case ConfigMap => k == ConfigMapKey(h)
    case StorageClass => k == StorageClassKey(h)
    case Ingress => opts.access && k == IngressKey(h)
    case Grant => k.ns == h.ns
  }

  /** k is the name of an object that echo writes for the spec of r. */
  predicate IsKeyOf(opts: Options, r: Request, k: ObjKey) {
    AtOwnKey(opts, r.key, k) && (k.kind == Grant ==> r.grants.Some? && k.name in r.grants.value)
  }

  /** The rows of the status of h when its Grants are names. */
  function RowsOf(opts: Options, h: ReqKey, names: seq<string>): seq<Row> {
    [Row(ConfigMap, ConfigMapKey(h).name, Kept), Row(StorageClass, StorageClassKey(h).name, Kept)] +
    (if opts.access then [Row(Ingress, IngressKey(h).name, Deleted)] else []) +
    seq(|names|, i requires 0 <= i < |names| => Row(Grant, names[i], Kept))
  }

  /** A pass that reads the state r of a request deletes the object at k: a Grant
      that the spec no longer wants, or, when r is being deleted, what the policy
      deletes. */
  predicate Justified(r: Request, k: ObjKey) {
    r.finalizer &&
    if r.deleting then r.policy == Delete || k.kind == Ingress
    else k.kind == Grant && r.grants.Some? && k.name !in r.grants.value
  }

  // The invariant of every run.

  predicate Lives(w: World, h: ReqKey) {
    h in w.requests && w.requests[h].finalizer
  }

  /** The request of r holds the finalizer, and is the one that was read. */
  predicate Served(w: World, r: Request) {
    Lives(w, r.key) && w.requests[r.key].uid == r.uid
  }

  /** The rows are none, or those of some spec that the request had. */
  ghost predicate RowsAreOf(opts: Options, r: Request) {
    r.rows == [] || exists names: seq<string> :: r.rows == RowsOf(opts, r.key, names)
  }

  ghost predicate RequestOk(w: World, h: ReqKey, r: Request) {
    && r.key == h
    && (r.deleting ==> r.finalizer)
    && (r.finalizer ==> r.registration == w.opts.registration)
    && RowsAreOf(w.opts, r)
    && r.version <= |w.history| && r.uid <= |w.history|
    && WroteRequest(r) in w.history
  }

  ghost predicate FinishedOk(w: World, h: ReqKey, r: Request) {
    && r.key == h && r.uid <= |w.history|
    && WroteRequest(r) in w.history
    && (h in w.requests ==> w.requests[h].uid != r.uid)
  }

  ghost predicate RequestsOk(w: World) {
    && (forall h :: h in w.requests ==> RequestOk(w, h, w.requests[h]))
    && (forall h :: h in w.finished ==> FinishedOk(w, h, w.finished[h]))
    && RowsOk(w)
  }

  /** Each state that a request ever had has the rows of some spec. */
  ghost predicate RowsOk(w: World) {
    forall r :: WroteRequest(r) in w.history ==> RowsAreOf(w.opts, r)
  }

  /** An object that the last Orphan deletion of h kept. */
  predicate LeftByOrphan(w: World, h: ReqKey, k: ObjKey, o: Obj) {
    h in w.finished && w.finished[h].policy == Orphan && k.kind != Ingress && o.owners == {}
  }

  predicate NamesHome(k: ObjKey, o: Obj) {
    k.kind == StorageClass ==> o.labels.requestNamespace.Some?
  }

  ghost predicate ObjectOk(w: World, k: ObjKey, o: Obj) {
    && o.uid <= |w.history| && o.version <= |w.history|
    && if !Own(w.opts, o) then o.owners == {}
    else
      var h := Home(k, o);
      && NamesHome(k, o) && AtOwnKey(w.opts, h, k)
      && (k.kind == StorageClass ==> o.owners == {})
      && ((Lives(w, h) && o.owners <= {w.requests[h].uid}) || LeftByOrphan(w, h, k, o))
  }

  ghost predicate ObjectsOk(w: World) {
    forall k :: k in w.objects ==> ObjectOk(w, k, w.objects[k])
  }

  /** The controller deleted the object at k with the UID. */
  ghost predicate Taken(w: World, k: ObjKey, uid: Uid) {
    exists o, r :: Removed(k, o, r) in w.history && o.uid == uid
  }

  predicate StillAt(w: World, k: ObjKey, uid: Uid) {
    k in w.objects && w.objects[k].uid == uid
  }

  /** An object of which there is a copy is still there with its labels, unless
      the controller deleted it. */
  ghost predicate CopyOk(w: World, k: ObjKey, o: Obj) {
    && Own(w.opts, o) && o.uid <= |w.history|
    && (StillAt(w, k, o.uid) ==> w.objects[k].labels == o.labels)
    && (StillAt(w, k, o.uid) || Taken(w, k, o.uid))
    && SameWhenTaken(w, k, o)
  }

  ghost predicate SameWhenTaken(w: World, k: ObjKey, o: Obj) {
    forall x, r :: Removed(k, x, r) in w.history && x.uid == o.uid ==> x.labels == o.labels
  }

  ghost predicate CopiesOk(w: World) {
    forall k, o :: WroteObject(k, o) in w.history ==> CopyOk(w, k, o)
  }

  /** The controller deletes only objects of the request of its pass, with a
      reason, and they do not come back. */
  ghost predicate RemovalOk(w: World, k: ObjKey, o: Obj, r: Request) {
    && Own(w.opts, o) && Home(k, o) == r.key && NamesHome(k, o)
    && WroteRequest(r) in w.history && Justified(r, k)
    && o.uid <= |w.history| && !StillAt(w, k, o.uid)
  }

  ghost predicate RemovalsOk(w: World) {
    forall k, o, r :: Removed(k, o, r) in w.history ==> RemovalOk(w, k, o, r)
  }

  /** A deletion at place i of the history by a pass for r was for the request
      that exists now, or before it was created; and so for the last one whose
      finalizer the controller removed, unless it was for a later one. */
  predicate InTime(w: World, i: nat, r: Request) {
    && (r.key in w.requests ==> r.uid == w.requests[r.key].uid || i < w.requests[r.key].uid)
    && (r.key in w.finished ==> r.uid == w.finished[r.key].uid || i < w.finished[r.key].uid || Served(w, r))
  }

  ghost predicate TimesOk(w: World) {
    forall i :: 0 <= i < |w.history| && w.history[i].Removed? ==> InTime(w, i, w.history[i].r)
  }

  /** A state of h with the finalizer is among the first n writes. */
  ghost predicate FinalizedBefore(history: seq<Write>, n: nat, h: ReqKey) {
    exists j :: 0 <= j < n <= |history| && history[j].WroteRequest? && history[j].r.key == h && history[j].r.finalizer
  }

  ghost predicate ReadyBefore(history: seq<Write>, n: nat) {
    WrittenBefore(history, n, WroteRegistration(true))
  }

  ghost predicate WrittenBefore(history: seq<Write>, n: nat, x: Write) {
    exists j :: 0 <= j < n <= |history| && history[j] == x
  }

  /** Write i follows what the contract orders before it, and a deletion follows
      the state that it removes. */
  ghost predicate WriteInOrder(history: seq<Write>, i: nat)
    requires i < |history|
  {
    match history[i]
    case WroteObject(k, o) => FinalizedBefore(history, i, Home(k, o))
    case WroteRequest(r) => r.key.name != "" && (r.finalizer || r.outputs ==> ReadyBefore(history, i))
    case RemovedRequest(r) => WrittenBefore(history, i, WroteRequest(r))
    case Removed(k, o, _) => WrittenBefore(history, i, WroteObject(k, o))
    case Vanished(k, o) => WrittenBefore(history, i, WroteObject(k, o))
    case _ => true
  }

  ghost predicate OrderOk(history: seq<Write>) {
    forall i :: 0 <= i < |history| ==> WriteInOrder(history, i)
  }

  ghost predicate CurrentOk(w: World) {
    && RequestsOk(w)
    && ObjectsOk(w)
    && CopiesOk(w)
    && RemovalsOk(w)
    && TimesOk(w)
  }

  /** The order holds whatever the reads give. What a deletion leaves rests on
      current reads. */
  ghost predicate Inv(w: World) {
    && OrderOk(w.history)
    && (forall h :: h in w.requests ==> w.requests[h].key == h && WroteRequest(w.requests[h]) in w.history)
    && (forall k :: k in w.objects && Own(w.opts, w.objects[k]) ==> WroteObject(k, w.objects[k]) in w.history)
    && (w.ready ==> ReadyBefore(w.history, |w.history|))
    && (w.currentReads ==> CurrentOk(w))
  }

  /** What no step of another client undoes: it writes no object of echo and adds
      no owner to one, and a request that holds the finalizer stays. */
  ghost predicate Shrinks(w: World, w': World) {
    && w'.opts == w.opts && w'.currentReads == w.currentReads
    && w.history <= w'.history
    && w'.finished == w.finished
    && (w.currentReads ==>
          && (forall h :: Lives(w, h) ==> LivesOn(w, w', h))
          && (forall k :: k in w'.objects && Own(w.opts, w'.objects[k]) ==> StillThere(w, w', k))
          && RequestsVersioned(w, w')
          && ObjectsVersioned(w, w'))
  }

  /** A state with an old version is the old state. */
  ghost predicate RequestsVersioned(w: World, w': World) {
    forall h :: h in w'.requests && w'.requests[h].version <= |w.history| ==>
      h in w.requests && w'.requests[h] == w.requests[h]
  }

  /** The same of objects, and an object with an old UID is the old object. */
  ghost predicate ObjectsVersioned(w: World, w': World) {
    && (forall k :: k in w'.objects && w'.objects[k].version <= |w.history| ==>
          k in w.objects && w'.objects[k] == w.objects[k])
    && (forall k :: k in w'.objects && w'.objects[k].uid <= |w.history| ==> SameObject(w, w', k))
  }

  ghost predicate SameObject(w: World, w': World, k: ObjKey)
    requires k in w'.objects
  {
    && k in w.objects && w'.objects[k].uid == w.objects[k].uid
    && (Own(w.opts, w.objects[k]) ==> w'.objects[k].labels == w.objects[k].labels)
  }

  ghost predicate LivesOn(w: World, w': World, h: ReqKey)
    requires Lives(w, h)
  {
    && Lives(w', h)
    && w'.requests[h].uid == w.requests[h].uid
    && (w.requests[h].deleting ==> w'.requests[h].deleting)
  }

  ghost predicate StillThere(w: World, w': World, k: ObjKey)
    requires k in w'.objects
  {
    && k in w.objects
    && w'.objects[k].uid == w.objects[k].uid
    && w'.objects[k].labels == w.objects[k].labels
    && w'.objects[k].owners <= w.objects[k].owners
  }

  // The steps of the other clients.

  datatype Step =
    | CreateRequest(key: ReqKey, registration: string, policy: Policy, grants: Option<seq<string>>)
    | ChangeSpec(key: ReqKey, policy: Policy, grants: Option<seq<string>>)
    | DeleteRequest(key: ReqKey)
    | TouchRequest(key: ReqKey)                // another writer, such as of a label
    | SetRegistration(ready: bool)
    | WriteOthers(k: ObjKey, labels: Labels, anew: bool) // an object that is not of echo
    | DeleteOthers(k: ObjKey)
    | TouchObject(k: ObjKey)                   // such as the status of a Grant
    | Collect(k: ObjKey)                       // the garbage collector

  function NextVersion(w: World): nat {
    |w.history| + 1
  }

  predicate LiveUid(w: World, uid: Uid) {
    exists h :: h in w.requests && w.requests[h].uid == uid
  }

  /** No object of echo is at k. */
  predicate NotOwn(w: World, k: ObjKey) {
    k !in w.objects || !Own(w.opts, w.objects[k])
  }

  predicate CanStep(w: World, s: Step) {
    match s
    case CreateRequest(key, _, _, _) => key !in w.requests && key.name != ""
    case ChangeSpec(key, _, _) => key in w.requests
    case DeleteRequest(key) => key in w.requests
    case TouchRequest(key) => key in w.requests
    case SetRegistration(_) => true
    case WriteOthers(k, labels, _) => NotOwn(w, k) && !Own(w.opts, Obj(0, 0, labels, {}))
    case DeleteOthers(k) => k in w.objects && NotOwn(w, k)
    case TouchObject(k) => k in w.objects
    case Collect(k) =>
      k in w.objects && w.objects[k].owners != {} && forall uid :: uid in w.objects[k].owners ==> !LiveUid(w, uid)
  }

  // The four ways in which the state changes.

  function PutRequest(w: World, r: Request): World {
    w.(requests := w.requests[r.key := r], history := w.history + [WroteRequest(r)])
  }

  function DropRequest(w: World, h: ReqKey): World
    requires h in w.requests
  {
    w.(requests := w.requests - {h}, history := w.history + [RemovedRequest(w.requests[h])])
  }

  function ObjectWrite(opts: Options, k: ObjKey, o: Obj): Write {
    if Own(opts, o) then WroteObject(k, o) else if Labelled(o) then WroteForeign(k, o) else WroteOther
  }

  function PutObject(w: World, k: ObjKey, o: Obj): World {
    w.(objects := w.objects[k := o], history := w.history + [ObjectWrite(w.opts, k, o)])
  }

  /** What the history holds of a deletion by another client. */
  function GoneWrite(opts: Options, k: ObjKey, o: Obj): Write {
    if Own(opts, o) then Vanished(k, o) else if Labelled(o) then RemovedForeign(k, o) else WroteOther
  }

  function DropObject(w: World, k: ObjKey, x: Write): World {
    w.(objects := w.objects - {k}, history := w.history + [x])
  }

  function Created(w: World, key: ReqKey, registration: string, policy: Policy, grants: Option<seq<string>>): Request {
    Request(key, NextVersion(w), NextVersion(w), registration, policy, grants, false, false, false, [])
  }

  function Others(w: World, k: ObjKey, labels: Labels, anew: bool): Obj {
    var uid := if k in w.objects && !anew then w.objects[k].uid else NextVersion(w);
    Obj(uid, NextVersion(w), labels, {})
  }

  function Stepped(w: World, s: Step): World
    requires CanStep(w, s)
  {
    match s
    case CreateRequest(key, registration, policy, grants) =>
      PutRequest(w, Created(w, key, registration, policy, grants))
    case ChangeSpec(key, policy, grants) =>
      PutRequest(w, w.requests[key].(policy := policy, grants := grants, version := NextVersion(w)))
    case DeleteRequest(key) =>
      var r := w.requests[key];
      if r.finalizer then PutRequest(w, r.(deleting := true, version := NextVersion(w)))
      else DropRequest(w, key)
    case TouchRequest(key) => PutRequest(w, w.requests[key].(version := NextVersion(w)))
    case SetRegistration(ready) => w.(ready := ready, history := w.history + [WroteRegistration(ready)])
    case WriteOthers(k, labels, anew) => PutObject(w, k, Others(w, k, labels, anew))
    case DeleteOthers(k) => DropObject(w, k, GoneWrite(w.opts, k, w.objects[k]))
    case TouchObject(k) => PutObject(w, k, w.objects[k].(version := NextVersion(w)))
    case Collect(k) => DropObject(w, k, GoneWrite(w.opts, k, w.objects[k]))
  }

  lemma ShrinksRefl(w: World)
    ensures Shrinks(w, w)
  {}

  lemma ShrinksTrans(a: World, b: World, c: World)
    requires Shrinks(a, b) && Shrinks(b, c)
    ensures Shrinks(a, c)
  {
    forall k | a.currentReads && k in c.objects && Own(a.opts, c.objects[k])
      ensures StillThere(a, c, k)
    {
      assert StillThere(b, c, k);
      assert StillThere(a, b, k);
    }
    forall k | a.currentReads && k in c.objects && c.objects[k].uid <= |a.history|
      ensures SameObject(a, c, k)
    {
      assert SameObject(b, c, k);
      assert SameObject(a, b, k);
    }
  }

  // The order of the history.

  lemma WrittenLonger(history: seq<Write>, longer: seq<Write>, n: nat, x: Write)
    requires history <= longer && WrittenBefore(history, n, x)
    ensures WrittenBefore(longer, n, x) && WrittenBefore(longer, |longer|, x)
  {
    var j :| 0 <= j < n <= |history| && history[j] == x;
    assert longer[j] == x;
  }

  lemma FinalizedLonger(history: seq<Write>, longer: seq<Write>, n: nat, h: ReqKey)
    requires history <= longer && FinalizedBefore(history, n, h)
    ensures FinalizedBefore(longer, n, h) && FinalizedBefore(longer, |longer|, h)
  {
    var j :| 0 <= j < n <= |history| && history[j].WroteRequest? && history[j].r.key == h && history[j].r.finalizer;
    assert longer[j] == history[j];
  }

  lemma OrderStep(history: seq<Write>, next: Write)
    requires OrderOk(history) && WriteInOrder(history + [next], |history|)
    ensures OrderOk(history + [next])
  {
    var longer := history + [next];
    forall i | 0 <= i < |history|
      ensures WriteInOrder(longer, i)
    {
      assert WriteInOrder(history, i);
      OrderExtends(history, next, i);
    }
  }

  lemma OrderExtends(history: seq<Write>, next: Write, i: nat)
    requires i < |history| && WriteInOrder(history, i)
    ensures WriteInOrder(history + [next], i)
  {
    var longer := history + [next];
    assert longer[i] == history[i];
    match history[i] {
      case WroteObject(k, o) => FinalizedLonger(history, longer, i, Home(k, o));
      case WroteRequest(r) =>
        if r.finalizer || r.outputs {
          WrittenLonger(history, longer, i, WroteRegistration(true));
        }
      case RemovedRequest(r) => WrittenLonger(history, longer, i, WroteRequest(r));
      case Removed(k, o, _) => WrittenLonger(history, longer, i, WroteObject(k, o));
      case Vanished(k, o) => WrittenLonger(history, longer, i, WroteObject(k, o));
      case _ =>
    }
  }

  /** A write that occurred followed what the contract orders before it. */
  lemma OccurredInOrder(history: seq<Write>, x: Write)
    requires OrderOk(history) && x in history
    ensures x.WroteObject? ==> FinalizedBefore(history, |history|, Home(x.k, x.o))
    ensures x.WroteRequest? ==> x.r.key.name != ""
    ensures x.WroteRequest? && (x.r.finalizer || x.r.outputs) ==> ReadyBefore(history, |history|)
    ensures x.WroteRequest? && x.r.finalizer ==> FinalizedBefore(history, |history|, x.r.key)
  {
    var i :| 0 <= i < |history| && history[i] == x;
    assert WriteInOrder(history, i);
    if x.WroteObject? {
      FinalizedLonger(history, history, i, Home(x.k, x.o));
    } else if x.WroteRequest? && (x.r.finalizer || x.r.outputs) {
      WrittenLonger(history, history, i, WroteRegistration(true));
    }
  }

  // What each change needs to keep the invariant.

  lemma ReadyGrows(w: World, next: Write)
    requires w.ready ==> ReadyBefore(w.history, |w.history|)
    ensures w.ready ==> ReadyBefore(w.history + [next], |w.history| + 1)
  {
    if w.ready {
      WrittenLonger(w.history, w.history + [next], |w.history|, WroteRegistration(true));
    }
  }

  /** A request stays the same or is new, and the last one whose finalizer was
      removed stays or is the one that was there. */
  predicate UidsMove(w: World, w': World) {
    && (forall h :: h in w'.requests ==>
          w'.requests[h].uid > |w.history| || (h in w.requests && w'.requests[h].uid == w.requests[h].uid))
    && (forall h :: h in w'.finished ==>
          || (&& h in w.finished && w'.finished[h] == w.finished[h]
              && (Lives(w, h) ==> Lives(w', h) && w'.requests[h].uid == w.requests[h].uid))
          || (h in w.requests && w'.finished[h].uid == w.requests[h].uid))
  }

  lemma TimesStay(w: World, w': World, x: Write)
    requires TimesOk(w) && w'.history == w.history + [x] && UidsMove(w, w') && (x.Removed? ==> Served(w', x.r))
    ensures TimesOk(w')
  {
    forall i | 0 <= i < |w'.history| && w'.history[i].Removed? ensures InTime(w', i, w'.history[i].r) {
      if i < |w.history| {
        assert InTime(w, i, w.history[i].r);
      }
    }
  }

  lemma RowsStayOk(w: World, w': World, x: Write)
    requires RowsOk(w) && w'.opts == w.opts && w'.history == w.history + [x]
    requires x.WroteRequest? ==> RowsAreOf(w.opts, x.r)
    ensures RowsOk(w')
  {}

  /** A further state of a request, or a request that is new. */
  ghost predicate MayPut(w: World, r: Request) {
    && (r.deleting ==> r.finalizer) && (r.finalizer ==> r.registration == w.opts.registration)
    && r.version == NextVersion(w) && RowsAreOf(w.opts, r)
    && r.uid == (if r.key in w.requests then w.requests[r.key].uid else NextVersion(w))
    && (Lives(w, r.key) ==> r.finalizer)
  }

  lemma PutRequestKeeps(w: World, r: Request)
    requires Inv(w) && r.key.name != ""
    requires r.finalizer || r.outputs ==> ReadyBefore(w.history, |w.history|)
    requires w.currentReads ==> MayPut(w, r)
    ensures Inv(PutRequest(w, r))
  {
    var w' := PutRequest(w, r);
    var next := WroteRequest(r);
    assert w'.history[|w.history|] == next && w.history <= w'.history;
    ReadyGrows(w, next);
    if r.finalizer || r.outputs {
      WrittenLonger(w.history, w'.history, |w.history|, WroteRegistration(true));
    }
    OrderStep(w.history, next);
    if w.currentReads {
      PutRequestCurrent(w, r);
    }
  }

  lemma PutRequestCurrent(w: World, r: Request)
    requires CurrentOk(w) && MayPut(w, r)
    ensures CurrentOk(PutRequest(w, r))
  {
    var w' := PutRequest(w, r);
    assert w'.history[|w.history|] == WroteRequest(r);
    PutRequestRequests(w, r);
    PutRequestObjects(w, r);
    HistoryKeepsCopies(w, w');
    PutRequestTimes(w, r);
  }

  lemma PutRequestTimes(w: World, r: Request)
    requires TimesOk(w) && MayPut(w, r)
    ensures TimesOk(PutRequest(w, r))
  {
    TimesStay(w, PutRequest(w, r), WroteRequest(r));
  }

  lemma PutRequestRequests(w: World, r: Request)
    requires RequestsOk(w) && MayPut(w, r)
    ensures RequestsOk(PutRequest(w, r))
  {
    var w' := PutRequest(w, r);
    assert w'.history[|w.history|] == WroteRequest(r);
    forall h | h in w'.requests
      ensures RequestOk(w', h, w'.requests[h])
    {
      assert h in w.requests ==> RequestOk(w, h, w.requests[h]);
    }
    forall h | h in w'.finished
      ensures FinishedOk(w', h, w'.finished[h])
    {
      assert FinishedOk(w, h, w.finished[h]);
    }
    RowsStayOk(w, w', WroteRequest(r));
  }

  lemma PutRequestObjects(w: World, r: Request)
    requires ObjectsOk(w) && MayPut(w, r)
    ensures ObjectsOk(PutRequest(w, r))
  {
    var w' := PutRequest(w, r);
    forall k | k in w'.objects
      ensures ObjectOk(w', k, w'.objects[k])
    {
      assert ObjectOk(w, k, w.objects[k]);
    }
  }

  /** A change of neither the objects nor of what the history says of them. */
  lemma HistoryKeepsCopies(w: World, w': World)
    requires CopiesOk(w) && RemovalsOk(w) && w'.opts == w.opts && w'.objects == w.objects
    requires w.history <= w'.history && |w'.history| == |w.history| + 1
    requires !w'.history[|w.history|].WroteObject? && !w'.history[|w.history|].Removed?
    ensures CopiesOk(w') && RemovalsOk(w')
  {
    forall k, o | WroteObject(k, o) in w'.history
      ensures CopyOk(w', k, o)
    {
      assert WroteObject(k, o) in w.history;
      assert CopyOk(w, k, o);
      TakenStays(w, w', k, o.uid);
      SameWhenTakenStays(w, w', k, o);
    }
    forall k, o, r | Removed(k, o, r) in w'.history
      ensures RemovalOk(w', k, o, r)
    {
      assert Removed(k, o, r) in w.history;
      assert RemovalOk(w, k, o, r);
    }
  }

  /** A write that is no deletion by the controller. */
  lemma SameWhenTakenStays(w: World, w': World, k: ObjKey, o: Obj)
    requires SameWhenTaken(w, k, o) && w.history <= w'.history && |w'.history| == |w.history| + 1
    requires !w'.history[|w.history|].Removed?
    ensures SameWhenTaken(w', k, o)
  {
    forall x, r | Removed(k, x, r) in w'.history && x.uid == o.uid
      ensures x.labels == o.labels
    {
      assert Removed(k, x, r) in w.history;
    }
  }

  lemma TakenStays(w: World, w': World, k: ObjKey, uid: Uid)
    requires w.history <= w'.history
    ensures Taken(w, k, uid) ==> Taken(w', k, uid)
  {
    if Taken(w, k, uid) {
      var o, r :| Removed(k, o, r) in w.history && o.uid == uid;
      assert Removed(k, o, r) in w'.history;
    }
  }

  /** o follows the object at k: it is a new one, or that object, and an object
      of echo keeps its identity and its labels. */
  ghost predicate Follows(w: World, k: ObjKey, o: Obj) {
    && (o.uid == NextVersion(w) || StillAt(w, k, o.uid))
    && (NotOwn(w, k) || (w.objects[k].uid == o.uid && w.objects[k].labels == o.labels))
  }

  /** The state in which the next write is judged: one version later. */
  function Later(w: World): World {
    w.(history := w.history + [WroteOther])
  }

  lemma PutObjectKeeps(w: World, k: ObjKey, o: Obj)
    requires Inv(w)
    requires Own(w.opts, o) ==> FinalizedBefore(w.history, |w.history|, Home(k, o))
    requires w.currentReads ==> ObjectOk(Later(w), k, o) && Follows(w, k, o)
    ensures Inv(PutObject(w, k, o))
  {
    var w' := PutObject(w, k, o);
    var next := w'.history[|w.history|];
    assert w'.history == w.history + [next];
    assert w.history <= w'.history;
    ReadyGrows(w, next);
    if Own(w.opts, o) {
      FinalizedLonger(w.history, w'.history, |w.history|, Home(k, o));
    }
    OrderStep(w.history, next);
    if w.currentReads {
      PutObjectObjects(w, k, o);
      SameRequests(w, w', next);
      PutObjectCopies(w, k, o);
      PutObjectRemovals(w, k, o);
      TimesStay(w, w', next);
    }
  }

  lemma SameRequests(w: World, w': World, x: Write)
    requires RequestsOk(w) && w'.history == w.history + [x] && !x.WroteRequest? && w'.opts == w.opts
    requires w'.requests == w.requests && w'.finished == w.finished
    ensures RequestsOk(w')
  {
    RowsStayOk(w, w', x);
    forall h | h in w'.requests
      ensures RequestOk(w', h, w'.requests[h])
    {
      assert RequestOk(w, h, w.requests[h]);
    }
    forall h | h in w'.finished
      ensures FinishedOk(w', h, w'.finished[h])
    {
      assert FinishedOk(w, h, w.finished[h]);
    }
  }

  lemma PutObjectObjects(w: World, k: ObjKey, o: Obj)
    requires ObjectsOk(w) && ObjectOk(Later(w), k, o)
    ensures ObjectsOk(PutObject(w, k, o))
  {
    var w' := PutObject(w, k, o);
    forall x | x in w'.objects
      ensures ObjectOk(w', x, w'.objects[x])
    {
      assert x != k ==> ObjectOk(w, x, w.objects[x]);
    }
  }

  lemma PutObjectCopies(w: World, k: ObjKey, o: Obj)
    requires CopiesOk(w) && RemovalsOk(w) && ObjectOk(Later(w), k, o) && Follows(w, k, o)
    ensures CopiesOk(PutObject(w, k, o))
  {
    var w' := PutObject(w, k, o);
    forall x, c | WroteObject(x, c) in w'.history
      ensures CopyOk(w', x, c)
    {
      if WroteObject(x, c) in w.history {
        assert CopyOk(w, x, c);
        TakenStays(w, w', x, c.uid);
        SameWhenTakenStays(w, w', x, c);
        if x == k {
          CopyFollows(w, k, o, c);
        }
      } else {
        assert x == k && c == o;
        NewIsNotTaken(w, k, o);
        SameWhenTakenStays(w, w', k, o);
      }
    }
  }

  lemma NewIsNotTaken(w: World, k: ObjKey, o: Obj)
    requires RemovalsOk(w) && Follows(w, k, o)
    ensures SameWhenTaken(w, k, o)
  {
    forall x, r | Removed(k, x, r) in w.history
      ensures x.uid != o.uid
    {
      assert RemovalOk(w, k, x, r);
    }
  }

  /** A copy that o does not follow is of an object that was deleted. */
  lemma CopyFollows(w: World, k: ObjKey, o: Obj, c: Obj)
    requires CopyOk(w, k, c) && RemovalsOk(w) && Follows(w, k, o)
    ensures o.uid == c.uid ==> o.labels == c.labels
    ensures o.uid == c.uid || Taken(w, k, c.uid)
  {
    if Taken(w, k, c.uid) {
      var x, r :| Removed(k, x, r) in w.history && x.uid == c.uid;
      assert RemovalOk(w, k, x, r);
    }
  }

  lemma PutObjectRemovals(w: World, k: ObjKey, o: Obj)
    requires RemovalsOk(w) && Follows(w, k, o)
    ensures RemovalsOk(PutObject(w, k, o))
  {
    var w' := PutObject(w, k, o);
    forall x, c, r | Removed(x, c, r) in w'.history
      ensures RemovalOk(w', x, c, r)
    {
      assert Removed(x, c, r) in w.history;
      assert RemovalOk(w, x, c, r);
    }
  }

  /** What the history may hold of the deletion of the object at k. */
  ghost predicate MayDrop(w: World, k: ObjKey, x: Write) {
    k in w.objects &&
    if Own(w.opts, w.objects[k]) then
      || (x.Removed? && x.k == k && x.o == w.objects[k])
      || x == Vanished(k, w.objects[k])
    else x == GoneWrite(w.opts, k, w.objects[k])
  }

  /** With current reads an object of echo goes by its controller only, with a
      reason. */
  ghost predicate MayTake(w: World, k: ObjKey, x: Write)
    requires k in w.objects
  {
    Own(w.opts, w.objects[k]) ==>
      && x.Removed? && x.r.key == Home(k, w.objects[k]) && WroteRequest(x.r) in w.history && Justified(x.r, k)
      && Served(w, x.r)
  }

  lemma DropObjectKeeps(w: World, k: ObjKey, x: Write)
    requires Inv(w) && MayDrop(w, k, x) && (w.currentReads ==> MayTake(w, k, x))
    ensures Inv(DropObject(w, k, x))
  {
    var w' := DropObject(w, k, x);
    assert w.history <= w'.history && w'.history[|w.history|] == x;
    ReadyGrows(w, x);
    if Own(w.opts, w.objects[k]) {
      assert WrittenBefore(w.history, |w.history|, WroteObject(k, w.objects[k]));
      WrittenLonger(w.history, w'.history, |w.history|, WroteObject(k, w.objects[k]));
    }
    OrderStep(w.history, x);
    if w.currentReads {
      DropObjectCurrent(w, k, x);
    }
  }

  lemma DropObjectCurrent(w: World, k: ObjKey, x: Write)
    requires CurrentOk(w) && MayDrop(w, k, x) && MayTake(w, k, x)
    ensures CurrentOk(DropObject(w, k, x))
  {
    var w' := DropObject(w, k, x);
    SameRequests(w, w', x);
    DropObjectObjects(w, k, x);
    DropObjectCopies(w, k, x);
    DropObjectRemovals(w, k, x);
    TimesStay(w, w', x);
  }

  lemma DropObjectObjects(w: World, k: ObjKey, x: Write)
    requires ObjectsOk(w)
    ensures ObjectsOk(DropObject(w, k, x))
  {
    var w' := DropObject(w, k, x);
    forall y | y in w'.objects
      ensures ObjectOk(w', y, w'.objects[y])
    {
      assert ObjectOk(w, y, w.objects[y]);
    }
  }

  lemma DropObjectCopies(w: World, k: ObjKey, x: Write)
    requires CopiesOk(w) && MayDrop(w, k, x) && MayTake(w, k, x)
    ensures CopiesOk(DropObject(w, k, x))
  {
    var w' := DropObject(w, k, x);
    assert w'.history[|w.history|] == x;
    forall y, c | WroteObject(y, c) in w'.history
      ensures CopyOk(w', y, c)
    {
      assert WroteObject(y, c) in w.history;
      assert CopyOk(w, y, c);
      TakenStays(w, w', y, c.uid);
      if y == k && StillAt(w, k, c.uid) {
        assert Removed(k, x.o, x.r) in w'.history;
      }
      forall z, r | Removed(y, z, r) in w'.history && z.uid == c.uid
        ensures z.labels == c.labels
      {
        assert Removed(y, z, r) in w.history || Removed(y, z, r) == x;
      }
    }
  }

  lemma DropObjectRemovals(w: World, k: ObjKey, x: Write)
    requires RemovalsOk(w) && ObjectsOk(w) && MayDrop(w, k, x) && MayTake(w, k, x)
    ensures RemovalsOk(DropObject(w, k, x))
  {
    var w' := DropObject(w, k, x);
    assert ObjectOk(w, k, w.objects[k]);
    forall y, c, r | Removed(y, c, r) in w'.history
      ensures RemovalOk(w', y, c, r)
    {
      if Removed(y, c, r) in w.history {
        assert RemovalOk(w, y, c, r);
      } else {
        assert Removed(y, c, r) == x;
      }
    }
  }

  // Each step of another client keeps the invariant.

  /** The garbage collector finds no object to collect: each owner of an object
      is a request that exists. */
  lemma NothingToCollect(w: World, k: ObjKey)
    requires CurrentOk(w) && k in w.objects
    ensures !CanStep(w, Collect(k))
  {
    var o := w.objects[k];
    assert ObjectOk(w, k, o);
    if Own(w.opts, o) && o.owners != {} {
      var h := Home(k, o);
      var uid :| uid in o.owners;
      assert w.requests[h].uid == uid;
      assert LiveUid(w, uid);
    }
  }

  lemma PutRequestShrinks(w: World, r: Request)
    requires
      w.currentReads && Lives(w, r.key) ==>
      r.finalizer && r.uid == w.requests[r.key].uid && (w.requests[r.key].deleting ==> r.deleting)
    requires r.version == NextVersion(w)
    ensures Shrinks(w, PutRequest(w, r))
  {}

  lemma DropRequestShrinks(w: World, h: ReqKey)
    requires h in w.requests && (w.currentReads ==> !Lives(w, h))
    ensures Shrinks(w, DropRequest(w, h))
  {}

  /** Rewriting an object with the same labels and no more owners, or one that is
      not of echo. */
  lemma PutObjectShrinks(w: World, k: ObjKey, o: Obj)
    requires
      Own(w.opts, o) && w.currentReads ==>
      k in w.objects && o.uid == w.objects[k].uid && o.labels == w.objects[k].labels && o.owners <= w.objects[k].owners
    requires o.version == NextVersion(w) && (w.currentReads ==> Follows(w, k, o))
    ensures Shrinks(w, PutObject(w, k, o))
  {}

  lemma DropObjectShrinks(w: World, k: ObjKey, x: Write)
    ensures Shrinks(w, DropObject(w, k, x))
  {}

  /** A client writes a further state of a request. */
  lemma ClientPutKeeps(w: World, r: Request)
    requires Inv(w) && r.key in w.requests && r.version == NextVersion(w)
    requires
      var was := w.requests[r.key];
      && r.uid == was.uid && r.registration == was.registration && r.finalizer == was.finalizer
      && r.outputs == was.outputs && r.rows == was.rows && (r.deleting ==> r.finalizer)
    ensures Inv(PutRequest(w, r))
  {
    var was := w.requests[r.key];
    OccurredInOrder(w.history, WroteRequest(was));
    if w.currentReads {
      assert RequestOk(w, r.key, was);
      RowsStay(w.opts, was, r);
    }
    PutRequestKeeps(w, r);
  }

  lemma RowsStay(opts: Options, r: Request, r': Request)
    requires RowsAreOf(opts, r) && r'.rows == r.rows && r'.key == r.key
    ensures RowsAreOf(opts, r')
  {}

  lemma DropRequestKeeps(w: World, h: ReqKey)
    requires Inv(w) && h in w.requests && !w.requests[h].finalizer
    ensures Inv(DropRequest(w, h))
  {
    var w' := DropRequest(w, h);
    var next := RemovedRequest(w.requests[h]);
    assert w.history <= w'.history && w'.history[|w.history|] == next;
    ReadyGrows(w, next);
    assert WrittenBefore(w.history, |w.history|, WroteRequest(w.requests[h]));
    WrittenLonger(w.history, w'.history, |w.history|, WroteRequest(w.requests[h]));
    OrderStep(w.history, next);
    if w.currentReads {
      DropRequestCurrent(w, h);
    }
  }

  lemma DropRequestCurrent(w: World, h: ReqKey)
    requires CurrentOk(w) && h in w.requests && !w.requests[h].finalizer
    ensures CurrentOk(DropRequest(w, h))
  {
    var w' := DropRequest(w, h);
    assert w'.history[|w.history|] == RemovedRequest(w.requests[h]);
    DropRequestRequests(w, h);
    ObjectsCarry(w, w');
    HistoryKeepsCopies(w, w');
    TimesStay(w, w', RemovedRequest(w.requests[h]));
  }

  lemma DropRequestRequests(w: World, h: ReqKey)
    requires RequestsOk(w) && h in w.requests
    ensures RequestsOk(DropRequest(w, h))
  {
    var w' := DropRequest(w, h);
    forall g | g in w'.requests
      ensures RequestOk(w', g, w'.requests[g])
    {
      assert RequestOk(w, g, w.requests[g]);
    }
    forall g | g in w'.finished
      ensures FinishedOk(w', g, w'.finished[g])
    {
      assert FinishedOk(w, g, w.finished[g]);
    }
    RowsStayOk(w, w', RemovedRequest(w.requests[h]));
  }

  /** Objects stay in order while no request that lives goes. */
  lemma ObjectsCarry(w: World, w': World)
    requires ObjectsOk(w) && w'.objects == w.objects && w'.opts == w.opts && w'.finished == w.finished
    requires w.history <= w'.history
    requires forall h :: Lives(w, h) ==> h in w'.requests && w'.requests[h] == w.requests[h]
    ensures ObjectsOk(w')
  {
    forall k | k in w'.objects
      ensures ObjectOk(w', k, w'.objects[k])
    {
      assert ObjectOk(w, k, w.objects[k]);
    }
  }

  lemma SetRegistrationKeeps(w: World, ready: bool)
    requires Inv(w)
    ensures Inv(Stepped(w, SetRegistration(ready)))
  {
    var w' := Stepped(w, SetRegistration(ready));
    assert w'.history[|w.history|] == WroteRegistration(ready) && w.history <= w'.history;
    ReadyGrows(w, WroteRegistration(ready));
    OrderStep(w.history, WroteRegistration(ready));
    if w.currentReads {
      SameRequests(w, w', WroteRegistration(ready));
      ObjectsCarry(w, w');
      HistoryKeepsCopies(w, w');
      TimesStay(w, w', WroteRegistration(ready));
    }
  }

  lemma WriteOthersKeeps(w: World, k: ObjKey, labels: Labels, anew: bool)
    requires Inv(w) && CanStep(w, WriteOthers(k, labels, anew))
    ensures Inv(Stepped(w, WriteOthers(k, labels, anew)))
  {
    var o := Others(w, k, labels, anew);
    if w.currentReads {
      assert k in w.objects ==> ObjectOk(w, k, w.objects[k]);
      assert !Own(w.opts, o);
    }
    PutObjectKeeps(w, k, o);
  }

  lemma TouchObjectKeeps(w: World, k: ObjKey)
    requires Inv(w) && k in w.objects
    ensures Inv(Stepped(w, TouchObject(k)))
  {
    var o := w.objects[k];
    var next := o.(version := NextVersion(w));
    if Own(w.opts, o) {
      OccurredInOrder(w.history, WroteObject(k, o));
    }
    if w.currentReads {
      TouchedOk(w, k);
    }
    PutObjectKeeps(w, k, next);
  }

  lemma TouchedOk(w: World, k: ObjKey)
    requires ObjectsOk(w) && k in w.objects
    ensures
      var next := w.objects[k].(version := NextVersion(w));
      ObjectOk(Later(w), k, next) && Follows(w, k, next)
  {
    assert ObjectOk(w, k, w.objects[k]);
  }

  lemma DropStepKeeps(w: World, k: ObjKey)
    requires Inv(w) && k in w.objects && (w.currentReads ==> NotOwn(w, k))
    ensures Inv(DropObject(w, k, GoneWrite(w.opts, k, w.objects[k])))
  {
    DropObjectKeeps(w, k, GoneWrite(w.opts, k, w.objects[k]));
  }

  lemma CollectKeeps(w: World, k: ObjKey)
    requires Inv(w) && CanStep(w, Collect(k))
    ensures Inv(Stepped(w, Collect(k)))
  {
    if w.currentReads {
      NothingToCollect(w, k);
      assert false;
    } else {
      DropStepKeeps(w, k);
    }
  }

  lemma CreateRequestKeeps(w: World, s: Step)
    requires Inv(w) && CanStep(w, s) && s.CreateRequest?
    ensures Inv(Stepped(w, s))
  {
    PutRequestKeeps(w, Created(w, s.key, s.registration, s.policy, s.grants));
  }

  lemma RequestStepKeeps(w: World, s: Step)
    requires Inv(w) && CanStep(w, s) && (s.ChangeSpec? || s.DeleteRequest? || s.TouchRequest?)
    ensures Inv(Stepped(w, s))
  {
    var r := w.requests[s.key];
    if s.DeleteRequest? && !r.finalizer {
      DropRequestKeeps(w, s.key);
    } else {
      if w.currentReads {
        assert RequestOk(w, s.key, r);
      } else if r.deleting && !r.finalizer {
        StaleTouchKeeps(w, s);
        return;
      }
      ClientPutKeeps(w, Stepped(w, s).requests[s.key]);
    }
  }

  /** With stale reads a request can be in any state that occurred. */
  lemma StaleTouchKeeps(w: World, s: Step)
    requires Inv(w) && !w.currentReads && CanStep(w, s) && (s.ChangeSpec? || s.TouchRequest?)
    ensures Inv(Stepped(w, s))
  {
    OccurredInOrder(w.history, WroteRequest(w.requests[s.key]));
    PutRequestKeeps(w, Stepped(w, s).requests[s.key]);
  }

  /** Each step of another client keeps the invariant. */
  lemma StepInv(w: World, s: Step)
    requires Inv(w) && CanStep(w, s)
    ensures Inv(Stepped(w, s))
  {
    match s {
      case CreateRequest(_, _, _, _) => CreateRequestKeeps(w, s);
      case SetRegistration(ready) => SetRegistrationKeeps(w, ready);
      case ChangeSpec(_, _, _) => RequestStepKeeps(w, s);
      case DeleteRequest(_) => RequestStepKeeps(w, s);
      case TouchRequest(_) => RequestStepKeeps(w, s);
      case WriteOthers(k, labels, anew) => WriteOthersKeeps(w, k, labels, anew);
      case DeleteOthers(k) => DropStepKeeps(w, k);
      case TouchObject(k) => TouchObjectKeeps(w, k);
      case Collect(k) => CollectKeeps(w, k);
    }
  }

  lemma StepShrinks(w: World, s: Step)
    requires CanStep(w, s) && forall h :: h in w.requests ==> w.requests[h].key == h
    ensures Shrinks(w, Stepped(w, s))
  {
    match s {
      case CreateRequest(key, registration, policy, grants) =>
        PutRequestShrinks(w, Created(w, key, registration, policy, grants));
      case SetRegistration(_) =>
      case DeleteRequest(key) =>
        if w.requests[key].finalizer {
          PutRequestShrinks(w, Stepped(w, s).requests[key]);
        } else {
          DropRequestShrinks(w, key);
        }
      case ChangeSpec(key, _, _) => PutRequestShrinks(w, Stepped(w, s).requests[key]);
      case TouchRequest(key) => PutRequestShrinks(w, Stepped(w, s).requests[key]);
      case WriteOthers(k, labels, anew) => PutObjectShrinks(w, k, Others(w, k, labels, anew));
      case TouchObject(k) => PutObjectShrinks(w, k, w.objects[k].(version := NextVersion(w)));
      case DeleteOthers(k) => DropObjectShrinks(w, k, GoneWrite(w.opts, k, w.objects[k]));
      case Collect(k) => DropObjectShrinks(w, k, GoneWrite(w.opts, k, w.objects[k]));
    }
  }

  /** A cluster without requests and objects is where every run can start. */
  function EmptyCluster(opts: Options, currentReads: bool): (w: World)
    ensures Inv(w)
  {
    World(opts, currentReads, map[], map[], map[], false, [])
  }
}
