/** Runs of echo after which an Orphan deletion does not follow the rows of the
    request: whenever the request gives a pass a reason to delete an object, that
    pass can be lost behind the deletion, and the request can then go under
    Orphan. */
module EchoLimits {
  import opened Api
  import opened Cluster
  import opened EchoCalls
  import opened EchoPasses
  import opened EchoVerdicts

  // A pass up to one of its calls.

  predicate IsAtKey(c: Call) {
    c.ApplyAt? || c.TakeAt? || c.ReleaseAt?
  }

  predicate Keyed(w: World, h: ReqKey) {
    h in w.requests && w.requests[h].key == h
  }

  ghost predicate IsOpen(w: World, h: ReqKey, c: Call) {
    IsAtKey(c) && CanCall(w, h, c)
  }

  /** What a call at a key leaves. */
  predicate IsDone(w: World, h: ReqKey, c: Call) {
    match c
    case ApplyAt(k) => Serving(w, h) && IsKeyOf(w.opts, w.requests[h], k) && HasHome(w, k, h)
    case TakeAt(k) => !HasHome(w, k, h)
    case ReleaseAt(k) =>
      && h in w.requests && w.requests[h].deleting
      && (k in w.objects ==> w.requests[h].uid !in w.objects[k].owners)
    case _ => false
  }

  lemma OpenIsDone(w: World, h: ReqKey, c: Call)
    requires Keyed(w, h) && IsOpen(w, h, c) && h.name != ""
    ensures IsDone(Called(w, h, c), h, c) && Called(w, h, c).requests == w.requests
  {
    if c.ApplyAt? {
      assert Home(c.k, Applied(w, c.k, w.requests[h])) == h;
    }
  }

  /** A call changes no other key, and makes or rewrites objects of h only. */
  predicate OnlyAt(w: World, w': World, h: ReqKey, k: ObjKey) {
    && (forall x :: x in w'.objects && x != k ==> x in w.objects && w'.objects[x] == w.objects[x])
    && (forall x :: x in w.objects && x != k ==> x in w'.objects)
    && (k in w'.objects ==>
          HasHome(w', k, h) || (k in w.objects && w'.objects[k].labels == w.objects[k].labels))
    && (h in w.requests && w.requests[h].deleting && HasHome(w', k, h) ==> HasHome(w, k, h))
  }

  lemma CallIsOnlyAt(w: World, h: ReqKey, c: Call)
    requires Keyed(w, h) && IsOpen(w, h, c) && h.name != ""
    ensures
      var w' := Called(w, h, c);
      && OnlyAt(w, w', h, c.k) && w'.opts == w.opts && w'.currentReads == w.currentReads
      && w'.requests == w.requests && w'.finished == w.finished && w.history <= w'.history && w'.ready == w.ready
  {
    if c.ApplyAt? {
      assert Home(c.k, Applied(w, c.k, w.requests[h])) == h;
    }
  }

  /** A call leaves the other calls of the pass possible. */
  lemma OpenStays(w: World, h: ReqKey, c: Call, d: Call)
    requires Keyed(w, h) && IsOpen(w, h, c) && IsOpen(w, h, d) && h.name != ""
    ensures IsOpen(Called(w, h, c), h, d)
  {
    CallIsOnlyAt(w, h, c);
  }

  /** It undoes no call before it. */
  lemma DoneStays(w: World, h: ReqKey, c: Call, d: Call)
    requires Keyed(w, h) && IsOpen(w, h, c) && IsDone(w, h, d) && h.name != ""
    requires IsOpen(w, h, d)
    ensures IsDone(Called(w, h, c), h, d)
  {
    CallIsOnlyAt(w, h, c);
  }

  /** w' is w after the first n calls of a pass for h, all of them at keys. */
  ghost predicate Ran(w: World, w': World, h: ReqKey, calls: seq<Call>, n: nat)
    requires n <= |calls|
  {
    && w'.opts == w.opts && w'.requests == w.requests && w'.finished == w.finished && w'.ready == w.ready
    && w.history <= w'.history
    && (forall i :: 0 <= i < n ==> IsDone(w', h, calls[i]))
    && (forall x :: x in w.objects && Untouched(calls, n, x) ==> x in w'.objects && w'.objects[x] == w.objects[x])
    && (forall x :: x in w'.objects ==>
          HasHome(w', x, h) || (x in w.objects && w'.objects[x].labels == w.objects[x].labels))
    && (Lives(w, h) && w.requests[h].deleting ==> forall x :: HasHome(w', x, h) ==> HasHome(w, x, h))
  }

  predicate Untouched(calls: seq<Call>, n: nat, x: ObjKey)
    requires n <= |calls|
  {
    forall i :: 0 <= i < n && IsAtKey(calls[i]) ==> calls[i].k != x
  }

  ghost predicate AllOpen(w: World, h: ReqKey, calls: seq<Call>, n: nat)
    requires n <= |calls|
  {
    forall i :: 0 <= i < n ==> IsOpen(w, h, calls[i])
  }

  lemma RanOne(w: World, v: World, h: ReqKey, calls: seq<Call>, n: nat)
    requires n < |calls| && Ran(w, v, h, calls, n) && AllOpen(v, h, calls, n + 1)
    requires Keyed(v, h) && h.name != ""
    ensures Ran(w, Called(v, h, calls[n]), h, calls, n + 1)
  {
    CallIsOnlyAt(v, h, calls[n]);
    OpenIsDone(v, h, calls[n]);
    forall i | 0 <= i < n ensures IsDone(Called(v, h, calls[n]), h, calls[i]) {
      assert IsOpen(v, h, calls[i]) && IsDone(v, h, calls[i]);
      DoneStays(v, h, calls[n], calls[i]);
    }
    RanKeepsRest(w, v, Called(v, h, calls[n]), h, calls, n);
  }

  lemma RanKeepsRest(w: World, v: World, v': World, h: ReqKey, calls: seq<Call>, n: nat)
    requires n < |calls| && Ran(w, v, h, calls, n) && IsAtKey(calls[n]) && OnlyAt(v, v', h, calls[n].k)
    requires v'.opts == v.opts && v'.requests == v.requests
    ensures
      forall x :: x in w.objects && Untouched(calls, n + 1, x) ==> x in v'.objects && v'.objects[x] == w.objects[x]
    ensures
      forall x :: x in v'.objects ==>
        HasHome(v', x, h) || (x in w.objects && v'.objects[x].labels == w.objects[x].labels)
    ensures Lives(w, h) && w.requests[h].deleting ==> forall x :: HasHome(v', x, h) ==> HasHome(w, x, h)
  {
    forall x | x in w.objects && Untouched(calls, n + 1, x)
      ensures x in v'.objects && v'.objects[x] == w.objects[x]
    {
      assert Untouched(calls, n, x);
    }
    forall x | x in v'.objects
      ensures HasHome(v', x, h) || (x in w.objects && v'.objects[x].labels == w.objects[x].labels)
    {
      if x == calls[n].k && !HasHome(v', x, h) {
        assert v'.objects[x].labels == v.objects[x].labels;
      }
    }
  }

  lemma AllOpenStay(v: World, h: ReqKey, calls: seq<Call>, n: nat, m: nat)
    requires n < m <= |calls| && AllOpen(v, h, calls, m) && Keyed(v, h) && h.name != ""
    ensures AllOpen(Called(v, h, calls[n]), h, calls, m)
  {
    forall i | 0 <= i < m ensures IsOpen(Called(v, h, calls[n]), h, calls[i]) {
      OpenStays(v, h, calls[n], calls[i]);
    }
  }

  /** A pass whose first n calls are at keys makes them. */
  lemma {:induction false} RunTo(opts: Options, w: World, h: ReqKey, calls: seq<Call>, n: nat, m: nat)
    returns (v: World)
    requires Reached(opts, Node(w, Some(Todo(h, calls, 0)))) && n <= m <= |calls| && AllOpen(w, h, calls, m)
    requires Keyed(w, h) && h.name != ""
    ensures Reached(opts, Node(v, Some(Todo(h, calls, n)))) && Ran(w, v, h, calls, n) && AllOpen(v, h, calls, m)
  {
    if n == 0 {
      v := w;
    } else {
      var u := RunTo(opts, w, h, calls, n - 1, m);
      AllOpenStay(u, h, calls, n - 1, m);
      RanOne(w, u, h, calls, n - 1);
      var next := ReachedNext(opts, Node(u, Some(Todo(h, calls, n - 1))), Next);
      v := next.w;
    }
  }

  // The calls of a pass are possible.

  /** In a pass for a request that is being deleted. */
  lemma CleanCallsAreOpen(w: World, h: ReqKey, listed: seq<ObjKey>)
    requires CanBegin(w, h, listed) && Keyed(w, h) && w.requests[h].deleting
    ensures
      var calls := PassCalls(w, h, listed);
      AllOpen(w, h, calls, |calls| - 1) && calls[|calls| - 1] == DropFinalizer
  {
    var r := w.requests[h];
    if r.policy == Orphan && w.opts.access {
      assert Justified(r, IngressKey(h));
    }
  }

  /** In a pass that serves the request. */
  lemma ServeCallsAreOpen(w: World, h: ReqKey, listed: seq<ObjKey>)
    requires Inv(w) && w.currentReads && CanBegin(w, h, listed) && Keyed(w, h) && h.name != ""
    requires !w.requests[h].deleting && w.requests[h].finalizer
    ensures
      var calls := PassCalls(w, h, listed);
      AllOpen(w, h, calls, |calls| - 1) && calls[|calls| - 1] == WriteRows
  {
    var calls := PassCalls(w, h, listed);
    forall i | 0 <= i < |calls| - 1 ensures IsOpen(w, h, calls[i]) {
      ServeCallIsOpen(w, h, listed, i);
    }
  }

  lemma ServeCallIsOpen(w: World, h: ReqKey, listed: seq<ObjKey>, i: nat)
    requires Inv(w) && w.currentReads && CanBegin(w, h, listed) && Keyed(w, h) && h.name != ""
    requires !w.requests[h].deleting && w.requests[h].finalizer
    requires i < |ServeCalls(w.opts, w.requests[h], listed)| - 1
    ensures IsOpen(w, h, ServeCalls(w.opts, w.requests[h], listed)[i])
  {
    var keys := ObjectKeys(w.opts, w.requests[h]);
    if i < |keys| {
      assert ServeCalls(w.opts, w.requests[h], listed)[i] == ApplyAt(keys[i]);
      ApplyIsOpen(w, h, listed, i);
    } else {
      assert ServeCalls(w.opts, w.requests[h], listed)[i] == TakeAt(listed[i - |keys|]);
      StaleIsOpen(w, h, listed, i - |keys|);
    }
  }

  lemma StaleIsOpen(w: World, h: ReqKey, listed: seq<ObjKey>, i: nat)
    requires CanBegin(w, h, listed) && Keyed(w, h) && !w.requests[h].deleting && w.requests[h].finalizer
    requires i < |listed|
    ensures IsOpen(w, h, TakeAt(listed[i]))
  {
    assert IsStaleGrant(w, listed[i], w.requests[h]);
    UnwantedIsStale(w.opts, w.requests[h], listed[i]);
  }

  lemma ApplyIsOpen(w: World, h: ReqKey, listed: seq<ObjKey>, i: nat)
    requires Inv(w) && w.currentReads && CanBegin(w, h, listed) && Keyed(w, h) && h.name != ""
    requires !w.requests[h].deleting && w.requests[h].finalizer && i < |ObjectKeys(w.opts, w.requests[h])|
    ensures IsOpen(w, h, ApplyAt(ObjectKeys(w.opts, w.requests[h])[i]))
  {
    FreeName(w, ObjectKeys(w.opts, w.requests[h])[i], w.requests[h]);
  }

  // A pass under Orphan, to its end.

  lemma OrphanCleans(w: World, v: World, h: ReqKey, listed: seq<ObjKey>)
    requires Inv(w) && w.currentReads && Inv(v) && v.currentReads && Lives(w, h) && CanBegin(w, h, listed)
    requires w.requests[h].deleting && w.requests[h].policy == Orphan
    requires
      var calls := PassCalls(w, h, listed);
      Ran(w, v, h, calls, |calls| - 1)
    ensures CleanedUp(v, h, Orphan)
  {
    forall k | HasHome(v, k, h) ensures k.kind != Ingress && v.objects[k].owners == {} {
      assert HasHome(w, k, h);
      assert ObjectOk(w, k, w.objects[k]) && ObjectOk(v, k, v.objects[k]);
      if k.kind != StorageClass {
        var i := CallAt(w, h, listed, k);
        assert IsDone(v, h, PassCalls(w, h, listed)[i]);
      }
    }
  }

  /** The call of such a pass at the key of an object that is not a StorageClass. */
  lemma CallAt(w: World, h: ReqKey, listed: seq<ObjKey>, k: ObjKey) returns (i: nat)
    requires Inv(w) && CanBegin(w, h, listed) && w.requests[h].deleting && w.requests[h].policy == Orphan
    requires HasHome(w, k, h) && AtOwnKey(w.opts, h, k) && k.kind != StorageClass
    ensures
      var calls := PassCalls(w, h, listed);
      i < |calls| - 1 && calls[i] == if k.kind == Ingress then TakeAt(k) else ReleaseAt(k)
  {
    match k.kind {
      case ConfigMap => i := 0;
      case Ingress => i := |listed| + 1;
      case Grant =>
        assert IsListedGrant(w, k, h);
        var j :| 0 <= j < |listed| && listed[j] == k;
        i := j + 1;
    }
    OrphanCallIs(w.opts, w.requests[h], listed, i);
  }

  lemma OrphanCallIs(opts: Options, r: Request, listed: seq<ObjKey>, i: nat)
    requires r.policy == Orphan && i < |CleanUpCalls(opts, r, listed)|
    ensures
      var keys := [ConfigMapKey(r.key)] + listed;
      && CleanCalls(opts, r, listed)[i] == CleanUpCalls(opts, r, listed)[i]
      && |CleanUpCalls(opts, r, listed)| == |keys| + |AccessKeys(opts, r.key)|
      && CleanUpCalls(opts, r, listed)[i] ==
         if i < |keys| then ReleaseAt(keys[i]) else TakeAt(IngressKey(r.key))
  {}

  /** The request goes under Orphan. */
  lemma FinishOrphan(opts: Options, w: World, h: ReqKey) returns (v: World)
    requires Reached(opts, Node(w, None)) && Lives(w, h) && h.name != ""
    requires w.requests[h].deleting && w.requests[h].policy == Orphan
    ensures Reached(opts, Node(v, None)) && w.history <= v.history
    ensures h in v.finished && v.finished[h] == w.requests[h] && !Lives(v, h)
  {
    ReachedOk(opts, Node(w, None));
    assert RequestOk(w, h, w.requests[h]);
    var listed := SomeListing(w, h);
    var calls := PassCalls(w, h, listed);
    var n := ReachedNext(opts, Node(w, None), Begin(h, listed));
    CleanCallsAreOpen(w, h, listed);
    var u := RunTo(opts, w, h, calls, |calls| - 1, |calls| - 1);
    ReachedOk(opts, Node(u, Some(Todo(h, calls, |calls| - 1))));
    OrphanCleans(w, u, h, listed);
    v := DropsAndStops(opts, u, h, calls);
  }

  lemma DropsAndStops(opts: Options, u: World, h: ReqKey, calls: seq<Call>) returns (v: World)
    requires calls != [] && calls[|calls| - 1] == DropFinalizer
    requires Reached(opts, Node(u, Some(Todo(h, calls, |calls| - 1)))) && CanCall(u, h, DropFinalizer)
    ensures Reached(opts, Node(v, None)) && v == Finish(u, h)
  {
    var n := ReachedNext(opts, Node(u, Some(Todo(h, calls, |calls| - 1))), Next);
    n := ReachedNext(opts, n, Stop);
    v := n.w;
  }

  // A pass up to the deletion of one object.

  lemma {:induction false} FirstCall(calls: seq<Call>, c: Call, i: nat) returns (n: nat)
    requires i < |calls| && calls[i] == c
    ensures n <= i && calls[n] == c && forall j :: 0 <= j < n ==> calls[j] != c
  {
    if j: nat :| j < i && calls[j] == c {
      n := FirstCall(calls, c, j);
    } else {
      n := i;
    }
  }

  /** The pass reaches the deletion of an object that the request gives a reason
      to delete, and does not touch the object before. */
  lemma TakingCall(w: World, h: ReqKey, listed: seq<ObjKey>, k: ObjKey) returns (n: nat)
    requires Inv(w) && w.currentReads && CanBegin(w, h, listed) && Keyed(w, h) && h.name != ""
    requires HasHome(w, k, h) && Justified(w.requests[h], k) && k.kind != Ingress
    ensures
      var calls := PassCalls(w, h, listed);
      n < |calls| - 1 && calls[n] == TakeAt(k) && Untouched(calls, n, k) && AllOpen(w, h, calls, |calls| - 1)
  {
    var r := w.requests[h];
    var calls := PassCalls(w, h, listed);
    assert ObjectOk(w, k, w.objects[k]);
    if r.deleting {
      CleanCallsAreOpen(w, h, listed);
      var i := DeletingCall(w, h, listed, k);
      n := FirstCall(calls, TakeAt(k), i);
    } else {
      ServeCallsAreOpen(w, h, listed);
      var i := StaleCall(w, h, listed, k);
      n := FirstCall(calls, TakeAt(k), i);
      WantedIsNot(w.opts, r, k);
    }
  }

  lemma DeletingCall(w: World, h: ReqKey, listed: seq<ObjKey>, k: ObjKey) returns (i: nat)
    requires CanBegin(w, h, listed) && w.requests[h].deleting && w.requests[h].policy == Delete && Keyed(w, h)
    requires HasHome(w, k, h) && AtOwnKey(w.opts, h, k)
    ensures
      var calls := PassCalls(w, h, listed);
      i < |calls| - 1 && calls[i] == TakeAt(k) && forall j :: 0 <= j < |calls| - 1 ==> calls[j].TakeAt?
  {
    var keys := FixedKeys(w.opts, h) + listed;
    if k.kind == Grant {
      assert IsListedGrant(w, k, h);
      var j :| 0 <= j < |listed| && listed[j] == k;
      i := |FixedKeys(w.opts, h)| + j;
    } else {
      i := if k.kind == ConfigMap then 0 else if k.kind == StorageClass then 1 else 2;
    }
    assert keys[i] == k;
  }

  lemma StaleCall(w: World, h: ReqKey, listed: seq<ObjKey>, k: ObjKey) returns (i: nat)
    requires CanBegin(w, h, listed) && !w.requests[h].deleting && Keyed(w, h)
    requires HasHome(w, k, h) && Justified(w.requests[h], k) && h.name != ""
    ensures
      var calls := PassCalls(w, h, listed);
      i < |calls| - 1 && calls[i] == TakeAt(k)
  {
    var r := w.requests[h];
    var keys := ObjectKeys(w.opts, r);
    WantedIsNot(w.opts, r, k);
    assert IsStaleGrant(w, k, r);
    var j :| 0 <= j < |listed| && listed[j] == k;
    i := |keys| + j;
  }

  /** The pass deletes the object, and is lost. */
  lemma TakesAndStops(opts: Options, w: World, h: ReqKey, listed: seq<ObjKey>, k: ObjKey) returns (v: World)
    requires Reached(opts, Node(w, None)) && CanBegin(w, h, listed) && h.name != ""
    requires HasHome(w, k, h) && Justified(w.requests[h], k) && k.kind != Ingress
    ensures Reached(opts, Node(v, None)) && w.history <= v.history && v.requests == w.requests
    ensures Removed(k, w.objects[k], w.requests[h]) in v.history
  {
    ReachedOk(opts, Node(w, None));
    assert RequestOk(w, h, w.requests[h]);
    var calls := PassCalls(w, h, listed);
    var n := TakingCall(w, h, listed, k);
    var next := ReachedNext(opts, Node(w, None), Begin(h, listed));
    var u := RunTo(opts, w, h, calls, n, n + 1);
    assert u.objects[k] == w.objects[k];
    next := ReachedNext(opts, Node(u, Some(Todo(h, calls, n))), Next);
    assert next.w.history[|u.history|] == Removed(k, w.objects[k], w.requests[h]);
    next := ReachedNext(opts, next, Stop);
    v := next.w;
  }

  // The theorems.

  /** The request is gone under Orphan, and the object at k, which its row of the
      state read says is kept, is gone as well. */
  ghost predicate LosesKept(w: World, h: ReqKey, read: Request, row: Row, k: ObjKey, before: Obj) {
    && HadRow(w, h, read, row, k) && row.onOrphan == Kept && w.finished[h].policy == Orphan && !Lives(w, h)
    && WroteObject(k, before) in w.history && Home(k, before) == h
    && OrphanProblems(row, k, before, Now(w, k, before), read) != []
  }

  /** A client changes or deletes a request that holds the finalizer. */
  lemma ClientChanges(opts: Options, w: World, s: Step) returns (v: World)
    requires Reached(opts, Node(w, None)) && (s.ChangeSpec? || s.DeleteRequest?)
    requires Lives(w, s.key) && w.requests[s.key].key == s.key
    ensures Reached(opts, Node(v, None)) && w.history <= v.history && Lives(v, s.key)
    ensures
      var r := w.requests[s.key];
      v.requests[s.key] ==
        if s.DeleteRequest? then r.(deleting := true, version := NextVersion(w))
        else r.(policy := s.policy, grants := s.grants, version := NextVersion(w))
  {
    var n := ReachedNext(opts, Node(w, None), Client(s));
    v := n.w;
  }

  /** The request can go under Orphan from any state in which a client can still
      change it. */
  lemma GoesUnderOrphan(opts: Options, w: World, h: ReqKey) returns (v: World)
    requires Reached(opts, Node(w, None)) && Lives(w, h) && h.name != ""
    ensures Reached(opts, Node(v, None)) && w.history <= v.history
    ensures h in v.finished && v.finished[h].uid == w.requests[h].uid && v.finished[h].policy == Orphan
    ensures !Lives(v, h)
  {
    ReachedOk(opts, Node(w, None));
    assert w.requests[h].key == h;
    var u := ClientChanges(opts, w, ChangeSpec(h, Orphan, w.requests[h].grants));
    u := ClientChanges(opts, u, DeleteRequest(h));
    v := FinishOrphan(opts, u, h);
  }

  /** The condition of OrphanKeepsWanted is needed: wherever a run has a state of
      the request that gives a pass a reason to delete the object of a row that
      says Kept, and a pass that gets as far as its calls, the run goes on to a
      state in which the request went under Orphan and the object is gone. */
  lemma ReasonLoses(opts: Options, w: World, h: ReqKey, listed: seq<ObjKey>, row: Row, k: ObjKey) returns (v: World)
    requires Reached(opts, Node(w, None)) && CanBegin(w, h, listed) && h.name != "" && opts.registration != ""
    requires HasHome(w, k, h) && Justified(w.requests[h], k)
    requires row in w.requests[h].rows && row.onOrphan == Kept && row.kind == k.kind && row.name == k.name
    ensures Reached(opts, Node(v, None)) && w.history <= v.history
    ensures LosesKept(v, h, w.requests[h], row, k, w.objects[k])
  {
    ReachedOk(opts, Node(w, None));
    assert RequestOk(w, h, w.requests[h]);
    RowsFollowKind(w, w.requests[h], row);
    var u := TakesAndStops(opts, w, h, listed, k);
    v := GoesUnderOrphan(opts, u, h);
    ReachedOk(opts, Node(v, None));
    assert Removed(k, w.objects[k], w.requests[h]) in v.history;
    OrphanFollowsItsRows(v, h, w.requests[h], row, k, w.objects[k]);
  }

  // Two runs from the empty cluster.

  /** The request with its Grants is served, and there are no other objects. */
  ghost predicate IsAlone(w: World, h: ReqKey, policy: Policy, names: seq<string>) {
    && Lives(w, h) && !w.requests[h].deleting && w.ready && w.requests[h].registration == w.opts.registration
    && w.requests[h].policy == policy && w.requests[h].grants == Some(names)
    && w.requests[h].rows == RowsOf(w.opts, h, names)
    && (forall k :: k in w.objects ==> HasHome(w, k, h))
    && (forall i :: 0 <= i < |ObjectKeys(w.opts, w.requests[h])| ==>
          HasHome(w, ObjectKeys(w.opts, w.requests[h])[i], h))
  }

  /** The registration is ready, and the request gets the finalizer. */
  lemma GetsFinalizer(opts: Options, h: ReqKey, policy: Policy, names: seq<string>) returns (w: World)
    requires h.name != ""
    ensures Reached(opts, Node(w, None)) && Lives(w, h) && !w.requests[h].deleting && w.ready && w.objects == map[]
    ensures w.requests[h].registration == opts.registration && w.requests[h].policy == policy
    ensures w.requests[h].grants == Some(names)
  {
    ReachedFirst(opts);
    var n := ReachedNext(opts, Empty(opts), Client(CreateRequest(h, opts.registration, policy, Some(names))));
    n := ReachedNext(opts, n, Client(SetRegistration(true)));
    n := ReachedNext(opts, n, Begin(h, []));
    n := ReachedNext(opts, n, Next);
    n := ReachedNext(opts, n, Stop);
    w := n.w;
  }

  /** A pass that serves a request in a cluster without objects applies them all. */
  lemma AppliesAll(opts: Options, w: World, h: ReqKey) returns (u: World)
    requires Reached(opts, Node(w, None)) && Lives(w, h) && !w.requests[h].deleting && w.ready && w.objects == map[]
    requires w.requests[h].registration == opts.registration && w.requests[h].grants.Some? && h.name != ""
    ensures
      var calls := ServeCalls(opts, w.requests[h], []);
      && Reached(opts, Node(u, Some(Todo(h, calls, |calls| - 1)))) && calls[|calls| - 1] == WriteRows
      && Ran(w, u, h, calls, |calls| - 1)
  {
    ReachedOk(opts, Node(w, None));
    assert RequestOk(w, h, w.requests[h]);
    NothingInTheWay(w, h);
    var n := ReachedNext(opts, Node(w, None), Begin(h, []));
    var calls := PassCalls(w, h, []);
    ServeCallsAreOpen(w, h, []);
    u := RunTo(opts, w, h, calls, |calls| - 1, |calls| - 1);
  }

  lemma NothingInTheWay(w: World, h: ReqKey)
    requires Lives(w, h) && !w.requests[h].deleting && w.ready && w.objects == map[]
    requires w.requests[h].registration == w.opts.registration && w.requests[h].grants.Some?
    ensures CanBegin(w, h, [])
  {}

  lemma AppliedAreHome(w: World, u: World, h: ReqKey, calls: seq<Call>)
    requires h in w.requests && w.requests[h].grants.Some? && w.objects == map[]
    requires calls == ServeCalls(w.opts, w.requests[h], []) && Ran(w, u, h, calls, |calls| - 1)
    ensures forall k :: k in u.objects ==> HasHome(u, k, h)
    ensures
      var keys := ObjectKeys(w.opts, w.requests[h]);
      forall i :: 0 <= i < |keys| ==> HasHome(u, keys[i], h)
  {
    var keys := ObjectKeys(w.opts, w.requests[h]);
    forall i | 0 <= i < |keys| ensures HasHome(u, keys[i], h) {
      assert calls[i] == ApplyAt(keys[i]) && IsDone(u, h, calls[i]);
    }
  }

  /** It then writes the status. */
  lemma GetsServed(opts: Options, h: ReqKey, policy: Policy, names: seq<string>) returns (v: World)
    requires h.name != ""
    ensures Reached(opts, Node(v, None)) && IsAlone(v, h, policy, names)
  {
    var w := GetsFinalizer(opts, h, policy, names);
    ReachedOk(opts, Node(w, None));
    var u := AppliesAll(opts, w, h);
    var calls := ServeCalls(opts, w.requests[h], []);
    AppliedAreHome(w, u, h, calls);
    var n := ReachedNext(opts, Node(u, Some(Todo(h, calls, |calls| - 1))), Next);
    WritesOnlyRows(u, n.w, h, names);
    n := ReachedNext(opts, n, Stop);
    v := n.w;
  }

  lemma WritesOnlyRows(u: World, v: World, h: ReqKey, names: seq<string>)
    requires CanCall(u, h, WriteRows) && v == Called(u, h, WriteRows) && Keyed(u, h)
    requires u.requests[h].grants == Some(names)
    ensures v.objects == u.objects && v.opts == u.opts && v.ready == u.ready && Lives(v, h)
    ensures v.requests[h].rows == RowsOf(u.opts, h, names)
    ensures
      v.requests[h].(rows := [], outputs := true, version := 0) ==
      u.requests[h].(rows := [], outputs := true, version := 0)
    ensures ObjectKeys(v.opts, v.requests[h]) == ObjectKeys(u.opts, u.requests[h])
  {}

  /** A name at which nothing but objects of the request is, is free for it. */
  lemma AloneIsFree(w: World, h: ReqKey, r: Request)
    requires Inv(w) && w.currentReads && h.name != "" && r.key == h && r.grants.Some?
    requires forall k :: k in w.objects ==> HasHome(w, k, h)
    ensures
      forall i :: 0 <= i < |ObjectKeys(w.opts, r)| ==> NameIsFree(w, ObjectKeys(w.opts, r)[i], r)
  {
    forall i | 0 <= i < |ObjectKeys(w.opts, r)| && ObjectKeys(w.opts, r)[i] in w.objects
      ensures NameIsFree(w, ObjectKeys(w.opts, r)[i], r)
    {
      assert IsKeyOf(w.opts, r, ObjectKeys(w.opts, r)[i]);
      OwnHasHome(w, ObjectKeys(w.opts, r)[i], r);
    }
  }

  /** The spec stops to want a Grant, the controller deletes it, and the pass is
      lost before it writes the status. Then the request goes under Orphan: the
      row of the Grant says Kept, and it is gone. */
  lemma StaleGrantIsLost(opts: Options, h: ReqKey, names: seq<string>, fewer: seq<string>, g: string)
    returns (v: World, read: Request, before: Obj)
    requires opts.registration != "" && h.name != "" && g in names && g !in fewer
    ensures Reached(opts, Node(v, None)) && read.policy == Orphan
    ensures LosesKept(v, h, read, Row(Grant, g, Kept), GrantKey(h, g), before)
  {
    var w := GetsServed(opts, h, Orphan, names);
    ReachedOk(opts, Node(w, None));
    assert RequestOk(w, h, w.requests[h]);
    WantedAreKeys(opts, w.requests[h]);
    RowOfGrant(opts, h, names, g);
    var n := ReachedNext(opts, Node(w, None), Client(ChangeSpec(h, Orphan, Some(fewer))));
    AloneIsFree(n.w, h, n.w.requests[h]);
    var stale := SomeStale(n.w, n.w.requests[h]);
    read, before := n.w.requests[h], n.w.objects[GrantKey(h, g)];
    v := ReasonLoses(opts, n.w, h, stale, Row(Grant, g, Kept), GrantKey(h, g));
  }

  lemma RowOfGrant(opts: Options, h: ReqKey, names: seq<string>, g: string)
    requires g in names
    ensures Row(Grant, g, Kept) in RowsOf(opts, h, names)
  {
    var i :| 0 <= i < |names| && names[i] == g;
    var rows := RowsOf(opts, h, names);
    assert rows[|rows| - |names| + i] == Row(Grant, g, Kept);
  }

  /** The request is deleted with Delete, the controller deletes the ConfigMap,
      and the pass is lost. Then the policy changes to Orphan: the row of the
      ConfigMap says Kept, and it is gone. */
  lemma PolicyChangeIsLate(opts: Options, h: ReqKey, names: seq<string>) returns (v: World, read: Request, before: Obj)
    requires opts.registration != "" && h.name != ""
    ensures Reached(opts, Node(v, None)) && read.policy == Delete && read.deleting
    ensures LosesKept(v, h, read, Row(ConfigMap, ConfigMapKey(h).name, Kept), ConfigMapKey(h), before)
  {
    var w := GetsServed(opts, h, Delete, names);
    ReachedOk(opts, Node(w, None));
    assert RequestOk(w, h, w.requests[h]);
    assert ObjectKeys(opts, w.requests[h])[0] == ConfigMapKey(h);
    assert RowsOf(opts, h, names)[0] == Row(ConfigMap, ConfigMapKey(h).name, Kept);
    var n := ReachedNext(opts, Node(w, None), Client(DeleteRequest(h)));
    var listed := SomeListing(n.w, h);
    read, before := n.w.requests[h], n.w.objects[ConfigMapKey(h)];
    v := ReasonLoses(opts, n.w, h, listed, Row(ConfigMap, ConfigMapKey(h).name, Kept), ConfigMapKey(h));
  }
}
