/** What the echo controller writes, as functions on the state of the cluster: each
    of its calls, the calls of a pass in their order, and what each keeps. */
module EchoCalls {
  import opened Api
  import opened Cluster

  // What the calls of the controller keep.

  /** Like Shrinks, except that objects of the request h may be new. */
  ghost predicate Serves(w: World, w': World, h: ReqKey) {
    && w'.opts == w.opts && w'.currentReads == w.currentReads
    && w.history <= w'.history
    && w'.finished == w.finished
    && (w.currentReads ==> forall g :: Lives(w, g) ==> LivesOn(w, w', g))
    && (w.currentReads ==> RequestsVersioned(w, w'))
    && (w.currentReads ==> forall k :: k in w'.objects && Own(w.opts, w'.objects[k]) ==>
          StillThere(w, w', k) || Home(k, w'.objects[k]) == h)
  }

  lemma ShrinksServes(w: World, w': World, h: ReqKey)
    requires Shrinks(w, w')
    ensures Serves(w, w', h)
  {}

  lemma ServesTrans(a: World, b: World, c: World, h: ReqKey)
    requires Serves(a, b, h) && Serves(b, c, h)
    ensures Serves(a, c, h)
  {
    forall k | a.currentReads && k in c.objects && Own(a.opts, c.objects[k])
      ensures StillThere(a, c, k) || Home(k, c.objects[k]) == h
    {
      if StillThere(b, c, k) {
        assert StillThere(a, b, k) || Home(k, b.objects[k]) == h;
      }
    }
    forall g | a.currentReads && Lives(a, g)
      ensures LivesOn(a, c, g)
    {
      assert LivesOn(a, b, g) && LivesOn(b, c, g);
    }
  }

  /** No object of another request is at k. */
  predicate Free(w: World, k: ObjKey, h: ReqKey) {
    NotOwn(w, k) || Home(k, w.objects[k]) == h
  }

  predicate FreeUpTo(w: World, keys: seq<ObjKey>, n: nat, h: ReqKey)
    requires n <= |keys|
  {
    forall j :: 0 <= j < n ==> Free(w, keys[j], h)
  }

  lemma FreeStays(w: World, w': World, k: ObjKey, h: ReqKey)
    requires w.currentReads && Serves(w, w', h) && Free(w, k, h)
    ensures Free(w', k, h)
  {
    if k in w'.objects && Own(w.opts, w'.objects[k]) && StillThere(w, w', k) {
      assert Home(k, w'.objects[k]) == Home(k, w.objects[k]);
    }
  }

  lemma HomeWasThere(w: World, w': World, k: ObjKey, h: ReqKey)
    requires w.currentReads && Shrinks(w, w') && HasHome(w', k, h)
    ensures HasHome(w, k, h) && w'.objects[k].owners <= w.objects[k].owners
  {
    assert StillThere(w, w', k);
  }

  /** Two states of one request with one spec. */
  predicate SameSpec(a: Request, b: Request) {
    a.key == b.key && a.uid == b.uid && a.registration == b.registration && a.policy == b.policy && a.grants == b.grants
  }

  /** The object at k after server-side apply for r. */
  function Applied(w: World, k: ObjKey, r: Request): Obj {
    var cluster := k.kind == StorageClass;
    var was := if k in w.objects then w.objects[k] else Obj(NextVersion(w), 0, Labels("", "", None), {});
    Obj(was.uid, NextVersion(w),
        Labels(w.opts.registration, r.key.name, if cluster then Some(r.key.ns) else was.labels.requestNamespace),
        was.owners + if cluster then {} else {r.uid})
  }

  lemma ServedStays(w: World, w': World, h: ReqKey, r: Request)
    requires w.currentReads && Served(w, r) && Serves(w, w', h)
    ensures Served(w', r)
  {
    assert LivesOn(w, w', r.key);
  }

  /** The steps of other clients leave the request that was read. */
  lemma ServedOn(w: World, w': World, r: Request)
    requires Shrinks(w, w') && (w.currentReads ==> Served(w, r))
    ensures w.currentReads ==> Served(w', r)
  {
    if w.currentReads {
      assert LivesOn(w, w', r.key);
    }
  }

  lemma ApplyKeeps(w: World, k: ObjKey, r: Request)
    requires Inv(w) && r.key.name != "" && FinalizedBefore(w.history, |w.history|, r.key)
    requires IsKeyOf(w.opts, r, k) && (w.currentReads ==> Served(w, r) && Free(w, k, r.key))
    ensures Inv(PutObject(w, k, Applied(w, k, r)))
  {
    var o := Applied(w, k, r);
    assert Home(k, o) == r.key;
    if w.currentReads {
      ApplyFollows(w, k, r);
      assert ObjectOk(Later(w), k, o);
    }
    PutObjectKeeps(w, k, o);
  }

  lemma ApplyFollows(w: World, k: ObjKey, r: Request)
    requires CurrentOk(w) && Served(w, r) && IsKeyOf(w.opts, r, k) && Free(w, k, r.key)
    ensures Follows(w, k, Applied(w, k, r))
    ensures Applied(w, k, r).uid <= |w.history| + 1
    ensures Applied(w, k, r).owners <= {r.uid} && (k.kind == StorageClass ==> Applied(w, k, r).owners == {})
  {
    if k in w.objects {
      assert ObjectOk(w, k, w.objects[k]);
    }
  }

  /** Server-side apply leaves the owners and the UID that an object has. */
  lemma AppliedKeeps(w: World, k: ObjKey, r: Request)
    requires k in w.objects
    ensures Applied(w, k, r).uid == w.objects[k].uid && w.objects[k].owners <= Applied(w, k, r).owners
    ensures k.kind != StorageClass ==> Applied(w, k, r).owners == w.objects[k].owners + {r.uid}
  {}

  lemma ApplyServes(w: World, k: ObjKey, r: Request)
    requires IsKeyOf(w.opts, r, k)
    ensures Serves(w, PutObject(w, k, Applied(w, k, r)), r.key)
    ensures r.key.name != "" ==> Written(PutObject(w, k, Applied(w, k, r)).history, k, r.key)
  {
    var w' := PutObject(w, k, Applied(w, k, r));
    assert Home(k, Applied(w, k, r)) == r.key;
    assert w'.history[|w.history|] == ObjectWrite(w.opts, k, Applied(w, k, r));
  }

  /** An object of h was written at k. */
  ghost predicate Written(history: seq<Write>, k: ObjKey, h: ReqKey) {
    exists o :: WroteObject(k, o) in history && Home(k, o) == h
  }

  /** The request of r is as it was read. */
  predicate IsNow(w: World, r: Request) {
    r.key in w.requests && w.requests[r.key] == r
  }

  /** A request with the version of read is still as it was read. */
  ghost predicate Current(w: World, read: Request) {
    && read.version <= |w.history|
    && (read.key in w.requests && w.requests[read.key].version == read.version ==> w.requests[read.key] == read)
  }

  lemma CurrentStays(w: World, w': World, read: Request)
    requires w.history <= w'.history && RequestsVersioned(w, w') && Current(w, read)
    ensures Current(w', read)
  {}

  /** What the history holds when a pass that read r deletes the object at k. */
  function TakeWrite(w: World, k: ObjKey, r: Request): Write
    requires k in w.objects
  {
    if Own(w.opts, w.objects[k]) then Removed(k, w.objects[k], r) else GoneWrite(w.opts, k, w.objects[k])
  }

  /** The deletion of an object that still has the UID that was read. */
  lemma DeleteObjectKeeps(before: World, w: World, k: ObjKey, uid: Uid, r: Request)
    requires Inv(w) && Shrinks(before, w) && k in w.objects && w.objects[k].uid == uid
    requires WroteRequest(r) in before.history && Justified(r, k)
    requires w.currentReads ==> HasHome(before, k, r.key) && before.objects[k].uid == uid && uid <= |before.history|
    requires w.currentReads ==> Served(before, r)
    ensures
      var w' := DropObject(w, k, TakeWrite(w, k, r));
      Inv(w') && Shrinks(before, w')
  {
    if w.currentReads {
      assert SameObject(before, w, k) && LivesOn(before, w, r.key);
    }
    DropObjectKeeps(w, k, TakeWrite(w, k, r));
    DropObjectShrinks(w, k, TakeWrite(w, k, r));
    ShrinksTrans(before, w, DropObject(w, k, TakeWrite(w, k, r)));
  }

  lemma ReleaseKeeps(w: World, k: ObjKey, owners: set<Uid>)
    requires Inv(w) && k in w.objects && (w.currentReads ==> owners <= w.objects[k].owners)
    ensures
      var o := w.objects[k].(owners := owners, version := NextVersion(w));
      Inv(PutObject(w, k, o)) && Shrinks(w, PutObject(w, k, o))
  {
    var o := w.objects[k].(owners := owners, version := NextVersion(w));
    if Own(w.opts, o) {
      OccurredInOrder(w.history, WroteObject(k, w.objects[k]));
    }
    if w.currentReads {
      assert ObjectOk(w, k, w.objects[k]);
      assert ObjectOk(Later(w), k, o);
    }
    PutObjectKeeps(w, k, o);
    PutObjectShrinks(w, k, o);
  }

  /** What the policy leaves of the objects of h. */
  ghost predicate CleanedUp(w: World, h: ReqKey, policy: Policy) {
    forall k :: HasHome(w, k, h) ==> policy == Orphan && k.kind != Ingress && w.objects[k].owners == {}
  }

  /** The removal of the finalizer of a request that is being deleted. */
  function Finish(w: World, h: ReqKey): World
    requires h in w.requests
  {
    DropRequest(w, h).(finished := w.finished[h := w.requests[h]])
  }

  lemma FinishKeeps(w: World, h: ReqKey)
    requires Inv(w) && h in w.requests && (w.currentReads ==> CleanedUp(w, h, w.requests[h].policy))
    ensures Inv(Finish(w, h))
  {
    var w' := Finish(w, h);
    var next := RemovedRequest(w.requests[h]);
    assert w.history <= w'.history && w'.history[|w.history|] == next;
    ReadyGrows(w, next);
    assert WrittenBefore(w.history, |w.history|, WroteRequest(w.requests[h]));
    WrittenLonger(w.history, w'.history, |w.history|, WroteRequest(w.requests[h]));
    OrderStep(w.history, next);
    if w.currentReads {
      FinishCurrent(w, h);
    }
  }

  lemma FinishCurrent(w: World, h: ReqKey)
    requires CurrentOk(w) && h in w.requests && CleanedUp(w, h, w.requests[h].policy)
    ensures CurrentOk(Finish(w, h))
  {
    var w' := Finish(w, h);
    assert w'.history[|w.history|] == RemovedRequest(w.requests[h]);
    FinishRequests(w, h);
    FinishObjects(w, h);
    HistoryKeepsCopies(w, w');
    TimesStay(w, w', RemovedRequest(w.requests[h]));
  }

  lemma FinishRequests(w: World, h: ReqKey)
    requires RequestsOk(w) && h in w.requests
    ensures RequestsOk(Finish(w, h))
  {
    var w' := Finish(w, h);
    forall g | g in w'.requests
      ensures RequestOk(w', g, w'.requests[g])
    {
      assert RequestOk(w, g, w.requests[g]);
    }
    forall g | g in w'.finished
      ensures FinishedOk(w', g, w'.finished[g])
    {
      assert if g == h then RequestOk(w, h, w.requests[h]) else FinishedOk(w, g, w.finished[g]);
    }
    RowsStayOk(w, w', RemovedRequest(w.requests[h]));
  }

  lemma FinishObjects(w: World, h: ReqKey)
    requires ObjectsOk(w) && h in w.requests && CleanedUp(w, h, w.requests[h].policy)
    ensures ObjectsOk(Finish(w, h))
  {
    var w' := Finish(w, h);
    forall k | k in w'.objects
      ensures ObjectOk(w', k, w'.objects[k])
    {
      assert ObjectOk(w, k, w.objects[k]);
      assert HasHome(w, k, h) ==> w.requests[h].policy == Orphan;
    }
  }

  lemma UpdateKeeps(before: World, w: World, read: Request, next: Request)
    requires Inv(w) && ReadyBefore(before.history, |before.history|) && Shrinks(before, w)
    requires read.key in w.requests && w.requests[read.key].version == read.version
    requires w.currentReads ==> Current(before, read) && RowsAreOf(w.opts, next)
    requires next.finalizer && next.deleting == read.deleting && SameSpec(next, read)
    requires next.registration == w.opts.registration && next.version == NextVersion(w)
    ensures Inv(PutRequest(w, next)) && Shrinks(before, PutRequest(w, next))
    ensures WroteRequest(next) in PutRequest(w, next).history
  {
    WrittenLonger(before.history, w.history, |before.history|, WroteRegistration(true));
    OccurredInOrder(w.history, WroteRequest(w.requests[read.key]));
    if w.currentReads {
      CurrentStays(before, w, read);
    }
    PutRequestKeeps(w, next);
    PutRequestShrinks(w, next);
    ShrinksTrans(before, w, PutRequest(w, next));
    assert PutRequest(w, next).history[|w.history|] == WroteRequest(next);
  }

  lemma CleanedUpStays(w: World, w': World, h: ReqKey, policy: Policy)
    requires w.currentReads && Shrinks(w, w') && CleanedUp(w, h, policy)
    ensures CleanedUp(w', h, policy)
  {
    forall k | HasHome(w', k, h)
      ensures policy == Orphan && k.kind != Ingress && w'.objects[k].owners == {}
    {
      HomeWasThere(w, w', k, h);
    }
  }

  // The objects of a request.

  /** obj carries the request label of r and, when it is cluster-scoped, no
      request namespace label other than the namespace of r. */
  predicate OfRequest(k: ObjKey, obj: Obj, r: Request) {
    obj.labels.request == r.key.name &&
    (k.kind != StorageClass || obj.labels.requestNamespace.None? || obj.labels.requestNamespace.value == r.key.ns)
  }

  function FixedKeys(opts: Options, h: ReqKey): seq<ObjKey> {
    [ConfigMapKey(h), StorageClassKey(h)] + if opts.access then [IngressKey(h)] else []
  }

  function ObjectKeys(opts: Options, r: Request): (keys: seq<ObjKey>)
    requires r.grants.Some?
    ensures AreKeysOf(opts, r, keys)
  {
    FixedKeys(opts, r.key) +
    seq(|r.grants.value|, i requires 0 <= i < |r.grants.value| => GrantKey(r.key, r.grants.value[i]))
  }

  /** The names of the objects of r. */
  lemma KeysAre(opts: Options, r: Request, k: ObjKey)
    requires r.grants.Some?
    ensures
      k in ObjectKeys(opts, r) <==>
      || k == ObjKey(ConfigMap, r.key.ns, r.key.name + "-echo")
      || k == ObjKey(StorageClass, "", r.key.ns + "-" + r.key.name + "-echo")
      || (opts.access && k == ObjKey(Ingress, r.key.ns, r.key.name + "-echo"))
      || (k.kind == Grant && k.ns == r.key.ns && k.name in r.grants.value)
  {
    var keys := ObjectKeys(opts, r);
    assert keys[0] == ConfigMapKey(r.key) && keys[1] == StorageClassKey(r.key);
    assert opts.access ==> keys[2] == IngressKey(r.key);
    WantedAreKeys(opts, r);
    assert k.kind == Grant && k.ns == r.key.ns ==> k == GrantKey(r.key, k.name);
  }

  predicate AreKeysOf(opts: Options, r: Request, keys: seq<ObjKey>) {
    forall i :: 0 <= i < |keys| ==> IsKeyOf(opts, r, keys[i])
  }

  /** In current reads, an object at a key of r that is of the request and of the
      registration has the request as its home. */
  lemma OwnHasHome(w: World, k: ObjKey, r: Request)
    requires CurrentOk(w) && k in w.objects
    requires k.kind != StorageClass ==> k.ns == r.key.ns
    ensures OfRequest(k, w.objects[k], r) && Own(w.opts, w.objects[k]) <==> r.key.name != "" && HasHome(w, k, r.key)
    ensures w.objects[k].uid <= |w.history| && w.objects[k].version <= |w.history|
  {
    assert ObjectOk(w, k, w.objects[k]);
  }

  /** What deleteOwn judges of an object that it reads. */
  lemma ReadIsOwn(w: World, k: ObjKey, r: Request)
    requires Inv(w) && WroteRequest(r) in w.history && (k.kind == StorageClass || k.ns == r.key.ns)
    ensures
      w.currentReads && k in w.objects ==>
      && (OfRequest(k, w.objects[k], r) && w.objects[k].labels.registration == w.opts.registration <==>
          HasHome(w, k, r.key))
      && w.objects[k].uid <= |w.history|
  {
    OccurredInOrder(w.history, WroteRequest(r));
    if w.currentReads && k in w.objects {
      OwnHasHome(w, k, r);
    }
  }

  lemma WantedAreKeys(opts: Options, r: Request)
    requires r.grants.Some?
    ensures forall name :: name in r.grants.value ==> GrantKey(r.key, name) in ObjectKeys(opts, r)
  {
    forall name | name in r.grants.value ensures GrantKey(r.key, name) in ObjectKeys(opts, r) {
      var i :| 0 <= i < |r.grants.value| && r.grants.value[i] == name;
      assert ObjectKeys(opts, r)[|FixedKeys(opts, r.key)| + i] == GrantKey(r.key, name);
    }
  }

  lemma UnwantedIsStale(opts: Options, r: Request, k: ObjKey)
    requires r.grants.Some? && r.finalizer && !r.deleting
    requires k.kind == Grant && k.ns == r.key.ns && k !in ObjectKeys(opts, r)
    ensures Justified(r, k)
  {
    WantedAreKeys(opts, r);
    assert k == GrantKey(r.key, k.name);
  }

  lemma FreeName(w: World, k: ObjKey, r: Request)
    requires Inv(w) && w.currentReads && IsKeyOf(w.opts, r, k) && NameIsFree(w, k, r) && r.key.name != ""
    ensures Free(w, k, r.key)
  {
    if k in w.objects {
      OwnHasHome(w, k, r);
    }
  }

  lemma WantedIsNot(opts: Options, r: Request, k: ObjKey)
    requires r.grants.Some? && k.kind == Grant && k.name !in r.grants.value
    ensures k !in ObjectKeys(opts, r)
  {
    assert AreKeysOf(opts, r, ObjectKeys(opts, r));
  }

  predicate IsListedGrant(w: World, k: ObjKey, h: ReqKey) {
    && k in w.objects && k.kind == Grant && k.ns == h.ns
    && w.objects[k].labels.registration == w.opts.registration && w.objects[k].labels.request == h.name
  }

  /** The listed Grants are the Grants of the request. */
  lemma ListedIsHome(w: World, k: ObjKey, h: ReqKey)
    requires h.name != "" && k.kind == Grant
    ensures IsListedGrant(w, k, h) <==> HasHome(w, k, h)
  {}

  // The calls of a pass.

  /** A call with which a pass can write. */
  datatype Call =
    | AddFinalizer
    | ApplyAt(k: ObjKey)
    | TakeAt(k: ObjKey)     // deleteOwn
    | ReleaseAt(k: ObjKey)  // releaseOwner
    | WriteRows
    | DropFinalizer

  function Takes(keys: seq<ObjKey>): seq<Call> {
    seq(|keys|, i requires 0 <= i < |keys| => TakeAt(keys[i]))
  }

  function Releases(keys: seq<ObjKey>): seq<Call> {
    seq(|keys|, i requires 0 <= i < |keys| => ReleaseAt(keys[i]))
  }

  function Applies(keys: seq<ObjKey>): seq<Call> {
    seq(|keys|, i requires 0 <= i < |keys| => ApplyAt(keys[i]))
  }

  /** The calls of applyObjects, in their order. */
  function ApplyCalls(opts: Options, r: Request, stale: seq<ObjKey>): seq<Call>
    requires r.grants.Some?
  {
    Applies(ObjectKeys(opts, r)) + Takes(stale)
  }

  /** Those and the call of writeStatus. */
  function ServeCalls(opts: Options, r: Request, stale: seq<ObjKey>): seq<Call>
    requires r.grants.Some?
  {
    ApplyCalls(opts, r, stale) + [WriteRows]
  }

  function AccessKeys(opts: Options, h: ReqKey): seq<ObjKey> {
    if opts.access then [IngressKey(h)] else []
  }

  /** The calls of cleanUp, in their order. */
  function CleanUpCalls(opts: Options, r: Request, listed: seq<ObjKey>): seq<Call> {
    if r.policy == Delete then Takes(FixedKeys(opts, r.key) + listed)
    else Releases([ConfigMapKey(r.key)] + listed) + Takes(AccessKeys(opts, r.key))
  }

  /** Those and the removal of the finalizer. */
  function CleanCalls(opts: Options, r: Request, listed: seq<ObjKey>): seq<Call> {
    CleanUpCalls(opts, r, listed) + [DropFinalizer]
  }

  /** listed is an answer to the list of the Grants of h. */
  predicate IsListing(w: World, h: ReqKey, listed: seq<ObjKey>) {
    && (forall k :: k in w.objects && IsListedGrant(w, k, h) ==> k in listed)
    && forall k :: k in listed ==> IsListedGrant(w, k, h)
  }

  /** The Grant at k is listed, and the spec of r does not want it. */
  predicate IsStaleGrant(w: World, k: ObjKey, r: Request)
    requires r.grants.Some?
  {
    IsListedGrant(w, k, r.key) && k !in ObjectKeys(w.opts, r)
  }

  /** stale is what such an answer holds besides the Grants that r wants. */
  predicate AreStaleGrants(w: World, r: Request, stale: seq<ObjKey>)
    requires r.grants.Some?
  {
    && (forall k :: k in w.objects && IsStaleGrant(w, k, r) ==> k in stale)
    && forall k :: k in stale ==> IsStaleGrant(w, k, r)
  }

  predicate NameIsFree(w: World, k: ObjKey, r: Request) {
    k in w.objects ==> OfRequest(k, w.objects[k], r)
  }

  predicate NamesFreeUpTo(w: World, keys: seq<ObjKey>, n: nat, r: Request)
    requires n <= |keys|
  {
    forall i :: 0 <= i < n ==> NameIsFree(w, keys[i], r)
  }

  predicate NamesAreFree(w: World, keys: seq<ObjKey>, r: Request) {
    NamesFreeUpTo(w, keys, |keys|, r)
  }

  lemma NextName(w: World, keys: seq<ObjKey>, n: nat, r: Request)
    requires n < |keys|
    ensures NamesFreeUpTo(w, keys, n + 1, r) <==> NamesFreeUpTo(w, keys, n, r) && NameIsFree(w, keys[n], r)
    ensures !NameIsFree(w, keys[n], r) ==> !NamesAreFree(w, keys, r)
  {}

  /** The Grants of r can be rendered, and no object is in the way. */
  predicate CanServe(w: World, r: Request) {
    r.grants.Some? && NamesAreFree(w, ObjectKeys(w.opts, r), r)
  }

  /** A pass for h gets as far as its calls, with listed as the Grants that it is
      to delete or to release. */
  predicate CanBegin(w: World, h: ReqKey, listed: seq<ObjKey>) {
    && h in w.requests && w.requests[h].registration == w.opts.registration
    && var r := w.requests[h];
    if r.deleting then r.finalizer && IsListing(w, h, listed)
    else w.ready && (r.finalizer ==>
           CanServe(w, r) && AreStaleGrants(w, r, listed))
  }

  function PassCalls(w: World, h: ReqKey, listed: seq<ObjKey>): seq<Call>
    requires CanBegin(w, h, listed)
  {
    var r := w.requests[h];
    if r.deleting then CleanCalls(w.opts, r, listed)
    else if r.finalizer then ServeCalls(w.opts, r, listed)
    else [AddFinalizer]
  }

  predicate Serving(w: World, h: ReqKey) {
    Lives(w, h) && !w.requests[h].deleting && w.requests[h].registration == w.opts.registration
  }

  ghost predicate CanCall(w: World, h: ReqKey, c: Call) {
    match c
    case AddFinalizer =>
      && h in w.requests && w.ready && w.requests[h].registration == w.opts.registration
      && !w.requests[h].deleting && !w.requests[h].finalizer
    case ApplyAt(k) => Serving(w, h) && IsKeyOf(w.opts, w.requests[h], k) && Free(w, k, h)
    case TakeAt(k) => Lives(w, h) && w.requests[h].key == h && Justified(w.requests[h], k)
    case ReleaseAt(k) => Lives(w, h) && w.requests[h].deleting && w.requests[h].policy == Orphan
    case WriteRows => Serving(w, h) && w.requests[h].grants.Some?
    case DropFinalizer => Lives(w, h) && w.requests[h].deleting && CleanedUp(w, h, w.requests[h].policy)
  }

  /** deleteOwn at k, by a pass for r. It reads the object first. */
  function TakenAt(w: World, k: ObjKey, r: Request): World {
    if HasHome(w, k, r.key) then DropObject(w, k, TakeWrite(w, k, r)) else w
  }

  /** releaseOwner at k. It reads the object first. */
  function ReleasedAt(w: World, k: ObjKey, uid: Uid): World {
    if k !in w.objects then w
    else
      var o := w.objects[k];
      PutObject(w, k, o.(owners := o.owners - {uid}, version := NextVersion(w)))
  }

  /** The status of r with its outputs and its rows. */
  function WithStatus(opts: Options, r: Request): Request
    requires r.grants.Some?
  {
    r.(outputs := true, rows := RowsOf(opts, r.key, r.grants.value))
  }

  /** writeStatus for r. A status that is there already is not written. */
  function StatusPut(w: World, r: Request): World
    requires r.grants.Some?
  {
    var to := WithStatus(w.opts, r);
    if to == r then w else PutRequest(w, to.(version := NextVersion(w)))
  }

  /** Server-side apply of the objects at the first n keys of r. */
  function AppliedUpTo(w: World, keys: seq<ObjKey>, n: nat, r: Request): (v: World)
    requires n <= |keys|
    ensures v.requests == w.requests && v.opts == w.opts && v.currentReads == w.currentReads && v.ready == w.ready
  {
    if n == 0 then w
    else
      var v := AppliedUpTo(w, keys, n - 1, r);
      PutObject(v, keys[n - 1], Applied(v, keys[n - 1], r))
  }

  /** The call on the current state. */
  ghost function Called(w: World, h: ReqKey, c: Call): World
    requires CanCall(w, h, c)
  {
    match c
    case AddFinalizer => PutRequest(w, w.requests[h].(finalizer := true, version := NextVersion(w)))
    case ApplyAt(k) => PutObject(w, k, Applied(w, k, w.requests[h]))
    case TakeAt(k) => TakenAt(w, k, w.requests[h])
    case ReleaseAt(k) => ReleasedAt(w, k, w.requests[h].uid)
    case WriteRows => StatusPut(w, w.requests[h])
    case DropFinalizer => Finish(w, h)
  }

  /** The state after the calls, one behind the other; None when one of them
      cannot be made. */
  ghost function After(w: World, h: ReqKey, calls: seq<Call>): Option<World>
    decreases |calls|
  {
    if calls == [] then Some(w)
    else
      var last := calls[|calls| - 1];
      match After(w, h, calls[..|calls| - 1])
      case Some(v) => if CanCall(v, h, last) then Some(Called(v, h, last)) else None
      case None => None
  }

  lemma AfterOne(w: World, h: ReqKey, calls: seq<Call>, c: Call)
    ensures
      After(w, h, calls + [c]) ==
      match After(w, h, calls)
      case Some(v) => (if CanCall(v, h, c) then Some(Called(v, h, c)) else None)
      case None => None
  {
    assert (calls + [c])[..|calls|] == calls;
  }

  lemma {:induction false} AfterBoth(w: World, h: ReqKey, first: seq<Call>, next: seq<Call>)
    ensures
      After(w, h, first + next) ==
      match After(w, h, first)
      case Some(v) => After(v, h, next)
      case None => None
    decreases |next|
  {
    if next == [] {
      assert first + next == first;
    } else {
      var rest, c := next[..|next| - 1], next[|next| - 1];
      AfterBoth(w, h, first, rest);
      assert first + next == (first + rest) + [c];
      AfterOne(w, h, first + rest, c);
    }
  }

  /** How a pass ends: with nothing to do, with the finalizer removed or added,
      with the objects and the status written, to be done again when the
      registration may be ready, or to be done again after an error. */
  datatype Pass = Nothing | Released | Finalized | Reconciled | Waiting | Again

  /** How a pass for h ends when it reads the current state, no call is lost and
      no other client changes anything. */
  function Ending(w: World, h: ReqKey): Pass {
    if h !in w.requests || w.requests[h].registration != w.opts.registration then Nothing
    else
      var r := w.requests[h];
      if r.deleting then if r.finalizer then Released else Nothing
      else if !w.ready then Waiting
      else if !r.finalizer then Finalized
      else if CanServe(w, r) then Reconciled
      else Again
  }

  /** A pass that ends so has made all of its calls; another has made none. */
  predicate Writes(pass: Pass) {
    pass.Released? || pass.Finalized? || pass.Reconciled?
  }

  /** A list of the Grants of h. */
  lemma SomeListing(w: World, h: ReqKey) returns (listed: seq<ObjKey>)
    ensures IsListing(w, h, listed)
  {
    listed := InSomeOrder(set k | k in w.objects && IsListedGrant(w, k, h));
  }

  /** A list of the Grants that r does not want. */
  lemma SomeStale(w: World, r: Request) returns (stale: seq<ObjKey>)
    requires r.grants.Some?
    ensures AreStaleGrants(w, r, stale)
  {
    stale := InSomeOrder(set k | k in w.objects && IsStaleGrant(w, k, r));
  }

  lemma {:induction false} InSomeOrder(keys: set<ObjKey>) returns (listed: seq<ObjKey>)
    ensures forall k :: k in listed <==> k in keys
    decreases |keys|
  {
    if keys == {} {
      listed := [];
    } else {
      var k :| k in keys;
      listed := InSomeOrder(keys - {k});
      listed := listed + [k];
    }
  }

  /** A pass for h that began on w has ended as it should, on the state w'. */
  ghost predicate EndsPass(w: World, h: ReqKey, pass: Pass, listing: seq<ObjKey>, w': World) {
    && pass == Ending(w, h)
    && if Writes(pass) then CanBegin(w, h, listing) && After(w, h, PassCalls(w, h, listing)) == Some(w')
       else w' == w
  }

  /** The request is served, and r is its state. */
  predicate IsServing(w: World, r: Request) {
    IsNow(w, r) && Serving(w, r.key)
  }

  /** The request is being deleted under Orphan, and r is its state. */
  predicate IsOrphaned(w: World, r: Request) {
    IsNow(w, r) && r.finalizer && r.deleting && r.policy == Orphan
  }

  lemma CleanedEnds(start: World, w: World, r: Request, found: seq<ObjKey>)
    requires IsNow(start, r) && r.registration == start.opts.registration && r.finalizer && r.deleting
    requires IsListing(start, r.key, found) && IsNow(w, r) && CleanedUp(w, r.key, r.policy)
    requires After(start, r.key, CleanUpCalls(start.opts, r, found)) == Some(w)
    ensures EndsPass(start, r.key, Released, found, Finish(w, r.key))
  {
    AfterOne(start, r.key, CleanUpCalls(start.opts, r, found), DropFinalizer);
  }

  lemma AddedEnds(start: World, r: Request)
    requires IsNow(start, r) && r.registration == start.opts.registration && !r.finalizer && !r.deleting && start.ready
    ensures
      EndsPass(start, r.key, Finalized, [], PutRequest(start, r.(finalizer := true, version := NextVersion(start))))
  {
    AfterOne(start, r.key, [], AddFinalizer);
  }

  lemma StatusEnds(start: World, w: World, r: Request, found: seq<ObjKey>)
    requires IsServing(start, r) && start.ready && CanServe(start, r) && AreStaleGrants(start, r, found)
    requires After(start, r.key, ApplyCalls(start.opts, r, found)) == Some(w) && IsServing(w, r)
    ensures EndsPass(start, r.key, Reconciled, found, StatusPut(w, r))
  {
    AfterOne(start, r.key, ApplyCalls(start.opts, r, found), WriteRows);
  }

  // The calls of each loop of a pass, one more of them made.

  lemma OneMoreCall(keys: seq<ObjKey>, i: nat)
    requires i < |keys|
    ensures Takes(keys[..i + 1]) == Takes(keys[..i]) + [TakeAt(keys[i])]
    ensures Releases(keys[..i + 1]) == Releases(keys[..i]) + [ReleaseAt(keys[i])]
    ensures Applies(keys[..i + 1]) == Applies(keys[..i]) + [ApplyAt(keys[i])]
  {}

  lemma TakesOne(start: World, w: World, keys: seq<ObjKey>, i: nat, r: Request)
    requires i < |keys| && Justified(r, keys[i])
    ensures
      After(start, r.key, Takes(keys[..i])) == Some(w) && IsNow(w, r) ==>
      && After(start, r.key, Takes(keys[..i + 1])) == Some(TakenAt(w, keys[i], r))
      && IsNow(TakenAt(w, keys[i], r), r)
  {
    OneMoreCall(keys, i);
    AfterOne(start, r.key, Takes(keys[..i]), TakeAt(keys[i]));
  }

  lemma ReleasesOne(start: World, w: World, keys: seq<ObjKey>, i: nat, r: Request)
    requires i < |keys|
    ensures
      After(start, r.key, Releases(keys[..i])) == Some(w) && IsOrphaned(w, r) ==>
      && After(start, r.key, Releases(keys[..i + 1])) == Some(ReleasedAt(w, keys[i], r.uid))
      && IsOrphaned(ReleasedAt(w, keys[i], r.uid), r)
  {
    OneMoreCall(keys, i);
    AfterOne(start, r.key, Releases(keys[..i]), ReleaseAt(keys[i]));
  }

  lemma ApplyIsCall(w: World, k: ObjKey, r: Request)
    requires IsKeyOf(w.opts, r, k) && Free(w, k, r.key) && IsServing(w, r)
    ensures CanCall(w, r.key, ApplyAt(k)) && Called(w, r.key, ApplyAt(k)) == PutObject(w, k, Applied(w, k, r))
    ensures IsServing(PutObject(w, k, Applied(w, k, r)), r)
  {}

  lemma AppliesOne(start: World, w: World, keys: seq<ObjKey>, i: nat, r: Request, next: World)
    requires i < |keys| && After(start, r.key, Applies(keys[..i])) == Some(w)
    requires CanCall(w, r.key, ApplyAt(keys[i])) && Called(w, r.key, ApplyAt(keys[i])) == next
    ensures After(start, r.key, Applies(keys[..i + 1])) == Some(next)
  {
    OneMoreCall(keys, i);
    AfterOne(start, r.key, Applies(keys[..i]), ApplyAt(keys[i]));
  }

  /** The calls that apply objects, one behind the other, give the state of the loop. */
  lemma {:induction false} AppliesInOrder(start: World, keys: seq<ObjKey>, n: nat, r: Request)
    requires start.currentReads && IsServing(start, r) && n <= |keys| && AreKeysOf(start.opts, r, keys)
    requires FreeUpTo(start, keys, |keys|, r.key)
    ensures
      var w := AppliedUpTo(start, keys, n, r);
      && After(start, r.key, Applies(keys[..n])) == Some(w) && IsServing(w, r)
      && FreeUpTo(w, keys, |keys|, r.key)
    decreases n
  {
    if n == 0 {
      assert Applies(keys[..0]) == [];
    } else {
      AppliesInOrder(start, keys, n - 1, r);
      var v := AppliedUpTo(start, keys, n - 1, r);
      ApplyIsCall(v, keys[n - 1], r);
      AppliesOne(start, v, keys, n - 1, r, AppliedUpTo(start, keys, n, r));
      AppliedIsFree(v, keys, keys[n - 1], r);
    }
  }

  lemma AppliedIsFree(w: World, keys: seq<ObjKey>, k: ObjKey, r: Request)
    requires IsKeyOf(w.opts, r, k) && FreeUpTo(w, keys, |keys|, r.key)
    ensures FreeUpTo(PutObject(w, k, Applied(w, k, r)), keys, |keys|, r.key)
  {
    assert Home(k, Applied(w, k, r)) == r.key;
  }

  /** The release of the ConfigMap and those of the Grants, put together. */
  lemma ReleasesBoth(start: World, end: World, r: Request, grants: seq<ObjKey>)
    requires IsOrphaned(start, r)
    requires After(ReleasedAt(start, ConfigMapKey(r.key), r.uid), r.key, Releases(grants)) == Some(end)
    ensures After(start, r.key, Releases([ConfigMapKey(r.key)] + grants)) == Some(end)
  {
    var one := [ConfigMapKey(r.key)];
    ReleasesOne(start, start, one, 0, r);
    assert one[..0] == [] && one[..1] == one;
    AfterBoth(start, r.key, Releases(one), Releases(grants));
    assert Releases(one + grants) == Releases(one) + Releases(grants);
  }

  /** Applying at the first n keys changes no other key. */
  lemma {:induction false} AppliedAtKeys(start: World, keys: seq<ObjKey>, n: nat, r: Request)
    requires n <= |keys|
    ensures forall k :: k !in keys ==> SameAt(start, AppliedUpTo(start, keys, n, r), k)
    decreases n
  {
    if n > 0 {
      AppliedAtKeys(start, keys, n - 1, r);
      forall k | k !in keys ensures SameAt(start, AppliedUpTo(start, keys, n, r), k) {
        assert k != keys[n - 1] && SameAt(start, AppliedUpTo(start, keys, n - 1, r), k);
      }
    }
  }

  /** The calls of applyObjects, put together. It lists the Grants between its two
      loops; what it finds stale was so before. */
  lemma AppliesThenTakes(start: World, end: World, r: Request, stale: seq<ObjKey>)
    requires start.currentReads && IsServing(start, r) && r.grants.Some?
    requires FreeUpTo(start, ObjectKeys(start.opts, r), |ObjectKeys(start.opts, r)|, r.key)
    requires
      var applied := AppliedUpTo(start, ObjectKeys(start.opts, r), |ObjectKeys(start.opts, r)|, r);
      AreStaleGrants(applied, r, stale) && After(applied, r.key, Takes(stale)) == Some(end)
    ensures AreStaleGrants(start, r, stale)
    ensures After(start, r.key, ApplyCalls(start.opts, r, stale)) == Some(end)
  {
    var keys := ObjectKeys(start.opts, r);
    AppliesInOrder(start, keys, |keys|, r);
    assert keys[..|keys|] == keys;
    AppliesKeepStale(start, r);
    StaleBefore(start, AppliedUpTo(start, keys, |keys|, r), r, stale);
    AfterBoth(start, r.key, Applies(keys), Takes(stale));
  }

  lemma StaleBefore(start: World, w: World, r: Request, stale: seq<ObjKey>)
    requires r.grants.Some? && AreStaleGrants(w, r, stale)
    requires forall k :: IsStaleGrant(w, k, r) <==> IsStaleGrant(start, k, r)
    ensures AreStaleGrants(start, r, stale)
  {}

  lemma AppliesKeepStale(start: World, r: Request)
    requires r.grants.Some?
    ensures
      var keys := ObjectKeys(start.opts, r);
      forall k :: IsStaleGrant(AppliedUpTo(start, keys, |keys|, r), k, r) <==> IsStaleGrant(start, k, r)
  {
    var keys := ObjectKeys(start.opts, r);
    AppliedAtKeys(start, keys, |keys|, r);
    forall k ensures IsStaleGrant(AppliedUpTo(start, keys, |keys|, r), k, r) <==> IsStaleGrant(start, k, r) {
      if k !in keys {
        assert SameAt(start, AppliedUpTo(start, keys, |keys|, r), k);
      }
    }
  }

  predicate SameAt(w: World, w': World, k: ObjKey) {
    (k in w'.objects <==> k in w.objects) && (k in w.objects ==> w'.objects[k] == w.objects[k])
  }
}
