/** What the passes of echo come to when nothing goes wrong: each pass that begins
    can make all of its calls, and a request gets its finalizer, its objects and
    its status, stays served from then on, and goes with its objects. */
module EchoProgress {
  import opened Api
  import opened Cluster
  import opened EchoCalls
  import opened EchoPasses
  import opened EchoLimits

  lemma {:induction false} AfterKeeps(w: World, h: ReqKey, calls: seq<Call>, v: World)
    requires Inv(w) && w.currentReads && After(w, h, calls) == Some(v)
    ensures Inv(v) && v.currentReads && v.opts == w.opts && w.history <= v.history
    decreases |calls|
  {
    if calls != [] {
      var before := After(w, h, calls[..|calls| - 1]).value;
      AfterKeeps(w, h, calls[..|calls| - 1], before);
      CallKeeps(before, h, calls[|calls| - 1]);
    }
  }

  lemma RequestIsNamed(w: World, h: ReqKey)
    requires Inv(w) && h in w.requests
    ensures h.name != "" && w.requests[h].key == h
  {
    OccurredInOrder(w.history, WroteRequest(w.requests[h]));
  }

  // A pass that begins can make all of its calls.

  /** Calls that are all possible can be made one behind the other. */
  lemma {:induction false} OpenCallsRun(w: World, h: ReqKey, calls: seq<Call>, n: nat, m: nat) returns (v: World)
    requires n <= m <= |calls| && AllOpen(w, h, calls, m) && Keyed(w, h) && h.name != ""
    ensures After(w, h, calls[..n]) == Some(v) && Ran(w, v, h, calls, n) && AllOpen(v, h, calls, m)
    decreases n
  {
    if n == 0 {
      v := w;
    } else {
      var u := OpenCallsRun(w, h, calls, n - 1, m);
      AllOpenStay(u, h, calls, n - 1, m);
      RanOne(w, u, h, calls, n - 1);
      assert calls[..n] == calls[..n - 1] + [calls[n - 1]];
      AfterOne(w, h, calls[..n - 1], calls[n - 1]);
      v := Called(u, h, calls[n - 1]);
    }
  }

  lemma DeleteCleans(w: World, v: World, h: ReqKey, listed: seq<ObjKey>)
    requires Inv(w) && w.currentReads && Keyed(w, h) && CanBegin(w, h, listed)
    requires w.requests[h].deleting && w.requests[h].policy == Delete
    requires
      var calls := PassCalls(w, h, listed);
      Ran(w, v, h, calls, |calls| - 1)
    ensures CleanedUp(v, h, Delete)
  {
    forall k | HasHome(w, k, h) ensures !HasHome(v, k, h) {
      assert ObjectOk(w, k, w.objects[k]);
      var i := DeletingCall(w, h, listed, k);
      assert IsDone(v, h, PassCalls(w, h, listed)[i]);
    }
  }

  /** The Grants that a pass for h finds. */
  lemma SomeBegin(w: World, h: ReqKey) returns (listed: seq<ObjKey>)
    requires Writes(Ending(w, h))
    ensures CanBegin(w, h, listed)
  {
    var r := w.requests[h];
    listed := [];
    if r.deleting {
      listed := SomeListing(w, h);
    } else if r.finalizer {
      listed := SomeStale(w, r);
    }
  }

  /** A pass gets as far as its calls exactly when it ends with a write, and then
      it can make all of its calls. */
  lemma PassCanEnd(w: World, h: ReqKey) returns (listed: seq<ObjKey>, v: World)
    requires Inv(w) && w.currentReads && Writes(Ending(w, h))
    ensures CanBegin(w, h, listed) && After(w, h, PassCalls(w, h, listed)) == Some(v)
  {
    RequestIsNamed(w, h);
    listed := SomeBegin(w, h);
    var calls := PassCalls(w, h, listed);
    var n := |calls| - 1;
    assert calls == calls[..n] + [calls[n]];
    v := w;
    if w.requests[h].deleting {
      CleanCallsAreOpen(w, h, listed);
      v := OpenCallsRun(w, h, calls, n, n);
      AfterKeeps(w, h, calls[..n], v);
      assert w.currentReads && Lives(w, h);
      if w.requests[h].policy == Delete {
        DeleteCleans(w, v, h, listed);
      } else {
        OrphanCleans(w, v, h, listed);
      }
    } else if w.requests[h].finalizer {
      ServeCallsAreOpen(w, h, listed);
      v := OpenCallsRun(w, h, calls, n, n);
    }
    AfterOne(w, h, calls[..n], calls[n]);
    v := Called(v, h, calls[n]);
  }

  lemma BeginsIff(w: World, h: ReqKey)
    ensures (exists listed :: CanBegin(w, h, listed)) <==> Writes(Ending(w, h))
  {
    if Writes(Ending(w, h)) {
      var listed := SomeBegin(w, h);
    }
  }

  /** Such a pass is a run of the machine. */
  lemma PassIsRun(opts: Options, w: World, h: ReqKey, listed: seq<ObjKey>, v: World)
    requires Reached(opts, Node(w, None)) && CanBegin(w, h, listed)
    requires After(w, h, PassCalls(w, h, listed)) == Some(v)
    ensures Reached(opts, Node(v, None))
  {
    var calls := PassCalls(w, h, listed);
    var n := ReachedNext(opts, Node(w, None), Begin(h, listed));
    assert calls[..|calls|] == calls;
    CallsAreRun(opts, w, h, calls, |calls|, v);
    n := ReachedNext(opts, Node(v, Some(Todo(h, calls, |calls|))), Stop);
  }

  lemma {:induction false} CallsAreRun(opts: Options, w: World, h: ReqKey, calls: seq<Call>, n: nat, v: World)
    requires Reached(opts, Node(w, Some(Todo(h, calls, 0)))) && n <= |calls|
    requires After(w, h, calls[..n]) == Some(v)
    ensures Reached(opts, Node(v, Some(Todo(h, calls, n))))
    decreases n
  {
    if n > 0 {
      var u := BeforeLast(w, h, calls, n, v);
      CallsAreRun(opts, w, h, calls, n - 1, u);
      OneCallRuns(opts, u, h, calls, n, v);
    }
  }

  lemma BeforeLast(w: World, h: ReqKey, calls: seq<Call>, n: nat, v: World) returns (u: World)
    requires 0 < n <= |calls| && After(w, h, calls[..n]) == Some(v)
    ensures After(w, h, calls[..n - 1]) == Some(u)
    ensures CanCall(u, h, calls[n - 1]) && v == Called(u, h, calls[n - 1])
  {
    assert calls[..n] == calls[..n - 1] + [calls[n - 1]];
    AfterOne(w, h, calls[..n - 1], calls[n - 1]);
    u := After(w, h, calls[..n - 1]).value;
  }

  lemma OneCallRuns(opts: Options, u: World, h: ReqKey, calls: seq<Call>, n: nat, v: World)
    requires 0 < n <= |calls| && Reached(opts, Node(u, Some(Todo(h, calls, n - 1))))
    requires CanCall(u, h, calls[n - 1]) && v == Called(u, h, calls[n - 1])
    ensures Reached(opts, Node(v, Some(Todo(h, calls, n))))
  {
    var next := ReachedNext(opts, Node(u, Some(Todo(h, calls, n - 1))), Next);
  }

  // What a pass comes to.

  /** The deletions of a pass leave the rest. */
  lemma {:induction false} TakesLeave(w: World, h: ReqKey, keys: seq<ObjKey>, v: World)
    requires Keyed(w, h) && After(w, h, Takes(keys)) == Some(v)
    ensures v.requests == w.requests && v.opts == w.opts && v.ready == w.ready
    ensures forall k :: k in v.objects ==> SameAt(w, v, k) && !(k in keys && HasHome(v, k, h))
    ensures forall k :: k in w.objects && k !in keys ==> k in v.objects
    decreases |keys|
  {
    if keys == [] {
      assert Takes(keys) == [];
    } else {
      var rest, k := keys[..|keys| - 1], keys[|keys| - 1];
      assert Takes(keys) == Takes(rest) + [TakeAt(k)] && keys == rest + [k];
      AfterOne(w, h, Takes(rest), TakeAt(k));
      var u := After(w, h, Takes(rest)).value;
      TakesLeave(w, h, rest, u);
      assert v == TakenAt(u, k, u.requests[h]);
    }
  }

  lemma {:induction false} AppliedHaveHome(w: World, keys: seq<ObjKey>, n: nat, r: Request, k: ObjKey)
    requires n <= |keys| && AreKeysOf(w.opts, r, keys) && k in keys[..n] && r.key.name != ""
    ensures HasHome(AppliedUpTo(w, keys, n, r), k, r.key) && IsWritten(AppliedUpTo(w, keys, n, r), k, r)
    decreases n
  {
    var v, last := AppliedUpTo(w, keys, n - 1, r), keys[n - 1];
    assert Home(last, Applied(v, last, r)) == r.key;
    if k != last {
      assert keys[..n] == keys[..n - 1] + [last];
      AppliedHaveHome(w, keys, n - 1, r, k);
    }
  }

  /** The object at k has the labels of the request and the owner that the contract
      asks for. */
  predicate IsWritten(w: World, k: ObjKey, r: Request) {
    && k in w.objects
    && w.objects[k].labels.registration == w.opts.registration && w.objects[k].labels.request == r.key.name
    && if k.kind == StorageClass then w.objects[k].labels.requestNamespace == Some(r.key.ns)
       else r.uid in w.objects[k].owners
  }

  /** Each object that the request wants is there, no Grant that it does not want,
      and the status says so. */
  ghost predicate IsComplete(w: World, h: ReqKey) {
    && Serving(w, h) && w.requests[h].grants.Some?
    && (forall k :: k in ObjectKeys(w.opts, w.requests[h]) ==> IsWritten(w, k, w.requests[h]))
    && (forall k: ObjKey :: k.kind == Grant && HasHome(w, k, h) ==> k.name in w.requests[h].grants.value)
    && w.requests[h].outputs && w.requests[h].rows == RowsOf(w.opts, h, w.requests[h].grants.value)
  }

  lemma KeysAreFree(w: World, r: Request)
    requires Inv(w) && w.currentReads && CanServe(w, r) && r.key.name != ""
    ensures FreeUpTo(w, ObjectKeys(w.opts, r), |ObjectKeys(w.opts, r)|, r.key)
  {
    var keys := ObjectKeys(w.opts, r);
    forall j | 0 <= j < |keys| ensures Free(w, keys[j], r.key) {
      FreeName(w, keys[j], r);
    }
  }

  /** The states behind the two loops of applyObjects. */
  lemma ServeStates(w: World, h: ReqKey, stale: seq<ObjKey>, v: World) returns (applied: World, taken: World)
    requires Inv(w) && w.currentReads && Serving(w, h) && Keyed(w, h) && CanServe(w, w.requests[h]) && h.name != ""
    requires After(w, h, ServeCalls(w.opts, w.requests[h], stale)) == Some(v)
    ensures
      var keys := ObjectKeys(w.opts, w.requests[h]);
      && applied == AppliedUpTo(w, keys, |keys|, w.requests[h])
      && After(applied, h, Takes(stale)) == Some(taken) && v == StatusPut(taken, w.requests[h])
      && taken.requests == w.requests && taken.opts == w.opts && taken.ready == w.ready
  {
    var r := w.requests[h];
    var keys := ObjectKeys(w.opts, r);
    KeysAreFree(w, r);
    AppliesInOrder(w, keys, |keys|, r);
    assert keys[..|keys|] == keys;
    applied := AppliedUpTo(w, keys, |keys|, r);
    AfterBoth(w, h, Applies(keys), Takes(stale));
    AfterOne(w, h, ApplyCalls(w.opts, r, stale), WriteRows);
    taken := After(applied, h, Takes(stale)).value;
    TakesLeave(applied, h, stale, taken);
  }

  lemma WantedStay(w: World, h: ReqKey, stale: seq<ObjKey>, taken: World, k: ObjKey)
    requires Keyed(w, h) && h.name != "" && CanServe(w, w.requests[h]) && AreStaleGrants(w, w.requests[h], stale)
    requires
      var keys := ObjectKeys(w.opts, w.requests[h]);
      k in keys && After(AppliedUpTo(w, keys, |keys|, w.requests[h]), h, Takes(stale)) == Some(taken)
    ensures HasHome(taken, k, h) && IsWritten(taken, k, w.requests[h])
  {
    var r := w.requests[h];
    var keys := ObjectKeys(w.opts, r);
    assert keys[..|keys|] == keys;
    AppliedHaveHome(w, keys, |keys|, r, k);
    TakesLeave(AppliedUpTo(w, keys, |keys|, r), h, stale, taken);
    assert k !in stale;
  }

  lemma StaleGo(w: World, h: ReqKey, stale: seq<ObjKey>, taken: World, k: ObjKey)
    requires Keyed(w, h) && CanServe(w, w.requests[h]) && AreStaleGrants(w, w.requests[h], stale)
    requires
      var keys := ObjectKeys(w.opts, w.requests[h]);
      After(AppliedUpTo(w, keys, |keys|, w.requests[h]), h, Takes(stale)) == Some(taken)
    requires k.kind == Grant && HasHome(taken, k, h)
    ensures k.name in w.requests[h].grants.value
  {
    var r := w.requests[h];
    var keys := ObjectKeys(w.opts, r);
    var applied := AppliedUpTo(w, keys, |keys|, r);
    TakesLeave(applied, h, stale, taken);
    if k !in keys {
      AppliedAtKeys(w, keys, |keys|, r);
      assert SameAt(w, applied, k) && IsStaleGrant(w, k, r);
    }
    assert AreKeysOf(w.opts, r, keys);
  }

  lemma WrittenIsFree(w: World, k: ObjKey, r: Request)
    requires IsWritten(w, k, r)
    ensures NameIsFree(w, k, r)
  {}

  lemma CompleteIsServed(w: World, h: ReqKey)
    requires IsComplete(w, h) && Keyed(w, h) && w.ready
    ensures Ending(w, h) == Reconciled
  {
    var r := w.requests[h];
    forall i | 0 <= i < |ObjectKeys(w.opts, r)| ensures NameIsFree(w, ObjectKeys(w.opts, r)[i], r) {
      assert ObjectKeys(w.opts, r)[i] in ObjectKeys(w.opts, r);
      WrittenIsFree(w, ObjectKeys(w.opts, r)[i], r);
    }
  }

  /** A pass that serves the request leaves it complete, and each later one ends
      like it and does not write the status. */
  lemma ServedIsComplete(w: World, h: ReqKey, stale: seq<ObjKey>, v: World)
    requires Inv(w) && w.currentReads && Ending(w, h) == Reconciled && CanBegin(w, h, stale)
    requires After(w, h, PassCalls(w, h, stale)) == Some(v)
    ensures IsComplete(v, h) && Ending(v, h) == Reconciled && WithStatus(v.opts, v.requests[h]) == v.requests[h]
    ensures IsComplete(w, h) ==> v.requests == w.requests
  {
    RequestIsNamed(w, h);
    var r := w.requests[h];
    var applied, taken := ServeStates(w, h, stale, v);
    forall k | k in ObjectKeys(w.opts, r) ensures IsWritten(taken, k, r) {
      WantedStay(w, h, stale, taken, k);
    }
    forall k: ObjKey | k.kind == Grant && HasHome(taken, k, h) ensures k.name in r.grants.value {
      StaleGo(w, h, stale, taken, k);
    }
    StatusCompletes(taken, r);
    CompleteIsServed(v, h);
  }

  lemma StatusCompletes(w: World, r: Request)
    requires IsServing(w, r) && r.grants.Some?
    requires forall k :: k in ObjectKeys(w.opts, r) ==> IsWritten(w, k, r)
    requires forall k: ObjKey :: k.kind == Grant && HasHome(w, k, r.key) ==> k.name in r.grants.value
    ensures IsComplete(StatusPut(w, r), r.key) && Keyed(StatusPut(w, r), r.key)
    ensures StatusPut(w, r).ready == w.ready && StatusPut(w, r).opts == w.opts
    ensures WithStatus(w.opts, StatusPut(w, r).requests[r.key]) == StatusPut(w, r).requests[r.key]
  {
    assert ObjectKeys(w.opts, StatusPut(w, r).requests[r.key]) == ObjectKeys(w.opts, r);
  }

  /** What each pass without trouble comes to, and what the next one then does. A
      request that waits for its registration or has an object in its way is left
      as it is; every other one gets the finalizer, is served, or goes. */
  lemma PassesProgress(w: World, h: ReqKey, listed: seq<ObjKey>, v: World)
    requires Inv(w) && w.currentReads && CanBegin(w, h, listed)
    requires After(w, h, PassCalls(w, h, listed)) == Some(v)
    ensures Inv(v) && v.opts == w.opts && w.history <= v.history
    ensures Ending(w, h) == Finalized ==>
      && v.requests == w.requests[h := w.requests[h].(finalizer := true, version := NextVersion(w))]
      && v.objects == w.objects
      && Ending(v, h) == (if CanServe(w, w.requests[h]) then Reconciled else Again)
    ensures Ending(w, h) == Reconciled ==>
      IsComplete(v, h) && Ending(v, h) == Reconciled && (IsComplete(w, h) ==> v.requests == w.requests)
    ensures Ending(w, h) == Released ==>
      && v.requests == w.requests - {h} && h in v.finished && v.finished[h] == w.requests[h]
      && CleanedUp(v, h, w.requests[h].policy) && Ending(v, h) == Nothing
    ensures Writes(Ending(w, h))
  {
    AfterKeeps(w, h, PassCalls(w, h, listed), v);
    match Ending(w, h) {
      case Finalized => FinalizerIsNext(w, h, listed, v);
      case Reconciled => ServedIsComplete(w, h, listed, v);
      case Released => ReleasedIsGone(w, h, listed, v);
      case _ =>
    }
  }

  lemma FinalizerIsNext(w: World, h: ReqKey, listed: seq<ObjKey>, v: World)
    requires Inv(w) && Ending(w, h) == Finalized && CanBegin(w, h, listed)
    requires After(w, h, PassCalls(w, h, listed)) == Some(v)
    ensures v.requests == w.requests[h := w.requests[h].(finalizer := true, version := NextVersion(w))]
    ensures v.objects == w.objects
    ensures Ending(v, h) == if CanServe(w, w.requests[h]) then Reconciled else Again
  {
    RequestIsNamed(w, h);
    AfterOne(w, h, [], AddFinalizer);
    assert [] + [AddFinalizer] == [AddFinalizer];
    var r, r' := w.requests[h], v.requests[h];
    if r.grants.Some? {
      assert ObjectKeys(w.opts, r) == ObjectKeys(v.opts, r');
      forall i | 0 <= i < |ObjectKeys(w.opts, r)|
        ensures NameIsFree(v, ObjectKeys(v.opts, r')[i], r') <==> NameIsFree(w, ObjectKeys(w.opts, r)[i], r)
      {}
    }
  }

  lemma ReleasedIsGone(w: World, h: ReqKey, listed: seq<ObjKey>, v: World)
    requires Inv(w) && w.currentReads && Ending(w, h) == Released && CanBegin(w, h, listed)
    requires After(w, h, PassCalls(w, h, listed)) == Some(v)
    ensures v.requests == w.requests - {h} && h in v.finished && v.finished[h] == w.requests[h]
    ensures CleanedUp(v, h, w.requests[h].policy) && Ending(v, h) == Nothing
  {
    RequestIsNamed(w, h);
    var r := w.requests[h];
    AfterOne(w, h, CleanUpCalls(w.opts, r, listed), DropFinalizer);
    var u := After(w, h, CleanUpCalls(w.opts, r, listed)).value;
    CleaningKeepsRequests(w, h, CleanUpCalls(w.opts, r, listed), u);
    assert v == Finish(u, h);
  }

  /** Calls at keys change no request. */
  lemma {:induction false} CleaningKeepsRequests(w: World, h: ReqKey, calls: seq<Call>, v: World)
    requires After(w, h, calls) == Some(v) && forall i :: 0 <= i < |calls| ==> IsAtKey(calls[i])
    ensures v.requests == w.requests && v.opts == w.opts
    decreases |calls|
  {
    if calls != [] {
      var rest := calls[..|calls| - 1];
      CleaningKeepsRequests(w, h, rest, After(w, h, rest).value);
    }
  }
}
