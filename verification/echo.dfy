/** The echo controller of the conformance suite, without a defect, working on
    a cluster that other clients change between any two of its calls. */
module Echo {
  import opened Api
  import opened Cluster
  import opened EchoCalls

  /** The reply to a call. Lost is an error of the call, or a crash of the
      controller: the call may have had its effect. */
  datatype Reply<+T> = Got(value: T) | Lost

  datatype Update = Done | NotFound | Conflict

  /** The API server: each call may come after steps of other clients, and may
      be lost. */
  class Server {
    var w: World
    ghost var troubles: nat  // the steps of other clients and the lost calls so far

    constructor (start: World)
      ensures w == start
    {
      w := start;
      troubles := 0;
    }

    /** Any steps of the other clients. */
    method Interfere()
      requires Inv(w)
      modifies this
      ensures Inv(w) && Shrinks(old(w), w)
      ensures troubles >= old(troubles) && (troubles == old(troubles) ==> w == old(w))
    {
      ShrinksRefl(w);
      var n: nat := *;
      while n > 0
        invariant Inv(w) && Shrinks(old(w), w)
        invariant troubles >= old(troubles) && (troubles == old(troubles) ==> w == old(w))
      {
        var s: Step := *;
        if CanStep(w, s) {
          StepInv(w, s);
          StepShrinks(w, s);
          ShrinksTrans(old(w), w, Stepped(w, s));
          w := Stepped(w, s);
          troubles := troubles + 1;
        }
        n := n - 1;
      }
    }

    method GetRequest(h: ReqKey) returns (reply: Reply<Option<Request>>)
      requires Inv(w)
      modifies this
      ensures Inv(w) && Shrinks(old(w), w)
      ensures reply.Got? && reply.value.Some? ==>
        reply.value.value.key == h && WroteRequest(reply.value.value) in w.history
      ensures reply.Got? && w.currentReads ==>
        reply.value == if h in w.requests then Some(w.requests[h]) else None
      ensures troubles >= old(troubles) && (troubles == old(troubles) ==> reply.Got? && w == old(w))
    {
      Interfere();
      if * {
        troubles := troubles + 1;
        return Lost;
      }
      if w.currentReads {
        return Got(if h in w.requests then Some(w.requests[h]) else None);
      }
      var past: Request := *;
      return Got(if past.key == h && WroteRequest(past) in w.history then Some(past) else None);
    }

    /** Whether a read of the registration shows Ready=True. */
    method GetReady() returns (reply: Reply<bool>)
      requires Inv(w)
      modifies this
      ensures Inv(w) && Shrinks(old(w), w)
      ensures reply == Got(true) ==> ReadyBefore(w.history, |w.history|)
      ensures reply.Got? && w.currentReads ==> reply.value == w.ready
      ensures troubles >= old(troubles) && (troubles == old(troubles) ==> reply.Got? && w == old(w))
    {
      Interfere();
      if * {
        troubles := troubles + 1;
        return Lost;
      }
      var past: bool := *;
      return Got(if w.currentReads then w.ready else past && WroteRegistration(true) in w.history);
    }

    method GetObject(k: ObjKey) returns (reply: Reply<Option<Obj>>)
      requires Inv(w)
      modifies this
      ensures Inv(w) && Shrinks(old(w), w)
      ensures reply.Got? && w.currentReads ==>
        reply.value == if k in w.objects then Some(w.objects[k]) else None
      ensures troubles >= old(troubles) && (troubles == old(troubles) ==> reply.Got? && w == old(w))
    {
      Interfere();
      if * {
        troubles := troubles + 1;
        return Lost;
      }
      var past: Option<Obj> := *;
      return Got(if !w.currentReads then past else if k in w.objects then Some(w.objects[k]) else None);
    }

    /** The Grants in the namespace of h that carry both labels of h. */
    method ListGrants(h: ReqKey) returns (reply: Reply<seq<ObjKey>>)
      requires Inv(w)
      modifies this
      ensures Inv(w) && Shrinks(old(w), w)
      ensures reply.Got? ==> forall k :: k in reply.value ==> k.kind == Grant && k.ns == h.ns
      ensures reply.Got? && w.currentReads ==>
        forall k :: k in reply.value <==> IsListedGrant(w, k, h)
      ensures troubles >= old(troubles) && (troubles == old(troubles) ==> reply.Got? && w == old(w))
    {
      Interfere();
      if * {
        troubles := troubles + 1;
        return Lost;
      }
      var listed := set k | k in w.objects && IsListedGrant(w, k, h);
      if !w.currentReads {
        var past: set<ObjKey> := *;
        listed := set k | k in past && k.kind == Grant && k.ns == h.ns;
      }
      var keys: seq<ObjKey> := [];
      ghost var all := listed;
      while listed != {}
        invariant forall k :: k in all <==> k in keys || k in listed
        decreases listed
      {
        var k :| k in listed;
        keys := keys + [k];
        listed := listed - {k};
      }
      return Got(keys);
    }

    /** Server-side apply of the object at k of r. */
    method Apply(k: ObjKey, r: Request) returns (reply: Reply<()>)
      requires Inv(w) && r.key.name != "" && FinalizedBefore(w.history, |w.history|, r.key)
      requires IsKeyOf(w.opts, r, k)
      requires w.currentReads ==> Served(w, r) && Free(w, k, r.key)
      modifies this
      ensures Inv(w) && Serves(old(w), w, r.key)
      ensures reply.Got? ==> Written(w.history, k, r.key)
      ensures troubles >= old(troubles)
      ensures troubles == old(troubles) ==> reply.Got? && w == PutObject(old(w), k, Applied(old(w), k, r))
    {
      Interfere();
      ShrinksServes(old(w), w, r.key);
      FinalizedLonger(old(w).history, w.history, |old(w).history|, r.key);
      if * {
        troubles := troubles + 1;
        return Lost;
      }
      if w.currentReads {
        ServedStays(old(w), w, r.key, r);
        FreeStays(old(w), w, k, r.key);
      }
      ApplyKeeps(w, k, r);
      ApplyServes(w, k, r);
      ServesTrans(old(w), w, PutObject(w, k, Applied(w, k, r)), r.key);
      w := PutObject(w, k, Applied(w, k, r));
      if * {
        troubles := troubles + 1;
        return Lost;
      }
      return Got(());
    }

    /** The deletion of the object at k, with uid as its precondition, by the pass
        that read r. */
    method DeleteObject(k: ObjKey, uid: Uid, r: Request) returns (reply: Reply<Update>)
      requires Inv(w) && WroteRequest(r) in w.history && Justified(r, k)
      requires w.currentReads ==> HasHome(w, k, r.key) && w.objects[k].uid == uid && uid <= |w.history| && Served(w, r)
      modifies this
      ensures Inv(w) && Shrinks(old(w), w)
      ensures reply == Got(Done) || reply == Got(NotFound) ==> k !in w.objects
      ensures troubles >= old(troubles)
      ensures troubles == old(troubles) && k in old(w).objects && old(w).objects[k].uid == uid ==>
        reply == Got(Done) && w == DropObject(old(w), k, TakeWrite(old(w), k, r))
    {
      Interfere();
      if * {
        troubles := troubles + 1;
        return Lost;
      }
      if k !in w.objects {
        return Got(NotFound);
      }
      if w.objects[k].uid != uid {
        return Got(Conflict);
      }
      DeleteObjectKeeps(old(w), w, k, uid, r);
      w := DropObject(w, k, TakeWrite(w, k, r));
      if * {
        troubles := troubles + 1;
        return Lost;
      }
      return Got(Done);
    }

    /** The patch of the owner references at k, under the optimistic lock of
        version. */
    method PatchOwners(k: ObjKey, version: nat, owners: set<Uid>) returns (reply: Reply<Update>)
      requires Inv(w)
      requires w.currentReads ==> version <= |w.history|
      requires w.currentReads && k in w.objects && w.objects[k].version == version ==> owners <= w.objects[k].owners
      modifies this
      ensures Inv(w) && Shrinks(old(w), w)
      ensures reply == Got(Done) ==> k in w.objects && w.objects[k].owners == owners
      ensures reply == Got(NotFound) ==> k !in w.objects
      ensures troubles >= old(troubles)
      ensures troubles == old(troubles) && k in old(w).objects && old(w).objects[k].version == version ==>
        && reply == Got(Done)
        && w == PutObject(old(w), k, old(w).objects[k].(owners := owners, version := NextVersion(old(w))))
    {
      Interfere();
      if * {
        troubles := troubles + 1;
        return Lost;
      }
      if k !in w.objects {
        return Got(NotFound);
      }
      if w.objects[k].version != version {
        return Got(Conflict);
      }
      ReleaseKeeps(w, k, owners);
      var o := w.objects[k].(owners := owners, version := NextVersion(w));
      ShrinksTrans(old(w), w, PutObject(w, k, o));
      w := PutObject(w, k, o);
      if * {
        troubles := troubles + 1;
        return Lost;
      }
      return Got(Done);
    }
  
    /** The update of a request from the state read to the state to, under the
        optimistic lock of the version of read. */
    method UpdateRequest(read: Request, to: Request) returns (reply: Reply<Update>)
      requires Inv(w) && ReadyBefore(w.history, |w.history|)
      requires to.finalizer && to.deleting == read.deleting && SameSpec(to, read)
      requires to.registration == w.opts.registration
      requires w.currentReads ==> Current(w, read) && RowsAreOf(w.opts, to)
      modifies this
      ensures Inv(w) && Shrinks(old(w), w)
      ensures reply == Got(Done) ==> WroteRequest(to.(version := |w.history|)) in w.history
      ensures troubles >= old(troubles)
      ensures troubles == old(troubles) && IsNow(old(w), read) ==>
        reply == Got(Done) && w == PutRequest(old(w), to.(version := NextVersion(old(w))))
    {
      Interfere();
      if * {
        troubles := troubles + 1;
        return Lost;
      }
      if read.key !in w.requests {
        return Got(NotFound);
      }
      if w.requests[read.key].version != read.version {
        return Got(Conflict);
      }
      var next := to.(version := NextVersion(w));
      UpdateKeeps(old(w), w, read, next);
      w := PutRequest(w, next);
      if * {
        troubles := troubles + 1;
        return Lost;
      }
      return Got(Done);
    }

    /** The update that removes the finalizer from the request, which is being
        deleted and so is gone with it. */
    method RemoveFinalizer(read: Request) returns (reply: Reply<Update>)
      requires Inv(w)
      requires w.currentReads ==> CleanedUp(w, read.key, read.policy) && Current(w, read)
      modifies this
      ensures Inv(w) && w.opts == old(w.opts) && w.currentReads == old(w.currentReads)
      ensures reply == Got(Done) ==> read.key in w.finished
      ensures reply == Got(Done) && w.currentReads ==> w.finished[read.key] == read
      ensures troubles >= old(troubles)
      ensures troubles == old(troubles) && IsNow(old(w), read) ==>
        reply == Got(Done) && w == Finish(old(w), read.key)
    {
      Interfere();
      if * {
        troubles := troubles + 1;
        return Lost;
      }
      if read.key !in w.requests {
        return Got(NotFound);
      }
      if w.requests[read.key].version != read.version {
        return Got(Conflict);
      }
      if w.currentReads {
        CleanedUpStays(old(w), w, read.key, read.policy);
        CurrentStays(old(w), w, read);
      }
      FinishKeeps(w, read.key);
      w := Finish(w, read.key);
      if * {
        troubles := troubles + 1;
        return Lost;
      }
      return Got(Done);
    }
  }

  // The controller.

  /** Each object and the status were written for a state r of the request that
      held the finalizer. */
  ghost predicate IsReconciled(w: World, r: Request, h: ReqKey) {
    && r.key == h && r.finalizer && !r.deleting && r.grants.Some?
    && (forall k :: k in ObjectKeys(w.opts, r) ==> Written(w.history, k, h))
    && StatusWritten(w.history, w.opts, r)
  }

  class Controller {
    const server: Server
    const opts: Options

    constructor (server: Server, opts: Options)
      ensures this.server == server && this.opts == opts
    {
      this.server := server;
      this.opts := opts;
    }

    ghost predicate Valid()
      reads this, server
    {
      Inv(server.w) && server.w.opts == opts
    }

    /** Reads are current, no call was lost and no other client did anything since
        the troubles were n. */
    ghost predicate Calm(n: nat)
      reads server
    {
      server.troubles == n && server.w.currentReads
    }

    /** deleteOwn: deletes each object of keys that is an object of r and
        carries the registration label. */
    method DeleteOwn(r: Request, keys: seq<ObjKey>) returns (ok: bool)
      requires Valid() && WroteRequest(r) in server.w.history && (server.w.currentReads ==> Served(server.w, r))
      requires forall k :: k in keys ==> Justified(r, k) && (k.kind == StorageClass || k.ns == r.key.ns)
      modifies server
      ensures Valid() && Shrinks(old(server.w), server.w)
      ensures ok && server.w.currentReads ==> forall k :: k in keys ==> !HasHome(server.w, k, r.key)
      ensures server.troubles >= old(server.troubles)
      ensures Calm(old(server.troubles)) && IsNow(old(server.w), r) ==>
        ok && IsNow(server.w, r) && After(old(server.w), r.key, Takes(keys)) == Some(server.w)
    {
      ShrinksRefl(server.w);
      for i := 0 to |keys|
        invariant Valid() && Shrinks(old(server.w), server.w)
        invariant server.w.currentReads ==> Served(server.w, r) && GoneUpTo(server.w, keys, i, r.key)
        invariant server.troubles >= old(server.troubles)
        invariant Calm(old(server.troubles)) && IsNow(old(server.w), r) ==>
          IsNow(server.w, r) && After(old(server.w), r.key, Takes(keys[..i])) == Some(server.w)
      {
        ghost var before := server.w;
        var deleted := DeleteOne(r, keys[i]);
        DeletedOne(old(server.w), before, server.w, keys, i, r);
        TakesOne(old(server.w), before, keys, i, r);
        if !deleted {
          return false;
        }
      }
      assert keys[..|keys|] == keys;
      return true;
    }

    method DeleteOne(r: Request, k: ObjKey) returns (ok: bool)
      requires Valid() && WroteRequest(r) in server.w.history && Justified(r, k)
      requires server.w.currentReads ==> Served(server.w, r)
      requires k.kind == StorageClass || k.ns == r.key.ns
      modifies server
      ensures Valid() && Shrinks(old(server.w), server.w)
      ensures ok && server.w.currentReads ==> !HasHome(server.w, k, r.key)
      ensures server.troubles >= old(server.troubles)
      ensures Calm(old(server.troubles)) ==> ok && server.w == TakenAt(old(server.w), k, r)
    {
      var got := server.GetObject(k);
      if got.Lost? {
        return false;
      }
      if got.value.None? {
        return true;
      }
      var obj := got.value.value;
      ReadIsOwn(server.w, k, r);
      if !OfRequest(k, obj, r) || obj.labels.registration != opts.registration {
        return true;
      }
      ghost var read := server.w;
      ServedOn(old(server.w), read, r);
      var reply := server.DeleteObject(k, obj.uid, r);
      ShrinksTrans(old(server.w), read, server.w);
      return reply.Got? && reply.value != Conflict;
    }

    /** releaseOwner: removes the owner reference with uid from the object at k,
        and never creates the object. */
    method ReleaseOwner(k: ObjKey, uid: Uid) returns (ok: bool)
      requires Valid()
      modifies server
      ensures Valid() && Shrinks(old(server.w), server.w)
      ensures ok && server.w.currentReads ==> IsReleased(server.w, k, uid)
      ensures server.troubles >= old(server.troubles)
      ensures Calm(old(server.troubles)) ==> ok && server.w == ReleasedAt(old(server.w), k, uid)
    {
      var got := server.GetObject(k);
      if got.Lost? {
        return false;
      }
      if got.value.None? {
        return true;
      }
      var obj := got.value.value;
      ghost var read := server.w;
      if server.w.currentReads {
        assert ObjectOk(server.w, k, server.w.objects[k]);
      }
      var reply := server.PatchOwners(k, obj.version, obj.owners - {uid});
      ShrinksTrans(old(server.w), read, server.w);
      return reply.Got? && reply.value != Conflict;
    }

    method ExistingGrants(h: ReqKey) returns (got: Reply<seq<ObjKey>>)
      requires Valid()
      modifies server
      ensures Valid() && Shrinks(old(server.w), server.w)
      ensures got.Got? ==> forall k :: k in got.value ==> k.kind == Grant && k.ns == h.ns
      ensures got.Got? && server.w.currentReads ==>
        forall k :: k in got.value <==> IsListedGrant(server.w, k, h)
      ensures server.troubles >= old(server.troubles)
      ensures server.troubles == old(server.troubles) ==> got.Got? && server.w == old(server.w)
    {
      got := server.ListGrants(h);
    }
  
    /** cleanUp: applies the deletion policy of r to its objects. */
    method CleanUp(r: Request) returns (ok: bool, ghost found: seq<ObjKey>)
      requires Valid() && WroteRequest(r) in server.w.history && r.finalizer && r.deleting
      requires server.w.currentReads ==> Served(server.w, r)
      modifies server
      ensures Valid() && Shrinks(old(server.w), server.w)
      ensures ok && server.w.currentReads ==> CleanedUp(server.w, r.key, r.policy)
      ensures server.troubles >= old(server.troubles)
      ensures Calm(old(server.troubles)) && IsNow(old(server.w), r) ==>
        && ok && IsListing(old(server.w), r.key, found) && IsNow(server.w, r)
        && After(old(server.w), r.key, CleanUpCalls(opts, r, found)) == Some(server.w)
    {
      found := [];
      var grants := ExistingGrants(r.key);
      if grants.Lost? {
        ok := false;
        return;
      }
      ghost var listed := server.w;
      ServedOn(old(server.w), listed, r);
      var own := grants.value;
      found := own;
      if r.policy != Orphan {
        ok := DeleteOwn(r, FixedKeys(opts, r.key) + own);
        if ok && server.w.currentReads {
          DeletedAll(listed, server.w, r, own);
        }
      } else {
        ok := ReleaseAll(r, own);
        if ok && server.w.currentReads {
          ReleasedAll(listed, server.w, r, own);
        }
      }
      ShrinksTrans(old(server.w), listed, server.w);
    }

    /** The first loop of applyObjects: fails when an object of another writer
        has one of the names. */
    method CheckNames(r: Request, keys: seq<ObjKey>) returns (ok: bool)
      requires Valid() && r.key.name != ""
      requires server.w.currentReads ==> Served(server.w, r)
      requires AreKeysOf(opts, r, keys)
      modifies server
      ensures Valid() && Shrinks(old(server.w), server.w)
      ensures ok && server.w.currentReads ==> FreeUpTo(server.w, keys, |keys|, r.key)
      ensures server.troubles >= old(server.troubles)
      ensures Calm(old(server.troubles)) ==>
        server.w == old(server.w) && (ok <==> NamesAreFree(old(server.w), keys, r))
    {
      ShrinksRefl(server.w);
      ok := true;
      for i := 0 to |keys|
        invariant Valid() && Shrinks(old(server.w), server.w) && ok
        invariant server.w.currentReads ==> Served(server.w, r)
        invariant server.w.currentReads ==> FreeUpTo(server.w, keys, i, r.key)
        invariant server.troubles >= old(server.troubles)
        invariant Calm(old(server.troubles)) ==>
          server.w == old(server.w) && NamesFreeUpTo(server.w, keys, i, r)
      {
        ghost var before := server.w;
        ok := CheckName(r, keys[i]);
        NextName(before, keys, i, r);
        CheckedOne(old(server.w), before, server.w, keys, i, r);
        if !ok {
          return;
        }
      }
    }

    method CheckName(r: Request, k: ObjKey) returns (ok: bool)
      requires Valid() && IsKeyOf(opts, r, k) && r.key.name != ""
      modifies server
      ensures Valid() && Shrinks(old(server.w), server.w)
      ensures ok && server.w.currentReads ==> Free(server.w, k, r.key)
      ensures ok && server.w.currentReads && k in server.w.objects ==> OfRequest(k, server.w.objects[k], r)
      ensures server.troubles >= old(server.troubles)
      ensures Calm(old(server.troubles)) ==> server.w == old(server.w) && (ok <==> NameIsFree(old(server.w), k, r))
    {
      var got := server.GetObject(k);
      if got.Lost? || (got.value.Some? && !OfRequest(k, got.value.value, r)) {
        return false;
      }
      if server.w.currentReads && got.value.Some? {
        OwnHasHome(server.w, k, r);
      }
      return true;
    }

    /** The second loop of applyObjects. */
    method ApplyAll(r: Request, keys: seq<ObjKey>) returns (ok: bool)
      requires Valid() && r.key.name != "" && FinalizedBefore(server.w.history, |server.w.history|, r.key)
      requires AreKeysOf(opts, r, keys)
      requires server.w.currentReads ==> Served(server.w, r) && FreeUpTo(server.w, keys, |keys|, r.key)
      modifies server
      ensures Valid() && Serves(old(server.w), server.w, r.key)
      ensures ok ==> forall k :: k in keys ==> Written(server.w.history, k, r.key)
      ensures server.troubles >= old(server.troubles)
      ensures Calm(old(server.troubles)) ==> ok && server.w == AppliedUpTo(old(server.w), keys, |keys|, r)
    {
      ShrinksRefl(server.w);
      ShrinksServes(server.w, server.w, r.key);
      for i := 0 to |keys|
        invariant Valid() && Serves(old(server.w), server.w, r.key)
        invariant FinalizedBefore(server.w.history, |server.w.history|, r.key)
        invariant server.w.currentReads ==> Served(server.w, r)
        invariant server.w.currentReads ==> FreeUpTo(server.w, keys, |keys|, r.key)
        invariant WrittenUpTo(server.w.history, keys, i, r.key)
        invariant server.troubles >= old(server.troubles)
        invariant Calm(old(server.troubles)) ==> server.w == AppliedUpTo(old(server.w), keys, i, r)
      {
        ghost var before := server.w;
        var reply := server.Apply(keys[i], r);
        AppliedOne(old(server.w), before, server.w, keys, i, r);
        if reply.Lost? {
          return false;
        }
      }
      return true;
    }

    /** applyObjects: applies the objects of r, and deletes each Grant of r that
        is not one of them. */
    method ApplyObjects(r: Request) returns (ok: bool, ghost found: seq<ObjKey>)
      requires Valid() && r.key.name != "" && FinalizedBefore(server.w.history, |server.w.history|, r.key)
      requires WroteRequest(r) in server.w.history && r.finalizer && !r.deleting
      requires server.w.currentReads ==> Served(server.w, r)
      modifies server
      ensures Valid() && Serves(old(server.w), server.w, r.key)
      ensures ok ==> r.grants.Some?
      ensures ok ==> forall k :: k in ObjectKeys(opts, r) ==> Written(server.w.history, k, r.key)
      ensures ok && server.w.currentReads ==> NoStaleGrant(server.w, r)
      ensures server.troubles >= old(server.troubles)
      ensures Calm(old(server.troubles)) && IsServing(old(server.w), r) ==>
        && (ok <==> CanServe(old(server.w), r))
        && (!ok ==> server.w == old(server.w))
        && (ok ==>
              && AreStaleGrants(old(server.w), r, found) && IsNow(server.w, r)
              && After(old(server.w), r.key, ApplyCalls(opts, r, found)) == Some(server.w))
    {
      found := [];
      ShrinksRefl(server.w);
      ShrinksServes(server.w, server.w, r.key);
      if r.grants.None? {
        ok := false;
        return;
      }
      var keys := ObjectKeys(opts, r);
      ok := CheckNames(r, keys);
      ghost var checked := server.w;
      ShrinksServes(old(server.w), checked, r.key);
      if !ok {
        return;
      }
      FinalizedLonger(old(server.w).history, checked.history, |old(server.w).history|, r.key);
      if server.w.currentReads {
        ServedStays(old(server.w), server.w, r.key, r);
      }
      ok, found := ApplyChecked(r, keys);
      ServesTrans(old(server.w), checked, server.w, r.key);
    }

    /** The rest of applyObjects, behind the check of the names. */
    method ApplyChecked(r: Request, keys: seq<ObjKey>) returns (ok: bool, ghost found: seq<ObjKey>)
      requires Valid() && r.key.name != "" && FinalizedBefore(server.w.history, |server.w.history|, r.key)
      requires WroteRequest(r) in server.w.history && r.finalizer && !r.deleting
      requires r.grants.Some? && keys == ObjectKeys(opts, r)
      requires server.w.currentReads ==> Served(server.w, r) && FreeUpTo(server.w, keys, |keys|, r.key)
      modifies server
      ensures Valid() && Serves(old(server.w), server.w, r.key)
      ensures ok ==> forall k :: k in keys ==> Written(server.w.history, k, r.key)
      ensures ok && server.w.currentReads ==> NoStaleGrant(server.w, r)
      ensures server.troubles >= old(server.troubles)
      ensures Calm(old(server.troubles)) && IsServing(old(server.w), r) ==>
        && ok && AreStaleGrants(old(server.w), r, found) && IsNow(server.w, r)
        && After(old(server.w), r.key, ApplyCalls(opts, r, found)) == Some(server.w)
    {
      found := [];
      ok := ApplyAll(r, keys);
      ghost var applied := server.w;
      if !ok {
        return;
      }
      if server.w.currentReads {
        ServedStays(old(server.w), applied, r.key, r);
      }
      ok, found := DeleteStale(r, keys);
      if Calm(old(server.troubles)) && IsServing(old(server.w), r) {
        AppliesThenTakes(old(server.w), server.w, r, found);
      }
      ShrinksServes(applied, server.w, r.key);
      ServesTrans(old(server.w), applied, server.w, r.key);
      AllWrittenStay(applied.history, server.w.history, keys, r.key);
    }

    /** The Grants of r that are not among keys: none of them is left. */
    method DeleteStale(r: Request, keys: seq<ObjKey>) returns (ok: bool, ghost found: seq<ObjKey>)
      requires Valid() && r.grants.Some? && keys == ObjectKeys(opts, r)
      requires WroteRequest(r) in server.w.history && r.finalizer && !r.deleting
      requires server.w.currentReads ==> Served(server.w, r)
      modifies server
      ensures Valid() && Shrinks(old(server.w), server.w)
      ensures ok && server.w.currentReads ==> NoStaleGrant(server.w, r)
      ensures server.troubles >= old(server.troubles)
      ensures Calm(old(server.troubles)) && IsNow(old(server.w), r) ==>
        && ok && AreStaleGrants(old(server.w), r, found) && IsNow(server.w, r)
        && After(old(server.w), r.key, Takes(found)) == Some(server.w)
    {
      found := [];
      var grants := ExistingGrants(r.key);
      if grants.Lost? {
        ok := false;
        return;
      }
      ghost var listed := server.w;
      ghost var before := server.troubles;
      var stale: seq<ObjKey> := [];
      for i := 0 to |grants.value|
        invariant server.w == listed && server.troubles == before
        invariant AreStale(r, stale) && forall k :: k in stale ==> k in grants.value && k !in keys
        invariant forall j :: 0 <= j < i ==> grants.value[j] in keys || grants.value[j] in stale
      {
        if grants.value[i] !in keys {
          UnwantedIsStale(opts, r, grants.value[i]);
          stale := stale + [grants.value[i]];
        }
      }
      found := stale;
      ServedOn(old(server.w), listed, r);
      ok := DeleteOwn(r, stale);
      if ok && server.w.currentReads {
        NothingStale(listed, server.w, r, grants.value, stale);
      }
      ShrinksTrans(old(server.w), listed, server.w);
    }

    /** writeStatus: the outputs and the resource rows of r. */
    method WriteStatus(r: Request) returns (ok: bool)
      requires Valid() && r.finalizer && r.registration == opts.registration && WroteRequest(r) in server.w.history
      requires server.w.currentReads ==> Current(server.w, r)
      modifies server
      ensures Valid() && Shrinks(old(server.w), server.w)
      ensures ok ==> StatusWritten(server.w.history, opts, r)
      ensures server.troubles >= old(server.troubles)
      ensures Calm(old(server.troubles)) && IsNow(old(server.w), r) && r.grants.Some? ==>
        ok && server.w == StatusPut(old(server.w), r)
    {
      ShrinksRefl(server.w);
      if r.grants.None? {
        return false;
      }
      var grants := ExistingGrants(r.key);
      if grants.Lost? {
        return false;
      }
      ghost var listed := server.w;
      OccurredInOrder(server.w.history, WroteRequest(r));
      var to := WithStatus(opts, r);
      if to == r {
        return true;
      }
      if server.w.currentReads {
        CurrentStays(old(server.w), server.w, r);
      }
      var reply := server.UpdateRequest(r, to);
      ShrinksTrans(old(server.w), listed, server.w);
      return reply == Got(Done);
    }

    /** reconcileRequest: one pass for the request of key h. */
    method ReconcileRequest(h: ReqKey) returns (pass: Pass, ghost found: seq<ObjKey>)
      requires Valid()
      modifies server
      ensures Valid() && server.w.currentReads == old(server.w.currentReads)
      ensures pass == Released ==> h in server.w.finished
      ensures pass == Finalized ==> FinalizedBefore(server.w.history, |server.w.history|, h)
      ensures pass == Reconciled ==> exists r :: WroteRequest(r) in server.w.history && IsReconciled(server.w, r, h)
      ensures server.troubles >= old(server.troubles)
      ensures Calm(old(server.troubles)) ==> EndsPass(old(server.w), h, pass, found, server.w)
    {
      pass, found := Again, [];
      var got := server.GetRequest(h);
      if got.Lost? {
        return;
      }
      if got.value.None? || got.value.value.registration != opts.registration {
        pass := Nothing;
        return;
      }
      var r := got.value.value;
      if server.w.currentReads {
        ReadIsCurrent(server.w, r);
      }
      if !r.deleting {
        pass, found := Maintain(r);
        return;
      }
      if !r.finalizer {
        pass := Nothing;
        return;
      }
      pass, found := CleanAndRelease(r);
    }

    /** reconcileRequest, for a request that is being deleted and holds the
        finalizer. */
    method CleanAndRelease(r: Request) returns (pass: Pass, ghost found: seq<ObjKey>)
      requires Valid() && WroteRequest(r) in server.w.history && r.registration == opts.registration
      requires r.finalizer && r.deleting
      requires server.w.currentReads ==> Current(server.w, r) && Served(server.w, r)
      modifies server
      ensures Valid() && server.w.currentReads == old(server.w.currentReads)
      ensures pass == Again || (pass == Released && r.key in server.w.finished)
      ensures server.troubles >= old(server.troubles)
      ensures Calm(old(server.troubles)) && IsNow(old(server.w), r) ==>
        EndsPass(old(server.w), r.key, pass, found, server.w)
    {
      pass := Again;
      var cleaned;
      cleaned, found := CleanUp(r);
      if !cleaned {
        return;
      }
      if server.w.currentReads {
        CurrentStays(old(server.w), server.w, r);
      }
      ghost var before := server.w;
      var reply := server.RemoveFinalizer(r);
      if reply == Got(Done) {
        pass := Released;
      }
      if Calm(old(server.troubles)) && IsNow(old(server.w), r) {
        CleanedEnds(old(server.w), before, r, found);
      }
    }

    /** reconcileRequest, for a request that is not being deleted. */
    method Maintain(r: Request) returns (pass: Pass, ghost found: seq<ObjKey>)
      requires Valid() && WroteRequest(r) in server.w.history && r.registration == opts.registration && !r.deleting
      requires server.w.currentReads ==> Current(server.w, r) && RowsAreOf(opts, r)
      requires server.w.currentReads && r.finalizer ==> Served(server.w, r)
      modifies server
      ensures Valid() && server.w.currentReads == old(server.w.currentReads)
      ensures pass != Released
      ensures pass == Finalized ==> FinalizedBefore(server.w.history, |server.w.history|, r.key)
      ensures pass == Reconciled ==> WroteRequest(r) in server.w.history && IsReconciled(server.w, r, r.key)
      ensures server.troubles >= old(server.troubles)
      ensures Calm(old(server.troubles)) && IsNow(old(server.w), r) ==>
        EndsPass(old(server.w), r.key, pass, found, server.w)
    {
      pass, found := Again, [];
      var ready := server.GetReady();
      if ready != Got(true) {
        if ready.Got? {
          pass := Waiting;
        }
        return;
      }
      ShrinksServes(old(server.w), server.w, r.key);
      if server.w.currentReads {
        CurrentStays(old(server.w), server.w, r);
      }
      if !r.finalizer {
        var added := PutFinalizer(r);
        if added {
          pass := Finalized;
        }
        return;
      }
      if server.w.currentReads {
        ServedStays(old(server.w), server.w, r.key, r);
      }
      var served;
      served, found := Serve(r);
      if served {
        pass := Reconciled;
      }
    }

    /** The update that adds the finalizer. */
    method PutFinalizer(r: Request) returns (ok: bool)
      requires Valid() && ReadyBefore(server.w.history, |server.w.history|)
      requires r.registration == opts.registration && !r.deleting && !r.finalizer
      requires server.w.currentReads ==> Current(server.w, r) && RowsAreOf(opts, r)
      modifies server
      ensures Valid() && server.w.currentReads == old(server.w.currentReads)
      ensures ok ==> FinalizedBefore(server.w.history, |server.w.history|, r.key)
      ensures server.troubles >= old(server.troubles)
      ensures Calm(old(server.troubles)) && IsNow(old(server.w), r) && old(server.w).ready ==>
        ok && EndsPass(old(server.w), r.key, Finalized, [], server.w)
    {
      var reply := server.UpdateRequest(r, r.(finalizer := true));
      ok := reply == Got(Done);
      if ok {
        OccurredInOrder(server.w.history, WroteRequest(r.(finalizer := true, version := |server.w.history|)));
      }
      if Calm(old(server.troubles)) && IsNow(old(server.w), r) && old(server.w).ready {
        AddedEnds(old(server.w), r);
      }
    }

    /** The rest of reconcileRequest, for a request that holds the finalizer. */
    method Serve(r: Request) returns (ok: bool, ghost found: seq<ObjKey>)
      requires Valid() && r.finalizer && !r.deleting && WroteRequest(r) in server.w.history
      requires r.registration == opts.registration
      requires server.w.currentReads ==> Current(server.w, r) && Served(server.w, r)
      modifies server
      ensures Valid() && server.w.currentReads == old(server.w.currentReads)
      ensures ok ==> WroteRequest(r) in server.w.history && IsReconciled(server.w, r, r.key)
      ensures server.troubles >= old(server.troubles)
      ensures Calm(old(server.troubles)) && IsNow(old(server.w), r) ==>
        && (ok <==> CanServe(old(server.w), r))
        && (!ok ==> server.w == old(server.w))
        && (ok && old(server.w).ready ==> EndsPass(old(server.w), r.key, Reconciled, found, server.w))
    {
      OccurredInOrder(server.w.history, WroteRequest(r));
      ok, found := ApplyObjects(r);
      if !ok {
        return;
      }
      if server.w.currentReads {
        CurrentStays(old(server.w), server.w, r);
      }
      ghost var applied := server.w;
      ok := WriteStatus(r);
      if ok {
        AllWrittenStay(applied.history, server.w.history, ObjectKeys(opts, r), r.key);
      }
      if Calm(old(server.troubles)) && IsNow(old(server.w), r) && old(server.w).ready {
        StatusEnds(old(server.w), applied, r, found);
      }
    }

    /** Any run of the controller: passes for any requests, each of which may
        stop at any call, among any steps of other clients. */
    method Run(passes: nat)
      requires Valid()
      modifies server
      ensures Valid() && server.w.currentReads == old(server.w.currentReads)
    {
      for i := 0 to passes
        invariant Valid() && server.w.currentReads == old(server.w.currentReads)
      {
        server.Interfere();
        var h: ReqKey := *;
        var _, _ := ReconcileRequest(h);
      }
    }

    /** The loop over the Grants in the Orphan branch of cleanUp. */
    method ReleaseEach(r: Request, keys: seq<ObjKey>) returns (ok: bool)
      requires Valid()
      modifies server
      ensures Valid() && Shrinks(old(server.w), server.w)
      ensures ok && server.w.currentReads ==> forall k :: k in keys ==> OwnReleased(server.w, k, r)
      ensures server.troubles >= old(server.troubles)
      ensures Calm(old(server.troubles)) && IsOrphaned(old(server.w), r) ==>
        && ok && After(old(server.w), r.key, Releases(keys)) == Some(server.w)
        && IsOrphaned(server.w, r)
    {
      ShrinksRefl(server.w);
      for i := 0 to |keys|
        invariant Valid() && Shrinks(old(server.w), server.w)
        invariant server.w.currentReads ==> forall k :: k in keys[..i] ==> OwnReleased(server.w, k, r)
        invariant server.troubles >= old(server.troubles)
        invariant Calm(old(server.troubles)) && IsOrphaned(old(server.w), r) ==>
          IsOrphaned(server.w, r) && After(old(server.w), r.key, Releases(keys[..i])) == Some(server.w)
      {
        ghost var before := server.w;
        ok := ReleaseOwner(keys[i], r.uid);
        ReleasesOne(old(server.w), before, keys, i, r);
        ShrinksTrans(old(server.w), before, server.w);
        ReleasedStays(before, server.w, keys[..i], r);
        if !ok {
          return;
        }
        assert keys[..i + 1] == keys[..i] + [keys[i]];
      }
      assert keys[..|keys|] == keys;
      ok := true;
    }

    /** The owner references of the ConfigMap and of the Grants, in the Orphan
        branch of cleanUp. */
    method ReleaseKept(r: Request, grants: seq<ObjKey>) returns (ok: bool)
      requires Valid()
      modifies server
      ensures Valid() && Shrinks(old(server.w), server.w)
      ensures ok && server.w.currentReads ==>
        forall k :: k in [ConfigMapKey(r.key)] + grants ==> OwnReleased(server.w, k, r)
      ensures server.troubles >= old(server.troubles)
      ensures Calm(old(server.troubles)) && IsOrphaned(old(server.w), r) ==>
        && ok && IsOrphaned(server.w, r)
        && After(old(server.w), r.key, Releases([ConfigMapKey(r.key)] + grants)) == Some(server.w)
    {
      ok := ReleaseOwner(ConfigMapKey(r.key), r.uid);
      if !ok {
        return;
      }
      ghost var first := server.w;
      ok := ReleaseEach(r, grants);
      ShrinksTrans(old(server.w), first, server.w);
      ReleasedStays(first, server.w, [ConfigMapKey(r.key)], r);
      if Calm(old(server.troubles)) && IsOrphaned(old(server.w), r) {
        ReleasesBoth(old(server.w), server.w, r, grants);
      }
    }

    /** The Orphan branch of cleanUp. */
    method ReleaseAll(r: Request, grants: seq<ObjKey>) returns (ok: bool)
      requires Valid() && r.policy == Orphan && WroteRequest(r) in server.w.history && r.finalizer && r.deleting
      requires server.w.currentReads ==> Served(server.w, r)
      modifies server
      ensures Valid() && Shrinks(old(server.w), server.w)
      ensures ok && server.w.currentReads ==>
        && (forall k :: k == ConfigMapKey(r.key) || k in grants ==> OwnReleased(server.w, k, r))
        && (opts.access ==> !HasHome(server.w, IngressKey(r.key), r.key))
      ensures server.troubles >= old(server.troubles)
      ensures Calm(old(server.troubles)) && IsNow(old(server.w), r) ==>
        ok && IsNow(server.w, r) && After(old(server.w), r.key, CleanUpCalls(opts, r, grants)) == Some(server.w)
    {
      ghost var keys := [ConfigMapKey(r.key)] + grants;
      ok := ReleaseKept(r, grants);
      if !ok {
        return;
      }
      ghost var mid := server.w;
      ServedOn(old(server.w), mid, r);
      ok := DeleteOwn(r, AccessKeys(opts, r.key));
      ShrinksTrans(old(server.w), mid, server.w);
      ReleasedStays(mid, server.w, keys, r);
      assert opts.access ==> IngressKey(r.key) in AccessKeys(opts, r.key);
      if Calm(old(server.troubles)) && IsNow(old(server.w), r) {
        AfterBoth(old(server.w), r.key, Releases(keys), Takes(AccessKeys(opts, r.key)));
      }
    }
  }

  /** What a current read of a request gives. */
  lemma ReadIsCurrent(w: World, r: Request)
    requires Inv(w) && w.currentReads && r.key in w.requests && w.requests[r.key] == r
    ensures Current(w, r) && RowsAreOf(w.opts, r)
    ensures r.finalizer ==> Served(w, r)
  {
    assert RequestOk(w, r.key, r);
  }

  /** A state of the request of r with its outputs and its rows was written. */
  ghost predicate StatusWritten(history: seq<Write>, opts: Options, r: Request) {
    exists x :: WroteRequest(x) in history && x.key == r.key && x.outputs &&
      r.grants.Some? && x.rows == RowsOf(opts, r.key, r.grants.value)
  }

  lemma CheckedOne(start: World, before: World, w: World, keys: seq<ObjKey>, n: nat, r: Request)
    requires n < |keys| && Shrinks(start, before) && Shrinks(before, w)
    requires before.currentReads ==> Served(before, r) && FreeUpTo(before, keys, n, r.key)
    ensures Shrinks(start, w)
    ensures w.currentReads ==> Served(w, r)
    ensures w.currentReads && Free(w, keys[n], r.key) ==> FreeUpTo(w, keys, n + 1, r.key)
  {
    ShrinksTrans(start, before, w);
    ShrinksServes(before, w, r.key);
    if w.currentReads && Free(w, keys[n], r.key) {
      forall j | 0 <= j < n + 1
        ensures Free(w, keys[j], r.key)
      {
        if j < n {
          FreeStays(before, w, keys[j], r.key);
        }
      }
    }
  }

  lemma AllFreeServed(w: World, w': World, keys: seq<ObjKey>, r: Request)
    requires Serves(w, w', r.key)
    requires w.currentReads ==> Served(w, r) && FreeUpTo(w, keys, |keys|, r.key)
    ensures w.currentReads ==> Served(w', r) && FreeUpTo(w', keys, |keys|, r.key)
  {
    if w.currentReads {
      ServedStays(w, w', r.key, r);
      forall j | 0 <= j < |keys|
        ensures Free(w', keys[j], r.key)
      {
        FreeStays(w, w', keys[j], r.key);
      }
    }
  }

  lemma AppliedOne(start: World, before: World, w: World, keys: seq<ObjKey>, i: nat, r: Request)
    requires i < |keys| && Serves(start, before, r.key) && Serves(before, w, r.key)
    requires FinalizedBefore(before.history, |before.history|, r.key)
    requires before.currentReads ==> Served(before, r) && FreeUpTo(before, keys, |keys|, r.key)
    requires WrittenUpTo(before.history, keys, i, r.key)
    ensures Serves(start, w, r.key)
    ensures FinalizedBefore(w.history, |w.history|, r.key)
    ensures w.currentReads ==> Served(w, r) && FreeUpTo(w, keys, |keys|, r.key)
    ensures WrittenUpTo(w.history, keys, i, r.key)
  {
    ServesTrans(start, before, w, r.key);
    forall j | 0 <= j < i ensures Written(w.history, keys[j], r.key) {
      WrittenStays(before.history, w.history, keys[j], r.key);
    }
    FinalizedLonger(before.history, w.history, |before.history|, r.key);
    AllFreeServed(before, w, keys, r);
  }

  lemma AllWrittenStay(history: seq<Write>, longer: seq<Write>, keys: seq<ObjKey>, h: ReqKey)
    requires history <= longer && forall k :: k in keys ==> Written(history, k, h)
    ensures forall k :: k in keys ==> Written(longer, k, h)
  {
    forall k | k in keys ensures Written(longer, k, h) {
      WrittenStays(history, longer, k, h);
    }
  }

  lemma WrittenStays(history: seq<Write>, longer: seq<Write>, k: ObjKey, h: ReqKey)
    requires history <= longer && Written(history, k, h)
    ensures Written(longer, k, h)
  {
    var o :| WroteObject(k, o) in history && Home(k, o) == h;
    assert WroteObject(k, o) in longer;
  }

  /** An object of h was written at each of the first n keys. */
  ghost predicate WrittenUpTo(history: seq<Write>, keys: seq<ObjKey>, n: nat, h: ReqKey)
    requires n <= |keys|
  {
    forall j :: 0 <= j < n ==> Written(history, keys[j], h)
  }

  /** Each Grant of the request is one that the spec of r wants. */
  ghost predicate NoStaleGrant(w: World, r: Request)
    requires r.grants.Some?
  {
    forall k: ObjKey :: k.kind == Grant && HasHome(w, k, r.key) ==> k.name in r.grants.value
  }

  predicate AreStale(r: Request, keys: seq<ObjKey>) {
    forall k :: k in keys ==> k.kind == Grant && k.ns == r.key.ns && Justified(r, k)
  }

  lemma NothingStale(listed: World, w: World, r: Request, grants: seq<ObjKey>, stale: seq<ObjKey>)
    requires w.currentReads && Shrinks(listed, w) && Inv(w) && r.grants.Some?
    requires forall k :: IsListedGrant(listed, k, r.key) ==> k in grants
    requires forall k :: k in grants ==> k in ObjectKeys(w.opts, r) || k in stale
    requires forall k :: k in stale ==> !HasHome(w, k, r.key)
    ensures NoStaleGrant(w, r)
  {
    forall k: ObjKey | k.kind == Grant && HasHome(w, k, r.key)
      ensures k.name in r.grants.value
    {
      OwnKeyIsKnown(listed, w, r, k);
      assert k in ObjectKeys(w.opts, r);
      assert AreKeysOf(w.opts, r, ObjectKeys(w.opts, r));
    }
  }

  predicate OwnReleased(w: World, k: ObjKey, r: Request) {
    HasHome(w, k, r.key) ==> r.uid !in w.objects[k].owners
  }

  lemma ReleasedStays(w: World, w': World, keys: seq<ObjKey>, r: Request)
    requires Shrinks(w, w') && (w.currentReads ==> forall k :: k in keys ==> OwnReleased(w, k, r))
    ensures w.currentReads ==> forall k :: k in keys ==> OwnReleased(w', k, r)
  {
    if w.currentReads {
      forall k | k in keys && HasHome(w', k, r.key)
        ensures OwnReleased(w', k, r)
      {
        HomeWasThere(w, w', k, r.key);
      }
    }
  }

  lemma DeletedAll(listed: World, w: World, r: Request, grants: seq<ObjKey>)
    requires w.currentReads && Shrinks(listed, w) && Inv(w)
    requires forall k :: IsListedGrant(listed, k, r.key) ==> k in grants
    requires forall k :: k in FixedKeys(w.opts, r.key) + grants ==> !HasHome(w, k, r.key)
    ensures CleanedUp(w, r.key, r.policy)
  {
    forall k | HasHome(w, k, r.key)
      ensures k in FixedKeys(w.opts, r.key) + grants
    {
      OwnKeyIsKnown(listed, w, r, k);
    }
  }

  /** Each object of r is at a fixed key, or is a Grant that was listed. */
  lemma OwnKeyIsKnown(listed: World, w: World, r: Request, k: ObjKey)
    requires w.currentReads && Shrinks(listed, w) && Inv(w) && HasHome(w, k, r.key)
    ensures if k.kind == Grant then IsListedGrant(listed, k, r.key) else k in FixedKeys(w.opts, r.key)
  {
    assert ObjectOk(w, k, w.objects[k]);
    assert StillThere(listed, w, k);
    assert FixedKeys(w.opts, r.key)[0] == ConfigMapKey(r.key) && FixedKeys(w.opts, r.key)[1] == StorageClassKey(r.key);
    if k.kind == Ingress {
      assert FixedKeys(w.opts, r.key)[2] == k;
    }
  }

  lemma ReleasedAll(listed: World, w: World, r: Request, grants: seq<ObjKey>)
    requires w.currentReads && Shrinks(listed, w) && Inv(w) && Served(w, r) && r.policy == Orphan
    requires forall k :: IsListedGrant(listed, k, r.key) ==> k in grants
    requires forall k :: k == ConfigMapKey(r.key) || k in grants ==> OwnReleased(w, k, r)
    requires w.opts.access ==> !HasHome(w, IngressKey(r.key), r.key)
    ensures CleanedUp(w, r.key, Orphan)
  {
    forall k | HasHome(w, k, r.key)
      ensures k.kind != Ingress && w.objects[k].owners == {}
    {
      OwnKeyIsKnown(listed, w, r, k);
      assert ObjectOk(w, k, w.objects[k]);
      if k.kind != StorageClass {
        assert OwnReleased(w, k, r);
      }
    }
  }

  /** No object of h is at the first n keys. */
  ghost predicate GoneUpTo(w: World, keys: seq<ObjKey>, n: nat, h: ReqKey)
    requires n <= |keys|
  {
    forall j :: 0 <= j < n ==> !HasHome(w, keys[j], h)
  }

  lemma DeletedOne(start: World, before: World, w: World, keys: seq<ObjKey>, n: nat, r: Request)
    requires n < |keys| && Shrinks(start, before) && Shrinks(before, w)
    requires before.currentReads ==> Served(before, r) && GoneUpTo(before, keys, n, r.key)
    ensures Shrinks(start, w) && (w.currentReads ==> Served(w, r))
    ensures w.currentReads && !HasHome(w, keys[n], r.key) ==> GoneUpTo(w, keys, n + 1, r.key)
  {
    ShrinksTrans(start, before, w);
    ServedOn(before, w, r);
    if w.currentReads && !HasHome(w, keys[n], r.key) {
      forall j | 0 <= j < n + 1 ensures !HasHome(w, keys[j], r.key) {
        if HasHome(w, keys[j], r.key) {
          HomeWasThere(before, w, keys[j], r.key);
        }
      }
    }
  }

  predicate IsReleased(w: World, k: ObjKey, uid: Uid) {
    k in w.objects ==> uid !in w.objects[k].owners
  }
}
