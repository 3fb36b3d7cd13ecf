/** When the verdict about the finalizer is true: a run that the check passes for
    each list of views that lets it pass, and what that says about one object. */
module ProtocolLimits {
  import opened Api
  import opened Recording
  import opened Protocol
  import opened Checks
  import opened Reaching
  import Watching

  /** A moment of some run, in which every watch rests and the check of the
      request is at c. */
  ghost predicate IsAt(setup: Setup, m: Moment, taken: seq<nat>, heads: Heads, request: string, c: FinalizerCheck) {
    && Reaches(setup, m) && Shape(setup, m.run) && Quiet(m.run, taken) && m.run.heads == heads
    && m.checker == Finalizer(request, c)
  }

  lemma FinalizerReads(
      setup: Setup, m: Moment, taken: seq<nat>, heads: Heads, request: string, c: FinalizerCheck, a: FinalizerRead,
      c': FinalizerCheck)
    returns (next: Moment)
    requires IsAt(setup, m, taken, heads, request, c) && CanReadFinalizer(setup, m.run, request, c, a)
    requires AfterFinalizer(setup, m.run, request, c, a) == Some(c')
    ensures IsAt(setup, next, taken, heads, request, c') && next.run == m.run
  {
    next := ReadsOne(setup, m, FinalizerStep(a));
  }

  // Up to the first read of the request.

  function ListedLengths(setup: Setup): seq<nat> {
    seq(|setup.streams|, i requires 0 <= i < |setup.streams| => |setup.streams[i].listed|)
  }

  lemma StartsUp(setup: Setup) returns (m: Moment)
    requires setup.Valid() && setup.purpose.LifecycleRun?
    ensures Reaches(setup, m) && Shape(setup, m.run) && m.checker == Idle && m.run.heads == Initial(setup).heads
    ensures Quiet(m.run, ListedLengths(setup))
  {
    m := ReachesInitial(setup);
    var taken := seq(|setup.streams|, _ => 0);
    m := TakeTo(setup, m, taken, REQUESTS, |setup.streams[REQUESTS].listed|);
    taken := taken[REQUESTS := |setup.streams[REQUESTS].listed|];
    m := TakeTo(setup, m, taken, REGISTRATION, |setup.streams[REGISTRATION].listed|);
    taken := taken[REGISTRATION := |setup.streams[REGISTRATION].listed|];
    assert taken == ListedLengths(setup);
  }

  lemma ListedIsStarted(setup: Setup, s: Run)
    requires Shape(setup, s) && Quiet(s, ListedLengths(setup))
    ensures Started(setup, s)
  {
    forall k | 0 <= k < |s.watchers| ensures s.watchers[k].Done() >= |setup.streams[k].listed| {
      assert Rests(s.watchers[k], ListedLengths(setup)[k]);
    }
  }

  lemma PollsErr(setup: Setup, request: string) returns (m: Moment)
    requires setup.Valid() && setup.purpose.LifecycleRun?
    ensures IsAt(setup, m, ListedLengths(setup), Initial(setup).heads, request, Getting)
  {
    m := StartsUp(setup);
    ListedIsStarted(setup, m.run);
    m := ReadsOne(setup, m, StartFinalizer(request));
    m := FinalizerReads(
      setup, m, ListedLengths(setup), Initial(setup).heads, request, Polling, PollFinalizerErr, Getting);
  }

  /** taken differs from the first lists only in the requests. */
  predicate RequestsTaken(setup: Setup, taken: seq<nat>) {
    && |taken| == |setup.streams| > REQUESTS
    && (forall k :: 0 < k < |taken| ==> taken[k] == |setup.streams[k].listed|)
    && |setup.streams[REQUESTS].listed| <= taken[REQUESTS] <= |setup.streams[REQUESTS].Feed()|
  }

  lemma GetsRequest(setup: Setup, head: Heads, request: string, r: nat) returns (m: Moment)
    requires setup.Valid() && setup.purpose.LifecycleRun?
    requires HeadsOk(setup, head) && RequestShown(setup, head, request, r)
    ensures
      var req := setup.streams[REQUESTS].Feed()[r];
      IsAt(setup, m, ListedLengths(setup), head, request,
           Got(head, if FINALIZER_CLEANUP in req.finalizers then {req.uid} else {}))
  {
    var listed := ListedLengths(setup);
    m := PollsErr(setup, request);
    m := WriteTo(setup, m, head);
    var req := setup.streams[REQUESTS].Feed()[r];
    m := FinalizerReads(
      setup, m, listed, head, request, Getting, GetRequest(r),
      Got(head, if FINALIZER_CLEANUP in req.finalizers then {req.uid} else {}));
  }

  /** The watch takes the state of the request that the check read. */
  lemma TakesRequest(
      setup: Setup, m: Moment, head: Heads, request: string, r: nat, c: FinalizerCheck)
    returns (next: Moment, taken: seq<nat>)
    requires setup.Valid() && setup.purpose.LifecycleRun? && setup.DistinctObjects()
    requires IsAt(setup, m, ListedLengths(setup), head, request, c) && RequestShown(setup, head, request, r)
    ensures IsAt(setup, next, taken, head, request, c) && RequestsTaken(setup, taken)
    ensures
      var req := setup.streams[REQUESTS].Feed()[r];
      FINALIZER_CLEANUP in req.finalizers ==> req.uid in next.run.rec.seen
  {
    var listed := ListedLengths(setup);
    var n := if listed[REQUESTS] <= r then r + 1 else listed[REQUESTS];
    next := TakeTo(setup, m, listed, REQUESTS, n);
    taken := listed[REQUESTS := n];
    if FINALIZER_CLEANUP in setup.streams[REQUESTS].Feed()[r].finalizers {
      HasArrived(setup, next, taken, REQUESTS, r);
    }
  }

  /** Each keyed state that a resting watch took has its object seen and its mark. */
  lemma HasArrived(setup: Setup, m: Moment, taken: seq<nat>, i: nat, j: nat)
    requires setup.DistinctObjects() && Reaches(setup, m) && Quiet(m.run, taken)
    requires i < |setup.streams| == |taken| && j < taken[i] && setup.streams[i].Keyed(j)
    ensures setup.streams[i].Feed()[j].uid in m.run.rec.seen
    ensures setup.streams[i].keyOf.key(setup.streams[i].Feed()[j]) in m.run.rec.marks
  {
    ReachedInv(setup, m);
    assert Rests(m.run.watchers[i], taken[i]);
    ArrivedHasMark(setup, m.run, i, j);
  }

  lemma SawTheRequest(setup: Setup, head: Heads, request: string) returns (m: Moment, taken: seq<nat>)
    requires setup.Valid() && setup.purpose.LifecycleRun? && setup.DistinctObjects()
    requires HeadsOk(setup, head) && RequestRead(setup, head, request)
    ensures IsAt(setup, m, taken, head, request, Listing([head, head])) && RequestsTaken(setup, taken)
  {
    var r :| RequestShown(setup, head, request, r);
    m := GetsRequest(setup, head, request, r);
    m, taken := TakesRequest(setup, m, head, request, r, m.checker.f);
    m := FinalizerReads(setup, m, taken, head, request, m.checker.f, SawRequest, Listing([head, head]));
  }

  // The lists of the kinds.

  lemma ListsNext(
      setup: Setup, m: Moment, taken: seq<nat>, views: seq<Heads>, request: string, heads: Heads)
    returns (next: Moment)
    requires setup.Valid() && views != [] && |views| < |setup.streams|
    requires IsAt(setup, m, taken, views[|views| - 1], request, Listing(views))
    requires HeadsOk(setup, heads) && Below(views[|views| - 1], heads)
    ensures IsAt(setup, next, taken, heads, request, Listing(views + [heads]))
  {
    next := WriteTo(setup, m, heads);
    next := FinalizerReads(setup, next, taken, heads, request, Listing(views), ListKind, Listing(views + [heads]));
  }

  lemma ViewsMove(setup: Setup, views: seq<Heads>, request: string, k: nat)
    requires ViewsOk(setup, views, request) && 0 < k < |views|
    ensures HeadsOk(setup, views[k]) && Below(views[k - 1], views[k])
  {}

  lemma ListsAt(setup: Setup, m: Moment, taken: seq<nat>, views: seq<Heads>, request: string, k: nat)
    returns (next: Moment)
    requires setup.Valid() && 0 < k < |views| <= |setup.streams|
    requires HeadsOk(setup, views[k]) && Below(views[k - 1], views[k])
    requires IsAt(setup, m, taken, views[k - 1], request, Listing(views[..k]))
    ensures IsAt(setup, next, taken, views[k], request, Listing(views[..k + 1]))
  {
    assert views[..k][k - 1] == views[k - 1] && views[..k] + [views[k]] == views[..k + 1];
    next := ListsNext(setup, m, taken, views[..k], request, views[k]);
  }

  lemma ListsFirst(setup: Setup, views: seq<Heads>, request: string) returns (m: Moment, taken: seq<nat>)
    requires setup.Valid() && setup.purpose.LifecycleRun? && setup.DistinctObjects()
    requires ViewsOk(setup, views, request)
    ensures IsAt(setup, m, taken, views[1], request, Listing(views[..2])) && RequestsTaken(setup, taken)
  {
    m, taken := SawTheRequest(setup, views[0], request);
    assert views[..2] == [views[0], views[0]];
  }

  lemma ListsMore(setup: Setup, m: Moment, taken: seq<nat>, views: seq<Heads>, request: string, k: nat)
    returns (next: Moment)
    requires setup.Valid() && ViewsOk(setup, views, request) && 0 < k < |views|
    requires IsAt(setup, m, taken, views[k - 1], request, Listing(views[..k]))
    ensures IsAt(setup, next, taken, views[k], request, Listing(views[..k + 1]))
  {
    ViewsMove(setup, views, request, k);
    next := ListsAt(setup, m, taken, views, request, k);
  }

  lemma {:induction false} ListsTo(setup: Setup, views: seq<Heads>, request: string, n: nat)
    returns (m: Moment, taken: seq<nat>)
    requires setup.Valid() && setup.purpose.LifecycleRun? && setup.DistinctObjects()
    requires ViewsOk(setup, views, request) && 2 <= n <= |views|
    ensures IsAt(setup, m, taken, views[n - 1], request, Listing(views[..n])) && RequestsTaken(setup, taken)
  {
    if n == 2 {
      m, taken := ListsFirst(setup, views, request);
    } else {
      m, taken := ListsTo(setup, views, request, n - 1);
      m := ListsMore(setup, m, taken, views, request, n - 1);
    }
  }

  lemma ListsAll(setup: Setup, views: seq<Heads>, request: string) returns (m: Moment, taken: seq<nat>)
    requires setup.Valid() && setup.purpose.LifecycleRun? && setup.DistinctObjects()
    requires Complete(setup, views, request)
    ensures
      IsAt(setup, m, taken, views[|views| - 1], request, Seeing(views, ListedUids(setup, views, request)))
    ensures RequestsTaken(setup, taken)
  {
    m, taken := ListsTo(setup, views, request, |views|);
    assert views[..|views|] == views;
    m := FinalizerReads(
      setup, m, taken, views[|views| - 1], request, Listing(views), EndLists,
      Seeing(views, ListedUids(setup, views, request)));
  }

  // What the watches then take: of the requests at least n states, and of each
  // kind as much as the first states of its listed objects need.

  ghost predicate IsNeed(setup: Setup, views: seq<Heads>, request: string, i: nat, need: nat) {
    && (forall j: nat :: FirstListed(setup, views, request, i, j) ==> j < need)
    && (need > 0 ==> FirstListed(setup, views, request, i, need - 1))
  }

  lemma {:induction false} NeedUpTo(setup: Setup, views: seq<Heads>, request: string, i: nat, n: nat)
    returns (need: nat)
    requires i < |setup.streams| && n <= |setup.streams[i].Feed()|
    ensures need <= n && (need > 0 ==> FirstListed(setup, views, request, i, need - 1))
    ensures forall j: nat :: j < n && FirstListed(setup, views, request, i, j) ==> j < need
  {
    if n == 0 {
      need := 0;
    } else if FirstListed(setup, views, request, i, n - 1) {
      need := n;
    } else {
      need := NeedUpTo(setup, views, request, i, n - 1);
    }
  }

  lemma NeedOf(setup: Setup, views: seq<Heads>, request: string, i: nat) returns (need: nat)
    requires i < |setup.streams|
    ensures IsNeed(setup, views, request, i, need) && need <= |setup.streams[i].Feed()|
  {
    need := NeedUpTo(setup, views, request, i, |setup.streams[i].Feed()|);
  }

  /** The watches of the kinds below n took what they need, and the others nothing. */
  ghost predicate KindsTaken(setup: Setup, views: seq<Heads>, request: string, taken: seq<nat>, n: nat) {
    && |taken| == |setup.streams|
    && forall k: nat :: 2 <= k < |taken| ==>
         if k < n then IsNeed(setup, views, request, k, taken[k]) else taken[k] == 0
  }

  lemma TakesKind(setup: Setup, m: Moment, was: seq<nat>, views: seq<Heads>, request: string, c: FinalizerCheck, n: nat)
    returns (next: Moment, taken: seq<nat>)
    requires setup.Valid() && 2 <= n < |setup.streams|
    requires IsAt(setup, m, was, Full(setup), request, c) && KindsTaken(setup, views, request, was, n)
    ensures IsAt(setup, next, taken, Full(setup), request, c) && KindsTaken(setup, views, request, taken, n + 1)
    ensures taken[..2] == was[..2]
  {
    var need := NeedOf(setup, views, request, n);
    next := TakeTo(setup, m, was, n, need);
    taken := was[n := need];
  }

  lemma {:induction false} TakesKinds(
      setup: Setup, m: Moment, was: seq<nat>, views: seq<Heads>, request: string, c: FinalizerCheck, n: nat)
    returns (next: Moment, taken: seq<nat>)
    requires setup.Valid() && 2 <= n <= |setup.streams|
    requires IsAt(setup, m, was, Full(setup), request, c) && KindsTaken(setup, views, request, was, 2)
    ensures IsAt(setup, next, taken, Full(setup), request, c) && KindsTaken(setup, views, request, taken, n)
    ensures taken[..2] == was[..2]
  {
    if n == 2 {
      next, taken := m, was;
    } else {
      next, taken := TakesKinds(setup, m, was, views, request, c, n - 1);
      next, taken := TakesKind(setup, next, taken, views, request, c, n - 1);
    }
  }

  /** All that the verdict needs arrived: state n of the requests, and the kinds. */
  ghost predicate Arrived(setup: Setup, views: seq<Heads>, request: string, taken: seq<nat>, n: nat) {
    && KindsTaken(setup, views, request, taken, |setup.streams|) && |taken| >= 2
    && taken[REQUESTS] > n && taken[REQUESTS] >= |setup.streams[REQUESTS].listed|
    && taken[REGISTRATION] >= |setup.streams[REGISTRATION].listed|
  }

  lemma NoKindTaken(setup: Setup, views: seq<Heads>, request: string, taken: seq<nat>)
    requires setup.Valid() && setup.purpose.LifecycleRun? && |taken| == |setup.streams|
    requires forall k :: 2 <= k < |taken| ==> taken[k] == |setup.streams[k].listed|
    ensures KindsTaken(setup, views, request, taken, 2)
  {
    forall k: nat | 2 <= k < |taken| ensures taken[k] == 0 {
      KindStream(setup, k);
    }
  }

  lemma TakesAll(
      setup: Setup, m: Moment, was: seq<nat>, views: seq<Heads>, request: string, c: FinalizerCheck, n: nat)
    returns (next: Moment, taken: seq<nat>)
    requires setup.Valid() && setup.purpose.LifecycleRun? && n < |setup.streams[REQUESTS].Feed()|
    requires IsAt(setup, m, was, Full(setup), request, c) && RequestsTaken(setup, was)
    ensures IsAt(setup, next, taken, Full(setup), request, c) && Arrived(setup, views, request, taken, n)
  {
    var need := if was[REQUESTS] <= n then n + 1 else was[REQUESTS];
    next := TakeTo(setup, m, was, REQUESTS, need);
    var now := was[REQUESTS := need];
    NoKindTaken(setup, views, request, now);
    next, taken := TakesKinds(setup, next, now, views, request, c, |setup.streams|);
    assert taken[REQUESTS] == taken[..2][REQUESTS] == now[..2][REQUESTS];
    assert taken[REGISTRATION] == taken[..2][REGISTRATION] == now[..2][REGISTRATION];
  }

  lemma WritesRest(
      setup: Setup, m: Moment, taken: seq<nat>, heads: Heads, request: string, c: FinalizerCheck)
    returns (next: Moment)
    requires setup.Valid() && IsAt(setup, m, taken, heads, request, c) && HeadsOk(setup, heads)
    ensures IsAt(setup, next, taken, Full(setup), request, c)
  {
    FullIsOk(setup);
    OkIsBelowFull(setup, heads);
    next := WriteTo(setup, m, Full(setup));
  }

  lemma ArrivesAll(setup: Setup, views: seq<Heads>, request: string, n: nat) returns (m: Moment, taken: seq<nat>)
    requires setup.Valid() && setup.purpose.LifecycleRun? && setup.DistinctObjects()
    requires Complete(setup, views, request) && n < |setup.streams[REQUESTS].Feed()|
    ensures IsAt(setup, m, taken, Full(setup), request, Seeing(views, ListedUids(setup, views, request)))
    ensures Arrived(setup, views, request, taken, n)
  {
    m, taken := ListsAll(setup, views, request);
    ViewsMove(setup, views, request, |views| - 1);
    var c := Seeing(views, ListedUids(setup, views, request));
    m := WritesRest(setup, m, taken, views[|views| - 1], request, c);
    m, taken := TakesAll(setup, m, taken, views, request, c, n);
  }

  // The polls end and the verdict passes.

  /** The first watched state of the object of state j. */
  lemma {:induction false} FirstStateOf(setup: Setup, i: nat, j: nat) returns (first: nat)
    requires 2 <= i < |setup.streams| && j < |setup.streams[i].Feed()|
    ensures IsFirstState(setup, i, first) && first <= j
    ensures setup.streams[i].Feed()[first].uid == setup.streams[i].Feed()[j].uid
  {
    if k: nat :| k < j && setup.streams[i].Feed()[k].uid == setup.streams[i].Feed()[j].uid {
      first := FirstStateOf(setup, i, k);
    } else {
      first := j;
    }
  }

  /** Each listed object has a first watched state. */
  lemma ListedHasFirst(setup: Setup, views: seq<Heads>, request: string, uid: Uid) returns (i: nat, j: nat)
    requires uid in ListedUids(setup, views, request)
    ensures FirstListed(setup, views, request, i, j) && setup.streams[i].Feed()[j].uid == uid
  {
    var a: nat, k: nat :| a < |setup.streams| && k < |setup.streams[a].Feed()| &&
      ListedAt(setup, views, request, a, k) && setup.streams[a].Feed()[k].uid == uid;
    i := a;
    j := FirstStateOf(setup, i, k);
  }

  lemma ListedIsSeen(
      setup: Setup, m: Moment, taken: seq<nat>, views: seq<Heads>, request: string, n: nat, uid: Uid)
    requires setup.Valid() && setup.purpose.LifecycleRun? && setup.DistinctObjects()
    requires Reaches(setup, m) && Quiet(m.run, taken) && Arrived(setup, views, request, taken, n)
    requires uid in ListedUids(setup, views, request)
    ensures uid in m.run.rec.seen
  {
    var i, j := ListedHasFirst(setup, views, request, uid);
    assert IsNeed(setup, views, request, i, taken[i]);
    KindStream(setup, i);
    HasArrived(setup, m, taken, i, j);
  }

  lemma {:induction false} SeesAll(
      setup: Setup, m: Moment, taken: seq<nat>, heads: Heads, request: string, views: seq<Heads>, rest: set<Uid>)
    returns (next: Moment)
    requires IsAt(setup, m, taken, heads, request, Seeing(views, rest)) && rest <= m.run.rec.seen
    ensures IsAt(setup, next, taken, heads, request, Seeing(views, {})) && next.run == m.run
    decreases |rest|
  {
    if rest == {} {
      next := m;
    } else {
      var uid :| uid in rest;
      next := FinalizerReads(
        setup, m, taken, heads, request, Seeing(views, rest), SeeObject(uid), Seeing(views, rest - {uid}));
      next := SeesAll(setup, next, taken, heads, request, views, rest - {uid});
    }
  }

  /** The marks of such a moment are in the right order. */
  lemma MarksInOrder(
      setup: Setup, m: Moment, taken: seq<nat>, views: seq<Heads>, request: string, n: nat)
    requires setup.Valid() && setup.purpose.LifecycleRun? && setup.DistinctObjects() && Clean(setup, views, request)
    requires Reaches(setup, m) && Shape(setup, m.run) && Quiet(m.run, taken)
    requires Arrived(setup, views, request, taken, n) && HasKey(setup, REQUESTS, n, FinalizerKey(request))
    ensures FinalizerKey(request) in m.run.rec.marks
    ensures
      var o := FirstMark(m.run.rec, ObjectKey(request));
      o.Some? ==> !Before(o.value, m.run.rec.marks[FinalizerKey(request)])
  {
    HasArrived(setup, m, taken, REQUESTS, n);
    if ObjectKey(request) in m.run.rec.marks {
      ReachedInv(setup, m);
      ArrivedIsStarted(setup, m.run, taken, views, request, n);
      MarkIsLeast(setup, m.run, REQUESTS, FinalizerKey(request));
      ObjectIsLater(setup, m.run, taken, views, request, m.run.rec.marks[FinalizerKey(request)]);
    }
  }

  lemma ArrivedIsStarted(
      setup: Setup, s: Run, taken: seq<nat>, views: seq<Heads>, request: string, n: nat)
    requires setup.Valid() && setup.purpose.LifecycleRun? && Shape(setup, s) && Quiet(s, taken)
    requires Arrived(setup, views, request, taken, n)
    ensures Started(setup, s)
  {
    forall k | 0 <= k < |s.watchers| ensures s.watchers[k].Done() >= |setup.streams[k].listed| {
      assert Rests(s.watchers[k], taken[k]);
      if k >= 2 {
        KindStream(setup, k);
      }
    }
  }

  lemma NeededIsFinalized(setup: Setup, views: seq<Heads>, request: string, i: nat, need: nat, k: nat)
    requires Clean(setup, views, request) && IsNeed(setup, views, request, i, need) && k < need
    requires HasKey(setup, i, k, ObjectKey(request)) && setup.streams[i].Feed()[k].version.Comparable?
    ensures FinalizedBy(setup, request, setup.streams[i].Feed()[k].version.n)
  {
    assert FirstListed(setup, views, request, i, need - 1) && LabelAt(setup, i, k, need - 1, request);
  }

  lemma ObjectIsLater(
      setup: Setup, s: Run, taken: seq<nat>, views: seq<Heads>, request: string, f: Mark)
    requires setup.Valid() && setup.purpose.LifecycleRun? && Clean(setup, views, request)
    requires RecordsArrivals(setup, s) && InOrder(setup, s) && Quiet(s, taken)
    requires KindsTaken(setup, views, request, taken, |setup.streams|)
    requires IsLeast(setup, REQUESTS, FinalizerKey(request), f) && ObjectKey(request) in s.rec.marks
    ensures !Before(s.rec.marks[ObjectKey(request)], f)
  {
    var i, k := MarkHasArrived(setup, s, ObjectKey(request));
    assert i >= 2 && Rests(s.watchers[i], taken[i]) && IsNeed(setup, views, request, i, taken[i]);
    NeededIsFinalized(setup, views, request, i, taken[i], k);
    LeastIsBelow(setup, request, f, setup.streams[i].Feed()[k].version.n);
  }

  lemma LeastIsBelow(setup: Setup, request: string, f: Mark, n: nat)
    requires IsLeast(setup, REQUESTS, FinalizerKey(request), f) && FinalizedBy(setup, request, n)
    ensures f.version.n <= n
  {
    var r: nat :| KeyedUpTo(setup, REQUESTS, r, FinalizerKey(request), n);
    assert IsFrom(setup.streams[REQUESTS].Feed()[r].version, f.version.n);
  }

  lemma VerdictPasses(setup: Setup, m: Moment, taken: seq<nat>, heads: Heads, request: string, views: seq<Heads>)
    returns (next: Moment)
    requires IsAt(setup, m, taken, heads, request, Seeing(views, {})) && FinalizerKey(request) in m.run.rec.marks
    requires
      var o := FirstMark(m.run.rec, ObjectKey(request));
      o.Some? ==> !Before(o.value, m.run.rec.marks[FinalizerKey(request)])
    ensures IsAt(setup, next, taken, heads, request, FinalizerPassed(views))
  {
    var f := m.run.rec.marks[FinalizerKey(request)];
    next := FinalizerReads(setup, m, taken, heads, request, Seeing(views, {}), CheckErr, AllSeen(views));
    next := FinalizerReads(setup, next, taken, heads, request, AllSeen(views), ReadFinalizer, HasFinalizer(views, f));
    next := FinalizerReads(
      setup, next, taken, heads, request, HasFinalizer(views, f), ReadObject, FinalizerPassed(views));
  }

  // The theorems.

  /** In some run the check of the request passes, having listed at these views. */
  ghost predicate CanPass(setup: Setup, views: seq<Heads>, request: string) {
    exists m :: Reaches(setup, m) && m.checker == Finalizer(request, FinalizerPassed(views))
  }

  lemma PassRun(setup: Setup, views: seq<Heads>, request: string) returns (m: Moment)
    requires setup.Valid() && setup.purpose.LifecycleRun? && setup.DistinctObjects()
    requires MayPass(setup, views, request)
    ensures Reaches(setup, m) && m.checker == Finalizer(request, FinalizerPassed(views))
  {
    var n: nat :| HasKey(setup, REQUESTS, n, FinalizerKey(request));
    var taken: seq<nat>;
    m, taken := ArrivesAll(setup, views, request, n);
    forall uid | uid in ListedUids(setup, views, request) ensures uid in m.run.rec.seen {
      ListedIsSeen(setup, m, taken, views, request, n, uid);
    }
    MarksInOrder(setup, m, taken, views, request, n);
    m := SeesAll(setup, m, taken, Full(setup), request, views, ListedUids(setup, views, request));
    m := VerdictPasses(setup, m, taken, Full(setup), request, views);
  }

  /** The check can pass with the views exactly when they are views of a server,
      the finalizer ever occurs, and no state with the label that stands at or
      before the first state of a listed object of its kind is earlier than it. */
  lemma PassesIff(setup: Setup, views: seq<Heads>, request: string)
    requires setup.Valid() && setup.purpose.LifecycleRun? && setup.DistinctObjects()
    ensures CanPass(setup, views, request) <==> MayPass(setup, views, request)
  {
    if CanPass(setup, views, request) {
      var m :| Reaches(setup, m) && m.checker == Finalizer(request, FinalizerPassed(views));
      ReachedInv(setup, m);
      PassedMayPass(setup, m, request, views);
    }
    if MayPass(setup, views, request) {
      var m := PassRun(setup, views, request);
    }
  }

  /** Whenever the check of the request lists the object of state j of stream i
      and passes, some state with the finalizer is not later than that state. */
  ghost predicate VerdictHolds(setup: Setup, i: nat, j: nat, request: string)
    requires setup.Valid() && IsFirstState(setup, i, j)
  {
    forall views :: CanPass(setup, views, request) && FirstListed(setup, views, request, i, j) ==>
      FinalizedBy(setup, request, setup.streams[i].Feed()[j].version.n)
  }

  /** Views of the server at which the object of state j is listed, with objects
      before whose first states no label is earlier than the finalizer. */
  ghost predicate Escapes(setup: Setup, i: nat, j: nat, request: string, views: seq<Heads>) {
    && Complete(setup, views, request) && FirstListed(setup, views, request, i, j)
    && Clean(setup, views, request)
  }

  /** For a request that ever gets the finalizer, the verdict about an object is
      true in every run exactly when its first watched state is late enough, or
      each list that holds it also holds an object, itself or another one of its
      kind or of another, before whose first state the label occurs too early. */
  lemma FinalizerVerdictIff(setup: Setup, i: nat, j: nat, request: string)
    requires setup.Valid() && setup.purpose.LifecycleRun? && setup.DistinctObjects() && IsFirstState(setup, i, j)
    requires EverFinalized(setup, request)
    ensures
      VerdictHolds(setup, i, j, request) <==>
      || FinalizedBy(setup, request, setup.streams[i].Feed()[j].version.n)
      || !exists views :: Escapes(setup, i, j, request, views)
  {
    forall views | FirstListed(setup, views, request, i, j)
      ensures CanPass(setup, views, request) <==> Escapes(setup, i, j, request, views)
    {
      PassesIff(setup, views, request);
    }
  }

  /** An object that never carries the label is in no list. */
  lemma UnlabelledIsNeverListed(setup: Setup, i: nat, j: nat, request: string)
    requires setup.Valid() && setup.purpose.LifecycleRun? && setup.DistinctObjects() && IsFirstState(setup, i, j)
    requires
      forall k: nat :: HasKey(setup, i, k, ObjectKey(request)) ==>
        setup.streams[i].Feed()[k].uid != setup.streams[i].Feed()[j].uid
    ensures VerdictHolds(setup, i, j, request)
  {
    var uid := setup.streams[i].Feed()[j].uid;
    forall views ensures uid !in ListedUids(setup, views, request) {
      if uid in ListedUids(setup, views, request) {
        var a: nat, k: nat :| a < |setup.streams| && k < |setup.streams[a].Feed()| &&
          ListedAt(setup, views, request, a, k) && setup.streams[a].Feed()[k].uid == uid;
        SameStream(setup, a, k, i, j);
        KindStream(setup, i);
        assert HasKey(setup, i, k, ObjectKey(request));
        assert false;
      }
    }
  }

  // Two histories.

  const PREPARED :=
    Object("PluginRegistration", "", "r", 0, Comparable(0), false, map[], {}, false, {}, map[], map[])

  /** The request "b", which has the finalizer from version 9 on. */
  function RequestAt(n: nat): Object {
    Object("PluginRequest", "run", "b", 1, Comparable(n), false, map[], {}, false,
           if n < 9 then {} else {FINALIZER_CLEANUP}, map[], map[])
  }

  /** A ConfigMap with the label of request. */
  function Labelled(uid: Uid, n: nat, request: string): Object {
    Object("ConfigMap", "run", "x", uid, Comparable(n), true, map[LABEL_REQUEST := request], {}, false, {}, map[],
           map[])
  }

  function Quietly(keyOf: Watching.KeyOf, log: seq<Object>): Stream {
    Stream(keyOf, [], Comparable(0), log, {})
  }

  const REQUEST_STREAM := Quietly(RequestKeyOf(), [RequestAt(1), RequestAt(9)])
  const NO_REGISTRATION := Quietly(RegistrationKeyOf(FindCondition(PREPARED, "Accepted")), [])

  /** A run with the request "b" and the states of ConfigMaps. */
  function RunWith(maps: seq<Object>): Setup {
    Setup([REQUEST_STREAM, NO_REGISTRATION, Quietly(KindKeyOf(), maps)], LifecycleRun(PREPARED))
  }

  lemma QuietlyIsValid(keyOf: Watching.KeyOf, log: seq<Object>)
    requires Watching.IsLog(log) && forall o :: o in log ==> o.version.n > 0
    ensures ValidStream(Quietly(keyOf, log)) && Quietly(keyOf, log).Feed() == log
  {}

  lemma RequestStreamIsValid()
    ensures ValidStream(REQUEST_STREAM) && ValidStream(NO_REGISTRATION)
  {
    QuietlyIsValid(RequestKeyOf(), [RequestAt(1), RequestAt(9)]);
    QuietlyIsValid(RegistrationKeyOf(FindCondition(PREPARED, "Accepted")), []);
  }

  lemma WithKindIsValid(kind: Stream)
    requires ValidStream(REQUEST_STREAM) && ValidStream(NO_REGISTRATION) && ValidStream(kind)
    requires kind.keyOf == KindKeyOf() && kind.listed == []
    ensures Setup([REQUEST_STREAM, NO_REGISTRATION, kind], LifecycleRun(PREPARED)).Valid()
  {
    var setup := Setup([REQUEST_STREAM, NO_REGISTRATION, kind], LifecycleRun(PREPARED));
    assert setup.streams[0] == REQUEST_STREAM && setup.streams[1] == NO_REGISTRATION && setup.streams[2] == kind;
  }

  lemma RunWithIsValid(maps: seq<Object>)
    requires Watching.IsLog(maps) && forall o :: o in maps ==> o.version.n > 0
    ensures RunWith(maps).Valid()
  {
    RequestStreamIsValid();
    QuietlyIsValid(KindKeyOf(), maps);
    WithKindIsValid(Quietly(KindKeyOf(), maps));
  }

  lemma RunWithIsDistinct(maps: seq<Object>)
    requires forall o :: o in maps ==> o.uid > 1
    ensures RunWith(maps).DistinctObjects() && EverFinalized(RunWith(maps), "b")
  {
    var setup := RunWith(maps);
    assert setup.streams[2].Feed() == maps;
    assert HasKey(setup, REQUESTS, 1, FinalizerKey("b"));
  }

  lemma NotFinalizedBefore(maps: seq<Object>, n: nat)
    requires n < 9
    ensures !FinalizedBy(RunWith(maps), "b", n)
  {}

  /** A ConfigMap of request "a" that then becomes one of "b". */
  const RELABELLED := [Labelled(2, 5, "a"), Labelled(2, 10, "b")]

  /** The input for which the verdict is false: the ConfigMap is written at
      version 5, the request gets its finalizer at version 9, and the check
      passes. */
  lemma RelabelledObjectPasses()
    ensures RunWith(RELABELLED).Valid() && IsFirstState(RunWith(RELABELLED), 2, 0)
    ensures !VerdictHolds(RunWith(RELABELLED), 2, 0, "b")
  {
    RunWithIsValid(RELABELLED);
    RunWithIsDistinct(RELABELLED);
    RelabelledEscapes(RunWith(RELABELLED));
  }

  lemma RelabelledEscapes(setup: Setup)
    requires setup == RunWith(RELABELLED) && setup.Valid() && setup.DistinctObjects() && EverFinalized(setup, "b")
    ensures IsFirstState(setup, 2, 0) && !VerdictHolds(setup, 2, 0, "b")
  {
    RelabelledViews([[2, 0, 2], [2, 0, 2], [2, 0, 2]]);
    NotFinalizedBefore(RELABELLED, 5);
    FinalizerVerdictIff(setup, 2, 0, "b");
  }

  lemma RelabelledViews(views: seq<Heads>)
    requires views == [[2, 0, 2], [2, 0, 2], [2, 0, 2]]
    ensures Escapes(RunWith(RELABELLED), 2, 0, "b", views)
  {
    var setup := RunWith(RELABELLED);
    assert IsCut(setup, [2, 0, 2], 10);
    assert RequestShown(setup, views[0], "b", 1);
    assert ListedAt(setup, views, "b", 2, 1);
    assert setup.streams[2].Feed()[1].uid == 2;
  }

  /** The same with another ConfigMap of "b" before the change. */
  const ACCOMPANIED := [Labelled(2, 5, "a"), Labelled(3, 6, "b"), Labelled(2, 10, "b")]

  /** Each list that holds the relabelled ConfigMap also holds the other one, which
      is earlier than the finalizer: no run that lists it passes. */
  lemma AccompaniedObjectFails()
    ensures RunWith(ACCOMPANIED).Valid() && IsFirstState(RunWith(ACCOMPANIED), 2, 0)
    ensures
      forall views :: FirstListed(RunWith(ACCOMPANIED), views, "b", 2, 0) ==>
        !CanPass(RunWith(ACCOMPANIED), views, "b")
  {
    RunWithIsValid(ACCOMPANIED);
    RunWithIsDistinct(ACCOMPANIED);
    forall views | FirstListed(RunWith(ACCOMPANIED), views, "b", 2, 0)
      ensures !CanPass(RunWith(ACCOMPANIED), views, "b")
    {
      AccompaniedStays(views);
      PassesIff(RunWith(ACCOMPANIED), views, "b");
    }
  }

  lemma AccompaniedStays(views: seq<Heads>)
    ensures !Escapes(RunWith(ACCOMPANIED), 2, 0, "b", views)
  {
    var setup := RunWith(ACCOMPANIED);
    if Escapes(setup, 2, 0, "b", views) {
      AccompaniedIsListed(views);
      NotFinalizedBefore(ACCOMPANIED, 6);
      assert FirstListed(setup, views, "b", 2, 1) && LabelAt(setup, 2, 1, 1, "b");
      assert false;
    }
  }

  lemma AccompaniedIsListed(views: seq<Heads>)
    requires 2 in ListedUids(RunWith(ACCOMPANIED), views, "b")
    ensures 3 in ListedUids(RunWith(ACCOMPANIED), views, "b")
  {
    var setup := RunWith(ACCOMPANIED);
    var i: nat, j: nat :| i < |setup.streams| && j < |setup.streams[i].Feed()| &&
      ListedAt(setup, views, "b", i, j) && setup.streams[i].Feed()[j].uid == 2;
    assert i == 2 && j == 2;
    assert ListedAt(setup, views, "b", 2, 1) && setup.streams[2].Feed()[1].uid == 3;
  }
}
