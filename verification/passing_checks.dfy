/** When checkAcceptedKept and orderVerdict can pass: for each history that lets
    one of them pass, a run in which it does. */
module PassingChecks {
  import opened Api
  import opened Recording
  import opened Protocol
  import opened Checks
  import opened Reaching
  import opened ProtocolLimits

  // checkAcceptedKept.

  /** A moment of some run, in which every watch rests and checkAcceptedKept is at
      c. */
  ghost predicate IsAccepted(setup: Setup, m: Moment, taken: seq<nat>, heads: Heads, c: AcceptedCheck) {
    && Reaches(setup, m) && Shape(setup, m.run) && Quiet(m.run, taken) && m.run.heads == heads
    && m.checker == Accepted(c)
  }

  /** A read at heads gives state r of the registration. */
  predicate ReadAt(setup: Setup, heads: Heads, r: nat)
    requires |setup.streams| >= 2
  {
    && |heads| == |setup.streams| && Visible(setup, heads, REGISTRATION) == r + 1
    && r !in setup.streams[REGISTRATION].removed
  }

  /** The check can read state r of the registration. */
  ghost predicate CanRead(setup: Setup, r: nat)
    requires |setup.streams| >= 2
  {
    exists heads :: HeadsOk(setup, heads) && ReadAt(setup, heads, r)
  }

  /** The recorder reached state r of the registration. */
  predicate HasReached(setup: Setup, s: Run, r: nat)
    requires |setup.streams| >= 2 && r < |RegistrationFeed(setup)|
  {
    REGISTRATION_STREAM in s.rec.latest && s.rec.latest[REGISTRATION_STREAM] == RegistrationFeed(setup)[r].version
  }

  lemma TakeRegistration(setup: Setup, m: Moment, taken: seq<nat>, r: nat) returns (next: Moment)
    requires setup.Valid() && setup.purpose.LifecycleRun?
    requires Reaches(setup, m) && Shape(setup, m.run) && Quiet(m.run, taken)
    requires |taken| > REGISTRATION && taken[REGISTRATION] == r && CanTake(setup, m.run, REGISTRATION)
    ensures Reaches(setup, next) && next.checker == m.checker && next.run.heads == m.run.heads
    ensures Quiet(next.run, taken[REGISTRATION := r + 1]) && HasReached(setup, next.run, r)
  {
    assert Rests(m.run.watchers[REGISTRATION], taken[REGISTRATION]);
    next := Acts(setup, m, Take(REGISTRATION));
    next := Acts(setup, next, Observe(REGISTRATION));
  }

  /** Up to the read of the registration. */
  lemma StartsToRead(setup: Setup) returns (m: Moment)
    requires setup.Valid() && setup.purpose.LifecycleRun?
    ensures Reaches(setup, m) && Shape(setup, m.run) && m.checker == Idle && m.run.heads == Initial(setup).heads
    ensures Quiet(m.run, ListedLengths(setup))
    ensures setup.streams[REGISTRATION].listed != [] ==> HasReached(setup, m.run, 0)
  {
    m := ReachesInitial(setup);
    var taken, n := seq(|setup.streams|, _ => 0), |setup.streams[REQUESTS].listed|;
    m := TakeTo(setup, m, taken, REQUESTS, n);
    taken := taken[REQUESTS := n];
    if setup.streams[REGISTRATION].listed != [] {
      assert Rests(m.run.watchers[REGISTRATION], 0);
      m := TakeRegistration(setup, m, taken, 0);
      taken := taken[REGISTRATION := 1];
    }
    assert taken == ListedLengths(setup);
  }

  lemma ReadsRegistration(setup: Setup, heads: Heads, r: nat) returns (m: Moment)
    requires setup.Valid() && setup.purpose.LifecycleRun? && HeadsOk(setup, heads) && ReadAt(setup, heads, r)
    requires r < |RegistrationFeed(setup)| && KeepsAt(setup, r)
    ensures IsAccepted(setup, m, ListedLengths(setup), heads, Waiting(r))
    ensures r < |setup.streams[REGISTRATION].listed| ==> HasReached(setup, m.run, r)
  {
    m := StartsToRead(setup);
    ListedIsStarted(setup, m.run);
    m := WriteTo(setup, m, heads);
    assert Started(setup, m.run);
    m := ReadsOne(setup, m, ReadRegistration);
  }

  lemma ReachesRead(setup: Setup, heads: Heads, r: nat) returns (m: Moment, taken: seq<nat>)
    requires setup.Valid() && setup.purpose.LifecycleRun? && HeadsOk(setup, heads) && ReadAt(setup, heads, r)
    requires r < |RegistrationFeed(setup)| && KeepsAt(setup, r)
    ensures IsAccepted(setup, m, taken, heads, Waiting(r)) && HasReached(setup, m.run, r)
    ensures |taken| == |setup.streams| && taken[REGISTRATION] == r + 1
  {
    m := ReadsRegistration(setup, heads, r);
    taken := ListedLengths(setup);
    if taken[REGISTRATION] <= r {
      m := TakeTo(setup, m, taken, REGISTRATION, r);
      taken := taken[REGISTRATION := r];
      assert Rests(m.run.watchers[REGISTRATION], r);
      m := TakeRegistration(setup, m, taken, r);
      taken := taken[REGISTRATION := r + 1];
    }
  }

  lemma ReachedRecords(setup: Setup, m: Moment)
    requires setup.DistinctObjects() && Reaches(setup, m)
    ensures RecordsArrivals(setup, m.run) && InOrder(setup, m.run)
  {
    ReachedInv(setup, m);
  }

  /** A mark of a change is that of a state that the recorder took. */
  lemma ChangeWasTaken(setup: Setup, m: Moment, taken: seq<nat>, r: nat)
    requires setup.Valid() && setup.purpose.LifecycleRun? && setup.DistinctObjects()
    requires Reaches(setup, m) && Shape(setup, m.run) && Quiet(m.run, taken)
    requires |taken| == |setup.streams| && taken[REGISTRATION] == r + 1
    requires AcceptedChanged in m.run.rec.marks
    ensures exists j: nat :: j <= r && !KeepsAt(setup, j)
  {
    ReachedRecords(setup, m);
    assert Rests(m.run.watchers[REGISTRATION], r + 1);
    var i, j := MarkHasArrived(setup, m.run, AcceptedChanged);
    assert i == REGISTRATION && !KeepsAt(setup, j);
  }

  lemma AcceptedReads(
      setup: Setup, m: Moment, taken: seq<nat>, heads: Heads, c: AcceptedCheck, a: AcceptedRead, c': AcceptedCheck)
    returns (next: Moment)
    requires IsAccepted(setup, m, taken, heads, c) && CanReadAccepted(setup, m.run, c, a)
    requires AfterAccepted(setup, m.run, c, a) == c'
    ensures IsAccepted(setup, next, taken, heads, c') && next.run == m.run
  {
    next := ReadsOne(setup, m, AcceptedStep(a));
  }

  lemma AcceptedRun(setup: Setup, r: nat) returns (m: Moment)
    requires setup.Valid() && setup.purpose.LifecycleRun? && setup.DistinctObjects() && CanRead(setup, r)
    requires r < |RegistrationFeed(setup)| && forall j: nat :: j <= r ==> KeepsAt(setup, j)
    ensures Reaches(setup, m) && m.checker == Accepted(KeptPassed(r))
  {
    var heads :| HeadsOk(setup, heads) && ReadAt(setup, heads, r);
    var taken: seq<nat>;
    m, taken := ReachesRead(setup, heads, r);
    if AcceptedChanged in m.run.rec.marks {
      ChangeWasTaken(setup, m, taken, r);
    }
    RegistrationIsComparable(setup, r);
    m := AcceptedReads(setup, m, taken, heads, Waiting(r), PollErr, NoFailure(r));
    m := AcceptedReads(setup, m, taken, heads, NoFailure(r), PollCaughtUp, CaughtUp(r));
    m := AcceptedReads(setup, m, taken, heads, CaughtUp(r), ReadChanged, KeptPassed(r));
  }

  lemma RegistrationIsComparable(setup: Setup, r: nat)
    requires setup.Valid() && setup.purpose.LifecycleRun? && r < |RegistrationFeed(setup)|
    ensures RegistrationFeed(setup)[r].version.Comparable?
  {
    var st := setup.streams[REGISTRATION];
    assert r < |st.listed| ==> st.listed[r] == st.Feed()[r];
    assert r >= |st.listed| ==> st.log[r - |st.listed|] == st.Feed()[r];
  }

  lemma AllKeepIsSame(setup: Setup, r: nat)
    requires |setup.streams| >= 2 && r < |RegistrationFeed(setup)|
    ensures
      (forall j: nat :: j <= r ==> KeepsAt(setup, j)) <==>
      setup.Kept().Some? &&
      forall j: nat :: j <= r ==> FindCondition(RegistrationFeed(setup)[j], "Accepted") == setup.Kept()
  {
    forall j: nat | j <= r
      ensures
        KeepsAt(setup, j) <==>
        setup.Kept().Some? && FindCondition(RegistrationFeed(setup)[j], "Accepted") == setup.Kept()
    {
      KeepsIsSame(setup, RegistrationFeed(setup)[j]);
    }
    assert KeepsAt(setup, 0) ==> setup.Kept().Some?;
  }

  /** In some run the check of state r passes. */
  ghost predicate AcceptedCanPass(setup: Setup, r: nat) {
    exists m :: Reaches(setup, m) && m.checker == Accepted(KeptPassed(r))
  }

  lemma PassedKeeps(setup: Setup, m: Moment, r: nat)
    requires setup.DistinctObjects() && Reaches(setup, m) && m.checker == Accepted(KeptPassed(r))
    ensures setup.Valid() && forall j: nat :: j <= r ==> KeepsAt(setup, j)
  {
    ReachedInv(setup, m);
  }

  lemma AcceptedPassesOrNot(setup: Setup, r: nat)
    requires setup.Valid() && setup.purpose.LifecycleRun? && setup.DistinctObjects() && CanRead(setup, r)
    requires r < |RegistrationFeed(setup)|
    ensures AcceptedCanPass(setup, r) <==> forall j: nat :: j <= r ==> KeepsAt(setup, j)
  {
    if AcceptedCanPass(setup, r) {
      var m :| Reaches(setup, m) && m.checker == Accepted(KeptPassed(r));
      PassedKeeps(setup, m, r);
    }
    if forall j: nat :: j <= r ==> KeepsAt(setup, j) {
      var m := AcceptedRun(setup, r);
    }
  }

  /** The check of a state of the registration can pass exactly when that state and
      each one before it has the Accepted condition of the start. */
  lemma AcceptedPassesIff(setup: Setup, r: nat)
    requires setup.Valid() && setup.purpose.LifecycleRun? && setup.DistinctObjects() && CanRead(setup, r)
    requires r < |RegistrationFeed(setup)|
    ensures
      AcceptedCanPass(setup, r) <==>
      setup.Kept().Some? &&
      forall j: nat :: j <= r ==> FindCondition(RegistrationFeed(setup)[j], "Accepted") == setup.Kept()
  {
    AcceptedPassesOrNot(setup, r);
    AllKeepIsSame(setup, r);
  }

  // orderVerdict.

  /** A moment of some run of checkRegistrationFirst, in which everything arrived and
      the verdict is at c. */
  ghost predicate IsOrder(setup: Setup, m: Moment, c: Checker) {
    && Reaches(setup, m) && Shape(setup, m.run) && m.checker == c
    && Quiet(m.run, [|setup.streams[REQUESTS].Feed()|, |setup.streams[REGISTRATION].Feed()|])
  }

  lemma OrderArrives(setup: Setup) returns (m: Moment)
    requires setup.Valid() && setup.purpose.OrderCheck?
    ensures IsOrder(setup, m, Idle) && Started(setup, m.run)
  {
    m := ReachesInitial(setup);
    FullIsOk(setup);
    m := WriteTo(setup, m, Full(setup));
    var n, k := |setup.streams[REQUESTS].Feed()|, |setup.streams[REGISTRATION].Feed()|;
    m := TakeTo(setup, m, [0, 0], REQUESTS, n);
    m := TakeTo(setup, m, [0, 0][REQUESTS := n], REGISTRATION, k);
    assert [0, 0][REQUESTS := n][REGISTRATION := k] == [n, k];
    assert Rests(m.run.watchers[REQUESTS], n) && Rests(m.run.watchers[REGISTRATION], k);
  }

  lemma OrderReads(setup: Setup, m: Moment, c: OrderCheck, a: OrderRead, c': OrderCheck) returns (next: Moment)
    requires IsOrder(setup, m, Order(c)) && CanReadOrder(c, a) && AfterOrder(m.run, c, a) == Some(c')
    ensures IsOrder(setup, next, Order(c')) && next.run == m.run
  {
    next := ReadsOne(setup, m, OrderStep(a));
  }

  lemma ServedIsMarked(setup: Setup, m: Moment, c: Checker)
    requires setup.Valid() && setup.purpose.OrderCheck? && setup.DistinctObjects()
    requires IsOrder(setup, m, c) && Started(setup, m.run) && EverServed(setup)
    ensures RequestServed in m.run.rec.marks
    ensures IsLeast(setup, REQUESTS, RequestServed, m.run.rec.marks[RequestServed])
  {
    var j: nat :| HasKey(setup, REQUESTS, j, RequestServed);
    var taken := [|setup.streams[REQUESTS].Feed()|, |setup.streams[REGISTRATION].Feed()|];
    HasArrived(setup, m, taken, REQUESTS, j);
    ReachedInv(setup, m);
    MarkIsLeast(setup, m.run, REQUESTS, RequestServed);
  }

  lemma ReadyIsMarked(setup: Setup, m: Moment, c: Checker, n: nat)
    requires setup.Valid() && setup.purpose.OrderCheck? && setup.DistinctObjects()
    requires IsOrder(setup, m, c) && Started(setup, m.run) && ReadyBy(setup, n)
    ensures RegistrationReady in m.run.rec.marks
    ensures UpTo(m.run.rec.marks[RegistrationReady].version, n)
  {
    var k: nat :| KeyedUpTo(setup, REGISTRATION, k, RegistrationReady, n);
    var taken := [|setup.streams[REQUESTS].Feed()|, |setup.streams[REGISTRATION].Feed()|];
    HasArrived(setup, m, taken, REGISTRATION, k);
    ReachedInv(setup, m);
    MarkIsLeast(setup, m.run, REGISTRATION, RegistrationReady);
    assert IsFrom(setup.streams[REGISTRATION].Feed()[k].version, m.run.rec.marks[RegistrationReady].version.n);
  }

  lemma OrderMarks(setup: Setup, m: Moment, c: Checker)
    requires setup.Valid() && setup.purpose.OrderCheck? && setup.DistinctObjects()
    requires IsOrder(setup, m, c) && Started(setup, m.run) && RequestIsLater(setup) && EverServed(setup)
    ensures RegistrationReady in m.run.rec.marks && RequestServed in m.run.rec.marks
    ensures !Before(m.run.rec.marks[RequestServed], m.run.rec.marks[RegistrationReady])
  {
    ServedIsMarked(setup, m, c);
    var n := m.run.rec.marks[RequestServed].version.n;
    var first: nat :| KeyedUpTo(setup, REQUESTS, first, RequestServed, n);
    ReadyIsMarked(setup, m, c, n);
  }

  lemma OrderRun(setup: Setup) returns (m: Moment)
    requires setup.Valid() && setup.purpose.OrderCheck? && setup.DistinctObjects()
    requires RequestIsLater(setup) && EverServed(setup)
    ensures Reaches(setup, m) && m.checker == Order(OrderPassed)
  {
    m := OrderArrives(setup);
    OrderMarks(setup, m, Idle);
    var ready := m.run.rec.marks[RegistrationReady];
    m := ReadsOne(setup, m, PollOrderErr);
    m := OrderReads(setup, m, NoOrderFailure, ReadReady, HasReady(ready));
    m := OrderReads(setup, m, HasReady(ready), ReadServed, OrderPassed);
  }

  /** The verdict can pass exactly when the request is served at some time, and no
      state in which it is served is earlier than each state of the registration
      with Ready=True. */
  lemma OrderPassesIff(setup: Setup)
    requires setup.Valid() && setup.purpose.OrderCheck? && setup.DistinctObjects()
    ensures
      (exists m :: Reaches(setup, m) && m.checker == Order(OrderPassed)) <==>
      RequestIsLater(setup) && EverServed(setup)
  {
    if m :| Reaches(setup, m) && m.checker == Order(OrderPassed) {
      ReachedInv(setup, m);
    }
    if RequestIsLater(setup) && EverServed(setup) {
      var m := OrderRun(setup);
    }
  }
}
