/** The watches of a run as one machine: every interleaving of their critical
    sections, with the server changing objects at any time. */
module Protocol {
  import opened Api
  import opened Recording
  import opened Watching

  const REGISTRATION_STREAM := "registration"

  /** acceptedProblem: now is the Accepted condition that the run started with. */
  predicate AcceptedKept(kept: Option<Condition>, now: Option<Condition>) {
    match (kept, now)
    case (Some(k), Some(n)) =>
      n.status == k.status && n.reason == k.reason && n.message == k.message &&
      n.observedGeneration == k.observedGeneration && n.lastTransition == k.lastTransition
    case _ => false
  }

  /** What is kept: the whole condition. */
  lemma KeptIsSame(kept: Option<Condition>, now: Option<Condition>)
    ensures AcceptedKept(kept, now) <==> kept.Some? && now == kept
  {}

  predicate KeepsAccepted(kept: Option<Condition>, reg: Object) {
    AcceptedKept(kept, FindCondition(reg, "Accepted"))
  }

  function RequestKeyOf(): KeyOf {
    KeyOf(None, (o: Object) => if FINALIZER_CLEANUP in o.finalizers then FinalizerKey(o.name) else NoKey)
  }

  function RegistrationKeyOf(kept: Option<Condition>): KeyOf {
    KeyOf(Some(REGISTRATION_STREAM), (o: Object) => if KeepsAccepted(kept, o) then NoKey else AcceptedChanged)
  }

  function KindKeyOf(): KeyOf {
    KeyOf(None, (o: Object) => ObjectKey(LabelOf(o, LABEL_REQUEST)))
  }

  /** The watches of checkRegistrationFirst: a request is served when it holds the
      finalizer or an output. */
  function ServedKeyOf(): KeyOf {
    KeyOf(
      None,
      (o: Object) => if FINALIZER_CLEANUP in o.finalizers || |o.outputs| > 0 then RequestServed else NoKey)
  }

  function ReadyKeyOf(): KeyOf {
    KeyOf(None, (o: Object) => if ConditionTrue(o, "Ready") then RegistrationReady else NoKey)
  }

  /** One watched list: the objects that its first list gave, the version of
      that list, and each state after it that the server ever writes. removed
      holds the places of the states that are deletions. */
  datatype Stream = Stream(
    keyOf: KeyOf, listed: seq<Object>, boundary: Version, log: seq<Object>, removed: set<nat>)
  {
    function Feed(): seq<Object> {
      listed + log
    }

    predicate Keyed(j: nat) {
      j < |Feed()| && keyOf.key(Feed()[j]) != NoKey
    }
  }

  const REQUESTS := 0
  const REGISTRATION := 1

  /** What the recorder is for: the run of the suite, which read the registration
      prepared before it started the recorder, or checkRegistrationFirst, which
      watches one registration and one request. */
  datatype Purpose = LifecycleRun(prepared: Object) | OrderCheck

  datatype Setup = Setup(streams: seq<Stream>, purpose: Purpose) {
    function Kept(): Option<Condition> {
      if purpose.LifecycleRun? then FindCondition(purpose.prepared, "Accepted") else None
    }

    ghost predicate Valid() {
      && |streams| >= 2
      && (forall i :: 0 <= i < |streams| ==> ValidStream(streams[i]))
      && |streams[REGISTRATION].listed| <= 1
      && if purpose.LifecycleRun? then ValidRun(purpose.prepared) else ValidOrder()
    }

    ghost predicate ValidRun(prepared: Object)
      requires |streams| >= 2
    {
      && streams[REQUESTS].keyOf == RequestKeyOf()
      && streams[REGISTRATION].keyOf == RegistrationKeyOf(FindCondition(prepared, "Accepted"))
      && (forall i :: 2 <= i < |streams| ==> streams[i].keyOf == KindKeyOf() && streams[i].listed == [])
      && prepared.version.Comparable? && streams[REGISTRATION].boundary.Comparable?
      && prepared.version.n <= streams[REGISTRATION].boundary.n
      && (forall o :: o in streams[REGISTRATION].listed ==>
            o.version.Comparable? && prepared.version.n <= o.version.n)
    }

    ghost predicate ValidOrder()
      requires |streams| >= 2
    {
      && |streams| == 2 && |streams[REQUESTS].listed| <= 1
      && streams[REQUESTS].keyOf == ServedKeyOf()
      && streams[REGISTRATION].keyOf == ReadyKeyOf()
    }

    /** An object is in one stream. */
    ghost predicate DistinctObjects() {
      forall i, j, k, l ::
        0 <= i < j < |streams| && 0 <= k < |streams[i].Feed()| && 0 <= l < |streams[j].Feed()| ==>
          streams[i].Feed()[k].uid != streams[j].Feed()[l].uid
    }
  }

  ghost predicate ValidStream(s: Stream) {
    && IsLog(s.log)
    && IsBoundary(s.log, s.boundary, 0)
    && (forall i :: 0 <= i < |s.listed| ==> s.listed[i].version.Comparable? && s.listed[i].version.n <= s.boundary.n)
    && forall j :: j in s.removed ==> |s.listed| <= j
  }

  /** The goroutine of one stream: taken is how much of the feed it took, and
      pending says that keyOf ran on the last of it and observe did not yet. */
  datatype Watcher = Watcher(taken: nat, last: Version, pending: bool, stopped: bool) {
    function Done(): nat {
      if pending && taken > 0 then taken - 1 else taken
    }
  }

  /** How much of the log of each stream the server has written. */
  type Heads = seq<nat>

  datatype Arrival = Arrival(stream: nat, index: nat)

  datatype Run = Run(
    rec: State, arrived: seq<Arrival>, watchers: seq<Watcher>, heads: Heads)

  datatype Action =
    | Write(i: nat)                 // the server writes the next state of stream i
    | Take(i: nat)                  // keyOf on the next object of stream i
    | Observe(i: nat)               // observe on that object, when it has a key
    | GiveBookmark(i: nat, at: nat) // a bookmark of stream i
    | Restart(i: nat)               // the server closed the watch, and it starts again
    | Stop(i: nat, why: Failure)    // an error event, or a start that failed

  function Initial(setup: Setup): Run {
    Run(
      INITIAL.(
        latest :=
          if setup.purpose.LifecycleRun? then map[REGISTRATION_STREAM := setup.purpose.prepared.version] else map[]),
      [],
      seq(|setup.streams|, i requires 0 <= i < |setup.streams| =>
        Watcher(0, setup.streams[i].boundary, false, false)),
      seq(|setup.streams|, _ => 0))
  }

  /** The number of states among the first n of log up to version: where the
      server starts a watch after version. */
  function CountUpTo(log: seq<Object>, version: Version, n: nat): nat
    requires n <= |log|
  {
    if n == 0 then 0
    else
      var cmp := CompareVersions(log[n - 1].version, version);
      CountUpTo(log, version, n - 1) + (if cmp.Some? && cmp.value <= 0 then 1 else 0)
  }

  predicate Started(setup: Setup, s: Run) {
    && |s.watchers| == |setup.streams|
    && forall i :: 0 <= i < |s.watchers| ==> s.watchers[i].Done() >= |setup.streams[i].listed|
  }

  predicate Shape(setup: Setup, s: Run) {
    |s.watchers| == |s.heads| == |setup.streams| >= 2
  }

  predicate Idles(s: Run, i: nat) {
    i < |s.watchers| && !s.watchers[i].pending && !s.watchers[i].stopped
  }

  predicate CanTake(setup: Setup, s: Run, i: nat)
    requires Shape(setup, s)
  {
    && Idles(s, i)
    && s.watchers[i].taken < |setup.streams[i].listed| + s.heads[i]
    && s.watchers[i].taken < |setup.streams[i].Feed()|
  }

  /** keyOf on the next object of the feed. */
  function DoTake(setup: Setup, s: Run, i: nat): Run
    requires Shape(setup, s) && CanTake(setup, s, i)
  {
    var w, st := s.watchers[i], setup.streams[i];
    var obj := st.Feed()[w.taken];
    var last := if w.taken < |st.listed| then w.last else obj.version;
    s.(rec := Advanced(s.rec, st.keyOf, obj),
       watchers := s.watchers[i := w.(taken := w.taken + 1, last := last, pending := true)])
  }

  /** observe on the last object taken, when it has a key. */
  function DoObserve(setup: Setup, s: Run, i: nat): Run
    requires Shape(setup, s) && i < |s.watchers| && s.watchers[i].pending
  {
    var w, st := s.watchers[i], setup.streams[i];
    var j := w.Done();
    var settled := s.(watchers := s.watchers[i := w.(pending := false)]);
    if !st.Keyed(j) then settled
    else settled.(rec := ObservedKeyed(s.rec, st.keyOf, st.Feed()[j]), arrived := s.arrived + [Arrival(i, j)])
  }

  predicate CanBookmark(setup: Setup, s: Run, i: nat, at: nat)
    requires Shape(setup, s)
  {
    && Idles(s, i)
    && var w, st := s.watchers[i], setup.streams[i];
    && |st.listed| <= w.taken && w.last.Comparable? && w.last.n <= at
    && (w.taken < |st.Feed()| ==> st.Feed()[w.taken].version.Comparable? && at < st.Feed()[w.taken].version.n)
  }

  function DoBookmark(setup: Setup, s: Run, i: nat, at: nat): Run
    requires Shape(setup, s) && CanBookmark(setup, s, i, at)
  {
    var advances := setup.streams[i].keyOf.advances;
    s.(rec := if advances.Some? then s.rec.(latest := s.rec.latest[advances.value := Comparable(at)]) else s.rec,
       watchers := s.watchers[i := s.watchers[i].(last := Comparable(at))])
  }

  function DoRestart(setup: Setup, s: Run, i: nat): Run
    requires Shape(setup, s) && Idles(s, i)
  {
    var w, st := s.watchers[i], setup.streams[i];
    s.(watchers := s.watchers[i := w.(taken := |st.listed| + CountUpTo(st.log, w.last, |st.log|))])
  }

  function Written(s: Run, i: nat): Run
    requires i < |s.heads|
  {
    s.(heads := s.heads[i := s.heads[i] + 1])
  }

  function DoStop(s: Run, i: nat, why: Failure): Run
    requires i < |s.watchers|
  {
    s.(rec := s.rec.(failures := s.rec.failures + [why]),
       watchers := s.watchers[i := s.watchers[i].(stopped := true)])
  }

  /** The server writes in the order of the versions: the next state of stream i
      is not later than that of any other stream. */
  predicate IsNext(setup: Setup, heads: Heads, i: nat)
    requires |heads| == |setup.streams| && i < |heads| && heads[i] < |setup.streams[i].log|
  {
    forall k :: 0 <= k < |heads| && heads[k] < |setup.streams[k].log| ==>
      NotLater(setup.streams[i].log[heads[i]], setup.streams[k].log[heads[k]])
  }

  predicate NotLater(a: Object, b: Object) {
    a.version.Comparable? && b.version.Comparable? && a.version.n <= b.version.n
  }

  predicate Enabled(setup: Setup, s: Run, a: Action)
    requires Shape(setup, s)
  {
    match a
    case Write(i) => i < |s.heads| && s.heads[i] < |setup.streams[i].log| && IsNext(setup, s.heads, i)
    case Take(i) => CanTake(setup, s, i)
    case Observe(i) => i < |s.watchers| && s.watchers[i].pending
    case GiveBookmark(i, at) => CanBookmark(setup, s, i, at)
    case Restart(i) => Idles(s, i) && |setup.streams[i].listed| <= s.watchers[i].taken
    case Stop(i, _) => Idles(s, i)
  }

  function Do(setup: Setup, s: Run, a: Action): Run
    requires Shape(setup, s) && Enabled(setup, s, a)
  {
    match a
    case Write(i) => Written(s, i)
    case Take(i) => DoTake(setup, s, i)
    case Observe(i) => DoObserve(setup, s, i)
    case GiveBookmark(i, at) => DoBookmark(setup, s, i, at)
    case Restart(i) => DoRestart(setup, s, i)
    case Stop(i, why) => DoStop(s, i, why)
  }

  /** trace is a run of the machine under the actions. */
  ghost predicate IsTrace(setup: Setup, trace: seq<Run>, actions: seq<Action>) {
    && setup.Valid()
    && |trace| == |actions| + 1
    && trace[0] == Initial(setup)
    && forall k {:trigger actions[k]} :: 0 <= k < |actions| ==>
         && Shape(setup, trace[k])
         && Enabled(setup, trace[k], actions[k])
         && trace[k + 1] == Do(setup, trace[k], actions[k])
  }

  // What holds of every reachable state.

  predicate ArrivalOk(setup: Setup, a: Arrival) {
    a.stream < |setup.streams| && setup.streams[a.stream].Keyed(a.index)
  }

  function ObservationOf(setup: Setup, a: Arrival): Observation
    requires ArrivalOk(setup, a)
  {
    var st := setup.streams[a.stream];
    Observation(st.Feed()[a.index], st.keyOf.key(st.Feed()[a.index]))
  }

  function Observations(setup: Setup, arrived: seq<Arrival>): (obs: seq<Observation>)
    requires forall a :: a in arrived ==> ArrivalOk(setup, a)
    ensures |obs| == |arrived|
    ensures forall k :: 0 <= k < |arrived| ==> obs[k] == ObservationOf(setup, arrived[k])
  {
    seq(|arrived|, k requires 0 <= k < |arrived| => ObservationOf(setup, arrived[k]))
  }

  /** The recorder holds exactly the arrivals, in their order. */
  ghost predicate RecordsArrivals(setup: Setup, s: Run) {
    && (forall a :: a in s.arrived ==> ArrivalOk(setup, a))
    && s.rec.(latest := map[], failures := []) == ObservedAll(INITIAL, Observations(setup, s.arrived))
  }

  /** The arrivals of each stream are the states with a key among the first
      Done ones, once each and in order. */
  ghost predicate InOrder(setup: Setup, s: Run) {
    && |s.watchers| == |setup.streams|
    && (forall i: nat, j: nat {:trigger Arrival(i, j)} :: Arrival(i, j) in s.arrived <==>
          i < |s.watchers| && j < s.watchers[i].Done() && setup.streams[i].Keyed(j))
    && Ascending(s.arrived)
  }

  ghost predicate Ascending(arrived: seq<Arrival>) {
    forall a, b :: 0 <= a < b < |arrived| && arrived[a].stream == arrived[b].stream ==>
      arrived[a].index < arrived[b].index
  }

  ghost predicate WatcherOk(st: Stream, w: Watcher, head: nat) {
    && head <= |st.log|
    && w.taken <= |st.listed| + head
    && (w.pending ==> w.taken > 0)
    && IsBoundary(st.log, w.last, if w.taken <= |st.listed| then 0 else w.taken - |st.listed|)
  }

  ghost predicate WatchersOk(setup: Setup, s: Run)
    requires Shape(setup, s)
  {
    forall i :: 0 <= i < |s.watchers| ==> WatcherOk(setup.streams[i], s.watchers[i], s.heads[i])
  }

  /** No state that the recorder has not observed yet is below the reached
      version of the registration. */
  ghost predicate ReachedOk(setup: Setup, s: Run)
    requires setup.Valid() && |s.watchers| == |setup.streams|
  {
    setup.purpose.LifecycleRun? ==>
    && REGISTRATION_STREAM in s.rec.latest
    && s.rec.latest[REGISTRATION_STREAM].Comparable?
    && forall j :: s.watchers[REGISTRATION].Done() <= j < |setup.streams[REGISTRATION].Feed()| ==>
         s.rec.latest[REGISTRATION_STREAM].n <= setup.streams[REGISTRATION].Feed()[j].version.n
  }

  /** State j of stream i has key. */
  predicate HasKey(setup: Setup, i: nat, j: nat, key: Key) {
    && i < |setup.streams| && j < |setup.streams[i].Feed()|
    && setup.streams[i].keyOf.key(setup.streams[i].Feed()[j]) == key
  }

  /** What the keys of a run mean: a request has the key of the finalizer under
      its name exactly while it holds the finalizer, the registration has its key
      exactly while its Accepted condition is not the one of the start, and an
      object has the key of the request whose label it carries. */
  lemma RunKeysMean(setup: Setup, i: nat, j: nat, request: string)
    requires setup.Valid() && setup.purpose.LifecycleRun? && i < |setup.streams| && j < |setup.streams[i].Feed()|
    ensures
      var o := setup.streams[i].Feed()[j];
      && (HasKey(setup, i, j, FinalizerKey(request)) <==>
          i == REQUESTS && o.name == request && FINALIZER_CLEANUP in o.finalizers)
      && (HasKey(setup, i, j, AcceptedChanged) <==>
          i == REGISTRATION && !(setup.Kept().Some? && FindCondition(o, "Accepted") == setup.Kept()))
      && (HasKey(setup, i, j, ObjectKey(request)) <==> i >= 2 && LabelOf(o, LABEL_REQUEST) == request)
  {
    if i == REGISTRATION {
      KeptIsSame(setup.Kept(), FindCondition(setup.streams[i].Feed()[j], "Accepted"));
    }
  }

  /** What the keys of checkRegistrationFirst mean. */
  lemma OrderKeysMean(setup: Setup, i: nat, j: nat)
    requires setup.Valid() && setup.purpose.OrderCheck? && i < |setup.streams| && j < |setup.streams[i].Feed()|
    ensures
      var o := setup.streams[i].Feed()[j];
      && (HasKey(setup, i, j, RequestServed) <==>
          i == REQUESTS && (FINALIZER_CLEANUP in o.finalizers || o.outputs != map[]))
      && (HasKey(setup, i, j, RegistrationReady) <==> i == REGISTRATION && ConditionTrue(o, "Ready"))
  {
    var o := setup.streams[i].Feed()[j];
    assert |o.outputs| > 0 <==> o.outputs != map[];
  }

  predicate UpTo(v: Version, n: nat) {
    v.Comparable? && v.n <= n
  }

  /** State j of stream i has key, and a version up to n. */
  predicate KeyedUpTo(setup: Setup, i: nat, j: nat, key: Key, n: nat) {
    HasKey(setup, i, j, key) && UpTo(setup.streams[i].Feed()[j].version, n)
  }

  /** m has the least version of all the states of stream i with key, also of
      those that the server writes later. */
  ghost predicate IsLeast(setup: Setup, i: nat, key: Key, m: Mark) {
    && m.version.Comparable?
    && (exists j: nat :: KeyedUpTo(setup, i, j, key, m.version.n))
    && forall j: nat :: HasKey(setup, i, j, key) ==> IsFrom(setup.streams[i].Feed()[j].version, m.version.n)
  }

  predicate IsFrom(v: Version, n: nat) {
    v.Comparable? && n <= v.n
  }

  /** State j of stream i is the first watched state of an object of a kind of
      the plugin. */
  ghost predicate IsFirstState(setup: Setup, i: nat, j: nat) {
    && 2 <= i < |setup.streams| && j < |setup.streams[i].Feed()|
    && forall k :: 0 <= k < j ==> setup.streams[i].Feed()[k].uid != setup.streams[i].Feed()[j].uid
  }

  /** The first n states of log are those up to version v; one state with that
      very version can be on either side. */
  predicate CutOk(log: seq<Object>, n: nat, v: nat) {
    && n <= |log|
    && (0 < n ==> UpTo(log[n - 1].version, v))
    && (n < |log| ==> IsFrom(log[n].version, v))
  }

  predicate IsCut(setup: Setup, heads: Heads, v: nat) {
    |heads| == |setup.streams| && forall i :: 0 <= i < |heads| ==> CutOk(setup.streams[i].log, heads[i], v)
  }

  /** Heads that the server can have: it writes all streams in the order of the
      versions. */
  ghost predicate HeadsOk(setup: Setup, heads: Heads) {
    exists v: nat :: IsCut(setup, heads, v)
  }

  predicate Below(a: Heads, b: Heads) {
    |a| == |b| && forall i :: 0 <= i < |a| ==> a[i] <= b[i]
  }

  ghost predicate Inv(setup: Setup, s: Run)
    requires setup.Valid()
  {
    && Shape(setup, s)
    && WatchersOk(setup, s)
    && RecordsArrivals(setup, s)
    && InOrder(setup, s)
    && ReachedOk(setup, s)
    && HeadsOk(setup, s.heads)
  }

  // The recorder holds the fold of the arrivals, so its marks are those of the
  // states that arrived.

  lemma FeedVersion(setup: Setup, i: nat, j: nat)
    requires setup.Valid() && i < |setup.streams| && j < |setup.streams[i].Feed()|
    ensures setup.streams[i].Feed()[j].version.Comparable?
  {
    assert ValidStream(setup.streams[i]);
  }

  lemma ObservationsComparable(setup: Setup, arrived: seq<Arrival>)
    requires setup.Valid() && forall a :: a in arrived ==> ArrivalOk(setup, a)
    ensures AllComparable(Observations(setup, arrived))
  {
    forall k | 0 <= k < |arrived|
      ensures Observations(setup, arrived)[k].obj.version.Comparable?
    {
      assert ArrivalOk(setup, arrived[k]);
      FeedVersion(setup, arrived[k].stream, arrived[k].index);
    }
  }

  /** Each state that arrived has a mark under its key that is not later. */
  lemma ArrivedHasMark(setup: Setup, s: Run, i: nat, j: nat)
    requires setup.Valid() && RecordsArrivals(setup, s) && InOrder(setup, s)
    requires i < |setup.streams| && j < s.watchers[i].Done() && setup.streams[i].Keyed(j)
    ensures
      var obj := setup.streams[i].Feed()[j];
      var key := setup.streams[i].keyOf.key(obj);
      && obj.uid in s.rec.seen
      && key in s.rec.marks && s.rec.marks[key].version.Comparable? && obj.version.Comparable?
      && s.rec.marks[key].version.n <= obj.version.n
  {
    assert Arrival(i, j) in s.arrived;
    var a: nat :| a < |s.arrived| && s.arrived[a] == Arrival(i, j);
    ObservationsComparable(setup, s.arrived);
    LeastMark(Observations(setup, s.arrived), a);
  }

  /** Each mark is that of a state that arrived under its key. */
  lemma MarkHasArrived(setup: Setup, s: Run, key: Key) returns (i: nat, j: nat)
    requires setup.Valid() && RecordsArrivals(setup, s) && InOrder(setup, s)
    requires key in s.rec.marks
    ensures i < |setup.streams| && j < s.watchers[i].Done() && setup.streams[i].Keyed(j)
    ensures
      var obj := setup.streams[i].Feed()[j];
      setup.streams[i].keyOf.key(obj) == key && s.rec.marks[key].version == obj.version && obj.version.Comparable?
  {
    var obs := Observations(setup, s.arrived);
    var a := MarkIndex(obs, key);
    i, j := s.arrived[a].stream, s.arrived[a].index;
    assert obs[a] == ObservationOf(setup, s.arrived[a]);
    assert Arrival(i, j) in s.arrived;
    FeedVersion(setup, i, j);
  }

  /** Some arrival has the UID of an object that the recorder saw. */
  lemma SeenHasArrived(setup: Setup, s: Run, uid: Uid) returns (a: Arrival)
    requires RecordsArrivals(setup, s) && uid in s.rec.seen
    ensures a in s.arrived && ArrivalOk(setup, a) && ObservationOf(setup, a).obj.uid == uid
  {
    var obs := Observations(setup, s.arrived);
    SeenIsUids(obs, uid);
    var k :| 0 <= k < |obs| && obs[k].obj.uid == uid;
    a := s.arrived[k];
  }

  /** An object that the recorder saw has its first watched state among the
      arrivals. */
  lemma SeenHasFirstState(setup: Setup, s: Run, i: nat, j: nat)
    requires setup.Valid() && setup.DistinctObjects() && RecordsArrivals(setup, s) && InOrder(setup, s)
    requires IsFirstState(setup, i, j) && setup.streams[i].Feed()[j].uid in s.rec.seen
    ensures j < s.watchers[i].Done()
  {
    var uid := setup.streams[i].Feed()[j].uid;
    var a := SeenHasArrived(setup, s, uid);
    SameStream(setup, a.stream, a.index, i, j);
    assert Arrival(a.stream, a.index) in s.arrived;
  }

  lemma SameStream(setup: Setup, i: nat, k: nat, j: nat, l: nat)
    requires setup.DistinctObjects() && i < |setup.streams| && j < |setup.streams|
    requires k < |setup.streams[i].Feed()| && l < |setup.streams[j].Feed()|
    requires setup.streams[i].Feed()[k].uid == setup.streams[j].Feed()[l].uid
    ensures i == j
  {}

  // The invariant holds in every reachable state.

  lemma InitialInv(setup: Setup)
    requires setup.Valid()
    ensures Inv(setup, Initial(setup))
  {
    var s := Initial(setup);
    forall i | 0 <= i < |s.watchers|
      ensures WatcherOk(setup.streams[i], s.watchers[i], s.heads[i])
    {
      assert ValidStream(setup.streams[i]);
    }
    assert ValidStream(setup.streams[REGISTRATION]);
    assert ReachedOk(setup, s);
    assert IsCut(setup, s.heads, 0);
  }

  lemma {:induction false} CountIsBoundary(log: seq<Object>, version: Version, pos: nat, n: nat)
    requires IsBoundary(log, version, pos) && n <= |log|
    ensures CountUpTo(log, version, n) == if n < pos then n else pos
  {
    if n > 0 {
      CountIsBoundary(log, version, pos, n - 1);
    }
  }

  /** No stream is done with more or less, and nothing arrived. */
  lemma NothingArrives(setup: Setup, s: Run, s': Run)
    requires RecordsArrivals(setup, s) && InOrder(setup, s)
    requires s'.arrived == s.arrived && |s'.watchers| == |s.watchers|
    requires forall i :: 0 <= i < |s.watchers| ==> s'.watchers[i].Done() == s.watchers[i].Done()
    requires SameRecord(s.rec.(failures := []), s'.rec.(failures := []))
    ensures RecordsArrivals(setup, s') && InOrder(setup, s')
  {}

  lemma BelowTrans(a: Heads, b: Heads, c: Heads)
    requires Below(b, c)
    ensures Below(a, b) ==> Below(a, c)
  {}

  lemma WatcherTakes(st: Stream, w: Watcher, head: nat, w': Watcher)
    requires ValidStream(st) && WatcherOk(st, w, head) && !w.pending
    requires w.taken < |st.listed| + head
    requires
      w' == w.(taken := w.taken + 1, pending := true,
               last := if w.taken < |st.listed| then w.last else st.log[w.taken - |st.listed|].version)
    ensures WatcherOk(st, w', head)
  {}

  /** The version of the state that the registration watch takes is not above
      that of any state that it has not observed. */
  lemma RegistrationIncreases(setup: Setup, j: nat, k: nat)
    requires setup.Valid() && j <= k < |setup.streams[REGISTRATION].Feed()|
    ensures
      var feed := setup.streams[REGISTRATION].Feed();
      feed[j].version.Comparable? && feed[k].version.Comparable? &&
      if j < k then feed[j].version.n < feed[k].version.n else feed[j].version == feed[k].version
  {
    var st := setup.streams[REGISTRATION];
    assert ValidStream(st);
    assert st.Feed()[k] == if k < |st.listed| then st.listed[k] else st.log[k - |st.listed|];
    assert st.Feed()[j] == if j < |st.listed| then st.listed[j] else st.log[j - |st.listed|];
  }

  lemma TakeKeeps(setup: Setup, s: Run, i: nat)
    requires setup.Valid() && Inv(setup, s) && CanTake(setup, s, i)
    ensures Inv(setup, DoTake(setup, s, i))
  {
    var s' := DoTake(setup, s, i);
    NothingArrives(setup, s, s');
    TakeKeepsWatchers(setup, s, i);
    TakeKeepsReached(setup, s, i);
  }

  lemma TakeKeepsWatchers(setup: Setup, s: Run, i: nat)
    requires Shape(setup, s) && WatchersOk(setup, s) && CanTake(setup, s, i) && ValidStream(setup.streams[i])
    ensures WatchersOk(setup, DoTake(setup, s, i))
  {
    WatcherTakes(setup.streams[i], s.watchers[i], s.heads[i], DoTake(setup, s, i).watchers[i]);
  }

  lemma TakeKeepsReached(setup: Setup, s: Run, i: nat)
    requires setup.Valid() && Shape(setup, s) && ReachedOk(setup, s) && CanTake(setup, s, i)
    ensures ReachedOk(setup, DoTake(setup, s, i))
  {
    var w, st := s.watchers[i], setup.streams[i];
    if i == REGISTRATION {
      FeedVersion(setup, i, w.taken);
      forall j | w.taken <= j < |st.Feed()|
        ensures st.Feed()[w.taken].version.n <= st.Feed()[j].version.n
      {
        RegistrationIncreases(setup, w.taken, j);
      }
    } else {
      assert st.keyOf.advances == None;
    }
  }

  lemma AscendingStep(arrived: seq<Arrival>, a: Arrival)
    requires Ascending(arrived) && forall b :: b in arrived && b.stream == a.stream ==> b.index < a.index
    ensures Ascending(arrived + [a])
  {
    var longer := arrived + [a];
    assert forall k :: 0 <= k < |arrived| ==> longer[k] == arrived[k] && arrived[k] in arrived;
  }

  /** The arrivals after state j of stream i, when it was the next one. */
  lemma ArrivalAdds(setup: Setup, s: Run, i: nat, j: nat)
    requires InOrder(setup, s) && i < |s.watchers| && j == s.watchers[i].Done()
    ensures Ascending(s.arrived + [Arrival(i, j)])
    ensures
      forall a: nat, b: nat {:trigger Arrival(a, b)} ::
        Arrival(a, b) in s.arrived + [Arrival(i, j)] <==>
        (a == i && b == j) || (a < |s.watchers| && b < s.watchers[a].Done() && setup.streams[a].Keyed(b))
  {
    assert forall b :: b in s.arrived && b.stream == i ==> Arrival(b.stream, b.index) in s.arrived;
    AscendingStep(s.arrived, Arrival(i, j));
  }

  lemma ArrivalKeepsOrder(setup: Setup, s: Run, i: nat, s': Run)
    requires setup.Valid() && InOrder(setup, s) && i < |s.watchers| && |s'.watchers| == |s.watchers|
    requires forall k :: 0 <= k < |s.watchers| && k != i ==> s'.watchers[k].Done() == s.watchers[k].Done()
    requires s'.watchers[i].Done() == s.watchers[i].Done() + 1
    requires
      var j := s.watchers[i].Done();
      s'.arrived == s.arrived + (if setup.streams[i].Keyed(j) then [Arrival(i, j)] else [])
    ensures InOrder(setup, s')
  {
    var j := s.watchers[i].Done();
    if setup.streams[i].Keyed(j) {
      ArrivalAdds(setup, s, i, j);
    } else {
      assert s'.arrived == s.arrived;
    }
  }

  lemma ArrivalIsRecorded(setup: Setup, s: Run, s': Run, a: Arrival)
    requires RecordsArrivals(setup, s) && ArrivalOk(setup, a)
    requires s'.arrived == s.arrived + [a]
    requires
      var o := ObservationOf(setup, a);
      s'.rec == Observed(s.rec, o.obj, o.key)
    ensures RecordsArrivals(setup, s')
  {
    var obs, o := Observations(setup, s.arrived), ObservationOf(setup, a);
    assert Observations(setup, s'.arrived) == obs + [o];
    ObservedAppend(INITIAL, obs, o);
    ObservedKeepsRest(s.rec, o);
  }

  lemma ObservedKeepsRest(s: State, o: Observation)
    ensures
      Observed(s, o.obj, o.key).(latest := map[], failures := []) ==
      Observed(s.(latest := map[], failures := []), o.obj, o.key)
  {}

  lemma ObserveKeeps(setup: Setup, s: Run, i: nat)
    requires setup.Valid() && Inv(setup, s) && i < |s.watchers| && s.watchers[i].pending
    ensures Inv(setup, DoObserve(setup, s, i))
  {
    var s' := DoObserve(setup, s, i);
    ObserveSettles(setup, s, i);
    ObserveKeepsRecord(setup, s, i);
    ArrivalKeepsOrder(setup, s, i, s');
    ObserveKeepsReached(setup, s, i);
    ObserveKeepsWatchers(setup, s, i);
  }

  lemma ObserveSettles(setup: Setup, s: Run, i: nat)
    requires Shape(setup, s) && WatchersOk(setup, s) && i < |s.watchers| && s.watchers[i].pending
    ensures
      var s', j := DoObserve(setup, s, i), s.watchers[i].Done();
      && s'.watchers == s.watchers[i := s'.watchers[i]] && s'.watchers[i].Done() == j + 1
      && s'.arrived == s.arrived + (if setup.streams[i].Keyed(j) then [Arrival(i, j)] else [])
      && s'.heads == s.heads && s.rec.seen <= s'.rec.seen
  {
    assert WatcherOk(setup.streams[i], s.watchers[i], s.heads[i]);
  }

  lemma ObserveKeepsWatchers(setup: Setup, s: Run, i: nat)
    requires Shape(setup, s) && WatchersOk(setup, s) && i < |s.watchers| && s.watchers[i].pending
    ensures WatchersOk(setup, DoObserve(setup, s, i))
  {
    assert WatcherOk(setup.streams[i], s.watchers[i], s.heads[i]);
  }

  lemma ObserveKeepsRecord(setup: Setup, s: Run, i: nat)
    requires Shape(setup, s) && RecordsArrivals(setup, s) && i < |s.watchers| && s.watchers[i].pending
    ensures RecordsArrivals(setup, DoObserve(setup, s, i))
  {
    var j := s.watchers[i].Done();
    if setup.streams[i].Keyed(j) {
      ArrivalIsRecorded(setup, s, DoObserve(setup, s, i), Arrival(i, j));
    }
  }

  lemma ObserveKeepsReached(setup: Setup, s: Run, i: nat)
    requires setup.Valid() && Shape(setup, s) && ReachedOk(setup, s) && i < |s.watchers| && s.watchers[i].pending
    ensures ReachedOk(setup, DoObserve(setup, s, i))
  {}

  lemma ObservedAppend(s: State, arrived: seq<Observation>, o: Observation)
    ensures ObservedAll(s, arrived + [o]) == Observed(ObservedAll(s, arrived), o.obj, o.key)
  {
    assert (arrived + [o])[..|arrived|] == arrived;
  }

  lemma BookmarkKeeps(setup: Setup, s: Run, i: nat, at: nat)
    requires setup.Valid() && Inv(setup, s) && CanBookmark(setup, s, i, at)
    ensures Inv(setup, DoBookmark(setup, s, i, at))
  {
    var s' := DoBookmark(setup, s, i, at);
    NothingArrives(setup, s, s');
    BookmarkKeepsWatchers(setup, s, i, at);
    BookmarkKeepsReached(setup, s, i, at);
  }

  lemma BookmarkKeepsWatchers(setup: Setup, s: Run, i: nat, at: nat)
    requires Shape(setup, s) && WatchersOk(setup, s) && CanBookmark(setup, s, i, at) && ValidStream(setup.streams[i])
    ensures WatchersOk(setup, DoBookmark(setup, s, i, at))
  {
    var w, st := s.watchers[i], setup.streams[i];
    assert WatcherOk(st, w, s.heads[i]);
    var pos := w.taken - |st.listed|;
    assert w.taken < |st.Feed()| ==> st.Feed()[w.taken] == st.log[pos];
    assert IsBoundary(st.log, Comparable(at), pos);
  }

  lemma BookmarkKeepsReached(setup: Setup, s: Run, i: nat, at: nat)
    requires setup.Valid() && Shape(setup, s) && ReachedOk(setup, s) && CanBookmark(setup, s, i, at)
    ensures ReachedOk(setup, DoBookmark(setup, s, i, at))
  {
    var w, st := s.watchers[i], setup.streams[i];
    if i == REGISTRATION {
      forall j | w.taken <= j < |st.Feed()|
        ensures at <= st.Feed()[j].version.n
      {
        RegistrationIncreases(setup, w.taken, j);
      }
    } else {
      assert st.keyOf.advances == None;
    }
  }

  /** The server starts the watch again exactly where it stopped. */
  lemma RestartKeeps(setup: Setup, s: Run, i: nat)
    requires Shape(setup, s) && WatchersOk(setup, s) && Idles(s, i) && |setup.streams[i].listed| <= s.watchers[i].taken
    ensures DoRestart(setup, s, i) == s
  {
    var w, st := s.watchers[i], setup.streams[i];
    assert WatcherOk(st, w, s.heads[i]);
    CountIsBoundary(st.log, w.last, w.taken - |st.listed|, |st.log|);
  }

  lemma RestartInv(setup: Setup, s: Run, i: nat)
    requires setup.Valid() && Inv(setup, s) && Idles(s, i) && |setup.streams[i].listed| <= s.watchers[i].taken
    ensures Inv(setup, DoRestart(setup, s, i))
  {
    RestartKeeps(setup, s, i);
  }

  lemma StopKeepsWatchers(setup: Setup, s: Run, i: nat, why: Failure)
    requires Shape(setup, s) && WatchersOk(setup, s) && i < |s.watchers|
    ensures WatchersOk(setup, DoStop(s, i, why))
  {}

  lemma StopKeepsReached(setup: Setup, s: Run, i: nat, why: Failure)
    requires setup.Valid() && Shape(setup, s) && ReachedOk(setup, s) && i < |s.watchers|
    ensures ReachedOk(setup, DoStop(s, i, why))
  {}

  lemma StopKeepsRecord(setup: Setup, s: Run, i: nat, why: Failure)
    requires Shape(setup, s) && RecordsArrivals(setup, s) && InOrder(setup, s) && i < |s.watchers|
    ensures RecordsArrivals(setup, DoStop(s, i, why)) && InOrder(setup, DoStop(s, i, why))
  {
    NothingArrives(setup, s, DoStop(s, i, why));
  }

  lemma StopKeeps(setup: Setup, s: Run, i: nat, why: Failure)
    requires setup.Valid() && Inv(setup, s) && Idles(s, i)
    ensures Inv(setup, DoStop(s, i, why))
  {
    StopKeepsWatchers(setup, s, i, why);
    StopKeepsReached(setup, s, i, why);
    StopKeepsRecord(setup, s, i, why);
  }

  /** A write in the order of the versions keeps the heads in it. */
  lemma WriteKeepsHeads(setup: Setup, heads: Heads, i: nat)
    requires setup.Valid() && HeadsOk(setup, heads)
    requires i < |heads| && heads[i] < |setup.streams[i].log| && IsNext(setup, heads, i)
    ensures HeadsOk(setup, heads[i := heads[i] + 1])
  {
    var v: nat :| IsCut(setup, heads, v);
    var next := heads[i := heads[i] + 1];
    var w := setup.streams[i].log[heads[i]].version.n;
    forall k | 0 <= k < |next| ensures CutOk(setup.streams[k].log, next[k], w) {
      assert CutOk(setup.streams[k].log, heads[k], v) && CutOk(setup.streams[i].log, heads[i], v);
      if k == i {
        WriteKeepsCut(setup.streams[i], heads[i]);
      } else if heads[k] < |setup.streams[k].log| {
        assert NotLater(setup.streams[i].log[heads[i]], setup.streams[k].log[heads[k]]);
      }
    }
    assert IsCut(setup, next, w);
  }

  lemma WriteKeepsCut(st: Stream, n: nat)
    requires ValidStream(st) && n < |st.log|
    ensures st.log[n].version.Comparable? && CutOk(st.log, n + 1, st.log[n].version.n)
  {}

  lemma WriteKeepsWatchers(setup: Setup, s: Run, i: nat)
    requires Shape(setup, s) && WatchersOk(setup, s) && i < |s.heads| && s.heads[i] < |setup.streams[i].log|
    ensures WatchersOk(setup, Written(s, i))
  {}

  /** A write touches neither the record nor the watchers. */
  lemma WriteKeepsRecord(setup: Setup, s: Run, s': Run)
    requires setup.Valid() && Shape(setup, s) && RecordsArrivals(setup, s) && InOrder(setup, s) && ReachedOk(setup, s)
    requires s'.rec == s.rec && s'.arrived == s.arrived && s'.watchers == s.watchers
    ensures RecordsArrivals(setup, s') && InOrder(setup, s') && ReachedOk(setup, s')
  {}

  lemma WriteKeepsHead(setup: Setup, s: Run, i: nat)
    requires setup.Valid() && Shape(setup, s) && HeadsOk(setup, s.heads)
    requires i < |s.heads| && s.heads[i] < |setup.streams[i].log| && IsNext(setup, s.heads, i)
    ensures HeadsOk(setup, Written(s, i).heads)
  {
    WriteKeepsHeads(setup, s.heads, i);
  }

  lemma WriteKeeps(setup: Setup, s: Run, i: nat)
    requires setup.Valid() && Inv(setup, s) && i < |s.heads| && s.heads[i] < |setup.streams[i].log|
    requires IsNext(setup, s.heads, i)
    ensures Inv(setup, Written(s, i))
  {
    var s' := Written(s, i);
    assert s'.rec == s.rec && s'.arrived == s.arrived && s'.watchers == s.watchers;
    WriteKeepsRecord(setup, s, s');
    WriteKeepsHead(setup, s, i);
    WriteKeepsWatchers(setup, s, i);
  }

  /** Only stream i gives key. */
  predicate ComesFrom(setup: Setup, i: nat, key: Key)
    requires |setup.streams| >= 2
  {
    match key
    case FinalizerKey(_) => setup.purpose.LifecycleRun? && i == REQUESTS
    case RegistrationReady => setup.purpose.OrderCheck? && i == REGISTRATION
    case RequestServed => setup.purpose.OrderCheck? && i == REQUESTS
    case _ => false
  }

  lemma KeyTellsStream(setup: Setup, i: nat, key: Key, k: nat, j: nat)
    requires setup.Valid() && ComesFrom(setup, i, key) && HasKey(setup, k, j, key)
    ensures i == k
  {}

  /** The states behind the first list come in the order of their versions, and
      are later than that list. */
  lemma LaterInFeed(st: Stream, j: nat, m: nat)
    requires ValidStream(st) && j < m < |st.Feed()| && |st.listed| <= m
    ensures st.Feed()[j].version.Comparable? && st.Feed()[m].version.Comparable?
    ensures st.Feed()[j].version.n < st.Feed()[m].version.n
  {
    assert st.Feed()[m] == st.log[m - |st.listed|];
    if j < |st.listed| {
      assert st.Feed()[j] == st.listed[j];
    } else {
      assert st.Feed()[j] == st.log[j - |st.listed|];
    }
  }

  /** Once the first list is observed, a mark is the least of its key, also among
      the states that did not arrive yet. */
  lemma MarkIsLeast(setup: Setup, s: Run, i: nat, key: Key)
    requires setup.Valid() && Shape(setup, s) && RecordsArrivals(setup, s) && InOrder(setup, s) && Started(setup, s)
    requires key in s.rec.marks && key != NoKey && ComesFrom(setup, i, key)
    ensures IsLeast(setup, i, key, s.rec.marks[key])
  {
    var k, j := MarkHasArrived(setup, s, key);
    KeyTellsStream(setup, i, key, k, j);
    var n := s.rec.marks[key].version.n;
    assert KeyedUpTo(setup, i, j, key, n);
    forall m: nat | HasKey(setup, i, m, key)
      ensures IsFrom(setup.streams[i].Feed()[m].version, n)
    {
      if m < s.watchers[i].Done() {
        ArrivedHasMark(setup, s, i, m);
      } else {
        LaterInFeed(setup.streams[i], j, m);
      }
    }
  }

  /** The stream of a kind starts empty. */
  lemma KindStream(setup: Setup, i: nat)
    requires setup.Valid() && 2 <= i < |setup.streams|
    ensures setup.purpose.LifecycleRun? && setup.streams[i].listed == [] && setup.streams[i].keyOf == KindKeyOf()
    ensures ValidStream(setup.streams[i])
  {}

  lemma EventStepKeeps(setup: Setup, s: Run, a: Action)
    requires setup.Valid() && Inv(setup, s) && Enabled(setup, s, a) && (a.Write? || a.Take? || a.Observe?)
    ensures Inv(setup, Do(setup, s, a))
  {
    match a {
      case Write(i) => WriteKeeps(setup, s, i);
      case Take(i) => TakeKeeps(setup, s, i);
      case Observe(i) => ObserveKeeps(setup, s, i);
    }
  }

  lemma WatchStepKeeps(setup: Setup, s: Run, a: Action)
    requires setup.Valid() && Inv(setup, s) && Enabled(setup, s, a) && (a.GiveBookmark? || a.Restart? || a.Stop?)
    ensures Inv(setup, Do(setup, s, a))
  {
    match a {
      case GiveBookmark(i, at) => BookmarkKeeps(setup, s, i, at);
      case Restart(i) => RestartInv(setup, s, i);
      case Stop(i, why) => StopKeeps(setup, s, i, why);
    }
  }

  lemma StepKeeps(setup: Setup, s: Run, a: Action)
    requires setup.Valid() && Inv(setup, s) && Enabled(setup, s, a)
    ensures Inv(setup, Do(setup, s, a))
  {
    if a.Write? || a.Take? || a.Observe? {
      EventStepKeeps(setup, s, a);
    } else {
      WatchStepKeeps(setup, s, a);
    }
  }

  lemma TraceMoves(setup: Setup, trace: seq<Run>, actions: seq<Action>, k: nat)
    requires IsTrace(setup, trace, actions) && 0 < k < |trace| && Inv(setup, trace[k - 1])
    ensures Inv(setup, trace[k])
  {
    var a := actions[k - 1];
    assert Enabled(setup, trace[k - 1], a) && trace[k - 1 + 1] == Do(setup, trace[k - 1], a);
    StepKeeps(setup, trace[k - 1], a);
  }

  lemma {:induction false} Reachable(setup: Setup, trace: seq<Run>, actions: seq<Action>, k: nat)
    requires IsTrace(setup, trace, actions) && k < |trace|
    ensures Inv(setup, trace[k])
  {
    if k == 0 {
      InitialInv(setup);
    } else {
      Reachable(setup, trace, actions, k - 1);
      TraceMoves(setup, trace, actions, k);
    }
  }

  // The theorems.

  /** In every interleaving, and however often the watches restart, the
      recorder has observed, of each stream, the states with a key among the
      first ones that it took: once each and in order. */
  lemma ArrivalsAreOrderedPrefixes(setup: Setup, trace: seq<Run>, actions: seq<Action>, k: nat)
    requires IsTrace(setup, trace, actions) && k < |trace|
    ensures RecordsArrivals(setup, trace[k]) && InOrder(setup, trace[k])
  {
    Reachable(setup, trace, actions, k);
  }

  /** A failed watch fails every later verdict. */
  lemma FailureIsForGood(
    setup: Setup, trace: seq<Run>, actions: seq<Action>, k: nat, l: nat, request: string)
    requires IsTrace(setup, trace, actions) && k <= l < |trace| && trace[k].rec.failures != []
    ensures FinalizerVerdict(trace[l].rec, request) == Some(RecorderFailed)
    ensures OrderVerdict(trace[l].rec) == Some(RecorderFailed)
  {
    FailuresStay(setup, trace, actions, k, l);
  }

  lemma FailuresStay(setup: Setup, trace: seq<Run>, actions: seq<Action>, k: nat, l: nat)
    requires IsTrace(setup, trace, actions) && k <= l < |trace|
    ensures trace[k].rec.failures <= trace[l].rec.failures
  {
    var failures := seq(|trace|, i requires 0 <= i < |trace| => trace[i].rec.failures);
    forall i | 0 <= i < |failures| - 1 ensures failures[i] <= failures[i + 1] {
      FailuresGrow(setup, trace[i], actions[i]);
    }
    PrefixesStay(failures, k, l);
  }

  lemma {:induction false} PrefixesStay(failures: seq<seq<Failure>>, k: nat, l: nat)
    requires k <= l < |failures| && forall i :: 0 <= i < |failures| - 1 ==> failures[i] <= failures[i + 1]
    ensures failures[k] <= failures[l]
    decreases l
  {
    if k < l {
      PrefixesStay(failures, k, l - 1);
      assert failures[l - 1] <= failures[l - 1 + 1];
    }
  }

  lemma FailuresGrow(setup: Setup, s: Run, a: Action)
    requires Shape(setup, s) && Enabled(setup, s, a)
    ensures s.rec.failures <= Do(setup, s, a).rec.failures
  {}

  /** What no step takes back. */
  ghost predicate Grows(s: Run, s': Run) {
    && |s'.watchers| == |s.watchers| && s.rec.seen <= s'.rec.seen && Below(s.heads, s'.heads)
    && forall i :: 0 <= i < |s.watchers| ==> s.watchers[i].Done() <= s'.watchers[i].Done()
  }

  lemma EventGrows(setup: Setup, s: Run, a: Action)
    requires Shape(setup, s) && WatchersOk(setup, s) && Enabled(setup, s, a) && (a.Write? || a.Take? || a.Observe?)
    ensures Grows(s, Do(setup, s, a))
  {
    if a.Observe? {
      ObserveSettles(setup, s, a.i);
    }
  }

  lemma WatchGrows(setup: Setup, s: Run, a: Action)
    requires Shape(setup, s) && WatchersOk(setup, s) && Enabled(setup, s, a)
    requires a.GiveBookmark? || a.Restart? || a.Stop?
    ensures Grows(s, Do(setup, s, a))
  {
    if a.Restart? {
      RestartKeeps(setup, s, a.i);
    }
  }

  lemma StepGrows(setup: Setup, s: Run, a: Action)
    requires Shape(setup, s) && WatchersOk(setup, s) && Enabled(setup, s, a)
    ensures Grows(s, Do(setup, s, a))
  {
    if a.Write? || a.Take? || a.Observe? {
      EventGrows(setup, s, a);
    } else {
      WatchGrows(setup, s, a);
    }
  }
}
