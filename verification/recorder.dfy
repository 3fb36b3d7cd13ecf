/** The recorder of the conformance suite: for each key, the earliest object
    state that its watches saw. Each method is one critical section of the
    mutex of the recorder. */
module Recording {
  import opened Api

  /** The keys under which object states are recorded. NoKey is the empty key
      of a state that is not recorded. */
  datatype Key =
    | NoKey
    | FinalizerKey(request: string)
    | ObjectKey(request: string)
    | AcceptedChanged
    | RegistrationReady
    | RequestServed

  /** One object state that the recorder saw, and its place in the arrivals. */
  datatype Mark = Mark(version: Version, arrival: nat, uid: Uid)

  datatype Failure = WatchFailed | RestartFailed

  /** m.before(other): by resource version, and by arrival when the versions
      cannot be compared. */
  predicate Before(m: Mark, other: Mark) {
    match CompareVersions(m.version, other.version)
    case None => m.arrival < other.arrival
    case Some(cmp) => cmp < 0
  }

  /** The abstract value of a recorder. */
  datatype State = State(
    arrivals: nat,
    marks: map<Key, Mark>,
    seen: set<Uid>,
    latest: map<string, Version>,
    objects: map<Key, seq<Object>>,
    failures: seq<Failure>)

  const INITIAL := State(0, map[], {}, map[], map[], [])

  function Uids(objs: seq<Object>): set<Uid> {
    set o | o in objs :: o.uid
  }

  /** The objects of earlier and later, with the copy of later where both have
      one: later, then each object of earlier that the result lacks. */
  function Merged(earlier: seq<Object>, later: seq<Object>): seq<Object> {
    if earlier == [] then later
    else
      var rest := Merged(earlier[..|earlier| - 1], later);
      var obj := earlier[|earlier| - 1];
      if obj.uid in Uids(rest) then rest else rest + [obj]
  }

  function ObjectsOf(s: State, key: Key): seq<Object> {
    if key in s.objects then s.objects[key] else []
  }

  /** The state after observe(obj, key). */
  function Observed(s: State, obj: Object, key: Key): State {
    var m := Mark(obj.version, s.arrivals + 1, obj.uid);
    State(
      s.arrivals + 1,
      if key in s.marks && !Before(m, s.marks[key]) then s.marks else s.marks[key := m],
      s.seen + {obj.uid},
      s.latest,
      if obj.unstructured then s.objects[key := Merged(ObjectsOf(s, key), [obj])] else s.objects,
      s.failures)
  }

  /** One call of observe. */
  datatype Observation = Observation(obj: Object, key: Key)

  /** The state after the observations, in their order. */
  function ObservedAll(s: State, arrived: seq<Observation>): State {
    if arrived == [] then s
    else
      var last := arrived[|arrived| - 1];
      Observed(ObservedAll(s, arrived[..|arrived| - 1]), last.obj, last.key)
  }

  method MergeObjects(earlier: seq<Object>, later: seq<Object>) returns (merged: seq<Object>)
    ensures merged == Merged(earlier, later)
  {
    merged := later;
    for i := 0 to |earlier|
      invariant merged == Merged(earlier[..i], later)
    {
      assert earlier[..i + 1][..i] == earlier[..i];
      if earlier[i].uid !in Uids(merged) {
        merged := merged + [earlier[i]];
      }
    }
    assert earlier[..|earlier|] == earlier;
  }

  class Recorder {
    var arrivals: nat
    var marks: map<Key, Mark>
    var seen: set<Uid>
    var latest: map<string, Version>
    var objects: map<Key, seq<Object>>
    var failures: seq<Failure>

    constructor ()
      ensures Abs() == INITIAL
    {
      arrivals, marks, seen, latest, objects, failures := 0, map[], {}, map[], map[], [];
    }

    function Abs(): State
      reads this
    {
      State(arrivals, marks, seen, latest, objects, failures)
    }

    method Observe(obj: Object, key: Key)
      modifies this
      ensures Abs() == Observed(old(Abs()), obj, key)
    {
      seen := seen + {obj.uid};
      if obj.unstructured {
        var merged := MergeObjects(if key in objects then objects[key] else [], [obj]);
        objects := objects[key := merged];
      }
      arrivals := arrivals + 1;
      var m := Mark(obj.version, arrivals, obj.uid);
      if key in marks && !Before(m, marks[key]) {
        return;
      }
      marks := marks[key := m];
    }

    method Advance(stream: string, version: Version)
      modifies this`latest
      ensures Abs() == old(Abs()).(latest := old(latest)[stream := version])
    {
      latest := latest[stream := version];
    }

    method CaughtUp(stream: string, version: Version) returns (reached: bool)
      ensures reached == CaughtUpTo(Abs(), stream, version)
    {
      if stream !in latest {
        return false;
      }
      var cmp := CompareVersions(latest[stream], version);
      return cmp.Some? && cmp.value >= 0;
    }

    method Fail(err: Failure)
      modifies this`failures
      ensures Abs() == old(Abs()).(failures := old(failures) + [err])
    {
      failures := failures + [err];
    }

    method Err() returns (failed: bool)
      ensures failed == (Abs().failures != [])
    {
      failed := |failures| > 0;
    }

    method First(key: Key) returns (m: Option<Mark>)
      ensures m == FirstMark(Abs(), key)
    {
      m := if key in marks then Some(marks[key]) else None;
    }

    /** Whether the request got the cleanup finalizer before the first object
        that the plugin wrote for it. */
    method FinalizerProblem(request: string) returns (problem: Option<Problem>)
      ensures problem == FinalizerVerdict(Abs(), request)
    {
      var failed := Err();
      if failed {
        return Some(RecorderFailed);
      }
      var f := First(FinalizerKey(request));
      if f.None? {
        return Some(NeverServed);
      }
      var o := First(ObjectKey(request));
      if o.Some? && Before(o.value, f.value) {
        return Some(WrongOrder);
      }
      return None;
    }

    /** Whether the registration got Ready=True before the request was served. */
    method OrderProblem() returns (problem: Option<Problem>)
      ensures problem == OrderVerdict(Abs())
    {
      var failed := Err();
      if failed {
        return Some(RecorderFailed);
      }
      var ready := First(RegistrationReady);
      if ready.None? {
        return Some(NeverReady);
      }
      var served := First(RequestServed);
      if served.None? {
        return Some(NeverServed);
      }
      if Before(served.value, ready.value) {
        return Some(WrongOrder);
      }
      return None;
    }
  }

  datatype Problem = RecorderFailed | NeverReady | NeverServed | WrongOrder

  predicate CaughtUpTo(s: State, stream: string, version: Version) {
    stream in s.latest &&
    var cmp := CompareVersions(s.latest[stream], version);
    cmp.Some? && cmp.value >= 0
  }

  /** The stream reached the version or a later one, and both can be compared. */
  lemma CaughtUpIff(s: State, stream: string, version: Version)
    ensures
      CaughtUpTo(s, stream, version) <==>
      && stream in s.latest && s.latest[stream].Comparable? && version.Comparable?
      && version.n <= s.latest[stream].n
  {}

  function FirstMark(s: State, key: Key): Option<Mark> {
    if key in s.marks then Some(s.marks[key]) else None
  }

  function FinalizerVerdict(s: State, request: string): Option<Problem> {
    var f := FirstMark(s, FinalizerKey(request));
    var o := FirstMark(s, ObjectKey(request));
    if s.failures != [] then Some(RecorderFailed)
    else if f.None? then Some(NeverServed)
    else if o.Some? && Before(o.value, f.value) then Some(WrongOrder)
    else None
  }

  function OrderVerdict(s: State): Option<Problem> {
    var ready := FirstMark(s, RegistrationReady);
    var served := FirstMark(s, RequestServed);
    if s.failures != [] then Some(RecorderFailed)
    else if ready.None? then Some(NeverReady)
    else if served.None? then Some(NeverServed)
    else if Before(served.value, ready.value) then Some(WrongOrder)
    else None
  }

  // What the marks and the copies mean, for every list of observations.

  predicate IsUnder(arrived: seq<Observation>, i: nat, key: Key) {
    i < |arrived| && arrived[i].key == key
  }

  /** Arrival i is the first one under key. */
  ghost predicate IsFirst(arrived: seq<Observation>, i: nat, key: Key) {
    IsUnder(arrived, i, key) && forall j: nat :: j < i ==> !IsUnder(arrived, j, key)
  }

  /** Arrival i has the least resource version under key among those that can
      be compared, and is the earliest with that version. */
  ghost predicate IsEarliestLeast(arrived: seq<Observation>, i: nat, key: Key) {
    && IsUnder(arrived, i, key)
    && arrived[i].obj.version.Comparable?
    && forall j: nat :: IsUnder(arrived, j, key) && arrived[j].obj.version.Comparable? ==>
         var vi, vj := arrived[i].obj.version.n, arrived[j].obj.version.n;
         vi < vj || (vi == vj && i <= j)
  }

  /** The mark that arrival i gives. */
  function MarkOf(arrived: seq<Observation>, i: nat): Mark
    requires i < |arrived|
  {
    Mark(arrived[i].obj.version, i + 1, arrived[i].obj.uid)
  }

  /** Arrival i gives the mark of key: the first arrival under key when its
      version cannot be compared, and the earliest least one otherwise. */
  ghost predicate IsMarkAt(arrived: seq<Observation>, key: Key, i: nat) {
    && IsUnder(arrived, i, key)
    && forall f: nat :: IsFirst(arrived, f, key) ==>
         if arrived[f].obj.version.Opaque? then i == f else IsEarliestLeast(arrived, i, key)
  }

  ghost predicate IsMarkOf(arrived: seq<Observation>, key: Key, m: Mark) {
    && 1 <= m.arrival <= |arrived|
    && m == MarkOf(arrived, m.arrival - 1)
    && IsMarkAt(arrived, key, m.arrival - 1)
  }

  /** The marks of s are those of arrived. */
  ghost predicate MarksMatch(s: State, arrived: seq<Observation>, key: Key) {
    && s.arrivals == |arrived|
    && (key in s.marks <==> Seen(arrived, key))
    && (key in s.marks ==> IsMarkOf(arrived, key, s.marks[key]))
  }

  lemma {:induction false} MarksAreEarliest(arrived: seq<Observation>, key: Key)
    ensures MarksMatch(ObservedAll(INITIAL, arrived), arrived, key)
  {
    if arrived != [] {
      var before := arrived[..|arrived| - 1];
      MarksAreEarliest(before, key);
      MarksMatchStep(before, arrived, key, ObservedAll(INITIAL, before));
    }
  }

  lemma MarksMatchStep(before: seq<Observation>, arrived: seq<Observation>, key: Key, s: State)
    requires arrived != [] && before == arrived[..|arrived| - 1] && MarksMatch(s, before, key)
    ensures MarksMatch(Observed(s, arrived[|before|].obj, arrived[|before|].key), arrived, key)
  {
    SeenStep(before, arrived, key);
    if arrived[|before|].key == key {
      MarkStep(before, arrived, key, s);
    } else if key in s.marks {
      MarkStays(before, arrived, key, s.marks[key].arrival - 1);
    }
  }

  ghost predicate Seen(arrived: seq<Observation>, key: Key) {
    exists i: nat :: IsUnder(arrived, i, key)
  }

  lemma SeenStep(before: seq<Observation>, arrived: seq<Observation>, key: Key)
    requires arrived != [] && before == arrived[..|arrived| - 1]
    ensures Seen(arrived, key) <==> Seen(before, key) || arrived[|before|].key == key
  {
    if Seen(before, key) {
      var i: nat :| IsUnder(before, i, key);
      assert IsUnder(arrived, i, key);
    }
    if arrived[|before|].key == key {
      assert IsUnder(arrived, |before|, key);
    }
    if Seen(arrived, key) && arrived[|before|].key != key {
      var i: nat :| IsUnder(arrived, i, key);
      assert IsUnder(before, i, key);
    }
  }

  lemma FirstStep(before: seq<Observation>, arrived: seq<Observation>, f: nat, key: Key)
    requires arrived != [] && before == arrived[..|arrived| - 1] && IsFirst(arrived, f, key)
    ensures f == |before| || IsFirst(before, f, key)
    ensures f == |before| ==> forall i: nat :: !IsUnder(before, i, key)
  {
    assert forall i: nat :: IsUnder(before, i, key) ==> IsUnder(arrived, i, key);
  }

  lemma EarliestLeastStays(before: seq<Observation>, arrived: seq<Observation>, i: nat, key: Key)
    requires arrived != [] && before == arrived[..|arrived| - 1] && IsEarliestLeast(before, i, key)
    requires
      var last := arrived[|before|];
      last.key == key && last.obj.version.Comparable? ==> before[i].obj.version.n <= last.obj.version.n
    ensures IsEarliestLeast(arrived, i, key)
  {
    forall j: nat | IsUnder(arrived, j, key) && arrived[j].obj.version.Comparable?
      ensures var vi, vj := arrived[i].obj.version.n, arrived[j].obj.version.n;
              vi < vj || (vi == vj && i <= j)
    {
      if j < |before| {
        assert IsUnder(before, j, key);
      }
    }
  }

  lemma MarkStays(before: seq<Observation>, arrived: seq<Observation>, key: Key, i: nat)
    requires arrived != [] && before == arrived[..|arrived| - 1]
    requires IsMarkAt(before, key, i)
    requires arrived[|before|].key == key ==> !Before(MarkOf(arrived, |before|), MarkOf(before, i))
    ensures IsMarkAt(arrived, key, i)
  {
    forall f: nat | IsFirst(arrived, f, key)
      ensures if arrived[f].obj.version.Opaque? then i == f else IsEarliestLeast(arrived, i, key)
    {
      FirstStep(before, arrived, f, key);
      if arrived[f].obj.version.Comparable? {
        EarliestLeastStays(before, arrived, i, key);
      }
    }
  }

  lemma MarkStep(before: seq<Observation>, arrived: seq<Observation>, key: Key, s: State)
    requires arrived != [] && before == arrived[..|arrived| - 1] && arrived[|arrived| - 1].key == key
    requires s.arrivals == |before|
    requires key in s.marks <==> Seen(before, key)
    requires key in s.marks ==> IsMarkOf(before, key, s.marks[key])
    ensures IsMarkOf(arrived, key, Observed(s, arrived[|arrived| - 1].obj, key).marks[key])
  {
    var n := |arrived| - 1;
    var m := MarkOf(arrived, n);
    if key in s.marks && !Before(m, s.marks[key]) {
      MarkStays(before, arrived, key, s.marks[key].arrival - 1);
    } else {
      assert IsUnder(arrived, n, key);
      assert forall i: nat :: IsUnder(arrived, i, key) ==> i == n || IsUnder(before, i, key);
      forall f: nat | IsFirst(arrived, f, key)
        ensures if arrived[f].obj.version.Opaque? then n == f else IsEarliestLeast(arrived, n, key)
      {
        FirstStep(before, arrived, f, key);
      }
    }
  }

  lemma {:induction false} SeenIsUids(arrived: seq<Observation>, uid: Uid)
    ensures uid in ObservedAll(INITIAL, arrived).seen <==> exists k :: 0 <= k < |arrived| && arrived[k].obj.uid == uid
  {
    if arrived != [] {
      var n := |arrived| - 1;
      SeenIsUids(arrived[..n], uid);
      assert forall k :: 0 <= k < n ==> arrived[..n][k] == arrived[k];
    }
  }

  lemma {:induction false} FirstExists(arrived: seq<Observation>, key: Key, i: nat) returns (f: nat)
    requires IsUnder(arrived, i, key)
    ensures IsFirst(arrived, f, key)
    decreases i
  {
    if j: nat :| j < i && IsUnder(arrived, j, key) {
      f := FirstExists(arrived, key, j);
    } else {
      f := i;
    }
  }

  ghost predicate AllComparable(arrived: seq<Observation>) {
    forall i :: 0 <= i < |arrived| ==> arrived[i].obj.version.Comparable?
  }

  /** When all versions can be compared, no arrival under a key is below the
      mark of the key. */
  lemma LeastMark(arrived: seq<Observation>, i: nat)
    requires i < |arrived| && AllComparable(arrived)
    ensures
      var s, o := ObservedAll(INITIAL, arrived), arrived[i];
      && o.obj.uid in s.seen
      && o.key in s.marks && s.marks[o.key].version.Comparable?
      && s.marks[o.key].version.n <= o.obj.version.n
  {
    var o := arrived[i];
    SeenIsUids(arrived, o.obj.uid);
    MarksAreEarliest(arrived, o.key);
    assert IsUnder(arrived, i, o.key);
    var f := FirstExists(arrived, o.key, i);
  }

  /** A mark is that of some arrival under its key. */
  lemma MarkIndex(arrived: seq<Observation>, key: Key) returns (i: nat)
    requires key in ObservedAll(INITIAL, arrived).marks
    ensures
      var m := ObservedAll(INITIAL, arrived).marks[key];
      i < |arrived| && arrived[i].key == key && arrived[i].obj.version == m.version
  {
    MarksAreEarliest(arrived, key);
    i := ObservedAll(INITIAL, arrived).marks[key].arrival - 1;
  }

  // What the verdicts say of the observations.

  /** Some state under a has a lower version than every state under b. */
  ghost predicate AnyBelowAll(arrived: seq<Observation>, a: Key, b: Key)
    requires AllComparable(arrived)
  {
    exists i: nat :: IsBelowAll(arrived, i, a, b)
  }

  ghost predicate IsBelowAll(arrived: seq<Observation>, i: nat, a: Key, b: Key)
    requires AllComparable(arrived)
  {
    && IsUnder(arrived, i, a)
    && forall j: nat :: IsUnder(arrived, j, b) ==> arrived[i].obj.version.n < arrived[j].obj.version.n
  }

  /** The mark of a is before that of b exactly when some state under a is. */
  lemma MarkIsBefore(arrived: seq<Observation>, a: Key, b: Key)
    requires AllComparable(arrived) && Seen(arrived, a) && Seen(arrived, b)
    ensures
      var marks := ObservedAll(INITIAL, arrived).marks;
      a in marks && b in marks && (Before(marks[a], marks[b]) <==> AnyBelowAll(arrived, a, b))
  {
    MarksAreEarliest(arrived, a);
    MarksAreEarliest(arrived, b);
    var marks := ObservedAll(INITIAL, arrived).marks;
    var i := MarkIndex(arrived, a);
    var j := MarkIndex(arrived, b);
    if Before(marks[a], marks[b]) {
      forall k: nat | IsUnder(arrived, k, b) ensures arrived[i].obj.version.n < arrived[k].obj.version.n {
        LeastMark(arrived, k);
      }
      assert IsBelowAll(arrived, i, a, b);
    }
    if AnyBelowAll(arrived, a, b) {
      var k: nat :| IsBelowAll(arrived, k, a, b);
      LeastMark(arrived, k);
      assert IsUnder(arrived, j, b);
    }
  }

  /** finalizerProblem, for every list of observations with versions that can be
      compared: it reports an object exactly when some object state is earlier
      than every state with the finalizer, whatever arrived first. */
  lemma FinalizerVerdictIs(arrived: seq<Observation>, failures: seq<Failure>, request: string)
    requires AllComparable(arrived)
    ensures
      var verdict := FinalizerVerdict(ObservedAll(INITIAL, arrived).(failures := failures), request);
      && (failures != [] <==> verdict == Some(RecorderFailed))
      && (failures == [] ==>
            && (verdict == Some(NeverServed) <==> !Seen(arrived, FinalizerKey(request)))
            && (verdict == Some(WrongOrder) <==>
                Seen(arrived, FinalizerKey(request)) &&
                AnyBelowAll(arrived, ObjectKey(request), FinalizerKey(request)))
            && (verdict == None <==>
                Seen(arrived, FinalizerKey(request)) &&
                !AnyBelowAll(arrived, ObjectKey(request), FinalizerKey(request))))
  {
    MarksAreEarliest(arrived, FinalizerKey(request));
    MarksAreEarliest(arrived, ObjectKey(request));
    if Seen(arrived, FinalizerKey(request)) && Seen(arrived, ObjectKey(request)) {
      MarkIsBefore(arrived, ObjectKey(request), FinalizerKey(request));
    }
  }

  /** orderVerdict: it reports the request exactly when some state in which it was
      served is earlier than every state with Ready=True. */
  lemma OrderVerdictIs(arrived: seq<Observation>, failures: seq<Failure>)
    requires AllComparable(arrived)
    ensures
      var verdict := OrderVerdict(ObservedAll(INITIAL, arrived).(failures := failures));
      var ready, served := Seen(arrived, RegistrationReady), Seen(arrived, RequestServed);
      && (failures != [] <==> verdict == Some(RecorderFailed))
      && (failures == [] ==>
            && (verdict == Some(NeverReady) <==> !ready)
            && (verdict == Some(NeverServed) <==> ready && !served)
            && (verdict == Some(WrongOrder) <==>
                ready && AnyBelowAll(arrived, RequestServed, RegistrationReady))
            && (verdict == None <==>
                ready && served && !AnyBelowAll(arrived, RequestServed, RegistrationReady)))
  {
    MarksAreEarliest(arrived, RegistrationReady);
    MarksAreEarliest(arrived, RequestServed);
    if Seen(arrived, RegistrationReady) && Seen(arrived, RequestServed) {
      MarkIsBefore(arrived, RequestServed, RegistrationReady);
    }
  }

  /** Arrival i is before arrival j: by version, and in the order of arrival when
      one of the versions cannot be compared. */
  predicate ArrivedBefore(arrived: seq<Observation>, i: nat, j: nat)
    requires i < |arrived| && j < |arrived|
  {
    var v, w := arrived[i].obj.version, arrived[j].obj.version;
    if v.Opaque? || w.Opaque? then i < j else v.n < w.n
  }

  /** The verdict with versions that cannot be compared: it goes by the arrivals
      that give the two marks. */
  lemma OpaqueVerdictIs(arrived: seq<Observation>, request: string, i: nat, j: nat)
    requires IsMarkAt(arrived, ObjectKey(request), i) && IsMarkAt(arrived, FinalizerKey(request), j)
    ensures
      FinalizerVerdict(ObservedAll(INITIAL, arrived), request) ==
      if ArrivedBefore(arrived, i, j) then Some(WrongOrder) else None
  {
    ObservedHasNoFailure(arrived);
    OneMark(arrived, ObjectKey(request), i);
    OneMark(arrived, FinalizerKey(request), j);
  }

  lemma {:induction false} ObservedHasNoFailure(arrived: seq<Observation>)
    ensures ObservedAll(INITIAL, arrived).failures == []
  {
    if arrived != [] {
      ObservedHasNoFailure(arrived[..|arrived| - 1]);
    }
  }

  /** The mark of a key is that of the one arrival that can give it. */
  lemma OneMark(arrived: seq<Observation>, key: Key, i: nat)
    requires IsMarkAt(arrived, key, i)
    ensures
      var marks := ObservedAll(INITIAL, arrived).marks;
      key in marks && marks[key] == MarkOf(arrived, i)
  {
    MarksAreEarliest(arrived, key);
    assert Seen(arrived, key);
    var k := ObservedAll(INITIAL, arrived).marks[key].arrival - 1;
    var f := FirstExists(arrived, key, i);
    assert k == i;
  }

  /** Arrival i is the last one of its object under key. */
  ghost predicate IsNewestCopy(arrived: seq<Observation>, i: nat, key: Key) {
    && IsUnder(arrived, i, key)
    && arrived[i].obj.unstructured
    && forall j: nat :: i < j && IsUnder(arrived, j, key) && arrived[j].obj.unstructured ==>
         arrived[j].obj.uid != arrived[i].obj.uid
  }

  predicate DistinctUids(objs: seq<Object>) {
    forall i, j :: 0 <= i < j < |objs| ==> objs[i].uid != objs[j].uid
  }

  /** mergeObjects keeps the later objects, in their order, and after them
      earlier ones of the other UIDs, and drops no UID. */
  lemma {:induction false} MergeKeepsBoth(earlier: seq<Object>, later: seq<Object>)
    ensures later <= Merged(earlier, later)
    ensures forall o :: o in Merged(earlier, later) ==> o in later || (o in earlier && o.uid !in Uids(later))
    ensures Uids(Merged(earlier, later)) == Uids(earlier) + Uids(later)
  {
    if earlier != [] {
      var n := |earlier| - 1;
      MergeKeepsBoth(earlier[..n], later);
      UidsOfMore(earlier[..n], earlier[n]);
      assert earlier == earlier[..n] + [earlier[n]];
      UidsOfMore(Merged(earlier[..n], later), earlier[n]);
    }
  }

  lemma UidsOfMore(objs: seq<Object>, o: Object)
    ensures Uids(objs + [o]) == Uids(objs) + {o.uid}
  {}

  /** mergeObjects has one object for each UID exactly when later has. */
  lemma {:induction false} MergeKeepsOneCopy(earlier: seq<Object>, later: seq<Object>)
    ensures DistinctUids(Merged(earlier, later)) <==> DistinctUids(later)
  {
    if earlier != [] {
      var n := |earlier| - 1;
      MergeKeepsOneCopy(earlier[..n], later);
      if earlier[n].uid !in Uids(Merged(earlier[..n], later)) {
        AppendKeepsDistinct(Merged(earlier[..n], later), earlier[n]);
      }
    }
  }

  lemma AppendKeepsDistinct(objs: seq<Object>, o: Object)
    requires o.uid !in Uids(objs)
    ensures DistinctUids(objs + [o]) <==> DistinctUids(objs)
  {
    var longer := objs + [o];
    assert forall i :: 0 <= i < |objs| ==> longer[i] == objs[i] && objs[i].uid in Uids(objs);
    if DistinctUids(longer) {
      forall i, j | 0 <= i < j < |objs|
        ensures objs[i].uid != objs[j].uid
      {
        assert longer[i].uid != longer[j].uid;
      }
    }
  }

  /** objectsOf(key) holds one copy for each unstructured object observed under
      key, the one that arrived last. */
  lemma {:induction false} ObjectsAreNewestCopies(arrived: seq<Observation>, key: Key)
    ensures
      var copies := ObjectsOf(ObservedAll(INITIAL, arrived), key);
      && DistinctUids(copies)
      && (forall o :: o in copies <==> exists i: nat :: IsNewestCopy(arrived, i, key) && arrived[i].obj == o)
  {
    if arrived != [] {
      var n := |arrived| - 1;
      var before, last := arrived[..n], arrived[n];
      ObjectsAreNewestCopies(before, key);
      var was := ObjectsOf(ObservedAll(INITIAL, before), key);
      var copies := ObjectsOf(ObservedAll(INITIAL, arrived), key);
      forall i: nat
        ensures IsNewestCopy(arrived, i, key) <==>
                if last.key == key && last.obj.unstructured
                then i == n || (IsNewestCopy(before, i, key) && arrived[i].obj.uid != last.obj.uid)
                else IsNewestCopy(before, i, key)
      {
        NewestCopyStep(arrived, i, key);
      }
      if last.key == key && last.obj.unstructured {
        MergeKeepsOneCopy(was, [last.obj]);
        forall o
          ensures o in copies <==> exists i: nat :: IsNewestCopy(arrived, i, key) && arrived[i].obj == o
        {
          CopiesAfterMerge(was, last.obj, o);
          if o in was && o.uid != last.obj.uid {
            var i: nat :| IsNewestCopy(before, i, key) && before[i].obj == o;
            assert IsNewestCopy(arrived, i, key) && arrived[i].obj == o;
          }
          if o == last.obj {
            assert IsNewestCopy(arrived, n, key) && arrived[n].obj == o;
          }
        }
      } else {
        assert copies == was;
        forall o
          ensures o in copies <==> exists i: nat :: IsNewestCopy(arrived, i, key) && arrived[i].obj == o
        {
          if o in was {
            var i: nat :| IsNewestCopy(before, i, key) && before[i].obj == o;
            assert IsNewestCopy(arrived, i, key) && arrived[i].obj == o;
          }
        }
      }
    }
  }

  lemma NewestCopyStep(arrived: seq<Observation>, i: nat, key: Key)
    requires arrived != []
    ensures
      var n := |arrived| - 1;
      IsNewestCopy(arrived, i, key) <==>
      if arrived[n].key == key && arrived[n].obj.unstructured
      then i == n || (IsNewestCopy(arrived[..n], i, key) && arrived[i].obj.uid != arrived[n].obj.uid)
      else IsNewestCopy(arrived[..n], i, key)
  {
    var n := |arrived| - 1;
    var before := arrived[..n];
    assert forall j: nat :: j < n ==>
      (IsUnder(arrived, j, key) <==> IsUnder(before, j, key)) && before[j] == arrived[j];
    assert IsUnder(arrived, n, key) <==> arrived[n].key == key;
    if IsNewestCopy(arrived, i, key) && i < n {
      assert forall j: nat :: IsUnder(before, j, key) ==> IsUnder(arrived, j, key);
    }
    if i < n && IsNewestCopy(before, i, key) {
      assert forall j: nat :: IsUnder(arrived, j, key) ==> j == n || IsUnder(before, j, key);
    }
  }

  lemma CopiesAfterMerge(was: seq<Object>, obj: Object, o: Object)
    ensures o in Merged(was, [obj]) ==> o == obj || (o in was && o.uid != obj.uid)
    ensures DistinctUids(was) && (o == obj || (o in was && o.uid != obj.uid)) ==> o in Merged(was, [obj])
  {
    MergeKeepsBoth(was, [obj]);
    var merged := Merged(was, [obj]);
    assert merged[0] == obj;
    assert Uids([obj]) == {obj.uid};
    if DistinctUids(was) && o in was && o.uid != obj.uid {
      assert o.uid in Uids(merged);
      var m :| m in merged && m.uid == o.uid;
      assert m in was;
    }
  }
}
