/** The goroutine behind one watch of the recorder: it drains a watch, and
    starts it again after the last resource version that it got, until it fails
    or the context ends. */
module Watching {
  import opened Api
  import opened Recording

  /** keyOf of a watch. With advances, keyOf first records the version of the
      object as the last one of that stream. */
  datatype KeyOf = KeyOf(advances: Option<string>, key: Object -> Key)

  /** What a watch channel gives. NotAnObject is an event whose object is not a
      client object. */
  datatype Item = Event(obj: Object) | Bookmark(obj: Object) | ErrorEvent | NotAnObject

  /** The answer to one Watch call: an error, or the items up to the close of
      the channel. */
  datatype Session = Refused | Opened(items: seq<Item>)

  datatype Listing = Listing(version: Version, objs: seq<Object>)

  function Advanced(s: State, keyOf: KeyOf, obj: Object): State {
    if keyOf.advances.Some? then s.(latest := s.latest[keyOf.advances.value := obj.version]) else s
  }

  function ObservedKeyed(s: State, keyOf: KeyOf, obj: Object): State {
    var key := keyOf.key(obj);
    if key == NoKey then s else Observed(s, obj, key)
  }

  /** The state after the recorder got item. */
  function Received(s: State, keyOf: KeyOf, item: Item): State {
    match item
    case Event(obj) => ObservedKeyed(Advanced(s, keyOf, obj), keyOf, obj)
    case Bookmark(obj) => Advanced(s, keyOf, obj)
    case _ => s
  }

  /** The state after the first n of items. */
  function ReceivedAll(s: State, keyOf: KeyOf, items: seq<Item>, n: nat): State
    requires n <= |items|
  {
    if n == 0 then s else Received(ReceivedAll(s, keyOf, items, n - 1), keyOf, items[n - 1])
  }

  /** The last version that the first n of items gave, or version. */
  function LastVersion(version: Version, items: seq<Item>, n: nat): Version
    requires n <= |items|
  {
    if n == 0 then version
    else
      match items[n - 1]
      case Event(obj) => obj.version
      case Bookmark(obj) => obj.version
      case _ => LastVersion(version, items, n - 1)
  }

  /** drain gets the items of one channel up to its close, to an error event,
      or to a point where the context has ended; consumed is how many. */
  method Drain(r: Recorder, keyOf: KeyOf, items: seq<Item>, last: Version, mayEnd: bool)
    returns (reached: Version, failed: bool, ended: bool, ghost consumed: nat)
    modifies r
    ensures consumed <= |items|
    ensures r.Abs() == ReceivedAll(old(r.Abs()), keyOf, items, consumed)
    ensures reached == LastVersion(last, items, consumed)
    ensures forall i :: 0 <= i < consumed ==> items[i] != ErrorEvent
    ensures failed <==> !ended && consumed < |items|
    ensures failed ==> items[consumed] == ErrorEvent
    ensures ended ==> mayEnd
  {
    reached, failed, ended, consumed := last, false, false, 0;
    var i := 0;
    while i < |items|
      invariant consumed == i <= |items| && !failed && !ended
      invariant r.Abs() == ReceivedAll(old(r.Abs()), keyOf, items, i)
      invariant reached == LastVersion(last, items, i)
      invariant forall k :: 0 <= k < i ==> items[k] != ErrorEvent
    {
      var picksDone: bool := *;
      if mayEnd && picksDone {
        ended := true;
        return;
      }
      if items[i] == ErrorEvent {
        failed := true;
        return;
      }
      if items[i] != NotAnObject {
        reached := items[i].obj.version;
        if keyOf.advances.Some? {
          r.Advance(keyOf.advances.value, items[i].obj.version);
        }
        var key := keyOf.key(items[i].obj);
        if key != NoKey && items[i].Event? {
          r.Observe(items[i].obj, key);
        }
      }
      i, consumed := i + 1, consumed + 1;
    }
  }

  // The server side: the history of one watched list, and what it sends.

  /** The history of one list: each state that an object of it had, by resource
      version. */
  ghost predicate IsLog(log: seq<Object>) {
    && (forall i :: 0 <= i < |log| ==> log[i].version.Comparable?)
    && (forall i, j :: 0 <= i < j < |log| ==> log[i].version.n < log[j].version.n)
  }

  /** pos is the number of states of log up to version. */
  ghost predicate IsBoundary(log: seq<Object>, version: Version, pos: nat) {
    && version.Comparable? && pos <= |log|
    && (forall i :: 0 <= i < pos ==> log[i].version.Comparable? && log[i].version.n <= version.n)
    && (forall i :: pos <= i < |log| ==> log[i].version.Comparable? && version.n < log[i].version.n)
  }

  function CountEvents(items: seq<Item>, n: nat): nat
    requires n <= |items|
  {
    if n == 0 then 0 else CountEvents(items, n - 1) + (if items[n - 1].Event? then 1 else 0)
  }

  /** The first n items are what a watch sends that starts after version, at
      position pos of log: the states of log in order from there. A bookmark is
      at a version that the watch reached and before the next state. */
  ghost predicate Delivers(log: seq<Object>, pos: nat, version: Version, items: seq<Item>, n: nat)
    requires n <= |items|
  {
    n == 0 ||
    var next, reached := pos + CountEvents(items, n - 1), LastVersion(version, items, n - 1);
    && Delivers(log, pos, version, items, n - 1)
    && match items[n - 1]
       case Event(obj) => next < |log| && obj == log[next]
       case Bookmark(obj) =>
         && obj.version.Comparable? && reached.Comparable? && reached.n <= obj.version.n
         && (next < |log| ==> log[next].version.Comparable? && obj.version.n < log[next].version.n)
       case _ => true
  }

  /** From session k on, each Watch call is answered after the version that the
      calls before it reached. */
  ghost predicate Serves(log: seq<Object>, pos: nat, version: Version, sessions: seq<Session>, k: nat)
    requires k <= |sessions|
    decreases |sessions| - k
  {
    k == |sessions| || sessions[k].Refused? ||
    var items := sessions[k].items;
    && Delivers(log, pos, version, items, |items|)
    && Serves(log, pos + CountEvents(items, |items|), LastVersion(version, items, |items|), sessions, k + 1)
  }

  function TotalEvents(sessions: seq<Session>, k: nat): nat
    requires k <= |sessions|
  {
    if k == 0 then 0
    else
      var s := sessions[k - 1];
      TotalEvents(sessions, k - 1) + (if s.Opened? then CountEvents(s.items, |s.items|) else 0)
  }

  /** The state after observing objs[a..b] in order, each once, under the key
      that keyOf gives it. */
  function ObservedRange(s: State, keyOf: KeyOf, objs: seq<Object>, a: nat, b: nat): State
    requires a <= b <= |objs|
  {
    if a == b then s else ObservedKeyed(ObservedRange(s, keyOf, objs, a, b - 1), keyOf, objs[b - 1])
  }

  /** a and b agree on all but the reached versions. */
  predicate SameRecord(a: State, b: State) {
    a.(latest := map[]) == b.(latest := map[])
  }

  lemma SameRecordKeyed(s: State, t: State, keyOf: KeyOf, obj: Object)
    requires SameRecord(s, t)
    ensures SameRecord(ObservedKeyed(s, keyOf, obj), ObservedKeyed(t, keyOf, obj))
    ensures ObservedKeyed(s, keyOf, obj).failures == s.failures
    ensures ObservedKeyed(s, keyOf, obj).latest == s.latest
  {}

  lemma {:induction false} SameRecordRange(s: State, t: State, keyOf: KeyOf, objs: seq<Object>, a: nat, b: nat)
    requires a <= b <= |objs| && SameRecord(s, t)
    ensures SameRecord(ObservedRange(s, keyOf, objs, a, b), ObservedRange(t, keyOf, objs, a, b))
  {
    if a < b {
      SameRecordRange(s, t, keyOf, objs, a, b - 1);
      SameRecordKeyed(
        ObservedRange(s, keyOf, objs, a, b - 1), ObservedRange(t, keyOf, objs, a, b - 1), keyOf, objs[b - 1]);
    }
  }

  lemma {:induction false} RangeInParts(s: State, keyOf: KeyOf, objs: seq<Object>, a: nat, b: nat, c: nat)
    requires a <= b <= c <= |objs|
    ensures ObservedRange(ObservedRange(s, keyOf, objs, a, b), keyOf, objs, b, c) == ObservedRange(s, keyOf, objs, a, c)
  {
    if b < c {
      RangeInParts(s, keyOf, objs, a, b, c - 1);
    }
  }

  lemma {:induction false} DeliversPrefix(
    log: seq<Object>, pos: nat, version: Version, items: seq<Item>, n: nat, m: nat)
    requires m <= n <= |items| && Delivers(log, pos, version, items, n)
    ensures Delivers(log, pos, version, items, m)
  {
    if m < n {
      DeliversPrefix(log, pos, version, items, n - 1, m);
    }
  }

  /** The last version that a session gave is the boundary of exactly the states
      that it delivered, so a watch that starts again after it loses none and
      repeats none. */
  lemma {:induction false} DeliveredBoundary(
    log: seq<Object>, pos: nat, version: Version, items: seq<Item>, n: nat)
    requires IsLog(log) && IsBoundary(log, version, pos)
    requires n <= |items| && Delivers(log, pos, version, items, n)
    ensures IsBoundary(log, LastVersion(version, items, n), pos + CountEvents(items, n))
  {
    if n > 0 {
      DeliveredBoundary(log, pos, version, items, n - 1);
    }
  }

  /** What a session delivered is recorded once each, in order. */
  lemma {:induction false} DeliveredIsObserved(
    log: seq<Object>, pos: nat, version: Version, keyOf: KeyOf, s: State, items: seq<Item>, n: nat)
    requires n <= |items| && Delivers(log, pos, version, items, n) && pos + CountEvents(items, n) <= |log|
    ensures
      SameRecord(
        ReceivedAll(s, keyOf, items, n),
        ObservedRange(s, keyOf, log, pos, pos + CountEvents(items, n)))
    ensures ReceivedAll(s, keyOf, items, n).failures == s.failures
  {
    if n > 0 {
      DeliveredIsObserved(log, pos, version, keyOf, s, items, n - 1);
      var now := ReceivedAll(s, keyOf, items, n - 1);
      var next := pos + CountEvents(items, n - 1);
      if items[n - 1].Event? {
        SameRecordKeyed(
          Advanced(now, keyOf, log[next]), ObservedRange(s, keyOf, log, pos, next), keyOf, log[next]);
      }
    }
  }

  /** The reached versions after a list: keyOf records that of each object. */
  function ListedLatest(latest: map<string, Version>, keyOf: KeyOf, objs: seq<Object>): map<string, Version> {
    if keyOf.advances.None? || objs == [] then latest
    else latest[keyOf.advances.value := objs[|objs| - 1].version]
  }

  /** Only the version of the stream of keyOf changed, and it is the boundary
      of the states that were delivered, when one was. */
  ghost predicate ReachedIs(
    was: map<string, Version>, now: map<string, Version>, keyOf: KeyOf, log: seq<Object>, start: nat, delivered: nat)
  {
    && (keyOf.advances.None? ==> now == was)
    && (keyOf.advances.Some? ==>
          var stream := keyOf.advances.value;
          && now - {stream} == was - {stream}
          && (now == was || (stream in now && IsBoundary(log, now[stream], delivered)))
          && (start < delivered ==> stream in now && IsBoundary(log, now[stream], delivered)))
  }

  lemma {:induction false} LatestIsReached(keyOf: KeyOf, s: State, items: seq<Item>, version: Version, n: nat)
    requires n <= |items|
    ensures
      var now := ReceivedAll(s, keyOf, items, n).latest;
      if keyOf.advances.None? then now == s.latest
      else
        var stream := keyOf.advances.value;
        && now - {stream} == s.latest - {stream}
        && (now == s.latest || (stream in now && now[stream] == LastVersion(version, items, n)))
        && (CountEvents(items, n) > 0 ==> stream in now && now[stream] == LastVersion(version, items, n))
  {
    if n > 0 {
      LatestIsReached(keyOf, s, items, version, n - 1);
    }
  }

  /** The outcome of a watch: it did not start, it ended with the context, it
      failed, or it used up the answers that the server gave so far. */
  datatype Outcome = NotStarted | Ended | Stopped(failure: Failure) | Running

  /** What the answers from session k on lead to, as long as the context lasts. */
  function OutcomeOf(sessions: seq<Session>, k: nat): (o: Outcome)
    requires k <= |sessions|
    ensures o.Running? || o.Stopped?
    decreases |sessions| - k
  {
    if k == |sessions| then Running
    else if sessions[k].Refused? then Stopped(RestartFailed)
    else if ErrorEvent in sessions[k].items then Stopped(WatchFailed)
    else OutcomeOf(sessions, k + 1)
  }

  /** watch. from is None for a watch that lists first, and start is the
      boundary in log after which it watches. However often the server closes
      the watch, the recorder has observed the listed objects and then a prefix
      of the states after the boundary, once each and in order. */
  method Watch(
    r: Recorder, keyOf: KeyOf, from: Option<Version>, list: Result<Listing, Failure>,
    sessions: seq<Session>, mayEnd: bool, ghost log: seq<Object>, ghost start: nat)
    returns (outcome: Outcome, ghost delivered: nat)
    requires IsLog(log)
    requires from.Some? ==> IsBoundary(log, from.value, start) && Serves(log, start, from.value, sessions, 0)
    requires from.None? && list.Ok? ==>
      IsBoundary(log, list.value.version, start) && Serves(log, start, list.value.version, sessions, 0)
    modifies r
    ensures r.failures == old(r.failures) + if outcome.Stopped? then [outcome.failure] else []
    ensures outcome == Ended ==> mayEnd
    ensures outcome == NotStarted <==> (from.None? && list.Err?) || sessions == [] || sessions[0].Refused?
    ensures outcome == NotStarted || outcome == Ended || outcome == OutcomeOf(sessions, 0)
    ensures outcome != NotStarted ==>
      && start <= delivered <= |log|
      && (outcome == Running ==> delivered == start + TotalEvents(sessions, |sessions|))
      && var listed := if from.Some? then [] else list.value.objs;
      && SameRecord(
           r.Abs().(failures := old(r.failures)),
           ObservedRange(
             ObservedRange(old(r.Abs()), keyOf, listed, 0, |listed|), keyOf, log, start, delivered))
      && ReachedIs(ListedLatest(old(r.latest), keyOf, listed), r.latest, keyOf, log, start, delivered)
  {
    delivered := start;
    var last: Version;
    ghost var listed: seq<Object> := [];
    if from.None? {
      if list.Err? {
        return NotStarted, start;
      }
      last := list.value.version;
      listed := list.value.objs;
      ObserveListed(r, keyOf, list.value.objs);
    } else {
      last := from.value;
    }
    if sessions == [] || sessions[0].Refused? {
      return NotStarted, start;
    }
    ghost var s0 := r.Abs();
    outcome, delivered := Keep(r, keyOf, last, sessions, mayEnd, log, start);
    SameRecordRange(s0, ObservedRange(old(r.Abs()), keyOf, listed, 0, |listed|), keyOf, log, start, delivered);
  }

  method ObserveListed(r: Recorder, keyOf: KeyOf, objs: seq<Object>)
    modifies r
    ensures SameRecord(r.Abs(), ObservedRange(old(r.Abs()), keyOf, objs, 0, |objs|))
    ensures r.failures == old(r.failures) && r.latest == ListedLatest(old(r.latest), keyOf, objs)
  {
    for i := 0 to |objs|
      invariant r.latest == ListedLatest(old(r.latest), keyOf, objs[..i])
      invariant SameRecord(r.Abs(), ObservedRange(old(r.Abs()), keyOf, objs, 0, i))
      invariant r.failures == old(r.failures)
    {
      SameRecordKeyed(
        Advanced(r.Abs(), keyOf, objs[i]), ObservedRange(old(r.Abs()), keyOf, objs, 0, i), keyOf, objs[i]);
      if keyOf.advances.Some? {
        r.Advance(keyOf.advances.value, objs[i].version);
      }
      var key := keyOf.key(objs[i]);
      if key != NoKey {
        r.Observe(objs[i], key);
      }
      assert objs[..i + 1][i] == objs[i];
    }
    assert objs[..|objs|] == objs;
  }

  /** The loop of the goroutine of watch. When drain returns and the context has
      ended, also after an error event, it returns without a failure. */
  method Keep(
    r: Recorder, keyOf: KeyOf, from: Version, sessions: seq<Session>, mayEnd: bool,
    ghost log: seq<Object>, ghost start: nat)
    returns (outcome: Outcome, ghost delivered: nat)
    requires IsLog(log) && IsBoundary(log, from, start) && Serves(log, start, from, sessions, 0)
    modifies r
    ensures outcome == OutcomeOf(sessions, 0) || (outcome == Ended && mayEnd)
    ensures r.failures == old(r.failures) + if outcome.Stopped? then [outcome.failure] else []
    ensures start <= delivered <= |log|
    ensures outcome == Running ==> delivered == start + TotalEvents(sessions, |sessions|)
    ensures ReachedIs(old(r.latest), r.latest, keyOf, log, start, delivered)
    ensures
      SameRecord(
        r.Abs().(failures := old(r.failures)),
        ObservedRange(old(r.Abs()), keyOf, log, start, delivered))
  {
    ghost var s0 := r.Abs();
    var last := from;
    delivered, outcome := start, Running;
    var k := 0;
    while k < |sessions|
      invariant k <= |sessions| && outcome == Running && OutcomeOf(sessions, k) == OutcomeOf(sessions, 0)
      invariant IsBoundary(log, last, delivered) && Serves(log, delivered, last, sessions, k)
      invariant start + TotalEvents(sessions, k) == delivered
      invariant ReachedIs(old(r.latest), r.latest, keyOf, log, start, delivered)
      invariant SameRecord(r.Abs(), ObservedRange(s0, keyOf, log, start, delivered))
      invariant r.failures == old(r.failures)
    {
      if sessions[k].Refused? {
        r.Fail(RestartFailed);
        return Stopped(RestartFailed), delivered;
      }
      ghost var was, pos, s1 := r.latest, delivered, r.Abs();
      var failed, ended;
      last, failed, ended, delivered := DrainOne(r, keyOf, sessions[k].items, last, mayEnd, log, pos);
      ReachedInParts(old(r.latest), was, r.latest, keyOf, log, start, pos, delivered);
      SameRecordRange(s1, ObservedRange(s0, keyOf, log, start, pos), keyOf, log, pos, delivered);
      RangeInParts(s0, keyOf, log, start, pos, delivered);
      var contextEnded: bool := *;
      if ended || (mayEnd && contextEnded) {
        return Ended, delivered;
      }
      if failed {
        r.Fail(WatchFailed);
        return Stopped(WatchFailed), delivered;
      }
      k := k + 1;
    }
  }

  lemma ReachedInParts(
    a: map<string, Version>, b: map<string, Version>, c: map<string, Version>,
    keyOf: KeyOf, log: seq<Object>, start: nat, pos: nat, delivered: nat)
    requires start <= pos <= delivered
    requires ReachedIs(a, b, keyOf, log, start, pos) && ReachedIs(b, c, keyOf, log, pos, delivered)
    ensures ReachedIs(a, c, keyOf, log, start, delivered)
  {}

  method DrainOne(
    r: Recorder, keyOf: KeyOf, items: seq<Item>, last: Version, mayEnd: bool, ghost log: seq<Object>, ghost pos: nat)
    returns (reached: Version, failed: bool, ended: bool, ghost delivered: nat)
    requires IsLog(log) && IsBoundary(log, last, pos) && Delivers(log, pos, last, items, |items|)
    modifies r
    ensures IsBoundary(log, reached, delivered) && pos <= delivered
    ensures SameRecord(r.Abs(), ObservedRange(old(r.Abs()), keyOf, log, pos, delivered))
    ensures ReachedIs(old(r.latest), r.latest, keyOf, log, pos, delivered)
    ensures r.failures == old(r.failures)
    ensures ended ==> mayEnd
    ensures !ended ==> (failed <==> ErrorEvent in items)
    ensures !ended && !failed ==>
      delivered == pos + CountEvents(items, |items|) && reached == LastVersion(last, items, |items|)
  {
    ghost var consumed;
    reached, failed, ended, consumed := Drain(r, keyOf, items, last, mayEnd);
    DeliversPrefix(log, pos, last, items, |items|, consumed);
    DeliveredBoundary(log, pos, last, items, consumed);
    DeliveredIsObserved(log, pos, last, keyOf, old(r.Abs()), items, consumed);
    LatestIsReached(keyOf, old(r.Abs()), items, last, consumed);
    delivered := pos + CountEvents(items, consumed);
  }
}
