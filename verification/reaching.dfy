/** Runs of the watches and the checks that exist: the server can write up to each
    cut of the versions, and each watch can take as much as it wrote. */
module Reaching {
  import opened Api
  import opened Recording
  import opened Protocol
  import opened Checks

  /** Some run of the watches and the checks reaches m. */
  ghost predicate Reaches(setup: Setup, m: Moment) {
    exists trace: seq<Moment>, steps: seq<Step> :: EndsIn(setup, trace, steps, m)
  }

  ghost predicate EndsIn(setup: Setup, trace: seq<Moment>, steps: seq<Step>, m: Moment) {
    IsCheckedTrace(setup, trace, steps) && trace[|trace| - 1] == m
  }

  lemma ReachesInitial(setup: Setup) returns (m: Moment)
    requires setup.Valid()
    ensures Reaches(setup, m) && m == Moment(Initial(setup), Idle)
  {
    m := Moment(Initial(setup), Idle);
    assert EndsIn(setup, [m], [], m);
  }

  lemma ReachesNext(setup: Setup, m: Moment, x: Step, next: Moment)
    requires Reaches(setup, m) && IsStep(setup, m, x, next)
    ensures Reaches(setup, next)
  {
    var trace: seq<Moment>, steps: seq<Step> :| EndsIn(setup, trace, steps, m);
    TraceGrows(setup, trace, steps, x, next);
    assert EndsIn(setup, trace + [next], steps + [x], next);
  }

  lemma TraceGrows(setup: Setup, trace: seq<Moment>, steps: seq<Step>, x: Step, next: Moment)
    requires IsCheckedTrace(setup, trace, steps) && IsStep(setup, trace[|trace| - 1], x, next)
    ensures IsCheckedTrace(setup, trace + [next], steps + [x])
  {
    var t, b := trace + [next], steps + [x];
    forall k | 0 <= k < |b| ensures IsStep(setup, t[k], b[k], t[k + 1]) {
      if k < |steps| {
        assert t[k] == trace[k] && t[k + 1] == trace[k + 1] && b[k] == steps[k];
      }
    }
  }

  lemma ReachedInv(setup: Setup, m: Moment)
    requires setup.DistinctObjects() && Reaches(setup, m)
    ensures setup.Valid() && MomentOk(setup, m)
  {
    var trace: seq<Moment>, steps: seq<Step> :| EndsIn(setup, trace, steps, m);
    MomentIsOk(setup, trace, steps, |trace| - 1);
  }

  lemma Acts(setup: Setup, m: Moment, a: Action) returns (next: Moment)
    requires Reaches(setup, m) && Shape(setup, m.run) && Enabled(setup, m.run, a)
    ensures Reaches(setup, next) && next == Moment(Do(setup, m.run, a), m.checker)
  {
    next := Moment(Do(setup, m.run, a), m.checker);
    ReachesNext(setup, m, System(a), next);
  }

  lemma ReadsOne(setup: Setup, m: Moment, c: Check) returns (next: Moment)
    requires Reaches(setup, m) && Shape(setup, m.run) && CanCheck(setup, m, c)
    ensures Reaches(setup, next) && next == Moment(m.run, Checked(setup, m, c))
  {
    next := Moment(m.run, Checked(setup, m, c));
    ReachesNext(setup, m, Checking(c), next);
  }

  // The server can write up to each cut.

  function Missing(a: Heads, b: Heads, n: nat): nat
    requires Below(a, b) && n <= |a|
  {
    if n == 0 then 0 else Missing(a, b, n - 1) + (b[n - 1] - a[n - 1])
  }

  lemma {:induction false} MissingDrops(a: Heads, b: Heads, i: nat, n: nat)
    requires Below(a, b) && i < |a| && a[i] < b[i] && n <= |a|
    ensures Below(a[i := a[i] + 1], b)
    ensures Missing(a[i := a[i] + 1], b, n) == Missing(a, b, n) - (if i < n then 1 else 0)
  {
    if n > 0 {
      MissingDrops(a, b, i, n - 1);
    }
  }

  predicate Open(a: Heads, b: Heads, i: nat) {
    i < |a| && i < |b| && a[i] < b[i]
  }

  /** Stream k has something to write, and its next state can be compared. */
  predicate Candidate(setup: Setup, a: Heads, b: Heads, k: nat) {
    && Open(a, b, k) && k < |setup.streams| && a[k] < |setup.streams[k].log|
    && setup.streams[k].log[a[k]].version.Comparable?
  }

  function NextVersion(setup: Setup, a: Heads, b: Heads, k: nat): nat
    requires Candidate(setup, a, b, k)
  {
    setup.streams[k].log[a[k]].version.n
  }

  ghost predicate IsLeastCandidate(setup: Setup, a: Heads, b: Heads, i: nat, n: nat) {
    && Candidate(setup, a, b, i)
    && forall k: nat :: k < n && Candidate(setup, a, b, k) ==>
         NextVersion(setup, a, b, i) <= NextVersion(setup, a, b, k)
  }

  lemma {:induction false} LeastCandidate(setup: Setup, a: Heads, b: Heads, n: nat, i0: nat) returns (i: nat)
    requires Candidate(setup, a, b, i0)
    ensures IsLeastCandidate(setup, a, b, i, n)
  {
    if n == 0 {
      i := i0;
    } else {
      i := LeastCandidate(setup, a, b, n - 1, i0);
      if Candidate(setup, a, b, n - 1) && NextVersion(setup, a, b, n - 1) < NextVersion(setup, a, b, i) {
        i := n - 1;
      }
    }
  }

  lemma BelowCut(st: Stream, k: nat, n: nat, v: nat)
    requires ValidStream(st) && CutOk(st.log, n, v) && k < n
    ensures UpTo(st.log[k].version, v)
  {}

  lemma OpenIsCandidate(setup: Setup, a: Heads, b: Heads, k: nat, v: nat)
    requires setup.Valid() && IsCut(setup, b, v) && Open(a, b, k)
    ensures Candidate(setup, a, b, k) && NextVersion(setup, a, b, k) <= v
  {
    BelowCut(setup.streams[k], a[k], b[k], v);
  }

  /** What the server writes next on its way to a cut. */
  lemma NextOnTheWay(setup: Setup, a: Heads, b: Heads, i0: nat) returns (i: nat)
    requires setup.Valid() && HeadsOk(setup, b) && Below(a, b) && Open(a, b, i0)
    ensures Candidate(setup, a, b, i) && IsNext(setup, a, i)
  {
    var v: nat :| IsCut(setup, b, v);
    OpenIsCandidate(setup, a, b, i0, v);
    i := LeastCandidate(setup, a, b, |a|, i0);
    OpenIsCandidate(setup, a, b, i, v);
    forall k | 0 <= k < |a| && a[k] < |setup.streams[k].log|
      ensures NotLater(setup.streams[i].log[a[i]], setup.streams[k].log[a[k]])
    {
      if Open(a, b, k) {
        OpenIsCandidate(setup, a, b, k, v);
        assert NextVersion(setup, a, b, i) <= NextVersion(setup, a, b, k);
      } else {
        assert CutOk(setup.streams[k].log, b[k], v);
      }
    }
  }

  lemma NothingOpen(a: Heads, b: Heads)
    requires Below(a, b) && forall i: nat :: !Open(a, b, i)
    ensures a == b
  {
    forall i: nat | i < |a| ensures a[i] == b[i] {
      assert !Open(a, b, i);
    }
  }

  lemma Writes(setup: Setup, m: Moment, i: nat) returns (next: Moment)
    requires Reaches(setup, m) && Shape(setup, m.run)
    requires i < |m.run.heads| && m.run.heads[i] < |setup.streams[i].log| && IsNext(setup, m.run.heads, i)
    ensures Reaches(setup, next)
    ensures next == Moment(m.run.(heads := m.run.heads[i := m.run.heads[i] + 1]), m.checker)
  {
    next := Acts(setup, m, Write(i));
  }

  lemma WriteOne(setup: Setup, m: Moment, to: Heads, i: nat) returns (next: Moment)
    requires setup.Valid() && Reaches(setup, m) && Shape(setup, m.run)
    requires HeadsOk(setup, to) && Below(m.run.heads, to) && Open(m.run.heads, to, i)
    ensures Reaches(setup, next) && next == Moment(m.run.(heads := next.run.heads), m.checker)
    ensures Below(next.run.heads, to) && Missing(next.run.heads, to, |to|) < Missing(m.run.heads, to, |to|)
  {
    var least := NextOnTheWay(setup, m.run.heads, to, i);
    MissingDrops(m.run.heads, to, least, |to|);
    next := Writes(setup, m, least);
  }

  lemma {:induction false} WriteTo(setup: Setup, m: Moment, to: Heads) returns (next: Moment)
    requires setup.Valid() && Reaches(setup, m) && Shape(setup, m.run)
    requires HeadsOk(setup, to) && Below(m.run.heads, to)
    ensures Reaches(setup, next) && next == Moment(m.run.(heads := to), m.checker)
    decreases Missing(m.run.heads, to, |to|)
  {
    if i: nat :| Open(m.run.heads, to, i) {
      next := WriteOne(setup, m, to, i);
      next := WriteTo(setup, next, to);
    } else {
      NothingOpen(m.run.heads, to);
      next := m;
    }
  }

  function Full(setup: Setup): Heads {
    seq(|setup.streams|, i requires 0 <= i < |setup.streams| => |setup.streams[i].log|)
  }

  lemma {:induction false} FullUpTo(setup: Setup, n: nat) returns (v: nat)
    requires setup.Valid() && n <= |setup.streams|
    ensures forall i :: 0 <= i < n ==> CutOk(setup.streams[i].log, |setup.streams[i].log|, v)
  {
    if n == 0 {
      v := 0;
    } else {
      v := FullUpTo(setup, n - 1);
      var log := setup.streams[n - 1].log;
      var last := LastOf(setup.streams[n - 1]);
      v := if v < last then last else v;
    }
  }

  lemma LastOf(st: Stream) returns (v: nat)
    requires ValidStream(st)
    ensures forall w: nat :: v <= w ==> CutOk(st.log, |st.log|, w)
  {
    v := if st.log == [] then 0 else st.log[|st.log| - 1].version.n;
  }

  lemma FullIsOk(setup: Setup)
    requires setup.Valid()
    ensures HeadsOk(setup, Full(setup))
  {
    var v := FullUpTo(setup, |setup.streams|);
    assert IsCut(setup, Full(setup), v);
  }

  lemma OkIsBelowFull(setup: Setup, heads: Heads)
    requires HeadsOk(setup, heads)
    ensures Below(heads, Full(setup))
  {
    var v: nat :| IsCut(setup, heads, v);
    forall i | 0 <= i < |heads| ensures heads[i] <= Full(setup)[i] {
      assert CutOk(setup.streams[i].log, heads[i], v);
    }
  }

  // A watch can take as much as the server wrote.

  predicate Rests(w: Watcher, taken: nat) {
    w.taken == taken && !w.pending && !w.stopped
  }

  /** Every watch runs, no one is in the middle of a state, and nothing failed. */
  predicate Quiet(s: Run, taken: seq<nat>) {
    && |taken| == |s.watchers| && s.rec.failures == []
    && forall k :: 0 <= k < |taken| ==> Rests(s.watchers[k], taken[k])
  }

  lemma TakeOne(setup: Setup, m: Moment, taken: seq<nat>, i: nat) returns (next: Moment)
    requires Reaches(setup, m) && Shape(setup, m.run) && Quiet(m.run, taken) && CanTake(setup, m.run, i)
    ensures Reaches(setup, next) && next.checker == m.checker && next.run.heads == m.run.heads
    ensures Quiet(next.run, taken[i := taken[i] + 1])
  {
    next := Acts(setup, m, Take(i));
    next := Acts(setup, next, Observe(i));
  }

  lemma {:induction false} TakeTo(setup: Setup, m: Moment, taken: seq<nat>, i: nat, n: nat) returns (next: Moment)
    requires Reaches(setup, m) && Shape(setup, m.run) && Quiet(m.run, taken)
    requires i < |taken| && taken[i] <= n <= |setup.streams[i].listed| + m.run.heads[i]
    requires n <= |setup.streams[i].Feed()|
    ensures Reaches(setup, next) && next.checker == m.checker && next.run.heads == m.run.heads
    ensures Quiet(next.run, taken[i := n])
    decreases n - taken[i]
  {
    if taken[i] == n {
      next := m;
      assert taken[i := n] == taken;
    } else {
      next := TakeOne(setup, m, taken, i);
      next := TakeTo(setup, next, taken[i := taken[i] + 1], i, n);
      assert taken[i := taken[i] + 1][i := n] == taken[i := n];
    }
  }
}
