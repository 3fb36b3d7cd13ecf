/** The cleanups of a run: which requests they delete while other clients delete
    requests and create them again under the same names, and what is left. */
module Cleanups {
  import opened Api

  /** The namespace of the run. A terminating one takes no new objects. */
  datatype Namespace = Missing | Active(uid: Uid) | Terminating(uid: Uid)

  /** The namespace and its requests, by name. Each UID from next on was never
      given out. */
  datatype State = State(namespace: Namespace, requests: map<string, Uid>, next: Uid)

  predicate StateOk(s: State) {
    && (s.namespace.Missing? ==> s.requests == map[])
    && (!s.namespace.Missing? ==> s.namespace.uid < s.next)
    && (forall n :: n in s.requests ==> s.requests[n] < s.next)
    && (forall m, n :: m in s.requests && n in s.requests && m != n ==> s.requests[m] != s.requests[n])
  }

  // The changes of the state.

  function Added(s: State, name: string): State {
    s.(requests := s.requests[name := s.next], next := s.next + 1)
  }

  function Removed(s: State, name: string): State {
    s.(requests := s.requests - {name})
  }

  function WithNamespace(s: State): State {
    s.(namespace := Active(s.next), next := s.next + 1)
  }

  /** The deletion of the namespace, which deletes each request in it. */
  function Doomed(s: State): State
    requires s.namespace.Active?
  {
    s.(namespace := Terminating(s.namespace.uid))
  }

  function WithoutNamespace(s: State): State {
    s.(namespace := Missing)
  }

  /** One step of another client, or of the server that empties and removes a
      terminating namespace. */
  predicate OtherStep(s: State, t: State) {
    || (s.namespace.Active? && exists name :: name in t.requests && name !in s.requests && t == Added(s, name))
    || (exists name :: name in s.requests && t == Removed(s, name))
    || (s.namespace.Missing? && t == WithNamespace(s))
    || (s.namespace.Active? && t == Doomed(s))
    || (s.namespace.Terminating? && s.requests == map[] && t == WithoutNamespace(s))
  }

  /** The namespace is the same, and is not active again. */
  predicate SameNamespace(s: State, t: State) {
    && !s.namespace.Missing? && !t.namespace.Missing? && t.namespace.uid == s.namespace.uid
    && (t.namespace.Active? ==> s.namespace.Active?)
  }

  /** What clients can do: requests and namespaces go, and new ones get new
      UIDs. */
  predicate Evolves(s: State, t: State) {
    && s.next <= t.next
    && (!t.namespace.Missing? ==> t.namespace.uid >= s.next || SameNamespace(s, t))
    && forall n :: n in t.requests ==> t.requests[n] >= s.next || (n in s.requests && s.requests[n] == t.requests[n])
  }

  predicate Gone(s: State, uid: Uid) {
    forall n :: n in s.requests ==> s.requests[n] != uid
  }

  lemma EvolvesTrans(s: State, t: State, u: State)
    requires Evolves(s, t) && Evolves(t, u)
    ensures Evolves(s, u)
  {
    forall n | n in u.requests
      ensures u.requests[n] >= s.next || (n in s.requests && s.requests[n] == u.requests[n])
    {
      assert u.requests[n] >= t.next || (n in t.requests && t.requests[n] == u.requests[n]);
    }
  }

  lemma OtherStepEvolves(s: State, t: State)
    requires StateOk(s) && OtherStep(s, t)
    ensures StateOk(t) && Evolves(s, t)
  {}

  /** A request that is gone stays gone. */
  lemma GoneStays(s: State, t: State, uid: Uid)
    requires Evolves(s, t) && Gone(s, uid) && uid < s.next
    ensures Gone(t, uid)
  {}

  /** A request that a run made. */
  datatype Made = Made(name: string, uid: Uid)

  /** The UID of the request stands under its name only, and was given out. */
  predicate AtHome(s: State, made: Made) {
    made.uid < s.next && forall n :: n in s.requests && s.requests[n] == made.uid ==> n == made.name
  }

  predicate AllAtHome(s: State, made: seq<Made>) {
    forall i :: 0 <= i < |made| ==> AtHome(s, made[i])
  }

  lemma MoreUids(made: seq<Made>, last: Made)
    ensures Uids(made + [last]) == Uids(made) + {last.uid}
  {
    var more := made + [last];
    assert more[|made|] == last && forall i :: 0 <= i < |made| ==> more[i] == made[i];
    forall uid | uid in Uids(made) ensures uid in Uids(more) {
      var i :| 0 <= i < |made| && made[i].uid == uid;
      assert more[i].uid == uid;
    }
  }

  predicate AllGone(s: State, made: seq<Made>) {
    forall i :: 0 <= i < |made| ==> Gone(s, made[i].uid)
  }

  function Uids(made: seq<Made>): set<Uid> {
    set i | 0 <= i < |made| :: made[i].uid
  }

  lemma HomeStays(s: State, t: State, made: seq<Made>)
    requires Evolves(s, t) && AllAtHome(s, made)
    ensures AllAtHome(t, made)
  {
    forall i | 0 <= i < |made| ensures AtHome(t, made[i]) {
      assert AtHome(s, made[i]);
    }
  }

  lemma AllGoneStays(s: State, t: State, made: seq<Made>)
    requires Evolves(s, t) && AllAtHome(s, made) && AllGone(s, made)
    ensures AllGone(t, made)
  {
    forall i | 0 <= i < |made| ensures Gone(t, made[i].uid) {
      assert AtHome(s, made[i]);
      GoneStays(s, t, made[i].uid);
    }
  }

  datatype Reply = Done | NotFound | Conflict | Failed

  datatype Got = Absent | Found(uid: Uid) | NoAnswer

  /** What a deletion does: the state after it, the requests that it hits, and
      the answer of the server. */
  datatype Deletion = Deletion(state: State, hit: set<Uid>, reply: Reply)

  function Held(s: State): set<Uid> {
    set n | n in s.requests :: s.requests[n]
  }

  /** The deletion of a request by name, with the UID as its precondition. A
      finalizer can keep the request. */
  function DeletedBy(s: State, made: Made, removes: bool): Deletion {
    if made.name !in s.requests then Deletion(s, {}, NotFound)
    else if s.requests[made.name] != made.uid then Deletion(s, {}, Conflict)
    else Deletion(if removes then Removed(s, made.name) else s, {s.requests[made.name]}, Done)
  }

  lemma DeletionIs(s: State, made: Made, removes: bool)
    requires StateOk(s) && AtHome(s, made)
    ensures
      var d := DeletedBy(s, made, removes);
      && StateOk(d.state) && Evolves(s, d.state) && d.reply != Failed
      && d.hit == (if d.reply == Done then {made.uid} else {})
      && (d.reply == NotFound || d.reply == Conflict ==> Gone(d.state, made.uid))
  {}

  /** The deletion of the namespace, with the UID as its precondition. It hits
      each request in the namespace. */
  function DroppedBy(s: State, uid: Uid): Deletion {
    if s.namespace.Missing? then Deletion(s, {}, NotFound)
    else if s.namespace.uid != uid then Deletion(s, {}, Conflict)
    else if s.namespace.Active? then Deletion(Doomed(s), Held(s), Done)
    else Deletion(s, {}, Done)
  }

  /** What close runs. DeleteCreated reads the list of the run when it runs, as
      the closure does that shares the variable. */
  datatype Cleanup = DeleteNamespace(uid: Uid) | DeleteRunObjects | DeleteCreated | DeleteThese(made: seq<Made>)

  /** The cleanups of a run that prepare did not fail: the one of a namespace that
      the run made, of the objects, and of the requests. */
  ghost predicate IsPrepared(list: seq<Cleanup>, existed: bool) {
    if existed then list == [DeleteRunObjects, DeleteCreated]
    else exists uid :: list == [DeleteNamespace(uid), DeleteRunObjects, DeleteCreated]
  }

  lemma PreparedReversed(list: seq<Cleanup>, existed: bool)
    requires IsPrepared(list, existed)
    ensures existed ==> Reversed(list) == [DeleteCreated, DeleteRunObjects]
    ensures !existed ==> exists uid :: Reversed(list) == [DeleteCreated, DeleteRunObjects, DeleteNamespace(uid)]
  {
    var last := [DeleteRunObjects, DeleteCreated];
    assert last[..1] == [DeleteRunObjects];
    assert Reversed([DeleteRunObjects]) == [DeleteRunObjects];
    assert Reversed(last) == [DeleteCreated, DeleteRunObjects];
    if !existed {
      var uid :| list == [DeleteNamespace(uid), DeleteRunObjects, DeleteCreated];
      var first: Cleanup := DeleteNamespace(uid);
      assert list[..2] == [first, DeleteRunObjects] && [first, DeleteRunObjects][..1] == [first];
      assert Reversed([first]) == [first];
      assert Reversed([first, DeleteRunObjects]) == [DeleteRunObjects, first];
      assert Reversed(list) == [DeleteCreated, DeleteRunObjects, first];
    }
  }

  function Reversed<T>(s: seq<T>): seq<T> {
    if s == [] then [] else [s[|s| - 1]] + Reversed(s[..|s| - 1])
  }

  lemma {:induction false} ReversedAt(s: seq<Cleanup>)
    ensures |Reversed(s)| == |s| && forall i :: 0 <= i < |s| ==> Reversed(s)[i] == s[|s| - 1 - i]
  {
    if s != [] {
      ReversedAt(s[..|s| - 1]);
    }
  }

  /** The UIDs that a cleanup hits by themselves. */
  function Targets(created: seq<Made>, c: Cleanup): set<Uid> {
    match c
    case DeleteCreated => Uids(created)
    case DeleteThese(made) => Uids(made)
    case _ => {}
  }

  function AllTargets(created: seq<Made>, list: seq<Cleanup>): set<Uid> {
    set i, uid | 0 <= i < |list| && uid in Targets(created, list[i]) :: uid
  }

  lemma TargetsAmong(created: seq<Made>, list: seq<Cleanup>, i: nat)
    requires i < |list|
    ensures Targets(created, list[i]) <= AllTargets(created, list)
  {}

  lemma OwnTargets(created: seq<Made>, list: seq<Cleanup>)
    requires forall i :: 0 <= i < |list| ==> !list[i].DeleteThese?
    ensures AllTargets(created, list) <= Uids(created)
  {}

  predicate Runnable(s: State, list: seq<Cleanup>) {
    && (forall i :: 0 <= i < |list| && list[i].DeleteThese? ==> AllAtHome(s, list[i].made))
    && (forall i :: 0 <= i < |list| && list[i].DeleteNamespace? ==> list[i].uid < s.next)
  }

  lemma RunnableStays(s: State, t: State, list: seq<Cleanup>)
    requires Evolves(s, t) && Runnable(s, list)
    ensures Runnable(t, list)
  {
    forall i | 0 <= i < |list| && list[i].DeleteThese? ensures AllAtHome(t, list[i].made) {
      HomeStays(s, t, list[i].made);
    }
  }

  /** What a cleanup without an error leaves behind. */
  predicate HasRun(s: State, created: seq<Made>, c: Cleanup) {
    && (c.DeleteCreated? ==> AllGone(s, created))
    && (c.DeleteThese? ==> AllGone(s, c.made))
    && (c.DeleteNamespace? ==> s.namespace != Active(c.uid))
  }

  predicate HaveRun(s: State, created: seq<Made>, list: seq<Cleanup>, from: nat) {
    forall k :: from <= k < |list| ==> HasRun(s, created, list[k])
  }

  lemma HaveRunStays(s: State, t: State, created: seq<Made>, list: seq<Cleanup>, from: nat)
    requires Evolves(s, t) && AllAtHome(s, created) && Runnable(s, list)
    ensures HaveRun(s, created, list, from) ==> HaveRun(t, created, list, from)
  {
    forall k | from <= k < |list| && HasRun(s, created, list[k]) ensures HasRun(t, created, list[k]) {
      if list[k].DeleteCreated? {
        AllGoneStays(s, t, created);
      } else if list[k].DeleteThese? {
        AllGoneStays(s, t, list[k].made);
      }
    }
  }

  lemma ReversedLast(list: seq<Cleanup>, i: nat, so: seq<Cleanup>)
    requires i < |list|
    ensures so + Reversed(list[..i + 1]) == (so + [list[i]]) + Reversed(list[..i])
  {
    assert list[..i + 1][..i] == list[..i];
  }

  /** The requests that deletions of the namespace took with it, when they took
      effect in the states of drops. */
  function Swept(drops: seq<State>): set<Uid> {
    set i, n | 0 <= i < |drops| && n in drops[i].requests :: drops[i].requests[n]
  }

  lemma SweptMore(drops: seq<State>, s: State)
    ensures Swept(drops + [s]) == Swept(drops) + Held(s)
  {
    var more := drops + [s];
    assert forall i :: 0 <= i < |drops| ==> more[i] == drops[i];
    assert more[|drops|] == s;
    forall uid | uid in Swept(drops) ensures uid in Swept(more) {
      var i, n :| 0 <= i < |drops| && n in drops[i].requests && drops[i].requests[n] == uid;
      assert more[i].requests[n] == uid;
    }
    forall n | n in s.requests ensures s.requests[n] in Swept(more) {
      assert more[|drops|].requests[n] == s.requests[n];
    }
  }

  /** The namespaces that the cleanups delete. */
  function Namespaces(list: seq<Cleanup>): set<Uid> {
    set i | 0 <= i < |list| && list[i].DeleteNamespace? :: list[i].uid
  }

  /** Each further deletion of a namespace took effect on one of uids, at some
      time since s. */
  predicate NewDrops(s: State, before: seq<State>, after: seq<State>, uids: set<Uid>) {
    && before <= after
    && forall i :: |before| <= i < |after| ==>
         Evolves(s, after[i]) && after[i].namespace.Active? && after[i].namespace.uid in uids
  }

  lemma NewDropsTrans(s: State, t: State, a: seq<State>, b: seq<State>, c: seq<State>, uids: set<Uid>)
    requires Evolves(s, t) && NewDrops(s, a, b, uids) && NewDrops(t, b, c, uids)
    ensures NewDrops(s, a, c, uids)
  {
    forall i | |a| <= i < |c|
      ensures Evolves(s, c[i]) && c[i].namespace.Active? && c[i].namespace.uid in uids
    {
      if i < |b| {
        assert c[i] == b[i];
      } else {
        EvolvesTrans(s, t, c[i]);
      }
    }
  }

  /** The cleanups delete only a namespace that was not there at s. */
  predicate OwnNamespaces(s: State, list: seq<Cleanup>, existed: bool) {
    forall i :: 0 <= i < |list| && list[i].DeleteNamespace? ==> !existed && s.next <= list[i].uid
  }

  /** Each deletion of a namespace took effect on one that was not there at s,
      at some time since s. */
  predicate OwnDrops(s: State, drops: seq<State>, existed: bool) {
    forall i :: 0 <= i < |drops| ==>
      !existed && drops[i].namespace.Active? && s.next <= drops[i].namespace.uid && Evolves(s, drops[i])
  }

  lemma DropsAreOwn(s: State, t: State, drops: seq<State>, list: seq<Cleanup>, existed: bool)
    requires Evolves(s, t) && NewDrops(t, [], drops, Namespaces(list)) && OwnNamespaces(s, list, existed)
    ensures OwnDrops(s, drops, existed)
  {
    forall i | 0 <= i < |drops|
      ensures !existed && drops[i].namespace.Active? && s.next <= drops[i].namespace.uid && Evolves(s, drops[i])
    {
      EvolvesTrans(s, t, drops[i]);
      var k :| 0 <= k < |list| && list[k].DeleteNamespace? && list[k].uid == drops[i].namespace.uid;
    }
  }

  lemma SweptGrows(a: seq<State>, b: seq<State>)
    requires a <= b
    ensures Swept(a) <= Swept(b)
  {
    forall uid | uid in Swept(a) ensures uid in Swept(b) {
      var i, n :| 0 <= i < |a| && n in a[i].requests && a[i].requests[n] == uid;
      assert b[i].requests[n] == uid;
    }
  }

  class Suite {
    var state: State
    var created: seq<Made>
    var cleanups: seq<Cleanup>
    /** The UIDs of the requests that a creation of the suite made, and of those
        that a deletion of the suite has hit. */
    ghost var made: set<Uid>
    ghost var hit: set<Uid>
    /** The cleanups that ran, and the states in which a deletion of the
        namespace by the suite took effect. */
    ghost var ran: seq<Cleanup>
    ghost var drops: seq<State>
    /** The calls that failed and the waits that ran out so far. */
    ghost var failed: nat

    constructor (start: State)
      requires StateOk(start)
      ensures Valid() && state == start && created == [] && cleanups == []
      ensures made == {} && hit == {} && ran == [] && drops == []
    {
      state, created, cleanups, made, hit, ran, drops, failed := start, [], [], {}, {}, [], [], 0;
    }

    ghost predicate Valid()
      reads this
    {
      StateOk(state) && AllAtHome(state, created) && Uids(created) <= made
    }

    // The API server.

    /** Any steps of other clients. */
    method Interfere()
      requires StateOk(state)
      modifies this`state
      ensures StateOk(state) && Evolves(old(state), state)
    {
      var steps: nat := *;
      while steps > 0
        invariant StateOk(state) && Evolves(old(state), state)
      {
        var next: State := *;
        if OtherStep(state, next) {
          OtherStepEvolves(state, next);
          EvolvesTrans(old(state), state, next);
          state := next;
        }
        steps := steps - 1;
      }
    }

    /** A creation that fails can have made the request all the same. */
    method Create(name: string) returns (uid: Option<Uid>)
      requires StateOk(state)
      modifies this`state, this`made, this`failed
      ensures StateOk(state) && Evolves(old(state), state) && old(made) <= made
      ensures failed >= old(failed)
      ensures uid.None? ==> failed > old(failed) || name in state.requests || !state.namespace.Active?
      ensures uid.Some? ==> old(state.next) <= uid.value && AtHome(state, Made(name, uid.value)) && uid.value in made
    {
      Interfere();
      if name in state.requests || !state.namespace.Active? {
        return None;
      }
      if * {
        failed := failed + 1;
        return None;
      }
      uid := Some(state.next);
      EvolvesTrans(old(state), state, Added(state, name));
      state, made := Added(state, name), made + {state.next};
      if * {
        uid, failed := None, failed + 1;
      }
    }

    /** Each request that is in the namespace when its deletion takes effect is
        hit. A deletion that fails can have taken effect all the same. */
    method DropNamespace(uid: Uid) returns (reply: Reply)
      requires StateOk(state) && uid < state.next
      modifies this`state, this`hit, this`drops, this`failed
      ensures StateOk(state) && Evolves(old(state), state)
      ensures failed >= old(failed) && (reply == Failed <==> failed > old(failed))
      ensures
        || (drops == old(drops) && hit == old(hit))
        || (exists then_ ::
              && Evolves(old(state), then_) && then_.namespace == Active(uid) && drops == old(drops) + [then_]
              && hit == old(hit) + Held(then_))
      ensures reply != Failed ==> state.namespace != Active(uid)
    {
      Interfere();
      if * {
        failed := failed + 1;
        return Failed;
      }
      var deletion := DroppedBy(state, uid);
      if deletion.state != state {
        drops := drops + [state];
        EvolvesTrans(old(state), state, deletion.state);
      }
      hit := hit + deletion.hit;
      state := deletion.state;
      reply := deletion.reply;
      if * {
        reply, failed := Failed, failed + 1;
      }
    }

    /** The deletion takes effect. */
    method DeleteNow(made: Made) returns (reply: Reply)
      requires StateOk(state) && AtHome(state, made)
      modifies this`state, this`hit
      ensures StateOk(state) && Evolves(old(state), state) && reply != Failed
      ensures hit == old(hit) + if reply == Done then {made.uid} else {}
      ensures reply == NotFound || reply == Conflict ==> Gone(state, made.uid)
    {
      var removes: bool := *;
      var deletion := DeletedBy(state, made, removes);
      DeletionIs(state, made, removes);
      hit := hit + deletion.hit;
      state := deletion.state;
      reply := deletion.reply;
    }

    /** A deletion that fails can have hit the request all the same. */
    method Delete(made: Made) returns (reply: Reply)
      requires StateOk(state) && AtHome(state, made)
      modifies this`state, this`hit, this`failed
      ensures StateOk(state) && Evolves(old(state), state)
      ensures failed >= old(failed) && (reply == Failed <==> failed > old(failed))
      ensures hit == old(hit) || hit == old(hit) + {made.uid}
      ensures reply == Done ==> made.uid in hit
      ensures reply == NotFound || reply == Conflict ==> Gone(state, made.uid)
    {
      Interfere();
      HomeStays(old(state), state, [made]);
      assert AtHome(state, [made][0]);
      if * {
        failed := failed + 1;
        return Failed;
      }
      ghost var before := state;
      reply := DeleteNow(made);
      EvolvesTrans(old(state), before, state);
      if * {
        reply, failed := Failed, failed + 1;
      }
    }

    method Get(made: Made) returns (got: Got)
      requires StateOk(state) && AtHome(state, made)
      modifies this`state
      ensures StateOk(state) && Evolves(old(state), state)
      ensures got == Absent || (got.Found? && got.uid != made.uid) ==> Gone(state, made.uid)
    {
      Interfere();
      HomeStays(old(state), state, [made]);
      assert AtHome(state, [made][0]);
      if * {
        return NoAnswer;
      }
      return if made.name in state.requests then Found(state.requests[made.name]) else Absent;
    }

    // The cleanups.

    /** One poll of the wait: no request of the list exists. */
    method CheckGone(deleted: seq<Made>) returns (ok: bool)
      requires StateOk(state) && AllAtHome(state, deleted)
      modifies this`state
      ensures StateOk(state) && Evolves(old(state), state)
      ensures ok ==> AllGone(state, deleted)
    {
      ok := true;
      for i := 0 to |deleted|
        invariant StateOk(state) && Evolves(old(state), state) && AllAtHome(state, deleted)
        invariant ok ==> AllGone(state, deleted[..i])
      {
        ghost var before := state;
        assert AtHome(state, deleted[i]);
        var got := Get(deleted[i]);
        EvolvesTrans(old(state), before, state);
        HomeStays(before, state, deleted);
        if ok {
          AllGoneStays(before, state, deleted[..i]);
        }
        assert deleted[..i + 1] == deleted[..i] + [deleted[i]];
        if got.NoAnswer? {
          return false;
        }
        if got.Found? && got.uid == deleted[i].uid {
          ok := false;
        }
      }
      assert deleted[..|deleted|] == deleted;
    }

    /** The wait, which can time out after any number of polls. */
    method WaitGone(deleted: seq<Made>) returns (ok: bool)
      requires StateOk(state) && AllAtHome(state, deleted)
      modifies this`state, this`failed
      ensures failed == old(failed) + if ok then 0 else 1
      ensures StateOk(state) && Evolves(old(state), state)
      ensures ok ==> AllGone(state, deleted)
    {
      ok := false;
      var polls: nat := *;
      while polls > 0 && !ok
        invariant StateOk(state) && Evolves(old(state), state) && AllAtHome(state, deleted)
        invariant ok ==> AllGone(state, deleted)
        invariant failed == old(failed)
        decreases polls
      {
        ghost var before := state;
        ok := CheckGone(deleted);
        EvolvesTrans(old(state), before, state);
        HomeStays(before, state, deleted);
        polls := polls - 1;
      }
      if !ok {
        failed := failed + 1;
      }
    }

    /** The deletion of one request of the list, after those before it. */
    method DeleteNext(made: seq<Made>, i: nat, before: bool, deleted: seq<Made>) returns (ok: bool, more: seq<Made>)
      requires StateOk(state) && AllAtHome(state, made) && i < |made|
      requires Among(deleted, made) && Uids(deleted) <= hit && (before ==> Handled(state, made, deleted, i))
      modifies this`state, this`hit, this`failed
      ensures StateOk(state) && Evolves(old(state), state) && AllAtHome(state, made)
      ensures failed >= old(failed) && (ok <==> before && failed == old(failed))
      ensures old(hit) <= hit <= old(hit) + Uids(made) && Uids(more) <= hit
      ensures Among(more, made) && (ok ==> Handled(state, made, more, i + 1))
    {
      ghost var start := state;
      assert AtHome(state, made[i]);
      assert made[i].uid in Uids(made);
      var reply := Delete(made[i]);
      HomeStays(start, state, made);
      StillHandled(start, state, made, deleted, i);
      ok, more := before && reply != Failed, deleted;
      if reply == Done {
        MoreHandled(state, made, deleted, i);
        MoreUids(deleted, made[i]);
        more := deleted + [made[i]];
      }
    }

    /** The deletions: what was not hit is gone already, or counts as an
        error. */
    method DeleteEach(made: seq<Made>) returns (ok: bool, deleted: seq<Made>)
      requires StateOk(state) && AllAtHome(state, made)
      modifies this`state, this`hit, this`failed
      ensures failed >= old(failed) && (ok <==> failed == old(failed))
      ensures Uids(deleted) <= hit
      ensures StateOk(state) && Evolves(old(state), state) && AllAtHome(state, made)
      ensures old(hit) <= hit <= old(hit) + Uids(made)
      ensures Among(deleted, made)
      ensures ok ==> Handled(state, made, deleted, |made|)
    {
      ok, deleted := true, [];
      for i := 0 to |made|
        invariant StateOk(state) && Evolves(old(state), state) && AllAtHome(state, made)
        invariant old(hit) <= hit <= old(hit) + Uids(made)
        invariant Among(deleted, made) && Uids(deleted) <= hit
        invariant ok ==> Handled(state, made, deleted, i)
        invariant failed >= old(failed) && (ok <==> failed == old(failed))
      {
        ghost var before := state;
        ok, deleted := DeleteNext(made, i, ok, deleted);
        EvolvesTrans(old(state), before, state);
      }
    }

    /** deleteCreated: when it returns no error, none of the requests is left,
        and it hits no other request. */
    method DeleteMade(made: seq<Made>) returns (ok: bool)
      requires StateOk(state) && AllAtHome(state, made)
      modifies this`state, this`hit, this`failed
      ensures StateOk(state) && Evolves(old(state), state)
      ensures failed >= old(failed) && (ok <==> failed == old(failed))
      ensures old(hit) <= hit <= old(hit) + Uids(made)
      ensures ok ==> AllGone(state, made)
    {
      var deleted;
      ok, deleted := DeleteEach(made);
      ghost var before := state;
      DeletedAtHome(state, made, deleted);
      var waited := WaitGone(deleted);
      EvolvesTrans(old(state), before, state);
      if ok && waited {
        EachIsGone(before, state, made, deleted);
      }
      ok := ok && waited;
    }

    /** What the suite hits beyond targets is what went with the namespace. */
    ghost predicate HitsOnly(before: set<Uid>, dropped: seq<State>, targets: set<Uid>)
      reads this
    {
      && before <= hit && dropped <= drops
      && hit <= before + targets + Swept(drops)
      && (Swept(dropped) <= before ==> Swept(drops) <= hit)
    }

    /** deleteRunObjects touches no request. */
    method RunCleanup(c: Cleanup) returns (ok: bool)
      requires Valid() && Runnable(state, [c])
      modifies this`state, this`hit, this`ran, this`drops, this`failed
      ensures Valid() && Evolves(old(state), state)
      ensures failed >= old(failed) && (ok <==> failed == old(failed))
      ensures ran == old(ran) + [c]
      ensures HitsOnly(old(hit), old(drops), Targets(created, c))
      ensures NewDrops(old(state), old(drops), drops, if c.DeleteNamespace? then {c.uid} else {})
      ensures ok ==> HasRun(state, created, c)
    {
      assert [c][0] == c;
      ran := ran + [c];
      ghost var before := state;
      match c
      case DeleteCreated =>
        ok := DeleteMade(created);
        HomeStays(before, state, created);
      case DeleteThese(made) =>
        ok := DeleteMade(made);
        HomeStays(before, state, created);
      case DeleteNamespace(uid) =>
        var reply := DropNamespace(uid);
        HomeStays(before, state, created);
        if drops != old(drops) {
          SweptMore(old(drops), drops[|drops| - 1]);
        }
        ok := reply != Failed;
      case DeleteRunObjects =>
        Interfere();
        HomeStays(before, state, created);
        ok := *;
        if !ok {
          failed := failed + 1;
        }
    }

    ghost predicate AllRunnable()
      reads this
    {
      Valid() && Runnable(state, cleanups)
    }

    method OnClose(c: Cleanup)
      requires AllRunnable() && Runnable(state, [c])
      modifies this`cleanups
      ensures AllRunnable() && cleanups == old(cleanups) + [c]
    {
      cleanups := cleanups + [c];
    }

    /** One step of close, after the cleanups behind i. */
    method CloseOne(i: nat, before: bool) returns (ok: bool)
      requires AllRunnable() && i < |cleanups|
      requires before ==> HaveRun(state, created, cleanups, i + 1)
      modifies this`state, this`hit, this`ran, this`drops, this`failed
      ensures AllRunnable() && Evolves(old(state), state)
      ensures failed >= old(failed) && (ok <==> before && failed == old(failed))
      ensures ran == old(ran) + [cleanups[i]]
      ensures HitsOnly(old(hit), old(drops), AllTargets(created, cleanups))
      ensures NewDrops(old(state), old(drops), drops, Namespaces(cleanups))
      ensures ok ==> HaveRun(state, created, cleanups, i)
    {
      TargetsAmong(created, cleanups, i);
      assert Runnable(state, [cleanups[i]]);
      var fine := RunCleanup(cleanups[i]);
      RunnableStays(old(state), state, cleanups);
      HaveRunStays(old(state), state, created, cleanups, i + 1);
      ok := before && fine;
    }

    /** close: each cleanup runs once, the last one first, also after one fails.
        It returns an error exactly when a call failed or a wait ran out, and
        otherwise no request that a cleanup names is left. */
    method Close() returns (ok: bool)
      requires AllRunnable()
      modifies this`state, this`hit, this`ran, this`drops, this`cleanups, this`failed
      ensures Valid() && cleanups == [] && Evolves(old(state), state)
      ensures failed >= old(failed) && (ok <==> failed == old(failed))
      ensures ran == old(ran) + Reversed(old(cleanups))
      ensures HitsOnly(old(hit), old(drops), AllTargets(created, old(cleanups)))
      ensures NewDrops(old(state), old(drops), drops, Namespaces(old(cleanups)))
      ensures ok ==> HaveRun(state, created, old(cleanups), 0)
    {
      ok := true;
      var i := |cleanups|;
      ghost var list := cleanups;
      assert list[..i] == list;
      while i > 0
        invariant 0 <= i <= |list| && list == cleanups
        invariant AllRunnable() && Evolves(old(state), state)
        invariant ran + Reversed(list[..i]) == old(ran) + Reversed(list)
        invariant HitsOnly(old(hit), old(drops), AllTargets(created, list))
        invariant NewDrops(old(state), old(drops), drops, Namespaces(list))
        invariant ok ==> HaveRun(state, created, list, i)
        invariant failed >= old(failed) && (ok <==> failed == old(failed))
      {
        i := i - 1;
        ghost var before, so, hits, dropped := state, ran, hit, drops;
        ReversedLast(list, i, so);
        ok := CloseOne(i, ok);
        EvolvesTrans(old(state), before, state);
        NewDropsTrans(old(state), before, old(drops), dropped, drops, Namespaces(list));
        SweptGrows(dropped, drops);
      }
      cleanups := [];
    }

    /** The creation of one request of the run. */
    method MakeRequest(name: string) returns (ok: bool)
      requires AllRunnable()
      modifies this`state, this`created, this`made, this`failed
      ensures AllRunnable() && Evolves(old(state), state)
      ensures failed >= old(failed)
      ensures !ok ==> failed > old(failed) || name in state.requests || !state.namespace.Active?
      ensures !ok ==> created == old(created)
      ensures
        ok ==>
          && |created| == |old(created)| + 1 && old(created) <= created
          && created[|created| - 1].name == name && old(state.next) <= created[|created| - 1].uid
    {
      var uid := Create(name);
      HomeStays(old(state), state, created);
      RunnableStays(old(state), state, cleanups);
      ok := uid.Some?;
      if ok {
        created := created + [Made(name, uid.value)];
      }
    }

    ghost predicate MadeFrom(names: seq<string>, next: Uid)
      reads this`created
    {
      && |created| == |names|
      && forall i :: 0 <= i < |created| ==> created[i].name == names[i] && next <= created[i].uid
    }

    /** The name of the next request is taken, or the namespace takes none. */
    ghost predicate CannotMake(names: seq<string>)
      reads this`state, this`created
    {
      |created| < |names| && (names[|created|] in state.requests || !state.namespace.Active?)
    }

    /** The loop over the runs. It stops at the first creation that fails. */
    method MakeRequests(names: seq<string>) returns (ok: bool)
      requires AllRunnable() && created == []
      modifies this`state, this`created, this`made, this`failed
      ensures AllRunnable() && Evolves(old(state), state)
      ensures |created| <= |names| && MadeFrom(names[..|created|], old(state.next))
      ensures ok ==> |created| == |names|
      ensures failed >= old(failed) && (!ok ==> failed > old(failed) || CannotMake(names))
    {
      for i := 0 to |names|
        invariant AllRunnable() && Evolves(old(state), state) && failed >= old(failed)
        invariant MadeFrom(names[..i], old(state.next))
      {
        ghost var before := state;
        ok := MakeRequest(names[i]);
        EvolvesTrans(old(state), before, state);
        if !ok {
          return;
        }
      }
      ok := true;
    }

    /** The wait until a terminating namespace is gone, which can time out. */
    method WaitNamespaceGone() returns (ok: bool)
      requires StateOk(state)
      modifies this`state, this`failed
      ensures StateOk(state) && Evolves(old(state), state)
      ensures ok ==> state.namespace.Missing?
      ensures failed == old(failed) + if ok then 0 else 1
    {
      ok := false;
      var polls: nat := *;
      while polls > 0 && !ok
        invariant StateOk(state) && Evolves(old(state), state)
        invariant failed == old(failed) && (ok ==> state.namespace.Missing?)
        decreases polls
      {
        ghost var before := state;
        Interfere();
        EvolvesTrans(old(state), before, state);
        ok := state.namespace.Missing?;
        polls := polls - 1;
      }
      if !ok {
        failed := failed + 1;
      }
    }

    /** Another client made the namespace since the state was s. */
    ghost predicate OtherNamespace(s: State)
      reads this`state
    {
      !state.namespace.Missing? && state.namespace.uid >= s.next
    }

    /** ensureNamespace: a namespace that is there stays out of the cleanups,
        and one that the run makes is deleted by the last cleanup. A creation
        that fails can have made the namespace all the same. */
    method EnsureNamespace() returns (ok: bool, ghost existed: bool)
      requires AllRunnable() && created == [] && cleanups == []
      modifies this`state, this`cleanups, this`failed
      ensures AllRunnable() && Evolves(old(state), state)
      ensures failed >= old(failed) && (!ok ==> failed > old(failed) || OtherNamespace(old(state)))
      ensures ok ==> !state.namespace.Missing?
      ensures
        || cleanups == []
        || (ok && !existed && exists uid :: old(state.next) <= uid && cleanups == [DeleteNamespace(uid)])
      ensures ok ==> if existed then cleanups == [] else cleanups != []
    {
      Interfere();
      existed := state.namespace.Active?;
      if * {
        failed := failed + 1;
        return false, existed;
      }
      if state.namespace.Active? {
        return true, existed;
      }
      if state.namespace.Terminating? {
        ghost var before := state;
        var gone := WaitNamespaceGone();
        EvolvesTrans(old(state), before, state);
        if !gone {
          return false, existed;
        }
      }
      ghost var before := state;
      Interfere();
      EvolvesTrans(old(state), before, state);
      if !state.namespace.Missing? {
        return false, existed;
      }
      var uid := state.next;
      EvolvesTrans(old(state), state, WithNamespace(state));
      state := WithNamespace(state);
      if * {
        failed := failed + 1;
        return false, existed;
      }
      OnClose(DeleteNamespace(uid));
      return true, existed;
    }

    /** prepare: it can fail at any step, and then its cleanups stay. */
    method Prepare(names: seq<string>) returns (ok: bool, ghost existed: bool)
      requires AllRunnable() && created == [] && cleanups == []
      modifies this`state, this`created, this`cleanups, this`made, this`failed
      ensures AllRunnable() && Evolves(old(state), state)
      ensures failed >= old(failed)
      ensures !ok ==> failed > old(failed) || OtherNamespace(old(state)) || CannotMake(names)
      ensures forall i :: 0 <= i < |cleanups| ==> !cleanups[i].DeleteThese?
      ensures OwnNamespaces(old(state), cleanups, existed)
      ensures created != [] ==> DeleteCreated in cleanups
      ensures ok ==> IsPrepared(cleanups, existed)
      ensures |created| <= |names| && MadeFrom(names[..|created|], old(state.next))
      ensures ok ==> |created| == |names|
    {
      if * {
        failed := failed + 1;
        return false, false;
      }
      ok, existed := EnsureNamespace();
      if !ok {
        return false, existed;
      }
      ghost var before := state;
      ok := PrepareInside(names);
      EvolvesTrans(old(state), before, state);
    }

    /** prepare behind ensureNamespace. */
    method PrepareInside(names: seq<string>) returns (ok: bool)
      requires AllRunnable() && created == []
      modifies this`state, this`created, this`cleanups, this`made, this`failed
      ensures AllRunnable() && Evolves(old(state), state)
      ensures failed >= old(failed) && (!ok ==> failed > old(failed) || CannotMake(names))
      ensures
        || (cleanups == old(cleanups) && created == [] && !ok)
        || cleanups == old(cleanups) + [DeleteRunObjects, DeleteCreated]
      ensures |created| <= |names| && MadeFrom(names[..|created|], old(state.next))
      ensures ok ==> |created| == |names|
    {
      if * {
        failed := failed + 1;
        return false;
      }
      OnClose(DeleteRunObjects);
      OnClose(DeleteCreated);
      ok := MakeRequests(names);
    }

    /** A whole run. When the cleanups return no error, no request that it
        recorded is left, also when prepare failed halfway. A deletion by UID
        hits only those requests, and the deletion of the namespace hits each
        request that is in it then. So the run hits a request that it did not
        make exactly when it made the namespace, and such a request was in it
        when the last cleanup deleted it. The requests go first, then what they
        made, and then the namespace that the run made. */
    method Run(names: seq<string>) returns (prepared: bool, closed: bool, ghost existed: bool)
      requires Valid() && created == [] && cleanups == []
      requires made == {} && hit == {} && ran == [] && drops == []
      modifies this
      ensures |created| <= |names| && MadeFrom(names[..|created|], old(state.next))
      ensures prepared ==> |created| == |names|
      ensures failed == old(failed) ==> closed
      ensures closed ==> AllGone(state, created)
      ensures closed ==>
        forall i :: 0 <= i < |ran| && ran[i].DeleteNamespace? ==> state.namespace != Active(ran[i].uid)
      ensures Uids(created) <= made
      ensures Swept(drops) <= hit <= Uids(created) + Swept(drops)
      ensures hit <= made <==> Swept(drops) <= made
      ensures OwnDrops(old(state), drops, existed)
      ensures cleanups == []
      ensures prepared && existed ==> ran == [DeleteCreated, DeleteRunObjects]
      ensures prepared && !existed ==> exists uid :: ran == [DeleteCreated, DeleteRunObjects, DeleteNamespace(uid)]
    {
      prepared, existed := Prepare(names);
      if prepared {
        PreparedReversed(cleanups, existed);
      }
      OwnTargets(created, cleanups);
      ghost var before, list := state, cleanups;
      closed := Close();
      ReversedAt(list);
      DropsAreOwn(old(state), before, drops, list, existed);
    }
  }

  /** The limit of the cleanups: the run makes the namespace and a request, and
      another client deletes the request and creates one of the same name. Then
      the deletion by UID hits nothing, and the deletion of the namespace behind
      it hits the request of the other client, so that the two hit that one and
      no other. */
  lemma ReplacementIsHit(start: State, name: string, removes: bool)
    requires StateOk(start) && start.namespace.Missing?
    ensures
      var own := WithNamespace(start);
      var made := Added(own, name);
      var gone := Removed(made, name);
      var replaced := Added(gone, name);
      var first := DeletedBy(replaced, Made(name, made.requests[name]), removes);
      var last := DroppedBy(first.state, own.namespace.uid);
      && StateOk(replaced) && OtherStep(made, gone) && OtherStep(gone, replaced)
      && first == Deletion(replaced, {}, Conflict)
      && last == Deletion(Doomed(replaced), {replaced.requests[name]}, Done)
      && replaced.requests[name] != made.requests[name]
  {
    var own := WithNamespace(start);
    var made := Added(own, name);
    var gone := Removed(made, name);
    var replaced := Added(gone, name);
    assert gone.requests == map[];
    assert replaced.requests == map[name := made.next];
  }

  // What the deletions leave to the wait.

  predicate Among(a: seq<Made>, b: seq<Made>) {
    forall i :: 0 <= i < |a| ==> a[i] in b
  }

  /** Each of the first n requests is gone, or left to the wait. */
  predicate Handled(s: State, made: seq<Made>, deleted: seq<Made>, n: nat)
    requires n <= |made|
  {
    forall k :: 0 <= k < n ==> made[k] in deleted || Gone(s, made[k].uid)
  }

  lemma StillHandled(s: State, t: State, made: seq<Made>, deleted: seq<Made>, n: nat)
    requires Evolves(s, t) && AllAtHome(s, made) && n <= |made|
    ensures Handled(s, made, deleted, n) ==> Handled(t, made, deleted, n)
  {
    forall k | 0 <= k < n && Gone(s, made[k].uid) ensures Gone(t, made[k].uid) {
      assert AtHome(s, made[k]);
      GoneStays(s, t, made[k].uid);
    }
  }

  lemma MoreHandled(s: State, made: seq<Made>, deleted: seq<Made>, n: nat)
    requires n < |made| && Among(deleted, made)
    ensures Among(deleted + [made[n]], made)
    ensures Handled(s, made, deleted, n) ==> Handled(s, made, deleted + [made[n]], n + 1)
  {}

  lemma DeletedAtHome(s: State, made: seq<Made>, deleted: seq<Made>)
    requires AllAtHome(s, made) && Among(deleted, made)
    ensures AllAtHome(s, deleted)
  {
    forall i | 0 <= i < |deleted| ensures AtHome(s, deleted[i]) {
      var k :| 0 <= k < |made| && made[k] == deleted[i];
      assert AtHome(s, made[k]);
    }
  }

  lemma EachIsGone(s: State, t: State, made: seq<Made>, deleted: seq<Made>)
    requires Evolves(s, t) && AllAtHome(s, made) && AllGone(t, deleted)
    requires Handled(s, made, deleted, |made|)
    ensures AllGone(t, made)
  {
    forall i | 0 <= i < |made| ensures Gone(t, made[i].uid) {
      assert AtHome(s, made[i]);
      if made[i] in deleted {
        var k :| 0 <= k < |deleted| && deleted[k] == made[i];
        assert Gone(t, deleted[k].uid);
      } else {
        GoneStays(s, t, made[i].uid);
      }
    }
  }
}
