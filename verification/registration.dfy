/** The pass of the echo plugin over its registration, which other clients write
    too. */
module Registration {
  import opened Api
  import opened Protocol
  import Recording

  const READY := "Ready"
  const ACCEPTED := "Accepted"
  const HEALTHY := "Healthy"

  type Conditions = map<string, Condition>

  /** One state of the registration. The version is its place in the history. */
  datatype State = State(version: nat, generation: int, observedGeneration: int, conditions: Conditions)

  function Accepted(s: State): Option<Condition> {
    if ACCEPTED in s.conditions then Some(s.conditions[ACCEPTED]) else None
  }

  // meta.SetStatusCondition: the time of the transition moves with the status.

  function WithTime(previous: Option<Condition>, next: Condition, now: int): Condition {
    next.(lastTransition :=
      if previous.Some? && previous.value.status == next.status then previous.value.lastTransition else now)
  }

  /** The two say the same, at whatever time. */
  predicate SaysSame(a: Condition, b: Condition) {
    && a.status == b.status && a.reason == b.reason && a.message == b.message
    && a.observedGeneration == b.observedGeneration
  }

  method SetStatusCondition(conditions: Conditions, ctype: string, next: Condition, now: int)
    returns (after: Conditions, changed: bool)
    ensures ctype in after && after[ctype].status == next.status && after[ctype].reason == next.reason
    ensures after[ctype].message == next.message && after[ctype].observedGeneration == next.observedGeneration
    ensures after - {ctype} == conditions - {ctype}
    ensures changed <==> after != conditions
    ensures changed <==> ctype !in conditions || !SaysSame(conditions[ctype], next)
    ensures
      after[ctype].lastTransition ==
      if ctype in conditions && conditions[ctype].status == next.status then conditions[ctype].lastTransition else now
  {
    var previous := if ctype in conditions then Some(conditions[ctype]) else None;
    after := conditions[ctype := WithTime(previous, next, now)];
    changed := ctype !in conditions || conditions[ctype] != after[ctype];
    if !changed {
      assert after == conditions;
    }
  }

  datatype Update = Done | Conflict | NotFound

  datatype ReadError = Absent | Unread

  datatype Outcome = Finished | RequeueAfterConflict | Error

  /** Each state of the history has the Accepted condition of the start. */
  predicate AllKeep(kept: Option<Condition>, history: seq<State>) {
    kept.Some? && forall i :: 0 <= i < |history| ==> Accepted(history[i]) == kept
  }

  predicate Versioned(history: seq<State>) {
    forall i :: 0 <= i < |history| ==> history[i].version == i
  }

  /** The API server. The other writers keep the Accepted condition. */
  class Server {
    const kept: Option<Condition>
    var exists_: bool
    var history: seq<State>
    ghost var calls: nat     // the updates that echo asked for
    ghost var troubles: nat  // the steps of other writers, the stale reads and the lost calls so far

    constructor (start: State)
      requires start.version == 0 && Accepted(start).Some?
      ensures Valid() && kept == Accepted(start) && history == [start]
    {
      kept, exists_, history, calls, troubles := Accepted(start), true, [start], 0, 0;
    }

    ghost predicate Valid()
      reads this
    {
      history != [] && Versioned(history) && AllKeep(kept, history)
    }

    function Current(): State
      requires history != []
      reads this
    {
      history[|history| - 1]
    }

    /** Nothing went wrong since the troubles were n, or there are more of them. */
    ghost predicate Calm(n: nat, was: seq<State>, existed: bool)
      reads this
    {
      troubles >= n && (troubles == n ==> history == was && exists_ == existed)
    }

    method Interfere()
      requires Valid()
      modifies this`exists_, this`history, this`troubles
      ensures Valid() && old(history) <= history && Calm(old(troubles), old(history), old(exists_))
    {
      var n: nat := *;
      while n > 0
        invariant Valid() && old(history) <= history && Calm(old(troubles), old(history), old(exists_))
      {
        var next: State := *;
        if Accepted(next) == kept {
          history := history + [next.(version := |history|)];
          troubles := troubles + 1;
        }
        if * {
          exists_ := !exists_;
          troubles := troubles + 1;
        }
        n := n - 1;
      }
    }

    /** A read gives some state that occurred, and NotFound when there is none. */
    method Get() returns (read: Result<State, ReadError>)
      requires Valid()
      modifies this`exists_, this`history, this`troubles
      ensures Valid() && old(history) <= history && Calm(old(troubles), old(history), old(exists_))
      ensures read.Ok? ==> read.value in history
      ensures troubles == old(troubles) ==> read == if exists_ then Ok(Current()) else Err(Absent)
    {
      Interfere();
      if !exists_ {
        return Err(Absent);
      }
      if * {
        troubles := troubles + 1;
        return Err(Unread);
      }
      var i: nat := *;
      if 0 <= i < |history| {
        troubles := troubles + 1;
        return Ok(history[i]);
      }
      return Ok(Current());
    }

    /** A status update takes the version that was read, and can be lost after
        the server took it. */
    method UpdateStatus(read: State, to: State) returns (reply: Result<Update, ()>)
      requires Valid() && read in history && Accepted(to) == Accepted(read)
      modifies this
      ensures Valid() && old(history) <= history
      ensures reply == Ok(Done) ==> Current() == to.(version := |history| - 1)
      ensures calls == old(calls) + 1 && troubles >= old(troubles)
      ensures troubles == old(troubles) && old(exists_) && read == old(Current()) ==>
        reply == Ok(Done) && history == old(history) + [to.(version := |old(history)|)]
    {
      calls := calls + 1;
      Interfere();
      if * {
        troubles := troubles + 1;
        return Err(());
      }
      if !exists_ {
        return Ok(NotFound);
      }
      if read.version != Current().version {
        return Ok(Conflict);
      }
      assert read == Current() by {
        var i :| 0 <= i < |history| && history[i] == read;
      }
      history := history + [to.(version := |history|)];
      if * {
        troubles := troubles + 1;
        return Err(());
      }
      return Ok(Done);
    }
  }

  function RequeueOnConflict(reply: Result<Update, ()>): Outcome {
    if reply == Ok(Conflict) then RequeueAfterConflict else if reply == Ok(Done) then Finished else Error
  }

  predicate IsServed(s: State) {
    && READY in s.conditions && s.conditions[READY].status == True
    && s.conditions[READY].observedGeneration == s.generation && s.observedGeneration == s.generation
  }

  /** The state that a pass writes, but for the times. */
  predicate IsSettled(s: State) {
    && READY in s.conditions && s.observedGeneration == s.generation
    && SaysSame(s.conditions[READY], ReadyCondition(s.generation, s.conditions[READY].lastTransition))
  }

  function ReadyCondition(generation: int, now: int): Condition {
    Condition(True, HEALTHY, "The echo controller serves the registration", generation, now)
  }

  /** One pass: every state keeps the Accepted condition, whatever the read and
      the other writers do, and a pass that finishes on a registration leaves a
      served state behind. It writes exactly when the state that it read is not
      settled, at whatever time. When nothing goes wrong it finishes, and leaves
      the registration settled. */
  method ReconcileRegistration(server: Server, now: int)
    returns (outcome: Outcome, found: bool, ghost seen: Option<State>)
    requires server.Valid()
    modifies server
    ensures
      server.calls == old(server.calls) + if seen.Some? && !IsSettled(seen.value) then 1 else 0
    ensures seen.Some? ==> seen.value in server.history
    ensures outcome == Finished && found ==> seen.Some?
    ensures server.troubles >= old(server.troubles)
    ensures server.troubles == old(server.troubles) ==>
      && outcome == Finished && found == old(server.exists_)
      && (!found || IsSettled(old(server.Current())) ==> server.history == old(server.history))
      && (found ==> IsSettled(server.Current()))
    ensures server.Valid() && old(server.history) <= server.history
    ensures outcome == Finished && found ==> exists i :: 0 <= i < |server.history| && IsServed(server.history[i])
  {
    found, seen := true, None;
    var read := server.Get();
    if read.Err? {
      found := false;
      outcome := if read.error == Absent then Finished else Error;
      return;
    }
    var reg := read.value;
    seen := Some(reg);
    var ready := ReadyCondition(reg.generation, now);
    var conditions, changed := SetStatusCondition(reg.conditions, READY, ready, now);
    if !changed && reg.observedGeneration == reg.generation {
      var i :| 0 <= i < |server.history| && server.history[i] == reg;
      assert IsServed(server.history[i]);
      outcome := Finished;
      return;
    }
    KeepsOther(reg.conditions, conditions, READY, ACCEPTED);
    var to := reg.(conditions := conditions, observedGeneration := reg.generation);
    var reply := server.UpdateStatus(reg, to);
    if reply == Ok(Done) {
      assert IsServed(server.history[|server.history| - 1]);
    }
    outcome := RequeueOnConflict(reply);
  }

  lemma KeepsOther(before: Conditions, after: Conditions, changed: string, other: string)
    requires after - {changed} == before - {changed} && other != changed
    ensures other in after <==> other in before
    ensures other in before ==> after[other] == before[other]
  {
    assert other in after <==> other in after - {changed};
    assert other in before <==> other in before - {changed};
    if other in before {
      assert (after - {changed})[other] == (before - {changed})[other];
    }
  }

  /** The registration as a watch delivers it. */
  function Watched(name: string, uid: Uid, s: State): Object {
    Object(
      "PluginRegistration", "", name, uid, Comparable(s.version), false, map[], {}, false, {}, map[], s.conditions)
  }

  /** The recorder gives a state the key of a changed condition exactly when its
      Accepted condition is not the one of the start. */
  lemma MarkedIffChanged(kept: Option<Condition>, s: State, name: string, uid: Uid)
    ensures
      RegistrationKeyOf(kept).key(Watched(name, uid, s)) ==
      if kept.Some? && Accepted(s) == kept then Recording.NoKey else Recording.AcceptedChanged
  {
    KeptIsSame(kept, Accepted(s));
    assert FindCondition(Watched(name, uid, s), ACCEPTED) == Accepted(s);
  }

  /** So it gives no state of a history of echo that key, and checkAcceptedKept
      never reports echo. */
  lemma NeverMarkedAsChanged(kept: Option<Condition>, history: seq<State>, i: nat, name: string, uid: Uid)
    requires AllKeep(kept, history) && i < |history|
    ensures kept.Some? && Accepted(history[i]) == kept
    ensures RegistrationKeyOf(kept).key(Watched(name, uid, history[i])) == Recording.NoKey
  {
    MarkedIffChanged(kept, history[i], name, uid);
  }
}
