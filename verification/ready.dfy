/** The Ready condition of a request: what the echo plugin writes for its
    Grants, and which conditions the suite accepts. */
module Ready {
  import opened Api

  const READY := "Ready"
  const HEALTHY := "Healthy"
  const GRANT_REJECTED := "GrantRejected"
  const WAITING_FOR_GRANTS := "WaitingForGrants"
  const ECHO_DEFECT := "EchoDefect"

  datatype Defect = NoDefect | NotReady | ReadyIgnoresGrants

  predicate HasReady(g: Object) {
    FindCondition(g, READY).Some?
  }

  predicate AnyFalse(grants: seq<Object>) {
    exists i :: 0 <= i < |grants| && ConditionFalse(grants[i], READY)
  }

  predicate AllTrue(grants: seq<Object>) {
    forall i :: 0 <= i < |grants| ==> ConditionTrue(grants[i], READY)
  }

  predicate NoneHasReady(grants: seq<Object>) {
    forall i :: 0 <= i < |grants| ==> !HasReady(grants[i])
  }

  // The echo plugin.

  predicate Named(name: string, grants: seq<Object>) {
    exists i :: 0 <= i < |grants| && grants[i].name == name
  }

  /** The Grants that the cache holds, and each wanted one that it does not hold
      yet. */
  method ServedGrants(want: seq<Object>, existing: seq<Object>) returns (served: seq<Object>)
    ensures existing <= served
    ensures forall i :: 0 <= i < |want| ==> Named(want[i].name, served)
    ensures forall i :: |existing| <= i < |served| ==> served[i] in want && !Named(served[i].name, existing)
    ensures
      forall i :: 0 <= i < |want| ==>
        (want[i] in served[|existing|..] <==> !Named(want[i].name, existing))
  {
    served := existing;
    for n := 0 to |want|
      invariant existing <= served
      invariant forall i :: 0 <= i < n ==> Named(want[i].name, served)
      invariant forall i :: |existing| <= i < |served| ==> served[i] in want && !Named(served[i].name, existing)
      invariant forall i :: 0 <= i < n ==> (want[i] in served[|existing|..] <==> !Named(want[i].name, existing))
    {
      var held := exists i :: 0 <= i < |existing| && existing[i].name == want[n].name;
      ghost var before := served;
      if held {
        var i :| 0 <= i < |existing| && existing[i].name == want[n].name;
        assert served[i].name == want[n].name;
      } else {
        served := served + [want[n]];
        assert served[|before|].name == want[n].name;
        assert served[|existing|..] == before[|existing|..] + [want[n]];
        forall i | 0 <= i < n ensures Named(want[i].name, served) {
          var k :| 0 <= k < |before| && before[k].name == want[i].name;
          assert served[k].name == want[i].name;
        }
      }
    }
  }

  /** The first Grant that has Ready=False. */
  method FirstFalse(grants: seq<Object>) returns (i: int)
    ensures i == -1 <==> !AnyFalse(grants)
    ensures i != -1 ==> 0 <= i < |grants| && ConditionFalse(grants[i], READY)
  {
    i := 0;
    while i < |grants|
      invariant 0 <= i <= |grants| && forall k :: 0 <= k < i ==> !ConditionFalse(grants[k], READY)
    {
      if ConditionFalse(grants[i], READY) {
        return;
      }
      i := i + 1;
    }
    i := -1;
  }

  /** The first Grant that does not have Ready=True. */
  method FirstNotTrue(grants: seq<Object>) returns (i: int)
    ensures i == -1 <==> AllTrue(grants)
    ensures i != -1 ==> 0 <= i < |grants| && !ConditionTrue(grants[i], READY)
  {
    i := 0;
    while i < |grants|
      invariant 0 <= i <= |grants| && forall k :: 0 <= k < i ==> ConditionTrue(grants[k], READY)
    {
      if !ConditionTrue(grants[i], READY) {
        return;
      }
      i := i + 1;
    }
    i := -1;
  }

  /** The status and the reason that the Grants call for. */
  function StateOf(grants: seq<Object>): (Status, string) {
    if AnyFalse(grants) then (False, GRANT_REJECTED)
    else if AllTrue(grants) then (True, HEALTHY)
    else (False, WAITING_FOR_GRANTS)
  }

  method ReadyCondition(grants: seq<Object>, defect: Defect, generation: int, now: int) returns (ready: Condition)
    ensures ready.observedGeneration == generation
    ensures
      (ready.status, ready.reason) ==
      match defect
      case NotReady => (False, ECHO_DEFECT)
      case ReadyIgnoresGrants => (True, HEALTHY)
      case NoDefect => StateOf(grants)
  {
    ready := Condition(True, HEALTHY, "The echo controller serves the request", generation, now);
    var rejected := FirstFalse(grants);
    var waiting := FirstNotTrue(grants);
    if defect == NotReady {
      ready := ready.(status := False, reason := ECHO_DEFECT, message := "The echo controller reports a defect");
    } else if defect == ReadyIgnoresGrants {
    } else if rejected >= 0 {
      var message := "Grant " + grants[rejected].name + " has Ready=False";
      ready := ready.(status := False, reason := GRANT_REJECTED, message := message);
    } else if waiting >= 0 {
      var message := "Grant " + grants[waiting].name + " does not have Ready=True yet";
      ready := ready.(status := False, reason := WAITING_FOR_GRANTS, message := message);
    }
  }

  // The suite. A verdict is true when it passes.

  function ServedGrantsVerdict(grants: seq<Object>): bool {
    if !(exists i :: 0 <= i < |grants| && HasReady(grants[i])) then true
    else forall i :: 0 <= i < |grants| ==> ConditionTrue(grants[i], READY)
  }

  function WaitingForGrantsVerdict(grants: seq<Object>): bool {
    if exists i :: 0 <= i < |grants| && ConditionFalse(grants[i], READY) then false
    else exists i :: 0 <= i < |grants| && !ConditionTrue(grants[i], READY)
  }

  function ReadyVerdict(ready: Option<Condition>, grants: seq<Object>): bool {
    if ready.None? then false
    else if ready.value.status == True then ServedGrantsVerdict(grants)
    else if ready.value.status == False && ready.value.reason == GRANT_REJECTED then
      exists i :: 0 <= i < |grants| && ConditionFalse(grants[i], READY)
    else if ready.value.status == False && ready.value.reason == WAITING_FOR_GRANTS then
      WaitingForGrantsVerdict(grants)
    else false
  }

  /** The other verdict on Ready=True, which is given only for Grants without a
      Ready condition. */
  function WaitingVerdict(ready: Option<Condition>): bool {
    ready.None? || ready.value.status != True
  }

  /** The verdict of the Grants check: a skip, which passes, when some Grant has
      a Ready condition or there is none. */
  function UnservedVerdict(ready: Option<Condition>, grants: seq<Object>): bool {
    grants == [] || (exists i :: 0 <= i < |grants| && HasReady(grants[i])) || WaitingVerdict(ready)
  }

  /** The condition has the status of the Grants, and the reason when it is
      False. */
  predicate IsStateOf(ready: Condition, grants: seq<Object>) {
    ready.status == StateOf(grants).0 && (ready.status == False ==> ready.reason == StateOf(grants).1)
  }

  /** The suite accepts exactly what the echo plugin writes, and Ready=True while
      no Grant has a Ready condition. */
  lemma ReadyVerdictIff(ready: Condition, grants: seq<Object>)
    ensures
      ReadyVerdict(Some(ready), grants) <==>
      IsStateOf(ready, grants) || (ready.status == True && NoneHasReady(grants))
  {
    TrueIsNotFalse(grants);
  }

  /** A Grant with Ready=False is no Grant with Ready=True, and each of the two
      has the condition. */
  lemma TrueIsNotFalse(grants: seq<Object>)
    ensures AnyFalse(grants) ==> !AllTrue(grants)
    ensures AllTrue(grants) && grants != [] ==> !NoneHasReady(grants)
  {
    if AllTrue(grants) && grants != [] {
      assert HasReady(grants[0]);
    }
    if AnyFalse(grants) {
      var i :| 0 <= i < |grants| && ConditionFalse(grants[i], READY);
      assert !ConditionTrue(grants[i], READY);
    }
  }

  /** With the check of the Grants, exactly what the echo plugin writes is left. */
  lemma BothVerdictsIff(ready: Condition, grants: seq<Object>)
    ensures
      ReadyVerdict(Some(ready), grants) && UnservedVerdict(Some(ready), grants) <==> IsStateOf(ready, grants)
  {
    ReadyVerdictIff(ready, grants);
    TrueIsNotFalse(grants);
    if grants != [] && NoneHasReady(grants) {
      assert !HasReady(grants[0]) && !ConditionTrue(grants[0], READY);
    }
  }
}
