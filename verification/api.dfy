/** The API objects that the conformance suite and the echo plugin read and
    write, reduced to the fields that their decisions depend on. */
module Api {
  datatype Option<+T> = None | Some(value: T)

  datatype Result<+T, +E> = Ok(value: T) | Err(error: E)

  type Uid = nat

  /** A resource version. The comparison of two versions fails when one of them
      is not a decimal number. */
  datatype Version = Comparable(n: nat) | Opaque(text: string)

  /** The sign of a - b, or None when one of the two cannot be compared. */
  function CompareVersions(a: Version, b: Version): Option<int> {
    if a.Comparable? && b.Comparable? then Some(a.n - b.n) else None
  }

  datatype Status = True | False | Unknown

  datatype Condition = Condition(
    status: Status, reason: string, message: string, observedGeneration: int, lastTransition: int)

  const LABEL_REGISTRATION := "plugins.camunda.io/registration"
  const LABEL_REQUEST := "plugins.camunda.io/request"
  const FINALIZER_CLEANUP := "plugins.camunda.io/cleanup"

  /** One state of an object. namespace is empty for a cluster-scoped object.
      conditions is the list map of status.conditions by type. */
  datatype Object = Object(
    kind: string, namespace: string, name: string,
    uid: Uid, version: Version, unstructured: bool,
    labels: map<string, string>, owners: set<Uid>, deleting: bool,
    finalizers: set<string>, outputs: map<string, string>, conditions: map<string, Condition>)

  /** The value of a Go map lookup: the empty string for a missing key. */
  function LabelOf(o: Object, key: string): string {
    if key in o.labels then o.labels[key] else ""
  }

  function FindCondition(o: Object, ctype: string): Option<Condition> {
    if ctype in o.conditions then Some(o.conditions[ctype]) else None
  }

  predicate ConditionTrue(o: Object, ctype: string) {
    ctype in o.conditions && o.conditions[ctype].status == True
  }

  predicate ConditionFalse(o: Object, ctype: string) {
    ctype in o.conditions && o.conditions[ctype].status == False
  }

  /** The two are told by the condition that is found: one that is Unknown is
      neither. */
  lemma ConditionsAre(o: Object, ctype: string)
    ensures ConditionTrue(o, ctype) <==> exists c :: FindCondition(o, ctype) == Some(c) && c.status == True
    ensures ConditionFalse(o, ctype) <==> exists c :: FindCondition(o, ctype) == Some(c) && c.status == False
    ensures !(ConditionTrue(o, ctype) && ConditionFalse(o, ctype))
  {
    if ctype in o.conditions {
      assert FindCondition(o, ctype) == Some(o.conditions[ctype]);
    }
  }
}
