/** The runs of a conformance run: one request for each case, section and
    deletion policy, with the names of the request and of its claim. */
module Runs {
  import opened Api
  import opened Text

  datatype Target = Target(name: string, serviceAccountName: string)

  datatype Case = Case(name: string, policy: string, target: Target)

  datatype Run = Run(caseName: string, section: string, policy: string, name: string, claim: string, target: Target)

  /** The name checks and the hash, which are libraries. */
  datatype Naming = Naming(isDNS1123: string -> bool, isDNS1035: string -> bool, hash: string -> string)

  const MAX_CLAIM_NAME := 40
  const CLAIM := "claim-"

  function Dashed(head: string, tail: string): string {
    if head == "" then tail else if tail == "" then head else head + ("-" + tail)
  }

  /** The parts that are not empty, with dashes between them. */
  function RequestName(caseName: string, section: string, policy: string, runID: string): string {
    Dashed(ToLower(caseName), Dashed(section, Dashed(ToLower(policy), runID)))
  }

  function ClaimName(naming: Naming, caseName: string, policy: string, runID: string): string {
    var name := RequestName(caseName, "", policy, runID);
    if |name| <= MAX_CLAIM_NAME && naming.isDNS1035(name) then name else CLAIM + naming.hash(name)
  }

  function TargetWithSuffix(target: Target, suffix: string): Target {
    Target(
      target.name + ("-" + suffix),
      if target.serviceAccountName != "" then target.serviceAccountName + ("-" + suffix) else "")
  }

  /** A part of its own tells two names apart. */
  lemma SectionsTell(caseName: string, policy: string, runID: string, s: string, t: string)
    requires RequestName(caseName, s, policy, runID) == RequestName(caseName, t, policy, runID)
    ensures s == t
  {
    var head, tail := ToLower(caseName), Dashed(ToLower(policy), runID);
    SameHead(head, Dashed(s, tail), Dashed(t, tail));
    SameMiddle(s, t, tail);
  }

  lemma SameHead(head: string, x: string, y: string)
    requires Dashed(head, x) == Dashed(head, y)
    ensures x == y
  {
    if head != "" {
      assert x != "" ==> Dashed(head, x)[|head| + 1..] == x;
      assert y != "" ==> Dashed(head, y)[|head| + 1..] == y;
    }
  }

  lemma SameMiddle(s: string, t: string, tail: string)
    requires Dashed(s, tail) == Dashed(t, tail)
    ensures s == t
  {
    assert s != "" ==> Dashed(s, tail)[..|s|] == s;
    assert t != "" ==> Dashed(t, tail)[..|t|] == t;
  }

  /** The name with all of its parts, and without a section. */
  lemma RequestNameIs(caseName: string, section: string, policy: string, runID: string)
    requires caseName != "" && section != "" && policy != "" && runID != ""
    ensures
      RequestName(caseName, section, policy, runID) ==
      ToLower(caseName) + ("-" + (section + ("-" + (ToLower(policy) + ("-" + runID)))))
    ensures RequestName(caseName, "", policy, runID) == ToLower(caseName) + ("-" + (ToLower(policy) + ("-" + runID)))
  {}

  // The combinations, in the order of the loops.

  datatype Input = Input(cases: seq<Case>, sections: seq<string>, policies: seq<string>, runID: string)

  datatype Combo = Combo(case_: nat, section: nat, policy: nat)

  function PoliciesOf(input: Input, c: nat): seq<string>
    requires c < |input.cases|
  {
    if input.cases[c].policy == "" then input.policies else [input.cases[c].policy]
  }

  predicate InInput(input: Input, k: Combo) {
    k.case_ < |input.cases| && k.section < |input.sections| && k.policy < |PoliciesOf(input, k.case_)|
  }

  function PolicyCombos(c: nat, s: nat, n: nat): seq<Combo> {
    if n == 0 then [] else PolicyCombos(c, s, n - 1) + [Combo(c, s, n - 1)]
  }

  function SectionCombos(input: Input, c: nat, n: nat): seq<Combo>
    requires c < |input.cases|
  {
    if n == 0 then [] else SectionCombos(input, c, n - 1) + PolicyCombos(c, n - 1, |PoliciesOf(input, c)|)
  }

  function CaseCombos(input: Input, n: nat): seq<Combo>
    requires n <= |input.cases|
  {
    if n == 0 then [] else CaseCombos(input, n - 1) + SectionCombos(input, n - 1, |input.sections|)
  }

  function Combos(input: Input): seq<Combo> {
    CaseCombos(input, |input.cases|)
  }

  function NameOf(input: Input, k: Combo): string
    requires InInput(input, k)
  {
    var section := if |input.sections| > 1 then input.sections[k.section] else "";
    RequestName(input.cases[k.case_].name, section, PoliciesOf(input, k.case_)[k.policy], input.runID)
  }

  function RunOf(naming: Naming, input: Input, k: Combo): Run
    requires InInput(input, k)
  {
    var tc, policy := input.cases[k.case_], PoliciesOf(input, k.case_)[k.policy];
    Run(
      tc.name, input.sections[k.section], policy, NameOf(input, k), ClaimName(naming, tc.name, policy, input.runID),
      if |PoliciesOf(input, k.case_)| > 1 then TargetWithSuffix(tc.target, ToLower(policy)) else tc.target)
  }

  /** Two runs of one case and one policy for different sections have different
      names. */
  lemma SectionsHaveNames(input: Input, k: Combo, m: Combo)
    requires InInput(input, k) && InInput(input, m) && k.case_ == m.case_ && k.policy == m.policy
    requires input.sections[k.section] != input.sections[m.section]
    ensures NameOf(input, k) != NameOf(input, m)
  {
    if NameOf(input, k) == NameOf(input, m) {
      SectionsTell(
        input.cases[k.case_].name, PoliciesOf(input, k.case_)[k.policy], input.runID,
        input.sections[k.section], input.sections[m.section]);
    }
  }

  /** What a run is: its case, its section and its policy, which the case names or
      the registration; the section in its name only when there are several; and
      a target of its own only when the case has several policies. */
  lemma RunIs(naming: Naming, input: Input, k: Combo)
    requires InInput(input, k)
    ensures
      var run, tc := RunOf(naming, input, k), input.cases[k.case_];
      var policies := if tc.policy == "" then input.policies else [tc.policy];
      && run.caseName == tc.name && run.section == input.sections[k.section] && run.policy == policies[k.policy]
      && (|input.sections| == 1 ==> run.name == RequestName(tc.name, "", run.policy, input.runID))
      && (|input.sections| > 1 ==> run.name == RequestName(tc.name, run.section, run.policy, input.runID))
      && (|policies| == 1 ==> run.target == tc.target)
      && (|policies| > 1 ==>
            && run.target.name == tc.target.name + ("-" + ToLower(run.policy))
            && (tc.target.serviceAccountName == "" ==> run.target.serviceAccountName == "")
            && (tc.target.serviceAccountName != "" ==>
                  run.target.serviceAccountName == tc.target.serviceAccountName + ("-" + ToLower(run.policy))))
  {}

  /** A claim has the name of its request without the section, when that is short
      enough, and the hash of it otherwise. */
  lemma ClaimIs(naming: Naming, caseName: string, policy: string, runID: string)
    ensures
      var name := RequestName(caseName, "", policy, runID);
      ClaimName(naming, caseName, policy, runID) ==
      if |name| <= 40 && naming.isDNS1035(name) then name else "claim-" + naming.hash(name)
  {}

  predicate AllInInput(input: Input, combos: seq<Combo>) {
    forall i :: 0 <= i < |combos| ==> InInput(input, combos[i])
  }

  predicate NamesOk(naming: Naming, input: Input, combos: seq<Combo>)
    requires AllInInput(input, combos)
  {
    && (forall i :: 0 <= i < |combos| ==> naming.isDNS1123(NameOf(input, combos[i])))
    && (forall i, j :: 0 <= i < j < |combos| ==> NameOf(input, combos[i]) != NameOf(input, combos[j]))
  }

  function RunsOfCombos(naming: Naming, input: Input, combos: seq<Combo>): (runs: seq<Run>)
    requires AllInInput(input, combos)
    ensures |runs| == |combos| && forall i :: 0 <= i < |combos| ==> runs[i] == RunOf(naming, input, combos[i])
  {
    seq(|combos|, i requires 0 <= i < |combos| => RunOf(naming, input, combos[i]))
  }

  // The loops.

  /** Some combination of the list has the name. */
  predicate Given(input: Input, done: seq<Combo>, name: string)
    requires AllInInput(input, done)
  {
    exists i :: 0 <= i < |done| && NameOf(input, done[i]) == name
  }

  /** The map holds each name with a run, and no other name. */
  ghost predicate MapsNames(naming: Naming, input: Input, done: seq<Combo>, caseOf: map<string, string>)
    requires AllInInput(input, done)
  {
    forall name :: name in caseOf <==> naming.isDNS1123(name) && Given(input, done, name)
  }

  /** The variables of the loops. */
  datatype Progress = Progress(caseOf: map<string, string>, runs: seq<Run>, failed: bool)

  const NOTHING := Progress(map[], [], false)

  /** One pass of the innermost loop. */
  function Next(naming: Naming, input: Input, p: Progress, k: Combo): Progress
    requires InInput(input, k)
  {
    var name := NameOf(input, k);
    if !naming.isDNS1123(name) || name in p.caseOf then p.(failed := true)
    else Progress(p.caseOf[name := input.cases[k.case_].name], p.runs + [RunOf(naming, input, k)], p.failed)
  }

  type Step = (Progress, Combo) -> Progress

  function StepOf(naming: Naming, input: Input): Step {
    (p, k) => if InInput(input, k) then Next(naming, input, p, k) else p
  }

  lemma GivenMore(input: Input, done: seq<Combo>, k: Combo, name: string)
    requires AllInInput(input, done) && InInput(input, k)
    ensures AllInInput(input, done + [k])
    ensures Given(input, done + [k], name) <==> name == NameOf(input, k) || Given(input, done, name)
  {
    var more := done + [k];
    assert more[|done|] == k;
    if Given(input, done, name) {
      var i :| 0 <= i < |done| && NameOf(input, done[i]) == name;
      assert more[i] == done[i];
    }
  }

  lemma NamesOkMore(naming: Naming, input: Input, done: seq<Combo>, k: Combo)
    requires AllInInput(input, done) && InInput(input, k)
    ensures AllInInput(input, done + [k])
    ensures
      NamesOk(naming, input, done + [k]) <==>
      NamesOk(naming, input, done) && naming.isDNS1123(NameOf(input, k)) && !Given(input, done, NameOf(input, k))
  {
    var more := done + [k];
    assert more[|done|] == k && forall i :: 0 <= i < |done| ==> more[i] == done[i];
    if NamesOk(naming, input, more) {
      forall i | 0 <= i < |done| ensures naming.isDNS1123(NameOf(input, done[i])) {
        assert naming.isDNS1123(NameOf(input, more[i]));
      }
      forall i, j | 0 <= i < j < |done| ensures NameOf(input, done[i]) != NameOf(input, done[j]) {
        assert NameOf(input, more[i]) != NameOf(input, more[j]);
      }
      forall i | 0 <= i < |done| ensures NameOf(input, done[i]) != NameOf(input, k) {
        assert NameOf(input, more[i]) != NameOf(input, more[|done|]);
      }
    }
  }

  lemma MapsMore(
      naming: Naming, input: Input, done: seq<Combo>, k: Combo, caseOf: map<string, string>, more: map<string, string>)
    requires AllInInput(input, done) && InInput(input, k) && MapsNames(naming, input, done, caseOf)
    requires
      forall name :: name in more <==> name in caseOf || (name == NameOf(input, k) && naming.isDNS1123(name))
    ensures AllInInput(input, done + [k]) && MapsNames(naming, input, done + [k], more)
  {
    forall n ensures n in more <==> naming.isDNS1123(n) && Given(input, done + [k], n) {
      GivenMore(input, done, k, n);
    }
  }

  lemma RunsMore(naming: Naming, input: Input, done: seq<Combo>, k: Combo)
    requires AllInInput(input, done) && InInput(input, k)
    ensures AllInInput(input, done + [k])
    ensures RunsOfCombos(naming, input, done) + [RunOf(naming, input, k)] == RunsOfCombos(naming, input, done + [k])
  {}

  /** What the loops have computed after the combinations of the list: an error
      exactly when a name is bad or came up before, and otherwise the runs. */
  ghost predicate IsAfter(naming: Naming, input: Input, done: seq<Combo>, p: Progress) {
    && AllInInput(input, done)
    && (p.failed <==> !NamesOk(naming, input, done))
    && MapsNames(naming, input, done, p.caseOf)
    && (!p.failed ==> p.runs == RunsOfCombos(naming, input, done))
  }

  lemma NextIsAfter(naming: Naming, input: Input, done: seq<Combo>, k: Combo, p: Progress)
    requires IsAfter(naming, input, done, p) && InInput(input, k)
    ensures IsAfter(naming, input, done + [k], Next(naming, input, p, k))
  {
    NamesOkMore(naming, input, done, k);
    MapsMore(naming, input, done, k, p.caseOf, Next(naming, input, p, k).caseOf);
    RunsMore(naming, input, done, k);
  }

  /** The body of the innermost loop. */
  method AddRun(naming: Naming, input: Input, k: Combo, p: Progress) returns (p': Progress)
    requires InInput(input, k)
    ensures p' == StepOf(naming, input)(p, k)
  {
    var tc := input.cases[k.case_];
    var policies := PoliciesOf(input, k.case_);
    var policy, section := policies[k.policy], input.sections[k.section];
    var nameSection := "";
    if |input.sections| > 1 {
      nameSection := section;
    }
    var name := RequestName(tc.name, nameSection, policy, input.runID);
    if !naming.isDNS1123(name) || name in p.caseOf {
      return p.(failed := true);
    }
    var run := Run(tc.name, section, policy, name, ClaimName(naming, tc.name, policy, input.runID), tc.target);
    if |policies| > 1 {
      run := run.(target := TargetWithSuffix(tc.target, ToLower(policy)));
    }
    p' := Progress(p.caseOf[name := tc.name], p.runs + [run], p.failed);
  }

  lemma {:induction false} PolicyCombosAre(c: nat, s: nat, n: nat)
    ensures |PolicyCombos(c, s, n)| == n && forall i :: 0 <= i < n ==> PolicyCombos(c, s, n)[i] == Combo(c, s, i)
  {
    if n > 0 {
      PolicyCombosAre(c, s, n - 1);
    }
  }

  lemma OneMorePolicy(done: seq<Combo>, c: nat, s: nat, p: nat)
    ensures (done + PolicyCombos(c, s, p)) + [Combo(c, s, p)] == done + PolicyCombos(c, s, p + 1)
  {}

  lemma OneMoreSection(input: Input, done: seq<Combo>, c: nat, s: nat)
    requires c < |input.cases|
    ensures
      (done + SectionCombos(input, c, s)) + PolicyCombos(c, s, |PoliciesOf(input, c)|) ==
      done + SectionCombos(input, c, s + 1)
  {}

  // What each loop computes, and what it keeps true of its combinations.

  function AfterPolicies(step: Step, c: nat, s: nat, n: nat, p: Progress): Progress {
    if n == 0 then p else step(AfterPolicies(step, c, s, n - 1, p), Combo(c, s, n - 1))
  }

  function AfterSections(step: Step, input: Input, c: nat, n: nat, p: Progress): Progress
    requires c < |input.cases|
  {
    if n == 0 then p
    else AfterPolicies(step, c, n - 1, |PoliciesOf(input, c)|, AfterSections(step, input, c, n - 1, p))
  }

  function AfterCases(step: Step, input: Input, n: nat): Progress
    requires n <= |input.cases|
  {
    if n == 0 then NOTHING
    else AfterSections(step, input, n - 1, |input.sections|, AfterCases(step, input, n - 1))
  }

  type Relation = (seq<Combo>, Progress) -> bool

  /** The relation holds before the loops, and each pass keeps it. */
  ghost predicate Keeps(input: Input, step: Step, holds: Relation) {
    && holds([], NOTHING)
    && forall done, p, k :: holds(done, p) && InInput(input, k) ==> holds(done + [k], step(p, k))
  }

  lemma {:induction false} PoliciesKeep(
      input: Input, step: Step, holds: Relation, c: nat, s: nat, n: nat, done: seq<Combo>, p: Progress)
    requires Keeps(input, step, holds) && holds(done, p)
    requires c < |input.cases| && s < |input.sections| && n <= |PoliciesOf(input, c)|
    ensures holds(done + PolicyCombos(c, s, n), AfterPolicies(step, c, s, n, p))
  {
    if n == 0 {
      assert done + PolicyCombos(c, s, 0) == done;
    } else {
      PoliciesKeep(input, step, holds, c, s, n - 1, done, p);
      var before, q := done + PolicyCombos(c, s, n - 1), AfterPolicies(step, c, s, n - 1, p);
      assert holds(before, q) && InInput(input, Combo(c, s, n - 1));
      assert holds(before + [Combo(c, s, n - 1)], step(q, Combo(c, s, n - 1)));
      OneMorePolicy(done, c, s, n - 1);
    }
  }

  lemma {:induction false} SectionsKeep(
      input: Input, step: Step, holds: Relation, c: nat, n: nat, done: seq<Combo>, p: Progress)
    requires Keeps(input, step, holds) && holds(done, p)
    requires c < |input.cases| && n <= |input.sections|
    ensures holds(done + SectionCombos(input, c, n), AfterSections(step, input, c, n, p))
  {
    if n == 0 {
      assert done + SectionCombos(input, c, 0) == done;
    } else {
      SectionsKeep(input, step, holds, c, n - 1, done, p);
      PoliciesKeep(
        input, step, holds, c, n - 1, |PoliciesOf(input, c)|, done + SectionCombos(input, c, n - 1),
        AfterSections(step, input, c, n - 1, p));
      OneMoreSection(input, done, c, n - 1);
    }
  }

  lemma {:induction false} CasesKeep(input: Input, step: Step, holds: Relation, n: nat)
    requires Keeps(input, step, holds) && n <= |input.cases|
    ensures holds(CaseCombos(input, n), AfterCases(step, input, n))
  {
    if n > 0 {
      CasesKeep(input, step, holds, n - 1);
      SectionsKeep(
        input, step, holds, n - 1, |input.sections|, CaseCombos(input, n - 1), AfterCases(step, input, n - 1));
    }
  }

  /** All loops together: an error exactly when a name is bad or comes up twice,
      and otherwise the runs of all combinations. */
  lemma LoopsAre(naming: Naming, input: Input)
    ensures IsAfter(naming, input, Combos(input), AfterCases(StepOf(naming, input), input, |input.cases|))
  {
    var step: Step := StepOf(naming, input);
    var holds: Relation := (done, p) => IsAfter(naming, input, done, p);
    forall done, p, k | holds(done, p) && InInput(input, k) ensures holds(done + [k], step(p, k)) {
      NextIsAfter(naming, input, done, k, p);
    }
    CasesKeep(input, step, holds, |input.cases|);
  }

  /** The loop over the policies. */
  method AddPolicies(naming: Naming, input: Input, c: nat, s: nat, p: Progress) returns (p': Progress)
    requires c < |input.cases| && s < |input.sections|
    ensures p' == AfterPolicies(StepOf(naming, input), c, s, |PoliciesOf(input, c)|, p)
  {
    p' := p;
    for i := 0 to |PoliciesOf(input, c)|
      invariant p' == AfterPolicies(StepOf(naming, input), c, s, i, p)
    {
      p' := AddRun(naming, input, Combo(c, s, i), p');
    }
  }

  /** The loop over the sections. */
  method AddSections(naming: Naming, input: Input, c: nat, p: Progress) returns (p': Progress)
    requires c < |input.cases|
    ensures p' == AfterSections(StepOf(naming, input), input, c, |input.sections|, p)
  {
    p' := p;
    for s := 0 to |input.sections|
      invariant p' == AfterSections(StepOf(naming, input), input, c, s, p)
    {
      p' := AddPolicies(naming, input, c, s, p');
    }
  }

  method RunsOf(naming: Naming, input: Input) returns (r: Result<seq<Run>, ()>)
    ensures AllInInput(input, Combos(input))
    ensures
      r == if NamesOk(naming, input, Combos(input)) then Ok(RunsOfCombos(naming, input, Combos(input))) else Err(())
  {
    var p := NOTHING;
    for c := 0 to |input.cases|
      invariant p == AfterCases(StepOf(naming, input), input, c)
    {
      p := AddSections(naming, input, c, p);
    }
    LoopsAre(naming, input);
    r := if p.failed then Err(()) else Ok(p.runs);
  }

  // One run for each combination.

  lemma {:induction false} SectionHas(input: Input, k: Combo, n: nat)
    requires InInput(input, k) && k.section < n
    ensures k in SectionCombos(input, k.case_, n)
  {
    if k.section < n - 1 {
      SectionHas(input, k, n - 1);
    } else {
      PolicyCombosAre(k.case_, n - 1, |PoliciesOf(input, k.case_)|);
      assert PolicyCombos(k.case_, n - 1, |PoliciesOf(input, k.case_)|)[k.policy] == k;
    }
  }

  lemma {:induction false} CaseHas(input: Input, k: Combo, n: nat)
    requires InInput(input, k) && k.case_ < n <= |input.cases|
    ensures k in CaseCombos(input, n)
  {
    if k.case_ < n - 1 {
      CaseHas(input, k, n - 1);
    } else {
      SectionHas(input, k, |input.sections|);
    }
  }

  /** Every combination of a case, a section and a policy comes up. */
  lemma EachHasARun(input: Input, k: Combo)
    requires InInput(input, k)
    ensures k in Combos(input)
  {
    CaseHas(input, k, |input.cases|);
  }

  // Claim names.

  /** The policies of the contract. */
  predicate IsPolicy(policy: string) {
    policy == "Delete" || policy == "Orphan"
  }

  predicate PoliciesOk(input: Input) {
    && (forall i :: 0 <= i < |input.policies| ==> IsPolicy(input.policies[i]))
    && (forall c :: 0 <= c < |input.cases| ==> input.cases[c].policy == "" || IsPolicy(input.cases[c].policy))
  }

  /** The hash of a name: 16 characters without a dash. */
  ghost predicate HashShape(naming: Naming) {
    forall s :: |naming.hash(s)| == 16 && '-' !in naming.hash(s)
  }

  /** The hash of a namespace: ten characters without a dash. */
  predicate RunIDOk(runID: string) {
    |runID| == 10 && '-' !in runID
  }

  lemma LowerPolicy(policy: string)
    requires IsPolicy(policy)
    ensures ToLower(policy) == if policy == "Delete" then "delete" else "orphan"
  {}

  /** The name of a claim before it is hashed: the case, and 18 characters. */
  lemma PlainName(caseName: string, policy: string, runID: string)
    requires IsPolicy(policy) && RunIDOk(runID)
    ensures
      var tail := ToLower(policy) + ("-" + runID);
      RequestName(caseName, "", policy, runID) == Dashed(ToLower(caseName), tail) && |tail| == 17
  {
    LowerPolicy(policy);
  }

  lemma SameDashed(a: string, x: string, b: string, y: string)
    requires |x| == |y| > 0 && Dashed(a, x) == Dashed(b, y)
    ensures a == b && x == y
  {
    var s, t := Dashed(a, x), Dashed(b, y);
    assert s[|s| - |x|..] == x && t[|t| - |y|..] == y;
    assert a != "" ==> s[..|a|] == a;
    assert b != "" ==> t[..|b|] == b;
  }

  lemma SameTail(p: string, q: string, runID: string)
    requires IsPolicy(p) && IsPolicy(q) && ToLower(p) + ("-" + runID) == ToLower(q) + ("-" + runID)
    ensures p == q
  {
    LowerPolicy(p);
    LowerPolicy(q);
    var s, t := ToLower(p) + ("-" + runID), ToLower(q) + ("-" + runID);
    assert s[0] == (if p == "Delete" then 'd' else 'o') && t[0] == (if q == "Delete" then 'd' else 'o');
  }

  /** A plain name has a dash in front of its last ten characters, and a hashed
      one has none among its last sixteen. */
  lemma PlainIsNoHash(naming: Naming, caseName: string, policy: string, runID: string, s: string)
    requires IsPolicy(policy) && RunIDOk(runID) && HashShape(naming)
    ensures RequestName(caseName, "", policy, runID) != CLAIM + naming.hash(s)
  {
    PlainName(caseName, policy, runID);
    var tail := ToLower(policy) + ("-" + runID);
    var name, hashed := Dashed(ToLower(caseName), tail), CLAIM + naming.hash(s);
    assert tail[6] == '-';
    assert name[|name| - 11] == '-';
    assert hashed[|hashed| - 11] == naming.hash(s)[5];
  }

  /** The name is too long for a claim, or no label: the claim gets its hash. */
  predicate IsHashed(naming: Naming, name: string) {
    |name| > MAX_CLAIM_NAME || !naming.isDNS1035(name)
  }

  /** Two names that are hashed and have one hash. */
  predicate Collide(naming: Naming, x: string, y: string) {
    x != y && IsHashed(naming, x) && IsHashed(naming, y) && naming.hash(x) == naming.hash(y)
  }

  lemma SamePlainName(a: string, p: string, b: string, q: string, runID: string)
    requires IsPolicy(p) && IsPolicy(q) && RunIDOk(runID)
    ensures
      RequestName(a, "", p, runID) == RequestName(b, "", q, runID) <==> ToLower(a) == ToLower(b) && p == q
  {
    PlainName(a, p, runID);
    PlainName(b, q, runID);
    if RequestName(a, "", p, runID) == RequestName(b, "", q, runID) {
      SameDashed(ToLower(a), ToLower(p) + ("-" + runID), ToLower(b), ToLower(q) + ("-" + runID));
      SameTail(p, q, runID);
    }
  }

  /** Two claims have one name exactly when they are of one case, up to letter
      case, and one policy, or when both names are hashed and the hashes
      collide; and a claim name is short. */
  lemma SameClaimName(naming: Naming, a: string, p: string, b: string, q: string, runID: string)
    requires IsPolicy(p) && IsPolicy(q) && RunIDOk(runID) && HashShape(naming)
    ensures
      ClaimName(naming, a, p, runID) == ClaimName(naming, b, q, runID) <==>
      || (ToLower(a) == ToLower(b) && p == q)
      || Collide(naming, RequestName(a, "", p, runID), RequestName(b, "", q, runID))
    ensures |ClaimName(naming, a, p, runID)| <= MAX_CLAIM_NAME
  {
    var x, y := RequestName(a, "", p, runID), RequestName(b, "", q, runID);
    SamePlainName(a, p, b, q, runID);
    PlainIsNoHash(naming, a, p, runID, y);
    PlainIsNoHash(naming, b, q, runID, x);
    assert naming.hash(x) == naming.hash(y) <==> CLAIM + naming.hash(x) == CLAIM + naming.hash(y) by {
      assert (CLAIM + naming.hash(x))[|CLAIM|..] == naming.hash(x);
      assert (CLAIM + naming.hash(y))[|CLAIM|..] == naming.hash(y);
    }
  }

  lemma PolicyIs(input: Input, k: Combo)
    requires InInput(input, k) && PoliciesOk(input)
    ensures IsPolicy(PoliciesOf(input, k.case_)[k.policy])
  {}

  /** The name that the claim of a combination has, or whose hash it has. */
  function ClaimSource(input: Input, k: Combo): string
    requires InInput(input, k)
  {
    RequestName(input.cases[k.case_].name, "", PoliciesOf(input, k.case_)[k.policy], input.runID)
  }

  /** Without an error, two runs share a claim exactly when they are of one case
      and one policy, or the hashes of their two names collide. */
  lemma ClaimsTellRuns(naming: Naming, input: Input, k: Combo, m: Combo)
    requires AllInInput(input, Combos(input)) && NamesOk(naming, input, Combos(input))
    requires InInput(input, k) && InInput(input, m)
    requires PoliciesOk(input) && RunIDOk(input.runID) && HashShape(naming)
    ensures
      RunOf(naming, input, k).claim == RunOf(naming, input, m).claim <==>
      || (k.case_ == m.case_ && k.policy == m.policy)
      || Collide(naming, ClaimSource(input, k), ClaimSource(input, m))
    ensures |RunOf(naming, input, k).claim| <= MAX_CLAIM_NAME
  {
    var p, q := PoliciesOf(input, k.case_)[k.policy], PoliciesOf(input, m.case_)[m.policy];
    var a, b := input.cases[k.case_].name, input.cases[m.case_].name;
    PolicyIs(input, k);
    PolicyIs(input, m);
    SameClaimName(naming, a, p, b, q, input.runID);
    if ToLower(a) == ToLower(b) && p == q {
      SameNameSameCombo(naming, input, k, Combo(m.case_, k.section, m.policy));
    }
  }

  lemma SameNameSameCombo(naming: Naming, input: Input, k: Combo, m: Combo)
    requires AllInInput(input, Combos(input)) && NamesOk(naming, input, Combos(input))
    requires InInput(input, k) && InInput(input, m) && NameOf(input, k) == NameOf(input, m)
    ensures k == m
  {
    EachHasARun(input, k);
    EachHasARun(input, m);
    var i :| 0 <= i < |Combos(input)| && Combos(input)[i] == k;
    var j :| 0 <= j < |Combos(input)| && Combos(input)[j] == m;
    OneIndex(naming, input, Combos(input), i, j);
  }

  lemma OneIndex(naming: Naming, input: Input, combos: seq<Combo>, i: nat, j: nat)
    requires AllInInput(input, combos) && NamesOk(naming, input, combos) && i < |combos| && j < |combos|
    requires NameOf(input, combos[i]) == NameOf(input, combos[j])
    ensures i == j
  {}

  /** Without an error, the policies of one case get different targets. */
  lemma TargetsDiffer(naming: Naming, input: Input, k: Combo, m: Combo)
    requires AllInInput(input, Combos(input)) && NamesOk(naming, input, Combos(input)) && PoliciesOk(input)
    requires InInput(input, k) && InInput(input, m) && k.case_ == m.case_ && k.policy != m.policy
    ensures RunOf(naming, input, k).target.name != RunOf(naming, input, m).target.name
  {
    var policies, name := PoliciesOf(input, k.case_), input.cases[k.case_].target.name;
    var p, q := policies[k.policy], policies[m.policy];
    PolicyIs(input, k);
    PolicyIs(input, m);
    if p == q {
      SameNameSameCombo(naming, input, k, Combo(m.case_, k.section, m.policy));
    }
    LowerPolicy(p);
    LowerPolicy(q);
    var s, t := name + ("-" + ToLower(p)), name + ("-" + ToLower(q));
    assert s[|name| + 1] == ToLower(p)[0] && t[|name| + 1] == ToLower(q)[0];
  }

  // A hash that tells the names of a run apart.

  /** n in decimal, with k digits. */
  function Digits(n: nat, k: nat): (s: string)
    ensures |s| == k && '-' !in s
  {
    if k == 0 then "" else Digits(n / 10, k - 1) + [('0' as int + n % 10) as char]
  }

  function PowerOfTen(k: nat): nat {
    if k == 0 then 1 else 10 * PowerOfTen(k - 1)
  }

  lemma {:induction false} SameDigits(m: nat, n: nat, k: nat)
    requires m < PowerOfTen(k) && n < PowerOfTen(k) && Digits(m, k) == Digits(n, k)
    ensures m == n
  {
    if k > 0 {
      var s, t := Digits(m, k), Digits(n, k);
      assert s[..k - 1] == Digits(m / 10, k - 1) && t[..k - 1] == Digits(n / 10, k - 1);
      assert s[k - 1] == ('0' as int + m % 10) as char && t[k - 1] == ('0' as int + n % 10) as char;
      SameDigits(m / 10, n / 10, k - 1);
    }
  }

  /** The place of s in the list, or the length of the list. */
  function PlaceOf(names: seq<string>, s: string): (i: nat)
    ensures i <= |names| && (s in names ==> i < |names| && names[i] == s)
  {
    if names == [] || names[0] == s then 0 else 1 + PlaceOf(names[1..], s)
  }

  /** For any list of names there is a hash of the shape under which no two of
      them collide, so the claims of a run can tell its runs apart. */
  lemma SomeHashTells(naming: Naming, names: seq<string>) returns (telling: Naming)
    requires |names| < PowerOfTen(16)
    ensures telling.isDNS1123 == naming.isDNS1123 && telling.isDNS1035 == naming.isDNS1035
    ensures HashShape(telling)
    ensures forall x, y :: x in names && y in names ==> !Collide(telling, x, y)
  {
    telling := naming.(hash := s => Digits(PlaceOf(names, s), 16));
    forall x, y | x in names && y in names && x != y
      ensures telling.hash(x) != telling.hash(y)
    {
      if telling.hash(x) == telling.hash(y) {
        SameDigits(PlaceOf(names, x), PlaceOf(names, y), 16);
        assert false;
      }
    }
  }
}
