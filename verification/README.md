# Verification of the conformance suite and its tools

This project models the parts of the camunda-operator repository whose
correctness rests on more than one function, and proves what they promise.

- `recorder.dfy`, `watch.dfy`, `protocol.dfy` and `checks.dfy` model the watch
  recorder of the conformance suite. The recorder is a class, each of whose
  methods is one critical section. The goroutine behind a watch is a loop over
  the sessions that the API server grants it. The protocol is a machine over all
  interleavings of the watches and the server, and `checks.dfy` adds the thread
  of the checks, which reads the recorder and lists what the server shows. The
  theorems say what a verdict that passes, or a violation that is reported,
  says about the real history. `protocol_limits.dfy` and `passing_checks.dfy` say
  exactly when a verdict can pass and when it says nothing, with the runs built
  in `reaching.dfy`.
- `cluster.dfy`, `echo_calls.dfy`, `echo.dfy` and `echo_verdicts.dfy` model the
  echo plugin without a defect. Other clients, among them the garbage collector,
  take any steps between two of its calls, and each call can fail, conflict or be
  the last one before a crash. The theorems say that each run passes the verdicts
  of the suite, or exactly when it does. The server counts what went wrong, so the
  controller also says how a pass must end when nothing did. `echo_passes.dfy` is
  the same controller as a machine, `echo_progress.dfy` says what its passes come
  to, and `echo_limits.dfy` has the runs that do not pass the verdicts.
  `registration.dfy` does the same for the registration, and
  `ready.dfy` for the Ready condition.
- `cleanups.dfy` and `runs.dfy` model what a run of the suite creates, names
  and cleans up.
- `json.dfy`, `templates.dfy`, `documents.dfy` and `fragments.dfy` model the
  templates of the contract: the check, the two renderers, the fragment that a
  Grant must hold, and the equality of JSON documents.
- `apireference.dfy`, `maplinks.dfy` and `page.dfy` model the correction of the
  API reference page. `callsplit.dfy`, `callsplit_pass.dfy`,
  `callsplit_fixpoint.dfy` and `callsplit_text.dfy` model the rewrite of split
  calls.
  `exampleversions.dfy` models the key stack that finds
  the versions of the examples.
- `location.dfy` models the identity string of an object storage contract.
- `api.dfy` holds the objects, conditions and resource versions that the
  modules share, and `text.dfy` the one string function.

`dafny verify dfyconfig.toml` checks the whole project.

Code that changes state step by step is a class or a method with loops, proved
against a specification function. The lemmas prove the promises about that
function. Code that only computes is a function.

## What the proofs found

- The comment above `Location` says that the string changes exactly when the
  place does. It does not: the region `(endpoint x` on base path `p` and the
  endpoint `x` on base path `p (region` give one string. A rule that forbids
  ` (` in regions and endpoints is not enough, because a region can start with
  `(`. `Location.IdentifiesIff` is the exact condition on one contract,
  `Location.SameLocation` the exact condition on two, and
  `Location.PlainLocations` a rule that is enough.
- These theorems need names without a slash, and the API only asks that a bucket
  name is not empty: the bucket `a/b` with base path `c` and the bucket `a` with
  base path `b/c` give one string (`Location.SlashCollides`).
- `finalizerProblem` asks whether the recorder saw each listed object, under any
  key. So an object that gets the label of the request after its first watched
  state can pass, although it is older than the finalizer
  (`ProtocolLimits.RelabelledObjectPasses` has the input). It fails when each
  list that holds it also holds an early object of the request
  (`ProtocolLimits.AccompaniedObjectFails`).
  `ProtocolLimits.FinalizerVerdictIff` is the exact condition, and
  `ProtocolLimits.PassesIff` says which lists let the check pass.
- An Orphan deletion of echo does not always follow the rows of the request,
  because the spec of a request can change. A Grant that the spec drops is
  deleted before the status is written, so its row can still say Kept
  (`EchoLimits.StaleGrantIsLost`), and a policy that changes to Orphan after a
  pass under Delete began comes too late (`EchoLimits.PolicyChangeIsLate`).
  `EchoVerdicts.OrphanFollowsItsRows` has the exact condition,
  `EchoVerdicts.OrphanKeepsWanted` says it of the states of the request, and
  `EchoLimits.ReasonLoses` shows that each state that breaks it can lead to the
  loss.
- The cleanup that deletes the namespace of the run deletes each request in it,
  also one that another client made (`Cleanups.ReplacementIsHit`).
  `Cleanups.Suite.Run` has the exact condition.
- Two requests can give one name to their StorageClass, because the name joins
  the namespace and the name of the request with a dash.
  `EchoVerdicts.SameStorageClass` says which. The deletion theorems hold all the
  same, because echo reads the labels.
- `sameValue` is not reflexive on a document with a number that has no exact
  fraction, such as one with too large an exponent (`Json.SameAsItself` has the
  exact condition).
- The echo plugin reads a parameter that carries `x-fleet-template` as it is,
  and the suite renders it first (`Fragments.EchoWritesPlaceholder` has the
  requests on which they differ). `Fragments.EchoFollowsIff` is the exact condition.
- callsplit adds a second comma behind a comma that stands beside a comment or
  an ellipsis, and then its output does not parse
  (`CallSplitFixpoint.DoubledComma`, with the exact condition in
  `CallSplitFixpoint.ParsesIff`).
- The last replacement of callsplit removes one line end of each pair after a
  comma in the whole file, so it also changes raw string literals
  (`CallSplitFixpoint.RawStringChanges`, with the exact condition in
  `CallSplitFixpoint.TextStaysIff`) and the blank lines that other code has
  there. All other bytes stay in order (`CallSplitText.OutputIsSource`), and two
  tokens of one line come apart only where an edit came between them
  (`CallSplitPass.OutputBreaks`).

## Model

| member | source | states |
|---|---|---|
| `Protocol.ArrivalsAreOrderedPrefixes` | conformance/lifecycle.go:338-439 | In every interleaving of the critical sections of the watches and the server, and however often a watch is closed and starts again, the recorder has observed of each stream exactly the keyed states of a prefix of what it took, once each and in order |
| `Checks.AcceptedKeptIsTrue` | conformance/lifecycle_checks.go:544-585 | When checkAcceptedKept passes, every registration state from the first list of the recorder up to the state that the check read had the very Accepted condition that prepare read, although keyOf advances the stream before observe records the state |
| `Checks.FinalizerVerdictIsTrue` | conformance/lifecycle_checks.go:134-185 | When waitForRecorder and then finalizerProblem pass, after a poll that listed the labelled objects of each kind and saw each of them, and the label of the request occurred by the first watched state of a listed object, some state of the request with the finalizer is not later than that first state, whatever order the streams arrived in |
| `Checks.OrderVerdictIsTrue` | conformance/deletion_checks.go:313-394 | When orderVerdict passes, at any moment of any interleaving, no state in which the request was served, also of those still to come, is earlier than each state of the registration with Ready=True |
| `Checks.ViolationsAreReal` | conformance/lifecycle_checks.go:134-185 | Each reported violation is one of the history: a registration state whose Accepted condition is not the one that prepare read, an object of the request earlier than every state with the finalizer, or a served state earlier than every Ready=True |
| `Checks.NeverServedIsReal` | conformance/lifecycle_checks.go:134-185 | When requests keep their names, the verdict that the watches never saw the finalizer comes only when the request did not hold it as the check read it, because the check waits until the recorder saw a request that did |
| `Checks.FailureStopsChecks` | conformance/lifecycle_checks.go:153-158 | Once the recorder failed, checkAcceptedKept and waitForRecorder stay at their first read, and finalizerProblem and the order check fail |
| `Checks.ChecksEndAsVerdicts` | conformance/recorder.go:282-299 | When nothing comes between its reads, the check of the machine ends as finalizerProblem or orderVerdict does on that one state |
| `PassingChecks.AcceptedPassesIff` | conformance/lifecycle_checks.go:544-585 | Exact: the check of a state of the registration that can be read passes in some run exactly when that state and each one before it has the very Accepted condition that prepare read |
| `PassingChecks.OrderPassesIff` | conformance/deletion_checks.go:370-394 | Exact: orderVerdict passes in some run exactly when the request is ever served and no served state is earlier than each state with Ready=True |
| `Checks.MomentIsOk` | conformance/lifecycle_checks.go:153-185 | Every moment of every run of the watches and the checks satisfies the invariant that ties what a check knows so far to the history: the lists that it made, the objects it still waits for, and the marks it read |
| `Protocol.FailureIsForGood` | conformance/recorder.go:190-204 | Once a watch failed, each later verdict of the recorder reports the failure, in every continuation of the run |
| `ProtocolLimits.PassesIff` | conformance/lifecycle_checks.go:153-185 | Some run of the check passes after reading the request and listing the kinds at given times exactly when the server shows the request at the first of them, the times come in order, the finalizer ever occurs, and no state with the label at or before the first watched state of a listed object of its kind is earlier than the finalizer |
| `ProtocolLimits.FinalizerVerdictIff` | conformance/lifecycle_checks.go:134-185 | The exact condition: for a request that ever gets the finalizer, the verdict about an object is true in every run exactly when its first watched state is not earlier than the finalizer, or there are no lists of the labelled objects of each kind that hold the object and in which no listed object has, at or before its first watched state, a state of its kind with the label and earlier than the finalizer |
| `ProtocolLimits.RelabelledObjectPasses` | conformance/lifecycle_checks.go:134-185 | The input on which it fails: a ConfigMap is written for another request before the finalizer and gets the label of this one after it; a run of the check lists it and passes |
| `ProtocolLimits.AccompaniedObjectFails` | conformance/lifecycle_checks.go:172-179 | With another early ConfigMap of the request each list that holds the relabelled one holds that one as well, the check waits for it, and no run passes |
| `ProtocolLimits.UnlabelledIsNeverListed` | conformance/kinds.go:183-205 | An object that never carries the label is in no list, so the verdict about it is never wrong |
| `Protocol.RestartKeeps` | conformance/recorder.go:117-120 | A restart after the last version goes on exactly behind the states that the watch took |
| `Protocol.CountIsBoundary` | conformance/recorder.go:104-121 | The place where the server starts a watch after a version is the boundary between the states up to that version and the later ones |
| `Protocol.Reachable` | conformance/lifecycle.go:338-439 | Every state of every run satisfies the invariant that ties the record, the arrivals, the watchers and the server together |
| `Protocol.StepKeeps` | conformance/recorder.go:104-161 | Each kind of step, of a watch or of the server, keeps that invariant |
| `Protocol.RunKeysMean` | conformance/lifecycle.go:365-432 | What each key of the recorder of a run says of the object: the finalizer of the request of that name, an Accepted condition that is not the one of the start, or the request label |
| `Protocol.OrderKeysMean` | conformance/deletion_checks.go:313-367 | The same of the keys of the order check: Ready=True, and the finalizer or an output |
| `Protocol.KeptIsSame` | conformance/lifecycle_checks.go:919-937 | acceptedProblem accepts a condition exactly when there was one at the start and it is that condition in every field |
| `Recording.MarksAreEarliest` | conformance/recorder.go:206-235 | For every list of observations the mark of a key is the earliest arrival of the least version among the comparable ones when the first arrival is comparable, and that first arrival otherwise; a key has a mark exactly when it was observed |
| `Recording.ObjectsAreNewestCopies` | conformance/recorder.go:217-222 | objectsOf holds exactly one copy for each UID that was observed under the key, the one that arrived last |
| `Recording.SeenIsUids` | conformance/recorder.go:246-252 | seen holds exactly the UIDs of the observed objects |
| `Recording.LeastMark` | conformance/recorder.go:254-272 | With comparable versions no arrival under a key is below the mark of the key |
| `Recording.MergeObjects` | conformance/deletion_checks.go:734-747 | The loop gives the later objects and then each earlier one that the result lacks |
| `Recording.MergeKeepsBoth` | conformance/deletion_checks.go:734-747 | The later copies stay in front and in order, an earlier copy stays only for a UID that later lacks, and no UID is dropped |
| `Recording.MergeKeepsOneCopy` | conformance/deletion_checks.go:734-747 | The result has one copy for each UID exactly when later has |
| `Recording.Recorder.Observe` | conformance/recorder.go:206-235 | One critical section: the whole new abstract state, for every key and object |
| `Recording.Recorder.Advance` | conformance/recorder.go:163-173 | Only the version of the stream changes |
| `Recording.Recorder.CaughtUp` | conformance/recorder.go:175-188 | True exactly when the stream gave a version that is comparable to the wanted one and not below it |
| `Recording.Recorder.Fail` | conformance/recorder.go:190-195 | The failure is added and nothing else changes |
| `Recording.Recorder.FinalizerProblem` | conformance/recorder.go:282-299 | The verdict from three critical sections is the verdict on one state when nothing comes between; the protocol covers what comes between |
| `Recording.Recorder.OrderProblem` | conformance/deletion_checks.go:370-394 | The same of the order verdict |
| `Recording.FinalizerVerdictIs` | conformance/recorder.go:282-299 | For every list of arrivals with comparable versions, in any order: the object is reported exactly when the request got the finalizer and some object state is below every state with the finalizer, and the verdict passes exactly when none is |
| `Recording.OrderVerdictIs` | conformance/deletion_checks.go:370-394 | The same of orderVerdict, with each of its other endings |
| `Recording.OpaqueVerdictIs` | conformance/recorder.go:254-299 | With versions that cannot be compared the verdict goes by the order of the two arrivals that give the marks |
| `Recording.CaughtUpIff` | conformance/recorder.go:175-188 | The stream is caught up exactly when it gave a version, both can be compared, and the one it gave is not lower |
| `Watching.Drain` | conformance/recorder.go:127-161 | The recorder state after the items that were consumed, the last version that they gave, and the three ways to end |
| `Watching.Watch` | conformance/recorder.go:59-125 | The listed objects and then a prefix of the log after the boundary are observed, each state once and in order, over any number of sessions, and the version of the stream moves with them; a failure is recorded exactly when the watch stopped on one, and unless the context ended it stops on the first error event or refused restart that the server gives |
| `Watching.Keep` | conformance/recorder.go:104-122 | The goroutine: each session goes on where the one before ended, nothing is lost or repeated, the reached version is the boundary of what was delivered, and a context that ended, also behind an error event, leaves no failure |
| `Watching.DeliveredBoundary` | conformance/recorder.go:127-161 | The last version of a session is the boundary of exactly the states that it delivered |
| `Watching.DeliveredIsObserved` | conformance/recorder.go:150-158 | What a session delivered is recorded once each, in order |
| `Watching.LatestIsReached` | conformance/lifecycle.go:385-398 | The version of the registration stream is the last one that the watch gave |
| `Cluster.StepInv` | conformance/echo/controller.go:220-287 | Every step of another client keeps the invariant of the cluster: requests come, change their spec, get deleted and come back under the same name, other writers write and delete objects with labels of their own, objects are touched, and the garbage collector runs |
| `Cluster.StepShrinks` | conformance/echo/controller.go:220-287 | A step of another client writes no object with the labels of echo, adds no owner to one and removes no request that holds the finalizer |
| `Cluster.NothingToCollect` | conformance/echo/controller.go:220-287 | With current reads, no object that echo wrote ever has only owners that are missing, so the collector never takes one |
| `Echo.Controller.ReconcileRequest` | conformance/echo/controller.go:152-203 | One pass with calls that can be lost or conflict at any point keeps the invariant, and says what a pass that ended well has reached: the finalizer removed, the finalizer added, or every object and the status written for one state of the request. With current reads, no call lost and no step of another client, it ends exactly as the state of the request calls for, and has made exactly the calls of such a pass, in their order, or none |
| `Echo.Controller.Maintain` | conformance/echo/controller.go:176-202 | The finalizer is only added after a read of the registration with Ready=True, and objects are only applied for a state that holds it; with current reads, no call lost and no step of another client, it ends as the state calls for |
| `Echo.Controller.CleanUp` | conformance/echo/controller.go:220-263 | When it returns no error, the policy of the state that it read is carried out: Delete left no object of the request, and Orphan left only the kept kinds, without an owner; with current reads, no call lost and no step of another client, it returns none and has made exactly the calls of the policy |
| `Echo.Controller.ReleaseAll` | conformance/echo/controller.go:243-262 | The Orphan branch: the ConfigMap and each listed Grant lose the owner reference of the request, and the Ingress is gone; with current reads, no call lost and no step of another client, nothing else changes |
| `Echo.Controller.ReleaseOwner` | conformance/echo/controller.go:265-287 | Under the optimistic lock the object has no owner reference of the UID, or is gone, and is never created; with current reads, no call lost and no step of another client, it succeeds and changes nothing else |
| `Echo.Controller.DeleteOwn` | conformance/echo/controller.go:727-750 | When it returns no error, none of the names holds an object of the request, and an object with another request or registration label stays; with current reads, no call lost and no step of another client, it returns none and deletes exactly the objects of the request at the names |
| `Echo.Controller.ApplyObjects` | conformance/echo/controller.go:289-335 | It takes no name that an object of another request of echo holds, and when it returns no error each object of the request was written, and each Grant of the request that is left is one that the spec wants; with current reads, no call lost and no step of another client, it fails exactly when the Grants cannot be rendered or a name is taken, and then writes nothing |
| `Echo.Controller.DeleteStale` | conformance/echo/controller.go:320-335 | The Grants of the request that the spec no longer wants are gone, and only those are deleted; with current reads, no call lost and no step of another client, it succeeds |
| `Echo.Controller.CheckNames` | conformance/echo/controller.go:298-314 | When it passes, no name is held by an object of another request of echo, whatever other writers do meanwhile; with current reads, no call lost and no step of another client, it passes exactly when each name is free or holds an object that ofRequest accepts |
| `Echo.Controller.CheckName` | conformance/echo/controller.go:305-313 | When it passes, the name is free, or holds an object that ofRequest accepts; with current reads, no call lost and no step of another client, it passes exactly then |
| `Echo.Controller.WriteStatus` | conformance/echo/controller.go:491-560 | A status with the outputs and the resource rows of the request was written, or was there; with current reads, no call lost and no step of another client, it succeeds, and writes only a status that differs |
| `Echo.Controller.Run` | conformance/echo/controller.go:152-203 | Any number of passes for any requests among any steps of other clients keeps the invariant of the cluster, with specs that change and names that are used again |
| `Echo.Server.DeleteObject` | conformance/echo/controller.go:742-746 | A deletion takes the object with the UID only, under the reason that the pass read |
| `Echo.Server.UpdateRequest` | conformance/echo/controller.go:194-195 | A request is written only on the state that was read |
| `EchoProgress.PassesProgress` | conformance/echo/controller.go:152-203 | What a pass without trouble comes to, and what the next one does: a request gets the finalizer and is served next when nothing is in its way; a served request is complete, stays served, and its status is not written again; a deleted one goes with what its policy deletes |
| `EchoProgress.ServedIsComplete` | conformance/echo/controller.go:289-335 | After such a pass each wanted object carries the labels and the owner that the contract asks for, no other Grant of the request is left, and the status has the outputs and the rows |
| `EchoProgress.PassCanEnd` | conformance/echo/controller.go:152-203 | From each state of the invariant whose request calls for it, a pass can make all of its calls |
| `EchoProgress.BeginsIff` | conformance/echo/controller.go:152-203 | A pass gets as far as its calls exactly when its request calls for an end with a write |
| `EchoProgress.PassIsRun` | conformance/echo/controller.go:152-203 | Such a pass of the controller is a run of the pass machine |
| `EchoCalls.KeysAre` | conformance/echo/controller.go:378-445 | The objects of a request are exactly those of the documented names |
| `EchoCalls.ListedIsHome` | conformance/echo/controller.go:337-358 | The listed Grants are exactly the Grants of the request |
| `EchoCalls.OwnHasHome` | conformance/echo/controller.go:752-764 | ofRequest together with the registration label holds exactly for the objects whose labels name the request |
| `EchoVerdicts.DeleteLeavesNothing` | conformance/deletion_checks.go:396-451 | In every run, once the finalizer is gone under Delete and until a further request of the name holds it, no object carries the labels that echo writes for the request |
| `EchoVerdicts.DeletePasses` | conformance/deletion_checks.go:396-451 | The check then finds an object of the request gone exactly when no other writer took its name with the label of the request |
| `EchoVerdicts.OrphanFollowsItsRows` | conformance/deletion_checks.go:470-562 | In every run, once the finalizer is gone under Orphan, a Kept row that the request had at any time has no problem, for any copy of its object from before, exactly when the controller did not delete that object; a Deleted row has none exactly when no other writer took the name with the label |
| `EchoVerdicts.OrphanKeepsWanted` | conformance/deletion_checks.go:470-562 | So a Kept row has no problem when its object was not gone when the request was created, each state of that request that wanted Grants wanted this one, and none that was being deleted had the policy Delete; earlier requests of the name do not matter |
| `EchoVerdicts.OrphanProblemsIff` | conformance/deletion_checks.go:521-562 | orphanProblems reports nothing exactly when the object is gone, or is the one from before with both labels and without the owner, as the row says; each of its problems is there exactly when that is wrong |
| `EchoVerdicts.DeletesOnlyItsOwn` | conformance/echo/controller.go:727-764 | Each object that the controller deleted carried the labels of echo and of the request of the pass, and those of no other request, and the state that the pass read gave a reason: the spec wants the Grant no longer, or the policy deletes the object |
| `EchoVerdicts.RowsFollowKind` | conformance/echo/controller.go:614-657 | A row says Deleted exactly for the Ingress |
| `EchoVerdicts.SameStorageClass` | conformance/echo/controller.go:412-420 | Two requests give one StorageClass name exactly when they are one, or the namespace of one is that of the other with a dash and the start of its name |
| `EchoVerdicts.StorageClassesCollide` | conformance/echo/controller.go:412-420 | Each request whose name holds a dash shares the name with another request |
| `EchoLimits.StaleGrantIsLost` | conformance/echo/controller.go:289-335 | A run from the empty cluster, with the calls of each pass in their order, in which Orphan does not follow a row: the spec drops a Grant, the pass that deletes it is lost before it writes the status, and the request goes under Orphan |
| `EchoLimits.PolicyChangeIsLate` | conformance/echo/controller.go:220-263 | The same when the policy changes to Orphan after a pass under Delete began |
| `EchoLimits.ReasonLoses` | conformance/echo/controller.go:152-203 | The condition is needed: from each state of a run in which the request gives a pass that gets as far as its calls a reason to delete the object of a Kept row, the run goes on to a state in which the request went under Orphan, the object is gone and the row has a problem |
| `EchoPasses.CallKeeps` | conformance/echo/controller.go:152-203 | Each write of a pass on the current state, from the finalizer to its removal, keeps the invariant of the cluster, so the runs behind these limits are runs of the model |
| `EchoVerdicts.EchoPassesFinalizer` | conformance/recorder.go:282-299 | On every complete recording of a run of echo, with its deletions and in any order of arrival, finalizerProblem never reports an object before the finalizer: it passes exactly when the request got the finalizer |
| `EchoVerdicts.EchoPassesOrder` | conformance/deletion_checks.go:370-394 | On every complete recording, with its deletions, orderVerdict never reports a request that was served before the registration: it passes exactly when the request was served |
| `Registration.ReconcileRegistration` | conformance/echo/registration.go:92-114 | Whatever the read and the other writers do, each state of the history keeps the Accepted condition, and a pass that finishes on a registration leaves a served state; it asks for a write exactly when the state that it read is not settled, at whatever time; and when nothing goes wrong it finishes and leaves the registration settled |
| `Registration.SetStatusCondition` | conformance/echo/registration.go:100-109 | The condition has the new values, the other conditions are untouched, changed says whether the condition is new or says something else, and the time of the transition moves exactly with the status |
| `Registration.NeverMarkedAsChanged` | conformance/lifecycle_checks.go:590-609 | Each state of such a history has the Accepted condition of the start, and the recorder gives it no key |
| `Registration.MarkedIffChanged` | conformance/lifecycle_checks.go:594-609 | The recorder gives a state the key of a changed condition exactly when its Accepted condition is not the one of the start |
| `Ready.ReadyVerdictIff` | conformance/lifecycle_checks.go:702-769 | readyVerdict accepts a condition exactly when its status and reason are those that the Grants call for, or it is True while no Grant has a Ready condition |
| `Ready.BothVerdictsIff` | conformance/grant_checks.go:802-863 | With the verdict of the Grants check exactly the former is left, for every list of Grants |
| `Ready.ReadyCondition` | conformance/echo/controller.go:575-612 | The condition that echo writes has the status and the reason that the Grants call for, or those of its defect |
| `Ready.ServedGrants` | conformance/echo/controller.go:562-573 | The cached Grants stay in front, and a wanted Grant is added exactly when no cached one has its name |
| `Api.ConditionsAre` | conformance/grant_checks.go:802-863 | A condition counts as True or as False only by its own status, so one that is missing or Unknown is neither |
| `Cleanups.Suite.Run` | conformance/lifecycle.go:96-172 | With other clients deleting and recreating requests and the namespace, the deletions by UID hit only requests that the run recorded, and when close returns no error none of them is left, also when prepare failed halfway; the run hits a request that it did not make exactly when it made the namespace and such a request was in it when the last cleanup deleted it; after prepare the requests go first, then the objects of the run, and then the namespace that it made |
| `Cleanups.ReplacementIsHit` | conformance/lifecycle.go:314-331 | The limit: the run made the namespace, another client replaced a request of the run under its name, the deletion by UID then hits nothing, and the deletion of the namespace hits exactly the replacement |
| `Cleanups.Suite.EnsureNamespace` | conformance/lifecycle.go:284-333 | A namespace that is there gets no cleanup, and one that the run makes gets the cleanup that runs last; it fails only when a call failed, a wait ran out, or another client made the namespace meanwhile |
| `Cleanups.Suite.DropNamespace` | conformance/lifecycle.go:323-329 | The deletion of the namespace by UID hits each request in it, or nothing, and leaves the namespace of that UID deleted or terminating |
| `Cleanups.Suite.Close` | conformance/registry.go:69-79 | Each cleanup runs exactly once, in reverse order, also after a failure; it returns an error exactly when a call failed or a wait ran out, and otherwise no request that a cleanup names is left; beyond the named requests it hits only those in a deleted namespace |
| `Cleanups.Suite.OnClose` | conformance/registry.go:64-67 | The cleanup is added behind the others |
| `Cleanups.Suite.DeleteMade` | conformance/lifecycle.go:506-546 | It returns an error exactly when a call failed or the wait ran out, and otherwise none of the given UIDs is left; no other UID was hit |
| `Cleanups.Suite.DeleteEach` | conformance/lifecycle.go:509-520 | Each request is deleted, left to the wait, gone already, or counted as an error, and only a call that failed counts |
| `Cleanups.Suite.Prepare` | conformance/lifecycle.go:96-172 | However far it came, each created request is recorded under its name, and the cleanup that deletes them is registered; when it succeeds the cleanups are exactly those of the namespace that it made, of the objects and of the requests, and it fails only when a call failed, a wait ran out, another client made the namespace, or the next request cannot be made |
| `Cleanups.EachIsGone` | conformance/lifecycle.go:522-543 | A request that was gone stays gone, so the polls of the wait together say that none is left |
| `Runs.RunsOf` | conformance/lifecycle.go:174-240 | It returns an error exactly when some request name is no DNS label or comes up twice, and otherwise the run of each combination in order |
| `Runs.EachHasARun` | conformance/lifecycle.go:189-236 | Each combination of a case, a section and a policy comes up |
| `Runs.RunIs` | conformance/lifecycle.go:174-252 | Each run has the case, the section and the policy of its combination, the section in its name only when there are several, and a target of its own only when the case has several policies |
| `Runs.SectionsHaveNames` | conformance/lifecycle.go:254-259 | Two runs of one case and policy for different sections have different names |
| `Runs.RequestNameIs` | conformance/lifecycle.go:254-259 | The name is the lower-case case, the section when there is one, the lower-case policy and the run, with dashes |
| `Runs.ClaimIs` | conformance/lifecycle.go:261-274 | A claim has the name without the section when that is a label of at most 40 characters, and its hash otherwise |
| `Runs.ClaimsTellRuns` | conformance/lifecycle.go:261-274 | Without an error two runs share a claim name exactly when they are of one case and one policy, or both names are hashed and the hashes collide, and a claim name has at most 40 characters |
| `Runs.SameClaimName` | conformance/lifecycle.go:254-274 | Claim names are equal exactly for equal policies and case names up to letter case, or on a collision of two hashed names; a plain name is never that of a hash |
| `Runs.SomeHashTells` | conformance/lifecycle.go:261-274 | For any list of names some hash of the shape has no collision among them |
| `Runs.TargetsDiffer` | conformance/lifecycle.go:231-252 | The policies of one case get different targets |
| `Json.AppendLeaves` | conformance/placeholders.go:112-127 | The loop appends exactly the string values with their paths, items in order and keys sorted |
| `Json.LeafIff` | conformance/placeholders.go:100-127 | The leaves are exactly the string values that some steps lead to, each with the path that spells the steps |
| `Json.DigitsDenote` | conformance/placeholders.go:117-118 | The index in a path is the decimal numeral of the place |
| `Json.SortKeys` | conformance/placeholders.go:121 | The keys come out in byte order whatever order the map gives them in |
| `Json.AscendingIsUnique` | conformance/placeholders.go:121 | There is one sorted list of a set of keys |
| `Json.LessIff` | conformance/placeholders.go:121 | Byte order: a proper prefix, or lower in the first character in which two keys differ |
| `Json.SameNumberIff` | conformance/grant_checks.go:432-439 | Two numbers are the same exactly when their decimal forms denote one rational |
| `Json.OneMoreZero` | conformance/grant_checks.go:432-439 | A number is the same with one more zero and an exponent that is lower by one |
| `Json.SameValueIff` | conformance/grant_checks.go:430-449 | Two documents with exact numbers are the same exactly when they mean the same, at any depth and in any key order |
| `Json.SameValueIsEquivalence` | conformance/grant_checks.go:430-449 | On such documents the comparison is an equivalence |
| `Json.SameAsItself` | conformance/grant_checks.go:430-449 | A document is the same as itself exactly when each of its numbers has an exact fraction |
| `Templates.CheckNodeIff` | conformance/placeholders.go:186-259 | A node passes exactly when it is text or one field reference that the placeholders hold |
| `Templates.CheckTemplate` | conformance/placeholders.go:129-150 | A template passes exactly when it parses, defines nothing and holds only allowed nodes; of one that parses, each define and each other node is a problem, in their order |
| `Templates.FillTemplate` | conformance/placeholders.go:261-315 | The loops and the execution give the rendering of the specification, and that is what the nodes stand for, one behind the other |
| `Templates.RendersTo` | conformance/placeholders.go:261-315 | For every text and result: the suite renders the text to the result exactly when the text passes the check, each name has a value, and the result joins, in order, the text, the field, the output or the printed parameter of each node |
| `Templates.ExecutesTo` | conformance/echo/grants.go:147-157 | The same of echo, on every template of text and single references |
| `Templates.RendersInOrder` | conformance/placeholders.go:261-315 | Two texts one behind the other render to their renderings one behind the other |
| `Templates.PlaceholdersAre` | conformance/placeholders.go:40-56 | The references that a grant template can hold, and those of a parameter, which may not name the outputs |
| `Templates.RendersIff` | conformance/placeholders.go:261-315 | A checked text renders exactly when each parameter and output that it names has a value |
| `Templates.UncheckedAgrees` | conformance/echo/grants.go:147-157 | On a checked text the renderer that does not check gives the same text, or fails as well |
| `Documents.RenderLeaves` | conformance/placeholders.go:346-373 | The loops that overwrite arrays and maps give the rendering of the specification, with the same first error |
| `Documents.LeavesCommute` | conformance/placeholders.go:346-373 | Rendering commutes with appendLeaves: the rendered document has the rendered leaves with the same paths in the same order, and the first leaf that does not render gives the error |
| `Documents.RendersIffLeavesDo` | conformance/placeholders.go:346-373 | A document renders exactly when each leaf does, and then nothing but the leaves differs |
| `Documents.CheckJSONTemplates` | conformance/placeholders.go:81-98 | It reports exactly the paths of the string values that do not pass, and none exactly when every string value of the document passes |
| `Documents.CheckedIff` | conformance/placeholders.go:81-127 | The check of the listed leaves is the check of the document |
| `Documents.RenderValue` | conformance/echo/grants.go:145-177 | The loops of echo, with the keys of an object in any order, give one document |
| `Documents.RenderersAgree` | conformance/echo/grants.go:125-177 | On a checked document the renderer of echo and that of the suite give the same document, or both fail |
| `Fragments.TemplateParameters` | conformance/grant_checks.go:270-292 | Exactly the marked properties, in sorted order |
| `Fragments.FillParameters` | conformance/grant_checks.go:230-254 | In any order the loop gives the parameters with each marked one rendered from the original parameters and no outputs, and fails exactly when one of them does not render |
| `Fragments.ParametersComeFirst` | conformance/grant_checks.go:230-254 | A marked parameter does not depend on the outputs of the request, and one that names an output fails, with its path |
| `Fragments.ExpectedFragment` | conformance/grant_checks.go:199-259 | The fragment is the template rendered with those parameters and the outputs |
| `Fragments.PlaceholdersMean` | conformance/placeholders.go:293-314 | What namespace, claim, request and serviceAccount stand for, and that they stand for the same to the suite and to echo |
| `Fragments.EchoFollowsIff` | conformance/echo/grants.go:57-75 | Echo writes the expected fragment on every checked template, and none where none is expected, exactly when each marked parameter renders and prints the same before and after |
| `Fragments.EchoWritesExpected` | conformance/echo/grants.go:57-75 | Under that condition the fragments agree on each checked template |
| `Fragments.NothingToFillFollows` | conformance/grant_checks.go:230-254 | It holds when no string value of a marked parameter opens an action |
| `Fragments.EchoWritesPlaceholder` | conformance/echo/grants.go:57-75 | For each library that reads two placeholders as such and prints a text as it is: when the only marked parameter of a request names the namespace, the suite expects the namespace in the fragment and echo writes the placeholder |
| `Fragments.EchoFragmentIsSame` | conformance/grant_checks.go:393-404 | Where the fragments agree, the suite accepts the one of echo exactly when its numbers have exact fractions |
| `ApiReference.BacktickRun` | hack/apireference/main.go:162-169 | The length of the run of backticks at the start |
| `ApiReference.CodeSpanLen` | hack/apireference/main.go:141-160 | The end of the code span of section 6.1 of CommonMark 0.31.2, or the run when it opens none |
| `ApiReference.CloseIffRun` | hack/apireference/main.go:141-160 | A run opens a code span exactly when a later run has its length |
| `ApiReference.EscapeLine` | hack/apireference/main.go:107-139 | The loop over the rest of the line gives the escaped line |
| `ApiReference.EscapedKeepsRuns` | hack/apireference/main.go:107-139 | Escaping preserves the sequence of backtick runs |
| `ApiReference.EscapedKeepsSpans` | hack/apireference/main.go:107-139 | Escaping preserves the code spans, with their text and order |
| `ApiReference.EscapedTwice` | hack/apireference/main.go:107-139 | A second pass over a line changes nothing |
| `ApiReference.EscapedHasNoStray` | hack/apireference/main.go:96-139 | No angle bracket stays outside a code span and a line break |
| `ApiReference.EscapedParts` | hack/apireference/main.go:107-139 | Part by part: a code span and a line break stay as they are, each other angle bracket becomes its entity, and each other character stays |
| `MapLinks.MatchIsTheLink` | hack/apireference/main.go:82-85 | The hand-written match finds exactly the one link that the text starts with |
| `MapLinks.WordIff` | hack/apireference/main.go:85 | The characters of the two types of a link are the ASCII letters and digits and the underscore |
| `MapLinks.LinkIsWrittenAs` | hack/apireference/main.go:87-94 | Whatever its anchor and the text behind it, a map link becomes the key, and the value with a link to its lower-case name |
| `MapLinks.RewrittenHasNoLink` | hack/apireference/main.go:87-94 | After one pass the page holds no map link, also none that the replaced text and its surroundings make |
| `MapLinks.RewrittenTwice` | hack/apireference/main.go:87-94 | A second pass over the links changes nothing |
| `MapLinks.MarkedHasNoLink` | hack/apireference/main.go:96-105 | Escaping makes no map link |
| `Page.EscapedIsMarked` | hack/apireference/main.go:107-139 | Escaping writes some angle brackets as their own entities and changes nothing else |
| `Page.EscapeAngles` | hack/apireference/main.go:96-105 | The loop that overwrites the lines gives the page of escaped lines |
| `Page.LinesOfEscaped` | hack/apireference/main.go:96-110 | The lines of the escaped page are the escaped lines |
| `Page.Process` | hack/apireference/main.go:69-80 | It returns the corrected page, or fails when a link of that page has no anchor |
| `Page.ProcessedTwice` | hack/apireference/main.go:69-80 | A page that process returned comes back unchanged |
| `Page.ProcessedLines` | hack/apireference/main.go:69-139 | Each line of the result keeps its code spans, and no angle bracket of it is outside a code span and a line break |
| `CallSplit.Rewrite` | hack/callsplit/main.go:182-212 | The two loops find the line of the paren and its indent, and give the edits of the call |
| `CallSplit.IndentIs` | hack/callsplit/main.go:185-195 | The indent is the longest run of tabs and spaces at the start of the line of the paren |
| `CallSplit.Append` | hack/callsplit/main.go:160 | The built-in append writes to the array of its first argument only when the capacity leaves room |
| `CallSplit.Splice` | hack/callsplit/main.go:159-161 | One step of the edit loop gives the spliced text in a new array and writes to no old one |
| `CallSplit.ApplyAll` | hack/callsplit/main.go:158-161 | The edits in descending order of their offsets give one left-to-right weave of the source and the edits, and src is never written |
| `CallSplit.WovenWithFirst` | hack/callsplit/main.go:158-161 | An edit in front of all others is spliced in exactly where the weave has it |
| `CallSplit.SortedWeave` | hack/callsplit/main.go:157 | The weave does not depend on the order of the edits |
| `CallSplit.EditsAreDistinct` | hack/callsplit/main.go:182-212 | No two edits of well nested calls have one offset |
| `CallSplit.Process` | hack/callsplit/main.go:120-166 | It counts the split calls, writes nothing in check mode or without edits, and else writes the squeezed weave |
| `CallSplit.OffendersAre` | hack/callsplit/main.go:135-147 | The count is the number of the split calls |
| `CallSplitPass.OutputBreaks` | hack/callsplit/main.go:159-162 | Two tokens are on two lines of the output exactly when they were in the source, or an edit came between them, in spite of the replacement of double line ends |
| `CallSplitPass.UnsplitHasNoEdits` | hack/callsplit/main.go:168-180 | No edit of another call falls between the arguments of a call whose arguments are on one line |
| `CallSplitFixpoint.MovedWellFormed` | hack/callsplit/main.go:120-166 | The calls lie in the output as they lie in the source, and the commas in front of their closing parens are those of the source and those that the rewrite added |
| `CallSplitFixpoint.OnePassIsEnough` | hack/callsplit/main.go:120-166 | One pass is a fixpoint: no call of the output is split, at any nesting depth, and the next pass has no edit |
| `CallSplitFixpoint.ParsesIff` | hack/callsplit/main.go:202-210 | The output of a file that parses has at most one comma in front of each closing paren exactly when no split call closes on the line of its last argument behind a comma that stands beside something other than space; and behind the last argument of each call the output has the characters of the source and that comma, but for space |
| `CallSplitFixpoint.DoubledComma` | hack/callsplit/main.go:202-210 | A file that parses and whose output has two commas in front of a closing paren, which does not parse |
| `CallSplitFixpoint.SqueezedIff` | hack/callsplit/main.go:162 | The last replacement keeps a text exactly when it holds no comma with two line ends behind it |
| `CallSplitFixpoint.TextStaysIff` | hack/callsplit/main.go:162 | The same of the text between two tokens that no edit parts, such as that of a raw string |
| `CallSplitFixpoint.RawStringChanges` | hack/callsplit/main.go:162 | A file with a raw string that the rewrite of a call changes |
| `CallSplitPass.SplitIsOpened` | hack/callsplit/main.go:182-212 | A call that was split has its first argument below the opening paren, and the closing paren below its last argument |
| `CallSplitText.OutputIsSource` | hack/callsplit/main.go:120-166 | But for space, the whole output has the characters of the source in their order, and one comma more in front of the closing paren of each call that gets one; nothing else |
| `CallSplitText.OutputIsVisible` | hack/callsplit/main.go:120-166 | The same between any two tokens, each of which stands in its place |
| `CallSplitText.FirstArgIsIndented` | hack/callsplit/main.go:182-199 | The first argument of a split call stands on a line that starts with the indent of the line of its opening paren and a tab |
| `CallSplitText.ClosingIsIndented` | hack/callsplit/main.go:202-210 | A closing paren that stood on the line of the last argument gets a line of its own, with the indent of the line of the opening paren |
| `ExampleVersions.Pop` | hack/exampleversions/main.go:363-365 | After the pops the stack is the chain of the nearest earlier key with a smaller indentation |
| `ExampleVersions.ReadDocument` | hack/exampleversions/main.go:320-385 | Exactly the version keys that are read, each with the path of the chain of its mappings |
| `ExampleVersions.ChainIsEnclosing` | hack/exampleversions/main.go:330-382 | Each key of the chain is the nearest earlier key with a smaller indentation than the next since the last reset, and none is around the first |
| `ExampleVersions.StackIncreases` | hack/exampleversions/main.go:330-366 | The key stack always has strictly increasing indentations |
| `ExampleVersions.VersionsAre` | hack/exampleversions/main.go:368-382 | A version is found exactly when a key line that is read has that name, with the number of its line counted from one, its value, and the path of its mappings |
| `ExampleVersions.NamesAreParts` | hack/exampleversions/main.go:368-378 | The parts of a path between its dots are the names of the mappings from the outermost in, when no name has a dot |
| `ExampleVersions.ReadingIff` | hack/exampleversions/main.go:330-350 | A line of a page is read exactly when the last fence before it opens a block of YAML |
| `ExampleVersions.ChainStaysInside` | hack/exampleversions/main.go:330-366 | No mapping of a chain stands before a separator or a fence that the key stands behind |
| `Location.SameLocation` | api/v1/objectstorageconfig_types.go:546-598 | Two contracts have one location exactly when their objects are in one place, or one reads a part of the service of the other as base path |
| `Location.PlainLocations` | api/v1/objectstorageconfig_types.go:546-598 | With services without " (" that do not start with "(" the location changes exactly when the place does |
| `Location.IdentifiesIff` | api/v1/objectstorageconfig_types.go:546-598 | The location of a contract tells its place from every other exactly when neither its base path nor its service holds a " (" that starts a service |
| `Location.RegionCollides` | api/v1/objectstorageconfig_types.go:568-574 | For every bucket, base path and endpoint there is a collision with a region that holds no " (" and starts with "(" |
| `Location.SlashCollides` | api/v1/objectstorageconfig_types.go:218-228 | The names may not hold a slash: for every x, y, z and service, the bucket x/y with base path z and the bucket x with base path y/z have one location, and the API admits both |
| `Location.SameRoot` | api/v1/objectstorageconfig_types.go:563-598 | Storage type, bucket, account and container are told apart by their spelling |
| `Location.TreeMovesWithContract` | api/v1/objectstorageconfig_types.go:558-564 | A tree of objects moves exactly when the contract does |
| `Location.BaseAtRoot` | api/v1/objectstorageconfig_types.go:558-564 | An empty path yields the base path itself |
| `Location.ServiceEndpoint` | api/v1/objectstorageconfig_types.go:299-312 | The endpoint is never empty and never ends in a slash |
| `Location.TrimDropsSlashes` | api/v1/objectstorageconfig_types.go:538-546 | Trimming takes exactly the slashes at both ends |
| `Location.SlashesDoNotCount` | api/v1/objectstorageconfig_types.go:571-592 | An endpoint counts without the slashes behind it; only without one S3 takes the region and Azure the public endpoint |
| `Location.LocationTexts` | api/v1/objectstorageconfig_types.go:563-598 | The text of each location and service |

## Left out

Assumptions of the model:

- Resource versions are natural numbers, or texts that cannot be compared. A
  list and a watch of one kind follow one history in that order, and the server
  writes all watched lists in the order of their versions. A read or a list
  gives what the server has written when it is made.
- UIDs are never given out twice, and an object is in one watched list only.
- The recorder keys are a datatype, so two different keys never collide.
- The registration of a request does not change, and no other client adds the
  cleanup finalizer to a request or removes it.
- Other clients write any labels on their objects, except the label of the
  registration of echo together with a request label. They change no labels of
  the objects of echo and do not delete them. Objects of other clients have no
  owner references, and no object has finalizers of its own.
- EchoVerdicts.EchoPassesFinalizer: no other client writes objects with the
  label of the request.
- EchoLimits.ReasonLoses: its runs have no step of another client within a pass.
- The deletion theorems of echo assume current reads. The order theorems allow
  a read of a request or of the registration to give any state that occurred,
  and a read of another object to give anything.
- One controller of a registration works at a time, with one pass at a time. A
  deletion that two controllers race for is not modelled.
- Echo.Controller.ReconcileRequest: how a pass must end is said of passes without
  a lost call and without a step of another client, with current reads. Of other
  passes it is only said what a good end means.
- EchoProgress.PassesProgress: the order in which a list of Grants comes back is
  open.
- Checks.NeverServedIsReal: the states of one request have one name.
- The defects of echo, except in the Ready condition, are off.
- The grants of a request are what its templates give for its spec, as a list of
  names; the names come from a hash that is not part of this model.
- Echo.Server.Apply: server-side apply is the merge of the labels and the owner
  reference that echo writes; field managers and conflicts of fields are left
  out.
- Runs.ClaimsTellRuns: the truncated hash of a name is any function that gives
  16 characters without a dash.
- Location.SameLocation: the names of buckets, accounts and containers hold no
  slash, here and in the other theorems about two contracts.
- Fragments.EchoFollowsIff: a parameter that a template can name can be all that
  a text holds. Fragments.NothingToFillFollows: the parser takes a text without
  an opening pair of braces as it is. Fragments.SomeLibraryIsOk shows that these
  and the two placeholders of EchoWritesPlaceholder can be had at once.
- Fragments.EchoWritesExpected: the outputs of the spec, which echo fills in, and
  those of the status, which the suite does, are taken as one.
- Templates.FillTemplate: a template is its parsed node list. Parsing, printing
  of a parameter and the execution of anything but text and single field
  references are parameters of the library.
- Json.SameValueIff: a number is its mantissa and exponent; the decoder that
  reads them from digits is left out.
- Documents.RenderLeaves: the arrays and maps are values that the loops replace.
  The aliasing of the decoded document, and what is left of it after an error,
  are not modelled.
- CallSplit.Process: the parser is a list of well nested calls with the
  positions of their parts and of the commas behind their arguments. Of the
  output the characters that are no space, the places of the calls, their lines
  and those commas are judged, and not the rest of the grammar.
- Page.Process: the check of the anchors is a parameter.
- ExampleVersions.ReadDocument: a line comes classified; the regular expression
  and the trimming of quotes are left out.
- Cleanups.Suite.RunCleanup: deleteRunObjects touches no request; what it and the
  deletion of the namespace do to other objects is left out.
- Cleanups.Suite.Run: a request whose creation failed at the client can exist
  all the same. The run did not record it and does not delete it by UID.

Not modelled:

- The Kubernetes client, discovery, impersonation, log reading and the REST
  configuration.
- The static checks, the kinds, the configuration and the schema checks of the
  suite, and the wording of its errors.
- The checks of labels, resources, events, display fields, routes and logs.
- The scaling of the plugin Deployments in the registration-first check.
- The credentials and identities of object storage contracts.
- The operators of clusters, backups and archives, the fleet manager, and the
  remaining commands under hack/.
