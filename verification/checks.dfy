/** The thread of the checks that reads the recorder and the server while the
    watches run. Each verdict is proved to be true of the history. */
module Checks {
  import opened Api
  import opened Recording
  import opened Protocol

  // What the server shows of its lists.

  /** State j is the newest of its object among the first n, and no deletion. */
  predicate Shown(st: Stream, n: nat, j: nat) {
    && j < n <= |st.Feed()| && j !in st.removed
    && forall k :: j < k < n ==> st.Feed()[k].uid != st.Feed()[j].uid
  }

  /** How much of the feed of stream i a read at heads sees. */
  function Visible(setup: Setup, heads: Heads, i: nat): nat
    requires i < |setup.streams| && i < |heads|
  {
    |setup.streams[i].listed| + heads[i]
  }

  /** A read of the request at heads gives state r. */
  predicate RequestShown(setup: Setup, heads: Heads, request: string, r: nat) {
    && |setup.streams| > REQUESTS && |heads| > REQUESTS
    && Shown(setup.streams[REQUESTS], Visible(setup, heads, REQUESTS), r)
    && setup.streams[REQUESTS].Feed()[r].name == request
  }

  /** The list of kind i at views[i] holds the object of state j, by its label. */
  predicate ListedAt(setup: Setup, views: seq<Heads>, request: string, i: nat, j: nat) {
    && 2 <= i < |setup.streams| && i < |views| && i < |views[i]|
    && Shown(setup.streams[i], Visible(setup, views[i], i), j)
    && LabelOf(setup.streams[i].Feed()[j], LABEL_REQUEST) == request
  }

  /** writtenObjects: the objects of all kinds that carry the label. */
  function ListedUids(setup: Setup, views: seq<Heads>, request: string): set<Uid> {
    set i: nat, j: nat |
      i < |setup.streams| && j < |setup.streams[i].Feed()| && ListedAt(setup, views, request, i, j) ::
      setup.streams[i].Feed()[j].uid
  }

  // The checks.

  /** checkAcceptedKept for the state of the registration at index read. */
  datatype AcceptedCheck =
    Waiting(read: nat) | NoFailure(read: nat) | CaughtUp(read: nat) | KeptPassed(read: nat) | ChangeFound

  /** waitForRecorder and finalizerProblem. views are the heads of the server when
      the check read the request, twice, and then when it listed each kind. */
  datatype FinalizerCheck =
    | Polling
    | Getting
    | Got(head: Heads, wait: set<Uid>)
    | Listing(views: seq<Heads>)
    | Seeing(views: seq<Heads>, rest: set<Uid>)
    | AllSeen(views: seq<Heads>)
    | HasFinalizer(views: seq<Heads>, f: Mark)
    | FinalizerPassed(views: seq<Heads>)
    | WrongOrderFound

  /** orderVerdict. */
  datatype OrderCheck = NoOrderFailure | HasReady(ready: Mark) | OrderPassed | ServedTooEarly

  /** The thread of the checks. */
  datatype Checker =
    | Idle
    | Failed
    | Accepted(a: AcceptedCheck)
    | Finalizer(request: string, f: FinalizerCheck)
    | Order(o: OrderCheck)

  datatype AcceptedRead = PollErr | PollCaughtUp | ReadChanged

  datatype FinalizerRead =
    | PollFinalizerErr
    | GetRequest(r: nat)   // the state r of the request is the current one
    | SawRequest
    | ListKind             // the objects of the next kind with the label
    | EndLists
    | SeeObject(uid: Uid)
    | PollAgain            // a call failed, or something was not seen yet
    | GiveUp
    | CheckErr
    | ReadFinalizer
    | ReadObject

  datatype OrderRead = ReadReady | ReadServed

  datatype Check =
    | ReadRegistration
    | StartFinalizer(request: string)
    | PollOrderErr
    | AcceptedStep(ar: AcceptedRead)
    | FinalizerStep(fr: FinalizerRead)
    | OrderStep(or: OrderRead)
    | NextCheck

  // checkAcceptedKept.

  function RegistrationFeed(setup: Setup): seq<Object>
    requires |setup.streams| >= 2
  {
    setup.streams[REGISTRATION].Feed()
  }

  predicate CanReadAccepted(setup: Setup, s: Run, c: AcceptedCheck, a: AcceptedRead)
    requires Shape(setup, s)
  {
    match a
    case PollErr => c.Waiting?
    case PollCaughtUp => c.NoFailure? && c.read < |RegistrationFeed(setup)|
    case ReadChanged => c.CaughtUp?
  }

  function AfterAccepted(setup: Setup, s: Run, c: AcceptedCheck, a: AcceptedRead): AcceptedCheck
    requires Shape(setup, s) && CanReadAccepted(setup, s, c, a)
  {
    match a
    case PollErr => if s.rec.failures == [] then NoFailure(c.read) else c
    case PollCaughtUp =>
      var version := RegistrationFeed(setup)[c.read].version;
      if CaughtUpTo(s.rec, REGISTRATION_STREAM, version) then CaughtUp(c.read) else Waiting(c.read)
    case ReadChanged => if FirstMark(s.rec, AcceptedChanged).None? then KeptPassed(c.read) else ChangeFound
  }

  // checkFinalizer.

  predicate CanReadFinalizer(setup: Setup, s: Run, request: string, c: FinalizerCheck, a: FinalizerRead)
    requires Shape(setup, s)
  {
    match a
    case PollFinalizerErr => c.Polling?
    case GetRequest(r) => c.Getting? && RequestShown(setup, s.heads, request, r)
    case SawRequest => c.Got? && c.wait <= s.rec.seen
    case ListKind => c.Listing? && |c.views| < |setup.streams|
    case EndLists => c.Listing? && |c.views| == |setup.streams|
    case SeeObject(uid) => c.Seeing? && uid in c.rest && uid in s.rec.seen
    case PollAgain =>
      || c.Getting? || c.Listing?
      || (c.Got? && !(c.wait <= s.rec.seen))
      || (c.Seeing? && !(c.rest <= s.rec.seen))
    case GiveUp => c.Polling?
    case CheckErr => c.Seeing? && c.rest == {}
    case ReadFinalizer => c.AllSeen?
    case ReadObject => c.HasFinalizer?
  }

  /** None is a check that failed. */
  function AfterFinalizer(setup: Setup, s: Run, request: string, c: FinalizerCheck, a: FinalizerRead)
    : Option<FinalizerCheck>
    requires Shape(setup, s) && CanReadFinalizer(setup, s, request, c, a)
  {
    match a
    case PollFinalizerErr => Some(if s.rec.failures == [] then Getting else Polling)
    case GetRequest(r) =>
      Some(Got(s.heads, AwaitedUids(setup, r)))
    case SawRequest => Some(Listing([c.head, c.head]))
    case ListKind => Some(Listing(c.views + [s.heads]))
    case EndLists => Some(Seeing(c.views, ListedUids(setup, c.views, request)))
    case SeeObject(uid) => Some(Seeing(c.views, c.rest - {uid}))
    case PollAgain => Some(Polling)
    case GiveUp => None
    case CheckErr => if s.rec.failures == [] then Some(AllSeen(c.views)) else None
    case ReadFinalizer =>
      var f := FirstMark(s.rec, FinalizerKey(request));
      if f.Some? then Some(HasFinalizer(c.views, f.value)) else None
    case ReadObject =>
      var o := FirstMark(s.rec, ObjectKey(request));
      Some(if o.Some? && Before(o.value, c.f) then WrongOrderFound else FinalizerPassed(c.views))
  }

  /** The reads of finalizerProblem, one after the other. */
  function FinalizerEnd(setup: Setup, s: Run, request: string, views: seq<Heads>): Option<FinalizerCheck>
    requires Shape(setup, s)
  {
    var err := AfterFinalizer(setup, s, request, Seeing(views, {}), CheckErr);
    if err.None? then None
    else
      var f := AfterFinalizer(setup, s, request, err.value, ReadFinalizer);
      if f.None? then None else AfterFinalizer(setup, s, request, f.value, ReadObject)
  }

  // orderVerdict.

  predicate CanReadOrder(c: OrderCheck, a: OrderRead) {
    match a
    case ReadReady => c.NoOrderFailure?
    case ReadServed => c.HasReady?
  }

  function AfterOrder(s: Run, c: OrderCheck, a: OrderRead): Option<OrderCheck>
    requires CanReadOrder(c, a)
  {
    match a
    case ReadReady =>
      var ready := FirstMark(s.rec, RegistrationReady);
      if ready.Some? then Some(HasReady(ready.value)) else None
    case ReadServed =>
      var served := FirstMark(s.rec, RequestServed);
      if served.None? then None
      else if Before(served.value, c.ready) then Some(ServedTooEarly)
      else Some(OrderPassed)
  }

  /** The reads of orderVerdict, one after the other. */
  function OrderEnd(s: Run): Option<OrderCheck> {
    if s.rec.failures != [] then None
    else
      var ready := AfterOrder(s, NoOrderFailure, ReadReady);
      if ready.None? then None else AfterOrder(s, ready.value, ReadServed)
  }

  /** Once the recorder failed, no check gets behind its first read: checkAcceptedKept
      and waitForRecorder poll on, finalizerProblem fails, and checkRegistrationFirst
      fails. */
  lemma FailureStopsChecks(setup: Setup, m: Moment, c: Check)
    requires Shape(setup, m.run) && m.run.rec.failures != [] && CanCheck(setup, m, c)
    ensures
      match m.checker
      case Accepted(a) => (a.Waiting? && c.AcceptedStep? ==> Checked(setup, m, c) == m.checker)
      case Finalizer(request, f) =>
        && (f.Polling? && c.FinalizerStep? ==>
              Checked(setup, m, c) == m.checker || (c.fr == GiveUp && Checked(setup, m, c) == Failed))
        && (f.Seeing? && f.rest == {} && c == FinalizerStep(CheckErr) ==> Checked(setup, m, c) == Failed)
      case _ => (c.PollOrderErr? ==> Checked(setup, m, c) == Failed)
  {}

  /** When nothing comes between their reads, the checks of the machine end as the
      verdicts of the recorder do. */
  lemma ChecksEndAsVerdicts(setup: Setup, s: Run, request: string, views: seq<Heads>)
    requires Shape(setup, s)
    ensures
      FinalizerEnd(setup, s, request, views) ==
      match FinalizerVerdict(s.rec, request)
      case None => Some(FinalizerPassed(views))
      case Some(WrongOrder) => Some(WrongOrderFound)
      case Some(_) => None
    ensures
      OrderEnd(s) ==
      match OrderVerdict(s.rec)
      case None => Some(OrderPassed)
      case Some(WrongOrder) => Some(ServedTooEarly)
      case Some(_) => None
  {}

  // The machine of the watches and the checks.

  datatype Moment = Moment(run: Run, checker: Checker)

  datatype Step = System(a: Action) | Checking(c: Check)

  predicate IsVerdict(c: Checker) {
    match c
    case Idle => false
    case Failed => true
    case Accepted(a) => a.KeptPassed? || a.ChangeFound?
    case Finalizer(_, f) => f.FinalizerPassed? || f.WrongOrderFound?
    case Order(o) => o.OrderPassed? || o.ServedTooEarly?
  }

  predicate CanCheck(setup: Setup, m: Moment, c: Check)
    requires Shape(setup, m.run)
  {
    match c
    case ReadRegistration =>
      && m.checker.Idle? && Started(setup, m.run) && setup.purpose.LifecycleRun?
      && 0 < Visible(setup, m.run.heads, REGISTRATION) <= |RegistrationFeed(setup)|
      && Visible(setup, m.run.heads, REGISTRATION) - 1 !in setup.streams[REGISTRATION].removed
    case StartFinalizer(_) => m.checker.Idle? && Started(setup, m.run) && setup.purpose.LifecycleRun?
    case PollOrderErr => m.checker.Idle? && Started(setup, m.run) && setup.purpose.OrderCheck?
    case AcceptedStep(a) => m.checker.Accepted? && CanReadAccepted(setup, m.run, m.checker.a, a)
    case FinalizerStep(a) => m.checker.Finalizer? && CanReadFinalizer(setup, m.run, m.checker.request, m.checker.f, a)
    case OrderStep(a) => m.checker.Order? && CanReadOrder(m.checker.o, a)
    case NextCheck => IsVerdict(m.checker)
  }

  /** One read of the thread of the checks. */
  function Checked(setup: Setup, m: Moment, c: Check): Checker
    requires Shape(setup, m.run) && CanCheck(setup, m, c)
  {
    match c
    case ReadRegistration =>
      var read := Visible(setup, m.run.heads, REGISTRATION) - 1;
      Accepted(if KeepsAccepted(setup.Kept(), RegistrationFeed(setup)[read]) then Waiting(read) else ChangeFound)
    case StartFinalizer(request) => Finalizer(request, Polling)
    case PollOrderErr => if m.run.rec.failures == [] then Order(NoOrderFailure) else Failed
    case AcceptedStep(a) => Accepted(AfterAccepted(setup, m.run, m.checker.a, a))
    case FinalizerStep(a) =>
      var f := AfterFinalizer(setup, m.run, m.checker.request, m.checker.f, a);
      if f.Some? then Finalizer(m.checker.request, f.value) else Failed
    case OrderStep(a) =>
      var o := AfterOrder(m.run, m.checker.o, a);
      if o.Some? then Order(o.value) else Failed
    case NextCheck => Idle
  }

  ghost predicate IsStep(setup: Setup, m: Moment, x: Step, m': Moment) {
    Shape(setup, m.run) &&
    match x
    case System(a) => Enabled(setup, m.run, a) && m' == Moment(Do(setup, m.run, a), m.checker)
    case Checking(c) => CanCheck(setup, m, c) && m' == Moment(m.run, Checked(setup, m, c))
  }

  /** trace is a run of the watches and the checks under the steps. */
  ghost predicate IsCheckedTrace(setup: Setup, trace: seq<Moment>, steps: seq<Step>) {
    && setup.Valid()
    && |trace| == |steps| + 1
    && trace[0] == Moment(Initial(setup), Idle)
    && forall k {:trigger steps[k]} :: 0 <= k < |steps| ==> IsStep(setup, trace[k], steps[k], trace[k + 1])
  }

  // What the checks know so far.

  /** Some state of the request up to version n held the finalizer. */
  ghost predicate FinalizedBy(setup: Setup, request: string, n: nat) {
    exists j: nat :: KeyedUpTo(setup, REQUESTS, j, FinalizerKey(request), n)
  }

  /** Some state of the request ever holds the finalizer. */
  ghost predicate EverFinalized(setup: Setup, request: string) {
    exists m: nat :: HasKey(setup, REQUESTS, m, FinalizerKey(request))
  }

  /** Some state of the registration up to version n had Ready=True. */
  ghost predicate ReadyBy(setup: Setup, n: nat) {
    exists j: nat :: KeyedUpTo(setup, REGISTRATION, j, RegistrationReady, n)
  }

  /** Some state of stream i up to the j-th carries the label of request. */
  ghost predicate LabelledUpTo(setup: Setup, i: nat, j: nat, request: string) {
    exists k: nat :: k <= j && HasKey(setup, i, k, ObjectKey(request))
  }

  /** State k of stream i, up to the j-th, carries the label of request. */
  predicate LabelAt(setup: Setup, i: nat, k: nat, j: nat, request: string) {
    && k <= j && HasKey(setup, i, k, ObjectKey(request))
    && setup.streams[i].Feed()[k].version.Comparable?
  }

  /** State j is the first one of an object that the check listed. */
  ghost predicate FirstListed(setup: Setup, views: seq<Heads>, request: string, i: nat, j: nat) {
    IsFirstState(setup, i, j) && setup.streams[i].Feed()[j].uid in ListedUids(setup, views, request)
  }

  /** Each state with the label, at or before the first state of a listed object of
      its kind, is not earlier than the finalizer. */
  ghost predicate Clean(setup: Setup, views: seq<Heads>, request: string) {
    forall i: nat, j: nat, k: nat :: FirstListed(setup, views, request, i, j) && LabelAt(setup, i, k, j, request) ==>
      FinalizedBy(setup, request, setup.streams[i].Feed()[k].version.n)
  }

  ghost predicate RequestRead(setup: Setup, heads: Heads, request: string) {
    exists r :: RequestShown(setup, heads, request, r)
  }

  /** The recorder saw the request that the check read, when it held the
      finalizer then. */
  ghost predicate RequestSeen(setup: Setup, s: Run, heads: Heads, request: string) {
    exists r: nat :: RequestShown(setup, heads, request, r) && AwaitedUids(setup, r) <= s.rec.seen
  }

  /** What waitForRecorder waits for when it read state r of the request. */
  function AwaitedUids(setup: Setup, r: nat): set<Uid>
    requires |setup.streams| > REQUESTS && r < |setup.streams[REQUESTS].Feed()|
  {
    var req := setup.streams[REQUESTS].Feed()[r];
    if FINALIZER_CLEANUP in req.finalizers then {req.uid} else {}
  }

  /** The check read some state of the request, and waits for it. */
  ghost predicate IsAwaited(setup: Setup, heads: Heads, request: string, wait: set<Uid>) {
    exists r: nat :: RequestShown(setup, heads, request, r) && AwaitedUids(setup, r) == wait
  }

  /** Views that the check can have: of a request that exists, and then of one
      kind after the other. */
  ghost predicate ViewsOk(setup: Setup, views: seq<Heads>, request: string) {
    && 2 <= |views| <= |setup.streams| && views[0] == views[1] && RequestRead(setup, views[0], request)
    && (forall k {:trigger HeadsOk(setup, views[k])} :: 0 <= k < |views| ==> HeadsOk(setup, views[k]))
    && (forall k, l {:trigger Below(views[k], views[l])} :: 0 <= k < l < |views| ==> Below(views[k], views[l]))
  }

  ghost predicate Complete(setup: Setup, views: seq<Heads>, request: string) {
    ViewsOk(setup, views, request) && |views| == |setup.streams|
  }

  /** With these views the check of the request can pass. */
  ghost predicate MayPass(setup: Setup, views: seq<Heads>, request: string) {
    Complete(setup, views, request) && Clean(setup, views, request) && EverFinalized(setup, request)
  }

  /** An object of the request is earlier than each state of the request with the
      finalizer. */
  ghost predicate ObjectIsEarly(setup: Setup, request: string) {
    exists i: nat, j: nat, n: nat ::
      i >= 2 && KeyedUpTo(setup, i, j, ObjectKey(request), n) && !FinalizedBy(setup, request, n)
  }

  /** The request was served earlier than each state of the registration with
      Ready=True. */
  ghost predicate RequestIsEarly(setup: Setup) {
    exists j: nat, n: nat :: KeyedUpTo(setup, REQUESTS, j, RequestServed, n) && !ReadyBy(setup, n)
  }

  /** Each state in which the request was served has a state with Ready=True that
      is not later. */
  ghost predicate RequestIsLater(setup: Setup) {
    forall j: nat, n: nat :: KeyedUpTo(setup, REQUESTS, j, RequestServed, n) ==> ReadyBy(setup, n)
  }

  ghost predicate EverServed(setup: Setup) {
    exists j: nat :: HasKey(setup, REQUESTS, j, RequestServed)
  }

  predicate KeepsAt(setup: Setup, j: nat)
    requires |setup.streams| >= 2
  {
    j < |RegistrationFeed(setup)| && KeepsAccepted(setup.Kept(), RegistrationFeed(setup)[j])
  }

  /** Some state of the registration has another Accepted condition than the run
      started with, or there was none then. */
  ghost predicate AcceptedChanges(setup: Setup)
    requires |setup.streams| >= 2
  {
    exists j: nat :: j < |RegistrationFeed(setup)| && Differs(setup, RegistrationFeed(setup)[j])
  }

  predicate Differs(setup: Setup, reg: Object) {
    setup.Kept().None? || FindCondition(reg, "Accepted") != setup.Kept()
  }

  lemma KeepsIsSame(setup: Setup, reg: Object)
    ensures KeepsAccepted(setup.Kept(), reg) <==> !Differs(setup, reg)
  {
    KeptIsSame(setup.Kept(), FindCondition(reg, "Accepted"));
  }

  ghost predicate AcceptedOk(setup: Setup, s: Run, c: AcceptedCheck)
    requires Shape(setup, s)
  {
    match c
    case Waiting(read) => KeepsAt(setup, read)
    case NoFailure(read) => KeepsAt(setup, read)
    case CaughtUp(read) => KeepsAt(setup, read) && read <= s.watchers[REGISTRATION].Done()
    case KeptPassed(read) => forall j: nat :: j <= read ==> KeepsAt(setup, j)
    case ChangeFound => AcceptedChanges(setup)
  }

  ghost predicate FinalizerOk(setup: Setup, s: Run, request: string, c: FinalizerCheck) {
    match c
    case Polling => true
    case Getting => true
    case Got(head, wait) =>
      && HeadsOk(setup, head) && Below(head, s.heads) && RequestRead(setup, head, request)
      && IsAwaited(setup, head, request, wait)
    case Listing(views) =>
      && ViewsOk(setup, views, request) && Below(views[|views| - 1], s.heads)
      && RequestSeen(setup, s, views[0], request)
    case Seeing(views, rest) =>
      && Complete(setup, views, request) && ListedUids(setup, views, request) <= s.rec.seen + rest
      && RequestSeen(setup, s, views[0], request)
    case AllSeen(views) =>
      && Complete(setup, views, request) && ListedUids(setup, views, request) <= s.rec.seen
      && RequestSeen(setup, s, views[0], request)
    case HasFinalizer(views, f) =>
      && Complete(setup, views, request) && ListedUids(setup, views, request) <= s.rec.seen
      && IsLeast(setup, REQUESTS, FinalizerKey(request), f)
    case FinalizerPassed(views) => MayPass(setup, views, request)
    case WrongOrderFound => ObjectIsEarly(setup, request)
  }

  ghost predicate OrderOk(setup: Setup, c: OrderCheck) {
    match c
    case NoOrderFailure => true
    case HasReady(ready) => IsLeast(setup, REGISTRATION, RegistrationReady, ready)
    case OrderPassed => RequestIsLater(setup) && EverServed(setup)
    case ServedTooEarly => RequestIsEarly(setup)
  }

  ghost predicate CheckerOk(setup: Setup, m: Moment)
    requires Shape(setup, m.run)
  {
    match m.checker
    case Idle => true
    case Failed => true
    case Accepted(a) => setup.purpose.LifecycleRun? && AcceptedOk(setup, m.run, a)
    case Finalizer(request, f) =>
      setup.purpose.LifecycleRun? && Started(setup, m.run) && FinalizerOk(setup, m.run, request, f)
    case Order(o) => setup.purpose.OrderCheck? && Started(setup, m.run) && OrderOk(setup, o)
  }

  // The watches take nothing back that the checks know.

  lemma StartedStays(setup: Setup, s: Run, s': Run)
    requires Grows(s, s') && Started(setup, s)
    ensures Started(setup, s')
  {}

  lemma RequestSeenStays(setup: Setup, s: Run, s': Run, heads: Heads, request: string)
    requires Grows(s, s') && RequestSeen(setup, s, heads, request)
    ensures RequestSeen(setup, s', heads, request)
  {
    var r: nat :| RequestShown(setup, heads, request, r) && AwaitedUids(setup, r) <= s.rec.seen;
    assert AwaitedUids(setup, r) <= s'.rec.seen;
  }

  lemma FinalizerStays(setup: Setup, s: Run, s': Run, request: string, c: FinalizerCheck)
    requires Grows(s, s') && FinalizerOk(setup, s, request, c)
    ensures FinalizerOk(setup, s', request, c)
  {
    match c {
      case Got(head, _) => BelowTrans(head, s.heads, s'.heads);
      case Listing(views) =>
        BelowTrans(views[|views| - 1], s.heads, s'.heads);
        RequestSeenStays(setup, s, s', views[0], request);
      case Seeing(views, _) => RequestSeenStays(setup, s, s', views[0], request);
      case AllSeen(views) => RequestSeenStays(setup, s, s', views[0], request);
      case _ =>
    }
  }

  lemma CheckerStays(setup: Setup, m: Moment, s': Run)
    requires Shape(setup, m.run) && Shape(setup, s') && Grows(m.run, s') && CheckerOk(setup, m)
    ensures CheckerOk(setup, Moment(s', m.checker))
  {
    match m.checker {
      case Finalizer(request, f) =>
        StartedStays(setup, m.run, s');
        FinalizerStays(setup, m.run, s', request, f);
      case Order(_) => StartedStays(setup, m.run, s');
      case _ =>
    }
  }

  // checkAcceptedKept.

  lemma CaughtUpMeansDone(setup: Setup, s: Run, read: nat)
    requires setup.Valid() && Shape(setup, s) && ReachedOk(setup, s) && setup.purpose.LifecycleRun?
    requires read < |RegistrationFeed(setup)|
    requires CaughtUpTo(s.rec, REGISTRATION_STREAM, RegistrationFeed(setup)[read].version)
    ensures read <= s.watchers[REGISTRATION].Done()
  {
    var done := s.watchers[REGISTRATION].Done();
    if done < read {
      RegistrationIncreases(setup, done, read);
    }
  }

  lemma NoChangeSeen(setup: Setup, s: Run, read: nat)
    requires setup.Valid() && Shape(setup, s) && RecordsArrivals(setup, s) && InOrder(setup, s)
    requires setup.purpose.LifecycleRun? && KeepsAt(setup, read) && read <= s.watchers[REGISTRATION].Done()
    requires AcceptedChanged !in s.rec.marks
    ensures forall j: nat :: j <= read ==> KeepsAt(setup, j)
  {
    forall j: nat | j < read ensures KeepsAt(setup, j) {
      if setup.streams[REGISTRATION].Keyed(j) {
        ArrivedHasMark(setup, s, REGISTRATION, j);
      }
    }
  }

  /** The mark of a change is that of a state that lacks the kept condition. */
  lemma ChangeIsState(setup: Setup, s: Run)
    requires setup.Valid() && RecordsArrivals(setup, s) && InOrder(setup, s) && setup.purpose.LifecycleRun?
    requires AcceptedChanged in s.rec.marks
    ensures AcceptedChanges(setup)
  {
    var i, j := MarkHasArrived(setup, s, AcceptedChanged);
    assert i == REGISTRATION;
    KeepsIsSame(setup, RegistrationFeed(setup)[j]);
  }

  lemma AcceptedKeeps(setup: Setup, s: Run, c: AcceptedCheck, a: AcceptedRead)
    requires setup.Valid() && Inv(setup, s) && setup.purpose.LifecycleRun?
    requires AcceptedOk(setup, s, c) && CanReadAccepted(setup, s, c, a)
    ensures AcceptedOk(setup, s, AfterAccepted(setup, s, c, a))
  {
    match a {
      case PollErr =>
      case PollCaughtUp =>
        if CaughtUpTo(s.rec, REGISTRATION_STREAM, RegistrationFeed(setup)[c.read].version) {
          CaughtUpMeansDone(setup, s, c.read);
        }
      case ReadChanged =>
        if AcceptedChanged in s.rec.marks {
          ChangeIsState(setup, s);
        } else {
          NoChangeSeen(setup, s, c.read);
        }
    }
  }

  // checkFinalizer.

  lemma FirstViews(setup: Setup, head: Heads, request: string)
    requires HeadsOk(setup, head) && RequestRead(setup, head, request) && |setup.streams| >= 2
    ensures ViewsOk(setup, [head, head], request)
  {}

  lemma MoreViews(setup: Setup, views: seq<Heads>, request: string, heads: Heads)
    requires ViewsOk(setup, views, request) && |views| < |setup.streams|
    requires HeadsOk(setup, heads) && Below(views[|views| - 1], heads)
    ensures ViewsOk(setup, views + [heads], request)
  {
    var more := views + [heads];
    forall k, l | 0 <= k < l < |more| ensures Below(more[k], more[l]) {
      if l == |views| && k < |views| - 1 {
        BelowTrans(views[k], views[|views| - 1], heads);
      }
    }
  }

  /** A state with the label that arrived is not earlier than the finalizer. */
  lemma LabelIsLater(setup: Setup, s: Run, i: nat, k: nat, request: string, f: Mark)
    requires setup.Valid() && RecordsArrivals(setup, s) && InOrder(setup, s)
    requires IsLeast(setup, REQUESTS, FinalizerKey(request), f)
    requires
      var o := FirstMark(s.rec, ObjectKey(request));
      o.Some? ==> !Before(o.value, f)
    requires i < |setup.streams| && k < s.watchers[i].Done() && HasKey(setup, i, k, ObjectKey(request))
    ensures FinalizedBy(setup, request, setup.streams[i].Feed()[k].version.n)
  {
    ArrivedHasMark(setup, s, i, k);
    var m: nat :| KeyedUpTo(setup, REQUESTS, m, FinalizerKey(request), f.version.n);
    assert KeyedUpTo(setup, REQUESTS, m, FinalizerKey(request), setup.streams[i].Feed()[k].version.n);
  }

  lemma OrderHolds(setup: Setup, s: Run, request: string, views: seq<Heads>, f: Mark)
    requires setup.Valid() && setup.DistinctObjects() && RecordsArrivals(setup, s) && InOrder(setup, s)
    requires ListedUids(setup, views, request) <= s.rec.seen && IsLeast(setup, REQUESTS, FinalizerKey(request), f)
    requires
      var o := FirstMark(s.rec, ObjectKey(request));
      o.Some? ==> !Before(o.value, f)
    ensures Clean(setup, views, request)
  {
    forall i: nat, j: nat, k: nat | FirstListed(setup, views, request, i, j) && LabelAt(setup, i, k, j, request)
      ensures FinalizedBy(setup, request, setup.streams[i].Feed()[k].version.n)
    {
      SeenHasFirstState(setup, s, i, j);
      LabelIsLater(setup, s, i, k, request, f);
    }
  }

  lemma OrderPasses(setup: Setup, s: Run, request: string, views: seq<Heads>, f: Mark)
    requires setup.Valid() && setup.DistinctObjects() && RecordsArrivals(setup, s) && InOrder(setup, s)
    requires FinalizerOk(setup, s, request, HasFinalizer(views, f))
    requires
      var o := FirstMark(s.rec, ObjectKey(request));
      o.Some? ==> !Before(o.value, f)
    ensures MayPass(setup, views, request)
  {
    OrderHolds(setup, s, request, views, f);
    LeastOccurs(setup, request, f);
  }

  lemma LeastOccurs(setup: Setup, request: string, f: Mark)
    requires IsLeast(setup, REQUESTS, FinalizerKey(request), f)
    ensures EverFinalized(setup, request)
  {
    var m: nat :| KeyedUpTo(setup, REQUESTS, m, FinalizerKey(request), f.version.n);
  }

  lemma NothingBelowLeast(setup: Setup, i: nat, key: Key, m: Mark, n: nat)
    requires IsLeast(setup, i, key, m) && n < m.version.n
    ensures forall j: nat :: !KeyedUpTo(setup, i, j, key, n)
  {
    assert forall j: nat :: HasKey(setup, i, j, key) ==> IsFrom(setup.streams[i].Feed()[j].version, m.version.n);
  }

  /** A reported object is earlier than each state with the finalizer. */
  lemma EarlyObjectIsReal(setup: Setup, s: Run, request: string, f: Mark)
    requires setup.Valid() && RecordsArrivals(setup, s) && InOrder(setup, s)
    requires setup.purpose.LifecycleRun? && IsLeast(setup, REQUESTS, FinalizerKey(request), f)
    requires ObjectKey(request) in s.rec.marks && Before(s.rec.marks[ObjectKey(request)], f)
    ensures ObjectIsEarly(setup, request)
  {
    var i, j := MarkHasArrived(setup, s, ObjectKey(request));
    var n := s.rec.marks[ObjectKey(request)].version.n;
    assert i >= 2 && KeyedUpTo(setup, i, j, ObjectKey(request), n);
    NothingBelowLeast(setup, REQUESTS, FinalizerKey(request), f, n);
  }

  lemma AwaitedIsSeen(setup: Setup, s: Run, head: Heads, request: string, wait: set<Uid>)
    requires IsAwaited(setup, head, request, wait) && wait <= s.rec.seen
    ensures RequestSeen(setup, s, head, request)
  {
    var r: nat :| RequestShown(setup, head, request, r) && AwaitedUids(setup, r) == wait;
    assert AwaitedUids(setup, r) <= s.rec.seen;
  }

  /** The steps of waitForRecorder. */
  lemma PollKeeps(setup: Setup, s: Run, request: string, c: FinalizerCheck, a: FinalizerRead)
    requires Shape(setup, s) && HeadsOk(setup, s.heads) && FinalizerOk(setup, s, request, c)
    requires CanReadFinalizer(setup, s, request, c, a) && !a.ReadFinalizer? && !a.ReadObject?
    ensures
      var c' := AfterFinalizer(setup, s, request, c, a);
      c'.Some? ==> FinalizerOk(setup, s, request, c'.value)
  {
    match a {
      case GetRequest(r) => assert RequestShown(setup, s.heads, request, r);
      case SawRequest =>
        FirstViews(setup, c.head, request);
        AwaitedIsSeen(setup, s, c.head, request, c.wait);
      case ListKind => MoreViews(setup, c.views, request, s.heads);
      case _ =>
    }
  }

  lemma ReadFinalizerKeeps(setup: Setup, s: Run, request: string, c: FinalizerCheck)
    requires setup.Valid() && Shape(setup, s) && Started(setup, s) && setup.purpose.LifecycleRun?
    requires RecordsArrivals(setup, s) && InOrder(setup, s) && c.AllSeen? && FinalizerOk(setup, s, request, c)
    ensures
      var c' := AfterFinalizer(setup, s, request, c, ReadFinalizer);
      c'.Some? ==> FinalizerOk(setup, s, request, c'.value)
  {
    if FinalizerKey(request) in s.rec.marks {
      MarkIsLeast(setup, s, REQUESTS, FinalizerKey(request));
    }
  }

  lemma ReadObjectKeeps(setup: Setup, s: Run, request: string, c: FinalizerCheck)
    requires setup.Valid() && setup.DistinctObjects() && Shape(setup, s) && setup.purpose.LifecycleRun?
    requires RecordsArrivals(setup, s) && InOrder(setup, s) && c.HasFinalizer? && FinalizerOk(setup, s, request, c)
    ensures
      var c' := AfterFinalizer(setup, s, request, c, ReadObject);
      c'.Some? ==> FinalizerOk(setup, s, request, c'.value)
  {
    var o := FirstMark(s.rec, ObjectKey(request));
    if o.Some? && Before(o.value, c.f) {
      EarlyObjectIsReal(setup, s, request, c.f);
    } else {
      OrderPasses(setup, s, request, c.views, c.f);
    }
  }

  lemma FinalizerKeeps(setup: Setup, s: Run, request: string, c: FinalizerCheck, a: FinalizerRead)
    requires setup.Valid() && setup.DistinctObjects() && Inv(setup, s) && Started(setup, s)
    requires setup.purpose.LifecycleRun? && FinalizerOk(setup, s, request, c)
    requires CanReadFinalizer(setup, s, request, c, a)
    ensures
      var c' := AfterFinalizer(setup, s, request, c, a);
      c'.Some? ==> FinalizerOk(setup, s, request, c'.value)
  {
    if a.ReadFinalizer? {
      ReadFinalizerKeeps(setup, s, request, c);
    } else if a.ReadObject? {
      ReadObjectKeeps(setup, s, request, c);
    } else {
      PollKeeps(setup, s, request, c, a);
    }
  }

  // orderVerdict.

  lemma EarlyRequestIsReal(setup: Setup, served: Mark, ready: Mark)
    requires IsLeast(setup, REQUESTS, RequestServed, served) && IsLeast(setup, REGISTRATION, RegistrationReady, ready)
    requires Before(served, ready)
    ensures RequestIsEarly(setup)
  {
    var j: nat :| KeyedUpTo(setup, REQUESTS, j, RequestServed, served.version.n);
    NothingBelowLeast(setup, REGISTRATION, RegistrationReady, ready, served.version.n);
  }

  lemma ServedIsAfterReady(setup: Setup, served: Mark, ready: Mark)
    requires IsLeast(setup, REQUESTS, RequestServed, served) && IsLeast(setup, REGISTRATION, RegistrationReady, ready)
    requires !Before(served, ready)
    ensures RequestIsLater(setup) && EverServed(setup)
  {
    var first: nat :| KeyedUpTo(setup, REQUESTS, first, RequestServed, served.version.n);
    assert HasKey(setup, REQUESTS, first, RequestServed);
    forall j: nat, n: nat | KeyedUpTo(setup, REQUESTS, j, RequestServed, n) ensures ReadyBy(setup, n) {
      assert IsFrom(setup.streams[REQUESTS].Feed()[j].version, served.version.n);
      var k: nat :| KeyedUpTo(setup, REGISTRATION, k, RegistrationReady, ready.version.n);
      assert KeyedUpTo(setup, REGISTRATION, k, RegistrationReady, n);
    }
  }

  lemma OrderKeeps(setup: Setup, s: Run, c: OrderCheck, a: OrderRead)
    requires setup.Valid() && Inv(setup, s) && Started(setup, s) && setup.purpose.OrderCheck?
    requires OrderOk(setup, c) && CanReadOrder(c, a)
    ensures
      var c' := AfterOrder(s, c, a);
      c'.Some? ==> OrderOk(setup, c'.value)
  {
    match a {
      case ReadReady =>
        if RegistrationReady in s.rec.marks {
          MarkIsLeast(setup, s, REGISTRATION, RegistrationReady);
        }
      case ReadServed =>
        if RequestServed in s.rec.marks {
          MarkIsLeast(setup, s, REQUESTS, RequestServed);
          if Before(s.rec.marks[RequestServed], c.ready) {
            EarlyRequestIsReal(setup, s.rec.marks[RequestServed], c.ready);
          } else {
            ServedIsAfterReady(setup, s.rec.marks[RequestServed], c.ready);
          }
        }
    }
  }

  // Every reachable moment.

  lemma CheckStarts(setup: Setup, m: Moment, c: Check)
    requires Shape(setup, m.run) && CheckerOk(setup, m) && CanCheck(setup, m, c)
    requires !c.AcceptedStep? && !c.FinalizerStep? && !c.OrderStep?
    ensures CheckerOk(setup, Moment(m.run, Checked(setup, m, c)))
  {
    if c.ReadRegistration? {
      var read := Visible(setup, m.run.heads, REGISTRATION) - 1;
      KeepsIsSame(setup, RegistrationFeed(setup)[read]);
      assert KeepsAt(setup, read) || AcceptedChanges(setup);
    }
  }

  lemma CheckKeeps(setup: Setup, m: Moment, c: Check)
    requires setup.Valid() && setup.DistinctObjects() && Inv(setup, m.run) && CheckerOk(setup, m)
    requires CanCheck(setup, m, c)
    ensures CheckerOk(setup, Moment(m.run, Checked(setup, m, c)))
  {
    match c {
      case AcceptedStep(a) => AcceptedKeeps(setup, m.run, m.checker.a, a);
      case FinalizerStep(a) => FinalizerKeeps(setup, m.run, m.checker.request, m.checker.f, a);
      case OrderStep(a) => OrderKeeps(setup, m.run, m.checker.o, a);
      case _ => CheckStarts(setup, m, c);
    }
  }

  ghost predicate MomentOk(setup: Setup, m: Moment)
    requires setup.Valid()
  {
    Inv(setup, m.run) && CheckerOk(setup, m)
  }

  lemma IsStepKeeps(setup: Setup, m: Moment, x: Step, m': Moment)
    requires setup.Valid() && setup.DistinctObjects() && MomentOk(setup, m) && IsStep(setup, m, x, m')
    ensures MomentOk(setup, m')
  {
    match x {
      case System(a) =>
        StepKeeps(setup, m.run, a);
        StepGrows(setup, m.run, a);
        CheckerStays(setup, m, m'.run);
      case Checking(c) => CheckKeeps(setup, m, c);
    }
  }

  lemma FirstIsOk(setup: Setup, m: Moment)
    requires setup.Valid() && m == Moment(Initial(setup), Idle)
    ensures MomentOk(setup, m)
  {
    InitialInv(setup);
  }

  lemma MomentMoves(setup: Setup, trace: seq<Moment>, steps: seq<Step>, k: nat)
    requires IsCheckedTrace(setup, trace, steps) && setup.DistinctObjects()
    requires 0 < k < |trace| && MomentOk(setup, trace[k - 1])
    ensures MomentOk(setup, trace[k])
  {
    assert IsStep(setup, trace[k - 1], steps[k - 1], trace[k - 1 + 1]);
    IsStepKeeps(setup, trace[k - 1], steps[k - 1], trace[k]);
  }

  lemma {:induction false} MomentIsOk(setup: Setup, trace: seq<Moment>, steps: seq<Step>, k: nat)
    requires IsCheckedTrace(setup, trace, steps) && setup.DistinctObjects() && k < |trace|
    ensures MomentOk(setup, trace[k])
  {
    if k == 0 {
      FirstIsOk(setup, trace[k]);
    } else {
      MomentIsOk(setup, trace, steps, k - 1);
      MomentMoves(setup, trace, steps, k);
    }
  }

  // The theorems.

  /** When checkAcceptedKept passes, the registration had the Accepted condition
      of prepare in every state from the first list up to the state that the
      check read. */
  lemma AcceptedKeptIsTrue(setup: Setup, trace: seq<Moment>, steps: seq<Step>, k: nat, read: nat, j: nat)
    requires IsCheckedTrace(setup, trace, steps) && setup.DistinctObjects() && k < |trace|
    requires trace[k].checker == Accepted(KeptPassed(read)) && j <= read
    ensures j < |RegistrationFeed(setup)|
    ensures setup.Kept().Some? && FindCondition(RegistrationFeed(setup)[j], "Accepted") == setup.Kept()
  {
    MomentIsOk(setup, trace, steps, k);
    assert KeepsAt(setup, j);
    KeepsIsSame(setup, RegistrationFeed(setup)[j]);
  }

  /** When waitForRecorder and then finalizerProblem pass, and the label of the
      request occurred by the first watched state of an object that the check
      listed, then some state of the request with the finalizer is not later
      than that first state. */
  lemma FinalizerVerdictIsTrue(
      setup: Setup, trace: seq<Moment>, steps: seq<Step>, k: nat, request: string, views: seq<Heads>, i: nat, j: nat)
    requires IsCheckedTrace(setup, trace, steps) && setup.DistinctObjects() && k < |trace|
    requires trace[k].checker == Finalizer(request, FinalizerPassed(views))
    requires FirstListed(setup, views, request, i, j) && LabelledUpTo(setup, i, j, request)
    ensures setup.streams[i].Feed()[j].version.Comparable?
    ensures FinalizedBy(setup, request, setup.streams[i].Feed()[j].version.n)
  {
    MomentIsOk(setup, trace, steps, k);
    PassedMayPass(setup, trace[k], request, views);
    CleanIsLater(setup, views, request, i, j);
  }

  lemma PassedMayPass(setup: Setup, m: Moment, request: string, views: seq<Heads>)
    requires Shape(setup, m.run) && CheckerOk(setup, m) && m.checker == Finalizer(request, FinalizerPassed(views))
    ensures MayPass(setup, views, request)
  {
    assert FinalizerOk(setup, m.run, request, FinalizerPassed(views));
  }

  lemma CleanIsLater(setup: Setup, views: seq<Heads>, request: string, i: nat, j: nat)
    requires setup.Valid() && Clean(setup, views, request)
    requires FirstListed(setup, views, request, i, j) && LabelledUpTo(setup, i, j, request)
    ensures setup.streams[i].Feed()[j].version.Comparable?
    ensures FinalizedBy(setup, request, setup.streams[i].Feed()[j].version.n)
  {
    var k: nat :| k <= j && HasKey(setup, i, k, ObjectKey(request));
    FeedVersion(setup, i, k);
    FeedVersion(setup, i, j);
    assert LabelAt(setup, i, k, j, request);
    if k < j {
      KindStream(setup, i);
      LaterInFeed(setup.streams[i], k, j);
    }
    FinalizedLater(setup, request, setup.streams[i].Feed()[k].version.n, setup.streams[i].Feed()[j].version.n);
  }

  lemma FinalizedLater(setup: Setup, request: string, n: nat, v: nat)
    requires FinalizedBy(setup, request, n) && n <= v
    ensures FinalizedBy(setup, request, v)
  {
    var m: nat :| KeyedUpTo(setup, REQUESTS, m, FinalizerKey(request), n);
    assert KeyedUpTo(setup, REQUESTS, m, FinalizerKey(request), v);
  }

  /** When orderVerdict passes, at any moment, no state in which the request was
      served is earlier than each state of the registration with Ready=True. */
  lemma OrderVerdictIsTrue(setup: Setup, trace: seq<Moment>, steps: seq<Step>, k: nat, j: nat)
    requires IsCheckedTrace(setup, trace, steps) && setup.DistinctObjects() && k < |trace|
    requires trace[k].checker == Order(OrderPassed) && HasKey(setup, REQUESTS, j, RequestServed)
    ensures setup.streams[REQUESTS].Feed()[j].version.Comparable?
    ensures ReadyBy(setup, setup.streams[REQUESTS].Feed()[j].version.n)
  {
    MomentIsOk(setup, trace, steps, k);
    FeedVersion(setup, REQUESTS, j);
    assert KeyedUpTo(setup, REQUESTS, j, RequestServed, setup.streams[REQUESTS].Feed()[j].version.n);
  }

  /** A request keeps its name. */
  ghost predicate NamesStay(setup: Setup)
    requires |setup.streams| > REQUESTS
  {
    var feed := setup.streams[REQUESTS].Feed();
    forall j, k :: 0 <= j < |feed| && 0 <= k < |feed| && feed[j].uid == feed[k].uid ==> feed[j].name == feed[k].name
  }

  /** A request whose finalizer the recorder saw has its mark. */
  lemma SeenRequestIsMarked(setup: Setup, s: Run, r: nat)
    requires setup.Valid() && setup.DistinctObjects() && setup.purpose.LifecycleRun? && NamesStay(setup)
    requires RecordsArrivals(setup, s) && InOrder(setup, s)
    requires r < |setup.streams[REQUESTS].Feed()| && setup.streams[REQUESTS].Feed()[r].uid in s.rec.seen
    ensures FinalizerKey(setup.streams[REQUESTS].Feed()[r].name) in s.rec.marks
  {
    var a := SeenHasArrived(setup, s, setup.streams[REQUESTS].Feed()[r].uid);
    SameStream(setup, a.stream, a.index, REQUESTS, r);
    assert Arrival(a.stream, a.index) in s.arrived;
    ArrivedHasMark(setup, s, a.stream, a.index);
  }

  /** A read of the request at heads gives a state without the finalizer. */
  ghost predicate ReadUnserved(setup: Setup, heads: Heads, request: string) {
    exists r: nat ::
      RequestShown(setup, heads, request, r) &&
      FINALIZER_CLEANUP !in setup.streams[REQUESTS].Feed()[r].finalizers
  }

  lemma SomeSeen(setup: Setup, s: Run, heads: Heads, request: string)
    requires setup.Valid() && setup.DistinctObjects() && setup.purpose.LifecycleRun? && NamesStay(setup)
    requires RecordsArrivals(setup, s) && InOrder(setup, s) && RequestSeen(setup, s, heads, request)
    ensures FinalizerKey(request) in s.rec.marks || ReadUnserved(setup, heads, request)
  {
    var r: nat :| RequestShown(setup, heads, request, r) && AwaitedUids(setup, r) <= s.rec.seen;
    var req := setup.streams[REQUESTS].Feed()[r];
    if FINALIZER_CLEANUP in req.finalizers {
      assert req.uid in AwaitedUids(setup, r);
      SeenRequestIsMarked(setup, s, r);
    }
  }

  lemma AllSeenIsRead(setup: Setup, m: Moment, request: string, views: seq<Heads>)
    requires setup.Valid() && MomentOk(setup, m) && m.checker == Finalizer(request, AllSeen(views))
    ensures setup.purpose.LifecycleRun? && views != [] && RequestSeen(setup, m.run, views[0], request)
    ensures RecordsArrivals(setup, m.run) && InOrder(setup, m.run)
  {
    assert FinalizerOk(setup, m.run, request, AllSeen(views));
  }

  lemma UnmarkedIsUnserved(setup: Setup, m: Moment, request: string, views: seq<Heads>)
    requires setup.Valid() && setup.DistinctObjects() && NamesStay(setup)
    requires MomentOk(setup, m) && m.checker == Finalizer(request, AllSeen(views))
    requires FirstMark(m.run.rec, FinalizerKey(request)).None?
    ensures views != [] && ReadUnserved(setup, views[0], request)
  {
    AllSeenIsRead(setup, m, request, views);
    SomeSeen(setup, m.run, views[0], request);
  }

  /** finalizerProblem reports that a request was never served only when the
      request did not hold the finalizer when the check read it. */
  lemma NeverServedIsReal(
      setup: Setup, trace: seq<Moment>, steps: seq<Step>, k: nat, request: string, views: seq<Heads>)
    requires IsCheckedTrace(setup, trace, steps) && setup.DistinctObjects() && k < |trace| && NamesStay(setup)
    requires trace[k].checker == Finalizer(request, AllSeen(views))
    requires FirstMark(trace[k].run.rec, FinalizerKey(request)).None?
    ensures views != [] && ReadUnserved(setup, views[0], request)
  {
    MomentIsOk(setup, trace, steps, k);
    UnmarkedIsUnserved(setup, trace[k], request, views);
  }

  /** Each violation that a check reports is one of the history. */
  lemma ViolationsAreReal(setup: Setup, trace: seq<Moment>, steps: seq<Step>, k: nat)
    requires IsCheckedTrace(setup, trace, steps) && setup.DistinctObjects() && k < |trace|
    ensures
      match trace[k].checker
      case Accepted(ChangeFound) => |setup.streams| >= 2 && AcceptedChanges(setup)
      case Finalizer(request, WrongOrderFound) => ObjectIsEarly(setup, request)
      case Order(ServedTooEarly) => RequestIsEarly(setup)
      case _ => true
  {
    MomentIsOk(setup, trace, steps, k);
  }
}
