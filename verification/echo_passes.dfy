/** The passes of echo as a machine: the writes of each pass in their order, each
    pass lost at any of them, and steps of other clients between two passes. Each
    run of this machine is one of the controller and its server. */
module EchoPasses {
  import opened Api
  import opened Cluster
  import opened EchoCalls

  /** A pass for the request h that has made the first at of its calls. */
  datatype Todo = Todo(h: ReqKey, calls: seq<Call>, at: nat)

  datatype Node = Node(w: World, todo: Option<Todo>)

  /** Stop ends a pass, or loses it between two of its calls. */
  datatype Move = Client(s: Step) | Begin(h: ReqKey, listed: seq<ObjKey>) | Next | Stop

  ghost predicate CanMove(n: Node, m: Move) {
    match m
    case Client(s) => n.todo.None? && CanStep(n.w, s)
    case Begin(h, listed) => n.todo.None? && CanBegin(n.w, h, listed)
    case Next =>
      n.todo.Some? && var t := n.todo.value;
      t.at < |t.calls| && CanCall(n.w, t.h, t.calls[t.at])
    case Stop => n.todo.Some?
  }

  ghost function Moved(n: Node, m: Move): Node
    requires CanMove(n, m)
  {
    match m
    case Client(s) => Node(Stepped(n.w, s), None)
    case Begin(h, listed) => Node(n.w, Some(Todo(h, PassCalls(n.w, h, listed), 0)))
    case Next =>
      var t := n.todo.value;
      Node(Called(n.w, t.h, t.calls[t.at]), Some(t.(at := t.at + 1)))
    case Stop => Node(n.w, None)
  }

  ghost predicate NodeOk(opts: Options, n: Node) {
    Inv(n.w) && n.w.currentReads && n.w.opts == opts
  }

  /** Each call keeps the invariant. */
  lemma CallKeeps(w: World, h: ReqKey, c: Call)
    requires Inv(w) && w.currentReads && CanCall(w, h, c)
    ensures Inv(Called(w, h, c)) && Called(w, h, c).currentReads && Called(w, h, c).opts == w.opts
  {
    match c {
      case AddFinalizer => RequestCallKeeps(w, h, c);
      case WriteRows => RequestCallKeeps(w, h, c);
      case ApplyAt(k) =>
        OccurredInOrder(w.history, WroteRequest(w.requests[h]));
        ApplyKeeps(w, k, w.requests[h]);
      case TakeAt(k) =>
        if HasHome(w, k, h) {
          DropObjectKeeps(w, k, TakeWrite(w, k, w.requests[h]));
        }
      case ReleaseAt(k) =>
        if k in w.objects {
          ReleaseKeeps(w, k, w.objects[k].owners - {w.requests[h].uid});
        }
      case DropFinalizer => FinishKeeps(w, h);
    }
  }

  lemma RequestCallKeeps(w: World, h: ReqKey, c: Call)
    requires Inv(w) && w.currentReads && CanCall(w, h, c) && (c.AddFinalizer? || c.WriteRows?)
    ensures Inv(Called(w, h, c))
  {
    var r := w.requests[h];
    var next := Called(w, h, c).requests[h];
    OccurredInOrder(w.history, WroteRequest(r));
    assert RequestOk(w, h, r);
    if Called(w, h, c) != w {
      if c.AddFinalizer? {
        RowsStay(w.opts, r, next);
      }
      PutRequestKeeps(w, next);
    }
  }

  lemma MoveKeeps(opts: Options, n: Node, m: Move)
    requires NodeOk(opts, n) && CanMove(n, m)
    ensures NodeOk(opts, Moved(n, m))
  {
    match m {
      case Client(s) => StepInv(n.w, s);
      case Next => CallKeeps(n.w, n.todo.value.h, n.todo.value.calls[n.todo.value.at]);
      case _ =>
    }
  }

  /** Some run from the empty cluster ends in n. */
  ghost predicate Reached(opts: Options, n: Node) {
    exists trace: seq<Node>, moves: seq<Move> :: IsRun(opts, trace, moves, n)
  }

  function Empty(opts: Options): Node {
    Node(EmptyCluster(opts, true), None)
  }

  ghost predicate IsRun(opts: Options, trace: seq<Node>, moves: seq<Move>, n: Node) {
    && |trace| == |moves| + 1
    && trace[0] == Empty(opts) && trace[|moves|] == n
    && forall i {:trigger moves[i]} :: 0 <= i < |moves| ==>
         CanMove(trace[i], moves[i]) && trace[i + 1] == Moved(trace[i], moves[i])
  }

  lemma RunGrows(opts: Options, trace: seq<Node>, moves: seq<Move>, n: Node, m: Move, n': Node)
    requires IsRun(opts, trace, moves, n) && CanMove(n, m) && n' == Moved(n, m)
    ensures IsRun(opts, trace + [n'], moves + [m], n')
  {
    var t, b := trace + [n'], moves + [m];
    forall i | 0 <= i < |b| ensures CanMove(t[i], b[i]) && t[i + 1] == Moved(t[i], b[i]) {
      if i < |moves| {
        assert t[i] == trace[i] && t[i + 1] == trace[i + 1] && b[i] == moves[i];
      }
    }
  }

  lemma {:induction false} RunOk(opts: Options, trace: seq<Node>, moves: seq<Move>, n: Node, i: nat)
    requires IsRun(opts, trace, moves, n) && i < |trace|
    ensures NodeOk(opts, trace[i])
  {
    if i > 0 {
      RunOk(opts, trace, moves, n, i - 1);
      assert CanMove(trace[i - 1], moves[i - 1]) && trace[i - 1 + 1] == Moved(trace[i - 1], moves[i - 1]);
      MoveKeeps(opts, trace[i - 1], moves[i - 1]);
    }
  }

  lemma ReachedOk(opts: Options, n: Node)
    requires Reached(opts, n)
    ensures NodeOk(opts, n)
  {
    var trace: seq<Node>, moves: seq<Move> :| IsRun(opts, trace, moves, n);
    RunOk(opts, trace, moves, n, |moves|);
  }

  lemma ReachedFirst(opts: Options)
    ensures Reached(opts, Empty(opts))
  {
    assert IsRun(opts, [Empty(opts)], [], Empty(opts));
  }

  lemma ReachedNext(opts: Options, n: Node, m: Move) returns (n': Node)
    requires Reached(opts, n) && CanMove(n, m)
    ensures n' == Moved(n, m) && Reached(opts, n') && NodeOk(opts, n')
  {
    n' := Moved(n, m);
    var trace: seq<Node>, moves: seq<Move> :| IsRun(opts, trace, moves, n);
    RunGrows(opts, trace, moves, n, m, n');
    ReachedOk(opts, n');
  }
}
