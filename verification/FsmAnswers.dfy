/**
 Which answer the Raft process gets to its requests, over whole runs: what the
 client's apply returned, whether a restore was loaded, whether a snapshot was
 written or, if the client completed it itself, what it said.
 */
module FsmAnswers {
  import opened CallSlots
  import opened FsmProtocol
  import opened FsmSafety
  import opened FsmRuns

  /** The FSM worker has this answer in hand or has given it. */
  ghost predicate Expects<S>(r: Request<S>, a: Answer) {
    match r.worker
    case Ran(x) => x == a
    case Syncing(ok) => a == Fails(if ok then NoError else Other)
    case Queued => false
    case Taken => false
    case Entered => false
    case _ => r.snap == NoJob && r.replies == 1 && (r.memory.Slot? ==> Terminal(r.memory.call) && Shows(r.memory.call, r.memory.call.retval, a))
  }

  /** The snapshot worker is past its write. */
  predicate WasTried(p: SnapPc) {
    p.Wrote? || p.Locking? || p == Replied || p == Finished
  }

  /** What no later step changes. */
  ghost predicate Lasts<S>(r: Request<S>, n: Request<S>, a: Answer) {
    && n.kind == r.kind && (Expects(r, a) ==> Expects(n, a))
    && (WasTried(r.snap) ==> WasTried(n.snap) && n.written == r.written)
  }

  lemma WorkerLasts<S>(r: Request<S>, b: Step<S>, fsm: S, apply: (S, string) -> S, a: Answer)
    requires RequestOk(r) && WorkerLocal(r, b, fsm, apply).Ok?
    ensures Lasts(r, WorkerLocal(r, b, fsm, apply).request, a)
  {
  }

  lemma SnapLasts<S>(r: Request<S>, b: Step<S>, fsm: S, a: Answer)
    requires RequestOk(r) && SnapLocal(r, b, fsm).Ok?
    ensures Lasts(r, SnapLocal(r, b, fsm).request, a)
  {
  }

  lemma RaftLasts<S>(r: Request<S>, fsm: S, a: Answer)
    requires RequestOk(r) && RaftLocal(r, fsm).Ok?
    ensures Lasts(r, RaftLocal(r, fsm).request, a)
  {
  }

  /** The ways a step can change the record of `id`. */
  ghost predicate MadeBy<S>(s: State<S>, b: Step<S>, id: Id, n: Request<S>, apply: (S, string) -> S)
    requires id < |s.reqs|
  {
    var r := s.reqs[id];
    || n == r
    || (WorkerLocal(r, b, s.fsm, apply).Ok? && n == WorkerLocal(r, b, s.fsm, apply).request)
    || (SnapLocal(r, b, s.fsm).Ok? && n == SnapLocal(r, b, s.fsm).request)
    || (RaftLocal(r, s.fsm).Ok? && n == RaftLocal(r, s.fsm).request)
  }

  lemma RequestAfter<S>(s: State<S>, b: Step<S>, id: Id, apply: (S, string) -> S)
    requires Do(s, b, apply).Moved? && id < |s.reqs|
    ensures id < |Do(s, b, apply).next.reqs| && MadeBy(s, b, id, Do(s, b, apply).next.reqs[id], apply)
  {
  }

  lemma StepLasts<S>(s: State<S>, b: Step<S>, id: Id, init: S, apply: (S, string) -> S, a: Answer)
    requires Inv(s, init, apply) && Do(s, b, apply).Moved? && id < |s.reqs|
    ensures id < |Do(s, b, apply).next.reqs| && Lasts(s.reqs[id], Do(s, b, apply).next.reqs[id], a)
  {
    RequestAfter(s, b, id, apply);
    assert PointOk(s, id, init, apply);
    var r := s.reqs[id];
    if WorkerLocal(r, b, s.fsm, apply).Ok? {
      WorkerLasts(r, b, s.fsm, apply, a);
    }
    if SnapLocal(r, b, s.fsm).Ok? {
      SnapLasts(r, b, s.fsm, a);
    }
    if RaftLocal(r, s.fsm).Ok? {
      RaftLasts(r, s.fsm, a);
    }
  }

  lemma {:induction false} RunLasts<S>(s: State<S>, run: seq<Step<S>>, e: State<S>, id: Id, init: S, apply: (S, string) -> S, a: Answer)
    requires Inv(s, init, apply) && Reaches(s, run, e, apply) && id < |s.reqs|
    ensures Inv(e, init, apply) && id < |e.reqs| && Lasts(s.reqs[id], e.reqs[id], a)
    decreases |run|
  {
    if run != [] {
      var n := Do(s, run[0], apply).next;
      StepKeeps(s, run[0], init, apply);
      StepLasts(s, run[0], id, init, apply, a);
      RunLasts(n, run[1..], e, id, init, apply, a);
    }
  }

  /** The slot of request `id` has its answer and is not freed. */
  predicate IsAnswered<S>(s: State<S>, id: Id) {
    id < |s.reqs| && s.reqs[id].memory.Slot? && Terminal(s.reqs[id].memory.call)
  }

  /** A run up to `s`, one step `b` there, and a run from there to `e`. */
  ghost predicate Through<S>(before: seq<Step<S>>, s: State<S>, b: Step<S>, after: seq<Step<S>>, e: State<S>, init: S, apply: (S, string) -> S) {
    Reaches(Start(init), before, s, apply) && Do(s, b, apply).Moved? && Reaches(Do(s, b, apply).next, after, e, apply)
  }

  // ----- Main results -----

  /** A command is answered with what the client's apply returned for it. */
  lemma CommandAnswer<S>(before: seq<Step<S>>, s: State<S>, result: nat, after: seq<Step<S>>, e: State<S>, init: S, apply: (S, string) -> S)
    requires Through(before, s, WorkerRun(result), after, e, init, apply)
    requires 0 < s.taken <= |s.reqs| && s.reqs[s.taken - 1].kind.Command? && IsAnswered(e, s.taken - 1)
    ensures var c := e.reqs[s.taken - 1].memory.call; c.state == Success && c.error == NoError && c.retval == result
  {
    ReachableOk(before, s, init, apply);
    StepKeeps(s, WorkerRun(result), init, apply);
    RunLasts(Do(s, WorkerRun(result), apply).next, after, e, s.taken - 1, init, apply, Returns(result));
    assert PointOk(e, s.taken - 1, init, apply);
  }

  /** A snapshot that the client completed itself, in begin_snapshot, is answered with what the client said. */
  lemma CompletionAnswer<S>(before: seq<Step<S>>, s: State<S>, ok: bool, after: seq<Step<S>>, e: State<S>, init: S, apply: (S, string) -> S)
    requires Through(before, s, WorkerComplete(ok), after, e, init, apply)
    requires 0 < s.taken <= |s.reqs| && IsAnswered(e, s.taken - 1)
    ensures var c := e.reqs[s.taken - 1].memory.call;
            (c.state == Success <==> ok) && (c.state == Failed <==> !ok) && c.error == if ok then NoError else Other
  {
    var a := Fails(if ok then NoError else Other);
    ReachableOk(before, s, init, apply);
    StepKeeps(s, WorkerComplete(ok), init, apply);
    RunLasts(Do(s, WorkerComplete(ok), apply).next, after, e, s.taken - 1, init, apply, a);
    assert PointOk(e, s.taken - 1, init, apply);
  }

  /** A snapshot that the snapshot worker has tried to write is answered with whether it was written. */
  lemma WriteAnswer<S>(before: seq<Step<S>>, s: State<S>, ok: bool, after: seq<Step<S>>, e: State<S>, id: Id, init: S, apply: (S, string) -> S)
    requires Through(before, s, SnapWrite(ok), after, e, init, apply) && s.snapper == Some(id) && IsAnswered(e, id)
    ensures var c := e.reqs[id].memory.call;
            (c.state == Success <==> ok) && (c.state == Failed <==> !ok) && c.error == if ok then NoError else Other
    ensures e.reqs[id].written == if ok then Some(Fold(e.reqs, id, init, apply)) else None
  {
    ReachableOk(before, s, init, apply);
    assert PointOk(s, id, init, apply);
    StepKeeps(s, SnapWrite(ok), init, apply);
    RunLasts(Do(s, SnapWrite(ok), apply).next, after, e, id, init, apply, Fails(NoError));
    TriedIsAnswered(e, id, init, apply);
  }

  lemma TriedIsAnswered<S>(e: State<S>, id: Id, init: S, apply: (S, string) -> S)
    requires Inv(e, init, apply) && IsAnswered(e, id) && WasTried(e.reqs[id].snap)
    ensures Says(e.reqs[id].memory.call, e.reqs[id].written.Some?)
    ensures e.reqs[id].written.Some? ==> e.reqs[id].written.value == Fold(e.reqs, id, init, apply)
  {
    assert PointOk(e, id, init, apply);
  }

  /**
   In every reachable state, of an answered request: a snapshot handed over is a
   success exactly if it was written, a restore exactly if it was loaded, a command always.
   */
  lemma AnswersAreTrue<S>(run: seq<Step<S>>, e: State<S>, id: Id, init: S, apply: (S, string) -> S)
    requires Reaches(Start(init), run, e, apply) && IsAnswered(e, id)
    ensures var r := e.reqs[id];
            var c := r.memory.call;
            && (r.snap != NoJob ==> (c.state == Success <==> r.written.Some?) && c.error == if r.written.Some? then NoError else Other)
            && (r.kind.Restore? ==> (c.state == Success <==> r.kind.loaded.Some?) && c.error == if r.kind.loaded.Some? then NoError else Other)
            && (r.kind.Command? ==> c.state == Success && c.error == NoError)
  {
    ReachableOk(run, e, init, apply);
    assert PointOk(e, id, init, apply);
  }
}
