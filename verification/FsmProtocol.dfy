/**
 The FSM side of raft_c_if.cc: the FSM worker and the snapshot worker, for any
 client state machine, in any interleaving.  Requests are numbered in the order
 in which the Raft process put them into the FSM queue; closing a queue only
 takes steps away and has no step of its own.  As in the call protocol, a
 record keeps the shared slot apart from what each thread believes.
 */
module FsmProtocol {
  import opened CallSlots

  type Id = nat

  datatype Option<T> = None | Some(value: T)

  /** What a request asks for; a restore is given what the client's `restore` reads, or None if that fails. */
  datatype Kind<S> = Command(data: string) | OtherLog | Snapshot | Restore(loaded: Option<S>)

  datatype Owner = Nobody | Worker | Snapper

  datatype Memory = Freed | Slot(call: Call, owner: Owner)

  /**
   Where the FSM worker is with a request: queued, taken, locked, ran (the answer is
   ready), about to unlock, in begin_snapshot (`used`: the client has completed or
   handed over this snapshot), completing it synchronously, or gone on.
   */
  datatype WorkerPc = Queued | Taken | Entered | Ran(answer: Answer) | Leaving | Begin(used: bool) | Syncing(ok: bool) | Synced | Left

  /** The same for the snapshot worker and a snapshot handed over to it. */
  datatype SnapPc = NoJob | JobQueued | JobTaken | Wrote(ok: bool) | Locking(ok: bool) | Replied | Finished

  /** `value` is the copy of the state that begin_snapshot took, `written` what the job has written; `replies` is history. */
  datatype Request<S> = Request(kind: Kind<S>, memory: Memory, worker: WorkerPc, snap: SnapPc,
                                value: Option<S>, written: Option<S>, replies: nat)

  datatype Fault = TouchesFreed | NotPending | LocksOwn | RepliesTwice

  datatype Local<S> = Ok(request: Request<S>, fsm: S) | Stuck | Bad(fault: Fault)

  datatype Step<S> =
    | Send(kind: Kind<S>)
    | RaftFree(id: Id)
    | WorkerTake
    | WorkerLock
    | WorkerRun(result: nat)
    | WorkerReply
    | WorkerUnlock
    | WorkerHandOver
    | WorkerComplete(ok: bool)
    | WorkerReturn
    | SnapTake
    | SnapWrite(ok: bool)
    | SnapLock
    | SnapReply
    | SnapUnlock

  function NewRequest<S>(kind: Kind<S>): Request<S> {
    Request(kind, Slot(NewCall, Nobody), Queued, NoJob, None, None, 0)
  }

  // ----- Locking and replying, for either thread -----

  function Lock<S>(r: Request<S>, me: Owner, fsm: S): Local<S> {
    if r.memory.Freed? then Bad(TouchesFreed)
    else if r.memory.owner == me then Bad(LocksOwn)
    else if r.memory.owner != Nobody then Stuck
    else Ok(r.(memory := r.memory.(owner := me)), fsm)
  }

  function Unlock<S>(r: Request<S>, fsm: S): Local<S> {
    if r.memory.Freed? then Bad(TouchesFreed) else Ok(r.(memory := r.memory.(owner := Nobody)), fsm)
  }

  /** `reply`, under the lock. */
  function ReplyWith<S>(r: Request<S>, answer: Answer, fsm: S): Local<S> {
    if r.memory.Freed? then Bad(TouchesFreed)
    else if Terminal(r.memory.call) then Bad(RepliesTwice)
    else Ok(r.(memory := r.memory.(call := Published(Answered(r.memory.call, answer))), replies := r.replies + 1), fsm)
  }

  function Then<S>(l: Local<S>, worker: WorkerPc): Local<S> {
    if l.Ok? then Ok(l.request.(worker := worker), l.fsm) else l
  }

  function ThenSnap<S>(l: Local<S>, snap: SnapPc): Local<S> {
    if l.Ok? then Ok(l.request.(snap := snap), l.fsm) else l
  }

  function Verdict(ok: bool): Answer {
    Fails(if ok then NoError else Other)
  }

  // ----- The FSM worker -----

  /** dispatch_fsm_apply, dispatch_fsm_restore, and the release of the lock before begin_snapshot. */
  function Run<S>(r: Request<S>, result: nat, fsm: S, apply: (S, string) -> S): Local<S> {
    if r.memory.Freed? then Bad(TouchesFreed)
    else match r.kind
         case Command(data) =>
           Ok(r.(memory := r.memory.(call := r.memory.call.(state := Dispatched)), worker := Ran(Returns(result))), apply(fsm, data))
         case OtherLog => Ok(r.(worker := Leaving), fsm)
         case Snapshot => Then(Unlock(r, fsm), Begin(false))
         case Restore(loaded) =>
           Ok(r.(worker := Ran(Verdict(loaded.Some?))), if loaded.Some? then loaded.value else fsm)
  }

  function WorkerLocal<S>(r: Request<S>, a: Step<S>, fsm: S, apply: (S, string) -> S): Local<S> {
    match a
    case WorkerTake => if r.worker == Queued then Ok(r.(worker := Taken), fsm) else Stuck
    case WorkerLock =>
      if r.worker != Taken then Stuck
      else
        var l := Lock(r, Worker, fsm);
        if l.Ok? && r.memory.call.state != Pending then Bad(NotPending) else Then(l, Entered)
    case WorkerRun(result) => if r.worker == Entered then Run(r, result, fsm, apply) else Stuck
    case WorkerReply =>
      if r.worker.Ran? then Then(ReplyWith(r, r.worker.answer, fsm), Leaving)
      else if r.worker.Syncing? then Then(ReplyWith(r, Verdict(r.worker.ok), fsm), Synced)
      else Stuck
    case WorkerUnlock =>
      if r.worker == Leaving then Then(Unlock(r, fsm), Left)
      else if r.worker == Synced then Then(Unlock(r, fsm), Begin(true))
      else Stuck
    case WorkerHandOver =>
      if r.worker != Begin(false) then Stuck
      else Ok(r.(worker := Begin(true), snap := JobQueued, value := Some(fsm)), fsm)
    case WorkerComplete(ok) => if r.worker != Begin(false) then Stuck else Then(Lock(r, Worker, fsm), Syncing(ok))
    case WorkerReturn => if r.worker.Begin? then Ok(r.(worker := Left), fsm) else Stuck
    case _ => Stuck
  }

  // ----- The snapshot worker -----

  function SnapLocal<S>(r: Request<S>, a: Step<S>, fsm: S): Local<S> {
    match a
    case SnapTake => if r.snap == JobQueued then Ok(r.(snap := JobTaken), fsm) else Stuck
    case SnapWrite(ok) =>
      if r.snap != JobTaken then Stuck
      else if r.memory.Freed? then Bad(TouchesFreed)
      else Ok(r.(snap := Wrote(ok), written := if ok then r.value else r.written), fsm)
    case SnapLock => if r.snap.Wrote? then ThenSnap(Lock(r, Snapper, fsm), Locking(r.snap.ok)) else Stuck
    case SnapReply => if r.snap.Locking? then ThenSnap(ReplyWith(r, Verdict(r.snap.ok), fsm), Replied) else Stuck
    case SnapUnlock => if r.snap == Replied then ThenSnap(Unlock(r, fsm), Finished) else Stuck
    case _ => Stuck
  }

  /** The Raft process frees a request only once it is terminal and unlocked, after a wait or as an orphan. */
  function RaftLocal<S>(r: Request<S>, fsm: S): Local<S> {
    if r.memory.Slot? && r.memory.owner == Nobody && Terminal(r.memory.call) then Ok(r.(memory := Freed), fsm) else Stuck
  }

  // ----- The whole system -----

  /** The queue holds the requests from `taken` on; `busy`: the worker is with request `taken` - 1. */
  datatype State<S> = State(reqs: seq<Request<S>>, taken: nat, busy: bool, fsm: S, jobs: seq<Id>, snapper: Option<Id>)

  datatype Outcome<S> = Moved(next: State<S>) | Blocked | Wrong(fault: Fault)

  const FSM_CAPACITY := 8

  function Start<S>(init: S): State<S> {
    State([], 0, false, init, [], None)
  }

  function Applied<S>(s: State<S>, id: Id, l: Local<S>): Outcome<S>
    requires id < |s.reqs|
  {
    match l
    case Ok(r, fsm) => Moved(s.(reqs := s.reqs[id := r], fsm := fsm))
    case Stuck => Blocked
    case Bad(f) => Wrong(f)
  }

  predicate ByWorker<S>(a: Step<S>) {
    a.WorkerLock? || a.WorkerRun? || a.WorkerReply? || a.WorkerUnlock? || a.WorkerHandOver? || a.WorkerComplete? || a.WorkerReturn?
  }

  predicate BySnapper<S>(a: Step<S>) {
    a.SnapWrite? || a.SnapLock? || a.SnapReply? || a.SnapUnlock?
  }

  /** A step of the worker on its current request, with what it adds to the snapshot queue. */
  function WorkerEffect<S>(s: State<S>, a: Step<S>, l: Local<S>): Outcome<S>
    requires 0 < s.taken <= |s.reqs|
  {
    var o := Applied(s, s.taken - 1, l);
    if !o.Moved? then o
    else Moved(o.next.(busy := l.request.worker != Left, jobs := if a.WorkerHandOver? then s.jobs + [s.taken - 1] else s.jobs))
  }

  function WorkerStep<S>(s: State<S>, a: Step<S>, apply: (S, string) -> S): Outcome<S> {
    if !s.busy || s.taken == 0 || s.taken > |s.reqs| then Blocked
    else WorkerEffect(s, a, WorkerLocal(s.reqs[s.taken - 1], a, s.fsm, apply))
  }

  function DoWorkerTake<S>(s: State<S>, apply: (S, string) -> S): Outcome<S> {
    if s.busy || s.taken >= |s.reqs| then Blocked
    else
      var l := WorkerLocal(s.reqs[s.taken], WorkerTake, s.fsm, apply);
      var o := Applied(s, s.taken, l);
      if o.Moved? then Moved(o.next.(taken := s.taken + 1, busy := true)) else o
  }

  function SnapEffect<S>(s: State<S>, id: Id, l: Local<S>): Outcome<S>
    requires id < |s.reqs|
  {
    var o := Applied(s, id, l);
    if o.Moved? && l.request.snap == Finished then Moved(o.next.(snapper := None)) else o
  }

  function SnapStep<S>(s: State<S>, a: Step<S>): Outcome<S> {
    if s.snapper.None? then Blocked
    else if s.snapper.value >= |s.reqs| then Wrong(TouchesFreed)
    else SnapEffect(s, s.snapper.value, SnapLocal(s.reqs[s.snapper.value], a, s.fsm))
  }

  function DoSnapTake<S>(s: State<S>): Outcome<S> {
    if s.snapper.Some? || s.jobs == [] then Blocked
    else if s.jobs[0] >= |s.reqs| then Wrong(TouchesFreed)
    else
      var o := Applied(s, s.jobs[0], SnapLocal(s.reqs[s.jobs[0]], SnapTake, s.fsm));
      if o.Moved? then Moved(o.next.(jobs := s.jobs[1..], snapper := Some(s.jobs[0]))) else o
  }

  function Do<S>(s: State<S>, a: Step<S>, apply: (S, string) -> S): Outcome<S> {
    if ByWorker(a) then WorkerStep(s, a, apply)
    else if BySnapper(a) then SnapStep(s, a)
    else match a
         case Send(kind) =>
           if s.taken + FSM_CAPACITY <= |s.reqs| then Blocked else Moved(s.(reqs := s.reqs + [NewRequest(kind)]))
         case RaftFree(id) => if id < |s.reqs| then Applied(s, id, RaftLocal(s.reqs[id], s.fsm)) else Blocked
         case WorkerTake => DoWorkerTake(s, apply)
         case SnapTake => DoSnapTake(s)
  }

  ghost predicate Reaches<S>(s: State<S>, run: seq<Step<S>>, e: State<S>, apply: (S, string) -> S)
    decreases |run|
  {
    if run == [] then s == e
    else Do(s, run[0], apply).Moved? && Reaches(Do(s, run[0], apply).next, run[1..], e, apply)
  }
}
