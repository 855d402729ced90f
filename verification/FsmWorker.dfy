/**
 The code of the two workers as it runs on slot objects, and the proof that an
 undisturbed turn of the FSM worker is a run of the protocol to the same result.
 */
module FsmWorker {
  import opened CallSlots
  import opened FsmProtocol
  import opened FsmSafety
  import opened SeqFacts
  import R = RingQueue

  // ----- Sending -----

  /** What becomes of `send_request`: a slot, the exception, or a wait for room in the queue. */
  datatype Sent = Sent(slot: BaseSlot) | Threw | Waits

  /** A closed queue throws, or, for the API calls, makes the new slot an error; it is then in no queue. */
  method SendRequest(q: R.ArrayBlockingQueue<BaseSlot?>, hasRet: bool, throwOk: bool) returns (r: Sent)
    requires q.Valid()
    modifies q`head, q`count, q.array_
    ensures q.Valid() && (r.Threw? <==> q.closed && throwOk)
    ensures r.Waits? <==> !q.closed && old(q.count) == q.array_.Length
    ensures r.Sent? ==> fresh(r.slot) && r.slot.hasRet == hasRet
    ensures r.Sent? ==> r.slot.View() == if q.closed then Call(Failed, Issued, 0, InShutdown) else Call(Pending, Issued, 0, NoError)
    ensures R.Contents(q.View()) == old(R.Contents(q.View())) + if r.Sent? && !q.closed then [r.slot] else []
  {
    var slot := new BaseSlot(hasRet);
    AppendNil(R.Contents(q.View()));
    if q.closed {
      if throwOk {
        return Threw;
      }
      slot.error := InShutdown;
      slot.state := Failed;
      return Sent(slot);
    }
    var stored := q.TryPut(slot);
    return if stored then Sent(slot) else Waits;
  }

  method MakeErrorRequest(hasRet: bool, err: RaftError) returns (slot: BaseSlot)
    requires err != NoError
    ensures fresh(slot) && slot.hasRet == hasRet && slot.View() == Call(Failed, Issued, 0, err)
  {
    slot := new BaseSlot(hasRet);
    slot.error := err;
    slot.state := Failed;
  }

  // ----- The FSM worker -----

  /** What the client's begin_snapshot does with the request. */
  datatype Choice = HandsOver | Completes(ok: bool) | Forgets

  /** The slot after a turn. */
  function SlotAfter<S>(k: Kind<S>, c: Call, result: nat, choice: Choice): Call {
    match k
    case Command(_) => Published(Answered(c.(state := Dispatched), Returns(result)))
    case OtherLog => c
    case Snapshot => if choice.Completes? then Published(Answered(c, Verdict(choice.ok))) else c
    case Restore(loaded) => Published(Answered(c, Verdict(loaded.Some?)))
  }

  class Workers<S> {
    var queue: seq<(Kind<S>, BaseSlot)>
    var fsm: S
    var jobs: seq<(BaseSlot, S)>

    constructor (init: S)
      ensures queue == [] && jobs == [] && fsm == init
    {
      queue, jobs, fsm := [], [], init;
    }

    /** fsm_worker_step with the dispatch functions; `result` is what the client's apply returns. */
    method FsmWorkerStep(apply: (S, string) -> S, result: nat, choice: Choice)
      requires queue != [] && queue[0].1.state == Pending
      modifies this, queue[0].1
      ensures queue == old(queue)[1..]
      ensures fsm == Effect(old(queue)[0].0, old(fsm), apply)
      ensures old(queue)[0].1.View() == SlotAfter(old(queue)[0].0, old(queue[0].1.View()), result, choice)
      ensures var kind, slot := old(queue)[0].0, old(queue)[0].1;
              match kind
              case Command(_) => slot.state == Success && slot.error == NoError && slot.retval == result
              case OtherLog => slot.View() == old(queue[0].1.View())
              case Restore(loaded) => Says(slot.View(), loaded.Some?)
              case Snapshot => if choice.Completes? then Says(slot.View(), choice.ok) else slot.View() == old(queue[0].1.View())
      ensures jobs == old(jobs) + if old(queue)[0].0.Snapshot? && choice.HandsOver? then [(old(queue)[0].1, old(fsm))] else []
    {
      var kind, slot := queue[0].0, queue[0].1;
      queue := queue[1..];
      AppendNil(jobs);
      match kind
      case Command(data) =>
        slot.state := Dispatched;
        fsm := apply(fsm, data);
        slot.ReplyValue(result);
      case OtherLog =>
      case Snapshot =>
        if choice.HandsOver? {
          jobs := jobs + [(slot, fsm)];
        } else if choice.Completes? {
          slot.ReplyError(if choice.ok then NoError else Other);
        }
      case Restore(loaded) =>
        if loaded.Some? {
          fsm := loaded.value;
        }
        slot.ReplyError(if loaded.Some? then NoError else Other);
    }

    /** run_snapshot_job: the request succeeds iff the file was opened, written and closed. */
    method RunSnapshotJob(opens: bool, rc: int, closes: bool) returns (file: seq<S>)
      requires jobs != [] && !Terminal(jobs[0].0.View())
      modifies this`jobs, jobs[0].0
      ensures jobs == old(jobs)[1..] && file == if opens && rc == 0 then [old(jobs)[0].1] else []
      ensures var slot := old(jobs)[0].0;
              && slot.state == (if opens && rc == 0 && closes then Success else Failed)
              && slot.error == (if opens && rc == 0 && closes then NoError else Other)
              && slot.retval == old(jobs[0].0.retval) && slot.client == old(jobs[0].0.client)
    {
      var slot, value := jobs[0].0, jobs[0].1;
      jobs := jobs[1..];
      var success := false;
      file := [];
      if opens {
        success := rc == 0;
        if success {
          file := [value];
        }
        if !closes {
          success := false;
        }
      }
      slot.ReplyError(if success then NoError else Other);
    }
  }

  // ----- A turn as a run -----

  /** The record between two steps of a turn. */
  function With<S>(s: State<S>, taken: nat, busy: bool, r: Request<S>, fsm: S): State<S>
    requires 0 < taken <= |s.reqs|
  {
    s.(reqs := s.reqs[taken - 1 := r], taken := taken, busy := busy, fsm := fsm)
  }

  lemma StepThen<S>(s: State<S>, a: Step<S>, n: State<S>, later: seq<Step<S>>, e: State<S>, apply: (S, string) -> S) returns (run: seq<Step<S>>)
    requires Do(s, a, apply) == Moved(n) && Reaches(n, later, e, apply)
    ensures Reaches(s, run, e, apply)
  {
    run := [a] + later;
    DropFirst([a], later);
  }

  lemma NoStep<S>(s: State<S>, apply: (S, string) -> S) returns (run: seq<Step<S>>)
    ensures Reaches(s, run, s, apply)
  {
    run := [];
  }

  /** A local step of the worker on its current record, then the rest. */
  lemma LocalThen<S>(s: State<S>, a: Step<S>, r: Request<S>, fsm: S, n: Request<S>, fsm2: S, busy: bool, later: seq<Step<S>>, e: State<S>,
                     apply: (S, string) -> S) returns (run: seq<Step<S>>)
    requires s.taken < |s.reqs| && ByWorker(a) && !a.WorkerHandOver? && busy == (n.worker != Left)
    requires WorkerLocal(r, a, fsm, apply) == Ok(n, fsm2)
    requires Reaches(With(s, s.taken + 1, busy, n, fsm2), later, e, apply)
    ensures Reaches(With(s, s.taken + 1, true, r, fsm), run, e, apply)
  {
    var m := With(s, s.taken + 1, true, r, fsm);
    assert m.reqs[s.taken := n] == s.reqs[s.taken := n];
    run := StepThen(m, a, With(s, s.taken + 1, busy, n, fsm2), later, e, apply);
  }

  lemma HandOverThen<S>(s: State<S>, r: Request<S>, fsm: S, n: Request<S>, later: seq<Step<S>>, e: State<S>,
                        apply: (S, string) -> S) returns (run: seq<Step<S>>)
    requires s.taken < |s.reqs| && WorkerLocal(r, WorkerHandOver, fsm, apply) == Ok(n, fsm) && n.worker != Left
    requires Reaches(With(s.(jobs := s.jobs + [s.taken]), s.taken + 1, true, n, fsm), later, e, apply)
    ensures Reaches(With(s, s.taken + 1, true, r, fsm), run, e, apply)
  {
    var m := With(s, s.taken + 1, true, r, fsm);
    assert m.reqs[s.taken := n] == s.reqs[s.taken := n];
    run := StepThen(m, WorkerHandOver, With(s.(jobs := s.jobs + [s.taken]), s.taken + 1, true, n, fsm), later, e, apply);
  }

  lemma TakeThen<S>(s: State<S>, r: Request<S>, later: seq<Step<S>>, e: State<S>, apply: (S, string) -> S) returns (run: seq<Step<S>>)
    requires s.taken < |s.reqs| && !s.busy && s.reqs[s.taken].worker == Queued && r == s.reqs[s.taken].(worker := Taken)
    requires Reaches(With(s, s.taken + 1, true, r, s.fsm), later, e, apply)
    ensures Reaches(s, run, e, apply)
  {
    run := StepThen(s, WorkerTake, With(s, s.taken + 1, true, r, s.fsm), later, e, apply);
  }

  /** The lock is released and the worker is free again. */
  function Departed<S>(r: Request<S>): Request<S>
    requires r.memory.Slot?
  {
    r.(memory := r.memory.(owner := Nobody), worker := Left)
  }

  lemma LeavingTurn<S>(s: State<S>, r: Request<S>, fsm: S, apply: (S, string) -> S) returns (run: seq<Step<S>>)
    requires s.taken < |s.reqs| && r.worker == Leaving && r.memory.Slot?
    ensures Reaches(With(s, s.taken + 1, true, r, fsm), run, With(s, s.taken + 1, false, Departed(r), fsm), apply)
  {
    var e := With(s, s.taken + 1, false, Departed(r), fsm);
    run := NoStep(e, apply);
    run := LocalThen(s, WorkerUnlock, r, fsm, Departed(r), fsm, false, run, e, apply);
  }

  /** A request that was run and has its answer: reply and unlock. */
  lemma AnswerTurn<S>(s: State<S>, r: Request<S>, fsm: S, apply: (S, string) -> S) returns (run: seq<Step<S>>, n: Request<S>)
    requires s.taken < |s.reqs| && r.worker.Ran? && r.memory.Slot? && !Terminal(r.memory.call)
    ensures Reaches(With(s, s.taken + 1, true, r, fsm), run, With(s, s.taken + 1, false, n, fsm), apply)
    ensures n.memory == Slot(Published(Answered(r.memory.call, r.worker.answer)), Nobody)
  {
    var m := WorkerLocal(r, WorkerReply, fsm, apply).request;
    n := Departed(m);
    run := LeavingTurn(s, m, fsm, apply);
    run := LocalThen(s, WorkerReply, r, fsm, m, fsm, true, run, With(s, s.taken + 1, false, n, fsm), apply);
  }

  /** The record behind the run of a request that is no snapshot. */
  lemma RanRecord<S>(r: Request<S>, c: Call, result: nat, fsm: S, apply: (S, string) -> S) returns (m: Request<S>)
    requires r.worker == Entered && r.memory == Slot(c, Worker) && c.state == Pending && !r.kind.Snapshot?
    ensures WorkerLocal(r, WorkerRun(result), fsm, apply) == Ok(m, Effect(r.kind, fsm, apply)) && m.memory.Slot? && m.kind == r.kind
    ensures if r.kind.OtherLog? then m.worker == Leaving && m.memory == r.memory
            else && m.worker.Ran? && !Terminal(m.memory.call)
                 && Published(Answered(m.memory.call, m.worker.answer)) == SlotAfter(r.kind, c, result, Forgets)
  {
    m := WorkerLocal(r, WorkerRun(result), fsm, apply).request;
  }

  /** From the locked request on: run, reply if the kind asks for one, unlock. */
  lemma RepliedTurn<S>(s: State<S>, r: Request<S>, c: Call, result: nat, apply: (S, string) -> S) returns (run: seq<Step<S>>, n: Request<S>)
    requires s.taken < |s.reqs| && r.worker == Entered && r.memory == Slot(c, Worker) && c.state == Pending && !r.kind.Snapshot?
    ensures Reaches(With(s, s.taken + 1, true, r, s.fsm), run, With(s, s.taken + 1, false, n, Effect(r.kind, s.fsm, apply)), apply)
    ensures n.memory == Slot(SlotAfter(r.kind, c, result, Forgets), Nobody)
  {
    var fsm := Effect(r.kind, s.fsm, apply);
    var m := RanRecord(r, c, result, s.fsm, apply);
    if r.kind.OtherLog? {
      n := Departed(m);
      run := LeavingTurn(s, m, fsm, apply);
    } else {
      run, n := AnswerTurn(s, m, fsm, apply);
    }
    run := LocalThen(s, WorkerRun(result), r, s.fsm, m, fsm, true, run, With(s, s.taken + 1, false, n, fsm), apply);
  }

  /** For a snapshot: unlock, let the client begin it, return. */
  lemma SnapshotTurn<S>(s: State<S>, r: Request<S>, c: Call, choice: Choice, apply: (S, string) -> S)
    returns (run: seq<Step<S>>, n: Request<S>, t: State<S>)
    requires s.taken < |s.reqs| && r.worker == Entered && r.memory == Slot(c, Worker) && c.state == Pending && r.kind.Snapshot?
    ensures t == s.(jobs := s.jobs + if choice.HandsOver? then [s.taken] else [])
    ensures Reaches(With(s, s.taken + 1, true, r, s.fsm), run, With(t, s.taken + 1, false, n, s.fsm), apply)
    ensures n.memory == Slot(SlotAfter(r.kind, c, 0, choice), Nobody) && (choice.HandsOver? ==> n.value == Some(s.fsm))
  {
    var begun := r.(memory := Slot(c, Nobody), worker := Begin(false));
    run, n, t := BeginTurn(s, begun, c, choice, apply);
    run := LocalThen(s, WorkerRun(0), r, s.fsm, begun, s.fsm, true, run, With(t, s.taken + 1, false, n, s.fsm), apply);
  }

  /** Inside begin_snapshot. */
  lemma BeginTurn<S>(s: State<S>, r: Request<S>, c: Call, choice: Choice, apply: (S, string) -> S)
    returns (run: seq<Step<S>>, n: Request<S>, t: State<S>)
    requires s.taken < |s.reqs| && r.worker == Begin(false) && r.memory == Slot(c, Nobody) && c.state == Pending && r.kind.Snapshot?
    ensures t == s.(jobs := s.jobs + if choice.HandsOver? then [s.taken] else [])
    ensures Reaches(With(s, s.taken + 1, true, r, s.fsm), run, With(t, s.taken + 1, false, n, s.fsm), apply)
    ensures n.memory == Slot(SlotAfter(r.kind, c, 0, choice), Nobody) && (choice.HandsOver? ==> n.value == Some(s.fsm))
  {
    if choice.HandsOver? {
      t := s.(jobs := s.jobs + [s.taken]);
      run, n := HandOverTurn(s, t, r, apply);
    } else {
      t := s;
      AppendNil(s.jobs);
      var m := if choice.Completes? then Completed(r, choice.ok) else r;
      run, n := ReturnTurn(s, m, s.fsm, apply);
      if choice.Completes? {
        run := CompleteThen(s, r, choice.ok, s.fsm, run, With(s, s.taken + 1, false, n, s.fsm), apply);
      }
    }
  }

  lemma HandOverTurn<S>(s: State<S>, t: State<S>, r: Request<S>, apply: (S, string) -> S) returns (run: seq<Step<S>>, n: Request<S>)
    requires s.taken < |s.reqs| && r.worker == Begin(false) && t == s.(jobs := s.jobs + [s.taken])
    ensures Reaches(With(s, s.taken + 1, true, r, s.fsm), run, With(t, s.taken + 1, false, n, s.fsm), apply)
    ensures n == r.(worker := Left, snap := JobQueued, value := Some(s.fsm))
  {
    var m := r.(worker := Begin(true), snap := JobQueued, value := Some(s.fsm));
    run, n := ReturnTurn(t, m, s.fsm, apply);
    run := HandOverThen(s, r, s.fsm, m, run, With(t, s.taken + 1, false, n, s.fsm), apply);
  }

  lemma ReturnTurn<S>(s: State<S>, r: Request<S>, fsm: S, apply: (S, string) -> S) returns (run: seq<Step<S>>, n: Request<S>)
    requires s.taken < |s.reqs| && r.worker.Begin?
    ensures n == r.(worker := Left)
    ensures Reaches(With(s, s.taken + 1, true, r, fsm), run, With(s, s.taken + 1, false, n, fsm), apply)
  {
    n := r.(worker := Left);
    var e := With(s, s.taken + 1, false, n, fsm);
    run := NoStep(e, apply);
    run := LocalThen(s, WorkerReturn, r, fsm, n, fsm, false, run, e, apply);
  }

  /** The record after a synchronous completion. */
  function Completed<S>(r: Request<S>, ok: bool): Request<S>
    requires r.memory.Slot?
  {
    r.(memory := Slot(Published(Answered(r.memory.call, Verdict(ok))), Nobody), worker := Begin(true), replies := r.replies + 1)
  }

  lemma CompleteThen<S>(s: State<S>, r: Request<S>, ok: bool, fsm: S, later: seq<Step<S>>, e: State<S>, apply: (S, string) -> S)
    returns (run: seq<Step<S>>)
    requires s.taken < |s.reqs| && r.worker == Begin(false) && r.memory.Slot? && r.memory.owner == Nobody && !Terminal(r.memory.call)
    requires Reaches(With(s, s.taken + 1, true, Completed(r, ok), fsm), later, e, apply)
    ensures Reaches(With(s, s.taken + 1, true, r, fsm), run, e, apply)
  {
    var m1 := r.(memory := r.memory.(owner := Worker), worker := Syncing(ok));
    var m2 := Completed(r, ok).(memory := Completed(r, ok).memory.(owner := Worker), worker := Synced);
    run := LocalThen(s, WorkerUnlock, m2, fsm, Completed(r, ok), fsm, true, later, e, apply);
    run := LocalThen(s, WorkerReply, m1, fsm, m2, fsm, true, run, e, apply);
    run := LocalThen(s, WorkerComplete(ok), r, fsm, m1, fsm, true, run, e, apply);
  }

  /** Wherever the worker is free and a request is queued, the protocol can do what FsmWorkerStep does. */
  lemma TurnIsRun<S>(s: State<S>, result: nat, choice: Choice, init: S, apply: (S, string) -> S) returns (run: seq<Step<S>>, e: State<S>)
    requires Inv(s, init, apply) && !s.busy && s.taken < |s.reqs|
    ensures s.reqs[s.taken].memory.Slot? && s.reqs[s.taken].memory.call.state == Pending
    ensures Reaches(s, run, e, apply) && e.taken == s.taken + 1 && !e.busy && |e.reqs| == |s.reqs|
    ensures e.reqs == s.reqs[s.taken := e.reqs[s.taken]] && e.fsm == Effect(s.reqs[s.taken].kind, s.fsm, apply)
    ensures e.reqs[s.taken].memory == Slot(SlotAfter(s.reqs[s.taken].kind, s.reqs[s.taken].memory.call, result, choice), Nobody)
    ensures e.jobs == s.jobs + if s.reqs[s.taken].kind.Snapshot? && choice.HandsOver? then [s.taken] else []
  {
    assert PointOk(s, s.taken, init, apply);
    run, e := TurnFrom(s, s.reqs[s.taken].memory.call, result, choice, apply);
  }

  lemma TurnFrom<S>(s: State<S>, c: Call, result: nat, choice: Choice, apply: (S, string) -> S) returns (run: seq<Step<S>>, e: State<S>)
    requires !s.busy && s.taken < |s.reqs| && s.reqs[s.taken].worker == Queued
    requires s.reqs[s.taken].memory == Slot(c, Nobody) && c.state == Pending
    ensures Reaches(s, run, e, apply) && e.taken == s.taken + 1 && !e.busy && |e.reqs| == |s.reqs|
    ensures e.reqs == s.reqs[s.taken := e.reqs[s.taken]] && e.fsm == Effect(s.reqs[s.taken].kind, s.fsm, apply)
    ensures e.reqs[s.taken].memory == Slot(SlotAfter(s.reqs[s.taken].kind, c, result, choice), Nobody)
    ensures e.jobs == s.jobs + if s.reqs[s.taken].kind.Snapshot? && choice.HandsOver? then [s.taken] else []
  {
    var r1 := s.reqs[s.taken].(worker := Taken);
    var r2 := r1.(memory := Slot(c, Worker), worker := Entered);
    AppendNil(s.jobs);
    var n, t := r2, s;
    if r1.kind.Snapshot? {
      run, n, t := SnapshotTurn(s, r2, c, choice, apply);
    } else {
      run, n := RepliedTurn(s, r2, c, result, apply);
    }
    e := With(t, s.taken + 1, false, n, Effect(r1.kind, s.fsm, apply));
    run := LocalThen(s, WorkerLock, r1, s.fsm, r2, s.fsm, true, run, e, apply);
    run := TakeThen(s, r1, run, e, apply);
  }

  // ----- A snapshot job as a run -----

  /** The record between two steps of a job. */
  function InJob<S>(s: State<S>, id: Id, r: Request<S>, snapper: Option<Id>): State<S>
    requires id < |s.reqs|
  {
    s.(reqs := s.reqs[id := r], snapper := snapper)
  }

  lemma JobThen<S>(s: State<S>, a: Step<S>, id: Id, r: Request<S>, n: Request<S>, later: seq<Step<S>>, e: State<S>, apply: (S, string) -> S)
    returns (run: seq<Step<S>>)
    requires id < |s.reqs| && BySnapper(a) && SnapLocal(r, a, s.fsm) == Ok(n, s.fsm)
    requires Reaches(InJob(s, id, n, if n.snap == Finished then None else Some(id)), later, e, apply)
    ensures Reaches(InJob(s, id, r, Some(id)), run, e, apply)
  {
    var m := InJob(s, id, r, Some(id));
    assert m.reqs[id := n] == s.reqs[id := n];
    run := StepThen(m, a, InJob(s, id, n, if n.snap == Finished then None else Some(id)), later, e, apply);
  }

  /** The record after a job. */
  function JobDone<S>(r: Request<S>, c: Call, ok: bool): Request<S> {
    r.(memory := Slot(c.(state := if ok then Success else Failed, error := if ok then NoError else Other), Nobody),
       snap := Finished, written := if ok then r.value else r.written, replies := r.replies + 1)
  }

  /** From the write on: lock, reply, unlock. */
  lemma JobReply<S>(s: State<S>, id: Id, r: Request<S>, c: Call, ok: bool, done: Request<S>, apply: (S, string) -> S) returns (run: seq<Step<S>>)
    requires id < |s.reqs| && r.snap == Wrote(ok) && r.memory == Slot(c, Nobody) && !Terminal(c)
    requires done == JobDone(r, c, ok).(written := r.written)
    ensures Reaches(InJob(s, id, r, Some(id)), run, InJob(s, id, done, None), apply)
  {
    var e := InJob(s, id, done, None);
    var r2 := r.(memory := Slot(c, Snapper), snap := Locking(ok));
    var r3 := done.(memory := done.memory.(owner := Snapper), snap := Replied);
    run := NoStep(e, apply);
    run := JobThen(s, SnapUnlock, id, r3, done, run, e, apply);
    run := JobThen(s, SnapReply, id, r2, r3, run, e, apply);
    run := JobThen(s, SnapLock, id, r, r2, run, e, apply);
  }

  /** From the job in hand on. */
  lemma JobSteps<S>(s: State<S>, id: Id, r: Request<S>, c: Call, ok: bool, apply: (S, string) -> S) returns (run: seq<Step<S>>)
    requires id < |s.reqs| && r.snap == JobTaken && r.memory == Slot(c, Nobody) && !Terminal(c)
    ensures Reaches(InJob(s, id, r, Some(id)), run, InJob(s, id, JobDone(r, c, ok), None), apply)
  {
    var e := InJob(s, id, JobDone(r, c, ok), None);
    var r1 := r.(snap := Wrote(ok), written := if ok then r.value else r.written);
    run := JobReply(s, id, r1, c, ok, JobDone(r, c, ok), apply);
    run := JobThen(s, SnapWrite(ok), id, r, r1, run, e, apply);
  }

  /**
   Wherever the snapshot worker is free and a job is queued, the protocol can do what
   RunSnapshotJob does: the same fields of the slot, and the copied state as written.
   */
  lemma JobIsRun<S>(s: State<S>, opens: bool, rc: int, closes: bool, init: S, apply: (S, string) -> S)
    returns (run: seq<Step<S>>, e: State<S>, id: Id)
    requires Inv(s, init, apply) && s.snapper.None? && s.jobs != []
    ensures id == s.jobs[0] < |s.reqs| == |e.reqs| && s.reqs[id].memory.Slot? && !Terminal(s.reqs[id].memory.call) && s.reqs[id].value.Some?
    ensures Reaches(s, run, e, apply) && e == s.(jobs := s.jobs[1..], reqs := s.reqs[id := e.reqs[id]])
    ensures var was, slot := s.reqs[id].memory.call, e.reqs[id].memory;
            && slot.Slot? && slot.owner == Nobody && slot.call.retval == was.retval && slot.call.client == was.client
            && slot.call.state == (if opens && rc == 0 && closes then Success else Failed)
            && slot.call.error == (if opens && rc == 0 && closes then NoError else Other)
    ensures e.reqs[id].written == if opens && rc == 0 && closes then s.reqs[id].value else None
  {
    id := s.jobs[0];
    assert id in multiset(s.jobs);
    assert PointOk(s, id, init, apply);
    var r := s.reqs[id].(snap := JobTaken);
    var t := s.(jobs := s.jobs[1..]);
    var ok := opens && rc == 0 && closes;
    run := JobSteps(t, id, r, r.memory.call, ok, apply);
    e := InJob(t, id, JobDone(r, r.memory.call, ok), None);
    run := StepThen(s, SnapTake, InJob(t, id, r, Some(id)), run, e, apply);
  }
}
