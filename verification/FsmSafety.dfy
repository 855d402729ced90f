/**
 What every interleaving of the FSM worker and the snapshot worker keeps: one
 reply per request at most, exactly one for commands and restores, no thread
 locks a slot it holds, and a snapshot is the state after exactly the requests
 that precede it.
 */
module FsmSafety {
  import opened CallSlots
  import opened FsmProtocol
  import opened SeqFacts

  predicate IsReplied<S>(k: Kind<S>) {
    k.Command? || k.Restore?
  }

  predicate WorkerOk<S>(r: Request<S>) {
    match r.worker
    case Queued => r.snap == NoJob
    case Taken => r.snap == NoJob
    case Entered => r.snap == NoJob
    case Ran(_) => r.snap == NoJob && IsReplied(r.kind)
    case Leaving => r.snap == NoJob && (IsReplied(r.kind) || r.kind.OtherLog?)
    case Begin(used) => r.kind.Snapshot? && (!used ==> r.snap == NoJob)
    case Syncing(_) => r.kind.Snapshot? && r.snap == NoJob
    case Synced => r.kind.Snapshot? && r.snap == NoJob
    case Left => true
  }

  /** Who holds the lock, by where the threads are. */
  function Holder<S>(r: Request<S>): Owner {
    if r.worker == Entered || r.worker.Ran? || r.worker == Leaving || r.worker.Syncing? || r.worker == Synced then Worker
    else if r.snap.Locking? || r.snap == Replied then Snapper
    else Nobody
  }

  /** Whether the request has had its reply, by where the threads are; a snapshot that left may or may not have. */
  predicate RepliesOk<S>(r: Request<S>) {
    && r.replies <= 1
    && (r.worker == Queued || r.worker == Taken || r.worker == Entered || r.worker.Ran? || r.worker.Syncing? || r.worker == Begin(false)
        ==> r.replies == 0)
    && (r.worker == Synced || r.snap == Replied || r.snap == Finished ==> r.replies == 1)
    && (r.snap == JobQueued || r.snap == JobTaken || r.snap.Wrote? || r.snap.Locking? ==> r.replies == 0)
    && (r.worker == Leaving || r.worker == Left ==> (IsReplied(r.kind) ==> r.replies == 1))
    && (r.kind.OtherLog? ==> r.replies == 0)
  }

  predicate MemoryOk<S>(r: Request<S>) {
    match r.memory
    case Freed => r.replies == 1 && Holder(r) == Nobody
    case Slot(call, owner) =>
      && owner == Holder(r)
      && (Terminal(call) <==> r.replies == 1)
      && (Terminal(call) ==> (call.state == Success <==> call.error == NoError))
      && (r.worker == Queued || r.worker == Taken || r.worker == Entered ==> call.state == Pending)
  }

  /** The error that stands for success or failure. */
  predicate Says(c: Call, ok: bool) {
    c.error == (if ok then NoError else Other) && c.state == (if ok then Success else Failed)
  }

  /** Which answer is on its way or has been given, by what the request asked for and what was done. */
  predicate AnswerOk<S>(r: Request<S>) {
    && (r.worker.Ran? && r.kind.Command? ==> r.worker.answer.Returns?)
    && (r.worker.Ran? && r.kind.Restore? ==> r.worker.answer == Fails(if r.kind.loaded.Some? then NoError else Other))
    && (r.snap == JobQueued || r.snap == JobTaken ==> r.written.None?)
    && (r.snap.Wrote? || r.snap.Locking? ==> r.snap.ok == r.written.Some?)
    && (r.memory.Slot? && Terminal(r.memory.call) ==> AnswerGiven(r, r.memory.call))
  }

  predicate AnswerGiven<S>(r: Request<S>, c: Call) {
    && (r.kind.Command? ==> c.state == Success && c.error == NoError)
    && (r.kind.Restore? ==> Says(c, r.kind.loaded.Some?))
    && (r.snap == Replied || r.snap == Finished ==> Says(c, r.written.Some?))
  }

  ghost predicate RequestOk<S>(r: Request<S>) {
    && WorkerOk(r) && RepliesOk(r) && MemoryOk(r) && AnswerOk(r)
    && (r.snap != NoJob ==> r.kind.Snapshot? && r.value.Some?)
    && (r.snap == NoJob ==> r.value.None? && r.written.None?)
    && (r.written.Some? ==> r.written == r.value)
  }

  predicate NotRun(p: WorkerPc) {
    p == Queued || p == Taken || p == Entered
  }

  /** What running a request does to the client's state. */
  function Effect<S>(k: Kind<S>, fsm: S, apply: (S, string) -> S): S {
    match k
    case Command(data) => apply(fsm, data)
    case Restore(Some(v)) => v
    case _ => fsm
  }

  /** How a step of the worker changes its record `r` and the client's state. */
  ghost predicate WorkerChange<S>(r: Request<S>, a: Step<S>, l: Local<S>, fsm: S, apply: (S, string) -> S) {
    && l.Ok? && RequestOk(l.request) && l.request.kind == r.kind && l.request.worker != Queued
    && l.fsm == (if a.WorkerRun? then Effect(r.kind, fsm, apply) else fsm)
    && l.request.snap == (if a.WorkerHandOver? then JobQueued else r.snap)
    && l.request.value == (if a.WorkerHandOver? then Some(fsm) else r.value)
    && (a.WorkerHandOver? ==> r.kind.Snapshot? && r.snap == NoJob && !NotRun(r.worker))
    && (NotRun(l.request.worker) <==> NotRun(r.worker) && !a.WorkerRun?)
    && (a.WorkerRun? ==> NotRun(r.worker))
  }

  lemma WorkerLocalOk<S>(r: Request<S>, a: Step<S>, fsm: S, apply: (S, string) -> S)
    requires RequestOk(r)
    ensures var l := WorkerLocal(r, a, fsm, apply); !l.Bad? && (l.Ok? ==> WorkerChange(r, a, l, fsm, apply))
  {
    if a.WorkerTake? || a.WorkerLock? || a.WorkerRun? {
      WorkerRunsOk(r, a, fsm, apply);
    } else if a.WorkerReply? || a.WorkerUnlock? {
      WorkerRepliesOk(r, a, fsm, apply);
    } else {
      WorkerBeginsOk(r, a, fsm, apply);
    }
  }

  lemma WorkerRunsOk<S>(r: Request<S>, a: Step<S>, fsm: S, apply: (S, string) -> S)
    requires RequestOk(r) && (a.WorkerTake? || a.WorkerLock? || a.WorkerRun?)
    ensures var l := WorkerLocal(r, a, fsm, apply); !l.Bad? && (l.Ok? ==> WorkerChange(r, a, l, fsm, apply))
  {
  }

  lemma WorkerRepliesOk<S>(r: Request<S>, a: Step<S>, fsm: S, apply: (S, string) -> S)
    requires RequestOk(r) && (a.WorkerReply? || a.WorkerUnlock?)
    ensures var l := WorkerLocal(r, a, fsm, apply); !l.Bad? && (l.Ok? ==> WorkerChange(r, a, l, fsm, apply))
  {
  }

  /** In begin_snapshot, or not a step of the worker. */
  lemma WorkerBeginsOk<S>(r: Request<S>, a: Step<S>, fsm: S, apply: (S, string) -> S)
    requires RequestOk(r) && !a.WorkerTake? && !a.WorkerLock? && !a.WorkerRun? && !a.WorkerReply? && !a.WorkerUnlock?
    ensures var l := WorkerLocal(r, a, fsm, apply); !l.Bad? && (l.Ok? ==> WorkerChange(r, a, l, fsm, apply))
  {
  }

  lemma SnapLocalOk<S>(r: Request<S>, a: Step<S>, fsm: S)
    requires RequestOk(r)
    ensures var l := SnapLocal(r, a, fsm);
            && !l.Bad?
            && (l.Ok? ==> RequestOk(l.request) && l.request.kind == r.kind && l.request.worker == r.worker
                          && l.request.value == r.value && l.fsm == fsm)
            && (l.Ok? ==> l.request.snap != NoJob && l.request.snap != JobQueued && (a.SnapTake? <==> r.snap == JobQueued))
  {
  }

  lemma RaftLocalOk<S>(r: Request<S>, fsm: S)
    requires RequestOk(r)
    ensures var l := RaftLocal(r, fsm);
            !l.Bad? && (l.Ok? ==> RequestOk(l.request) && l.request == r.(memory := Freed) && l.fsm == fsm)
  {
  }

  // ----- The state as a fold of the queue -----

  /** The client's state after the first `k` requests, one after the other. */
  ghost function Fold<S>(reqs: seq<Request<S>>, k: nat, init: S, apply: (S, string) -> S): S
    requires k <= |reqs|
  {
    if k == 0 then init else Effect(reqs[k - 1].kind, Fold(reqs, k - 1, init, apply), apply)
  }

  ghost predicate SameKinds<S>(a: seq<Request<S>>, b: seq<Request<S>>) {
    |a| <= |b| && forall i :: 0 <= i < |a| ==> a[i].kind == b[i].kind
  }

  lemma {:induction false} FoldSame<S>(a: seq<Request<S>>, b: seq<Request<S>>, k: nat, init: S, apply: (S, string) -> S)
    requires SameKinds(a, b) && k <= |a|
    ensures Fold(a, k, init, apply) == Fold(b, k, init, apply)
    decreases k
  {
    if k > 0 {
      FoldSame(a, b, k - 1, init, apply);
    }
  }

  predicate Working<S>(s: State<S>, id: Id) {
    s.busy && id + 1 == s.taken
  }

  predicate InSnapper(p: SnapPc) {
    p == JobTaken || p.Wrote? || p.Locking? || p == Replied
  }

  /** The threads' own variables agree with the record. */
  ghost predicate Placed<S>(s: State<S>, id: Id)
    requires id < |s.reqs|
  {
    var r := s.reqs[id];
    && (r.worker == Queued <==> id >= s.taken)
    && (r.worker != Queued && r.worker != Left <==> Working(s, id))
    && multiset(s.jobs)[id] == One(r.snap == JobQueued)
    && (InSnapper(r.snap) <==> s.snapper == Some(id))
  }

  ghost predicate PointOk<S>(s: State<S>, id: Id, init: S, apply: (S, string) -> S) {
    if id < |s.reqs| then
      && RequestOk(s.reqs[id]) && Placed(s, id)
      && (s.reqs[id].value.Some? ==> s.reqs[id].value.value == Fold(s.reqs, id, init, apply))
    else multiset(s.jobs)[id] == 0 && s.snapper != Some(id)
  }

  /** How many requests the worker has run. */
  function RanCount<S>(s: State<S>): int {
    if s.busy && 0 < s.taken <= |s.reqs| && NotRun(s.reqs[s.taken - 1].worker) then s.taken - 1 else s.taken
  }

  ghost predicate Shape<S>(s: State<S>) {
    s.taken <= |s.reqs| && (s.busy ==> s.taken > 0)
  }

  ghost predicate Inv<S>(s: State<S>, init: S, apply: (S, string) -> S) {
    && Shape(s) && s.fsm == Fold(s.reqs, RanCount(s), init, apply)
    && forall id: Id :: PointOk(s, id, init, apply)
  }

  ghost predicate SameElsewhere<S>(s: State<S>, n: State<S>, x: Id) {
    && |n.reqs| == |s.reqs| && x < |s.reqs| && n.reqs[x].kind == s.reqs[x].kind
    && (forall id: Id :: id != x && id < |s.reqs| ==> n.reqs[id] == s.reqs[id])
    && (forall id: Id :: id != x ==> (id >= n.taken <==> id >= s.taken) && (Working(n, id) <==> Working(s, id)))
    && (forall id: Id :: id != x ==> multiset(n.jobs)[id] == multiset(s.jobs)[id])
    && (forall id: Id :: id != x ==> (n.snapper == Some(id) <==> s.snapper == Some(id)))
  }

  lemma PointsOk<S>(s: State<S>, n: State<S>, x: Id, init: S, apply: (S, string) -> S)
    requires Inv(s, init, apply) && SameElsewhere(s, n, x) && PointOk(n, x, init, apply)
    ensures forall id: Id :: PointOk(n, id, init, apply)
  {
    forall id: Id
      ensures PointOk(n, id, init, apply)
    {
      assert PointOk(s, id, init, apply);
      if id != x && id < |s.reqs| {
        FoldSame(s.reqs, n.reqs, id, init, apply);
      }
    }
  }

  // ----- Steps -----

  lemma WorkerFsm<S>(s: State<S>, a: Step<S>, l: Local<S>, init: S, apply: (S, string) -> S)
    requires Inv(s, init, apply) && s.busy && WorkerChange(s.reqs[s.taken - 1], a, l, s.fsm, apply)
    ensures var n := WorkerEffect(s, a, l).next;
            && SameKinds(s.reqs, n.reqs) && Shape(n) && n.fsm == Fold(n.reqs, RanCount(n), init, apply)
            && (a.WorkerHandOver? ==> s.fsm == Fold(n.reqs, s.taken - 1, init, apply))
            && (l.request.value.Some? && !a.WorkerHandOver? ==> l.request.value.value == Fold(n.reqs, s.taken - 1, init, apply))
  {
    var n := WorkerEffect(s, a, l).next;
    assert PointOk(s, s.taken - 1, init, apply);
    FoldSame(s.reqs, n.reqs, s.taken - 1, init, apply);
    FoldSame(s.reqs, n.reqs, s.taken, init, apply);
  }

  lemma WorkerPoint<S>(s: State<S>, a: Step<S>, l: Local<S>, init: S, apply: (S, string) -> S)
    requires Inv(s, init, apply) && s.busy && WorkerChange(s.reqs[s.taken - 1], a, l, s.fsm, apply)
    ensures var n := WorkerEffect(s, a, l).next; SameElsewhere(s, n, s.taken - 1) && Placed(n, s.taken - 1)
  {
    assert PointOk(s, s.taken - 1, init, apply);
  }

  lemma WorkerEffectKeeps<S>(s: State<S>, a: Step<S>, l: Local<S>, init: S, apply: (S, string) -> S)
    requires Inv(s, init, apply) && s.busy && WorkerChange(s.reqs[s.taken - 1], a, l, s.fsm, apply)
    ensures WorkerEffect(s, a, l).Moved? && Inv(WorkerEffect(s, a, l).next, init, apply)
  {
    WorkerFsm(s, a, l, init, apply);
    WorkerPoint(s, a, l, init, apply);
    PointsOk(s, WorkerEffect(s, a, l).next, s.taken - 1, init, apply);
  }

  lemma WorkerKeeps<S>(s: State<S>, a: Step<S>, init: S, apply: (S, string) -> S)
    requires Inv(s, init, apply)
    ensures !WorkerStep(s, a, apply).Wrong? && (WorkerStep(s, a, apply).Moved? ==> Inv(WorkerStep(s, a, apply).next, init, apply))
  {
    if s.busy {
      assert PointOk(s, s.taken - 1, init, apply);
      WorkerLocalOk(s.reqs[s.taken - 1], a, s.fsm, apply);
      var l := WorkerLocal(s.reqs[s.taken - 1], a, s.fsm, apply);
      if l.Ok? {
        WorkerEffectKeeps(s, a, l, init, apply);
      }
    }
  }

  lemma TakePoint<S>(s: State<S>, n: State<S>, init: S, apply: (S, string) -> S)
    requires Inv(s, init, apply) && DoWorkerTake(s, apply) == Moved(n)
    ensures s.taken < |s.reqs| && SameElsewhere(s, n, s.taken) && RequestOk(n.reqs[s.taken]) && Placed(n, s.taken)
    ensures n.fsm == s.fsm && Shape(n) && RanCount(n) == RanCount(s) == s.taken && n.reqs[s.taken].value == s.reqs[s.taken].value
  {
    assert PointOk(s, s.taken, init, apply);
  }

  lemma WorkerTakeKeeps<S>(s: State<S>, init: S, apply: (S, string) -> S)
    requires Inv(s, init, apply)
    ensures !DoWorkerTake(s, apply).Wrong? && (DoWorkerTake(s, apply).Moved? ==> Inv(DoWorkerTake(s, apply).next, init, apply))
  {
    if DoWorkerTake(s, apply).Moved? {
      var n := DoWorkerTake(s, apply).next;
      TakePoint(s, n, init, apply);
      RecordKeeps(s, n, s.taken, init, apply);
    }
  }

  /** The record of `x` changes, but not the client's state, what was run, or the copy a snapshot took. */
  lemma RecordKeeps<S>(s: State<S>, n: State<S>, x: Id, init: S, apply: (S, string) -> S)
    requires Inv(s, init, apply) && SameElsewhere(s, n, x) && RequestOk(n.reqs[x]) && Placed(n, x) && Shape(n)
    requires n.fsm == s.fsm && RanCount(n) == RanCount(s) && n.reqs[x].value == s.reqs[x].value
    ensures Inv(n, init, apply)
  {
    assert PointOk(s, x, init, apply);
    FoldSame(s.reqs, n.reqs, x, init, apply);
    FoldSame(s.reqs, n.reqs, RanCount(s), init, apply);
    PointsOk(s, n, x, init, apply);
  }

  /** Another thread changes the record of `x`. */
  lemma OtherKeeps<S>(s: State<S>, n: State<S>, x: Id, init: S, apply: (S, string) -> S)
    requires Inv(s, init, apply) && SameElsewhere(s, n, x) && RequestOk(n.reqs[x]) && Placed(n, x)
    requires n.reqs[x].worker == s.reqs[x].worker && n.reqs[x].value == s.reqs[x].value
    requires n.fsm == s.fsm && n.taken == s.taken && n.busy == s.busy
    ensures Inv(n, init, apply)
  {
    RecordKeeps(s, n, x, init, apply);
  }

  lemma SnapKeeps<S>(s: State<S>, a: Step<S>, init: S, apply: (S, string) -> S)
    requires Inv(s, init, apply) && BySnapper(a)
    ensures !SnapStep(s, a).Wrong? && (SnapStep(s, a).Moved? ==> Inv(SnapStep(s, a).next, init, apply))
  {
    if s.snapper.Some? {
      var x := s.snapper.value;
      assert PointOk(s, x, init, apply);
      SnapLocalOk(s.reqs[x], a, s.fsm);
      var l := SnapLocal(s.reqs[x], a, s.fsm);
      if l.Ok? {
        SnapPoint(s, x, l, init, apply);
        OtherKeeps(s, SnapEffect(s, x, l).next, x, init, apply);
      }
    }
  }

  lemma SnapPoint<S>(s: State<S>, x: Id, l: Local<S>, init: S, apply: (S, string) -> S)
    requires Inv(s, init, apply) && s.snapper == Some(x) && x < |s.reqs| && l.Ok? && RequestOk(l.request)
    requires l.request.worker == s.reqs[x].worker && l.request.snap != NoJob && l.request.snap != JobQueued
    ensures SnapEffect(s, x, l).Moved?
    ensures var n := SnapEffect(s, x, l).next; SameElsewhere(s, n, x) && Placed(n, x) && n.reqs[x] == l.request
  {
    assert PointOk(s, x, init, apply);
  }

  lemma SnapTakeKeeps<S>(s: State<S>, init: S, apply: (S, string) -> S)
    requires Inv(s, init, apply)
    ensures !DoSnapTake(s).Wrong? && (DoSnapTake(s).Moved? ==> Inv(DoSnapTake(s).next, init, apply))
  {
    if s.jobs != [] && s.snapper.None? {
      var x := s.jobs[0];
      HeadTail(s.jobs);
      assert multiset(s.jobs) == multiset{x} + multiset(s.jobs[1..]);
      assert PointOk(s, x, init, apply);
      SnapLocalOk(s.reqs[x], SnapTake, s.fsm);
      if DoSnapTake(s).Moved? {
        OtherKeeps(s, DoSnapTake(s).next, x, init, apply);
      }
    }
  }

  lemma FreeKeeps<S>(s: State<S>, id: Id, init: S, apply: (S, string) -> S)
    requires Inv(s, init, apply) && id < |s.reqs|
    ensures var o := Applied(s, id, RaftLocal(s.reqs[id], s.fsm)); !o.Wrong? && (o.Moved? ==> Inv(o.next, init, apply))
  {
    assert PointOk(s, id, init, apply);
    RaftLocalOk(s.reqs[id], s.fsm);
    var o := Applied(s, id, RaftLocal(s.reqs[id], s.fsm));
    if o.Moved? {
      OtherKeeps(s, o.next, id, init, apply);
    }
  }

  lemma SendKeeps<S>(s: State<S>, n: State<S>, kind: Kind<S>, init: S, apply: (S, string) -> S)
    requires Inv(s, init, apply) && n == s.(reqs := s.reqs + [NewRequest(kind)])
    ensures Inv(n, init, apply)
  {
    FoldSame(s.reqs, n.reqs, RanCount(s), init, apply);
    forall id: Id
      ensures PointOk(n, id, init, apply)
    {
      assert PointOk(s, id, init, apply);
      if id < |s.reqs| {
        FoldSame(s.reqs, n.reqs, id, init, apply);
      }
    }
  }

  lemma StepKeeps<S>(s: State<S>, a: Step<S>, init: S, apply: (S, string) -> S)
    requires Inv(s, init, apply)
    ensures !Do(s, a, apply).Wrong? && (Do(s, a, apply).Moved? ==> Inv(Do(s, a, apply).next, init, apply))
  {
    if ByWorker(a) {
      WorkerKeeps(s, a, init, apply);
    } else if BySnapper(a) {
      SnapKeeps(s, a, init, apply);
    } else if a.WorkerTake? {
      WorkerTakeKeeps(s, init, apply);
    } else if a.SnapTake? {
      SnapTakeKeeps(s, init, apply);
    } else if a.RaftFree? {
      if a.id < |s.reqs| { FreeKeeps(s, a.id, init, apply); }
    } else if Do(s, a, apply).Moved? {
      SendKeeps(s, Do(s, a, apply).next, a.kind, init, apply);
    }
  }
}
