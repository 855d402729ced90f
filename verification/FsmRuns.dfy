/** The FSM side over whole runs: replies, and snapshots as consistent cuts. */
module FsmRuns {
  import opened CallSlots
  import opened FsmProtocol
  import opened FsmSafety

  lemma {:induction false} RunKeeps<S>(s: State<S>, run: seq<Step<S>>, e: State<S>, init: S, apply: (S, string) -> S)
    requires Inv(s, init, apply) && Reaches(s, run, e, apply)
    ensures Inv(e, init, apply)
    decreases |run|
  {
    if run != [] {
      StepKeeps(s, run[0], init, apply);
      RunKeeps(Do(s, run[0], apply).next, run[1..], e, init, apply);
    }
  }

  lemma ReachableOk<S>(run: seq<Step<S>>, e: State<S>, init: S, apply: (S, string) -> S)
    requires Reaches(Start(init), run, e, apply)
    ensures Inv(e, init, apply)
  {
    RunKeeps(Start(init), run, e, init, apply);
  }

  /**
   No thread ever touches a freed request, finds one it took not Pending, locks one it
   holds (even when begin_snapshot completes at once), or replies to one twice.
   */
  lemma NothingEverGoesWrong<S>(run: seq<Step<S>>, e: State<S>, a: Step<S>, init: S, apply: (S, string) -> S)
    requires Reaches(Start(init), run, e, apply)
    ensures !Do(e, a, apply).Wrong?
  {
    ReachableOk(run, e, init, apply);
    StepKeeps(e, a, init, apply);
  }

  /** At most one reply; exactly one for a command or restore the worker is done with; none for another log type. */
  lemma RepliesByKind<S>(run: seq<Step<S>>, e: State<S>, id: Id, init: S, apply: (S, string) -> S)
    requires Reaches(Start(init), run, e, apply) && id < |e.reqs|
    ensures var r := e.reqs[id];
            && r.replies <= 1
            && (IsReplied(r.kind) ==> (r.replies == 1 <==> r.worker == Leaving || r.worker == Left))
            && (r.kind.OtherLog? ==> r.replies == 0)
            && (r.memory.Slot? ==> (Terminal(r.memory.call) <==> r.replies == 1))
            && (r.memory.Freed? ==> r.replies == 1)
  {
    ReachableOk(run, e, init, apply);
    assert PointOk(e, id, init, apply);
  }

  // ----- Snapshots -----

  /** What a snapshot job writes is the state after exactly the requests that precede its own. */
  lemma SnapshotIsCut<S>(run: seq<Step<S>>, e: State<S>, id: Id, init: S, apply: (S, string) -> S)
    requires Reaches(Start(init), run, e, apply) && id < |e.reqs| && e.reqs[id].written.Some?
    ensures e.reqs[id].kind.Snapshot? && e.reqs[id].written.value == Fold(e.reqs, id, init, apply)
  {
    ReachableOk(run, e, init, apply);
    assert PointOk(e, id, init, apply);
  }

  /** A request sequence that starts with a restore of `v` and goes on as `reqs` does after `id`. */
  ghost predicate Resumes<S>(reqs: seq<Request<S>>, id: Id, v: S, other: seq<Request<S>>) {
    && id < |reqs| && |other| == |reqs| - id && other[0].kind == Restore(Some(v))
    && forall i :: id < i < |reqs| ==> other[i - id].kind == reqs[i].kind
  }

  lemma {:induction false} ReplayAgrees<S>(reqs: seq<Request<S>>, id: Id, v: S, other: seq<Request<S>>, k: nat,
                                           init: S, fresh_: S, apply: (S, string) -> S)
    requires Resumes(reqs, id, v, other) && reqs[id].kind.Snapshot? && v == Fold(reqs, id, init, apply) && id < k <= |reqs|
    ensures Fold(other, k - id, fresh_, apply) == Fold(reqs, k, init, apply)
    decreases k
  {
    if k > id + 1 {
      ReplayAgrees(reqs, id, v, other, k - 1, init, fresh_, apply);
    }
  }

  /** The worker is between requests and the queue is empty. */
  predicate CaughtUp<S>(s: State<S>) {
    !s.busy && s.taken == |s.reqs|
  }

  /**
   Two systems: one has written a snapshot for request `id`; the other, started from
   any state, restores what was written and is then sent the later requests.  In
   every interleaving of each, when both have caught up their states are equal.
   */
  lemma RestoredCatchesUp<S>(run: seq<Step<S>>, e: State<S>, id: Id, init: S,
                             run2: seq<Step<S>>, e2: State<S>, fresh_: S, apply: (S, string) -> S)
    requires Reaches(Start(init), run, e, apply) && Reaches(Start(fresh_), run2, e2, apply)
    requires id < |e.reqs| && e.reqs[id].written.Some? && Resumes(e.reqs, id, e.reqs[id].written.value, e2.reqs)
    requires CaughtUp(e) && CaughtUp(e2)
    ensures e2.fsm == e.fsm
  {
    SnapshotIsCut(run, e, id, init, apply);
    ReachableOk(run, e, init, apply);
    ReachableOk(run2, e2, fresh_, apply);
    ReplayAgrees(e.reqs, id, e.reqs[id].written.value, e2.reqs, |e.reqs|, init, fresh_, apply);
  }
}
