/**
 The FSM side together with its two queues as they are built: the ring of the
 FSM queue and the deque of snapshots.  As for calls, each of their steps is the
 protocol's step or none, and every run of the whole is a run of the protocol.
 */
module FsmQueues {
  import opened SeqFacts
  import opened QueueRefinement
  import R = RingQueue
  import D = ClosableDeque
  import F = FsmProtocol
  import FS = FsmSafety

  datatype Joint<S> = Joint(ring: R.State<F.Kind<S>>, deque: D.State<F.Id>, s: F.State<S>)

  datatype Step<S> = Ring(a: R.Step<F.Kind<S>>) | Deque(d: D.Step<F.Id>) | Alone(b: F.Step<S>)

  function RingPartner<S>(q: R.State<F.Kind<S>>, a: R.Step<F.Kind<S>>): F.Option<F.Step<S>>
    requires R.Enabled(q, a)
  {
    match a
    case PutRun(t, _) =>
      if Leaves(q, a) || q.ring.count == |q.ring.cells| then F.None else F.Some(F.Send(q.offers[t]))
    case TakeRun(_, _) => if Leaves(q, a) || q.ring.count == 0 then F.None else F.Some(F.WorkerTake)
    case _ => F.None
  }

  function DequePartner<S>(q: D.State<F.Id>, d: D.Step<F.Id>): F.Option<F.Step<S>> {
    match d
    case Put(_, _) => F.Some(F.WorkerHandOver)
    case Enter(_, _) => if q.closed || q.items == [] then F.None else F.Some(F.SnapTake)
    case Resume(_) => if q.closed || q.items == [] then F.None else F.Some(F.SnapTake)
    case _ => F.None
  }

  /** The steps that go through a queue. */
  predicate Queued<S>(b: F.Step<S>) {
    b.Send? || b.WorkerTake? || b.WorkerHandOver? || b.SnapTake?
  }

  /** The worker takes when it is free and hands over its own request, before the close; the snapshot worker takes when it is free. */
  ghost predicate Admits<S>(j: Joint<S>, x: Step<S>, apply: (S, string) -> S) {
    match x
    case Ring(a) => R.Enabled(j.ring, a) && (a.TakeRun? ==> !j.s.busy)
    case Deque(d) =>
      && D.Enabled(j.deque, d) && !d.Reset?
      && (d.Put? ==> !j.deque.closed && j.s.busy && 0 < j.s.taken <= |j.s.reqs| && d.v == j.s.taken - 1 && j.s.reqs[d.v].worker == F.Begin(false))
      && (d.Enter? || d.Resume? ==> j.s.snapper.None?)
    case Alone(b) => !Queued(b) && F.Do(j.s, b, apply).Moved?
  }

  function Partner<S>(j: Joint<S>, x: Step<S>): F.Option<F.Step<S>>
    requires x.Ring? ==> R.Enabled(j.ring, x.a)
  {
    match x
    case Ring(a) => RingPartner(j.ring, a)
    case Deque(d) => DequePartner(j.deque, d)
    case Alone(b) => F.Some(b)
  }

  ghost predicate Follows<S>(s: F.State<S>, b: F.Option<F.Step<S>>, n: F.State<S>, apply: (S, string) -> S) {
    if b.None? then n == s else F.Do(s, b.value, apply) == F.Moved(n)
  }

  ghost predicate Moves<S>(j: Joint<S>, x: Step<S>, n: Joint<S>, apply: (S, string) -> S) {
    && Admits(j, x, apply) && Follows(j.s, Partner(j, x), n.s, apply)
    && n.ring == (if x.Ring? then R.Next(j.ring, x.a) else j.ring)
    && n.deque == (if x.Deque? then D.Next(j.deque, x.d) else j.deque)
  }

  ghost predicate Linked<S>(j: Joint<S>, init: S, apply: (S, string) -> S) {
    FS.Inv(j.s, init, apply) && Holds(j.ring, Waiting(j.s)) && j.deque.items == j.s.jobs
  }

  // ----- What every joint step keeps -----

  /** Steps that go through no queue leave both alone. */
  lemma AloneQueues<S>(s: F.State<S>, b: F.Step<S>, n: F.State<S>, apply: (S, string) -> S)
    requires F.Do(s, b, apply) == F.Moved(n) && FS.Shape(s) && !b.Send? && !b.WorkerTake?
    ensures |n.reqs| == |s.reqs| && n.taken == s.taken && forall i :: s.taken <= i < |s.reqs| ==> n.reqs[i].kind == s.reqs[i].kind
    ensures n.jobs == (if b.WorkerHandOver? then s.jobs + [s.taken - 1] else if b.SnapTake? && s.jobs != [] then s.jobs[1..] else s.jobs)
  {
  }

  lemma WaitingSame<S>(s: F.State<S>, n: F.State<S>)
    requires s.taken == n.taken <= |n.reqs| == |s.reqs| && forall i :: s.taken <= i < |s.reqs| ==> n.reqs[i].kind == s.reqs[i].kind
    ensures Waiting(n) == Waiting(s)
  {
  }

  lemma RingStepLinked<S>(j: Joint<S>, a: R.Step<F.Kind<S>>, init: S, apply: (S, string) -> S)
    requires Linked(j, init, apply) && Admits(j, Ring(a), apply)
    ensures var b, q := RingPartner(j.ring, a), R.Next(j.ring, a);
            if b.None? then Holds(q, Waiting(j.s))
            else var o := F.Do(j.s, b.value, apply); o.Moved? && FS.Shape(o.next) && Holds(q, Waiting(o.next)) && o.next.jobs == j.s.jobs
  {
    RingStep(j.ring, a, Waiting(j.s));
    if a.PutRun? && !Leaves(j.ring, a) {
      FsmPut(j.ring, a, j.s, apply);
    } else if a.TakeRun? && !Leaves(j.ring, a) {
      FsmTake(j.ring, a, j.s, init, apply);
    }
  }

  lemma DequeStepLinked<S>(j: Joint<S>, d: D.Step<F.Id>, init: S, apply: (S, string) -> S)
    requires Linked(j, init, apply) && Admits(j, Deque(d), apply)
    ensures var b, q := DequePartner<S>(j.deque, d), D.Next(j.deque, d);
            if b.None? then q.items == j.s.jobs
            else var o := F.Do(j.s, b.value, apply); o.Moved? && q.items == o.next.jobs
  {
    if DequePartner<S>(j.deque, d) == F.Some(F.SnapTake) {
      SnapshotTake(j.deque, d.t, j.s, init, apply);
    }
  }

  /** Every step of a thread in either queue can be taken together with its partner, and every joint step keeps the link. */
  lemma JointStep<S>(j: Joint<S>, x: Step<S>, init: S, apply: (S, string) -> S)
    requires Linked(j, init, apply) && Admits(j, x, apply)
    ensures Partner(j, x).Some? ==> F.Do(j.s, Partner(j, x).value, apply).Moved?
    ensures forall n :: Moves(j, x, n, apply) ==> Linked(n, init, apply)
  {
    match x {
      case Ring(a) => RingStepLinked(j, a, init, apply);
      case Deque(d) => DequeStepLinked(j, d, init, apply);
      case Alone(_) =>
    }
    forall n | Moves(j, x, n, apply)
      ensures Linked(n, init, apply)
    {
      StepLinked(j, x, n, init, apply);
    }
  }

  lemma StepLinked<S>(j: Joint<S>, x: Step<S>, n: Joint<S>, init: S, apply: (S, string) -> S)
    requires Linked(j, init, apply) && Moves(j, x, n, apply)
    ensures Linked(n, init, apply)
  {
    var b := Partner(j, x);
    if b.Some? {
      FS.StepKeeps(j.s, b.value, init, apply);
    }
    match x
    case Ring(a) => RingStepLinked(j, a, init, apply);
    case Deque(d) =>
      DequeStepLinked(j, d, init, apply);
      if b.Some? {
        AloneQueues(j.s, b.value, n.s, apply);
        WaitingSame(j.s, n.s);
      }
    case Alone(_) =>
      AloneQueues(j.s, b.value, n.s, apply);
      WaitingSame(j.s, n.s);
  }

  // ----- Whole runs -----

  /** `j`, through the states of `trace` by the steps of `run`, ends in `e`. */
  ghost predicate Reaches<S>(j: Joint<S>, run: seq<Step<S>>, trace: seq<Joint<S>>, e: Joint<S>, apply: (S, string) -> S)
    decreases |run|
  {
    if run == [] then j == e && trace == []
    else trace != [] && Moves(j, run[0], trace[0], apply) && Reaches(trace[0], run[1..], trace[1..], e, apply)
  }

  ghost predicate Initial<S>(j: Joint<S>, init: S) {
    R.Initial(j.ring) && |j.ring.ring.cells| == 8 && D.Initial(j.deque) && j.s == F.Start(init)
  }

  lemma ProtocolThen<S>(s: F.State<S>, b: F.Option<F.Step<S>>, n: F.State<S>, later: seq<F.Step<S>>, e: F.State<S>, apply: (S, string) -> S)
    returns (run: seq<F.Step<S>>)
    requires Follows(s, b, n, apply) && F.Reaches(n, later, e, apply)
    ensures F.Reaches(s, run, e, apply)
  {
    run := if b.None? then later else [b.value] + later;
    if b.Some? {
      DropFirst([b.value], later);
    }
  }

  lemma {:induction false} JointRun<S>(j: Joint<S>, run: seq<Step<S>>, trace: seq<Joint<S>>, e: Joint<S>, init: S, apply: (S, string) -> S)
    returns (steps: seq<F.Step<S>>)
    requires Linked(j, init, apply) && Reaches(j, run, trace, e, apply)
    ensures Linked(e, init, apply) && F.Reaches(j.s, steps, e.s, apply)
    decreases |run|
  {
    steps := [];
    if run != [] {
      JointStep(j, run[0], init, apply);
      steps := JointRun(trace[0], run[1..], trace[1..], e, init, apply);
      steps := ProtocolThen(j.s, Partner(j, run[0]), trace[0].s, steps, e.s, apply);
    }
  }

  /**
   In every run of the Raft process and the two workers with the queues as they are
   built: the ring holds exactly the requests that were not taken, in order, the
   deque the snapshots handed over, and what the protocol does is one of its runs.
   */
  lemma QueuesHoldTheRequests<S>(j: Joint<S>, run: seq<Step<S>>, trace: seq<Joint<S>>, e: Joint<S>, init: S, apply: (S, string) -> S)
    returns (steps: seq<F.Step<S>>)
    requires Initial(j, init) && Reaches(j, run, trace, e, apply)
    ensures e.s.taken <= |e.s.reqs| && Holds(e.ring, Waiting(e.s)) && e.deque.items == e.s.jobs
    ensures F.Reaches(F.Start(init), steps, e.s, apply)
  {
    assert R.Contents(j.ring.ring) == [];
    steps := JointRun(j, run, trace, e, init, apply);
  }
}
