/**
 The queues of the two protocol machines are sequences.  Here each is set beside
 the queue class that provides it: a step of the class that stores or takes is
 the protocol's step, one that waits is a step the protocol cannot take, and all
 others leave the contents alone.
 */
module QueueRefinement {
  import opened SeqFacts
  import opened RingQueue
  import D = ClosableDeque
  import P = CallProtocol
  import S = CallSafety
  import F = FsmProtocol
  import FS = FsmSafety

  /** A ring of 8 cells holds these items. */
  ghost predicate Holds<T>(q: State<T>, items: seq<T>) {
    RingOk(q.ring) && |q.ring.cells| == 8 && Contents(q.ring) == items
  }

  predicate Leaves<T>(q: State<T>, a: Step<T>) {
    q.closed && if a.PutRun? then a.t in q.producers.signalled || a.t in q.producers.stirred
                else a.TakeRun? && (a.t in q.consumers.signalled || a.t in q.consumers.stirred)
  }

  /** What a step of the ring does to the items. */
  lemma RingStep<T>(q: State<T>, a: Step<T>, items: seq<T>)
    requires Holds(q, items) && Enabled(q, a)
    ensures var n := Next(q, a);
            if a.PutRun? && !Leaves(q, a) && |items| < 8 then Holds(n, items + [q.offers[a.t]])
            else if a.TakeRun? && !Leaves(q, a) && items != [] then Holds(n, items[1..]) && n.takes == q.takes + [items[0]]
            else Holds(n, items) && n.takes == q.takes
  {
    if a.PutRun? && !Leaves(q, a) && |items| < 8 {
      PushAppends(q.ring, q.offers[a.t]);
    } else if a.TakeRun? && !Leaves(q, a) && items != [] {
      PopRemoves(q.ring);
      DropFirst([q.ring.cells[q.ring.tail]], Contents(Pop(q.ring)));
    }
  }

  // ----- The API queue -----

  /** A producer past the closed test with a slot to send: it stores exactly if the protocol can. */
  lemma ApiPut(q: State<P.Id>, a: Step<P.Id>, s: P.State)
    requires Holds(q, s.apiQ) && a.PutRun? && Enabled(q, a) && !Leaves(q, a)
    requires S.Inv(s) && q.offers[a.t] in s.calls && s.calls[q.offers[a.t]].client == P.Sending
    ensures var o := P.Do(s, P.Put(q.offers[a.t]));
            if o.Moved? then Holds(Next(q, a), o.next.apiQ) else o == P.Blocked && Holds(Next(q, a), s.apiQ) && a.t in Next(q, a).producers.waiting
  {
    RingStep(q, a, s.apiQ);
    assert S.PointOk(s, q.offers[a.t]);
  }

  lemma ApiTake(q: State<P.Id>, a: Step<P.Id>, s: P.State)
    requires Holds(q, s.apiQ) && a.TakeRun? && Enabled(q, a) && !Leaves(q, a) && S.Inv(s)
    ensures var o := P.Do(s, P.RaftTake);
            if o.Moved? then Holds(Next(q, a), o.next.apiQ) && Next(q, a).takes == q.takes + [s.apiQ[0]]
            else o == P.Blocked && Holds(Next(q, a), s.apiQ) && a.t in Next(q, a).consumers.waiting
  {
    RingStep(q, a, s.apiQ);
    S.RaftTakeKeeps(s);
  }

  // ----- The FSM queue -----

  /** The requests in the queue. */
  function Waiting<S>(s: F.State<S>): seq<F.Kind<S>>
    requires s.taken <= |s.reqs|
  {
    seq(|s.reqs| - s.taken, i requires 0 <= i < |s.reqs| - s.taken => s.reqs[s.taken + i].kind)
  }

  lemma FsmPut<S>(q: State<F.Kind<S>>, a: Step<F.Kind<S>>, s: F.State<S>, apply: (S, string) -> S)
    requires FS.Shape(s) && Holds(q, Waiting(s)) && a.PutRun? && Enabled(q, a) && !Leaves(q, a)
    ensures var o := F.Do(s, F.Send(q.offers[a.t]), apply);
            if o.Moved? then Holds(Next(q, a), Waiting(o.next))
            else o == F.Blocked && Holds(Next(q, a), Waiting(s)) && a.t in Next(q, a).producers.waiting
  {
    RingStep(q, a, Waiting(s));
    var o := F.Do(s, F.Send(q.offers[a.t]), apply);
    if o.Moved? {
      assert Waiting(o.next) == Waiting(s) + [q.offers[a.t]];
    }
  }

  lemma FsmTake<S>(q: State<F.Kind<S>>, a: Step<F.Kind<S>>, s: F.State<S>, init: S, apply: (S, string) -> S)
    requires FS.Inv(s, init, apply) && Holds(q, Waiting(s)) && a.TakeRun? && Enabled(q, a) && !Leaves(q, a) && !s.busy
    ensures var o := F.Do(s, F.WorkerTake, apply);
            if o.Moved? then Holds(Next(q, a), Waiting(o.next)) && s.taken < |s.reqs| && Next(q, a).takes == q.takes + [s.reqs[s.taken].kind]
            else o == F.Blocked && Holds(Next(q, a), Waiting(s)) && a.t in Next(q, a).consumers.waiting
  {
    RingStep(q, a, Waiting(s));
    if s.taken < |s.reqs| {
      assert FS.PointOk(s, s.taken, init, apply);
      WorkerTakes(s, apply);
    }
  }

  lemma WorkerTakes<S>(s: F.State<S>, apply: (S, string) -> S)
    requires s.taken < |s.reqs| && !s.busy && s.reqs[s.taken].worker == F.Queued
    ensures var o := F.Do(s, F.WorkerTake, apply);
            && o.Moved? && o.next.taken == s.taken + 1 <= |o.next.reqs|
            && Waiting(s) != [] && Waiting(s)[0] == s.reqs[s.taken].kind && Waiting(o.next) == Waiting(s)[1..]
  {
  }

  // ----- The orphan queue and the snapshot queue -----

  /** dispose of a slot whose client has not seen the result: it is queued, or lost if the queue is closed. */
  lemma OrphanPut(q: D.State<P.Id>, w: nat, s: P.State, id: P.Id)
    requires q.items == s.orphanQ && q.closed == s.orphanClosed && D.Enabled(q, D.Put(id, w))
    requires id in s.calls && s.calls[id].client == P.Tracking
    ensures P.Do(s, P.TrackOrphan(id)).Moved?
    ensures var n, m := P.Do(s, P.TrackOrphan(id)).next, D.Next(q, D.Put(id, w));
            m.items == n.orphanQ && m.closed == n.orphanClosed && n.calls[id].lost == q.closed
  {
  }

  /** The collector gets an item exactly if the protocol lets it take one. */
  lemma OrphanTake(q: D.State<P.Id>, t: nat, s: P.State)
    requires q.items == s.orphanQ && q.closed == s.orphanClosed && s.gc == P.Waiting
    ensures var m, o := D.Pass(q, t), P.Do(s, P.GcTake);
            if o.Moved? then m.items == o.next.orphanQ && m.takes == q.takes + [o.next.gc.id]
            else o == P.Blocked && m.items == s.orphanQ && m.takes == q.takes
  {
  }

  lemma SnapshotPut<S>(q: D.State<F.Id>, w: nat, s: F.State<S>, apply: (S, string) -> S)
    requires q.items == s.jobs && !q.closed && FS.Shape(s) && s.busy && D.Enabled(q, D.Put(s.taken - 1, w))
    requires s.reqs[s.taken - 1].worker == F.Begin(false)
    ensures var o := F.Do(s, F.WorkerHandOver, apply);
            o.Moved? && D.Next(q, D.Put(s.taken - 1, w)).items == o.next.jobs
  {
  }

  lemma SnapshotTake<S>(q: D.State<F.Id>, t: nat, s: F.State<S>, init: S, apply: (S, string) -> S)
    requires q.items == s.jobs && !q.closed && FS.Inv(s, init, apply) && s.snapper.None?
    ensures var m, o := D.Pass(q, t), F.Do(s, F.SnapTake, apply);
            if o.Moved? then m.items == o.next.jobs && o.next.snapper.Some? && m.takes == q.takes + [o.next.snapper.value]
            else o == F.Blocked && m.items == s.jobs && t in m.takers.waiting
  {
    if s.jobs != [] {
      FS.SnapTakeKeeps(s, init, apply);
      assert s.jobs[0] in multiset(s.jobs);
      assert FS.PointOk(s, s.jobs[0], init, apply);
    }
  }
}
