/**
 The call protocol together with its two queues as they are built: the ring of
 the API queue and the deque of orphans take steps of their own, thread by
 thread.  Each of their steps is the protocol's step or none, and every run of
 the whole is a run of each part.
 */
module CallQueues {
  import opened CondVar
  import opened SeqFacts
  import opened QueueRefinement
  import R = RingQueue
  import D = ClosableDeque
  import P = CallProtocol
  import S = CallSafety
  import F = FsmProtocol

  type Id = P.Id

  datatype Joint = Joint(ring: R.State<Id>, deque: D.State<Id>, s: P.State)

  datatype Step = Ring(a: R.Step<Id>) | Deque(d: D.Step<Id>) | Alone(b: P.Step)

  /** What a step of a thread in the ring is in the protocol; an exception is the refusal of the slot. */
  function RingPartner(q: R.State<Id>, a: R.Step<Id>): F.Option<P.Step>
    requires R.Enabled(q, a)
  {
    match a
    case PutEnter(_, v) => if q.closed then F.Some(P.PutClosed(v)) else F.None
    case PutRun(t, _) =>
      if Leaves(q, a) then F.Some(P.PutClosed(q.offers[t]))
      else if q.ring.count == |q.ring.cells| then F.None
      else F.Some(P.Put(q.offers[t]))
    case TakeRun(_, _) => if Leaves(q, a) || q.ring.count == 0 then F.None else F.Some(P.RaftTake)
    case Close => F.Some(P.CloseApi)
    case _ => F.None
  }

  function DequePartner(q: D.State<Id>, d: D.Step<Id>): F.Option<P.Step> {
    match d
    case Put(v, _) => F.Some(P.TrackOrphan(v))
    case Enter(_, _) => if q.closed || q.items == [] then F.None else F.Some(P.GcTake)
    case Resume(_) => if q.closed || q.items == [] then F.None else F.Some(P.GcTake)
    case Close => F.Some(P.CloseOrphans)
    case _ => F.None
  }

  /** The steps that go through a queue. */
  predicate Queued(b: P.Step) {
    b.Put? || b.PutClosed? || b.TrackOrphan? || b.RaftTake? || b.GcTake? || b.CloseApi? || b.CloseOrphans?
  }

  /** The slot is one that its client is sending, and it is in nobody else's `put`. */
  ghost predicate Fresh(j: Joint, v: Id) {
    && v in j.s.calls && j.s.calls[v].client == P.Sending
    && forall t :: t in Everyone(j.ring.producers) && t in j.ring.offers ==> j.ring.offers[t] != v
  }

  /** Who calls what: clients put their own slots, the collector takes when it waits; the orphan queue is not reset. */
  ghost predicate Admits(j: Joint, x: Step) {
    match x
    case Ring(a) => R.Enabled(j.ring, a) && (a.PutEnter? ==> Fresh(j, a.v))
    case Deque(d) =>
      && D.Enabled(j.deque, d) && !d.Reset?
      && (d.Put? ==> d.v in j.s.calls && j.s.calls[d.v].client == P.Tracking)
      && (d.Enter? || d.Resume? ==> j.s.gc.Waiting?)
    case Alone(b) => !Queued(b) && P.Do(j.s, b).Moved?
  }

  function Partner(j: Joint, x: Step): F.Option<P.Step>
    requires x.Ring? ==> R.Enabled(j.ring, x.a)
  {
    match x
    case Ring(a) => RingPartner(j.ring, a)
    case Deque(d) => DequePartner(j.deque, d)
    case Alone(b) => F.Some(b)
  }

  /** The partner's effect; a step without one leaves the protocol alone. */
  ghost predicate Follows(s: P.State, b: F.Option<P.Step>, n: P.State) {
    if b.None? then n == s else P.Do(s, b.value) == P.Moved(n)
  }

  ghost predicate Moves(j: Joint, x: Step, n: Joint) {
    && Admits(j, x) && Follows(j.s, Partner(j, x), n.s)
    && n.ring == (if x.Ring? then R.Next(j.ring, x.a) else j.ring)
    && n.deque == (if x.Deque? then D.Next(j.deque, x.d) else j.deque)
  }

  // ----- What every joint step keeps -----

  /** A thread in `put` offers a slot that is being sent. */
  ghost predicate Offers(q: R.State<Id>, s: P.State, t: Tid) {
    t in Everyone(q.producers) ==> t in q.offers && q.offers[t] in s.calls && s.calls[q.offers[t]].client == P.Sending
  }

  ghost predicate OffersApart(q: R.State<Id>, t: Tid, u: Tid) {
    t in Everyone(q.producers) && u in Everyone(q.producers) && t in q.offers && u in q.offers && q.offers[t] == q.offers[u] ==> t == u
  }

  ghost predicate Offered(q: R.State<Id>, s: P.State) {
    (forall t :: Offers(q, s, t)) && (forall t, u :: OffersApart(q, t, u))
  }

  ghost predicate Linked(j: Joint) {
    && S.Inv(j.s) && Holds(j.ring, j.s.apiQ) && j.ring.closed == j.s.apiClosed && Offered(j.ring, j.s)
    && j.deque.items == j.s.orphanQ && j.deque.closed == j.s.orphanClosed
  }

  lemma ClientSending(s: P.State, b: P.Step, n: P.State, id: Id)
    requires P.ByClient(b) && P.ClientStep(s, b) == P.Moved(n) && id in s.calls && s.calls[id].client == P.Sending
    requires b != P.Put(id) && b != P.PutClosed(id)
    ensures id in n.calls && n.calls[id].client == P.Sending
  {
  }

  lemma RaftSending(s: P.State, b: P.Step, n: P.State, id: Id)
    requires P.ByRaft(b) && P.RaftStep(s, b) == P.Moved(n) && id in s.calls && s.calls[id].client == P.Sending
    ensures id in n.calls && n.calls[id].client == P.Sending
  {
  }

  /** Only its own client's put ends the sending of a slot. */
  lemma SendingStays(s: P.State, b: P.Step, n: P.State, id: Id)
    requires P.Do(s, b) == P.Moved(n) && id in s.calls && s.calls[id].client == P.Sending && b != P.Put(id) && b != P.PutClosed(id)
    ensures id in n.calls && n.calls[id].client == P.Sending
  {
    if P.ByClient(b) {
      ClientSending(s, b, n, id);
    } else if P.ByRaft(b) {
      RaftSending(s, b, n, id);
    }
  }

  /** What a protocol step does to the queues. */
  ghost predicate QueueEffect(s: P.State, b: P.Step, n: P.State) {
    && n.apiQ == (if b.Put? then s.apiQ + [b.id] else if b.RaftTake? && s.apiQ != [] then s.apiQ[1..] else s.apiQ)
    && n.orphanQ == (if b.TrackOrphan? && !s.orphanClosed then s.orphanQ + [b.id]
                     else if b.GcTake? && s.orphanQ != [] then s.orphanQ[1..] else s.orphanQ)
    && n.apiClosed == (s.apiClosed || b.CloseApi?) && n.orphanClosed == (s.orphanClosed || b.CloseOrphans?)
  }

  lemma ClientQueues(s: P.State, b: P.Step, n: P.State)
    requires P.ByClient(b) && P.ClientStep(s, b) == P.Moved(n)
    ensures QueueEffect(s, b, n)
  {
  }

  lemma QueuesAfter(s: P.State, b: P.Step, n: P.State)
    requires P.Do(s, b) == P.Moved(n)
    ensures QueueEffect(s, b, n)
  {
    if P.ByClient(b) {
      ClientQueues(s, b, n);
    }
  }

  /** A thread that sends a slot is refused if the queue is closed, and else can put it if there is room. */
  lemma SendMoves(s: P.State, id: Id)
    requires S.Inv(s) && id in s.calls && s.calls[id].client == P.Sending
    ensures |s.apiQ| < P.API_CAPACITY ==> P.Do(s, P.Put(id)).Moved?
    ensures s.apiClosed ==> P.Do(s, P.PutClosed(id)).Moved?
  {
    S.ClientKeeps(s, P.Put(id));
    S.ClientKeeps(s, P.PutClosed(id));
  }

  /** The ring never does what the protocol cannot. */
  lemma RingMoves(j: Joint, a: R.Step<Id>)
    requires Linked(j) && Admits(j, Ring(a))
    ensures var b := RingPartner(j.ring, a); b.Some? ==> P.Do(j.s, b.value).Moved?
  {
    match a
    case PutEnter(_, v) => SendMoves(j.s, v);
    case PutRun(t, _) =>
      assert Offers(j.ring, j.s, t);
      SendMoves(j.s, j.ring.offers[t]);
    case TakeRun(_, _) => S.RaftTakeKeeps(j.s);
    case _ =>
  }

  /** Who is in `put` after a step of the ring. */
  lemma RingCrew(q: R.State<Id>, a: R.Step<Id>, t: Tid)
    requires R.Enabled(q, a) && t in Everyone(R.Next(q, a).producers)
    ensures var n := R.Next(q, a);
            if t in Everyone(q.producers) then t in q.offers ==> t in n.offers && n.offers[t] == q.offers[t]
            else a.PutEnter? && a.t == t && !q.closed && t in n.offers && n.offers[t] == a.v
    ensures var b := RingPartner(q, a); b.Some? && a.PutRun? ==> t != a.t
  {
  }

  lemma OfferStays(j: Joint, a: R.Step<Id>, n: Joint, t: Tid)
    requires Linked(j) && Moves(j, Ring(a), n)
    ensures Offers(n.ring, n.s, t)
  {
    if t in Everyone(n.ring.producers) {
      RingCrew(j.ring, a, t);
      assert Offers(j.ring, j.s, t);
      var b := RingPartner(j.ring, a);
      if b.Some? {
        if a.PutRun? {
          assert OffersApart(j.ring, t, a.t);
        }
        SendingStays(j.s, b.value, n.s, n.ring.offers[t]);
      }
    }
  }

  lemma ApartStays(j: Joint, a: R.Step<Id>, n: Joint, t: Tid, u: Tid)
    requires Linked(j) && Moves(j, Ring(a), n)
    ensures OffersApart(n.ring, t, u)
  {
    if t in Everyone(n.ring.producers) && u in Everyone(n.ring.producers) {
      RingCrew(j.ring, a, t);
      RingCrew(j.ring, a, u);
      assert Offers(j.ring, j.s, t) && Offers(j.ring, j.s, u) && OffersApart(j.ring, t, u);
    }
  }

  lemma RingHolds(j: Joint, a: R.Step<Id>, n: Joint)
    requires Linked(j) && Moves(j, Ring(a), n)
    ensures Holds(n.ring, n.s.apiQ) && n.ring.closed == n.s.apiClosed && n.s.orphanQ == j.s.orphanQ && n.s.orphanClosed == j.s.orphanClosed
  {
    RingStep(j.ring, a, j.s.apiQ);
    var b := RingPartner(j.ring, a);
    if b.Some? {
      QueuesAfter(j.s, b.value, n.s);
    }
  }

  lemma RingKeeps(j: Joint, a: R.Step<Id>, n: Joint)
    requires Linked(j) && Moves(j, Ring(a), n)
    ensures Linked(n)
  {
    forall t
      ensures Offers(n.ring, n.s, t)
    {
      OfferStays(j, a, n, t);
    }
    forall t, u
      ensures OffersApart(n.ring, t, u)
    {
      ApartStays(j, a, n, t, u);
    }
    RingHolds(j, a, n);
    if RingPartner(j.ring, a).Some? {
      S.StepKeeps(j.s, RingPartner(j.ring, a).value);
    }
  }

  /** A step of the protocol alone or of the deque leaves the ring and its offers as they are. */
  lemma RingUntouched(j: Joint, b: P.Step, s: P.State)
    requires Linked(j) && P.Do(j.s, b) == P.Moved(s) && !b.Put? && !b.PutClosed? && !b.RaftTake? && !b.CloseApi?
    ensures S.Inv(s) && Holds(j.ring, s.apiQ) && j.ring.closed == s.apiClosed && Offered(j.ring, s)
  {
    S.StepKeeps(j.s, b);
    QueuesAfter(j.s, b, s);
    forall t
      ensures Offers(j.ring, s, t)
    {
      assert Offers(j.ring, j.s, t);
      if t in Everyone(j.ring.producers) {
        SendingStays(j.s, b, s, j.ring.offers[t]);
      }
    }
  }

  /** The deque never does what the protocol cannot. */
  lemma DequeMoves(j: Joint, d: D.Step<Id>)
    requires Linked(j) && Admits(j, Deque(d))
    ensures var b := DequePartner(j.deque, d); b.Some? ==> P.Do(j.s, b.value).Moved?
  {
  }

  lemma DequeKeeps(j: Joint, d: D.Step<Id>, n: Joint)
    requires Linked(j) && Moves(j, Deque(d), n)
    ensures Linked(n)
  {
    var b := DequePartner(j.deque, d);
    if b.Some? {
      RingUntouched(j, b.value, n.s);
      QueuesAfter(j.s, b.value, n.s);
    }
  }

  lemma AloneKeeps(j: Joint, b: P.Step, n: Joint)
    requires Linked(j) && Moves(j, Alone(b), n)
    ensures Linked(n)
  {
    RingUntouched(j, b, n.s);
    QueuesAfter(j.s, b, n.s);
  }

  /** Every step of a thread in either queue can be taken together with its partner, and every joint step keeps the link. */
  lemma JointStep(j: Joint, x: Step)
    requires Linked(j) && Admits(j, x)
    ensures Partner(j, x).Some? ==> P.Do(j.s, Partner(j, x).value).Moved?
    ensures forall n :: Moves(j, x, n) ==> Linked(n)
  {
    match x {
      case Ring(a) => RingMoves(j, a);
      case Deque(d) => DequeMoves(j, d);
      case Alone(_) =>
    }
    forall n | Moves(j, x, n)
      ensures Linked(n)
    {
      match x {
        case Ring(a) => RingKeeps(j, a, n);
        case Deque(d) => DequeKeeps(j, d, n);
        case Alone(b) => AloneKeeps(j, b, n);
      }
    }
  }

  // ----- Whole runs -----

  /** `j`, through the states of `trace` by the steps of `run`, ends in `e`. */
  ghost predicate Reaches(j: Joint, run: seq<Step>, trace: seq<Joint>, e: Joint)
    decreases |run|
  {
    if run == [] then j == e && trace == []
    else trace != [] && Moves(j, run[0], trace[0]) && Reaches(trace[0], run[1..], trace[1..], e)
  }

  ghost predicate Initial(j: Joint) {
    R.Initial(j.ring) && |j.ring.ring.cells| == 8 && D.Initial(j.deque) && j.s == P.Start
  }

  lemma InitialLinked(j: Joint)
    requires Initial(j)
    ensures Linked(j)
  {
    assert R.Contents(j.ring.ring) == [];
  }

  lemma ProtocolThen(s: P.State, b: F.Option<P.Step>, n: P.State, later: seq<P.Step>, e: P.State) returns (run: seq<P.Step>)
    requires Follows(s, b, n) && P.Reaches(n, later, e)
    ensures P.Reaches(s, run, e)
  {
    run := if b.None? then later else [b.value] + later;
    if b.Some? {
      DropFirst([b.value], later);
    }
  }

  lemma RingThen(q: R.State<Id>, a: R.Step<Id>, later: seq<R.Step<Id>>, e: R.State<Id>) returns (run: seq<R.Step<Id>>)
    requires R.Enabled(q, a) && R.Reaches(R.Next(q, a), later, e)
    ensures R.Reaches(q, run, e)
  {
    run := [a] + later;
    DropFirst([a], later);
  }

  lemma DequeThen(q: D.State<Id>, d: D.Step<Id>, later: seq<D.Step<Id>>, e: D.State<Id>) returns (run: seq<D.Step<Id>>)
    requires D.Enabled(q, d) && D.Reaches(D.Next(q, d), later, e)
    ensures D.Reaches(q, run, e)
  {
    run := [d] + later;
    DropFirst([d], later);
  }

  /** A joint run is a run of each part, and stays linked. */
  lemma {:induction false} JointRun(j: Joint, run: seq<Step>, trace: seq<Joint>, e: Joint)
    returns (ring: seq<R.Step<Id>>, deque: seq<D.Step<Id>>, steps: seq<P.Step>)
    requires Linked(j) && Reaches(j, run, trace, e)
    ensures Linked(e)
    ensures R.Reaches(j.ring, ring, e.ring) && D.Reaches(j.deque, deque, e.deque) && P.Reaches(j.s, steps, e.s)
    decreases |run|
  {
    ring, deque, steps := [], [], [];
    if run != [] {
      var n := trace[0];
      JointStep(j, run[0]);
      ring, deque, steps := JointRun(n, run[1..], trace[1..], e);
      steps := ProtocolThen(j.s, Partner(j, run[0]), n.s, steps, e.s);
      if run[0].Ring? {
        ring := RingThen(j.ring, run[0].a, ring, e.ring);
      } else if run[0].Deque? {
        deque := DequeThen(j.deque, run[0].d, deque, e.deque);
      }
    }
  }

  /**
   In every run of the clients, the Raft process and the collector with the queues
   as they are built: the ring and the deque hold exactly the protocol's queues, in
   order, and what the protocol does is a run of the protocol by itself.
   */
  lemma QueuesHoldTheCalls(j: Joint, run: seq<Step>, trace: seq<Joint>, e: Joint) returns (steps: seq<P.Step>)
    requires Initial(j) && Reaches(j, run, trace, e)
    ensures Holds(e.ring, e.s.apiQ) && e.ring.closed == e.s.apiClosed
    ensures e.deque.items == e.s.orphanQ && e.deque.closed == e.s.orphanClosed
    ensures e.ring.takes + e.s.apiQ == e.ring.puts && e.deque.takes + e.s.orphanQ == e.deque.puts
    ensures P.Reaches(P.Start, steps, e.s)
  {
    InitialLinked(j);
    var ring, deque;
    ring, deque, steps := JointRun(j, run, trace, e);
    R.EveryRun(j.ring, ring, e.ring);
    DequeFifo(j.deque, deque, e.deque);
  }

  lemma {:induction false} DequeFifo(q: D.State<Id>, run: seq<D.Step<Id>>, e: D.State<Id>)
    requires D.Fifo(q) && D.Reaches(q, run, e)
    ensures D.Fifo(e)
    decreases |run|
  {
    if run != [] {
      D.StepFifo(q, run[0]);
      DequeFifo(D.Next(q, run[0]), run[1..], e);
    }
  }
}
