/**
 What every interleaving of the call protocol keeps: each live slot has exactly
 one owner, nobody touches a freed slot, buffers are freed once, replies happen
 once, and the counters balance.  The invariant is about one record at a time.
 */
module CallSafety {
  import opened CallSlots
  import opened CallProtocol
  import opened SeqFacts

  /** The collector's slots: in its hand, queued, and in the backlog. */
  function Tracked(s: State): multiset<Id> {
    Hand(s.gc) + multiset(s.orphanQ) + multiset(s.backlog)
  }

  function Hand(g: GcPc): multiset<Id> {
    if g.Trying? then multiset{g.id} else multiset{}
  }

  /** A live slot is in exactly one place: with its client, with the collector, or lost to a closed orphan queue. */
  predicate PlacedOnce(r: Record, tracked: nat) {
    One(r.memory.Slot?) == One(r.client != Gone) + tracked + One(r.lost)
  }

  predicate ClientOk(r: Record, c: Call) {
    && (r.client == Sending ==> c.state == Pending && c.client == Issued && r.raft == Absent)
    && (r.client == Asleep ==> !Terminal(c))
    && (c.client == Abandoned <==> r.client == Tracking || r.client == Gone)
    && (c.client == Observed ==> r.raft == Absent && Terminal(c))
    && (c.client == Observed <==> r.waited)
  }

  predicate RaftOk(r: Record, c: Call, locked: bool) {
    && (Terminal(c) ==> (c.state == Success <==> c.error == NoError))
    && (locked <==> r.raft == Locked || r.raft == Writing || r.raft == Replied)
    && (Terminal(c) <==> r.raft == Replied || (r.raft == Absent && r.client != Sending))
  }

  /** Freed by the client only after its wait, by the collector only for a slot never waited for. */
  predicate BufferOk(r: Record) {
    && (r.buf == FreedByClient ==> r.waited)
    && (r.buf == FreedByGc ==> r.memory.Freed? && !r.waited)
    && (r.memory.Freed? && !r.waited ==> r.buf == FreedByGc || r.buf == NoBuf)
  }

  /** A refused slot is never replied to, and no slot twice. */
  predicate RepliesOk(r: Record) {
    && !(r.refused && r.replied)
    && (r.client == Sending ==> !r.refused && !r.replied)
    && (r.client != Sending && r.raft == Absent ==> r.refused || r.replied)
    && (r.raft != Absent ==> !r.refused && (r.replied <==> r.raft == Replied))
  }

  predicate RecordOk(r: Record, queued: nat, tracked: nat) {
    && PlacedOnce(r, tracked) && BufferOk(r) && RepliesOk(r)
    && (r.memory.Slot? ==> ClientOk(r, r.memory.call) && RaftOk(r, r.memory.call, r.memory.locked))
    && (r.raft != Absent ==> r.memory.Slot?)
    && queued == One(r.raft == Queued)
  }

  // ----- One record -----

  lemma ClientLocalOk(r: Record, a: Step, full: bool, apiClosed: bool, orphanClosed: bool, q: nat, t: nat)
    requires RecordOk(r, q, t)
    ensures var l := ClientLocal(r, a, full, apiClosed, orphanClosed);
            && !l.Bad?
            && (l.Ok? ==> RecordOk(l.record, q + One(a.Put?), t + One(a.TrackOrphan? && !orphanClosed)))
            && (l.Ok? ==> (l.record.lost ==> r.lost || orphanClosed))
            && (l.Ok? ==> l.freed == One(r.memory.Slot?) - One(l.record.memory.Slot?))
  {
  }

  lemma RaftLocalOk(r: Record, a: Step, q: nat, t: nat)
    requires RecordOk(r, q, t) && !a.RaftTake?
    ensures var l := RaftLocal(r, a);
            !l.Bad? && (l.Ok? ==> RecordOk(l.record, q, t) && l.record.lost == r.lost && l.freed == 0
                                   && l.record.memory.Slot? && r.memory.Slot?)
  {
  }

  lemma TryDisposeOk(r: Record, q: nat, t: nat)
    requires RecordOk(r, q, t) && t > 0
    ensures var l := TryDispose(r);
            && (l.Stuck? <==> !Disposable(r)) && (l.Ok? <==> Disposable(r))
            && (l.Ok? ==> RecordOk(l.record, q, t - 1) && l.record.lost == r.lost && l.freed == 1 && l.record.memory.Freed? && r.memory.Slot?)
  {
  }

  // ----- The whole system -----

  ghost predicate PointOk(s: State, id: Id) {
    if id in s.calls then
      && RecordOk(s.calls[id], multiset(s.apiQ)[id], Tracked(s)[id])
      && (s.calls[id].lost ==> s.orphanClosed)
    else multiset(s.apiQ)[id] == 0 && Tracked(s)[id] == 0
  }

  function Live(s: State): set<Id> {
    set id | id in s.calls && s.calls[id].memory.Slot?
  }

  ghost predicate Inv(s: State) {
    (forall id :: PointOk(s, id)) && s.allocs == s.frees + |Live(s)|
  }

  /** `n` differs from `s` only in the record of `x` and in how often the queues hold `x`. */
  ghost predicate SameElsewhere(s: State, n: State, x: Id) {
    && (forall id :: id != x ==> (id in n.calls <==> id in s.calls))
    && (forall id :: id != x && id in s.calls ==> n.calls[id] == s.calls[id])
    && (forall id :: id != x ==> multiset(n.apiQ)[id] == multiset(s.apiQ)[id])
    && (forall id :: id != x ==> Tracked(n)[id] == Tracked(s)[id])
    && (s.orphanClosed ==> n.orphanClosed)
  }

  lemma PointsOk(s: State, n: State, x: Id)
    requires Inv(s) && SameElsewhere(s, n, x) && PointOk(n, x)
    ensures forall id :: PointOk(n, id)
  {
    forall id
      ensures PointOk(n, id)
    {
      assert PointOk(s, id);
    }
  }

  lemma SetCount(a: set<Id>, b: set<Id>, x: Id)
    requires a - {x} == b - {x}
    ensures |a| - |b| == One(x in a) - One(x in b)
  {
    assert a == (a - {x}) + if x in a then {x} else {};
    assert b == (b - {x}) + if x in b then {x} else {};
  }

  /** The counters move with the number of live slots. */
  lemma CountsOk(s: State, n: State, x: Id)
    requires s.allocs == s.frees + |Live(s)| && SameElsewhere(s, n, x)
    requires n.allocs - n.frees == s.allocs - s.frees + One(x in Live(n)) - One(x in Live(s))
    ensures n.allocs == n.frees + |Live(n)|
  {
    assert Live(n) - {x} == Live(s) - {x};
    SetCount(Live(n), Live(s), x);
  }

  lemma BagHead(q: seq<Id>)
    requires q != []
    ensures multiset(q) == multiset{q[0]} + multiset(q[1..])
  {
    HeadTail(q);
  }

  lemma BagErase(q: seq<Id>, i: nat)
    requires i < |q|
    ensures multiset(q) == multiset{q[i]} + multiset(Erase(q, i))
  {
    assert q == q[..i] + [q[i]] + q[i + 1..];
  }

  lemma AllocKeeps(s: State, id: Id, r: Record)
    requires Inv(s) && DoAlloc(s, id, r).Moved? && RecordOk(r, 0, 0) && r.memory.Slot? && !r.lost
    ensures Inv(DoAlloc(s, id, r).next)
  {
    var n := DoAlloc(s, id, r).next;
    assert PointOk(s, id);
    PointsOk(s, n, id);
    CountsOk(s, n, id);
  }

  /** A step that leaves the record of `x` in order, and counts what it frees, keeps the invariant. */
  lemma EffectKeeps(s: State, n: State, x: Id, l: Local)
    requires Inv(s) && SameElsewhere(s, n, x) && PointOk(n, x) && x in s.calls && x in n.calls && l.Ok? && n.calls[x] == l.record
    requires n.allocs == s.allocs && n.frees == s.frees + l.freed
    requires l.freed == One(s.calls[x].memory.Slot?) - One(l.record.memory.Slot?)
    ensures Inv(n)
  {
    PointsOk(s, n, x);
    CountsOk(s, n, x);
  }

  lemma ClientEffectKeeps(s: State, a: Step, l: Local)
    requires Inv(s) && ByClient(a) && a.id in s.calls && l.Ok?
    requires RecordOk(l.record, multiset(s.apiQ)[a.id] + One(a.Put?), Tracked(s)[a.id] + One(a.TrackOrphan? && !s.orphanClosed))
    requires l.record.lost ==> s.calls[a.id].lost || s.orphanClosed
    requires l.freed == One(s.calls[a.id].memory.Slot?) - One(l.record.memory.Slot?)
    ensures ClientEffect(s, a, l).Moved? && Inv(ClientEffect(s, a, l).next)
  {
    ClientPoint(s, a, l);
    EffectKeeps(s, ClientEffect(s, a, l).next, a.id, l);
  }

  lemma ClientPoint(s: State, a: Step, l: Local)
    requires Inv(s) && ByClient(a) && a.id in s.calls && l.Ok?
    requires RecordOk(l.record, multiset(s.apiQ)[a.id] + One(a.Put?), Tracked(s)[a.id] + One(a.TrackOrphan? && !s.orphanClosed))
    requires l.record.lost ==> s.calls[a.id].lost || s.orphanClosed
    ensures ClientEffect(s, a, l).Moved?
    ensures var n := ClientEffect(s, a, l).next; SameElsewhere(s, n, a.id) && PointOk(n, a.id)
  {
    assert PointOk(s, a.id);
  }

  lemma ClientKeeps(s: State, a: Step)
    requires Inv(s) && ByClient(a)
    ensures !ClientStep(s, a).Wrong? && (ClientStep(s, a).Moved? ==> Inv(ClientStep(s, a).next))
  {
    if a.id in s.calls {
      assert PointOk(s, a.id);
      var full := |s.apiQ| >= API_CAPACITY;
      var l := ClientLocal(s.calls[a.id], a, full, s.apiClosed, s.orphanClosed);
      ClientLocalOk(s.calls[a.id], a, full, s.apiClosed, s.orphanClosed, multiset(s.apiQ)[a.id], Tracked(s)[a.id]);
      if l.Ok? {
        ClientEffectKeeps(s, a, l);
      }
    }
  }

  lemma RaftKeeps(s: State, a: Step)
    requires Inv(s) && ByRaft(a)
    ensures !RaftStep(s, a).Wrong? && (RaftStep(s, a).Moved? ==> Inv(RaftStep(s, a).next))
  {
    if a.id in s.calls {
      assert PointOk(s, a.id);
      var l := RaftLocal(s.calls[a.id], a);
      RaftLocalOk(s.calls[a.id], a, multiset(s.apiQ)[a.id], Tracked(s)[a.id]);
      if l.Ok? {
        EffectKeeps(s, Applied(s, a.id, l).next, a.id, l);
      }
    }
  }

  lemma RaftTakeKeeps(s: State)
    requires Inv(s)
    ensures !DoRaftTake(s).Wrong? && (DoRaftTake(s).Moved? ==> Inv(DoRaftTake(s).next))
  {
    if s.apiQ != [] {
      var x := s.apiQ[0];
      BagHead(s.apiQ);
      assert PointOk(s, x);
      var n := DoRaftTake(s).next;
      PointsOk(s, n, x);
      CountsOk(s, n, x);
    }
  }

  /** The collector tries `x`, which it holds once, and no longer holds it in `q` if it was freed. */
  lemma DisposeKeeps(s: State, q: State, x: Id)
    requires Inv(s) && Tracked(s) == multiset{x} + Tracked(q)
    requires q.calls == s.calls && q.apiQ == s.apiQ && q.orphanClosed == s.orphanClosed && q.allocs == s.allocs && q.frees == s.frees
    ensures x in s.calls && !TryDispose(s.calls[x]).Bad?
    ensures TryDispose(s.calls[x]).Ok? ==> Applied(q, x, TryDispose(s.calls[x])).Moved? && Inv(Applied(q, x, TryDispose(s.calls[x])).next)
  {
    assert PointOk(s, x);
    var l := TryDispose(s.calls[x]);
    TryDisposeOk(s.calls[x], multiset(s.apiQ)[x], Tracked(s)[x]);
    if l.Ok? {
      var n := Applied(q, x, l).next;
      PointsOk(s, n, x);
      CountsOk(s, n, x);
    }
  }

  /** The collector moves a slot from one of its places to another. */
  lemma RegroupKeeps(s: State, n: State)
    requires Inv(s) && Tracked(n) == Tracked(s)
    requires n.calls == s.calls && n.apiQ == s.apiQ && n.orphanClosed == s.orphanClosed && n.allocs == s.allocs && n.frees == s.frees
    ensures Inv(n)
  {
    assert PointOk(s, 0);
    PointsOk(s, n, 0);
    assert Live(n) == Live(s);
  }

  lemma TryKeeps(s: State)
    requires Inv(s) && s.gc.Trying?
    ensures DoGcTry(s).Moved? && Inv(DoGcTry(s).next)
  {
    DisposeKeeps(s, s.(gc := Waiting), s.gc.id);
    if TryDispose(s.calls[s.gc.id]).Stuck? {
      RegroupKeeps(s, DoGcTry(s).next);
    }
  }

  lemma GcKeeps(s: State, a: Step)
    requires Inv(s) && ByGc(a)
    ensures !GcStep(s, a).Wrong? && (GcStep(s, a).Moved? ==> Inv(GcStep(s, a).next))
  {
    match a
    case GcTake =>
      if GcStep(s, a).Moved? {
        BagHead(s.orphanQ);
        RegroupKeeps(s, GcStep(s, a).next);
      }
    case GcTry =>
      if s.gc.Trying? {
        TryKeeps(s);
      }
    case GcScanStart =>
      if GcStep(s, a).Moved? {
        RegroupKeeps(s, GcStep(s, a).next);
      }
    case GcScan =>
      if s.gc.Scanning? {
        ScanKeeps(s);
      }
  }

  lemma ScanKeeps(s: State)
    requires Inv(s) && s.gc.Scanning?
    ensures DoGcScan(s).Moved? && Inv(DoGcScan(s).next)
  {
    if s.gc.at < |s.backlog| {
      var x := s.backlog[s.gc.at];
      BagErase(s.backlog, s.gc.at);
      DisposeKeeps(s, s.(backlog := Erase(s.backlog, s.gc.at)), x);
      if TryDispose(s.calls[x]).Stuck? {
        RegroupKeeps(s, DoGcScan(s).next);
      }
    } else {
      RegroupKeeps(s, DoGcScan(s).next);
    }
  }

  lemma StepKeeps(s: State, a: Step)
    requires Inv(s)
    ensures !Do(s, a).Wrong? && (Do(s, a).Moved? ==> Inv(Do(s, a).next))
  {
    if ByClient(a) {
      ClientKeeps(s, a);
    } else if ByRaft(a) {
      RaftKeeps(s, a);
    } else if ByGc(a) {
      GcKeeps(s, a);
    } else if a.Alloc? {
      if Do(s, a).Moved? { AllocKeeps(s, a.id, NewRecord(a.buffer)); }
    } else if a.AllocRefused? {
      if Do(s, a).Moved? { AllocKeeps(s, a.id, RefusedRecord(a.buffer, a.err)); }
    } else if a.RaftTake? {
      RaftTakeKeeps(s);
    } else {
      CloseKeeps(s, Do(s, a).next);
    }
  }

  lemma CloseKeeps(s: State, n: State)
    requires Inv(s) && (n == s.(apiClosed := true) || n == s.(orphanClosed := true))
    ensures Inv(n)
  {
    assert PointOk(s, 0);
    PointsOk(s, n, 0);
    assert Live(n) == Live(s);
  }
}
