/** The call protocol over whole runs: what holds in every reachable state, and what never changes back. */
module CallRuns {
  import opened CallSlots
  import opened CallProtocol
  import opened CallSafety
  import opened SeqFacts

  lemma {:induction false} RunKeeps(s: State, run: seq<Step>, e: State)
    requires Inv(s) && Reaches(s, run, e)
    ensures Inv(e)
    decreases |run|
  {
    if run != [] {
      StepKeeps(s, run[0]);
      RunKeeps(Do(s, run[0]).next, run[1..], e);
    }
  }

  lemma ReachableOk(run: seq<Step>, e: State)
    requires Reaches(Start, run, e)
    ensures Inv(e)
  {
    assert Live(Start) == {};
    RunKeeps(Start, run, e);
  }

  /** No actor ever touches or frees a freed slot, replies twice, tracks an orphan twice, or uses or frees a freed buffer. */
  lemma NothingEverGoesWrong(run: seq<Step>, e: State, a: Step)
    requires Reaches(Start, run, e)
    ensures !Do(e, a).Wrong?
  {
    ReachableOk(run, e);
    StepKeeps(e, a);
  }

  /** The ways a step can change the record of `id` into `r`. */
  predicate MadeBy(s: State, a: Step, id: Id, r: Record)
    requires id in s.calls
  {
    var was := s.calls[id];
    if ByClient(a) && a.id == id then
      ClientLocal(was, a, |s.apiQ| >= API_CAPACITY, s.apiClosed, s.orphanClosed).Ok?
      && r == ClientLocal(was, a, |s.apiQ| >= API_CAPACITY, s.apiClosed, s.orphanClosed).record
    else if ByRaft(a) && a.id == id then RaftLocal(was, a).Ok? && r == RaftLocal(was, a).record
    else if a.RaftTake? && id in s.apiQ then r == was || r == was.(raft := Carried)
    else if (a.GcTry? || a.GcScan?) && id in Tracked(s) then r == was || (TryDispose(was).Ok? && r == TryDispose(was).record)
    else r == was
  }

  lemma RecordAfter(s: State, a: Step, id: Id)
    requires Do(s, a).Moved? && id in s.calls
    ensures id in Do(s, a).next.calls && MadeBy(s, a, id, Do(s, a).next.calls[id])
  {
    if ByClient(a) {
    } else if ByGc(a) {
    }
  }

  // ----- What never changes back -----

  /** The answer a terminal slot holds. */
  function Result(c: Call): (CallState, RaftError, nat) {
    (c.state, c.error, c.retval)
  }

  predicate Lasts(r: Record, n: Record) {
    && (r.memory.Freed? ==> n.memory.Freed?)
    && (r.memory.Slot? && n.memory.Slot? && Terminal(r.memory.call) ==>
          Terminal(n.memory.call) && Result(n.memory.call) == Result(r.memory.call))
    && (r.buf != InUse ==> n.buf == r.buf)
    && (r.waited ==> n.waited) && (r.refused ==> n.refused) && (r.replied ==> n.replied) && (r.lost ==> n.lost)
  }

  lemma ClientLasts(r: Record, a: Step, full: bool, apiClosed: bool, orphanClosed: bool, q: nat, t: nat)
    requires RecordOk(r, q, t)
    ensures var l := ClientLocal(r, a, full, apiClosed, orphanClosed); l.Ok? ==> Lasts(r, l.record)
  {
  }

  lemma RaftLasts(r: Record, a: Step, q: nat, t: nat)
    requires RecordOk(r, q, t)
    ensures var l := RaftLocal(r, a); l.Ok? ==> Lasts(r, l.record)
  {
  }

  lemma StepLasts(s: State, a: Step, id: Id)
    requires Inv(s) && Do(s, a).Moved? && id in s.calls
    ensures id in Do(s, a).next.calls && Lasts(s.calls[id], Do(s, a).next.calls[id])
  {
    RecordAfter(s, a, id);
    assert PointOk(s, id);
    var r, q, t := s.calls[id], multiset(s.apiQ)[id], Tracked(s)[id];
    if ByClient(a) {
      ClientLasts(r, a, |s.apiQ| >= API_CAPACITY, s.apiClosed, s.orphanClosed, q, t);
    } else if ByRaft(a) {
      RaftLasts(r, a, q, t);
    }
  }

  lemma {:induction false} RunLasts(s: State, run: seq<Step>, e: State, id: Id)
    requires Inv(s) && Reaches(s, run, e) && id in s.calls
    ensures id in e.calls && Lasts(s.calls[id], e.calls[id])
    decreases |run|
  {
    if run != [] {
      StepKeeps(s, run[0]);
      StepLasts(s, run[0], id);
      RunLasts(Do(s, run[0]).next, run[1..], e, id);
    }
  }

  /** An identity, once freed, is never live again: no slot is deallocated twice. */
  lemma FreedForever(s: State, run: seq<Step>, e: State, id: Id)
    requires Inv(s) && Reaches(s, run, e) && id in s.calls && id !in Live(s)
    ensures id in e.calls && id !in Live(e)
  {
    RunLasts(s, run, e, id);
  }

  /** Until a terminal slot is freed, every wait and every get_ptr gives the same answer. */
  lemma ResultsAreStable(s: State, run: seq<Step>, e: State, id: Id, hasRet: bool, res: bool)
    requires Inv(s) && Reaches(s, run, e) && id in Live(s) && id in Live(e) && Terminal(s.calls[id].memory.call)
    ensures var c, d := s.calls[id].memory.call, e.calls[id].memory.call;
            && Result(d) == Result(c) && Fetched(d, hasRet, res) == Fetched(c, hasRet, res)
            && (d.state == Success <==> d.error == NoError) && (d.state == Failed <==> d.error != NoError)
  {
    RunLasts(s, run, e, id);
    assert PointOk(s, id);
  }

  /** A thread still asleep in `wait` has nothing to see: whoever made its slot terminal has signalled it. */
  lemma SleeperIsSignalled(run: seq<Step>, e: State, id: Id)
    requires Reaches(Start, run, e) && id in e.calls && e.calls[id].client == Asleep
    ensures id in Live(e) && !Terminal(e.calls[id].memory.call)
  {
    ReachableOk(run, e);
    assert PointOk(e, id);
  }

  /** Replies: never a second one, never to a refused slot, and a slot that left the Raft process has had one. */
  lemma RepliedOnce(run: seq<Step>, e: State, id: Id)
    requires Reaches(Start, run, e) && id in e.calls
    ensures Do(e, RaftPublish(id)).Moved? ==> !e.calls[id].replied && !e.calls[id].refused
    ensures !(e.calls[id].replied && e.calls[id].refused)
    ensures id in Live(e) && Terminal(e.calls[id].memory.call) && !e.calls[id].refused ==> e.calls[id].replied
  {
    ReachableOk(run, e);
    assert PointOk(e, id);
  }

  // ----- When a slot is freed -----

  predicate RightlyFreed(s: State, a: Step, id: Id)
    requires id in s.calls && s.calls[id].memory.Slot?
  {
    && Disposable(s.calls[id]) && s.calls[id].raft == Absent
    && if s.calls[id].waited then a == Dispose(id)
       else (a.GcTry? || a.GcScan?) && s.calls[id].memory.call.client == Abandoned && id in Tracked(s)
  }

  lemma FreedRightly(s: State, a: Step, id: Id, r: Record)
    requires Inv(s) && id in Live(s) && MadeBy(s, a, id, r) && r.memory.Freed?
    ensures RightlyFreed(s, a, id)
  {
    assert PointOk(s, id);
    var was, q, t := s.calls[id], multiset(s.apiQ)[id], Tracked(s)[id];
    if ByClient(a) {
    } else if ByRaft(a) {
      RaftLocalOk(was, a, q, t);
    } else if a.GcTry? || a.GcScan? {
    }
  }

  /** A freed slot is nowhere. */
  lemma FreedIsNowhere(s: State, id: Id)
    requires Inv(s) && id in s.calls && id !in Live(s)
    ensures s.calls[id].client == Gone && s.calls[id].raft == Absent
    ensures id !in s.apiQ && id !in s.orphanQ && id !in s.backlog && s.gc != Trying(id)
  {
    assert PointOk(s, id);
  }

  /** Freeing happens only to a terminal, unlocked slot that nobody else has, by its one rightful owner. */
  lemma FreedOnlyWhenQuiet(run: seq<Step>, s: State, a: Step, id: Id)
    requires Reaches(Start, run, s) && Do(s, a).Moved? && id in Live(s) && id !in Live(Do(s, a).next)
    ensures RightlyFreed(s, a, id) && id !in s.apiQ
    ensures var n := Do(s, a).next;
            id in n.calls && n.calls[id].client == Gone && n.calls[id].raft == Absent
            && id !in n.apiQ && id !in n.orphanQ && id !in n.backlog && n.gc != Trying(id)
  {
    ReachableOk(run, s);
    StepKeeps(s, a);
    RecordAfter(s, a, id);
    FreedIsNowhere(Do(s, a).next, id);
    FreedRightly(s, a, id, Do(s, a).next.calls[id]);
    assert PointOk(s, id);
  }

  // ----- Conservation -----

  function Held(s: State): set<Id> {
    set id | id in s.calls && s.calls[id].client != Gone
  }

  function Lost(s: State): set<Id> {
    set id | id in s.calls && s.calls[id].lost
  }

  lemma PlacesPartition(s: State)
    requires Inv(s)
    ensures multiset(Live(s)) == multiset(Held(s)) + Tracked(s) + multiset(Lost(s))
  {
    forall id
      ensures multiset(Live(s))[id] == (multiset(Held(s)) + Tracked(s) + multiset(Lost(s)))[id]
    {
      assert PointOk(s, id);
    }
  }

  lemma LiveCount(s: State)
    requires multiset(Live(s)) == multiset(Held(s)) + Tracked(s) + multiset(Lost(s))
    ensures |Live(s)| == |Held(s)| + |s.orphanQ| + |s.backlog| + One(s.gc.Trying?) + |Lost(s)|
  {
    assert |multiset(Live(s))| == |multiset(Held(s))| + |Tracked(s)| + |multiset(Lost(s))|;
    assert |Tracked(s)| == |Hand(s.gc)| + |multiset(s.orphanQ)| + |multiset(s.backlog)|;
  }

  lemma TrackedIsAbandoned(s: State, id: Id)
    requires Inv(s) && id in Tracked(s)
    ensures id in Live(s) && s.calls[id].memory.call.client == Abandoned
  {
    assert PointOk(s, id);
  }

  lemma LostAfterClose(s: State)
    requires Inv(s) && !s.orphanClosed
    ensures Lost(s) == {}
  {
    forall id
      ensures id !in Lost(s)
    {
      assert PointOk(s, id);
    }
  }

  /**
   Each live slot is in one place only, so the counters balance; nothing is lost
   before the orphan queue is closed; and all the collector has is Abandoned.
   */
  lemma Conservation(run: seq<Step>, e: State)
    requires Reaches(Start, run, e)
    ensures e.allocs - e.frees == |Held(e)| + |e.orphanQ| + |e.backlog| + One(e.gc.Trying?) + |Lost(e)|
    ensures multiset(Live(e)) == multiset(Held(e)) + Tracked(e) + multiset(Lost(e))
    ensures !e.orphanClosed ==> Lost(e) == {}
    ensures forall id :: id in Tracked(e) ==> id in Live(e) && e.calls[id].memory.call.client == Abandoned
  {
    ReachableOk(run, e);
    PlacesPartition(e);
    LiveCount(e);
    if !e.orphanClosed {
      LostAfterClose(e);
    }
    forall id | id in Tracked(e)
      ensures id in Live(e) && e.calls[id].memory.call.client == Abandoned
    {
      TrackedIsAbandoned(e, id);
    }
  }

  /** A buffer has one owner at the end: the collector if the call was never waited for, else the client; and that is final. */
  lemma BufferHasOneOwner(run: seq<Step>, s: State, more: seq<Step>, e: State, id: Id)
    requires Reaches(Start, run, s) && Reaches(s, more, e) && id in s.calls
    ensures id in e.calls && (s.calls[id].buf != InUse ==> e.calls[id].buf == s.calls[id].buf)
    ensures s.calls[id].waited ==> e.calls[id].buf != FreedByGc
    ensures id !in Live(s) && !s.calls[id].waited ==> s.calls[id].buf == FreedByGc || s.calls[id].buf == NoBuf
    ensures id in Live(s) && !s.calls[id].waited ==> s.calls[id].buf == InUse || s.calls[id].buf == NoBuf
  {
    ReachableOk(run, s);
    RunKeeps(s, more, e);
    RunLasts(s, more, e, id);
    assert PointOk(s, id) && PointOk(e, id);
  }
}
