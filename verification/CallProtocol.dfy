/**
 The life of API slots as a step machine: client threads, the Raft process, the
 orphan collector and the two queues, in any interleaving.  The record of a call
 keeps the shared slot apart from what each actor believes, so that an actor
 that touches a freed slot is visible as a fault.  A critical section that
 neither waits nor calls out is one step; `reply` is several, with the slot
 locked throughout.
 */
module CallProtocol {
  import opened CallSlots

  type Id = nat

  datatype Memory = Freed | Slot(call: Call, locked: bool)

  /** The one thread that owns a future, from allocation until it has let go of it. */
  datatype ClientPc = Sending | Holding | Asleep | Signalled | Tracking | Gone

  /** The Raft process, for a slot it has been given and has not finished with. */
  datatype RaftPc = Absent | Queued | Carried | Locked | Writing | Replied

  /** A command buffer of an Apply call that lies in shared memory. */
  datatype Buf = NoBuf | InUse | FreedByClient | FreedByGc

  /**
   One call, from allocation on: its shared memory, its actors, its buffer, and
   history: its wait() has returned, it was refused without queueing, it was
   replied to, its dispose found the orphan queue closed.
   */
  datatype Record = Record(memory: Memory, client: ClientPc, raft: RaftPc, buf: Buf,
                           waited: bool, refused: bool, replied: bool, lost: bool)

  datatype GcPc = Waiting | Trying(id: Id) | Scanning(at: nat)

  /** `allocs` and `frees` are the counters of stats.h; an identity is never handed out twice. */
  datatype State = State(calls: map<Id, Record>, apiQ: seq<Id>, apiClosed: bool,
                         orphanQ: seq<Id>, orphanClosed: bool, backlog: seq<Id>, gc: GcPc, allocs: nat, frees: nat)

  const Start := State(map[], [], false, [], false, [], Waiting, 0, 0)

  const API_CAPACITY := 8

  datatype Step =
    | Alloc(id: Id, buffer: bool)
    | AllocRefused(id: Id, buffer: bool, err: RaftError)
    | Put(id: Id)
    | PutClosed(id: Id)
    | WaitStart(id: Id)
    | WaitWake(id: Id)
    | Look(id: Id)
    | Dispose(id: Id)
    | TrackOrphan(id: Id)
    | FreeBuffer(id: Id)
    | RaftTake
    | RaftLock(id: Id)
    | RaftDispatch(id: Id)
    | RaftRead(id: Id)
    | RaftWrite(id: Id, answer: Answer)
    | RaftPublish(id: Id)
    | RaftUnlock(id: Id)
    | GcTake
    | GcTry
    | GcScanStart
    | GcScan
    | CloseApi
    | CloseOrphans

  datatype Fault = TouchesFreed | RepliesTwice | TracksTwice | ReadsFreedBuffer | FreesBufferTwice

  /** What a step does to the record it is about; `freed` counts a deallocation. */
  datatype Local = Ok(record: Record, freed: nat) | Stuck | Bad(fault: Fault)

  datatype Outcome = Moved(next: State) | Blocked | Wrong(fault: Fault)

  // ----- Allocation and release of one slot -----

  function NewRecord(buffer: bool): Record {
    Record(Slot(NewCall, false), Sending, Absent, if buffer then InUse else NoBuf, false, false, false, false)
  }

  function RefusedRecord(buffer: bool, err: RaftError): Record {
    NewRecord(buffer).(memory := Slot(Refused(NewCall, err), false), client := Holding, refused := true)
  }

  function Release(r: Record): Local {
    if r.memory.Freed? then Bad(TouchesFreed) else Ok(r.(memory := Freed), 1)
  }

  /** orphan_cleanup, then the slot itself. */
  function ReleaseOrphan(r: Record): Local {
    match r.buf
    case NoBuf => Release(r)
    case InUse => Release(r.(buf := FreedByGc))
    case _ => Bad(FreesBufferTwice)
  }

  function WithCall(r: Record, c: Call): Record
    requires r.memory.Slot?
  {
    r.(memory := r.memory.(call := c))
  }

  // ----- Steps of the client -----

  /** The body of `wait` with the lock just acquired. */
  function WaitBody(r: Record): Local {
    if r.memory.Freed? then Bad(TouchesFreed)
    else if r.memory.locked then Stuck
    else if Terminal(r.memory.call) then Ok(WithCall(r, r.memory.call.(client := Observed)).(client := Holding, waited := true), 0)
    else Ok(r.(client := Asleep), 0)
  }

  function DisposeBody(r: Record): Local {
    if r.memory.Freed? then Bad(TouchesFreed)
    else match r.memory.call.client
         case Issued => Ok(WithCall(r, r.memory.call.(client := Abandoned)).(client := Tracking), 0)
         case Observed => Release(r.(client := Gone))
         case Abandoned => ReleaseOrphan(r.(client := Gone))
  }

  /**
   The client contract: one thread owns a future, disposes of it at most once and
   does not use it afterwards, and frees a command buffer at most once and only after `wait`.
   */
  function ClientLocal(r: Record, a: Step, full: bool, apiClosed: bool, orphanClosed: bool): Local {
    match a
    case Put(_) =>
      if r.client != Sending || full then Stuck
      else if r.memory.Freed? then Bad(TouchesFreed)
      else Ok(r.(client := Holding, raft := Queued), 0)
    case PutClosed(_) =>
      if r.client != Sending || !apiClosed then Stuck
      else if r.memory.Freed? then Bad(TouchesFreed)
      else Ok(WithCall(r, Refused(r.memory.call, InShutdown)).(client := Holding, refused := true), 0)
    case WaitStart(_) => if r.client == Holding then WaitBody(r) else Stuck
    case WaitWake(_) => if r.client == Asleep || r.client == Signalled then WaitBody(r) else Stuck
    case Look(_) =>
      if r.client != Holding then Stuck else if r.memory.Freed? then Bad(TouchesFreed) else Ok(r, 0)
    case Dispose(_) => if r.client == Holding then DisposeBody(r) else Stuck
    case TrackOrphan(_) =>
      if r.client != Tracking then Stuck else Ok(r.(client := Gone, lost := orphanClosed), 0)
    case FreeBuffer(_) =>
      if !r.waited || r.buf == NoBuf || r.buf == FreedByClient then Stuck
      else if r.buf == FreedByGc then Bad(FreesBufferTwice)
      else Ok(r.(buf := FreedByClient), 0)
    case _ => Stuck
  }

  // ----- Steps of the Raft process -----

  function RaftLocal(r: Record, a: Step): Local {
    match a
    case RaftTake => Ok(r.(raft := Carried), 0)
    case RaftLock(_) =>
      if r.raft != Carried then Stuck
      else if r.memory.Freed? then Bad(TouchesFreed)
      else if r.memory.locked then Stuck
      else Ok(r.(memory := r.memory.(locked := true), raft := Locked), 0)
    case RaftDispatch(_) =>
      if r.raft != Locked then Stuck
      else if r.memory.Freed? then Bad(TouchesFreed)
      else Ok(WithCall(r, r.memory.call.(state := Dispatched)), 0)
    case RaftRead(_) =>
      if r.raft != Carried && r.raft != Locked then Stuck
      else if r.memory.Freed? then Bad(TouchesFreed)
      else if r.buf == FreedByClient || r.buf == FreedByGc then Bad(ReadsFreedBuffer)
      else Ok(r, 0)
    case RaftWrite(_, answer) =>
      if r.raft != Locked then Stuck
      else if r.memory.Freed? then Bad(TouchesFreed)
      else Ok(WithCall(r, Answered(r.memory.call, answer)).(raft := Writing), 0)
    case RaftPublish(_) =>
      if r.raft != Writing then Stuck
      else if r.memory.Freed? then Bad(TouchesFreed)
      else if Terminal(r.memory.call) then Bad(RepliesTwice)
      else Ok(WithCall(r, Published(r.memory.call)).(raft := Replied, replied := true,
                client := if r.client == Asleep then Signalled else r.client), 0)
    case RaftUnlock(_) =>
      if r.raft != Locked && r.raft != Replied then Stuck
      else if r.memory.Freed? then Bad(TouchesFreed)
      else Ok(r.(memory := r.memory.(locked := false), raft := if r.raft == Locked then Carried else Absent), 0)
    case _ => Stuck
  }

  // ----- The orphan collector and one slot -----

  /** Whether try_dispose_orphan gets the lock and finds the slot terminal. */
  predicate Disposable(r: Record) {
    r.memory.Slot? && !r.memory.locked && Terminal(r.memory.call)
  }

  /** try_dispose_orphan: the slot is kept, or disposed of by what its client state says. */
  function TryDispose(r: Record): Local {
    if r.memory.Freed? then Bad(TouchesFreed)
    else if !Disposable(r) then Stuck
    else match r.memory.call.client
         case Issued => Bad(TracksTwice)
         case Observed => Release(r)
         case Abandoned => ReleaseOrphan(r)
  }

  // ----- Steps of the whole system -----

  /** The record of `id` after a local step, if it took place. */
  function Applied(s: State, id: Id, l: Local): Outcome {
    match l
    case Ok(r, freed) => Moved(s.(calls := s.calls[id := r], frees := s.frees + freed))
    case Stuck => Blocked
    case Bad(f) => Wrong(f)
  }

  predicate ByClient(a: Step) {
    a.Put? || a.PutClosed? || a.WaitStart? || a.WaitWake? || a.Look? || a.Dispose? || a.TrackOrphan? || a.FreeBuffer?
  }

  predicate ByRaft(a: Step) {
    a.RaftLock? || a.RaftDispatch? || a.RaftRead? || a.RaftWrite? || a.RaftPublish? || a.RaftUnlock?
  }

  predicate ByGc(a: Step) {
    a.GcTake? || a.GcTry? || a.GcScanStart? || a.GcScan?
  }

  function DoAlloc(s: State, id: Id, r: Record): Outcome {
    if id in s.calls then Blocked else Moved(s.(calls := s.calls[id := r], allocs := s.allocs + 1))
  }

  /** A client's local step, with what it adds to a queue. */
  function ClientEffect(s: State, a: Step, l: Local): Outcome
    requires ByClient(a)
  {
    var o := Applied(s, a.id, l);
    if !o.Moved? then o
    else if a.Put? then Moved(o.next.(apiQ := s.apiQ + [a.id]))
    else if a.TrackOrphan? && !s.orphanClosed then Moved(o.next.(orphanQ := s.orphanQ + [a.id]))
    else o
  }

  function ClientStep(s: State, a: Step): Outcome
    requires ByClient(a)
  {
    if a.id !in s.calls then Blocked
    else ClientEffect(s, a, ClientLocal(s.calls[a.id], a, |s.apiQ| >= API_CAPACITY, s.apiClosed, s.orphanClosed))
  }

  function RaftStep(s: State, a: Step): Outcome
    requires ByRaft(a)
  {
    if a.id !in s.calls then Blocked else Applied(s, a.id, RaftLocal(s.calls[a.id], a))
  }

  function DoRaftTake(s: State): Outcome {
    if s.apiQ == [] then Blocked
    else if s.apiQ[0] !in s.calls then Wrong(TouchesFreed)
    else Applied(s.(apiQ := s.apiQ[1..]), s.apiQ[0], RaftLocal(s.calls[s.apiQ[0]], RaftTake))
  }

  function Erase(q: seq<Id>, i: nat): seq<Id>
    requires i < |q|
  {
    q[..i] + q[i + 1..]
  }

  function DoGcTry(s: State): Outcome {
    if !s.gc.Trying? then Blocked
    else if s.gc.id !in s.calls then Wrong(TouchesFreed)
    else
      var l := TryDispose(s.calls[s.gc.id]);
      if l.Stuck? then Moved(s.(gc := Waiting, backlog := s.backlog + [s.gc.id]))
      else Applied(s.(gc := Waiting), s.gc.id, l)
  }

  function DoGcScan(s: State): Outcome {
    if !s.gc.Scanning? then Blocked
    else if s.gc.at >= |s.backlog| then Moved(s.(gc := Waiting))
    else if s.backlog[s.gc.at] !in s.calls then Wrong(TouchesFreed)
    else
      var id := s.backlog[s.gc.at];
      var l := TryDispose(s.calls[id]);
      if l.Stuck? then Moved(s.(gc := Scanning(s.gc.at + 1)))
      else Applied(s.(backlog := Erase(s.backlog, s.gc.at)), id, l)
  }

  function GcStep(s: State, a: Step): Outcome
    requires ByGc(a)
  {
    match a
    case GcTake =>
      if !s.gc.Waiting? || s.orphanQ == [] || s.orphanClosed then Blocked
      else Moved(s.(gc := Trying(s.orphanQ[0]), orphanQ := s.orphanQ[1..]))
    case GcTry => DoGcTry(s)
    case GcScanStart => if s.gc.Waiting? && s.backlog != [] then Moved(s.(gc := Scanning(0))) else Blocked
    case GcScan => DoGcScan(s)
  }

  function Do(s: State, a: Step): Outcome {
    if ByClient(a) then ClientStep(s, a)
    else if ByRaft(a) then RaftStep(s, a)
    else if ByGc(a) then GcStep(s, a)
    else match a
         case Alloc(id, buffer) => DoAlloc(s, id, NewRecord(buffer))
         case AllocRefused(id, buffer, err) => if err == NoError then Blocked else DoAlloc(s, id, RefusedRecord(buffer, err))
         case RaftTake => DoRaftTake(s)
         case CloseApi => Moved(s.(apiClosed := true))
         case CloseOrphans => Moved(s.(orphanClosed := true))
  }

  /** `s`, stepped through `run`, ends in `e`. */
  ghost predicate Reaches(s: State, run: seq<Step>, e: State)
    decreases |run|
  {
    if run == [] then s == e
    else Do(s, run[0]).Moved? && Reaches(Do(s, run[0]).next, run[1..], e)
  }
}
