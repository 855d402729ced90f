/**
 `ArrayBlockingQueue` of queue.h: the ring arithmetic on values, the class that
 updates an array in place, and a step machine for any number of producer and
 consumer threads with its two condition variables.
 */
module RingQueue {
  import opened CondVar
  import opened SeqFacts

  // ----- The ring -----

  /** `cells` has the fixed capacity; `head` is the next cell to fill, `tail` the next to empty. */
  datatype Ring<T> = Ring(cells: seq<T>, head: nat, tail: nat, count: nat)

  ghost predicate RingOk<T>(r: Ring<T>) {
    && r.head < |r.cells| && r.tail < |r.cells| && r.count <= |r.cells|
    && r.head == Cell(r, r.count)
  }

  /** The cell `i` places after the tail. */
  function Cell<T>(r: Ring<T>, i: nat): (k: nat)
    requires r.tail < |r.cells| && i <= |r.cells|
    ensures k < |r.cells| && k == (r.tail + i) % |r.cells|
  {
    if r.tail + i < |r.cells| then r.tail + i else r.tail + i - |r.cells|
  }

  /** Oldest first. */
  ghost function Contents<T>(r: Ring<T>): (s: seq<T>)
    requires RingOk(r)
    ensures |s| == r.count && forall i :: 0 <= i < |s| ==> s[i] == r.cells[Cell(r, i)]
  {
    seq(r.count, i requires 0 <= i < r.count => r.cells[Cell(r, i)])
  }

  function Inc(i: nat, capacity: nat): nat {
    if i == capacity - 1 then 0 else i + 1
  }

  function Push<T>(r: Ring<T>, v: T): Ring<T>
    requires r.head < |r.cells|
  {
    Ring(r.cells[r.head := v], Inc(r.head, |r.cells|), r.tail, r.count + 1)
  }

  function Pop<T>(r: Ring<T>): Ring<T>
    requires r.count > 0
  {
    r.(tail := Inc(r.tail, |r.cells|), count := r.count - 1)
  }

  lemma PushAppends<T>(r: Ring<T>, v: T)
    requires RingOk(r) && r.count < |r.cells|
    ensures RingOk(Push(r, v)) && Contents(Push(r, v)) == Contents(r) + [v]
  {
  }

  lemma PopRemoves<T>(r: Ring<T>)
    requires RingOk(r) && r.count > 0
    ensures RingOk(Pop(r)) && Contents(r) == [r.cells[r.tail]] + Contents(Pop(r))
  {
  }

  // ----- The class -----

  class ArrayBlockingQueue<T(0)> {
    const array_: array<T>
    var head: nat
    var tail: nat
    var count: nat
    var closed: bool

    ghost function View(): Ring<T>
      reads this, array_
    {
      Ring(array_[..], head, tail, count)
    }

    ghost predicate Valid()
      reads this, array_
    {
      RingOk(View())
    }

    constructor (capacity: nat)
      requires capacity > 0
      ensures Valid() && fresh(array_) && array_.Length == capacity && Contents(View()) == [] && !closed
    {
      array_ := new T[capacity];
      head, tail, count, closed := 0, 0, 0, false;
    }

    /** One pass through the critical section of `put`: false means the thread waits on not_full. */
    method TryPut(val: T) returns (stored: bool)
      requires Valid()
      modifies this`head, this`count, array_
      ensures Valid() && stored == (old(count) < array_.Length)
      ensures View() == if stored then Push(old(View()), val) else old(View())
      ensures Contents(View()) == if stored then old(Contents(View())) + [val] else old(Contents(View()))
    {
      if count == array_.Length {
        return false;
      }
      ghost var r := View();
      var at := head;
      head := if head == array_.Length - 1 then 0 else head + 1;
      array_[at] := val;
      count := count + 1;
      assert View() == Push(r, val);
      PushAppends(r, val);
      stored := true;
    }

    /** One pass through the critical section of `take`: an empty result means the thread waits on not_empty. */
    method TryTake() returns (val: seq<T>)
      requires Valid()
      modifies this`tail, this`count
      ensures Valid() && |val| <= 1 && (val == [] <==> old(count) == 0)
      ensures View() == if val == [] then old(View()) else Pop(old(View()))
      ensures old(Contents(View())) == val + Contents(View())
    {
      if count == 0 {
        return [];
      }
      ghost var r := View();
      var at := tail;
      tail := if tail == array_.Length - 1 then 0 else tail + 1;
      val := [array_[at]];
      count := count - 1;
      assert View() == Pop(r);
      PopRemoves(r);
    }

    method Close()
      modifies this`closed
      ensures closed
    {
      closed := true;
    }
  }

  // ----- Threads -----

  /** `puts` and `takes` record the items in the order of the critical sections. */
  datatype State<T> = State(ring: Ring<T>, closed: bool, producers: Side, consumers: Side, offers: map<Tid, T>, puts: seq<T>, takes: seq<T>)

  datatype Step<T> =
    | PutEnter(t: Tid, v: T)
    | PutRun(t: Tid, w: Tid)
    | PutStir(t: Tid)
    | TakeEnter(t: Tid)
    | TakeRun(t: Tid, w: Tid)
    | TakeStir(t: Tid)
    | Close

  ghost predicate Initial<T>(s: State<T>) {
    && |s.ring.cells| > 0 && s.ring.head == s.ring.tail == s.ring.count == 0 && !s.closed
    && s.producers == s.consumers == Nobody && s.offers == map[] && s.puts == s.takes == []
  }

  /** The next access to the array is inside it. */
  predicate InBounds<T>(r: Ring<T>) {
    r.head < |r.cells| && r.tail < |r.cells|
  }

  /** When the scheduler may pick a step; `w` is whom notify_one wakes, any waiter if there is one. */
  predicate Enabled<T>(s: State<T>, a: Step<T>) {
    && InBounds(s.ring)
    && match a
    case PutEnter(t, _) => t !in Everyone(s.producers)
    case PutRun(t, w) => Runnable(s.producers, t) && t in s.offers && Picks(s.consumers, w)
    case PutStir(t) => t in s.producers.waiting
    case TakeEnter(t) => t !in Everyone(s.consumers)
    case TakeRun(t, w) => Runnable(s.consumers, t) && Picks(s.producers, w)
    case TakeStir(t) => t in s.consumers.waiting
    case Close => true
  }

  /**
   One step.  The first test of `closed` comes before the lock, so a thread that
   has arrived goes on even if the queue is closed meanwhile; the test after a
   wait is made under the lock.
   */
  function Next<T>(s: State<T>, a: Step<T>): State<T>
    requires Enabled(s, a)
  {
    match a
    case PutEnter(t, v) =>
      if s.closed then s
      else s.(producers := s.producers.(arrived := s.producers.arrived + {t}), offers := s.offers[t := v])
    case PutRun(t, w) =>
      if Resumed(s.producers, t) && s.closed then s.(producers := Without(s.producers, t))
      else if s.ring.count == |s.ring.cells| then s.(producers := Sleep(s.producers, t))
      else s.(ring := Push(s.ring, s.offers[t]), producers := Without(s.producers, t),
              consumers := NotifyOne(s.consumers, w), puts := s.puts + [s.offers[t]])
    case PutStir(t) => s.(producers := Stir(s.producers, t))
    case TakeEnter(t) =>
      if s.closed then s else s.(consumers := s.consumers.(arrived := s.consumers.arrived + {t}))
    case TakeRun(t, w) =>
      if Resumed(s.consumers, t) && s.closed then s.(consumers := Without(s.consumers, t))
      else if s.ring.count == 0 then s.(consumers := Sleep(s.consumers, t))
      else s.(ring := Pop(s.ring), consumers := Without(s.consumers, t),
              producers := NotifyOne(s.producers, w), takes := s.takes + [s.ring.cells[s.ring.tail]])
    case TakeStir(t) => s.(consumers := Stir(s.consumers, t))
    case Close => s.(closed := true, producers := NotifyAll(s.producers), consumers := NotifyAll(s.consumers))
  }

  // ----- What every step keeps -----

  /** FIFO: what was taken, then what is stored, is what was put. */
  ghost predicate History<T>(s: State<T>) {
    RingOk(s.ring) && s.takes + Contents(s.ring) == s.puts
  }

  ghost predicate Crew<T>(s: State<T>) {
    Apart(s.producers) && Apart(s.consumers) && forall t :: t in Everyone(s.producers) ==> t in s.offers
  }

  ghost predicate Fifo<T>(s: State<T>) {
    History(s) && Crew(s)
  }

  ghost predicate Awake<T>(s: State<T>) {
    !s.closed ==>
      && NoLostWakeup(s.consumers, s.ring.count)
      && NoLostWakeup(s.producers, |s.ring.cells| - s.ring.count)
  }

  lemma StepApart<T>(s: State<T>, a: Step<T>)
    requires Crew(s) && Enabled(s, a)
    ensures Crew(Next(s, a))
  {
    if a.PutRun? {
    } else if a.TakeRun? {
    } else if !a.Close? {
    }
  }

  lemma StepHistory<T>(s: State<T>, a: Step<T>)
    requires History(s) && Enabled(s, a)
    ensures History(Next(s, a))
  {
    var n := Next(s, a);
    if n.puts != s.puts {
      PushAppends(s.ring, s.offers[a.t]);
      Assoc(s.takes, Contents(s.ring), [s.offers[a.t]]);
    } else if n.takes != s.takes {
      PopRemoves(s.ring);
      Assoc(s.takes, [s.ring.cells[s.ring.tail]], Contents(n.ring));
    }
  }

  lemma StepFifo<T>(s: State<T>, a: Step<T>)
    requires Fifo(s) && Enabled(s, a)
    ensures Fifo(Next(s, a))
  {
    StepHistory(s, a);
    StepApart(s, a);
  }

  /** Of the threads that one unit of work concerns, one uses it up and one is notified of the next. */
  lemma UsesOne(d: Side, t: Tid, n: int)
    requires Apart(d) && NoLostWakeup(d, n)
    ensures NoLostWakeup(Without(d, t), n - 1) && (n <= 0 ==> NoLostWakeup(Sleep(d, t), n))
  {
    assert |d.signalled - {t}| >= |d.signalled| - 1;
  }

  lemma GainsOne(d: Side, w: Tid, n: int)
    requires Apart(d) && NoLostWakeup(d, n) && Picks(d, w)
    ensures NoLostWakeup(NotifyOne(d, w), n + 1)
  {
  }

  lemma StepAwake<T>(s: State<T>, a: Step<T>)
    requires Fifo(s) && Awake(s) && Enabled(s, a)
    ensures Awake(Next(s, a))
  {
    if !s.closed {
      match a
      case PutRun(t, w) => PutAwake(s, t, w);
      case TakeRun(t, w) => TakeAwake(s, t, w);
      case _ =>
    }
  }

  lemma PutAwake<T>(s: State<T>, t: Tid, w: Tid)
    requires Fifo(s) && Awake(s) && Enabled(s, PutRun(t, w)) && !s.closed
    ensures Awake(Next(s, PutRun(t, w)))
  {
    UsesOne(s.producers, t, |s.ring.cells| - s.ring.count);
    GainsOne(s.consumers, w, s.ring.count);
  }

  lemma TakeAwake<T>(s: State<T>, t: Tid, w: Tid)
    requires Fifo(s) && Awake(s) && Enabled(s, TakeRun(t, w)) && !s.closed
    ensures Awake(Next(s, TakeRun(t, w)))
  {
    UsesOne(s.consumers, t, s.ring.count);
    GainsOne(s.producers, w, |s.ring.cells| - s.ring.count);
  }

  // ----- Whole runs -----

  /** `s`, stepped through `run`, ends in `e`. */
  ghost predicate Reaches<T>(s: State<T>, run: seq<Step<T>>, e: State<T>)
    decreases |run|
  {
    if run == [] then s == e
    else Enabled(s, run[0]) && Reaches(Next(s, run[0]), run[1..], e)
  }

  /** Every interleaving of any number of threads keeps the FIFO history and loses no wakeup before `close`. */
  lemma {:induction false} EveryRunKeeps<T>(s: State<T>, run: seq<Step<T>>, e: State<T>)
    requires Fifo(s) && Awake(s) && Reaches(s, run, e)
    ensures Fifo(e) && Awake(e)
    decreases |run|
  {
    if run != [] {
      StepFifo(s, run[0]);
      StepAwake(s, run[0]);
      EveryRunKeeps(Next(s, run[0]), run[1..], e);
    }
  }

  /** From the empty queue: no access leaves the array, the history is FIFO, and sleepers are accounted for. */
  lemma EveryRun<T>(s: State<T>, run: seq<Step<T>>, e: State<T>)
    requires Initial(s) && Reaches(s, run, e)
    ensures InBounds(e.ring) && e.ring.count <= |e.ring.cells|
    ensures e.ring.head == (e.ring.tail + e.ring.count) % |e.ring.cells|
    ensures RingOk(e.ring) && e.takes + Contents(e.ring) == e.puts
    ensures !e.closed && e.consumers.waiting != {} ==> e.ring.count <= |e.consumers.signalled|
    ensures !e.closed && e.producers.waiting != {} ==> |e.ring.cells| - e.ring.count <= |e.producers.signalled|
  {
    EveryRunKeeps(s, run, e);
  }

  /** Nobody can run: every thread inside `put` or `take` sleeps unsignalled. */
  predicate Standstill<T>(s: State<T>) {
    Everyone(s.producers) == s.producers.waiting && Everyone(s.consumers) == s.consumers.waiting
  }

  /** Before `close` only one role can stand still: consumers on an empty queue or producers on a full one. */
  lemma NoDeadlock<T>(s: State<T>, run: seq<Step<T>>, e: State<T>)
    requires Initial(s) && Reaches(s, run, e) && !e.closed && Standstill(e)
    ensures e.consumers.waiting != {} ==> e.ring.count == 0
    ensures e.producers.waiting != {} ==> e.ring.count == |e.ring.cells|
    ensures e.consumers.waiting == {} || e.producers.waiting == {}
  {
    EveryRunKeeps(s, run, e);
    assert e.consumers.signalled <= Everyone(e.consumers) && e.producers.signalled <= Everyone(e.producers);
    assert e.consumers.signalled == {} && e.producers.signalled == {};
  }
}
