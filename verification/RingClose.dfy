/**
 `ArrayBlockingQueue` after `close`.  The first test of `closed` comes before the
 lock, so a thread that has passed it can still store, take, or fall asleep.
 */
module RingClose {
  import opened CondVar
  import opened RingQueue
  import opened SeqFacts

  // ----- Who can fall asleep -----

  /** The late consumers can all be served, so none will sleep. */
  ghost predicate EnoughItems<T>(s: State<T>) {
    s.closed && Apart(s.consumers) && s.consumers.waiting == {} && |s.consumers.arrived| <= s.ring.count
  }

  ghost predicate EnoughRoom<T>(s: State<T>) {
    s.closed && Apart(s.producers) && s.producers.waiting == {} && |s.producers.arrived| <= |s.ring.cells| - s.ring.count
  }

  lemma {:induction false} EnoughItemsStays<T>(s: State<T>, run: seq<Step<T>>, e: State<T>)
    requires EnoughItems(s) && Reaches(s, run, e)
    ensures EnoughItems(e)
    decreases |run|
  {
    if run != [] {
      EnoughItemsStays(Next(s, run[0]), run[1..], e);
    }
  }

  lemma {:induction false} EnoughRoomStays<T>(s: State<T>, run: seq<Step<T>>, e: State<T>)
    requires EnoughRoom(s) && Reaches(s, run, e)
    ensures EnoughRoom(e)
    decreases |run|
  {
    if run != [] {
      EnoughRoomStays(Next(s, run[0]), run[1..], e);
    }
  }

  ghost predicate ConsumerMaySleep<T(!new)>(c: State<T>) {
    exists run, e :: Reaches(c, run, e) && e.consumers.waiting != {}
  }

  ghost predicate ProducerMaySleep<T(!new)>(c: State<T>) {
    exists run, e :: Reaches(c, run, e) && e.producers.waiting != {}
  }

  lemma ConsumerCanSleep<T(!new)>(s: State<T>, c: State<T>)
    requires Fifo(s) && c == Next(s, Close)
    ensures ConsumerMaySleep(c) <==> |s.consumers.arrived| > s.ring.count
  {
    StepFifo(s, Close);
    if |s.consumers.arrived| > s.ring.count {
      var run, e := RunConsumers(c);
    } else {
      forall run, e | Reaches(c, run, e)
        ensures e.consumers.waiting == {}
      {
        EnoughItemsStays(c, run, e);
      }
    }
  }

  lemma ProducerCanSleep<T(!new)>(s: State<T>, c: State<T>)
    requires Fifo(s) && c == Next(s, Close)
    ensures ProducerMaySleep(c) <==> |s.producers.arrived| > |s.ring.cells| - s.ring.count
  {
    StepFifo(s, Close);
    if |s.producers.arrived| > |s.ring.cells| - s.ring.count {
      var run, e := RunProducers(c);
    } else {
      forall run, e | Reaches(c, run, e)
        ensures e.producers.waiting == {}
      {
        EnoughRoomStays(c, run, e);
      }
    }
  }

  // ----- Who can be left asleep -----

  function Min(a: int, b: int): int {
    if a < b then a else b
  }

  /**
   Counts of one role: `a` threads past the first test, `w` asleep, `b` threads of
   the other role past the test, `n` units that the role can use, of `cap` in all.
   Each thread asleep, and each that finds no unit, will be woken or served by one of the `b`.
   */
  predicate Served(a: nat, w: nat, b: nat, n: int, cap: nat) {
    && w + (if a > n then a - n else 0) <= b
    && a + w <= cap
    && (w > 0 ==> n + w + a <= cap)
  }

  /** Threads past the test and asleep, of both roles, and the items of a queue of `cap` cells. */
  datatype Counts = Counts(producers: nat, fullSleepers: nat, consumers: nat, emptySleepers: nat, items: int, cap: nat)

  ghost function CountsOf<T>(s: State<T>): Counts {
    Counts(|s.producers.arrived|, |s.producers.waiting|, |s.consumers.arrived|, |s.consumers.waiting|, s.ring.count, |s.ring.cells|)
  }

  predicate ConsumersServed(c: Counts) {
    Served(c.consumers, c.emptySleepers, c.producers, c.items, c.cap)
  }

  predicate ProducersServed(c: Counts) {
    Served(c.producers, c.fullSleepers, c.consumers, c.cap - c.items, c.cap)
  }

  function Less(n: nat): nat {
    if n > 0 then n - 1 else 0
  }

  /** What a producer, a consumer, or anything else can do to the counts of a closed queue. */
  predicate PutMove(c: Counts, d: Counts) {
    || d == c
    || (c.producers > 0 && c.items == c.cap && d == c.(producers := c.producers - 1, fullSleepers := c.fullSleepers + 1))
    || (c.producers > 0 && c.items < c.cap &&
        d == c.(producers := c.producers - 1, items := c.items + 1, emptySleepers := Less(c.emptySleepers)))
  }

  predicate TakeMove(c: Counts, d: Counts) {
    || d == c
    || (c.consumers > 0 && c.items == 0 && d == c.(consumers := c.consumers - 1, emptySleepers := c.emptySleepers + 1))
    || (c.consumers > 0 && c.items > 0 &&
        d == c.(consumers := c.consumers - 1, items := c.items - 1, fullSleepers := Less(c.fullSleepers)))
  }

  predicate WakeMove(c: Counts, d: Counts) {
    d.fullSleepers <= c.fullSleepers && d.emptySleepers <= c.emptySleepers &&
    d == c.(fullSleepers := d.fullSleepers, emptySleepers := d.emptySleepers)
  }

  lemma MoveServed(c: Counts, d: Counts)
    requires PutMove(c, d) || TakeMove(c, d) || WakeMove(c, d)
    ensures ConsumersServed(c) ==> ConsumersServed(d)
    ensures ProducersServed(c) ==> ProducersServed(d)
  {
  }

  lemma RemoveOne(x: set<Tid>, t: Tid)
    ensures |x - {t}| == |x| - One(t in x)
  {
    if t !in x {
      assert x - {t} == x;
    }
  }

  /** How the moves of a thread change the counts of its side. */
  lemma SideCounts(d: Side, t: Tid)
    requires Apart(d)
    ensures |Without(d, t).arrived| == |d.arrived| - One(t in d.arrived) && |Without(d, t).waiting| == |d.waiting| - One(t in d.waiting)
    ensures t !in d.waiting ==> |Sleep(d, t).arrived| == |d.arrived| - One(t in d.arrived) && |Sleep(d, t).waiting| == |d.waiting| + 1
    ensures NotifyOne(d, t).arrived == d.arrived && |NotifyOne(d, t).waiting| == |d.waiting| - One(t in d.waiting)
    ensures Stir(d, t).arrived == d.arrived && |Stir(d, t).waiting| == |d.waiting| - One(t in d.waiting)
  {
    RemoveOne(d.arrived, t);
    RemoveOne(d.waiting, t);
  }

  ghost predicate Closed<T>(s: State<T>) {
    s.closed && Fifo(s)
  }

  lemma Notified(d: Side, w: Tid)
    requires Apart(d) && Picks(d, w)
    ensures NotifyOne(d, w).arrived == d.arrived && |NotifyOne(d, w).waiting| == Less(|d.waiting|)
  {
    RemoveOne(d.waiting, w);
  }

  lemma PutMoves<T>(s: State<T>, a: Step<T>)
    requires Closed(s) && a.PutRun? && Enabled(s, a)
    ensures PutMove(CountsOf(s), CountsOf(Next(s, a)))
  {
    SideCounts(s.producers, a.t);
    var c, d := CountsOf(s), CountsOf(Next(s, a));
    if Resumed(s.producers, a.t) {
      assert d == c;
    } else if s.ring.count == |s.ring.cells| {
      assert d == c.(producers := c.producers - 1, fullSleepers := c.fullSleepers + 1);
    } else {
      Notified(s.consumers, a.w);
    }
  }

  lemma TakeMoves<T>(s: State<T>, a: Step<T>)
    requires Closed(s) && a.TakeRun? && Enabled(s, a)
    ensures TakeMove(CountsOf(s), CountsOf(Next(s, a)))
  {
    SideCounts(s.consumers, a.t);
    var c, d := CountsOf(s), CountsOf(Next(s, a));
    if Resumed(s.consumers, a.t) {
      assert d == c;
    } else if s.ring.count == 0 {
      assert d == c.(consumers := c.consumers - 1, emptySleepers := c.emptySleepers + 1);
    } else {
      Notified(s.producers, a.w);
    }
  }

  lemma StepMoves<T>(s: State<T>, a: Step<T>)
    requires Closed(s) && Enabled(s, a)
    ensures var c, d := CountsOf(s), CountsOf(Next(s, a)); PutMove(c, d) || TakeMove(c, d) || WakeMove(c, d)
  {
    match a
    case PutRun(_, _) => PutMoves(s, a);
    case TakeRun(_, _) => TakeMoves(s, a);
    case PutStir(t) => SideCounts(s.producers, t);
    case TakeStir(t) => SideCounts(s.consumers, t);
    case _ =>
  }

  lemma {:induction false} RunServed<T>(s: State<T>, run: seq<Step<T>>, e: State<T>)
    requires Closed(s) && Reaches(s, run, e)
    ensures Closed(e)
    ensures ConsumersServed(CountsOf(s)) ==> ConsumersServed(CountsOf(e))
    ensures ProducersServed(CountsOf(s)) ==> ProducersServed(CountsOf(e))
    decreases |run|
  {
    if run != [] {
      var n := Next(s, run[0]);
      StepFifo(s, run[0]);
      StepMoves(s, run[0]);
      MoveServed(CountsOf(s), CountsOf(n));
      RunServed(n, run[1..], e);
    }
  }

  lemma StandstillCounts(d: Side)
    requires Apart(d) && Everyone(d) == d.waiting
    ensures d.arrived == {}
  {
    assert d.arrived <= Everyone(d);
  }

  // ----- A run that leaves as many asleep as can be -----

  lemma {:induction false} Join<T>(s: State<T>, a: seq<Step<T>>, m: State<T>, b: seq<Step<T>>, e: State<T>)
    requires Reaches(s, a, m) && Reaches(m, b, e)
    ensures Reaches(s, a + b, e)
    decreases |a|
  {
    if a == [] {
      assert a + b == b;
    } else {
      Join(Next(s, a[0]), a[1..], m, b, e);
      assert (a + b)[1..] == a[1..] + b;
    }
  }

  ghost function Anyone(x: set<Tid>): (w: Tid)
    ensures x != {} ==> w in x
  {
    if x == {} then 0 else var w :| w in x; w
  }

  lemma LateProducer<T>(s: State<T>, a: Step<T>, n: State<T>)
    requires Closed(s) && a.PutRun? && a.t in s.producers.arrived && Picks(s.consumers, a.w) && Enabled(s, a) && n == Next(s, a)
    ensures Closed(n) && |n.producers.arrived| == |s.producers.arrived| - 1 && |n.ring.cells| == |s.ring.cells|
    ensures n.consumers.arrived == s.consumers.arrived && (s.consumers.waiting == {} ==> n.consumers == s.consumers)
    ensures s.producers.waiting <= n.producers.waiting
    ensures n.ring.count == Min(s.ring.count + 1, |s.ring.cells|) && (s.ring.count == |s.ring.cells| ==> n.producers.waiting != {})
  {
    StepFifo(s, a);
    SideCounts(s.producers, a.t);
    assert s.ring.count == |s.ring.cells| ==> a.t in n.producers.waiting;
  }

  lemma LateConsumer<T>(s: State<T>, a: Step<T>, n: State<T>)
    requires Closed(s) && a.TakeRun? && a.t in s.consumers.arrived && Picks(s.producers, a.w) && Enabled(s, a) && n == Next(s, a)
    ensures Closed(n) && |n.consumers.arrived| == |s.consumers.arrived| - 1 && |n.ring.cells| == |s.ring.cells|
    ensures n.producers.arrived == s.producers.arrived && (s.producers.waiting == {} ==> n.producers == s.producers)
    ensures s.consumers.waiting <= n.consumers.waiting
    ensures n.ring.count == (if s.ring.count > 0 then s.ring.count - 1 else 0) && (s.ring.count == 0 ==> n.consumers.waiting != {})
  {
    StepFifo(s, a);
    SideCounts(s.consumers, a.t);
    assert s.ring.count == 0 ==> a.t in n.consumers.waiting;
  }

  lemma Before<T>(s: State<T>, a: Step<T>, later: seq<Step<T>>, e: State<T>) returns (run: seq<Step<T>>)
    requires Enabled(s, a) && Reaches(Next(s, a), later, e)
    ensures Reaches(s, run, e)
  {
    run := [a] + later;
    assert run[1..] == later;
  }

  /** All late producers run, one after the other. */
  lemma {:induction false} RunProducers<T>(s: State<T>) returns (run: seq<Step<T>>, e: State<T>)
    requires Closed(s)
    ensures Reaches(s, run, e) && Closed(e) && e.producers.arrived == {} && |e.ring.cells| == |s.ring.cells|
    ensures e.ring.count == Min(s.ring.count + |s.producers.arrived|, |s.ring.cells|)
    ensures e.consumers.arrived == s.consumers.arrived && (s.consumers.waiting == {} ==> e.consumers == s.consumers)
    ensures s.producers.waiting <= e.producers.waiting
    ensures s.ring.count + |s.producers.arrived| > |s.ring.cells| ==> e.producers.waiting != {}
    decreases |s.producers.arrived|
  {
    run, e := [], s;
    if s.producers.arrived != {} {
      var t := Anyone(s.producers.arrived);
      assert t in Everyone(s.producers);
      var a: Step<T> := PutRun(t, Anyone(s.consumers.waiting));
      LateProducer(s, a, Next(s, a));
      run, e := RunProducers(Next(s, a));
      run := Before(s, a, run, e);
    }
  }

  lemma {:induction false} RunConsumers<T>(s: State<T>) returns (run: seq<Step<T>>, e: State<T>)
    requires Closed(s)
    ensures Reaches(s, run, e) && Closed(e) && e.consumers.arrived == {} && |e.ring.cells| == |s.ring.cells|
    ensures |e.ring.cells| - e.ring.count == Min(|s.ring.cells| - s.ring.count + |s.consumers.arrived|, |s.ring.cells|)
    ensures e.producers.arrived == s.producers.arrived && (s.producers.waiting == {} ==> e.producers == s.producers)
    ensures s.consumers.waiting <= e.consumers.waiting
    ensures |s.consumers.arrived| > s.ring.count ==> e.consumers.waiting != {}
    decreases |s.consumers.arrived|
  {
    run, e := [], s;
    if s.consumers.arrived != {} {
      var a: Step<T> := TakeRun(Anyone(s.consumers.arrived), Anyone(s.producers.waiting));
      LateConsumer(s, a, Next(s, a));
      run, e := RunConsumers(Next(s, a));
      run := Before(s, a, run, e);
    }
  }

  /** Whoever was woken leaves with the exception. */
  lemma {:induction false} RunWoken<T>(s: State<T>) returns (run: seq<Step<T>>, e: State<T>)
    requires Fifo(s) && s.closed && s.producers.arrived == {} && s.consumers.arrived == {}
    ensures Reaches(s, run, e) && Standstill(e)
    ensures e.producers.waiting == s.producers.waiting && e.consumers.waiting == s.consumers.waiting
    decreases |Woken(s.producers)| + |Woken(s.consumers)|
  {
    run, e := [], s;
    var p, c := Woken(s.producers), Woken(s.consumers);
    if p + c != {} {
      var a: Step<T> := if p != {} then PutRun(Anyone(p), Anyone(s.consumers.waiting)) else TakeRun(Anyone(c), Anyone(s.producers.waiting));
      WokenLeaves(s, a);
      StepFifo(s, a);
      run, e := RunWoken(Next(s, a));
      run := Before(s, a, run, e);
    }
  }

  lemma WokenLeaves<T>(s: State<T>, a: Step<T>)
    requires Fifo(s) && s.closed && s.producers.arrived == {} && s.consumers.arrived == {}
    requires (a.PutRun? && a.t in Woken(s.producers) && Picks(s.consumers, a.w)) || (a.TakeRun? && a.t in Woken(s.consumers) && Picks(s.producers, a.w))
    ensures Enabled(s, a)
    ensures var n := Next(s, a);
            && n.closed && n.producers.arrived == {} && n.consumers.arrived == {}
            && n.producers.waiting == s.producers.waiting && n.consumers.waiting == s.consumers.waiting
            && Woken(n.producers) == (if a.PutRun? then Woken(s.producers) - {a.t} else Woken(s.producers))
            && Woken(n.consumers) == (if a.PutRun? then Woken(s.consumers) else Woken(s.consumers) - {a.t})
  {
    assert a.PutRun? ==> a.t in Everyone(s.producers);
  }

  function Woken(d: Side): set<Tid> {
    d.signalled + d.stirred
  }

  // ----- Exactly when -----

  ghost predicate ConsumerMayBeLeft<T(!new)>(c: State<T>) {
    exists run, e :: Reaches(c, run, e) && Standstill(e) && e.consumers.waiting != {}
  }

  ghost predicate ProducerMayBeLeft<T(!new)>(c: State<T>) {
    exists run, e :: Reaches(c, run, e) && Standstill(e) && e.producers.waiting != {}
  }

  /** Late producers fill the queue and sleep; late consumers empty it, and those that find nothing sleep on. */
  lemma LeaveConsumer<T>(c: State<T>) returns (run: seq<Step<T>>, e: State<T>)
    requires Fifo(c) && c.closed && c.consumers.waiting == {}
    requires |c.consumers.arrived| > Min(c.ring.count + |c.producers.arrived|, |c.ring.cells|)
    ensures Reaches(c, run, e) && Standstill(e) && e.consumers.waiting != {}
  {
    var r1, m := RunProducers(c);
    var r2, k := RunConsumers(m);
    var r3;
    r3, e := RunWoken(k);
    Join(m, r2, k, r3, e);
    Join(c, r1, m, r2 + r3, e);
    run := r1 + (r2 + r3);
  }

  lemma LeaveProducer<T>(c: State<T>) returns (run: seq<Step<T>>, e: State<T>)
    requires Fifo(c) && c.closed && c.producers.waiting == {}
    requires |c.producers.arrived| > Min(|c.ring.cells| - c.ring.count + |c.consumers.arrived|, |c.ring.cells|)
    ensures Reaches(c, run, e) && Standstill(e) && e.producers.waiting != {}
  {
    var r1, m := RunConsumers(c);
    var r2, k := RunProducers(m);
    var r3;
    r3, e := RunWoken(k);
    Join(m, r2, k, r3, e);
    Join(c, r1, m, r2 + r3, e);
    run := r1 + (r2 + r3);
  }

  /**
   `close` wakes every sleeper.  A consumer can fall asleep afterwards iff more
   consumers were past the first test than items were stored.  One can be left
   asleep, with nobody in the queue able to run, iff more were past it than
   items were stored or still to be stored by late producers, or than there are cells.
   */
  lemma ConsumerAsleepAfterClose<T(!new)>(s: State<T>, c: State<T>)
    requires Fifo(s) && c == Next(s, Close)
    ensures c.consumers.waiting == {} && (ConsumerMaySleep(c) <==> |s.consumers.arrived| > s.ring.count)
    ensures ConsumerMayBeLeft(c) <==> |s.consumers.arrived| > Min(s.ring.count + |s.producers.arrived|, |s.ring.cells|)
  {
    StepFifo(s, Close);
    ConsumerCanSleep(s, c);
    if |s.consumers.arrived| > Min(s.ring.count + |s.producers.arrived|, |s.ring.cells|) {
      var run, e := LeaveConsumer(c);
    } else {
      forall run, e | Reaches(c, run, e) && Standstill(e)
        ensures e.consumers.waiting == {}
      {
        RunServed(c, run, e);
        StandstillCounts(e.producers);
        StandstillCounts(e.consumers);
      }
    }
  }

  /** The same for producers, with free cells for items. */
  lemma ProducerAsleepAfterClose<T(!new)>(s: State<T>, c: State<T>)
    requires Fifo(s) && c == Next(s, Close)
    ensures c.producers.waiting == {} && (ProducerMaySleep(c) <==> |s.producers.arrived| > |s.ring.cells| - s.ring.count)
    ensures ProducerMayBeLeft(c) <==>
            |s.producers.arrived| > Min(|s.ring.cells| - s.ring.count + |s.consumers.arrived|, |s.ring.cells|)
  {
    StepFifo(s, Close);
    ProducerCanSleep(s, c);
    if |s.producers.arrived| > Min(|s.ring.cells| - s.ring.count + |s.consumers.arrived|, |s.ring.cells|) {
      var run, e := LeaveProducer(c);
    } else {
      forall run, e | Reaches(c, run, e) && Standstill(e)
        ensures e.producers.waiting == {}
      {
        RunServed(c, run, e);
        StandstillCounts(e.producers);
        StandstillCounts(e.consumers);
      }
    }
  }
}
