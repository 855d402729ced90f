/**
 `Deque` of queue.h: unbounded, closable, `closed` tested under the lock.  Its
 consumers wait without limit (`take`) or until a deadline (`poll_until`).
 */
module ClosableDeque {
  import opened CondVar
  import opened SeqFacts

  /** How one pass under the lock ends for a consumer. */
  datatype Got<T> = Threw | Waits | Item(value: T)

  class Deque<T> {
    var items: seq<T>
    var closed: bool

    constructor ()
      ensures items == [] && !closed
    {
      items, closed := [], false;
    }

    /** `put` and `emplace`: false stands for the exception. */
    method Put(val: T) returns (ok: bool)
      modifies this`items
      ensures ok == !closed && items == if ok then old(items) + [val] else old(items)
    {
      if closed {
        return false;
      }
      items := items + [val];
      ok := true;
    }

    /** The pass of `take` and `poll_until` that first got the lock or got it back after a wait. */
    method Take() returns (r: Got<T>)
      modifies this`items
      ensures r.Threw? == closed && (r.Waits? <==> !closed && old(items) == [])
      ensures old(items) == if r.Item? then [r.value] + items else items
    {
      if closed {
        return Threw;
      }
      if items == [] {
        return Waits;
      }
      r := Item(items[0]);
      HeadTail(items);
      items := items[1..];
    }

    method Close()
      modifies this`closed
      ensures closed
    {
      closed := true;
    }

    method Reset()
      modifies this
      ensures !closed && items == []
    {
      closed := false;
      items := [];
    }
  }

  /** `timed` are the consumers inside `poll_until`; `puts` and `takes` are the history since the last reset. */
  datatype State<T> = State(items: seq<T>, closed: bool, takers: Side, timed: set<Tid>, puts: seq<T>, takes: seq<T>)

  datatype Step<T> =
    | Put(v: T, w: Tid)
    | Enter(t: Tid, deadline: bool)
    | Resume(t: Tid)
    | Spurious(t: Tid)
    | Expire(t: Tid)
    | Close
    | Reset

  ghost predicate Initial<T>(s: State<T>) {
    s == State([], false, Nobody, {}, [], [])
  }

  predicate Enabled<T>(s: State<T>, a: Step<T>) {
    match a
    case Put(_, w) => Picks(s.takers, w)
    case Enter(t, _) => t !in Everyone(s.takers)
    case Resume(t) => Resumed(s.takers, t)
    case Spurious(t) => t in s.takers.waiting
    case Expire(t) => t in s.timed && t in Everyone(s.takers)
    case Close => true
    case Reset => true
  }

  /** A consumer with the lock: the exception, an item, or sleep. */
  function Pass<T>(s: State<T>, t: Tid): State<T> {
    if s.closed then s.(takers := Without(s.takers, t))
    else if s.items == [] then s.(takers := Sleep(s.takers, t))
    else s.(items := s.items[1..], takers := Without(s.takers, t), takes := s.takes + [s.items[0]])
  }

  /** A timed wait that reports its timeout returns without looking at the queue, even if it was signalled. */
  function Next<T>(s: State<T>, a: Step<T>): State<T>
    requires Enabled(s, a)
  {
    match a
    case Put(v, w) =>
      if s.closed then s
      else s.(items := s.items + [v], takers := NotifyOne(s.takers, w), puts := s.puts + [v])
    case Enter(t, deadline) => Pass(s.(timed := if deadline then s.timed + {t} else s.timed - {t}), t)
    case Resume(t) => Pass(s, t)
    case Spurious(t) => s.(takers := Stir(s.takers, t))
    case Expire(t) => s.(takers := Without(s.takers, t))
    case Close => s.(closed := true, takers := NotifyAll(s.takers))
    case Reset => s.(closed := false, items := [], takers := NotifyAll(s.takers), puts := [], takes := [])
  }

  ghost predicate Reaches<T>(s: State<T>, run: seq<Step<T>>, e: State<T>)
    decreases |run|
  {
    if run == [] then s == e else Enabled(s, run[0]) && Reaches(Next(s, run[0]), run[1..], e)
  }

  // ----- What every step keeps -----

  /** FIFO since the last reset, and nobody sleeps on a closed deque. */
  ghost predicate Fifo<T>(s: State<T>) {
    && s.takes + s.items == s.puts
    && Apart(s.takers) && s.takers.arrived == {}
    && (s.closed ==> s.takers.waiting == {})
  }

  ghost predicate Awake<T>(s: State<T>) {
    NoLostWakeup(s.takers, |s.items|)
  }

  /** The timeout of a signalled thread swallows a notification that a sleeper needed. */
  predicate Swallows<T>(s: State<T>, a: Step<T>) {
    a.Expire? && a.t in s.takers.signalled && s.takers.waiting != {} && |s.items| == |s.takers.signalled|
  }

  lemma StepFifo<T>(s: State<T>, a: Step<T>)
    requires Fifo(s) && Enabled(s, a)
    ensures Fifo(Next(s, a))
  {
  }

  /** `close` and `reset` leave nobody asleep, and whoever slept can run; no other step wakes more than one. */
  lemma WakesAll<T>(s: State<T>, a: Step<T>)
    requires Fifo(s) && Enabled(s, a)
    ensures a.Close? || a.Reset? ==> Next(s, a).takers.waiting == {} && forall t :: t in s.takers.waiting ==> Resumed(Next(s, a).takers, t)
    ensures !a.Close? && !a.Reset? ==> |s.takers.waiting - Next(s, a).takers.waiting| <= 1
    ensures Everyone(s.takers) - Everyone(Next(s, a).takers) <= (if a.Resume? || a.Expire? then {a.t} else {})
  {
    if a.Put? {
      assert s.takers.waiting - Next(s, a).takers.waiting <= {a.w};
    } else if !a.Close? && !a.Reset? {
      assert s.takers.waiting - Next(s, a).takers.waiting <= {a.t};
    }
    OneAtMost(s.takers.waiting - Next(s, a).takers.waiting, if a.Put? then a.w else if a.Close? || a.Reset? then 0 else a.t);
  }

  lemma OneAtMost(d: set<Tid>, t: Tid)
    ensures d <= {t} ==> |d| <= 1
  {
    if d <= {t} {
      assert d == {} || d == {t};
    }
  }

  /** A step loses a wakeup exactly when it is such a timeout. */
  lemma StepAwake<T>(s: State<T>, a: Step<T>)
    requires Fifo(s) && Awake(s) && Enabled(s, a)
    ensures Awake(Next(s, a)) <==> !Swallows(s, a)
  {
  }

  /** No timed consumer is ever inside. */
  predicate Untimed<T>(run: seq<Step<T>>) {
    forall i :: 0 <= i < |run| ==> !(run[i].Enter? && run[i].deadline)
  }

  /** With untimed waits only, every run, with any closes and resets, is FIFO and loses no wakeup. */
  lemma {:induction false} UntimedRunKeeps<T>(s: State<T>, run: seq<Step<T>>, e: State<T>)
    requires Fifo(s) && Awake(s) && s.timed == {} && Untimed(run) && Reaches(s, run, e)
    ensures Fifo(e) && Awake(e)
    decreases |run|
  {
    if run != [] {
      StepFifo(s, run[0]);
      StepAwake(s, run[0]);
      UntimedRunKeeps(Next(s, run[0]), run[1..], e);
    }
  }

  lemma UntimedRun<T>(s: State<T>, run: seq<Step<T>>, e: State<T>)
    requires Initial(s) && Untimed(run) && Reaches(s, run, e)
    ensures e.takes + e.items == e.puts
    ensures e.takers.waiting != {} ==> |e.items| <= |e.takers.signalled| && !e.closed
  {
    UntimedRunKeeps(s, run, e);
  }

  /** Only thread `g` ever consumes, as the orphan collector does. */
  predicate OnlyConsumer<T>(run: seq<Step<T>>, g: Tid) {
    forall i :: 0 <= i < |run| && run[i].Enter? ==> run[i].t == g
  }

  lemma {:induction false} OneConsumerKeeps<T>(s: State<T>, run: seq<Step<T>>, e: State<T>, g: Tid)
    requires Fifo(s) && Awake(s) && Everyone(s.takers) <= {g} && OnlyConsumer(run, g) && Reaches(s, run, e)
    ensures Fifo(e) && Awake(e) && Everyone(e.takers) <= {g}
    decreases |run|
  {
    if run != [] {
      var a := run[0];
      StepFifo(s, a);
      assert Everyone(Next(s, a).takers) <= {g} && !Swallows(s, a) by {
        if a.Put? {
        } else if !a.Close? && !a.Reset? {
        }
        assert s.takers.waiting <= Everyone(s.takers) && s.takers.signalled <= Everyone(s.takers);
      }
      StepAwake(s, a);
      OneConsumerKeeps(Next(s, a), run[1..], e, g);
    }
  }

  /** With one consumer, deadlines are harmless: if it sleeps unsignalled, the deque is empty and open. */
  lemma OneConsumerRun<T>(s: State<T>, run: seq<Step<T>>, e: State<T>, g: Tid)
    requires Initial(s) && OnlyConsumer(run, g) && Reaches(s, run, e)
    ensures e.takes + e.items == e.puts
    ensures e.takers.waiting != {} ==> e.items == [] && !e.closed
  {
    OneConsumerKeeps(s, run, e, g);
    if e.takers.waiting != {} {
      assert e.takers.waiting <= {g} && e.takers.signalled <= {g};
      var t :| t in e.takers.waiting;
      assert t == g && g !in e.takers.signalled;
      assert e.takers.signalled == {};
    }
  }

  /** With two, one of them timed, an item can lie in the deque while the other sleeps unsignalled. */
  lemma TimedWaitSwallows()
    ensures exists run, e :: Reaches(State<int>.State([], false, Nobody, {}, [], []), run, e)
              && e.items == [7] && 2 in e.takers.waiting && e.takers.signalled == {}
  {
    var s0 := State<int>.State([], false, Nobody, {}, [], []);
    var s1 := Next(s0, Enter(1, true));
    var s2 := Next(s1, Enter(2, false));
    var s3 := Next(s2, Put(7, 1));
    var s4 := Next(s3, Expire(1));
    var r3: seq<Step<int>> := [Expire(1)] + [];
    var r2 := [Put(7, 1)] + r3;
    var r1 := [Enter(2, false)] + r2;
    StepThen(s3, Expire(1), [], s4);
    StepThen(s2, Put(7, 1), r3, s4);
    StepThen(s1, Enter(2, false), r2, s4);
    StepThen(s0, Enter(1, true), r1, s4);
  }

  lemma StepThen<T>(s: State<T>, a: Step<T>, run: seq<Step<T>>, e: State<T>)
    requires Enabled(s, a) && Reaches(Next(s, a), run, e)
    ensures Reaches(s, [a] + run, e)
  {
  }
}
