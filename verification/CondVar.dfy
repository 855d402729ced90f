/**
 The threads that use one condition variable.  A signalled thread has been
 notified but has not yet got the lock back; spurious wakeups are possible.
 */
module CondVar {
  type Tid = nat

  /**
   Where the threads of one role are: past the first test of `closed` and about to
   lock, asleep on the condition variable, signalled but not resumed, or woken by nobody.
   */
  datatype Side = Side(arrived: set<Tid>, waiting: set<Tid>, signalled: set<Tid>, stirred: set<Tid>)

  function Everyone(d: Side): set<Tid> {
    d.arrived + d.waiting + d.signalled + d.stirred
  }

  predicate Runnable(d: Side, t: Tid) {
    t in d.arrived || t in d.signalled || t in d.stirred
  }

  predicate Resumed(d: Side, t: Tid) {
    t in d.signalled || t in d.stirred
  }

  function Without(d: Side, t: Tid): Side {
    Side(d.arrived - {t}, d.waiting - {t}, d.signalled - {t}, d.stirred - {t})
  }

  function Sleep(d: Side, t: Tid): Side {
    var e := Without(d, t);
    e.(waiting := e.waiting + {t})
  }

  /** notify_one: `w` is woken if it waits; a notification with nobody waiting is lost. */
  function NotifyOne(d: Side, w: Tid): Side {
    if w in d.waiting then d.(waiting := d.waiting - {w}, signalled := d.signalled + {w}) else d
  }

  function NotifyAll(d: Side): Side {
    d.(waiting := {}, signalled := d.signalled + d.waiting)
  }

  predicate Picks(d: Side, w: Tid) {
    d.waiting != {} ==> w in d.waiting
  }

  const Nobody := Side({}, {}, {}, {})

  function Stir(d: Side, t: Tid): Side {
    d.(waiting := d.waiting - {t}, stirred := d.stirred + {t})
  }

  predicate Apart(d: Side) {
    && d.arrived !! d.waiting && d.arrived !! d.signalled && d.arrived !! d.stirred
    && d.waiting !! d.signalled && d.waiting !! d.stirred && d.signalled !! d.stirred
  }

  /** If a thread sleeps unsignalled, each of the `n` units it could use is promised to a signalled thread. */
  predicate NoLostWakeup(d: Side, n: int) {
    d.waiting != {} ==> n <= |d.signalled|
  }
}
