/**
 The orphan collector by itself: the loop of `scan_orphans` against a filter and
 against the steps of the protocol machine, and how the collector drains its
 slots once they are all terminal.
 */
module OrphanGc {
  import opened CallSlots
  import opened CallProtocol
  import opened CallSafety
  import opened CallRuns
  import opened SeqFacts

  // ----- One scan -----

  /** The slots a scan keeps, in order. */
  function Kept(calls: map<Id, Record>, q: seq<Id>): seq<Id> {
    if q == [] then []
    else if q[0] in calls && Disposable(calls[q[0]]) then Kept(calls, q[1..])
    else [q[0]] + Kept(calls, q[1..])
  }

  predicate Distinct(q: seq<Id>) {
    forall i, j :: 0 <= i < j < |q| ==> q[i] != q[j]
  }

  /** A slot of the collector's own: abandoned, its buffer not yet freed. */
  predicate Mine(calls: map<Id, Record>, id: Id) {
    && id in calls && calls[id].memory.Slot? && calls[id].memory.call.client == Abandoned
    && (calls[id].buf == InUse || calls[id].buf == NoBuf)
  }

  predicate Ours(calls: map<Id, Record>, q: seq<Id>) {
    forall i :: 0 <= i < |q| ==> Mine(calls, q[i])
  }

  /** The record after try_dispose_orphan. */
  function Tried(r: Record): Record {
    if TryDispose(r).Ok? then TryDispose(r).record else r
  }

  /** `now` is `was` with every slot of `q` tried once and nothing else changed. */
  ghost predicate SweptOf(was: map<Id, Record>, q: seq<Id>, now: map<Id, Record>) {
    && now.Keys == was.Keys
    && forall id :: id in was ==> now[id] == if id in q then Tried(was[id]) else was[id]
  }

  /** A scan of `all` that has looked at `n` slots and kept `i` of them. */
  ghost predicate Scanned(was: map<Id, Record>, all: seq<Id>, n: nat, i: nat, calls: map<Id, Record>, backlog: seq<Id>) {
    && i <= n <= |all| && i <= |backlog| && backlog[i..] == all[n..]
    && backlog[..i] + Kept(was, all[n..]) == Kept(was, all)
    && SweptOf(was, all[..n], calls)
  }

  function Snapshot(base: State, calls: map<Id, Record>, backlog: seq<Id>, frees: nat, gc: GcPc): State {
    base.(calls := calls, backlog := backlog, frees := frees, gc := gc)
  }

  lemma ScannedAll(was: map<Id, Record>, all: seq<Id>, n: nat, i: nat, calls: map<Id, Record>, backlog: seq<Id>)
    requires Scanned(was, all, n, i, calls, backlog) && i == |backlog|
    ensures n == |all| && backlog == Kept(was, all) && SweptOf(was, all, calls)
  {
  }

  lemma NextIsMine(was: map<Id, Record>, all: seq<Id>, n: nat, i: nat, calls: map<Id, Record>, backlog: seq<Id>)
    requires Scanned(was, all, n, i, calls, backlog) && i < |backlog| && Distinct(all) && Ours(was, all)
    ensures n < |all| && backlog[i] == all[n] && Mine(calls, backlog[i]) && all[n] in was && calls[backlog[i]] == was[all[n]]
  {
  }

  /** A turn of the loop on the collector's data, which become `now`, `left` and `k`. */
  lemma ScannedNext(was: map<Id, Record>, all: seq<Id>, n: nat, i: nat, calls: map<Id, Record>, backlog: seq<Id>,
                    now: map<Id, Record>, left: seq<Id>, k: nat)
    requires Scanned(was, all, n, i, calls, backlog) && i < |backlog| && Distinct(all) && Ours(was, all) && Mine(calls, backlog[i])
    requires now == calls[backlog[i] := Tried(calls[backlog[i]])]
    requires if Disposable(calls[backlog[i]]) then left == Erase(backlog, i) && k == i else left == backlog && k == i + 1
    ensures Scanned(was, all, n + 1, k, now, left)
  {
    NextIsMine(was, all, n, i, calls, backlog);
    if Disposable(calls[backlog[i]]) {
    } else {
      assert now == calls;
    }
  }

  class Collector {
    var calls: map<Id, Record>
    var backlog: seq<Id>
    var frees: nat

    /** try_dispose_orphan, with the slot's own dispose and orphan_cleanup. */
    method TryDisposeOrphan(id: Id) returns (done: bool)
      requires Mine(calls, id)
      modifies this`calls, this`frees
      ensures done == Disposable(old(calls)[id]) && done == TryDispose(old(calls)[id]).Ok?
      ensures calls == old(calls)[id := Tried(old(calls)[id])]
      ensures frees == old(frees) + One(done)
    {
      var r := calls[id];
      if !r.memory.locked && Terminal(r.memory.call) {
        if r.buf == InUse {
          r := r.(buf := FreedByGc);
        }
        r := r.(memory := Freed);
        calls := calls[id := r];
        frees := frees + 1;
        return true;
      }
      assert calls == calls[id := r];
      return false;
    }

    /** The body of that loop: the slot is erased from the list, or the position moves on. */
    method ScanOne(i: nat) returns (k: nat)
      requires i < |backlog| && Mine(calls, backlog[i])
      modifies this
      ensures var was := old(calls)[old(backlog)[i]];
              && calls == old(calls)[old(backlog)[i] := Tried(was)] && frees == old(frees) + One(Disposable(was))
              && backlog == (if Disposable(was) then Erase(old(backlog), i) else old(backlog))
              && k == if Disposable(was) then i else i + 1
    {
      k := i;
      var done := TryDisposeOrphan(backlog[i]);
      if done {
        backlog := backlog[..i] + backlog[i + 1..];
      } else {
        k := i + 1;
      }
    }

    /** The loop of scan_orphans: it keeps exactly the slots that are not disposable, in order, and frees the others. */
    method ScanOrphans()
      requires Distinct(backlog) && Ours(calls, backlog)
      modifies this
      ensures backlog == Kept(old(calls), old(backlog))
      ensures frees == old(frees) + |old(backlog)| - |backlog|
      ensures SweptOf(old(calls), old(backlog), calls)
    {
      var i: nat := 0;
      ghost var n: nat := 0;
      ghost var was, all := calls, backlog;
      while i < |backlog|
        invariant Scanned(was, all, n, i, calls, backlog) && frees == old(frees) + n - i
        decreases |backlog| - i
      {
        NextIsMine(was, all, n, i, calls, backlog);
        ghost var calls0, backlog0, i0 := calls, backlog, i;
        i := ScanOne(i);
        ScannedNext(was, all, n, i0, calls0, backlog0, calls, backlog, i);
        n := n + 1;
      }
      ScannedAll(was, all, n, i, calls, backlog);
    }
  }

  lemma StepThen(s: State, a: Step, n: State, run: seq<Step>, e: State)
    requires Do(s, a) == Moved(n) && Reaches(n, run, e)
    ensures Reaches(s, [a] + run, e)
  {
  }

  lemma ScanEnds(base: State, calls: map<Id, Record>, backlog: seq<Id>, frees: nat, e: State) returns (run: seq<Step>)
    requires e == Snapshot(base, calls, backlog, frees, Waiting)
    ensures Reaches(Snapshot(base, calls, backlog, frees, Scanning(|backlog|)), run, e)
  {
    StepThen(Snapshot(base, calls, backlog, frees, Scanning(|backlog|)), GcScan, e, [], e);
    run := [GcScan] + [];
  }

  lemma ScanGoesOn(base: State, calls: map<Id, Record>, backlog: seq<Id>, frees: nat, i: nat, d: bool,
                   now: map<Id, Record>, left: seq<Id>, k: nat, later: seq<Step>, e: State)
    returns (run: seq<Step>)
    requires i < |backlog| && Mine(calls, backlog[i]) && d == Disposable(calls[backlog[i]])
    requires now == calls[backlog[i] := Tried(calls[backlog[i]])]
    requires left == (if d then Erase(backlog, i) else backlog) && k == if d then i else i + 1
    requires Reaches(Snapshot(base, now, left, frees + One(d), Scanning(k)), later, e)
    ensures Reaches(Snapshot(base, calls, backlog, frees, Scanning(i)), run, e)
  {
    ScanMoves(base, calls, backlog, frees, i, d, now, left, k);
    StepThen(Snapshot(base, calls, backlog, frees, Scanning(i)), GcScan,
             Snapshot(base, now, left, frees + One(d), Scanning(k)), later, e);
    run := [GcScan] + later;
  }

  lemma ScanMoves(base: State, calls: map<Id, Record>, backlog: seq<Id>, frees: nat, i: nat, d: bool,
                  now: map<Id, Record>, left: seq<Id>, k: nat)
    requires i < |backlog| && Mine(calls, backlog[i]) && d == Disposable(calls[backlog[i]])
    requires now == calls[backlog[i] := Tried(calls[backlog[i]])]
    requires left == (if d then Erase(backlog, i) else backlog) && k == if d then i else i + 1
    ensures Do(Snapshot(base, calls, backlog, frees, Scanning(i)), GcScan) == Moved(Snapshot(base, now, left, frees + One(d), Scanning(k)))
  {
  }

  /** A scan under way, undisturbed, is a run of the protocol to the same end as the loop. */
  lemma {:induction false} ScanIsRun(base: State, was: map<Id, Record>, all: seq<Id>, n: nat, i: nat,
                                     calls: map<Id, Record>, backlog: seq<Id>, frees: nat)
    returns (run: seq<Step>, e: State)
    requires Scanned(was, all, n, i, calls, backlog) && Distinct(all) && Ours(was, all)
    ensures Reaches(Snapshot(base, calls, backlog, frees, Scanning(i)), run, e)
    ensures e == Snapshot(base, e.calls, Kept(was, all), e.frees, Waiting)
    ensures SweptOf(was, all, e.calls) && e.frees + |e.backlog| == frees + |backlog|
    decreases |backlog| - i
  {
    if i < |backlog| {
      NextIsMine(was, all, n, i, calls, backlog);
      var d := Disposable(calls[backlog[i]]);
      var now := calls[backlog[i] := Tried(calls[backlog[i]])];
      var left, k := if d then Erase(backlog, i) else backlog, if d then i else i + 1;
      ScannedNext(was, all, n, i, calls, backlog, now, left, k);
      var later;
      later, e := ScanIsRun(base, was, all, n + 1, k, now, left, frees + One(d));
      run := ScanGoesOn(base, calls, backlog, frees, i, d, now, left, k, later, e);
    } else {
      ScannedAll(was, all, n, i, calls, backlog);
      e := Snapshot(base, calls, backlog, frees, Waiting);
      run := ScanEnds(base, calls, backlog, frees, e);
    }
  }

  // ----- In every reachable state -----

  lemma OnceIsDistinct(q: seq<Id>)
    requires forall id :: multiset(q)[id] <= 1
    ensures Distinct(q)
  {
    forall i, j | 0 <= i < j < |q|
      ensures q[i] != q[j]
    {
      BagErase(q, j);
      assert q[i] == Erase(q, j)[i];
      assert q[i] in Erase(q, j);
      assert multiset(q)[q[j]] <= 1;
    }
  }

  /** What `scan_orphans` relies on: its list has no slot twice, and each is live, abandoned, its buffer not freed. */
  lemma ScanIsSafe(s: State)
    requires Inv(s)
    ensures Distinct(s.backlog) && Ours(s.calls, s.backlog)
  {
    forall id
      ensures multiset(s.backlog)[id] <= 1
    {
      assert PointOk(s, id);
    }
    OnceIsDistinct(s.backlog);
    forall i | 0 <= i < |s.backlog|
      ensures Mine(s.calls, s.backlog[i])
    {
      assert s.backlog[i] in Tracked(s);
      assert PointOk(s, s.backlog[i]);
    }
  }

  /** So wherever a scan starts, the protocol can carry it through as the loop does. */
  lemma WholeScan(s: State) returns (run: seq<Step>, e: State)
    requires Inv(s) && s.gc == Scanning(0)
    ensures Reaches(s, run, e) && Inv(e) && e.gc == Waiting
    ensures e.backlog == Kept(s.calls, s.backlog) && SweptOf(s.calls, s.backlog, e.calls)
    ensures e.frees == s.frees + |s.backlog| - |e.backlog|
  {
    ScanIsSafe(s);
    assert s.backlog[..0] == [] && s.backlog[0..] == s.backlog;
    assert s == Snapshot(s, s.calls, s.backlog, s.frees, Scanning(0));
    run, e := ScanIsRun(s, s.calls, s.backlog, 0, 0, s.calls, s.backlog, s.frees);
    RunKeeps(s, run, e);
  }

  // ----- Draining -----

  ghost predicate AllDisposable(s: State) {
    forall id :: id in Tracked(s) ==> id in s.calls && Disposable(s.calls[id])
  }

  function Phase(s: State): nat {
    match s.gc
    case Trying(_) => 0
    case Waiting => 2
    case Scanning(i) => if i < |s.backlog| then 1 else 3
  }

  /** Each step of the collector lowers this. */
  function Work(s: State): nat {
    8 * |s.orphanQ| + 4 * One(s.gc.Trying?) + 4 * |s.backlog| + Phase(s)
  }

  /** How a step of the collector counts. */
  ghost predicate Counts(s: State, n: State) {
    && Work(n) < Work(s) && n.orphanClosed == s.orphanClosed
    && n.frees + |Tracked(n)| == s.frees + |Tracked(s)| && Tracked(n) <= Tracked(s)
  }

  lemma TryFrees(s: State, id: Id)
    requires Inv(s) && id in Tracked(s) && id in s.calls && Disposable(s.calls[id])
    ensures TryDispose(s.calls[id]).Ok? && TryDispose(s.calls[id]).freed == 1
  {
    assert PointOk(s, id);
    TryDisposeOk(s.calls[id], multiset(s.apiQ)[id], Tracked(s)[id]);
  }

  lemma TryCounts(s: State)
    requires Inv(s) && AllDisposable(s) && s.gc.Trying?
    ensures DoGcTry(s).Moved? && Counts(s, DoGcTry(s).next)
  {
    TryFrees(s, s.gc.id);
  }

  lemma EraseCounts(s: State, x: Id, l: Local)
    requires s.gc.Scanning? && s.gc.at < |s.backlog| && x == s.backlog[s.gc.at] && l.Ok? && l.freed == 1
    ensures Counts(s, Applied(s.(backlog := Erase(s.backlog, s.gc.at)), x, l).next)
  {
    BagErase(s.backlog, s.gc.at);
  }

  lemma ScanCounts(s: State)
    requires Inv(s) && AllDisposable(s) && s.gc.Scanning?
    ensures DoGcScan(s).Moved? && Counts(s, DoGcScan(s).next)
  {
    if s.gc.at < |s.backlog| {
      var x := s.backlog[s.gc.at];
      assert x in multiset(s.backlog);
      TryFrees(s, x);
      EraseCounts(s, x, TryDispose(s.calls[x]));
    }
  }

  lemma DrainCounts(s: State, a: Step)
    requires Inv(s) && AllDisposable(s) && ByGc(a) && GcStep(s, a).Moved?
    ensures Counts(s, GcStep(s, a).next)
  {
    match a
    case GcTake =>
      BagHead(s.orphanQ);
    case GcTry =>
      TryCounts(s);
    case GcScanStart =>
    case GcScan =>
      ScanCounts(s);
  }

  lemma KeptOrFreed(s: State, a: Step, id: Id)
    requires ByGc(a) && GcStep(s, a).Moved? && id in s.calls
    ensures var n := GcStep(s, a).next; id in n.calls && (n.calls[id] == s.calls[id] || n.calls[id].memory.Freed?)
  {
  }

  lemma DrainStays(s: State, n: State, a: Step)
    requires AllDisposable(s) && ByGc(a) && GcStep(s, a) == Moved(n) && Inv(n) && Tracked(n) <= Tracked(s)
    ensures AllDisposable(n)
  {
    forall id | id in Tracked(n)
      ensures id in n.calls && Disposable(n.calls[id])
    {
      assert id in Tracked(s);
      KeptOrFreed(s, a, id);
      assert PointOk(n, id);
    }
  }

  predicate GcOnly(run: seq<Step>) {
    forall i :: 0 <= i < |run| ==> ByGc(run[i])
  }

  /** The collector cannot go on. */
  ghost predicate GcStuck(s: State) {
    forall a: Step :: ByGc(a) ==> !GcStep(s, a).Moved?
  }

  /** While it has a slot, it can. */
  lemma DrainProgress(s: State) returns (a: Step)
    requires Inv(s) && !s.orphanClosed && Tracked(s) != multiset{}
    ensures ByGc(a) && GcStep(s, a).Moved?
  {
    match s.gc
    case Trying(_) =>
      TryKeeps(s);
      a := GcTry;
    case Scanning(_) =>
      ScanKeeps(s);
      a := GcScan;
    case Waiting =>
      a := if s.backlog != [] then GcScanStart else GcTake;
  }

  lemma DrainStep(s: State, n: State, a: Step)
    requires Inv(s) && AllDisposable(s) && ByGc(a) && GcStep(s, a) == Moved(n)
    ensures Inv(n) && AllDisposable(n) && Counts(s, n)
  {
    GcKeeps(s, a);
    DrainCounts(s, a);
    DrainStays(s, n, a);
  }

  lemma DoIsGcStep(s: State, a: Step)
    requires ByGc(a)
    ensures Do(s, a) == GcStep(s, a)
  {
  }

  lemma {:induction false} DrainRun(s: State, run: seq<Step>, e: State)
    requires Inv(s) && AllDisposable(s) && GcOnly(run) && Reaches(s, run, e)
    ensures Inv(e) && AllDisposable(e) && e.orphanClosed == s.orphanClosed
    ensures |run| + Work(e) <= Work(s) && e.frees + |Tracked(e)| == s.frees + |Tracked(s)|
    decreases |run|
  {
    if run != [] {
      var a := run[0];
      var n := Do(s, a).next;
      DoIsGcStep(s, a);
      DrainStep(s, n, a);
      DrainRun(n, run[1..], e);
    }
  }

  /**
   From any reachable state whose tracked orphans are all terminal and unlocked, and
   with none added: the collector stops within `Work(s)` steps, and when it stops it
   has emptied its queue, backlog and hand and freed exactly what was in them.
   */
  lemma Drained(s: State, run: seq<Step>, e: State)
    requires Inv(s) && AllDisposable(s) && !s.orphanClosed && GcOnly(run) && Reaches(s, run, e)
    ensures |run| <= Work(s)
    ensures GcStuck(e) ==> e.orphanQ == [] && e.backlog == [] && !e.gc.Trying? && e.frees == s.frees + |Tracked(s)|
  {
    DrainRun(s, run, e);
    if Tracked(e) != multiset{} {
      var a := DrainProgress(e);
    } else {
      assert |Tracked(e)| == |Hand(e.gc)| + |multiset(e.orphanQ)| + |multiset(e.backlog)|;
    }
  }
}
