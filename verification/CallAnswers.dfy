/**
 Which answer a client gets, over whole runs: the one that the Raft process wrote
 for this slot, or the reason for which the slot was refused.
 */
module CallAnswers {
  import opened CallSlots
  import opened CallProtocol
  import opened CallSafety
  import opened CallRuns

  // ----- What a run says about a slot -----

  /** The answers written to slot `id`, in order. */
  function Written(run: seq<Step>, id: Id): seq<Answer> {
    if run == [] then []
    else
      var a := run[|run| - 1];
      Written(run[..|run| - 1], id) + if a.RaftWrite? && a.id == id then [a.answer] else []
  }

  /** The reasons for which slot `id` was refused. */
  function Refusals(run: seq<Step>, id: Id): seq<RaftError> {
    if run == [] then []
    else
      var a := run[|run| - 1];
      Refusals(run[..|run| - 1], id) +
      if a.PutClosed? && a.id == id then [InShutdown] else if a.AllocRefused? && a.id == id then [a.err] else []
  }

  /** How far the record has come with its answer. */
  predicate Silent(r: Record) {
    r.refused || r.client == Sending || r.raft == Queued || r.raft == Carried || r.raft == Locked
  }

  /** The record, read against the run that led to it. */
  ghost predicate Tells(run: seq<Step>, r: Record, id: Id) {
    var ws, rs := Written(run, id), Refusals(run, id);
    && |rs| == (if r.refused then 1 else 0)
    && |ws| == (if Silent(r) then 0 else 1)
    && (r.memory.Slot? ==> CallTells(run, r, r.memory.call, ws, rs, id))
  }

  ghost predicate CallTells(run: seq<Step>, r: Record, c: Call, ws: seq<Answer>, rs: seq<RaftError>, id: Id) {
    if |rs| == 1 then c.state == Failed && c.error == rs[0] && c.retval == 0
    else if |ws| == 1 then
      if Terminal(c) then Shows(c, 0, ws[0]) else c.error == (if ws[0].Fails? then ws[0].error else NoError) && c.retval == (if ws[0].Fails? then 0 else ws[0].value)
    else c.error == NoError && c.retval == 0 && c.state == if RaftDispatch(id) in run then Dispatched else Pending
  }

  /** Nothing has happened to a slot that does not exist. */
  ghost predicate Unknown(run: seq<Step>, id: Id) {
    Written(run, id) == [] && Refusals(run, id) == [] && RaftDispatch(id) !in run
  }

  ghost predicate StoryAt(run: seq<Step>, s: State, id: Id) {
    if id in s.calls then Tells(run, s.calls[id], id) else Unknown(run, id)
  }

  ghost predicate Story(run: seq<Step>, s: State) {
    forall id :: StoryAt(run, s, id)
  }

  // ----- Every step goes on with the story -----

  lemma OneMore(run: seq<Step>, a: Step, id: Id)
    ensures Written(run + [a], id) == Written(run, id) + if a.RaftWrite? && a.id == id then [a.answer] else []
    ensures Refusals(run + [a], id) ==
            Refusals(run, id) + if a.PutClosed? && a.id == id then [InShutdown] else if a.AllocRefused? && a.id == id then [a.err] else []
    ensures RaftDispatch(id) in run + [a] <==> RaftDispatch(id) in run || a == RaftDispatch(id)
  {
    assert (run + [a])[..|run|] == run;
  }

  /** A step that is about no answer. */
  lemma Untold(run: seq<Step>, a: Step, r: Record, n: Record, id: Id)
    requires Tells(run, r, id) && !(a.RaftWrite? && a.id == id) && !(a.PutClosed? && a.id == id) && !(a.AllocRefused? && a.id == id)
    requires a != RaftDispatch(id) && n.refused == r.refused && Silent(n) == Silent(r)
    requires n.memory.Slot? ==> r.memory.Slot? && Result(n.memory.call) == Result(r.memory.call)
    ensures Tells(run + [a], n, id)
  {
    OneMore(run, a, id);
  }

  lemma ClientTells(run: seq<Step>, a: Step, r: Record, full: bool, apiClosed: bool, orphanClosed: bool, q: nat, t: nat, id: Id)
    requires RecordOk(r, q, t) && Tells(run, r, id) && ByClient(a) && a.id == id && ClientLocal(r, a, full, apiClosed, orphanClosed).Ok?
    ensures Tells(run + [a], ClientLocal(r, a, full, apiClosed, orphanClosed).record, id)
  {
    OneMore(run, a, id);
  }

  lemma RaftTells(run: seq<Step>, a: Step, r: Record, q: nat, t: nat, id: Id)
    requires RecordOk(r, q, t) && Tells(run, r, id) && ByRaft(a) && a.id == id && RaftLocal(r, a).Ok?
    ensures Tells(run + [a], RaftLocal(r, a).record, id)
  {
    OneMore(run, a, id);
  }

  /** How a slot comes to exist. */
  lemma NewAt(s: State, a: Step, id: Id)
    requires Do(s, a).Moved? && id !in s.calls
    ensures (ByClient(a) || ByRaft(a)) ==> a.id != id
    ensures id in Do(s, a).next.calls <==> (a.Alloc? || a.AllocRefused?) && a.id == id
    ensures id in Do(s, a).next.calls ==> Do(s, a).next.calls[id] == if a.Alloc? then NewRecord(a.buffer) else RefusedRecord(a.buffer, a.err)
  {
  }

  lemma NewTells(run: seq<Step>, s: State, a: Step, id: Id)
    requires Do(s, a).Moved? && id !in s.calls && Unknown(run, id)
    ensures StoryAt(run + [a], Do(s, a).next, id)
  {
    NewAt(s, a, id);
    OneMore(run, a, id);
  }

  lemma OldTells(run: seq<Step>, s: State, a: Step, id: Id)
    requires Inv(s) && Do(s, a).Moved? && id in s.calls && Tells(run, s.calls[id], id)
    ensures StoryAt(run + [a], Do(s, a).next, id)
  {
    RecordAfter(s, a, id);
    assert PointOk(s, id);
    var r, n := s.calls[id], Do(s, a).next.calls[id];
    var q, t := multiset(s.apiQ)[id], Tracked(s)[id];
    if ByClient(a) && a.id == id {
      ClientTells(run, a, r, |s.apiQ| >= API_CAPACITY, s.apiClosed, s.orphanClosed, q, t, id);
    } else if ByRaft(a) && a.id == id {
      RaftTells(run, a, r, q, t, id);
    } else {
      OtherTells(s, a, id, n);
      Untold(run, a, r, n, id);
    }
  }

  /** What others do to a slot leaves its answer alone. */
  lemma OtherTells(s: State, a: Step, id: Id, n: Record)
    requires PointOk(s, id) && id in s.calls && MadeBy(s, a, id, n) && !(ByClient(a) && a.id == id) && !(ByRaft(a) && a.id == id)
    requires Do(s, a).Moved?
    ensures !(a.AllocRefused? && a.id == id) && n.refused == s.calls[id].refused && Silent(n) == Silent(s.calls[id])
    ensures n.memory.Slot? ==> s.calls[id].memory.Slot? && Result(n.memory.call) == Result(s.calls[id].memory.call)
  {
  }

  lemma {:induction false} StoryRun(past: seq<Step>, s: State, run: seq<Step>, e: State)
    requires Inv(s) && Story(past, s) && Reaches(s, run, e)
    ensures Story(past + run, e)
    decreases |run|
  {
    if run == [] {
      assert past + run == past;
    } else {
      var n := Do(s, run[0]).next;
      forall id
        ensures StoryAt(past + [run[0]], n, id)
      {
        assert StoryAt(past, s, id);
        if id in s.calls {
          OldTells(past, s, run[0], id);
        } else {
          NewTells(past, s, run[0], id);
        }
      }
      StepKeeps(s, run[0]);
      StoryRun(past + [run[0]], n, run[1..], e);
      assert past + [run[0]] + run[1..] == past + run;
    }
  }

  lemma StoryOf(run: seq<Step>, e: State)
    requires Reaches(Start, run, e)
    ensures Story(run, e)
  {
    assert Story([], Start);
    assert Live(Start) == {};
    StoryRun([], Start, run, e);
    assert [] + run == run;
  }

  // ----- From the steps themselves -----

  lemma {:induction false} WrittenIff(run: seq<Step>, id: Id, x: Answer)
    ensures RaftWrite(id, x) in run <==> x in Written(run, id)
    decreases |run|
  {
    if run != [] {
      WrittenIff(run[..|run| - 1], id, x);
      assert run == run[..|run| - 1] + [run[|run| - 1]];
    }
  }

  lemma {:induction false} RefusedIff(run: seq<Step>, id: Id, err: RaftError)
    ensures err in Refusals(run, id) <==>
            (err == InShutdown && PutClosed(id) in run) || AllocRefused(id, true, err) in run || AllocRefused(id, false, err) in run
    decreases |run|
  {
    if run != [] {
      RefusedIff(run[..|run| - 1], id, err);
      assert run == run[..|run| - 1] + [run[|run| - 1]];
    }
  }

  lemma TerminalTells(run: seq<Step>, e: State, id: Id)
    requires Reaches(Start, run, e) && id in Live(e) && Terminal(e.calls[id].memory.call)
    ensures var ws, rs, c := Written(run, id), Refusals(run, id), e.calls[id].memory.call;
            (|ws| == 1 && rs == [] && Shows(c, 0, ws[0])) || (ws == [] && |rs| == 1 && c.state == Failed && c.error == rs[0])
  {
    StoryOf(run, e);
    ReachableOk(run, e);
    assert StoryAt(run, e, id) && PointOk(e, id);
  }

  lemma WrittenShows(run: seq<Step>, e: State, id: Id, x: Answer, c: Call)
    requires Reaches(Start, run, e) && id in Live(e) && Terminal(c) && c == e.calls[id].memory.call && x in Written(run, id)
    ensures Written(run, id) == [x] && Refusals(run, id) == [] && Shows(c, 0, x)
  {
    TerminalTells(run, e, id);
  }

  /**
   In every run in which the Raft process writes an answer to a slot: once the slot
   is terminal its fields are that answer, and get_ptr gives it to the client.  No
   other answer is ever written, and the slot was not refused.
   */
  lemma AnswerGetsThrough(run: seq<Step>, e: State, id: Id, x: Answer)
    requires Reaches(Start, run, e) && id in Live(e) && Terminal(e.calls[id].memory.call) && RaftWrite(id, x) in run
    ensures Written(run, id) == [x] && Refusals(run, id) == []
    ensures var c := e.calls[id].memory.call;
            match x
            case Returns(v) => c.state == Success && c.error == NoError && c.retval == v && Fetched(c, true, true) == Reply(NoError, [v])
            case Fails(err) =>
              && c.error == err && c.state == (if err == NoError then Success else Failed)
              && Fetched(c, true, true) == Reply(err, if err == NoError then [0] else [])
  {
    WrittenIff(run, id, x);
    WrittenShows(run, e, id, x, e.calls[id].memory.call);
    AnswerIsFetched(e.calls[id].memory.call, 0, x);
  }

  /** A slot that was refused, by a closed queue or when it was made, holds the reason, and get_ptr gives it. */
  lemma RefusalGetsThrough(run: seq<Step>, e: State, id: Id, err: RaftError)
    requires Reaches(Start, run, e) && id in Live(e) && Terminal(e.calls[id].memory.call)
    requires (err == InShutdown && PutClosed(id) in run) || AllocRefused(id, true, err) in run || AllocRefused(id, false, err) in run
    ensures Refusals(run, id) == [err] && Written(run, id) == []
    ensures var c := e.calls[id].memory.call; c.state == Failed && c.error == err && Fetched(c, true, true).error == err
  {
    TerminalTells(run, e, id);
    RefusedIff(run, id, err);
  }

  /** Before that it holds nothing: no error, no value, Dispatched if the Raft process has said so. */
  lemma NoAnswerYet(run: seq<Step>, e: State, id: Id)
    requires Reaches(Start, run, e) && id in Live(e) && Written(run, id) == [] && Refusals(run, id) == []
    ensures e.calls[id].memory.call.(client := Issued) == Call(if RaftDispatch(id) in run then Dispatched else Pending, Issued, 0, NoError)
  {
    StoryOf(run, e);
    assert StoryAt(run, e, id);
  }

  /** `wait`, entered or woken, returns exactly if the slot is terminal, and marks it Observed; else it sleeps. */
  lemma WaitReturns(run: seq<Step>, s: State, a: Step, id: Id)
    requires Reaches(Start, run, s) && (a == WaitStart(id) || a == WaitWake(id)) && Do(s, a).Moved?
    ensures var n := Do(s, a).next;
            && id in Live(s) && id in Live(n) && Result(n.calls[id].memory.call) == Result(s.calls[id].memory.call)
            && if Terminal(s.calls[id].memory.call) then n.calls[id].client == Holding && n.calls[id].waited && n.calls[id].memory.call.client == Observed
               else n.calls[id].client == Asleep && n.calls[id].waited == s.calls[id].waited && n.calls[id].memory == s.calls[id].memory
  {
    ReachableOk(run, s);
    assert PointOk(s, id);
  }
}
