/**
 One call slot of raft_shm.h and raft_shm.cc: its fields, the class that updates
 them in place, and the same changes on values for the protocol machines.
 */
module CallSlots {
  datatype CallState = Pending | Dispatched | Success | Failed

  datatype ClientState = Issued | Observed | Abandoned

  /** RAFT_SUCCESS and the codes this side raises itself; `Code` is any other. */
  datatype RaftError = NoError | Other | InvalidOp | InvalidAddress | InShutdown | Code(n: nat)

  /** The fields of a slot other than its mutex and condition variable. */
  datatype Call = Call(state: CallState, client: ClientState, retval: nat, error: RaftError)

  /** The argument of the two `reply` functions. */
  datatype Answer = Fails(error: RaftError) | Returns(value: nat)

  const NewCall := Call(Pending, Issued, 0, NoError)

  predicate Terminal(c: Call) {
    c.state == Success || c.state == Failed
  }

  /** A slot that was never queued: refused on creation or by a closed queue. */
  function Refused(c: Call, err: RaftError): Call {
    c.(error := err, state := Failed)
  }

  /** The first half of `reply`: the fields that are written before `state`. */
  function Answered(c: Call, a: Answer): Call {
    match a
    case Fails(err) => c.(error := err)
    case Returns(v) => c.(retval := v, error := NoError)
  }

  /** The second half: the slot becomes terminal. */
  function Published(c: Call): Call {
    c.(state := if c.error == NoError then Success else Failed)
  }

  /** What `get_ptr` returns, and what it stores through a usable pointer. */
  datatype Reply = Reply(error: RaftError, stored: seq<nat>)

  function Fetched(c: Call, hasRet: bool, res: bool): Reply {
    if !hasRet then Reply(InvalidOp, [])
    else if !res then Reply(InvalidAddress, [])
    else Reply(c.error, if c.error == NoError then [c.retval] else [])
  }

  /** The fields that say what was answered: a slot that fails keeps its return value, one that returns has no error. */
  predicate Shows(c: Call, was: nat, a: Answer) {
    match a
    case Fails(err) => c.error == err && c.retval == was && (c.state == Success <==> err == NoError) && (c.state == Failed <==> err != NoError)
    case Returns(v) => c.error == NoError && c.retval == v && c.state == Success
  }

  /** What a client gets who asks for the answer, with and without a usable pointer. */
  lemma AnswerIsFetched(c: Call, was: nat, a: Answer)
    requires Shows(c, was, a)
    ensures a.Returns? ==> Fetched(c, true, true) == Reply(NoError, [a.value])
    ensures a.Fails? && a.error != NoError ==> Fetched(c, true, true) == Reply(a.error, [])
    ensures a == Fails(NoError) ==> Fetched(c, true, true) == Reply(NoError, [was])
    ensures Fetched(c, true, false) == Reply(InvalidAddress, [])
    ensures forall res :: Fetched(c, false, res) == Reply(InvalidOp, [])
  {
  }

  /** What `dispose` does besides changing the client state. */
  datatype Disposal = Track | Free(cleanup: bool)

  class BaseSlot {
    const hasRet: bool
    var state: CallState
    var client: ClientState
    var retval: nat
    var error: RaftError

    function View(): Call
      reads this
    {
      Call(state, client, retval, error)
    }

    constructor (hasRet: bool)
      ensures View() == NewCall && this.hasRet == hasRet
    {
      this.hasRet := hasRet;
      state, client, retval, error := Pending, Issued, 0, NoError;
    }

    method ReplyError(err: RaftError)
      requires !Terminal(View())
      modifies this
      ensures View() == Published(Answered(old(View()), Fails(err)))
      ensures Shows(View(), old(retval), Fails(err)) && Terminal(View()) && client == old(client)
    {
      error := err;
      state := if err == NoError then Success else Failed;
    }

    method ReplyValue(v: nat)
      requires !Terminal(View())
      modifies this
      ensures View() == Published(Answered(old(View()), Returns(v)))
      ensures Shows(View(), old(retval), Returns(v)) && client == old(client)
    {
      retval := v;
      ReplyError(NoError);
    }

    /** `wait`: if the slot is not terminal, `meanwhile` is the reply that ends the wait. */
    method Wait(meanwhile: Answer)
      modifies this
      ensures Terminal(View()) && client == Observed
      ensures var was := old(View());
              View() == (if Terminal(was) then was else Published(Answered(was, meanwhile))).(client := Observed)
      ensures !Terminal(old(View())) ==> Shows(View(), old(retval), meanwhile)
    {
      if state == Pending || state == Dispatched {
        match meanwhile
        case Fails(err) => ReplyError(err);
        case Returns(v) => ReplyValue(v);
      }
      client := Observed;
    }

    /** `get_ptr`: waits only if needed, so the client state of a terminal slot stays. */
    method GetPtr(res: bool, meanwhile: Answer) returns (r: Reply)
      modifies this
      ensures Terminal(View()) && r == Fetched(View(), hasRet, res)
      ensures r.error == if !hasRet then InvalidOp else if !res then InvalidAddress else error
      ensures r.stored == if hasRet && res && error == NoError then [retval] else []
      ensures !Terminal(old(View())) ==> Shows(View(), old(retval), meanwhile)
      ensures Terminal(old(View())) ==> View() == old(View())
      ensures !Terminal(old(View())) ==> View() == Published(Answered(old(View()), meanwhile)).(client := Observed)
    {
      if state == Pending || state == Dispatched {
        Wait(meanwhile);
      }
      if hasRet {
        if res {
          return Reply(error, if error == NoError then [retval] else []);
        } else {
          return Reply(InvalidAddress, []);
        }
      } else {
        return Reply(InvalidOp, []);
      }
    }

    /** The slot is freed unless the client has not seen the result; then it is handed to the collector. */
    method Dispose() returns (d: Disposal)
      modifies this`client
      ensures d == Track <==> old(client) == Issued
      ensures client == if d == Track then Abandoned else old(client)
      ensures d.Free? ==> d.cleanup == (old(client) == Abandoned)
    {
      match client
      case Issued =>
        client := Abandoned;
        return Track;
      case Observed => return Free(false);
      case Abandoned => return Free(true);
    }
  }
}
