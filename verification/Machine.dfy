/** `machine.rs` on values: connections, calls, and what an open or a release still owes once it is over. `Protocol` is
    built from these functions; the classes of `CallStates` take the same steps in place. */
module Machine {
  import opened Files

  /** The four ends of a call. */
  datatype EndCall = Replied | Errno | GaveUp | Failed

  datatype StatusCall = Waiting | InFlight(generation: nat) | Ended(how: EndCall)

  datatype Sendable = No | AfterCancels | Now

  /** `NotSent` if the server cannot have read the whole request, `Lost` if it may have. */
  datatype LossExchange = NotSent | Lost

  datatype Error = Timeout | Interrupted | Disconnected | Stale | Remote | Protocol | Closed | Unmapped

  datatype Response = Opened(key: KeyNode) | OtherReply

  datatype CallResult = Ok(response: Response) | Err(error: Error)

  /** A connection as calls see it. */
  datatype Attached = Attached(generation: nat, cancels: nat, published: bool)

  datatype Call = Call(changes: bool, resendable: bool, lostOnce: bool, minGeneration: nat, attempt: nat,
                       status: StatusCall)
  {
    predicate Takes(attached: Attached) {
      status.Waiting? && attached.published && attached.generation >= minGeneration
    }

    function SendableOn(attached: Attached, pending: nat): Sendable {
      if !Takes(attached) then No
      else if changes && pending != 0 then AfterCancels
      else Now
    }

    function AfterSent(generation: nat): Call {
      this.(attempt := attempt + 1, status := InFlight(generation))
    }

    function AfterAnswer(errno: bool): Call {
      this.(status := Ended(if errno then Errno else Replied))
    }

    /** The connection goes under a call in flight; `Ended(Failed)` if it may not be sent again. */
    function AfterLoss(loss: LossExchange): Call
      requires status.InFlight?
    {
      if loss.Lost? && !(resendable && !lostOnce) then
        this.(status := Ended(Failed))
      else
        this.(lostOnce := lostOnce || loss.Lost?, minGeneration := status.generation + 1, status := Waiting)
    }

    function AfterGiveUp(): Call {
      this.(status := Ended(GaveUp))
    }

    function AfterFailure(): Call {
      this.(status := Ended(Failed))
    }
  }

  function NewCall(changes: bool, resendable: bool): Call {
    Call(changes, resendable, false, 0, 0, Waiting)
  }

  /** Only a change that the server may be running is worth waiting for an answer about. */
  predicate CountsGiveUp(inFlight: bool, written: bool, changes: bool) {
    inFlight && written && changes
  }

  datatype SettleOpen = Keep | Owe | Nothing

  /** Keep the handle where the reply brought one, release its id where the server may hold one. */
  function OpenSettled(result: CallResult): SettleOpen {
    match result
    case Ok(Opened(_)) => Keep
    case Ok(_) => Owe
    case Err(e) => if e.Timeout? || e.Interrupted? || e.Disconnected? || e.Protocol? then Owe else Nothing
  }

  /** A release has to be made again where it may not have reached the server. */
  predicate ReleaseOwed(result: CallResult) {
    result.Err? && (result.error.Timeout? || result.error.Disconnected?)
  }
}
