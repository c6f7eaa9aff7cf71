/** The client's protocol objects as `machine.rs` keeps them, updated in place: each step is proved to be the step of
    `Machine` that the protocol is built from. */
module CallStates {
  import opened Machine

  /** A connection as calls see it. */
  class AttachedState {
    const generation: nat
    var cancels: nat
    var published: bool

    function View(): Attached
      reads this
    {
      Attached(generation, cancels, published)
    }

    constructor (generation: nat)
      ensures View() == Attached(generation, 0, false)
    {
      this.generation := generation;
      cancels := 0;
      published := false;
    }

    method Publish()
      modifies this`published
      ensures View() == old(View()).(published := true)
    {
      published := true;
    }

    /** One more answer is outstanding. */
    method Count()
      modifies this`cancels
      ensures View() == old(View()).(cancels := old(cancels) + 1)
    {
      cancels := cancels + 1;
    }

    /** One fewer is, by an answer or by the end of the connection. */
    method Uncount()
      requires cancels > 0
      modifies this`cancels
      ensures View() == old(View()).(cancels := old(cancels) - 1)
    {
      cancels := cancels - 1;
    }
  }

  /** A call and all its attempts. */
  class CallState {
    const changes: bool
    const resendable: bool
    var lostOnce: bool
    var minGeneration: nat
    var attempt: nat
    var status: StatusCall

    function View(): Call
      reads this
    {
      Call(changes, resendable, lostOnce, minGeneration, attempt, status)
    }

    constructor (changes: bool, resendable: bool)
      ensures View() == NewCall(changes, resendable)
      ensures this.changes == changes && this.resendable == resendable
      ensures !lostOnce && minGeneration == 0 && attempt == 0 && status == Waiting
    {
      this.changes := changes;
      this.resendable := resendable;
      lostOnce := false;
      minGeneration := 0;
      attempt := 0;
      status := Waiting;
    }

    method SendableOn(attached: AttachedState, pending: nat) returns (sendable: Sendable)
      ensures sendable == View().SendableOn(attached.View(), pending)
      ensures sendable.No? <==> !(status == Waiting && attached.published && attached.generation >= minGeneration)
      ensures sendable.AfterCancels? ==> changes && pending > 0
      ensures sendable.Now? ==> changes ==> pending == 0
    {
      if !(status == Waiting && attached.published && attached.generation >= minGeneration) {
        return No;
      }
      if changes && pending != 0 {
        return AfterCancels;
      }
      return Now;
    }

    method Sent(generation: nat)
      requires status.Waiting?
      modifies this`attempt, this`status
      ensures View() == old(View()).AfterSent(generation)
      ensures status == InFlight(generation) && attempt == old(attempt) + 1
    {
      attempt := attempt + 1;
      status := InFlight(generation);
    }

    method Answered(errno: bool)
      modifies this`status
      ensures View() == old(View()).AfterAnswer(errno)
      ensures errno ==> status == Ended(Errno)
      ensures !errno ==> status == Ended(Replied)
    {
      status := Ended(if errno then Errno else Replied);
    }

    /** The connection goes under the call; `failed` if it may not be sent again. */
    method Lost(loss: LossExchange) returns (failed: bool)
      requires status.InFlight?
      modifies this`lostOnce, this`minGeneration, this`status
      ensures View() == old(View()).AfterLoss(loss)
      ensures failed <==> loss.Lost? && (!resendable || old(lostOnce))
      ensures failed ==> status == Ended(EndCall.Failed)
      ensures !failed ==> status == Waiting && minGeneration == old(status).generation + 1
      ensures loss.NotSent? ==> status == Waiting && lostOnce == old(lostOnce)
      ensures loss.Lost? && !failed ==> lostOnce
    {
      var generation := status.generation;
      if loss.Lost? {
        if resendable && !lostOnce {
          lostOnce := true;
        } else {
          status := Ended(EndCall.Failed);
          return true;
        }
      }
      minGeneration := generation + 1;
      status := Waiting;
      return false;
    }

    /** The caller leaves; `counted` if the server may be running the request. */
    method GaveUp(written: bool) returns (counted: bool)
      modifies this`status
      ensures View() == old(View()).AfterGiveUp()
      ensures counted == CountsGiveUp(old(status).InFlight?, written, changes)
      ensures counted <==> old(status).InFlight? && written && changes
      ensures status == Ended(EndCall.GaveUp)
    {
      counted := CountsGiveUp(status.InFlight?, written, changes);
      status := Ended(EndCall.GaveUp);
    }

    method Failed()
      modifies this`status
      ensures View() == old(View()).AfterFailure() && status == Ended(EndCall.Failed)
    {
      status := Ended(EndCall.Failed);
    }
  }
}
