/** The server's session state and its exchanges, updated in place as `session.rs` does under the attachment lock: each
    step is proved to be the one the wire takes (`Wire`). */
module Exchanges {
  import opened Wire

  datatype Verdict = VerdictUnrun | VerdictFenced | VerdictFinished | VerdictSuperseded

  /** One request, from decoding to its end. */
  class Exchange {
    const ordered: bool
    var phase: Phase

    constructor (ordered: bool)
      ensures this.ordered == ordered && phase == Ready
    {
      this.ordered := ordered;
      phase := Ready;
    }
  }

  class SessionState {
    var epoch: nat
    var running: nat
    var abandoned: nat
    var runningOlder: nat

    function Att(): Attachment
      reads this
    {
      Attachment(epoch, running, abandoned, runningOlder)
    }

    constructor ()
      ensures Att() == FRESH_SESSION.att
    {
      epoch, running, abandoned, runningOlder := 1, 0, 0, 0;
    }

    /** How many changes `exchange`, just decoded on the connection attached at `at`, waits for. */
    method Fencing(at: nat, exchange: Exchange) returns (fence: nat)
      requires exchange.phase.Ready?
      modifies exchange`phase
      ensures fence == if exchange.ordered then Att().Fence(at) else 0
      ensures exchange.phase == PhaseDecoded(exchange.ordered, Att(), at)
      ensures exchange.phase == Held <==> exchange.ordered && epoch == at && runningOlder + abandoned > 0
      ensures exchange.phase == Held || exchange.phase == Ready
    {
      if !exchange.ordered {
        return 0;
      }
      fence := if epoch == at then runningOlder + abandoned else 0;
      if fence > 0 {
        exchange.phase := Held;
      }
    }

    /** Whether the held `change` goes on; `current` is whether it is let go to begin. */
    method Drained(at: nat, change: Exchange) returns (goes: bool, current: bool)
      requires change.phase.Held?
      modifies change`phase
      ensures change.phase == PhaseDrained(Att(), at)
      ensures goes == !change.phase.Held? && current == change.phase.Ready?
      ensures change.phase == Superseded <==> epoch != at
      ensures change.phase == Ready <==> epoch == at && runningOlder == 0 && abandoned == 0
    {
      if epoch != at {
        change.phase := Superseded;
        return true, false;
      }
      if runningOlder + abandoned == 0 {
        change.phase := Ready;
        return true, true;
      }
      return false, false;
    }

    /** The work starts, if it still may. */
    method Begin(at: nat, exchange: Exchange) returns (begun: bool)
      requires exchange.phase.Ready? || (exchange.ordered && exchange.phase.Cancelled?)
      modifies this`running, exchange`phase
      ensures old(exchange.phase).Ready? ==> exchange.phase == PhaseBegun(exchange.ordered, old(Att()), at)
      ensures old(exchange.phase).Cancelled? ==> exchange.phase.Cancelled?
      ensures begun == exchange.phase.Running?
      ensures begun <==> old(exchange.phase).Ready? && (exchange.ordered ==> epoch == at)
      ensures old(exchange.phase).Ready? && !begun ==> exchange.phase == Superseded
      ensures running == old(running) + if begun && exchange.ordered then 1 else 0
      ensures Att() == if begun && exchange.ordered then old(Att()).AfterBegin() else old(Att())
    {
      if !exchange.ordered {
        exchange.phase := Running;
        return true;
      }
      if exchange.phase.Cancelled? {
        return false;
      }
      if epoch != at {
        exchange.phase := Superseded;
        return false;
      }
      exchange.phase := Running;
      running := running + 1;
      return true;
    }

    /** The client's reset is seen. */
    method Abandon(at: nat, change: Exchange) returns (verdict: Verdict)
      requires change.ordered
      requires !change.phase.Transit? && !change.phase.Cancelled? && !change.phase.Abandoned? && !change.phase.Dropped?
      modifies this`abandoned, change`phase
      ensures change.phase == PhaseCancelled(old(change.phase))
      ensures Att() == if verdict.VerdictFenced? then old(Att()).AfterAbandon(at) else old(Att())
      ensures verdict.VerdictFenced? <==> change.phase.Abandoned?
      ensures verdict.VerdictUnrun? <==> change.phase.Cancelled?
      ensures verdict.VerdictFinished? <==> old(change.phase).Finished?
      ensures old(change.phase) == Held || old(change.phase) == Ready <==> change.phase == Cancelled
      ensures old(change.phase) == Running <==> change.phase == Abandoned
      ensures abandoned == old(abandoned) + if old(change.phase) == Running && epoch == at then 1 else 0
    {
      match change.phase
      case Held => change.phase := Cancelled; verdict := VerdictUnrun;
      case Ready => change.phase := Cancelled; verdict := VerdictUnrun;
      case Running =>
        change.phase := Abandoned;
        if epoch == at {
          abandoned := abandoned + 1;
        }
        verdict := VerdictFenced;
      case Finished => verdict := VerdictFinished;
      case Superseded => verdict := VerdictSuperseded;
    }

    /** The exchange's work has ended: the guard from `Begin` is dropped. `wakes` is whether held changes are told. */
    method Finish(at: nat, exchange: Exchange) returns (wakes: bool)
      requires UnderWay(exchange.phase)
      requires exchange.ordered ==> if epoch == at then running > 0 && (exchange.phase.Abandoned? ==> abandoned > 0)
                                    else runningOlder > 0
      modifies this`running, this`abandoned, this`runningOlder, exchange`phase
      ensures exchange.phase.Finished?
      ensures Att() == if exchange.ordered then old(Att()).AfterFinish(at, old(exchange.phase).Abandoned?) else old(Att())
      ensures wakes <==> exchange.ordered && if epoch == at then old(abandoned) > 0 && abandoned == 0 else runningOlder == 0
      ensures exchange.ordered && epoch == at && old(Att()).Fence(at) > 0 && Att().Fence(at) == 0 ==> wakes
    {
      if !exchange.ordered {
        exchange.phase := Finished;
        return false;
      }
      var wasAbandoned := exchange.phase.Abandoned?;
      exchange.phase := Finished;
      if epoch == at {
        running := running - 1;
        if wasAbandoned {
          abandoned := abandoned - 1;
          wakes := abandoned == 0;
        } else {
          wakes := false;
        }
      } else {
        runningOlder := runningOlder - 1;
        wakes := runningOlder == 0;
      }
    }

    /** The session is taken up by a newer connection. */
    method Resume() returns (now: nat)
      modifies this
      ensures Att() == old(Att()).AfterResume() && now == epoch
    {
      epoch := epoch + 1;
      runningOlder := runningOlder + running;
      running := 0;
      abandoned := 0;
      now := epoch;
    }
  }
}
