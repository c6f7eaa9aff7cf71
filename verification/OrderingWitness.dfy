/** A run in which the theorem on overtaking has something to say: a change is given up on while the server runs it, the
    next change is held behind it, and begins once it has finished. */
module OrderingWitness {
  import opened Files
  import opened Machine
  import opened Handles
  import opened Wire
  import opened Protocol
  import opened Ordering

  /** One session on its first connection, with these calls, requests and counts. */
  function At(calls: seq<CallRec>, reqs: seq<Req>, published: bool, cancels: int, running: int, abandoned: int): State {
    State(calls,
          Net(reqs, [NO_CONN, Conn(1, 1, true, true, published, cancels)],
              [NO_SESSION, Sess(Attachment(1, running, abandoned, 0), true, false, false, map[])]),
          EMPTY_TABLE, NO_ROUND, {}, map[], {})
  }

  function A(attempt: nat, status: StatusCall, req: Option<nat>): CallRec {
    CallRec(Change, Call(true, false, false, 0, attempt, status), req, {})
  }

  function B(attempt: nat, status: StatusCall, req: Option<nat>): CallRec {
    CallRec(Change, Call(true, false, false, 0, attempt, status), req, {0})
  }

  function R(c: nat, phase: Phase, givenUp: bool, counted: bool, answer: Answer): Req {
    Req(OfCall(c), OpChange, 1, phase, givenUp, counted, answer, false)
  }

  const GAVE_UP := A(1, Ended(GaveUp), None)
  const FENCED := R(0, Abandoned, true, false, NoAnswer)

  /** `a` leads from `s` to `t`. */
  ghost predicate Leads(s: State, a: Action, t: State) {
    Enabled(s, a) && Next(s, a) == t
  }

  lemma Connects()
    ensures Leads(INIT, NewSession(false), At([], [], false, 0, 0, 0))
  {
    var table := Reattached(INIT, false).OwedMoot();
    assert table == EMPTY_TABLE && table.Live() == map[];
    assert Renewed(NO_NET) == At([], [], false, 0, 0, 0).net;
  }

  lemma Publishes()
    ensures Leads(At([], [], false, 0, 0, 0), Publish, At([], [], true, 0, 0, 0))
  {
  }

  lemma Starts()
    ensures Leads(At([], [], true, 0, 0, 0), Start(Change, false), At([A(0, Waiting, None)], [], true, 0, 0, 0))
  {
    assert EndedCalls([]) == {} && [] + [A(0, Waiting, None)] == [A(0, Waiting, None)];
  }

  lemma Sends()
    ensures Leads(At([A(0, Waiting, None)], [], true, 0, 0, 0), Send(0, 1),
                  At([A(1, InFlight(1), None)], [], true, 0, 0, 0))
  {
  }

  lemma Writes()
    ensures Leads(At([A(1, InFlight(1), None)], [], true, 0, 0, 0), Write(0),
                  At([A(1, InFlight(1), Some(0))], [R(0, Transit, false, false, NoAnswer)], true, 0, 0, 0))
  {
  }

  lemma Arrives()
    ensures Leads(At([A(1, InFlight(1), Some(0))], [R(0, Transit, false, false, NoAnswer)], true, 0, 0, 0), Server(Arrive(0)),
                  At([A(1, InFlight(1), Some(0))], [R(0, Ready, false, false, NoAnswer)], true, 0, 0, 0))
  {
  }

  lemma Begins()
    ensures Leads(At([A(1, InFlight(1), Some(0))], [R(0, Ready, false, false, NoAnswer)], true, 0, 0, 0), Server(Begin(0)),
                  At([A(1, InFlight(1), Some(0))], [R(0, Running, false, false, NoAnswer)], true, 0, 1, 0))
  {
  }

  lemma GivesUp()
    ensures Leads(At([A(1, InFlight(1), Some(0))], [R(0, Running, false, false, NoAnswer)], true, 0, 1, 0),
                  GiveUp(0, Timeout), At([GAVE_UP], [R(0, Running, true, true, NoAnswer)], true, 1, 1, 0))
  {
  }

  lemma SeesCancel()
    ensures Leads(At([GAVE_UP], [R(0, Running, true, true, NoAnswer)], true, 1, 1, 0), Server(SeeCancel(0)),
                  At([GAVE_UP], [R(0, Abandoned, true, true, Fenced)], true, 1, 1, 1))
  {
  }

  lemma HearsOfIt()
    ensures Leads(At([GAVE_UP], [R(0, Abandoned, true, true, Fenced)], true, 1, 1, 1), AnswerCancel(0),
                  At([GAVE_UP], [FENCED], true, 0, 1, 1))
  {
  }

  lemma StartsAnother()
    ensures Leads(At([GAVE_UP], [FENCED], true, 0, 1, 1), Start(Change, false),
                  At([GAVE_UP, B(0, Waiting, None)], [FENCED], true, 0, 1, 1))
  {
    assert EndedCalls([GAVE_UP]) == {0};
  }

  lemma SendsAnother()
    ensures Leads(At([GAVE_UP, B(0, Waiting, None)], [FENCED], true, 0, 1, 1), Send(1, 1),
                  At([GAVE_UP, B(1, InFlight(1), None)], [FENCED], true, 0, 1, 1))
  {
  }

  lemma WritesAnother()
    ensures Leads(At([GAVE_UP, B(1, InFlight(1), None)], [FENCED], true, 0, 1, 1), Write(1),
                  At([GAVE_UP, B(1, InFlight(1), Some(1))], [FENCED, R(1, Transit, false, false, NoAnswer)], true, 0, 1, 1))
  {
  }

  lemma IsHeld()
    ensures Leads(At([GAVE_UP, B(1, InFlight(1), Some(1))], [FENCED, R(1, Transit, false, false, NoAnswer)], true, 0, 1, 1),
                  Server(Arrive(1)),
                  At([GAVE_UP, B(1, InFlight(1), Some(1))], [FENCED, R(1, Held, false, false, NoAnswer)], true, 0, 1, 1))
  {
  }

  lemma Finishes()
    ensures Leads(At([GAVE_UP, B(1, InFlight(1), Some(1))], [FENCED, R(1, Held, false, false, NoAnswer)], true, 0, 1, 1),
                  Server(Finish(0, false)),
                  At([GAVE_UP, B(1, InFlight(1), Some(1))],
                     [R(0, Finished, true, false, NoAnswer), R(1, Held, false, false, NoAnswer)], true, 0, 0, 0))
  {
  }

  /** The first change has finished, and the second is held, or let go. */
  function Draining(second: Phase): State {
    At([GAVE_UP, B(1, InFlight(1), Some(1))],
       [R(0, Finished, true, false, NoAnswer), R(1, second, false, false, NoAnswer)], true, 0, 0, 0)
  }

  function LetGo(s: State, r: nat): State
    requires r < |s.net.reqs|
  {
    s.(net := s.net.(reqs := s.net.reqs[r := s.net.reqs[r].(phase := Ready)]))
  }

  lemma DrainLeads(s: State, r: nat)
    requires Ranged(s.net) && r < |s.net.reqs| && s.net.reqs[r].phase.Held?
    requires PhaseDrained(AttOf(s.net, r), EpochOf(s.net, r)) == Ready
    ensures Leads(s, Server(Drain(r)), LetGo(s, r))
  {
  }

  lemma MayDrain()
    ensures Ranged(Draining(Held).net)
    ensures PhaseDrained(AttOf(Draining(Held).net, 1), EpochOf(Draining(Held).net, 1)) == Ready
  {
  }

  lemma LetsGo()
    ensures LetGo(Draining(Held), 1) == Draining(Ready)
  {
  }

  lemma Drains()
    ensures Leads(Draining(Held), Server(Drain(1)), Draining(Ready))
  {
    MayDrain();
    DrainLeads(Draining(Held), 1);
    LetsGo();
  }

  lemma BeginsAnother()
    ensures Leads(At([GAVE_UP, B(1, InFlight(1), Some(1))],
                     [R(0, Finished, true, false, NoAnswer), R(1, Ready, false, false, NoAnswer)], true, 0, 0, 0),
                  Server(Begin(1)),
                  At([GAVE_UP, B(1, InFlight(1), Some(1))],
                     [R(0, Finished, true, false, NoAnswer), R(1, Running, false, false, NoAnswer)], true, 0, 1, 0))
  {
  }

  lemma RunOn(states: seq<State>, actions: seq<Action>, a: Action, t: State) returns (states': seq<State>, actions': seq<Action>)
    requires IsRun(states, actions) && Leads(states[|actions|], a, t)
    ensures IsRun(states', actions') && states' == states + [t] && actions' == actions + [a]
  {
    states', actions' := states + [t], actions + [a];
    forall i | 0 <= i < |actions'|
      ensures Enabled(states'[i], actions'[i]) && states'[i + 1] == Next(states'[i], actions'[i])
    {
    }
  }

  lemma WrittenRun() returns (states: seq<State>, actions: seq<Action>)
    ensures IsRun(states, actions) && |actions| == 5
    ensures states[5] == At([A(1, InFlight(1), Some(0))], [R(0, Transit, false, false, NoAnswer)], true, 0, 0, 0)
  {
    states, actions := [INIT], [];
    Connects();
    states, actions := RunOn(states, actions, NewSession(false), At([], [], false, 0, 0, 0));
    Publishes();
    states, actions := RunOn(states, actions, Publish, At([], [], true, 0, 0, 0));
    Starts();
    states, actions := RunOn(states, actions, Start(Change, false), At([A(0, Waiting, None)], [], true, 0, 0, 0));
    Sends();
    states, actions := RunOn(states, actions, Send(0, 1), At([A(1, InFlight(1), None)], [], true, 0, 0, 0));
    Writes();
    states, actions := RunOn(states, actions, Write(0),
                             At([A(1, InFlight(1), Some(0))], [R(0, Transit, false, false, NoAnswer)], true, 0, 0, 0));
  }

  /** The change runs, and then is fenced: the client has given up on it and heard that it still runs. */
  lemma FencedRun() returns (states: seq<State>, actions: seq<Action>)
    ensures IsRun(states, actions) && |actions| == 10 && states[10] == At([GAVE_UP], [FENCED], true, 0, 1, 1)
  {
    var written := [A(1, InFlight(1), Some(0))];
    states, actions := WrittenRun();
    Arrives();
    states, actions := RunOn(states, actions, Server(Arrive(0)),
                             At(written, [R(0, Ready, false, false, NoAnswer)], true, 0, 0, 0));
    Begins();
    states, actions := RunOn(states, actions, Server(Begin(0)),
                             At(written, [R(0, Running, false, false, NoAnswer)], true, 0, 1, 0));
    GivesUp();
    states, actions := RunOn(states, actions, GiveUp(0, Timeout),
                             At([GAVE_UP], [R(0, Running, true, true, NoAnswer)], true, 1, 1, 0));
    SeesCancel();
    states, actions := RunOn(states, actions, Server(SeeCancel(0)),
                             At([GAVE_UP], [R(0, Abandoned, true, true, Fenced)], true, 1, 1, 1));
    HearsOfIt();
    states, actions := RunOn(states, actions, AnswerCancel(0), At([GAVE_UP], [FENCED], true, 0, 1, 1));
  }

  /** Another change, started since, is held behind it. */
  lemma HeldRun() returns (states: seq<State>, actions: seq<Action>)
    ensures IsRun(states, actions) && |actions| == 14 && states[10] == At([GAVE_UP], [FENCED], true, 0, 1, 1)
    ensures states[14]
            == At([GAVE_UP, B(1, InFlight(1), Some(1))], [FENCED, R(1, Held, false, false, NoAnswer)], true, 0, 1, 1)
  {
    states, actions := FencedRun();
    StartsAnother();
    states, actions := RunOn(states, actions, Start(Change, false),
                             At([GAVE_UP, B(0, Waiting, None)], [FENCED], true, 0, 1, 1));
    SendsAnother();
    states, actions := RunOn(states, actions, Send(1, 1), At([GAVE_UP, B(1, InFlight(1), None)], [FENCED], true, 0, 1, 1));
    WritesAnother();
    var calls := [GAVE_UP, B(1, InFlight(1), Some(1))];
    states, actions := RunOn(states, actions, Write(1),
                             At(calls, [FENCED, R(1, Transit, false, false, NoAnswer)], true, 0, 1, 1));
    IsHeld();
    states, actions := RunOn(states, actions, Server(Arrive(1)),
                             At(calls, [FENCED, R(1, Held, false, false, NoAnswer)], true, 0, 1, 1));
  }

  ghost predicate HeldAt(states: seq<State>, k: nat, r: nat) {
    k < |states| && r < |states[k].net.reqs| && states[k].net.reqs[r].phase.Held?
  }

  /** A change that had ended runs at step 10, and one started since is held behind it and begins at step 17. */
  lemma HeldThenBegins() returns (states: seq<State>, actions: seq<Action>)
    ensures IsRun(states, actions) && RunsAt(states, 10, 0) && BeginsAt(states, 17, 1)
    ensures StartedAfter(states[10], states[17], 0, 1) && HeldAt(states, 14, 1)
  {
    states, actions := HeldRun();
    var calls, finished := [GAVE_UP, B(1, InFlight(1), Some(1))], R(0, Finished, true, false, NoAnswer);
    Finishes();
    states, actions := RunOn(states, actions, Server(Finish(0, false)),
                             At(calls, [finished, R(1, Held, false, false, NoAnswer)], true, 0, 0, 0));
    Drains();
    states, actions := RunOn(states, actions, Server(Drain(1)),
                             At(calls, [finished, R(1, Ready, false, false, NoAnswer)], true, 0, 0, 0));
    BeginsAnother();
    states, actions := RunOn(states, actions, Server(Begin(1)),
                             At(calls, [finished, R(1, Running, false, false, NoAnswer)], true, 0, 1, 0));
  }
}
