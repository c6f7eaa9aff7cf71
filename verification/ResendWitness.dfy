/** A run in which a change is sent again: its connection is lost while the server runs it, the session is resumed, the
    second sending is held behind the first, and begins once the first has finished. */
module ResendWitness {
  import opened Files
  import opened Machine
  import opened Handles
  import opened Wire
  import opened Protocol
  import opened Ordering
  import opened OrderingWitness

  /** One change that may be sent again. */
  function C(lostOnce: bool, attempt: nat, status: StatusCall, req: Option<nat>): CallRec {
    CallRec(Change, Call(true, true, lostOnce, if lostOnce then 2 else 0, attempt, status), req, {})
  }

  function Q(conn: nat, phase: Phase): Req {
    Req(OfCall(0), OpChange, conn, phase, false, false, NoAnswer, false)
  }

  /** The session on its first connection, which the client may have lost. */
  function First(call: CallRec, reqs: seq<Req>, clientAlive: bool, running: int): State {
    State([call],
          Net(reqs, [NO_CONN, Conn(1, 1, clientAlive, true, true, 0)],
              [NO_SESSION, Sess(Attachment(1, running, 0, 0), true, false, false, map[])]),
          EMPTY_TABLE, NO_ROUND, {}, map[], {})
  }

  /** The session resumed on a second connection. */
  function Second(call: CallRec, reqs: seq<Req>, published: bool, running: int, older: int): State {
    State([call],
          Net(reqs, [NO_CONN, Conn(1, 1, false, false, true, 0), Conn(1, 2, true, true, published, 0)],
              [NO_SESSION, Sess(Attachment(2, running, 0, older), true, false, false, map[])]),
          EMPTY_TABLE, NO_ROUND, {}, map[], {})
  }

  const SENT := C(false, 1, InFlight(1), Some(0))
  const WAITS := C(true, 1, Waiting, None)
  const AGAIN := C(true, 2, InFlight(2), Some(1))

  lemma Starts()
    ensures Leads(At([], [], true, 0, 0, 0), Start(Change, true), First(C(false, 0, Waiting, None), [], true, 0))
  {
    assert EndedCalls([]) == {} && [] + [C(false, 0, Waiting, None)] == [C(false, 0, Waiting, None)];
  }

  lemma Sends()
    ensures Leads(First(C(false, 0, Waiting, None), [], true, 0), Send(0, 1), First(C(false, 1, InFlight(1), None), [], true, 0))
  {
  }

  lemma Writes()
    ensures Leads(First(C(false, 1, InFlight(1), None), [], true, 0), Write(0), First(SENT, [Q(1, Transit)], true, 0))
  {
  }

  lemma Arrives()
    ensures Leads(First(SENT, [Q(1, Transit)], true, 0), Server(Arrive(0)), First(SENT, [Q(1, Ready)], true, 0))
  {
  }

  lemma Begins()
    ensures Leads(First(SENT, [Q(1, Ready)], true, 0), Server(Begin(0)), First(SENT, [Q(1, Running)], true, 1))
  {
  }

  lemma LosesConnection()
    ensures Leads(First(SENT, [Q(1, Running)], true, 1), LoseClient(1), First(SENT, [Q(1, Running)], false, 1))
  {
  }

  lemma Loses()
    ensures Leads(First(SENT, [Q(1, Running)], false, 1), Lose(0), First(WAITS, [Q(1, Running)], false, 1))
  {
  }

  lemma Resumes()
    ensures Leads(First(WAITS, [Q(1, Running)], false, 1), Resume(false), Second(WAITS, [Q(1, Running)], false, 0, 1))
  {
    var s := First(WAITS, [Q(1, Running)], false, 1);
    assert Reattached(s, false) == EMPTY_TABLE;
    assert Resumed(s.net) == Second(WAITS, [Q(1, Running)], false, 0, 1).net;
  }

  lemma Publishes()
    ensures Leads(Second(WAITS, [Q(1, Running)], false, 0, 1), Publish, Second(WAITS, [Q(1, Running)], true, 0, 1))
  {
  }

  lemma SendsAgain()
    ensures Leads(Second(WAITS, [Q(1, Running)], true, 0, 1), Send(0, 2),
                  Second(C(true, 2, InFlight(2), None), [Q(1, Running)], true, 0, 1))
  {
  }

  lemma WritesAgain()
    ensures Leads(Second(C(true, 2, InFlight(2), None), [Q(1, Running)], true, 0, 1), Write(0),
                  Second(AGAIN, [Q(1, Running), Q(2, Transit)], true, 0, 1))
  {
  }

  lemma IsHeld()
    ensures Leads(Second(AGAIN, [Q(1, Running), Q(2, Transit)], true, 0, 1), Server(Arrive(1)),
                  Second(AGAIN, [Q(1, Running), Q(2, Held)], true, 0, 1))
  {
  }

  lemma Finishes()
    ensures Leads(Second(AGAIN, [Q(1, Running), Q(2, Held)], true, 0, 1), Server(Finish(0, false)),
                  Second(AGAIN, [Q(1, Finished).(answer := Undelivered), Q(2, Held)], true, 0, 0))
  {
  }

  /** The first sending has finished. */
  function Over(again: Phase, running: int): State {
    Second(AGAIN, [Q(1, Finished).(answer := Undelivered), Q(2, again)], true, running, 0)
  }

  lemma Drains()
    ensures Leads(Over(Held, 0), Server(Drain(1)), Over(Ready, 0))
  {
    DrainLeads(Over(Held, 0), 1);
  }

  lemma BeginsAgain()
    ensures Leads(Over(Ready, 0), Server(Begin(1)), Over(Running, 1))
  {
  }

  lemma FirstRuns() returns (states: seq<State>, actions: seq<Action>)
    ensures IsRun(states, actions) && |actions| == 7 && states[7] == First(SENT, [Q(1, Running)], true, 1)
  {
    states, actions := [INIT], [];
    Connects();
    states, actions := RunOn(states, actions, NewSession(false), At([], [], false, 0, 0, 0));
    OrderingWitness.Publishes();
    states, actions := RunOn(states, actions, Publish, At([], [], true, 0, 0, 0));
    Starts();
    states, actions := RunOn(states, actions, Start(Change, true), First(C(false, 0, Waiting, None), [], true, 0));
    Sends();
    states, actions := RunOn(states, actions, Send(0, 1), First(C(false, 1, InFlight(1), None), [], true, 0));
    Writes();
    states, actions := RunOn(states, actions, Write(0), First(SENT, [Q(1, Transit)], true, 0));
    Arrives();
    states, actions := RunOn(states, actions, Server(Arrive(0)), First(SENT, [Q(1, Ready)], true, 0));
    Begins();
    states, actions := RunOn(states, actions, Server(Begin(0)), First(SENT, [Q(1, Running)], true, 1));
  }

  lemma ResumedRun() returns (states: seq<State>, actions: seq<Action>)
    ensures IsRun(states, actions) && |actions| == 11 && states[7] == First(SENT, [Q(1, Running)], true, 1)
    ensures states[11] == Second(WAITS, [Q(1, Running)], true, 0, 1)
  {
    states, actions := FirstRuns();
    LosesConnection();
    states, actions := RunOn(states, actions, LoseClient(1), First(SENT, [Q(1, Running)], false, 1));
    Loses();
    states, actions := RunOn(states, actions, Lose(0), First(WAITS, [Q(1, Running)], false, 1));
    Resumes();
    states, actions := RunOn(states, actions, Resume(false), Second(WAITS, [Q(1, Running)], false, 0, 1));
    Publishes();
    states, actions := RunOn(states, actions, Publish, Second(WAITS, [Q(1, Running)], true, 0, 1));
  }

  lemma HeldAgain() returns (states: seq<State>, actions: seq<Action>)
    ensures IsRun(states, actions) && |actions| == 14 && states[7] == First(SENT, [Q(1, Running)], true, 1)
    ensures states[14] == Second(AGAIN, [Q(1, Running), Q(2, Held)], true, 0, 1)
  {
    states, actions := ResumedRun();
    SendsAgain();
    states, actions := RunOn(states, actions, Send(0, 2), Second(C(true, 2, InFlight(2), None), [Q(1, Running)], true, 0, 1));
    WritesAgain();
    states, actions := RunOn(states, actions, Write(0), Second(AGAIN, [Q(1, Running), Q(2, Transit)], true, 0, 1));
    IsHeld();
    states, actions := RunOn(states, actions, Server(Arrive(1)), Second(AGAIN, [Q(1, Running), Q(2, Held)], true, 0, 1));
  }

  /** A change runs at step 7, is sent again on the connection its session is resumed on, held there, and begins at step 17. */
  lemma ResentThenBegins() returns (states: seq<State>, actions: seq<Action>)
    ensures IsRun(states, actions) && RunsAt(states, 7, 0) && HeldAt(states, 14, 1) && BeginsAt(states, 17, 1)
    ensures var reqs := states[17].net.reqs;
      reqs[1].op.Changes() && reqs[1].origin == reqs[0].origin == OfCall(0) && reqs[0].conn < reqs[1].conn
  {
    states, actions := HeldAgain();
    Finishes();
    states, actions := RunOn(states, actions, Server(Finish(0, false)), Over(Held, 0));
    Drains();
    states, actions := RunOn(states, actions, Server(Drain(1)), Over(Ready, 0));
    BeginsAgain();
    states, actions := RunOn(states, actions, Server(Begin(1)), Over(Running, 1));
  }
}
