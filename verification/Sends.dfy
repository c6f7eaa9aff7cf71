/** How often, and where, the client sends: a call's sends, and a reopen's. */
module Sends {
  import opened Files
  import opened Machine
  import opened Handles
  import opened Wire
  import opened Protocol
  import opened WireInvariant
  import opened OrderInvariant
  import opened OrderSteps

  // ---- What every step keeps ----

  /** The requests a call has written went on strictly older connections than the one it waits for or is in flight
      on; no owed release is given up on. */
  ghost predicate SendsAt(calls: seq<CallRec>, n: Net, r: nat)
    requires r < |n.reqs|
  {
    match n.reqs[r].origin
    case OfCall(c) =>
      c < |calls| &&
      (match calls[c].call.status
       case Waiting => n.reqs[r].conn < calls[c].call.minGeneration
       case InFlight(g) => n.reqs[r].conn < g || calls[c].req == Some(r)
       case Ended(_) => true)
    case OwedRelease(_) => !n.reqs[r].givenUp
    case Reopen(_) => true
  }

  ghost function RequestsOf(reqs: seq<Req>, c: nat): set<nat> {
    set r | 0 <= r < |reqs| && reqs[r].origin == OfCall(c)
  }

  /** A call has written one request at most, and one more if it lost a reply once. */
  ghost predicate BoundAt(calls: seq<CallRec>, reqs: seq<Req>, c: nat)
    requires c < |calls|
  {
    |RequestsOf(reqs, c)| <= (if calls[c].call.lostOnce then 1 else 0)
                             + (if calls[c].req.None? && !calls[c].call.status.Ended? then 0 else 1)
  }

  /** Two requests that open the same id in the same session went on different connections. */
  ghost predicate ApartAt(n: Net, x: nat, y: nat)
    requires Ranged(n) && x < |n.reqs| && y < |n.reqs|
  {
    n.reqs[x].op.OpOpen? && n.reqs[y].op == n.reqs[x].op && SessionOf(n, x) == SessionOf(n, y) && x != y ==>
      n.reqs[x].conn != n.reqs[y].conn
  }

  /** A reopen of the round is written once. */
  ghost predicate OnceAt(n: Net, round: Round, reopening: map<nat, nat>, r: nat)
    requires r < |n.reqs|
  {
    n.reqs[r].origin.Reopen? && n.reqs[r].conn == |n.conns| - 1 && round.Pending(n.reqs[r].origin.fh) ==>
      n.reqs[r].origin.fh in reopening && reopening[n.reqs[r].origin.fh] == r
  }

  ghost predicate SendInv(s: State) {
    && Ranged(s.net)
    && (forall r | 0 <= r < |s.net.reqs| :: SendsAt(s.calls, s.net, r))
    && (forall c | 0 <= c < |s.calls| :: BoundAt(s.calls, s.net.reqs, c))
    && (forall x, y | 0 <= x < |s.net.reqs| && 0 <= y < |s.net.reqs| :: ApartAt(s.net, x, y))
    && (forall r | 0 <= r < |s.net.reqs| :: OnceAt(s.net, s.round, s.reopening, r))
    && s.round.unsent.Keys !! s.round.sending.Keys
  }

  // ---- Steps that write nothing ----

  lemma SameBound(s: State, t: State, c: nat)
    requires c < |s.calls| && c < |t.calls| && BoundAt(s.calls, s.net.reqs, c) && Moves(s.net, t.net)
    requires |t.net.reqs| == |s.net.reqs|
    requires t.calls[c].call.lostOnce == s.calls[c].call.lostOnce
    requires (t.calls[c].req.None? && !t.calls[c].call.status.Ended?) ==>
               (s.calls[c].req.None? && !s.calls[c].call.status.Ended?)
    ensures BoundAt(t.calls, t.net.reqs, c)
  {
    forall r | 0 <= r < |s.net.reqs| ensures t.net.reqs[r].origin == s.net.reqs[r].origin {
      assert ReqMoves(s.net, t.net, r);
    }
    assert RequestsOf(t.net.reqs, c) == RequestsOf(s.net.reqs, c);
  }

  /** A step that writes nothing keeps the sends, once what it does to the one call it touches is right. */
  lemma QuietSends(s: State, t: State, c0: int)
    requires OrderInv(s) && SendInv(s) && Moves(s.net, t.net) && CallsGrow(s.calls, t.calls)
    requires |t.net.reqs| == |s.net.reqs|
    requires forall c | 0 <= c < |s.calls| && c != c0 :: t.calls[c] == s.calls[c]
    requires |t.calls| == |s.calls| || (|t.calls| == |s.calls| + 1 && c0 == |s.calls|)
    requires 0 <= c0 < |t.calls| ==> BoundAt(t.calls, t.net.reqs, c0)
    requires forall r | 0 <= r < |t.net.reqs| ::
               ((s.net.reqs[r].origin.OfCall? && s.net.reqs[r].origin.c == c0) || t.net.reqs[r].givenUp != s.net.reqs[r].givenUp) ==>
                 SendsAt(t.calls, t.net, r)
    requires |t.net.conns| == |s.net.conns| || t.reopening == map[]
    requires t.round.unsent.Keys !! t.round.sending.Keys
    requires |t.net.conns| == |s.net.conns| ==> forall fh | t.round.Pending(fh) ::
               s.round.Pending(fh) && (fh in s.reopening ==> fh in t.reopening && t.reopening[fh] == s.reopening[fh])
    ensures SendInv(t)
  {
    forall r | 0 <= r < |t.net.reqs|
      ensures SendsAt(t.calls, t.net, r) && OnceAt(t.net, t.round, t.reopening, r)
    {
      assert SendsAt(s.calls, s.net, r) && OnceAt(s.net, s.round, s.reopening, r) && ReqMoves(s.net, t.net, r);
      assert s.net.reqs[r].conn < |s.net.conns|;
    }
    forall c | 0 <= c < |t.calls| ensures BoundAt(t.calls, t.net.reqs, c) {
      if c != c0 { SameBound(s, t, c); }
    }
    forall x, y | 0 <= x < |t.net.reqs| && 0 <= y < |t.net.reqs| ensures ApartAt(t.net, x, y) {
      assert ApartAt(s.net, x, y) && ReqMoves(s.net, t.net, x) && ReqMoves(s.net, t.net, y);
      assert ConnMoves(s.net, t.net, s.net.reqs[x].conn) && ConnMoves(s.net, t.net, s.net.reqs[y].conn);
    }
  }

  ghost predicate Inv2(s: State) {
    OrderInv(s) && SendInv(s)
  }

  lemma StartSends(s: State, kind: Kind, resendable: bool)
    requires Inv2(s) && CanStart(s, kind)
    ensures SendInv(DoStart(s, kind, resendable))
  {
    var t, c := DoStart(s, kind, resendable), |s.calls|;
    StartKeeps(s, kind, resendable);
    forall r | 0 <= r < |s.net.reqs| ensures s.net.reqs[r].origin != OfCall(c) {
      assert LinkAt(s.calls, s.net, s.reopening, r);
    }
    assert RequestsOf(t.net.reqs, c) == {};
    QuietSends(s, t, c);
  }

  lemma SendSends(s: State, c: nat, g: nat)
    requires Inv2(s) && CanSend(s, c, g)
    ensures SendInv(DoSend(s, c, g))
  {
    var t := DoSend(s, c, g);
    SendKeeps(s, c, g);
    assert CallAt(s.calls, s.net, c);
    SameBound(s, t, c);
    forall r | 0 <= r < |t.net.reqs| && s.net.reqs[r].origin == OfCall(c) ensures SendsAt(t.calls, t.net, r) {
      assert SendsAt(s.calls, s.net, r);
    }
    QuietSends(s, t, c);
  }

  /** A call ends: nothing it may still send is left to bound. */
  lemma EndSends(s: State, t: State, c: nat)
    requires Inv2(s) && Moves(s.net, t.net) && CallsGrow(s.calls, t.calls) && |t.calls| == |s.calls| && c < |s.calls|
    requires |t.net.reqs| == |s.net.reqs| && |t.net.conns| == |s.net.conns|
    requires forall b | 0 <= b < |s.calls| && b != c :: t.calls[b] == s.calls[b]
    requires t.calls[c].call.status.Ended? && t.calls[c].call.lostOnce == s.calls[c].call.lostOnce
    requires forall r | 0 <= r < |t.net.reqs| && t.net.reqs[r].givenUp != s.net.reqs[r].givenUp ::
               s.net.reqs[r].origin == OfCall(c)
    requires t.round == s.round && t.reopening == s.reopening
    ensures SendInv(t)
  {
    SameBound(s, t, c);
    forall r | 0 <= r < |t.net.reqs| && s.net.reqs[r].origin == OfCall(c) ensures SendsAt(t.calls, t.net, r) {
      assert ReqMoves(s.net, t.net, r);
    }
    QuietSends(s, t, c);
  }

  lemma GiveUpSends(s: State, c: nat, error: Error)
    requires Inv2(s) && CanGiveUp(s, c, error)
    ensures SendInv(DoGiveUp(s, c, error))
  {
    GiveUpKeeps(s, c, error);
    assert CallAt(s.calls, s.net, c);
    EndSends(s, DoGiveUp(s, c, error), c);
  }

  lemma LoseSends(s: State, c: nat)
    requires Inv2(s) && CanLose(s, c)
    ensures SendInv(DoLose(s, c))
  {
    var t := DoLose(s, c);
    LoseKeeps(s, c);
    assert CallAt(s.calls, s.net, c) && BoundAt(s.calls, s.net.reqs, c);
    if t.calls[c].call.status.Ended? {
      EndSends(s, t, c);
    } else {
      forall r | 0 <= r < |t.net.reqs| && s.net.reqs[r].origin == OfCall(c) ensures SendsAt(t.calls, t.net, r) {
        assert SendsAt(s.calls, s.net, r);
      }
      QuietSends(s, t, c);
    }
  }

  lemma FailSends(s: State, c: nat)
    requires Inv2(s) && CanFail(s, c)
    ensures SendInv(DoFail(s, c))
  {
    FailKeeps(s, c);
    EndSends(s, DoFail(s, c), c);
  }

  lemma AnswerCallSends(s: State, r: nat, result: CallResult, refused: bool)
    requires Inv2(s) && CanAnswerCall(s, r, result)
    ensures SendInv(DoAnswerCall(s, r, result, refused))
  {
    AnswerCallKeeps(s, r, result, refused);
    EndSends(s, DoAnswerCall(s, r, result, refused), s.net.reqs[r].origin.c);
  }

  /** A step that touches no call, and ends at most a reopen. */
  lemma NoCallSends(s: State, t: State)
    requires Inv2(s) && Moves(s.net, t.net) && t.calls == s.calls && |t.net.reqs| == |s.net.reqs|
    requires forall r | 0 <= r < |t.net.reqs| && t.net.reqs[r].givenUp != s.net.reqs[r].givenUp ::
               !s.net.reqs[r].origin.OwedRelease?
    requires |t.net.conns| == |s.net.conns| || t.reopening == map[]
    requires t.round.unsent.Keys !! t.round.sending.Keys
    requires |t.net.conns| == |s.net.conns| ==> forall fh | t.round.Pending(fh) ::
               s.round.Pending(fh) && (fh in s.reopening ==> fh in t.reopening && t.reopening[fh] == s.reopening[fh])
    ensures SendInv(t)
  {
    forall r | 0 <= r < |t.net.reqs| && t.net.reqs[r].givenUp != s.net.reqs[r].givenUp
      ensures SendsAt(t.calls, t.net, r)
    {
      assert SendsAt(s.calls, s.net, r) && ReqMoves(s.net, t.net, r);
    }
    QuietSends(s, t, -1);
  }

  lemma EndReopenSends(s: State, fh: nat, outcome: CallResult, m: Net)
    requires Inv2(s) && fh in s.round.sending
    requires if fh !in s.reopening then m == s.net
             else s.reopening[fh] < |s.net.reqs|
                  && (|| m == Counting(s.net, s.reopening[fh])
                      || (m == s.net && !s.net.conns[Gen(s.net)].clientAlive)
                      || (m == Read(s.net, s.reopening[fh]) && ClientReads(s.net, s.reopening[fh])))
    ensures SendInv(EndReopen(s, fh, outcome).(net := m))
  {
    EndReopenKeeps(s, fh, outcome, m);
    assert ReopenAt(s.net, s.round, s.reopening, fh);
    NoCallSends(s, EndReopen(s, fh, outcome).(net := m));
  }

  lemma UncountSends(s: State, r: nat)
    requires Inv2(s) && r < |s.net.reqs| && s.net.reqs[r].counted
    requires ClientReads(s.net, r) || !s.net.conns[s.net.reqs[r].conn].clientAlive
    ensures SendInv(s.(net := Uncounting(s.net, r)))
  {
    UncountKeeps(s, r);
    NoCallSends(s, s.(net := Uncounting(s.net, r)));
  }

  lemma AnswerOwedSends(s: State, r: nat)
    requires Inv2(s) && CanAnswerOwed(s.net, r)
    ensures SendInv(DoAnswerOwed(s, r))
  {
    AnswerOwedKeeps(s, r);
    NoCallSends(s, DoAnswerOwed(s, r));
  }

  lemma ServerSends(s: State, d: Deed)
    requires Inv2(s) && Can(s.net, d)
    ensures SendInv(s.(net := Done(s.net, d)))
  {
    ServerKeeps(s, d);
    DeedIsServers(s.net, d);
    NoCallSends(s, s.(net := Done(s.net, d)));
  }

  lemma ConnSends(s: State, m: Net, g: nat)
    requires Inv2(s) && g < |s.net.conns|
    requires m == LostByClient(s.net, g) || (m == Published(s.net) && CanPublish(s) && g == Gen(s.net))
    ensures SendInv(s.(net := m))
  {
    ConnKeeps(s, m, g);
    NoCallSends(s, s.(net := m));
  }

  lemma ResumeSends(s: State, rootChanged: bool)
    requires Inv2(s) && CanConnect(s.net) && Resumable(s.net, Sid(s.net))
    ensures SendInv(DoResume(s, rootChanged))
  {
    ResumeKeeps(s, rootChanged);
    PublishedRoundOver(s);
    NoCallSends(s, DoResume(s, rootChanged));
  }

  lemma NewSessionSends(s: State, rootChanged: bool)
    requires Inv2(s) && CanConnect(s.net) && !Resumable(s.net, Sid(s.net))
    ensures SendInv(DoNewSession(s, rootChanged))
  {
    NewSessionKeeps(s, rootChanged);
    NoCallSends(s, DoNewSession(s, rootChanged));
  }

  lemma ReopenSendSends(s: State, fh: nat)
    requires Inv2(s) && fh in s.round.unsent
    ensures SendInv(s.(round := s.round.Send(fh)))
  {
    ReopenSendKeeps(s, fh);
    NoCallSends(s, s.(round := s.round.Send(fh)));
  }

  // ---- A request is written ----

  lemma WritesSends(s: State, t: State, origin: Origin, op: Op, g: nat, c0: int)
    requires Inv2(s) && g < |s.net.conns| && Writes(s, t, origin, op, g, c0) && Moves(s.net, t.net)
    requires SendsAt(t.calls, t.net, |s.net.reqs|) && OnceAt(t.net, t.round, t.reopening, |s.net.reqs|)
    requires 0 <= c0 < |s.calls| ==> origin == OfCall(c0) && s.calls[c0].call.status.InFlight?
    requires origin.OfCall? ==> origin.c == c0
    requires forall x | 0 <= x < |s.net.reqs| :: s.net.reqs[x].op == op && op.OpOpen? ==> s.net.reqs[x].conn != g
    ensures SendInv(t)
  {
    var q := |s.net.reqs|;
    forall r | 0 <= r < |t.net.reqs|
      ensures SendsAt(t.calls, t.net, r) && OnceAt(t.net, t.round, t.reopening, r)
    {
      if r < q { assert SendsAt(s.calls, s.net, r) && OnceAt(s.net, s.round, s.reopening, r); }
    }
    forall c | 0 <= c < |t.calls| ensures BoundAt(t.calls, t.net.reqs, c) { WritesBound(s, t, origin, op, g, c0, c); }
    WritesApart(s, t, origin, op, g, c0);
  }

  lemma WritesBound(s: State, t: State, origin: Origin, op: Op, g: nat, c0: int, c: nat)
    requires SendInv(s) && g < |s.net.conns| && Writes(s, t, origin, op, g, c0) && c < |s.calls|
    requires c0 == c ==> origin == OfCall(c0) && s.calls[c0].call.status.InFlight?
    requires origin.OfCall? ==> origin.c == c0
    ensures BoundAt(t.calls, t.net.reqs, c)
  {
    assert BoundAt(s.calls, s.net.reqs, c);
    assert RequestsOf(t.net.reqs, c) == RequestsOf(s.net.reqs, c) + (if c == c0 then {|s.net.reqs|} else {});
  }

  lemma WritesApart(s: State, t: State, origin: Origin, op: Op, g: nat, c0: int)
    requires Inv2(s) && g < |s.net.conns| && Writes(s, t, origin, op, g, c0) && Ranged(t.net)
    requires forall x | 0 <= x < |s.net.reqs| :: s.net.reqs[x].op == op && op.OpOpen? ==> s.net.reqs[x].conn != g
    ensures forall x, y | 0 <= x < |t.net.reqs| && 0 <= y < |t.net.reqs| :: ApartAt(t.net, x, y)
  {
    var q := |s.net.reqs|;
    forall x, y | 0 <= x < |t.net.reqs| && 0 <= y < |t.net.reqs| ensures ApartAt(t.net, x, y) {
      if x < q && y < q { assert ApartAt(s.net, x, y); }
    }
  }

  lemma WriteSends(s: State, c: nat)
    requires Inv2(s) && CanWrite(s, c)
    ensures SendInv(DoWrite(s, c))
  {
    var g := s.calls[c].call.status.generation;
    WriteKeeps(s, c);
    forall x | 0 <= x < |s.net.reqs| && s.net.reqs[x].op == OpOf(s.calls[c].kind, c) && s.calls[c].kind.Open?
      ensures s.net.reqs[x].conn != g
    {
      assert LinkAt(s.calls, s.net, s.reopening, x) && SendsAt(s.calls, s.net, x);
    }
    WritesSends(s, DoWrite(s, c), OfCall(c), OpOf(s.calls[c].kind, c), g, c);
  }

  lemma ReopenWriteSends(s: State, fh: nat)
    requires Inv2(s) && CanReopenWrite(s, fh)
    ensures SendInv(DoReopenWrite(s, fh))
  {
    ReopenWriteKeeps(s, fh);
    forall x | 0 <= x < |s.net.reqs| && s.net.reqs[x].op == OpOpen(fh) ensures s.net.reqs[x].conn != Gen(s.net) {
      assert LinkAt(s.calls, s.net, s.reopening, x) && OnceAt(s.net, s.round, s.reopening, x);
    }
    WritesSends(s, DoReopenWrite(s, fh), Reopen(fh), OpOpen(fh), Gen(s.net), -1);
  }

  lemma OwedWriteSends(s: State, fh: nat)
    requires Inv2(s) && CanOwedWrite(s, fh)
    ensures SendInv(DoOwedWrite(s, fh))
  {
    OwedWriteKeeps(s, fh);
    WritesSends(s, DoOwedWrite(s, fh), OwedRelease(fh), OpRelease(fh, true), s.table.owed[fh].value, -1);
  }

  lemma CallStepSends(s: State, a: Action)
    requires Inv2(s) && Enabled(s, a)
    requires OfCalls(a)
    ensures SendInv(Next(s, a))
  {
    match a
    case Start(kind, resendable) => StartSends(s, kind, resendable);
    case DropDead(fh) =>
    case Send(c, g) => SendSends(s, c, g);
    case Write(c) => WriteSends(s, c);
    case GiveUp(c, error) => GiveUpSends(s, c, error);
    case Lose(c) => LoseSends(s, c);
    case Fail(c) => FailSends(s, c);
  }

  lemma AnswerStepSends(s: State, a: Action)
    requires Inv2(s) && Enabled(s, a)
    requires OfAnswers(a)
    ensures SendInv(Next(s, a))
  {
    match a
    case AnswerCall(r, result, refused) => AnswerCallSends(s, r, result, refused);
    case AnswerCancel(r) => UncountSends(s, r);
    case CancelLost(r) => UncountSends(s, r);
    case AnswerReopen(fh, outcome) => EndReopenSends(s, fh, outcome, Read(s.net, s.reopening[fh]));
    case AnswerOwed(r) => AnswerOwedSends(s, r);
    case Server(deed) => ServerSends(s, deed);
  }

  lemma ConnStepSends(s: State, a: Action)
    requires Inv2(s) && Enabled(s, a)
    requires OfConnections(a)
    ensures SendInv(Next(s, a))
  {
    match a
    case LoseClient(g) => ConnSends(s, LostByClient(s.net, g), g);
    case Resume(rootChanged) => ResumeSends(s, rootChanged);
    case NewSession(rootChanged) => NewSessionSends(s, rootChanged);
    case Publish => ConnSends(s, Published(s.net), Gen(s.net));
  }

  lemma ReopenStepSends(s: State, a: Action)
    requires Inv2(s) && Enabled(s, a)
    requires OfReopens(a)
    ensures SendInv(Next(s, a))
  {
    match a
    case ReopenSend(fh) => ReopenSendSends(s, fh);
    case ReopenWrite(fh) => ReopenWriteSends(s, fh);
    case ReopenUnwritten(fh, error) => EndReopenSends(s, fh, Err(error), s.net);
    case ReopenGiveUp(fh) => EndReopenSends(s, fh, Err(Timeout), Counting(s.net, s.reopening[fh]));
    case ReopenLost(fh) => EndReopenSends(s, fh, Err(Disconnected), s.net);
    case OwedSend(fh) =>
    case OwedWrite(fh) => OwedWriteSends(s, fh);
  }

  lemma StepKeepsSends(s: State, a: Action)
    requires Inv2(s) && Enabled(s, a)
    ensures Inv2(Next(s, a))
  {
    StepKeeps(s, a);
    if OfCalls(a) {
      CallStepSends(s, a);
    } else if OfAnswers(a) {
      AnswerStepSends(s, a);
    } else if OfConnections(a) {
      ConnStepSends(s, a);
    } else {
      ReopenStepSends(s, a);
    }
  }
}
