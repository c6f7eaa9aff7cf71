/** A new session's round of reopens, up to the publication of its connection. */
module Publication {
  import opened Machine
  import opened Wire
  import opened Protocol
  import opened WireInvariant
  import opened OrderInvariant
  import opened OrderSteps
  import opened Sends
  import opened HandleInvariant
  import opened Ordering

  /** The newest connection is its session's first, and not yet published. */
  ghost predicate Reopening(n: Net) {
    && |n.conns| >= 2
    && |n.sessions| >= 1
    && !n.conns[|n.conns| - 1].published
    && (forall g | 0 <= g < |n.conns| - 1 :: n.conns[g].session < |n.sessions| - 1)
  }

  /** While the round goes on, a handle is of the round exactly when its reopen is still to end, found its file, or
      left its release owed; and a handle live in the table is one of the first two. */
  ghost predicate RoundSplit(s: State, fh: nat) {
    && (s.round.Pending(fh) ==> fh in s.fixed && fh !in s.round.reopened)
    && (fh in s.round.reopened ==> fh in s.fixed)
    && (fh in s.fixed && !s.round.Pending(fh) && fh !in s.round.reopened ==> fh in s.table.owed)
    && (s.table.LiveAt(fh) ==> s.round.Pending(fh) || fh in s.round.reopened)
  }

  ghost predicate RoundInv(s: State) {
    Reopening(s.net) ==> forall fh: nat :: RoundSplit(s, fh)
  }

  lemma SameConnections(s: State, a: Action)
    requires Enabled(s, a) && !a.Resume? && !a.NewSession?
    ensures |Next(s, a).net.conns| == |s.net.conns| && |Next(s, a).net.sessions| == |s.net.sessions|
  {
    if a.Server? { DeedIsServers(s.net, a.deed); }
  }

  lemma ReopeningMoves(n: Net, m: Net)
    requires Moves(n, m) && |m.conns| == |n.conns| && |m.sessions| == |n.sessions| && Reopening(m)
    ensures Reopening(n)
  {
    forall g | 0 <= g < |n.conns| ensures n.conns[g].session == m.conns[g].session && (n.conns[g].published ==> m.conns[g].published) {
      assert ConnMoves(n, m, g);
    }
  }

  /** Steps that make no connection neither make nor unmake a first connection that is not published. */
  lemma SameReopening(s: State, a: Action)
    requires OrderInv(s) && Enabled(s, a) && !a.Resume? && !a.NewSession?
    requires Reopening(Next(s, a).net)
    ensures Reopening(s.net)
  {
    StepKeeps(s, a);
    SameConnections(s, a);
    ReopeningMoves(s.net, Next(s, a).net);
  }

  /** Before its connection is published, no call's answer is read, and no release owed is sent or settled. */
  lemma NoCallAnswered(s: State, r: nat, result: CallResult)
    requires OrderInv(s) && Reopening(s.net)
    ensures !CanAnswerCall(s, r, result)
  {
    if r < |s.net.reqs| && s.net.reqs[r].origin.OfCall? && s.net.reqs[r].origin.c < |s.calls| {
      assert CallAt(s.calls, s.net, s.net.reqs[r].origin.c);
      assert ConnAt(s.net.conns, s.net.sessions, s.net.reqs[r].conn);
    }
  }

  lemma NoOwedAnswered(s: State, r: nat)
    requires OrderInv(s) && Reopening(s.net) && CanAnswerOwed(s.net, r)
    ensures DoAnswerOwed(s, r).table == s.table
  {
    assert OwedAt(s.table.owed, s.net.conns, s.net.reqs[r].origin.fh);
  }

  lemma NothingAnswered(s: State, a: Action)
    requires OrderInv(s) && Enabled(s, a) && Reopening(s.net)
    ensures !a.AnswerCall?
    ensures a.AnswerOwed? ==> Next(s, a).table == s.table
  {
    match a
    case AnswerCall(r, result, _) => NoCallAnswered(s, r, result);
    case AnswerOwed(r) => NoOwedAnswered(s, r);
    case _ =>
  }

  /** A step that only adds to what is owed, removes handles, and leaves the round alone. */
  lemma TableStep(s: State, t: State, fh: nat)
    requires RoundSplit(s, fh) && t.round == s.round && t.fixed == s.fixed
    requires fh in s.table.owed ==> fh in t.table.owed
    requires t.table.LiveAt(fh) ==> s.table.LiveAt(fh)
    ensures RoundSplit(t, fh)
  {
  }

  lemma CallStepSplits(s: State, a: Action, fh: nat)
    requires OrderInv(s) && Enabled(s, a) && OfCalls(a) && Reopening(s.net) && RoundSplit(s, fh)
    ensures RoundSplit(Next(s, a), fh)
  {
    TableStep(s, Next(s, a), fh);
  }

  lemma AnswerStepSplits(s: State, a: Action, fh: nat)
    requires OrderInv(s) && Enabled(s, a) && Reopening(s.net) && RoundSplit(s, fh) && OfAnswers(a) && !a.AnswerReopen?
    ensures RoundSplit(Next(s, a), fh)
  {
    NothingAnswered(s, a);
    TableStep(s, Next(s, a), fh);
  }

  lemma OtherStepSplits(s: State, a: Action, fh: nat)
    requires Enabled(s, a) && RoundSplit(s, fh)
    requires a.LoseClient? || a.Publish? || a.OwedSend? || a.OwedWrite? || a.ReopenWrite?
    ensures RoundSplit(Next(s, a), fh)
  {
    TableStep(s, Next(s, a), fh);
  }

  /** A reopen ends: reopened, or owed. */
  lemma EndSplits(s: State, f0: nat, outcome: CallResult, m: Net, fh: nat)
    requires SendInv(s) && s.round.Pending(f0) && RoundSplit(s, fh)
    ensures RoundSplit(EndReopen(s, f0, outcome).(net := m), fh)
  {
  }

  lemma ReopenStepSplits(s: State, a: Action, fh: nat)
    requires SendInv(s) && Enabled(s, a) && RoundSplit(s, fh)
    requires a.AnswerReopen? || a.ReopenSend? || a.ReopenUnwritten? || a.ReopenGiveUp? || a.ReopenLost?
    ensures RoundSplit(Next(s, a), fh)
  {
    match a
    case AnswerReopen(f0, outcome) => EndSplits(s, f0, outcome, Read(s.net, s.reopening[f0]), fh);
    case ReopenUnwritten(f0, error) => EndSplits(s, f0, Err(error), s.net, fh);
    case ReopenGiveUp(f0) => EndSplits(s, f0, Err(Timeout), Counting(s.net, s.reopening[f0]), fh);
    case ReopenLost(f0) => EndSplits(s, f0, Err(Disconnected), s.net, fh);
    case ReopenSend(_) =>
  }

  lemma NewSessionSplits(s: State, rootChanged: bool, fh: nat)
    requires OrderInv(s) && CanConnect(s.net)
    ensures RoundSplit(DoNewSession(s, rootChanged), fh)
  {
  }

  /** A resumed session has an older connection, so it has no round. */
  lemma ResumeIsNoRound(s: State, rootChanged: bool)
    requires OrderInv(s) && CanConnect(s.net) && Resumable(s.net, Sid(s.net))
    ensures !Reopening(DoResume(s, rootChanged).net)
  {
    var t := DoResume(s, rootChanged);
    assert t.net.conns[Gen(s.net)].session == Sid(s.net);
  }

  lemma StepKeepsRound(s: State, a: Action)
    requires Inv(s) && RoundInv(s) && Enabled(s, a)
    ensures RoundInv(Next(s, a))
  {
    if a.Resume? {
      ResumeIsNoRound(s, a.rootChanged);
    } else if Reopening(Next(s, a).net) {
      forall fh: nat ensures RoundSplit(Next(s, a), fh) {
        if a.NewSession? {
          NewSessionSplits(s, a.rootChanged, fh);
        } else {
          SameReopening(s, a);
          assert RoundSplit(s, fh);
          if OfCalls(a) { CallStepSplits(s, a, fh); }
          else if a.AnswerReopen? || a.ReopenSend? || a.ReopenUnwritten? || a.ReopenGiveUp? || a.ReopenLost? { ReopenStepSplits(s, a, fh); }
          else if OfAnswers(a) { AnswerStepSplits(s, a, fh); }
          else { OtherStepSplits(s, a, fh); }
        }
      }
    }
  }

  lemma {:induction false} RunRound(states: seq<State>, actions: seq<Action>, k: nat)
    requires IsRun(states, actions) && k < |states|
    ensures Inv(states[k]) && RoundInv(states[k])
  {
    RunInv(states, actions, k);
    if k > 0 {
      RunRound(states, actions, k - 1);
      StepKeepsRound(states[k - 1], actions[k - 1]);
    }
  }

  /** Publication after a new session: no call has used the connection; every handle in the table is dead, or live and
      reopened in this round; and each handle the round began with was reopened or has its release owed. */
  lemma PublishedInOrder(states: seq<State>, actions: seq<Action>, k: nat)
    requires IsRun(states, actions) && k < |actions| && actions[k].Publish? && Reopening(states[k].net)
    ensures var s := states[k];
            && (forall c | 0 <= c < |s.calls| :: s.calls[c].call.status != InFlight(|s.net.conns| - 1))
            && (forall fh | fh in s.table.held :: s.table.held[fh].dead || fh in s.round.reopened)
            && (forall fh | fh in s.fixed :: fh in s.round.reopened || fh in s.table.owed)
  {
    RunRound(states, actions, k);
    var s := states[k];
    assert Enabled(s, actions[k]);
    forall c | 0 <= c < |s.calls| ensures s.calls[c].call.status != InFlight(|s.net.conns| - 1) {
      assert CallAt(s.calls, s.net, c);
    }
    forall fh | fh in s.table.held ensures s.table.held[fh].dead || fh in s.round.reopened {
      assert RoundSplit(s, fh);
    }
    forall fh | fh in s.fixed ensures fh in s.round.reopened || fh in s.table.owed {
      assert RoundSplit(s, fh);
    }
  }
}
