/** What the end of an exchange leaves behind: of a reopen, the handle that was held if the very same file was opened and
    otherwise a release owed; of an open or a release, what the outcome says and no more; of a lost connection, a call that
    waits for a newer one for as long as it may be sent again. */
module Outcomes {
  import opened Files
  import opened Machine
  import opened Handles
  import opened Wire
  import opened Protocol
  import opened WireInvariant
  import opened OrderInvariant
  import opened Sends
  import opened HandleInvariant
  import opened Ordering

  // ---- Reopens ----

  /** A handle to be reopened is of the file that the table has it for. */
  ghost predicate RoundFile(round: Round, table: Table, fh: nat) {
    round.Pending(fh) && fh in table.held ==> round.RecOf(fh).key == table.held[fh].key
  }

  /** The table has no handle that it did not have, and none of another file. */
  ghost predicate SameFiles(was: Table, now: Table, fh: nat) {
    fh in now.held ==> fh in was.held && now.held[fh].key == was.held[fh].key
  }

  lemma CallFiles(s: State, a: Action, fh: nat)
    requires Enabled(s, a) && OfCalls(a)
    ensures Next(s, a).round == s.round && SameFiles(s.table, Next(s, a).table, fh)
  {
  }

  lemma EndFiles(round: Round, table: Table, f0: nat, outcome: CallResult, fh: nat)
    requires round.unsent.Keys !! round.sending.Keys && round.Pending(f0) && RoundFile(round, table, fh)
    ensures RoundFile(round.AfterEnd(table, f0, outcome).0, round.AfterEnd(table, f0, outcome).1, fh)
  {
  }

  /** The reopen of `fh` ends with no answer. */
  predicate Unanswered(a: Action, fh: nat) {
    a == ReopenGiveUp(fh) || a == ReopenLost(fh) || (a.ReopenUnwritten? && a.fh == fh)
  }

  /** What is made of it. */
  function OutcomeOf(a: Action): CallResult
    requires a.ReopenGiveUp? || a.ReopenLost? || a.ReopenUnwritten?
  {
    Err(if a.ReopenGiveUp? then Timeout else if a.ReopenLost? then Disconnected else a.error)
  }

  lemma EndIs(s: State, a: Action)
    requires Enabled(s, a) && (a.AnswerReopen? || a.ReopenGiveUp? || a.ReopenLost? || a.ReopenUnwritten?)
    ensures var (round, table) := s.round.AfterEnd(s.table, a.fh, if a.AnswerReopen? then a.outcome else OutcomeOf(a));
      Next(s, a).round == round && Next(s, a).table == table
  {
  }

  lemma SendFiles(s: State, a: Action, fh: nat)
    requires s.round.unsent.Keys !! s.round.sending.Keys && RoundFile(s.round, s.table, fh)
    requires Enabled(s, a) && (a.ReopenSend? || a.ReopenWrite? || a.OwedSend? || a.OwedWrite?)
    ensures RoundFile(Next(s, a).round, Next(s, a).table, fh)
  {
  }

  lemma ReopenFiles(s: State, a: Action, fh: nat)
    requires s.round.unsent.Keys !! s.round.sending.Keys && RoundFile(s.round, s.table, fh)
    requires Enabled(s, a) && (OfReopens(a) || a.AnswerReopen?)
    ensures RoundFile(Next(s, a).round, Next(s, a).table, fh)
  {
    if a.ReopenSend? || a.ReopenWrite? || a.OwedSend? || a.OwedWrite? {
      SendFiles(s, a, fh);
    } else {
      EndIs(s, a);
      EndFiles(s.round, s.table, a.fh, if a.AnswerReopen? then a.outcome else OutcomeOf(a), fh);
    }
  }

  lemma AnswerFiles(s: State, a: Action, fh: nat)
    requires OrderInv(s) && Enabled(s, a) && OfAnswers(a) && !a.AnswerReopen? && RoundFile(s.round, s.table, fh)
    ensures RoundFile(Next(s, a).round, Next(s, a).table, fh)
  {
    assert KnownAt(s.calls, s.table, s.round, fh);
  }

  lemma ConnectionFiles(s: State, a: Action, fh: nat)
    requires Enabled(s, a) && OfConnections(a) && RoundFile(s.round, s.table, fh)
    ensures RoundFile(Next(s, a).round, Next(s, a).table, fh)
  {
  }

  lemma StepFiles(s: State, a: Action, t: State, fh: nat)
    requires OrderInv(s) && s.round.unsent.Keys !! s.round.sending.Keys && Enabled(s, a) && t == Next(s, a)
    requires RoundFile(s.round, s.table, fh)
    ensures RoundFile(t.round, t.table, fh)
  {
    if OfCalls(a) { CallFiles(s, a, fh); }
    else if a.AnswerReopen? || OfReopens(a) { ReopenFiles(s, a, fh); }
    else if OfAnswers(a) { AnswerFiles(s, a, fh); }
    else { ConnectionFiles(s, a, fh); }
  }

  lemma {:induction false} RunFiles(states: seq<State>, actions: seq<Action>, k: nat, fh: nat)
    requires IsRun(states, actions) && k < |states|
    ensures RoundFile(states[k].round, states[k].table, fh)
  {
    if k > 0 {
      RunFiles(states, actions, k - 1, fh);
      RunInv(states, actions, k - 1);
      StepFiles(states[k - 1], actions[k - 1], states[k], fh);
    }
  }

  /** Only `fh` is held or owed otherwise than before. */
  ghost predicate Elsewhere(was: Table, now: Table, fh: nat) {
    was.held - {fh} == now.held - {fh} && was.owed - {fh} == now.owed - {fh}
  }

  lemma EndJudged(round: Round, table: Table, fh: nat, outcome: CallResult)
    requires round.Pending(fh) && round.unsent.Keys !! round.sending.Keys && RoundFile(round, table, fh)
    ensures var (after, now) := round.AfterEnd(table, fh, outcome);
      && (now.LiveAt(fh) <==> table.LiveAt(fh) && outcome == Ok(Opened(table.held[fh].key)))
      && (if now.LiveAt(fh) then now == table && fh in after.reopened else fh in now.owed)
      && !after.Pending(fh) && Elsewhere(table, now, fh)
  {
  }

  /** A reopen is answered: the handle is live exactly if it was, and the reply opened the very file it was held for.
      Otherwise its release is owed. Nothing else in the table changes. */
  lemma ReopenJudged(states: seq<State>, actions: seq<Action>, k: nat, fh: nat, outcome: CallResult)
    requires IsRun(states, actions) && k < |actions| && actions[k] == AnswerReopen(fh, outcome)
    ensures var was, now := states[k].table, states[k + 1].table;
      && (now.LiveAt(fh) <==> was.LiveAt(fh) && outcome == Ok(Opened(was.held[fh].key)))
      && (if now.LiveAt(fh) then now == was && fh in states[k + 1].round.reopened else fh in now.owed)
      && Elsewhere(was, now, fh)
  {
    RunFiles(states, actions, k, fh);
    RunInv(states, actions, k);
    assert Enabled(states[k], actions[k]);
    EndIs(states[k], actions[k]);
    EndJudged(states[k].round, states[k].table, fh, outcome);
  }

  /** A handle whose reopen was not answered is not live, and its release is owed. */
  lemma ReopenUnanswered(states: seq<State>, actions: seq<Action>, k: nat, fh: nat)
    requires IsRun(states, actions) && k < |actions| && Unanswered(actions[k], fh)
    ensures var was, now := states[k].table, states[k + 1].table;
      !now.LiveAt(fh) && fh in now.owed && Elsewhere(was, now, fh)
  {
    RunFiles(states, actions, k, fh);
    RunInv(states, actions, k);
    var s, a := states[k], actions[k];
    assert Enabled(s, a);
    EndIs(s, a);
    EndJudged(s.round, s.table, fh, OutcomeOf(a));
  }

  // ---- Opens and releases ----

  /** The call that wrote `r`. */
  function CallOf(s: State, r: nat): Kind
    requires r < |s.net.reqs| && s.net.reqs[r].origin.OfCall? && s.net.reqs[r].origin.c < |s.calls|
  {
    s.calls[s.net.reqs[r].origin.c].kind
  }

  /** An open is answered: its handle is held if the reply brought one and the caller takes it, its release owed if the
      server may hold it all the same, and nothing changes if the server refused it. */
  lemma OpenAnswered(s: State, r: nat, result: CallResult, refused: bool)
    requires Enabled(s, AnswerCall(r, result, refused)) && CallOf(s, r).Open?
    ensures var fh, was, now := s.net.reqs[r].origin.c, s.table, Next(s, AnswerCall(r, result, refused)).table;
      && Elsewhere(was, now, fh)
      && (result.Ok? && result.response.Opened? && !refused ==>
            now.owed == was.owed && fh in now.held && now.held[fh] == Rec(result.response.key, CallOf(s, r).dir, false))
      && (result.Ok? && (result.response.OtherReply? || refused) ==> now.held == was.held && fh in now.owed)
      && (result == Err(Remote) ==> now == was)
      && (result == Err(Error.Protocol) ==> now.held == was.held && fh in now.owed)
  {
  }

  /** So an open that the server refused leaves nothing at either end: not held, not owed, not open at the server. */
  lemma RefusedLeavesNothing(states: seq<State>, actions: seq<Action>, k: nat, r: nat, refused: bool)
    requires IsRun(states, actions) && k < |actions| && actions[k] == AnswerCall(r, Err(Remote), refused)
    requires r < |states[k].net.reqs| && states[k].net.reqs[r].origin.OfCall?
    requires states[k].net.reqs[r].origin.c < |states[k].calls| && CallOf(states[k], r).Open?
    ensures var fh, t := states[k].net.reqs[r].origin.c, states[k + 1];
      fh !in t.table.held && fh !in t.table.owed && !AtServer(t.net, fh)
  {
    RunInv(states, actions, k);
    assert Enabled(states[k], actions[k]);
    RefusedIsGone(states[k], r, refused);
  }

  lemma RefusedIsGone(s: State, r: nat, refused: bool)
    requires Inv(s) && Enabled(s, AnswerCall(r, Err(Remote), refused)) && CallOf(s, r).Open?
    ensures var fh, t := s.net.reqs[r].origin.c, Next(s, AnswerCall(r, Err(Remote), refused));
      fh !in t.table.held && fh !in t.table.owed && !AtServer(t.net, fh)
  {
    OpenAnswered(s, r, Err(Remote), refused);
    RefusedAtServer(s, r, s.net.reqs[r].origin.c);
  }

  lemma RefusedAtServer(s: State, r: nat, fh: nat)
    requires Inv(s) && CanAnswerCall(s, r, Err(Remote)) && s.net.reqs[r].origin == OfCall(fh) && CallOf(s, r).Open?
    ensures fh !in s.table.held && fh !in s.table.owed && !AtServer(s.net, fh)
  {
    assert KnownAt(s.calls, s.table, s.round, fh) && CallAt(s.calls, s.net, fh);
    assert LinkAt(s.calls, s.net, s.reopening, r) && ReqAt(s.net, r);
    assert ConnAt(s.net.conns, s.net.sessions, s.net.reqs[r].conn);
    assert FhInv(s, fh);
    assert ReqFacts(s.net, FactsOf(s, fh), Awaited(s, fh), fh, r);
  }

  /** A release that is answered, well or not, owes nothing more. */
  lemma ReleaseAnswered(s: State, r: nat, result: CallResult, refused: bool)
    requires Enabled(s, AnswerCall(r, result, refused)) && CallOf(s, r).Release?
    ensures Next(s, AnswerCall(r, result, refused)).table == s.table
  {
  }

  /** A call that ends without an answer, an open or a release, leaves its id to be released; any other leaves the table. */
  lemma LeftUnanswered(s: State, a: Action, c: nat)
    requires Enabled(s, a) && ((a.GiveUp? && a.c == c) || a == Lose(c))
    ensures var kind, was, now := s.calls[c].kind, s.table, Next(s, a).table;
      var fh := if kind.Release? then kind.fh else c;
      if (kind.Open? || kind.Release?) && Next(s, a).calls[c].call.status.Ended?
      then now.held == was.held && fh in now.owed && Elsewhere(was, now, fh)
      else now == was
  {
  }

  // ---- Lost connections ----

  /** A connection goes under a call: it fails exactly if its request was written whole and it may not be sent again, and
      waits otherwise, for a newer connection. */
  lemma LoseExactly(s: State, c: nat)
    requires Enabled(s, Lose(c))
    ensures var was, now, written := s.calls[c].call, Next(s, Lose(c)).calls[c].call, s.calls[c].req.Some?;
      && (now.status == Ended(EndCall.Failed) <==> written && (!was.resendable || was.lostOnce))
      && (!now.status.Ended? ==>
            now.status == Waiting && now.minGeneration == was.status.generation + 1
            && now.lostOnce == (was.lostOnce || written))
      && now.changes == was.changes && now.resendable == was.resendable && now.attempt == was.attempt
  {
  }

  /** A call that lost a reply has written a request before the one it may be waiting for now. */
  ghost predicate WroteBefore(s: State, c: nat)
    requires c < |s.calls|
  {
    s.calls[c].call.lostOnce ==>
      exists r :: 0 <= r < |s.net.reqs| && s.net.reqs[r].origin == OfCall(c) && s.calls[c].req != Some(r)
  }

  /** How a step treats a call that is, or may become, one that lost a reply. */
  ghost predicate Writes(s: State, a: Action, t: State, c: nat) {
    && c < |t.calls|
    && (c >= |s.calls| ==> !t.calls[c].call.lostOnce)
    && (c < |s.calls| ==>
          && (t.calls[c].call.lostOnce ==>
                s.calls[c].call.lostOnce || (a == Lose(c) && s.calls[c].req.Some? && t.calls[c].req.None?))
          && (t.calls[c].req == s.calls[c].req || t.calls[c].req.None? || t.calls[c].req == Some(|s.net.reqs|)))
  }

  lemma CallWrites(s: State, a: Action, c: nat)
    requires Enabled(s, a) && OfCalls(a) && c < |Next(s, a).calls|
    ensures Writes(s, a, Next(s, a), c)
  {
  }

  lemma OthersWrite(s: State, a: Action, c: nat)
    requires Enabled(s, a) && !OfCalls(a) && c < |Next(s, a).calls|
    ensures Writes(s, a, Next(s, a), c)
  {
  }

  lemma StepWroteBefore(s: State, a: Action, t: State, c: nat)
    requires Moves(s.net, t.net) && Writes(s, a, t, c)
    requires c < |s.calls| ==> CallAt(s.calls, s.net, c) && WroteBefore(s, c)
    ensures WroteBefore(t, c)
  {
    if t.calls[c].call.lostOnce {
      if s.calls[c].call.lostOnce {
        var r :| 0 <= r < |s.net.reqs| && s.net.reqs[r].origin == OfCall(c) && s.calls[c].req != Some(r);
        assert ReqMoves(s.net, t.net, r);
        assert t.net.reqs[r].origin == OfCall(c);
      } else {
        assert ReqMoves(s.net, t.net, s.calls[c].req.value);
        assert t.net.reqs[s.calls[c].req.value].origin == OfCall(c);
      }
    }
  }

  lemma CallsAre(s: State, c: nat)
    requires Inv(s) && c < |s.calls|
    ensures CallAt(s.calls, s.net, c)
  {
  }

  lemma {:induction false} RunWroteBefore(states: seq<State>, actions: seq<Action>, k: nat, c: nat)
    requires IsRun(states, actions) && k < |states| && c < |states[k].calls|
    ensures WroteBefore(states[k], c)
  {
    if k > 0 {
      var s, a, t := states[k - 1], actions[k - 1], states[k];
      RunInv(states, actions, k - 1);
      RunInv(states, actions, k);
      if OfCalls(a) { CallWrites(s, a, c); } else { OthersWrite(s, a, c); }
      if c < |s.calls| {
        CallsAre(s, c);
        RunWroteBefore(states, actions, k - 1, c);
      }
      StepWroteBefore(s, a, t, c);
    }
  }

  /** A call that fails with its connection has written one request if it may not be sent again, and two if it may. */
  lemma FailedAfter(states: seq<State>, actions: seq<Action>, k: nat, c: nat)
    requires IsRun(states, actions) && k < |actions| && actions[k] == Lose(c) && c < |states[k + 1].calls|
    requires states[k + 1].calls[c].call.status.Ended?
    ensures c < |states[k].calls|
    ensures |RequestsOf(states[k].net.reqs, c)| == if states[k].calls[c].call.resendable then 2 else 1
  {
    var s := states[k];
    assert Enabled(s, actions[k]);
    LoseExactly(s, c);
    RunInv(states, actions, k);
    CallsAre(s, c);
    AtMostTwice(states, actions, k, c);
    RunWroteBefore(states, actions, k, c);
    FailedCount(s, c);
  }

  lemma FailedCount(s: State, c: nat)
    requires c < |s.calls| && CallAt(s.calls, s.net, c) && WroteBefore(s, c) && s.calls[c].req.Some?
    requires !s.calls[c].call.resendable || s.calls[c].call.lostOnce
    ensures |RequestsOf(s.net.reqs, c)| >= if s.calls[c].call.resendable then 2 else 1
  {
    var written, now := RequestsOf(s.net.reqs, c), s.calls[c].req.value;
    assert now in written;
    if s.calls[c].call.lostOnce {
      var r :| 0 <= r < |s.net.reqs| && s.net.reqs[r].origin == OfCall(c) && s.calls[c].req != Some(r);
      assert {r, now} <= written;
      assert written == {r, now} + (written - {r, now});
    }
  }
}
