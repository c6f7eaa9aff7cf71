/** Which opening an id stands for: a handle the client holds is, at the server, the one that the request it expects it
    from opened, or an earlier attempt of the same call. No other request's handle ever takes its place. */
module HandleIdentity {
  import opened Files
  import opened Machine
  import opened Wire
  import opened Protocol
  import opened WireInvariant
  import opened OrderInvariant
  import opened OrderSteps
  import opened HandleInvariant
  import opened Ordering

  // ---- Where the server's handles come from ----

  /** What session `i` holds under an id was opened by a request of that session for that id. */
  ghost predicate EntryAt(n: Net, i: nat, fh: nat)
    requires Ranged(n) && i < |n.sessions|
  {
    fh in n.sessions[i].handles ==>
      var r := n.sessions[i].handles[fh];
      r < |n.reqs| && n.reqs[r].op == OpOpen(fh) && SessionOf(n, r) == i
  }

  /** What session `i` holds under `fh` it held before. */
  ghost predicate HeldBefore(n: Net, m: Net, i: nat, fh: nat)
    requires i < |n.sessions| && i < |m.sessions|
  {
    fh in m.sessions[i].handles ==>
      fh in n.sessions[i].handles && m.sessions[i].handles[fh] == n.sessions[i].handles[fh]
  }

  lemma EntryMoves(n: Net, m: Net, i: nat, fh: nat)
    requires Moves(n, m) && i < |n.sessions| && EntryAt(n, i, fh) && HeldBefore(n, m, i, fh)
    ensures EntryAt(m, i, fh)
  {
    if fh in m.sessions[i].handles {
      var r := n.sessions[i].handles[fh];
      assert ReqMoves(n, m, r) && ConnMoves(n, m, n.reqs[r].conn);
    }
  }

  /** Only an open that finishes adds a handle, its own. */
  lemma FinishAdds(n: Net, r: nat, errno: bool, i: nat, fh: nat)
    requires Ranged(n) && r < |n.reqs| && CanFinish(n, r, errno) && i < |n.sessions|
    ensures var m := DoneWith(n, r, errno);
      || HeldBefore(n, m, i, fh)
      || (SessionOf(n, r) == i && n.reqs[r].op == OpOpen(fh) && m.sessions[i].handles[fh] == r)
  {
  }

  lemma OthersAddNone(n: Net, d: Deed, i: nat, fh: nat)
    requires Ranged(n) && Can(n, d) && !d.Finish? && i < |n.sessions|
    ensures |Done(n, d).sessions| == |n.sessions| && HeldBefore(n, Done(n, d), i, fh)
  {
  }

  lemma DeedKeepsEntry(n: Net, m: Net, d: Deed, i: nat, fh: nat)
    requires Ranged(n) && Can(n, d) && m == Done(n, d) && Moves(n, m) && i < |n.sessions| && EntryAt(n, i, fh)
    ensures EntryAt(m, i, fh)
  {
    if d.Finish? {
      FinishAdds(n, d.r, d.errno, i, fh);
      assert ReqMoves(n, m, d.r) && ConnMoves(n, m, n.reqs[d.r].conn);
    } else {
      OthersAddNone(n, d, i, fh);
    }
    if HeldBefore(n, m, i, fh) {
      EntryMoves(n, m, i, fh);
    }
  }

  lemma ClientAddsNone(s: State, a: Action, i: nat, fh: nat)
    requires Enabled(s, a) && !a.Server? && i < |Next(s, a).net.sessions|
    ensures if i < |s.net.sessions| then HeldBefore(s.net, Next(s, a).net, i, fh)
            else Next(s, a).net.sessions[i].handles == map[]
  {
  }

  lemma StepKeepsEntry(s: State, a: Action, i: nat, fh: nat)
    requires Enabled(s, a) && Grows(s, Next(s, a)) && i < |Next(s, a).net.sessions|
    requires i < |s.net.sessions| ==> EntryAt(s.net, i, fh)
    ensures EntryAt(Next(s, a).net, i, fh)
  {
    if a.Server? {
      DeedIsServers(s.net, a.deed);
      DeedKeepsEntry(s.net, Next(s, a).net, a.deed, i, fh);
    } else {
      ClientAddsNone(s, a, i, fh);
      if i < |s.net.sessions| {
        EntryMoves(s.net, Next(s, a).net, i, fh);
      }
    }
  }

  // ---- The opens of an id in one session ----

  /** An open of `fh` in the client's session. */
  predicate OpensNow(n: Net, fh: nat, y: nat)
    requires Ranged(n)
  {
    y < |n.reqs| && n.reqs[y].op == OpOpen(fh) && SessionOf(n, y) == Sid(n)
  }

  /** While its reopen is to come or goes on, nothing else opens an id. */
  ghost predicate ReopenedAlone(s: State, fh: nat)
    requires Ranged(s.net)
  {
    s.round.Pending(fh) ==> forall y: nat | OpensNow(s.net, fh, y) :: s.net.reqs[y].origin == Reopen(fh)
  }

  /** The request that the client expects `fh` from is `x`: whatever opens it in the session is that, or another attempt of
      the same call. */
  ghost predicate Expects(s: State, fh: nat, x: Option<nat>)
    requires Ranged(s.net)
  {
    s.table.LiveAt(fh) ==>
      && x.Some? && x.value < |s.net.reqs| && s.net.reqs[x.value].op == OpOpen(fh)
      && forall y: nat | OpensNow(s.net, fh, y) :: s.net.reqs[y].origin == s.net.reqs[x.value].origin
  }

  /** The request whose answer the client keeps the handle for, or the reopen written since. */
  function Expecting(s: State, a: Action, fh: nat, x: Option<nat>): Option<nat>
    requires Enabled(s, a)
  {
    match a
    case AnswerCall(r, _, _) => if s.net.reqs[r].origin == OfCall(fh) then Some(r) else x
    case ReopenWrite(f0) => if f0 == fh then Some(|s.net.reqs|) else x
    case _ => x
  }

  /** A step that writes no request, and adds no handle to the table. */
  lemma ExpectsStill(s: State, t: State, fh: nat, x: Option<nat>)
    requires Moves(s.net, t.net) && |t.net.reqs| == |s.net.reqs| && |t.net.sessions| == |s.net.sessions|
    requires Expects(s, fh, x) && ReopenedAlone(s, fh)
    requires t.table.LiveAt(fh) ==> s.table.LiveAt(fh)
    requires t.round.Pending(fh) ==> s.round.Pending(fh)
    ensures Expects(t, fh, x) && ReopenedAlone(t, fh)
  {
    forall y: nat | OpensNow(t.net, fh, y) ensures OpensNow(s.net, fh, y) && t.net.reqs[y].origin == s.net.reqs[y].origin {
      assert ReqMoves(s.net, t.net, y) && ConnMoves(s.net, t.net, s.net.reqs[y].conn);
    }
    if x.Some? && x.value < |s.net.reqs| {
      assert ReqMoves(s.net, t.net, x.value);
    }
  }

  /** One request more, on the newest connection. */
  lemma ExpectsBeside(s: State, t: State, fh: nat, x: Option<nat>)
    requires Moves(s.net, t.net) && |t.net.reqs| == |s.net.reqs| + 1 && |t.net.sessions| == |s.net.sessions|
    requires t.table.LiveAt(fh) ==> s.table.LiveAt(fh)
    requires t.round == s.round
    requires Expects(s, fh, x) && ReopenedAlone(s, fh)
    requires s.table.LiveAt(fh) || s.round.Pending(fh) ==> t.net.reqs[|s.net.reqs|].op != OpOpen(fh)
    ensures Expects(t, fh, x) && ReopenedAlone(t, fh)
  {
    forall y: nat | OpensNow(t.net, fh, y) && y < |s.net.reqs|
      ensures OpensNow(s.net, fh, y) && t.net.reqs[y].origin == s.net.reqs[y].origin
    {
      assert ReqMoves(s.net, t.net, y) && ConnMoves(s.net, t.net, s.net.reqs[y].conn);
    }
    if x.Some? && x.value < |s.net.reqs| {
      assert ReqMoves(s.net, t.net, x.value);
    }
  }

  lemma WriteExpects(s: State, c: nat, fh: nat, x: Option<nat>)
    requires OrderInv(s) && CanWrite(s, c) && Moves(s.net, DoWrite(s, c).net)
    requires Expects(s, fh, x) && ReopenedAlone(s, fh)
    ensures Expects(DoWrite(s, c), fh, x) && ReopenedAlone(DoWrite(s, c), fh)
  {
    assert KnownAt(s.calls, s.table, s.round, fh);
    ExpectsBeside(s, DoWrite(s, c), fh, x);
  }

  lemma OwedWriteExpects(s: State, f0: nat, fh: nat, x: Option<nat>)
    requires Ranged(s.net) && CanOwedWrite(s, f0) && Moves(s.net, DoOwedWrite(s, f0).net)
    requires Expects(s, fh, x) && ReopenedAlone(s, fh)
    ensures Expects(DoOwedWrite(s, f0), fh, x) && ReopenedAlone(DoOwedWrite(s, f0), fh)
  {
    ExpectsBeside(s, DoOwedWrite(s, f0), fh, x);
  }

  /** A reopen is written, and expected from then on. */
  lemma ReopenWriteExpects(s: State, f0: nat, fh: nat, x: Option<nat>)
    requires Ranged(s.net) && CanReopenWrite(s, f0) && Moves(s.net, DoReopenWrite(s, f0).net)
    requires Expects(s, fh, x) && ReopenedAlone(s, fh)
    ensures Expects(DoReopenWrite(s, f0), fh, if f0 == fh then Some(|s.net.reqs|) else x)
    ensures ReopenedAlone(DoReopenWrite(s, f0), fh)
  {
    var t := DoReopenWrite(s, f0);
    if f0 != fh {
      ExpectsBeside(s, t, fh, x);
    } else {
      forall y: nat | OpensNow(t.net, fh, y) ensures t.net.reqs[y].origin == Reopen(fh) {
        if y < |s.net.reqs| {
          assert ReqMoves(s.net, t.net, y) && ConnMoves(s.net, t.net, s.net.reqs[y].conn);
          assert OpensNow(s.net, fh, y);
        }
      }
    }
  }

  /** An open is answered, and its handle kept: nothing but its call has opened the id. */
  lemma AnswerExpects(s: State, r: nat, result: CallResult, refused: bool, fh: nat, x: Option<nat>)
    requires OrderInv(s) && CanAnswerCall(s, r, result) && Moves(s.net, DoAnswerCall(s, r, result, refused).net)
    requires Expects(s, fh, x) && ReopenedAlone(s, fh)
    ensures var t := DoAnswerCall(s, r, result, refused);
      && Expects(t, fh, if s.net.reqs[r].origin == OfCall(fh) then Some(r) else x)
      && ReopenedAlone(t, fh)
  {
    var t := DoAnswerCall(s, r, result, refused);
    var c := s.net.reqs[r].origin.c;
    assert LinkAt(s.calls, s.net, s.reopening, r) && KnownAt(s.calls, s.table, s.round, fh);
    if c != fh {
      ExpectsStill(s, t, fh, x);
    } else {
      AnsweredAlone(s, c);
    }
  }

  lemma AnsweredAlone(s: State, c: nat)
    requires OrderInv(s) && c < |s.calls| && !s.calls[c].call.status.Ended?
    ensures forall y: nat | OpensNow(s.net, c, y) :: s.net.reqs[y].origin == OfCall(c)
  {
    forall y: nat | OpensNow(s.net, c, y) ensures s.net.reqs[y].origin == OfCall(c) {
      assert LinkAt(s.calls, s.net, s.reopening, y);
    }
  }

  /** A new session has no request yet. */
  lemma NewSessionExpects(s: State, rootChanged: bool, fh: nat, x: Option<nat>)
    requires Ranged(s.net) && Expects(s, fh, x)
    ensures Ranged(DoNewSession(s, rootChanged).net)
    ensures Expects(DoNewSession(s, rootChanged), fh, x) && ReopenedAlone(DoNewSession(s, rootChanged), fh)
  {
  }

  predicate Frames(a: Action) {
    !a.Write? && !a.AnswerCall? && !a.NewSession? && !a.ReopenWrite? && !a.OwedWrite?
  }

  lemma CallFrames(s: State, a: Action, fh: nat)
    requires Enabled(s, a) && Frames(a) && OfCalls(a)
    ensures var t := Next(s, a);
      && |t.net.reqs| == |s.net.reqs| && |t.net.sessions| == |s.net.sessions|
      && (t.table.LiveAt(fh) ==> s.table.LiveAt(fh)) && (t.round.Pending(fh) ==> s.round.Pending(fh))
  {
  }

  lemma AnswerFrames(s: State, a: Action, fh: nat)
    requires Enabled(s, a) && Frames(a) && OfAnswers(a)
    ensures var t := Next(s, a);
      && |t.net.reqs| == |s.net.reqs| && |t.net.sessions| == |s.net.sessions|
      && (t.table.LiveAt(fh) ==> s.table.LiveAt(fh)) && (t.round.Pending(fh) ==> s.round.Pending(fh))
  {
    if a.Server? {
      DeedIsServers(s.net, a.deed);
    }
  }

  lemma RestFrames(s: State, a: Action, fh: nat)
    requires Enabled(s, a) && Frames(a) && (OfConnections(a) || OfReopens(a))
    ensures var t := Next(s, a);
      && |t.net.reqs| == |s.net.reqs| && |t.net.sessions| == |s.net.sessions|
      && (t.table.LiveAt(fh) ==> s.table.LiveAt(fh)) && (t.round.Pending(fh) ==> s.round.Pending(fh))
  {
  }

  lemma FrameExpects(s: State, a: Action, t: State, fh: nat, x: Option<nat>)
    requires Enabled(s, a) && Frames(a) && t == Next(s, a) && Moves(s.net, t.net)
    requires Expects(s, fh, x) && ReopenedAlone(s, fh)
    ensures Expects(t, fh, x) && ReopenedAlone(t, fh)
  {
    if OfCalls(a) { CallFrames(s, a, fh); }
    else if OfAnswers(a) { AnswerFrames(s, a, fh); }
    else { RestFrames(s, a, fh); }
    ExpectsStill(s, t, fh, x);
  }

  lemma StepExpects(s: State, a: Action, t: State, fh: nat, x: Option<nat>)
    requires OrderInv(s) && Enabled(s, a) && t == Next(s, a) && Moves(s.net, t.net)
    requires Expects(s, fh, x) && ReopenedAlone(s, fh)
    ensures Expects(t, fh, Expecting(s, a, fh, x)) && ReopenedAlone(t, fh)
  {
    if Frames(a) { FrameExpects(s, a, t, fh, x); }
    else if a.Write? { WriteExpects(s, a.c, fh, x); }
    else if a.AnswerCall? { AnswerExpects(s, a.r, a.result, a.refused, fh, x); }
    else if a.NewSession? { NewSessionExpects(s, a.rootChanged, fh, x); }
    else if a.ReopenWrite? { ReopenWriteExpects(s, a.fh, fh, x); }
    else { OwedWriteExpects(s, a.fh, fh, x); }
  }

  // ---- Along a run ----

  /** The request the client expects `fh` from after `k` steps. */
  function Expected(states: seq<State>, actions: seq<Action>, k: nat, fh: nat): Option<nat>
    requires IsRun(states, actions) && k < |states|
  {
    if k == 0 then None else Expecting(states[k - 1], actions[k - 1], fh, Expected(states, actions, k - 1, fh))
  }

  lemma {:induction false} RunExpects(states: seq<State>, actions: seq<Action>, k: nat, fh: nat)
    requires IsRun(states, actions) && k < |states|
    ensures Ranged(states[k].net)
    ensures Expects(states[k], fh, Expected(states, actions, k, fh)) && ReopenedAlone(states[k], fh)
    ensures forall i: nat | i < |states[k].net.sessions| :: EntryAt(states[k].net, i, fh)
  {
    if k > 0 {
      RunExpects(states, actions, k - 1, fh);
      RunInv(states, actions, k - 1);
      RunInv(states, actions, k);
      StepExpects(states[k - 1], actions[k - 1], states[k], fh, Expected(states, actions, k - 1, fh));
      forall i: nat | i < |states[k].net.sessions| ensures EntryAt(states[k].net, i, fh) {
        StepKeepsEntry(states[k - 1], actions[k - 1], i, fh);
      }
    }
  }

  /** Identity (S3): whatever the client holds under an id, the server's entry for it in the client's session was opened by
      the request it is expected from, or by another attempt of the same call. */
  lemma NeverReplaced(states: seq<State>, actions: seq<Action>, k: nat, fh: nat)
    requires IsRun(states, actions) && k < |states| && states[k].table.LiveAt(fh) && AtServer(states[k].net, fh)
    ensures var n, expected := states[k].net, Expected(states, actions, k, fh);
      var entry := n.sessions[Sid(n)].handles[fh];
      && expected.Some? && expected.value < |n.reqs| && entry < |n.reqs|
      && n.reqs[entry].op == n.reqs[expected.value].op == OpOpen(fh)
      && n.reqs[entry].origin == n.reqs[expected.value].origin
  {
    RunExpects(states, actions, k, fh);
    var n := states[k].net;
    assert EntryAt(n, Sid(n), fh);
    assert OpensNow(n, fh, n.sessions[Sid(n)].handles[fh]);
  }
}
