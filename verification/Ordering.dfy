/** The order of changes over whole runs: no change overtakes one that ended before it started, and a change sent again
    never runs beside its first sending. */
module Ordering {
  import opened Wire
  import opened Protocol
  import opened WireInvariant
  import opened OrderInvariant
  import opened Sends
  import opened HandleInvariant
  import opened HandleSteps

  // ---- Along a run ----

  ghost predicate Path(states: seq<State>) {
    forall i | 0 < i < |states| :: Grows(states[i - 1], states[i])
  }

  ghost predicate Chain(states: seq<State>) {
    Path(states) && (forall i | 0 <= i < |states| :: Inv(states[i]))
  }

  lemma {:induction false} RunInv(states: seq<State>, actions: seq<Action>, i: nat)
    requires IsRun(states, actions) && i < |states|
    ensures Inv(states[i])
    ensures i > 0 ==> Grows(states[i - 1], states[i])
  {
    if i == 0 {
      InitInv();
    } else {
      RunInv(states, actions, i - 1);
      StepKeepsInv(states[i - 1], actions[i - 1]);
    }
  }

  /** Every state of a run satisfies the invariant, and every step only moves on. */
  lemma RunIsChain(states: seq<State>, actions: seq<Action>)
    requires IsRun(states, actions)
    ensures Chain(states)
  {
    forall i | 0 <= i < |states| ensures Inv(states[i]) && (i > 0 ==> Grows(states[i - 1], states[i])) {
      RunInv(states, actions, i);
    }
  }

  /** What has begun stays begun, what can never begin never does, and what has ended stays as it is. */
  lemma {:induction false} PathMoves(states: seq<State>, i: nat, j: nat, r: nat)
    requires Path(states) && i <= j < |states| && r < |states[i].net.reqs| && Ranged(states[i].net)
    ensures r < |states[j].net.reqs| && Ranged(states[j].net)
    ensures states[j].net.reqs[r].origin == states[i].net.reqs[r].origin
    ensures states[j].net.reqs[r].op == states[i].net.reqs[r].op
    ensures states[j].net.reqs[r].conn == states[i].net.reqs[r].conn
    ensures SessionOf(states[j].net, r) == SessionOf(states[i].net, r)
    ensures Terminal(states[i].net.reqs[r].phase) ==> states[j].net.reqs[r].phase == states[i].net.reqs[r].phase
    ensures Begun(states[i].net.reqs[r].phase) ==> Begun(states[j].net.reqs[r].phase)
    ensures Dead(states[i].net, r) && !Begun(states[i].net.reqs[r].phase) ==>
              Dead(states[j].net, r) && !Begun(states[j].net.reqs[r].phase)
    decreases j - i
  {
    if i < j {
      assert Grows(states[i], states[i + 1]);
      assert ReqMoves(states[i].net, states[i + 1].net, r);
      assert ConnMoves(states[i].net, states[i + 1].net, states[i].net.reqs[r].conn);
      PathMoves(states, i + 1, j, r);
    }
  }

  lemma {:induction false} PathGrows(states: seq<State>, i: nat, j: nat)
    requires Path(states) && i <= j < |states|
    ensures |states[i].net.conns| <= |states[j].net.conns|
    decreases j - i
  {
    if i < j {
      assert Grows(states[i], states[i + 1]);
      PathGrows(states, i + 1, j);
    }
  }

  /** A request was written at some step, on the newest connection there was then. */
  lemma {:induction false} WrittenWhen(states: seq<State>, i: nat, j: nat, r: nat) returns (k: nat)
    requires Path(states) && i <= j < |states| && |states[i].net.reqs| <= r < |states[j].net.reqs|
    ensures i < k <= j && |states[k - 1].net.reqs| <= r < |states[k].net.reqs|
    ensures WritesFor(states[k - 1], states[k], r) && !Begun(states[k].net.reqs[r].phase)
    decreases j - i
  {
    assert Grows(states[i], states[i + 1]);
    if r < |states[i + 1].net.reqs| {
      k := i + 1;
    } else {
      k := WrittenWhen(states, i + 1, j, r);
    }
  }

  lemma {:induction false} EndedStays(states: seq<State>, i: nat, j: nat, c: nat)
    requires Path(states) && i <= j < |states| && c < |states[i].calls| && states[i].calls[c].call.status.Ended?
    ensures c < |states[j].calls| && states[j].calls[c].call.status.Ended?
    decreases j - i
  {
    if i < j {
      assert Grows(states[i], states[i + 1]);
      EndedStays(states, i + 1, j, c);
    }
  }

  /** A call that has ended writes no more requests. */
  lemma EndedWritesNothing(states: seq<State>, i: nat, j: nat, c: nat, r: nat)
    requires Path(states) && i <= j < |states|
    requires c < |states[i].calls| && states[i].calls[c].call.status.Ended?
    requires r < |states[j].net.reqs| && states[j].net.reqs[r].origin == OfCall(c)
    ensures r < |states[i].net.reqs|
  {
    if r >= |states[i].net.reqs| {
      var k := WrittenWhen(states, i, j, r);
      EndedStays(states, i, k - 1, c);
      assert Grows(states[k - 1], states[k]);
      PathMoves(states, k, j, r);
    }
  }

  /** `r` begins in the step to state `j`. */
  ghost predicate BeginsAt(states: seq<State>, j: nat, r: nat) {
    && 0 < j < |states|
    && r < |states[j].net.reqs| && Begun(states[j].net.reqs[r].phase)
    && (r < |states[j - 1].net.reqs| ==> !Begun(states[j - 1].net.reqs[r].phase))
  }

  ghost predicate RunsAt(states: seq<State>, i: nat, r: nat) {
    i < |states| && r < |states[i].net.reqs| && Begun(states[i].net.reqs[r].phase)
  }

  ghost predicate FinishedBy(s: State, r: nat) {
    r < |s.net.reqs| && s.net.reqs[r].phase.Finished?
  }

  /** If, as `rb` begins, `ra` is over or can never run, then `ra`, if it ever runs, had finished before. */
  lemma FinishedBefore(states: seq<State>, j: nat, rb: nat, i: nat, ra: nat)
    requires Chain(states) && BeginsAt(states, j, rb) && RunsAt(states, i, ra) && ra != rb
    requires ra < |states[j].net.reqs| && Ranged(states[j].net) && Dead(states[j].net, ra)
    ensures FinishedBy(states[j - 1], ra)
  {
    var s, t := states[j - 1], states[j];
    assert Grows(s, t) && Inv(states[i]);
    if i <= j { PathMoves(states, i, j, ra); } else { PathMoves(states, j, i, ra); }
    assert t.net.reqs[ra].phase.Finished?;
    assert OneMoves(s.net, t.net, ra, rb);
  }

  // ---- No overtaking ----

  /** Request `ra`, as `s` has it, is of a change that had ended when the change of request `rb`, as `t` has it,
      started. */
  ghost predicate StartedAfter(s: State, t: State, ra: nat, rb: nat) {
    && ra < |s.net.reqs| && s.net.reqs[ra].origin.OfCall? && s.net.reqs[ra].op.Changes()
    && rb < |t.net.reqs| && t.net.reqs[rb].origin.OfCall? && t.net.reqs[rb].op.Changes()
    && t.net.reqs[rb].origin.c < |t.calls|
    && s.net.reqs[ra].origin.c in t.calls[t.net.reqs[rb].origin.c].after
  }

  lemma ChainNoOvertaking(states: seq<State>, j: nat, rb: nat, i: nat, ra: nat)
    requires Chain(states) && BeginsAt(states, j, rb) && RunsAt(states, i, ra)
    requires StartedAfter(states[i], states[j], ra, rb)
    ensures FinishedBy(states[j - 1], ra)
  {
    var t := states[j];
    var a, b := states[i].net.reqs[ra].origin.c, t.net.reqs[rb].origin.c;
    assert Inv(t) && Inv(states[i]);
    assert CallAt(t.calls, t.net, b);
    if i > j { EndedWritesNothing(states, j, i, a, ra); PathMoves(states, j, i, ra); } else { PathMoves(states, i, j, ra); }
    BegunMeansBefore(t, ra, rb);
    FinishedBefore(states, j, rb, i, ra);
  }

  /** No overtaking (S1, and across the client's sessions S1strong): in any run, when a request of a change begins,
      every request that ever runs, before or after, of a change that had ended when this one started, has finished. */
  lemma NoOvertaking(states: seq<State>, actions: seq<Action>, j: nat, rb: nat, i: nat, ra: nat)
    requires IsRun(states, actions) && BeginsAt(states, j, rb) && RunsAt(states, i, ra)
    requires StartedAfter(states[i], states[j], ra, rb)
    ensures FinishedBy(states[j - 1], ra)
  {
    RunIsChain(states, actions);
    ChainNoOvertaking(states, j, rb, i, ra);
  }

  // ---- Resends ----

  /** Bounded repeats (S2): a call writes at most two requests in all, and two only if its reply may be asked for
      again and was lost once. */
  lemma AtMostTwice(states: seq<State>, actions: seq<Action>, i: nat, c: nat)
    requires IsRun(states, actions) && i < |states| && c < |states[i].calls|
    ensures var written := RequestsOf(states[i].net.reqs, c);
            |written| <= 2 && (|written| == 2 ==> states[i].calls[c].call.resendable && states[i].calls[c].call.lostOnce)
  {
    RunInv(states, actions, i);
    assert BoundAt(states[i].calls, states[i].net.reqs, c) && CallAt(states[i].calls, states[i].net, c);
  }

  /** As a change sent again has begun, its first sending is over or can never run. */
  lemma ResendFindsDead(t: State, again: nat, first: nat)
    requires OrderInv(t) && first < |t.net.reqs| && again < |t.net.reqs| && Begun(t.net.reqs[again].phase)
    requires t.net.reqs[again].op.Changes() && t.net.reqs[again].origin.OfCall?
    requires t.net.reqs[first].origin == t.net.reqs[again].origin && t.net.reqs[first].conn < t.net.reqs[again].conn
    ensures Dead(t.net, first)
  {
    assert LinkAt(t.calls, t.net, t.reopening, first) && LinkAt(t.calls, t.net, t.reopening, again);
    assert OrderAt(t.net, first, again) && ReqAt(t.net, first);
    assert ConnsAt(t.net.conns, t.net.reqs[first].conn, t.net.reqs[again].conn);
    assert ConnAt(t.net.conns, t.net.sessions, t.net.reqs[again].conn);
  }

  /** A change sent again begins only once its first sending, if it ever runs, has finished. */
  lemma ResendWaits(states: seq<State>, actions: seq<Action>, j: nat, again: nat, i: nat, first: nat)
    requires IsRun(states, actions) && BeginsAt(states, j, again) && RunsAt(states, i, first)
    requires first < |states[j].net.reqs|
    requires states[j].net.reqs[again].op.Changes() && states[j].net.reqs[again].origin.OfCall?
    requires states[j].net.reqs[first].origin == states[j].net.reqs[again].origin
    requires states[j].net.reqs[first].conn < states[j].net.reqs[again].conn
    ensures FinishedBy(states[j - 1], first)
  {
    RunIsChain(states, actions);
    assert Inv(states[j]);
    ResendFindsDead(states[j], again, first);
    FinishedBefore(states, j, again, i, first);
  }

  // ---- Releases owed ----

  /** What the release of an id and an open of it have to do with each other, wherever in the run each is looked at. */
  ghost predicate ReleaseOf(s: State, open: nat, t: State, release: nat) {
    && Ranged(s.net) && Ranged(t.net) && open < |s.net.reqs| && release < |t.net.reqs|
    && t.net.reqs[release].origin.OwedRelease?
    && s.net.reqs[open].op == OpOpen(t.net.reqs[release].origin.fh)
    && SessionOf(s.net, open) == SessionOf(t.net, release)
  }

  /** An open that runs after the release of its id has begun was written before. */
  lemma NoLateOpen(states: seq<State>, j: nat, release: nat, i: nat, open: nat)
    requires Chain(states) && j <= i && RunsAt(states, j, release) && RunsAt(states, i, open)
    requires ReleaseOf(states[i], open, states[j], release)
    ensures open < |states[j].net.reqs|
  {
    if open >= |states[j].net.reqs| {
      var k := WrittenWhen(states, j, i, open);
      assert Grows(states[k - 1], states[k]) && Inv(states[k]);
      PathGrows(states, j, k - 1);
      PathMoves(states, j, k, release);
      PathMoves(states, k, i, open);
      LateOpenNeverRuns(states[k], open, release);
    }
  }

  lemma ChainReleaseWaits(states: seq<State>, j: nat, release: nat, i: nat, open: nat)
    requires Chain(states) && BeginsAt(states, j, release) && RunsAt(states, i, open)
    requires ReleaseOf(states[i], open, states[j], release)
    ensures FinishedBy(states[j - 1], open)
  {
    var t := states[j];
    assert Inv(t);
    if i <= j {
      PathMoves(states, i, j, open);
    } else {
      NoLateOpen(states, j, release, i, open);
      PathMoves(states, j, i, open);
    }
    assert LinkAt(t.calls, t.net, t.reopening, release);
    BegunMeansBefore(t, open, release);
    FinishedBefore(states, j, release, i, open);
  }

  /** An open not begun, on a connection no older than that of a release of its id that has begun, never begins. */
  lemma LateOpenNeverRuns(s: State, open: nat, release: nat)
    requires OrderInv(s) && open < |s.net.reqs| && release < |s.net.reqs|
    requires s.net.reqs[release].origin.OwedRelease? && s.net.reqs[open].op == OpOpen(s.net.reqs[release].origin.fh)
    requires SessionOf(s.net, open) == SessionOf(s.net, release) && Begun(s.net.reqs[release].phase)
    requires s.net.reqs[open].conn >= s.net.reqs[release].conn && !Begun(s.net.reqs[open].phase)
    ensures Terminal(s.net.reqs[open].phase)
  {
    assert LinkAt(s.calls, s.net, s.reopening, release) && BehindAt(s.calls, s.net, open, release);
  }

  /** An owed release never overtakes an open of its id: in any run, when the release the client owes of an id begins,
      every open or reopen of that id that ever runs in that session, before or after, has finished. */
  lemma ReleaseNeverOvertakes(states: seq<State>, actions: seq<Action>, j: nat, release: nat, i: nat, open: nat)
    requires IsRun(states, actions) && BeginsAt(states, j, release) && RunsAt(states, i, open)
    requires ReleaseOf(states[i], open, states[j], release)
    ensures FinishedBy(states[j - 1], open)
  {
    RunIsChain(states, actions);
    ChainReleaseWaits(states, j, release, i, open);
  }
}
