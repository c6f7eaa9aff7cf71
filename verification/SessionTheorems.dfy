/** What the protocol promises of handles, releases and sends, in every state of every run. */
module SessionTheorems {
  import opened Files
  import opened Machine
  import opened Wire
  import opened Protocol
  import opened WireInvariant
  import opened OrderInvariant
  import opened OrderSteps
  import opened HandleInvariant
  import opened Ordering

  // ---- Counts ----

  /** The counts the fence is read from, and every connection's count of pending cancels, are what the requests say
      they are, through every give-up, loss, resume and takeover. */
  lemma CountsConsistent(states: seq<State>, actions: seq<Action>, k: nat)
    requires IsRun(states, actions) && k < |states|
    ensures Ranged(states[k].net)
    ensures forall i | 0 <= i < |states[k].net.sessions| :: CountsAt(states[k].net, i)
    ensures forall g | 0 <= g < |states[k].net.conns| :: CancelsAt(states[k].net.reqs, states[k].net.conns, g)
  {
    RunInv(states, actions, k);
  }

  lemma AliveAt(n: Net, g: nat)
    requires NetInv(n) && g < |n.conns| && n.conns[g].clientAlive
    ensures g == Gen(n) && n.conns[g].session == Sid(n) && n.conns[g].epoch == n.sessions[Sid(n)].att.epoch
  {
    assert ConnAt(n.conns, n.sessions, g);
  }

  /** A connection the client uses is the newest, and carries its session's current epoch. */
  lemma AliveIsCurrent(states: seq<State>, actions: seq<Action>, k: nat, g: nat)
    requires IsRun(states, actions) && k < |states| && g < |states[k].net.conns| && states[k].net.conns[g].clientAlive
    ensures Ranged(states[k].net)
    ensures g == Gen(states[k].net) && states[k].net.conns[g].session == Sid(states[k].net)
    ensures states[k].net.conns[g].epoch == states[k].net.sessions[Sid(states[k].net)].att.epoch
  {
    RunInv(states, actions, k);
    AliveAt(states[k].net, g);
  }

  // ---- Handles ----

  /** The server holds `fh` in the client's session, or an open of it there can still run. */
  ghost predicate MayBeHeld(s: State, fh: nat)
    requires Ranged(s.net)
  {
    || AtServer(s.net, fh)
    || (exists x | 0 <= x < |s.net.reqs| ::
          s.net.reqs[x].op == OpOpen(fh) && SessionOf(s.net, x) == Sid(s.net) && !Dead(s.net, x))
  }

  /** The client knows of it: it holds it live, owes its release, reopens it, or has not seen the end of its open or
      of the kernel's release of it. */
  ghost predicate AccountedFor(s: State, fh: nat) {
    || s.table.LiveAt(fh)
    || fh in s.table.owed
    || s.round.Pending(fh)
    || Opening(s.calls, fh)
    || (exists c | 0 <= c < |s.calls| :: ReleaseOpen(s.calls, fh, c))
  }

  /** No leaked handle: whatever the server holds for the client's session, or may come to hold from a request already
      written, the client accounts for. */
  lemma NoLeak(states: seq<State>, actions: seq<Action>, k: nat, fh: nat)
    requires IsRun(states, actions) && k < |states|
    ensures Ranged(states[k].net)
    ensures MayBeHeld(states[k], fh) ==> AccountedFor(states[k], fh)
  {
    RunInv(states, actions, k);
    var s := states[k];
    assert FhInv(s, fh);
    if x :| 0 <= x < |s.net.reqs| && s.net.reqs[x].op == OpOpen(fh) && SessionOf(s.net, x) == Sid(s.net) && !Dead(s.net, x) {
      assert ReqFacts(s.net, FactsOf(s, fh), Awaited(s, fh), fh, x);
    }
  }

  /** Nothing is under way at the client: every call has ended, no release is owed, no reopen goes on, and its
      connection is up at the server. */
  predicate Quiescent(s: State) {
    && |s.net.conns| >= 1
    && (forall c | 0 <= c < |s.calls| :: s.calls[c].call.status.Ended?)
    && s.table.owed == map[]
    && s.round.Publishable()
    && s.net.conns[Gen(s.net)].serverAlive
  }

  lemma QuiescentFacts(s: State, fh: nat)
    requires NetInv(s.net) && FhInv(s, fh) && Quiescent(s)
    ensures AtServer(s.net, fh) == s.table.LiveAt(fh) && !FactsOf(s, fh).Covered()
  {
    assert ConnAt(s.net.conns, s.net.sessions, Gen(s.net));
  }

  lemma QuiescentAgrees(s: State)
    requires NetInv(s.net) && HandleInv(s) && Quiescent(s)
    ensures s.net.sessions[Sid(s.net)].handles.Keys == s.table.Live().Keys
  {
    forall fh: nat ensures fh in s.net.sessions[Sid(s.net)].handles <==> fh in s.table.Live() {
      assert FhInv(s, fh);
      QuiescentFacts(s, fh);
    }
  }

  lemma QuiescentOpensOver(s: State, x: nat)
    requires NetInv(s.net) && HandleInv(s) && Quiescent(s) && x < |s.net.reqs|
    requires s.net.reqs[x].op.OpOpen? && SessionOf(s.net, x) == Sid(s.net)
    ensures Dead(s.net, x)
  {
    var fh := s.net.reqs[x].op.fh;
    assert FhInv(s, fh);
    QuiescentFacts(s, fh);
    assert ReqFacts(s.net, FactsOf(s, fh), Awaited(s, fh), fh, x);
  }

  /** Handles agree (S3): at quiescence the server's handles for the client's session are exactly the client's live
      ones, and none will be added by anything still under way. */
  lemma HandlesAgree(states: seq<State>, actions: seq<Action>, k: nat)
    requires IsRun(states, actions) && k < |states| && Quiescent(states[k])
    ensures Ranged(states[k].net)
    ensures states[k].net.sessions[Sid(states[k].net)].handles.Keys == states[k].table.Live().Keys
    ensures forall x | 0 <= x < |states[k].net.reqs| ::
              states[k].net.reqs[x].op.OpOpen? && SessionOf(states[k].net, x) == Sid(states[k].net) ==> Dead(states[k].net, x)
  {
    RunInv(states, actions, k);
    var s := states[k];
    QuiescentAgrees(s);
    forall x | 0 <= x < |s.net.reqs| && s.net.reqs[x].op.OpOpen? && SessionOf(s.net, x) == Sid(s.net)
      ensures Dead(s.net, x)
    {
      QuiescentOpensOver(s, x);
    }
  }

  /** Two opens under one id never run at once: while one is under way, either the id is free at the server, so what
      it opens is kept under it and replaces nothing, or it answers from the handle already there. */
  lemma NeverDuplicate(states: seq<State>, actions: seq<Action>, k: nat, x: nat)
    requires IsRun(states, actions) && k < |states| && x < |states[k].net.reqs|
    requires states[k].net.reqs[x].op.OpOpen? && UnderWay(states[k].net.reqs[x].phase)
    ensures Ranged(states[k].net)
    ensures SessionOf(states[k].net, x) == Sid(states[k].net)
    ensures AtServer(states[k].net, states[k].net.reqs[x].op.fh) ==> states[k].net.reqs[x].kept
  {
    RunInv(states, actions, k);
    OpenAlone(states[k], states[k].net.reqs[x].op.fh, x);
  }

  lemma OpenAlone(s: State, fh: nat, x: nat)
    requires NetInv(s.net) && HandleInv(s) && x < |s.net.reqs| && s.net.reqs[x].op == OpOpen(fh)
    requires UnderWay(s.net.reqs[x].phase)
    ensures SessionOf(s.net, x) == Sid(s.net) && (AtServer(s.net, fh) ==> s.net.reqs[x].kept)
  {
    assert FhInv(s, fh) && ReqAt(s.net, x);
    assert ConnAt(s.net.conns, s.net.sessions, s.net.reqs[x].conn);
    assert ReqFacts(s.net, FactsOf(s, fh), Awaited(s, fh), fh, x);
  }

  // ---- Releases owed ----

  lemma OwedMoves(s: State, fh: nat)
    requires OrderInv(s) && s.net.conns[Gen(s.net)].published && s.net.conns[Gen(s.net)].cancels == 0
    requires fh in s.table.owed
    ensures CanOwedSend(s, fh) || s.table.owed[fh] == Some(Gen(s.net))
  {
    assert OwedAt(s.table.owed, s.net.conns, fh);
  }

  /** No release owed is stuck: on a published connection with no cancel pending, each can be sent now, or is being
      sent on that very connection. */
  lemma OwedNeverStuck(states: seq<State>, actions: seq<Action>, k: nat, fh: nat)
    requires IsRun(states, actions) && k < |states| && |states[k].net.conns| >= 1
    requires states[k].net.conns[Gen(states[k].net)].published && states[k].net.conns[Gen(states[k].net)].cancels == 0
    requires fh in states[k].table.owed
    ensures Enabled(states[k], OwedSend(fh)) || states[k].table.owed[fh] == Some(Gen(states[k].net))
  {
    RunInv(states, actions, k);
    OwedMoves(states[k], fh);
  }

  lemma SentBehindOpenAt(s: State, fh: nat, x: nat)
    requires OrderInv(s) && Enabled(s, OwedSend(fh)) && s.net.conns[Gen(s.net)].clientAlive
    requires x < |s.net.reqs| && s.net.reqs[x].op == OpOpen(fh) && s.net.reqs[x].conn == Gen(s.net)
    ensures Settled(s.net.reqs[x].phase)
  {
    PublishedRoundOver(s);
    assert KnownAt(s.calls, s.table, s.round, fh) && LinkAt(s.calls, s.net, s.reopening, x);
    NothingPending(s, Gen(s.net), x);
  }

  /** Whenever a release owed is sent, nothing that opens its id is unsettled on the connection it goes on. */
  lemma SentBehindItsOpen(states: seq<State>, actions: seq<Action>, k: nat, fh: nat, x: nat)
    requires IsRun(states, actions) && k < |states| && Enabled(states[k], OwedSend(fh))
    requires states[k].net.conns[Gen(states[k].net)].clientAlive && x < |states[k].net.reqs|
    requires states[k].net.reqs[x].op == OpOpen(fh) && states[k].net.reqs[x].conn == Gen(states[k].net)
    ensures Settled(states[k].net.reqs[x].phase)
  {
    RunInv(states, actions, k);
    SentBehindOpenAt(states[k], fh, x);
  }

  /** How a step treats the release owed of `fh` while it is being sent on generation `g`. */
  ghost predicate SendingOn(s: State, fh: nat, g: nat) {
    |s.net.conns| == g + 1 && fh in s.table.owed && s.table.owed[fh] == Some(g)
  }

  /** What becomes of a release being sent on `g`: it goes on, a newer connection comes, or its answer is in. */
  ghost predicate SendingMoves(s: State, a: Action, t: State, fh: nat, g: nat) {
    || SendingOn(t, fh, g)
    || |t.net.conns| > g + 1
    || (fh !in t.table.owed && a.AnswerOwed? && a.r < |s.net.reqs|
        && s.net.reqs[a.r].origin == OwedRelease(fh) && s.net.reqs[a.r].conn == g)
  }

  lemma SendingStaysCalls(s: State, a: Action, fh: nat, g: nat)
    requires Enabled(s, a) && SendingOn(s, fh, g) && OfCalls(a)
    ensures SendingMoves(s, a, Next(s, a), fh, g)
  {
  }

  lemma SendingStaysAnswers(s: State, a: Action, fh: nat, g: nat)
    requires Enabled(s, a) && SendingOn(s, fh, g) && OfAnswers(a)
    ensures SendingMoves(s, a, Next(s, a), fh, g)
  {
    if a.Server? { DeedIsServers(s.net, a.deed); }
  }

  lemma SendingStaysRest(s: State, a: Action, fh: nat, g: nat)
    requires Enabled(s, a) && SendingOn(s, fh, g) && (OfConnections(a) || OfReopens(a))
    ensures SendingMoves(s, a, Next(s, a), fh, g)
  {
  }

  lemma SendingStays(s: State, a: Action, fh: nat, g: nat)
    requires Enabled(s, a) && SendingOn(s, fh, g)
    ensures SendingMoves(s, a, Next(s, a), fh, g)
  {
    if OfCalls(a) { SendingStaysCalls(s, a, fh, g); }
    else if OfAnswers(a) { SendingStaysAnswers(s, a, fh, g); }
    else { SendingStaysRest(s, a, fh, g); }
  }

  lemma ConnsGrow(s: State, a: Action)
    requires Enabled(s, a)
    ensures |Next(s, a).net.conns| >= |s.net.conns|
  {
    if a.Server? { DeedIsServers(s.net, a.deed); }
  }

  /** A release owed is sent at most once on a connection, unless it was settled and owed again in between; and it is
      settled there only by the answer to its own request on that connection. */
  lemma {:induction false} SentOncePerConnection(states: seq<State>, actions: seq<Action>, i: nat, j: nat, fh: nat, g: nat)
    returns (k: nat)
    requires IsRun(states, actions) && i < j < |states| && SendingOn(states[i], fh, g)
    requires |states[j].net.conns| == g + 1 && !SendingOn(states[j], fh, g)
    ensures i <= k < j && actions[k].AnswerOwed? && Enabled(states[k], actions[k])
    ensures states[k].net.reqs[actions[k].r].origin == OwedRelease(fh) && states[k].net.reqs[actions[k].r].conn == g
    ensures fh !in states[k + 1].table.owed
    decreases j - i
  {
    SendingStays(states[i], actions[i], fh, g);
    if SendingOn(states[i + 1], fh, g) {
      k := SentOncePerConnection(states, actions, i + 1, j, fh, g);
    } else {
      ConnsNeverGone(states, actions, i + 1, j);
      k := i;
    }
  }

  lemma {:induction false} ConnsNeverGone(states: seq<State>, actions: seq<Action>, i: nat, j: nat)
    requires IsRun(states, actions) && i <= j < |states|
    ensures |states[i].net.conns| <= |states[j].net.conns|
    decreases j - i
  {
    if i < j {
      ConnsGrow(states[i], actions[i]);
      ConnsNeverGone(states, actions, i + 1, j);
    }
  }

  // ---- Sends ----

  /** The call has been sent on generation `g`, and will not be sent there or on an older one again. */
  predicate Past(call: Call, g: nat) {
    match call.status
    case Waiting => call.minGeneration > g
    case InFlight(h) => h >= g
    case Ended(_) => true
  }

  lemma PastStaysCalls(s: State, a: Action, c: nat, g: nat)
    requires Enabled(s, a) && c < |s.calls| && Past(s.calls[c].call, g) && OfCalls(a)
    ensures c < |Next(s, a).calls| && Past(Next(s, a).calls[c].call, g)
  {
  }

  lemma PastStaysRest(s: State, a: Action, c: nat, g: nat)
    requires Enabled(s, a) && c < |s.calls| && Past(s.calls[c].call, g) && !OfCalls(a)
    ensures c < |Next(s, a).calls| && Past(Next(s, a).calls[c].call, g)
  {
  }

  lemma PastStays(s: State, a: Action, c: nat, g: nat)
    requires Enabled(s, a) && c < |s.calls| && Past(s.calls[c].call, g)
    ensures c < |Next(s, a).calls| && Past(Next(s, a).calls[c].call, g)
  {
    if OfCalls(a) { PastStaysCalls(s, a, c, g); } else { PastStaysRest(s, a, c, g); }
  }

  lemma {:induction false} PastAlong(states: seq<State>, actions: seq<Action>, i: nat, j: nat, c: nat, g: nat)
    requires IsRun(states, actions) && i <= j < |states| && c < |states[i].calls| && Past(states[i].calls[c].call, g)
    ensures c < |states[j].calls| && Past(states[j].calls[c].call, g)
    decreases j - i
  {
    if i < j {
      PastStays(states[i], actions[i], c, g);
      PastAlong(states, actions, i + 1, j, c, g);
    }
  }

  /** A call's successive sends go on strictly newer connections. */
  lemma SendsGoOnNewer(states: seq<State>, actions: seq<Action>, i: nat, j: nat, c: nat, g: nat, h: nat)
    requires IsRun(states, actions) && i < j < |actions| && actions[i] == Send(c, g) && actions[j] == Send(c, h)
    ensures g < h
  {
    assert states[i + 1] == Next(states[i], actions[i]);
    PastAlong(states, actions, i + 1, j, c, g);
  }

  /** A call is only ever in flight on a published connection, has made no more attempts than that connection's
      generation, and a change is sent only with nothing given up on there unanswered. */
  lemma SendDiscipline(states: seq<State>, actions: seq<Action>, k: nat, c: nat)
    requires IsRun(states, actions) && k < |states| && c < |states[k].calls|
    ensures var s, call := states[k], states[k].calls[c].call;
            && (call.status.InFlight? ==>
                  && 1 <= call.status.generation < |s.net.conns|
                  && s.net.conns[call.status.generation].published
                  && call.attempt <= call.status.generation)
            && (call.lostOnce ==> call.resendable)
            && (forall g | CanSend(s, c, g) && call.changes :: CountedSet(s.net.reqs, g) == {})
  {
    RunInv(states, actions, k);
    var s := states[k];
    assert CallAt(s.calls, s.net, c);
    forall g | CanSend(s, c, g) && s.calls[c].call.changes ensures CountedSet(s.net.reqs, g) == {} {
      assert CancelsAt(s.net.reqs, s.net.conns, g);
    }
  }
}
