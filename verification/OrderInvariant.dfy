/** What every step of the protocol keeps of the calls, and of the order of their changes at the server. */
module OrderInvariant {
  import opened Files
  import opened Handles
  import opened Wire
  import opened Protocol
  import opened WireInvariant

  // ---- The calls and their requests ----

  ghost predicate CallAt(calls: seq<CallRec>, n: Net, c: nat)
    requires c < |calls|
  {
    var k := calls[c];
    var status := k.call.status;
    && k.call.changes == OpOf(k.kind, c).Changes()
    && (k.kind.Release? || k.call.lostOnce ==> k.call.resendable)
    && (k.kind.Release? ==> HasOpened(calls, k.kind.fh))
    && (status.InFlight? ==> && 1 <= status.generation < |n.conns|
                             && n.conns[status.generation].published
                             && k.call.minGeneration <= status.generation
                             && k.call.attempt <= status.generation)
    && (status.Waiting? ==> k.call.attempt == 0 || k.call.attempt < k.call.minGeneration <= |n.conns|)
    && (k.req.Some? ==> && status.InFlight?
                        && k.req.value < |n.reqs|
                        && n.reqs[k.req.value].origin == OfCall(c)
                        && n.reqs[k.req.value].conn == status.generation
                        && !n.reqs[k.req.value].givenUp)
    && (forall a | a in k.after :: a < c && calls[a].call.status.Ended?)
  }

  /** Whoever sent request `r` still waits for its answer, or lost its connection, or the request is unordered, or it
      is counted on its connection, or the server's word on it is in. */
  ghost predicate LinkAt(calls: seq<CallRec>, n: Net, reopening: map<nat, nat>, r: nat)
    requires Ranged(n) && r < |n.reqs|
  {
    var q := n.reqs[r];
    match q.origin
    case OfCall(c) =>
      && c < |calls|
      && q.op == OpOf(calls[c].kind, c)
      && n.conns[q.conn].published
      && (calls[c].req == Some(r) || !n.conns[q.conn].clientAlive || !q.op.Changes() || q.counted || Settled(q.phase))
    case Reopen(fh) =>
      && q.op == OpOpen(fh)
      && HasOpened(calls, fh)
      && ((fh in reopening && reopening[fh] == r) || !n.conns[q.conn].clientAlive || q.counted || Settled(q.phase))
    case OwedRelease(fh) =>
      q.op == OpRelease(fh, true) && HasOpened(calls, fh) && n.conns[q.conn].published
  }

  /** `fh` is the id of an open that has ended. */
  predicate HasOpened(calls: seq<CallRec>, fh: nat) {
    fh < |calls| && calls[fh].kind.Open? && calls[fh].call.status.Ended?
  }

  /** Only the ids of opens that have ended are held, owed, or reopened. */
  ghost predicate KnownAt(calls: seq<CallRec>, table: Table, round: Round, fh: nat) {
    fh in table.held || fh in table.owed || round.Pending(fh) ==> HasOpened(calls, fh)
  }

  // ---- The order ----

  /** Request `y` comes after request `x`: its call started once the other's had ended, or it is the release the
      client owes of the id the other opens. */
  predicate After(calls: seq<CallRec>, n: Net, x: nat, y: nat)
    requires Ranged(n) && x < |n.reqs| && y < |n.reqs|
  {
    && n.reqs[x].op.Changes()
    && n.reqs[y].op.Changes()
    && match n.reqs[y].origin
       case OfCall(b) => b < |calls| && n.reqs[x].origin.OfCall? && n.reqs[x].origin.c in calls[b].after
       case OwedRelease(fh) => n.reqs[x].op == OpOpen(fh) && SessionOf(n, x) == SessionOf(n, y)
       case Reopen(_) => false
  }

  ghost predicate BehindAt(calls: seq<CallRec>, n: Net, x: nat, y: nat)
    requires Ranged(n) && x < |n.reqs| && y < |n.reqs|
  {
    After(calls, n, x, y) ==>
      || n.reqs[x].conn < n.reqs[y].conn
      || (n.reqs[x].conn == n.reqs[y].conn && Settled(n.reqs[x].phase)
          && (Advanced(n, y) ==> Terminal(n.reqs[x].phase)))
  }

  /** A change about to be written on a connection has nothing before it unsettled there. */
  ghost predicate CallBehind(calls: seq<CallRec>, n: Net, c: nat, x: nat)
    requires Ranged(n) && c < |calls| && x < |n.reqs|
  {
    && calls[c].call.status.InFlight?
    && calls[c].call.changes
    && calls[c].call.status.generation < |n.conns|
    && n.conns[calls[c].call.status.generation].clientAlive
    && n.reqs[x].op.Changes()
    && n.reqs[x].origin.OfCall? && n.reqs[x].origin.c in calls[c].after
    ==> n.reqs[x].conn < calls[c].call.status.generation || Settled(n.reqs[x].phase)
  }

  ghost predicate OwedBehind(owed: map<nat, Option<nat>>, n: Net, fh: nat, x: nat)
    requires Ranged(n) && x < |n.reqs|
  {
    && fh in owed && owed[fh].Some? && owed[fh].value < |n.conns|
    && n.conns[owed[fh].value].clientAlive
    && n.reqs[x].op == OpOpen(fh)
    && SessionOf(n, x) == n.conns[owed[fh].value].session
    ==> n.reqs[x].conn < owed[fh].value || Settled(n.reqs[x].phase)
  }

  /** A release is sent only on the newest connection, once published. */
  ghost predicate OwedAt(owed: map<nat, Option<nat>>, conns: seq<Conn>, fh: nat) {
    fh in owed && owed[fh].Some? ==>
      |conns| >= 2 && owed[fh].value == |conns| - 1 && conns[|conns| - 1].published
  }

  // ---- The round ----

  ghost predicate ReopenAt(n: Net, round: Round, reopening: map<nat, nat>, fh: nat)
  {
    fh in reopening ==>
      && fh in round.sending
      && reopening[fh] < |n.reqs|
      && n.reqs[reopening[fh]].origin == Reopen(fh)
      && n.reqs[reopening[fh]].conn == |n.conns| - 1
      && !n.reqs[reopening[fh]].givenUp
  }

  /** A round goes on only before its connection, the first of its session, is published. */
  ghost predicate RoundAt(n: Net, round: Round) {
    !round.Publishable() ==>
      && |n.conns| >= 2
      && !n.conns[|n.conns| - 1].published
      && (forall g | 0 <= g < |n.conns| - 1 :: n.conns[g].session < |n.sessions| - 1)
  }

  ghost predicate OrderInv(s: State) {
    && NetInv(s.net)
    && (forall c | 0 <= c < |s.calls| :: CallAt(s.calls, s.net, c))
    && (forall r | 0 <= r < |s.net.reqs| :: LinkAt(s.calls, s.net, s.reopening, r))
    && (forall x, y | 0 <= x < |s.net.reqs| && 0 <= y < |s.net.reqs| :: BehindAt(s.calls, s.net, x, y))
    && (forall c, x | 0 <= c < |s.calls| && 0 <= x < |s.net.reqs| :: CallBehind(s.calls, s.net, c, x))
    && (forall fh: nat, x | 0 <= x < |s.net.reqs| :: OwedBehind(s.table.owed, s.net, fh, x))
    && (forall fh: nat :: OwedAt(s.table.owed, s.net.conns, fh))
    && (forall fh: nat :: KnownAt(s.calls, s.table, s.round, fh))
    && (forall fh: nat :: ReopenAt(s.net, s.round, s.reopening, fh))
    && RoundAt(s.net, s.round)
  }

  // ---- Steps that write no request and make no connection ----

  /** Calls are only ever added, and what has ended stays so. */
  ghost predicate CallsGrow(before: seq<CallRec>, now: seq<CallRec>) {
    && |before| <= |now|
    && (forall c | 0 <= c < |before| ::
          && now[c].kind == before[c].kind
          && now[c].after == before[c].after
          && (before[c].call.status.Ended? ==> now[c] == before[c]))
  }

  ghost predicate WritesFor(s: State, t: State, r: nat)
    requires r < |t.net.reqs|
  {
    && t.net.reqs[r].conn == |s.net.conns| - 1
    && (t.net.reqs[r].origin.OfCall? ==>
          t.net.reqs[r].origin.c < |s.calls| && !s.calls[t.net.reqs[r].origin.c].call.status.Ended?)
  }

  /** What no step undoes: requests only move on, one at a time, ended calls stay ended, and none of them writes
      another request. */
  ghost predicate Grows(s: State, t: State) {
    && Moves(s.net, t.net)
    && CallsGrow(s.calls, t.calls)
    && (forall r | |s.net.reqs| <= r < |t.net.reqs| :: WritesFor(s, t, r))
  }

  /** A step that changes at most call `c0` and request `r0`, and owes at most new releases. */
  ghost predicate Local(s: State, t: State, c0: int, r0: int) {
    && Moves(s.net, t.net)
    && |t.net.reqs| == |s.net.reqs| && |t.net.conns| == |s.net.conns| && |t.net.sessions| == |s.net.sessions|
    && CallsGrow(s.calls, t.calls)
    && (forall c | 0 <= c < |s.calls| && c != c0 :: t.calls[c] == s.calls[c])
    && (|t.calls| == |s.calls| || (|t.calls| == |s.calls| + 1 && c0 == |s.calls|))
    && (forall r | 0 <= r < |s.net.reqs| && r != r0 ::
          t.net.reqs[r].givenUp == s.net.reqs[r].givenUp && t.net.reqs[r].counted == s.net.reqs[r].counted)
    && (forall fh | fh in t.table.owed :: t.table.owed[fh].None? || (fh in s.table.owed && t.table.owed[fh] == s.table.owed[fh]))
    && (forall fh | fh in s.reopening && (r0 < 0 || s.reopening[fh] != r0) :: fh in t.reopening && t.reopening[fh] == s.reopening[fh])
  }

  lemma LocalCalls(s: State, t: State, c0: int, r0: int)
    requires OrderInv(s) && Local(s, t, c0, r0)
    requires 0 <= c0 < |t.calls| ==> CallAt(t.calls, t.net, c0)
    requires 0 <= r0 < |t.net.reqs| && s.net.reqs[r0].origin.OfCall? && t.net.reqs[r0].givenUp != s.net.reqs[r0].givenUp
             ==> s.net.reqs[r0].origin.c == c0
    ensures forall c | 0 <= c < |t.calls| :: CallAt(t.calls, t.net, c)
  {
    forall c | 0 <= c < |t.calls| ensures CallAt(t.calls, t.net, c) {
      if c != c0 {
        assert CallAt(s.calls, s.net, c);
        var k := s.calls[c];
        if k.call.status.InFlight? { assert ConnMoves(s.net, t.net, k.call.status.generation); }
        if k.req.Some? { assert ReqMoves(s.net, t.net, k.req.value); }
      }
    }
  }

  lemma LocalLinks(s: State, t: State, c0: int, r0: int)
    requires OrderInv(s) && Local(s, t, c0, r0)
    requires 0 <= r0 < |t.net.reqs| ==> LinkAt(t.calls, t.net, t.reopening, r0)
    requires 0 <= c0 < |s.calls| && s.calls[c0].req.Some? ==> t.calls[c0].req == s.calls[c0].req || s.calls[c0].req == Some(r0)
    ensures forall r | 0 <= r < |t.net.reqs| :: LinkAt(t.calls, t.net, t.reopening, r)
  {
    forall r | 0 <= r < |t.net.reqs| ensures LinkAt(t.calls, t.net, t.reopening, r) {
      if r != r0 {
        assert LinkAt(s.calls, s.net, s.reopening, r);
        assert ReqMoves(s.net, t.net, r) && ConnMoves(s.net, t.net, s.net.reqs[r].conn);
      }
    }
  }

  lemma LocalBehind(s: State, t: State, c0: int, r0: int)
    requires OrderInv(s) && Local(s, t, c0, r0)
    ensures forall x, y | 0 <= x < |t.net.reqs| && 0 <= y < |t.net.reqs| :: BehindAt(t.calls, t.net, x, y)
  {
    forall x, y | 0 <= x < |t.net.reqs| && 0 <= y < |t.net.reqs| ensures BehindAt(t.calls, t.net, x, y) {
      OldBehind(s, t, x, y);
    }
  }

  lemma OldBehind(s: State, t: State, x: nat, y: nat)
    requires OrderInv(s) && Moves(s.net, t.net) && CallsGrow(s.calls, t.calls)
    requires x < |s.net.reqs| && y < |s.net.reqs|
    ensures BehindAt(t.calls, t.net, x, y)
  {
    assert BehindAt(s.calls, s.net, x, y);
    assert LinkAt(s.calls, s.net, s.reopening, y);
    assert ReqMoves(s.net, t.net, x) && ReqMoves(s.net, t.net, y);
    assert ConnMoves(s.net, t.net, s.net.reqs[x].conn) && ConnMoves(s.net, t.net, s.net.reqs[y].conn);
    assert After(t.calls, t.net, x, y) == After(s.calls, s.net, x, y);
  }

  lemma LocalCallBehind(s: State, t: State, c0: int, r0: int)
    requires OrderInv(s) && Local(s, t, c0, r0)
    requires 0 <= c0 < |t.calls| && t.calls[c0].call.status.InFlight? ==>
               forall x | 0 <= x < |t.net.reqs| :: CallBehind(t.calls, t.net, c0, x)
    ensures forall c, x | 0 <= c < |t.calls| && 0 <= x < |t.net.reqs| :: CallBehind(t.calls, t.net, c, x)
  {
    forall c, x | 0 <= c < |t.calls| && 0 <= x < |t.net.reqs| ensures CallBehind(t.calls, t.net, c, x) {
      if c != c0 {
        assert CallBehind(s.calls, s.net, c, x);
        assert ReqMoves(s.net, t.net, x);
        var status := s.calls[c].call.status;
        if status.InFlight? && status.generation < |s.net.conns| { assert ConnMoves(s.net, t.net, status.generation); }
      }
    }
  }

  lemma LocalOwed(s: State, t: State, c0: int, r0: int)
    requires OrderInv(s) && Local(s, t, c0, r0)
    ensures forall fh: nat, x | 0 <= x < |t.net.reqs| :: OwedBehind(t.table.owed, t.net, fh, x)
    ensures forall fh: nat :: OwedAt(t.table.owed, t.net.conns, fh)
  {
    forall fh: nat ensures OwedAt(t.table.owed, t.net.conns, fh) {
      assert OwedAt(s.table.owed, s.net.conns, fh);
      if |s.net.conns| >= 1 { assert ConnMoves(s.net, t.net, |s.net.conns| - 1); }
    }
    forall fh: nat, x | 0 <= x < |t.net.reqs| ensures OwedBehind(t.table.owed, t.net, fh, x) {
      assert OwedBehind(s.table.owed, s.net, fh, x) && OwedAt(s.table.owed, s.net.conns, fh);
      assert ReqMoves(s.net, t.net, x) && ConnMoves(s.net, t.net, s.net.reqs[x].conn);
      assert ConnMoves(s.net, t.net, |s.net.conns| - 1);
    }
  }

  /** A step that writes no request and makes no connection keeps the order, once what it does to the one call and
      the one request it touches is known to be right. */
  lemma LocalKeeps(s: State, t: State, c0: int, r0: int)
    requires OrderInv(s) && Local(s, t, c0, r0) && NetInv(t.net)
    requires 0 <= c0 < |t.calls| ==> CallAt(t.calls, t.net, c0)
    requires 0 <= r0 < |t.net.reqs| && s.net.reqs[r0].origin.OfCall? && t.net.reqs[r0].givenUp != s.net.reqs[r0].givenUp
             ==> s.net.reqs[r0].origin.c == c0
    requires 0 <= r0 < |t.net.reqs| ==> LinkAt(t.calls, t.net, t.reopening, r0)
    requires 0 <= c0 < |s.calls| && s.calls[c0].req.Some? ==> t.calls[c0].req == s.calls[c0].req || s.calls[c0].req == Some(r0)
    requires 0 <= c0 < |t.calls| && t.calls[c0].call.status.InFlight? ==>
               forall x | 0 <= x < |t.net.reqs| :: CallBehind(t.calls, t.net, c0, x)
    requires forall fh: nat :: KnownAt(t.calls, t.table, t.round, fh)
    requires forall fh: nat :: ReopenAt(t.net, t.round, t.reopening, fh)
    requires RoundAt(t.net, t.round)
    ensures OrderInv(t) && Grows(s, t)
  {
    LocalCalls(s, t, c0, r0);
    LocalLinks(s, t, c0, r0);
    LocalBehind(s, t, c0, r0);
    LocalCallBehind(s, t, c0, r0);
    LocalOwed(s, t, c0, r0);
  }

  /** When a request has begun, every request it comes after is over, or will never run. */
  lemma BegunMeansBefore(s: State, x: nat, y: nat)
    requires OrderInv(s) && x < |s.net.reqs| && y < |s.net.reqs|
    requires After(s.calls, s.net, x, y) && Begun(s.net.reqs[y].phase)
    ensures Dead(s.net, x)
  {
    var n := s.net;
    assert BehindAt(s.calls, n, x, y) && OrderAt(n, x, y) && ReqAt(n, x);
    assert ConnAt(n.conns, n.sessions, n.reqs[y].conn);
    if n.reqs[x].conn < n.reqs[y].conn { assert ConnsAt(n.conns, n.reqs[x].conn, n.reqs[y].conn); }
  }
}
