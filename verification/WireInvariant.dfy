/** What every step on the wire keeps, whoever takes it. */
module WireInvariant {
  import opened Wire

  /** The server has said what became of it, or will: nothing is left of it that a later change of its connection is
      not held behind. */
  predicate Settled(p: Phase) {
    Terminal(p) || p.Abandoned?
  }

  // ---- Connections and sessions ----

  ghost predicate ConnAt(conns: seq<Conn>, sessions: seq<Sess>, g: nat)
    requires g < |conns|
  {
    var k := conns[g];
    && k.session < |sessions|
    && k.epoch <= sessions[k.session].att.epoch
    && (k.clientAlive ==> g == |conns| - 1 && k.epoch == sessions[k.session].att.epoch)
    && (g == 0 ==> !k.clientAlive && !k.serverAlive && !k.published && k.session == 0)
    && (g >= 1 ==> k.session >= 1)
    && (1 <= g < |conns| - 1 ==> k.published)
    && (k.session < |sessions| - 1 ==> !k.serverAlive)
    && (k.serverAlive ==> !sessions[k.session].closed)
  }

  ghost predicate ConnsAt(conns: seq<Conn>, g: nat, h: nat)
    requires g < |conns| && h < |conns|
  {
    g < h ==>
      && conns[g].session <= conns[h].session
      && (conns[g].session == conns[h].session ==> conns[g].epoch < conns[h].epoch)
  }

  ghost predicate Shape(conns: seq<Conn>, sessions: seq<Sess>) {
    && |conns| >= 1
    && |sessions| >= 1
    && conns[|conns| - 1].session == |sessions| - 1
    && sessions[0].closed
    && (forall g | 0 <= g < |conns| :: ConnAt(conns, sessions, g))
    && (forall g, h | 0 <= g < |conns| && 0 <= h < |conns| :: ConnsAt(conns, g, h))
    && (forall i | 0 <= i < |sessions| :: sessions[i].closed ==> !sessions[i].live)
  }

  // ---- Requests ----

  ghost predicate ReqAt(n: Net, r: nat)
    requires Ranged(n) && r < |n.reqs|
  {
    var q := n.reqs[r];
    && q.conn >= 1
    && (SessionOf(n, r) < Sid(n) || n.sessions[SessionOf(n, r)].closed ==> Terminal(q.phase))
    && (!q.answer.NoAnswer? ==> q.phase.Finished? || q.phase.Cancelled? || q.phase.Abandoned?)
    && (q.answer.Reply? || q.answer.ErrnoReply? ==> q.phase.Finished?)
    && (q.answer.Unrun? || q.answer.Fenced? || q.phase.Cancelled? || q.phase.Abandoned? || q.counted ==> q.givenUp)
    && (q.givenUp ==> q.op.Changes())
  }

  // ---- The counts ----

  ghost function RunningSet(n: Net, i: nat): set<nat>
    requires Ranged(n) && i < |n.sessions|
  {
    set r | 0 <= r < |n.reqs| && n.reqs[r].op.Changes() && UnderWay(n.reqs[r].phase) && SessionOf(n, r) == i
            && EpochOf(n, r) == n.sessions[i].att.epoch
  }

  ghost function AbandonedSet(n: Net, i: nat): set<nat>
    requires Ranged(n) && i < |n.sessions|
  {
    set r | 0 <= r < |n.reqs| && n.reqs[r].op.Changes() && n.reqs[r].phase.Abandoned? && SessionOf(n, r) == i
            && EpochOf(n, r) == n.sessions[i].att.epoch
  }

  ghost function OlderSet(n: Net, i: nat): set<nat>
    requires Ranged(n) && i < |n.sessions|
  {
    set r | 0 <= r < |n.reqs| && n.reqs[r].op.Changes() && UnderWay(n.reqs[r].phase) && SessionOf(n, r) == i
            && EpochOf(n, r) < n.sessions[i].att.epoch
  }

  ghost function CountedSet(reqs: seq<Req>, g: nat): set<nat> {
    set r | 0 <= r < |reqs| && reqs[r].counted && reqs[r].conn == g
  }

  /** The attachment's three counts are what the requests' phases say. */
  ghost predicate CountsAt(n: Net, i: nat)
    requires Ranged(n) && i < |n.sessions|
  {
    var att := n.sessions[i].att;
    && att.running == |RunningSet(n, i)|
    && att.abandoned == |AbandonedSet(n, i)|
    && att.runningOlder == |OlderSet(n, i)|
  }

  ghost predicate CancelsAt(reqs: seq<Req>, conns: seq<Conn>, g: nat)
    requires g < |conns|
  {
    conns[g].cancels == |CountedSet(reqs, g)|
  }

  // ---- The order ----

  /** It will never run from now on, or has run. */
  predicate Dead(n: Net, r: nat)
    requires Ranged(n) && r < |n.reqs|
  {
    || Terminal(n.reqs[r].phase)
    || (n.reqs[r].op.Changes() && !Begun(n.reqs[r].phase) && EpochOf(n, r) < AttOf(n, r).epoch)
  }

  /** It has begun, or nothing but a resume keeps it from beginning. */
  predicate Advanced(n: Net, r: nat)
    requires Ranged(n) && r < |n.reqs|
  {
    Begun(n.reqs[r].phase) || (n.reqs[r].phase.Ready? && EpochOf(n, r) == AttOf(n, r).epoch)
  }

  /** A change goes ahead only when nothing of its session's earlier connections can still run. */
  ghost predicate OrderAt(n: Net, x: nat, y: nat)
    requires Ranged(n) && x < |n.reqs| && y < |n.reqs|
  {
    && n.reqs[x].op.Changes() && n.reqs[y].op.Changes()
    && SessionOf(n, x) == SessionOf(n, y)
    && n.reqs[x].conn < n.reqs[y].conn
    && Advanced(n, y)
    ==> Dead(n, x)
  }

  ghost predicate NetInv(n: Net) {
    && Ranged(n)
    && Shape(n.conns, n.sessions)
    && (forall r | 0 <= r < |n.reqs| :: ReqAt(n, r))
    && (forall i | 0 <= i < |n.sessions| :: CountsAt(n, i))
    && (forall g | 0 <= g < |n.conns| :: CancelsAt(n.reqs, n.conns, g))
    && (forall x, y | 0 <= x < |n.reqs| && 0 <= y < |n.reqs| :: OrderAt(n, x, y))
  }

  // ---- What only ever goes one way ----

  ghost predicate ReqMoves(n: Net, m: Net, r: nat)
    requires Ranged(n) && Ranged(m) && r < |n.reqs| && r < |m.reqs|
  {
    var p, q := n.reqs[r], m.reqs[r];
    && q.origin == p.origin && q.op == p.op && q.conn == p.conn
    && (Terminal(p.phase) ==> q.phase == p.phase)
    && (Begun(p.phase) ==> Begun(q.phase))
    && (Settled(p.phase) ==> Settled(q.phase))
    && (Dead(n, r) ==> Dead(m, r) && (!Begun(p.phase) ==> !Begun(q.phase)))
    && (p.givenUp ==> q.givenUp)
    && (p.counted && !q.counted ==> Settled(q.phase) || !n.conns[p.conn].clientAlive)
    && (p.op.Changes() && Advanced(m, r) && !Advanced(n, r) ==> NoneAbandoned(n, p.conn))
  }

  /** No change of connection `g` runs given up on. */
  ghost predicate NoneAbandoned(n: Net, g: nat) {
    forall x | 0 <= x < |n.reqs| :: n.reqs[x].op.Changes() && n.reqs[x].conn == g ==> !n.reqs[x].phase.Abandoned?
  }

  ghost predicate ConnMoves(n: Net, m: Net, g: nat)
    requires g < |n.conns| && g < |m.conns|
  {
    && m.conns[g].session == n.conns[g].session
    && m.conns[g].epoch == n.conns[g].epoch
    && (m.conns[g].clientAlive ==> n.conns[g].clientAlive)
    && (n.conns[g].published ==> m.conns[g].published)
  }

  /** At most one request moves on in a step. */
  ghost predicate OneMoves(n: Net, m: Net, x: nat, y: nat)
    requires x < |n.reqs| <= |m.reqs| && y < |n.reqs|
  {
    m.reqs[x].phase != n.reqs[x].phase && m.reqs[y].phase != n.reqs[y].phase ==> x == y
  }

  ghost predicate Moves(n: Net, m: Net) {
    && Ranged(n) && Ranged(m)
    && |n.reqs| <= |m.reqs| && |n.conns| <= |m.conns| && |n.sessions| <= |m.sessions|
    && (forall r | 0 <= r < |n.reqs| :: ReqMoves(n, m, r))
    && (forall g | 0 <= g < |n.conns| :: ConnMoves(n, m, g))
    && (forall x, y | 0 <= x < |n.reqs| && 0 <= y < |n.reqs| :: OneMoves(n, m, x, y))
    && (forall r | |n.reqs| <= r < |m.reqs| :: !Begun(m.reqs[r].phase))
  }

  // ---- Steps that change one request ----

  /** `m` is `n` but for request `r`, and the attachment of its session. */
  ghost predicate OneReq(n: Net, m: Net, r: nat)
    requires Ranged(n) && r < |n.reqs|
  {
    && |m.reqs| == |n.reqs|
    && m.reqs[r].origin == n.reqs[r].origin && m.reqs[r].op == n.reqs[r].op && m.reqs[r].conn == n.reqs[r].conn
    && (forall x | 0 <= x < |n.reqs| && x != r :: m.reqs[x] == n.reqs[x])
    && m.conns == n.conns
    && |m.sessions| == |n.sessions|
    && (forall i | 0 <= i < |n.sessions| && i != SessionOf(n, r) :: m.sessions[i] == n.sessions[i])
    && (var a, b := n.sessions[SessionOf(n, r)], m.sessions[SessionOf(n, r)];
        b.att.epoch == a.att.epoch && b.live == a.live && b.closed == a.closed)
  }

  lemma OneReqShape(n: Net, m: Net, r: nat)
    requires Ranged(n) && r < |n.reqs| && Shape(n.conns, n.sessions) && OneReq(n, m, r)
    ensures Ranged(m) && Shape(m.conns, m.sessions)
    ensures forall x | 0 <= x < |n.reqs| :: SessionOf(m, x) == SessionOf(n, x) && EpochOf(m, x) == EpochOf(n, x)
                                            && AttOf(m, x).epoch == AttOf(n, x).epoch
  {
    forall x | 0 <= x < |m.reqs| ensures m.reqs[x].conn < |m.conns| {
      assert n.reqs[x].conn < |n.conns|;
      if x != r { assert m.reqs[x] == n.reqs[x]; }
    }
    forall g | 0 <= g < |m.conns| ensures ConnAt(m.conns, m.sessions, g) {
      assert ConnAt(n.conns, n.sessions, g);
    }
  }

  lemma OneReqMoves(n: Net, m: Net, r: nat)
    requires NetInv(n) && r < |n.reqs| && OneReq(n, m, r) && Ranged(m) && ReqMoves(n, m, r)
    ensures Moves(n, m)
  {
    OneReqShape(n, m, r);
    forall x | 0 <= x < |n.reqs| ensures ReqMoves(n, m, x) {
      if x != r { assert m.reqs[x] == n.reqs[x]; }
    }
  }

  lemma OneReqReqs(n: Net, m: Net, r: nat)
    requires NetInv(n) && r < |n.reqs| && OneReq(n, m, r) && Ranged(m) && ReqAt(m, r)
    ensures forall x | 0 <= x < |m.reqs| :: ReqAt(m, x)
  {
    OneReqShape(n, m, r);
    forall x | 0 <= x < |m.reqs| ensures ReqAt(m, x) {
      assert ReqAt(n, x);
      if x != r { assert m.reqs[x] == n.reqs[x]; }
    }
  }

  lemma OneReqOrder(n: Net, m: Net, r: nat)
    requires NetInv(n) && r < |n.reqs| && OneReq(n, m, r) && Ranged(m) && ReqMoves(n, m, r)
    requires Advanced(m, r) && !Advanced(n, r) && n.reqs[r].op.Changes() ==>
               forall x | 0 <= x < |n.reqs| :: EarlierChange(n, x, r) ==> Dead(n, x)
    ensures forall x, y | 0 <= x < |m.reqs| && 0 <= y < |m.reqs| :: OrderAt(m, x, y)
  {
    OneReqShape(n, m, r);
    OneReqMoves(n, m, r);
    forall x, y | 0 <= x < |m.reqs| && 0 <= y < |m.reqs| ensures OrderAt(m, x, y) {
      assert OrderAt(n, x, y);
      assert ReqMoves(n, m, x) && ReqMoves(n, m, y);
      if y != r { assert m.reqs[y] == n.reqs[y]; }
      assert y == r && n.reqs[r].op.Changes() && EarlierChange(n, x, r) ==> Advanced(n, r) || Dead(n, x) || !Advanced(m, r);
    }
  }

  /** A change of the same session on an earlier connection. */
  predicate EarlierChange(n: Net, x: nat, y: nat)
    requires Ranged(n) && x < |n.reqs| && y < |n.reqs|
  {
    && n.reqs[x].op.Changes()
    && SessionOf(n, x) == SessionOf(n, y)
    && n.reqs[x].conn < n.reqs[y].conn
  }

  lemma OneReqCancels(n: Net, m: Net, r: nat)
    requires NetInv(n) && r < |n.reqs| && OneReq(n, m, r) && m.reqs[r].counted == n.reqs[r].counted
    ensures forall g | 0 <= g < |m.conns| :: CancelsAt(m.reqs, m.conns, g)
  {
    forall g | 0 <= g < |m.conns| ensures CancelsAt(m.reqs, m.conns, g) {
      assert CancelsAt(n.reqs, n.conns, g);
      assert CountedSet(m.reqs, g) == CountedSet(n.reqs, g);
    }
  }

  /** How many more elements `a` has than `b`, given that they differ at most in `r`. */
  lemma OneApart(a: set<nat>, b: set<nat>, r: nat)
    requires a - {r} == b - {r}
    ensures |a| == |b| + (if r in a then 1 else 0) - (if r in b then 1 else 0)
  {
    assert r in a ==> a == (a - {r}) + {r};
    assert r in b ==> b == (b - {r}) + {r};
    assert r !in a ==> a == a - {r};
    assert r !in b ==> b == b - {r};
  }

  lemma OneReqRunning(n: Net, m: Net, r: nat, i: nat)
    requires NetInv(n) && r < |n.reqs| && OneReq(n, m, r) && Ranged(m) && i < |n.sessions|
    ensures |RunningSet(m, i)| == |RunningSet(n, i)| + (if r in RunningSet(m, i) then 1 else 0)
                                                    - (if r in RunningSet(n, i) then 1 else 0)
  {
    OneReqShape(n, m, r);
    assert RunningSet(m, i) - {r} == RunningSet(n, i) - {r};
    OneApart(RunningSet(m, i), RunningSet(n, i), r);
  }

  lemma OneReqAbandoned(n: Net, m: Net, r: nat, i: nat)
    requires NetInv(n) && r < |n.reqs| && OneReq(n, m, r) && Ranged(m) && i < |n.sessions|
    ensures |AbandonedSet(m, i)| == |AbandonedSet(n, i)| + (if r in AbandonedSet(m, i) then 1 else 0)
                                                    - (if r in AbandonedSet(n, i) then 1 else 0)
  {
    OneReqShape(n, m, r);
    assert AbandonedSet(m, i) - {r} == AbandonedSet(n, i) - {r};
    OneApart(AbandonedSet(m, i), AbandonedSet(n, i), r);
  }

  lemma OneReqOlder(n: Net, m: Net, r: nat, i: nat)
    requires NetInv(n) && r < |n.reqs| && OneReq(n, m, r) && Ranged(m) && i < |n.sessions|
    ensures |OlderSet(m, i)| == |OlderSet(n, i)| + (if r in OlderSet(m, i) then 1 else 0)
                                                    - (if r in OlderSet(n, i) then 1 else 0)
  {
    OneReqShape(n, m, r);
    assert OlderSet(m, i) - {r} == OlderSet(n, i) - {r};
    OneApart(OlderSet(m, i), OlderSet(n, i), r);
  }

  lemma OneReqCounts(n: Net, m: Net, r: nat, i: nat)
    requires NetInv(n) && r < |n.reqs| && OneReq(n, m, r) && Ranged(m) && i < |n.sessions|
    requires var (p, q) := (n.reqs[r].phase, m.reqs[r].phase);
             var counts := i == SessionOf(n, r) && n.reqs[r].op.Changes();
             var current := EpochOf(n, r) == n.sessions[i].att.epoch;
             var (a, b) := (n.sessions[i].att, m.sessions[i].att);
             && b.running == a.running + (if counts && current && UnderWay(q) then 1 else 0)
                                       - (if counts && current && UnderWay(p) then 1 else 0)
             && b.abandoned == a.abandoned + (if counts && current && q.Abandoned? then 1 else 0)
                                           - (if counts && current && p.Abandoned? then 1 else 0)
             && b.runningOlder == a.runningOlder + (if counts && !current && UnderWay(q) then 1 else 0)
                                                 - (if counts && !current && UnderWay(p) then 1 else 0)
    ensures CountsAt(m, i)
  {
    OneReqShape(n, m, r);
    assert CountsAt(n, i);
    assert ConnAt(n.conns, n.sessions, n.reqs[r].conn);
    OneReqRunning(n, m, r, i);
    OneReqAbandoned(n, m, r, i);
    OneReqOlder(n, m, r, i);
  }

  /** A step that changes one request keeps everything, once what it does to that request, to its session's counts
      and to its place in the order is known to be right. */
  lemma OneReqKeeps(n: Net, m: Net, r: nat)
    requires NetInv(n) && r < |n.reqs| && OneReq(n, m, r) && Ranged(m)
    requires ReqMoves(n, m, r) && ReqAt(m, r)
    requires m.reqs[r].counted == n.reqs[r].counted
    requires CountsAt(m, SessionOf(n, r))
    requires Advanced(m, r) && !Advanced(n, r) && n.reqs[r].op.Changes() ==>
               forall x | 0 <= x < |n.reqs| :: EarlierChange(n, x, r) ==> Dead(n, x)
    ensures NetInv(m) && Moves(n, m)
  {
    OneReqShape(n, m, r);
    OneReqMoves(n, m, r);
    OneReqReqs(n, m, r);
    OneReqCancels(n, m, r);
    OneReqOrder(n, m, r);
    forall i | 0 <= i < |m.sessions| ensures CountsAt(m, i) {
      if i != SessionOf(n, r) { OneReqCounts(n, m, r, i); }
    }
  }

  /** With the fence of a current connection at zero, no earlier change can run, and none of its own is abandoned. */
  lemma FenceDown(n: Net, r: nat)
    requires NetInv(n) && r < |n.reqs|
    requires EpochOf(n, r) == AttOf(n, r).epoch && AttOf(n, r).runningOlder + AttOf(n, r).abandoned == 0
    ensures forall x | 0 <= x < |n.reqs| :: EarlierChange(n, x, r) ==> Dead(n, x)
    ensures NoneAbandoned(n, n.reqs[r].conn)
  {
    var i := SessionOf(n, r);
    assert CountsAt(n, i);
    assert OlderSet(n, i) == {} && AbandonedSet(n, i) == {};
    forall x | 0 <= x < |n.reqs| && EarlierChange(n, x, r) ensures Dead(n, x) {
      assert ConnsAt(n.conns, n.reqs[x].conn, n.reqs[r].conn);
      assert x !in OlderSet(n, i);
    }
    forall x | 0 <= x < |n.reqs| && n.reqs[x].op.Changes() && n.reqs[x].conn == n.reqs[r].conn
      ensures !n.reqs[x].phase.Abandoned?
    {
      assert x !in AbandonedSet(n, i);
    }
  }

  lemma ArriveKeeps(n: Net, r: nat)
    requires NetInv(n) && Can(n, Arrive(r))
    ensures NetInv(Arrived(n, r)) && Moves(n, Arrived(n, r))
  {
    var m := Arrived(n, r);
    assert ReqAt(n, r);
    assert CountsAt(n, SessionOf(n, r));
    assert OneReq(n, m, r);
    OneReqShape(n, m, r);
    OneReqCounts(n, m, r, SessionOf(n, r));
    if Advanced(m, r) && n.reqs[r].op.Changes() {
      FenceDown(n, r);
    }
    OneReqKeeps(n, m, r);
  }

  lemma DropCutKeeps(n: Net, r: nat)
    requires NetInv(n) && Can(n, DropCut(r))
    ensures NetInv(Done(n, DropCut(r))) && Moves(n, Done(n, DropCut(r)))
  {
    var m := Done(n, DropCut(r));
    assert ReqAt(n, r);
    OneReqShape(n, m, r);
    OneReqCounts(n, m, r, SessionOf(n, r));
    OneReqKeeps(n, m, r);
  }

  lemma DrainKeeps(n: Net, r: nat)
    requires NetInv(n) && Can(n, Drain(r))
    ensures NetInv(Drained(n, r)) && Moves(n, Drained(n, r))
  {
    var m := Drained(n, r);
    assert ReqAt(n, r);
    OneReqShape(n, m, r);
    OneReqCounts(n, m, r, SessionOf(n, r));
    if Advanced(m, r) {
      FenceDown(n, r);
    }
    OneReqKeeps(n, m, r);
  }

  lemma ReadKeeps(n: Net, r: nat)
    requires NetInv(n) && r < |n.reqs|
    ensures NetInv(Read(n, r)) && Moves(n, Read(n, r))
  {
    var m := Read(n, r);
    assert ReqAt(n, r);
    OneReqShape(n, m, r);
    OneReqCounts(n, m, r, SessionOf(n, r));
    OneReqKeeps(n, m, r);
  }

  lemma BeginOne(n: Net, r: nat)
    requires NetInv(n) && Can(n, Begin(r))
    ensures var m := Began(n, r);
            && OneReq(n, m, r) && Ranged(m) && ReqMoves(n, m, r) && ReqAt(m, r)
            && (n.reqs[r].op.Changes() && Advanced(m, r) ==> Advanced(n, r)) && m.reqs[r].counted == n.reqs[r].counted
  {
    assert ReqAt(n, r) && ConnAt(n.conns, n.sessions, n.reqs[r].conn);
    OneReqShape(n, Began(n, r), r);
  }

  lemma BeginKeeps(n: Net, r: nat)
    requires NetInv(n) && Can(n, Begin(r))
    ensures NetInv(Began(n, r)) && Moves(n, Began(n, r))
  {
    BeginOne(n, r);
    OneReqCounts(n, Began(n, r), r, SessionOf(n, r));
    OneReqKeeps(n, Began(n, r), r);
  }

  lemma FinishOne(n: Net, r: nat, errno: bool)
    requires NetInv(n) && Can(n, Finish(r, errno))
    ensures var m := DoneWith(n, r, errno);
            && OneReq(n, m, r) && Ranged(m) && ReqMoves(n, m, r) && ReqAt(m, r)
            && Advanced(n, r) && m.reqs[r].counted == n.reqs[r].counted
  {
    assert ReqAt(n, r);
    OneReqShape(n, DoneWith(n, r, errno), r);
  }

  lemma FinishKeeps(n: Net, r: nat, errno: bool)
    requires NetInv(n) && Can(n, Finish(r, errno))
    ensures NetInv(DoneWith(n, r, errno)) && Moves(n, DoneWith(n, r, errno))
  {
    FinishOne(n, r, errno);
    OneReqCounts(n, DoneWith(n, r, errno), r, SessionOf(n, r));
    OneReqKeeps(n, DoneWith(n, r, errno), r);
  }

  lemma SeeCancelOne(n: Net, r: nat)
    requires NetInv(n) && Can(n, SeeCancel(r))
    ensures var m := CancelSeen(n, r);
            && OneReq(n, m, r) && Ranged(m) && ReqMoves(n, m, r) && ReqAt(m, r)
            && (Advanced(m, r) ==> Advanced(n, r)) && m.reqs[r].counted == n.reqs[r].counted
  {
    assert ReqAt(n, r);
    OneReqShape(n, CancelSeen(n, r), r);
  }

  lemma SeeCancelKeeps(n: Net, r: nat)
    requires NetInv(n) && Can(n, SeeCancel(r))
    ensures NetInv(CancelSeen(n, r)) && Moves(n, CancelSeen(n, r))
  {
    SeeCancelOne(n, r);
    OneReqCounts(n, CancelSeen(n, r), r, SessionOf(n, r));
    OneReqKeeps(n, CancelSeen(n, r), r);
  }

  // ---- Steps that change the pending cancels ----

  /** `m` is `n` but for whether `r` is counted on its connection, and read. */
  ghost predicate OneCount(n: Net, m: Net, r: nat)
    requires Ranged(n) && r < |n.reqs|
  {
    var g := n.reqs[r].conn;
    && |m.reqs| == |n.reqs| && |m.conns| == |n.conns|
    && m.reqs == n.reqs[r := n.reqs[r].(givenUp := m.reqs[r].givenUp, counted := m.reqs[r].counted,
                                         answer := m.reqs[r].answer)]
    && m.conns == n.conns[g := n.conns[g].(cancels := m.conns[g].cancels)]
    && m.sessions == n.sessions
  }

  lemma OneCountKeeps(n: Net, m: Net, r: nat)
    requires NetInv(n) && r < |n.reqs| && OneCount(n, m, r)
    requires m.reqs[r].counted != n.reqs[r].counted
    requires m.conns[n.reqs[r].conn].cancels == n.conns[n.reqs[r].conn].cancels + (if m.reqs[r].counted then 1 else -1)
    requires n.reqs[r].op.Changes() && (n.reqs[r].givenUp || m.reqs[r].counted) && m.reqs[r].givenUp
    requires m.reqs[r].answer.NoAnswer? || m.reqs[r].answer == n.reqs[r].answer
    requires n.reqs[r].counted ==> !n.reqs[r].answer.NoAnswer? || !n.conns[n.reqs[r].conn].clientAlive
    ensures NetInv(m) && Moves(n, m)
  {
    assert ReqAt(n, r);
    forall g | 0 <= g < |m.conns| ensures ConnAt(m.conns, m.sessions, g) && CancelsAt(m.reqs, m.conns, g) {
      assert ConnAt(n.conns, n.sessions, g) && CancelsAt(n.reqs, n.conns, g);
      assert CountedSet(m.reqs, g) - {r} == CountedSet(n.reqs, g) - {r};
      OneApart(CountedSet(m.reqs, g), CountedSet(n.reqs, g), r);
    }
    forall g, h | 0 <= g < |m.conns| && 0 <= h < |m.conns| ensures ConnsAt(m.conns, g, h) {
      assert ConnsAt(n.conns, g, h);
    }
    OneCountMoves(n, m, r);
    OneCountRest(n, m, r);
    forall i | 0 <= i < |m.sessions| ensures CountsAt(m, i) { OneCountCounts(n, m, r, i); }
  }

  lemma OneCountMoves(n: Net, m: Net, r: nat)
    requires NetInv(n) && r < |n.reqs| && OneCount(n, m, r)
    requires n.reqs[r].op.Changes() && m.reqs[r].givenUp
    requires n.reqs[r].counted ==> !n.reqs[r].answer.NoAnswer? || !n.conns[n.reqs[r].conn].clientAlive
    ensures Moves(n, m)
  {
    assert ReqAt(n, r);
  }

  lemma OneCountRest(n: Net, m: Net, r: nat)
    requires NetInv(n) && r < |n.reqs| && OneCount(n, m, r)
    requires n.reqs[r].op.Changes() && m.reqs[r].givenUp
    requires m.reqs[r].answer.NoAnswer? || m.reqs[r].answer == n.reqs[r].answer
    ensures Ranged(m)
    ensures forall x | 0 <= x < |m.reqs| :: ReqAt(m, x)
    ensures forall x, y | 0 <= x < |m.reqs| && 0 <= y < |m.reqs| :: OrderAt(m, x, y)
  {
    assert ReqAt(n, r);
    forall x | 0 <= x < |m.reqs| ensures ReqAt(m, x) { assert ReqAt(n, x); }
    forall x, y | 0 <= x < |m.reqs| && 0 <= y < |m.reqs| ensures OrderAt(m, x, y) { assert OrderAt(n, x, y); }
  }

  lemma OneCountCounts(n: Net, m: Net, r: nat, i: nat)
    requires NetInv(n) && r < |n.reqs| && OneCount(n, m, r) && Ranged(m) && i < |n.sessions|
    ensures CountsAt(m, i)
  {
    assert CountsAt(n, i);
    assert RunningSet(m, i) == RunningSet(n, i);
    assert AbandonedSet(m, i) == AbandonedSet(n, i);
    assert OlderSet(m, i) == OlderSet(n, i);
  }

  lemma CountingKeeps(n: Net, r: nat)
    requires NetInv(n) && r < |n.reqs| && n.reqs[r].op.Changes() && !n.reqs[r].counted
    ensures NetInv(Counting(n, r)) && Moves(n, Counting(n, r))
  {
    OneCountKeeps(n, Counting(n, r), r);
  }

  lemma UncountingKeeps(n: Net, r: nat)
    requires NetInv(n) && r < |n.reqs| && n.reqs[r].counted
    requires !n.reqs[r].answer.NoAnswer? || !n.conns[n.reqs[r].conn].clientAlive
    ensures NetInv(Uncounting(n, r)) && Moves(n, Uncounting(n, r))
  {
    assert ReqAt(n, r);
    OneCountKeeps(n, Uncounting(n, r), r);
  }

  // ---- A request written ----

  /** A request just written counts nowhere yet. */
  lemma WrittenCounts(n: Net, origin: Origin, op: Op, g: nat)
    requires NetInv(n) && g < |n.conns| && Ranged(Written(n, origin, op, g))
    ensures var m := Written(n, origin, op, g);
      && (forall h | 0 <= h < |m.conns| :: CancelsAt(m.reqs, m.conns, h))
      && (forall i | 0 <= i < |m.sessions| :: CountsAt(m, i))
  {
    var m := Written(n, origin, op, g);
    forall h | 0 <= h < |m.conns| ensures CancelsAt(m.reqs, m.conns, h) {
      assert CancelsAt(n.reqs, n.conns, h);
      assert CountedSet(m.reqs, h) == CountedSet(n.reqs, h);
    }
    forall i | 0 <= i < |m.sessions| ensures CountsAt(m, i) {
      assert CountsAt(n, i);
      assert RunningSet(m, i) == RunningSet(n, i);
      assert AbandonedSet(m, i) == AbandonedSet(n, i);
      assert OlderSet(m, i) == OlderSet(n, i);
    }
  }

  lemma WrittenKeeps(n: Net, origin: Origin, op: Op, g: nat)
    requires NetInv(n) && g < |n.conns| && n.conns[g].clientAlive
    ensures NetInv(Written(n, origin, op, g)) && Moves(n, Written(n, origin, op, g))
  {
    var m, r := Written(n, origin, op, g), |n.reqs|;
    assert ConnAt(n.conns, n.sessions, g);
    forall x | 0 <= x < |m.reqs| ensures ReqAt(m, x) { if x < r { assert ReqAt(n, x); } }
    WrittenCounts(n, origin, op, g);
    forall x, y | 0 <= x < |m.reqs| && 0 <= y < |m.reqs| ensures OrderAt(m, x, y) {
      if x < r && y < r { assert OrderAt(n, x, y); }
      if y < r { assert n.reqs[y].conn < |n.conns|; }
    }
  }

  // ---- Connections and sessions come and go ----

  /** `m` has the requests of `n`, each on the connection it was on; sessions keep their counts or resume. */
  ghost predicate SameReqs(n: Net, m: Net) {
    && Ranged(n) && Ranged(m)
    && m.reqs == n.reqs
    && |n.conns| <= |m.conns| && |n.sessions| <= |m.sessions|
    && (forall g | 0 <= g < |n.conns| :: ConnMoves(n, m, g) && m.conns[g].cancels == n.conns[g].cancels)
    && (forall g | |n.conns| <= g < |m.conns| :: m.conns[g].cancels == 0)
    && (forall i | 0 <= i < |n.sessions| ::
          m.sessions[i].att == n.sessions[i].att || m.sessions[i].att == n.sessions[i].att.AfterResume())
    && (forall i | |n.sessions| <= i < |m.sessions| :: m.sessions[i].att == FRESH_SESSION.att)
  }

  lemma SameReqsCounts(n: Net, m: Net, i: nat)
    requires NetInv(n) && SameReqs(n, m) && i < |m.sessions|
    ensures CountsAt(m, i)
  {
    forall x | 0 <= x < |n.reqs| ensures SessionOf(m, x) == SessionOf(n, x) && EpochOf(m, x) == EpochOf(n, x) {
      assert ConnMoves(n, m, n.reqs[x].conn);
    }
    if i >= |n.sessions| {
      assert RunningSet(m, i) == {} && AbandonedSet(m, i) == {} && OlderSet(m, i) == {};
    } else {
      assert CountsAt(n, i);
      if m.sessions[i].att == n.sessions[i].att {
        assert RunningSet(m, i) == RunningSet(n, i);
        assert AbandonedSet(m, i) == AbandonedSet(n, i);
        assert OlderSet(m, i) == OlderSet(n, i);
      } else {
        ResumeCounts(n, m, i);
      }
    }
  }

  lemma ResumeSets(n: Net, m: Net, i: nat)
    requires Ranged(n) && Ranged(m) && m.reqs == n.reqs && i < |n.sessions| && i < |m.sessions|
    requires forall x | 0 <= x < |n.reqs| :: SessionOf(m, x) == SessionOf(n, x) && EpochOf(m, x) == EpochOf(n, x)
    requires forall x | 0 <= x < |n.reqs| :: SessionOf(n, x) == i ==> EpochOf(n, x) <= n.sessions[i].att.epoch
    requires m.sessions[i].att.epoch == n.sessions[i].att.epoch + 1
    ensures RunningSet(m, i) == {} && AbandonedSet(m, i) == {}
    ensures OlderSet(m, i) == OlderSet(n, i) + RunningSet(n, i) && OlderSet(n, i) !! RunningSet(n, i)
  {
  }

  lemma ResumeEpochs(n: Net, m: Net, i: nat, x: nat)
    requires NetInv(n) && SameReqs(n, m) && i < |n.sessions| && x < |n.reqs|
    ensures SessionOf(m, x) == SessionOf(n, x) && EpochOf(m, x) == EpochOf(n, x)
    ensures SessionOf(n, x) == i ==> EpochOf(n, x) <= n.sessions[i].att.epoch
  {
    assert ConnMoves(n, m, n.reqs[x].conn) && ConnAt(n.conns, n.sessions, n.reqs[x].conn);
  }

  lemma ResumeSizes(n: Net, m: Net, i: nat)
    requires Ranged(n) && Ranged(m) && i < |n.sessions| && i < |m.sessions| && CountsAt(n, i)
    requires m.sessions[i].att == n.sessions[i].att.AfterResume()
    requires RunningSet(m, i) == {} && AbandonedSet(m, i) == {}
    requires OlderSet(m, i) == OlderSet(n, i) + RunningSet(n, i) && OlderSet(n, i) !! RunningSet(n, i)
    ensures CountsAt(m, i)
  {
  }

  /** A resume turns what was running into what runs from earlier connections. */
  lemma ResumeCounts(n: Net, m: Net, i: nat)
    requires NetInv(n) && SameReqs(n, m) && i < |n.sessions|
    requires m.sessions[i].att == n.sessions[i].att.AfterResume()
    ensures CountsAt(m, i)
  {
    forall x | 0 <= x < |n.reqs|
      ensures SessionOf(m, x) == SessionOf(n, x) && EpochOf(m, x) == EpochOf(n, x)
      ensures SessionOf(n, x) == i ==> EpochOf(n, x) <= n.sessions[i].att.epoch
    {
      ResumeEpochs(n, m, i, x);
    }
    ResumeSets(n, m, i);
    ResumeSizes(n, m, i);
  }

  lemma SameReqsRest(n: Net, m: Net)
    requires NetInv(n) && SameReqs(n, m)
    ensures Moves(n, m)
    ensures forall g | 0 <= g < |m.conns| :: CancelsAt(m.reqs, m.conns, g)
    ensures forall x, y | 0 <= x < |m.reqs| && 0 <= y < |m.reqs| :: OrderAt(m, x, y)
  {
    forall x | 0 <= x < |n.reqs|
      ensures SessionOf(m, x) == SessionOf(n, x) && EpochOf(m, x) == EpochOf(n, x) && ReqMoves(n, m, x)
    {
      assert ConnMoves(n, m, n.reqs[x].conn) && ConnAt(n.conns, n.sessions, n.reqs[x].conn);
    }
    forall g | 0 <= g < |m.conns| ensures CancelsAt(m.reqs, m.conns, g) {
      if g < |n.conns| { assert CancelsAt(n.reqs, n.conns, g); } else { assert CountedSet(m.reqs, g) == {}; }
    }
    forall x, y | 0 <= x < |m.reqs| && 0 <= y < |m.reqs| ensures OrderAt(m, x, y) {
      assert OrderAt(n, x, y);
      assert ReqMoves(n, m, x);
      assert ConnAt(n.conns, n.sessions, n.reqs[y].conn);
    }
  }

  /** A step that leaves the requests alone keeps everything, once its connections and sessions are known right. */
  lemma SameReqsKeeps(n: Net, m: Net)
    requires NetInv(n) && SameReqs(n, m) && Shape(m.conns, m.sessions)
    requires forall r | 0 <= r < |m.reqs| :: ReqAt(m, r)
    ensures NetInv(m) && Moves(n, m)
  {
    SameReqsRest(n, m);
    forall i | 0 <= i < |m.sessions| ensures CountsAt(m, i) { SameReqsCounts(n, m, i); }
  }

  lemma ConnFieldKeeps(n: Net, m: Net, g: nat)
    requires NetInv(n) && g < |n.conns|
    requires m == LostByClient(n, g) || (m == Published(n) && g == Gen(n) >= 1)
    ensures NetInv(m) && Moves(n, m)
  {
    forall h | 0 <= h < |m.conns| ensures ConnAt(m.conns, m.sessions, h) { assert ConnAt(n.conns, n.sessions, h); }
    forall h, k | 0 <= h < |m.conns| && 0 <= k < |m.conns| ensures ConnsAt(m.conns, h, k) {
      assert ConnsAt(n.conns, h, k);
    }
    forall r | 0 <= r < |m.reqs| ensures ReqAt(m, r) { assert ReqAt(n, r); }
    SameReqsKeeps(n, m);
  }

  lemma LoseServerKeeps(n: Net, g: nat)
    requires NetInv(n) && Can(n, LoseServer(g))
    ensures NetInv(LostByServer(n, g)) && Moves(n, LostByServer(n, g))
  {
    var m := LostByServer(n, g);
    forall h | 0 <= h < |m.conns| ensures ConnAt(m.conns, m.sessions, h) { assert ConnAt(n.conns, n.sessions, h); }
    forall h, k | 0 <= h < |m.conns| && 0 <= k < |m.conns| ensures ConnsAt(m.conns, h, k) {
      assert ConnsAt(n.conns, h, k);
    }
    forall r | 0 <= r < |m.reqs| ensures ReqAt(m, r) { assert ReqAt(n, r); }
    SameReqsKeeps(n, m);
  }

  /** A closed session has nothing under way, so only an open one resumes. */
  lemma ResumableIsOpen(n: Net)
    requires NetInv(n) && Resumable(n, Sid(n))
    ensures !n.sessions[Sid(n)].closed
  {
    if n.sessions[Sid(n)].closed {
      forall r | 0 <= r < |n.reqs| && SessionOf(n, r) == Sid(n) ensures Terminal(n.reqs[r].phase) { assert ReqAt(n, r); }
      forall g | 0 <= g < |n.conns| && n.conns[g].session == Sid(n) ensures !n.conns[g].serverAlive {
        assert ConnAt(n.conns, n.sessions, g);
      }
    }
  }

  lemma HandshakeLostKeeps(n: Net)
    requires NetInv(n) && Can(n, HandshakeLost)
    ensures NetInv(HandshakeWasLost(n)) && Moves(n, HandshakeWasLost(n))
  {
    var m := HandshakeWasLost(n);
    ResumableIsOpen(n);
    forall h | 0 <= h < |m.conns| ensures ConnAt(m.conns, m.sessions, h) { assert ConnAt(n.conns, n.sessions, h); }
    forall r | 0 <= r < |m.reqs| ensures ReqAt(m, r) { assert ReqAt(n, r); }
    SameReqsKeeps(n, m);
  }

  lemma SessionKeeps(n: Net, d: Deed)
    requires NetInv(n) && (d.DropSession? || d.CloseSession?) && Can(n, d)
    ensures NetInv(Done(n, d)) && Moves(n, Done(n, d))
  {
    var m := Done(n, d);
    forall h | 0 <= h < |m.conns| ensures ConnAt(m.conns, m.sessions, h) { assert ConnAt(n.conns, n.sessions, h); }
    forall r | 0 <= r < |m.reqs| ensures ReqAt(m, r) { assert ReqAt(n, r); }
    SameReqsKeeps(n, m);
  }

  lemma ResumedKeeps(n: Net)
    requires NetInv(n) && CanConnect(n) && Resumable(n, Sid(n))
    ensures NetInv(Resumed(n)) && Moves(n, Resumed(n))
  {
    var m := Resumed(n);
    ResumableIsOpen(n);
    assert ConnAt(n.conns, n.sessions, Gen(n));
    ResumedShape(n);
    forall r | 0 <= r < |m.reqs| ensures ReqAt(m, r) { assert ReqAt(n, r); }
    SameReqsKeeps(n, m);
  }

  lemma ResumedShape(n: Net)
    requires NetInv(n) && CanConnect(n) && Resumable(n, Sid(n)) && !n.sessions[Sid(n)].closed
    ensures Ranged(Resumed(n)) && Shape(Resumed(n).conns, Resumed(n).sessions)
  {
    var m := Resumed(n);
    forall h | 0 <= h < |m.conns| ensures ConnAt(m.conns, m.sessions, h) {
      if h < |n.conns| { assert ConnAt(n.conns, n.sessions, h); }
      assert ConnAt(n.conns, n.sessions, Gen(n));
    }
    forall h, k | 0 <= h < |m.conns| && 0 <= k < |m.conns| ensures ConnsAt(m.conns, h, k) {
      if h < |n.conns| && k < |n.conns| { assert ConnsAt(n.conns, h, k); }
      if h < |n.conns| { assert ConnsAt(n.conns, h, Gen(n)) && ConnAt(n.conns, n.sessions, h); }
    }
  }

  lemma RenewedKeeps(n: Net)
    requires NetInv(n) && CanConnect(n) && !Resumable(n, Sid(n))
    ensures NetInv(Renewed(n)) && Moves(n, Renewed(n))
  {
    var m := Renewed(n);
    forall h | 0 <= h < |m.conns| ensures ConnAt(m.conns, m.sessions, h) {
      if h < |n.conns| { assert ConnAt(n.conns, n.sessions, h); }
    }
    forall h, k | 0 <= h < |m.conns| && 0 <= k < |m.conns| ensures ConnsAt(m.conns, h, k) {
      if h < |n.conns| && k < |n.conns| { assert ConnsAt(n.conns, h, k); }
    }
    forall r | 0 <= r < |m.reqs| ensures ReqAt(m, r) {
      assert ReqAt(n, r) && n.reqs[r].conn < |n.conns|;
    }
    SameReqsKeeps(n, m);
  }

  /** Whatever the server does keeps the wire as it must be, and nothing goes back. */
  lemma DeedKeeps(n: Net, d: Deed)
    requires NetInv(n) && Can(n, d)
    ensures NetInv(Done(n, d)) && Moves(n, Done(n, d))
  {
    match d
    case Arrive(r) => ArriveKeeps(n, r);
    case DropCut(r) => DropCutKeeps(n, r);
    case Drain(r) => DrainKeeps(n, r);
    case Begin(r) => BeginKeeps(n, r);
    case Finish(r, errno) => FinishKeeps(n, r, errno);
    case SeeCancel(r) => SeeCancelKeeps(n, r);
    case LoseServer(g) => LoseServerKeeps(n, g);
    case HandshakeLost => HandshakeLostKeeps(n);
    case DropSession(_) => SessionKeeps(n, d);
    case CloseSession(_) => SessionKeeps(n, d);
  }
}
