/** What every step of the protocol keeps of the handles: what the server may hold in the client's session, and what the
    client knows of it. Everything is said of one handle id at a time. */
module HandleInvariant {
  import opened Files
  import opened Wire
  import opened Protocol
  import opened WireInvariant
  import opened OrderInvariant
  import opened Sends

  /** What there is to know of a handle id: held by the client, live; its release owed; its reopen in the round; its
      open, or the kernel's release of it, not yet ended; that release ever made; the server holding it in the
      client's session; and that session gone at the server. */
  datatype Facts = Facts(held: bool, live: bool, owed: bool, pending: bool, opening: bool, releasing: bool,
                         released: bool, atServer: bool, closed: bool)
  {
    /** What may be at the server is accounted for: it will be released, or its end is still to be seen. */
    predicate Covered() {
      owed || pending || opening
    }

    predicate Ok() {
      && (owed ==> !live && !opening)
      && (pending ==> !opening && (held ==> live))
      && (released ==> !held)
      && (atServer ==> live || Covered() || releasing)
      && (live && !pending && !closed ==> atServer)
    }
  }

  ghost predicate ReleaseCall(calls: seq<CallRec>, fh: nat, c: nat)
    requires c < |calls|
  {
    calls[c].kind == Release(fh)
  }

  ghost predicate ReleaseOpen(calls: seq<CallRec>, fh: nat, c: nat)
    requires c < |calls|
  {
    calls[c].kind == Release(fh) && !calls[c].call.status.Ended?
  }

  predicate Opening(calls: seq<CallRec>, fh: nat) {
    fh < |calls| && calls[fh].kind.Open? && !calls[fh].call.status.Ended?
  }

  ghost predicate AtServer(n: Net, fh: nat) {
    |n.sessions| >= 1 && fh in n.sessions[|n.sessions| - 1].handles
  }

  ghost function FactsOf(s: State, fh: nat): Facts {
    Facts(fh in s.table.held,
          s.table.LiveAt(fh),
          fh in s.table.owed,
          s.round.Pending(fh),
          Opening(s.calls, fh),
          exists c | 0 <= c < |s.calls| :: ReleaseOpen(s.calls, fh, c),
          exists c | 0 <= c < |s.calls| :: ReleaseCall(s.calls, fh, c),
          AtServer(s.net, fh),
          |s.net.sessions| >= 1 && s.net.sessions[|s.net.sessions| - 1].closed)
  }

  /** The request that opens `fh` whose answer the client waits for. */
  function Awaited(s: State, fh: nat): Option<nat> {
    if Opening(s.calls, fh) then s.calls[fh].req
    else if fh in s.reopening then Some(s.reopening[fh])
    else None
  }

  /** What a request of the client's session says of the handle it opens or releases. */
  ghost predicate ReqFacts(n: Net, f: Facts, awaited: Option<nat>, fh: nat, x: nat)
    requires Ranged(n) && x < |n.reqs|
  {
    var q := n.reqs[x];
    && (q.op == OpOpen(fh) && SessionOf(n, x) == Sid(n) ==>
          && (!Dead(n, x) ==> f.Covered())
          && (UnderWay(q.phase) && !q.kept ==> !f.atServer)
          && (awaited == Some(x) && !f.closed && (q.answer.Reply? || (UnderWay(q.phase) && q.kept)) ==> f.atServer)
          && (awaited == Some(x) && q.answer.ErrnoReply? ==> !f.atServer))
    && (q.op.OpRelease? && q.op.fh == fh && SessionOf(n, x) == Sid(n) ==>
          && !f.live && !f.opening && !f.pending
          && (q.phase.Finished? ==> !f.atServer || (f.owed && !q.origin.OwedRelease?)))
  }

  ghost predicate FhInv(s: State, fh: nat) {
    && Ranged(s.net)
    && FactsOf(s, fh).Ok()
    && (forall x | 0 <= x < |s.net.reqs| :: ReqFacts(s.net, FactsOf(s, fh), Awaited(s, fh), fh, x))
  }

  ghost predicate HandleInv(s: State) {
    forall fh: nat :: FhInv(s, fh)
  }

  ghost predicate Inv(s: State) {
    OrderInv(s) && SendInv(s) && HandleInv(s)
  }

  // ---- What a step leaves alone ----

  predicate About(op: Op, fh: nat) {
    (op.OpOpen? || op.OpRelease?) && op.fh == fh
  }

  /** A request moves on without beginning or finishing its work; its answer may be read. */
  ghost predicate Mild(p: Req, q: Req) {
    && q.origin == p.origin && q.op == p.op && q.conn == p.conn && q.kept == p.kept
    && UnderWay(q.phase) == UnderWay(p.phase)
    && q.phase.Finished? == p.phase.Finished?
    && (q.answer.Reply? ==> p.answer.Reply?)
    && (q.answer.ErrnoReply? ==> p.answer.ErrnoReply?)
  }

  /** A step that leaves the facts of `fh` as they were, and moves the requests about it only mildly, if at all. */
  lemma FactsFrame(s: State, t: State, fh: nat)
    requires Moves(s.net, t.net) && |t.net.sessions| == |s.net.sessions| && FhInv(s, fh)
    requires FactsOf(t, fh) == FactsOf(s, fh)
    requires Awaited(t, fh) == Awaited(s, fh)
    requires forall x | 0 <= x < |s.net.reqs| && About(s.net.reqs[x].op, fh) :: Mild(s.net.reqs[x], t.net.reqs[x])
    requires forall x | |s.net.reqs| <= x < |t.net.reqs| :: ReqFacts(t.net, FactsOf(t, fh), Awaited(t, fh), fh, x)
    ensures FhInv(t, fh)
  {
    forall x | 0 <= x < |t.net.reqs| ensures ReqFacts(t.net, FactsOf(t, fh), Awaited(t, fh), fh, x) {
      if x < |s.net.reqs| {
        assert ReqFacts(s.net, FactsOf(s, fh), Awaited(s, fh), fh, x);
        assert ReqMoves(s.net, t.net, x) && ConnMoves(s.net, t.net, s.net.reqs[x].conn);
      }
    }
  }
}
