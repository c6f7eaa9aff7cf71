/** Whatever the server does keeps the handles accounted for. */
module HandleServer {
  import opened Files
  import opened Wire
  import opened Protocol
  import opened WireInvariant
  import opened OrderInvariant
  import opened Sends
  import opened HandleInvariant

  /** Everything but beginning and finishing a request, and closing a session, leaves every handle as it was. */
  lemma MildDeed(n: Net, d: Deed)
    requires Ranged(n) && Can(n, d) && !d.Finish? && !d.CloseSession?
    requires d.Begin? ==> !Done(n, d).reqs[d.r].phase.Running?
    ensures |Done(n, d).reqs| == |n.reqs| && |Done(n, d).sessions| == |n.sessions|
    ensures forall x | 0 <= x < |n.reqs| :: Mild(n.reqs[x], Done(n, d).reqs[x])
    ensures forall i | 0 <= i < |n.sessions| ::
              Done(n, d).sessions[i].handles == n.sessions[i].handles && Done(n, d).sessions[i].closed == n.sessions[i].closed
  {
  }

  lemma MildFh(s: State, d: Deed, fh: nat)
    requires NetInv(s.net) && FhInv(s, fh) && Can(s.net, d) && !d.Finish? && !d.CloseSession?
    requires d.Begin? ==> !Done(s.net, d).reqs[d.r].phase.Running?
    ensures Ranged(Done(s.net, d)) && FhInv(s.(net := Done(s.net, d)), fh)
  {
    DeedKeeps(s.net, d);
    MildDeed(s.net, d);
    FactsFrame(s, s.(net := Done(s.net, d)), fh);
  }

  lemma BeginReq(n: Net, r: nat, f: Facts, awaited: Option<nat>, fh: nat, x: nat)
    requires Ranged(n) && Can(n, Begin(r)) && Began(n, r).reqs[r].phase.Running? && x < |n.reqs|
    requires ReqFacts(n, f, awaited, fh, x) && f.atServer == AtServer(n, fh)
    ensures Ranged(Began(n, r)) && ReqFacts(Began(n, r), f, awaited, fh, x)
  {
  }

  lemma BeginFh(s: State, r: nat, fh: nat)
    requires Ranged(s.net) && FhInv(s, fh) && Can(s.net, Begin(r)) && Began(s.net, r).reqs[r].phase.Running?
    ensures Ranged(Began(s.net, r)) && FhInv(s.(net := Began(s.net, r)), fh)
  {
    var t := s.(net := Began(s.net, r));
    assert FactsOf(t, fh) == FactsOf(s, fh);
    forall x | 0 <= x < |t.net.reqs|
      ensures Ranged(t.net) && ReqFacts(t.net, FactsOf(t, fh), Awaited(t, fh), fh, x)
    {
      assert ReqFacts(s.net, FactsOf(s, fh), Awaited(s, fh), fh, x);
      BeginReq(s.net, r, FactsOf(s, fh), Awaited(s, fh), fh, x);
    }
  }

  lemma CloseFh(s: State, i: nat, fh: nat)
    requires Ranged(s.net) && FhInv(s, fh) && Can(s.net, CloseSession(i))
    ensures FhInv(s.(net := SessionClosed(s.net, i)), fh)
  {
    var t := s.(net := SessionClosed(s.net, i));
    var f, f' := FactsOf(s, fh), FactsOf(t, fh);
    assert f' == if i == Sid(s.net) then f.(atServer := false, closed := true) else f;
    forall x | 0 <= x < |t.net.reqs| ensures ReqFacts(t.net, f', Awaited(t, fh), fh, x) {
      assert ReqFacts(s.net, f, Awaited(s, fh), fh, x);
    }
  }

  // ---- A request finishes ----

  /** While an open of an id can still run, no other open of it in its session is under way, and none that the client
      waits for has ended. */
  lemma OneOpenAtATime(s: State, r: nat, x: nat)
    requires OrderInv(s) && SendInv(s) && r < |s.net.reqs| && x < |s.net.reqs| && x != r
    requires s.net.reqs[r].op.OpOpen? && s.net.reqs[x].op == s.net.reqs[r].op
    requires SessionOf(s.net, x) == SessionOf(s.net, r) && UnderWay(s.net.reqs[r].phase)
    ensures !UnderWay(s.net.reqs[x].phase)
    ensures s.net.reqs[x].phase.Finished? ==> Awaited(s, s.net.reqs[r].op.fh) != Some(x)
  {
    var n, fh := s.net, s.net.reqs[r].op.fh;
    assert ApartAt(n, x, r) && OrderAt(n, x, r) && OrderAt(n, r, x);
    assert LinkAt(s.calls, n, s.reopening, r) && LinkAt(s.calls, n, s.reopening, x) && SendsAt(s.calls, n, r);
    if Opening(s.calls, fh) { assert CallAt(s.calls, n, fh); }
    assert ReopenAt(n, s.round, s.reopening, fh);
    assert n.reqs[r].conn < |n.conns|;
  }

  /** Once the release owed of an id has finished, no open of it in that session can run. */
  lemma ReleasedForGood(s: State, r: nat, x: nat)
    requires OrderInv(s) && r < |s.net.reqs| && x < |s.net.reqs|
    requires s.net.reqs[r].op.OpOpen? && s.net.reqs[x].origin == OwedRelease(s.net.reqs[r].op.fh)
    requires SessionOf(s.net, x) == SessionOf(s.net, r) && Begun(s.net.reqs[x].phase)
    ensures Dead(s.net, r)
  {
    assert LinkAt(s.calls, s.net, s.reopening, x);
    BegunMeansBefore(s, r, x);
  }

  lemma FinishOpenReq(n: Net, r: nat, errno: bool, f: Facts, awaited: Option<nat>, fh: nat, x: nat)
    requires Ranged(n) && Can(n, Finish(r, errno)) && x < |n.reqs| && ReqAt(n, r) && n.reqs[r].op == OpOpen(fh)
    requires ReqFacts(n, f, awaited, fh, x) && ReqFacts(n, f, awaited, fh, r) && f.atServer == AtServer(n, fh)
    requires x != r && SessionOf(n, x) == SessionOf(n, r) ==>
               && (n.reqs[x].op == OpOpen(fh) ==> !UnderWay(n.reqs[x].phase))
               && (n.reqs[x].op == OpOpen(fh) && n.reqs[x].answer.ErrnoReply? ==> awaited != Some(x))
               && (n.reqs[x].origin == OwedRelease(fh) ==> !n.reqs[x].phase.Finished?)
    requires n.reqs[x].origin.OwedRelease? ==> n.reqs[x].op == OpRelease(n.reqs[x].origin.fh, true)
    ensures Ranged(DoneWith(n, r, errno))
    ensures ReqFacts(DoneWith(n, r, errno), f.(atServer := f.atServer || (!n.reqs[r].kept && !errno)), awaited, fh, x)
  {
  }

  lemma FinishOpenAt(s: State, r: nat, errno: bool, fh: nat, x: nat)
    requires OrderInv(s) && SendInv(s) && FhInv(s, fh) && Can(s.net, Finish(r, errno)) && s.net.reqs[r].op == OpOpen(fh)
    requires x < |s.net.reqs|
    ensures Ranged(DoneWith(s.net, r, errno))
    ensures var f := FactsOf(s, fh);
            ReqFacts(DoneWith(s.net, r, errno), f.(atServer := f.atServer || (!s.net.reqs[r].kept && !errno)),
                     Awaited(s, fh), fh, x)
  {
    var n, f := s.net, FactsOf(s, fh);
    assert ReqAt(n, r) && ReqFacts(n, f, Awaited(s, fh), fh, r);
    assert ReqFacts(n, f, Awaited(s, fh), fh, x) && ReqAt(n, x) && LinkAt(s.calls, n, s.reopening, x);
    if x != r && SessionOf(n, x) == SessionOf(n, r) {
      if n.reqs[x].op == OpOpen(fh) { OneOpenAtATime(s, r, x); }
      if n.reqs[x].origin == OwedRelease(fh) && n.reqs[x].phase.Finished? { ReleasedForGood(s, r, x); }
    }
    FinishOpenReq(n, r, errno, f, Awaited(s, fh), fh, x);
  }

  lemma FinishOpenFh(s: State, r: nat, errno: bool, fh: nat)
    requires OrderInv(s) && SendInv(s) && FhInv(s, fh) && Can(s.net, Finish(r, errno)) && s.net.reqs[r].op == OpOpen(fh)
    ensures Ranged(DoneWith(s.net, r, errno)) && FhInv(s.(net := DoneWith(s.net, r, errno)), fh)
  {
    var n, t := s.net, s.(net := DoneWith(s.net, r, errno));
    var f := FactsOf(s, fh);
    assert ReqAt(n, r) && ReqFacts(n, f, Awaited(s, fh), fh, r);
    assert FactsOf(t, fh) == f.(atServer := f.atServer || (!n.reqs[r].kept && !errno));
    forall x | 0 <= x < |t.net.reqs|
      ensures Ranged(t.net) && ReqFacts(t.net, FactsOf(t, fh), Awaited(t, fh), fh, x)
    {
      FinishOpenAt(s, r, errno, fh, x);
    }
  }

  lemma FinishOtherFh(s: State, r: nat, errno: bool, fh: nat)
    requires NetInv(s.net) && FhInv(s, fh) && Can(s.net, Finish(r, errno)) && !About(s.net.reqs[r].op, fh)
    ensures Ranged(DoneWith(s.net, r, errno)) && FhInv(s.(net := DoneWith(s.net, r, errno)), fh)
  {
    DeedKeeps(s.net, Finish(r, errno));
    FactsFrame(s, s.(net := DoneWith(s.net, r, errno)), fh);
  }

  lemma FinishReleaseReq(n: Net, r: nat, errno: bool, f: Facts, awaited: Option<nat>, fh: nat, x: nat)
    requires Ranged(n) && Can(n, Finish(r, errno)) && x < |n.reqs| && ReqAt(n, r) && ReqAt(n, x)
    requires n.reqs[r].op.OpRelease? && n.reqs[r].op.fh == fh
    requires ReqFacts(n, f, awaited, fh, x) && ReqFacts(n, f, awaited, fh, r) && f.atServer == AtServer(n, fh)
    requires awaited.Some? ==> f.opening || f.pending
    ensures Ranged(DoneWith(n, r, errno))
    ensures ReqFacts(DoneWith(n, r, errno), f.(atServer := false), awaited, fh, x)
  {
  }

  lemma FinishReleaseFh(s: State, r: nat, errno: bool, fh: nat)
    requires OrderInv(s) && FhInv(s, fh) && Can(s.net, Finish(r, errno))
    requires s.net.reqs[r].op.OpRelease? && s.net.reqs[r].op.fh == fh
    ensures Ranged(DoneWith(s.net, r, errno)) && FhInv(s.(net := DoneWith(s.net, r, errno)), fh)
  {
    var n, t := s.net, s.(net := DoneWith(s.net, r, errno));
    var f := FactsOf(s, fh);
    assert ReqAt(n, r) && ReqFacts(n, f, Awaited(s, fh), fh, r) && ReopenAt(n, s.round, s.reopening, fh);
    assert FactsOf(t, fh) == f.(atServer := false);
    forall x | 0 <= x < |t.net.reqs|
      ensures Ranged(t.net) && ReqFacts(t.net, FactsOf(t, fh), Awaited(t, fh), fh, x)
    {
      assert ReqAt(n, x) && ReqFacts(n, f, Awaited(s, fh), fh, x);
      FinishReleaseReq(n, r, errno, f, Awaited(s, fh), fh, x);
    }
  }

  lemma FinishFh(s: State, r: nat, errno: bool, fh: nat)
    requires OrderInv(s) && SendInv(s) && FhInv(s, fh) && Can(s.net, Finish(r, errno))
    ensures Ranged(DoneWith(s.net, r, errno)) && FhInv(s.(net := DoneWith(s.net, r, errno)), fh)
  {
    if s.net.reqs[r].op == OpOpen(fh) {
      FinishOpenFh(s, r, errno, fh);
    } else if s.net.reqs[r].op.OpRelease? && s.net.reqs[r].op.fh == fh {
      FinishReleaseFh(s, r, errno, fh);
    } else {
      FinishOtherFh(s, r, errno, fh);
    }
  }

  lemma ServerHandles(s: State, d: Deed)
    requires Inv(s) && Can(s.net, d)
    ensures HandleInv(s.(net := Done(s.net, d)))
  {
    DeedKeeps(s.net, d);
    forall fh: nat ensures FhInv(s.(net := Done(s.net, d)), fh) {
      match d
      case Finish(r, errno) => FinishFh(s, r, errno, fh);
      case CloseSession(i) => CloseFh(s, i, fh);
      case Begin(r) => if Began(s.net, r).reqs[r].phase.Running? { BeginFh(s, r, fh); } else { MildFh(s, d, fh); }
      case _ => MildFh(s, d, fh);
    }
  }
}
