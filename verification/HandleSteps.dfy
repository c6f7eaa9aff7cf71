/** Every step of the client keeps the handles accounted for. */
module HandleSteps {
  import opened Files
  import opened Machine
  import opened Handles
  import opened Wire
  import opened Protocol
  import opened WireInvariant
  import opened OrderInvariant
  import opened OrderSteps
  import opened Sends
  import opened HandleInvariant
  import opened HandleServer

  // ---- The calls ----

  /** Calls that neither start nor end a release of `fh` leave its two facts about releases alone. */
  lemma SameReleases(before: seq<CallRec>, now: seq<CallRec>, fh: nat)
    requires |before| <= |now|
    requires forall c | 0 <= c < |before| ::
               && now[c].kind == before[c].kind
               && (before[c].kind == Release(fh) ==> now[c].call.status.Ended? == before[c].call.status.Ended?)
    requires forall c | |before| <= c < |now| :: now[c].kind != Release(fh)
    ensures (exists c | 0 <= c < |now| :: ReleaseOpen(now, fh, c)) == (exists c | 0 <= c < |before| :: ReleaseOpen(before, fh, c))
    ensures (exists c | 0 <= c < |now| :: ReleaseCall(now, fh, c)) == (exists c | 0 <= c < |before| :: ReleaseCall(before, fh, c))
  {
    forall c | 0 <= c < |before| ensures ReleaseOpen(now, fh, c) == ReleaseOpen(before, fh, c) {}
    forall c | 0 <= c < |before| ensures ReleaseCall(now, fh, c) == ReleaseCall(before, fh, c) {}
  }

  /** No release of an id is ever made before its open has ended. */
  lemma NotYetOpened(s: State, fh: nat)
    requires OrderInv(s) && !HasOpened(s.calls, fh)
    ensures var f := FactsOf(s, fh); !f.held && !f.owed && !f.pending && !f.released && !f.releasing
    ensures fh !in s.reopening
  {
    assert KnownAt(s.calls, s.table, s.round, fh) && ReopenAt(s.net, s.round, s.reopening, fh);
    forall c | 0 <= c < |s.calls| ensures !ReleaseCall(s.calls, fh, c) && !ReleaseOpen(s.calls, fh, c) {
      assert CallAt(s.calls, s.net, c);
    }
  }

  lemma StartReleaseFh(s: State, kind: Kind, resendable: bool, fh: nat)
    requires OrderInv(s) && FhInv(s, fh) && CanStart(s, kind) && kind == Release(fh)
    ensures FhInv(DoStart(s, kind, resendable), fh)
  {
    var t, c := DoStart(s, kind, resendable), |s.calls|;
    var f, f' := FactsOf(s, fh), FactsOf(t, fh);
    assert ReleaseOpen(t.calls, fh, c) && ReleaseCall(t.calls, fh, c);
    assert KnownAt(s.calls, s.table, s.round, fh);
    assert f' == f.(held := false, live := false, releasing := true, released := true);
    forall x | 0 <= x < |t.net.reqs| ensures ReqFacts(t.net, f', Awaited(t, fh), fh, x) {
      assert ReqFacts(s.net, f, Awaited(s, fh), fh, x);
    }
  }

  lemma StartOtherFh(s: State, kind: Kind, resendable: bool, fh: nat)
    requires FhInv(s, fh) && CanStart(s, kind) && kind != Release(fh) && fh != |s.calls|
    ensures FhInv(DoStart(s, kind, resendable), fh)
  {
    SameReleases(s.calls, DoStart(s, kind, resendable).calls, fh);
    FactsFrame(s, DoStart(s, kind, resendable), fh);
  }

  /** The id of an open that starts is new: nothing is known of it, and no request is about it. */
  lemma StartOwnFh(s: State, kind: Kind, resendable: bool)
    requires OrderInv(s) && FhInv(s, |s.calls|) && CanStart(s, kind) && kind != Release(|s.calls|)
    ensures FhInv(DoStart(s, kind, resendable), |s.calls|)
  {
    var t, fh := DoStart(s, kind, resendable), |s.calls|;
    var f, f' := FactsOf(s, fh), FactsOf(t, fh);
    SameReleases(s.calls, t.calls, fh);
    NotYetOpened(s, fh);
    assert f' == f.(opening := kind.Open?);
    forall x | 0 <= x < |t.net.reqs| ensures ReqFacts(t.net, f', Awaited(t, fh), fh, x) {
      assert ReqFacts(s.net, f, Awaited(s, fh), fh, x) && LinkAt(s.calls, s.net, s.reopening, x);
      if s.net.reqs[x].origin.OfCall? { assert CallAt(s.calls, s.net, s.net.reqs[x].origin.c); }
    }
  }

  lemma StartFh(s: State, kind: Kind, resendable: bool, fh: nat)
    requires OrderInv(s) && FhInv(s, fh) && CanStart(s, kind)
    ensures FhInv(DoStart(s, kind, resendable), fh)
  {
    if kind == Release(fh) { StartReleaseFh(s, kind, resendable, fh); }
    else if fh == |s.calls| { StartOwnFh(s, kind, resendable); }
    else { StartOtherFh(s, kind, resendable, fh); }
  }

  lemma DropDeadFh(s: State, f0: nat, fh: nat)
    requires Ranged(s.net) && FhInv(s, fh) && f0 in s.table.held && s.table.held[f0].dead
    ensures FhInv(s.(table := s.table.Remove(f0)), fh)
  {
    var t := s.(table := s.table.Remove(f0));
    var f, f' := FactsOf(s, fh), FactsOf(t, fh);
    assert f' == if fh == f0 then f.(held := false) else f;
    forall x | 0 <= x < |t.net.reqs| ensures ReqFacts(t.net, f', Awaited(t, fh), fh, x) {
      assert ReqFacts(s.net, f, Awaited(s, fh), fh, x);
    }
  }

  /** A call goes on: sent, or waiting to be sent again. */
  lemma GoesOnFh(s: State, t: State, c: nat, fh: nat)
    requires OrderInv(s) && FhInv(s, fh) && c < |s.calls| && !s.calls[c].call.status.Ended?
    requires |t.calls| == |s.calls| && t == s.(calls := s.calls[c := t.calls[c]]) && t.calls[c].kind == s.calls[c].kind
    requires !t.calls[c].call.status.Ended? || s.calls[c].kind.Reading? || s.calls[c].kind.Change?
    requires t.calls[c].req == s.calls[c].req || t.calls[c].req.None?
    ensures FhInv(t, fh)
  {
    SameReleases(s.calls, t.calls, fh);
    var f := FactsOf(s, fh);
    assert FactsOf(t, fh) == f;
    forall x | 0 <= x < |t.net.reqs| ensures ReqFacts(t.net, f, Awaited(t, fh), fh, x) {
      assert ReqFacts(s.net, f, Awaited(s, fh), fh, x);
      if fh == c && Opening(s.calls, fh) { NotYetOpened(s, fh); }
    }
  }

  /** Once the open the client waits for has finished, no open of its id in the session can run any more. */
  lemma OpensOver(s: State, fh: nat, r: nat, x: nat)
    requires OrderInv(s) && SendInv(s) && Awaited(s, fh) == Some(r) && r < |s.net.reqs| && x < |s.net.reqs|
    requires s.net.reqs[r].op == OpOpen(fh) && s.net.reqs[r].phase.Finished?
    requires s.net.reqs[x].op == OpOpen(fh) && SessionOf(s.net, x) == SessionOf(s.net, r)
    ensures Dead(s.net, x)
  {
    var n := s.net;
    assert ApartAt(n, x, r) && OrderAt(n, x, r) && SendsAt(s.calls, n, x) && LinkAt(s.calls, n, s.reopening, x);
    assert ReopenAt(n, s.round, s.reopening, fh) && n.reqs[x].conn < |n.conns|;
    if Opening(s.calls, fh) { assert CallAt(s.calls, n, fh); }
  }

  /** The call `c`, an open, ends with the table `t` has; `m` is the wire as it is then. */
  ghost predicate OpenEnds(s: State, t: State, c: nat, result: CallResult, refused: bool) {
    && c < |s.calls| && |t.calls| == |s.calls| && s.calls[c].kind.Open? && !s.calls[c].call.status.Ended?
    && t.calls == s.calls[c := t.calls[c]] && t.calls[c].kind == s.calls[c].kind && t.calls[c].call.status.Ended?
    && t.table == Settle(s.table, s.calls[c].kind, c, result, refused)
    && t.round == s.round && t.reopening == s.reopening
    && Moves(s.net, t.net) && t.net.sessions == s.net.sessions && |t.net.reqs| == |s.net.reqs|
    && (forall x | 0 <= x < |s.net.reqs| :: Mild(s.net.reqs[x], t.net.reqs[x]))
  }

  lemma OpenEndsOthers(s: State, t: State, c: nat, result: CallResult, refused: bool, fh: nat)
    requires OpenEnds(s, t, c, result, refused) && FhInv(s, fh) && fh != c
    ensures FhInv(t, fh)
  {
    SameReleases(s.calls, t.calls, fh);
    FactsFrame(s, t, fh);
  }

  lemma OpenEndsOwed(s: State, t: State, c: nat, result: CallResult, refused: bool)
    requires OrderInv(s) && OpenEnds(s, t, c, result, refused) && FhInv(s, c)
    requires OpenSettled(result).Owe? || (OpenSettled(result).Keep? && refused)
    ensures FhInv(t, c)
  {
    var f, f' := FactsOf(s, c), FactsOf(t, c);
    NotYetOpened(s, c);
    SameReleases(s.calls, t.calls, c);
    assert f' == f.(opening := false, owed := true);
    forall x | 0 <= x < |t.net.reqs| ensures ReqFacts(t.net, f', Awaited(t, c), c, x) {
      assert ReqFacts(s.net, f, Awaited(s, c), c, x);
      assert ReqMoves(s.net, t.net, x) && ConnMoves(s.net, t.net, s.net.reqs[x].conn);
    }
  }

  /** What a request says of a handle once no open of its id in the session can run any more: `f'` is the facts after. */
  lemma OverReq(n: Net, m: Net, f: Facts, f': Facts, awaited: Option<nat>, fh: nat, x: nat)
    requires Ranged(n) && Ranged(m) && x < |n.reqs| && x < |m.reqs| && Mild(n.reqs[x], m.reqs[x])
    requires SessionOf(m, x) == SessionOf(n, x) && Sid(m) == Sid(n) && ReqFacts(n, f, awaited, fh, x)
    requires n.reqs[x].op == OpOpen(fh) && SessionOf(n, x) == Sid(n) ==> Dead(n, x) && Dead(m, x)
    requires f'.atServer == f.atServer && (f'.live ==> f.live || f.opening || f.pending)
    requires (f'.opening ==> f.opening) && (f'.pending ==> f.pending) && (f.owed && !f'.owed ==> !f.atServer)
    ensures ReqFacts(m, f', None, fh, x)
  {
  }

  /** What the answer to an open says: the server has it or not, and nothing that opens it can run any more. */
  lemma AnswerSettles(s: State, c: nat, r: nat, keep: bool)
    requires OrderInv(s) && SendInv(s) && FhInv(s, c) && Opening(s.calls, c) && s.calls[c].req == Some(r)
    requires r < |s.net.reqs| && s.net.conns[s.net.reqs[r].conn].clientAlive
    requires if keep then s.net.reqs[r].answer.Reply? else s.net.reqs[r].answer.ErrnoReply?
    ensures var f := FactsOf(s, c);
      !f.held && !f.live && !f.owed && !f.pending && (if keep then f.closed || f.atServer else !f.atServer)
    ensures forall x | 0 <= x < |s.net.reqs| ::
              s.net.reqs[x].op == OpOpen(c) && SessionOf(s.net, x) == Sid(s.net) ==> Dead(s.net, x)
  {
    NotYetOpened(s, c);
    assert CallAt(s.calls, s.net, c) && LinkAt(s.calls, s.net, s.reopening, r) && ReqAt(s.net, r);
    assert ConnAt(s.net.conns, s.net.sessions, s.net.reqs[r].conn);
    assert ReqFacts(s.net, FactsOf(s, c), Awaited(s, c), c, r);
    forall x | 0 <= x < |s.net.reqs| && s.net.reqs[x].op == OpOpen(c) && SessionOf(s.net, x) == Sid(s.net)
      ensures Dead(s.net, x)
    {
      OpensOver(s, c, r, x);
    }
  }

  /** The open's answer settles it: kept, and the server has it; or refused, and the server has nothing. */
  lemma OpenEndsSettled(s: State, t: State, c: nat, result: CallResult)
    requires OpenEnds(s, t, c, result, false) && FhInv(s, c)
    requires OpenSettled(result).Keep? || OpenSettled(result).Nothing?
    requires var f := FactsOf(s, c);
      !f.held && !f.live && !f.owed && !f.pending
      && (if OpenSettled(result).Keep? then f.closed || f.atServer else !f.atServer)
    requires forall x | 0 <= x < |s.net.reqs| ::
               s.net.reqs[x].op == OpOpen(c) && SessionOf(s.net, x) == Sid(s.net) ==> Dead(s.net, x)
    requires c !in s.reopening && !FactsOf(s, c).released
    ensures FhInv(t, c)
  {
    var f, f' := FactsOf(s, c), FactsOf(t, c);
    SameReleases(s.calls, t.calls, c);
    assert f' == f.(opening := false, held := OpenSettled(result).Keep?, live := OpenSettled(result).Keep?);
    assert Awaited(t, c) == None;
    forall x | 0 <= x < |t.net.reqs| ensures ReqFacts(t.net, f', None, c, x) {
      assert ReqFacts(s.net, f, Awaited(s, c), c, x);
      assert ReqMoves(s.net, t.net, x) && ConnMoves(s.net, t.net, s.net.reqs[x].conn);
      OverReq(s.net, t.net, f, f', Awaited(s, c), c, x);
    }
  }

  /** The call `c`, the kernel's release of `f0`, ends, its release owed or not. */
  ghost predicate ReleaseEnds(s: State, t: State, c: nat, f0: nat, owes: bool) {
    && c < |s.calls| && |t.calls| == |s.calls| && s.calls[c].kind == Release(f0) && !s.calls[c].call.status.Ended?
    && t.calls == s.calls[c := t.calls[c]] && t.calls[c].kind == s.calls[c].kind && t.calls[c].call.status.Ended?
    && t.table == (if owes then s.table.Owe(f0) else s.table)
    && t.round == s.round && t.reopening == s.reopening
    && Moves(s.net, t.net) && t.net.sessions == s.net.sessions && |t.net.reqs| == |s.net.reqs|
    && (forall x | 0 <= x < |s.net.reqs| :: Mild(s.net.reqs[x], t.net.reqs[x]))
  }

  lemma ReleaseEndsFh(s: State, t: State, c: nat, f0: nat, owes: bool, fh: nat)
    requires OrderInv(s) && ReleaseEnds(s, t, c, f0, owes) && FhInv(s, fh)
    requires !owes && fh == f0 ==> !FactsOf(s, f0).atServer || FactsOf(s, f0).owed
    ensures FhInv(t, fh)
  {
    if fh != f0 {
      SameReleases(s.calls, t.calls, fh);
      FactsFrame(s, t, fh);
    } else {
      assert CallAt(s.calls, s.net, c);
      ReleaseEndsItself(s, t, c, fh, owes);
    }
  }

  lemma ReleaseEndsItself(s: State, t: State, c: nat, fh: nat, owes: bool)
    requires ReleaseEnds(s, t, c, fh, owes) && FhInv(s, fh) && !Opening(s.calls, fh)
    requires !owes ==> !FactsOf(s, fh).atServer || FactsOf(s, fh).owed
    ensures FhInv(t, fh)
  {
    var f, f' := FactsOf(s, fh), FactsOf(t, fh);
    assert ReleaseCall(s.calls, fh, c) && ReleaseCall(t.calls, fh, c);
    assert f' == f.(releasing := f'.releasing, owed := f.owed || owes);
    forall x | 0 <= x < |t.net.reqs| ensures ReqFacts(t.net, f', Awaited(t, fh), fh, x) {
      assert ReqFacts(s.net, f, Awaited(s, fh), fh, x);
      assert ReqMoves(s.net, t.net, x) && ConnMoves(s.net, t.net, s.net.reqs[x].conn);
    }
  }

  /** A call that opens and releases nothing ends. */
  lemma PlainEndsFh(s: State, t: State, c: nat, fh: nat)
    requires FhInv(s, fh) && c < |s.calls| && |t.calls| == |s.calls|
    requires s.calls[c].kind.Reading? || s.calls[c].kind.Change?
    requires t.calls == s.calls[c := t.calls[c]] && t.calls[c].kind == s.calls[c].kind
    requires t.table == s.table && t.round == s.round && t.reopening == s.reopening
    requires Moves(s.net, t.net) && t.net.sessions == s.net.sessions && |t.net.reqs| == |s.net.reqs|
    requires forall x | 0 <= x < |s.net.reqs| :: Mild(s.net.reqs[x], t.net.reqs[x])
    ensures FhInv(t, fh)
  {
    SameReleases(s.calls, t.calls, fh);
    assert Opening(t.calls, fh) == Opening(s.calls, fh);
    assert FactsOf(t, fh) == FactsOf(s, fh);
    FactsFrame(s, t, fh);
  }

  lemma GiveUpMild(s: State, c: nat, error: Error)
    requires OrderInv(s) && CanGiveUp(s, c, error)
    ensures var m := DoGiveUp(s, c, error).net;
      && Moves(s.net, m) && m.sessions == s.net.sessions && |m.reqs| == |s.net.reqs|
      && (forall x | 0 <= x < |s.net.reqs| :: Mild(s.net.reqs[x], m.reqs[x]))
  {
    GiveUpNet(s, c, error, if s.calls[c].req.Some? then s.calls[c].req.value else -1);
  }

  lemma GiveUpOpenFh(s: State, c: nat, error: Error, fh: nat)
    requires OrderInv(s) && FhInv(s, fh) && CanGiveUp(s, c, error) && s.calls[c].kind.Open?
    ensures FhInv(DoGiveUp(s, c, error), fh)
  {
    var t := DoGiveUp(s, c, error);
    GiveUpMild(s, c, error);
    assert OpenEnds(s, t, c, Err(error), false);
    if fh == c { OpenEndsOwed(s, t, c, Err(error), false); } else { OpenEndsOthers(s, t, c, Err(error), false, fh); }
  }

  lemma GiveUpFh(s: State, c: nat, error: Error, fh: nat)
    requires OrderInv(s) && FhInv(s, fh) && CanGiveUp(s, c, error)
    ensures FhInv(DoGiveUp(s, c, error), fh)
  {
    var t, kind := DoGiveUp(s, c, error), s.calls[c].kind;
    if kind.Open? {
      GiveUpOpenFh(s, c, error, fh);
    } else {
      GiveUpMild(s, c, error);
      if kind.Release? { ReleaseEndsFh(s, t, c, kind.fh, true, fh); } else { PlainEndsFh(s, t, c, fh); }
    }
  }

  lemma LoseFh(s: State, c: nat, fh: nat)
    requires OrderInv(s) && FhInv(s, fh) && CanLose(s, c)
    ensures FhInv(DoLose(s, c), fh)
  {
    var t, rec := DoLose(s, c), s.calls[c];
    LoseKeeps(s, c);
    if t.calls[c].call.status.Ended? && rec.kind.Open? {
      if fh == c { OpenEndsOwed(s, t, c, Err(Disconnected), false); }
      else { OpenEndsOthers(s, t, c, Err(Disconnected), false, fh); }
    } else if t.calls[c].call.status.Ended? && rec.kind.Release? {
      ReleaseEndsFh(s, t, c, rec.kind.fh, true, fh);
    } else {
      GoesOnFh(s, t, c, fh);
    }
  }

  lemma AnswerOpenFh(s: State, r: nat, result: CallResult, refused: bool, fh: nat)
    requires OrderInv(s) && SendInv(s) && FhInv(s, fh) && CanAnswerCall(s, r, result)
    requires s.calls[s.net.reqs[r].origin.c].kind.Open? && Moves(s.net, Read(s.net, r))
    ensures FhInv(DoAnswerCall(s, r, result, refused), fh)
  {
    var t, c := DoAnswerCall(s, r, result, refused), s.net.reqs[r].origin.c;
    if OpenSettled(result).Owe? || (OpenSettled(result).Keep? && refused) {
      assert OpenEnds(s, t, c, result, refused);
      if fh != c { OpenEndsOthers(s, t, c, result, refused, fh); } else { OpenEndsOwed(s, t, c, result, refused); }
    } else {
      assert OpenEnds(s, t, c, result, false);
      if fh != c { OpenEndsOthers(s, t, c, result, false, fh); } else { OpenAnswered(s, r, result); OpenNowSettled(s, t, r, result); }
    }
  }

  lemma OpenNowSettled(s: State, t: State, r: nat, result: CallResult)
    requires OrderInv(s) && SendInv(s) && CanAnswerCall(s, r, result)
    requires var c := s.net.reqs[r].origin.c; FhInv(s, c) && OpenEnds(s, t, c, result, false)
    requires OpenSettled(result).Keep? || OpenSettled(result).Nothing?
    ensures FhInv(t, s.net.reqs[r].origin.c)
  {
    var c := s.net.reqs[r].origin.c;
    OpenAnswered(s, r, result);
    AnswerSettles(s, c, r, OpenSettled(result).Keep?);
    NotYetOpened(s, c);
    assert ReopenAt(s.net, s.round, s.reopening, c);
    OpenEndsSettled(s, t, c, result);
  }

  /** An answer the client still waits for is a reply or an errno. */
  lemma OpenAnswered(s: State, r: nat, result: CallResult)
    requires OrderInv(s) && CanAnswerCall(s, r, result)
    ensures s.net.reqs[r].answer.Reply? || s.net.reqs[r].answer.ErrnoReply?
    ensures s.net.reqs[r].phase.Finished? && SessionOf(s.net, r) == Sid(s.net)
  {
    assert CallAt(s.calls, s.net, s.net.reqs[r].origin.c) && ReqAt(s.net, r);
    assert ConnAt(s.net.conns, s.net.sessions, s.net.reqs[r].conn);
  }

  lemma AnswerCallFh(s: State, r: nat, result: CallResult, refused: bool, fh: nat)
    requires OrderInv(s) && SendInv(s) && FhInv(s, fh) && CanAnswerCall(s, r, result)
    ensures FhInv(DoAnswerCall(s, r, result, refused), fh)
  {
    var t, c := DoAnswerCall(s, r, result, refused), s.net.reqs[r].origin.c;
    ReadKeeps(s.net, r);
    if s.calls[c].kind.Open? { AnswerOpenFh(s, r, result, refused, fh); }
    else if s.calls[c].kind.Release? { AnswerReleaseFh(s, r, result, refused, fh); }
    else { PlainEndsFh(s, t, c, fh); }
  }

  lemma AnswerReleaseFh(s: State, r: nat, result: CallResult, refused: bool, fh: nat)
    requires OrderInv(s) && FhInv(s, fh) && CanAnswerCall(s, r, result)
    requires s.calls[s.net.reqs[r].origin.c].kind.Release? && Moves(s.net, Read(s.net, r))
    ensures FhInv(DoAnswerCall(s, r, result, refused), fh)
  {
    var t, c := DoAnswerCall(s, r, result, refused), s.net.reqs[r].origin.c;
    OpenAnswered(s, r, result);
    assert LinkAt(s.calls, s.net, s.reopening, r);
    assert ReqFacts(s.net, FactsOf(s, fh), Awaited(s, fh), fh, r);
    assert ReleaseEnds(s, t, c, s.calls[c].kind.fh, false);
    ReleaseEndsFh(s, t, c, s.calls[c].kind.fh, false, fh);
  }

  // ---- Requests written ----

  /** A request is written that is about another id, if about any. */
  lemma WritesOthersFh(s: State, t: State, origin: Origin, op: Op, g: nat, fh: nat)
    requires FhInv(s, fh) && g < |s.net.conns| && t.net == Written(s.net, origin, op, g) && Moves(s.net, t.net)
    requires FactsOf(t, fh) == FactsOf(s, fh) && Awaited(t, fh) == Awaited(s, fh) && !About(op, fh)
    ensures FhInv(t, fh)
  {
    FactsFrame(s, t, fh);
  }

  /** A request about `fh` is written while the facts allow it; the client waits for it, if for any. */
  lemma WritesAboutFh(s: State, t: State, origin: Origin, op: Op, g: nat, fh: nat)
    requires FhInv(s, fh) && g < |s.net.conns| && t.net == Written(s.net, origin, op, g) && Moves(s.net, t.net)
    requires FactsOf(t, fh) == FactsOf(s, fh)
    requires Awaited(t, fh) == Awaited(s, fh) || Awaited(t, fh) == Some(|s.net.reqs|)
    requires op.OpOpen? ==> FactsOf(s, fh).Covered()
    requires op.OpRelease? ==> !FactsOf(s, fh).live && !FactsOf(s, fh).opening && !FactsOf(s, fh).pending
    ensures FhInv(t, fh)
  {
    var f := FactsOf(s, fh);
    forall x | 0 <= x < |t.net.reqs| ensures ReqFacts(t.net, f, Awaited(t, fh), fh, x) {
      if x < |s.net.reqs| { assert ReqFacts(s.net, f, Awaited(s, fh), fh, x); }
    }
  }

  lemma WriteOtherFh(s: State, c: nat, fh: nat)
    requires OrderInv(s) && FhInv(s, fh) && CanWrite(s, c) && !About(OpOf(s.calls[c].kind, c), fh)
    requires Moves(s.net, DoWrite(s, c).net)
    ensures FhInv(DoWrite(s, c), fh)
  {
    var t := DoWrite(s, c);
    SameReleases(s.calls, t.calls, fh);
    WritesOthersFh(s, t, OfCall(c), OpOf(s.calls[c].kind, c), s.calls[c].call.status.generation, fh);
  }

  lemma WriteItsFh(s: State, c: nat, fh: nat)
    requires OrderInv(s) && FhInv(s, fh) && CanWrite(s, c) && About(OpOf(s.calls[c].kind, c), fh)
    requires Moves(s.net, DoWrite(s, c).net)
    ensures FhInv(DoWrite(s, c), fh)
  {
    var t, g, op := DoWrite(s, c), s.calls[c].call.status.generation, OpOf(s.calls[c].kind, c);
    SameReleases(s.calls, t.calls, fh);
    assert CallAt(s.calls, s.net, c) && ConnAt(s.net.conns, s.net.sessions, g);
    if op.OpRelease? { PublishedRoundOver(s); assert ReleaseCall(s.calls, fh, c); }
    WritesAboutFh(s, t, OfCall(c), op, g, fh);
  }

  lemma WriteFh(s: State, c: nat, fh: nat)
    requires OrderInv(s) && FhInv(s, fh) && CanWrite(s, c)
    ensures FhInv(DoWrite(s, c), fh)
  {
    assert CallAt(s.calls, s.net, c);
    WrittenKeeps(s.net, OfCall(c), OpOf(s.calls[c].kind, c), s.calls[c].call.status.generation);
    if About(OpOf(s.calls[c].kind, c), fh) { WriteItsFh(s, c, fh); } else { WriteOtherFh(s, c, fh); }
  }

  lemma ReopenWriteFh(s: State, f0: nat, fh: nat)
    requires OrderInv(s) && FhInv(s, fh) && CanReopenWrite(s, f0)
    ensures FhInv(DoReopenWrite(s, f0), fh)
  {
    var t, g := DoReopenWrite(s, f0), Gen(s.net);
    WrittenKeeps(s.net, Reopen(f0), OpOpen(f0), g);
    if fh != f0 { WritesOthersFh(s, t, Reopen(f0), OpOpen(f0), g, fh); }
    else { WritesAboutFh(s, t, Reopen(f0), OpOpen(f0), g, fh); }
  }

  lemma OwedWriteFh(s: State, f0: nat, fh: nat)
    requires OrderInv(s) && FhInv(s, fh) && CanOwedWrite(s, f0)
    ensures FhInv(DoOwedWrite(s, f0), fh)
  {
    var t, g := DoOwedWrite(s, f0), s.table.owed[f0].value;
    WrittenKeeps(s.net, OwedRelease(f0), OpRelease(f0, true), g);
    assert OwedAt(s.table.owed, s.net.conns, f0);
    PublishedRoundOver(s);
    if fh != f0 { WritesOthersFh(s, t, OwedRelease(f0), OpRelease(f0, true), g, fh); }
    else { WritesAboutFh(s, t, OwedRelease(f0), OpRelease(f0, true), g, fh); }
  }

  /** The answer to the release owed of `fh` is in: nothing of it is at the server, and nothing that opens it can run. */
  lemma OwedAnswerSettles(s: State, r: nat, fh: nat)
    requires OrderInv(s) && SendInv(s) && FhInv(s, fh) && CanAnswerOwed(s.net, r)
    requires s.net.reqs[r].origin.fh == fh && DoAnswerOwed(s, r).table != s.table
    ensures !FactsOf(s, fh).atServer && Awaited(s, fh) == None
    ensures forall x | 0 <= x < |s.net.reqs| ::
              s.net.reqs[x].op == OpOpen(fh) && SessionOf(s.net, x) == Sid(s.net) ==> Dead(s.net, x)
  {
    assert LinkAt(s.calls, s.net, s.reopening, r) && ReqAt(s.net, r) && SendsAt(s.calls, s.net, r);
    assert ConnAt(s.net.conns, s.net.sessions, s.net.reqs[r].conn);
    assert ReqFacts(s.net, FactsOf(s, fh), Awaited(s, fh), fh, r) && ReopenAt(s.net, s.round, s.reopening, fh);
    forall x | 0 <= x < |s.net.reqs| && s.net.reqs[x].op == OpOpen(fh) && SessionOf(s.net, x) == Sid(s.net)
      ensures Dead(s.net, x)
    {
      ReleasedForGood(s, x, r);
    }
  }

  lemma OwedOverFh(s: State, r: nat, fh: nat)
    requires FhInv(s, fh) && CanAnswerOwed(s.net, r) && Moves(s.net, Read(s.net, r))
    requires s.net.reqs[r].origin.fh == fh && DoAnswerOwed(s, r).table != s.table
    requires !FactsOf(s, fh).atServer && Awaited(s, fh) == None
    requires forall x | 0 <= x < |s.net.reqs| ::
               s.net.reqs[x].op == OpOpen(fh) && SessionOf(s.net, x) == Sid(s.net) ==> Dead(s.net, x)
    ensures FhInv(DoAnswerOwed(s, r), fh)
  {
    var t := DoAnswerOwed(s, r);
    var f, f' := FactsOf(s, fh), FactsOf(t, fh);
    assert f' == f.(owed := false);
    forall x | 0 <= x < |t.net.reqs| ensures ReqFacts(t.net, f', None, fh, x) {
      assert ReqFacts(s.net, f, Awaited(s, fh), fh, x) && ReqMoves(s.net, t.net, x);
      OverReq(s.net, t.net, f, f', Awaited(s, fh), fh, x);
    }
  }

  lemma AnswerOwedFh(s: State, r: nat, fh: nat)
    requires OrderInv(s) && SendInv(s) && FhInv(s, fh) && CanAnswerOwed(s.net, r)
    ensures FhInv(DoAnswerOwed(s, r), fh)
  {
    ReadKeeps(s.net, r);
    if s.net.reqs[r].origin.fh != fh || DoAnswerOwed(s, r).table == s.table {
      FactsFrame(s, DoAnswerOwed(s, r), fh);
    } else {
      OwedAnswerSettles(s, r, fh);
      OwedOverFh(s, r, fh);
    }
  }

  // ---- Reopens ----

  lemma EndReopenOthers(s: State, f0: nat, outcome: CallResult, m: Net, fh: nat)
    requires FhInv(s, fh) && s.round.Pending(f0) && fh != f0
    requires Moves(s.net, m) && m.sessions == s.net.sessions && |m.reqs| == |s.net.reqs|
    requires forall x | 0 <= x < |s.net.reqs| :: Mild(s.net.reqs[x], m.reqs[x])
    ensures FhInv(EndReopen(s, f0, outcome).(net := m), fh)
  {
    FactsFrame(s, EndReopen(s, f0, outcome).(net := m), fh);
  }

  /** A reopen ends by killing its handle, or finds it released meanwhile: the release is owed. */
  lemma EndReopenOwed(s: State, fh: nat, outcome: CallResult, m: Net)
    requires OrderInv(s) && SendInv(s) && FhInv(s, fh) && fh in s.round.sending
    requires !SameFile(s.round.RecOf(fh), outcome) || fh !in s.table.held
    requires Moves(s.net, m) && m.sessions == s.net.sessions && |m.reqs| == |s.net.reqs|
    requires forall x | 0 <= x < |s.net.reqs| :: Mild(s.net.reqs[x], m.reqs[x])
    ensures FhInv(EndReopen(s, fh, outcome).(net := m), fh)
  {
    var t := EndReopen(s, fh, outcome).(net := m);
    var f, f' := FactsOf(s, fh), FactsOf(t, fh);
    assert f' == f.(pending := false, owed := true, live := false);
    forall x | 0 <= x < |t.net.reqs| ensures ReqFacts(t.net, f', Awaited(t, fh), fh, x) {
      assert ReqFacts(s.net, f, Awaited(s, fh), fh, x);
      assert ReqMoves(s.net, t.net, x) && ConnMoves(s.net, t.net, s.net.reqs[x].conn);
    }
  }

  /** A reopen finds its file again: the handle lives on, and the server has it. */
  lemma EndReopenKept(s: State, fh: nat, outcome: CallResult)
    requires OrderInv(s) && SendInv(s) && FhInv(s, fh) && CanAnswerReopen(s, fh, outcome)
    requires SameFile(s.round.RecOf(fh), outcome) && fh in s.table.held
    ensures FhInv(EndReopen(s, fh, outcome).(net := Read(s.net, s.reopening[fh])), fh)
  {
    var r := s.reopening[fh];
    var t := EndReopen(s, fh, outcome).(net := Read(s.net, r));
    var f, f' := FactsOf(s, fh), FactsOf(t, fh);
    ReadKeeps(s.net, r);
    assert f' == f.(pending := false);
    assert ReopenAt(s.net, s.round, s.reopening, fh) && LinkAt(s.calls, s.net, s.reopening, r) && ReqAt(s.net, r);
    assert ConnAt(s.net.conns, s.net.sessions, s.net.reqs[r].conn) && KnownAt(s.calls, s.table, s.round, fh);
    assert ReqFacts(s.net, f, Awaited(s, fh), fh, r);
    forall x | 0 <= x < |t.net.reqs| ensures ReqFacts(t.net, f', Awaited(t, fh), fh, x) {
      assert ReqFacts(s.net, f, Awaited(s, fh), fh, x) && ReqMoves(s.net, t.net, x);
      if s.net.reqs[x].op == OpOpen(fh) && SessionOf(s.net, x) == SessionOf(s.net, r) { OpensOver(s, fh, r, x); }
    }
  }

  // ---- Connections ----

  lemma ResumeFh(s: State, rootChanged: bool, fh: nat)
    requires OrderInv(s) && FhInv(s, fh) && CanConnect(s.net) && Resumable(s.net, Sid(s.net))
    ensures Ranged(Resumed(s.net)) && FhInv(DoResume(s, rootChanged), fh)
  {
    var t := DoResume(s, rootChanged);
    var f, f' := FactsOf(s, fh), FactsOf(t, fh);
    ResumedKeeps(s.net);
    PublishedRoundOver(s);
    assert KnownAt(s.calls, s.table, s.round, fh);
    assert f' == if rootChanged then f.(live := false, owed := f.owed || f.live) else f;
    forall x | 0 <= x < |t.net.reqs| ensures ReqFacts(t.net, f', Awaited(t, fh), fh, x) {
      assert ReqFacts(s.net, f, Awaited(s, fh), fh, x);
      assert ReqMoves(s.net, t.net, x) && ConnMoves(s.net, t.net, s.net.reqs[x].conn);
    }
  }

  lemma NewSessionFh(s: State, rootChanged: bool, fh: nat)
    requires OrderInv(s) && FhInv(s, fh) && CanConnect(s.net) && !Resumable(s.net, Sid(s.net))
    ensures Ranged(Renewed(s.net)) && FhInv(DoNewSession(s, rootChanged), fh)
  {
    var t := DoNewSession(s, rootChanged);
    var f, f' := FactsOf(s, fh), FactsOf(t, fh);
    RenewedKeeps(s.net);
    assert KnownAt(s.calls, s.table, s.round, fh);
    var live := f.live && !rootChanged;
    assert f' == f.(live := live, owed := false, pending := live, atServer := false, closed := false);
    forall x | 0 <= x < |t.net.reqs| ensures ReqFacts(t.net, f', Awaited(t, fh), fh, x) {
      assert ConnMoves(s.net, t.net, s.net.reqs[x].conn) && ConnAt(s.net.conns, s.net.sessions, s.net.reqs[x].conn);
    }
  }

  // ---- Every step ----

  lemma CallStepHandles(s: State, a: Action, fh: nat)
    requires OrderInv(s) && FhInv(s, fh) && Enabled(s, a) && OfCalls(a)
    ensures FhInv(Next(s, a), fh)
  {
    match a
    case Start(kind, resendable) => StartFh(s, kind, resendable, fh);
    case DropDead(f0) => DropDeadFh(s, f0, fh);
    case Send(c, g) => GoesOnFh(s, DoSend(s, c, g), c, fh);
    case Write(c) => WriteFh(s, c, fh);
    case GiveUp(c, error) => GiveUpFh(s, c, error, fh);
    case Lose(c) => LoseFh(s, c, fh);
    case Fail(c) => GoesOnFh(s, DoFail(s, c), c, fh);
  }

  lemma UncountFh(s: State, r: nat, fh: nat)
    requires NetInv(s.net) && FhInv(s, fh) && r < |s.net.reqs| && s.net.reqs[r].counted
    requires ClientReads(s.net, r) || !s.net.conns[s.net.reqs[r].conn].clientAlive
    ensures FhInv(s.(net := Uncounting(s.net, r)), fh)
  {
    UncountingKeeps(s.net, r);
    FactsFrame(s, s.(net := Uncounting(s.net, r)), fh);
  }

  lemma ConnFh(s: State, m: Net, g: nat, fh: nat)
    requires NetInv(s.net) && FhInv(s, fh) && g < |s.net.conns|
    requires m == LostByClient(s.net, g) || (m == Published(s.net) && g == Gen(s.net) >= 1)
    ensures FhInv(s.(net := m), fh)
  {
    ConnFieldKeeps(s.net, m, g);
    FactsFrame(s, s.(net := m), fh);
  }

  lemma AnswerReopenFh(s: State, f0: nat, outcome: CallResult, fh: nat)
    requires OrderInv(s) && SendInv(s) && FhInv(s, fh) && CanAnswerReopen(s, f0, outcome)
    ensures FhInv(EndReopen(s, f0, outcome).(net := Read(s.net, s.reopening[f0])), fh)
  {
    ReadKeeps(s.net, s.reopening[f0]);
    if fh != f0 { EndReopenOthers(s, f0, outcome, Read(s.net, s.reopening[f0]), fh); }
    else if SameFile(s.round.RecOf(fh), outcome) && fh in s.table.held { EndReopenKept(s, fh, outcome); }
    else { EndReopenOwed(s, fh, outcome, Read(s.net, s.reopening[fh])); }
  }

  /** A reopen that failed ends. */
  lemma FailedReopenFh(s: State, f0: nat, error: Error, m: Net, fh: nat)
    requires OrderInv(s) && SendInv(s) && FhInv(s, fh) && f0 in s.round.sending
    requires m == s.net || (ReopenWritten(s, f0) && m == Counting(s.net, s.reopening[f0]))
    ensures FhInv(EndReopen(s, f0, Err(error)).(net := m), fh)
  {
    if m != s.net {
      assert ReopenAt(s.net, s.round, s.reopening, f0);
      assert LinkAt(s.calls, s.net, s.reopening, s.reopening[f0]) && ReqAt(s.net, s.reopening[f0]);
      CountingKeeps(s.net, s.reopening[f0]);
    }
    if fh != f0 { EndReopenOthers(s, f0, Err(error), m, fh); } else { EndReopenOwed(s, fh, Err(error), m); }
  }

  lemma AnswerStepHandles(s: State, a: Action, fh: nat)
    requires OrderInv(s) && SendInv(s) && FhInv(s, fh) && Enabled(s, a) && OfAnswers(a) && !a.Server?
    ensures FhInv(Next(s, a), fh)
  {
    match a
    case AnswerCall(r, result, refused) => AnswerCallFh(s, r, result, refused, fh);
    case AnswerCancel(r) => UncountFh(s, r, fh);
    case CancelLost(r) => UncountFh(s, r, fh);
    case AnswerReopen(f0, outcome) => AnswerReopenFh(s, f0, outcome, fh);
    case AnswerOwed(r) => AnswerOwedFh(s, r, fh);
  }

  lemma ConnStepHandles(s: State, a: Action, fh: nat)
    requires OrderInv(s) && FhInv(s, fh) && Enabled(s, a) && OfConnections(a)
    ensures FhInv(Next(s, a), fh)
  {
    match a
    case LoseClient(g) => ConnFh(s, LostByClient(s.net, g), g, fh);
    case Resume(rootChanged) => ResumeFh(s, rootChanged, fh);
    case NewSession(rootChanged) => NewSessionFh(s, rootChanged, fh);
    case Publish => ConnFh(s, Published(s.net), Gen(s.net), fh);
  }

  lemma ReopenSendFh(s: State, f0: nat, fh: nat)
    requires FhInv(s, fh) && f0 in s.round.unsent
    ensures FhInv(s.(round := s.round.Send(f0)), fh)
  {
    var t := s.(round := s.round.Send(f0));
    assert FactsOf(t, fh) == FactsOf(s, fh);
    forall x | 0 <= x < |t.net.reqs| ensures ReqFacts(t.net, FactsOf(t, fh), Awaited(t, fh), fh, x) {
      assert ReqFacts(s.net, FactsOf(s, fh), Awaited(s, fh), fh, x);
    }
  }

  lemma OwedSendFh(s: State, f0: nat, fh: nat)
    requires FhInv(s, fh) && CanOwedSend(s, f0)
    ensures FhInv(DoOwedSend(s, f0), fh)
  {
    var t := DoOwedSend(s, f0);
    assert FactsOf(t, fh) == FactsOf(s, fh);
    forall x | 0 <= x < |t.net.reqs| ensures ReqFacts(t.net, FactsOf(t, fh), Awaited(t, fh), fh, x) {
      assert ReqFacts(s.net, FactsOf(s, fh), Awaited(s, fh), fh, x);
    }
  }

  lemma ReopenStepHandles(s: State, a: Action, fh: nat)
    requires OrderInv(s) && SendInv(s) && FhInv(s, fh) && Enabled(s, a) && OfReopens(a)
    ensures FhInv(Next(s, a), fh)
  {
    match a
    case ReopenSend(f0) => ReopenSendFh(s, f0, fh);
    case ReopenWrite(f0) => ReopenWriteFh(s, f0, fh);
    case ReopenUnwritten(f0, error) => FailedReopenFh(s, f0, error, s.net, fh);
    case ReopenGiveUp(f0) => FailedReopenFh(s, f0, Timeout, Counting(s.net, s.reopening[f0]), fh);
    case ReopenLost(f0) => FailedReopenFh(s, f0, Disconnected, s.net, fh);
    case OwedSend(f0) => OwedSendFh(s, f0, fh);
    case OwedWrite(f0) => OwedWriteFh(s, f0, fh);
  }

  lemma StepKeepsHandles(s: State, a: Action)
    requires Inv(s) && Enabled(s, a)
    ensures HandleInv(Next(s, a))
  {
    if a.Server? {
      ServerHandles(s, a.deed);
    } else {
      forall fh: nat ensures FhInv(Next(s, a), fh) {
        assert FhInv(s, fh);
        if OfCalls(a) { CallStepHandles(s, a, fh); }
        else if OfAnswers(a) { AnswerStepHandles(s, a, fh); }
        else if OfConnections(a) { ConnStepHandles(s, a, fh); }
        else { ReopenStepHandles(s, a, fh); }
      }
    }
  }

  /** The whole invariant is kept by every step. */
  lemma StepKeepsInv(s: State, a: Action)
    requires Inv(s) && Enabled(s, a)
    ensures Inv(Next(s, a)) && Grows(s, Next(s, a))
  {
    StepKeeps(s, a);
    StepKeepsSends(s, a);
    StepKeepsHandles(s, a);
  }

  lemma InitInv()
    ensures Inv(INIT)
  {
    InitOrdered();
  }
}
