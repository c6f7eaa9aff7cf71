/** Every step of the protocol keeps the order. */
module OrderSteps {
  import opened Files
  import opened Machine
  import opened Wire
  import opened Protocol
  import opened WireInvariant
  import opened OrderInvariant

  // ---- The calls ----

  lemma StartKeeps(s: State, kind: Kind, resendable: bool)
    requires OrderInv(s) && CanStart(s, kind)
    ensures OrderInv(DoStart(s, kind, resendable)) && Grows(s, DoStart(s, kind, resendable))
  {
    var t, c := DoStart(s, kind, resendable), |s.calls|;
    if kind.Release? { assert KnownAt(s.calls, s.table, s.round, kind.fh); }
    assert CallAt(t.calls, t.net, c);
    forall fh: nat ensures KnownAt(t.calls, t.table, t.round, fh) { assert KnownAt(s.calls, s.table, s.round, fh); }
    LocalKeeps(s, t, c, -1);
  }

  lemma DropDeadKeeps(s: State, fh: nat)
    requires OrderInv(s)
    ensures OrderInv(s.(table := s.table.Remove(fh))) && Grows(s, s.(table := s.table.Remove(fh)))
  {
    var t := s.(table := s.table.Remove(fh));
    forall f: nat ensures KnownAt(t.calls, t.table, t.round, f) { assert KnownAt(s.calls, s.table, s.round, f); }
  }

  /** With no cancel pending on the connection the client uses, whatever an ended call wrote there is settled. */
  lemma NothingPending(s: State, g: nat, x: nat)
    requires OrderInv(s) && g < |s.net.conns| && s.net.conns[g].clientAlive && s.net.conns[g].cancels == 0
    requires x < |s.net.reqs| && s.net.reqs[x].op.Changes()
    requires match s.net.reqs[x].origin
             case OfCall(a) => a < |s.calls| && s.calls[a].call.status.Ended?
             case Reopen(fh) => fh !in s.reopening
             case OwedRelease(_) => false
    ensures s.net.reqs[x].conn < g || Settled(s.net.reqs[x].phase)
  {
    var n := s.net;
    assert LinkAt(s.calls, n, s.reopening, x) && CancelsAt(n.reqs, n.conns, g);
    assert CountedSet(n.reqs, g) == {};
    assert x !in CountedSet(n.reqs, g);
    assert ConnAt(n.conns, n.sessions, g) && n.reqs[x].conn < |n.conns|;
    if n.reqs[x].origin.OfCall? { assert CallAt(s.calls, n, n.reqs[x].origin.c); }
  }

  lemma SendKeeps(s: State, c: nat, g: nat)
    requires OrderInv(s) && CanSend(s, c, g)
    ensures OrderInv(DoSend(s, c, g)) && Grows(s, DoSend(s, c, g))
  {
    var t := DoSend(s, c, g);
    assert CallAt(s.calls, s.net, c) && ConnAt(s.net.conns, s.net.sessions, g);
    assert CancelsAt(s.net.reqs, s.net.conns, g);
    assert CallAt(t.calls, t.net, c) by { AfterStays(s, t, c); }
    forall x | 0 <= x < |t.net.reqs| ensures CallBehind(t.calls, t.net, c, x) {
      if t.calls[c].call.changes && s.net.conns[g].clientAlive && s.net.reqs[x].op.Changes()
         && s.net.reqs[x].origin.OfCall? && s.net.reqs[x].origin.c in s.calls[c].after {
        NothingPending(s, g, x);
      }
    }
    KnownStays(s, t);
    LocalKeeps(s, t, c, -1);
  }

  /** The calls a call comes after stay ended. */
  lemma AfterStays(s: State, t: State, c: nat)
    requires OrderInv(s) && CallsGrow(s.calls, t.calls) && c < |s.calls|
    ensures forall a | a in t.calls[c].after :: a < c && t.calls[a].call.status.Ended?
    ensures t.calls[c].kind.Release? ==> HasOpened(t.calls, t.calls[c].kind.fh)
  {
    assert CallAt(s.calls, s.net, c);
    forall a | a in t.calls[c].after ensures a < c && t.calls[a].call.status.Ended? { assert a in s.calls[c].after; }
  }

  lemma KnownStays(s: State, t: State)
    requires OrderInv(s) && CallsGrow(s.calls, t.calls) && t.table == s.table && t.round == s.round
    ensures forall fh: nat :: KnownAt(t.calls, t.table, t.round, fh)
  {
    forall fh: nat ensures KnownAt(t.calls, t.table, t.round, fh) { assert KnownAt(s.calls, s.table, s.round, fh); }
  }

  /** What the end of a call leaves in the table is known: the id of an open that has ended now or before. */
  lemma SettleKnown(s: State, t: State, c: nat, result: CallResult, refused: bool)
    requires OrderInv(s) && CallsGrow(s.calls, t.calls) && c < |s.calls| && t.calls[c].call.status.Ended?
    requires t.table == Settle(s.table, s.calls[c].kind, c, result, refused) && t.round == s.round
    ensures forall fh: nat :: KnownAt(t.calls, t.table, t.round, fh)
    ensures forall fh | fh in t.table.owed :: t.table.owed[fh].None? || (fh in s.table.owed && t.table.owed[fh] == s.table.owed[fh])
  {
    assert CallAt(s.calls, s.net, c);
    forall fh: nat ensures KnownAt(t.calls, t.table, t.round, fh) { assert KnownAt(s.calls, s.table, s.round, fh); }
  }

  lemma GiveUpNet(s: State, c: nat, error: Error, r0: int)
    requires OrderInv(s) && CanGiveUp(s, c, error)
    requires r0 == (if s.calls[c].req.Some? then s.calls[c].req.value else -1)
    ensures var t := DoGiveUp(s, c, error);
      && NetInv(t.net) && Touches(s.net, t.net, r0)
      && (r0 >= 0 ==> 0 <= r0 < |s.net.reqs| && s.net.reqs[r0].origin == OfCall(c) && LinkAt(t.calls, t.net, s.reopening, r0))
  {
    var rec := s.calls[c];
    assert CallAt(s.calls, s.net, c);
    if rec.req.Some? {
      assert LinkAt(s.calls, s.net, s.reopening, r0) && ReqAt(s.net, r0);
      if rec.call.changes {
        CountingTouches(s.net, r0);
      }
    }
  }

  /** The reopens under way are other requests than `r0`. */
  lemma ReopensStay(s: State, t: State, r0: int)
    requires OrderInv(s) && Touches(s.net, t.net, r0) && t.round == s.round && t.reopening == s.reopening
    requires 0 <= r0 < |s.net.reqs| ==> !s.net.reqs[r0].origin.Reopen? || t.net.reqs[r0].givenUp == s.net.reqs[r0].givenUp
    ensures forall fh: nat :: ReopenAt(t.net, t.round, t.reopening, fh)
    ensures RoundAt(t.net, t.round)
  {
    forall fh: nat ensures ReopenAt(t.net, t.round, t.reopening, fh) { assert ReopenAt(s.net, s.round, s.reopening, fh); }
  }

  lemma GiveUpKeeps(s: State, c: nat, error: Error)
    requires OrderInv(s) && CanGiveUp(s, c, error)
    ensures OrderInv(DoGiveUp(s, c, error)) && Grows(s, DoGiveUp(s, c, error))
  {
    var t, rec := DoGiveUp(s, c, error), s.calls[c];
    var r0 := if rec.req.Some? then rec.req.value else -1;
    GiveUpNet(s, c, error, r0);
    assert CallAt(t.calls, t.net, c) by { AfterStays(s, t, c); assert CallAt(s.calls, s.net, c); }
    SettleKnown(s, t, c, Err(error), false);
    ReopensStay(s, t, r0);
    LocalKeeps(s, t, c, r0);
  }

  lemma LoseKeeps(s: State, c: nat)
    requires OrderInv(s) && CanLose(s, c)
    ensures OrderInv(DoLose(s, c)) && Grows(s, DoLose(s, c))
  {
    var t, rec := DoLose(s, c), s.calls[c];
    assert CallAt(s.calls, s.net, c);
    var r0 := if rec.req.Some? then rec.req.value else -1;
    if rec.req.Some? { assert LinkAt(s.calls, s.net, s.reopening, r0); }
    assert CallAt(t.calls, t.net, c) by { AfterStays(s, t, c); }
    if t.calls[c].call.status.Ended? { SettleKnown(s, t, c, Err(Disconnected), false); } else { KnownStays(s, t); }
    LocalKeeps(s, t, c, r0);
  }

  lemma FailKeeps(s: State, c: nat)
    requires OrderInv(s) && CanFail(s, c)
    ensures OrderInv(DoFail(s, c)) && Grows(s, DoFail(s, c))
  {
    var t := DoFail(s, c);
    assert CallAt(s.calls, s.net, c);
    assert CallAt(t.calls, t.net, c) by { AfterStays(s, t, c); }
    KnownStays(s, t);
    LocalKeeps(s, t, c, -1);
  }

  lemma AnswerCallKeeps(s: State, r: nat, result: CallResult, refused: bool)
    requires OrderInv(s) && CanAnswerCall(s, r, result)
    ensures OrderInv(DoAnswerCall(s, r, result, refused)) && Grows(s, DoAnswerCall(s, r, result, refused))
  {
    var t, c := DoAnswerCall(s, r, result, refused), s.net.reqs[r].origin.c;
    assert CallAt(s.calls, s.net, c) && LinkAt(s.calls, s.net, s.reopening, r) && ReqAt(s.net, r);
    ReadTouches(s.net, r);
    assert CallAt(t.calls, t.net, c) by { AfterStays(s, t, c); }
    SettleKnown(s, t, c, result, refused);
    ReopensStay(s, t, r);
    LocalKeeps(s, t, c, r);
  }

  lemma UncountKeeps(s: State, r: nat)
    requires OrderInv(s) && r < |s.net.reqs| && s.net.reqs[r].counted
    requires ClientReads(s.net, r) || !s.net.conns[s.net.reqs[r].conn].clientAlive
    ensures OrderInv(s.(net := Uncounting(s.net, r))) && Grows(s, s.(net := Uncounting(s.net, r)))
  {
    var t := s.(net := Uncounting(s.net, r));
    assert LinkAt(s.calls, s.net, s.reopening, r) && ReqAt(s.net, r);
    UncountingKeeps(s.net, r);
    forall fh: nat ensures ReopenAt(t.net, t.round, t.reopening, fh) { assert ReopenAt(s.net, s.round, s.reopening, fh); }
    LocalKeeps(s, t, -1, r);
  }

  // ---- The connection manager ----

  lemma ConnKeeps(s: State, m: Net, g: nat)
    requires OrderInv(s) && g < |s.net.conns|
    requires m == LostByClient(s.net, g) || (m == Published(s.net) && CanPublish(s) && g == Gen(s.net))
    ensures OrderInv(s.(net := m)) && Grows(s, s.(net := m))
  {
    var t := s.(net := m);
    ConnFieldKeeps(s.net, m, g);
    forall fh: nat ensures ReopenAt(t.net, t.round, t.reopening, fh) { assert ReopenAt(s.net, s.round, s.reopening, fh); }
    LocalKeeps(s, t, -1, -1);
  }

  lemma ReopenSendKeeps(s: State, fh: nat)
    requires OrderInv(s) && fh in s.round.unsent
    ensures OrderInv(s.(round := s.round.Send(fh))) && Grows(s, s.(round := s.round.Send(fh)))
  {
    var t := s.(round := s.round.Send(fh));
    forall f: nat ensures KnownAt(t.calls, t.table, t.round, f) { assert KnownAt(s.calls, s.table, s.round, f); }
    forall f: nat ensures ReopenAt(t.net, t.round, t.reopening, f) { assert ReopenAt(s.net, s.round, s.reopening, f); }
  }

  lemma EndReopenKnown(s: State, fh: nat, outcome: CallResult)
    requires OrderInv(s) && s.round.Pending(fh)
    ensures var t := EndReopen(s, fh, outcome);
            && (forall f: nat :: KnownAt(t.calls, t.table, t.round, f))
            && (forall f | f in t.table.owed :: t.table.owed[f].None? || (f in s.table.owed && t.table.owed[f] == s.table.owed[f]))
            && RoundAt(t.net, t.round)
  {
    var t := EndReopen(s, fh, outcome);
    assert KnownAt(s.calls, s.table, s.round, fh);
    forall f: nat ensures KnownAt(t.calls, t.table, t.round, f) { assert KnownAt(s.calls, s.table, s.round, f); }
  }

  /** At most request `r0` is touched: nothing else is given up on or counted, and no connection comes, goes or is
      published. */
  ghost predicate Touches(n: Net, m: Net, r0: int) {
    && Moves(n, m)
    && |m.reqs| == |n.reqs| && |m.conns| == |n.conns| && |m.sessions| == |n.sessions|
    && (forall r | 0 <= r < |n.reqs| && r != r0 ::
          m.reqs[r].givenUp == n.reqs[r].givenUp && m.reqs[r].counted == n.reqs[r].counted)
    && (forall r | 0 <= r < |n.reqs| :: m.reqs[r].origin == n.reqs[r].origin && m.reqs[r].conn == n.reqs[r].conn)
    && (forall g | 0 <= g < |n.conns| :: m.conns[g] == n.conns[g].(cancels := m.conns[g].cancels))
  }

  lemma CountingTouches(n: Net, r: nat)
    requires NetInv(n) && r < |n.reqs| && n.reqs[r].op.Changes() && !n.reqs[r].counted
    ensures NetInv(Counting(n, r)) && Touches(n, Counting(n, r), r)
  {
    CountingKeeps(n, r);
  }

  lemma ReadTouches(n: Net, r: nat)
    requires NetInv(n) && r < |n.reqs|
    ensures NetInv(Read(n, r)) && Touches(n, Read(n, r), r)
  {
    ReadKeeps(n, r);
  }

  /** What ends with the reopen of `fh`. */
  ghost predicate EndsWith(s: State, fh: nat, m: Net)
    requires Ranged(s.net)
  {
    if fh !in s.reopening then m == s.net
    else s.reopening[fh] < |s.net.reqs|
         && (|| m == Counting(s.net, s.reopening[fh])
             || (m == s.net && !s.net.conns[Gen(s.net)].clientAlive)
             || (m == Read(s.net, s.reopening[fh]) && ClientReads(s.net, s.reopening[fh])))
  }

  lemma EndReopenNet(s: State, fh: nat, m: Net, r0: int)
    requires OrderInv(s) && EndsWith(s, fh, m) && r0 == (if fh in s.reopening then s.reopening[fh] else -1)
    ensures NetInv(m) && Touches(s.net, m, r0)
    ensures r0 >= 0 ==> 0 <= r0 < |s.net.reqs| && s.net.reqs[r0].origin == Reopen(fh)
                        && LinkAt(s.calls, m, s.reopening - {fh}, r0)
  {
    assert ReopenAt(s.net, s.round, s.reopening, fh);
    if r0 >= 0 {
      assert LinkAt(s.calls, s.net, s.reopening, r0) && ReqAt(s.net, r0);
      if m == Counting(s.net, r0) {
        CountingTouches(s.net, r0);
      } else if m == Read(s.net, r0) {
        ReadTouches(s.net, r0);
      }
    }
  }

  /** A reopen ends, and what it wrote, if anything, is counted, or settled, or lost. */
  lemma EndReopenKeeps(s: State, fh: nat, outcome: CallResult, m: Net)
    requires OrderInv(s) && fh in s.round.sending && EndsWith(s, fh, m)
    ensures OrderInv(EndReopen(s, fh, outcome).(net := m)) && Grows(s, EndReopen(s, fh, outcome).(net := m))
  {
    var t := EndReopen(s, fh, outcome).(net := m);
    var r0 := if fh in s.reopening then s.reopening[fh] else -1;
    EndReopenNet(s, fh, m, r0);
    EndReopenKnown(s, fh, outcome);
    EndReopenLeft(s, t, fh, outcome, r0);
    LocalKeeps(s, t, -1, r0);
  }

  lemma EndReopenLeft(s: State, t: State, fh: nat, outcome: CallResult, r0: int)
    requires OrderInv(s) && fh in s.round.sending && Touches(s.net, t.net, r0)
    requires t.round == EndReopen(s, fh, outcome).round && t.reopening == s.reopening - {fh}
    requires r0 == (if fh in s.reopening then s.reopening[fh] else -1)
    ensures forall f: nat :: ReopenAt(t.net, t.round, t.reopening, f)
    ensures RoundAt(t.net, t.round)
  {
    assert ReopenAt(s.net, s.round, s.reopening, fh);
    forall f: nat ensures ReopenAt(t.net, t.round, t.reopening, f) { assert ReopenAt(s.net, s.round, s.reopening, f); }
  }

  lemma AnswerOwedKeeps(s: State, r: nat)
    requires OrderInv(s) && CanAnswerOwed(s.net, r)
    ensures OrderInv(DoAnswerOwed(s, r)) && Grows(s, DoAnswerOwed(s, r))
  {
    var t := DoAnswerOwed(s, r);
    ReadKeeps(s.net, r);
    assert LinkAt(s.calls, s.net, s.reopening, r);
    forall f: nat ensures KnownAt(t.calls, t.table, t.round, f) { assert KnownAt(s.calls, s.table, s.round, f); }
    forall f: nat ensures ReopenAt(t.net, t.round, t.reopening, f) { assert ReopenAt(s.net, s.round, s.reopening, f); }
    LocalKeeps(s, t, -1, r);
  }

  // ---- The server ----

  /** The server touches nothing that is the client's. */
  lemma DeedIsServers(n: Net, d: Deed)
    requires Ranged(n) && Can(n, d)
    ensures |Done(n, d).reqs| == |n.reqs| && |Done(n, d).conns| == |n.conns| && |Done(n, d).sessions| == |n.sessions|
    ensures forall r | 0 <= r < |n.reqs| ::
              && Done(n, d).reqs[r].givenUp == n.reqs[r].givenUp && Done(n, d).reqs[r].counted == n.reqs[r].counted
              && Done(n, d).reqs[r].conn == n.reqs[r].conn && Done(n, d).reqs[r].origin == n.reqs[r].origin
    ensures forall g | 0 <= g < |n.conns| :: Done(n, d).conns[g] == n.conns[g].(serverAlive := Done(n, d).conns[g].serverAlive)
  {
  }

  lemma ServerKeeps(s: State, d: Deed)
    requires OrderInv(s) && Can(s.net, d)
    ensures OrderInv(s.(net := Done(s.net, d))) && Grows(s, s.(net := Done(s.net, d)))
  {
    var t := s.(net := Done(s.net, d));
    DeedKeeps(s.net, d);
    DeedIsServers(s.net, d);
    forall f: nat ensures ReopenAt(t.net, t.round, t.reopening, f) { assert ReopenAt(s.net, s.round, s.reopening, f); }
    assert RoundAt(t.net, t.round);
    LocalKeeps(s, t, -1, -1);
  }

  // ---- A request is written ----

  /** A request is written on the connection the client uses, and at most call `c0` knows of it. */
  ghost predicate Writes(s: State, t: State, origin: Origin, op: Op, g: nat, c0: int)
    requires g < |s.net.conns|
  {
    && s.net.conns[g].clientAlive
    && t.net == Written(s.net, origin, op, g)
    && CallsGrow(s.calls, t.calls) && |t.calls| == |s.calls|
    && (forall c | 0 <= c < |s.calls| && c != c0 :: t.calls[c] == s.calls[c])
    && (0 <= c0 < |s.calls| ==>
          t.calls[c0] == s.calls[c0].(req := Some(|s.net.reqs|)) && s.calls[c0].req.None?)
    && t.table == s.table && t.round == s.round
    && (forall fh | fh in s.reopening :: fh in t.reopening && t.reopening[fh] == s.reopening[fh])
  }

  lemma WritesCallsAndLinks(s: State, t: State, origin: Origin, op: Op, g: nat, c0: int)
    requires OrderInv(s) && g < |s.net.conns| && Writes(s, t, origin, op, g, c0)
    requires 0 <= c0 < |s.calls| ==> origin == OfCall(c0) && s.calls[c0].call.status == InFlight(g)
    requires Ranged(t.net) && LinkAt(t.calls, t.net, t.reopening, |s.net.reqs|)
    ensures forall c | 0 <= c < |t.calls| :: CallAt(t.calls, t.net, c)
    ensures forall r | 0 <= r < |t.net.reqs| :: LinkAt(t.calls, t.net, t.reopening, r)
  {
    forall c | 0 <= c < |t.calls| ensures CallAt(t.calls, t.net, c) {
      assert CallAt(s.calls, s.net, c);
      AfterStays(s, t, c);
    }
    forall r | 0 <= r < |t.net.reqs| ensures LinkAt(t.calls, t.net, t.reopening, r) {
      if r < |s.net.reqs| { assert LinkAt(s.calls, s.net, s.reopening, r); }
    }
  }

  lemma WritesOrder(s: State, t: State, origin: Origin, op: Op, g: nat, c0: int)
    requires OrderInv(s) && g < |s.net.conns| && Writes(s, t, origin, op, g, c0) && Moves(s.net, t.net)
    requires forall x | 0 <= x <= |s.net.reqs| ::
               BehindAt(t.calls, t.net, x, |s.net.reqs|) && BehindAt(t.calls, t.net, |s.net.reqs|, x)
    requires forall c | 0 <= c < |t.calls| :: CallBehind(t.calls, t.net, c, |s.net.reqs|)
    requires forall fh: nat :: OwedBehind(t.table.owed, t.net, fh, |s.net.reqs|)
    ensures forall x, y | 0 <= x < |t.net.reqs| && 0 <= y < |t.net.reqs| :: BehindAt(t.calls, t.net, x, y)
    ensures forall c, x | 0 <= c < |t.calls| && 0 <= x < |t.net.reqs| :: CallBehind(t.calls, t.net, c, x)
    ensures forall fh: nat, x | 0 <= x < |t.net.reqs| :: OwedBehind(t.table.owed, t.net, fh, x)
  {
    forall x, y | 0 <= x < |t.net.reqs| && 0 <= y < |t.net.reqs| ensures BehindAt(t.calls, t.net, x, y) {
      if x < |s.net.reqs| && y < |s.net.reqs| { OldBehind(s, t, x, y); }
    }
    forall c, x | 0 <= c < |t.calls| && 0 <= x < |t.net.reqs| ensures CallBehind(t.calls, t.net, c, x) {
      if x < |s.net.reqs| { assert CallBehind(s.calls, s.net, c, x); }
    }
    forall fh: nat, x | 0 <= x < |t.net.reqs| ensures OwedBehind(t.table.owed, t.net, fh, x) {
      if x < |s.net.reqs| { assert OwedBehind(s.table.owed, s.net, fh, x); }
    }
  }

  lemma WritesKeeps(s: State, t: State, origin: Origin, op: Op, g: nat, c0: int)
    requires OrderInv(s) && g < |s.net.conns| && Writes(s, t, origin, op, g, c0)
    requires 0 <= c0 < |s.calls| ==> origin == OfCall(c0) && s.calls[c0].call.status == InFlight(g)
    requires Ranged(t.net) && LinkAt(t.calls, t.net, t.reopening, |s.net.reqs|)
    requires forall x | 0 <= x <= |s.net.reqs| ::
               BehindAt(t.calls, t.net, x, |s.net.reqs|) && BehindAt(t.calls, t.net, |s.net.reqs|, x)
    requires forall c | 0 <= c < |t.calls| :: CallBehind(t.calls, t.net, c, |s.net.reqs|)
    requires forall fh: nat :: OwedBehind(t.table.owed, t.net, fh, |s.net.reqs|)
    requires forall fh: nat :: ReopenAt(t.net, t.round, t.reopening, fh)
    requires WritesFor(s, t, |s.net.reqs|)
    ensures OrderInv(t) && Grows(s, t)
  {
    WrittenKeeps(s.net, origin, op, g);
    WritesCallsAndLinks(s, t, origin, op, g, c0);
    WritesOrder(s, t, origin, op, g, c0);
    KnownStays(s, t);
    forall fh: nat ensures OwedAt(t.table.owed, t.net.conns, fh) { assert OwedAt(s.table.owed, s.net.conns, fh); }
  }

  lemma WriteKeeps(s: State, c: nat)
    requires OrderInv(s) && CanWrite(s, c)
    ensures OrderInv(DoWrite(s, c)) && Grows(s, DoWrite(s, c))
  {
    var t, g, r := DoWrite(s, c), s.calls[c].call.status.generation, |s.net.reqs|;
    WrittenKeeps(s.net, OfCall(c), OpOf(s.calls[c].kind, c), g);
    assert CallAt(s.calls, s.net, c) && ConnAt(s.net.conns, s.net.sessions, g);
    forall x | 0 <= x <= r ensures BehindAt(t.calls, t.net, x, r) && BehindAt(t.calls, t.net, r, x) {
      if x < r {
        assert CallBehind(s.calls, s.net, c, x) && LinkAt(s.calls, s.net, s.reopening, x);
        if s.net.reqs[x].origin.OfCall? { assert CallAt(s.calls, s.net, s.net.reqs[x].origin.c); }
      }
    }
    forall b | 0 <= b < |t.calls| ensures CallBehind(t.calls, t.net, b, r) { assert CallAt(s.calls, s.net, b); }
    forall fh: nat ensures OwedBehind(t.table.owed, t.net, fh, r) && ReopenAt(t.net, t.round, t.reopening, fh) {
      assert KnownAt(s.calls, s.table, s.round, fh) && ReopenAt(s.net, s.round, s.reopening, fh);
    }
    WritesKeeps(s, t, OfCall(c), OpOf(s.calls[c].kind, c), g, c);
  }

  lemma ReopenWriteKeeps(s: State, fh: nat)
    requires OrderInv(s) && CanReopenWrite(s, fh)
    ensures OrderInv(DoReopenWrite(s, fh)) && Grows(s, DoReopenWrite(s, fh))
  {
    var t, g, r := DoReopenWrite(s, fh), Gen(s.net), |s.net.reqs|;
    WrittenKeeps(s.net, Reopen(fh), OpOpen(fh), g);
    assert KnownAt(s.calls, s.table, s.round, fh) && ConnAt(s.net.conns, s.net.sessions, g);
    forall x | 0 <= x <= r ensures BehindAt(t.calls, t.net, x, r) && BehindAt(t.calls, t.net, r, x) {
      if x < r { assert LinkAt(s.calls, s.net, s.reopening, x); }
    }
    forall f: nat ensures OwedBehind(t.table.owed, t.net, f, r) && ReopenAt(t.net, t.round, t.reopening, f) {
      assert OwedAt(s.table.owed, s.net.conns, f) && ReopenAt(s.net, s.round, s.reopening, f);
    }
    WritesKeeps(s, t, Reopen(fh), OpOpen(fh), g, -1);
  }

  lemma OwedWriteKeeps(s: State, fh: nat)
    requires OrderInv(s) && CanOwedWrite(s, fh)
    ensures OrderInv(DoOwedWrite(s, fh)) && Grows(s, DoOwedWrite(s, fh))
  {
    var t, g, r := DoOwedWrite(s, fh), s.table.owed[fh].value, |s.net.reqs|;
    WrittenKeeps(s.net, OwedRelease(fh), OpRelease(fh, true), g);
    assert KnownAt(s.calls, s.table, s.round, fh) && OwedAt(s.table.owed, s.net.conns, fh);
    forall x | 0 <= x <= r ensures BehindAt(t.calls, t.net, x, r) && BehindAt(t.calls, t.net, r, x) {
      if x < r { assert OwedBehind(s.table.owed, s.net, fh, x) && s.net.reqs[x].conn < |s.net.conns|; }
    }
    forall f: nat ensures ReopenAt(t.net, t.round, t.reopening, f) { assert ReopenAt(s.net, s.round, s.reopening, f); }
    WritesKeeps(s, t, OwedRelease(fh), OpRelease(fh, true), g, -1);
  }

  /** No reopen is under way once the connection is published. */
  lemma PublishedRoundOver(s: State)
    requires OrderInv(s) && (s.net.conns[Gen(s.net)].published || Gen(s.net) == 0)
    ensures s.round.Publishable() && s.reopening == map[]
  {
    forall fh: nat ensures fh !in s.reopening { assert ReopenAt(s.net, s.round, s.reopening, fh); }
  }

  lemma OwedSendKeeps(s: State, fh: nat)
    requires OrderInv(s) && CanOwedSend(s, fh)
    ensures OrderInv(DoOwedSend(s, fh)) && Grows(s, DoOwedSend(s, fh))
  {
    var t, g := DoOwedSend(s, fh), Gen(s.net);
    assert KnownAt(s.calls, s.table, s.round, fh);
    assert ConnAt(s.net.conns, s.net.sessions, g);
    PublishedRoundOver(s);
    forall f: nat, x | 0 <= x < |t.net.reqs| ensures OwedBehind(t.table.owed, t.net, f, x) {
      assert OwedBehind(s.table.owed, s.net, f, x);
      if f == fh && s.net.conns[g].clientAlive && s.net.reqs[x].op == OpOpen(fh) {
        assert LinkAt(s.calls, s.net, s.reopening, x);
        NothingPending(s, g, x);
      }
    }
    forall f: nat ensures OwedAt(t.table.owed, t.net.conns, f) && KnownAt(t.calls, t.table, t.round, f) {
      assert OwedAt(s.table.owed, s.net.conns, f) && KnownAt(s.calls, s.table, s.round, f);
    }
  }

  // ---- A connection is made ----

  lemma ConnectCalls(s: State, t: State)
    requires OrderInv(s) && CanConnect(s.net) && Moves(s.net, t.net) && t.calls == s.calls
    requires t.net.reqs == s.net.reqs && t.reopening == s.reopening == map[]
    ensures forall c | 0 <= c < |t.calls| :: CallAt(t.calls, t.net, c)
    ensures forall r | 0 <= r < |t.net.reqs| :: LinkAt(t.calls, t.net, t.reopening, r)
    ensures forall x, y | 0 <= x < |t.net.reqs| && 0 <= y < |t.net.reqs| :: BehindAt(t.calls, t.net, x, y)
    ensures forall c, x | 0 <= c < |t.calls| && 0 <= x < |t.net.reqs| :: CallBehind(t.calls, t.net, c, x)
  {
    forall c | 0 <= c < |t.calls| ensures CallAt(t.calls, t.net, c) {
      assert CallAt(s.calls, s.net, c);
      var status := s.calls[c].call.status;
      if status.InFlight? { assert ConnMoves(s.net, t.net, status.generation); }
    }
    forall r | 0 <= r < |t.net.reqs| ensures LinkAt(t.calls, t.net, t.reopening, r) {
      assert LinkAt(s.calls, s.net, s.reopening, r) && ConnMoves(s.net, t.net, s.net.reqs[r].conn);
    }
    forall x, y | 0 <= x < |t.net.reqs| && 0 <= y < |t.net.reqs| ensures BehindAt(t.calls, t.net, x, y) {
      OldBehind(s, t, x, y);
    }
    forall c, x | 0 <= c < |t.calls| && 0 <= x < |t.net.reqs| ensures CallBehind(t.calls, t.net, c, x) {
      assert CallAt(s.calls, s.net, c) && CallBehind(s.calls, s.net, c, x);
      var status := s.calls[c].call.status;
      if status.InFlight? { assert ConnMoves(s.net, t.net, status.generation); }
    }
  }

  /** As a connection begins, nothing owed is being sent, and all that is held or owed was known before. */
  lemma ReattachedOwed(s: State, rootChanged: bool)
    requires OrderInv(s)
    ensures var table := Reattached(s, rootChanged);
            && (forall fh | fh in table.owed :: table.owed[fh].None?)
            && table.held.Keys == s.table.held.Keys
            && (forall fh | fh in table.owed :: fh in s.table.owed || fh in s.table.held)
  {
    forall fh | fh in s.table.owed
      ensures s.table.owed[fh].None? || s.table.owed[fh] == Some(Gen(s.net))
    {
      assert OwedAt(s.table.owed, s.net.conns, fh);
    }
  }

  lemma ResumeKeeps(s: State, rootChanged: bool)
    requires OrderInv(s) && CanConnect(s.net) && Resumable(s.net, Sid(s.net))
    ensures OrderInv(DoResume(s, rootChanged)) && Grows(s, DoResume(s, rootChanged))
  {
    var t := DoResume(s, rootChanged);
    ResumedKeeps(s.net);
    PublishedRoundOver(s);
    ConnectCalls(s, t);
    ReattachedOwed(s, rootChanged);
    forall fh: nat ensures KnownAt(t.calls, t.table, t.round, fh) { assert KnownAt(s.calls, s.table, s.round, fh); }
  }

  lemma NewSessionKeeps(s: State, rootChanged: bool)
    requires OrderInv(s) && CanConnect(s.net) && !Resumable(s.net, Sid(s.net))
    ensures OrderInv(DoNewSession(s, rootChanged)) && Grows(s, DoNewSession(s, rootChanged))
  {
    var t := DoNewSession(s, rootChanged);
    RenewedKeeps(s.net);
    PublishedRoundOver(s);
    ConnectCalls(s, t);
    ReattachedOwed(s, rootChanged);
    forall fh: nat ensures KnownAt(t.calls, t.table, t.round, fh) { assert KnownAt(s.calls, s.table, s.round, fh); }
    assert RoundAt(t.net, t.round);
  }

  lemma CallStepKeeps(s: State, a: Action)
    requires OrderInv(s) && Enabled(s, a)
    requires OfCalls(a)
    ensures OrderInv(Next(s, a)) && Grows(s, Next(s, a))
  {
    match a
    case Start(kind, resendable) => StartKeeps(s, kind, resendable);
    case DropDead(fh) => DropDeadKeeps(s, fh);
    case Send(c, g) => SendKeeps(s, c, g);
    case Write(c) => WriteKeeps(s, c);
    case GiveUp(c, error) => GiveUpKeeps(s, c, error);
    case Lose(c) => LoseKeeps(s, c);
    case Fail(c) => FailKeeps(s, c);
  }

  lemma AnswerStepKeeps(s: State, a: Action)
    requires OrderInv(s) && Enabled(s, a)
    requires OfAnswers(a)
    ensures OrderInv(Next(s, a)) && Grows(s, Next(s, a))
  {
    match a
    case AnswerCall(r, result, refused) => AnswerCallKeeps(s, r, result, refused);
    case AnswerCancel(r) => UncountKeeps(s, r);
    case CancelLost(r) => UncountKeeps(s, r);
    case AnswerReopen(fh, outcome) => EndReopenKeeps(s, fh, outcome, Read(s.net, s.reopening[fh]));
    case AnswerOwed(r) => AnswerOwedKeeps(s, r);
    case Server(deed) => ServerKeeps(s, deed);
  }

  lemma ConnStepKeeps(s: State, a: Action)
    requires OrderInv(s) && Enabled(s, a)
    requires OfConnections(a)
    ensures OrderInv(Next(s, a)) && Grows(s, Next(s, a))
  {
    match a
    case LoseClient(g) => ConnKeeps(s, LostByClient(s.net, g), g);
    case Resume(rootChanged) => ResumeKeeps(s, rootChanged);
    case NewSession(rootChanged) => NewSessionKeeps(s, rootChanged);
    case Publish => ConnKeeps(s, Published(s.net), Gen(s.net));
  }

  lemma ReopenStepKeeps(s: State, a: Action)
    requires OrderInv(s) && Enabled(s, a)
    requires OfReopens(a)
    ensures OrderInv(Next(s, a)) && Grows(s, Next(s, a))
  {
    match a
    case ReopenSend(fh) => ReopenSendKeeps(s, fh);
    case ReopenWrite(fh) => ReopenWriteKeeps(s, fh);
    case ReopenUnwritten(fh, error) => EndReopenKeeps(s, fh, Err(error), s.net);
    case ReopenGiveUp(fh) => EndReopenKeeps(s, fh, Err(Timeout), Counting(s.net, s.reopening[fh]));
    case ReopenLost(fh) => EndReopenKeeps(s, fh, Err(Disconnected), s.net);
    case OwedSend(fh) => OwedSendKeeps(s, fh);
    case OwedWrite(fh) => OwedWriteKeeps(s, fh);
  }

  /** Every step keeps the order, and only moves on. */
  lemma StepKeeps(s: State, a: Action)
    requires OrderInv(s) && Enabled(s, a)
    ensures OrderInv(Next(s, a)) && Grows(s, Next(s, a))
  {
    if OfCalls(a) {
      CallStepKeeps(s, a);
    } else if OfAnswers(a) {
      AnswerStepKeeps(s, a);
    } else if OfConnections(a) {
      ConnStepKeeps(s, a);
    } else {
      ReopenStepKeeps(s, a);
    }
  }

  lemma InitOrdered()
    ensures OrderInv(INIT)
  {
    assert CountsAt(NO_NET, 0) by {
      assert RunningSet(NO_NET, 0) == {} && AbandonedSet(NO_NET, 0) == {} && OlderSet(NO_NET, 0) == {};
    }
    assert CancelsAt(NO_NET.reqs, NO_NET.conns, 0) by { assert CountedSet(NO_NET.reqs, 0) == {}; }
  }
}
