/** Whether changes can be lost silently. In one connection they cannot: no work of a later batch is queued between a loss
    and the sweep that follows it. Across connections they can, exactly when a reader starts while nothing but its
    predecessor's flag stands for a loss, and work of a batch it read is queued before any sweep. */
module OverflowTheorems {
  import opened Overflows
  import opened OverflowInvariant

  /** Work is queued after a loss that it follows in the stream, with no sweep between. Dropped work and a new connection
      leave everything in doubt, so any work follows them. */
  ghost predicate Overtakes(log: seq<Happening>, i: nat, j: nat) {
    && i < j < |log| && log[j].Queued? && !SweptBetween(log, i, j)
    && (CallsForSweep(log[i]) || (log[i].LostBatch? && log[i].serial < log[j].serial))
  }

  ghost predicate Overtaken(log: seq<Happening>, j: nat) {
    exists i :: Overtakes(log, i, j)
  }

  /** A reader's start exposed a loss, and work of a batch read since is queued with no sweep between. */
  ghost predicate PassesStart(log: seq<Happening>, k: nat, j: nat) {
    && k < j < |log| && log[j].Queued? && !SweptBetween(log, k, j)
    && Exposes(log[k]) && log[k].serial <= log[j].serial
  }

  /** What was so of the work queued at `j` when it was queued. */
  lemma QueuedLawfully(log: seq<Happening>, j: nat)
    requires Lawful(log) && j < |log| && log[j].Queued?
    ensures !SweepOwed(log[..j]) && (FirstLost(log[..j]) >= 0 ==> log[j].serial < FirstLost(log[..j]))
  {
    LawfulPrefix(log, j + 1);
    assert log[..j + 1][..j] == log[..j];
  }

  /** Only a start that exposes a loss lets work overtake it. */
  lemma OvertakesPastStart(p: Pipe, i: nat, j: nat) returns (k: nat)
    requires Good(p) && Overtakes(p.log, i, j)
    ensures i < k && PassesStart(p.log, k, j) && p.log[i].LostBatch? && p.log[i].serial < p.log[k].serial
  {
    var log, sooner := p.log, p.log[..j];
    QueuedLawfully(log, j);
    assert SweptBetween(sooner, i, j) ==> SweptBetween(log, i, j);
    if CallsForSweep(log[i]) {
      CallCounts(sooner, i);
    }
    if !ExposedBetween(sooner, i, j) {
      LossCounts(sooner, i);
    }
    k := FirstExposing(sooner, i, j);
    ExposesFirst(p, i, k, j);
  }

  lemma ExposesFirst(p: Pipe, i: nat, k: nat, j: nat)
    requires Good(p) && Overtakes(p.log, i, j) && p.log[i].LostBatch?
    requires i < k < j && Exposes(p.log[k]) && !ExposedBetween(p.log[..j], i, k)
    ensures PassesStart(p.log, k, j)
  {
    var sooner := p.log[..k];
    LawfulPrefix(p.log, k + 1);
    assert p.log[..k + 1][..k] == sooner;
    assert SweptBetween(sooner, i, k) ==> SweptBetween(p.log, i, j);
    assert ExposedBetween(sooner, i, k) ==> ExposedBetween(p.log[..j], i, k);
    LossCounts(sooner, i);
    assert Behind(p.log[j].serial, p.log[k]);
    assert SweptBetween(p.log, k, j) ==> SweptBetween(p.log, i, j);
  }

  /** And each such start does: there is a loss that the work overtakes. */
  lemma StartIsPassed(p: Pipe, k: nat, j: nat) returns (i: nat)
    requires Good(p) && PassesStart(p.log, k, j)
    ensures i < k && Overtakes(p.log, i, j)
  {
    var log, sooner := p.log, p.log[..k];
    LawfulPrefix(log, k + 1);
    assert log[..k + 1][..k] == sooner;
    FirstLostStands(sooner);
    i :| 0 <= i < |sooner| && sooner[i] == LostBatch(FirstLost(sooner)) && !SweptBetween(sooner, i, k);
    forall h | i < h < j ensures !log[h].Swept? {
      assert h < k ==> sooner[h] == log[h];
      assert !SweptBetween(log, k, j);
    }
  }

  /** Work overtakes a loss exactly when a start exposed one, the work is of a batch read since, and no sweep is between. */
  lemma OvertakenExactly(p: Pipe, j: nat)
    requires Good(p)
    ensures Overtaken(p.log, j) <==> exists k :: PassesStart(p.log, k, j)
  {
    if Overtaken(p.log, j) {
      var i :| Overtakes(p.log, i, j);
      var k := OvertakesPastStart(p, i, j);
    } else if k :| PassesStart(p.log, k, j) {
      var i := StartIsPassed(p, k, j);
    }
  }

  /** Then the translator has neither dropped work nor seen the new connection since that start. */
  lemma UnseenSinceStart(p: Pipe, k: nat, h: nat, j: nat)
    requires Good(p) && PassesStart(p.log, k, j) && k < h < j
    ensures !CallsForSweep(p.log[h])
  {
    if CallsForSweep(p.log[h]) {
      assert SweptBetween(p.log, h, j) ==> SweptBetween(p.log, k, j);
      var _ := OvertakesPastStart(p, h, j);
    }
  }

  /** Over every run: a batch dropped and work of a later one have a sweep between, unless another reader started after the
      one was read and before the other. Work dropped, and a new connection seen, are followed by a sweep before any. */
  lemma NoSilentLoss(eventRoom: nat, workRoom: nat, steps: seq<Step>, i: nat, j: nat)
    requires Can(Start(eventRoom, workRoom), steps)
    requires var log := Run(Start(eventRoom, workRoom), steps).log;
      && i < j < |log| && log[j].Queued?
      && (CallsForSweep(log[i])
          || (&& log[i].LostBatch? && log[i].serial < log[j].serial
              && forall k | 0 <= k < |log| && log[k].Restarted? :: !(log[i].serial < log[k].serial <= log[j].serial)))
    ensures SweptBetween(Run(Start(eventRoom, workRoom), steps).log, i, j)
  {
    var p := Run(Start(eventRoom, workRoom), steps);
    RunKeeps(Start(eventRoom, workRoom), steps);
    if !SweptBetween(p.log, i, j) {
      var k := OvertakesPastStart(p, i, j);
    }
  }

  /** A loss that no sweep has followed is still owed one, or a start has exposed it. */
  lemma LossIsOwed(p: Pipe, i: nat)
    requires Good(p) && i < |p.log| && !SweptBetween(p.log, i, |p.log|)
    ensures CallsForSweep(p.log[i]) ==> p.sweepPending
    ensures p.log[i].LostBatch? && !ExposedBetween(p.log, i, |p.log|) ==>
              p.sweepPending || p.overflowPending || Overflow in p.events
  {
    if CallsForSweep(p.log[i]) {
      CallCounts(p.log, i);
    }
    if p.log[i].LostBatch? && !ExposedBetween(p.log, i, |p.log|) {
      LossCounts(p.log, i);
    }
  }

  // ---- What a start leads to ----

  /** What happens is added to what happened, and no reader starts. */
  ghost predicate Adds(was: seq<Happening>, now: seq<Happening>) {
    was <= now && forall k | |was| <= k < |now| :: !now[k].Restarted?
  }

  lemma {:induction false} QueueAllAdds(p: Pipe, items: seq<Work>, serial: nat)
    ensures Adds(p.log, QueueAll(p, items, serial).log)
    decreases |items|
  {
    if items != [] && |p.work| < p.workRoom {
      QueueAllAdds(QueueOne(p, items[0], serial), items[1..], serial);
    }
  }

  lemma DeliverAdds(p: Pipe, items: seq<Work>, serial: nat)
    ensures Adds(p.log, Deliver(p, items, serial).log)
  {
    if p.sweepPending && |p.work| < p.workRoom {
      QueueAllAdds(QueueOne(p, Sweep, serial).(sweepPending := false), items, serial);
    } else {
      QueueAllAdds(p, items, serial);
    }
  }

  lemma StepAdds(p: Pipe, s: Step)
    requires Enabled(p, s) && s != Restart
    ensures Adds(p.log, Next(p, s).log)
  {
    match s
    case Translate(derived) =>
      var q := p.(events := p.events[1..]);
      DeliverAdds(q, [Sweep], 0);
      if p.events[0].Batch? {
        DeliverAdds(q, derived, p.events[0].serial);
      }
    case See(generation) =>
      var q := p.(lastGeneration := generation);
      DeliverAdds(q, [], 0);
      DeliverAdds(q.(log := q.log + [Saw]), [Sweep], 0);
    case _ =>
  }

  lemma {:induction false} RunAdds(p: Pipe, steps: seq<Step>)
    requires Can(p, steps) && Restart !in steps
    ensures Adds(p.log, Run(p, steps).log)
    decreases |steps|
  {
    if steps != [] {
      StepAdds(p, steps[0]);
      RunAdds(Next(p, steps[0]), steps[1..]);
    }
  }

  lemma {:induction false} RunOn(p: Pipe, steps: seq<Step>, more: seq<Step>)
    requires Can(p, steps) && Can(Run(p, steps), more)
    ensures Can(p, steps + more) && Run(p, steps + more) == Run(Run(p, steps), more)
    decreases |steps|
  {
    if steps == [] {
      assert steps + more == more;
    } else {
      assert (steps + more)[1..] == steps[1..] + more;
      RunOn(Next(p, steps[0]), steps[1..], more);
    }
  }

  /** The queue of events can be emptied of batches that come to nothing. */
  lemma {:induction false} DrainEvents(p: Pipe) returns (steps: seq<Step>)
    requires Overflow !in p.events && !p.sweepPending
    ensures Can(p, steps) && Restart !in steps && Run(p, steps) == p.(events := [])
    decreases |p.events|
  {
    if p.events == [] {
      steps := [];
    } else {
      var rest := DrainEvents(p.(events := p.events[1..]));
      steps := [Translate([])] + rest;
      assert steps[1..] == rest;
      assert p.events[0].Batch?;
    }
  }

  lemma {:induction false} DrainWork(p: Pipe) returns (steps: seq<Step>)
    ensures Can(p, steps) && Restart !in steps && Run(p, steps) == p.(work := [])
    decreases |p.work|
  {
    if p.work == [] {
      steps := [];
    } else {
      var rest := DrainWork(p.(work := p.work[1..]));
      steps := [Take] + rest;
      assert steps[1..] == rest;
    }
  }

  /** With nothing queued and nothing owed, the next batch's work is queued next. */
  lemma QueuesNext(p: Pipe)
    requires p.events == [] && p.work == [] && !p.overflowPending && !p.sweepPending && p.eventRoom > 0 && p.workRoom > 0
    ensures var steps := [Receive, Translate([Notify])];
      Can(p, steps) && Run(p, steps).log == p.log + [Queued(p.next)]
  {
    var steps := [Receive, Translate([Notify])];
    var q := AfterReceive(p);
    assert q.events == [Batch(p.next)];
    var r := AfterTranslate(q, [Notify]);
    assert [Notify][1..] == [];
    assert r == QueueOne(q.(events := []), Notify, p.next);
    assert steps[1..] == [Translate([Notify])] && steps[1..][1..] == [];
    assert Can(r, []) && Run(r, []) == r;
    assert Can(q, steps[1..]) && Run(q, steps[1..]) == r;
  }

  /** After a start that exposes a loss, work can overtake it. */
  lemma ExposedIsOvertaken(p: Pipe) returns (steps: seq<Step>)
    requires Good(p) && Exposed(p) && p.eventRoom > 0 && p.workRoom > 0
    ensures Can(AfterRestart(p), steps) && Restart !in steps
    ensures var log := Run(AfterRestart(p), steps).log; |p.log| < |log| - 1 && Overtaken(log, |log| - 1)
  {
    var q := AfterRestart(p);
    var draining := DrainEvents(q);
    var q' := Run(q, draining);
    var taking := DrainWork(q');
    RunOn(q, draining, taking);
    var r := Run(q', taking);
    QueuesNext(r);
    var last := [Receive, Translate([Notify])];
    RunOn(q, draining + taking, last);
    steps := draining + taking + last;
    var log := Run(q, steps).log;
    assert log == p.log + [Restarted(p.next, FirstLost(p.log)), Queued(p.next)];
    FirstLostStands(p.log);
    var i :| 0 <= i < |p.log| && p.log[i] == LostBatch(FirstLost(p.log)) && !SweptBetween(p.log, i, |p.log|);
    forall k | i < k < |log| - 1 ensures !log[k].Swept? {
      assert k < |p.log| ==> log[k] == p.log[k];
    }
    assert Overtakes(log, i, |log| - 1);
  }

  /** Every loss that a start exposed has been swept since. */
  ghost predicate Covered(log: seq<Happening>) {
    forall k | 0 <= k < |log| && Exposes(log[k]) :: SweptBetween(log, k, |log|)
  }

  /** After a start that exposes nothing, with nothing exposed before it, no work overtakes a loss. */
  lemma CoveredIsKept(p: Pipe, steps: seq<Step>, j: nat)
    requires Good(p) && Covered(p.log) && !Exposed(p) && Can(AfterRestart(p), steps) && Restart !in steps && j >= |p.log|
    ensures !Overtaken(Run(AfterRestart(p), steps).log, j)
  {
    var q := AfterRestart(p);
    var log := Run(q, steps).log;
    RestartKeeps(p);
    RunKeeps(q, steps);
    RunAdds(q, steps);
    forall k: nat ensures !PassesStart(log, k, j) {
      if k < |p.log| && Exposes(p.log[k]) {
        var h :| k < h < |p.log| && p.log[h].Swept?;
        assert q.log[h] == p.log[h] && log[h] == q.log[h];
      }
      assert k < |q.log| && k < |log| ==> log[k] == q.log[k];
    }
    OvertakenExactly(Run(q, steps), j);
  }

  /** A start leads to a loss overtaken, in some run with no other start, exactly when it exposes one. */
  lemma StartOvertakesExactly(p: Pipe)
    requires Good(p) && Covered(p.log) && p.eventRoom > 0 && p.workRoom > 0
    ensures Exposed(p) <==> exists steps, j | Can(AfterRestart(p), steps) && Restart !in steps && j >= |p.log| ::
                              Overtaken(Run(AfterRestart(p), steps).log, j)
  {
    if Exposed(p) {
      var steps := ExposedIsOvertaken(p);
    } else {
      forall steps, j | Can(AfterRestart(p), steps) && Restart !in steps && j >= |p.log|
        ensures !Overtaken(Run(AfterRestart(p), steps).log, j)
      {
        CoveredIsKept(p, steps, j);
      }
    }
  }

  lemma UpToStart()
    ensures var steps := [Receive, Receive, Translate([]), Restart];
      && Can(Start(1, 1), steps)
      && Run(Start(1, 1), steps) == Pipe(1, 1, [], false, [], false, 0, 2, [LostBatch(1), Restarted(2, 1)])
  {
    var p1 := Pipe(1, 1, [Batch(0)], false, [], false, 0, 1, []);
    var p2 := Pipe(1, 1, [Batch(0)], true, [], false, 0, 2, [LostBatch(1)]);
    var p3 := p2.(events := []);
    assert AfterReceive(Start(1, 1)) == p1 && AfterReceive(p1) == p2;
    assert AfterTranslate(p2, []) == p3;
    assert FirstLost([LostBatch(1)]) == 1;
  }

  /** A run in which a loss is overtaken: batch 1 finds the queue full, the connection is lost with its overflow still owed,
      and work of batch 2, read by the next reader, is queued first. */
  lemma StartMayOvertake()
    ensures var steps := [Receive, Receive, Translate([]), Restart, Receive, Translate([Notify])];
      && Can(Start(1, 1), steps)
      && Run(Start(1, 1), steps).log == [LostBatch(1), Restarted(2, 1), Queued(2)]
      && Overtaken(Run(Start(1, 1), steps).log, 2)
  {
    var first, last := [Receive, Receive, Translate([]), Restart], [Receive, Translate([Notify])];
    var p, q := Start(1, 1), Pipe(1, 1, [], false, [], false, 0, 2, [LostBatch(1), Restarted(2, 1)]);
    UpToStart();
    QueuesNext(q);
    RunOn(p, first, last);
    assert first + last == [Receive, Receive, Translate([]), Restart, Receive, Translate([Notify])];
    assert Overtakes([LostBatch(1), Restarted(2, 1), Queued(2)], 0, 2);
  }
}
