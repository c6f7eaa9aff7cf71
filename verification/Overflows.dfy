/** Changes reported by the server go through two bounded queues on their way to the kernel's caches: `read_events` in
    `conn.rs` fills the first, `translate` in `invalidate.rs` empties it into the second. Either may drop what does not
    fit, and then owes an overflow or a sweep. Each connection has a reader of its own, which owes nothing to begin with;
    the queues outlive it. The steps of both stages, and what can be read off the order of what happened. */
module Overflows {

  /** A batch of changes, by its place among those read, or the marker that some were dropped. */
  datatype Event = Batch(serial: nat) | Overflow

  datatype Work = Notify | Sweep

  /** What happened, in order: a batch dropped by the reader, work dropped by the translator, a new connection seen by the
      translator, work of a batch queued, a sweep queued, a new reader. `serial` is the next batch to be read by the new
      reader, and `lost` the first batch that its start left with no overflow to come, or -1. */
  datatype Happening =
    | LostBatch(serial: nat)
    | LostWork
    | Saw
    | Queued(serial: nat)
    | Swept
    | Restarted(serial: nat, lost: int)

  // ---- The steps ----

  datatype Pipe = Pipe(eventRoom: nat, workRoom: nat, events: seq<Event>, overflowPending: bool, work: seq<Work>,
                       sweepPending: bool, lastGeneration: nat, next: nat, log: seq<Happening>)

  function Start(eventRoom: nat, workRoom: nat): Pipe {
    Pipe(eventRoom, workRoom, [], false, [], false, 0, 0, [])
  }

  /** The batch just read is dropped, and an overflow owed for it. */
  function Lose(p: Pipe): Pipe {
    p.(overflowPending := true, next := p.next + 1, log := p.log + [LostBatch(p.next)])
  }

  /** An overflow that is owed is queued, if there is room. */
  function Tell(p: Pipe): Pipe {
    if p.overflowPending && |p.events| < p.eventRoom then p.(events := p.events + [Overflow], overflowPending := false)
    else p
  }

  /** The reader takes the next batch off the stream: it is queued, behind an overflow if one is owed, or dropped. */
  function AfterReceive(p: Pipe): Pipe {
    var q := Tell(p);
    if !q.overflowPending && |q.events| < q.eventRoom then q.(events := q.events + [Batch(q.next)], next := q.next + 1)
    else Lose(q)
  }

  function HappeningOf(item: Work, serial: nat): Happening {
    if item.Sweep? then Swept else Queued(serial)
  }

  function QueueOne(p: Pipe, item: Work, serial: nat): Pipe {
    p.(work := p.work + [item], log := p.log + [HappeningOf(item, serial)])
  }

  /** Work is queued item by item; at the first that does not fit the rest is dropped, and a sweep is owed. */
  function QueueAll(p: Pipe, items: seq<Work>, serial: nat): Pipe
    decreases |items|
  {
    if items == [] then p
    else if |p.work| < p.workRoom then QueueAll(QueueOne(p, items[0], serial), items[1..], serial)
    else p.(sweepPending := true, log := p.log + [LostWork])
  }

  /** The work of batch `serial` is queued, behind a sweep if one is owed, or dropped while that does not fit. */
  function Deliver(p: Pipe, items: seq<Work>, serial: nat): Pipe {
    if !p.sweepPending then QueueAll(p, items, serial)
    else if |p.work| < p.workRoom then QueueAll(QueueOne(p, Sweep, serial).(sweepPending := false), items, serial)
    else if items == [] then p
    else p.(log := p.log + [LostWork])
  }

  /** The translator takes the next event off the queue: a batch gives the work `derived` from it, an overflow a sweep. */
  function AfterTranslate(p: Pipe, derived: seq<Work>): Pipe
    requires p.events != []
  {
    var q := p.(events := p.events[1..]);
    match p.events[0]
    case Overflow => Deliver(q, [Sweep], 0)
    case Batch(serial) => Deliver(q, derived, serial)
  }

  /** The translator sees the connection of `generation`: after the first, a new one sweeps everything. */
  function AfterSee(p: Pipe, generation: nat): Pipe {
    var q := p.(lastGeneration := generation);
    if generation > 1 && generation != p.lastGeneration then Deliver(q.(log := q.log + [Saw]), [Sweep], 0)
    else Deliver(q, [], 0)
  }

  /** A batch was dropped with no sweep since, and nothing but the reader's own flag stands for it. */
  predicate Exposed(p: Pipe) {
    p.overflowPending && !p.sweepPending && Overflow !in p.events && FirstLost(p.log) >= 0
  }

  /** Another connection's reader takes over, owing nothing. */
  function AfterRestart(p: Pipe): Pipe {
    p.(overflowPending := false,
       log := p.log + [Restarted(p.next, if Exposed(p) then FirstLost(p.log) else -1)])
  }

  datatype Step = Receive | Translate(derived: seq<Work>) | See(generation: nat) | Restart | Take

  predicate Enabled(p: Pipe, s: Step) {
    match s
    case Translate(_) => p.events != []
    case Take => p.work != []
    case _ => true
  }

  function Next(p: Pipe, s: Step): Pipe
    requires Enabled(p, s)
  {
    match s
    case Receive => AfterReceive(p)
    case Translate(derived) => AfterTranslate(p, derived)
    case See(generation) => AfterSee(p, generation)
    case Restart => AfterRestart(p)
    case Take => p.(work := p.work[1..])
  }

  predicate Can(p: Pipe, steps: seq<Step>)
    decreases |steps|
  {
    steps == [] || (Enabled(p, steps[0]) && Can(Next(p, steps[0]), steps[1..]))
  }

  function Run(p: Pipe, steps: seq<Step>): Pipe
    requires Can(p, steps)
    decreases |steps|
  {
    if steps == [] then p else Run(Next(p, steps[0]), steps[1..])
  }

  // ---- What is queued ----

  /** How many of `n` items there is room for. */
  function Fitting(p: Pipe, n: nat): nat {
    if |p.work| + n <= p.workRoom then n else if |p.work| <= p.workRoom then p.workRoom - |p.work| else 0
  }

  /** What queuing `items`, the work of batch `serial`, is noted as. */
  function Noted(items: seq<Work>, serial: nat): seq<Happening> {
    seq(|items|, i requires 0 <= i < |items| => HappeningOf(items[i], serial))
  }

  lemma FirstOfThem(p: Pipe, items: seq<Work>, n: nat, serial: nat)
    requires 0 < n <= |items|
    ensures p.work + items[..n] == p.work + [items[0]] + items[1..][..n - 1]
    ensures p.log + Noted(items[..n], serial)
            == p.log + [HappeningOf(items[0], serial)] + Noted(items[1..][..n - 1], serial)
  {
    assert items[..n] == [items[0]] + items[1..][..n - 1];
    assert Noted(items[..n], serial) == [HappeningOf(items[0], serial)] + Noted(items[1..][..n - 1], serial);
  }

  /** As many items as fit are queued, in order, and a sweep is owed exactly if some do not. */
  lemma {:induction false} QueuesWhatFits(p: Pipe, items: seq<Work>, serial: nat)
    requires !p.sweepPending
    ensures var n := Fitting(p, |items|);
      && n <= |items|
      && QueueAll(p, items, serial)
         == p.(work := p.work + items[..n], sweepPending := n < |items|,
               log := p.log + Noted(items[..n], serial) + if n < |items| then [LostWork] else [])
    decreases |items|
  {
    var n := Fitting(p, |items|);
    if n > 0 {
      QueuesWhatFits(QueueOne(p, items[0], serial), items[1..], serial);
      FirstOfThem(p, items, n, serial);
    } else {
      assert p.work + items[..n] == p.work && p.log + Noted(items[..n], serial) == p.log;
    }
  }

  /** A sweep, if one is owed, and `items` after it: as many as fit are queued, in that order. A sweep is owed exactly if some
      do not, and work is noted as lost exactly if there was any and not all of it was queued. */
  ghost predicate Queues(p: Pipe, q: Pipe, items: seq<Work>, serial: nat) {
    var all := (if p.sweepPending then [Sweep] else []) + items;
    var room := if |p.work| <= p.workRoom then p.workRoom - |p.work| else 0;
    var n := if |all| <= room then |all| else room;
    && q.work == p.work + all[..n]
    && q.sweepPending == (n < |all|)
    && q.log == p.log + Noted(all[..n], serial) + (if n < |all| && items != [] then [LostWork] else [])
    && q.overflowPending == p.overflowPending && q.next == p.next
  }

  lemma {:induction false} DeliversWhatFits(p: Pipe, items: seq<Work>, serial: nat)
    ensures Queues(p, Deliver(p, items, serial), items, serial) && Deliver(p, items, serial).events == p.events
  {
    if !p.sweepPending {
      assert [] + items == items;
      QueuesWhatFits(p, items, serial);
    } else if |p.work| < p.workRoom {
      var q := QueueOne(p, Sweep, serial).(sweepPending := false);
      QueuesWhatFits(q, items, serial);
      BehindSweep(p, q, items, serial);
    } else {
      assert p.work + ([Sweep] + items)[..0] == p.work && p.log + Noted(([Sweep] + items)[..0], serial) == p.log;
    }
  }

  lemma {:induction false} BehindSweep(p: Pipe, q: Pipe, items: seq<Work>, serial: nat)
    requires p.sweepPending && |p.work| < p.workRoom && q == QueueOne(p, Sweep, serial).(sweepPending := false)
    ensures var n, all := Fitting(q, |items|), [Sweep] + items;
      && q.work + items[..n] == p.work + all[..n + 1]
      && q.log + Noted(items[..n], serial) == p.log + Noted(all[..n + 1], serial)
  {
    var n, all := Fitting(q, |items|), [Sweep] + items;
    assert all[1..] == items;
    FirstOfThem(p, all, n + 1, serial);
  }

  /** Translating a batch queues all the work derived from it, behind a sweep if one is owed, or notes that some was lost and
      leaves a sweep owed; an overflow is translated as a sweep. */
  lemma TranslatesAll(p: Pipe, derived: seq<Work>)
    requires p.events != []
    ensures var q := AfterTranslate(p, derived);
      && q.events == p.events[1..]
      && (p.events[0].Batch? ==> Queues(p, q, derived, p.events[0].serial))
      && (p.events[0] == Overflow ==> Queues(p, q, [Sweep], 0))
  {
    var q := p.(events := p.events[1..]);
    DeliversWhatFits(q, [Sweep], 0);
    if p.events[0].Batch? {
      DeliversWhatFits(q, derived, p.events[0].serial);
    }
  }

  /** So if a batch's work is not all queued, it is noted and a sweep is owed; and if nothing is noted, it all is. */
  lemma NothingVanishes(p: Pipe, derived: seq<Work>)
    requires p.events != [] && p.events[0].Batch?
    ensures var q, owed := AfterTranslate(p, derived), if p.sweepPending then [Sweep] else [];
      && (q.log != [] && q.log[|q.log| - 1] == LostWork && |q.log| > |p.log| ==> q.sweepPending)
      && (derived != [] && !q.sweepPending ==> q.work == p.work + owed + derived)
      && (derived != [] && q.sweepPending ==> |q.log| > |p.log| && q.log[|q.log| - 1] == LostWork)
  {
    TranslatesAll(p, derived);
    var owed := if p.sweepPending then [Sweep] else [];
    assert (owed + derived)[..|owed + derived|] == owed + derived;
    assert p.work + (owed + derived) == p.work + owed + derived;
  }

  /** The reader queues the batch behind an overflow if one is owed, where both fit, and otherwise notes it as lost and owes
      an overflow, which it queues if only that fits. */
  lemma ReceivesExactly(p: Pipe)
    ensures var q, owed := AfterReceive(p), if p.overflowPending then [Overflow] else [];
      && q.next == p.next + 1 && q.work == p.work && q.sweepPending == p.sweepPending
      && (if |p.events| + |owed| < p.eventRoom
          then q.events == p.events + owed + [Batch(p.next)] && !q.overflowPending && q.log == p.log
          else q.overflowPending && q.log == p.log + [LostBatch(p.next)]
               && q.events == p.events + if |p.events| < p.eventRoom then owed else [])
  {
  }

  /** Seeing a connection calls for a sweep exactly if it is neither the first nor the last one seen; a sweep owed is queued
      either way, if it fits. */
  lemma SeesExactly(p: Pipe, generation: nat)
    ensures var q := AfterSee(p, generation);
      && q.lastGeneration == generation && q.events == p.events
      && (if generation > 1 && generation != p.lastGeneration then Queues(p.(log := p.log + [Saw]), q, [Sweep], 0)
          else Queues(p, q, [], 0))
  {
    var q := p.(lastGeneration := generation);
    DeliversWhatFits(q, [], 0);
    DeliversWhatFits(q.(log := q.log + [Saw]), [Sweep], 0);
  }

  /** A connection other than the first and the last one seen queues a sweep, or one is owed. */
  lemma SeenSweeps(p: Pipe, generation: nat)
    requires generation > 1 && generation != p.lastGeneration
    ensures var q := AfterSee(p, generation);
      q.sweepPending || (q.work != [] && q.work[|q.work| - 1] == Sweep && q.log[|q.log| - 1] == Swept)
  {
    var q := p.(lastGeneration := generation, log := p.log + [Saw]);
    assert [Sweep][1..] == [];
  }

  // ---- Losses no sweep has followed ----

  /** The reader's start left a loss with no overflow to come. */
  predicate Exposes(h: Happening) {
    h.Restarted? && h.lost >= 0
  }

  /** The first batch dropped since the last sweep, or since the last start of a reader that left one exposed. */
  function FirstLost(log: seq<Happening>): (serial: int)
    ensures serial >= -1
  {
    if log == [] then -1
    else
      var sooner := FirstLost(log[..|log| - 1]);
      match log[|log| - 1]
      case LostBatch(serial) => if sooner >= 0 then sooner else serial
      case Swept => -1
      case Restarted(_, lost) => if lost >= 0 then -1 else sooner
      case _ => sooner
  }

  /** A sweep is called for by the translator itself: it dropped work, or saw a new connection. */
  predicate CallsForSweep(h: Happening) {
    h.LostWork? || h.Saw?
  }

  /** Whether one was called for and has not been queued. */
  predicate SweepOwed(log: seq<Happening>) {
    log != [] && (CallsForSweep(log[|log| - 1]) || (!log[|log| - 1].Swept? && SweepOwed(log[..|log| - 1])))
  }

  /** Work of a batch is queued only with no sweep called for, and before the first batch dropped; a start that exposes a
      loss exposes the first. */
  predicate Lawful(log: seq<Happening>) {
    log != [] ==>
      var sooner, last := log[..|log| - 1], log[|log| - 1];
      && Lawful(sooner)
      && (last.Queued? ==> !SweepOwed(sooner) && (FirstLost(sooner) >= 0 ==> last.serial < FirstLost(sooner)))
      && (Exposes(last) ==> last.lost == FirstLost(sooner))
  }

  ghost predicate SweptBetween(log: seq<Happening>, i: nat, j: nat) {
    exists k :: i < k < j && k < |log| && log[k].Swept?
  }

  ghost predicate ExposedBetween(log: seq<Happening>, i: nat, j: nat) {
    exists k :: i < k < j && k < |log| && Exposes(log[k])
  }

  /** One more happening. */
  lemma LogStep(log: seq<Happening>, h: Happening)
    ensures SweepOwed(log + [h]) == (CallsForSweep(h) || (!h.Swept? && SweepOwed(log)))
    ensures FirstLost(log + [h])
            == if h.Swept? || Exposes(h) then -1
               else if h.LostBatch? && FirstLost(log) < 0 then h.serial
               else FirstLost(log)
    ensures Lawful(log + [h])
            == (&& Lawful(log)
                && (h.Queued? ==> !SweepOwed(log) && (FirstLost(log) >= 0 ==> h.serial < FirstLost(log)))
                && (Exposes(h) ==> h.lost == FirstLost(log)))
  {
    assert (log + [h])[..|log|] == log;
  }

  lemma {:induction false} LawfulPrefix(log: seq<Happening>, n: nat)
    requires Lawful(log) && n <= |log|
    ensures Lawful(log[..n])
    decreases |log|
  {
    if n < |log| {
      assert log[..|log| - 1][..n] == log[..n];
      LawfulPrefix(log[..|log| - 1], n);
    } else {
      assert log[..n] == log;
    }
  }

  /** A sweep called for is owed until one is queued. */
  lemma {:induction false} CallCounts(log: seq<Happening>, i: nat)
    requires i < |log| && CallsForSweep(log[i]) && !SweptBetween(log, i, |log|)
    ensures SweepOwed(log)
  {
    var sooner := log[..|log| - 1];
    if i < |log| - 1 {
      assert !log[|log| - 1].Swept?;
      assert SweptBetween(sooner, i, |sooner|) ==> SweptBetween(log, i, |log|);
      CallCounts(sooner, i);
    }
  }

  /** A batch dropped, with no sweep since and no reader's start that left it exposed, is not before the first. */
  lemma {:induction false} LossCounts(log: seq<Happening>, i: nat)
    requires i < |log| && log[i].LostBatch? && LossesRise(log)
    requires !SweptBetween(log, i, |log|) && !ExposedBetween(log, i, |log|)
    ensures 0 <= FirstLost(log) <= log[i].serial
  {
    var sooner, last := log[..|log| - 1], log[|log| - 1];
    if i == |log| - 1 {
      FirstLostStands(sooner);
    } else {
      assert !last.Swept? && !Exposes(last);
      assert SweptBetween(sooner, i, |sooner|) ==> SweptBetween(log, i, |log|);
      assert ExposedBetween(sooner, i, |sooner|) ==> ExposedBetween(log, i, |log|);
      LossCounts(sooner, i);
    }
  }

  /** The batches dropped are in the order they were read. */
  ghost predicate LossesRise(log: seq<Happening>) {
    forall i, j | 0 <= i < j < |log| && log[i].LostBatch? && log[j].LostBatch? :: log[i].serial < log[j].serial
  }

  /** The first batch dropped was dropped, and no sweep has followed. */
  lemma {:induction false} FirstLostStands(log: seq<Happening>)
    ensures FirstLost(log) >= 0 ==>
              exists i :: 0 <= i < |log| && log[i] == LostBatch(FirstLost(log)) && !SweptBetween(log, i, |log|)
  {
    if log != [] && FirstLost(log) >= 0 {
      var sooner := log[..|log| - 1];
      FirstLostStands(sooner);
      if FirstLost(sooner) >= 0 {
        var i :| 0 <= i < |sooner| && sooner[i] == LostBatch(FirstLost(sooner)) && !SweptBetween(sooner, i, |sooner|);
        StillUnswept(log, i);
      } else {
        assert log[|log| - 1] == LostBatch(FirstLost(log));
      }
    }
  }

  lemma StillUnswept(log: seq<Happening>, i: nat)
    requires i < |log| - 1 && !log[|log| - 1].Swept? && !SweptBetween(log[..|log| - 1], i, |log| - 1)
    ensures log[i] == log[..|log| - 1][i] && !SweptBetween(log, i, |log|)
  {
    forall k | i < k < |log| ensures !log[k].Swept? {
      assert k < |log| - 1 ==> log[..|log| - 1][k] == log[k];
    }
  }

  /** The first start after `i` that exposes a loss. */
  lemma {:induction false} FirstExposing(log: seq<Happening>, i: nat, j: nat) returns (k: nat)
    requires j <= |log| && ExposedBetween(log, i, j)
    ensures i < k < j && Exposes(log[k]) && !ExposedBetween(log, i, k)
    decreases j
  {
    k :| i < k < j && Exposes(log[k]);
    if ExposedBetween(log, i, k) {
      k := FirstExposing(log, i, k);
    }
  }
}
