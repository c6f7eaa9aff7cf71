/** What every step of the two queues keeps: a loss that no sweep has followed is owed one, unless the start of a new reader
    left it exposed. */
module OverflowInvariant {
  import opened Overflows

  // ---- Serials ----

  /** The batches queued are in order and were read. */
  ghost predicate Rising(events: seq<Event>, next: nat) {
    && (forall i | 0 <= i < |events| && events[i].Batch? :: events[i].serial < next)
    && (forall i, j | 0 <= i < j < |events| && events[i].Batch? && events[j].Batch? ::
          events[i].serial < events[j].serial)
  }

  /** So are those dropped, and a reader starts after them. */
  ghost predicate InOrder(log: seq<Happening>, next: nat) {
    && LossesRise(log)
    && (forall i | 0 <= i < |log| && log[i].LostBatch? :: log[i].serial < next)
    && (forall i | 0 <= i < |log| && log[i].Restarted? :: log[i].serial <= next)
    && (forall i, j | 0 <= i < j < |log| && log[i].LostBatch? && log[j].Restarted? :: log[i].serial < log[j].serial)
  }

  /** A batch queued was not dropped. */
  ghost predicate NoneBoth(events: seq<Event>, log: seq<Happening>) {
    forall i | 0 <= i < |events| && events[i].Batch? :: LostBatch(events[i].serial) !in log
  }

  /** A batch read before a start that exposed a loss is none after that loss. */
  predicate Behind(serial: nat, h: Happening) {
    Exposes(h) && serial < h.serial ==> serial <= h.lost
  }

  ghost predicate EventsBehind(events: seq<Event>, log: seq<Happening>) {
    forall i, k | 0 <= i < |events| && 0 <= k < |log| && events[i].Batch? :: Behind(events[i].serial, log[k])
  }

  ghost predicate QueuedBehind(log: seq<Happening>) {
    forall k, j | 0 <= k < j < |log| && log[j].Queued? :: Behind(log[j].serial, log[k])
  }

  ghost predicate Sound(events: seq<Event>, next: nat, log: seq<Happening>) {
    && Rising(events, next) && InOrder(log, next) && NoneBoth(events, log)
    && EventsBehind(events, log) && QueuedBehind(log)
  }

  lemma SoundPush(events: seq<Event>, next: nat, log: seq<Happening>)
    requires Sound(events, next, log)
    ensures Sound(events + [Overflow], next, log) && Sound(events + [Batch(next)], next + 1, log)
  {
  }

  lemma SoundPop(events: seq<Event>, next: nat, log: seq<Happening>)
    requires Sound(events, next, log) && events != []
    ensures Sound(events[1..], next, log)
  {
  }

  lemma SoundLose(events: seq<Event>, next: nat, log: seq<Happening>)
    requires Sound(events, next, log)
    ensures Sound(events, next + 1, log + [LostBatch(next)])
  {
  }

  /** Work is queued of a batch that was at the head of the queue. */
  lemma SoundLog(events: seq<Event>, next: nat, log: seq<Happening>, h: Happening)
    requires Sound(events, next, log) && !h.LostBatch? && !h.Restarted?
    requires h.Queued? ==> forall k | 0 <= k < |log| :: Behind(h.serial, log[k])
    ensures Sound(events, next, log + [h])
  {
  }

  /** A reader starts: of the batches queued, none is after a loss it exposes. */
  lemma SoundRestart(events: seq<Event>, next: nat, log: seq<Happening>, lost: int)
    requires Sound(events, next, log)
    requires lost >= 0 ==> forall i | 0 <= i < |events| && events[i].Batch? :: events[i].serial <= lost
    ensures Sound(events, next, log + [Restarted(next, lost)])
  {
  }

  // ---- What is owed ----

  /** Every batch after `lost` stands behind an overflow, which is queued or owed. */
  ghost predicate Guarded(events: seq<Event>, owed: bool, lost: int) {
    && (Overflow in events || owed)
    && (forall i | 0 <= i < |events| && events[i].Batch? && events[i].serial > lost :: Overflow in events[..i])
  }

  lemma GuardedPush(events: seq<Event>, owed: bool, lost: int, event: Event)
    requires Guarded(events, owed, lost) && (event.Batch? && event.serial > lost ==> Overflow in events)
    ensures Guarded(events + [event], owed && event != Overflow, lost)
  {
    var events' := events + [event];
    forall i | 0 <= i < |events'| && events'[i].Batch? && events'[i].serial > lost ensures Overflow in events'[..i] {
      assert events'[..i] == if i < |events| then events[..i] else events;
    }
  }

  lemma GuardedPop(events: seq<Event>, owed: bool, lost: int)
    requires events != [] && events[0].Batch? && Guarded(events, owed, lost)
    ensures Guarded(events[1..], owed, lost) && events[0].serial <= lost
  {
    assert Overflow in events[..0] ==> false;
    assert Overflow in events ==> Overflow in events[1..];
    forall i | 0 <= i < |events[1..]| && events[1..][i].Batch? && events[1..][i].serial > lost
      ensures Overflow in events[1..][..i]
    {
      assert Overflow in events[..i + 1];
      assert events[..i + 1] == [events[0]] + events[1..][..i];
    }
  }

  /** A loss that no sweep has followed is owed one, by the translator, or by an overflow that stands, or will stand, before
      every later batch. */
  ghost predicate Owing(events: seq<Event>, overflowPending: bool, sweepPending: bool, log: seq<Happening>) {
    && Lawful(log)
    && (SweepOwed(log) ==> sweepPending)
    && (FirstLost(log) >= 0 ==> sweepPending || Guarded(events, overflowPending, FirstLost(log)))
  }

  ghost predicate Good(p: Pipe) {
    Sound(p.events, p.next, p.log) && Owing(p.events, p.overflowPending, p.sweepPending, p.log)
  }

  // ---- The reader ----

  lemma TellKeeps(p: Pipe)
    requires Good(p)
    ensures Good(Tell(p))
  {
    SoundPush(p.events, p.next, p.log);
    if FirstLost(p.log) >= 0 && !p.sweepPending {
      GuardedPush(p.events, p.overflowPending, FirstLost(p.log), Overflow);
    }
  }

  lemma LoseKeeps(p: Pipe)
    requires Good(p)
    ensures Good(Lose(p))
  {
    LogStep(p.log, LostBatch(p.next));
    SoundLose(p.events, p.next, p.log);
  }

  lemma ReceiveKeeps(p: Pipe)
    requires Good(p)
    ensures Good(AfterReceive(p))
  {
    var q := Tell(p);
    TellKeeps(p);
    if !q.overflowPending && |q.events| < q.eventRoom {
      SoundPush(q.events, q.next, q.log);
      if FirstLost(q.log) >= 0 && !q.sweepPending {
        GuardedPush(q.events, false, FirstLost(q.log), Batch(q.next));
      }
    } else {
      LoseKeeps(q);
    }
  }

  lemma RestartKeeps(p: Pipe)
    requires Good(p)
    ensures Good(AfterRestart(p))
  {
    var lost := if Exposed(p) then FirstLost(p.log) else -1;
    LogStep(p.log, Restarted(p.next, lost));
    if Exposed(p) {
      forall i | 0 <= i < |p.events| && p.events[i].Batch? ensures p.events[i].serial <= lost {
        assert Overflow in p.events[..i] ==> Overflow in p.events;
      }
    }
    SoundRestart(p.events, p.next, p.log, lost);
  }

  // ---- The translator ----

  /** `serial` is a batch that was read and not dropped. */
  ghost predicate BehindAll(serial: nat, log: seq<Happening>) {
    forall k | 0 <= k < |log| :: Behind(serial, log[k])
  }

  /** Nothing is owed that `items`, the work of batch `serial`, could overtake. */
  ghost predicate Settled(p: Pipe, items: seq<Work>, serial: nat) {
    && Sound(p.events, p.next, p.log) && Lawful(p.log) && !p.sweepPending && BehindAll(serial, p.log)
    && (items != [Sweep] ==>
          && !SweepOwed(p.log)
          && (FirstLost(p.log) >= 0 ==>
                serial < FirstLost(p.log) && Guarded(p.events, p.overflowPending, FirstLost(p.log))))
  }

  lemma QueueOneKeeps(p: Pipe, items: seq<Work>, serial: nat)
    requires items != [] && Settled(p, items, serial)
    ensures Settled(QueueOne(p, items[0], serial), items[1..], serial)
  {
    var h := HappeningOf(items[0], serial);
    var q := QueueOne(p, items[0], serial);
    LogStep(p.log, h);
    SoundLog(p.events, p.next, p.log, h);
    assert q.events == p.events && q.next == p.next && q.log == p.log + [h];
    assert BehindAll(serial, q.log);
    assert items == [Sweep] ==> h == Swept;
  }

  lemma DropKeeps(p: Pipe)
    requires Sound(p.events, p.next, p.log) && Lawful(p.log)
    ensures Good(p.(sweepPending := true, log := p.log + [LostWork]))
  {
    LogStep(p.log, LostWork);
    SoundLog(p.events, p.next, p.log, LostWork);
  }

  lemma {:induction false} QueueAllKeeps(p: Pipe, items: seq<Work>, serial: nat)
    requires Settled(p, items, serial)
    ensures Good(QueueAll(p, items, serial))
    decreases |items|
  {
    if items != [] {
      if |p.work| < p.workRoom {
        QueueOneKeeps(p, items, serial);
        QueueAllKeeps(QueueOne(p, items[0], serial), items[1..], serial);
      } else {
        DropKeeps(p);
      }
    }
  }

  lemma DeliverKeeps(p: Pipe, items: seq<Work>, serial: nat)
    requires Sound(p.events, p.next, p.log) && Lawful(p.log) && BehindAll(serial, p.log)
    requires !p.sweepPending ==> Settled(p, items, serial)
    ensures Good(Deliver(p, items, serial))
  {
    if !p.sweepPending {
      QueueAllKeeps(p, items, serial);
    } else if |p.work| < p.workRoom {
      LogStep(p.log, Swept);
      SoundLog(p.events, p.next, p.log, Swept);
      QueueAllKeeps(QueueOne(p, Sweep, serial).(sweepPending := false), items, serial);
    } else {
      DropKeeps(p);
    }
  }

  /** A batch at the head of the queue is older than any loss that is owed an overflow. */
  lemma HeadIsOlder(p: Pipe)
    requires Good(p) && p.events != [] && p.events[0].Batch? && !p.sweepPending && FirstLost(p.log) >= 0
    ensures p.events[0].serial < FirstLost(p.log) && Guarded(p.events[1..], p.overflowPending, FirstLost(p.log))
  {
    GuardedPop(p.events, p.overflowPending, FirstLost(p.log));
    FirstLostStands(p.log);
  }

  lemma TranslateKeeps(p: Pipe, derived: seq<Work>)
    requires Good(p) && p.events != []
    ensures Good(AfterTranslate(p, derived))
  {
    var q := p.(events := p.events[1..]);
    SoundPop(p.events, p.next, p.log);
    match p.events[0]
    case Overflow => DeliverKeeps(q, [Sweep], 0);
    case Batch(serial) =>
      if !p.sweepPending && FirstLost(p.log) >= 0 {
        HeadIsOlder(p);
      }
      DeliverKeeps(q, derived, serial);
  }

  lemma SeeKeeps(p: Pipe, generation: nat)
    requires Good(p)
    ensures Good(AfterSee(p, generation))
  {
    var q := p.(lastGeneration := generation);
    if generation > 1 && generation != p.lastGeneration {
      LogStep(q.log, Saw);
      SoundLog(q.events, q.next, q.log, Saw);
      DeliverKeeps(q.(log := q.log + [Saw]), [Sweep], 0);
    } else {
      SeeNothingKeeps(q);
    }
  }

  lemma SeeNothingKeeps(p: Pipe)
    requires Good(p)
    ensures Good(Deliver(p, [], 0))
  {
    if p.sweepPending {
      DeliverKeeps(p, [], 0);
    }
  }

  // ---- Runs ----

  lemma StepKeeps(p: Pipe, s: Step)
    requires Good(p) && Enabled(p, s)
    ensures Good(Next(p, s))
  {
    match s
    case Receive => ReceiveKeeps(p);
    case Translate(derived) => TranslateKeeps(p, derived);
    case See(generation) => SeeKeeps(p, generation);
    case Restart => RestartKeeps(p);
    case Take =>
  }

  lemma {:induction false} RunKeeps(p: Pipe, steps: seq<Step>)
    requires Good(p) && Can(p, steps)
    ensures Good(Run(p, steps))
    decreases |steps|
  {
    if steps != [] {
      StepKeeps(p, steps[0]);
      RunKeeps(Next(p, steps[0]), steps[1..]);
    }
  }

  lemma StartIsGood(eventRoom: nat, workRoom: nat)
    ensures Good(Start(eventRoom, workRoom))
  {
  }
}
