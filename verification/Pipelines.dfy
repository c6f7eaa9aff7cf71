/** The two queues and their flags, updated in place, as the reader's and the translator's loops do. */
module Pipelines {
  import opened Overflows
  import opened OverflowInvariant

  class Pipeline {
    const eventRoom: nat
    const workRoom: nat
    var events: seq<Event>
    var overflowPending: bool
    var work: seq<Work>
    var sweepPending: bool
    var lastGeneration: nat
    /** The batches read so far. */
    var next: nat
    ghost var log: seq<Happening>

    ghost function View(): Pipe
      reads this
    {
      Pipe(eventRoom, workRoom, events, overflowPending, work, sweepPending, lastGeneration, next, log)
    }

    ghost predicate Valid()
      reads this
    {
      Good(View())
    }

    constructor (eventRoom: nat, workRoom: nat)
      ensures Valid() && View() == Start(eventRoom, workRoom)
    {
      this.eventRoom, this.workRoom := eventRoom, workRoom;
      events, overflowPending, work, sweepPending := [], false, [], false;
      next, lastGeneration, log := 0, 0, [];
    }

    // ---- The reader ----

    /** The reader takes the next batch off the stream. */
    method Receive()
      requires Valid()
      modifies this`events, this`overflowPending, this`next, this`log
      ensures Valid() && View() == AfterReceive(old(View()))
    {
      ReceiveKeeps(View());
      if overflowPending {
        QueueOverflow();
        if overflowPending {
          Lose();
          return;
        }
      }
      QueueBatch();
    }

    method QueueOverflow()
      requires overflowPending
      modifies this`events, this`overflowPending
      ensures View() == Tell(old(View()))
    {
      if |events| < eventRoom {
        events := events + [Overflow];
        overflowPending := false;
      }
    }

    method QueueBatch()
      modifies this`events, this`overflowPending, this`next, this`log
      ensures View() == if |old(events)| < eventRoom
                        then old(View()).(events := old(events) + [Batch(old(next))], next := old(next) + 1)
                        else Overflows.Lose(old(View()))
    {
      if |events| < eventRoom {
        events := events + [Batch(next)];
        next := next + 1;
      } else {
        Lose();
      }
    }

    method Lose()
      modifies this`overflowPending, this`next, this`log
      ensures View() == Overflows.Lose(old(View()))
    {
      overflowPending := true;
      log := log + [LostBatch(next)];
      next := next + 1;
    }

    /** The connection is lost and another's reader started. */
    method Restart()
      requires Valid()
      modifies this`overflowPending, this`log
      ensures Valid() && View() == AfterRestart(old(View()))
    {
      RestartKeeps(View());
      log := log + [Restarted(next, if Exposed(View()) then FirstLost(log) else -1)];
      overflowPending := false;
    }

    // ---- The translator ----

    /** The translator takes the next event off the queue, and queues the work `derived` from it. */
    method Translate(derived: seq<Work>)
      requires Valid() && events != []
      modifies this`events, this`work, this`sweepPending, this`log
      ensures Valid() && View() == AfterTranslate(old(View()), derived)
    {
      TranslateKeeps(View(), derived);
      var event := events[0];
      events := events[1..];
      match event
      case Overflow => Deliver([Sweep], 0);
      case Batch(serial) => Deliver(derived, serial);
    }

    /** The translator sees the connection of `generation`. */
    method See(generation: nat)
      requires Valid()
      modifies this`work, this`sweepPending, this`lastGeneration, this`log
      ensures Valid() && View() == AfterSee(old(View()), generation)
    {
      SeeKeeps(View(), generation);
      var items := [];
      if generation > 1 && generation != lastGeneration {
        log := log + [Saw];
        items := [Sweep];
      }
      lastGeneration := generation;
      Deliver(items, 0);
    }

    method Deliver(items: seq<Work>, ghost serial: nat)
      modifies this`work, this`sweepPending, this`log
      ensures View() == Overflows.Deliver(old(View()), items, serial)
    {
      if sweepPending {
        if |work| < workRoom {
          work := work + [Sweep];
          log := log + [Swept];
          sweepPending := false;
        } else {
          log := if items == [] then log else log + [LostWork];
          return;
        }
      }
      QueueAll(items, serial);
    }

    method QueueAll(items: seq<Work>, ghost serial: nat)
      modifies this`work, this`sweepPending, this`log
      ensures View() == Overflows.QueueAll(old(View()), items, serial)
    {
      for i := 0 to |items|
        invariant Overflows.QueueAll(View(), items[i..], serial) == Overflows.QueueAll(old(View()), items, serial)
      {
        if |work| >= workRoom {
          sweepPending := true;
          log := log + [LostWork];
          return;
        }
        assert items[i..][1..] == items[i + 1..];
        work := work + [items[i]];
        log := log + [HappeningOf(items[i], serial)];
      }
    }

    // ---- The notifier ----

    /** The notifier thread takes the next work off its queue. */
    method Take() returns (item: Work)
      requires Valid() && work != []
      modifies this`work
      ensures Valid() && View() == Next(old(View()), Step.Take) && [item] + work == old(work)
    {
      item := work[0];
      work := work[1..];
    }
  }
}
