/** A tap's queue (`hub.rs`), with a limit on its records and one on their bytes; drops are counted. Offers are one
    at a time. What a subscriber receives, each drop marker read as that many gaps, is what was offered. */
module Taps {
  import opened Files

  const TAP_RECORDS := 1024
  const TAP_BYTES := 0x200_0000

  /** What a record holds, as far as its size goes. */
  datatype Happened =
    | Event(detail: nat)
    | Request(phases: nat)
    | Exchange(request: nat, reply: nat)
    | Undecodable(body: nat)
    | EventFrame(body: nat)
    | Dropped(count: nat)
    | Header
    | Census

  datatype Record = Record(at: nat, what: Happened)

  /** What a drop marker takes; nothing takes less. */
  const MARKER := 64

  /** What a record counts for against the limit on bytes. */
  function Size(record: Record): (size: nat)
    ensures size >= MARKER && (record.what.Dropped? ==> size == MARKER)
  {
    match record.what
    case Event(detail) => 128 + detail
    case Request(phases) => 192 + 32 * phases
    case Exchange(request, reply) => 256 + request + reply
    case Undecodable(body) => 192 + body
    case EventFrame(body) => 192 + body
    case Dropped(_) => MARKER
    case Header => 64
    case Census => 64
  }

  function SizeOf(records: seq<Record>): nat {
    if records == [] then 0 else SizeOf(records[..|records| - 1]) + Size(records[|records| - 1])
  }

  lemma {:induction false} SizeOfFirst(records: seq<Record>)
    requires records != []
    ensures SizeOf(records) == Size(records[0]) + SizeOf(records[1..])
  {
    if |records| > 1 {
      SizeOfFirst(records[..|records| - 1]);
      assert records[..|records| - 1][1..] == records[1..][..|records| - 2];
    }
  }

  function Gaps(n: nat): seq<Option<Record>> {
    seq(n, _ => None)
  }

  /** Records as a subscriber reads them: each drop marker is that many gaps. */
  function Read(records: seq<Record>): seq<Option<Record>> {
    if records == [] then []
    else
      var last := records[|records| - 1];
      Read(records[..|records| - 1]) + if last.what.Dropped? then Gaps(last.what.count) else [Some(last)]
  }

  /** Each record offered, in its place or a gap. */
  ghost predicate Reconstructs(fates: seq<Option<Record>>, offered: seq<Record>) {
    |fates| == |offered| && (forall i | 0 <= i < |fates| && fates[i].Some? :: fates[i].value == offered[i])
  }

  function Missing(fates: seq<Option<Record>>): nat {
    if fates == [] then 0 else Missing(fates[..|fates| - 1]) + if fates[|fates| - 1].None? then 1 else 0
  }

  /** The records, and the drops not yet told of, account for everything offered. */
  ghost predicate Accounts(records: seq<Record>, dropped: nat, fates: seq<Option<Record>>) {
    Read(records) + Gaps(dropped) == fates
  }

  lemma ReadMore(records: seq<Record>, record: Record)
    ensures Read(records + [record])
            == Read(records) + if record.what.Dropped? then Gaps(record.what.count) else [Some(record)]
  {
    assert (records + [record])[..|records|] == records;
  }

  lemma Told(records: seq<Record>, dropped: nat, fates: seq<Option<Record>>, at: nat)
    requires Accounts(records, dropped, fates)
    ensures Accounts(records + [Record(at, Dropped(dropped))], 0, fates)
  {
    ReadMore(records, Record(at, Dropped(dropped)));
    assert Gaps(0) == [];
  }

  lemma TakenOne(records: seq<Record>, fates: seq<Option<Record>>, record: Record)
    requires Accounts(records, 0, fates) && !record.what.Dropped?
    ensures Accounts(records + [record], 0, fates + [Some(record)])
  {
    ReadMore(records, record);
    assert Gaps(0) == [];
  }

  lemma DroppedOne(records: seq<Record>, dropped: nat, fates: seq<Option<Record>>)
    requires Accounts(records, dropped, fates)
    ensures Accounts(records, dropped + 1, fates + [None])
  {
    assert Gaps(dropped + 1) == Gaps(dropped) + [None];
  }

  lemma OfferedOne(fates: seq<Option<Record>>, offered: seq<Record>, record: Record, taken: bool)
    requires Reconstructs(fates, offered)
    ensures var fate := if taken then Some(record) else None;
      Reconstructs(fates + [fate], offered + [record])
      && Missing(fates + [fate]) == Missing(fates) + if taken then 0 else 1
  {
    var fate := if taken then Some(record) else None;
    assert (fates + [fate])[..|fates|] == fates;
  }

  class Tap {
    var queue: seq<Record>
    var bytes: nat
    /** Drops that no marker has told of, and all drops. */
    var dropped: nat
    var droppedEver: nat
    /** Everything offered, what became of each, and everything received. */
    ghost var offered: seq<Record>
    ghost var fates: seq<Option<Record>>
    ghost var received: seq<Record>

    ghost predicate Valid()
      reads this
    {
      && |queue| <= TAP_RECORDS
      && bytes == SizeOf(queue) <= TAP_BYTES
      && Accounts(received + queue, dropped, fates)
      && Reconstructs(fates, offered)
      && droppedEver == Missing(fates)
    }

    constructor ()
      ensures Valid() && offered == []
    {
      queue, bytes, dropped, droppedEver := [], 0, 0, 0;
      offered, fates, received := [], [], [];
    }

    predicate Fits(record: Record)
      reads this
    {
      bytes + Size(record) <= TAP_BYTES && |queue| < TAP_RECORDS
    }

    method Send(record: Record) returns (taken: bool)
      requires |queue| <= TAP_RECORDS && bytes == SizeOf(queue) <= TAP_BYTES
      modifies this`queue, this`bytes
      ensures |queue| <= TAP_RECORDS && bytes == SizeOf(queue) <= TAP_BYTES
      ensures taken == old(Fits(record)) && queue == old(queue) + if taken then [record] else []
    {
      var size := Size(record);
      bytes := bytes + size;
      if bytes > TAP_BYTES {
        bytes := bytes - size;
        return false;
      }
      if |queue| >= TAP_RECORDS {
        bytes := bytes - size;
        return false;
      }
      queue := queue + [record];
      assert queue[..|queue| - 1] == old(queue);
      return true;
    }

    /** A marker goes ahead of the next record if any drops are untold and it fits. */
    method Tell(at: nat)
      requires Valid()
      modifies this`queue, this`bytes, this`dropped
      ensures Valid() && (dropped > 0 ==> forall record :: !Fits(record))
      ensures var told := old(dropped) > 0 && old(bytes) + 64 <= TAP_BYTES && |old(queue)| < TAP_RECORDS;
        && queue == old(queue) + (if told then [Record(at, Dropped(old(dropped)))] else [])
        && bytes == old(bytes) + (if told then 64 else 0)
        && dropped == (if told then 0 else old(dropped))
    {
      var count := dropped;
      dropped := 0;
      if count > 0 {
        var marker := Record(at, Dropped(count));
        var sent := Send(marker);
        if sent {
          Told(received + old(queue), count, fates, at);
          assert received + queue == received + old(queue) + [marker];
        } else {
          assert queue == old(queue);
          dropped := dropped + count;
        }
      }
    }

    /** One more record comes: a marker for earlier drops goes first, and either may be dropped itself. */
    method Offer(record: Record) returns (taken: bool)
      requires Valid() && !record.what.Dropped?
      modifies this
      ensures Valid() && offered == old(offered) + [record] && received == old(received)
      ensures fates == old(fates) + [if taken then Some(record) else None]
      ensures var ahead := if old(dropped) > 0 then 1 else 0;
        taken <==> old(bytes) + 64 * ahead + Size(record) <= 0x200_0000 && |old(queue)| + ahead < 1024
      ensures taken ==> queue == old(queue) + (if old(dropped) > 0 then [Record(record.at, Dropped(old(dropped)))] else [])
                                 + [record]
    {
      Tell(record.at);
      ghost var queued := queue;
      taken := Send(record);
      if !taken {
        dropped := dropped + 1;
        droppedEver := droppedEver + 1;
      }
      Note(record, taken, queued);
    }

    /** What became of `record` is written down; `was` is what was queued before it. */
    ghost method Note(record: Record, taken: bool, was: seq<Record>)
      requires |queue| <= TAP_RECORDS && bytes == SizeOf(queue) <= TAP_BYTES && !record.what.Dropped?
      requires Reconstructs(fates, offered) && droppedEver == Missing(fates) + if taken then 0 else 1
      requires if taken then queue == was + [record] && dropped == 0 && Accounts(received + was, 0, fates)
               else queue == was && dropped > 0 && Accounts(received + was, dropped - 1, fates)
      modifies this`offered, this`fates
      ensures Valid() && offered == old(offered) + [record]
      ensures fates == old(fates) + [if taken then Some(record) else None]
    {
      OfferedOne(fates, offered, record, taken);
      if taken {
        TakenOne(received + was, fates, record);
        assert received + queue == received + was + [record];
      } else {
        DroppedOne(received + was, dropped - 1, fates);
      }
      offered := offered + [record];
      fates := fates + [if taken then Some(record) else None];
    }

    /** The subscriber reads on. */
    method Receive() returns (record: Option<Record>)
      requires Valid()
      modifies this`queue, this`bytes, this`received
      ensures Valid()
      ensures if old(queue) == [] then record == None && received == old(received)
              else record == Some(old(queue)[0]) && received == old(received) + [old(queue)[0]] && queue == old(queue)[1..]
    {
      if queue == [] {
        return None;
      }
      SizeOfFirst(queue);
      var first := queue[0];
      queue := queue[1..];
      bytes := bytes - Size(first);
      received := received + [first];
      assert received + queue == old(received) + old(queue);
      return Some(first);
    }
  }

  /** The bytes of what a record carries. */
  function Payload(record: Record): nat {
    match record.what
    case Event(detail) => detail
    case Request(phases) => 32 * phases
    case Exchange(request, reply) => request + reply
    case Undecodable(body) => body
    case EventFrame(body) => body
    case _ => 0
  }

  function PayloadOf(records: seq<Record>): nat {
    if records == [] then 0 else PayloadOf(records[..|records| - 1]) + Payload(records[|records| - 1])
  }

  lemma {:induction false} PayloadCounts(records: seq<Record>)
    ensures PayloadOf(records) + 64 * |records| <= SizeOf(records)
  {
    if records != [] {
      PayloadCounts(records[..|records| - 1]);
    }
  }

  /** What a tap holds is bounded: 32 MiB of what its records carry, with 64 bytes more for each. */
  lemma {:induction false} HoldsLittle(tap: Tap)
    requires tap.Valid()
    ensures PayloadOf(tap.queue) + 64 * |tap.queue| <= 32 * 1024 * 1024 && |tap.queue| <= 1024
  {
    PayloadCounts(tap.queue);
  }

  /** Once the queue is drained, what was received and the drops not yet told of are what was offered, each in its place. */
  lemma DrainedReconstructs(tap: Tap, i: nat)
    requires tap.Valid() && tap.queue == [] && i < |tap.offered|
    ensures var seen := Read(tap.received) + Gaps(tap.dropped);
      |seen| == |tap.offered| && (seen[i].Some? ==> seen[i].value == tap.offered[i])
  {
    assert tap.received + [] == tap.received;
  }
}
