/** A histogram's counts and the quantiles taken of a window (`histogram.rs`, and `quantile` in `ctl`): what two readings
    of one histogram tell of the values added between them. */
module Quantiles {
  import opened Files
  import opened Buckets

  /** A bucket as it is reported: its upper bound and its count. */
  datatype Bin = Bin(upper: nat, count: nat)

  /** The bucket of each value. */
  function Indices(values: seq<nat>): seq<nat> {
    seq(|values|, k requires 0 <= k < |values| => BucketOf(values[k]))
  }

  /** How often `i` occurs. */
  function Occurs(indices: seq<nat>, i: nat): nat {
    if indices == [] then 0 else Occurs(indices[..|indices| - 1], i) + if indices[|indices| - 1] == i then 1 else 0
  }

  /** The counts of `n` buckets that the values of `indices` were recorded in. */
  function CountsOf(indices: seq<nat>, n: nat): seq<nat> {
    seq(n, i requires 0 <= i < n => Occurs(indices, i))
  }

  /** The counts of a histogram that `values` were recorded in. */
  function Counts(values: seq<nat>): seq<nat> {
    CountsOf(Indices(values), BUCKETS)
  }

  /** The bounds of the buckets. */
  function Uppers(): (uppers: seq<nat>)
    ensures |uppers| == BUCKETS
  {
    seq(BUCKETS, i requires 0 <= i < BUCKETS => UpperOf(i))
  }

  /** The buckets below `n` that have counts. */
  function ReadingTo(uppers: seq<nat>, counts: seq<nat>, n: nat): seq<Bin>
    requires n <= |counts| <= |uppers|
  {
    if n == 0 then []
    else if counts[n - 1] > 0 then ReadingTo(uppers, counts, n - 1) + [Bin(uppers[n - 1], counts[n - 1])]
    else ReadingTo(uppers, counts, n - 1)
  }

  function Reading(counts: seq<nat>): seq<Bin>
    requires |counts| == BUCKETS
  {
    ReadingTo(Uppers(), counts, BUCKETS)
  }

  class Histogram {
    const counts: array<nat>
    /** Every value recorded, in order. */
    ghost var recorded: seq<nat>

    ghost predicate Valid()
      reads this, counts
    {
      && counts.Length == BUCKETS
      && (forall v | v in recorded :: v < LIMIT)
      && counts[..] == Counts(recorded)
    }

    constructor ()
      ensures Valid() && recorded == []
    {
      counts := new nat[BUCKETS](_ => 0);
      recorded := [];
    }

    method Record(v: nat)
      requires Valid() && v < LIMIT
      modifies counts, this`recorded
      ensures Valid() && recorded == old(recorded) + [v]
    {
      BucketExists(v);
      var i := BucketOf(v);
      counts[i] := counts[i] + 1;
      recorded := recorded + [v];
      assert Indices(recorded) == Indices(old(recorded)) + [i];
      assert Indices(recorded)[..|recorded| - 1] == Indices(old(recorded));
      forall j | 0 <= j < BUCKETS ensures counts[j] == Occurs(Indices(recorded), j) {
        assert old(counts[..])[j] == Occurs(Indices(old(recorded)), j);
      }
    }

    /** The buckets that have counts, by upper bound. */
    method Read() returns (bins: seq<Bin>)
      requires Valid()
      ensures bins == Reading(Counts(recorded))
    {
      bins := [];
      for i := 0 to counts.Length
        invariant bins == ReadingTo(Uppers(), counts[..], i)
      {
        if counts[i] > 0 {
          bins := bins + [Bin(UpperOf(i), counts[i])];
        }
      }
    }
  }

  // ---- The window ----

  /** The count `before` gives for a bound; of two with the same bound, the later's. */
  function Earlier(before: seq<Bin>, upper: nat): nat {
    if before == [] then 0
    else if before[|before| - 1].upper == upper then before[|before| - 1].count
    else Earlier(before[..|before| - 1], upper)
  }

  function Less(n: nat, m: nat): nat {
    if n < m then 0 else n - m
  }

  /** What was added to each bucket, those nothing was added to left out. */
  function Added(before: seq<Bin>, now: seq<Bin>): seq<Bin> {
    if now == [] then []
    else
      var last := now[|now| - 1];
      var n := Less(last.count, Earlier(before, last.upper));
      if n > 0 then Added(before, now[..|now| - 1]) + [Bin(last.upper, n)] else Added(before, now[..|now| - 1])
  }

  function Total(bins: seq<Bin>): nat {
    if bins == [] then 0 else Total(bins[..|bins| - 1]) + bins[|bins| - 1].count
  }

  predicate Before(a: Bin, b: Bin) {
    a.upper < b.upper || (a.upper == b.upper && a.count <= b.count)
  }

  function Placed(bins: seq<Bin>, bin: Bin): seq<Bin> {
    if bins == [] || Before(bins[|bins| - 1], bin) then bins + [bin]
    else Placed(bins[..|bins| - 1], bin) + [bins[|bins| - 1]]
  }

  /** The bins in order of their bounds. */
  function Sorted(bins: seq<Bin>): seq<Bin> {
    if bins == [] then [] else Placed(Sorted(bins[..|bins| - 1]), bins[|bins| - 1])
  }

  /** The bound of the first bin by which the running total has reached `rank`. */
  function FirstAt(bins: seq<Bin>, rank: nat): Option<nat> {
    if bins == [] then None
    else
      var sooner := FirstAt(bins[..|bins| - 1], rank);
      if sooner.Some? then sooner else if Total(bins) >= rank then Some(bins[|bins| - 1].upper) else None
  }

  /** The rank, from 1, of the `q` quantile of `total` values. */
  function Rank(q: real, total: nat): (rank: nat)
    requires total > 0
    ensures 1 <= rank <= total
    ensures rank < total ==> q * total as real <= rank as real
    ensures rank > 1 ==> (rank - 1) as real < q * total as real
  {
    var ceil := -(-(q * total as real)).Floor;
    if ceil < 1 then 1 else if ceil > total then total else ceil
  }

  /** The quantile over `added` of a rank. */
  function QuantileOf(added: seq<Bin>, q: real): Option<nat> {
    if Total(added) == 0 then None else FirstAt(Sorted(added), Rank(q, Total(added)))
  }

  /** The `q` quantile of what was added between two readings. */
  method Quantile(before: seq<Bin>, now: seq<Bin>, q: real) returns (upper: Option<nat>)
    ensures upper == QuantileOf(Added(before, now), q)
  {
    var added := Added(before, now);
    var total := Total(added);
    if total == 0 {
      return None;
    }
    var rank, seen := Rank(q, total), 0;
    var sorted := Sorted(added);
    for i := 0 to |sorted|
      invariant seen == Total(sorted[..i]) && FirstAt(sorted[..i], rank).None?
    {
      assert sorted[..i + 1][..i] == sorted[..i];
      seen := seen + sorted[i].count;
      if seen >= rank {
        FirstAtStays(sorted, i + 1, rank);
        return Some(sorted[i].upper);
      }
    }
    assert sorted[..|sorted|] == sorted;
    return None;
  }

  lemma {:induction false} FirstAtStays(bins: seq<Bin>, n: nat, rank: nat)
    requires n <= |bins| && FirstAt(bins[..n], rank).Some?
    ensures FirstAt(bins, rank) == FirstAt(bins[..n], rank)
    decreases |bins|
  {
    if n < |bins| {
      assert bins[..|bins| - 1][..n] == bins[..n];
      FirstAtStays(bins[..|bins| - 1], n, rank);
    } else {
      assert bins[..n] == bins;
    }
  }
}
