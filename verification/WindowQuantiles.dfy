/** A quantile taken from two readings of a histogram is the bound of the bucket that holds the value of that rank among
    those added between them: never below it, and at most a quarter above. */
module WindowQuantiles {
  import opened Files
  import opened Buckets
  import opened Quantiles

  ghost predicate Rising(uppers: seq<nat>) {
    forall i, j | 0 <= i < j < |uppers| :: uppers[i] < uppers[j]
  }

  lemma UppersRise()
    ensures Rising(Uppers())
  {
    forall i, j | 0 <= i < j < BUCKETS ensures Uppers()[i] < Uppers()[j] {
      UpperRises(i, j);
    }
  }

  // ---- The window is what was added ----

  lemma {:induction false} OccursAdd(b: seq<nat>, w: seq<nat>, i: nat)
    ensures Occurs(b + w, i) == Occurs(b, i) + Occurs(w, i)
    decreases |w|
  {
    if w == [] {
      assert b + w == b;
    } else {
      assert (b + w)[..|b + w| - 1] == b + w[..|w| - 1];
      OccursAdd(b, w[..|w| - 1], i);
    }
  }

  lemma {:induction false} EarlierIsCount(uppers: seq<nat>, counts: seq<nat>, n: nat, i: nat)
    requires n <= |counts| <= |uppers| && i < |uppers| && Rising(uppers)
    ensures Earlier(ReadingTo(uppers, counts, n), uppers[i]) == if i < n then counts[i] else 0
  {
    if n > 0 {
      EarlierIsCount(uppers, counts, n - 1, i);
      var sooner := ReadingTo(uppers, counts, n - 1);
      assert (sooner + [Bin(uppers[n - 1], counts[n - 1])])[..|sooner|] == sooner;
      assert i != n - 1 ==> uppers[i] != uppers[n - 1];
    }
  }

  lemma AddedOneMore(before: seq<Bin>, now: seq<Bin>, upper: nat, count: nat)
    ensures var n := Less(count, Earlier(before, upper));
      Added(before, now + [Bin(upper, count)]) == Added(before, now) + if n > 0 then [Bin(upper, n)] else []
  {
    assert (now + [Bin(upper, count)])[..|now|] == now;
  }

  lemma {:induction false} AddedTo(uppers: seq<nat>, b: seq<nat>, w: seq<nat>, n: nat)
    requires n <= |uppers| && Rising(uppers)
    ensures var m := |uppers|;
      Added(ReadingTo(uppers, CountsOf(b, m), m), ReadingTo(uppers, CountsOf(b + w, m), n))
      == ReadingTo(uppers, CountsOf(w, m), n)
  {
    if n > 0 {
      var m := |uppers|;
      var before, both := ReadingTo(uppers, CountsOf(b, m), m), CountsOf(b + w, m);
      AddedTo(uppers, b, w, n - 1);
      OccursAdd(b, w, n - 1);
      EarlierIsCount(uppers, CountsOf(b, m), m, n - 1);
      AddedOneMore(before, ReadingTo(uppers, both, n - 1), uppers[n - 1], both[n - 1]);
    }
  }

  /** The difference of two readings is the reading of a histogram that held the values between them alone. */
  lemma WindowIsReading(b: seq<nat>, w: seq<nat>)
    ensures Added(Reading(Counts(b)), Reading(Counts(b + w))) == Reading(Counts(w))
  {
    UppersRise();
    AddedTo(Uppers(), Indices(b), Indices(w), BUCKETS);
    assert Indices(b + w) == Indices(b) + Indices(w);
  }

  // ---- The first bin to reach a rank ----

  /** The counts of the bins whose bound is at most `u`. */
  function SumAtMost(bins: seq<Bin>, u: nat): nat {
    if bins == [] then 0
    else SumAtMost(bins[..|bins| - 1], u) + if bins[|bins| - 1].upper <= u then bins[|bins| - 1].count else 0
  }

  ghost predicate Ascending(bins: seq<Bin>) {
    forall i, j | 0 <= i < j < |bins| :: bins[i].upper <= bins[j].upper
  }

  lemma {:induction false} PlacedSum(bins: seq<Bin>, bin: Bin, u: nat)
    ensures SumAtMost(Placed(bins, bin), u) == SumAtMost(bins, u) + if bin.upper <= u then bin.count else 0
  {
    if bins == [] || Before(bins[|bins| - 1], bin) {
      assert (bins + [bin])[..|bins|] == bins;
    } else {
      var rest, last := bins[..|bins| - 1], bins[|bins| - 1];
      PlacedSum(rest, bin, u);
      assert (Placed(rest, bin) + [last])[..|Placed(rest, bin)|] == Placed(rest, bin);
    }
  }

  lemma {:induction false} PlacedTotal(bins: seq<Bin>, bin: Bin)
    ensures Total(Placed(bins, bin)) == Total(bins) + bin.count
  {
    if bins == [] || Before(bins[|bins| - 1], bin) {
      assert (bins + [bin])[..|bins|] == bins;
    } else {
      var rest, last := bins[..|bins| - 1], bins[|bins| - 1];
      PlacedTotal(rest, bin);
      assert (Placed(rest, bin) + [last])[..|Placed(rest, bin)|] == Placed(rest, bin);
    }
  }

  lemma {:induction false} PlacedKeeps(bins: seq<Bin>, bin: Bin)
    ensures multiset(Placed(bins, bin)) == multiset(bins) + multiset{bin}
  {
    if !(bins == [] || Before(bins[|bins| - 1], bin)) {
      PlacedKeeps(bins[..|bins| - 1], bin);
      assert bins == bins[..|bins| - 1] + [bins[|bins| - 1]];
    }
  }

  lemma {:induction false} PlacedAscends(bins: seq<Bin>, bin: Bin)
    requires Ascending(bins)
    ensures Ascending(Placed(bins, bin))
    ensures forall b | b in Placed(bins, bin) :: b in bins || b == bin
  {
    if !(bins == [] || Before(bins[|bins| - 1], bin)) {
      PlacedAscends(bins[..|bins| - 1], bin);
      forall b | b in Placed(bins[..|bins| - 1], bin) ensures b.upper <= bins[|bins| - 1].upper {
      }
    }
  }

  /** Sorting keeps the bins. */
  lemma {:induction false} SortedKeeps(bins: seq<Bin>)
    ensures multiset(Sorted(bins)) == multiset(bins)
  {
    if bins != [] {
      SortedKeeps(bins[..|bins| - 1]);
      PlacedKeeps(Sorted(bins[..|bins| - 1]), bins[|bins| - 1]);
      assert bins == bins[..|bins| - 1] + [bins[|bins| - 1]];
    }
  }

  lemma {:induction false} SortedTotal(bins: seq<Bin>)
    ensures Total(Sorted(bins)) == Total(bins)
  {
    if bins != [] {
      SortedTotal(bins[..|bins| - 1]);
      PlacedTotal(Sorted(bins[..|bins| - 1]), bins[|bins| - 1]);
    }
  }

  lemma {:induction false} SortedSum(bins: seq<Bin>, u: nat)
    ensures SumAtMost(Sorted(bins), u) == SumAtMost(bins, u)
  {
    if bins != [] {
      SortedSum(bins[..|bins| - 1], u);
      PlacedSum(Sorted(bins[..|bins| - 1]), bins[|bins| - 1], u);
    }
  }

  /** Sorting puts them in order. */
  lemma {:induction false} SortedAscends(bins: seq<Bin>)
    ensures Ascending(Sorted(bins))
  {
    if bins != [] {
      SortedAscends(bins[..|bins| - 1]);
      PlacedAscends(Sorted(bins[..|bins| - 1]), bins[|bins| - 1]);
    }
  }

  lemma {:induction false} SumIsPart(bins: seq<Bin>, u: nat)
    ensures SumAtMost(bins, u) <= Total(bins)
    ensures (forall b | b in bins :: b.upper <= u) ==> SumAtMost(bins, u) == Total(bins)
  {
    if bins != [] {
      SumIsPart(bins[..|bins| - 1], u);
      assert bins[|bins| - 1] in bins;
    }
  }

  /** Of bins in order, the first to reach `rank` has the least bound that the counts up to it reach `rank`. */
  lemma {:induction false} FirstIsLeast(bins: seq<Bin>, rank: nat, u: nat)
    requires Ascending(bins) && rank > 0
    ensures FirstAt(bins, rank).Some? <==> Total(bins) >= rank
    ensures FirstAt(bins, rank).Some? ==> (FirstAt(bins, rank).value <= u <==> SumAtMost(bins, u) >= rank)
  {
    if bins != [] {
      var rest, last := bins[..|bins| - 1], bins[|bins| - 1];
      FirstIsLeast(rest, rank, u);
      SumIsPart(rest, u);
      SumIsPart(bins, u);
      assert last.upper <= u ==> forall b | b in bins :: b.upper <= u;
      assert FirstAt(rest, rank).Some? ==> FirstAt(rest, rank).value <= last.upper by {
        FirstIsLeast(rest, rank, last.upper);
        SumIsPart(rest, last.upper);
      }
    }
  }

  /** Whatever the readings, the bound of a rank is the least whose share of what was added reaches it. */
  lemma RankIsLeast(added: seq<Bin>, rank: nat, u: nat)
    requires 0 < rank <= Total(added)
    ensures FirstAt(Sorted(added), rank).Some?
    ensures FirstAt(Sorted(added), rank).value <= u <==> SumAtMost(added, u) >= rank
  {
    SortedTotal(added);
    SortedSum(added, u);
    SortedAscends(added);
    FirstIsLeast(Sorted(added), rank, u);
  }

  // ---- Ranks ----

  /** How many of `values` are at most `x`. */
  function AtMost(values: seq<nat>, x: nat): nat {
    if values == [] then 0 else AtMost(values[..|values| - 1], x) + if values[|values| - 1] <= x then 1 else 0
  }

  /** How many of `values` are less than `x`. */
  function Below(values: seq<nat>, x: nat): nat {
    if x == 0 then 0 else AtMost(values, x - 1)
  }

  /** `x` is the `rank`th smallest of `values`, from 1. */
  predicate IsRank(values: seq<nat>, x: nat, rank: nat) {
    Below(values, x) < rank <= AtMost(values, x)
  }

  lemma {:induction false} AllAtMost(values: seq<nat>, x: nat)
    requires forall k | 0 <= k < |values| :: values[k] <= x
    ensures AtMost(values, x) == |values|
  {
    if values != [] {
      AllAtMost(values[..|values| - 1], x);
    }
  }

  /** There is a value of every rank. */
  lemma {:induction false} RankExists(values: seq<nat>, rank: nat, top: nat) returns (x: nat)
    requires 1 <= rank <= AtMost(values, top)
    ensures x <= top && IsRank(values, x, rank)
  {
    if top == 0 || AtMost(values, top - 1) < rank {
      x := top;
    } else {
      x := RankExists(values, rank, top - 1);
    }
  }

  lemma EveryRankExists(values: seq<nat>, rank: nat) returns (x: nat)
    requires 1 <= rank <= |values| && (forall v | v in values :: v < LIMIT)
    ensures x < LIMIT && IsRank(values, x, rank)
  {
    assert forall k | 0 <= k < |values| :: values[k] in values;
    AllAtMost(values, LIMIT - 1);
    x := RankExists(values, rank, LIMIT - 1);
  }

  lemma {:induction false} RankIsThere(values: seq<nat>, x: nat)
    requires Below(values, x) < AtMost(values, x)
    ensures x in values
  {
    if values != [] && values[|values| - 1] != x {
      var rest := values[..|values| - 1];
      assert Below(values, x) == Below(rest, x) + if values[|values| - 1] < x then 1 else 0;
      RankIsThere(rest, x);
    }
  }

  // ---- The quantile ----

  /** How many of `indices` are below `n` and have a bound of at most `u`. */
  function UpTo(uppers: seq<nat>, indices: seq<nat>, n: nat, u: nat): nat
    requires n <= |uppers|
  {
    if indices == [] then 0
    else
      var i := indices[|indices| - 1];
      UpTo(uppers, indices[..|indices| - 1], n, u) + if i < n && uppers[i] <= u then 1 else 0
  }

  lemma {:induction false} UpToStep(uppers: seq<nat>, indices: seq<nat>, n: nat, u: nat)
    requires n < |uppers|
    ensures UpTo(uppers, indices, n + 1, u)
            == UpTo(uppers, indices, n, u) + if uppers[n] <= u then Occurs(indices, n) else 0
  {
    if indices != [] {
      UpToStep(uppers, indices[..|indices| - 1], n, u);
    }
  }

  lemma {:induction false} UpToNone(uppers: seq<nat>, indices: seq<nat>, u: nat)
    ensures UpTo(uppers, indices, 0, u) == 0
  {
    if indices != [] {
      UpToNone(uppers, indices[..|indices| - 1], u);
    }
  }

  lemma {:induction false} ReadingSum(uppers: seq<nat>, indices: seq<nat>, n: nat, u: nat)
    requires n <= |uppers|
    ensures SumAtMost(ReadingTo(uppers, CountsOf(indices, |uppers|), n), u) == UpTo(uppers, indices, n, u)
  {
    if n == 0 {
      UpToNone(uppers, indices, u);
      assert ReadingTo(uppers, CountsOf(indices, |uppers|), 0) == [];
    } else {
      ReadingSum(uppers, indices, n - 1, u);
      UpToStep(uppers, indices, n - 1, u);
      var counts := CountsOf(indices, |uppers|);
      var sooner, bin := ReadingTo(uppers, counts, n - 1), Bin(uppers[n - 1], counts[n - 1]);
      assert (sooner + [bin])[..|sooner|] == sooner;
    }
  }

  /** Each value is in a bucket, which is ordered against that of `x` as the values are. */
  ghost predicate Ordered(uppers: seq<nat>, values: seq<nat>, indices: seq<nat>, x: nat, at: nat) {
    && |indices| == |values| && at < |uppers|
    && (forall k | 0 <= k < |values| :: indices[k] < |uppers|)
    && (forall k | 0 <= k < |values| :: (values[k] <= x ==> indices[k] <= at) && (x <= values[k] ==> at <= indices[k]))
  }

  lemma BucketsOrdered(values: seq<nat>, x: nat)
    requires x < LIMIT && (forall v | v in values :: v < LIMIT)
    ensures Ordered(Uppers(), values, Indices(values), x, BucketOf(x))
  {
    BucketExists(x);
    forall k | 0 <= k < |values|
      ensures Indices(values)[k] < BUCKETS
      ensures values[k] <= x ==> Indices(values)[k] <= BucketOf(x)
      ensures x <= values[k] ==> BucketOf(x) <= Indices(values)[k]
    {
      assert values[k] in values;
      BucketExists(values[k]);
      if values[k] <= x {
        BucketRises(values[k], x);
      }
      if x <= values[k] {
        BucketRises(x, values[k]);
      }
    }
  }

  /** Up to the bound of `x`'s bucket are at least the values up to `x`; up to any lower bound, no more than those below
      `x`. */
  lemma {:induction false} UpToBrackets(uppers: seq<nat>, values: seq<nat>, indices: seq<nat>, x: nat, at: nat, u: nat)
    requires Rising(uppers) && Ordered(uppers, values, indices, x, at)
    ensures u >= uppers[at] ==> UpTo(uppers, indices, |uppers|, u) >= AtMost(values, x)
    ensures u < uppers[at] ==> UpTo(uppers, indices, |uppers|, u) <= Below(values, x)
  {
    if values != [] {
      var v, i := values[|values| - 1], indices[|values| - 1];
      var values', indices' := values[..|values| - 1], indices[..|values| - 1];
      UpToBrackets(uppers, values', indices', x, at, u);
      assert Below(values, x) == Below(values', x) + if v < x then 1 else 0;
      assert i < at ==> uppers[i] < uppers[at];
      assert at < i ==> uppers[at] < uppers[i];
    }
  }

  lemma {:induction false} AllUpTo(uppers: seq<nat>, indices: seq<nat>, u: nat)
    requires forall k | 0 <= k < |indices| :: indices[k] < |uppers|
    requires forall i | 0 <= i < |uppers| :: uppers[i] <= u
    ensures UpTo(uppers, indices, |uppers|, u) == |indices|
  {
    if indices != [] {
      AllUpTo(uppers, indices[..|indices| - 1], u);
    }
  }

  lemma {:induction false} ReadingBounds(uppers: seq<nat>, counts: seq<nat>, n: nat, u: nat)
    requires n <= |counts| <= |uppers| && (forall i | 0 <= i < |uppers| :: uppers[i] <= u)
    ensures forall b | b in ReadingTo(uppers, counts, n) :: b.upper <= u
  {
    if n > 0 {
      ReadingBounds(uppers, counts, n - 1, u);
    }
  }

  lemma ReadingTotal(uppers: seq<nat>, indices: seq<nat>, u: nat)
    requires forall k | 0 <= k < |indices| :: indices[k] < |uppers|
    requires forall i | 0 <= i < |uppers| :: uppers[i] <= u
    ensures Total(ReadingTo(uppers, CountsOf(indices, |uppers|), |uppers|)) == |indices|
  {
    var n := |uppers|;
    ReadingBounds(uppers, CountsOf(indices, n), n, u);
    SumIsPart(ReadingTo(uppers, CountsOf(indices, n), n), u);
    ReadingSum(uppers, indices, n, u);
    AllUpTo(uppers, indices, u);
  }

  /** The bound of a rank is that of the bucket of the value of that rank, of any buckets whose bounds rise and that are
      ordered as their values are. */
  lemma BoundOfRank(uppers: seq<nat>, values: seq<nat>, indices: seq<nat>, rank: nat, x: nat, at: nat)
    requires Rising(uppers) && Ordered(uppers, values, indices, x, at) && IsRank(values, x, rank)
    requires rank <= Total(ReadingTo(uppers, CountsOf(indices, |uppers|), |uppers|))
    ensures FirstAt(Sorted(ReadingTo(uppers, CountsOf(indices, |uppers|), |uppers|)), rank) == Some(uppers[at])
  {
    var added := ReadingTo(uppers, CountsOf(indices, |uppers|), |uppers|);
    RankReached(uppers, values, indices, x, at, uppers[at], rank);
    RankIsLeast(added, rank, uppers[at]);
    var upper := FirstAt(Sorted(added), rank).value;
    RankReached(uppers, values, indices, x, at, upper, rank);
    RankIsLeast(added, rank, upper);
  }

  /** The counts up to a bound reach the rank of `x` exactly when the bound is not below that of `x`'s bucket. */
  lemma RankReached(uppers: seq<nat>, values: seq<nat>, indices: seq<nat>, x: nat, at: nat, u: nat, rank: nat)
    requires Rising(uppers) && Ordered(uppers, values, indices, x, at) && IsRank(values, x, rank)
    ensures SumAtMost(ReadingTo(uppers, CountsOf(indices, |uppers|), |uppers|), u) >= rank <==> u >= uppers[at]
  {
    ReadingSum(uppers, indices, |uppers|, u);
    UpToBrackets(uppers, values, indices, x, at, u);
  }

  /** The quantile of a window is the bound of the bucket of the value of its rank, whatever was recorded before: never
      below that value, and at most a quarter above it. */
  lemma WindowQuantile(b: seq<nat>, w: seq<nat>, q: real, x: nat)
    requires (forall v | v in w :: v < LIMIT) && w != [] && IsRank(w, x, Rank(q, |w|))
    ensures var upper := QuantileOf(Added(Reading(Counts(b)), Reading(Counts(b + w))), q);
      upper == Some(UpperOf(BucketOf(x))) && x <= upper.value && 4 * upper.value <= 5 * x
  {
    WindowIsReading(b, w);
    RankIsThere(w, x);
    UppersRise();
    BucketsOrdered(w, x);
    ReadingTotal(Uppers(), Indices(w), LIMIT);
    BoundOfRank(Uppers(), w, Indices(w), Rank(q, |w|), x, BucketOf(x));
    BoundIsClose(x);
  }

  /** Nothing was added exactly when there is no quantile. */
  lemma EmptyWindow(b: seq<nat>, w: seq<nat>, q: real)
    requires forall v | v in w :: v < LIMIT
    ensures QuantileOf(Added(Reading(Counts(b)), Reading(Counts(b + w))), q).None? <==> w == []
  {
    WindowIsReading(b, w);
    BucketsOrdered(w, 0);
    ReadingTotal(Uppers(), Indices(w), LIMIT);
    if w != [] {
      RankIsLeast(Reading(Counts(w)), Rank(q, |w|), 0);
    }
  }
}
