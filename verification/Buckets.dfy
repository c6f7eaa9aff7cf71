/** The buckets of a log-linear histogram (`histogram.rs`): one each for 0 to 4, then four to each power of two, exact over
    every 64-bit value. */
module Buckets {
  const LIMIT := 0x1_0000_0000_0000_0000
  const BUCKETS := 5 + 4 * 62

  function Pow2(e: nat): (p: nat)
    ensures p >= 1
  {
    if e == 0 then 1 else 2 * Pow2(e - 1)
  }

  /** The place of the leading bit. */
  function Log2(x: nat): (e: nat)
    requires x >= 1
    ensures Pow2(e) <= x < 2 * Pow2(e)
  {
    if x == 1 then 0 else 1 + Log2(x / 2)
  }

  /** The bucket of `v`. */
  function BucketOf(v: nat): nat {
    if v <= 4 then v
    else
      var x := v - 1;
      var e := Log2(x);
      LeadingBit(x);
      5 + 4 * (e - 2) + x / Pow2(e - 2) % 4
  }

  lemma {:induction false} LeadingBit(x: nat)
    requires x >= 4
    ensures Log2(x) >= 2 && Pow2(Log2(x)) == 4 * Pow2(Log2(x) - 2)
  {
    assert Log2(x) == 1 + Log2(x / 2) && Log2(x / 2) == 1 + Log2(x / 2 / 2);
  }

  /** The bound of bucket `i`, before it is cut to 64 bits. */
  function Bound(i: nat): nat {
    if i <= 4 then i
    else
      var e := (i - 5) / 4 + 2;
      Pow2(e) + ((i - 5) % 4 + 1) * Pow2(e - 2)
  }

  /** The largest value in bucket `i`. */
  function UpperOf(i: nat): nat {
    if Bound(i) < LIMIT then Bound(i) else LIMIT - 1
  }

  /** Where bucket `i` begins, and how wide it is. */
  lemma {:induction false} BoundStep(i: nat)
    requires i >= 5
    ensures var e := (i - 5) / 4 + 2;
      && Bound(i - 1) == Pow2(e) + (i - 5) % 4 * Pow2(e - 2)
      && Bound(i) == Bound(i - 1) + Pow2(e - 2)
      && Pow2(e) == 4 * Pow2(e - 2)
  {
    var e, q := (i - 5) / 4 + 2, (i - 5) % 4;
    assert Pow2(e) == 2 * Pow2(e - 1) && Pow2(e - 1) == 2 * Pow2(e - 2);
    if i == 5 {
      assert Pow2(2) == 4 by { assert Pow2(1) == 2; }
    } else if q == 0 {
      assert (i - 6) / 4 + 2 == e - 1 && (i - 6) % 4 == 3;
      assert Pow2(e - 2) == 2 * Pow2(e - 3);
    } else {
      assert (i - 6) / 4 + 2 == e && (i - 6) % 4 == q - 1;
    }
    assert (q + 1) * Pow2(e - 2) == q * Pow2(e - 2) + Pow2(e - 2);
  }

  lemma {:induction false} BoundRises(i: nat, j: nat)
    requires i < j
    ensures Bound(i) < Bound(j)
    decreases j - i
  {
    if j >= 5 {
      BoundStep(j);
    }
    if i < j - 1 {
      BoundRises(i, j - 1);
    }
  }

  lemma {:induction false} Pow2Rises(i: nat, j: nat)
    requires i <= j
    ensures Pow2(i) <= Pow2(j)
    decreases j - i
  {
    if i < j {
      Pow2Rises(i, j - 1);
    }
  }

  lemma {:induction false} SixtyFour()
    ensures Pow2(64) == LIMIT
  {
    assert Pow2(8) == 0x100;
    assert Pow2(16) == 0x1_0000;
    assert Pow2(24) == 0x100_0000;
    assert Pow2(32) == 0x1_0000_0000;
    assert Pow2(40) == 0x100_0000_0000;
    assert Pow2(48) == 0x1_0000_0000_0000;
    assert Pow2(56) == 0x100_0000_0000_0000;
  }

  lemma {:induction false} Times(a: nat, b: nat, p: nat)
    requires a <= b
    ensures a * p <= b * p
  {
    assert (b - a) * p >= 0;
    assert b * p == a * p + (b - a) * p;
  }

  lemma {:induction false} Quotient(x: nat, p: nat)
    requires p > 0
    ensures x / p * p <= x < (x / p + 1) * p
  {
  }

  /** The quarter of its power of two that `x` falls in. */
  lemma {:induction false} Quarter(x: nat, p: nat)
    requires p > 0 && 4 * p <= x < 8 * p
    ensures var q := x / p % 4; (4 + q) * p <= x < (5 + q) * p
  {
    var k := x / p;
    Quotient(x, p);
    if k <= 3 {
      Times(k + 1, 4, p);
    }
    if k >= 8 {
      Times(8, k, p);
    }
    assert 4 <= k < 8;
    assert k == 4 + k % 4;
  }

  /** The bounds around the quarter `q` of the power of two of `p` four times. */
  lemma {:induction false} BoundsAround(e: nat, q: nat)
    requires e >= 2 && q < 4
    ensures var i, p := 5 + 4 * (e - 2) + q, Pow2(e - 2);
      Bound(i - 1) == (4 + q) * p && Bound(i) == (5 + q) * p
  {
    var i, p := 5 + 4 * (e - 2) + q, Pow2(e - 2);
    assert (i - 5) / 4 + 2 == e && (i - 5) % 4 == q;
    BoundStep(i);
    assert (4 + q) * p == 4 * p + q * p && (5 + q) * p == (4 + q) * p + p;
  }

  /** `v` is above the bucket before its own and not above its own. */
  lemma {:induction false} InItsBucket(v: nat)
    ensures v <= Bound(BucketOf(v))
    ensures BucketOf(v) > 0 ==> Bound(BucketOf(v) - 1) < v
  {
    if v > 4 {
      var x := v - 1;
      var e := Log2(x);
      LeadingBit(x);
      var p := Pow2(e - 2);
      Quarter(x, p);
      BoundsAround(e, x / p % 4);
    }
  }

  /** Every 64-bit value has a bucket. */
  lemma {:induction false} BucketExists(v: nat)
    requires v < LIMIT
    ensures BucketOf(v) < BUCKETS
  {
    if v > 4 {
      var x := v - 1;
      LeadingBit(x);
      SixtyFour();
      if Log2(x) >= 64 {
        Pow2Rises(64, Log2(x));
      }
    }
  }

  lemma {:induction false} LastBound()
    ensures Bound(BUCKETS - 1) == LIMIT
  {
    SixtyFour();
    assert Pow2(64) == 2 * Pow2(63) && Pow2(63) == 2 * Pow2(62) && Pow2(62) == 2 * Pow2(61);
  }

  /** A value is in bucket `j` or below exactly when it is not above that bucket's bound: `BucketOf` gives the least bucket
      whose bound is at least the value. */
  lemma {:induction false} BucketExact(v: nat, j: nat)
    requires v < LIMIT && j < BUCKETS
    ensures BucketOf(v) <= j <==> v <= UpperOf(j)
  {
    InItsBucket(v);
    if BucketOf(v) < j {
      BoundRises(BucketOf(v), j);
    }
    if j < BucketOf(v) - 1 {
      BoundRises(j, BucketOf(v) - 1);
    }
  }

  /** The bounds rise, the last one cut to 64 bits among them. */
  lemma {:induction false} UpperRises(i: nat, j: nat)
    requires i < j < BUCKETS
    ensures UpperOf(i) < UpperOf(j) < LIMIT
  {
    LastBound();
    BoundRises(i, j);
    if j < BUCKETS - 1 {
      BoundRises(j, BUCKETS - 1);
    }
    if i < BUCKETS - 2 {
      BoundRises(i, BUCKETS - 2);
    }
    BoundRises(BUCKETS - 2, BUCKETS - 1);
    BoundStep(BUCKETS - 1);
    assert Pow2(61) >= 2 by { assert Pow2(61) == 2 * Pow2(60); }
  }

  /** Each bound is in its own bucket. */
  lemma {:induction false} BoundIsOwn(i: nat)
    requires i < BUCKETS
    ensures UpperOf(i) < LIMIT && BucketOf(UpperOf(i)) == i
  {
    BucketExact(UpperOf(i), i);
    if i > 0 {
      UpperRises(i - 1, i);
      BucketExact(UpperOf(i), i - 1);
    }
  }

  /** A larger value is in no lower a bucket. */
  lemma {:induction false} BucketRises(v: nat, w: nat)
    requires v <= w < LIMIT
    ensures BucketOf(v) <= BucketOf(w)
  {
    BucketExists(w);
    BucketExact(w, BucketOf(w));
    BucketExact(v, BucketOf(w));
  }

  /** A bucket above the fifth is no wider than a quarter of where it begins. */
  lemma {:induction false} NoWiderThanQuarter(i: nat)
    requires 5 <= i < BUCKETS
    ensures 4 * (UpperOf(i) - UpperOf(i - 1)) <= UpperOf(i - 1)
  {
    UpperRises(i - 1, i);
    BoundStep(i);
  }

  lemma {:induction false} Pow2Fits(k: nat)
    requires k < 64
    ensures Pow2(k) < LIMIT
  {
    SixtyFour();
    Pow2Rises(k + 1, 64);
  }

  lemma {:induction false} PowerIsBound(k: nat)
    requires k >= 3
    ensures Bound(4 * k - 4) == Pow2(k)
  {
    var i := 4 * k - 4;
    assert (i - 5) / 4 + 2 == k - 1 && (i - 5) % 4 == 3;
    assert Pow2(k) == 2 * Pow2(k - 1) && Pow2(k - 1) == 2 * Pow2(k - 2) && Pow2(k - 2) == 2 * Pow2(k - 3);
  }

  /** A power of two is the bound of its own bucket. */
  lemma {:induction false} PowerBounds(k: nat)
    requires k < 64
    ensures Pow2(k) < LIMIT && UpperOf(BucketOf(Pow2(k))) == Pow2(k)
  {
    Pow2Fits(k);
    if k >= 3 {
      PowerIsBound(k);
      BoundIsOwn(4 * k - 4);
    } else {
      assert Pow2(0) == 1 && Pow2(1) == 2 && Pow2(2) == 4;
    }
  }

  /** The bound of a value's bucket is never below it, and at most a quarter above. */
  lemma {:induction false} BoundIsClose(v: nat)
    requires v < LIMIT
    ensures v <= UpperOf(BucketOf(v)) && 4 * UpperOf(BucketOf(v)) <= 5 * v
  {
    var i := BucketOf(v);
    BucketExists(v);
    BucketExact(v, i);
    if i >= 5 {
      BucketExact(v, i - 1);
      NoWiderThanQuarter(i);
    }
  }
}
