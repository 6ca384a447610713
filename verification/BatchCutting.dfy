/** How the delegator cuts the transactions of a block into messages.  The batch size is a quotient and can be
    fractional; it is an exact real here. */
module BatchCutting {
  import opened Sequences

  const MAX_TXS_PER_WORKER: real := 60.0
  const MIN_TXS_PER_WORKER: real := 10.0

  /** `Array.prototype.slice` for bounds that are not negative: both are truncated and cut off at the length. */
  function Slice<T>(s: seq<T>, from: real, to: real): (r: seq<T>)
    requires 0.0 <= from && 0.0 <= to
  {
    var (i, j) := (Min(from.Floor, |s|), Min(to.Floor, |s|));
    if i < j then s[i..j] else []
  }

  function PerBatchCount(total: nat, geths: nat): (p: real)
    requires geths > 0
    ensures MIN_TXS_PER_WORKER <= p <= MAX_TXS_PER_WORKER
  {
    var p := total as real / geths as real;
    var capped := if p > MAX_TXS_PER_WORKER then MAX_TXS_PER_WORKER else p;
    if capped < MIN_TXS_PER_WORKER then MIN_TXS_PER_WORKER else capped
  }

  /** The remainder of a division of reals, as `%` computes it. */
  function Remainder(x: real, p: real): (r: real)
    requires p > 0.0
  {
    x - (x / p).Floor as real * p
  }

  function NoOfBatches(total: nat, p: real): (n: nat)
    requires p > 0.0
  {
    QuotientNonNegative(total as real, p);
    (total as real / p).Floor + if Remainder(total as real, p) != 0.0 then 1 else 0
  }

  lemma QuotientNonNegative(x: real, p: real)
    requires x >= 0.0 && p > 0.0
    ensures x / p >= 0.0
  {
  }

  /** The offset of batch k: k additions of the batch size. */
  function Offset(p: real, k: nat): (x: real)
    requires p >= 0.0
    ensures x >= 0.0
  {
    if k == 0 then 0.0 else Offset(p, k - 1) + p
  }

  /** Batch k of the list. */
  function Batch<T>(txs: seq<T>, p: real, k: nat): (b: seq<T>)
    requires p >= 0.0
  {
    Slice(txs, Offset(p, k), Offset(p, k) + p)
  }

  /** All batches of the list, in order. */
  function Cut<T>(txs: seq<T>, p: real): (batches: seq<seq<T>>)
    requires p > 0.0
    ensures |batches| == NoOfBatches(|txs|, p)
  {
    seq(NoOfBatches(|txs|, p), k requires 0 <= k => Batch(txs, p, k))
  }

  // ------------------------------------------------------------------ products and quotients

  lemma ProductLe(a: real, b: real, p: real)
    requires a <= b && p > 0.0
    ensures a * p <= b * p
  {
  }

  lemma ProductLt(a: real, b: real, p: real)
    requires a < b && p > 0.0
    ensures a * p < b * p
  {
  }

  lemma OneMore(a: real, p: real)
    ensures (a + 1.0) * p == a * p + p
    ensures (a - 1.0) * p == a * p - p
  {
  }

  /** The truncated quotient f of x by p: f times p is the last multiple not above x. */
  lemma FloorOfQuotient(x: real, p: real)
    requires x >= 0.0 && p > 0.0
    ensures (x / p).Floor >= 0
    ensures (x / p).Floor as real * p <= x < (x / p).Floor as real * p + p
  {
    QuotientNonNegative(x, p);
    QuotientTimes(x, p);
    BetweenMultiples(x, x / p, (x / p).Floor as real, p);
  }

  lemma QuotientTimes(x: real, p: real)
    requires p > 0.0
    ensures x / p * p == x
  {
  }

  lemma BetweenMultiples(x: real, q: real, f: real, p: real)
    requires f <= q < f + 1.0 && p > 0.0 && q * p == x
    ensures f * p <= x < f * p + p
  {
    NotBelow(x, q, f, p);
    var next := f + 1.0;
    ProductLt(q, next, p);
    assert next * p == f * p + p;
  }

  lemma NotBelow(x: real, q: real, f: real, p: real)
    requires f <= q && p > 0.0 && q * p == x
    ensures f * p <= x
  {
    ProductLe(f, q, p);
  }

  // ------------------------------------------------------------------ where the batches lie

  lemma {:induction false} OffsetIsMultiple(p: real, k: nat)
    requires p >= 0.0
    ensures Offset(p, k) == k as real * p
  {
    if k > 0 {
      OffsetIsMultiple(p, k - 1);
      OneMore((k - 1) as real, p);
    }
  }

  lemma {:induction false} OffsetMonotone(p: real, j: nat, k: nat)
    requires p >= 0.0 && j <= k
    ensures Offset(p, j) <= Offset(p, k)
  {
    if j < k {
      OffsetMonotone(p, j, k - 1);
    }
  }

  /** The number of batches is the least n whose offset reaches the total. */
  lemma NoOfBatchesBounds(total: nat, p: real)
    requires p > 0.0
    ensures var n := NoOfBatches(total, p);
            && total as real <= Offset(p, n)
            && (total > 0 ==> n > 0 && Offset(p, n - 1) < total as real)
  {
    var x := total as real;
    var f := (x / p).Floor;
    FloorOfQuotient(x, p);
    OffsetIsMultiple(p, f);
    var product := f as real * p;
    assert Remainder(x, p) == x - product;
    assert Offset(p, f + 1) == Offset(p, f) + p;
  }

  /** Before its end every batch has a start inside the list. */
  lemma OffsetInside(total: nat, p: real, k: nat)
    requires p > 0.0 && total > 0 && k < NoOfBatches(total, p)
    ensures Offset(p, k) < total as real
    ensures k + 1 < NoOfBatches(total, p) ==> Offset(p, k) + p < total as real
  {
    var n := NoOfBatches(total, p);
    NoOfBatchesBounds(total, p);
    OffsetMonotone(p, k, n - 1);
    assert Offset(p, k + 1) == Offset(p, k) + p;
    if k + 1 < n {
      OffsetMonotone(p, k + 1, n - 1);
    }
  }

  lemma NoBatchOfNothing(p: real)
    requires p > 0.0
    ensures NoOfBatches(0, p) == 0
  {
    assert 0.0 / p == 0.0;
  }

  lemma FloorShift(x: real, p: real)
    requires 0.0 <= x && MIN_TXS_PER_WORKER <= p <= MAX_TXS_PER_WORKER
    ensures x.Floor + 10 <= (x + p).Floor <= x.Floor + 60
  {
  }

  /** Every batch has between 1 and 60 transactions, and every batch but the last at least 10: the break for an empty slice
      is never taken. */
  lemma BatchSizes<T>(txs: seq<T>, p: real, k: nat)
    requires MIN_TXS_PER_WORKER <= p <= MAX_TXS_PER_WORKER && k < NoOfBatches(|txs|, p)
    ensures 1 <= |Batch(txs, p, k)| <= 60
    ensures k + 1 < NoOfBatches(|txs|, p) ==> |Batch(txs, p, k)| >= 10
  {
    if |txs| == 0 {
      NoBatchOfNothing(p);
    }
    OffsetInside(|txs|, p, k);
    SliceSize(txs, Offset(p, k), p);
  }

  lemma SliceSize<T>(txs: seq<T>, x: real, p: real)
    requires 0.0 <= x < |txs| as real && MIN_TXS_PER_WORKER <= p <= MAX_TXS_PER_WORKER
    ensures 1 <= |Slice(txs, x, x + p)| <= 60
    ensures x + p < |txs| as real ==> |Slice(txs, x, x + p)| >= 10
  {
    FloorShift(x, p);
  }

  /** A slice continues what lies before it. */
  lemma SliceContinues<T>(s: seq<T>, x: real, y: real)
    requires 0.0 <= x <= y
    ensures s[..Min(x.Floor, |s|)] + Slice(s, x, y) == s[..Min(y.Floor, |s|)]
  {
    assert x.Floor <= y.Floor;
  }

  lemma BatchContinues<T>(txs: seq<T>, p: real, k: nat)
    requires p > 0.0
    ensures txs[..Min(Offset(p, k).Floor, |txs|)] + Batch(txs, p, k) == txs[..Min(Offset(p, k + 1).Floor, |txs|)]
  {
    SliceContinues(txs, Offset(p, k), Offset(p, k) + p);
  }

  lemma Snoc<T>(batches: seq<seq<T>>, k: nat)
    requires k < |batches|
    ensures Concat(batches[..k + 1]) == Concat(batches[..k]) + batches[k]
  {
    assert batches[..k + 1] == batches[..k] + [batches[k]];
    ConcatSnoc(batches[..k], batches[k]);
  }

  /** The first k batches are exactly the transactions before offset k, in order. */
  lemma {:induction false} FirstBatches<T>(txs: seq<T>, p: real, batches: seq<seq<T>>, k: nat)
    requires p > 0.0 && k <= |batches| && forall i :: 0 <= i < |batches| ==> batches[i] == Batch(txs, p, i)
    ensures Concat(batches[..k]) == txs[..Min(Offset(p, k).Floor, |txs|)]
  {
    if k > 0 {
      FirstBatches(txs, p, batches, k - 1);
      Snoc(batches, k - 1);
      BatchContinues(txs, p, k - 1);
    }
  }

  /** Nothing is lost, repeated or reordered by the cutting. */
  lemma CutIsComplete<T>(txs: seq<T>, p: real)
    requires p > 0.0
    ensures Concat(Cut(txs, p)) == txs
  {
    var n := NoOfBatches(|txs|, p);
    var batches := Cut(txs, p);
    NoOfBatchesBounds(|txs|, p);
    FirstBatches(txs, p, batches, n);
    assert batches[..n] == batches;
    assert Offset(p, n).Floor >= |txs|;
    assert txs[..|txs|] == txs;
  }

  // ------------------------------------------------------------------ how many batches

  /** One batch for every node, unless a node would get fewer than 10 or more than 60 transactions; then batches of just that
      size. */
  lemma OneBatchPerNode(total: nat, geths: nat)
    requires geths > 0 && total > 0
    ensures var p := PerBatchCount(total, geths);
            if total > 60 * geths then p == MAX_TXS_PER_WORKER && NoOfBatches(total, p) == (total + 59) / 60 > geths
            else if total < 10 * geths then p == MIN_TXS_PER_WORKER && NoOfBatches(total, p) == (total + 9) / 10 <= geths
            else NoOfBatches(total, p) == geths
  {
    var p := PerBatchCount(total, geths);
    PerBatchCountCases(total, geths);
    if total > 60 * geths {
      CountOfFixedSize(total, p, 60);
    } else if total < 10 * geths {
      CountOfFixedSize(total, p, 10);
    } else {
      ExactlyOnePerNode(total, geths, p);
    }
  }

  lemma CountOfFixedSize(total: nat, p: real, size: nat)
    requires total > 0 && (size == 10 || size == 60) && p == size as real
    ensures NoOfBatches(total, p) == (total + size - 1) / size
  {
    var n := NoOfBatches(total, p);
    NoOfBatchesBounds(total, p);
    OffsetIsMultiple(p, n);
    OffsetIsMultiple(p, n - 1);
    if size == 60 {
      assert Offset(p, n) == n as real * 60.0 && Offset(p, n - 1) == (n - 1) as real * 60.0;
    } else {
      assert Offset(p, n) == n as real * 10.0 && Offset(p, n - 1) == (n - 1) as real * 10.0;
    }
  }

  lemma PerBatchCountCases(total: nat, geths: nat)
    requires geths > 0
    ensures var p := PerBatchCount(total, geths);
            if total > 60 * geths then p == MAX_TXS_PER_WORKER
            else if total < 10 * geths then p == MIN_TXS_PER_WORKER
            else geths as real * p == total as real
  {
    var x, g := total as real, geths as real;
    var q := x / g;
    assert q * g == x;
    QuotientAgainst(x, g, 60.0);
    QuotientAgainst(x, g, 10.0);
    assert total > 60 * geths <==> x > 60.0 * g;
    assert total < 10 * geths <==> x < 10.0 * g;
  }

  lemma QuotientAgainst(x: real, g: real, c: real)
    requires g > 0.0
    ensures (x / g > c <==> x > c * g) && (x / g < c <==> x < c * g)
  {
    var q := x / g;
    assert q * g == x;
    if q > c {
      ProductLt(c, q, g);
    } else if q < c {
      ProductLt(q, c, g);
    }
  }

  lemma ExactlyOnePerNode(total: nat, geths: nat, p: real)
    requires p > 0.0 && total > 0 && geths as real * p == total as real
    ensures NoOfBatches(total, p) == geths
  {
    var n := NoOfBatches(total, p);
    NoOfBatchesBounds(total, p);
    OffsetIsMultiple(p, geths);
    if n < geths {
      OffsetMonotone(p, n, geths - 1);
    } else if n > geths {
      OffsetMonotone(p, geths, n - 1);
    }
  }
}
