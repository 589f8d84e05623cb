/**
 * The batch partition of a bulk upload's parsing dispatch: n documents go
 * out in ceil(n / size) consecutive batches of `size`, the last possibly
 * shorter, with a pause after every batch except the last.
 */
module Batching {
  import opened Wrappers

  /** (n + size - 1) // size */
  function BatchCount(n: nat, size: nat): nat
    requires size > 0
  {
    (n + size - 1) / size
  }

  function BatchStart(b: nat, size: nat): nat
  {
    b * size
  }

  /** min(start + size, n) */
  function BatchEnd(n: nat, size: nat, b: nat): nat
  {
    Min(BatchStart(b, size) + size, n)
  }

  lemma MulMonotone(a: nat, b: nat, d: nat)
    requires a <= b
    ensures a * d <= b * d
  {
  }

  /** q <= x / d exactly when q * d <= x. */
  lemma QuotientBound(x: nat, d: nat, q: nat)
    requires d > 0
    ensures q <= x / d <==> q * d <= x
  {
    assert x == (x / d) * d + x % d;
    if q <= x / d {
      MulMonotone(q, x / d, d);
    } else {
      MulMonotone(x / d + 1, q, d);
    }
  }

  /**
   * BatchCount is the ceiling of n / size: the batches cover every index,
   * and the last batch starts before n.
   */
  lemma {:induction false} BatchCountIsCeiling(n: nat, size: nat)
    requires size > 0
    ensures n <= BatchCount(n, size) * size
    ensures BatchCount(n, size) > 0 ==> (BatchCount(n, size) - 1) * size < n
    ensures BatchCount(n, size) == 0 <==> n == 0
  {
    var c := BatchCount(n, size);
    QuotientBound(n + size - 1, size, c);
    assert c * size <= n + size - 1;
    QuotientBound(n + size - 1, size, c + 1);
    assert (c + 1) * size > n + size - 1;
    assert (c + 1) * size == c * size + size;
    if c > 0 {
      assert (c - 1) * size == c * size - size;
    }
    if n > 0 {
      QuotientBound(n + size - 1, size, 1);
    }
  }

  /**
   * Every batch is a non-empty slice of at most `size` documents; every
   * batch but the last holds exactly `size`, and the last ends at n.
   */
  lemma BatchBounds(n: nat, size: nat, b: nat)
    requires size > 0 && b < BatchCount(n, size)
    ensures BatchStart(b, size) < BatchEnd(n, size, b) <= n
    ensures BatchEnd(n, size, b) - BatchStart(b, size) <= size
    ensures b + 1 < BatchCount(n, size) ==> BatchEnd(n, size, b) == BatchStart(b + 1, size)
    ensures b + 1 < BatchCount(n, size) ==> BatchEnd(n, size, b) - BatchStart(b, size) == size
    ensures b + 1 == BatchCount(n, size) ==> BatchEnd(n, size, b) == n
  {
    var c := BatchCount(n, size);
    BatchCountIsCeiling(n, size);
    MulMonotone(b, c - 1, size);
    assert BatchStart(b + 1, size) == b * size + size;
    if b + 1 < c {
      MulMonotone(b + 1, c - 1, size);
    } else {
      assert c * size == (c - 1) * size + size;
    }
  }

  /** The batches of `docs`, in order. */
  function Batches<T>(docs: seq<T>, size: nat): (r: seq<seq<T>>)
    requires size > 0
    ensures |r| == BatchCount(|docs|, size)
  {
    seq(BatchCount(|docs|, size), b requires 0 <= b < BatchCount(|docs|, size) =>
      BatchBounds(|docs|, size, b);
      docs[BatchStart(b, size)..BatchEnd(|docs|, size, b)])
  }

  function Flatten<T>(parts: seq<seq<T>>): seq<T>
  {
    if parts == [] then [] else Flatten(parts[..|parts| - 1]) + parts[|parts| - 1]
  }

  lemma BatchAt<T>(docs: seq<T>, size: nat, b: nat)
    requires size > 0 && b < BatchCount(|docs|, size)
    ensures BatchStart(b, size) < BatchEnd(|docs|, size, b) <= |docs|
    ensures Batches(docs, size)[b] == docs[BatchStart(b, size)..BatchEnd(|docs|, size, b)]
  {
    BatchBounds(|docs|, size, b);
  }

  /** Batch b ends where batch b + 1 would start, or at n. */
  lemma BatchEndIsNextStart(n: nat, size: nat, b: nat)
    ensures BatchEnd(n, size, b) == Min(BatchStart(b + 1, size), n)
  {
    assert (b + 1) * size == b * size + size;
  }

  /** Batch b starts where the earlier batches stopped and ends where batch b + 1 starts, or at n. */
  lemma BatchStep(n: nat, size: nat, b: nat)
    requires size > 0 && b < BatchCount(n, size)
    ensures Min(BatchStart(b, size), n) == BatchStart(b, size) < BatchEnd(n, size, b) <= n
    ensures BatchEnd(n, size, b) == Min(BatchStart(b + 1, size), n)
  {
    BatchBounds(n, size, b);
    BatchEndIsNextStart(n, size, b);
  }

  /** The batches together reach the last document. */
  lemma BatchesReachEnd(n: nat, size: nat)
    requires size > 0
    ensures Min(BatchStart(BatchCount(n, size), size), n) == n
  {
    BatchCountIsCeiling(n, size);
  }

  /** The first k batches together are exactly the documents before batch k's start. */
  lemma {:induction false} FlattenPrefix<T>(docs: seq<T>, size: nat, k: nat)
    requires size > 0 && k <= BatchCount(|docs|, size)
    ensures Flatten(Batches(docs, size)[..k]) == docs[..Min(BatchStart(k, size), |docs|)]
  {
    var parts := Batches(docs, size);
    if k == 0 {
      assert parts[..0] == [];
    } else {
      FlattenPrefix(docs, size, k - 1);
      assert parts[..k][..k - 1] == parts[..k - 1];
      assert Flatten(parts[..k]) == Flatten(parts[..k - 1]) + parts[k - 1];
      BatchAt(docs, size, k - 1);
      BatchEndIsNextStart(|docs|, size, k - 1);
      var lo := BatchStart(k - 1, size);
      var hi := BatchEnd(|docs|, size, k - 1);
      assert Min(lo, |docs|) == lo;
      assert hi == Min(BatchStart(k, size), |docs|);
      assert docs[..lo] + docs[lo..hi] == docs[..hi];
    }
  }

  /** Every document is dispatched exactly once, in creation order. */
  lemma BatchesPartition<T>(docs: seq<T>, size: nat)
    requires size > 0
    ensures Flatten(Batches(docs, size)) == docs
  {
    var c := BatchCount(|docs|, size);
    FlattenPrefix(docs, size, c);
    BatchCountIsCeiling(|docs|, size);
    assert Batches(docs, size)[..c] == Batches(docs, size);
  }

  /** A pause follows every batch except the last. */
  function Pauses(batchCount: nat): nat
  {
    if batchCount == 0 then 0 else batchCount - 1
  }

  /** Twelve documents with the default batch size go out as ten and then two, with one pause between. */
  lemma TwelveDocuments()
    ensures BatchCount(12, 10) == 2
    ensures BatchEnd(12, 10, 0) - BatchStart(0, 10) == 10
    ensures BatchEnd(12, 10, 1) - BatchStart(1, 10) == 2
    ensures Pauses(BatchCount(12, 10)) == 1
  {
  }
}
