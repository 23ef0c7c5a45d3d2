/**
 * How one flush cuts the queued messages into bulk-write batches: floor(n / batchSize)
 * full batches, then one remainder batch that is added even when it is empty.
 * The counts follow the source's integer division and its float "scrap" for every
 * non-zero batch size; a zero batch size divides by zero before anything is cut.
 */
module Batching {

  /** Number of full batches: C#'s truncating n / batchSize, or no loop round when it is not positive. */
  function FullBatchCount(n: nat, batchSize: int): nat
    requires batchSize != 0
  {
    if batchSize > 0 then n / batchSize else 0
  }

  /** Size of the trailing batch: the float scrap ((n / bs) - iteration) * bs, taken exactly. */
  function RemainderSize(n: nat, batchSize: int): nat
    requires batchSize != 0
  {
    if batchSize > 0 then n % batchSize else n % (-batchSize)
  }

  /** Width of one full batch as a loop bound. */
  function FullWidth(batchSize: int): nat {
    if batchSize > 0 then batchSize else 0
  }

  /** How many messages one flush takes out of a queue of n. */
  function DequeueCount(n: nat, batchSize: int): (k: nat)
    requires batchSize != 0
    ensures k <= n
    ensures batchSize > 0 ==> k == n
  {
    LessThanAfterFull(n, batchSize);
    FullBatchCount(n, batchSize) * FullWidth(batchSize) + RemainderSize(n, batchSize)
  }

  lemma LessThanAfterFull(n: nat, batchSize: int)
    requires batchSize != 0
    ensures FullBatchCount(n, batchSize) * FullWidth(batchSize) + RemainderSize(n, batchSize) <= n
    ensures batchSize > 0 ==> FullBatchCount(n, batchSize) * FullWidth(batchSize) + RemainderSize(n, batchSize) == n
  {
  }

  /** The first `count` consecutive slices of `size` elements. */
  function FullBatches<T>(s: seq<T>, count: nat, size: nat): seq<seq<T>>
    requires count * size <= |s|
    decreases count
  {
    if count == 0 then []
    else
      assert (count - 1) * size == count * size - size;
      [s[..size]] + FullBatches(s[size..], count - 1, size)
  }

  /** The batches of one flush: the full ones, then the remainder (possibly empty). */
  function SplitBatches<T>(s: seq<T>, batchSize: int): (r: seq<seq<T>>)
    requires batchSize != 0
    ensures |r| == FullBatchCount(|s|, batchSize) + 1
    ensures |r[|r| - 1]| == RemainderSize(|s|, batchSize)
  {
    var q := FullBatchCount(|s|, batchSize);
    var w := FullWidth(batchSize);
    LessThanAfterFull(|s|, batchSize);
    FullBatchesLength(s, q, w);
    FullBatches(s, q, w) + [s[q * w .. q * w + RemainderSize(|s|, batchSize)]]
  }

  function Flatten<T>(batches: seq<seq<T>>): seq<T> {
    if batches == [] then [] else batches[0] + Flatten(batches[1..])
  }

  lemma {:induction false} FlattenConcat<T>(a: seq<seq<T>>, b: seq<seq<T>>)
    ensures Flatten(a + b) == Flatten(a) + Flatten(b)
    decreases |a|
  {
    if a == [] {
      assert a + b == b;
    } else {
      assert (a + b)[1..] == a[1..] + b;
      FlattenConcat(a[1..], b);
    }
  }

  /** Flatten of the first n batches, built from the back. */
  function FlattenPrefix<T>(batches: seq<seq<T>>, n: nat): seq<T>
    requires n <= |batches|
  {
    if n == 0 then [] else FlattenPrefix(batches, n - 1) + batches[n - 1]
  }

  lemma {:induction false} FlattenPrefixIsFlatten<T>(batches: seq<seq<T>>, n: nat)
    requires n <= |batches|
    ensures FlattenPrefix(batches, n) == Flatten(batches[..n])
  {
    if n > 0 {
      FlattenPrefixIsFlatten(batches, n - 1);
      assert batches[..n] == batches[..n - 1] + [batches[n - 1]];
      FlattenSnoc(batches[..n - 1], batches[n - 1]);
    }
  }

  lemma FlattenPrefixAll<T>(batches: seq<seq<T>>)
    ensures FlattenPrefix(batches, |batches|) == Flatten(batches)
  {
    FlattenPrefixIsFlatten(batches, |batches|);
    assert batches[..|batches|] == batches;
  }

  lemma FlattenSnoc<T>(a: seq<seq<T>>, b: seq<T>)
    ensures Flatten(a + [b]) == Flatten(a) + b
  {
    FlattenConcat(a, [b]);
    assert Flatten([b]) == b + Flatten([]);
  }

  /** Appending one batch at the end is what the outer loop of the flush does. */
  lemma {:induction false} FullBatchesSnoc<T>(s: seq<T>, i: nat, size: nat)
    requires (i + 1) * size <= |s|
    ensures i * size + size == (i + 1) * size
    ensures FullBatches(s, i + 1, size) == FullBatches(s, i, size) + [s[i * size .. i * size + size]]
    decreases i
  {
    assert (i + 1) * size == i * size + size;
    if i > 0 {
      assert i * size == (i - 1) * size + size;
      FullBatchesSnoc(s[size..], i - 1, size);
      assert s[size..][(i - 1) * size .. (i - 1) * size + size] == s[i * size .. i * size + size];
    }
  }

  /** The integer quotient n / batchSize as C# truncates it toward zero. */
  function TruncatedQuotient(n: nat, batchSize: int): int
    requires batchSize != 0
  {
    if batchSize > 0 then n / batchSize else -(n / -batchSize)
  }

  /** The loop counts of one flush agree with the batch counts of SplitBatches. */
  lemma TruncatedQuotientCounts(n: nat, batchSize: int)
    requires batchSize != 0
    ensures var it := TruncatedQuotient(n, batchSize);
      && (it > 0 ==> batchSize > 0 && it == FullBatchCount(n, batchSize))
      && (it <= 0 ==> FullBatchCount(n, batchSize) == 0)
      && n - it * batchSize == RemainderSize(n, batchSize)
      && FullBatchCount(n, batchSize) * FullWidth(batchSize) + RemainderSize(n, batchSize) == DequeueCount(n, batchSize)
  {
    if batchSize < 0 {
      var m := -batchSize;
      assert -(n / m) * batchSize == (n / m) * m;
    }
  }

  /** One dequeue step: the head of the rest s[hi..] moves to the end of the taken part s[lo..hi]. */
  lemma TakeOne<T>(s: seq<T>, lo: nat, hi: nat, taken: seq<T>, rest: seq<T>)
    requires lo <= hi < |s|
    requires taken == s[lo..hi] && rest == s[hi..]
    ensures |rest| > 0
    ensures taken + [rest[0]] == s[lo..hi + 1]
    ensures rest[1..] == s[hi + 1..]
  {
  }

  /** Taking k more elements off a suffix that starts at a. */
  lemma SuffixSlices<T>(s: seq<T>, a: nat, k: nat)
    requires a + k <= |s|
    ensures s[a..][..k] == s[a..a + k]
    ensures s[a..][k..] == s[a + k..]
  {
  }

  /** A prefix followed by the slice after it up to the end is the whole sequence. */
  lemma PrefixThenRest<T>(s: seq<T>, k: nat, r: nat)
    requires k + r == |s|
    ensures s[..k] + s[k..k + r] == s
  {
    assert s[k..k + r] == s[k..];
  }

  lemma MulMono(a: nat, b: nat, c: nat)
    requires a <= b
    ensures a * c <= b * c
  {
    var d := b - a;
    assert b * c == a * c + d * c;
  }

  /** The offsets FullBatchesAt moves between, as linear facts about the products. */
  lemma SliceOffsets(count: nat, size: nat, i: nat)
    requires i < count
    ensures count * size == (count - 1) * size + size
    ensures (i + 1) * size == i * size + size
    ensures i * size + size <= count * size
    ensures i > 0 ==> i * size == (i - 1) * size + size
  {
    MulMono(i + 1, count, size);
  }

  /** Batch i of the full batches is the i-th slice of `size` elements. */
  lemma {:induction false} FullBatchesAt<T>(s: seq<T>, count: nat, size: nat, i: nat)
    requires count * size <= |s|
    requires i < count
    ensures i * size + size <= |s|
    ensures |FullBatches(s, count, size)| == count
    ensures FullBatches(s, count, size)[i] == s[i * size .. i * size + size]
    decreases count
  {
    SliceOffsets(count, size, i);
    FullBatchesLength(s, count - 1, size);
    FullBatchesSnoc(s, count - 1, size);
    if i < count - 1 {
      FullBatchesAt(s, count - 1, size, i);
    }
  }

  lemma {:induction false} FullBatchesLength<T>(s: seq<T>, count: nat, size: nat)
    requires count * size <= |s|
    ensures |FullBatches(s, count, size)| == count
    decreases count
  {
    if count > 0 {
      assert (count - 1) * size == count * size - size;
      FullBatchesLength(s[size..], count - 1, size);
    }
  }

  lemma {:induction false} FlattenFullBatches<T>(s: seq<T>, count: nat, size: nat)
    requires count * size <= |s|
    ensures Flatten(FullBatches(s, count, size)) == s[..count * size]
    decreases count
  {
    if count > 0 {
      assert (count - 1) * size == count * size - size;
      FlattenFullBatches(s[size..], count - 1, size);
      var b := FullBatches(s, count, size);
      assert b[1..] == FullBatches(s[size..], count - 1, size);
      assert s[..size] + s[size..][..(count - 1) * size] == s[..count * size];
    }
  }

  /**
   * The batches of one flush: floor(n / batchSize) full batches of batchSize, then one
   * remainder batch of n mod batchSize; together they are exactly the dequeued prefix,
   * in FIFO order.
   */
  lemma SplitBatchesShape<T>(s: seq<T>, batchSize: int)
    requires batchSize > 0
    ensures var b := SplitBatches(s, batchSize);
      && |b| == |s| / batchSize + 1
      && (forall i :: 0 <= i < |s| / batchSize ==> |b[i]| == batchSize)
      && |b[|b| - 1]| == |s| % batchSize
      && Flatten(b) == s
  {
    SplitBatchesSizes(s, batchSize);
    FlattenSplitBatchesPositive(s, batchSize);
  }

  /** Euclid's division of the queue length by a positive batch size. */
  lemma DivMod(n: nat, batchSize: int)
    requires batchSize > 0
    ensures (n / batchSize) * batchSize + n % batchSize == n
    ensures (n / batchSize) * batchSize <= n
  {
  }

  lemma SplitBatchesSizes<T>(s: seq<T>, batchSize: int)
    requires batchSize > 0
    ensures var b := SplitBatches(s, batchSize);
      && |b| == |s| / batchSize + 1
      && (forall i :: 0 <= i < |s| / batchSize ==> |b[i]| == batchSize)
      && |b[|b| - 1]| == |s| % batchSize
  {
    var q := |s| / batchSize;
    DivMod(|s|, batchSize);
    var fulls := FullBatches(s, q, batchSize);
    var b := SplitBatches(s, batchSize);
    FullBatchesLength(s, q, batchSize);
    assert b[..q] == fulls;
    forall i | 0 <= i < q ensures |b[i]| == batchSize {
      assert b[i] == b[..q][i];
      FullBatchesAt(s, q, batchSize, i);
    }
  }

  lemma FlattenSplitBatchesPositive<T>(s: seq<T>, batchSize: int)
    requires batchSize > 0
    ensures Flatten(SplitBatches(s, batchSize)) == s
  {
    var q := |s| / batchSize;
    DivMod(|s|, batchSize);
    var fulls := FullBatches(s, q, batchSize);
    var last := s[q * batchSize .. q * batchSize + |s| % batchSize];
    assert SplitBatches(s, batchSize) == fulls + [last];
    FlattenConcat(fulls, [last]);
    FlattenFullBatches(s, q, batchSize);
    assert Flatten([last]) == last;
    PrefixThenRest(s, q * batchSize, |s| % batchSize);
  }

  /**
   * With a non-positive batch size no full batch is formed; the single remainder batch
   * takes the first n mod |batchSize| messages and leaves the rest queued.
   */
  lemma SplitBatchesNegative<T>(s: seq<T>, batchSize: int)
    requires batchSize < 0
    ensures SplitBatches(s, batchSize) == [s[..|s| % -batchSize]]
    ensures Flatten(SplitBatches(s, batchSize)) == s[..DequeueCount(|s|, batchSize)]
  {
    assert Flatten([s[..|s| % -batchSize]]) == s[..|s| % -batchSize];
  }

  /** The dequeued prefix is exactly the concatenation of the batches, whatever the batch size. */
  lemma FlattenSplitBatches<T>(s: seq<T>, batchSize: int)
    requires batchSize != 0
    ensures Flatten(SplitBatches(s, batchSize)) == s[..DequeueCount(|s|, batchSize)]
  {
    if batchSize > 0 {
      SplitBatchesShape(s, batchSize);
    } else {
      SplitBatchesNegative(s, batchSize);
    }
  }

  /** 2500 queued messages with a batch size of 1000 give batches of 1000, 1000 and 500. */
  lemma SplitBatchesExample<T>(s: seq<T>)
    requires |s| == 2500
    ensures var b := SplitBatches(s, 1000);
      |b| == 3 && |b[0]| == 1000 && |b[1]| == 1000 && |b[2]| == 500
  {
    SplitBatchesShape(s, 1000);
  }

  /** A queue that is an exact multiple of the batch size still ends with an empty batch. */
  lemma SplitBatchesTrailingEmpty<T>(s: seq<T>, batchSize: int)
    requires batchSize > 0 && |s| % batchSize == 0
    ensures var b := SplitBatches(s, batchSize); |b| >= 1 && b[|b| - 1] == []
  {
    SplitBatchesShape(s, batchSize);
  }
}
