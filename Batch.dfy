/** Extensions.Batch of the search-documents job: cut a sequence into chunks of `size` items. */
module Batching {
  import opened Wrappers

  /** The chunks Batch yields for a positive size: full chunks, then the non-empty remainder. */
  function Chunks<T>(source: seq<T>, size: nat): seq<seq<T>>
    requires size > 0
    decreases |source|
  {
    if source == [] then []
    else if |source| <= size then [source]
    else [source[..size]] + Chunks(source[size..], size)
  }

  function Flatten<T>(chunks: seq<seq<T>>): seq<T>
  {
    if chunks == [] then [] else chunks[0] + Flatten(chunks[1..])
  }

  lemma FlattenAppend<T>(chunks: seq<seq<T>>, last: seq<T>)
    ensures Flatten(chunks + [last]) == Flatten(chunks) + last
  {
    if chunks != [] {
      assert (chunks + [last])[1..] == chunks[1..] + [last];
    } else {
      assert [last][1..] == [];
    }
  }

  /** `done` splits exactly into full chunks of `size` items. */
  ghost predicate FullChunks<T>(done: seq<T>, size: nat)
    requires size > 0
    decreases |done|
  {
    done == [] || (|done| >= size && FullChunks(done[size..], size))
  }

  lemma {:induction false} FullChunksAppend<T>(done: seq<T>, full: seq<T>, size: nat)
    requires size > 0 && FullChunks(done, size) && |full| == size
    ensures FullChunks(done + full, size)
    decreases |done|
  {
    if done == [] {
      assert done + full == full;
      assert full[size..] == [];
    } else {
      assert (done + full)[size..] == done[size..] + full;
      FullChunksAppend(done[size..], full, size);
    }
  }

  /** Appending 1..size items after a whole number of full chunks adds exactly one chunk. */
  lemma {:induction false} ChunksAppend<T>(done: seq<T>, tail: seq<T>, size: nat)
    requires size > 0 && FullChunks(done, size) && 0 < |tail| <= size
    ensures Chunks(done + tail, size) == Chunks(done, size) + [tail]
    decreases |done|
  {
    if done == [] {
      assert done + tail == tail;
    } else {
      var s := done + tail;
      assert |s| > size;
      assert s[..size] == done[..size];
      assert s[size..] == done[size..] + tail;
      ChunksAppend(done[size..], tail, size);
      assert Chunks(s, size) == [done[..size]] + Chunks(done[size..] + tail, size);
      if done[size..] == [] {
        assert done == done[..size];
      }
    }
  }

  /** Concatenating the chunks gives back the source, in order. */
  lemma {:induction false} ChunksFlatten<T>(source: seq<T>, size: nat)
    requires size > 0
    ensures Flatten(Chunks(source, size)) == source
    decreases |source|
  {
    if source == [] {
    } else if |source| <= size {
      assert Flatten([source]) == source + Flatten([]);
    } else {
      var rest := Chunks(source[size..], size);
      ChunksFlatten(source[size..], size);
      assert ([source[..size]] + rest)[1..] == rest;
      assert source == source[..size] + source[size..];
    }
  }

  /**
   * The number of chunks is the least one whose `size`-multiple covers the source (the ceiling
   * of n / size).
   */
  lemma {:induction false} ChunksCount<T>(source: seq<T>, size: nat)
    requires size > 0
    ensures |source| <= |Chunks(source, size)| * size < |source| + size
    decreases |source|
  {
    if source == [] {
    } else if |source| <= size {
      assert |Chunks(source, size)| == 1;
    } else {
      var tail := source[size..];
      ChunksCount(tail, size);
      var n := |Chunks(tail, size)|;
      assert |Chunks(source, size)| == n + 1;
      assert (n + 1) * size == n * size + size;
    }
  }

  /** Every chunk but the last has `size` items, the last has 1 to `size`. */
  lemma {:induction false} ChunksShape<T>(source: seq<T>, size: nat)
    requires size > 0
    ensures var chunks := Chunks(source, size);
      && (forall i :: 0 <= i < |chunks| - 1 ==> |chunks[i]| == size)
      && (chunks != [] ==> 0 < |chunks[|chunks| - 1]| <= size)
    decreases |source|
  {
    if source == [] {
    } else if |source| <= size {
    } else {
      var tail := source[size..];
      ChunksShape(tail, size);
      var rest := Chunks(tail, size);
      var chunks := [source[..size]] + rest;
      assert Chunks(source, size) == chunks;
      assert forall i :: 1 <= i < |chunks| ==> chunks[i] == rest[i - 1];
    }
  }

  /** Closing the chunk source[j..k] after the full chunks of source[..j]. */
  lemma ChunkStep<T>(source: seq<T>, j: nat, k: nat, size: nat)
    requires size > 0 && j <= k <= |source| && 0 < k - j <= size
    requires FullChunks(source[..j], size)
    ensures Chunks(source[..k], size) == Chunks(source[..j], size) + [source[j..k]]
    ensures k - j == size ==> FullChunks(source[..k], size)
  {
    assert source[..k] == source[..j] + source[j..k];
    ChunksAppend(source[..j], source[j..k], size);
    if k - j == size {
      FullChunksAppend(source[..j], source[j..k], size);
    }
  }

  /**
   * Batch(source, size): a bucket array allocated on the first item of each chunk, yielded when
   * full and then dropped; the partly filled last bucket is cut to its count. A zero size fails on
   * the first write into the zero-length bucket; a negative size fails on allocation.
   */
  method Batch<T(0)>(source: seq<T>, size: int) returns (r: Result<seq<seq<T>>, Error>)
    ensures source == [] ==> r == Ok([])
    ensures source != [] && size == 0 ==> r == Err(IndexOutOfRange)
    ensures source != [] && size < 0 ==> r == Err(Overflow)
    ensures size > 0 ==> r == Ok(Chunks(source, size))
  {
    var chunks: seq<seq<T>> := [];
    var bucket: array?<T> := null;
    var count := 0;
    var i := 0;
    ghost var start := 0;
    while i < |source|
      invariant 0 <= count <= i <= |source|
      invariant size <= 0 ==> i == 0 && chunks == []
      invariant size > 0 ==> count < size
      invariant bucket == null <==> count == 0
      invariant bucket != null ==> fresh(bucket) && bucket.Length == size
      invariant start == i - count
      invariant bucket != null ==> bucket[..count] == source[start..i]
      invariant size > 0 ==> FullChunks(source[..start], size)
      invariant size > 0 ==> chunks == Chunks(source[..start], size)
    {
      if bucket == null {
        if size < 0 {
          return Err(Overflow);
        }
        bucket := new T[size];
      }
      if count >= bucket.Length {
        return Err(IndexOutOfRange);
      }
      bucket[count] := source[i];
      count := count + 1;
      i := i + 1;
      assert bucket[..count] == source[start..i];
      if count == size {
        ChunkStep(source, start, i, size);
        assert bucket[..] == bucket[..count] == source[start..i];
        chunks := chunks + [bucket[..]];
        bucket := null;
        count := 0;
        start := i;
      }
    }
    if bucket != null {
      ChunkStep(source, start, i, size);
      chunks := chunks + [bucket[..count]];
    }
    assert size > 0 ==> source[..i] == source;
    r := Ok(chunks);
  }
}
