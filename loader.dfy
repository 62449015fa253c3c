/**
 * core/loader.py: `load_parquet_in_chunks` reads a whole table and yields it
 * in consecutive slices of `chunksize` rows.  The file read is a parameter:
 * `None` when `pd.read_parquet` raises, otherwise the table it returns.  The
 * generator is modelled by the sequence of everything it yields.
 */
module Loader {
  import opened Frames

  function Min(a: int, b: int): int
  {
    if a <= b then a else b
  }

  /** `df.iloc[from:from + size]`: the rows from `from` on, at most `size` of them, labels kept. */
  function SliceAt(f: Frame, from: nat, size: nat): (chunk: Frame)
    requires from <= |f.records|
    ensures chunk.columns == f.columns
    ensures |chunk.records| == Min(size, |f.records| - from)
  {
    Frame(f.columns, f.records[from..Min(from + size, |f.records|)])
  }

  /** The slices the loop yields for the starts `from`, `from + size`, ... below the row count. */
  function SlicesFrom(f: Frame, size: nat, from: nat): seq<Frame>
    requires size > 0
    decreases |f.records| - from
  {
    if from >= |f.records| then []
    else [SliceAt(f, from, size)] + SlicesFrom(f, size, from + size)
  }

  /** Everything the generator yields, given the outcome of the read and `chunksize`. */
  function LoadedChunks(read: Option<Frame>, chunksize: int): seq<Frame>
  {
    match read
    case None => []                                  // the read raised: logged, nothing yielded
    case Some(f) =>
      if |f.records| == 0 then []                    // empty table: warning, nothing yielded
      else if chunksize <= 0 then []                 // range() raises on 0, is empty when negative
      else SlicesFrom(f, chunksize, 0)
  }

  /** `load_parquet_in_chunks`: the slicing loop, collecting what it yields. */
  method LoadParquetInChunks(read: Option<Frame>, chunksize: int) returns (chunks: seq<Frame>)
    ensures chunks == LoadedChunks(read, chunksize)
  {
    chunks := [];
    if read.None? {
      return;
    }
    var df := read.value;
    var totalRows := |df.records|;
    if totalRows == 0 || chunksize <= 0 {
      return;
    }
    var i := 0;
    while i < totalRows
      invariant 0 <= i
      invariant chunks + SlicesFrom(df, chunksize, i) == SlicesFrom(df, chunksize, 0)
      decreases totalRows - i
    {
      var chunk := SliceAt(df, i, chunksize);
      chunks := chunks + [chunk];
      i := i + chunksize;
    }
  }

  /** Concatenating the slices gives back the rows from `from` on, in order. */
  lemma {:induction false} SlicesFromFlatten(f: Frame, size: nat, from: nat)
    requires size > 0 && from <= |f.records|
    ensures Flatten(SlicesFrom(f, size, from)) == f.records[from..]
    decreases |f.records| - from
  {
    if from < |f.records| {
      var next := Min(from + size, |f.records|);
      var rest := SlicesFrom(f, size, from + size);
      if from + size <= |f.records| {
        SlicesFromFlatten(f, size, from + size);
      } else {
        assert rest == [];
      }
      var all := SlicesFrom(f, size, from);
      assert all[0] == SliceAt(f, from, size) && all[1..] == rest;
      assert Flatten(rest) == f.records[next..];
      assert f.records[from..] == f.records[from..next] + f.records[next..];
    }
  }

  /** The number of slices from `from` on is the rows left divided by `size`, rounded up. */
  lemma {:induction false} SlicesFromCount(f: Frame, size: nat, from: nat)
    requires size > 0 && from <= |f.records|
    ensures (|SlicesFrom(f, size, from)| - 1) * size < |f.records| - from <= |SlicesFrom(f, size, from)| * size
            || (from == |f.records| && SlicesFrom(f, size, from) == [])
    decreases |f.records| - from
  {
    var left := |f.records| - from;
    if from < |f.records| {
      var c := |SlicesFrom(f, size, from)|;
      if from + size < |f.records| {
        SlicesFromCount(f, size, from + size);
        var c' := |SlicesFrom(f, size, from + size)|;
        assert c == c' + 1;
        MulSucc(c', size);
      } else {
        assert SlicesFrom(f, size, from + size) == [];
        assert c == 1;
      }
    }
  }

  /** One more multiple of `size`. */
  lemma MulSucc(c: int, size: int)
    ensures (c + 1) * size == c * size + size
    ensures c * size == (c - 1) * size + size
  {
  }

  /** `n == q * d + r` with `0 <= r < d` fixes `q` as `n / d`. */
  lemma DivUnique(n: int, d: int, q: int, r: int)
    requires d > 0 && 0 <= r < d && n == q * d + r
    ensures n / d == q
  {
    var q' := n / d;
    var r' := n % d;
    assert (q - q') * d == r' - r;
    assert (q' - q) * d == r - r';
    BelowOne(q - q', d);
    BelowOne(q' - q, d);
  }

  lemma BelowOne(x: int, d: int)
    requires d > 0 && x * d < d
    ensures x < 1
  {
  }

  /** The ceiling of `n / size` is `(n + size - 1) / size`. */
  lemma CeilingDiv(n: int, size: int, c: int)
    requires size > 0 && n > 0 && (c - 1) * size < n <= c * size
    ensures c == (n + size - 1) / size
  {
    var low := (c - 1) * size;
    assert low + size == c * size;
    var r := n + size - 1 - c * size;
    assert 0 <= r < size;
    DivUnique(n + size - 1, size, c, r);
  }

  /** The start of slice `k`, `k * size`, as repeated addition. */
  function Offset(k: nat, size: nat): nat
  {
    if k == 0 then 0 else Offset(k - 1, size) + size
  }

  lemma {:induction false} OffsetIsProduct(k: nat, size: nat)
    ensures Offset(k, size) == k * size
  {
    if k > 0 {
      OffsetIsProduct(k - 1, size);
      MulSucc(k - 1, size);
    }
  }

  /** Slice `k` from `from` starts `k` slices in, and every slice but the last is followed by another start. */
  lemma {:induction false} SlicesFromShape(f: Frame, size: nat, from: nat, k: nat)
    requires size > 0
    requires k < |SlicesFrom(f, size, from)|
    ensures from + Offset(k, size) < |f.records|
    ensures SlicesFrom(f, size, from)[k] == SliceAt(f, from + Offset(k, size), size)
    ensures k + 1 < |SlicesFrom(f, size, from)| ==> from + Offset(k + 1, size) < |f.records|
    decreases k
  {
    var all := SlicesFrom(f, size, from);
    var rest := SlicesFrom(f, size, from + size);
    SlicesFromStep(f, size, from);
    var here, next := Offset(k, size), Offset(k + 1, size);
    assert next == here + size;
    if k > 0 {
      SlicesFromShape(f, size, from + size, k - 1);
      assert here == Offset(k - 1, size) + size;
      assert all[k] == rest[k - 1];
    } else {
      assert here == 0;
    }
  }

  /** The first slice from `from`, and whether another slice follows it. */
  lemma SlicesFromStep(f: Frame, size: nat, from: nat)
    requires size > 0 && from < |f.records|
    ensures SlicesFrom(f, size, from) == [SliceAt(f, from, size)] + SlicesFrom(f, size, from + size)
    ensures |SlicesFrom(f, size, from)| > 1 ==> from + size < |f.records|
  {
  }

  /** What the generator yields, in terms of the table it read. */
  lemma LoadedChunksShape(read: Option<Frame>, chunksize: int)
    ensures read.None? ==> LoadedChunks(read, chunksize) == []
    ensures read.Some? && (|read.value.records| == 0 || chunksize <= 0) ==> LoadedChunks(read, chunksize) == []
    ensures read.Some? && chunksize > 0 ==>
      && Flatten(LoadedChunks(read, chunksize)) == read.value.records
      && |LoadedChunks(read, chunksize)| == (|read.value.records| + chunksize - 1) / chunksize
  {
    if read.Some? && chunksize > 0 {
      if |read.value.records| > 0 {
        SlicesFromFlatten(read.value, chunksize, 0);
        SlicesFromCount(read.value, chunksize, 0);
        CeilingDiv(|read.value.records|, chunksize, |LoadedChunks(read, chunksize)|);
      }
    }
  }

  /** Every yielded chunk keeps the table's columns, is non-empty and has at most `chunksize` rows; all but the last are full. */
  lemma LoadedChunkSizes(read: Option<Frame>, chunksize: int, k: nat)
    requires k < |LoadedChunks(read, chunksize)|
    ensures read.Some? && chunksize > 0
    ensures k * chunksize < |read.value.records|
    ensures LoadedChunks(read, chunksize)[k]
      == Frame(read.value.columns,
               read.value.records[k * chunksize..Min((k + 1) * chunksize, |read.value.records|)])
    ensures 0 < |LoadedChunks(read, chunksize)[k].records| <= chunksize
    ensures k + 1 < |LoadedChunks(read, chunksize)| ==> |LoadedChunks(read, chunksize)[k].records| == chunksize
  {
    SlicesFromShape(read.value, chunksize, 0, k);
    OffsetIsProduct(k, chunksize);
    OffsetIsProduct(k + 1, chunksize);
  }
}
