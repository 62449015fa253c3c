/**
 * core/sample_loader.py: `load_sample_for_visualization` cleans the first
 * chunks the loader yields and concatenates them.  The test that stops the
 * loop comes after the append, so at least one chunk is taken whatever
 * `max_chunks` is.
 */
module SampleLoader {
  import opened Sequences
  import opened Frames
  import opened Cleaner
  import opened Loader

  function Max(a: int, b: int): int
  {
    if a >= b then a else b
  }

  /** `clean_data` applied to every frame, in order. */
  function CleanAll(frames: seq<Frame>): (cleaned: seq<Frame>)
    ensures |cleaned| == |frames|
    ensures forall i :: 0 <= i < |frames| ==> cleaned[i] == CleanData(frames[i])
  {
    seq(|frames|, i requires 0 <= i < |frames| => CleanData(frames[i]))
  }

  /** How many of `available` chunks the loop consumes when it may take `maxChunks`. */
  function ChunksTaken(available: nat, maxChunks: int): (k: nat)
    ensures k <= available
    ensures available > 0 ==> k >= 1
    ensures k == available || (k == Max(1, maxChunks) && k < available)
  {
    Min(available, Max(1, maxChunks))
  }

  /** The sample built from the chunks the loader yields. */
  function Sample(all: seq<Frame>, maxChunks: int): Frame
  {
    var k := ChunksTaken(|all|, maxChunks);
    if k == 0 then EmptyFrame else ConcatFrames(CleanAll(all[..k]))
  }

  /** `load_sample_for_visualization`: the loop over the loader's chunks, with its early break. */
  method LoadSampleForVisualization(read: Option<Frame>, chunksize: int, maxChunks: int) returns (sample: Frame)
    ensures sample == Sample(LoadedChunks(read, chunksize), maxChunks)
  {
    var all := LoadParquetInChunks(read, chunksize);
    var chunks: seq<Frame> := [];
    var i := 0;
    while i < |all|
      invariant 0 <= i <= |all|
      invariant i < Max(1, maxChunks) || i == 0
      invariant chunks == CleanAll(all[..i])
    {
      var cleaned := CleanData(all[i]);
      chunks := chunks + [cleaned];
      CleanAllPrefix(all, i);
      if i + 1 >= maxChunks {
        i := i + 1;
        break;
      }
      i := i + 1;
    }
    assert i == ChunksTaken(|all|, maxChunks);
    if chunks == [] {
      return EmptyFrame;
    }
    sample := ConcatFrames(chunks);
  }

  /** Cleaning one more chunk of a prefix appends its cleaned frame. */
  lemma CleanAllPrefix(frames: seq<Frame>, i: nat)
    requires i < |frames|
    ensures CleanAll(frames[..i + 1]) == CleanAll(frames[..i]) + [CleanData(frames[i])]
  {
  }

  /** Cleaning never adds rows: the cleaned chunks together have at most the raw chunks' rows. */
  lemma {:induction false} CleanAllRows(frames: seq<Frame>)
    ensures |Flatten(CleanAll(frames))| <= |Flatten(frames)|
    decreases |frames|
  {
    if frames != [] {
      CleanAllRows(frames[1..]);
      assert CleanAll(frames)[1..] == CleanAll(frames[1..]);
    }
  }

  /**
   * The sample's rows are the cleaned chunks' rows one chunk after another,
   * relabelled 0..n-1, and there are at most as many as in the chunks read.
   */
  lemma SampleRows(all: seq<Frame>, maxChunks: int)
    ensures var k := ChunksTaken(|all|, maxChunks);
      && Rows(Sample(all, maxChunks).records) == Rows(Flatten(CleanAll(all[..k])))
      && (forall i :: 0 <= i < |Sample(all, maxChunks).records| ==> Sample(all, maxChunks).records[i].index == i)
      && |Sample(all, maxChunks).records| <= |Flatten(all[..k])|
  {
    var k := ChunksTaken(|all|, maxChunks);
    CleanAllRows(all[..k]);
  }

  /** With no chunks from the loader (a failed read, say) the sample is the empty frame. */
  lemma NoChunksEmptySample(chunksize: int, maxChunks: int)
    ensures Sample(LoadedChunks(None, chunksize), maxChunks) == EmptyFrame
  {
  }

  /** A non-positive `max_chunks` still takes the first chunk. */
  lemma AtLeastOneChunk(all: seq<Frame>, maxChunks: int)
    requires |all| > 0 && maxChunks <= 0
    ensures Sample(all, maxChunks) == ConcatFrames([CleanData(all[0])])
  {
    assert CleanAll(all[..1]) == [CleanData(all[0])];
  }
}
