/**
 * core/parallel.py: every chunk is cleaned and reduced to three statistics
 * (the process pool is an in-order map), and the statistics are combined into
 * a global summary.  Nothing here catches an exception: a chunk that cleans
 * to the empty frame makes `cleaned['trip_distance']` raise KeyError, and no
 * chunks at all make the division by `len(results)` raise ZeroDivisionError.
 *
 * The chunks come from core/streamer.py's `stream_parquet`, whose size
 * parameter is called `batch_size`; `run_multiprocessing` passes the size as
 * `chunksize`, which makes the call raise TypeError before anything is read.
 * The batches pyarrow would produce are a parameter.
 */
module Parallel {
  import opened Frames
  import opened Aggregates
  import opened Validators
  import opened ValidationRunner
  import opened Cleaner
  import opened SampleLoader

  /** How many values of a summed column are present. */
  function PresentCount(recs: seq<Record>, c: Column): (n: nat)
    requires Summed(c)
    ensures n <= |recs|
  {
    if recs == [] then 0
    else (if Value(recs[0].row, c).Some? then 1 else 0) + PresentCount(recs[1..], c)
  }

  /** `series.mean()`: the mean of the present values, `None` (NaN) when there are none. */
  function Mean(recs: seq<Record>, c: Column): (m: Option<real>)
    requires Summed(c)
    ensures m.None? <==> PresentCount(recs, c) == 0
  {
    var n := PresentCount(recs, c);
    if n == 0 then None else Some(Sum(recs, c) / n as real)
  }

  /** The statistics of one chunk: `mean_distance`, `total_tip`, `long_trips`. */
  datatype ChunkStats = ChunkStats(meanDistance: Option<real>, totalTip: real, longTrips: int)

  /** `process_chunk`: clean, then take the distance mean, the tip sum and the long-trip count. */
  function ProcessChunk(chunk: Frame): (r: Result<ChunkStats>)
    ensures r.Err? <==> TripDistance !in CleanData(chunk).columns
    ensures r.Err? ==> r.error == KeyError([TripDistance])
  {
    var cleaned := CleanData(chunk);
    if TripDistance !in cleaned.columns then Err(KeyError([TripDistance]))
    else Ok(ChunkStats(Mean(cleaned.records, TripDistance),
                       Sum(cleaned.records, TipAmount),
                       CountLong(cleaned.records)))
  }

  /** `pool.map(process_chunk, chunks)`: the statistics in chunk order, or the first exception. */
  function ProcessAll(chunks: seq<Frame>): (r: Result<seq<ChunkStats>>)
    ensures r.Ok? ==> |r.value| == |chunks|
  {
    if chunks == [] then Ok([])
    else
      match ProcessAll(chunks[..|chunks| - 1])
      case Err(e) => Err(e)
      case Ok(front) =>
        match ProcessChunk(chunks[|chunks| - 1])
        case Err(e) => Err(e)
        case Ok(s) => Ok(front + [s])
  }

  /** When the map succeeds, its result at position k is chunk k's statistics. */
  lemma {:induction false} ProcessAllAt(chunks: seq<Frame>, k: nat)
    requires ProcessAll(chunks).Ok? && k < |chunks|
    ensures ProcessChunk(chunks[k]) == Ok(ProcessAll(chunks).value[k])
    decreases |chunks|
  {
    var n := |chunks| - 1;
    if k < n {
      var front := chunks[..n];
      ProcessAllAt(front, k);
      assert front[k] == chunks[k];
    }
  }

  /** When chunk k raises, so does the map. */
  lemma {:induction false} ProcessAllFailsAt(chunks: seq<Frame>, k: nat)
    requires k < |chunks| && ProcessChunk(chunks[k]).Err?
    ensures ProcessAll(chunks).Err?
    decreases |chunks|
  {
    var n := |chunks| - 1;
    if k < n {
      var front := chunks[..n];
      assert front[k] == chunks[k];
      ProcessAllFailsAt(front, k);
    }
  }

  /** The map succeeds exactly when every chunk does, and then gives chunk k's statistics at position k. */
  lemma ProcessAllMap(chunks: seq<Frame>)
    ensures ProcessAll(chunks).Ok? <==> forall k :: 0 <= k < |chunks| ==> ProcessChunk(chunks[k]).Ok?
    ensures ProcessAll(chunks).Ok? ==>
      forall k :: 0 <= k < |chunks| ==> ProcessChunk(chunks[k]) == Ok(ProcessAll(chunks).value[k])
  {
    if ProcessAll(chunks).Ok? {
      forall k | 0 <= k < |chunks|
        ensures ProcessChunk(chunks[k]) == Ok(ProcessAll(chunks).value[k])
      {
        ProcessAllAt(chunks, k);
      }
    } else {
      ProcessAllErrorFrom(chunks);
    }
  }

  /** A map that raises has a chunk that raises. */
  lemma {:induction false} ProcessAllErrorFrom(chunks: seq<Frame>)
    requires ProcessAll(chunks).Err?
    ensures exists k :: 0 <= k < |chunks| && ProcessChunk(chunks[k]).Err?
    decreases |chunks|
  {
    var n := |chunks| - 1;
    var front := chunks[..n];
    if ProcessAll(front).Err? {
      ProcessAllErrorFrom(front);
      var k :| 0 <= k < n && ProcessChunk(front[k]).Err?;
      assert front[k] == chunks[k];
    } else {
      assert ProcessChunk(chunks[n]).Err?;
    }
  }

  /** `sum(r['mean_distance'] for r in results)`: NaN as soon as one mean is NaN. */
  function SumMeans(results: seq<ChunkStats>): Option<real>
  {
    if results == [] then Some(0.0)
    else
      match SumMeans(results[1..])
      case None => None
      case Some(rest) =>
        match results[0].meanDistance
        case None => None
        case Some(m) => Some(m + rest)
  }

  function SumTips(results: seq<ChunkStats>): real
  {
    if results == [] then 0.0 else results[0].totalTip + SumTips(results[1..])
  }

  function SumLong(results: seq<ChunkStats>): int
  {
    if results == [] then 0 else results[0].longTrips + SumLong(results[1..])
  }

  /** The global summary: `mean_distance`, `total_tip`, `long_trips`. */
  datatype GlobalStats = GlobalStats(meanDistance: Option<real>, totalTip: real, longTrips: int)

  /** `global_summary`: the unweighted mean of the chunk means, and the two plain sums. */
  function GlobalSummary(results: seq<ChunkStats>): (r: Result<GlobalStats>)
    ensures r.Err? <==> results == []
    ensures r.Err? ==> r.error == ZeroDivision
    ensures r.Ok? ==> (r.value.meanDistance.None? <==> exists k :: 0 <= k < |results| && results[k].meanDistance.None?)
    ensures r.Ok? && r.value.meanDistance.Some? ==>
      SumMeans(results).Some? && r.value.meanDistance.value * |results| as real == SumMeans(results).value
  {
    SumMeansNaN(results);
    if results == [] then Err(ZeroDivision)
    else
      var total := SumMeans(results);
      Ok(GlobalStats(if total.Some? then Some(total.value / |results| as real) else None,
                     SumTips(results), SumLong(results)))
  }

  /** The sum of the means is NaN exactly when one of them is. */
  lemma {:induction false} SumMeansNaN(results: seq<ChunkStats>)
    ensures SumMeans(results).None? <==> exists k :: 0 <= k < |results| && results[k].meanDistance.None?
    decreases |results|
  {
    if results != [] {
      SumMeansNaN(results[1..]);
      if exists k :: 0 <= k < |results[1..]| && results[1..][k].meanDistance.None? {
        var k :| 0 <= k < |results[1..]| && results[1..][k].meanDistance.None?;
        assert results[k + 1] == results[1..][k];
      }
      if exists k :: 0 <= k < |results| && results[k].meanDistance.None? {
        var k :| 0 <= k < |results| && results[k].meanDistance.None?;
        if k > 0 {
          assert results[1..][k - 1] == results[k];
        }
      }
    }
  }

  /** The sum of the frames' mean trip distances, when every frame has a row. */
  function MeansSum(frames: seq<Frame>): real
    requires forall k :: 0 <= k < |frames| ==> frames[k].records != []
  {
    if frames == [] then 0.0
    else Sum(frames[0].records, TripDistance) / |frames[0].records| as real + MeansSum(frames[1..])
  }

  /** Statistics whose means are those of the frames' rows sum to the frames' mean sum. */
  lemma {:induction false} SumMeansOfRows(frames: seq<Frame>, results: seq<ChunkStats>)
    requires |results| == |frames|
    requires forall k :: 0 <= k < |frames| ==> frames[k].records != []
    requires forall k :: 0 <= k < |frames| ==>
      results[k].meanDistance == Some(Sum(frames[k].records, TripDistance) / |frames[k].records| as real)
    ensures SumMeans(results) == Some(MeansSum(frames))
    decreases |frames|
  {
    if frames != [] {
      var rest, restResults := frames[1..], results[1..];
      assert forall k :: 0 <= k < |rest| ==> rest[k] == frames[k + 1] && restResults[k] == results[k + 1];
      SumMeansOfRows(rest, restResults);
    }
  }

  /**
   * The global mean distance is the unweighted mean of the chunks' means: NaN
   * exactly when cleaning leaves some chunk without rows, and otherwise the
   * sum of every cleaned chunk's mean distance divided by the number of chunks.
   */
  lemma GlobalMeanOfChunkMeans(chunks: seq<Frame>)
    requires MultiprocessingResult(chunks).Ok?
    ensures MultiprocessingResult(chunks).value.meanDistance.None?
      <==> exists k :: 0 <= k < |chunks| && CleanData(chunks[k]).records == []
    ensures (forall k :: 0 <= k < |chunks| ==> CleanAll(chunks)[k].records != []) ==>
      MultiprocessingResult(chunks).value.meanDistance == Some(MeansSum(CleanAll(chunks)) / |chunks| as real)
  {
    var results := ProcessAll(chunks).value;
    var cleaned := CleanAll(chunks);
    ProcessAllMap(chunks);
    forall k | 0 <= k < |chunks|
      ensures results[k].meanDistance.None? <==> cleaned[k].records == []
      ensures cleaned[k].records != [] ==>
        results[k].meanDistance == Some(Sum(cleaned[k].records, TripDistance) / |cleaned[k].records| as real)
    {
      ProcessedMean(chunks[k]);
    }
    if forall k :: 0 <= k < |chunks| ==> cleaned[k].records != [] {
      SumMeansOfRows(cleaned, results);
    }
  }

  /** What `run_multiprocessing` computes for the chunks, or the exception it raises. */
  function MultiprocessingResult(chunks: seq<Frame>): Result<GlobalStats>
  {
    match ProcessAll(chunks)
    case Err(e) => Err(e)
    case Ok(results) => GlobalSummary(results)
  }

  /**
   * Calling `stream_parquet` with the batch size under the keyword `keyword`:
   * the batches, in order, when the keyword is its parameter `batch_size`,
   * and otherwise the TypeError Python raises when binding the arguments.
   */
  function StreamParquet(batches: seq<Frame>, keyword: string): (r: Result<seq<Frame>>)
    ensures r.Ok? <==> keyword == "batch_size"
    ensures r.Ok? ==> r.value == batches
  {
    if keyword == "batch_size" then Ok(batches) else Err(UnexpectedKeyword(keyword))
  }

  /** `run_multiprocessing` as written: the size is passed to `stream_parquet` as `chunksize`. */
  function MultiprocessingAsWritten(batches: seq<Frame>): Result<GlobalStats>
  {
    match StreamParquet(batches, "chunksize")
    case Err(e) => Err(e)
    case Ok(chunks) => MultiprocessingResult(chunks)
  }

  /** As written, every call raises TypeError, whatever the file holds. */
  lemma AsWrittenAlwaysRaises(batches: seq<Frame>)
    ensures MultiprocessingAsWritten(batches) == Err(UnexpectedKeyword("chunksize"))
    ensures MultiprocessingAsWritten(batches) != MultiprocessingResult(batches)
  {
    assert "chunksize" != "batch_size" by {
      assert |"chunksize"| == 9 && |"batch_size"| == 10;
    }
    match MultiprocessingResult(batches)
    case Ok(_) =>
    case Err(e) => assert e != UnexpectedKeyword("chunksize") by { ResultErrors(batches); }
  }

  /** The only exceptions the corrected run raises are the KeyError of an emptied chunk and the division by zero. */
  lemma ResultErrors(chunks: seq<Frame>)
    requires MultiprocessingResult(chunks).Err?
    ensures MultiprocessingResult(chunks).error in {KeyError([TripDistance]), ZeroDivision}
  {
    if ProcessAll(chunks).Err? {
      ProcessAllErrors(chunks);
    }
  }

  /** The map raises only the KeyError of a chunk that cleaned to the empty frame. */
  lemma {:induction false} ProcessAllErrors(chunks: seq<Frame>)
    requires ProcessAll(chunks).Err?
    ensures ProcessAll(chunks).error == KeyError([TripDistance])
    decreases |chunks|
  {
    if ProcessAll(chunks[..|chunks| - 1]).Err? {
      ProcessAllErrors(chunks[..|chunks| - 1]);
    }
  }

  /**
   * `run_multiprocessing` with the size passed as `batch_size`, without the
   * printing and the file write: the batches' statistics combined, whose tip
   * total and long-trip count are those of every cleaned row, and whose mean
   * distance is the mean of the cleaned batches' mean distances.
   */
  method RunMultiprocessing(batches: seq<Frame>) returns (r: Result<GlobalStats>)
    ensures r == MultiprocessingResult(batches)
    ensures r.Ok? ==> r.value.totalTip == Sum(Flatten(CleanAll(batches)), TipAmount)
    ensures r.Ok? ==> r.value.longTrips == CountLong(Flatten(CleanAll(batches)))
    ensures r.Ok? ==> (r.value.meanDistance.None? <==> exists k :: 0 <= k < |batches| && CleanAll(batches)[k].records == [])
    ensures r.Ok? && r.value.meanDistance.Some? ==> r.value.meanDistance.value == MeansSum(CleanAll(batches)) / |batches| as real
  {
    var streamed := StreamParquet(batches, "batch_size");
    var chunks := streamed.value;
    var results := ProcessAll(chunks);
    if results.Err? {
      return Err(results.error);
    }
    r := GlobalSummary(results.value);
    if r.Ok? {
      GlobalTotals(chunks);
      GlobalMeanOfChunkMeans(chunks);
    }
  }

  /** Once a chunk has raised, the map raises. */
  lemma {:induction false} ProcessAllFailSticks(chunks: seq<Frame>, i: nat)
    requires i <= |chunks| && ProcessAll(chunks[..i]).Err?
    ensures ProcessAll(chunks).Err?
    decreases |chunks| - i
  {
    if i < |chunks| {
      assert chunks[..i + 1][..i] == chunks[..i];
      ProcessAllFailSticks(chunks, i + 1);
    } else {
      assert chunks[..i] == chunks;
    }
  }

  /** A chunk raises exactly when it lacks a required column, so cleaning empties it. */
  lemma ProcessChunkFails(chunk: Frame)
    ensures ProcessChunk(chunk).Err? <==> exists c :: c in RequiredColumns && c !in chunk.columns
  {
    if forall c :: c in RequiredColumns ==> c in chunk.columns {
      assert TripDistance in RequiredColumns;
    }
  }

  /** In a cleaned chunk every distance is present, so its mean is NaN only when no row is left. */
  lemma {:induction false} CleanedDistancesPresent(recs: seq<Record>, cols: set<Column>)
    requires forall i :: 0 <= i < |recs| ==> PassesAll(ChunkRules, cols, recs[i].row)
    ensures PresentCount(recs, TripDistance) == |recs|
    decreases |recs|
  {
    if recs != [] {
      PassesChunkRules(cols, recs[0].row);
      CleanedDistancesPresent(recs[1..], cols);
    }
  }

  /** A processed chunk's mean is NaN exactly when cleaning left no row, and otherwise is the distance sum over the rows. */
  lemma ProcessedMean(chunk: Frame)
    requires ProcessChunk(chunk).Ok?
    ensures var cleaned := CleanData(chunk).records;
      && (ProcessChunk(chunk).value.meanDistance.None? <==> cleaned == [])
      && (cleaned != [] ==> ProcessChunk(chunk).value.meanDistance == Some(Sum(cleaned, TripDistance) / |cleaned| as real))
  {
    var cleaned := CleanData(chunk);
    CleanDataMeaning(chunk);
    CleanedDistancesPresent(cleaned.records, cleaned.columns);
  }

  lemma {:induction false} SumTipsConcat(a: seq<ChunkStats>, b: seq<ChunkStats>)
    ensures SumTips(a + b) == SumTips(a) + SumTips(b)
    decreases |a|
  {
    if a == [] {
      assert a + b == b;
    } else {
      assert (a + b)[1..] == a[1..] + b;
      SumTipsConcat(a[1..], b);
    }
  }

  lemma {:induction false} SumLongConcat(a: seq<ChunkStats>, b: seq<ChunkStats>)
    ensures SumLong(a + b) == SumLong(a) + SumLong(b)
    decreases |a|
  {
    if a == [] {
      assert a + b == b;
    } else {
      assert (a + b)[1..] == a[1..] + b;
      SumLongConcat(a[1..], b);
    }
  }

  /**
   * When no chunk raises, the global tip total and long-trip count are those
   * of all the cleaned rows together.
   */
  lemma {:induction false} ProcessAllTotals(chunks: seq<Frame>)
    requires ProcessAll(chunks).Ok?
    ensures SumTips(ProcessAll(chunks).value) == Sum(Flatten(CleanAll(chunks)), TipAmount)
    ensures SumLong(ProcessAll(chunks).value) == CountLong(Flatten(CleanAll(chunks)))
    decreases |chunks|
  {
    if chunks != [] {
      var n := |chunks| - 1;
      var front, last := chunks[..n], chunks[n];
      ProcessAllTotals(front);
      var cleaned := CleanData(last);
      var done, stats, rows := ProcessAll(front).value, ProcessChunk(last).value, Flatten(CleanAll(front));
      assert ProcessAll(chunks).value == done + [stats];
      assert Flatten(CleanAll(chunks)) == rows + cleaned.records by {
        CleanAllLast(chunks);
        FlattenConcat(CleanAll(front), [cleaned]);
        assert Flatten([cleaned]) == cleaned.records;
      }
      TipsStep(done, stats, rows, cleaned.records);
      LongStep(done, stats, rows, cleaned.records);
    }
  }

  /** Cleaning a non-empty sequence of chunks: the cleaned front, then the cleaned last chunk. */
  lemma CleanAllLast(chunks: seq<Frame>)
    requires chunks != []
    ensures CleanAll(chunks) == CleanAll(chunks[..|chunks| - 1]) + [CleanData(chunks[|chunks| - 1])]
  {
  }

  /** Adding one chunk's statistics adds its rows' tips to the tip total. */
  lemma TipsStep(done: seq<ChunkStats>, stats: ChunkStats, rows: seq<Record>, extra: seq<Record>)
    requires SumTips(done) == Sum(rows, TipAmount)
    requires stats.totalTip == Sum(extra, TipAmount)
    ensures SumTips(done + [stats]) == Sum(rows + extra, TipAmount)
  {
    SumTipsConcat(done, [stats]);
    SumConcat(rows, extra, TipAmount);
  }

  /** Adding one chunk's statistics adds its rows' long trips to the count. */
  lemma LongStep(done: seq<ChunkStats>, stats: ChunkStats, rows: seq<Record>, extra: seq<Record>)
    requires SumLong(done) == CountLong(rows)
    requires stats.longTrips == CountLong(extra)
    ensures SumLong(done + [stats]) == CountLong(rows + extra)
  {
    SumLongConcat(done, [stats]);
    CountLongConcat(rows, extra);
  }

  /** The global tip total and long-trip count are those of every cleaned row. */
  lemma GlobalTotals(chunks: seq<Frame>)
    requires MultiprocessingResult(chunks).Ok?
    ensures MultiprocessingResult(chunks).value.totalTip == Sum(Flatten(CleanAll(chunks)), TipAmount)
    ensures MultiprocessingResult(chunks).value.longTrips == CountLong(Flatten(CleanAll(chunks)))
  {
    ProcessAllTotals(chunks);
  }

  /** With no chunks the division by `len(results)` raises. */
  lemma NoChunksRaise()
    ensures MultiprocessingResult([]) == Err(ZeroDivision)
  {
  }

  /** A chunk of one clean 2.5-mile trip, and one of two clean trips of 1 and 2 miles. */
  const OneTrip: Frame := Frame(RequiredSet, [Record(0, Trip(Jan1 + 10 * Hour, Jan1 + 10 * Hour + 1800, 1.0, 2.5, 12.0, 3.0, 15.0))])
  const TwoTrips: Frame := Frame(RequiredSet, [Record(0, Trip(Jan1, Jan1 + Hour, 1.0, 1.0, 10.0, 1.5, 15.0)),
                                               Record(1, Trip(Jan1 + 24 * Hour, Jan1 + 25 * Hour, 2.0, 2.0, 20.0, 2.0, 25.0))])

  lemma TwoTripsCleaned()
    ensures CleanData(TwoTrips) == TwoTrips
  {
    CleanTripsKept();
  }

  lemma TwoTripsSums()
    ensures Sum(TwoTrips.records, TripDistance) == 3.0 && PresentCount(TwoTrips.records, TripDistance) == 2
    ensures Sum(TwoTrips.records, TipAmount) == 3.5 && CountLong(TwoTrips.records) == 0
  {
    var recs := TwoTrips.records;
    assert recs[1..][1..] == [];
    assert Sum(recs[1..], TripDistance) == 2.0;
    assert PresentCount(recs[1..], TripDistance) == 1;
    assert Sum(recs[1..], TipAmount) == 2.0;
    assert CountLong(recs[1..]) == 0;
  }

  lemma TwoTripsStats()
    ensures ProcessChunk(TwoTrips) == Ok(ChunkStats(Some(1.5), 3.5, 0))
  {
    TwoTripsCleaned();
    TwoTripsSums();
  }

  lemma OneTripCleaned()
    ensures CleanData(OneTrip) == OneTrip
  {
    ValidTripPasses();
  }

  lemma OneTripStats()
    ensures ProcessChunk(OneTrip) == Ok(ChunkStats(Some(2.5), 3.0, 0))
  {
    OneTripCleaned();
    var recs := OneTrip.records;
    assert recs[1..] == [];
    assert Sum(recs, TripDistance) == 2.5 && PresentCount(recs, TripDistance) == 1;
    assert Sum(recs, TipAmount) == 3.0 && CountLong(recs) == 0;
  }

  /** The map over both chunks gives their statistics in order. */
  lemma BothChunksProcessed()
    ensures ProcessAll([OneTrip, TwoTrips]) == Ok([ChunkStats(Some(2.5), 3.0, 0), ChunkStats(Some(1.5), 3.5, 0)])
  {
    OneTripStats();
    TwoTripsStats();
    TwoChunksProcessed(OneTrip, TwoTrips);
  }

  lemma TwoChunksProcessed(a: Frame, b: Frame)
    requires ProcessChunk(a).Ok? && ProcessChunk(b).Ok?
    ensures ProcessAll([a, b]) == Ok([ProcessChunk(a).value, ProcessChunk(b).value])
  {
    var sa, sb := ProcessChunk(a).value, ProcessChunk(b).value;
    assert [a, b][..1] == [a] && [a][..0] == [];
    assert ProcessAll([a]) == Ok([] + [sa]);
    assert [] + [sa] == [sa] && [sa] + [sb] == [sa, sb];
  }

  /**
   * The global mean is the mean of the chunk means, not of the rows: the
   * three trips of 2.5, 1 and 2 miles give 2, while their mean is 5.5 / 3.
   */
  lemma MeanOfMeansNotRowMean()
    ensures MultiprocessingResult([OneTrip, TwoTrips]) == Ok(GlobalStats(Some(2.0), 6.5, 0))
    ensures 2.0 != (2.5 + 1.0 + 2.0) / 3.0
  {
    var results := [ChunkStats(Some(2.5), 3.0, 0), ChunkStats(Some(1.5), 3.5, 0)];
    BothChunksProcessed();
    GlobalOfTwo(results);
  }

  lemma GlobalOfTwo(results: seq<ChunkStats>)
    requires results == [ChunkStats(Some(2.5), 3.0, 0), ChunkStats(Some(1.5), 3.5, 0)]
    ensures GlobalSummary(results) == Ok(GlobalStats(Some(2.0), 6.5, 0))
  {
    var last := results[1..];
    assert last == [ChunkStats(Some(1.5), 3.5, 0)] && last[1..] == [];
    assert SumMeans(last) == Some(1.5) && SumTips(last) == 3.5 && SumLong(last) == 0;
    assert SumMeans(results) == Some(4.0);
    assert SumTips(results) == 6.5;
    assert SumLong(results) == 0;
  }
}
