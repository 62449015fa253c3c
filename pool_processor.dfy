/**
 * core/pool_processor.py: every chunk the loader yields is analysed (the
 * process pool is modelled as an in-order map), the results are totalled into
 * the eight-entry summary, and the chunks are concatenated again for the
 * per-vendor and anomaly reports.  Any exception makes the whole analysis
 * return `{}`, modelled as `None`.
 */
module PoolProcessor {
  import opened Sequences
  import opened Frames
  import opened Loader
  import opened Aggregates

  /** `REQUIRED_COLUMNS` of the pool analysis. */
  const PoolRequired: seq<Column> := [PassengerCount, TripDistance, TipAmount, TotalAmount, VendorId]

  predicate HasPoolColumns(cols: set<Column>)
  {
    forall c :: c in PoolRequired ==> c in cols
  }

  /** `analyze_chunk`: the chunk's totals, or all zeros when one of the five columns is absent. */
  function AnalyzeChunk(df: Frame): (t: Totals)
    ensures !HasPoolColumns(df.columns) ==> t == ZeroTotals
    ensures HasPoolColumns(df.columns) ==>
      && t.rows == |df.records| && 0 <= t.longTrips <= t.rows
      && t == RowTotals(df.records)
  {
    if HasPoolColumns(df.columns) then RowTotals(df.records) else ZeroTotals
  }

  /** `pool.map(analyze_chunk, chunks)`: one result per chunk, in chunk order. */
  function AnalyzeAll(chunks: seq<Frame>): (results: seq<Totals>)
    ensures |results| == |chunks|
    ensures forall k :: 0 <= k < |chunks| ==> results[k] == AnalyzeChunk(chunks[k])
  {
    seq(|chunks|, k requires 0 <= k < |chunks| => AnalyzeChunk(chunks[k]))
  }

  /** `aggregate_results`: the field-by-field fold over the results, then the summary. */
  method AggregateResults(results: seq<Totals>) returns (summary: Summary)
    ensures summary == PoolSummary(TotalOf(results))
  {
    var total := ZeroTotals;
    var i := 0;
    while i < |results|
      invariant 0 <= i <= |results|
      invariant total == TotalOf(results[..i])
    {
      assert results[..i + 1][..i] == results[..i];
      total := Add(total, results[i]);
      i := i + 1;
    }
    assert results[..i] == results;
    summary := PoolSummary(total);
  }

  /** `tip_amount > total_amount`, false when either is missing. */
  predicate IsAnomaly(r: Row)
  {
    r.tip.Some? && r.total.Some? && r.tip.value > r.total.value
  }

  /** `df[df["tip_amount"] > df["total_amount"]]`: the anomalous records, in order. */
  function Anomalies(recs: seq<Record>): (a: seq<Record>)
    ensures |a| <= |recs|
    ensures forall x :: x in a <==> x in recs && IsAnomaly(x.row)
  {
    if recs == [] then []
    else if IsAnomaly(recs[0].row) then [recs[0]] + Anomalies(recs[1..])
    else Anomalies(recs[1..])
  }

  /** What the anomaly report writes: skipped, or the count and the rows listed. */
  datatype AnomalyReport = AnomaliesSkipped | AnomaliesFound(count: nat, listed: seq<Record>)

  /** How many anomalous rows the report lists at most (`head(10)`). */
  const ListedAnomalies: nat := 10

  /** `save_anomalies_report`, without the file write. */
  function AnomaliesReport(df: Frame): (r: Result<AnomalyReport>)
    ensures (TipAmount !in df.columns || TotalAmount !in df.columns) ==> r == Ok(AnomaliesSkipped)
    ensures r.Err? <==>
      && TipAmount in df.columns && TotalAmount in df.columns
      && Anomalies(df.records) != []
      && (VendorId !in df.columns || FareAmount !in df.columns)
    ensures r.Ok? && r.value.AnomaliesFound? ==>
      && r.value.count == |Anomalies(df.records)|
      && |r.value.listed| == Min(ListedAnomalies, r.value.count)
      && r.value.listed == Anomalies(df.records)[..|r.value.listed|]
  {
    if TipAmount !in df.columns || TotalAmount !in df.columns then Ok(AnomaliesSkipped)
    else
      var a := Anomalies(df.records);
      if a == [] then Ok(AnomaliesFound(0, []))
      else if VendorId !in df.columns || FareAmount !in df.columns then
        Err(KeyError(MissingFrom([VendorId, FareAmount], df.columns)))
      else Ok(AnomaliesFound(|a|, a[..Min(ListedAnomalies, |a|)]))
  }

  /** `save_summary_by_vendor`: skipped without VendorID, or one group per vendor present. */
  datatype VendorReport = VendorSkipped | VendorGroups(vendors: set<int>)

  /** The vendors of the records, missing ones dropped as `groupby` does. */
  function Vendors(recs: seq<Record>): (vs: set<int>)
    ensures forall v :: v in vs <==> exists i :: 0 <= i < |recs| && recs[i].row.vendor == Some(v)
  {
    set i | 0 <= i < |recs| && recs[i].row.vendor.Some? :: recs[i].row.vendor.value
  }

  /** `save_summary_by_vendor`, without the means and maxima and the file write. */
  function SummaryByVendor(df: Frame): (r: Result<VendorReport>)
    ensures VendorId !in df.columns ==> r == Ok(VendorSkipped)
    ensures r.Err? <==>
      VendorId in df.columns && (FareAmount !in df.columns || TipAmount !in df.columns || TripDistance !in df.columns)
  {
    if VendorId !in df.columns then Ok(VendorSkipped)
    else
      var missing := MissingFrom([FareAmount, TipAmount, TripDistance], df.columns);
      NoneMissing([FareAmount, TipAmount, TripDistance], df.columns);
      if missing != [] then Err(KeyError(missing))
      else Ok(VendorGroups(Vendors(df.records)))
  }

  /** What `parallel_analysis` returns for the chunks the loader yields. */
  function PoolAnalysis(chunks: seq<Frame>): Option<Summary>
  {
    if chunks == [] then None                                    // pd.concat([]) raises
    else
      var full := ConcatFrames(chunks);
      if SummaryByVendor(full).Err? || AnomaliesReport(full).Err? then None
      else Some(PoolSummary(TotalOf(AnalyzeAll(chunks))))
  }

  /** `parallel_analysis`: load, analyse each chunk, total, then concatenate for the reports. */
  method ParallelAnalysis(read: Option<Frame>, chunksize: int) returns (summary: Option<Summary>)
    ensures summary == PoolAnalysis(LoadedChunks(read, chunksize))
  {
    var chunks := LoadParquetInChunks(read, chunksize);
    var results := AnalyzeAll(chunks);
    var s := AggregateResults(results);
    if chunks == [] {
      return None;
    }
    var full := ConcatFrames(chunks);
    var vendors := SummaryByVendor(full);
    if vendors.Err? {
      return None;
    }
    var anomalies := AnomaliesReport(full);
    if anomalies.Err? {
      return None;
    }
    summary := Some(s);
  }

  /** With the five columns present, the total is the analysis of all the chunks' records together. */
  lemma AnalyzeAllTotal(chunks: seq<Frame>)
    requires forall k :: 0 <= k < |chunks| ==> HasPoolColumns(chunks[k].columns)
    ensures TotalOf(AnalyzeAll(chunks)) == RowTotals(Flatten(chunks))
  {
    assert AnalyzeAll(chunks) == ChunkTotals(chunks);
    TotalOfChunks(chunks);
  }

  /** Without one of the five columns in any chunk, every result is zero and so is the total. */
  lemma AnalyzeAllZero(chunks: seq<Frame>, cols: set<Column>)
    requires !HasPoolColumns(cols)
    requires forall k :: 0 <= k < |chunks| ==> chunks[k].columns == cols
    ensures TotalOf(AnalyzeAll(chunks)) == ZeroTotals
  {
    var rs := AnalyzeAll(chunks);
    forall t | t in rs
      ensures t == ZeroTotals
    {
      var k :| 0 <= k < |rs| && rs[k] == t;
    }
    TotalOfZeros(rs);
  }

  /** The chunks of one table all have its columns, so their union is its columns. */
  lemma {:induction false} UnionOfSameColumns(frames: seq<Frame>, cols: set<Column>)
    requires frames != []
    requires forall k :: 0 <= k < |frames| ==> frames[k].columns == cols
    ensures UnionColumns(frames) == cols
    decreases |frames|
  {
    if |frames| > 1 {
      UnionOfSameColumns(frames[1..], cols);
    } else {
      assert frames[1..] == [];
    }
  }

  /** The loader's chunks of a table have its columns, and concatenated again they are the table. */
  lemma LoadedChunksRejoin(f: Frame, chunksize: int)
    requires chunksize > 0 && |f.records| > 0
    ensures LoadedChunks(Some(f), chunksize) != []
    ensures forall k :: 0 <= k < |LoadedChunks(Some(f), chunksize)| ==> LoadedChunks(Some(f), chunksize)[k].columns == f.columns
    ensures ConcatFrames(LoadedChunks(Some(f), chunksize)) == ConcatFrames([f])
  {
    var chunks := LoadedChunks(Some(f), chunksize);
    LoadedChunksShape(Some(f), chunksize);
    forall k | 0 <= k < |chunks|
      ensures chunks[k].columns == f.columns
    {
      LoadedChunkSizes(Some(f), chunksize, k);
    }
    UnionOfSameColumns(chunks, f.columns);
    assert [f][1..] == [];
    assert Flatten([f]) == f.records;
    UnionOfSameColumns([f], f.columns);
  }

  /**
   * The summary does not depend on `chunksize`: whatever positive size the
   * table is cut into, the result is that of analysing the table as one chunk.
   */
  lemma ChunkingInvariance(f: Frame, chunksize: int)
    requires chunksize > 0 && |f.records| > 0
    ensures PoolAnalysis(LoadedChunks(Some(f), chunksize)) == PoolAnalysis([f])
  {
    var chunks := LoadedChunks(Some(f), chunksize);
    LoadedChunksRejoin(f, chunksize);
    ChunkTotalsInvariant(f, chunksize);
    var full := ConcatFrames(chunks);
    assert full == ConcatFrames([f]);
    assert TotalOf(AnalyzeAll(chunks)) == TotalOf(AnalyzeAll([f]));
  }

  /** The total of the chunk results is that of the table analysed as one chunk. */
  lemma ChunkTotalsInvariant(f: Frame, chunksize: int)
    requires chunksize > 0 && |f.records| > 0
    ensures TotalOf(AnalyzeAll(LoadedChunks(Some(f), chunksize))) == TotalOf(AnalyzeAll([f]))
  {
    var chunks := LoadedChunks(Some(f), chunksize);
    LoadedChunksRejoin(f, chunksize);
    if HasPoolColumns(f.columns) {
      AnalyzeAllTotal(chunks);
      AnalyzeAllTotal([f]);
      LoadedChunksShape(Some(f), chunksize);
      assert [f][1..] == [];
      assert Flatten([f]) == f.records;
    } else {
      AnalyzeAllZero(chunks, f.columns);
      AnalyzeAllZero([f], f.columns);
    }
  }

  /** With the columns present and the reports succeeding, the summary is that of the whole table. */
  lemma WholeTableSummary(f: Frame, chunksize: int)
    requires chunksize > 0 && |f.records| > 0 && HasPoolColumns(f.columns)
    requires PoolAnalysis(LoadedChunks(Some(f), chunksize)).Some?
    ensures PoolAnalysis(LoadedChunks(Some(f), chunksize)) == Some(PoolSummary(RowTotals(f.records)))
  {
    ChunkingInvariance(f, chunksize);
    AnalyzeAllTotal([f]);
    assert [f][1..] == [];
    assert Flatten([f]) == f.records;
  }

  /** A failed read, and so an invalid path, gives `{}`. */
  lemma FailedReadNoSummary(chunksize: int)
    ensures PoolAnalysis(LoadedChunks(None, chunksize)) == None
  {
  }

  /** With no rows analysed every mean is the integer 0, so totalling no results does not fail. */
  lemma NoResultsZeroSummary()
    ensures PoolSummary(TotalOf([])) == Entries([Count(0), Count(0), Count(0), Amount(0.0),
                                                 Count(0), Count(0), Count(0), Count(0)])
  {
    var s := PoolSummary(TotalOf([]));
    assert Trunc(0.0) == 0;
  }

  /** A table without VendorID yields the all-zero summary, even though every row has the other columns. */
  lemma NoVendorColumnCountsNothing(f: Frame, chunksize: int)
    requires chunksize > 0 && |f.records| > 0 && VendorId !in f.columns
    requires PoolAnalysis(LoadedChunks(Some(f), chunksize)).Some?
    ensures PoolAnalysis(LoadedChunks(Some(f), chunksize)) == Some(PoolSummary(ZeroTotals))
  {
    ChunkingInvariance(f, chunksize);
    AnalyzeAllZero([f], f.columns);
  }

  /** One trip whose tip exceeds its total, one ordinary trip. */
  const OddTrip: Row := Row(Some(0), Some(600), Some(1.0), Some(2.0), Some(5.0), Some(9.0), Some(7.0), Some(1), [])
  const PlainTrip: Row := Row(Some(0), Some(900), Some(2.0), Some(12.0), Some(30.0), Some(3.0), Some(35.0), Some(2), [])

  const AllColumns: set<Column> :=
    {PassengerCount, TripDistance, TipAmount, TotalAmount, FareAmount, PickupTime, DropoffTime, VendorId}

  /** The report counts the one anomalous trip and lists it. */
  lemma OneAnomalyReported()
    ensures AnomaliesReport(Frame(AllColumns, [Record(0, OddTrip), Record(1, PlainTrip)]))
         == Ok(AnomaliesFound(1, [Record(0, OddTrip)]))
  {
    var recs := [Record(0, OddTrip), Record(1, PlainTrip)];
    assert recs[1..][1..] == [];
    assert Anomalies(recs[1..]) == [];
    assert Anomalies(recs) == [Record(0, OddTrip)];
  }

  /** Without a fare column, the same anomaly makes the report raise KeyError. */
  lemma AnomalyWithoutFareRaises()
    ensures AnomaliesReport(Frame(AllColumns - {FareAmount}, [Record(0, OddTrip)])).Err?
  {
    var recs := [Record(0, OddTrip)];
    assert recs[1..] == [];
    assert Anomalies(recs) == recs;
  }

  /** The two trips analysed as one chunk: 2 rows, 14 miles, 12 in tips, one long trip. */
  lemma TwoTripsAnalysed()
    ensures AnalyzeChunk(Frame(AllColumns, [Record(0, OddTrip), Record(1, PlainTrip)]))
         == Totals(2, 14.0, 12.0, 42.0, 3.0, 1)
  {
    var recs := [Record(0, OddTrip), Record(1, PlainTrip)];
    assert recs[1..][1..] == [];
    assert Sum(recs[1..], TripDistance) == 12.0;
    assert Sum(recs[1..], TipAmount) == 3.0;
    assert Sum(recs[1..], TotalAmount) == 35.0;
    assert Sum(recs[1..], PassengerCount) == 2.0;
    assert CountLong(recs[1..]) == 1;
  }
}
