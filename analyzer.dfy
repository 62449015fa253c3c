/**
 * core/analyzer.py: two analyses of a whole table, chunk by chunk.
 * `parallel_analysis` analyses the raw chunks; `streaming_global_analysis`
 * validates each chunk with `run_all_validations` first, and a chunk that
 * fails validation aborts the run.  Both fold the chunk results into one
 * total and build the eight-entry summary; any exception gives `{}`,
 * modelled as `None`.
 *
 * Only the mean fare is guarded against a zero row count.  The other three
 * means divide `total[...]` by `total["rows"]` directly.  Those totals stay
 * Python numbers while no chunk has been analysed successfully, and then the
 * division by zero raises.  Once a chunk result has been added they are
 * pandas (NumPy) scalars, and dividing them by zero gives NaN instead.
 */
module Analyzer {
  import opened Frames
  import opened Loader
  import opened Aggregates
  import opened ValidationRunner
  import opened Cleaner
  import opened SampleLoader

  /** The columns `analyze_chunk` reads, in the order it reads them. */
  const AnalysedColumns: seq<Column> := [TripDistance, TipAmount, TotalAmount, PassengerCount]

  predicate HasAnalysedColumns(cols: set<Column>)
  {
    forall c :: c in AnalysedColumns ==> c in cols
  }

  /**
   * `analyze_chunk`: `Some` of the chunk's totals, or `None` when indexing a
   * column raises and the function returns its all-zero record instead.
   */
  function AnalyzeChunk(df: Frame): (r: Option<Totals>)
    ensures r.None? <==> exists c :: c in AnalysedColumns && c !in df.columns
    ensures r.Some? ==> r.value.rows == |df.records| && r.value == RowTotals(df.records)
  {
    if HasAnalysedColumns(df.columns) then Some(RowTotals(df.records)) else None
  }

  /** What a result adds to the running total: the all-zero record for a failed analysis. */
  function Contribution(r: Option<Totals>): Totals
  {
    match r
    case Some(t) => t
    case None => ZeroTotals
  }

  /** The results of `pool.map(analyze_chunk, ...)`, in chunk order. */
  function AnalyzeAll(chunks: seq<Frame>): (results: seq<Option<Totals>>)
    ensures |results| == |chunks|
    ensures forall k :: 0 <= k < |chunks| ==> results[k] == AnalyzeChunk(chunks[k])
  {
    seq(|chunks|, k requires 0 <= k < |chunks| => AnalyzeChunk(chunks[k]))
  }

  function Contributions(results: seq<Option<Totals>>): (ts: seq<Totals>)
    ensures |ts| == |results|
    ensures forall k :: 0 <= k < |results| ==> ts[k] == Contribution(results[k])
  {
    seq(|results|, k requires 0 <= k < |results| => Contribution(results[k]))
  }

  /** A mean divided without a guard: NaN for pandas totals over no rows. */
  function UnguardedMean(sum: real, rows: int): Metric
  {
    if rows != 0 then Amount(sum / rows as real) else NotANumber
  }

  /**
   * The summary both analyses build from the total, or `None` when the first
   * division raises.  `numeric` says whether some chunk result was added.
   */
  function AnalyzerSummary(t: Totals, numeric: bool): Option<Summary>
  {
    if t.rows == 0 && !numeric then None
    else
      Some(Entries([Count(t.rows),
                    UnguardedMean(t.distance, t.rows),
                    UnguardedMean(t.tip, t.rows),
                    Amount(t.amount),
                    if t.rows > 0 then Amount(t.amount / t.rows as real) else Count(0),
                    Count(Trunc(t.passengers)),
                    UnguardedMean(t.passengers, t.rows),
                    Count(t.longTrips)]))
  }

  /**
   * The summary fails exactly when no row and no chunk result was added; it
   * has the same eight keys as the pool summary and, with rows, the same
   * values; with pandas totals over no rows, three means are NaN and the
   * guarded fare mean is 0.
   */
  lemma AnalyzerSummaryShape(t: Totals, numeric: bool)
    ensures AnalyzerSummary(t, numeric).None? <==> t.rows == 0 && !numeric
    ensures AnalyzerSummary(t, numeric).Some? ==> Keys(AnalyzerSummary(t, numeric).value) == SummaryKeys
    ensures t.rows > 0 ==> AnalyzerSummary(t, numeric) == Some(PoolSummary(t))
    ensures t.rows == 0 && numeric ==>
      && AnalyzerSummary(t, numeric).Some?
      && AnalyzerSummary(t, numeric).value[0].1 == Count(0)
      && AnalyzerSummary(t, numeric).value[1].1 == NotANumber
      && AnalyzerSummary(t, numeric).value[2].1 == NotANumber
      && AnalyzerSummary(t, numeric).value[4].1 == Count(0)
      && AnalyzerSummary(t, numeric).value[6].1 == NotANumber
  {
  }

  /** Whether some chunk was analysed without error. */
  predicate AnyAnalysed(results: seq<Option<Totals>>)
  {
    exists k :: 0 <= k < |results| && results[k].Some?
  }

  lemma AnyAnalysedSnoc(results: seq<Option<Totals>>, i: nat)
    requires i < |results|
    ensures AnyAnalysed(results[..i + 1]) <==> AnyAnalysed(results[..i]) || results[i].Some?
  {
    var longer := results[..i + 1];
    assert longer[i] == results[i];
    if AnyAnalysed(results[..i]) {
      var k :| 0 <= k < i && results[..i][k].Some?;
      assert longer[k] == results[..i][k];
    }
    if AnyAnalysed(longer) {
      var k :| 0 <= k < i + 1 && longer[k].Some?;
      if k < i {
        assert results[..i][k] == longer[k];
      }
    }
  }

  /** What `parallel_analysis` returns for the chunks the loader yields. */
  function ParallelResult(chunks: seq<Frame>): Option<Summary>
  {
    var results := AnalyzeAll(chunks);
    AnalyzerSummary(TotalOf(Contributions(results)), AnyAnalysed(results))
  }

  /** `parallel_analysis`: analyse every chunk, fold the results into `total`, summarise. */
  method ParallelAnalysis(read: Option<Frame>, chunksize: int) returns (summary: Option<Summary>)
    ensures summary == ParallelResult(LoadedChunks(read, chunksize))
  {
    var chunks := LoadParquetInChunks(read, chunksize);
    var results := AnalyzeAll(chunks);
    var total := ZeroTotals;
    var numeric := false;
    var i := 0;
    while i < |results|
      invariant 0 <= i <= |results|
      invariant total == TotalOf(Contributions(results[..i]))
      invariant numeric == AnyAnalysed(results[..i])
    {
      assert Contributions(results[..i + 1])[..i] == Contributions(results[..i]);
      AnyAnalysedSnoc(results, i);
      total := Add(total, Contribution(results[i]));
      numeric := numeric || results[i].Some?;
      i := i + 1;
    }
    assert results[..i] == results;
    summary := AnalyzerSummary(total, numeric);
  }

  /** The outcome of `run_all_validations` on every chunk, in order. */
  function ValidateAll(chunks: seq<Frame>): (outcomes: seq<Result<Frame>>)
    ensures |outcomes| == |chunks|
    ensures forall k :: 0 <= k < |chunks| ==> outcomes[k] == Validated(chunks[k])
  {
    seq(|chunks|, k requires 0 <= k < |chunks| => Validated(chunks[k]))
  }

  /**
   * The running total of `streaming_global_analysis` after the given
   * validation outcomes, or the error of the first failed one.
   */
  function StreamTotals(outcomes: seq<Result<Frame>>): Result<Totals>
  {
    if outcomes == [] then Ok(ZeroTotals)
    else
      match StreamTotals(outcomes[..|outcomes| - 1])
      case Err(e) => Err(e)
      case Ok(t) =>
        match outcomes[|outcomes| - 1]
        case Err(e) => Err(e)
        case Ok(v) => Ok(Add(t, Contribution(AnalyzeChunk(v))))
  }

  /** What `streaming_global_analysis` returns for the chunks the loader yields. */
  function StreamingResult(chunks: seq<Frame>): Option<Summary>
  {
    match StreamTotals(ValidateAll(chunks))
    case Err(_) => None
    case Ok(t) => AnalyzerSummary(t, chunks != [])
  }

  /** `streaming_global_analysis`: validate, analyse and add each chunk in turn, then summarise. */
  method StreamingGlobalAnalysis(read: Option<Frame>, chunksize: int) returns (summary: Option<Summary>)
    ensures summary == StreamingResult(LoadedChunks(read, chunksize))
  {
    var chunks := LoadParquetInChunks(read, chunksize);
    ghost var outcomes := ValidateAll(chunks);
    var total := ZeroTotals;
    var numeric := false;
    var i := 0;
    while i < |chunks|
      invariant 0 <= i <= |chunks|
      invariant StreamTotals(outcomes[..i]) == Ok(total)
      invariant numeric == (i > 0)
    {
      var validated := RunAllValidations(chunks[i]);
      assert outcomes[i] == validated;
      if validated.Err? {
        StreamStepFails(outcomes, i);
        StreamErrorSticks(outcomes, i + 1);
        return None;
      }
      var result := AnalyzeChunk(validated.value);
      StreamStep(outcomes, i, total);
      total := Add(total, Contribution(result));
      numeric := true;
      i := i + 1;
    }
    assert outcomes[..i] == outcomes;
    summary := AnalyzerSummary(total, numeric);
  }

  /** One more successful outcome adds its chunk's contribution to the running total. */
  lemma StreamStep(outcomes: seq<Result<Frame>>, i: nat, total: Totals)
    requires i < |outcomes| && StreamTotals(outcomes[..i]) == Ok(total) && outcomes[i].Ok?
    ensures StreamTotals(outcomes[..i + 1]) == Ok(Add(total, Contribution(AnalyzeChunk(outcomes[i].value))))
  {
    assert outcomes[..i + 1][..i] == outcomes[..i];
  }

  /** A failed outcome makes the running total fail. */
  lemma StreamStepFails(outcomes: seq<Result<Frame>>, i: nat)
    requires i < |outcomes| && StreamTotals(outcomes[..i]).Ok? && outcomes[i].Err?
    ensures StreamTotals(outcomes[..i + 1]).Err?
  {
    assert outcomes[..i + 1][..i] == outcomes[..i];
  }

  /** A validated chunk has every column the analysis reads. */
  lemma ValidatedHasAnalysedColumns(df: Frame)
    requires Validated(df).Ok?
    ensures HasAnalysedColumns(Validated(df).value.columns)
  {
    forall c | c in AnalysedColumns
      ensures c in df.columns
    {
      assert c in RequiredColumns;
    }
  }

  /** Once a chunk has failed validation, the run stays failed. */
  lemma {:induction false} StreamErrorSticks(outcomes: seq<Result<Frame>>, i: nat)
    requires i <= |outcomes| && StreamTotals(outcomes[..i]).Err?
    ensures StreamTotals(outcomes).Err?
    decreases |outcomes| - i
  {
    if i < |outcomes| {
      assert outcomes[..i + 1][..i] == outcomes[..i];
      StreamErrorSticks(outcomes, i + 1);
    } else {
      assert outcomes[..i] == outcomes;
    }
  }

  /** The run fails exactly when some outcome is an error, and then with one of those errors. */
  lemma {:induction false} StreamTotalsFail(outcomes: seq<Result<Frame>>)
    ensures StreamTotals(outcomes).Err? <==> exists o :: o in outcomes && o.Err?
    ensures StreamTotals(outcomes).Err? ==> Err(StreamTotals(outcomes).error) in outcomes
    decreases |outcomes|
  {
    if outcomes != [] {
      var n := |outcomes| - 1;
      var front, last := outcomes[..n], outcomes[n];
      assert outcomes == front + [last];
      StreamTotalsFail(front);
      var r := StreamTotals(front);
      if r.Err? {
        assert StreamTotals(outcomes) == Err(r.error);
        var o :| o in front && o.Err?;
        assert o in outcomes;
      } else if last.Err? {
        assert StreamTotals(outcomes) == Err(last.error);
      } else {
        assert StreamTotals(outcomes).Ok?;
        forall o | o in outcomes ensures o.Ok? {
          assert o in front || o == last;
        }
      }
    }
  }

  /** The streaming run returns `{}` exactly when some chunk lacks a required column. */
  lemma StreamingFails(chunks: seq<Frame>)
    ensures StreamTotals(ValidateAll(chunks)).Err? <==> exists c :: c in chunks && Validated(c).Err?
    ensures StreamTotals(ValidateAll(chunks)).Err? ==>
      StreamTotals(ValidateAll(chunks)).error.MissingRequiredColumns?
  {
    var outcomes := ValidateAll(chunks);
    StreamTotalsFail(outcomes);
    if exists c :: c in chunks && Validated(c).Err? {
      var c :| c in chunks && Validated(c).Err?;
      var k :| 0 <= k < |chunks| && chunks[k] == c;
      assert outcomes[k] in outcomes;
    }
    if StreamTotals(outcomes).Err? {
      var k :| 0 <= k < |outcomes| && outcomes[k] == Err(StreamTotals(outcomes).error);
      assert chunks[k] in chunks;
    }
  }

  /** What the validated chunks are, as `clean_data` returns them: the frame, or the empty frame on error. */
  function Cleaned(outcomes: seq<Result<Frame>>): (frames: seq<Frame>)
    ensures |frames| == |outcomes|
  {
    seq(|outcomes|, k requires 0 <= k < |outcomes| =>
      match outcomes[k] case Ok(v) => v case Err(_) => EmptyFrame)
  }

  /**
   * When no outcome is an error and every validated frame has the columns the
   * analysis reads, the totals are those of the validated rows, one chunk
   * after another.
   */
  lemma {:induction false} StreamTotalsRows(outcomes: seq<Result<Frame>>)
    requires StreamTotals(outcomes).Ok?
    requires forall o :: o in outcomes && o.Ok? ==> HasAnalysedColumns(o.value.columns)
    ensures StreamTotals(outcomes).value == RowTotals(Flatten(Cleaned(outcomes)))
    decreases |outcomes|
  {
    if outcomes != [] {
      var n := |outcomes| - 1;
      var front, last := outcomes[..n], outcomes[n];
      assert outcomes == front + [last];
      StreamTotalsRows(front);
      assert last in outcomes;
      assert Cleaned(outcomes) == Cleaned(front) + [last.value];
      FlattenConcat(Cleaned(front), [last.value]);
      assert Flatten([last.value]) == last.value.records;
      RowTotalsConcat(Flatten(Cleaned(front)), last.value.records);
    }
  }

  /**
   * When no chunk fails validation, the totals of the streaming run are those
   * of the rows `clean_data` keeps from all the chunks.
   */
  lemma StreamingTotalsCleaned(chunks: seq<Frame>)
    requires StreamTotals(ValidateAll(chunks)).Ok?
    ensures StreamTotals(ValidateAll(chunks)).value == RowTotals(Flatten(CleanAll(chunks)))
  {
    var outcomes := ValidateAll(chunks);
    forall o | o in outcomes && o.Ok?
      ensures HasAnalysedColumns(o.value.columns)
    {
      var k :| 0 <= k < |outcomes| && outcomes[k] == o;
      ValidatedHasAnalysedColumns(chunks[k]);
    }
    StreamTotalsRows(outcomes);
    assert Cleaned(outcomes) == CleanAll(chunks);
  }

  /** `total["rows"]` never decreases from one chunk to the next. */
  lemma {:induction false} StreamRowsGrow(outcomes: seq<Result<Frame>>, i: nat, j: nat)
    requires i <= j <= |outcomes| && StreamTotals(outcomes[..j]).Ok?
    ensures StreamTotals(outcomes[..i]).Ok?
    ensures StreamTotals(outcomes[..i]).value.rows <= StreamTotals(outcomes[..j]).value.rows
    decreases j - i
  {
    if i < j {
      assert outcomes[..j][..j - 1] == outcomes[..j - 1];
      StreamRowsGrow(outcomes, i, j - 1);
      var last := outcomes[..j][j - 1];
      assert last.Ok?;
      assert AnalyzeChunk(last.value).None? || AnalyzeChunk(last.value).value.rows >= 0;
    }
  }

  /** A failed read gives `{}` in both analyses: nothing was added, and 0.0 / 0 raises. */
  lemma FailedReadNoSummary(chunksize: int)
    ensures ParallelResult(LoadedChunks(None, chunksize)) == None
    ensures StreamingResult(LoadedChunks(None, chunksize)) == None
  {
  }

  /** A chunk of one invalid trip, with every column present. */
  const ZeroFareChunk: Frame :=
    Frame(RequiredSet, [Record(0, Trip(Jan1, Jan1 + Hour, 1.0, 2.0, 0.0, 1.0, 3.0))])

  /**
   * When every row fails validation the streaming run does not return `{}`:
   * the chunk's pandas zeros make three means NaN, and the guarded fare mean 0.
   */
  lemma InvalidRowsGiveNotANumber()
    ensures StreamingResult([ZeroFareChunk]) == AnalyzerSummary(ZeroTotals, true)
    ensures StreamingResult([ZeroFareChunk]).Some?
    ensures StreamingResult([ZeroFareChunk]).value[1].1 == NotANumber
  {
    ZeroFareChunkTotals();
    AnalyzerSummaryShape(ZeroTotals, true);
  }

  /** The zero-fare chunk validates to no rows, which add nothing to the total. */
  lemma ZeroFareChunkTotals()
    ensures StreamTotals(ValidateAll([ZeroFareChunk])) == Ok(ZeroTotals)
  {
    ZeroFareChunkEmptied();
    assert ValidateAll([ZeroFareChunk]) == [Ok(Frame(RequiredSet, []))];
    EmptyOutcomeAddsNothing(Frame(RequiredSet, []));
  }

  /** A lone chunk that validated to no rows leaves the running total at zero. */
  lemma EmptyOutcomeAddsNothing(empty: Frame)
    requires empty.records == [] && HasAnalysedColumns(empty.columns)
    ensures StreamTotals([Ok(empty)]) == Ok(ZeroTotals)
  {
    var outcomes := [Ok(empty)];
    assert outcomes[..0] == [] && outcomes[..1] == outcomes;
    StreamStep(outcomes, 0, ZeroTotals);
    assert AnalyzeChunk(empty) == Some(ZeroTotals);
  }

  /** Validation leaves no row of the zero-fare chunk. */
  lemma ZeroFareChunkEmptied()
    ensures Validated(ZeroFareChunk) == Ok(Frame(RequiredSet, []))
  {
    var t := Trip(Jan1, Jan1 + Hour, 1.0, 2.0, 0.0, 1.0, 3.0);
    ValidatedWhenPresent(ZeroFareChunk);
    PassesChunkRules(RequiredSet, t);
    assert [Record(0, t)][1..] == [];
  }

  /** A chunk without a required column makes the streaming run return `{}`. */
  lemma MissingColumnAbortsStream(chunks: seq<Frame>, k: nat)
    requires k < |chunks| && FareAmount !in chunks[k].columns
    ensures StreamingResult(chunks) == None
  {
    assert FareAmount in RequiredColumns;
    assert chunks[k] in chunks;
    StreamingFails(chunks);
  }

  /** With the four columns in every chunk, the parallel total is that of all the chunks' records. */
  lemma ParallelTotalsAllRows(chunks: seq<Frame>)
    requires forall k :: 0 <= k < |chunks| ==> HasAnalysedColumns(chunks[k].columns)
    ensures TotalOf(Contributions(AnalyzeAll(chunks))) == RowTotals(Flatten(chunks))
  {
    assert Contributions(AnalyzeAll(chunks)) == ChunkTotals(chunks);
    TotalOfChunks(chunks);
  }
}
