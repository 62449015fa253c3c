# DataLab trip-record validation and aggregation, in Dafny

This project models the core of DataLab, a pipeline for NYC taxi trip records:

- **Validation.** The nine validators and the two validation chains: the nine-step `validate_chunk` and the five-step `run_all_validations` of `validation/run.py`.
- **Cleaning and loading.** The `clean_data` wrapper, the chunking loader and the visualisation sampler.
- **Analysis.** The three analysis modules: `core/pool_processor.py`, `core/analyzer.py` and `core/parallel.py`.
- **Helpers.** The call-counting decorator, the step-registering metaclass and the pipeline's `run` loop.

The main modelling choices:

- **Tables.** A table (pandas DataFrame) is a `Frame`: a set of named columns and a sequence of records. Each record carries its index label and a `Row`.
- **Row convention.** A row stores `None` in every named column its frame lacks, and all rows of a frame carry the same further file columns in `others`. The model assumes this convention and does not enforce it. Whole-row equality, as in `drop_duplicates`, agrees with pandas only under it.
- **Missing values.** A missing value (NaN, NaT) is `None`. Numeric values are exact reals. Timestamps are whole seconds.
- **Exceptions.** An exception is an `Err` value of a `Result`. A function that swallows exceptions and returns `{}` returns `None`.
- **Process pool.** The pool is an in-order map.
- **File read.** The read of the Parquet file is a parameter: `None` when `pd.read_parquet` raises, otherwise the table.

Modules, one per source file:

| module | source |
|---|---|
| `Frames` | tables |
| `Validators` | `validation/validators.py` |
| `ValidationRunner` | `validation/validation_runner.py` |
| `ValidationRun` | `validation/run.py` |
| `Cleaner` | `core/cleaner.py` |
| `Loader` | `core/loader.py` |
| `SampleLoader` | `core/sample_loader.py` |
| `Aggregates` | the totals and the eight-entry summary shared by the analysers |
| `PoolProcessor` | `core/pool_processor.py` |
| `Analyzer` | `core/analyzer.py` |
| `Parallel` | `core/parallel.py` |
| `Counter` | `decorators/counter.py` |
| `Meta` | `pipeline/meta.py` |
| `PipelineBase` | `pipeline/base.py` |
| `Sequences` | generic subsequence facts |

The loops of the source are methods with loop invariants, proved equal to a specification function. The validator loop, the loader's slicing loop, the sampler's loop with its `break`, the two analyser folds, `aggregate_results` and `run` are written this way. The decorator's wrapper and the pipeline are classes whose methods update their fields. Everything else is functions and lemmas.

## Model

| member | source | states |
|---|---|---|
| Frames.MissingFrom | validation/validators.py:69 | the missing-column list never has more entries than the required list |
| Frames.MissingFromMembers | validation/validators.py:69 | a column is listed as missing exactly when it is required and not present |
| Frames.NoneMissing | validation/validators.py:69-72 | the list is empty, so nothing is raised, exactly when every required column is present |
| Frames.MissingFromFirst | validation/validators.py:69 | the first listed column is the first required column, in required order, that is absent |
| Frames.Reindex | validation/validation_runner.py:57 | `reset_index(drop=True)` keeps the rows in order and labels them 0..n-1 |
| Frames.ReindexLabelled | validation/validation_runner.py:57 | records already labelled 0..n-1 are left unchanged |
| Frames.ConcatFrames | core/sample_loader.py:39 | `pd.concat(..., ignore_index=True)` gives every frame's rows one frame after another, labelled 0..n-1 |
| Frames.UnionColumns | core/pool_processor.py:170 | the concatenation has every column of every frame |
| Validators.PassesAllIff | validation/validators.py:20-89 | a row passes a rule list exactly when every rule's mask keeps it |
| Validators.Select | validation/validators.py:20-56 | a mask selection keeps exactly the records that satisfy its rules (a comparison with NaN is false) and never adds records |
| Validators.SelectSubsequence | validation/validators.py:20-56 | a mask selection keeps records in their original order, labels included |
| Validators.SelectAllPass | validation/validators.py:20-56 | when every record satisfies the rules, the selection returns the input unchanged |
| Validators.SelectTwice | validation/validation_runner.py:54-55 | two filters in a row keep what one filter with both rules keeps |
| Validators.SelectCommutes | validation/validation_runner.py:54-55 | the order of two row filters does not change the result |
| Validators.DurationImpliesDateRange | validation/validators.py:87-89 | a row the duration filter keeps is kept by the date-range filter; at exactly 86400 s the date-range filter keeps the row and the duration filter drops it |
| Validators.DurationWithinDateRange | validation/validators.py:41-42 | the duration filter's output is contained in the date-range filter's output; filtering it by date range changes nothing |
| Validators.DedupFrom | validation/validators.py:48-49 | duplicate removal keeps only input records, never more than the input |
| Validators.DedupSubsequence | validation/validators.py:48-49 | duplicate removal keeps the original order |
| Validators.DedupDistinct | validation/validators.py:48-49 | after `drop_duplicates` no two rows are equal |
| Validators.DedupKeepsEveryRow | validation/validators.py:48-49 | every distinct input row keeps a copy |
| Validators.DedupSnoc | validation/validators.py:48-49 | a later copy of a row is dropped and the first one wins |
| Validators.DedupOfDistinct | validation/validators.py:48-49 | rows that are already distinct are all kept |
| Validators.DedupSelectCommute | validation/validators.py:48-49 | removing duplicates before or after a row filter gives the same result |
| Validators.Apply | validation/validators.py:16-89 | a validator raises exactly when a column it needs is absent; the column check raises ValueError listing the missing columns, a filter raises KeyError on the first absent column it reads; otherwise the output has the same columns and its records are a subsequence of the input |
| Validators.ApplyIdempotent | validation/validators.py:16-89 | applying any validator to its own output changes nothing |
| Validators.Chain | validation/validation_runner.py:54-55 | the validator loop keeps the columns and a subsequence of the records, or stops at the first exception |
| Validators.ChainConcat | validation/validation_runner.py:54-55 | running two lists of validators one after the other is running their concatenation |
| Validators.ChainOfFilters | validation/validators.py:20-89 | a chain of filters raises KeyError on the first column read that the frame lacks, and otherwise keeps exactly the records passing every rule |
| ValidationRunner.Validated | validation/validation_runner.py:23-57 | `validate_chunk` raises the missing-columns ValueError exactly when a `REQUIRED_COLUMNS` entry is absent, naming exactly the absent ones; otherwise it keeps the columns and never adds rows |
| ValidationRunner.ValidatedWhenPresent | validation/validation_runner.py:42-57 | with every required column present, the result is the rows passing every rule, first copy only, in order, relabelled |
| ValidationRunner.ValidatedRowsPass | validation/validation_runner.py:54-57 | every output row satisfies all seven row rules, and the output is labelled 0..n-1 |
| ValidationRunner.ValidatedDistinct | validation/validation_runner.py:51 | no two output rows are equal |
| ValidationRunner.ValidatedSubsequence | validation/validation_runner.py:54-55 | the output rows are input rows, in input order |
| ValidationRunner.ValidatedKeepsPassingRows | validation/validation_runner.py:42-57 | every input row passing all rules is in the output |
| ValidationRunner.ChunkValidatorsSplit | validation/validation_runner.py:42-52 | the nine validators are the column check, the seven filters in their order, and duplicate removal last |
| ValidationRunner.ChunkRulesReadRequired | validation/validation_runner.py:23-26 | every column a filter reads is in `REQUIRED_COLUMNS`, so no filter raises after the column check passes |
| ValidationRunner.ChainIsValidated | validation/validation_runner.py:42-57 | running the nine validators and resetting the index gives exactly `Validated` |
| ValidationRunner.ValidateChunk | validation/validation_runner.py:28-57 | the validator loop, followed by the index reset, returns `Validated(df)` |
| ValidationRunner.RunAllValidations | validation/validation_runner.py:59-66 | the alias returns exactly what `validate_chunk` returns |
| ValidationRunner.ValidatedIdempotent | validation/validation_runner.py:42-57 | validating a validated frame returns it unchanged |
| ValidationRunner.PassesChunkRules | validation/validation_runner.py:44-50 | a row passes the chain's filters exactly when it has no missing value, positive passengers, distance, fare and total, a non-negative tip, and a duration strictly between 0 and 86400 s |
| ValidationRunner.TripPasses | validation/validators.py:20-89 | a trip with positive values, a non-negative tip and a duration under a day passes every filter |
| ValidationRunner.ValidatedSingle | tests/test_cleaner.py:16-38 | a single row that passes every filter validates to itself |
| ValidationRunner.ValidatedPair | tests/test_validators.py:17-32 | two passing rows are both kept, unless they are equal, when only the first is kept |
| ValidationRunner.CleanTripsKept | tests/test_validators.py:17-32 | two clean trips are both kept |
| ValidationRunner.BadDurationsDropped | tests/test_validators.py:80-95 | a zero-second trip and a 25-hour trip are both dropped |
| ValidationRunner.DuplicateTripsLeaveOne | tests/test_validators.py:97-112 | two identical trips leave one |
| ValidationRunner.FiveColumnsMissing | validation/validators.py:69 | a frame with only distance and fare misses the other five required columns, in `REQUIRED_COLUMNS` order |
| ValidationRunner.MissingColumnsRaise | tests/test_validators.py:51-61 | such a frame raises the missing-columns ValueError before any row is filtered |
| ValidationRun.RunValidated | validation/run.py:11-27 | the five-step chain raises exactly when a column it reads is absent, and then raises the KeyError of the first such column in reading order; otherwise it keeps the columns and never adds rows |
| ValidationRun.RunRulesRead | validation/run.py:15-21 | the four filters read passengers, distance, fare, total, dropoff and pickup, in that order |
| ValidationRun.RunChainIsRunValidated | validation/run.py:15-26 | running the five validators and resetting the index gives exactly `RunValidated` |
| ValidationRun.RunAllValidations | validation/run.py:11-27 | the loop and the in-place index reset return `RunValidated(df)` |
| ValidationRun.RunValidatedOutput | validation/run.py:19-26 | every output row passes the four filters, no two are equal, and the labels are 0..n-1 |
| ValidationRun.ChunkRowsWithinRunRows | validation/run.py:15-24 | when `validate_chunk` succeeds, this chain succeeds too, and every row it keeps is kept here, in the same order |
| ValidationRun.LaxRowsPass | validation/run.py:15-21 | a negative-tip trip and a 25-hour trip pass these four filters but not the nine-step chain's |
| ValidationRun.LaxRowsKept | validation/run.py:15-26 | this chain keeps both trips |
| ValidationRun.LaxRowsDroppedByChunk | validation/validation_runner.py:42-57 | `validate_chunk` drops both trips |
| ValidationRun.NoPassengerColumnKeyError | validation/run.py:15-24 | without a passenger column this chain raises KeyError on it, not the missing-columns ValueError |
| Cleaner.CleanData | core/cleaner.py:38-49 | `clean_data` never returns more rows than it was given |
| Cleaner.CleanDataMeaning | core/cleaner.py:38-49 | with every required column the result is the validated chunk, and without one it is `pd.DataFrame()`; every kept row passes every rule, and kept rows are input rows in input order |
| Cleaner.ValidTripPasses | tests/test_cleaner.py:16-38 | a single valid trip passes through unchanged |
| Cleaner.FiveTripsVerdicts | tests/test_cleaner.py:40-97 | the negative-distance, zero-fare, zero-passenger and dropoff-before-pickup trips fail, and the 2024-01-02 trip passes |
| Cleaner.SelectOnlyLast | tests/test_cleaner.py:40-97 | of five records where only the last passes, the filter keeps only the last |
| Cleaner.FiveTripsSelected | tests/test_cleaner.py:40-97 | the filters keep only the fifth trip |
| Cleaner.FiveTripsValidated | tests/test_cleaner.py:40-97 | validation leaves only the fifth trip, relabelled 0 |
| Cleaner.FiveTripsCleaned | tests/test_cleaner.py:40-97 | only the trip picked up at 2024-01-02 09:00 survives cleaning |
| Cleaner.MissingFareRemoved | tests/test_cleaner.py:99-114 | a trip with a missing fare is removed |
| Cleaner.EmptyFrameStaysEmpty | tests/test_cleaner.py:116-125 | an empty frame with all the columns, its time columns typed as datetimes, cleans to an empty frame with those columns, without error |
| Loader.SliceAt | core/loader.py:31 | `df.iloc[i:i + chunksize]` keeps the columns and has `min(chunksize, rows left)` rows |
| Loader.LoadParquetInChunks | core/loader.py:21-36 | the slicing loop yields exactly `LoadedChunks(read, chunksize)` |
| Loader.SlicesFromFlatten | core/loader.py:30-31 | the slices from a start on, concatenated, are the rows from that start, in order |
| Loader.SlicesFromCount | core/loader.py:30 | the number of slices is the rows left divided by the size, rounded up |
| Loader.SlicesFromShape | core/loader.py:30-31 | slice k starts at row k·chunksize |
| Loader.LoadedChunksShape | core/loader.py:21-36 | a failed read, an empty table or a non-positive chunksize yields nothing; otherwise the chunks concatenate back to the table, and there are ceil(rows / chunksize) of them |
| Loader.LoadedChunkSizes | core/loader.py:30-33 | chunk k is rows k·chunksize up to (k+1)·chunksize of the table, with its columns; it is non-empty and has at most `chunksize` rows, and every chunk but the last is full |
| SampleLoader.CleanAll | core/sample_loader.py:31 | `clean_data` is applied to each chunk, in order |
| SampleLoader.ChunksTaken | core/sample_loader.py:30-34 | the loop consumes every chunk or `max(1, max_chunks)` of them, whichever is fewer, so at least one when any is available |
| SampleLoader.LoadSampleForVisualization | core/sample_loader.py:17-39 | the loop with its `break` returns `Sample(LoadedChunks(read, chunksize), max_chunks)` |
| SampleLoader.CleanAllPrefix | core/sample_loader.py:31-32 | each iteration appends exactly one cleaned chunk to `chunks` |
| SampleLoader.CleanAllRows | core/sample_loader.py:31-39 | the cleaned chunks together never have more rows than the raw chunks |
| SampleLoader.SampleRows | core/sample_loader.py:29-39 | the sample's rows are the cleaned consumed chunks' rows, one chunk after another, labelled 0..n-1, and no more than the raw rows |
| SampleLoader.NoChunksEmptySample | core/sample_loader.py:36-37 | with no chunks from the loader the result is `pd.DataFrame()` |
| SampleLoader.AtLeastOneChunk | core/sample_loader.py:33-34 | a non-positive `max_chunks` still takes the first chunk |
| Aggregates.CountLong | core/pool_processor.py:50 | the long-trip count is between 0 and the number of rows |
| Aggregates.CountLongExtremes | core/pool_processor.py:50 | the count is 0 exactly when no trip exceeds 10 miles, and the row count exactly when all do |
| Aggregates.ChunkTotals | core/pool_processor.py:44-51 | one analysis result per chunk, in chunk order |
| Aggregates.RowTotalsConcat | core/pool_processor.py:44-51 | analysing two pieces and adding the results equals analysing the pieces together |
| Aggregates.TotalOfConcat | core/pool_processor.py:71-78 | the total of two result lists, one after the other, is the sum of their totals |
| Aggregates.TotalOfPermutation | core/pool_processor.py:76-78 | permuting the results does not change the total |
| Aggregates.TotalOfChunks | core/pool_processor.py:71-78 | totalling the results of consecutive chunks gives the result of all their rows |
| Aggregates.TotalOfZeros | core/pool_processor.py:53-58 | all-zero results, however many, total zero |
| Aggregates.TotalOfRowsGrow | core/analyzer.py:75-77 | the running row count never decreases |
| Aggregates.Trunc | core/pool_processor.py:87 | `int(x)` truncates toward zero |
| Aggregates.Entries | core/pool_processor.py:81-90 | a summary has the eight keys in their fixed order, with the given values |
| Aggregates.PoolSummaryShape | core/pool_processor.py:80-90 | the summary has the eight keys; its values are the row count, the amount total, the passenger total cut to an int and the long-trip count; its means are the integer 0 with no rows and otherwise multiply back to the totals |
| PoolProcessor.AnalyzeChunk | core/pool_processor.py:29-58 | the all-zero record when any of the five columns (VendorID included) is missing; otherwise the row count, the four column sums and the count of trips over 10 miles |
| PoolProcessor.AnalyzeAll | core/pool_processor.py:160-161 | `pool.map` gives one result per chunk, in chunk order |
| PoolProcessor.AggregateResults | core/pool_processor.py:61-90 | the field-by-field fold over the results gives the summary of their total |
| PoolProcessor.Anomalies | core/pool_processor.py:130 | the anomalies are exactly the records whose tip exceeds their total, in order |
| PoolProcessor.AnomaliesReport | core/pool_processor.py:118-137 | the report is skipped without tip or total; it counts every anomaly and lists the first ten at most; it raises exactly when there is an anomaly to list and VendorID or fare_amount is absent |
| PoolProcessor.Vendors | core/pool_processor.py:105 | the groups are exactly the vendors present, missing vendors dropped |
| PoolProcessor.SummaryByVendor | core/pool_processor.py:93-115 | the report is skipped without VendorID, and raises exactly when VendorID is present and fare, tip or distance is absent |
| PoolProcessor.ParallelAnalysis | core/pool_processor.py:142-180 | loading, the map, the total and the reports return `PoolAnalysis(LoadedChunks(read, chunksize))` |
| PoolProcessor.AnalyzeAllTotal | core/pool_processor.py:160-163 | with the five columns present, the total is the analysis of all the chunks' records together |
| PoolProcessor.AnalyzeAllZero | core/pool_processor.py:53-58 | when the table lacks one of the five columns, every result and the total are zero |
| PoolProcessor.UnionOfSameColumns | core/pool_processor.py:170 | the chunks of one table concatenate to a frame with its columns |
| PoolProcessor.LoadedChunksRejoin | core/pool_processor.py:157-170 | the loader's chunks of a table all have its columns, and concatenating them gives back the table |
| PoolProcessor.ChunkingInvariance | core/pool_processor.py:142-180 | for every positive `chunksize` and every non-empty table, the result does not depend on `chunksize`: it equals analysing the table as one chunk |
| PoolProcessor.ChunkTotalsInvariant | core/pool_processor.py:157-163 | the total of the chunk results equals that of the whole table as one chunk |
| PoolProcessor.WholeTableSummary | core/pool_processor.py:142-176 | with the five columns present and the reports succeeding, the summary is that of every row of the table |
| PoolProcessor.FailedReadNoSummary | tests/test_pool_processor.py:49-56 | an invalid path gives `{}`, because `pd.concat` of no chunks raises |
| PoolProcessor.NoResultsZeroSummary | core/pool_processor.py:80-90 | totalling no results gives 0 rows, every mean 0 and no failure |
| PoolProcessor.NoVendorColumnCountsNothing | core/pool_processor.py:40-42 | when the reports succeed, a table without VendorID gives the all-zero summary, although every row has the other columns |
| PoolProcessor.OneAnomalyReported | core/pool_processor.py:130-137 | one trip whose tip exceeds its total is counted and listed |
| PoolProcessor.AnomalyWithoutFareRaises | core/pool_processor.py:136-137 | without fare_amount the listing of that anomaly raises KeyError |
| PoolProcessor.TwoTripsAnalysed | core/pool_processor.py:44-51 | two trips give 2 rows, 14 miles, 12 in tips, one long trip |
| Analyzer.AnalyzeChunk | core/analyzer.py:25-49 | there is no pre-check: indexing an absent distance, tip, total or passenger column gives the zero record; otherwise the chunk's totals |
| Analyzer.AnalyzeAll | core/analyzer.py:72-73 | the map gives one result per chunk, in order |
| Analyzer.Contributions | core/analyzer.py:75-77 | a failed chunk adds the zero record to the total |
| Analyzer.AnalyzerSummaryShape | core/analyzer.py:79-90 | the summary fails exactly when nothing was added (Python zeros divided by 0); it has the pool summary's eight keys and, with rows, the same values; over pandas zeros three means are NaN and the guarded fare mean is 0 |
| Analyzer.AnyAnalysedSnoc | core/analyzer.py:75-77 | some chunk has been analysed after one more result exactly when one had been before, or this one was |
| Analyzer.ParallelAnalysis | core/analyzer.py:54-98 | the fold over the map's results returns `ParallelResult(LoadedChunks(read, chunksize))` |
| Analyzer.ParallelTotalsAllRows | core/analyzer.py:72-77 | with the four columns in every chunk, the total is that of all the chunks' records |
| Analyzer.ValidateAll | core/analyzer.py:122 | every chunk is validated with `run_all_validations`, in order |
| Analyzer.StreamingGlobalAnalysis | core/analyzer.py:103-147 | the validate-analyse-add loop returns `StreamingResult(LoadedChunks(read, chunksize))` |
| Analyzer.StreamStep | core/analyzer.py:121-126 | a chunk that validates adds its analysis to the running total |
| Analyzer.StreamStepFails | core/analyzer.py:122 | a chunk that fails validation makes the run fail |
| Analyzer.StreamErrorSticks | core/analyzer.py:145-147 | once a chunk has failed validation, the run stays failed |
| Analyzer.StreamTotalsFail | core/analyzer.py:121-126 | the run fails exactly when some validation fails, and then with one of those errors |
| Analyzer.StreamingFails | core/analyzer.py:122 | the streaming run raises exactly when some chunk lacks a required column, and the error is the missing-columns ValueError |
| Analyzer.ValidatedHasAnalysedColumns | core/analyzer.py:122-124 | a validated chunk has every column the analysis reads |
| Analyzer.StreamTotalsRows | core/analyzer.py:121-126 | the streaming totals are those of the validated rows, one chunk after another |
| Analyzer.StreamingTotalsCleaned | core/analyzer.py:121-126 | when no chunk fails validation, the totals are those of all the rows validation keeps |
| Analyzer.StreamRowsGrow | core/analyzer.py:121-126 | `total["rows"]` never decreases from one chunk to the next |
| Analyzer.FailedReadNoSummary | core/analyzer.py:79-98 | a failed read gives `{}` in both analyses |
| Analyzer.InvalidRowsGiveNotANumber | core/analyzer.py:128-139 | a chunk whose every row fails validation gives a summary with NaN means, not `{}` |
| Analyzer.ZeroFareChunkTotals | core/analyzer.py:121-126 | the zero-fare chunk adds nothing to the total |
| Analyzer.EmptyOutcomeAddsNothing | core/analyzer.py:124-126 | a validated chunk with no rows leaves the total at zero |
| Analyzer.ZeroFareChunkEmptied | core/analyzer.py:122 | validation leaves no row of the zero-fare chunk |
| Analyzer.MissingColumnAbortsStream | core/analyzer.py:120-147 | a chunk without fare_amount makes the streaming run return `{}` |
| Parallel.PresentCount | core/parallel.py:13 | the number of present values is at most the number of rows |
| Parallel.Mean | core/parallel.py:13 | `mean()` is NaN exactly when no value is present |
| Parallel.ProcessChunk | core/parallel.py:8-22 | `process_chunk` raises KeyError on `trip_distance` exactly when cleaning returned the column-less empty frame |
| Parallel.ProcessAll | core/parallel.py:30-31 | the map gives one result per chunk; which one is stated by `Parallel.ProcessAllMap` |
| Parallel.ProcessAllAt | core/parallel.py:30-31 | when the map succeeds, its result at position k is the statistics of chunk k |
| Parallel.ProcessAllFailsAt | core/parallel.py:30-31 | when any one chunk raises, the map raises |
| Parallel.ProcessAllErrorFrom | core/parallel.py:30-31 | when the map raises, some chunk raises |
| Parallel.ProcessAllMap | core/parallel.py:30-31 | the map succeeds exactly when every chunk does, and then gives every chunk's statistics, in chunk order |
| Parallel.GlobalSummary | core/parallel.py:33-37 | dividing by `len(results)` raises exactly when there are no results; the global mean is NaN exactly when some chunk mean is, and otherwise times the number of results is the sum of the chunk means |
| Parallel.SumMeansOfRows | core/parallel.py:13-34 | when each chunk's mean is its rows' distance sum over its row count, the sum of the chunk means is the sum of those row means |
| Parallel.GlobalMeanOfChunkMeans | core/parallel.py:11-34 | the global mean is NaN exactly when cleaning leaves some chunk without rows; otherwise it is the unweighted mean, over the chunks, of each cleaned chunk's mean distance |
| Parallel.SumMeansNaN | core/parallel.py:34 | the sum of the chunk means is NaN exactly when one of them is |
| Parallel.StreamParquet | core/streamer.py:3 | `stream_parquet` accepts the batch size only under `batch_size`, and then yields the batches in order |
| Parallel.AsWrittenAlwaysRaises | core/parallel.py:29 | passing the size as `chunksize` raises TypeError for every input, so the result never equals the intended one |
| Parallel.ResultErrors | core/parallel.py:11-34 | given the batches, the only exceptions the corrected run raises are the KeyError of an emptied chunk and the division by zero |
| Parallel.ProcessAllErrors | core/parallel.py:11-13 | the map raises only the KeyError of a chunk that cleaned to the empty frame |
| Parallel.RunMultiprocessing | core/parallel.py:25-37 | with `batch_size`, the result is `MultiprocessingResult(batches)`; its tip total and long-trip count are those of every cleaned row, and its mean distance is NaN exactly when a batch cleans to no rows and otherwise the unweighted mean of the cleaned batches' mean distances |
| Parallel.ProcessAllFailSticks | core/parallel.py:30-31 | once a chunk has raised, the map raises |
| Parallel.ProcessChunkFails | core/parallel.py:11-13 | a chunk raises exactly when it lacks a required column |
| Parallel.CleanedDistancesPresent | core/parallel.py:11-13 | in a cleaned chunk every distance is present |
| Parallel.ProcessedMean | core/parallel.py:11-13 | a chunk's mean is NaN exactly when cleaning left no row, and otherwise is the distance sum over the cleaned rows |
| Parallel.SumTipsConcat | core/parallel.py:35 | the tip total of two result lists is the sum of theirs |
| Parallel.SumLongConcat | core/parallel.py:36 | the long-trip total of two result lists is the sum of theirs |
| Parallel.ProcessAllTotals | core/parallel.py:14-36 | when no chunk raises, the global tip and long-trip totals are those of all cleaned rows together |
| Parallel.GlobalTotals | core/parallel.py:33-37 | the global tip total and long-trip count are those of every cleaned row |
| Parallel.NoChunksRaise | core/parallel.py:34 | with no chunks, the division by `len(results)` raises |
| Parallel.TwoChunksProcessed | core/parallel.py:30-31 | two chunks give their statistics in order |
| Parallel.BothChunksProcessed | core/parallel.py:30-31 | the one-trip and two-trip chunks give (2.5, 3, 0) and (1.5, 3.5, 0) |
| Parallel.MeanOfMeansNotRowMean | core/parallel.py:34 | the global mean is the unweighted mean of the chunk means, 2, while the row mean is 5.5 / 3 |
| Parallel.GlobalOfTwo | core/parallel.py:33-37 | combining those two results gives mean 2, tips 6.5 and no long trips |
| Counter.NatToStringRoundTrip | decorators/counter.py:24 | the printed count reads back as the number |
| Counter.MessageNamesCount | decorators/counter.py:24 | two calls never print the same line |
| Counter.FirstCallMessage | tests/test_decorators.py:47-48 | the first call prints "wywołana 1 raz(y)" |
| Counter.CallCounter.constructor | decorators/counter.py:27-28 | the counter starts at 0 and nothing has been printed |
| Counter.CallCounter.Call | decorators/counter.py:21-25 | each call raises the count by one and prints the message with the new count, before the wrapped function runs; the wrapped function's result or exception is passed through |
| Counter.IndependentCounters | decorators/counter.py:21-28 | two decorated functions keep separate counts |
| Meta.Names | pipeline/meta.py:21 | the body's names, in definition order |
| Meta.CollectSteps | pipeline/meta.py:21 | there are never more steps than entries |
| Meta.NewClass | pipeline/meta.py:20-23 | `_steps` is always set, and the class keeps its name and bases |
| Meta.StepsAreMarked | pipeline/meta.py:21 | a name is a step exactly when some entry with that name is marked |
| Meta.StepsInOrder | pipeline/meta.py:21 | the steps keep definition order: they are a subsequence of the body's names |
| Meta.StepsOncePerMarkedEntry | pipeline/meta.py:21 | there is one step per marked entry, and none appears twice |
| Meta.NoMarkedNoSteps | pipeline/meta.py:22 | with no marked entry `_steps` is the empty list |
| Meta.OnlyOwnBody | pipeline/meta.py:20-22 | a name absent from the class's own body is not a step, whatever the bases |
| PipelineBase.AnnouncementNamesStep | pipeline/base.py:30 | different steps print different announcements |
| PipelineBase.Invocations | pipeline/base.py:31 | the calls made are never more than the events |
| PipelineBase.FirstRaising | pipeline/base.py:28-31 | the first raising step is the earliest step that raises, or none |
| PipelineBase.Pipeline.constructor | pipeline/base.py:14 | a pipeline's steps are those `PipelineMeta` collected from its class body |
| PipelineBase.Pipeline.Run | pipeline/base.py:23-31 | the loop appends the trace of announcing and calling each step until one raises; the run fails exactly when some step raises, naming the first |
| PipelineBase.OneMoreStep | pipeline/base.py:28-31 | each iteration adds one announcement and one call; a raising step ends the run |
| PipelineBase.RunTraceStops | pipeline/base.py:31 | the steps after a raising one leave no event |
| PipelineBase.FirstRaisingAt | pipeline/base.py:28-31 | the first raising step is determined by its index |
| PipelineBase.StepsCalledInOrder | pipeline/base.py:28-31 | every step up to the first raising one is called exactly once, in list order, and no later step is called |
| PipelineBase.CleanRunCallsAll | pipeline/base.py:28-31 | when no step raises, every step is called in order |
| PipelineBase.AnnouncedBeforeCall | pipeline/base.py:30-31 | announcements and calls alternate, and each call directly follows its own step's announcement |
| PipelineBase.NoStepsNoCalls | pipeline/base.py:28 | with no registered step, nothing is printed and nothing is called |

## Findings

| source | as written | input that shows it | evidently intended | confidence | as-written member | corrected member |
|---|---|---|---|---|---|---|
| core/parallel.py:29 | `stream_parquet(path, chunksize=chunksize)`, but `stream_parquet` (core/streamer.py:3) has no `chunksize` parameter, only `batch_size` | any call, e.g. `run_multiprocessing("data.parquet")`: binding the arguments raises TypeError before any batch is read | `stream_parquet(path, batch_size=chunksize)` | high, not executed | Parallel.AsWrittenAlwaysRaises | Parallel.RunMultiprocessing |

## Left out

- Concurrency. `multiprocessing.Pool` is an in-order map computed in the calling process. `processing/multiprocessor.py` is not part of this model.
- Generator laziness. Each generator is the sequence of everything it yields.
  - In `core/analyzer.py` and `core/pool_processor.py`, the chunks are loaded before the loop that consumes them.
  - The results and the exceptions match those of the lazy run, because the loader catches its own errors.
- File and library calls.
  - `pd.read_parquet` is a parameter.
  - The pyarrow batches of `stream_parquet` are a parameter.
  - Not modelled: `_save_summary`, the report and summary file writes, `os.makedirs`, `psutil`, `cpu_count`, and the loader's `columns` argument.
- Console and logging output.
  - `logger` calls are not modelled.
  - The prints of `core/parallel.py` and the `measure_time` timer are not modelled.
  - The `[Counter]` lines of decorated core functions are modelled only in `Counter`. They are not modelled where `clean_data` or the loaders are decorated.
- Floating point.
  - Amounts are exact reals.
  - `round(x, 2)` is not modelled.
  - NaN is `None` (missing values, `Series.mean` of nothing) or `NotANumber` (summary means). NaN propagation beyond these cases is not modelled.
- Column dtypes. Timestamps are always datetimes and amounts always numbers. A frame whose columns pandas would type as `object`, such as the empty `pd.DataFrame(columns=[...])` of tests/test_cleaner.py:116-125, is not modelled. On such a frame `.dt` in the duration filter may raise, and `clean_data` would then return `pd.DataFrame()`.
- Trip duration bound. The docstring of `TripDurationValidator` (validation/validators.py:83-85) says only trips longer than 24 h are dropped. The code also drops a trip of exactly 86400 s, and the model follows the code (`Validators.DurationImpliesDateRange`).
- Analyzer NaN rule. Division by zero yields NaN for pandas totals and raises for Python numbers. This is `AnalyzerSummary`'s `numeric` flag: whether some chunk analysis succeeded.
- PoolProcessor.SummaryByVendor: the per-vendor means and maxima and their `to_string` rendering are not modelled. Only the vendor groups, the skip and the KeyError are.
- PoolProcessor.AnomaliesReport: the text of the report is not modelled. Only the count and the listed records are.
- Counter.CallCounter.Call: `*args, **kwargs` are one argument. `functools.wraps` metadata is not modelled, and neither is the wrapped function's own effect on the program.
- PipelineBase.Pipeline.Run: what a step does is not modelled. The set of steps that raise is given, and only the announcements and calls are traced. `getattr` always finds a registered step.
- Meta.NewClass: `hasattr(value, "_is_step")` is the `marked` flag of an entry. `type.__new__` is not modelled.
- Loader.SliceAt: the slice's rows are stated through `Loader.LoadedChunkSizes`, not in its own contract.
- Not part of this model, as outside the core: `core/streamer.py` beyond its signature, `core/visualizer.py`, `streamlit_app.py`, `main.py`, `pipeline/taxi_pipeline.py`, `validation/base.py`, `core/profiling/profiler.py`, `core/logger.py` and `decorators/timer.py`.
