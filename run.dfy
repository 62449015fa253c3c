/**
 * validation/run.py: the five-step validation.  It has no column check, so
 * an absent column surfaces as the KeyError of the first filter that reads
 * it; it has no tip, missing-value or duration filter.  The index is reset in
 * place at the end.
 */
module ValidationRun {
  import opened Sequences
  import opened Frames
  import opened Validators
  import opened ValidationRunner

  /** The row rules of the chain, in the order they run. */
  const RunRules: seq<RowRule> := [PositivePassengerCount, PositiveDistance, PositiveFare, ValidDateRange]

  /** The validators `run_all_validations` runs, in order. */
  const RunValidators: seq<Validator> := [
    RowFilter(PositivePassengerCount),
    RowFilter(PositiveDistance),
    RowFilter(PositiveFare),
    RowFilter(ValidDateRange),
    DropDuplicates
  ]

  /** The columns the chain reads, in the order they are looked up. */
  const RunAccessed: seq<Column> :=
    [PassengerCount, TripDistance, FareAmount, TotalAmount, DropoffTime, PickupTime]

  /**
   * What `run_all_validations` returns: the KeyError of the first column read
   * that the frame lacks, or the records passing the four filters, first copy
   * of each row only, relabelled.
   */
  function RunValidated(df: Frame): (r: Result<Frame>)
    ensures r.Err? <==> exists c :: c in RunAccessed && c !in df.columns
    ensures r.Err? ==> exists k :: 0 <= k < |RunAccessed| && r.error == KeyError([RunAccessed[k]])
                                   && RunAccessed[k] !in df.columns
                                   && forall j :: 0 <= j < k ==> RunAccessed[j] in df.columns
    ensures r.Ok? ==> r.value.columns == df.columns && |r.value.records| <= |df.records|
  {
    var missing := MissingFrom(RunAccessed, df.columns);
    NoneMissing(RunAccessed, df.columns);
    if missing != [] then
      MissingFromFirst(RunAccessed, df.columns);
      Err(KeyError([missing[0]]))
    else Ok(Frame(df.columns, Reindex(Dedup(Select(RunRules, df.columns, df.records)))))
  }

  /** The four filters read exactly the columns of `RunAccessed`, in that order. */
  lemma RunRulesRead()
    ensures AccessedAll(RunRules) == RunAccessed
  {
    var rules := RunRules;
    assert AccessedAll(rules[3..]) == [DropoffTime, PickupTime];
    assert AccessedAll(rules[2..]) == [FareAmount, TotalAmount] + AccessedAll(rules[3..]);
    assert AccessedAll(rules[1..]) == [TripDistance] + AccessedAll(rules[2..]);
  }

  /** Running the five validators and relabelling gives exactly `RunValidated`. */
  lemma RunChainIsRunValidated(df: Frame)
    ensures Relabel(Chain(RunValidators, df)) == RunValidated(df)
  {
    var filters := Filters(RunRules);
    assert RunValidators == filters + [DropDuplicates];
    ChainConcat(filters, [DropDuplicates], df);
    RunRulesRead();
    ChainOfFilters(RunRules, df);
    if MissingFrom(RunAccessed, df.columns) == [] {
      var g := Frame(df.columns, Select(RunRules, df.columns, df.records));
      assert Chain([DropDuplicates], g) == Ok(Frame(df.columns, Dedup(g.records)));
    }
  }

  /** `run_all_validations`: the validators run one after another, then the index is reset in place. */
  method RunAllValidations(df: Frame) returns (r: Result<Frame>)
    ensures r == RunValidated(df)
  {
    var validators := RunValidators;
    var cur := df;
    var i := 0;
    RunChainIsRunValidated(df);
    while i < |validators|
      invariant 0 <= i <= |validators|
      invariant Chain(validators, df) == Chain(validators[i..], cur)
    {
      assert validators[i..][0] == validators[i];
      assert validators[i..][1..] == validators[i + 1..];
      var step := Apply(validators[i], cur);
      if step.Err? {
        return Err(step.error);
      }
      cur := step.value;
      i := i + 1;
    }
    cur := cur.(records := Reindex(cur.records));
    r := Ok(cur);
  }

  /** Every output row passes the four filters, no two are equal, and the labels are 0..n-1. */
  lemma RunValidatedOutput(df: Frame)
    requires RunValidated(df).Ok?
    ensures var out := RunValidated(df).value.records;
      && (forall i :: 0 <= i < |out| ==> PassesAll(RunRules, df.columns, out[i].row) && out[i].index == i)
      && Distinct(Rows(out))
  {
    var kept := Dedup(Select(RunRules, df.columns, df.records));
    var out := RunValidated(df).value.records;
    assert forall i :: 0 <= i < |out| ==> out[i].row == kept[i].row && kept[i] in kept;
    DedupDistinct(Select(RunRules, df.columns, df.records), {});
  }

  /**
   * When the required columns are present, the rows `validate_chunk` keeps
   * are among the rows kept here, in the same order.
   */
  lemma ChunkRowsWithinRunRows(df: Frame)
    requires Validated(df).Ok?
    ensures RunValidated(df).Ok?
    ensures Subsequence(Rows(Validated(df).value.records), Rows(RunValidated(df).value.records))
  {
    var cols := df.columns;
    NoneMissing(RequiredColumns, cols);
    NoneMissing(RunAccessed, cols);
    ValidatedWhenPresent(df);
    var run := Select(RunRules, cols, df.records);
    SelectTwice(ChunkRules, RunRules, cols, df.records);
    SelectSameRules(RunRules + ChunkRules, ChunkRules, cols, df.records);
    DedupSelectCommute(ChunkRules, cols, run, {});
    SelectSubsequence(ChunkRules, cols, Dedup(run));
    SubsequenceRows(Select(ChunkRules, cols, Dedup(run)), Dedup(run));
  }

  /** A valid trip with a negative tip. */
  const NegativeTipTrip: Row := Trip(Jan1, Jan1 + Hour, 1.0, 1.0, 10.0, -1.0, 15.0)

  /** A trip lasting 25 hours. */
  const LongTrip: Row := Trip(Jan1, Jan1 + 25 * Hour, 1.0, 1.0, 10.0, 1.0, 15.0)

  /** The negative-tip and 25-hour trips pass this chain's four filters but not the nine-step chain's. */
  lemma LaxRowsPass()
    ensures PassesAll(RunRules, RequiredSet, NegativeTipTrip) && PassesAll(RunRules, RequiredSet, LongTrip)
    ensures !PassesAll(ChunkRules, RequiredSet, NegativeTipTrip) && !PassesAll(ChunkRules, RequiredSet, LongTrip)
  {
    PassesChunkRules(RequiredSet, NegativeTipTrip);
    PassesChunkRules(RequiredSet, LongTrip);
  }

  /** Both trips are kept by this chain. */
  lemma LaxRowsKept()
    ensures var df := Frame(RequiredSet, [Record(0, NegativeTipTrip), Record(1, LongTrip)]);
      RunValidated(df) == Ok(df)
  {
    var a := Record(0, NegativeTipTrip);
    var b := Record(1, LongTrip);
    NoneMissing(RunAccessed, RequiredSet);
    LaxRowsPass();
    SelectPair(RunRules, RequiredSet, a, b);
    DedupPair(a, b);
    ReindexLabelled([a, b]);
  }

  /** Both trips are dropped by `validate_chunk`. */
  lemma LaxRowsDroppedByChunk()
    ensures var df := Frame(RequiredSet, [Record(0, NegativeTipTrip), Record(1, LongTrip)]);
      Validated(df) == Ok(Frame(RequiredSet, []))
  {
    var a := Record(0, NegativeTipTrip);
    var b := Record(1, LongTrip);
    ValidatedWhenPresent(Frame(RequiredSet, [a, b]));
    LaxRowsPass();
    SelectPair(ChunkRules, RequiredSet, a, b);
  }

  /** Without a passenger column, this chain raises KeyError on it, not the missing-columns error. */
  lemma NoPassengerColumnKeyError(df: Frame)
    requires PassengerCount !in df.columns
    ensures RunValidated(df) == Err(KeyError([PassengerCount]))
  {
  }
}
