/**
 * Trip records and the tables (pandas DataFrames) that hold them.
 *
 * A frame has a set of named columns and a sequence of records; every record
 * carries its index label and its row.  A missing value (NaN, NaT) is `None`.
 * Timestamps are whole seconds.  A row stores `None` in every named column its
 * frame does not have, so whole-row equality only sees the frame's columns.
 */
module Frames {
  import opened Sequences

  datatype Option<T> = None | Some(value: T)

  /** The columns the validators and the analysers refer to by name. */
  datatype Column =
    | PassengerCount  // passenger_count
    | TripDistance    // trip_distance
    | TipAmount       // tip_amount
    | TotalAmount     // total_amount
    | FareAmount      // fare_amount
    | PickupTime      // tpep_pickup_datetime
    | DropoffTime     // tpep_dropoff_datetime
    | VendorId        // VendorID

  /** One trip record. `others` holds the file's further columns (surcharges, fees, ...). */
  datatype Row = Row(
    pickup: Option<int>,
    dropoff: Option<int>,
    passengers: Option<real>,
    distance: Option<real>,
    fare: Option<real>,
    tip: Option<real>,
    total: Option<real>,
    vendor: Option<int>,
    others: seq<Option<real>>)

  /** A row together with its index label. */
  datatype Record = Record(index: int, row: Row)

  datatype Frame = Frame(columns: set<Column>, records: seq<Record>)

  /** `pd.DataFrame()`: no columns and no rows. */
  const EmptyFrame: Frame := Frame({}, [])

  /** The exceptions the modelled code raises. */
  datatype Error =
    | MissingRequiredColumns(missing: seq<Column>)  // ValueError("Brakuje wymaganych kolumn: ...")
    | KeyError(keys: seq<Column>)                   // indexing a column the frame lacks
    | NoObjectsToConcatenate                        // pd.concat([])
    | ZeroDivision                                  // ZeroDivisionError
    | UnexpectedKeyword(keyword: string)            // TypeError: a keyword the callee does not accept

  datatype Result<T> = Ok(value: T) | Err(error: Error)

  /** The columns of `wanted` that are not `present`, in the order of `wanted`. */
  function MissingFrom(wanted: seq<Column>, present: set<Column>): (m: seq<Column>)
    ensures |m| <= |wanted|
  {
    if wanted == [] then []
    else if wanted[0] in present then MissingFrom(wanted[1..], present)
    else [wanted[0]] + MissingFrom(wanted[1..], present)
  }

  /** A column is reported missing exactly when it is wanted and not present. */
  lemma {:induction false} MissingFromMembers(wanted: seq<Column>, present: set<Column>)
    ensures forall c :: c in MissingFrom(wanted, present) <==> c in wanted && c !in present
    decreases |wanted|
  {
    if wanted != [] {
      MissingFromMembers(wanted[1..], present);
      assert forall c :: c in wanted <==> c == wanted[0] || c in wanted[1..];
    }
  }

  /** Every column of `wanted` is present exactly when none is reported missing. */
  lemma NoneMissing(wanted: seq<Column>, present: set<Column>)
    ensures MissingFrom(wanted, present) == [] <==> forall c :: c in wanted ==> c in present
  {
    var m := MissingFrom(wanted, present);
    MissingFromMembers(wanted, present);
    if m != [] {
      assert m[0] in m;
    }
  }

  /** The first column reported missing is the first absent column of `wanted`. */
  lemma {:induction false} MissingFromFirst(wanted: seq<Column>, present: set<Column>)
    requires MissingFrom(wanted, present) != []
    ensures exists k :: 0 <= k < |wanted| && wanted[k] == MissingFrom(wanted, present)[0]
                        && wanted[k] !in present && forall j :: 0 <= j < k ==> wanted[j] in present
    decreases |wanted|
  {
    if wanted[0] in present {
      MissingFromFirst(wanted[1..], present);
      var k :| 0 <= k < |wanted[1..]| && wanted[1..][k] == MissingFrom(wanted[1..], present)[0]
        && wanted[1..][k] !in present && forall j :: 0 <= j < k ==> wanted[1..][j] in present;
      assert wanted[k + 1] == wanted[1..][k];
      assert forall j :: 1 <= j < k + 1 ==> wanted[j] == wanted[1..][j - 1];
    } else {
      assert wanted[0] == MissingFrom(wanted, present)[0];
    }
  }

  /** True iff some value of the row is missing in a column the frame has. */
  predicate HasMissing(columns: set<Column>, r: Row)
  {
    || (PickupTime in columns && r.pickup.None?)
    || (DropoffTime in columns && r.dropoff.None?)
    || (PassengerCount in columns && r.passengers.None?)
    || (TripDistance in columns && r.distance.None?)
    || (FareAmount in columns && r.fare.None?)
    || (TipAmount in columns && r.tip.None?)
    || (TotalAmount in columns && r.total.None?)
    || (VendorId in columns && r.vendor.None?)
    || (exists i :: 0 <= i < |r.others| && r.others[i].None?)
  }

  /** The rows of a sequence of records, without their labels. */
  function Rows(recs: seq<Record>): (rows: seq<Row>)
    ensures |rows| == |recs|
    ensures forall i :: 0 <= i < |recs| ==> rows[i] == recs[i].row
  {
    seq(|recs|, i requires 0 <= i < |recs| => recs[i].row)
  }

  /** `reset_index(drop=True)`: the same rows, labelled 0..n-1. */
  function Reindex(recs: seq<Record>): (r: seq<Record>)
    ensures Rows(r) == Rows(recs)
    ensures forall i :: 0 <= i < |r| ==> r[i].index == i
  {
    seq(|recs|, i requires 0 <= i < |recs| => Record(i, recs[i].row))
  }

  /** Records labelled 0..n-1 are left alone by `Reindex`. */
  lemma ReindexLabelled(recs: seq<Record>)
    requires forall i :: 0 <= i < |recs| ==> recs[i].index == i
    ensures Reindex(recs) == recs
  {
    var r := Reindex(recs);
    assert forall i :: 0 <= i < |r| ==> r[i] == Record(i, Rows(r)[i]) == recs[i];
  }

  lemma {:induction false} RowsConcat(a: seq<Record>, b: seq<Record>)
    ensures Rows(a + b) == Rows(a) + Rows(b)
  {
  }

  /** Dropping records from a sequence drops the same rows from its row sequence. */
  lemma {:induction false} SubsequenceRows(a: seq<Record>, b: seq<Record>)
    requires Subsequence(a, b)
    ensures Subsequence(Rows(a), Rows(b))
    decreases |b|
  {
    if a == [] {
    } else if b == [] {
    } else {
      assert Rows(a)[1..] == Rows(a[1..]);
      assert Rows(b)[1..] == Rows(b[1..]);
      if a[0] == b[0] {
        SubsequenceRows(a[1..], b[1..]);
      } else {
        SubsequenceRows(a, b[1..]);
        SubsequenceCons(b[0].row, Rows(a), Rows(b[1..]));
        assert Rows(b) == [b[0].row] + Rows(b[1..]);
      }
    }
  }

  /** The records of all frames, one frame after the other. */
  function Flatten(frames: seq<Frame>): (recs: seq<Record>)
  {
    if frames == [] then [] else frames[0].records + Flatten(frames[1..])
  }

  lemma {:induction false} FlattenConcat(a: seq<Frame>, b: seq<Frame>)
    ensures Flatten(a + b) == Flatten(a) + Flatten(b)
    decreases |a|
  {
    if a == [] {
      assert a + b == b;
    } else {
      assert (a + b)[1..] == a[1..] + b;
      FlattenConcat(a[1..], b);
    }
  }

  /** The union of the frames' columns. */
  function UnionColumns(frames: seq<Frame>): (cols: set<Column>)
    ensures forall k :: 0 <= k < |frames| ==> frames[k].columns <= cols
  {
    if frames == [] then {} else frames[0].columns + UnionColumns(frames[1..])
  }

  /** `pd.concat(frames, ignore_index=True)`: all columns, all rows, relabelled. */
  function ConcatFrames(frames: seq<Frame>): (f: Frame)
    ensures Rows(f.records) == Rows(Flatten(frames))
    ensures forall i :: 0 <= i < |f.records| ==> f.records[i].index == i
  {
    Frame(UnionColumns(frames), Reindex(Flatten(frames)))
  }
}
