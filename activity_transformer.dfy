/**
  * The row-to-record mapping for `ViewingActivity.csv`: every CSV row,
  * given as a map from header label to cell, becomes one `UserActivity`
  * owned by the address of the run.
  */
module ActivityTransformer {
  import opened Wrappers
  import opened Exceptions
  import opened Refined

  /** One CSV data row: header label to cell text. */
  type Row = map<string, string>

  const ProfileNameLabel: string := "Profile Name"
  const StartTimeLabel: string := "Start Time"
  const DurationLabel: string := "Duration"
  const AttributesLabel: string := "Attributes"
  const TitleLabel: string := "Title"
  const SupplementalVideoTypeLabel: string := "Supplemental Video Type"
  const DeviceTypeLabel: string := "Device Type"
  const BookmarkLabel: string := "Bookmark"
  const LatestBookmarkLabel: string := "Latest Bookmark"
  const CountryLabel: string := "Country"

  /** The CSV label each data column other than `address` is read from. */
  const LabelOfColumn: map<string, string> := map[
    "profile_name" := ProfileNameLabel,
    "start_time" := StartTimeLabel,
    "duration" := DurationLabel,
    "attributes" := AttributesLabel,
    "title" := TitleLabel,
    "supplemental_video_type" := SupplementalVideoTypeLabel,
    "device_type" := DeviceTypeLabel,
    "bookmark" := BookmarkLabel,
    "latest_bookmark" := LatestBookmarkLabel,
    "country" := CountryLabel]

  /** Python's `row.get(label)`. */
  function Get(row: Row, key: string): Option<string> {
    if key in row then Some(row[key]) else None
  }

  /** Both labels the mapping reads by indexing are present. */
  predicate HasRequiredLabels(row: Row) {
    ProfileNameLabel in row && StartTimeLabel in row
  }

  /**
    * One loop iteration: build the record for `row`. Indexing a missing
    * required label raises `KeyError` with that label; `Profile Name` is
    * read before `Start Time`, so it is the one reported when both are
    * missing.
    */
  function MapRow(row: Row, address: string): (r: Result<UserActivity, Exception>)
    ensures r.Success? <==> HasRequiredLabels(row)
  {
    if ProfileNameLabel !in row then Failure(KeyError(ProfileNameLabel))
    else if StartTimeLabel !in row then Failure(KeyError(StartTimeLabel))
    else Success(UserActivity(
      address := address,
      profileName := row[ProfileNameLabel],
      startTime := row[StartTimeLabel],
      duration := Get(row, DurationLabel),
      attributes := Get(row, AttributesLabel),
      title := Get(row, TitleLabel),
      supplementalVideoType := Get(row, SupplementalVideoTypeLabel),
      deviceType := Get(row, DeviceTypeLabel),
      bookmark := Get(row, BookmarkLabel),
      latestBookmark := Get(row, LatestBookmarkLabel),
      country := Get(row, CountryLabel)))
  }

  /**
    * Reading a mapped record back column by column gives the run's address
    * in `address` and, in every other column, exactly `row.get` of that
    * column's label: cells are copied verbatim, with no trimming, parsing
    * or defaulting.
    */
  lemma MapRowCopiesCells(row: Row, address: string)
    requires HasRequiredLabels(row)
    ensures var values := ColumnValues(MapRow(row, address).value);
      && values["address"] == Some(address)
      && forall column | column in LabelOfColumn :: values[column] == Get(row, LabelOfColumn[column])
  {
  }

  /** The labelled columns and `address` are exactly the data columns a record fills. */
  lemma LabelledColumnsAreRecordColumns(a: UserActivity)
    ensures ColumnValues(a).Keys == LabelOfColumn.Keys + {"address"}
  {
  }

  /** In particular a column is NULL exactly when its label is missing; an empty cell is not NULL. */
  lemma ColumnNullIffLabelAbsent(row: Row, address: string)
    requires HasRequiredLabels(row)
    ensures forall column | column in LabelOfColumn ::
      ColumnValues(MapRow(row, address).value)[column].None? <==> LabelOfColumn[column] !in row
    ensures forall column | column in LabelOfColumn && LabelOfColumn[column] in row && row[LabelOfColumn[column]] == "" ::
      ColumnValues(MapRow(row, address).value)[column] == Some("")
  {
    MapRowCopiesCells(row, address);
  }

  /** Labels other than the ten mapped ones neither change the record nor cause an error. */
  lemma MapRowIgnoresOtherLabels(row: Row, other: Row, address: string)
    requires forall column | column in LabelOfColumn :: Get(row, LabelOfColumn[column]) == Get(other, LabelOfColumn[column])
    ensures MapRow(row, address) == MapRow(other, address)
  {
    assert Get(row, ProfileNameLabel) == Get(other, ProfileNameLabel) by { assert "profile_name" in LabelOfColumn; }
    assert Get(row, StartTimeLabel) == Get(other, StartTimeLabel) by { assert "start_time" in LabelOfColumn; }
    assert Get(row, DurationLabel) == Get(other, DurationLabel) by { assert "duration" in LabelOfColumn; }
    assert Get(row, AttributesLabel) == Get(other, AttributesLabel) by { assert "attributes" in LabelOfColumn; }
    assert Get(row, TitleLabel) == Get(other, TitleLabel) by { assert "title" in LabelOfColumn; }
    assert Get(row, SupplementalVideoTypeLabel) == Get(other, SupplementalVideoTypeLabel) by {
      assert "supplemental_video_type" in LabelOfColumn;
    }
    assert Get(row, DeviceTypeLabel) == Get(other, DeviceTypeLabel) by { assert "device_type" in LabelOfColumn; }
    assert Get(row, BookmarkLabel) == Get(other, BookmarkLabel) by { assert "bookmark" in LabelOfColumn; }
    assert Get(row, LatestBookmarkLabel) == Get(other, LatestBookmarkLabel) by { assert "latest_bookmark" in LabelOfColumn; }
    assert Get(row, CountryLabel) == Get(other, CountryLabel) by { assert "country" in LabelOfColumn; }
  }

  /**
    * The whole loop as a function: the records of `rows` in order, or the
    * first row's `KeyError`. Defined from the last row backwards, as the
    * loop extends its list, so that an earlier row's failure wins.
    */
  function TransformRows(rows: seq<Row>, address: string): (r: Result<seq<UserActivity>, Exception>)
    ensures r.Success? ==>
      && |r.value| == |rows|
      && forall i | 0 <= i < |rows| :: MapRow(rows[i], address) == Success(r.value[i])
  {
    if rows == [] then Success([])
    else
      match TransformRows(rows[..|rows| - 1], address)
      case Failure(e) => Failure(e)
      case Success(done) =>
        match MapRow(rows[|rows| - 1], address)
        case Failure(e) => Failure(e)
        case Success(activity) => Success(done + [activity])
  }

  /** The mapping succeeds exactly when every row carries both required labels. */
  lemma {:induction false} TransformSucceedsIff(rows: seq<Row>, address: string)
    ensures TransformRows(rows, address).Success? <==> forall i | 0 <= i < |rows| :: HasRequiredLabels(rows[i])
  {
    if rows != [] {
      var front := rows[..|rows| - 1];
      TransformSucceedsIff(front, address);
      assert forall i | 0 <= i < |front| :: front[i] == rows[i];
    }
  }

  /** Once a prefix fails, every longer input fails with the same exception. */
  lemma {:induction false} FailedPrefixPersists(rows: seq<Row>, k: nat, address: string)
    requires k <= |rows|
    requires TransformRows(rows[..k], address).Failure?
    ensures TransformRows(rows, address) == TransformRows(rows[..k], address)
    decreases |rows| - k
  {
    if k < |rows| {
      assert rows[..k + 1][..k] == rows[..k];
      FailedPrefixPersists(rows, k + 1, address);
    } else {
      assert rows[..k] == rows;
    }
  }

  /**
    * When row `k` is the first row missing a required label, the call
    * raises that row's `KeyError` and returns no records at all.
    */
  lemma {:induction false} TransformFailsAtFirstBadRow(rows: seq<Row>, address: string, k: nat)
    requires k < |rows| && !HasRequiredLabels(rows[k])
    requires forall j | 0 <= j < k :: HasRequiredLabels(rows[j])
    ensures TransformRows(rows, address) ==
      Failure(KeyError(if ProfileNameLabel !in rows[k] then ProfileNameLabel else StartTimeLabel))
  {
    var prefix := rows[..k];
    TransformSucceedsIff(prefix, address);
    assert rows[..k + 1][..k] == prefix;
    FailedPrefixPersists(rows, k + 1, address);
  }

  /** Every record of a successful call carries the one address passed in. */
  lemma TransformKeepsAddress(rows: seq<Row>, address: string)
    requires TransformRows(rows, address).Success?
    ensures forall i | 0 <= i < |rows| :: TransformRows(rows, address).value[i].address == address
  {
  }

  /**
    * What `csv.DictReader` yields over the opened file: the rows it decoded,
    * in order, and the exception that stopped it early, if any (the file
    * could not be opened, a byte was not UTF-8, a line was malformed). The
    * reader is lazy, so the rows before that point are mapped before the
    * exception surfaces.
    */
  datatype CsvRead = CsvRead(rows: seq<Row>, stopError: Option<Exception>)

  /**
    * The whole call as a function: map the rows the reader yields, then
    * raise the exception that stopped it. A failed mapping comes first.
    */
  function TransformRead(input: CsvRead, address: string): (r: Result<seq<UserActivity>, Exception>)
    ensures r.Success? ==> input.stopError.None? && TransformRows(input.rows, address) == r
  {
    match TransformRows(input.rows, address)
    case Failure(e) => Failure(e)
    case Success(records) => if input.stopError.Some? then Failure(input.stopError.value) else Success(records)
  }

  /** The call succeeds exactly when the reader reached the end and every row has both required labels. */
  lemma {:induction false} TransformReadSucceedsIff(input: CsvRead, address: string)
    ensures TransformRead(input, address).Success? <==>
      input.stopError.None? && forall i | 0 <= i < |input.rows| :: HasRequiredLabels(input.rows[i])
  {
    TransformSucceedsIff(input.rows, address);
  }

  /** A row without a required label, read before the reader fails, raises that row's `KeyError`. */
  lemma {:induction false} KeyErrorPrecedesReadError(input: CsvRead, address: string, k: nat)
    requires k < |input.rows| && !HasRequiredLabels(input.rows[k])
    requires forall j | 0 <= j < k :: HasRequiredLabels(input.rows[j])
    ensures TransformRead(input, address) ==
      Failure(KeyError(if ProfileNameLabel !in input.rows[k] then ProfileNameLabel else StartTimeLabel))
  {
    TransformFailsAtFirstBadRow(input.rows, address, k);
  }

  /** When every row read before the failure maps, the reader's own exception ends the call. */
  lemma {:induction false} ReadErrorAfterMappedRows(input: CsvRead, address: string)
    requires input.stopError.Some?
    requires forall i | 0 <= i < |input.rows| :: HasRequiredLabels(input.rows[i])
    ensures TransformRead(input, address) == Failure(input.stopError.value)
  {
    TransformSucceedsIff(input.rows, address);
  }

  /**
    * `ActivityTransformer.transform`: walk the rows the reader yields in
    * order, appending one record per row; the first row missing a required
    * label aborts the call, and so does the reader's own exception once the
    * rows before it are mapped.
    */
  method Transform(input: CsvRead, address: string) returns (r: Result<seq<UserActivity>, Exception>)
    ensures r == TransformRead(input, address)
  {
    var rows := input.rows;
    var activities: seq<UserActivity> := [];
    for i := 0 to |rows|
      invariant TransformRows(rows[..i], address) == Success(activities)
    {
      assert rows[..i + 1][..i] == rows[..i];
      var activity := MapRow(rows[i], address);
      if activity.Failure? {
        FailedPrefixPersists(rows, i + 1, address);
        return Failure(activity.error);
      }
      activities := activities + [activity.value];
    }
    assert rows[..|rows|] == rows;
    if input.stopError.Some? {
      return Failure(input.stopError.value);
    }
    r := Success(activities);
  }
}
