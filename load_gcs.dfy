/** The Parquet snapshot in Cloud Storage (`src/load_gcs.py`).

    `SaveToGcs` checks its input and configuration, flattens the column
    labels of a copy of the frame, picks the snapshot prefix and uploads the
    frame to `raw/<prefix>/stock_prices.parquet`. The upload itself (Parquet
    serialisation and the storage client) is the parameter `upload`, which
    says whether the attempt completed without raising. */
module LoadGcs {
  import opened Common
  import opened Dates
  import opened Frames

  /** A column label as pandas may hold it: a plain name, or a tuple of
      parts, as a two-level column index gives. */
  datatype Label = Name(name: string) | Tuple(parts: seq<string>)

  /** `(x for x in c if x)`: the non-empty parts, in order. */
  function TruthyParts(parts: seq<string>): (r: seq<string>)
    ensures forall k :: 0 <= k < |r| ==> r[k] != ""
    ensures forall x :: x in r <==> x in parts && x != ""
  {
    if parts == [] then []
    else (if parts[0] != "" then [parts[0]] else []) + TruthyParts(parts[1..])
  }

  /** The filter keeps one part exactly when it is non-empty. */
  lemma TruthyPartsOne(x: string)
    ensures TruthyParts([x]) == (if x != "" then [x] else [])
  {
    assert [x][1..] == [];
  }

  /** The filter works part by part, keeping the order of the parts: with
      `TruthyPartsOne` this pins it down as the in-order filter. */
  lemma {:induction false} TruthyPartsAppend(a: seq<string>, b: seq<string>)
    ensures TruthyParts(a + b) == TruthyParts(a) + TruthyParts(b)
  {
    if a == [] {
      assert a + b == b;
    } else {
      assert (a + b)[0] == a[0];
      assert (a + b)[1..] == a[1..] + b;
      TruthyPartsAppend(a[1..], b);
    }
  }

  /** The flat name the loop gives one label. */
  function FlattenLabel(c: Label): string {
    match c
    case Name(n) => n
    case Tuple(parts) =>
      var joined := Join("_", TruthyParts(parts));
      if joined != "" then joined else "col"
  }

  function FlattenAll(columns: seq<Label>): (r: seq<string>)
    ensures |r| == |columns|
    ensures forall k :: 0 <= k < |columns| ==> r[k] == FlattenLabel(columns[k])
  {
    seq(|columns|, k requires 0 <= k < |columns| => FlattenLabel(columns[k]))
  }

  /** The frame with its labels flattened; the rows are untouched. */
  function Flattened(t: Frame<Label>): (r: Frame<string>)
    ensures r.columns == FlattenAll(t.columns) && r.rows == t.rows
  {
    Table(FlattenAll(t.columns), t.rows)
  }

  /** The flattened copy has as many labels as the frame, in the same order,
      and the same rows. A plain name keeps its text and a tuple label never
      flattens to the empty name. */
  lemma FlattenedShape(t: Frame<Label>)
    ensures |Flattened(t).columns| == |t.columns| && Flattened(t).rows == t.rows
    ensures forall k :: 0 <= k < |t.columns| && t.columns[k].Name? ==>
      Flattened(t).columns[k] == t.columns[k].name
    ensures forall k :: 0 <= k < |t.columns| && t.columns[k].Tuple? ==>
      Flattened(t).columns[k] != ""
  {
    forall k | 0 <= k < |t.columns| && t.columns[k].Tuple?
      ensures Flattened(t).columns[k] != ""
    {
      FlattenTuple(t.columns[k].parts);
    }
  }

  /** The loop that builds `new_cols`. */
  method FlattenColumns(columns: seq<Label>) returns (newCols: seq<string>)
    ensures |newCols| == |columns|
    ensures forall k :: 0 <= k < |columns| ==> newCols[k] == FlattenLabel(columns[k])
  {
    newCols := [];
    var i := 0;
    while i < |columns|
      invariant 0 <= i <= |columns|
      invariant |newCols| == i
      invariant forall k :: 0 <= k < i ==> newCols[k] == FlattenLabel(columns[k])
    {
      var c := columns[i];
      if c.Tuple? {
        var joined := Join("_", TruthyParts(c.parts));
        newCols := newCols + [if joined != "" then joined else "col"];
      } else {
        newCols := newCols + [c.name];
      }
      i := i + 1;
    }
  }

  // ---------------------------------------------------------------------------
  // What flattening promises

  /** A tuple label becomes the `_`-join of its non-empty parts, or `col` when
      it has none; either way the name is never empty. */
  lemma FlattenTuple(parts: seq<string>)
    ensures TruthyParts(parts) == [] ==> FlattenLabel(Tuple(parts)) == "col"
    ensures TruthyParts(parts) != [] ==> FlattenLabel(Tuple(parts)) == Join("_", TruthyParts(parts))
    ensures FlattenLabel(Tuple(parts)) != ""
  {
    JoinEmpty("_", TruthyParts(parts));
  }

  /** Splitting a flattened tuple name on `_` gives back its non-empty parts,
      provided no part contains `_` itself. */
  lemma FlattenTupleSplit(parts: seq<string>)
    requires TruthyParts(parts) != []
    requires forall k :: 0 <= k < |parts| ==> '_' !in parts[k]
    ensures Split(FlattenLabel(Tuple(parts)), '_') == TruthyParts(parts)
  {
    var kept := TruthyParts(parts);
    FlattenTuple(parts);
    forall k | 0 <= k < |kept| ensures '_' !in kept[k] {
      assert kept[k] in parts;
    }
    SplitJoin(kept, '_');
  }

  /** The labels a two-level index gives the pipeline's own frames. */
  lemma FlattenExamples()
    ensures FlattenLabel(Tuple(["date", ""])) == "date"
    ensures FlattenLabel(Tuple(["Close", "AAPL"])) == "Close_AAPL"
    ensures FlattenLabel(Tuple(["", ""])) == "col"
  {
    assert TruthyParts(["date", ""]) == ["date"];
    assert TruthyParts(["Close", "AAPL"]) == ["Close", "AAPL"];
    assert TruthyParts(["", ""]) == [];
  }

  function Names(columns: seq<string>): (r: seq<Label>)
    ensures |r| == |columns| && forall k :: 0 <= k < |columns| ==> r[k] == Name(columns[k])
  {
    seq(|columns|, k requires 0 <= k < |columns| => Name(columns[k]))
  }

  /** Flat names are kept as they are, so flattening twice changes nothing. */
  lemma FlattenIdempotent(columns: seq<string>)
    ensures FlattenAll(Names(columns)) == columns
  {
  }

  // ---------------------------------------------------------------------------
  // The snapshot location

  /** `date_prefix or <today as %Y-%m-%d>`. */
  function SnapshotPrefix(datePrefix: Option<string>, today: UtcDate): string
    requires ValidDate(today)
  {
    if Truthy(datePrefix) then datePrefix.value else FormatDate(today)
  }

  /** `raw/{prefix}/stock_prices.parquet`. */
  function BlobPath(prefix: string): string {
    "raw/" + prefix + "/stock_prices.parquet"
  }

  /** `gs://{bucket}/{blob_path}`. */
  function GcsUri(bucket: string, blobPath: string): string {
    "gs://" + bucket + "/" + blobPath
  }

  lemma FixedSegmentsHaveNoSlash()
    ensures '/' !in "gs:" && '/' !in "" && '/' !in "raw" && '/' !in "stock_prices.parquet"
  {
  }

  lemma BlobPathJoin(prefix: string)
    ensures Join("/", ["raw", prefix, "stock_prices.parquet"]) == BlobPath(prefix)
  {
    var parts := ["raw", prefix, "stock_prices.parquet"];
    assert Join("/", parts[2..]) == "stock_prices.parquet";
    assert Join("/", parts[1..]) == prefix + "/" + "stock_prices.parquet";
    assert "raw" + "/" == "raw/" && "/" + "stock_prices.parquet" == "/stock_prices.parquet";
  }

  lemma SnapshotUriJoin(bucket: string, prefix: string)
    ensures Join("/", ["gs:", "", bucket, "raw", prefix, "stock_prices.parquet"]) == GcsUri(bucket, BlobPath(prefix))
  {
    var parts := ["gs:", "", bucket, "raw", prefix, "stock_prices.parquet"];
    BlobPathJoin(prefix);
    assert parts[3..] == ["raw", prefix, "stock_prices.parquet"];
    assert Join("/", parts[2..]) == bucket + "/" + BlobPath(prefix);
    assert Join("/", parts[1..]) == "/" + bucket + "/" + BlobPath(prefix);
    assert "gs:" + "/" + "/" == "gs://";
  }

  /** The blob path reads back as its three segments. */
  lemma BlobPathSegments(prefix: string)
    requires '/' !in prefix
    ensures Split(BlobPath(prefix), '/') == ["raw", prefix, "stock_prices.parquet"]
  {
    var parts := ["raw", prefix, "stock_prices.parquet"];
    BlobPathJoin(prefix);
    FixedSegmentsHaveNoSlash();
    SplitJoin(parts, '/');
  }

  /** The snapshot URI reads back as its bucket, prefix and file name. */
  lemma SnapshotUriSegments(bucket: string, prefix: string)
    requires '/' !in bucket && '/' !in prefix
    ensures Split(GcsUri(bucket, BlobPath(prefix)), '/') == ["gs:", "", bucket, "raw", prefix, "stock_prices.parquet"]
  {
    var parts := ["gs:", "", bucket, "raw", prefix, "stock_prices.parquet"];
    SnapshotUriJoin(bucket, prefix);
    FixedSegmentsHaveNoSlash();
    SplitJoin(parts, '/');
  }

  /** Different prefixes give different blob paths. */
  lemma BlobPathInjective(p1: string, p2: string)
    requires BlobPath(p1) == BlobPath(p2)
    ensures p1 == p2
  {
    var s1, s2 := BlobPath(p1), BlobPath(p2);
    assert s1[4..|s1| - 21] == p1;
    assert s2[4..|s2| - 21] == p2;
  }

  /** Two snapshots share a URI only when they share bucket and prefix, for
      bucket names without `/`; the prefix may be any string. */
  lemma SnapshotUriInjective(b1: string, p1: string, b2: string, p2: string)
    requires '/' !in b1 && '/' !in b2
    requires GcsUri(b1, BlobPath(p1)) == GcsUri(b2, BlobPath(p2))
    ensures b1 == b2 && p1 == p2
  {
    var u1, u2 := GcsUri(b1, BlobPath(p1)), GcsUri(b2, BlobPath(p2));
    assert u1[5..] == b1 + ['/'] + BlobPath(p1);
    assert u2[5..] == b2 + ['/'] + BlobPath(p2);
    SplitAfterPiece(b1, '/', BlobPath(p1));
    SplitAfterPiece(b2, '/', BlobPath(p2));
    assert Split(u1[5..], '/')[0] == b1;
    assert Split(u2[5..], '/')[0] == b2;
    assert u1[5 + |b1| + 1..] == BlobPath(p1);
    assert u2[5 + |b2| + 1..] == BlobPath(p2);
    BlobPathInjective(p1, p2);
  }

  lemma FormattedDateHasNoSlash(d: UtcDate)
    requires ValidDate(d)
    ensures '/' !in FormatDate(d)
  {
    var s := FormatDate(d);
    forall k | 0 <= k < |s| ensures s[k] != '/' {
      if k != 4 && k != 7 {
        assert IsDigit(s[k]);
      }
    }
  }

  /** Without a prefix the snapshot is filed under the run's date, which can
      be read back from the URI. */
  lemma DefaultPrefixIsToday(bucket: string, datePrefix: Option<string>, today: UtcDate)
    requires ValidDate(today) && !Truthy(datePrefix) && '/' !in bucket
    ensures SnapshotPrefix(datePrefix, today) == FormatDate(today)
    ensures var segments := Split(GcsUri(bucket, BlobPath(SnapshotPrefix(datePrefix, today))), '/');
      |segments| == 6 && |segments[4]| == 10 && ParseDate(segments[4]) == today
  {
    FormattedDateHasNoSlash(today);
    SnapshotUriSegments(bucket, FormatDate(today));
    FormatDateRoundTrip(today);
  }

  // ---------------------------------------------------------------------------
  // `save_to_gcs`

  /** One upload attempt: the client's project, the bucket, the blob path and
      the frame written as Parquet. */
  datatype Upload = Upload(project: string, bucket: string, blobPath: string, frame: Frame<string>)

  /** `save_to_gcs(df, date_prefix)`. `bucket` and `project` are the
      configured `GCS_BUCKET` and `BQ_PROJECT` (empty when unset), `today` the
      current UTC date, and `upload` whether an attempt completes without
      raising. `attempted` is the upload that was attempted, if any. */
  method SaveToGcs(df: Option<Frame<Label>>, datePrefix: Option<string>, bucket: string, project: string,
                   today: UtcDate, upload: Upload -> bool)
    returns (uri: Option<string>, attempted: Option<Upload>)
    requires ValidDate(today)
    ensures attempted.Some? <==> df.Some? && !IsEmpty(df.value) && bucket != "" && project != ""
    ensures attempted.Some? ==>
      attempted.value == Upload(project, bucket, BlobPath(SnapshotPrefix(datePrefix, today)), Flattened(df.value))
    ensures uri.Some? <==> attempted.Some? && upload(attempted.value)
    ensures uri.Some? ==> uri.value == GcsUri(bucket, attempted.value.blobPath)
  {
    if df.None? || IsEmpty(df.value) {
      // Empty DataFrame, skipping GCS upload
      return None, None;
    }
    if bucket == "" {
      return None, None;
    }
    if project == "" {
      return None, None;
    }
    // Flattening works on a copy: the caller's frame is a value and stays as it was.
    var frame := df.value;
    var newCols := FlattenColumns(frame.columns);
    var flat: Frame<string> := Table(newCols, frame.rows);
    var prefix := SnapshotPrefix(datePrefix, today);
    var blobPath := BlobPath(prefix);
    var request := Upload(project, bucket, blobPath, flat);
    attempted := Some(request);
    if upload(request) {
      uri := Some(GcsUri(bucket, blobPath));
    } else {
      // Failed to upload to GCS
      uri := None;
    }
  }
}
