/** The load of a snapshot into the BigQuery staging table
    (`src/load_bigquery.py`).

    `LoadToBigquery` checks the configuration, settles the source URI
    (falling back to the snapshot location for a date) and describes the
    load job. Running the job (the client, the request and waiting for its
    result) is the parameter `runJob`, which says whether that completed
    without raising. */
module LoadBigquery {
  import opened Common
  import opened Extract
  import opened LoadGcs

  datatype FieldType = DATE | STRING | FLOAT64 | INT64

  datatype SchemaField = SchemaField(name: string, fieldType: FieldType)

  /** `STOCK_PRICES_SCHEMA`. */
  const StockPricesSchema: seq<SchemaField> := [
    SchemaField("date", DATE),
    SchemaField("symbol", STRING),
    SchemaField("open", FLOAT64),
    SchemaField("high", FLOAT64),
    SchemaField("low", FLOAT64),
    SchemaField("close", FLOAT64),
    SchemaField("adj_close", FLOAT64),
    SchemaField("volume", INT64)
  ]

  /** `config.STAGING_TABLE_STOCK_PRICES`. */
  const StagingTable: string := "stock_prices"

  function FieldNames(schema: seq<SchemaField>): (r: seq<string>)
    ensures |r| == |schema| && forall k :: 0 <= k < |schema| ==> r[k] == schema[k].name
  {
    seq(|schema|, k requires 0 <= k < |schema| => schema[k].name)
  }

  /** The staging table has one field per canonical column, in the same
      order; the date is a DATE, the symbol a STRING, the five prices
      FLOAT64 and the volume INT64. */
  lemma SchemaMatchesCanonicalColumns()
    ensures FieldNames(StockPricesSchema) == CanonicalColumns
    ensures StockPricesSchema[0].fieldType == DATE && StockPricesSchema[1].fieldType == STRING
    ensures forall k :: 2 <= k < 7 ==> StockPricesSchema[k].fieldType == FLOAT64
    ensures StockPricesSchema[7].fieldType == INT64
  {
    var names := FieldNames(StockPricesSchema);
    forall k | 0 <= k < 8 ensures names[k] == CanonicalColumns[k] {
      assert names[k] == StockPricesSchema[k].name;
    }
  }

  /** `f"{project}.{dataset_id}.{STAGING_TABLE_STOCK_PRICES}"`. */
  function TableId(project: string, dataset: string): string {
    project + "." + dataset + "." + StagingTable
  }

  /** The table id reads back as project, dataset and table, when neither of
      the first two contains a dot. */
  lemma TableIdSegments(project: string, dataset: string)
    requires '.' !in project && '.' !in dataset
    ensures Split(TableId(project, dataset), '.') == [project, dataset, StagingTable]
  {
    var parts := [project, dataset, StagingTable];
    assert Join(".", parts[2..]) == StagingTable;
    assert Join(".", parts[1..]) == dataset + "." + StagingTable;
    assert Join(".", parts) == TableId(project, dataset);
    assert '.' !in StagingTable;
    SplitJoin(parts, '.');
  }

  /** `f"gs://{bucket_name}/raw/{date_prefix}/stock_prices.parquet"`. */
  function FallbackUri(bucket: string, datePrefix: string): string {
    "gs://" + bucket + "/raw/" + datePrefix + "/stock_prices.parquet"
  }

  /** The fallback URI is the one `save_to_gcs` reports for the same bucket
      and prefix. */
  lemma FallbackMatchesSnapshot(bucket: string, datePrefix: string)
    ensures FallbackUri(bucket, datePrefix) == GcsUri(bucket, BlobPath(datePrefix))
  {
    assert FallbackUri(bucket, datePrefix) == "gs://" + bucket + "/" + ("raw/" + datePrefix + "/stock_prices.parquet");
  }

  datatype SourceFormat = PARQUET
  datatype WriteDisposition = WRITE_APPEND

  /** `client.load_table_from_uri(gcs_uri, table_id, job_config=...)`. */
  datatype LoadJob = LoadJob(sourceUri: string, tableId: string, schema: seq<SchemaField>,
                             sourceFormat: SourceFormat, writeDisposition: WriteDisposition)

  /** The outcome of `load_to_bigquery`: the returned flag and the job that
      was started, if any. */
  datatype LoadAttempt = LoadAttempt(ok: bool, job: Option<LoadJob>)

  /** The URI the load reads: a given URI, otherwise the snapshot location
      when both bucket and prefix are known. */
  function SourceUri(gcsUri: Option<string>, datePrefix: Option<string>, bucket: string): Option<string>
  {
    if !Truthy(gcsUri) && bucket != "" && Truthy(datePrefix) then Some(FallbackUri(bucket, datePrefix.value))
    else if Truthy(gcsUri) then gcsUri
    else None
  }

  /** `load_to_bigquery(gcs_uri, date_prefix)`. `project`, `dataset` and
      `bucket` are the configured `BQ_PROJECT`, `BQ_DATASET_STAGING` and
      `GCS_BUCKET` values. */
  function LoadToBigquery(gcsUri: Option<string>, datePrefix: Option<string>, project: string, dataset: string,
                          bucket: string, runJob: LoadJob -> bool): (r: LoadAttempt)
    ensures project == "" || dataset == "" ==> r == LoadAttempt(false, None)
    ensures project != "" && dataset != "" && Truthy(gcsUri) ==>
      r.job.Some? && r.job.value.sourceUri == gcsUri.value
    ensures project != "" && dataset != "" && !Truthy(gcsUri) && bucket != "" && Truthy(datePrefix) ==>
      r.job.Some? && r.job.value.sourceUri == GcsUri(bucket, BlobPath(datePrefix.value))
    ensures !Truthy(gcsUri) && (bucket == "" || !Truthy(datePrefix)) ==> r == LoadAttempt(false, None)
    ensures r.job.Some? ==>
      && r.job.value.tableId == TableId(project, dataset)
      && r.job.value.schema == StockPricesSchema
      && r.job.value.sourceFormat == PARQUET
      && r.job.value.writeDisposition == WRITE_APPEND
    ensures r.ok <==> r.job.Some? && runJob(r.job.value)
  {
    if project == "" || dataset == "" then LoadAttempt(false, None)
    else
      match SourceUri(gcsUri, datePrefix, bucket)
      case None => LoadAttempt(false, None)
      case Some(uri) =>
        FallbackMatchesSnapshot(bucket, if datePrefix.Some? then datePrefix.value else "");
        var job := LoadJob(uri, TableId(project, dataset), StockPricesSchema, PARQUET, WRITE_APPEND);
        LoadAttempt(runJob(job), Some(job))
  }
}
