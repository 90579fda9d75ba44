# Finance lakehouse ingestion, modelled in Dafny

This project models the ingestion side of a daily market-data pipeline. The pipeline:

1. downloads daily price history (date, open, high, low, close, adjusted close, volume) for a list of stock symbols;
2. normalises each symbol's provider response onto the canonical columns it supplies, out of eight;
3. writes the combined frame to Cloud Storage as a dated Parquet snapshot;
4. loads that snapshot into a BigQuery staging table;
5. reports the run's outcome as exit code 0 or 1.

The files are:

- `common.dfy` holds Python truthiness, `str.join` and `str.split`.
- `dates.dfy` holds the `%Y-%m-%d` formatting of a UTC date and its inverse.
- `frames.dfy` models the part of a pandas `DataFrame` the pipeline relies on:
  - `rename`, scalar column assignment and `reset_index`;
  - projection onto a list of labels;
  - `concat(..., ignore_index=True)`, including alignment of differing columns with NaN fill.
- `extract.dfy` models `src/extract.py`:
  - `_download_one` is a function over the provider's answer. `DownloadAndNormalise` is the same steps run one after another on a private copy.
  - `extract_stock_data` is the method `ExtractStockData`. Its loop is `CollectFrames`. Both are proved against the specification functions `Contributions` and `Combined`.
- `load_gcs.py` has three models in `load_gcs.dfy`:
  - the label-flattening loop, as a method;
  - the snapshot prefix, blob path and URI;
  - the guard sequence of `save_to_gcs`, in `SaveToGcs`.
- `load_bigquery.dfy` models `src/load_bigquery.py`: the staging schema, the table id, the URI fallback and the load guards.
- `ingestion.dfy` models `src/main.py`: the short-circuiting `run_ingestion` sequence and the command-line mapping of `main`.

Collaborators are parameters. Each one is replaced by the outcome it would give:

- the market-data download: `provider`, giving raised, no data or a response;
- the Parquet upload: `upload`, saying whether it completed without raising;
- the BigQuery load job: `runJob`;
- the run's three steps: `extract`, `store` and `load`.

The configuration getters are also parameters: `bucket`, `project` and `dataset`. When they are unset they give the empty string, except the dataset, which defaults to `staging` (src/config.py:15-24). The current UTC date is passed in as `now` or `today`.

Prices, volumes and timestamps are opaque cells. The code never computes with them.

The model follows the code as written, which does less than one might expect:

- No price is rounded.
- No `adj_close` is made up from `close` when the provider omits it. The missing column is simply absent; see `MissingFieldDropped`.
- `extract_stock_data` has no incremental date window, even though the docstrings of src/main.py describe a two-day window.

## Model

| member | source | states |
|---|---|---|
| Extract.DownloadOne | src/extract.py:53-84 | A download that raised is passed on as raised. No data, or an empty frame, gives `None`. A normalised frame only ever comes from a non-empty response. |
| Extract.DownloadAndNormalise | src/extract.py:62-84 | Running the rename, the symbol assignment, `reset_index`, the date rename and the projection one after another gives exactly `DownloadOne`. This includes the `ValueError` path when `reset_index` clashes. |
| Extract.PreparedColumns | src/extract.py:70-81 | `reset_index` fails exactly when the index name is already a column. Otherwise the labels are the renamed index, the renamed provider fields and `symbol`, and each provider row is kept. |
| Extract.DistinctNoClash | src/extract.py:81 | When the labels after renaming are all different, `reset_index` cannot clash. |
| Extract.DownloadOneRows | src/extract.py:66-83 | A returned frame keeps every provider row and has only canonical columns, in canonical order. |
| Extract.DownloadOneSymbol | src/extract.py:80-83 | A returned frame has a `symbol` column, and every row of it holds the requested symbol. |
| Extract.DownloadOneShape | src/extract.py:62-84 | A returned frame is non-empty. It keeps all provider rows and has only canonical columns, in canonical order. Its `symbol` column holds the requested symbol in every row. |
| Extract.DownloadOneColumns | src/extract.py:70-83 | In a returned frame, a label is kept exactly when it is canonical and present after renaming. Labels outside the canonical list are dropped. |
| Extract.DownloadOneRowwise | src/extract.py:66-84 | For a non-empty response with distinct labels, the result equals `CanonicalFrame`. That is an independent row-by-row construction: the index value under `date`, the symbol under `symbol`, and each renamed provider cell under its canonical name. |
| Extract.UsualResponseColumns | src/extract.py:65-84 | A non-empty, `Date`-indexed response with exactly the usual six provider fields gives all eight canonical columns in order, built row by row. |
| Extract.MissingFieldDropped | src/extract.py:82-83 | A non-empty, `Date`-indexed response with the fields `Open`, `High`, `Low`, `Close` and `Volume` (no `Adj Close`) gives the seven columns it has. No `adj_close` is made up. |
| Extract.DefaultTickersNonEmpty | src/extract.py:31 | A missing or empty ticker list falls back to the configured list. That list is never empty. |
| Extract.CollectStep | src/extract.py:38-41 | One symbol adds its frame exactly when the download is normalised and non-empty. |
| Extract.TryCollect | src/extract.py:38-43 | One turn of the loop extends `all_dfs` exactly as `Contributions` says. A raised download adds nothing and does not stop the caller. |
| Extract.CollectFrames | src/extract.py:36-43 | The loop downloads every symbol once, in order. `all_dfs` ends as the frames of the symbols that succeeded. |
| Extract.CombinedOfCollected | src/extract.py:45-49 | Nothing collected gives the empty frame. Otherwise the result is the concatenation of the collected frames. |
| Extract.ExtractStockData | src/extract.py:17-50 | Every symbol in the effective list is requested: the argument, or the configured default when the argument is `None` or empty. An empty list gives the empty frame with no download. The result is `Combined` of the collected contributions. |
| Extract.ContributionsAppend | src/extract.py:37-43 | Collection distributes over concatenation of the symbol list, so each symbol is handled independently. |
| Extract.FailedSymbolSkipped | src/extract.py:37-43 | A symbol whose download raised, gave nothing or was empty contributes nothing. The symbols after it are still collected. |
| Extract.SingleContribution | src/extract.py:39-41 | A single symbol contributes its normalised, non-empty frame or nothing. |
| Extract.ContributionsSound | src/extract.py:39-41 | Every collected frame is the non-empty normalised download of one of the requested symbols. |
| Extract.ExtractedRowCount | src/extract.py:36-49 | The result's row count is the sum of the provider rows of the symbols that succeeded. |
| Extract.CombinedEmptyIff | src/extract.py:45-49 | The result is empty exactly when nothing was collected. |
| Extract.ExtractedSymbolColumn | src/extract.py:36-49 | When at least one symbol was collected, the result's `symbol` column lists each collected symbol once per row it contributed, in symbol-list order. |
| Extract.CombinedSymbolColumn | src/extract.py:49 | Concatenating one or more frames that are each tagged with their symbol gives the tags frame by frame. |
| Frames.ProjectShape | src/extract.py:82-83 | For a wanted list without repeats, the projection keeps the row count. Its labels appear in the order of the wanted list, and a wanted label is kept exactly when the frame has it. |
| Frames.ProjectDistinct | src/extract.py:83 | With distinct labels, the projection's labels are the present wanted labels. Each cell comes from the input column of the same name. |
| Frames.ResetIndex | src/extract.py:81 | For an index as long as the frame, `reset_index` raises exactly when the index's name is already a column. An unnamed index is called `index`, or `level_0` when `index` is taken. On success the index becomes the first column. |
| Frames.AssignConstant | src/extract.py:80 | `df[key] = v` keeps the rows. An existing label keeps the labels as they are; a new label is appended at the end. |
| Frames.AssignConstantCell | src/extract.py:80 | Afterwards every cell under `key` is `v`, and every other cell is unchanged. |
| Frames.ConcatColumns | src/extract.py:49 | The concatenation of one or more frames has a label exactly when one of the frames has it. |
| Frames.ConcatColumnValues | src/extract.py:49 | For a label that every frame has, the concatenation of one or more frames keeps each frame's column under it, in frame order. |
| Frames.EmptyFrame | src/extract.py:34 | `pd.DataFrame()` has no rows and no columns, and is empty. |
| LoadGcs.TruthyParts | src/load_gcs.py:45 | Every kept part is non-empty, and a part is kept exactly when it is non-empty. |
| LoadGcs.TruthyPartsOne | src/load_gcs.py:45 | A single part is kept exactly when it is non-empty. |
| LoadGcs.TruthyPartsAppend | src/load_gcs.py:45 | The parts of a joined list are kept as the parts of each piece, one after the other. With `TruthyPartsOne` this makes the kept parts the non-empty parts in their original order and number. |
| LoadGcs.FlattenColumns | src/load_gcs.py:42-48 | The loop gives one flat name per label, in the same order. Each name is `FlattenLabel` of its label. |
| LoadGcs.FlattenedShape | src/load_gcs.py:41-48 | The flattened copy has as many labels as the frame, in the same order, and the same rows. A plain name keeps its text, so already-flat frames keep their labels. A tuple label never becomes the empty name. |
| LoadGcs.FlattenTuple | src/load_gcs.py:44-45 | A tuple becomes the `_`-join of its non-empty parts, or `col` when there are none. The name is never empty. |
| LoadGcs.FlattenTupleSplit | src/load_gcs.py:45 | Splitting a flattened tuple name on `_` gives back its non-empty parts, when at least one part is non-empty and no part contains `_`. |
| LoadGcs.FlattenExamples | src/load_gcs.py:40-45 | `('date','')` gives `date`, `('Close','AAPL')` gives `Close_AAPL`, and `('','')` gives `col`. |
| LoadGcs.FlattenIdempotent | src/load_gcs.py:46-47 | Flat names are kept, so flattening already-flat labels changes nothing. |
| LoadGcs.BlobPathSegments | src/load_gcs.py:56 | For a prefix without `/`, the blob path splits on `/` into `raw`, the prefix and `stock_prices.parquet`. |
| LoadGcs.BlobPathInjective | src/load_gcs.py:56 | Different prefixes give different blob paths, whatever the prefix contains. |
| LoadGcs.SnapshotUriSegments | src/load_gcs.py:70 | For a bucket and a prefix without `/`, the URI splits into `gs:`, an empty segment, the bucket, `raw`, the prefix and the file name. |
| LoadGcs.SnapshotUriInjective | src/load_gcs.py:56-70 | For bucket names without `/` (Cloud Storage bucket names cannot contain one), two snapshots share a URI only when they share bucket and prefix. The prefix may be any string. |
| LoadGcs.FormattedDateHasNoSlash | src/load_gcs.py:55 | A formatted date with a four-digit year contains no `/`. |
| LoadGcs.DefaultPrefixIsToday | src/load_gcs.py:55-56 | Without a prefix the snapshot is filed under today's UTC date. For a bucket without `/`, that date can be read back from the URI. |
| LoadGcs.SaveToGcs | src/load_gcs.py:16-75 | An upload is attempted exactly when the frame is present and non-empty and both bucket and project are set. The attempt carries the flattened frame under `raw/<prefix>/stock_prices.parquet`. A URI is returned exactly when the upload completes, and it is `gs://<bucket>/<blob path>`. |
| LoadBigquery.SchemaMatchesCanonicalColumns | src/load_bigquery.py:20-29 | The schema's field names are the canonical columns, in order. The types are DATE, STRING, five FLOAT64 and INT64. |
| LoadBigquery.TableIdSegments | src/load_bigquery.py:60 | The table id splits on `.` into project, dataset and `stock_prices`, when neither of the first two contains a dot. |
| LoadBigquery.FallbackMatchesSnapshot | src/load_bigquery.py:52-53 | The fallback URI is the one `save_to_gcs` returns for the same bucket and prefix. |
| LoadBigquery.LoadToBigquery | src/load_bigquery.py:32-75 | A missing project or dataset fails with no job. A given URI is used unchanged. Otherwise a bucket and prefix give the snapshot URI, and when either is missing the load fails with no job. Every job targets `project.dataset.stock_prices` with the staging schema, Parquet and append. The result is true exactly when a job ran and completed. |
| Ingestion.RunIngestion | src/main.py:29-65 | The exit code is 0 or 1. It is 0 exactly when all four hold: the bucket is set, the extraction is non-empty, storage returns a URI, and the load of that URI succeeds. A missing bucket makes no call. Otherwise extraction is the first call, and the steps run in order. |
| Ingestion.RunStepsChain | src/main.py:44-65 | Storage runs only after a non-empty extraction, under the run's date. The load runs only after storage returned a URI, and reads exactly that URI. Any shorter run exits 1. |
| Ingestion.StoredUnderRunDate | src/main.py:40-55 | The prefix handed to storage is the run's UTC date as `YYYY-MM-DD`, and it reads back as that date. |
| Ingestion.MainExtractRequest | src/main.py:79-90 | In a run with the bucket set, the extraction request is as follows. Without `--backfill` the run is incremental and passes no period. With it, the period is `--period`, or `1mo` by default. |
| Ingestion.AsWrittenNeverSucceeds | src/main.py:48 | As written, a run with the bucket set raises `TypeError` before extracting, so it never stores, loads or returns 0. |
| Dates.FormatDate | src/main.py:40 | For a year from 1000 to 9999, `%Y-%m-%d` has ten characters: dashes at positions 4 and 7 and digits everywhere else. |
| Dates.FormatDateRoundTrip | src/main.py:40 | For a year from 1000 to 9999, parsing a formatted date gives back the date. |
| Dates.FormatDateInjective | src/load_gcs.py:55 | Different dates with years from 1000 to 9999 never share a snapshot prefix. |

## Left out

- The `yf.download` call (src/extract.py:55-61) is a network call into a library. It is the `provider` parameter, a pure function of symbol and period, so two downloads of one symbol give the same answer.
- Date conversion is left out: `pd.to_datetime` and the time-zone strip (src/extract.py:67-69), and the conversion of `date` to calendar dates (src/load_gcs.py:52-53). Dates are opaque cells, so on values that convert these steps change nothing in the model.
- LoadGcs.SaveToGcs: the date conversion at src/load_gcs.py:52-53 runs before the `try` of line 58. An exception it raises (an unparsable value, or two labels that both flatten to `date`) escapes `save_to_gcs`, `run_ingestion` and `main` instead of yielding `None`. That path is not modelled: the model always returns `None` or a URI.
- The Parquet serialisation, the Cloud Storage client (src/load_gcs.py:58-69) and the BigQuery client and job (src/load_bigquery.py:59-69) are SDK calls. Each is a parameter saying whether it completed without raising.
- The environment lookups in src/config.py are left out. They are passed in as strings.
- `src/inspect_parquet.py` is not part of this model. It reads a file and prints it.
- Logging and the `argparse` machinery are left out, apart from the mapping of `--backfill` and `--period`.
- The clock is left out: the current UTC date is a parameter. `ValidDate` limits years to 1000-9999 so that `%Y` has four digits.
- Frames.Concat: when one frame has the same label twice, the value is taken from its first occurrence. pandas raises on such duplicate labels when the columns differ.
- LoadGcs.FlattenLabel: tuple parts are strings. `str(x)` of non-string parts and the empty-part test (`if x`) on other types are not modelled.
- pandas `MultiIndex` labels in `_download_one` are not modelled: labels there are plain strings. Flattening of tuple labels is modelled separately in `load_gcs.dfy`.
- Extract.DownloadOne: exceptions raised by pandas steps other than `reset_index` are not modelled.

## Findings

| source | as written | input that shows it | evidently intended | confidence | as-written member | corrected member |
|---|---|---|---|---|---|---|
| src/main.py:48 | `run_ingestion` calls `extract_stock_data(incremental=..., period=...)`, but `extract_stock_data` declares only `tickers` and `period` (src/extract.py:17-20). The call raises `TypeError`, which nothing catches. | Any run with `GCS_BUCKET` set, for example `run_ingestion(True, "1mo")`. | Call extraction with the run's mode and period, then short-circuit on its result. | not executed | Ingestion.AsWrittenNeverSucceeds | Ingestion.RunIngestion |
