/** The run coordinator and its command line (`src/main.py`).

    `RunIngestion` is the short-circuiting sequence bucket check, extract,
    store, load, ending in exit code 0 or 1. Its three collaborators are
    parameters giving their outcome: `extract` the frame extraction returns
    for the arguments it was called with, `store` the URI the snapshot upload
    returns, `load` whether the staging load succeeded. A run records the
    calls it made, in order. */
module Ingestion {
  import opened Common
  import opened Dates
  import opened Frames

  /** The keyword arguments the coordinator passes to extraction. */
  datatype ExtractRequest = ExtractRequest(incremental: bool, period: Option<string>)

  /** A collaborator call made by a run. */
  datatype Step =
    | Extracted(request: ExtractRequest)
    | Stored(frame: Frame<string>, datePrefix: string)
    | Loaded(gcsUri: string)

  datatype Run = Run(exitCode: int, steps: seq<Step>)

  /** The arguments of the extraction call: a period only for a backfill. */
  function RequestFor(incremental: bool, backfillPeriod: string): ExtractRequest {
    ExtractRequest(incremental, if !incremental then Some(backfillPeriod) else None)
  }

  /** `run_ingestion(incremental, backfill_period)` on the UTC date `now`,
      with `bucket` the configured `GCS_BUCKET` (empty when unset). */
  function RunIngestion(incremental: bool, backfillPeriod: string, now: UtcDate, bucket: string,
                        extract: ExtractRequest -> Option<Frame<string>>,
                        store: (Frame<string>, string) -> Option<string>,
                        load: string -> bool): (r: Run)
    requires ValidDate(now)
    ensures r.exitCode == 0 || r.exitCode == 1
    ensures r.exitCode == 0 <==>
      && bucket != ""
      && var df := extract(RequestFor(incremental, backfillPeriod));
         && df.Some? && !IsEmpty(df.value)
         && Truthy(store(df.value, FormatDate(now)))
         && load(store(df.value, FormatDate(now)).value)
    ensures bucket == "" <==> r.steps == []
    ensures bucket != "" ==> r.steps[0] == Extracted(RequestFor(incremental, backfillPeriod))
    ensures |r.steps| <= 3
    ensures forall k :: 0 <= k < |r.steps| ==>
      (r.steps[k].Extracted? <==> k == 0) && (r.steps[k].Stored? <==> k == 1) && (r.steps[k].Loaded? <==> k == 2)
  {
    var datePrefix := FormatDate(now);
    if bucket == "" then Run(1, [])
    else
      var request := RequestFor(incremental, backfillPeriod);
      var df := extract(request);
      if df.None? || IsEmpty(df.value) then Run(1, [Extracted(request)])
      else
        var gcsUri := store(df.value, datePrefix);
        if !Truthy(gcsUri) then Run(1, [Extracted(request), Stored(df.value, datePrefix)])
        else if !load(gcsUri.value) then Run(1, [Extracted(request), Stored(df.value, datePrefix), Loaded(gcsUri.value)])
        else Run(0, [Extracted(request), Stored(df.value, datePrefix), Loaded(gcsUri.value)])
  }

  /** Each step runs only after the one before it succeeded: storage sees
      only a non-empty extracted frame, under the run's date, and the load
      reads exactly the URI storage returned. */
  lemma RunStepsChain(incremental: bool, backfillPeriod: string, now: UtcDate, bucket: string,
                      extract: ExtractRequest -> Option<Frame<string>>,
                      store: (Frame<string>, string) -> Option<string>,
                      load: string -> bool)
    requires ValidDate(now)
    ensures var r := RunIngestion(incremental, backfillPeriod, now, bucket, extract, store, load);
      var df := extract(RequestFor(incremental, backfillPeriod));
      && (|r.steps| >= 2 <==> bucket != "" && df.Some? && !IsEmpty(df.value))
      && (|r.steps| >= 2 ==> r.steps[1] == Stored(df.value, FormatDate(now)))
      && (|r.steps| == 3 <==> |r.steps| >= 2 && Truthy(store(df.value, FormatDate(now))))
      && (|r.steps| == 3 ==> r.steps[2] == Loaded(store(df.value, FormatDate(now)).value))
      && (|r.steps| < 3 ==> r.exitCode == 1)
  {
  }

  /** The prefix handed to storage names the run's date and reads back as it. */
  lemma StoredUnderRunDate(incremental: bool, backfillPeriod: string, now: UtcDate, bucket: string,
                           extract: ExtractRequest -> Option<Frame<string>>,
                           store: (Frame<string>, string) -> Option<string>,
                           load: string -> bool)
    requires ValidDate(now)
    requires |RunIngestion(incremental, backfillPeriod, now, bucket, extract, store, load).steps| >= 2
    ensures var prefix := RunIngestion(incremental, backfillPeriod, now, bucket, extract, store, load).steps[1].datePrefix;
      |prefix| == 10 && ParseDate(prefix) == now
  {
    FormatDateRoundTrip(now);
  }

  // ---------------------------------------------------------------------------
  // `main`: the command line

  /** What `argparse` gives: whether `--backfill` was present and the value
      of `--period`, if one was given. */
  datatype CliArgs = CliArgs(backfill: bool, period: Option<string>)

  /** The default of `--period`. */
  const DefaultPeriod: string := "1mo"

  datatype RunArgs = RunArgs(incremental: bool, backfillPeriod: string)

  /** `run_ingestion(incremental=not args.backfill, backfill_period=args.period)`. */
  function RunArgsOf(args: CliArgs): RunArgs {
    RunArgs(!args.backfill, if args.period.Some? then args.period.value else DefaultPeriod)
  }

  /** `main()`'s exit code and calls. */
  function Main(args: CliArgs, now: UtcDate, bucket: string,
                extract: ExtractRequest -> Option<Frame<string>>,
                store: (Frame<string>, string) -> Option<string>,
                load: string -> bool): Run
    requires ValidDate(now)
  {
    var a := RunArgsOf(args);
    RunIngestion(a.incremental, a.backfillPeriod, now, bucket, extract, store, load)
  }

  /** Without `--backfill` a run is incremental and passes no period; with it,
      the run asks for the `--period` window, one month by default. */
  lemma MainExtractRequest(args: CliArgs, now: UtcDate, bucket: string,
                           extract: ExtractRequest -> Option<Frame<string>>,
                           store: (Frame<string>, string) -> Option<string>,
                           load: string -> bool)
    requires ValidDate(now) && bucket != ""
    ensures var request := Main(args, now, bucket, extract, store, load).steps[0].request;
      && (!args.backfill ==> request == ExtractRequest(true, None))
      && (args.backfill && args.period.None? ==> request == ExtractRequest(false, Some("1mo")))
      && (args.backfill && args.period.Some? ==> request == ExtractRequest(false, args.period))
  {
  }

  // ---------------------------------------------------------------------------
  // The coordinator as written

  /** The keyword parameters `extract_stock_data` declares. */
  const ExtractParameters: seq<string> := ["tickers", "period"]

  /** The keywords `run_ingestion` passes it. */
  const ExtractCallKeywords: seq<string> := ["incremental", "period"]

  /** A call binds when every keyword names a declared parameter; otherwise
      Python raises `TypeError` before the callee runs. */
  predicate Binds(parameters: seq<string>, keywords: seq<string>) {
    forall k :: 0 <= k < |keywords| ==> keywords[k] in parameters
  }

  /** How a run ends as written: it returns, or `TypeError` escapes it after
      the given calls. */
  datatype Ending = Returned(run: Run) | RaisedTypeError(steps: seq<Step>)

  /** `run_ingestion` as written: the extraction call passes `incremental=`,
      which `extract_stock_data` does not declare, so the call raises instead
      of extracting; the exception is not caught. */
  function RunIngestionAsWritten(incremental: bool, backfillPeriod: string, now: UtcDate, bucket: string,
                                 extract: ExtractRequest -> Option<Frame<string>>,
                                 store: (Frame<string>, string) -> Option<string>,
                                 load: string -> bool): Ending
    requires ValidDate(now)
  {
    if bucket == "" then Returned(Run(1, []))
    else if !Binds(ExtractParameters, ExtractCallKeywords) then RaisedTypeError([])
    else Returned(RunIngestion(incremental, backfillPeriod, now, bucket, extract, store, load))
  }

  /** As written, a configured run never extracts, stores or loads, and never
      returns 0, whatever its collaborators would do; the corrected
      `RunIngestion` returns 0 whenever every step succeeds. */
  lemma AsWrittenNeverSucceeds(incremental: bool, backfillPeriod: string, now: UtcDate, bucket: string,
                               extract: ExtractRequest -> Option<Frame<string>>,
                               store: (Frame<string>, string) -> Option<string>,
                               load: string -> bool)
    requires ValidDate(now) && bucket != ""
    ensures RunIngestionAsWritten(incremental, backfillPeriod, now, bucket, extract, store, load) == RaisedTypeError([])
  {
    assert ExtractCallKeywords[0] !in ExtractParameters;
  }
}
