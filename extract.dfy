/** Batch extraction from the market-data provider (`src/extract.py`).

    `DownloadOne` normalises one symbol's provider response into the
    canonical eight-column shape; `ExtractStockData` walks the symbol list,
    skips every symbol whose download raised or gave nothing, and joins the
    surviving frames in symbol order. The provider itself (`yf.download`) is
    the parameter `provider`: for a symbol and a period it gives the outcome
    of one download. */
module Extract {
  import opened Common
  import opened Frames

  /** `config.TICKERS`, the default symbol list. */
  const Tickers: seq<string> := ["AAPL", "MSFT", "TSLA"]

  /** The closed, ordered list of columns an extracted frame may carry. */
  const CanonicalColumns: seq<string> :=
    ["date", "symbol", "open", "high", "low", "close", "adj_close", "volume"]

  /** Provider field names and their canonical names. */
  const PriceRenames: map<string, string> :=
    map["Open" := "open", "High" := "high", "Low" := "low", "Close" := "close",
        "Adj Close" := "adj_close", "Volume" := "volume"]

  /** The rename applied once the date index has become a column. */
  const DateRename: map<string, string> := map["Date" := "date"]

  /** A provider response: an index (the trading timestamps, opaque here) with
      its name, and the frame of provider fields, one row per index entry. */
  datatype RawFrame = RawFrame(indexName: Option<string>, index: seq<Cell>, data: Frame<string>)

  type Response = r: RawFrame | |r.index| == |r.data.rows| witness RawFrame(None, [], Table([], []))

  /** The outcome of one provider download: it raised, it gave `None`, or it
      gave a frame. */
  datatype Download = Raises | NoData | Got(response: Response)

  /** The outcome of `_download_one`: an exception reaching the caller, `None`,
      or the normalised frame. */
  datatype Fetched = Raised | NoFrame | Normalised(frame: Frame<string>)

  // ---------------------------------------------------------------------------
  // `_download_one`

  /** The response after the price rename, the symbol column, `reset_index`
      and the date rename; `None` when `reset_index` raises because the index
      name is already a column. */
  function Prepared(symbol: string, raw: Response): Option<Frame<string>>
  {
    var named := RenameColumns(raw.data, PriceRenames);
    var tagged := AssignConstant(named, "symbol", Text(symbol));
    match ResetIndex(tagged, raw.indexName, raw.index)
    case None => None
    case Some(reset) => Some(RenameColumns(reset, DateRename))
  }

  /** `_download_one(symbol, period)` given what the download gave. */
  function DownloadOne(symbol: string, d: Download): (r: Fetched)
    ensures d.Raises? ==> r.Raised?
    ensures d.NoData? ==> r.NoFrame?
    ensures d.Got? && IsEmpty(d.response.data) ==> r.NoFrame?
    ensures r.Normalised? ==> d.Got? && !IsEmpty(d.response.data)
  {
    match d
    case Raises => Raised
    case NoData => NoFrame
    case Got(raw) =>
      if IsEmpty(raw.data) then NoFrame
      else
        match Prepared(symbol, raw)
        case None => Raised
        case Some(t) => Normalised(Project(t, CanonicalColumns))
  }

  /** `_download_one(symbol, period)` as the code runs it: the response is
      rewritten step by step on a private copy, so the provider's frame is
      never changed. */
  method DownloadAndNormalise(symbol: string, d: Download) returns (r: Fetched)
    ensures r == DownloadOne(symbol, d)
  {
    if d.Raises? {
      return Raised;
    }
    if d.NoData? || IsEmpty(d.response.data) {
      return NoFrame;
    }
    var raw := d.response;
    var data := raw.data;
    data := RenameColumns(data, PriceRenames);
    data := AssignConstant(data, "symbol", Text(symbol));
    var reset := ResetIndex(data, raw.indexName, raw.index);
    if reset.None? {
      // `reset_index` raises `ValueError`
      return Raised;
    }
    data := RenameColumns(reset.value, DateRename);
    var cols := Present(CanonicalColumns, data.columns);
    data := Select(data, PositionsOfAll(data.columns, cols));
    return Normalised(data);
  }

  lemma DownloadOneUnfold(symbol: string, d: Download)
    requires DownloadOne(symbol, d).Normalised?
    ensures d.Got? && !IsEmpty(d.response.data) && Prepared(symbol, d.response).Some?
    ensures DownloadOne(symbol, d).frame == Project(Prepared(symbol, d.response).value, CanonicalColumns)
  {
  }

  // The labels of the prepared frame, computed from the response's labels alone.

  function PriceNames(raw: Response): seq<string> {
    RenameAll(PriceRenames, raw.data.columns)
  }

  function TaggedNames(raw: Response): seq<string> {
    if "symbol" in PriceNames(raw) then PriceNames(raw) else PriceNames(raw) + ["symbol"]
  }

  /** The name `reset_index` gives the date column, before the date rename. */
  function IndexName(raw: Response): string {
    IndexColumnName(raw.indexName, TaggedNames(raw))
  }

  /** Each provider column's name after both renames. */
  function ProviderLabels(raw: Response): seq<string> {
    RenameAll(DateRename, PriceNames(raw))
  }

  /** The labels present after renaming: the reset index, the provider
      columns, and the symbol column when no provider column supplied it. */
  function PreparedLabels(raw: Response): seq<string> {
    [Renamed(DateRename, IndexName(raw))] + ProviderLabels(raw)
      + (if "symbol" in PriceNames(raw) then [] else ["symbol"])
  }

  /** `reset_index` refuses an index name that is already a column. */
  predicate IndexClashes(raw: Response) {
    IndexName(raw) in TaggedNames(raw)
  }

  lemma DateRenameIsSymbol(x: string)
    ensures Renamed(DateRename, x) == "symbol" <==> x == "symbol"
  {
  }

  /** The date rename over the labels after `reset_index`. */
  lemma RenameTagged(names: seq<string>, n: string)
    ensures RenameAll(DateRename, [n] + (if "symbol" in names then names else names + ["symbol"])) ==
      [Renamed(DateRename, n)] + RenameAll(DateRename, names) + (if "symbol" in names then [] else ["symbol"])
  {
    RenameAllAppend(DateRename, [n], if "symbol" in names then names else names + ["symbol"]);
    RenameAllAppend(DateRename, names, ["symbol"]);
    assert RenameAll(DateRename, ["symbol"]) == ["symbol"];
  }

  lemma PreparedColumns(symbol: string, raw: Response)
    ensures Prepared(symbol, raw).None? <==> IndexClashes(raw)
    ensures Prepared(symbol, raw).Some? ==>
      && Prepared(symbol, raw).value.columns == PreparedLabels(raw)
      && |Prepared(symbol, raw).value.rows| == |raw.data.rows|
  {
    var named := RenameColumns(raw.data, PriceRenames);
    var tagged := AssignConstant(named, "symbol", Text(symbol));
    assert tagged.columns == TaggedNames(raw);
    var n := IndexName(raw);
    if !IndexClashes(raw) {
      var reset := ResetIndex(tagged, raw.indexName, raw.index).value;
      assert reset.columns == [n] + TaggedNames(raw);
      RenameTagged(PriceNames(raw), n);
    }
  }

  /** Without a clash the date label is not the symbol label. */
  lemma PreparedLabelZero(raw: Response)
    requires !IndexClashes(raw)
    ensures PreparedLabels(raw)[0] != "symbol"
  {
    DateRenameIsSymbol(IndexName(raw));
    assert "symbol" in TaggedNames(raw);
  }

  /** Past the date label, each prepared label is a tagged label renamed. */
  lemma PreparedLabelAt(raw: Response, p: nat)
    requires 0 < p < |PreparedLabels(raw)|
    ensures p - 1 < |TaggedNames(raw)| && PreparedLabels(raw)[p] == Renamed(DateRename, TaggedNames(raw)[p - 1])
  {
    RenameTagged(PriceNames(raw), IndexName(raw));
    var all := [IndexName(raw)] + TaggedNames(raw);
    assert PreparedLabels(raw) == RenameAll(DateRename, all);
    assert all[p] == TaggedNames(raw)[p - 1];
  }

  lemma PreparedSymbolCell(symbol: string, raw: Response, i: nat, j: nat)
    requires Prepared(symbol, raw).Some?
    requires i < |raw.data.rows| && j < |PreparedLabels(raw)| && PreparedLabels(raw)[j] == "symbol"
    ensures j < |Prepared(symbol, raw).value.rows[i]| && Prepared(symbol, raw).value.rows[i][j] == Text(symbol)
  {
    PreparedColumns(symbol, raw);
    PreparedLabelZero(raw);
    assert j != 0;
    PreparedLabelAt(raw, j);
    DateRenameIsSymbol(TaggedNames(raw)[j - 1]);
    assert TaggedNames(raw)[j - 1] == "symbol";
    PreparedRow(symbol, raw, i, j);
  }

  /** Whatever the provider sent, the prepared labels include the symbol. */
  lemma PreparedHasSymbol(raw: Response)
    ensures "symbol" in PreparedLabels(raw)
  {
    var names := TaggedNames(raw);
    assert "symbol" in names;
    var js := IndexOf(names, "symbol");
    PreparedLabelAt(raw, js + 1);
    assert PreparedLabels(raw)[js + 1] == "symbol";
  }

  /** The symbol column of the prepared frame holds the requested symbol in
      every row, whatever the provider put under that name. */
  lemma PreparedSymbolCells(symbol: string, raw: Response)
    requires Prepared(symbol, raw).Some?
    ensures var t := Prepared(symbol, raw).value;
      && "symbol" in t.columns
      && forall i, j :: 0 <= i < |t.rows| && 0 <= j < |t.columns| && t.columns[j] == "symbol" ==>
           t.rows[i][j] == Text(symbol)
  {
    PreparedColumns(symbol, raw);
    PreparedHasSymbol(raw);
    var t := Prepared(symbol, raw).value;
    forall i, j | 0 <= i < |t.rows| && 0 <= j < |t.columns| && t.columns[j] == "symbol"
      ensures t.rows[i][j] == Text(symbol)
    {
      PreparedSymbolCell(symbol, raw, i, j);
    }
  }

  lemma CanonicalColumnsDistinct()
    ensures Distinct(CanonicalColumns) && "symbol" in CanonicalColumns
  {
  }

  /** Projecting keeps the rows and a symbol column that holds `symbol`
      throughout. */
  lemma ProjectKeepsSymbol(t: Frame<string>, wanted: seq<string>, symbol: string)
    requires Distinct(wanted) && "symbol" in wanted && "symbol" in t.columns
    requires forall i, j :: 0 <= i < |t.rows| && 0 <= j < |t.columns| && t.columns[j] == "symbol" ==>
      t.rows[i][j] == Text(symbol)
    ensures var f := Project(t, wanted);
      && |f.rows| == |t.rows|
      && OrderedBy(wanted, f.columns)
      && "symbol" in f.columns
      && forall i, k :: 0 <= i < |f.rows| && 0 <= k < |f.columns| && f.columns[k] == "symbol" ==>
           f.rows[i][k] == Text(symbol)
  {
    ProjectShape(t, wanted);
    var ps := PositionsOfAll(t.columns, Present(wanted, t.columns));
    var f := Project(t, wanted);
    assert f == Select(t, ps);
    forall i, k | 0 <= i < |f.rows| && 0 <= k < |f.columns| && f.columns[k] == "symbol"
      ensures f.rows[i][k] == Text(symbol)
    {
      SelectCell(t, ps, i, k);
      assert t.columns[ps[k]] == "symbol";
    }
  }

  /** A frame `_download_one` returns keeps every provider row and only
      canonical columns, in canonical order. */
  lemma DownloadOneRows(symbol: string, d: Download)
    requires DownloadOne(symbol, d).Normalised?
    ensures var f := DownloadOne(symbol, d).frame;
      |f.rows| == |d.response.data.rows| && OrderedBy(CanonicalColumns, f.columns)
  {
    DownloadOneUnfold(symbol, d);
    PreparedColumns(symbol, d.response);
    CanonicalColumnsDistinct();
    ProjectShape(Prepared(symbol, d.response).value, CanonicalColumns);
  }

  /** A frame `_download_one` returns has a symbol column holding the
      requested symbol in every row. */
  lemma DownloadOneSymbol(symbol: string, d: Download)
    requires DownloadOne(symbol, d).Normalised?
    ensures var f := DownloadOne(symbol, d).frame;
      && "symbol" in f.columns
      && forall i, k :: 0 <= i < |f.rows| && 0 <= k < |f.columns| && f.columns[k] == "symbol" ==>
           f.rows[i][k] == Text(symbol)
  {
    DownloadOneUnfold(symbol, d);
    PreparedSymbolCells(symbol, d.response);
    CanonicalColumnsDistinct();
    ProjectKeepsSymbol(Prepared(symbol, d.response).value, CanonicalColumns, symbol);
  }

  /** What `_download_one` promises of a frame it returns: the provider's rows
      are all kept, only canonical columns remain and in canonical order, the
      symbol column is always there and holds the requested symbol. */
  lemma DownloadOneShape(symbol: string, d: Download)
    requires DownloadOne(symbol, d).Normalised?
    ensures var f := DownloadOne(symbol, d).frame;
      && |f.rows| == |d.response.data.rows|
      && !IsEmpty(f)
      && OrderedBy(CanonicalColumns, f.columns)
      && "symbol" in f.columns
      && forall i, k :: 0 <= i < |f.rows| && 0 <= k < |f.columns| && f.columns[k] == "symbol" ==>
           f.rows[i][k] == Text(symbol)
  {
    DownloadOneRows(symbol, d);
    DownloadOneSymbol(symbol, d);
  }

  /** The columns kept are exactly the canonical names present after renaming. */
  lemma DownloadOneColumns(symbol: string, raw: Response)
    requires DownloadOne(symbol, Got(raw)).Normalised?
    ensures forall c :: c in DownloadOne(symbol, Got(raw)).frame.columns <==>
      c in CanonicalColumns && c in PreparedLabels(raw)
  {
    DownloadOneUnfold(symbol, Got(raw));
    PreparedColumns(symbol, raw);
    CanonicalColumnsDistinct();
    ProjectShape(Prepared(symbol, raw).value, CanonicalColumns);
  }

  /** One canonical cell built straight from the response: the symbol, the
      index value, or the provider column renamed to `c`. */
  function CanonicalCell(symbol: string, raw: Response, i: nat, c: string): Cell
    requires i < |raw.index| && c in PreparedLabels(raw)
  {
    if c == "symbol" then Text(symbol)
    else if c == PreparedLabels(raw)[0] then raw.index[i]
    else
      assert c in ProviderLabels(raw);
      raw.data.rows[i][IndexOf(ProviderLabels(raw), c)]
  }

  lemma CanonicalProviderCell(symbol: string, raw: Response, i: nat, c: string)
    requires i < |raw.index| && c in PreparedLabels(raw)
    requires c != "symbol" && c != PreparedLabels(raw)[0]
    ensures c in ProviderLabels(raw)
    ensures CanonicalCell(symbol, raw, i, c) == raw.data.rows[i][IndexOf(ProviderLabels(raw), c)]
  {
  }

  /** The normalised frame built row by row from the response, as an
      independent reading of what the column rewriting must produce. */
  function CanonicalFrame(symbol: string, raw: Response): Frame<string>
  {
    var labels := Present(CanonicalColumns, PreparedLabels(raw));
    Table(labels, seq(|raw.index|, i requires 0 <= i < |raw.index| =>
      seq(|labels|, k requires 0 <= k < |labels| => CanonicalCell(symbol, raw, i, labels[k]))))
  }

  /** The cells of a prepared row: the index value first, then each provider
      cell, with the requested symbol under the symbol label. */
  lemma PreparedRow(symbol: string, raw: Response, i: nat, p: nat)
    requires Prepared(symbol, raw).Some?
    requires i < |raw.data.rows| && p < |PreparedLabels(raw)|
    ensures p == 0 ==> Prepared(symbol, raw).value.rows[i][p] == raw.index[i]
    ensures p > 0 ==>
      && p - 1 < |TaggedNames(raw)|
      && Prepared(symbol, raw).value.rows[i][p] ==
           if TaggedNames(raw)[p - 1] == "symbol" then Text(symbol) else raw.data.rows[i][p - 1]
  {
    var named := RenameColumns(raw.data, PriceRenames);
    var tagged := AssignConstant(named, "symbol", Text(symbol));
    var reset := ResetIndex(tagged, raw.indexName, raw.index).value;
    var t := Prepared(symbol, raw).value;
    assert t.rows == reset.rows;
    PreparedColumns(symbol, raw);
    ResetIndexRow(tagged, raw.indexName, raw.index, i);
    assert tagged.columns == TaggedNames(raw);
    if p > 0 {
      AssignConstantCell(named, "symbol", Text(symbol), i, p - 1);
      assert t.rows[i][p] == tagged.rows[i][p - 1];
    } else {
      assert t.rows[i][0] == raw.index[i];
    }
  }

  /** Under distinct labels the renamed provider labels are distinct too, and
      a provider label is found at its own position. */
  lemma ProviderLabelAt(raw: Response, p: nat)
    requires Distinct(PreparedLabels(raw))
    requires 0 < p <= |ProviderLabels(raw)|
    ensures PreparedLabels(raw)[p] in ProviderLabels(raw)
    ensures IndexOf(ProviderLabels(raw), PreparedLabels(raw)[p]) == p - 1
  {
    var labels := PreparedLabels(raw);
    var pl := ProviderLabels(raw);
    assert pl == labels[1..|pl| + 1];
    assert Distinct(pl) by {
      forall a, b | 0 <= a < b < |pl| ensures pl[a] != pl[b] {
        assert pl[a] == labels[a + 1] && pl[b] == labels[b + 1];
      }
    }
    assert pl[p - 1] == labels[p];
    IndexOfDistinct(pl, p - 1);
  }

  /** The first prepared cell of a row is the row's index value. */
  lemma PreparedDateCell(symbol: string, raw: Response, i: nat)
    requires Prepared(symbol, raw).Some? && i < |raw.data.rows|
    ensures CanonicalCell(symbol, raw, i, PreparedLabels(raw)[0]) == raw.index[i]
    ensures Prepared(symbol, raw).value.rows[i][0] == raw.index[i]
  {
    PreparedColumns(symbol, raw);
    PreparedRow(symbol, raw, i, 0);
    PreparedLabelZero(raw);
  }

  /** Past the first, a label other than the symbol names the provider
      column at the position before it. */
  lemma ProviderCellLabel(raw: Response, p: nat)
    requires Distinct(PreparedLabels(raw))
    requires 0 < p < |PreparedLabels(raw)| && PreparedLabels(raw)[p] != "symbol"
    ensures p - 1 < |TaggedNames(raw)| && TaggedNames(raw)[p - 1] != "symbol"
    ensures p - 1 < |raw.data.columns|
    ensures PreparedLabels(raw)[p] in ProviderLabels(raw)
    ensures IndexOf(ProviderLabels(raw), PreparedLabels(raw)[p]) == p - 1
  {
    var labels := PreparedLabels(raw);
    var names := TaggedNames(raw);
    PreparedLabelAt(raw, p);
    DateRenameIsSymbol(names[p - 1]);
    assert labels[0] != labels[p];
    assert p - 1 < |PriceNames(raw)|;
    ProviderLabelAt(raw, p);
  }

  /** Past the first, a prepared cell under a label other than the symbol
      is the provider's cell. */
  lemma PreparedProviderCell(symbol: string, raw: Response, i: nat, p: nat)
    requires Prepared(symbol, raw).Some? && Distinct(PreparedLabels(raw))
    requires i < |raw.data.rows| && 0 < p < |PreparedLabels(raw)| && PreparedLabels(raw)[p] != "symbol"
    ensures Prepared(symbol, raw).value.rows[i][p] == CanonicalCell(symbol, raw, i, PreparedLabels(raw)[p])
  {
    PreparedColumns(symbol, raw);
    PreparedRow(symbol, raw, i, p);
    ProviderCellLabel(raw, p);
    PreparedLabelZero(raw);
    CanonicalProviderCell(symbol, raw, i, PreparedLabels(raw)[p]);
  }

  lemma PreparedCell(symbol: string, raw: Response, i: nat, p: nat)
    requires Prepared(symbol, raw).Some? && Distinct(PreparedLabels(raw))
    requires i < |raw.data.rows| && p < |PreparedLabels(raw)|
    ensures Prepared(symbol, raw).value.rows[i][p] == CanonicalCell(symbol, raw, i, PreparedLabels(raw)[p])
  {
    if p == 0 {
      PreparedDateCell(symbol, raw, i);
    } else if PreparedLabels(raw)[p] == "symbol" {
      PreparedSymbolCell(symbol, raw, i, p);
    } else {
      PreparedProviderCell(symbol, raw, i, p);
    }
  }

  /** Distinct labels leave `reset_index` nothing to clash with. */
  lemma DistinctNoClash(raw: Response)
    requires Distinct(PreparedLabels(raw))
    ensures !IndexClashes(raw)
  {
    var labels := PreparedLabels(raw);
    var names := TaggedNames(raw);
    RenameAllAppend(DateRename, PriceNames(raw), ["symbol"]);
    assert RenameAll(DateRename, names) == labels[1..];
    forall j | 0 <= j < |names| ensures names[j] != IndexName(raw) {
      assert labels[0] != labels[j + 1];
    }
  }

  lemma ProjectRowwiseCell(symbol: string, raw: Response, t: Frame<string>, i: nat, k: nat)
    requires Prepared(symbol, raw) == Some(t) && Distinct(PreparedLabels(raw))
    requires i < |t.rows| && k < |Project(t, CanonicalColumns).columns|
    ensures var f := Project(t, CanonicalColumns);
      i < |raw.index| && f.columns[k] in PreparedLabels(raw) &&
      f.rows[i][k] == CanonicalCell(symbol, raw, i, f.columns[k])
  {
    PreparedColumns(symbol, raw);
    ProjectDistinct(t, CanonicalColumns);
    var f := Project(t, CanonicalColumns);
    var c := f.columns[k];
    PreparedCell(symbol, raw, i, IndexOf(PreparedLabels(raw), c));
  }

  lemma ProjectRowwiseRow(symbol: string, raw: Response, t: Frame<string>, i: nat)
    requires Prepared(symbol, raw) == Some(t) && Distinct(PreparedLabels(raw))
    requires i < |t.rows|
    ensures var f := Project(t, CanonicalColumns);
      var g := CanonicalFrame(symbol, raw);
      i < |g.rows| && f.rows[i] == g.rows[i]
  {
    PreparedColumns(symbol, raw);
    ProjectDistinct(t, CanonicalColumns);
    var f := Project(t, CanonicalColumns);
    var g := CanonicalFrame(symbol, raw);
    assert f.columns == g.columns;
    forall k | 0 <= k < |f.columns| ensures f.rows[i][k] == g.rows[i][k] {
      ProjectRowwiseCell(symbol, raw, t, i, k);
    }
  }

  lemma ProjectRowwise(symbol: string, raw: Response, t: Frame<string>)
    requires Prepared(symbol, raw) == Some(t) && Distinct(PreparedLabels(raw))
    ensures Project(t, CanonicalColumns) == CanonicalFrame(symbol, raw)
  {
    PreparedColumns(symbol, raw);
    ProjectDistinct(t, CanonicalColumns);
    var f := Project(t, CanonicalColumns);
    var g := CanonicalFrame(symbol, raw);
    assert f.columns == g.columns;
    assert |f.rows| == |g.rows|;
    forall i | 0 <= i < |f.rows| ensures f.rows[i] == g.rows[i] {
      ProjectRowwiseRow(symbol, raw, t, i);
    }
  }

  /** When the labels present after renaming are all different (as they are
      for a provider frame with the usual field names), `_download_one`
      returns exactly the row-by-row canonical frame. */
  lemma DownloadOneRowwise(symbol: string, raw: Response)
    requires !IsEmpty(raw.data) && Distinct(PreparedLabels(raw))
    ensures DownloadOne(symbol, Got(raw)) == Normalised(CanonicalFrame(symbol, raw))
  {
    DistinctNoClash(raw);
    PreparedColumns(symbol, raw);
    ProjectRowwise(symbol, raw, Prepared(symbol, raw).value);
  }

  /** The canonical labels present among `labels` are `target` when `target`
      lists exactly those labels in canonical order. */
  lemma PresentCanonical(labels: seq<string>, target: seq<string>)
    requires RankIncreasing(CanonicalColumns, target)
    requires forall x :: x in target <==> x in CanonicalColumns && x in labels
    ensures Present(CanonicalColumns, labels) == target
  {
    CanonicalColumnsDistinct();
    WantedRankIncreasing(CanonicalColumns);
    PresentRankIncreasing(CanonicalColumns, CanonicalColumns, labels);
    RankUnique(CanonicalColumns, Present(CanonicalColumns, labels), target);
  }

  /** `target` takes the canonical labels at the increasing positions `ranks`. */
  lemma CanonicalRanks(target: seq<string>, ranks: seq<nat>)
    requires |ranks| == |target|
    requires forall j :: 0 <= j < |ranks| ==> ranks[j] < |CanonicalColumns| && target[j] == CanonicalColumns[ranks[j]]
    requires forall j, j' :: 0 <= j < j' < |ranks| ==> ranks[j] < ranks[j']
    ensures RankIncreasing(CanonicalColumns, target)
  {
    CanonicalColumnsDistinct();
    forall j | 0 <= j < |ranks| ensures IndexOf(CanonicalColumns, target[j]) == ranks[j] {
      IndexOfDistinct(CanonicalColumns, ranks[j]);
    }
  }

  /** Labels other than `Date` pass the date rename unchanged. */
  lemma DateRenameKeeps(names: seq<string>)
    requires "Date" !in names
    ensures RenameAll(DateRename, names) == names
  {
  }

  /** The labels of a response whose fields are already renamed to `names`,
      none of them the symbol, indexed by `Date`. */
  lemma DateIndexedLabels(raw: Response, names: seq<string>)
    requires raw.indexName == Some("Date") && PriceNames(raw) == names
    requires "Date" !in names && "symbol" !in names
    ensures PreparedLabels(raw) == ["date"] + names + ["symbol"]
  {
    DateRenameKeeps(names);
    assert IndexName(raw) == "Date";
  }

  lemma UsualPriceNames(raw: Response)
    requires raw.data.columns == ["Open", "High", "Low", "Close", "Adj Close", "Volume"]
    ensures PriceNames(raw) == ["open", "high", "low", "close", "adj_close", "volume"]
  {
  }

  lemma UsualLabels(raw: Response)
    requires raw.indexName == Some("Date")
    requires raw.data.columns == ["Open", "High", "Low", "Close", "Adj Close", "Volume"]
    ensures PreparedLabels(raw) == ["date", "open", "high", "low", "close", "adj_close", "volume", "symbol"]
  {
    var names := ["open", "high", "low", "close", "adj_close", "volume"];
    UsualPriceNames(raw);
    DateIndexedLabels(raw, names);
  }

  lemma UsualLabelsDistinct(labels: seq<string>)
    requires labels == ["date", "open", "high", "low", "close", "adj_close", "volume", "symbol"]
    ensures Distinct(labels)
    ensures forall x :: x in CanonicalColumns <==> x in CanonicalColumns && x in labels
  {
  }

  lemma UsualPresent(labels: seq<string>)
    requires labels == ["date", "open", "high", "low", "close", "adj_close", "volume", "symbol"]
    ensures Present(CanonicalColumns, labels) == CanonicalColumns
  {
    UsualLabelsDistinct(labels);
    CanonicalRanks(CanonicalColumns, [0, 1, 2, 3, 4, 5, 6, 7]);
    PresentCanonical(labels, CanonicalColumns);
  }

  /** A provider response with the usual field names and a `Date` index
      gives all eight canonical columns, in canonical order, and so exactly
      the row-by-row canonical frame. */
  lemma UsualResponseColumns(symbol: string, raw: Response)
    requires raw.indexName == Some("Date") && |raw.data.rows| > 0
    requires raw.data.columns == ["Open", "High", "Low", "Close", "Adj Close", "Volume"]
    ensures DownloadOne(symbol, Got(raw)) == Normalised(CanonicalFrame(symbol, raw))
    ensures DownloadOne(symbol, Got(raw)).frame.columns == CanonicalColumns
  {
    UsualLabels(raw);
    UsualLabelsDistinct(PreparedLabels(raw));
    UsualPresent(PreparedLabels(raw));
    DownloadOneRowwise(symbol, raw);
  }

  lemma ShortPriceNames(raw: Response)
    requires raw.data.columns == ["Open", "High", "Low", "Close", "Volume"]
    ensures PriceNames(raw) == ["open", "high", "low", "close", "volume"]
  {
  }

  lemma ShortLabels(raw: Response)
    requires raw.indexName == Some("Date")
    requires raw.data.columns == ["Open", "High", "Low", "Close", "Volume"]
    ensures PreparedLabels(raw) == ["date", "open", "high", "low", "close", "volume", "symbol"]
  {
    var names := ["open", "high", "low", "close", "volume"];
    ShortPriceNames(raw);
    DateIndexedLabels(raw, names);
  }

  lemma ShortLabelsDistinct(labels: seq<string>)
    requires labels == ["date", "open", "high", "low", "close", "volume", "symbol"]
    ensures Distinct(labels)
    ensures forall x :: x in ["date", "symbol", "open", "high", "low", "close", "volume"] <==>
      x in CanonicalColumns && x in labels
  {
  }

  lemma ShortPresent(labels: seq<string>)
    requires labels == ["date", "open", "high", "low", "close", "volume", "symbol"]
    ensures Present(CanonicalColumns, labels) == ["date", "symbol", "open", "high", "low", "close", "volume"]
  {
    var target := ["date", "symbol", "open", "high", "low", "close", "volume"];
    ShortLabelsDistinct(labels);
    CanonicalRanks(target, [0, 1, 2, 3, 4, 5, 7]);
    PresentCanonical(labels, target);
  }

  /** A response lacking the adjusted close keeps the columns it has; no
      `adj_close` column is invented. */
  lemma MissingFieldDropped(symbol: string, raw: Response)
    requires raw.indexName == Some("Date") && |raw.data.rows| > 0
    requires raw.data.columns == ["Open", "High", "Low", "Close", "Volume"]
    ensures DownloadOne(symbol, Got(raw)).Normalised?
    ensures DownloadOne(symbol, Got(raw)).frame.columns == ["date", "symbol", "open", "high", "low", "close", "volume"]
  {
    ShortLabels(raw);
    ShortLabelsDistinct(PreparedLabels(raw));
    ShortPresent(PreparedLabels(raw));
    DownloadOneRowwise(symbol, raw);
  }

  // ---------------------------------------------------------------------------
  // `extract_stock_data`

  /** `tickers or TICKERS`: a missing or empty list falls back to the default. */
  function SymbolsToFetch(tickers: Option<seq<string>>, configured: seq<string>): seq<string> {
    if tickers.Some? && tickers.value != [] then tickers.value else configured
  }

  lemma DefaultTickersNonEmpty(tickers: Option<seq<string>>)
    ensures SymbolsToFetch(tickers, Tickers) != []
  {
  }

  /** A symbol's frame as collected into `all_dfs`. */
  datatype Contribution = Contribution(symbol: string, frame: Frame<string>)

  /** `_download_one(s, period)` as a function of the symbol `s`, for a
      provider whose answers are fixed. */
  function Outcome(period: string, provider: (string, string) -> Download): string -> Fetched
  {
    s => DownloadOne(s, provider(s, period))
  }

  lemma OutcomeOf(s: string, period: string, provider: (string, string) -> Download)
    ensures Outcome(period, provider)(s) == DownloadOne(s, provider(s, period))
  {
  }

  /** What one symbol adds to `all_dfs`: its normalised frame, unless the
      download raised, gave nothing or gave an empty frame. */
  function Kept(s: string, period: string, provider: (string, string) -> Download): seq<Contribution>
  {
    var r := Outcome(period, provider)(s);
    if r.Normalised? && !IsEmpty(r.frame) then [Contribution(s, r.frame)] else []
  }

  /** The frames collected for `symbols`, in order: those whose download was
      normalised to a non-empty frame. */
  function Contributions(symbols: seq<string>, period: string, provider: (string, string) -> Download): seq<Contribution>
  {
    if symbols == [] then []
    else Contributions(symbols[..|symbols| - 1], period, provider) + Kept(symbols[|symbols| - 1], period, provider)
  }

  function FramesOf(cs: seq<Contribution>): (fs: seq<Frame<string>>)
    ensures |fs| == |cs| && forall k :: 0 <= k < |cs| ==> fs[k] == cs[k].frame
  {
    seq(|cs|, k requires 0 <= k < |cs| => cs[k].frame)
  }

  lemma FramesOfAppend(a: seq<Contribution>, b: seq<Contribution>)
    ensures FramesOf(a + b) == FramesOf(a) + FramesOf(b)
  {
  }

  /** `pd.concat(all_dfs, ignore_index=True)`, or an empty frame when nothing
      was collected. */
  function Combined(cs: seq<Contribution>): (r: Frame<string>)
    ensures |r.rows| == TotalRows(FramesOf(cs))
  {
    if cs == [] then EmptyFrame() else Concat(FramesOf(cs))
  }

  /** One turn of the collecting loop: the download of `s` adds its frame to
      `all_dfs` exactly when it is normalised and non-empty. */
  lemma CollectStep(done: seq<string>, s: string, period: string, provider: (string, string) -> Download)
    ensures var r := DownloadOne(s, provider(s, period));
      FramesOf(Contributions(done + [s], period, provider)) ==
        FramesOf(Contributions(done, period, provider)) + (if r.Normalised? && !IsEmpty(r.frame) then [r.frame] else [])
  {
    assert (done + [s])[..|done + [s]| - 1] == done;
    FramesOfAppend(Contributions(done, period, provider), Kept(s, period, provider));
    OutcomeOf(s, period, provider);
  }

  /** The `try` block for `symbol`: download it and append its frame to
      `all_dfs` when it is neither `None` nor empty; a download that raised
      is logged and skipped. `done` lists the symbols already tried. */
  method TryCollect(allDfs: seq<Frame<string>>, done: seq<string>, symbol: string, period: string,
                    provider: (string, string) -> Download)
    returns (collected: seq<Frame<string>>)
    requires allDfs == FramesOf(Contributions(done, period, provider))
    ensures collected == FramesOf(Contributions(done + [symbol], period, provider))
  {
    var fetched := DownloadAndNormalise(symbol, provider(symbol, period));
    CollectStep(done, symbol, period, provider);
    if fetched.Normalised? && !IsEmpty(fetched.frame) {
      collected := allDfs + [fetched.frame];
    } else {
      collected := allDfs;
    }
  }

  /** The loop of `extract_stock_data` over `symbols`: one download per
      symbol, in order, and `all_dfs` holding the frames worth keeping.
      `requested` lists the symbols for which a download was made. */
  method CollectFrames(symbols: seq<string>, period: string, provider: (string, string) -> Download)
    returns (allDfs: seq<Frame<string>>, requested: seq<string>)
    ensures requested == symbols
    ensures allDfs == FramesOf(Contributions(symbols, period, provider))
  {
    requested := [];
    allDfs := [];
    var i := 0;
    while i < |symbols|
      invariant 0 <= i <= |symbols|
      invariant requested == symbols[..i]
      invariant allDfs == FramesOf(Contributions(requested, period, provider))
    {
      allDfs := TryCollect(allDfs, requested, symbols[i], period, provider);
      requested := requested + [symbols[i]];
      i := i + 1;
    }
    assert symbols[..i] == symbols;
  }

  /** The frame assembled from what the loop collected. */
  lemma CombinedOfCollected(cs: seq<Contribution>, allDfs: seq<Frame<string>>)
    requires allDfs == FramesOf(cs)
    ensures allDfs == [] ==> Combined(cs) == EmptyFrame()
    ensures allDfs != [] ==> Combined(cs) == Concat(allDfs)
  {
  }

  /** `extract_stock_data(tickers, period)`; `configured` is `config.TICKERS`.
      `requested` lists the symbols for which a download was made, in order. */
  method ExtractStockData(tickers: Option<seq<string>>, period: string, configured: seq<string>,
                          provider: (string, string) -> Download)
    returns (result: Frame<string>, requested: seq<string>)
    ensures tickers.Some? && tickers.value != [] ==> requested == tickers.value
    ensures tickers.None? || tickers.value == [] ==> requested == configured
    ensures requested == [] ==> result == EmptyFrame()
    ensures result == Combined(Contributions(requested, period, provider))
  {
    var symbols := SymbolsToFetch(tickers, configured);
    if symbols == [] {
      // No tickers configured
      return EmptyFrame(), [];
    }
    var allDfs;
    allDfs, requested := CollectFrames(symbols, period, provider);
    CombinedOfCollected(Contributions(requested, period, provider), allDfs);
    if allDfs == [] {
      // No data downloaded for any ticker
      return EmptyFrame(), requested;
    }
    result := Concat(allDfs);
  }

  // ---------------------------------------------------------------------------
  // Properties of the extraction

  lemma {:induction false} ContributionsAppend(a: seq<string>, b: seq<string>, period: string,
                                               provider: (string, string) -> Download)
    ensures Contributions(a + b, period, provider) == Contributions(a, period, provider) + Contributions(b, period, provider)
    decreases |b|
  {
    if b != [] {
      var b' := b[..|b| - 1];
      ContributionsAppend(a, b', period, provider);
      assert (a + b)[..|a + b| - 1] == a + b';
      assert (a + b)[|a + b| - 1] == b[|b| - 1];
    } else {
      assert a + b == a;
    }
  }

  /** A symbol whose download raised, gave nothing or gave an empty frame
      contributes nothing, and the symbols after it are still collected. */
  lemma FailedSymbolSkipped(before: seq<string>, s: string, after: seq<string>, period: string,
                            provider: (string, string) -> Download)
    requires !DownloadOne(s, provider(s, period)).Normalised? || IsEmpty(DownloadOne(s, provider(s, period)).frame)
    ensures Contributions(before + [s] + after, period, provider)
         == Contributions(before, period, provider) + Contributions(after, period, provider)
  {
    assert Kept(s, period, provider) == [];
    SingleContribution(s, period, provider);
    ContributionsAppend(before + [s], after, period, provider);
    ContributionsAppend(before, [s], period, provider);
  }

  lemma SingleContribution(s: string, period: string, provider: (string, string) -> Download)
    ensures Contributions([s], period, provider) == Kept(s, period, provider)
  {
    assert [s][..0] == [];
  }

  /** The contribution is the non-empty normalised download of its symbol. */
  predicate Genuine(c: Contribution, period: string, provider: (string, string) -> Download) {
    DownloadOne(c.symbol, provider(c.symbol, period)) == Normalised(c.frame) && !IsEmpty(c.frame)
  }

  /** Every collected frame is the non-empty normalised download of one of the
      requested symbols. */
  lemma {:induction false} ContributionsSound(symbols: seq<string>, period: string, provider: (string, string) -> Download)
    ensures forall k :: 0 <= k < |Contributions(symbols, period, provider)| ==>
      && Contributions(symbols, period, provider)[k].symbol in symbols
      && Genuine(Contributions(symbols, period, provider)[k], period, provider)
  {
    if symbols != [] {
      var prefix := symbols[..|symbols| - 1];
      var s := symbols[|symbols| - 1];
      ContributionsSound(prefix, period, provider);
      var before := Contributions(prefix, period, provider);
      var cs := Contributions(symbols, period, provider);
      var kept := Kept(s, period, provider);
      assert cs == before + kept;
      forall k | 0 <= k < |cs| ensures cs[k].symbol in symbols && Genuine(cs[k], period, provider) {
        if k < |before| {
          assert cs[k] == before[k];
          assert before[k].symbol in prefix;
          assert forall x :: x in prefix ==> x in symbols;
        } else {
          assert cs[k] == kept[0];
        }
      }
    }
  }

  /** The provider rows of the symbols whose download was normalised. */
  function SuccessfulRows(symbols: seq<string>, period: string, provider: (string, string) -> Download): nat
  {
    if symbols == [] then 0
    else
      var s := symbols[|symbols| - 1];
      var d := provider(s, period);
      SuccessfulRows(symbols[..|symbols| - 1], period, provider)
        + (if DownloadOne(s, d).Normalised? then |d.response.data.rows| else 0)
  }

  lemma TotalRowsConcat(a: seq<Frame<string>>, b: seq<Frame<string>>)
    ensures TotalRows(a + b) == TotalRows(a) + TotalRows(b)
  {
    if a != [] {
      TotalRowsConcat(a[1..], b);
      assert (a + b)[1..] == a[1..] + b;
    } else {
      assert a + b == b;
    }
  }

  /** The extracted frame has exactly as many rows as the successful symbols'
      provider responses together. */
  lemma {:induction false} ExtractedRowCount(symbols: seq<string>, period: string, provider: (string, string) -> Download)
    ensures |Combined(Contributions(symbols, period, provider)).rows| == SuccessfulRows(symbols, period, provider)
  {
    if symbols != [] {
      var prefix := symbols[..|symbols| - 1];
      var s := symbols[|symbols| - 1];
      var d := provider(s, period);
      ExtractedRowCount(prefix, period, provider);
      var before := Contributions(prefix, period, provider);
      var kept := Kept(s, period, provider);
      FramesOfAppend(before, kept);
      TotalRowsConcat(FramesOf(before), FramesOf(kept));
      var r := DownloadOne(s, d);
      if r.Normalised? {
        DownloadOneShape(s, d);
        assert kept == [Contribution(s, r.frame)];
        assert TotalRows(FramesOf(kept)) == |r.frame.rows|;
      } else {
        assert kept == [];
      }
    }
  }

  /** The result is empty exactly when nothing was collected. */
  lemma CombinedEmptyIff(symbols: seq<string>, period: string, provider: (string, string) -> Download)
    ensures var cs := Contributions(symbols, period, provider);
      IsEmpty(Combined(cs)) <==> cs == []
  {
    var cs := Contributions(symbols, period, provider);
    if cs != [] {
      ContributionsSound(symbols, period, provider);
      var fs := FramesOf(cs);
      assert fs[0] == cs[0].frame && !IsEmpty(fs[0]);
      var c := fs[0].columns[0];
      ConcatColumns(fs, c);
      assert c in Combined(cs).columns;
      assert TotalRows(fs) >= |fs[0].rows|;
    }
  }

  /** `n` copies of the symbol cell for `s`. */
  function SymbolCells(s: string, n: nat): (r: seq<Cell>)
    ensures |r| == n
  {
    seq(n, _ => Text(s))
  }

  /** The symbol column one expects: each collected symbol once per row it
      contributed, in collection order. */
  function SymbolTags(cs: seq<Contribution>): seq<Cell> {
    if cs == [] then [] else SymbolCells(cs[0].symbol, |cs[0].frame.rows|) + SymbolTags(cs[1..])
  }

  /** The frame has a symbol column holding `s` in every row. */
  predicate TaggedWith(f: Frame<string>, s: string) {
    && "symbol" in f.columns
    && forall i, k :: 0 <= i < |f.rows| && 0 <= k < |f.columns| && f.columns[k] == "symbol" ==>
         f.rows[i][k] == Text(s)
  }

  lemma TaggedColumn(f: Frame<string>, s: string)
    requires TaggedWith(f, s)
    ensures ColumnValues(f, "symbol") == SymbolCells(s, |f.rows|)
  {
    var p := IndexOf(f.columns, "symbol");
    forall i | 0 <= i < |f.rows| ensures ColumnValues(f, "symbol")[i] == Text(s) {
      assert ColumnValues(f, "symbol")[i] == f.rows[i][p];
    }
  }

  lemma {:induction false} SymbolColumnOfAll(cs: seq<Contribution>)
    requires forall k :: 0 <= k < |cs| ==> TaggedWith(cs[k].frame, cs[k].symbol)
    ensures forall k :: 0 <= k < |cs| ==> "symbol" in FramesOf(cs)[k].columns
    ensures ColumnOfAll(FramesOf(cs), "symbol") == SymbolTags(cs)
  {
    if cs != [] {
      SymbolColumnOfAll(cs[1..]);
      assert FramesOf(cs)[1..] == FramesOf(cs[1..]);
      TaggedColumn(cs[0].frame, cs[0].symbol);
    }
  }

  /** Joining frames each tagged with its symbol gives the symbol column
      those tags spell out. */
  lemma {:induction false} CombinedSymbolColumn(cs: seq<Contribution>)
    requires cs != [] && forall k :: 0 <= k < |cs| ==> TaggedWith(cs[k].frame, cs[k].symbol)
    ensures "symbol" in Combined(cs).columns && ColumnValues(Combined(cs), "symbol") == SymbolTags(cs)
  {
    SymbolColumnOfAll(cs);
    ConcatColumnValues(FramesOf(cs), "symbol");
  }

  /** The extracted frame holds rows only of the symbols that succeeded, in
      their original order: its symbol column lists each collected symbol
      once per row of its frame. */
  lemma ExtractedSymbolColumn(symbols: seq<string>, period: string, provider: (string, string) -> Download)
    requires Contributions(symbols, period, provider) != []
    ensures var cs := Contributions(symbols, period, provider);
      && "symbol" in Combined(cs).columns
      && ColumnValues(Combined(cs), "symbol") == SymbolTags(cs)
  {
    var cs := Contributions(symbols, period, provider);
    ContributionsSound(symbols, period, provider);
    forall k | 0 <= k < |cs| ensures TaggedWith(cs[k].frame, cs[k].symbol) {
      DownloadOneShape(cs[k].symbol, provider(cs[k].symbol, period));
    }
    CombinedSymbolColumn(cs);
  }
}
