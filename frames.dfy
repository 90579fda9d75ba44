/** The part of pandas' `DataFrame` that the pipeline relies on. A frame is a
    list of column labels and a list of rows, each row holding one cell per
    column. Prices, volumes and timestamps are opaque payloads: the pipeline
    moves them around but never computes with them. */
module Frames {
  import opened Common

  datatype Cell = Text(text: string) | Datum(payload: nat) | Missing

  datatype Table<L> = Table(columns: seq<L>, rows: seq<seq<Cell>>)

  predicate Rectangular<L>(t: Table<L>) {
    forall i :: 0 <= i < |t.rows| ==> |t.rows[i]| == |t.columns|
  }

  /** A pandas frame is always rectangular. */
  type Frame<L> = t: Table<L> | Rectangular(t) witness Table([], [])

  /** `DataFrame.empty`: true when either axis has length zero. */
  predicate IsEmpty<L>(t: Table<L>) {
    |t.rows| == 0 || |t.columns| == 0
  }

  /** `pd.DataFrame()`. */
  function EmptyFrame<L>(): (f: Frame<L>)
    ensures IsEmpty(f) && f.columns == [] && f.rows == []
  {
    Table([], [])
  }

  /** `df[c]` for a label that occurs once: the cells of column `c`, top to bottom. */
  function ColumnValues(t: Frame<string>, c: string): (vs: seq<Cell>)
    requires c in t.columns
    ensures |vs| == |t.rows|
  {
    seq(|t.rows|, i requires 0 <= i < |t.rows| => t.rows[i][IndexOf(t.columns, c)])
  }

  // ---------------------------------------------------------------------------
  // `rename(columns=m)`: labels found in the mapping are replaced, the others kept.

  function Renamed(m: map<string, string>, c: string): string {
    if c in m then m[c] else c
  }

  function RenameAll(m: map<string, string>, cols: seq<string>): (r: seq<string>)
    ensures |r| == |cols|
    ensures forall j :: 0 <= j < |cols| ==> r[j] == Renamed(m, cols[j])
  {
    seq(|cols|, j requires 0 <= j < |cols| => Renamed(m, cols[j]))
  }

  lemma RenameAllAppend(m: map<string, string>, a: seq<string>, b: seq<string>)
    ensures RenameAll(m, a + b) == RenameAll(m, a) + RenameAll(m, b)
  {
  }

  function RenameColumns(t: Frame<string>, m: map<string, string>): (r: Frame<string>)
    ensures r.columns == RenameAll(m, t.columns) && r.rows == t.rows
  {
    Table(RenameAll(m, t.columns), t.rows)
  }

  // ---------------------------------------------------------------------------
  // `df[key] = v` for a scalar `v`: every column carrying the label is
  // overwritten; when no column carries it a new one is appended at the end.

  function AssignConstant(t: Frame<string>, key: string, v: Cell): (r: Frame<string>)
    ensures |r.rows| == |t.rows| && key in r.columns
    ensures r.columns == if key in t.columns then t.columns else t.columns + [key]
  {
    if key in t.columns then
      Table(t.columns, seq(|t.rows|, i requires 0 <= i < |t.rows| =>
        seq(|t.columns|, j requires 0 <= j < |t.columns| =>
          if t.columns[j] == key then v else t.rows[i][j])))
    else
      Table(t.columns + [key], seq(|t.rows|, i requires 0 <= i < |t.rows| => t.rows[i] + [v]))
  }

  /** Every cell under `key` holds `v` afterwards; every other cell is kept. */
  lemma AssignConstantCell(t: Frame<string>, key: string, v: Cell, i: nat, j: nat)
    requires i < |t.rows| && j < |AssignConstant(t, key, v).columns|
    ensures var r := AssignConstant(t, key, v);
      r.rows[i][j] == if r.columns[j] == key then v else t.rows[i][j]
  {
  }

  // ---------------------------------------------------------------------------
  // `reset_index()`: the index becomes the first column. An unnamed index is
  // called "index" (or "level_0" when "index" is taken); inserting a label
  // that is already a column raises `ValueError`, modelled as `None`.

  function DefaultIndexName(cols: seq<string>): string {
    if "index" in cols then "level_0" else "index"
  }

  function IndexColumnName(name: Option<string>, cols: seq<string>): string {
    if name.Some? then name.value else DefaultIndexName(cols)
  }

  function ResetIndex(t: Frame<string>, name: Option<string>, index: seq<Cell>): (r: Option<Frame<string>>)
    requires |index| == |t.rows|
    ensures r.None? <==> IndexColumnName(name, t.columns) in t.columns
    ensures r.Some? ==>
      && r.value.columns == [IndexColumnName(name, t.columns)] + t.columns
      && |r.value.rows| == |t.rows|
  {
    var n := IndexColumnName(name, t.columns);
    if n in t.columns then None
    else
      var f: Frame<string> := Table([n] + t.columns, seq(|t.rows|, i requires 0 <= i < |t.rows| => [index[i]] + t.rows[i]));
      Some(f)
  }

  /** Each row gains its index value in front. */
  lemma ResetIndexRow(t: Frame<string>, name: Option<string>, index: seq<Cell>, i: nat)
    requires |index| == |t.rows| && ResetIndex(t, name, index).Some? && i < |t.rows|
    ensures ResetIndex(t, name, index).value.rows[i] == [index[i]] + t.rows[i]
  {
  }

  // ---------------------------------------------------------------------------
  // `df[[c1, c2, ...]]`: the columns carrying each requested label, label by
  // label, in their original left-to-right order within one label.

  /** Positions `p >= j` with `cols[p] == c`, in increasing order. */
  function PositionsFrom<L(==)>(cols: seq<L>, c: L, j: nat): (ps: seq<nat>)
    requires j <= |cols|
    ensures forall k :: 0 <= k < |ps| ==> j <= ps[k] < |cols| && cols[ps[k]] == c
    decreases |cols| - j
  {
    if j == |cols| then []
    else (if cols[j] == c then [j] else []) + PositionsFrom(cols, c, j + 1)
  }

  lemma {:induction false} PositionsFromFind<L>(cols: seq<L>, c: L, j: nat, p: nat)
    requires j <= p < |cols| && cols[p] == c
    ensures p in PositionsFrom(cols, c, j)
    decreases p - j
  {
    if j < p {
      PositionsFromFind(cols, c, j + 1, p);
    }
  }

  /** With distinct labels a label is found exactly once. */
  lemma {:induction false} PositionsFromUnique<L>(cols: seq<L>, c: L, j: nat)
    requires Distinct(cols) && j <= |cols|
    ensures c in cols[j..] ==> PositionsFrom(cols, c, j) == [IndexOf(cols, c)]
    ensures c !in cols[j..] ==> PositionsFrom(cols, c, j) == []
    decreases |cols| - j
  {
    if j < |cols| {
      PositionsFromUnique(cols, c, j + 1);
      assert PositionsFrom(cols, c, j) == (if cols[j] == c then [j] else []) + PositionsFrom(cols, c, j + 1);
      if cols[j] == c {
        IndexOfDistinct(cols, j);
        forall k | j + 1 <= k < |cols| ensures cols[k] != c {
          assert cols[j] != cols[k];
        }
        assert c !in cols[j + 1..];
        assert c in cols[j..] by { assert cols[j..][0] == c; }
      } else {
        assert cols[j..] == [cols[j]] + cols[j + 1..];
      }
    }
  }

  function PositionsOfAll<L(==)>(cols: seq<L>, labels: seq<L>): (ps: seq<nat>)
    ensures forall k :: 0 <= k < |ps| ==> ps[k] < |cols| && cols[ps[k]] in labels
  {
    if labels == [] then []
    else PositionsFrom(cols, labels[0], 0) + PositionsOfAll(cols, labels[1..])
  }

  /** `[c for c in wanted if c in cols]`. */
  function Present(wanted: seq<string>, cols: seq<string>): (r: seq<string>)
    ensures forall x :: x in r <==> x in wanted && x in cols
  {
    if wanted == [] then []
    else (if wanted[0] in cols then [wanted[0]] else []) + Present(wanted[1..], cols)
  }

  function Select<L>(t: Frame<L>, ps: seq<nat>): (r: Frame<L>)
    requires forall k :: 0 <= k < |ps| ==> ps[k] < |t.columns|
    ensures |r.columns| == |ps| && |r.rows| == |t.rows|
    ensures forall k :: 0 <= k < |ps| ==> r.columns[k] == t.columns[ps[k]]
  {
    Table(seq(|ps|, k requires 0 <= k < |ps| => t.columns[ps[k]]),
          seq(|t.rows|, i requires 0 <= i < |t.rows| =>
            seq(|ps|, k requires 0 <= k < |ps| => t.rows[i][ps[k]])))
  }

  /** The cell at column `k` of a selected row comes from position `ps[k]`. */
  lemma SelectCell<L>(t: Frame<L>, ps: seq<nat>, i: nat, k: nat)
    requires forall k :: 0 <= k < |ps| ==> ps[k] < |t.columns|
    requires i < |t.rows| && k < |ps|
    ensures Select(t, ps).rows[i][k] == t.rows[i][ps[k]]
  {
  }

  /** `df[[c for c in wanted if c in df.columns]]`. */
  function Project(t: Frame<string>, wanted: seq<string>): Frame<string>
  {
    Select(t, PositionsOfAll(t.columns, Present(wanted, t.columns)))
  }

  /** Every label of `s` is one of `order`, and labels appear in `order`'s order. */
  predicate OrderedBy<L(==)>(order: seq<L>, s: seq<L>) {
    && (forall k :: 0 <= k < |s| ==> s[k] in order)
    && (forall k, k' :: 0 <= k < k' < |s| ==> IndexOf(order, s[k]) <= IndexOf(order, s[k']))
  }

  /** The labels are a strictly increasing walk through `order`. */
  predicate RankIncreasing<L(==)>(order: seq<L>, labels: seq<L>) {
    && (forall k :: 0 <= k < |labels| ==> labels[k] in order)
    && (forall k, k' :: 0 <= k < k' < |labels| ==> IndexOf(order, labels[k]) < IndexOf(order, labels[k']))
  }

  lemma RankIncreasingCons<L>(order: seq<L>, x: L, rest: seq<L>)
    requires x in order && RankIncreasing(order, rest)
    requires forall y :: y in rest ==> IndexOf(order, x) < IndexOf(order, y)
    ensures RankIncreasing(order, [x] + rest)
  {
    var s := [x] + rest;
    forall k, k' | 0 <= k < k' < |s| ensures IndexOf(order, s[k]) < IndexOf(order, s[k']) {
      assert s[k'] == rest[k' - 1];
      if k > 0 {
        assert s[k] == rest[k - 1];
      }
    }
  }

  lemma RankHeadLeast<L>(order: seq<L>, s: seq<L>, y: L)
    requires RankIncreasing(order, s) && s != [] && y in s[1..]
    ensures IndexOf(order, s[0]) < IndexOf(order, y)
  {
    var k :| 0 <= k < |s[1..]| && s[1..][k] == y;
    assert s[k + 1] == y;
  }

  /** Keeping the present labels of a rank-increasing list keeps it so. */
  lemma {:induction false} PresentRankIncreasing(order: seq<string>, wanted: seq<string>, cols: seq<string>)
    requires RankIncreasing(order, wanted)
    ensures RankIncreasing(order, Present(wanted, cols))
  {
    if wanted != [] {
      RankIncreasingTail(order, wanted);
      PresentRankIncreasing(order, wanted[1..], cols);
      var rest := Present(wanted[1..], cols);
      forall y | y in rest ensures IndexOf(order, wanted[0]) < IndexOf(order, y) {
        assert y in wanted[1..];
        RankHeadLeast(order, wanted, y);
      }
      if wanted[0] in cols {
        RankIncreasingCons(order, wanted[0], rest);
      }
    }
  }

  lemma WantedRankIncreasing<L>(order: seq<L>)
    requires Distinct(order)
    ensures RankIncreasing(order, order)
  {
    forall k, k' | 0 <= k < k' < |order| ensures IndexOf(order, order[k]) < IndexOf(order, order[k']) {
      IndexOfDistinct(order, k);
      IndexOfDistinct(order, k');
    }
  }

  /** The labels found at the given positions. */
  function LabelsAt<L>(cols: seq<L>, ps: seq<nat>): (r: seq<L>)
    requires forall k :: 0 <= k < |ps| ==> ps[k] < |cols|
    ensures |r| == |ps| && forall k :: 0 <= k < |ps| ==> r[k] == cols[ps[k]]
  {
    seq(|ps|, k requires 0 <= k < |ps| => cols[ps[k]])
  }

  lemma OrderedByPrepend(order: seq<string>, x: string, a: seq<string>, b: seq<string>)
    requires x in order
    requires forall k :: 0 <= k < |a| ==> a[k] == x
    requires OrderedBy(order, b)
    requires forall k :: 0 <= k < |b| ==> IndexOf(order, x) < IndexOf(order, b[k])
    ensures OrderedBy(order, a + b)
  {
    var s := a + b;
    forall k, k' | 0 <= k < k' < |s| ensures IndexOf(order, s[k]) <= IndexOf(order, s[k']) {
      if k' < |a| {
        assert s[k] == x && s[k'] == x;
      } else if k < |a| {
        assert s[k] == x && s[k'] == b[k' - |a|];
      } else {
        assert s[k] == b[k - |a|] && s[k'] == b[k' - |a|];
      }
    }
  }

  lemma LabelsAtAppend<L>(cols: seq<L>, a: seq<nat>, b: seq<nat>)
    requires forall k :: 0 <= k < |a| ==> a[k] < |cols|
    requires forall k :: 0 <= k < |b| ==> b[k] < |cols|
    ensures LabelsAt(cols, a + b) == LabelsAt(cols, a) + LabelsAt(cols, b)
  {
  }

  /** The labels found for the rest of a rank-increasing list all rank above
      its first label. */
  lemma TailRanksAbove(order: seq<string>, cols: seq<string>, labels: seq<string>)
    requires RankIncreasing(order, labels) && labels != []
    ensures var b := LabelsAt(cols, PositionsOfAll(cols, labels[1..]));
      forall k :: 0 <= k < |b| ==> IndexOf(order, labels[0]) < IndexOf(order, b[k])
  {
    var b := LabelsAt(cols, PositionsOfAll(cols, labels[1..]));
    forall k | 0 <= k < |b| ensures IndexOf(order, labels[0]) < IndexOf(order, b[k]) {
      assert b[k] in labels[1..];
      RankHeadLeast(order, labels, b[k]);
    }
  }

  lemma {:induction false} PositionsOfAllOrdered(order: seq<string>, cols: seq<string>, labels: seq<string>)
    requires RankIncreasing(order, labels)
    ensures OrderedBy(order, LabelsAt(cols, PositionsOfAll(cols, labels)))
  {
    if labels != [] {
      var head := PositionsFrom(cols, labels[0], 0);
      var tail := PositionsOfAll(cols, labels[1..]);
      RankIncreasingTail(order, labels);
      PositionsOfAllOrdered(order, cols, labels[1..]);
      var b := LabelsAt(cols, tail);
      LabelsAtAppend(cols, head, tail);
      TailRanksAbove(order, cols, labels);
      OrderedByPrepend(order, labels[0], LabelsAt(cols, head), b);
    }
  }

  lemma {:induction false} PositionsOfAllFind<L>(cols: seq<L>, labels: seq<L>, c: L)
    requires c in labels && c in cols
    ensures exists k :: 0 <= k < |PositionsOfAll(cols, labels)| && cols[PositionsOfAll(cols, labels)[k]] == c
  {
    var head := PositionsFrom(cols, labels[0], 0);
    var ps := PositionsOfAll(cols, labels);
    if labels[0] == c {
      PositionsFromFind(cols, c, 0, IndexOf(cols, c));
      var k :| 0 <= k < |head| && head[k] == IndexOf(cols, c);
      assert ps[k] == head[k];
    } else {
      PositionsOfAllFind(cols, labels[1..], c);
      var tail := PositionsOfAll(cols, labels[1..]);
      var k :| 0 <= k < |tail| && cols[tail[k]] == c;
      assert ps[|head| + k] == tail[k];
    }
  }

  /** With distinct labels each requested label that exists is selected once. */
  lemma {:induction false} PositionsOfAllDistinct(cols: seq<string>, labels: seq<string>)
    requires Distinct(cols)
    requires forall k :: 0 <= k < |labels| ==> labels[k] in cols
    ensures var ps := PositionsOfAll(cols, labels);
      |ps| == |labels| && forall k :: 0 <= k < |ps| ==> ps[k] == IndexOf(cols, labels[k])
  {
    if labels != [] {
      PositionsFromUnique(cols, labels[0], 0);
      assert cols[0..] == cols;
      PositionsOfAllDistinct(cols, labels[1..]);
    }
  }

  lemma IndexOfInjective<L>(order: seq<L>, x: L, y: L)
    requires x in order && y in order && IndexOf(order, x) == IndexOf(order, y)
    ensures x == y
  {
  }

  /** The first label of a rank-increasing list has the least rank. */
  lemma RankLeast<L>(order: seq<L>, s: seq<L>, x: L)
    requires RankIncreasing(order, s) && s != [] && x in s
    ensures IndexOf(order, s[0]) <= IndexOf(order, x)
  {
    var i :| 0 <= i < |s| && s[i] == x;
  }

  lemma RankIncreasingTail<L>(order: seq<L>, s: seq<L>)
    requires RankIncreasing(order, s) && s != []
    ensures RankIncreasing(order, s[1..])
  {
    forall k, k' | 0 <= k < k' < |s[1..]|
      ensures IndexOf(order, s[1..][k]) < IndexOf(order, s[1..][k'])
    {
      assert s[1..][k] == s[k + 1] && s[1..][k'] == s[k' + 1];
    }
  }

  /** Two rank-increasing lists with the same labels start alike. */
  lemma RankHeads<L>(order: seq<L>, s: seq<L>, t: seq<L>)
    requires RankIncreasing(order, s) && RankIncreasing(order, t)
    requires forall x :: x in s <==> x in t
    requires s != []
    ensures t != [] && s[0] == t[0]
  {
    assert s[0] in t;
    RankLeast(order, s, t[0]);
    RankLeast(order, t, s[0]);
    IndexOfInjective(order, s[0], t[0]);
  }

  /** A label past the head of a rank-increasing list is not its head. */
  lemma RankTailMember<L>(order: seq<L>, s: seq<L>, x: L)
    requires RankIncreasing(order, s) && s != []
    ensures x in s[1..] <==> x in s && x != s[0]
  {
    if x in s[1..] {
      var i :| 0 <= i < |s[1..]| && s[1..][i] == x;
      assert s[i + 1] == x;
      assert IndexOf(order, s[0]) < IndexOf(order, s[i + 1]);
    }
    if x in s && x != s[0] {
      var i :| 0 <= i < |s| && s[i] == x;
      assert s[1..][i - 1] == x;
    }
  }

  /** A rank-increasing list is determined by its labels. */
  lemma {:induction false} RankUnique<L>(order: seq<L>, s: seq<L>, t: seq<L>)
    requires RankIncreasing(order, s) && RankIncreasing(order, t)
    requires forall x :: x in s <==> x in t
    ensures s == t
    decreases |s| + |t|
  {
    if s != [] {
      RankHeads(order, s, t);
      forall x ensures x in s[1..] <==> x in t[1..] {
        RankTailMember(order, s, x);
        RankTailMember(order, t, x);
      }
      RankIncreasingTail(order, s);
      RankIncreasingTail(order, t);
      RankUnique(order, s[1..], t[1..]);
      assert s == [s[0]] + s[1..] && t == [t[0]] + t[1..];
    } else if t != [] {
      RankHeads(order, t, s);
    }
  }

  /** What projecting onto an ordered list of wanted labels guarantees:
      only wanted labels remain, in the wanted order, every wanted label that
      was present is kept, and the rows keep their number. */
  lemma ProjectShape(t: Frame<string>, wanted: seq<string>)
    requires Distinct(wanted)
    ensures var r := Project(t, wanted);
      && |r.rows| == |t.rows|
      && OrderedBy(wanted, r.columns)
      && forall c :: c in r.columns <==> c in wanted && c in t.columns
  {
    var labels := Present(wanted, t.columns);
    var ps := PositionsOfAll(t.columns, labels);
    var r := Project(t, wanted);
    WantedRankIncreasing(wanted);
    PresentRankIncreasing(wanted, wanted, t.columns);
    PositionsOfAllOrdered(wanted, t.columns, labels);
    forall c | c in wanted && c in t.columns ensures c in r.columns {
      PositionsOfAllFind(t.columns, labels, c);
    }
  }

  /** With distinct labels the projection is exactly the present wanted
      labels, each column taken from the input column of the same name. */
  lemma ProjectDistinct(t: Frame<string>, wanted: seq<string>)
    requires Distinct(t.columns)
    ensures var r := Project(t, wanted);
      && r.columns == Present(wanted, t.columns)
      && forall i, k :: 0 <= i < |r.rows| && 0 <= k < |r.columns| ==>
           r.columns[k] in t.columns && r.rows[i][k] == t.rows[i][IndexOf(t.columns, r.columns[k])]
  {
    var labels := Present(wanted, t.columns);
    PositionsOfAllDistinct(t.columns, labels);
    var ps := PositionsOfAll(t.columns, labels);
    var r := Project(t, wanted);
    forall i, k | 0 <= i < |r.rows| && 0 <= k < |r.columns|
      ensures r.columns[k] in t.columns && r.rows[i][k] == t.rows[i][IndexOf(t.columns, r.columns[k])]
    {
      SelectCell(t, ps, i, k);
    }
  }

  // ---------------------------------------------------------------------------
  // `pd.concat(frames, ignore_index=True)`: when every frame has the same
  // columns the rows are stacked as they are; otherwise the columns are the
  // union of all labels in order of first appearance and each row is aligned
  // to it, with `Missing` (NaN) where its frame lacks the label.

  function TotalRows<L>(fs: seq<Frame<L>>): nat {
    if fs == [] then 0 else |fs[0].rows| + TotalRows(fs[1..])
  }

  predicate SameColumns<L(==)>(fs: seq<Frame<L>>) {
    |fs| > 0 && forall k :: 0 <= k < |fs| ==> fs[k].columns == fs[0].columns
  }

  function AllColumns<L>(fs: seq<Frame<L>>): seq<L> {
    if fs == [] then [] else fs[0].columns + AllColumns(fs[1..])
  }

  lemma {:induction false} AllColumnsMembership<L>(fs: seq<Frame<L>>, c: L)
    ensures c in AllColumns(fs) <==> exists k :: 0 <= k < |fs| && c in fs[k].columns
  {
    if fs != [] {
      AllColumnsMembership(fs[1..], c);
      if c in AllColumns(fs[1..]) {
        var k :| 0 <= k < |fs[1..]| && c in fs[1..][k].columns;
        assert c in fs[k + 1].columns;
      }
      if exists k :: 0 <= k < |fs| && c in fs[k].columns {
        var k :| 0 <= k < |fs| && c in fs[k].columns;
        if k > 0 {
          assert c in fs[1..][k - 1].columns;
        }
      }
    }
  }

  /** The labels of `s` in order of first appearance. */
  function Dedup(s: seq<string>): (d: seq<string>)
    ensures Distinct(d)
    ensures forall x :: x in d <==> x in s
  {
    if s == [] then []
    else
      var d := Dedup(s[..|s| - 1]);
      assert s == s[..|s| - 1] + [s[|s| - 1]];
      if s[|s| - 1] in d then d else d + [s[|s| - 1]]
  }

  function UnionColumns(fs: seq<Frame<string>>): seq<string> {
    if SameColumns(fs) then fs[0].columns else Dedup(AllColumns(fs))
  }

  /** The cell of `row` under label `c`, or `Missing` when its frame lacks `c`. */
  function Lookup(cols: seq<string>, row: seq<Cell>, c: string): Cell
    requires |row| == |cols|
  {
    if c in cols then row[IndexOf(cols, c)] else Missing
  }

  function Align(cols: seq<string>, row: seq<Cell>, union: seq<string>): (r: seq<Cell>)
    requires |row| == |cols|
    ensures |r| == |union|
  {
    seq(|union|, j requires 0 <= j < |union| => Lookup(cols, row, union[j]))
  }

  /** The rows one frame contributes to the concatenation. */
  function Conform(f: Frame<string>, union: seq<string>, same: bool): (rows: seq<seq<Cell>>)
    requires same ==> f.columns == union
    ensures |rows| == |f.rows|
    ensures forall i :: 0 <= i < |rows| ==> |rows[i]| == |union|
  {
    if same then f.rows
    else seq(|f.rows|, i requires 0 <= i < |f.rows| => Align(f.columns, f.rows[i], union))
  }

  function Stack(fs: seq<Frame<string>>, union: seq<string>, same: bool): (rows: seq<seq<Cell>>)
    requires same ==> forall k :: 0 <= k < |fs| ==> fs[k].columns == union
    ensures |rows| == TotalRows(fs)
    ensures forall i :: 0 <= i < |rows| ==> |rows[i]| == |union|
  {
    if fs == [] then [] else Conform(fs[0], union, same) + Stack(fs[1..], union, same)
  }

  function Concat(fs: seq<Frame<string>>): (r: Frame<string>)
    requires |fs| > 0
    ensures |r.rows| == TotalRows(fs)
  {
    var same := SameColumns(fs);
    var union := UnionColumns(fs);
    Table(union, Stack(fs, union, same))
  }

  lemma ConcatColumns(fs: seq<Frame<string>>, c: string)
    requires |fs| > 0
    ensures c in Concat(fs).columns <==> exists k :: 0 <= k < |fs| && c in fs[k].columns
  {
    AllColumnsMembership(fs, c);
  }

  /** The concatenation of column `c` of each frame, frame by frame. */
  function ColumnOfAll(fs: seq<Frame<string>>, c: string): seq<Cell>
    requires forall k :: 0 <= k < |fs| ==> c in fs[k].columns
  {
    if fs == [] then [] else ColumnValues(fs[0], c) + ColumnOfAll(fs[1..], c)
  }

  function ColumnAt(rows: seq<seq<Cell>>, p: nat): (vs: seq<Cell>)
    requires forall i :: 0 <= i < |rows| ==> p < |rows[i]|
    ensures |vs| == |rows|
  {
    seq(|rows|, i requires 0 <= i < |rows| => rows[i][p])
  }

  lemma ColumnAtAppend(a: seq<seq<Cell>>, b: seq<seq<Cell>>, p: nat)
    requires forall i :: 0 <= i < |a| ==> p < |a[i]|
    requires forall i :: 0 <= i < |b| ==> p < |b[i]|
    ensures ColumnAt(a + b, p) == ColumnAt(a, p) + ColumnAt(b, p)
  {
  }

  /** The rows one frame contributes carry its column `c` at `c`'s place in
      the union. */
  lemma ConformColumn(f: Frame<string>, union: seq<string>, same: bool, c: string)
    requires same ==> f.columns == union
    requires c in union && c in f.columns
    ensures ColumnAt(Conform(f, union, same), IndexOf(union, c)) == ColumnValues(f, c)
  {
  }

  lemma {:induction false} StackColumn(fs: seq<Frame<string>>, union: seq<string>, same: bool, c: string)
    requires same ==> forall k :: 0 <= k < |fs| ==> fs[k].columns == union
    requires c in union
    requires forall k :: 0 <= k < |fs| ==> c in fs[k].columns
    ensures ColumnAt(Stack(fs, union, same), IndexOf(union, c)) == ColumnOfAll(fs, c)
  {
    if fs != [] {
      var p := IndexOf(union, c);
      var head := Conform(fs[0], union, same);
      var tail := Stack(fs[1..], union, same);
      StackColumn(fs[1..], union, same, c);
      ColumnAtAppend(head, tail, p);
      ConformColumn(fs[0], union, same, c);
    }
  }

  /** Concatenation keeps each frame's column `c` intact and in frame order. */
  lemma ConcatColumnValues(fs: seq<Frame<string>>, c: string)
    requires |fs| > 0
    requires forall k :: 0 <= k < |fs| ==> c in fs[k].columns
    ensures c in Concat(fs).columns
    ensures ColumnValues(Concat(fs), c) == ColumnOfAll(fs, c)
  {
    ConcatColumns(fs, c);
    var same := SameColumns(fs);
    var union := UnionColumns(fs);
    StackColumn(fs, union, same, c);
    assert ColumnValues(Concat(fs), c) == ColumnAt(Stack(fs, union, same), IndexOf(union, c));
  }
}
