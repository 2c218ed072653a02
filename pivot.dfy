/** `process_data_to_metrics` (server.py:261-338): the long-format rows of the metrics view
    (one row per date, metric name and value) become one wide record per date.

    The steps, in the source's order: standardise every date, keep only whitelisted metric
    names, rename them through the metric table, coerce each value to a number (an
    unparseable one becomes missing), pivot with the first non-missing value per date and
    metric, fill what is still missing with 0, truncate every metric column to an integer,
    and emit one record per pivot row. */
module Pivot {
  import opened Wrappers
  import opened Strings
  import opened Dicts
  import opened Mappings

  /** The per-row conversions of steps 3.1-3.4: `table` is the metric table (its keys are the
      whitelist, its values the output field names), `norm` the date standardisation
      (`to_datetime(...).strftime('%Y-%m-%d')`) and `coerce` the numeric coercion
      (`to_numeric(errors='coerce')`, `None` for an unparseable value). */
  datatype Conversion = Conversion(table: map<string, string>, norm: string -> string, coerce: string -> Option<real>)

  /** One row of the view: `date`, `Metric_Name`, `Metric_Value` (the value as the driver
      returned it, before numeric coercion). */
  datatype EavRow = EavRow(date: string, metricName: string, metricValue: string)

  /** A row after steps 3.1-3.4: standardised date, output field name, coerced value
      (`None` for the missing value an unparseable input turns into). */
  datatype Cell = Cell(date: string, metric: string, value: Option<real>)

  /** A pivot frame, column-major: `data[j][i]` is the value of column `columns[j]` in the row
      indexed by `index[i]`. */
  datatype Frame<T> = Frame(index: seq<string>, columns: seq<string>, data: seq<seq<T>>)

  /** One output record: its date and its metric fields in column order. */
  datatype MetricsRecord = MetricsRecord(date: string, fields: Dict<string, int>)

  predicate Shaped<T>(f: Frame<T>) {
    && |f.data| == |f.columns|
    && forall j :: 0 <= j < |f.data| ==> |f.data[j]| == |f.index|
  }

  /** `astype(int)` on a float: truncation toward zero. */
  function Trunc(x: real): (r: int)
    ensures 0.0 <= x ==> 0 <= r && r as real <= x < r as real + 1.0
    ensures x < 0.0 ==> r <= 0 && r as real - 1.0 < x <= r as real
  {
    if x >= 0.0 then x.Floor else -((-x).Floor)
  }

  /** Whole numbers are left as they are. */
  lemma TruncOfWhole(n: int)
    ensures Trunc(n as real) == n
  {
  }

  /** What one whitelisted row becomes. */
  function CellOf(row: EavRow, conv: Conversion): Cell
    requires row.metricName in conv.table
  {
    Cell(conv.norm(row.date), conv.table[row.metricName], conv.coerce(row.metricValue))
  }

  /** Steps 3.1-3.4 row by row, in input order; rows whose metric name is not whitelisted are
      dropped. */
  function ToCells(rows: seq<EavRow>, conv: Conversion): (r: seq<Cell>)
    ensures |r| <= |rows|
    ensures (forall k :: 0 <= k < |rows| ==> rows[k].metricName in conv.table) ==> |r| == |rows|
    ensures forall i :: 0 <= i < |r| ==> r[i].metric in conv.table.Values
  {
    if rows == [] then []
    else
      var row := rows[0];
      var rest := ToCells(rows[1..], conv);
      (if row.metricName in conv.table then [CellOf(row, conv)] else []) + rest
  }

  lemma {:induction false} ToCellsAppend(a: seq<EavRow>, b: seq<EavRow>, conv: Conversion)
    ensures ToCells(a + b, conv) == ToCells(a, conv) + ToCells(b, conv)
  {
    if a == [] {
      assert a + b == b;
    } else {
      assert (a + b)[0] == a[0] && (a + b)[1..] == a[1..] + b;
      ToCellsAppend(a[1..], b, conv);
    }
  }

  /** `c` carries a value for date `d` and metric `m`. */
  predicate ValueFor(c: Cell, d: string, m: string) {
    c.date == d && c.metric == m && c.value.Some?
  }

  /** `aggfunc='first'`: the first non-missing value for `(d, m)` in input order. */
  function FirstValue(cells: seq<Cell>, d: string, m: string): (r: Option<real>)
    ensures r.Some? <==> exists i :: 0 <= i < |cells| && ValueFor(cells[i], d, m)
    ensures r.Some? ==> Cell(d, m, r) in cells
  {
    if cells == [] then None
    else if ValueFor(cells[0], d, m) then cells[0].value
    else
      var rest := FirstValue(cells[1..], d, m);
      assert forall i :: 1 <= i < |cells| ==> cells[i] == cells[1..][i - 1];
      rest
  }

  /** The first value is the value of the earliest cell for `(d, m)`: no cell before it has
      one. */
  lemma {:induction false} FirstValueIsEarliest(cells: seq<Cell>, d: string, m: string, i: int)
    requires 0 <= i < |cells| && ValueFor(cells[i], d, m)
    requires forall k :: 0 <= k < i ==> !ValueFor(cells[k], d, m)
    ensures FirstValue(cells, d, m) == cells[i].value
  {
    if i > 0 {
      FirstValueIsEarliest(cells[1..], d, m, i - 1);
    }
  }

  /** What comes after a value never replaces it; before any value, later cells decide. */
  lemma {:induction false} FirstValueAppend(a: seq<Cell>, b: seq<Cell>, d: string, m: string)
    ensures FirstValue(a + b, d, m) == if FirstValue(a, d, m).Some? then FirstValue(a, d, m) else FirstValue(b, d, m)
  {
    if a == [] {
      assert a + b == b;
    } else {
      assert (a + b)[0] == a[0] && (a + b)[1..] == a[1..] + b;
      FirstValueAppend(a[1..], b, d, m);
    }
  }

  /** An unparseable value is missing, not 0: it leaves every first value as it was. */
  lemma UnparseableIsMissing(a: seq<Cell>, b: seq<Cell>, d': string, m': string, d: string, m: string)
    ensures FirstValue(a + [Cell(d', m', None)] + b, d, m) == FirstValue(a + b, d, m)
  {
    FirstValueAppend(a + [Cell(d', m', None)], b, d, m);
    FirstValueAppend(a, [Cell(d', m', None)], d, m);
    FirstValueAppend(a, b, d, m);
  }

  /** The dates that carry at least one value. */
  function ValuedDates(cells: seq<Cell>): (r: seq<string>)
    ensures forall d :: d in r <==> exists i :: 0 <= i < |cells| && cells[i].date == d && cells[i].value.Some?
  {
    if cells == [] then []
    else
      var rest := ValuedDates(cells[1..]);
      assert forall i :: 1 <= i < |cells| ==> cells[i] == cells[1..][i - 1];
      (if cells[0].value.Some? then [cells[0].date] else []) + rest
  }

  /** The metrics that carry at least one value. */
  function ValuedMetrics(cells: seq<Cell>): (r: seq<string>)
    ensures forall m :: m in r <==> exists i :: 0 <= i < |cells| && cells[i].metric == m && cells[i].value.Some?
  {
    if cells == [] then []
    else
      var rest := ValuedMetrics(cells[1..]);
      assert forall i :: 1 <= i < |cells| ==> cells[i] == cells[1..][i - 1];
      (if cells[0].value.Some? then [cells[0].metric] else []) + rest
  }

  /** Step 3.5, `pivot_table(index='date', columns='Metric_Name', aggfunc='first')` with its
      defaults `dropna=True` and `sort=True`: a date or metric that never carries a value
      gets no row or column; rows and columns come out in ascending order; a cell is the
      first value for its date and metric, or missing. */
  function PivotFirst(cells: seq<Cell>): (f: Frame<Option<real>>)
    ensures Shaped(f)
    ensures StrictlySorted(f.index) && StrictlySorted(f.columns)
    ensures forall d :: d in f.index <==> d in ValuedDates(cells)
    ensures forall m :: m in f.columns <==> m in ValuedMetrics(cells)
    ensures forall j, i :: 0 <= j < |f.columns| && 0 <= i < |f.index| ==>
              f.data[j][i] == FirstValue(cells, f.index[i], f.columns[j])
  {
    var index := SortedSet(ValuedDates(cells));
    var columns := SortedSet(ValuedMetrics(cells));
    Frame(index, columns,
          seq(|columns|, j requires 0 <= j < |columns| =>
            seq(|index|, i requires 0 <= i < |index| => FirstValue(cells, index[i], columns[j]))))
  }

  /** `fillna(0)`. */
  function FillNa(f: Frame<Option<real>>): (g: Frame<real>)
    requires Shaped(f)
    ensures Shaped(g) && g.index == f.index && g.columns == f.columns
    ensures forall j, i :: 0 <= j < |g.columns| && 0 <= i < |g.index| ==>
              g.data[j][i] == f.data[j][i].GetOr(0.0)
  {
    Frame(f.index, f.columns,
          seq(|f.columns|, j requires 0 <= j < |f.columns| =>
            seq(|f.index|, i requires 0 <= i < |f.index| => f.data[j][i].GetOr(0.0))))
  }

  /** The frame after the per-column conversion of step 3.6. */
  function Truncated(f: Frame<real>): (g: Frame<int>)
    requires Shaped(f)
    ensures Shaped(g) && g.index == f.index && g.columns == f.columns
  {
    Frame(f.index, f.columns,
          seq(|f.columns|, j requires 0 <= j < |f.columns| =>
            seq(|f.index|, i requires 0 <= i < |f.index| => Trunc(f.data[j][i]))))
  }

  /** Step 3.6's loop over the columns other than `date`: each column is replaced by its
      values truncated to integers. */
  method ConvertColumns(f: Frame<real>) returns (g: Frame<int>)
    requires Shaped(f)
    ensures Shaped(g) && g.index == f.index && g.columns == f.columns
    ensures forall j, i :: 0 <= j < |g.columns| && 0 <= i < |g.index| ==> g.data[j][i] == Trunc(f.data[j][i])
    ensures g == Truncated(f)
  {
    var converted: seq<seq<int>> := [];
    for j := 0 to |f.columns|
      invariant |converted| == j
      invariant forall k :: 0 <= k < j ==> converted[k] == seq(|f.index|, i requires 0 <= i < |f.index| => Trunc(f.data[k][i]))
    {
      var column := seq(|f.index|, i requires 0 <= i < |f.index| => Trunc(f.data[j][i]));
      converted := converted + [column];
    }
    g := Frame(f.index, f.columns, converted);
  }

  /** Step 7, `to_dict(orient='records')`: one record per row, its fields in column order. */
  function Records(f: Frame<int>): (rs: seq<MetricsRecord>)
    requires Shaped(f)
    ensures |rs| == |f.index|
    ensures forall i :: 0 <= i < |rs| ==> rs[i].date == f.index[i] && |rs[i].fields| == |f.columns| && Keys(rs[i].fields) == f.columns
    ensures forall i, j :: 0 <= i < |rs| && 0 <= j < |f.columns| ==> rs[i].fields[j].1 == f.data[j][i]
  {
    seq(|f.index|, i requires 0 <= i < |f.index| =>
      MetricsRecord(f.index[i], seq(|f.columns|, j requires 0 <= j < |f.columns| => (f.columns[j], f.data[j][i]))))
  }

  /** Steps 3.5-7 on the converted rows; no cell at all is the early return of step 3.2. */
  function RecordsOfCells(cells: seq<Cell>): seq<MetricsRecord> {
    if cells == [] then [] else Records(Truncated(FillNa(PivotFirst(cells))))
  }

  /** The whole transformation: no rows, or no whitelisted row, gives no record. */
  function MetricsRecords(rows: seq<EavRow>, conv: Conversion): seq<MetricsRecord> {
    if rows == [] then [] else RecordsOfCells(ToCells(rows, conv))
  }

  /** `process_data_to_metrics`. The final `sort_values('date')` reorders nothing: the pivot's
      index already holds each date once, in ascending order, so even pandas' default sort,
      which is not stable, leaves the rows where they are. */
  method ProcessDataToMetrics(rows: seq<EavRow>, norm: string -> string, coerce: string -> Option<real>)
    returns (records: seq<MetricsRecord>)
    ensures records == MetricsRecords(rows, Conversion(MetricValueMapping, norm, coerce))
  {
    if |rows| == 0 {
      return [];
    }
    var cells := ToCells(rows, Conversion(MetricValueMapping, norm, coerce));
    if |cells| == 0 {
      return [];
    }
    var pivot := FillNa(PivotFirst(cells));
    var converted := ConvertColumns(pivot);
    records := Records(converted);
  }

  /** The cells are exactly the whitelisted rows, converted. */
  lemma {:induction false} ToCellsMembers(rows: seq<EavRow>, conv: Conversion)
    ensures forall k :: 0 <= k < |rows| && rows[k].metricName in conv.table ==>
              CellOf(rows[k], conv) in ToCells(rows, conv)
    ensures forall c :: c in ToCells(rows, conv) ==>
              exists k :: 0 <= k < |rows| && rows[k].metricName in conv.table && c == CellOf(rows[k], conv)
  {
    if rows != [] {
      ToCellsMembers(rows[1..], conv);
      assert forall k :: 1 <= k < |rows| ==> rows[k] == rows[1..][k - 1];
    }
  }

  /** A whitelisted row with a parseable value for date `d` (after standardisation) and
      metric `m` (after renaming). */
  ghost predicate RowHasValue(rows: seq<EavRow>, conv: Conversion, k: int) {
    0 <= k < |rows| && rows[k].metricName in conv.table && conv.coerce(rows[k].metricValue).Some?
  }

  lemma ValuedDatesOfRows(rows: seq<EavRow>, conv: Conversion, d: string)
    ensures d in ValuedDates(ToCells(rows, conv)) <==>
            exists k :: RowHasValue(rows, conv, k) && conv.norm(rows[k].date) == d
  {
    var cells := ToCells(rows, conv);
    ToCellsMembers(rows, conv);
    if d in ValuedDates(cells) {
      var i :| 0 <= i < |cells| && cells[i].date == d && cells[i].value.Some?;
      assert cells[i] in cells;
      var k :| 0 <= k < |rows| && rows[k].metricName in conv.table && cells[i] == CellOf(rows[k], conv);
      assert RowHasValue(rows, conv, k);
    }
    if exists k :: RowHasValue(rows, conv, k) && conv.norm(rows[k].date) == d {
      var k :| RowHasValue(rows, conv, k) && conv.norm(rows[k].date) == d;
      var c := CellOf(rows[k], conv);
      var i :| 0 <= i < |cells| && cells[i] == c;
    }
  }

  lemma ValuedMetricsOfRows(rows: seq<EavRow>, conv: Conversion, m: string)
    ensures m in ValuedMetrics(ToCells(rows, conv)) <==>
            exists k :: RowHasValue(rows, conv, k) && conv.table[rows[k].metricName] == m
  {
    var cells := ToCells(rows, conv);
    ToCellsMembers(rows, conv);
    if m in ValuedMetrics(cells) {
      var i :| 0 <= i < |cells| && cells[i].metric == m && cells[i].value.Some?;
      assert cells[i] in cells;
      var k :| 0 <= k < |rows| && rows[k].metricName in conv.table && cells[i] == CellOf(rows[k], conv);
      assert RowHasValue(rows, conv, k);
    }
    if exists k :: RowHasValue(rows, conv, k) && conv.table[rows[k].metricName] == m {
      var k :| RowHasValue(rows, conv, k) && conv.table[rows[k].metricName] == m;
      var c := CellOf(rows[k], conv);
      var i :| 0 <= i < |cells| && cells[i] == c;
    }
  }

  /** Some cell survives exactly when some row has a whitelisted metric name. */
  lemma {:induction false} NoCellsIffNoWhitelisted(rows: seq<EavRow>, conv: Conversion)
    ensures ToCells(rows, conv) == [] <==> forall k :: 0 <= k < |rows| ==> rows[k].metricName !in conv.table
  {
    if rows != [] {
      NoCellsIffNoWhitelisted(rows[1..], conv);
      assert forall k :: 1 <= k < |rows| ==> rows[k] == rows[1..][k - 1];
    }
  }

  /** No rows, no records. */
  lemma NoRowsNoRecords(conv: Conversion)
    ensures MetricsRecords([], conv) == []
  {
  }

  /** Without a whitelisted metric name there is no record. */
  lemma NoWhitelistedMetricNoRecords(rows: seq<EavRow>, conv: Conversion)
    requires forall k :: 0 <= k < |rows| ==> rows[k].metricName !in conv.table
    ensures MetricsRecords(rows, conv) == []
  {
    NoCellsIffNoWhitelisted(rows, conv);
  }

  /** A row whose metric name is not whitelisted changes nothing, wherever it sits. */
  lemma IgnoresUnknownMetrics(pre: seq<EavRow>, row: EavRow, post: seq<EavRow>,
                              conv: Conversion)
    requires row.metricName !in conv.table
    ensures MetricsRecords(pre + [row] + post, conv) == MetricsRecords(pre + post, conv)
  {
    UnknownRowHasNoCell(pre, row, post, conv);
  }

  lemma UnknownRowHasNoCell(pre: seq<EavRow>, row: EavRow, post: seq<EavRow>,
                            conv: Conversion)
    requires row.metricName !in conv.table
    ensures ToCells(pre + [row] + post, conv) == ToCells(pre + post, conv)
  {
    assert pre + [row] + post == pre + ([row] + post);
    UnknownHeadHasNoCell(row, post, conv);
    ToCellsAppend(pre, [row] + post, conv);
    ToCellsAppend(pre, post, conv);
  }

  lemma UnknownHeadHasNoCell(row: EavRow, post: seq<EavRow>, conv: Conversion)
    requires row.metricName !in conv.table
    ensures ToCells([row] + post, conv) == ToCells(post, conv)
  {
    assert ([row] + post)[0] == row && ([row] + post)[1..] == post;
  }

  lemma {:induction false} ValuedDatesAppend(a: seq<Cell>, b: seq<Cell>)
    ensures ValuedDates(a + b) == ValuedDates(a) + ValuedDates(b)
  {
    if a == [] {
      assert a + b == b;
    } else {
      assert (a + b)[0] == a[0] && (a + b)[1..] == a[1..] + b;
      ValuedDatesAppend(a[1..], b);
    }
  }

  lemma {:induction false} ValuedMetricsAppend(a: seq<Cell>, b: seq<Cell>)
    ensures ValuedMetrics(a + b) == ValuedMetrics(a) + ValuedMetrics(b)
  {
    if a == [] {
      assert a + b == b;
    } else {
      assert (a + b)[0] == a[0] && (a + b)[1..] == a[1..] + b;
      ValuedMetricsAppend(a[1..], b);
    }
  }

  /** Two cell sequences with the same valued dates, the same valued metrics and the same
      first values pivot to the same records. */
  lemma SameRecords(c1: seq<Cell>, c2: seq<Cell>)
    requires c1 != [] && c2 != []
    requires forall d :: d in ValuedDates(c1) <==> d in ValuedDates(c2)
    requires forall m :: m in ValuedMetrics(c1) <==> m in ValuedMetrics(c2)
    requires forall d, m :: FirstValue(c1, d, m) == FirstValue(c2, d, m)
    ensures RecordsOfCells(c1) == RecordsOfCells(c2)
  {
    var f1, f2 := PivotFirst(c1), PivotFirst(c2);
    SortedUnique(f1.index, f2.index);
    SortedUnique(f1.columns, f2.columns);
    forall j | 0 <= j < |f1.columns| ensures f1.data[j] == f2.data[j] {
      assert |f1.data[j]| == |f2.data[j]|;
      forall i | 0 <= i < |f1.index| ensures f1.data[j][i] == f2.data[j][i] {
      }
    }
    assert f1.data == f2.data;
  }

  /** A sequence with no valued date pivots to no record. */
  lemma NoValuedDateNoRecords(cells: seq<Cell>)
    requires ValuedDates(cells) == []
    ensures RecordsOfCells(cells) == []
  {
  }

  /** A cell for a date, metric pair that already has a value changes no record, wherever
      it sits after that value. */
  lemma DuplicateCellIgnored(a: seq<Cell>, c: Cell, b: seq<Cell>, k: int)
    requires 0 <= k < |a| && ValueFor(a[k], c.date, c.metric)
    ensures RecordsOfCells(a + [c] + b) == RecordsOfCells(a + b)
  {
    ValuedDatesAppend(a + [c], b);
    ValuedDatesAppend(a, [c]);
    ValuedDatesAppend(a, b);
    ValuedMetricsAppend(a + [c], b);
    ValuedMetricsAppend(a, [c]);
    ValuedMetricsAppend(a, b);
    assert [c][1..] == [];
    forall d, m ensures FirstValue(a + [c] + b, d, m) == FirstValue(a + b, d, m) {
      FirstValueAppend(a + [c], b, d, m);
      FirstValueAppend(a, [c], d, m);
      FirstValueAppend(a, b, d, m);
    }
    SameRecords(a + [c] + b, a + b);
  }

  /** A cell without a value changes no record, wherever it sits. */
  lemma MissingCellIgnored(a: seq<Cell>, c: Cell, b: seq<Cell>)
    requires c.value.None?
    ensures RecordsOfCells(a + [c] + b) == RecordsOfCells(a + b)
  {
    ValuedDatesAppend(a + [c], b);
    ValuedDatesAppend(a, [c]);
    ValuedDatesAppend(a, b);
    ValuedMetricsAppend(a + [c], b);
    ValuedMetricsAppend(a, [c]);
    ValuedMetricsAppend(a, b);
    assert [c][1..] == [];
    if a + b == [] {
      assert ValuedDates(a + [c] + b) == [];
    } else {
      forall d, m ensures FirstValue(a + [c] + b, d, m) == FirstValue(a + b, d, m) {
        UnparseableIsMissing(a, b, c.date, c.metric, d, m);
      }
      SameRecords(a + [c] + b, a + b);
    }
  }

  lemma OneRowCells(row: EavRow, conv: Conversion)
    ensures ToCells([row], conv) == if row.metricName in conv.table then [CellOf(row, conv)] else []
  {
    assert [row][1..] == [];
  }

  /** `aggfunc='first'` at the level of rows: a row for a date and metric that an earlier
      row already gave a parseable value never overrides it, wherever it sits after that
      row, and the output stays the same. */
  lemma LaterDuplicateIgnored(pre: seq<EavRow>, row: EavRow, post: seq<EavRow>,
                              conv: Conversion, k: int)
    requires row.metricName in conv.table
    requires RowHasValue(pre, conv, k)
    requires conv.norm(pre[k].date) == conv.norm(row.date)
    requires conv.table[pre[k].metricName] == conv.table[row.metricName]
    ensures MetricsRecords(pre + [row] + post, conv) == MetricsRecords(pre + post, conv)
  {
    ToCellsAppend(pre + [row], post, conv);
    ToCellsAppend(pre, [row], conv);
    ToCellsAppend(pre, post, conv);
    OneRowCells(row, conv);
    ToCellsMembers(pre, conv);
    var a := ToCells(pre, conv);
    var i :| 0 <= i < |a| && a[i] == CellOf(pre[k], conv);
    DuplicateCellIgnored(a, CellOf(row, conv), ToCells(post, conv), i);
  }

  /** An unparseable value becomes missing, not 0: its row changes nothing, wherever it sits;
      in particular a date or metric whose values are all unparseable gets no record or
      field. */
  lemma UnparseableRowIgnored(pre: seq<EavRow>, row: EavRow, post: seq<EavRow>, conv: Conversion)
    requires conv.coerce(row.metricValue).None?
    ensures MetricsRecords(pre + [row] + post, conv) == MetricsRecords(pre + post, conv)
  {
    if row.metricName !in conv.table {
      UnknownRowHasNoCell(pre, row, post, conv);
    } else {
      assert pre + [row] + post == (pre + [row]) + post;
      ToCellsAppend(pre + [row], post, conv);
      ToCellsAppend(pre, [row], conv);
      ToCellsAppend(pre, post, conv);
      OneRowCells(row, conv);
      var a, b := ToCells(pre, conv), ToCells(post, conv);
      MissingCellIgnored(a, CellOf(row, conv), b);
      if pre + post == [] {
        assert a + b == [];
        assert ValuedDates([CellOf(row, conv)]) == [] by {
          assert [CellOf(row, conv)][1..] == [];
        }
        NoValuedDateNoRecords([CellOf(row, conv)]);
        assert a + [CellOf(row, conv)] + b == [CellOf(row, conv)];
      }
    }
  }

  lemma {:induction false} NoValueNoValuedDates(cells: seq<Cell>)
    requires forall i :: 0 <= i < |cells| ==> cells[i].value.None?
    ensures ValuedDates(cells) == []
  {
    if cells != [] {
      assert forall i :: 1 <= i < |cells| ==> cells[i] == cells[1..][i - 1];
      NoValueNoValuedDates(cells[1..]);
    }
  }

  /** When no value parses there is no record at all. */
  lemma AllUnparseableNoRecords(rows: seq<EavRow>, conv: Conversion)
    requires forall k :: 0 <= k < |rows| ==> conv.coerce(rows[k].metricValue).None?
    ensures MetricsRecords(rows, conv) == []
  {
    var cells := ToCells(rows, conv);
    ToCellsMembers(rows, conv);
    forall i | 0 <= i < |cells| ensures cells[i].value.None? {
      assert cells[i] in cells;
    }
    NoValueNoValuedDates(cells);
  }

  /** Some record carries date `d`. */
  ghost predicate HasRecordFor(rs: seq<MetricsRecord>, d: string) {
    exists i :: 0 <= i < |rs| && rs[i].date == d
  }

  /** The records come in strictly ascending date order. */
  lemma RecordDatesAscending(rows: seq<EavRow>, conv: Conversion)
    ensures forall i, j :: 0 <= i < j < |MetricsRecords(rows, conv)| ==>
              Less(MetricsRecords(rows, conv)[i].date, MetricsRecords(rows, conv)[j].date)
  {
  }

  /** There is one record per date that has a whitelisted row with a parseable value, and no
      record for any other date. */
  lemma RecordDates(rows: seq<EavRow>, conv: Conversion, d: string)
    ensures HasRecordFor(MetricsRecords(rows, conv), d) <==>
            exists k :: RowHasValue(rows, conv, k) && conv.norm(rows[k].date) == d
  {
    ValuedDatesOfRows(rows, conv, d);
    if rows != [] {
      RecordDatesOfCells(ToCells(rows, conv), d);
    }
  }

  lemma RecordDatesOfCells(cells: seq<Cell>, d: string)
    ensures HasRecordFor(RecordsOfCells(cells), d) <==> d in ValuedDates(cells)
  {
    if cells != [] {
      var rs := RecordsOfCells(cells);
      var f := PivotFirst(cells);
      if d in f.index {
        var i :| 0 <= i < |f.index| && f.index[i] == d;
        assert rs[i].date == d;
      }
    }
  }

  /** Every record has the same fields, in ascending order: the renamed metrics that have a
      whitelisted row with a parseable value somewhere in the input, so a record need not
      carry all thirteen metrics. */
  lemma RecordFields(rows: seq<EavRow>, conv: Conversion, i: int)
    requires 0 <= i < |MetricsRecords(rows, conv)|
    ensures StrictlySorted(Keys(MetricsRecords(rows, conv)[i].fields))
    ensures forall m :: m in Keys(MetricsRecords(rows, conv)[i].fields)
              <==> exists k :: RowHasValue(rows, conv, k) && conv.table[rows[k].metricName] == m
    ensures forall i' :: 0 <= i' < |MetricsRecords(rows, conv)| ==>
              Keys(MetricsRecords(rows, conv)[i'].fields) == Keys(MetricsRecords(rows, conv)[i].fields)
  {
    forall m ensures m in Keys(MetricsRecords(rows, conv)[i].fields)
                     <==> exists k :: RowHasValue(rows, conv, k) && conv.table[rows[k].metricName] == m {
      ValuedMetricsOfRows(rows, conv, m);
    }
  }

  /** Each field holds the first parseable value for its date and metric in input order,
      truncated toward zero, or 0 when that date has no value for the metric. */
  lemma RecordValue(rows: seq<EavRow>, conv: Conversion, i: int, j: int)
    requires 0 <= i < |MetricsRecords(rows, conv)| && 0 <= j < |MetricsRecords(rows, conv)[i].fields|
    ensures MetricsRecords(rows, conv)[i].fields[j].1 ==
      match FirstValue(ToCells(rows, conv), MetricsRecords(rows, conv)[i].date, MetricsRecords(rows, conv)[i].fields[j].0)
      case None => 0
      case Some(v) => Trunc(v)
  {
  }

  /** A single valued cell pivots to a single record with a single field. */
  lemma SingleCellRecord(c: Cell)
    requires c.value.Some?
    ensures RecordsOfCells([c]) == [MetricsRecord(c.date, [(c.metric, Trunc(c.value.value))])]
  {
    assert [c][1..] == [];
    assert ValuedDates([c]) == [c.date];
    assert ValuedMetrics([c]) == [c.metric];
    assert SortedSet([c.date]) == [c.date] by {
      assert [c.date][..0] == [];
    }
    assert SortedSet([c.metric]) == [c.metric] by {
      assert [c.metric][..0] == [];
    }
    assert FirstValue([c], c.date, c.metric) == c.value;
    var g := Truncated(FillNa(PivotFirst([c])));
    assert g.index == [c.date] && g.columns == [c.metric];
    assert g.data[0][0] == Trunc(c.value.value);
    var rs := Records(g);
    assert |rs| == 1 && rs[0].date == c.date;
    assert rs[0].fields == [(c.metric, Trunc(c.value.value))];
  }

  lemma ScenarioMetricNames()
    ensures "TestCaseActual" in MetricValueMapping && MetricValueMapping["TestCaseActual"] == "TestCaseActual"
    ensures "Unknown" !in MetricValueMapping
  {
  }

  /** Two values for the same date and metric and one unknown metric: the first value wins,
      the unknown metric is ignored, and the record carries only the metric that occurred. */
  lemma FirstWinsScenario(norm: string -> string, coerce: string -> Option<real>)
    requires norm("2024-01-01") == "2024-01-01"
    requires coerce("10") == Some(10.0) && coerce("99") == Some(99.0)
    ensures MetricsRecords([EavRow("2024-01-01", "TestCaseActual", "10"),
                            EavRow("2024-01-01", "TestCaseActual", "99"),
                            EavRow("2024-01-01", "Unknown", "5")],
                           Conversion(MetricValueMapping, norm, coerce))
         == [MetricsRecord("2024-01-01", [("TestCaseActual", 10)])]
  {
    ScenarioMetricNames();
    FirstWinsOverUnknown(EavRow("2024-01-01", "TestCaseActual", "10"),
                         EavRow("2024-01-01", "TestCaseActual", "99"),
                         EavRow("2024-01-01", "Unknown", "5"),
                         Conversion(MetricValueMapping, norm, coerce), 10);
  }

  /** Two whitelisted rows for the same date and metric, then a row whose metric is not
      whitelisted: only the first row shows, truncated. */
  lemma FirstWinsOverUnknown(r1: EavRow, r2: EavRow, r3: EavRow, conv: Conversion, n: int)
    requires r1.metricName in conv.table && r2.metricName in conv.table && r3.metricName !in conv.table
    requires conv.norm(r1.date) == conv.norm(r2.date)
    requires conv.table[r1.metricName] == conv.table[r2.metricName]
    requires conv.coerce(r1.metricValue) == Some(n as real)
    ensures MetricsRecords([r1, r2, r3], conv)
         == [MetricsRecord(conv.norm(r1.date), [(conv.table[r1.metricName], n)])]
  {
    IgnoresUnknownMetrics([r1, r2], r3, [], conv);
    assert [r1, r2] + [r3] + [] == [r1, r2, r3];
    assert [r1, r2] + [] == [r1] + [r2] + [];
    assert RowHasValue([r1], conv, 0);
    LaterDuplicateIgnored([r1], r2, [], conv, 0);
    assert [r1] + [] == [r1];
    OneRowCells(r1, conv);
    SingleCellRecord(CellOf(r1, conv));
    TruncOfWhole(n);
  }
}
