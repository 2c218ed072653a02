/** The dashboard extension's side of a request (app.js:54-363): collect the main sheet's
    filters, replace "(All)" selections with the few values the sheet's data actually shows,
    and assemble the JSON body posted to `/ask-ai`.

    The Tableau objects are plain values: a worksheet's filters, its summary columns and its
    summary rows of formatted values. */
module Extension {
  import opened Wrappers
  import opened Strings
  import opened Dicts
  import opened FilterValues
  import opened Payload
  import opened AskAi

  const MainSheetName: string := "Line_Chart"

  /** Filters that are never sent (app.js:264-268). */
  const IgnoredFilters: seq<string> := ["Measure Names", "Metric Name Set", "Filter_Weekend"]

  /** At most this many summary rows are scanned for distinct values. */
  const RowLimit: nat := 500

  /** An "(All)" entry is replaced only by fewer than this many distinct values. */
  const DistinctLimit: nat := 10

  const ChatMode: string := "AI_Assistant"
  const AnalyzeMode: string := "Analyze_Data"

  /** A Tableau data value; only its display text is used. */
  datatype DataValue = DataValue(formattedValue: string)

  /** A categorical filter of a worksheet. */
  datatype TableauFilter = TableauFilter(fieldName: string, isAllSelected: bool, appliedValues: seq<DataValue>)

  /** A worksheet: its filters, and its summary data as column names and rows of cells. */
  datatype Worksheet = Worksheet(name: string, filters: seq<TableauFilter>,
                                 columns: seq<string>, data: seq<seq<DataValue>>)

  /** Why assembling the request failed. `SheetNotFound` is the error `getRawFilters` throws;
      `SummaryUnavailable` is the `TypeError` of asking a missing sheet for its summary;
      `BlankQuestion` is the chat-mode validation error. */
  datatype ExtensionError = SheetNotFound(sheet: string) | SummaryUnavailable | BlankQuestion

  /** `worksheets.find(w => w.name === MAIN_SHEET_NAME)`. */
  function FindSheet(sheets: seq<Worksheet>): (r: Option<Worksheet>)
    ensures r.None? <==> forall i :: 0 <= i < |sheets| ==> sheets[i].name != MainSheetName
    ensures r.Some? ==> exists i :: 0 <= i < |sheets| && sheets[i] == r.value && r.value.name == MainSheetName &&
                                    forall j :: 0 <= j < i ==> sheets[j].name != MainSheetName
  {
    if sheets == [] then None
    else if sheets[0].name == MainSheetName then Some(sheets[0])
    else
      var r := FindSheet(sheets[1..]);
      assert forall i :: 1 <= i < |sheets| ==> sheets[i] == sheets[1..][i - 1];
      if r.Some? then
        var i :| 0 <= i < |sheets[1..]| && sheets[1..][i] == r.value && r.value.name == MainSheetName &&
                 forall j :: 0 <= j < i ==> sheets[1..][j].name != MainSheetName;
        assert sheets[i + 1] == r.value;
        r
      else r
  }

  /** Every summary row has one cell per summary column, as Tableau delivers them. */
  predicate Rectangular(sheet: Worksheet) {
    forall i :: 0 <= i < |sheet.data| ==> |sheet.data[i]| == |sheet.columns|
  }

  // ---------------------------------------------------------------------------------------
  // getRawFilters

  /** `f.appliedValues.map(v => v.formattedValue)`. */
  function FormattedValues(vs: seq<DataValue>): (r: seq<string>)
    ensures |r| == |vs|
    ensures forall i :: 0 <= i < |vs| ==> r[i] == vs[i].formattedValue
  {
    seq(|vs|, i requires 0 <= i < |vs| => vs[i].formattedValue)
  }

  /** The raw entry of a filter: the marker alone when everything is selected, its applied
      values otherwise. */
  function RawValue(f: TableauFilter): seq<string> {
    if f.isAllSelected then [AllMarker] else FormattedValues(f.appliedValues)
  }

  /** The assignments `getRawFilters` makes, in the filters' order. */
  function RawPairs(fs: seq<TableauFilter>): seq<(string, seq<string>)> {
    if fs == [] then []
    else
      var f := fs[|fs| - 1];
      RawPairs(fs[..|fs| - 1]) + (if f.fieldName in IgnoredFilters then [] else [(f.fieldName, RawValue(f))])
  }

  /** The map `getRawFilters` fills. */
  function RawFilters(fs: seq<TableauFilter>): Dict<string, seq<string>> {
    FromPairs(RawPairs(fs))
  }

  lemma RawStep(fs: seq<TableauFilter>, i: int)
    requires 0 <= i < |fs|
    ensures fs[i].fieldName in IgnoredFilters ==> RawFilters(fs[..i + 1]) == RawFilters(fs[..i])
    ensures fs[i].fieldName !in IgnoredFilters ==>
              RawFilters(fs[..i + 1]) == Put(RawFilters(fs[..i]), fs[i].fieldName, RawValue(fs[i]))
  {
    assert fs[..i + 1][..i] == fs[..i];
    if fs[i].fieldName !in IgnoredFilters {
      FromPairsSnoc(RawPairs(fs[..i]), (fs[i].fieldName, RawValue(fs[i])));
    } else {
      assert RawPairs(fs[..i + 1]) == RawPairs(fs[..i]);
    }
  }

  method CollectRawFilters(filters: seq<TableauFilter>) returns (filterMap: Dict<string, seq<string>>)
    ensures filterMap == RawFilters(filters)
  {
    filterMap := [];
    for i := 0 to |filters|
      invariant filterMap == RawFilters(filters[..i])
    {
      var f := filters[i];
      RawStep(filters, i);
      if f.fieldName in IgnoredFilters {
        continue;
      }
      if f.isAllSelected {
        filterMap := Put(filterMap, f.fieldName, [AllMarker]);
      } else {
        var values := FormattedValues(f.appliedValues);
        filterMap := Put(filterMap, f.fieldName, values);
      }
    }
    assert filters[..|filters|] == filters;
  }

  /** `getRawFilters` (app.js:243-297). */
  method GetRawFilters(sheets: seq<Worksheet>) returns (r: Result<Dict<string, seq<string>>, ExtensionError>)
    ensures FindSheet(sheets).None? ==> r == Failure(SheetNotFound(MainSheetName))
    ensures FindSheet(sheets).Some? ==> r == Success(RawFilters(FindSheet(sheets).value.filters))
  {
    var sheet := FindSheet(sheets);
    if sheet.None? {
      return Failure(SheetNotFound(MainSheetName));
    }
    var filterMap := CollectRawFilters(sheet.value.filters);
    return Success(filterMap);
  }

  lemma {:induction false} RawPairKeys(fs: seq<TableauFilter>, k: string)
    ensures k in Keys(RawPairs(fs)) <==>
              k !in IgnoredFilters && exists i :: 0 <= i < |fs| && fs[i].fieldName == k
  {
    if fs != [] {
      var init := fs[..|fs| - 1];
      RawPairKeys(init, k);
      var f := fs[|fs| - 1];
      var tail := if f.fieldName in IgnoredFilters then [] else [(f.fieldName, RawValue(f))];
      assert Keys(RawPairs(fs)) == Keys(RawPairs(init)) + Keys(tail);
      if k in Keys(RawPairs(init)) {
        var i :| 0 <= i < |init| && init[i].fieldName == k;
        assert fs[i].fieldName == k;
      }
      if k in Keys(tail) {
        assert tail == [(f.fieldName, RawValue(f))];
        assert fs[|fs| - 1].fieldName == k;
      }
      if k !in IgnoredFilters && exists i :: 0 <= i < |fs| && fs[i].fieldName == k {
        var i :| 0 <= i < |fs| && fs[i].fieldName == k;
        if i < |init| {
          assert init[i].fieldName == k;
        } else {
          assert Keys(tail) == [k];
        }
      }
    }
  }

  /** The raw map's keys are exactly the names of the filters that are not ignored; in
      particular "Measure Names", "Metric Name Set" and "Filter_Weekend" never appear. */
  lemma RawKeys(fs: seq<TableauFilter>)
    ensures DistinctKeys(RawFilters(fs))
    ensures forall k :: k in Keys(RawFilters(fs)) <==>
              k !in IgnoredFilters && exists i :: 0 <= i < |fs| && fs[i].fieldName == k
    ensures forall k :: k in IgnoredFilters ==> k !in Keys(RawFilters(fs))
  {
    forall k ensures k in Keys(RawFilters(fs)) <==>
                     k !in IgnoredFilters && exists i :: 0 <= i < |fs| && fs[i].fieldName == k {
      RawPairKeys(fs, k);
    }
  }

  /** A filter's entry is `["(All)"]` when everything is selected and its applied values, in
      order, otherwise; when several filters share a name, the last one wins. */
  lemma {:induction false} RawEntry(fs: seq<TableauFilter>, i: int)
    requires 0 <= i < |fs| && fs[i].fieldName !in IgnoredFilters
    requires forall j :: i < j < |fs| ==> fs[j].fieldName != fs[i].fieldName
    ensures fs[i].isAllSelected ==> Get(RawFilters(fs), fs[i].fieldName) == Some([AllMarker])
    ensures !fs[i].isAllSelected ==>
              && Get(RawFilters(fs), fs[i].fieldName).Some?
              && var v := Get(RawFilters(fs), fs[i].fieldName).value;
              && |v| == |fs[i].appliedValues|
              && forall j :: 0 <= j < |v| ==> v[j] == fs[i].appliedValues[j].formattedValue
  {
    RawLast(fs, i);
  }

  lemma {:induction false} RawLast(fs: seq<TableauFilter>, i: int)
    requires 0 <= i < |fs| && fs[i].fieldName !in IgnoredFilters
    requires forall j :: i < j < |fs| ==> fs[j].fieldName != fs[i].fieldName
    ensures LastValue(RawPairs(fs), fs[i].fieldName) == Some(RawValue(fs[i]))
  {
    var init := fs[..|fs| - 1];
    var f := fs[|fs| - 1];
    var tail := if f.fieldName in IgnoredFilters then [] else [(f.fieldName, RawValue(f))];
    assert RawPairs(fs) == RawPairs(init) + tail;
    if i < |fs| - 1 {
      assert init[i] == fs[i];
      RawLast(init, i);
      if tail != [] {
        var ps := RawPairs(fs);
        assert f.fieldName != fs[i].fieldName;
        assert ps[|ps| - 1] == (f.fieldName, RawValue(f));
        assert ps[..|ps| - 1] == RawPairs(init);
      } else {
        assert RawPairs(fs) == RawPairs(init);
      }
    } else {
      assert tail == [(fs[i].fieldName, RawValue(fs[i]))];
    }
  }

  // ---------------------------------------------------------------------------------------
  // enrichFiltersWithData

  /** The test in `columns.findIndex(...)`: the bracket-stripped column name equals or
      contains the bracket-stripped filter name. */
  predicate ColumnMatches(column: string, filterName: string) {
    var dbName := StripBrackets(column);
    var fName := StripBrackets(filterName);
    dbName == fName || Contains(dbName, fName)
  }

  /** A column matches its own filter, and wrapping either name in square brackets, as
      Tableau does for field names, changes nothing. */
  lemma ColumnMatchesBrackets(column: string, filterName: string)
    ensures ColumnMatches(column, column)
    ensures ColumnMatches("[" + column + "]", filterName) <==> ColumnMatches(column, filterName)
    ensures ColumnMatches(column, "[" + filterName + "]") <==> ColumnMatches(column, filterName)
  {
    BracketedStrip(column);
    BracketedStrip(filterName);
  }

  lemma BracketedStrip(s: string)
    ensures StripBrackets("[" + s + "]") == StripBrackets(s)
  {
    StripAppend("[" + s, "]");
    StripAppend("[", s);
    assert StripBrackets("[") == [] by { assert "["[1..] == []; }
    assert StripBrackets("]") == [] by { assert "]"[1..] == []; }
  }

  /** `columns.findIndex(...)`: the first matching column, or -1. */
  function FindColumn(columns: seq<string>, filterName: string): (r: int)
    ensures -1 <= r < |columns|
    ensures r == -1 <==> forall j :: 0 <= j < |columns| ==> !ColumnMatches(columns[j], filterName)
    ensures r >= 0 ==> ColumnMatches(columns[r], filterName) &&
                       forall j :: 0 <= j < r ==> !ColumnMatches(columns[j], filterName)
  {
    if columns == [] then -1
    else if ColumnMatches(columns[0], filterName) then 0
    else
      var r := FindColumn(columns[1..], filterName);
      assert forall j :: 1 <= j < |columns| ==> columns[j] == columns[1..][j - 1];
      if r == -1 then -1 else r + 1
  }

  function Min(a: int, b: int): int {
    if a <= b then a else b
  }

  /** The column's display values in the first `min(|data|, 500)` summary rows. */
  function ScannedValues(data: seq<seq<DataValue>>, col: nat): (vs: seq<string>)
    requires forall i :: 0 <= i < |data| ==> col < |data[i]|
    ensures |vs| == Min(|data|, RowLimit as int)
    ensures forall i :: 0 <= i < |vs| ==> vs[i] == data[i][col].formattedValue
  {
    var limit := Min(|data|, RowLimit as int);
    seq(limit, i requires 0 <= i < limit => data[i][col].formattedValue)
  }

  /** The `uniqueValues` set filled by the bounded loop (app.js:329-333); a JavaScript `Set`
      keeps first-insertion order, which `Array.from` reproduces. */
  method CollectUniqueValues(data: seq<seq<DataValue>>, col: nat) returns (uniqueValues: seq<string>)
    requires forall i :: 0 <= i < |data| ==> col < |data[i]|
    ensures uniqueValues == Dedup(ScannedValues(data, col))
  {
    ghost var scanned := ScannedValues(data, col);
    uniqueValues := [];
    var limit := Min(|data|, RowLimit as int);
    for i := 0 to limit
      invariant uniqueValues == Dedup(scanned[..i])
    {
      var value := data[i][col].formattedValue;
      DedupStep(scanned, i);
      if value !in uniqueValues {
        uniqueValues := uniqueValues + [value];
      }
    }
    assert scanned[..limit] == scanned;
  }

  /** An entry that `enrichFiltersWithData` looks at: its first element is the marker. */
  predicate SelectsAll(value: seq<string>) {
    |value| > 0 && value[0] == AllMarker
  }

  /** What one entry becomes. */
  function Enriched(sheet: Worksheet, name: string, value: seq<string>): (r: seq<string>)
    requires Rectangular(sheet)
    ensures r == value || (SelectsAll(value) && 1 <= |r| < DistinctLimit)
    ensures r != value ==>
              && FindColumn(sheet.columns, name) >= 0
              && forall x :: x in r <==> x in ScannedValues(sheet.data, FindColumn(sheet.columns, name))
  {
    if !SelectsAll(value) then value
    else
      var col := FindColumn(sheet.columns, name);
      if col == -1 || |sheet.data| == 0 then value
      else
        var unique := Dedup(ScannedValues(sheet.data, col));
        if |unique| == 1 || (|unique| > 1 && |unique| < DistinctLimit) then unique else value
  }

  /** The map after enrichment: every entry in place, under the same key. */
  function EnrichedFilters(sheet: Worksheet, filters: Dict<string, seq<string>>): (r: Dict<string, seq<string>>)
    requires Rectangular(sheet)
    ensures |r| == |filters|
    ensures forall i :: 0 <= i < |r| ==> r[i] == (filters[i].0, Enriched(sheet, filters[i].0, filters[i].1))
  {
    seq(|filters|, i requires 0 <= i < |filters| => (filters[i].0, Enriched(sheet, filters[i].0, filters[i].1)))
  }

  /** The map with the first `n` entries enriched and the rest as they were. */
  function PartlyEnriched(sheet: Worksheet, filters: Dict<string, seq<string>>, n: int): (r: Dict<string, seq<string>>)
    requires Rectangular(sheet) && 0 <= n <= |filters|
    ensures |r| == |filters|
    ensures forall i :: 0 <= i < |r| ==> r[i].0 == filters[i].0
  {
    seq(|filters|, i requires 0 <= i < |filters| =>
      if i < n then (filters[i].0, Enriched(sheet, filters[i].0, filters[i].1)) else filters[i])
  }

  lemma EnrichStep(sheet: Worksheet, filters: Dict<string, seq<string>>, n: int, v: seq<string>)
    requires Rectangular(sheet) && 0 <= n < |filters| && DistinctKeys(filters)
    requires v == Enriched(sheet, filters[n].0, filters[n].1)
    ensures PartlyEnriched(sheet, filters, n + 1) == Put(PartlyEnriched(sheet, filters, n), filters[n].0, v)
    ensures v == filters[n].1 ==> PartlyEnriched(sheet, filters, n + 1) == PartlyEnriched(sheet, filters, n)
  {
    var d := PartlyEnriched(sheet, filters, n);
    assert Keys(d) == Keys(filters);
    assert d[n] == filters[n];
    PutAt(d, n, v);
    assert PartlyEnriched(sheet, filters, n + 1) == d[n := (filters[n].0, v)];
  }

  /** `enrichFiltersWithData` (app.js:301-363): each "(All)" entry is reassigned in place
      when the sheet's data pins it to fewer than ten values; the entries are visited in the
      map's order, over a snapshot taken by `Object.entries`. */
  method EnrichFiltersWithData(sheets: seq<Worksheet>, currentFilters: Dict<string, seq<string>>)
    returns (r: Result<Dict<string, seq<string>>, ExtensionError>)
    requires DistinctKeys(currentFilters)
    requires FindSheet(sheets).Some? ==> Rectangular(FindSheet(sheets).value)
    ensures FindSheet(sheets).None? ==> r == Failure(SummaryUnavailable)
    ensures FindSheet(sheets).Some? ==> r == Success(EnrichedFilters(FindSheet(sheets).value, currentFilters))
  {
    var found := FindSheet(sheets);
    if found.None? {
      return Failure(SummaryUnavailable);
    }
    var sheet := found.value;
    var filters := currentFilters;
    for n := 0 to |currentFilters|
      invariant filters == PartlyEnriched(sheet, currentFilters, n)
    {
      var (filterName, filterValue) := currentFilters[n];
      var update := EnrichEntry(sheet, filterName, filterValue);
      if update.Some? {
        EnrichStep(sheet, currentFilters, n, update.value);
        filters := Put(filters, filterName, update.value);
      } else {
        EnrichStep(sheet, currentFilters, n, filterValue);
      }
    }
    assert filters == EnrichedFilters(sheet, currentFilters);
    return Success(filters);
  }

  /** The body of `enrichFiltersWithData`'s loop for one entry: the values it reassigns the
      entry to, or none when the entry is left alone. */
  method EnrichEntry(sheet: Worksheet, filterName: string, filterValue: seq<string>)
    returns (update: Option<seq<string>>)
    requires Rectangular(sheet)
    ensures Enriched(sheet, filterName, filterValue) == if update.Some? then update.value else filterValue
  {
    update := None;
    if |filterValue| > 0 && filterValue[0] == AllMarker {
      var colIndex := FindColumn(sheet.columns, filterName);
      if colIndex != -1 && |sheet.data| > 0 {
        var uniqueValues := CollectUniqueValues(sheet.data, colIndex);
        if |uniqueValues| == 1 {
          update := Some(uniqueValues);
        } else if |uniqueValues| > 1 && |uniqueValues| < DistinctLimit {
          update := Some(uniqueValues);
        }
      }
    }
  }

  /** Enrichment keeps the key set and its order, and leaves every entry that does not start
      with "(All)" as it was. */
  lemma EnrichKeepsOthers(sheet: Worksheet, filters: Dict<string, seq<string>>)
    requires Rectangular(sheet)
    ensures Keys(EnrichedFilters(sheet, filters)) == Keys(filters)
    ensures forall i :: 0 <= i < |filters| && !SelectsAll(filters[i].1) ==> EnrichedFilters(sheet, filters)[i] == filters[i]
  {
  }

  /** An "(All)" entry with no matching column, or on a sheet with no rows, stays as it was. */
  lemma NoMatchUnchanged(sheet: Worksheet, name: string, value: seq<string>)
    requires Rectangular(sheet)
    requires FindColumn(sheet.columns, name) == -1 || sheet.data == []
    ensures Enriched(sheet, name, value) == value
  {
  }

  /** With a matching column and some rows, an "(All)" entry becomes the distinct values of
      that column among the first 500 rows, in the order they first appear, exactly when there
      are fewer than ten of them; otherwise it stays. */
  lemma AllEntryEnrichment(sheet: Worksheet, name: string, value: seq<string>)
    requires Rectangular(sheet) && SelectsAll(value)
    requires FindColumn(sheet.columns, name) >= 0 && sheet.data != []
    ensures var col := FindColumn(sheet.columns, name);
            var unique := Dedup(ScannedValues(sheet.data, col));
            && 1 <= |unique|
            && (|unique| < DistinctLimit ==> Enriched(sheet, name, value) == unique)
            && (|unique| >= DistinctLimit ==> Enriched(sheet, name, value) == value)
            && (forall x :: x in unique <==>
                  exists i :: 0 <= i < |sheet.data| && i < RowLimit && sheet.data[i][col].formattedValue == x)
  {
    var col := FindColumn(sheet.columns, name);
    var scanned := ScannedValues(sheet.data, col);
    assert scanned[0] in Dedup(scanned);
    forall x ensures x in scanned <==>
                     exists i :: 0 <= i < |sheet.data| && i < RowLimit && sheet.data[i][col].formattedValue == x {
      if x in scanned {
        var i :| 0 <= i < |scanned| && scanned[i] == x;
        assert sheet.data[i][col].formattedValue == x;
      }
    }
  }

  // ---------------------------------------------------------------------------------------
  // handleProcess

  /** The whitespace and line terminators JavaScript's `trim` removes. */
  predicate JsWhitespace(c: char) {
    || c == ' ' || c == '\t' || c == '\n' || c == '\r' || c == '\U{000B}' || c == '\U{000C}'
    || c == '\U{00A0}' || c == '\U{1680}' || ('\U{2000}' <= c <= '\U{200A}')
    || c == '\U{2028}' || c == '\U{2029}' || c == '\U{202F}' || c == '\U{205F}'
    || c == '\U{3000}' || c == '\U{FEFF}'
  }

  /** `!s.trim()`: the text is empty once surrounding whitespace is removed. */
  predicate Blank(s: string) {
    forall i :: 0 <= i < |s| ==> JsWhitespace(s[i])
  }

  /** `s.trimStart()`. */
  function TrimStart(s: string): (r: string)
    ensures r == [] || !JsWhitespace(r[0])
    ensures r == [] <==> Blank(s)
  {
    if s == [] || !JsWhitespace(s[0]) then s
    else
      assert forall i :: 1 <= i < |s| ==> s[i] == s[1..][i - 1];
      TrimStart(s[1..])
  }

  /** `s.trimEnd()`. */
  function TrimEnd(s: string): (r: string)
    ensures r == [] || !JsWhitespace(r[|r| - 1])
    ensures r == [] <==> Blank(s)
  {
    if s == [] || !JsWhitespace(s[|s| - 1]) then s
    else
      assert forall i :: 0 <= i < |s| - 1 ==> s[i] == s[..|s| - 1][i];
      TrimEnd(s[..|s| - 1])
  }

  /** `s.trim()`. */
  function Trim(s: string): string {
    TrimEnd(TrimStart(s))
  }

  /** The test `!userQuestion.trim()` is `Blank`: the trimmed text is empty exactly when every
      character is whitespace. */
  lemma BlankIffTrimmedEmpty(s: string)
    ensures Blank(s) <==> Trim(s) == ""
  {
  }

  /** The `request_meta` the extension sends. */
  datatype ExtensionMeta = ExtensionMeta(modeType: string, question: string)

  /** The JSON body `handleProcess` posts; `userQuestion` is `None` when the key is absent. */
  datatype ExtensionPayload = ExtensionPayload(
    requestMeta: ExtensionMeta,
    period: Period,
    filters: Dict<string, seq<string>>,
    modeType: string,
    userQuestion: Option<string>)

  /** The server-side mode name for an extension mode. */
  function ServerMode(modeType: string): (m: string)
    ensures modeType == AnalyzeMode <==> m == "Analyze Report"
    ensures modeType != AnalyzeMode <==> m == AssistantMode
  {
    if modeType == AnalyzeMode then "Analyze Report" else AssistantMode
  }

  /** The filters `handleProcess` collects from the dashboard: the raw map, then enriched. */
  function DashboardFilters(sheets: seq<Worksheet>): Result<Dict<string, seq<string>>, ExtensionError>
    requires FindSheet(sheets).Some? ==> Rectangular(FindSheet(sheets).value)
  {
    var sheet := FindSheet(sheets);
    if sheet.None? then Failure(SheetNotFound(MainSheetName))
    else
      RawKeys(sheet.value.filters);
      Success(EnrichedFilters(sheet.value, RawFilters(sheet.value.filters)))
  }

  /** `handleProcess` up to the POST (app.js:54-123): in chat mode a blank question is
      rejected before anything is read from the dashboard; the period is left open for the
      server to fill. */
  method HandleProcess(modeType: string, chatInput: string, sheets: seq<Worksheet>)
    returns (r: Result<ExtensionPayload, ExtensionError>)
    requires FindSheet(sheets).Some? ==> Rectangular(FindSheet(sheets).value)
    ensures modeType == ChatMode && Blank(chatInput) ==> r == Failure(BlankQuestion)
    ensures !(modeType == ChatMode && Blank(chatInput)) && DashboardFilters(sheets).Failure? ==>
              r == Failure(DashboardFilters(sheets).error)
    ensures r.Success? ==>
              && DashboardFilters(sheets).Success?
              && r.value.filters == DashboardFilters(sheets).value
              && r.value.modeType == ServerMode(modeType)
              && r.value.requestMeta == ExtensionMeta(ServerMode(modeType), if modeType == ChatMode then chatInput else "")
              && r.value.period == Period(None, None)
              && (r.value.userQuestion.Some? <==> modeType == ChatMode)
              && (r.value.userQuestion.Some? ==> r.value.userQuestion.value == chatInput && !Blank(chatInput))
    ensures r.Failure? ==> (modeType == ChatMode && Blank(chatInput)) || DashboardFilters(sheets).Failure?
  {
    var isChatMode := modeType == ChatMode;
    var userQuestion := if isChatMode then chatInput else "";
    if isChatMode && Blank(userQuestion) {
      return Failure(BlankQuestion);
    }
    var rawFilters := GetRawFilters(sheets);
    if rawFilters.Failure? {
      return Failure(rawFilters.error);
    }
    RawKeys(FindSheet(sheets).value.filters);
    var finalFilters := EnrichFiltersWithData(sheets, rawFilters.value);
    var mode := if modeType == AnalyzeMode then "Analyze Report" else AssistantMode;
    var payload := ExtensionPayload(ExtensionMeta(mode, if isChatMode then userQuestion else ""),
                                    Period(None, None), finalFilters.value, mode, None);
    if isChatMode && userQuestion != "" {
      payload := payload.(userQuestion := Some(userQuestion));
    }
    return Success(payload);
  }

  /** The server's view of the extension's body: the lists become list filter values, and
      the extension's extra `question` field is not part of the server's `request_meta`. */
  function AsRequest(p: ExtensionPayload): Request {
    Request(Some(RequestMeta(Some(p.requestMeta.modeType))), Some(p.period),
            AsFilterValues(p.filters), Some(p.modeType), p.userQuestion)
  }

  /** The extension's chat button reaches the server's assistant endpoint and its analyze
      button the analysis endpoint. */
  lemma ModeSelectsEndpoint(modeType: string, p: ExtensionPayload, c: Config)
    requires p.modeType == ServerMode(modeType)
    ensures modeType == AnalyzeMode ==> SelectEndpoint(AsRequest(p), c) == AnalysisEndpoint(c)
    ensures modeType != AnalyzeMode ==> SelectEndpoint(AsRequest(p), c) == AssistantEndpoint(c)
  {
    assert AssistantMode != "";
  }
}
