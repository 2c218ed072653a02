/** The outbound payload of the query server (server.py:341-425): the request's filters are
    renamed to their short payload keys, then normalised to the backend's shape (every value a
    clean list, the five required keys always present), and wrapped with the request metadata,
    the effective period and the metrics records. */
module Payload {
  import opened Wrappers
  import opened Dicts
  import opened Mappings
  import opened FilterValues
  import opened Pivot

  /** `RequestMetaModel` (server.py:107-108). */
  datatype RequestMeta = RequestMeta(modeType: Option<string>)

  /** `PeriodModel` (server.py:103-105), also the shape of the payload's `period`. */
  datatype Period = Period(startDate: Option<string>, endDate: Option<string>)

  /** `RequestPayload` (server.py:110-115): the body of a request from the extension, after
      its field defaults are applied. */
  datatype Request = Request(
    requestMeta: Option<RequestMeta>,
    period: Option<Period>,
    filters: Dict<string, FilterValue>,
    modeType: Option<string>,
    userQuestion: Option<string>)

  /** The payload's `request_meta`. */
  datatype PayloadMeta = PayloadMeta(requestId: string, timestamp: string, modeType: Option<string>)

  /** The JSON body sent to the backend; `userQuestion` is `None` when the key is absent. */
  datatype BackendPayload = BackendPayload(
    requestMeta: PayloadMeta,
    period: Period,
    filters: Dict<string, seq<string>>,
    metricsData: seq<MetricsRecord>,
    userQuestion: Option<string>)

  /** The filter keys the backend's schema requires (analysis.py:17-22). */
  const RequiredKeys: seq<string> :=
    ["redmine_infra", "redmine_server", "redmine_instance", "project_identifier", "project_name"]

  /** Each filter under its short payload key, in the filters' order. */
  function RenamedPairs(filters: Dict<string, FilterValue>): (ps: seq<(string, FilterValue)>)
    ensures |ps| == |filters|
    ensures forall i :: 0 <= i < |ps| ==> ps[i] == (DisplayNameFor(filters[i].0), filters[i].1)
  {
    seq(|filters|, i requires 0 <= i < |filters| => (DisplayNameFor(filters[i].0), filters[i].1))
  }

  /** The dictionary `normalize_filter_names` fills. */
  function RenamedFilters(filters: Dict<string, FilterValue>): Dict<string, FilterValue> {
    FromPairs(RenamedPairs(filters))
  }

  lemma RenamedStep(filters: Dict<string, FilterValue>, i: int)
    requires 0 <= i < |filters|
    ensures FromPairs(RenamedPairs(filters[..i + 1]))
         == Put(FromPairs(RenamedPairs(filters[..i])), DisplayNameFor(filters[i].0), filters[i].1)
  {
    assert RenamedPairs(filters[..i + 1]) == RenamedPairs(filters[..i]) + [(DisplayNameFor(filters[i].0), filters[i].1)];
    FromPairsSnoc(RenamedPairs(filters[..i]), (DisplayNameFor(filters[i].0), filters[i].1));
  }

  /** `normalize_filter_names`: assigns each value under `FILTER_DISPLAY_NAME_MAPPING.get(k, k)`
      into a fresh dictionary, in the filters' order. */
  method NormalizeFilterNames(filters: Dict<string, FilterValue>) returns (normalized: Dict<string, FilterValue>)
    ensures normalized == RenamedFilters(filters)
  {
    normalized := [];
    for i := 0 to |filters|
      invariant normalized == FromPairs(RenamedPairs(filters[..i]))
    {
      var (name, value) := filters[i];
      var shortName := DisplayNameFor(name);
      RenamedStep(filters, i);
      normalized := Put(normalized, shortName, value);
    }
    assert filters[..|filters|] == filters;
  }

  /** The list a filter value becomes for the backend: `None` and any other non-list,
      non-string value become `[]`, a list is cleaned, a string becomes `[s]` unless it is
      empty or the marker. */
  function BackendValue(v: FilterValue): (r: seq<string>)
    ensures forall x :: x in r ==> Kept(x)
  {
    match v
    case Null => []
    case List(vs) => Clean(vs)
    case Str(s) => if s != "" && s != AllMarker then [s] else []
    case Other(_) => []
  }

  function BackendPairs(filters: Dict<string, FilterValue>): (ps: Dict<string, seq<string>>)
    ensures |ps| == |filters|
    ensures forall i :: 0 <= i < |ps| ==> ps[i] == (filters[i].0, BackendValue(filters[i].1))
  {
    seq(|filters|, i requires 0 <= i < |filters| => (filters[i].0, BackendValue(filters[i].1)))
  }

  /** The dictionary `normalize_filters_for_backend` returns. */
  function BackendFilters(filters: Dict<string, FilterValue>): Dict<string, seq<string>> {
    SetDefaults(FromPairs(BackendPairs(filters)), RequiredKeys, [])
  }

  lemma BackendStep(filters: Dict<string, FilterValue>, i: int)
    requires 0 <= i < |filters|
    ensures FromPairs(BackendPairs(filters[..i + 1]))
         == Put(FromPairs(BackendPairs(filters[..i])), filters[i].0, BackendValue(filters[i].1))
  {
    assert BackendPairs(filters[..i + 1]) == BackendPairs(filters[..i]) + [(filters[i].0, BackendValue(filters[i].1))];
    FromPairsSnoc(BackendPairs(filters[..i]), (filters[i].0, BackendValue(filters[i].1)));
  }

  /** The first loop of `normalize_filters_for_backend`: every entry's value made a clean
      list, in the filters' order. */
  method ConvertValues(filters: Dict<string, FilterValue>) returns (normalized: Dict<string, seq<string>>)
    ensures normalized == FromPairs(BackendPairs(filters))
  {
    normalized := [];
    for i := 0 to |filters|
      invariant normalized == FromPairs(BackendPairs(filters[..i]))
    {
      var (key, value) := filters[i];
      BackendStep(filters, i);
      var listValue: seq<string>;
      if value.Null? {
        listValue := [];
      } else {
        match value {
          case List(vs) =>
            listValue := Clean(vs);
          case Str(s) =>
            listValue := if s != "" && s != AllMarker then [s] else [];
          case _ =>
            listValue := [];
        }
      }
      assert listValue == BackendValue(value);
      normalized := Put(normalized, key, listValue);
    }
    assert filters[..|filters|] == filters;
  }

  /** The second loop of `normalize_filters_for_backend`: each of `keys` set to `[]` unless
      already present. */
  method DefaultMissing(converted: Dict<string, seq<string>>, keys: seq<string>)
    returns (normalized: Dict<string, seq<string>>)
    ensures normalized == SetDefaults(converted, keys, [])
  {
    normalized := converted;
    assert keys[..0] == [];
    for j := 0 to |keys|
      invariant normalized == SetDefaults(converted, keys[..j], [])
    {
      SetDefaultsStep(converted, keys, j, []);
      normalized := SetDefault(normalized, keys[j], []);
    }
    assert keys[..|keys|] == keys;
  }

  /** `normalize_filters_for_backend`: the converted entries, then each required key set to
      `[]` unless present. */
  method NormalizeFiltersForBackend(filters: Dict<string, FilterValue>) returns (normalized: Dict<string, seq<string>>)
    ensures normalized == BackendFilters(filters)
  {
    var converted := ConvertValues(filters);
    normalized := DefaultMissing(converted, RequiredKeys);
  }

  /** `build_backend_payload`: the request id and timestamp are the caller's (they come from
      `uuid4` and the clock); `user_question` is added only when it is truthy. */
  method BuildBackendPayload(request: Request, metricsData: seq<MetricsRecord>, actualPeriod: Period,
                             requestId: string, timestamp: string)
    returns (payload: BackendPayload)
    ensures payload.requestMeta == PayloadMeta(requestId, timestamp, request.modeType)
    ensures payload.period == actualPeriod && payload.metricsData == metricsData
    ensures payload.filters == BackendFilters(RenamedFilters(request.filters))
    ensures payload.userQuestion.Some? <==> TruthyText(request.userQuestion)
    ensures payload.userQuestion.Some? ==> payload.userQuestion == request.userQuestion
  {
    var renamed := NormalizeFilterNames(request.filters);
    var normalized := NormalizeFiltersForBackend(renamed);
    payload := BackendPayload(PayloadMeta(requestId, timestamp, request.modeType), actualPeriod,
                              normalized, metricsData, None);
    if TruthyText(request.userQuestion) {
      payload := payload.(userQuestion := request.userQuestion);
    }
  }

  /** Renaming keeps one entry per short key, and the short keys are exactly those of the
      filters' labels. */
  lemma RenamedKeys(filters: Dict<string, FilterValue>)
    ensures DistinctKeys(RenamedFilters(filters))
    ensures forall k :: k in Keys(RenamedFilters(filters)) <==>
              exists i :: 0 <= i < |filters| && DisplayNameFor(filters[i].0) == k
  {
    var ps := RenamedPairs(filters);
    forall k ensures k in Keys(FromPairs(ps)) <==>
                     exists i :: 0 <= i < |filters| && DisplayNameFor(filters[i].0) == k {
      FromPairsHasKey(ps, k);
      if exists i :: 0 <= i < |filters| && DisplayNameFor(filters[i].0) == k {
        var i :| 0 <= i < |filters| && DisplayNameFor(filters[i].0) == k;
        assert ps[i].0 == k;
      }
    }
  }

  lemma RenamingLastWins(filters: Dict<string, FilterValue>, i: int)
    requires 0 <= i < |filters|
    requires forall j :: i < j < |filters| ==> DisplayNameFor(filters[j].0) != DisplayNameFor(filters[i].0)
    ensures Get(RenamedFilters(filters), DisplayNameFor(filters[i].0)) == Some(filters[i].1)
    ensures filters[i].0 !in FilterDisplayNameMapping ==> Get(RenamedFilters(filters), filters[i].0) == Some(filters[i].1)
  {
    LastValueIsLast(RenamedPairs(filters), DisplayNameFor(filters[i].0), i);
  }

  lemma BackendPairKeys(filters: Dict<string, FilterValue>)
    ensures Keys(BackendPairs(filters)) == Keys(filters)
  {
  }

  /** The backend keys are the input keys, nothing dropped, plus the five required ones. */
  lemma BackendKeys(filters: Dict<string, FilterValue>)
    ensures DistinctKeys(BackendFilters(filters))
    ensures forall k :: k in Keys(BackendFilters(filters)) <==> k in Keys(filters) || k in RequiredKeys
  {
    BackendPairKeys(filters);
  }

  /** Every backend value is a list with neither `""` nor the marker. */
  lemma BackendValuesClean(filters: Dict<string, FilterValue>, k: string)
    requires Get(BackendFilters(filters), k).Some?
    ensures forall x :: x in Get(BackendFilters(filters), k).value ==> Kept(x)
  {
    var d := FromPairs(BackendPairs(filters));
    if k in Keys(d) {
      LastValueIn(BackendPairs(filters), k);
      var i :| 0 <= i < |BackendPairs(filters)| && BackendPairs(filters)[i] == (k, Get(d, k).value);
    }
  }

  /** An input key keeps its own normalised value: a required key already present is not
      overwritten with `[]`. */
  lemma ExistingKeyKept(filters: Dict<string, FilterValue>, i: int)
    requires DistinctKeys(filters) && 0 <= i < |filters|
    ensures Get(BackendFilters(filters), filters[i].0) == Some(BackendValue(filters[i].1))
  {
    var ps := BackendPairs(filters);
    BackendPairKeys(filters);
    assert Keys(filters)[i] == filters[i].0;
    forall j | i < j < |ps| ensures ps[j].0 != filters[i].0 {
      assert Keys(filters)[j] != Keys(filters)[i];
    }
    LastValueIsLast(ps, filters[i].0, i);
  }

  /** A required key the input lacks is set to `[]`. */
  lemma MissingRequiredKeyEmpty(filters: Dict<string, FilterValue>, k: string)
    requires k in RequiredKeys && k !in Keys(filters)
    ensures Get(BackendFilters(filters), k) == Some([])
  {
    BackendPairKeys(filters);
  }

  /** The backend dictionary read back as a request's filters (every value a list). */
  function AsFilterValues(d: Dict<string, seq<string>>): (r: Dict<string, FilterValue>)
    ensures Keys(r) == Keys(d)
  {
    seq(|d|, i requires 0 <= i < |d| => (d[i].0, List(d[i].1)))
  }

  /** Normalising for the backend twice is normalising once. */
  lemma BackendIdempotent(filters: Dict<string, FilterValue>)
    ensures BackendFilters(AsFilterValues(BackendFilters(filters))) == BackendFilters(filters)
  {
    var r := BackendFilters(filters);
    BackendKeys(filters);
    var lifted := AsFilterValues(r);
    forall i | 0 <= i < |r| ensures BackendValue(lifted[i].1) == r[i].1 {
      GetEntry(r, i);
      BackendValuesClean(filters, r[i].0);
      CleanKeepsCleanList(r[i].1);
    }
    assert BackendPairs(lifted) == r;
    FromPairsOfDict(r);
    assert forall k :: k in RequiredKeys ==> k in Keys(r);
  }
}
