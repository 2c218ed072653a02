/** The three lookup tables of the query server (server.py:51-97): dashboard filter name to
    database column, dashboard filter name to payload key, and database metric name to output
    field. */
module Mappings {
  import opened Wrappers

  const ProjectIdentifierLabel: string := "Project Identifier"
  const ProjectNameLabel: string := "project_name (Custom SQL Query)"

  /** Dashboard name -> column of the fact view, used for the WHERE clause. */
  const FilterColumnMapping: map<string, string> := map[
    "Project Identifier" := "project_identifier",
    "Redmine Infra" := "redmine_infra",
    "Redmine Server" := "redmine_server",
    "Redmine Instance" := "redmine_instance",
    "Filter 1 (Vw Bug Report By Testplan)" := "filter_1",
    "Filter 2 (Vw Bug Report By Testplan)" := "filter_2",
    "Filter 3 (Vw Bug Report By Testplan)" := "filter_3",
    "Filter 4 (Vw Bug Report By Testplan)" := "filter_4",
    "Filter 5 (Vw Bug Report By Testplan)" := "filter_5"
  ]

  /** Dashboard name -> key of the outbound payload's filter object. */
  const FilterDisplayNameMapping: map<string, string> := map[
    "Project Identifier" := "project_identifier",
    "Redmine Infra" := "redmine_infra",
    "Redmine Server" := "redmine_server",
    "Redmine Instance" := "redmine_instance",
    "project_name (Custom SQL Query)" := "project_name",
    "Filter 1 (Vw Bug Report By Testplan)" := "filter_1",
    "Filter 2 (Vw Bug Report By Testplan)" := "filter_2",
    "Filter 3 (Vw Bug Report By Testplan)" := "filter_3",
    "Filter 4 (Vw Bug Report By Testplan)" := "filter_4",
    "Filter 5 (Vw Bug Report By Testplan)" := "filter_5"
  ]

  /** Metric name in the fact view -> field name of a metrics record. Its keys are the metric
      whitelist. */
  const MetricValueMapping: map<string, string> := map[
    "TestCaseExpected" := "TestCaseExpected",
    "TestCaseExpectedTotal" := "TestCaseExpectedTotal",
    "TestCaseActual" := "TestCaseActual",
    "TestCaseActualTotal" := "TestCaseActualTotal",
    "BReportExpected" := "BReportExpected",
    "BReportExpectedTotal" := "BReportExpectedTotal",
    "BReportActual" := "BReportActual",
    "BReportActualTotal" := "BReportActualTotal",
    "BReportFixed" := "BReportFixed",
    "BReportFixedTotal" := "BReportFixedTotal",
    "BReportOutstanding" := "BReportOutstanding",
    "BReportUpperBound" := "BReportUpperBound",
    "BReportLowerBound" := "BReportLowerBound"
  ]

  /** `FILTER_COLUMN_MAPPING.get(name)`: the column a label filters, or none (the filter is
      then skipped). */
  function ColumnFor(name: string): (r: Option<string>)
    ensures r.Some? <==> name in FilterColumnMapping
    ensures r.Some? ==> r.value != "" && '?' !in r.value
  {
    if name in FilterColumnMapping then Some(FilterColumnMapping[name]) else None
  }

  /** `FILTER_DISPLAY_NAME_MAPPING.get(name, name)`: unknown labels pass through unchanged. */
  function DisplayNameFor(name: string): (r: string)
    ensures name !in FilterDisplayNameMapping ==> r == name
    ensures name in FilterColumnMapping ==> r == FilterColumnMapping[name]
  {
    if name in FilterDisplayNameMapping then FilterDisplayNameMapping[name] else name
  }

  /** The column table is the payload-key table minus the one derived attribute, project name,
      which has no column of its own. */
  lemma ColumnMappingIsSubMap()
    ensures forall l :: l in FilterColumnMapping ==>
              l in FilterDisplayNameMapping && FilterDisplayNameMapping[l] == FilterColumnMapping[l]
    ensures FilterDisplayNameMapping.Keys == FilterColumnMapping.Keys + {ProjectNameLabel}
    ensures ProjectNameLabel !in FilterColumnMapping
    ensures FilterDisplayNameMapping[ProjectNameLabel] == "project_name"
  {
  }

  /** The metric table renames nothing: every whitelisted metric keeps its name. */
  lemma MetricMappingIsIdentity()
    ensures forall m :: m in MetricValueMapping ==> MetricValueMapping[m] == m
  {
  }
}
