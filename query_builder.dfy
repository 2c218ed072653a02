/** The fixed text of the query over the metrics view (server.py:47-48, 171-179). */
module SqlText {
  const DbSchemaName: string := "bug-management_dm_test"
  const DbViewName: string := "vw_bug_report_by_testplan"

  /** `n` spaces of indentation. */
  function Spaces(n: nat): (r: string)
    ensures |r| == n
    ensures forall i :: 0 <= i < n ==> r[i] == ' '
  {
    seq(n, _ => ' ')
  }

  /** The fixed projection over the view with its base predicate `date IS NOT NULL`, line by
      line, as the triple-quoted template spells it (indentation included). */
  const SelectLines: string := "\n" + Spaces(8) + "SELECT \n" + Spaces(12) + "date, \n"
  const ColumnLines: string :=
    Spaces(12) + "Metric_Name, \n" + Spaces(12) + "Metric_Value \n"
  const FromLine: string := Spaces(8) + "FROM [" + DbSchemaName + "].[" + DbViewName + "]\n"
  const WhereLines: string :=
    Spaces(8) + "WHERE 1=1\n" + Spaces(12) + "AND date IS NOT NULL\n" + Spaces(4)
  const BaseSql: string := SelectLines + ColumnLines + FromLine + WhereLines

  lemma SelectLinesHaveNoPlaceholder() ensures '?' !in SelectLines {
    assert '?' !in "SELECT \n";
    assert '?' !in "date, \n";
  }

  lemma ColumnLinesHaveNoPlaceholder() ensures '?' !in ColumnLines {
    assert '?' !in "Metric_Name, \n";
    assert '?' !in "Metric_Value \n";
  }

  lemma FromLineHasNoPlaceholder() ensures '?' !in FromLine {
    assert '?' !in "FROM [";
    assert '?' !in DbSchemaName;
    assert '?' !in DbViewName;
    assert '?' !in "].[" && '?' !in "]\n";
  }

  /** The pieces of the date-range predicate ` AND date BETWEEN ? AND ?` around its two
      placeholders. */
  const BetweenOpening: string := " AND date BETWEEN "
  const AndKeyword: string := " AND "

  lemma BetweenTextHasNoPlaceholder() ensures '?' !in BetweenOpening && '?' !in AndKeyword {
    assert '?' !in " AND date ";
    assert '?' !in "BETWEEN ";
  }

  lemma WhereLinesHaveNoPlaceholder() ensures '?' !in WhereLines {
    assert '?' !in "WHERE 1=1\n";
    assert '?' !in "AND date IS NOT NULL\n";
  }
}

/** `build_query` (server.py:158-226): the parameterised read over the metrics view, built from
    the request's filters (in their insertion order) and an optional period. */
module QueryBuilder {
  import opened Wrappers
  import opened Strings
  import opened Mappings
  import opened FilterValues
  import opened SqlText

  /** One predicate of the WHERE clause. */
  datatype Predicate =
    | DateNotNull                               // the base predicate, always first
    | DateBetween                               // `AND date BETWEEN ? AND ?`
    | ColumnIn(column: string, arity: nat)      // `AND [column] IN (?, ..., ?)`
    | ColumnEquals(column: string)              // `AND [column] = ?`

  /** A predicate with the parameters it binds, in placeholder order. */
  datatype Clause = Clause(pred: Predicate, args: seq<string>)

  /** `', '.join(['?' for _ in range(n)])`. */
  function Placeholders(n: nat): (r: string)
    ensures Count('?', r) == n
  {
    if n == 0 then ""
    else if n == 1 then "?"
    else
      CountAppend('?', Placeholders(n - 1), ", ?");
      Placeholders(n - 1) + ", ?"
  }

  /** The text each predicate appends to the query. */
  function PredicateSql(p: Predicate): string {
    match p
    case DateNotNull => BaseSql
    case DateBetween => BetweenOpening + "?" + AndKeyword + "?"
    case ColumnIn(c, n) => " AND [" + c + "] IN (" + Placeholders(n) + ")"
    case ColumnEquals(c) => " AND [" + c + "] = " + "?"
  }

  /** The date-range clause: present only when both bounds are truthy. */
  function PeriodClauses(start: Option<string>, end: Option<string>): seq<Clause> {
    if TruthyText(start) && TruthyText(end) then [Clause(DateBetween, [start.value, end.value])]
    else []
  }

  /** What one `(label, value)` filter contributes, if anything. */
  function FilterClause(name: string, value: FilterValue): (r: Option<Clause>)
    ensures r.Some? ==> ColumnFor(name).Some?
    ensures r.Some? ==> r.value.args != [] && forall x :: x in r.value.args ==> Kept(x)
  {
    match ColumnFor(name)
    case None => None
    case Some(column) =>
      if !Truthy(value) || value == Str(AllMarker) || value == List([AllMarker]) || value == List([])
      then None
      else
        match value
        case List(vs) =>
          var clean := Clean(vs);
          if clean != [] then Some(Clause(ColumnIn(column, |clean|), clean)) else None
        case Str(s) => Some(Clause(ColumnEquals(column), [s]))
        case _ => None
  }

  function Contribution(f: (string, FilterValue)): seq<Clause> {
    match FilterClause(f.0, f.1)
    case None => []
    case Some(c) => [c]
  }

  /** The clauses of the filters, in the filters' order. */
  function FilterClauses(filters: seq<(string, FilterValue)>): seq<Clause> {
    if filters == [] then []
    else FilterClauses(filters[..|filters| - 1]) + Contribution(filters[|filters| - 1])
  }

  /** Every clause of the query, in the order its text is appended. */
  function QueryClauses(filters: seq<(string, FilterValue)>, start: Option<string>, end: Option<string>): seq<Clause> {
    [Clause(DateNotNull, [])] + PeriodClauses(start, end) + FilterClauses(filters)
  }

  /** The query text of a clause sequence. */
  function Sql(cs: seq<Clause>): string {
    if cs == [] then "" else Sql(cs[..|cs| - 1]) + PredicateSql(cs[|cs| - 1].pred)
  }

  /** The positional parameters of a clause sequence. */
  function Params(cs: seq<Clause>): seq<string> {
    if cs == [] then [] else Params(cs[..|cs| - 1]) + cs[|cs| - 1].args
  }

  lemma SqlSnoc(cs: seq<Clause>, c: Clause)
    ensures Sql(cs + [c]) == Sql(cs) + PredicateSql(c.pred)
  {
    assert (cs + [c])[..|cs|] == cs;
  }

  lemma ParamsSnoc(cs: seq<Clause>, c: Clause)
    ensures Params(cs + [c]) == Params(cs) + c.args
  {
    assert (cs + [c])[..|cs|] == cs;
  }

  lemma {:induction false} ParamsAppend(a: seq<Clause>, b: seq<Clause>)
    ensures Params(a + b) == Params(a) + Params(b)
    decreases |b|
  {
    if b == [] {
      assert a + b == a;
    } else {
      var b', x := b[..|b| - 1], b[|b| - 1];
      assert a + b == (a + b') + [x];
      assert b == b' + [x];
      ParamsSnoc(a + b', x);
      ParamsSnoc(b', x);
      ParamsAppend(a, b');
    }
  }

  lemma {:induction false} FilterClausesAppend(a: seq<(string, FilterValue)>, b: seq<(string, FilterValue)>)
    ensures FilterClauses(a + b) == FilterClauses(a) + FilterClauses(b)
    decreases |b|
  {
    if b == [] {
      assert a + b == a;
    } else {
      var b', x := b[..|b| - 1], b[|b| - 1];
      assert (a + b)[..|a + b| - 1] == a + b' && (a + b)[|a + b| - 1] == x;
      assert FilterClauses(a + b) == FilterClauses(a + b') + Contribution(x);
      assert FilterClauses(b) == FilterClauses(b') + Contribution(x);
      FilterClausesAppend(a, b');
    }
  }

  lemma EmptyConcat(s: string)
    ensures "" + s == s
  {
  }

  lemma BaseClauseText()
    ensures Sql([Clause(DateNotNull, [])]) == BaseSql
    ensures Params([Clause(DateNotNull, [])]) == []
  {
    assert [Clause(DateNotNull, [])][..0] == [];
    EmptyConcat(BaseSql);
  }

  lemma NoFiltersYet(head: seq<Clause>, filters: seq<(string, FilterValue)>)
    ensures head + FilterClauses(filters[..0]) == head
  {
    assert filters[..0] == [];
  }

  lemma FilterClausesStep(head: seq<Clause>, filters: seq<(string, FilterValue)>, i: nat)
    requires i < |filters|
    ensures head + FilterClauses(filters[..i + 1]) == head + FilterClauses(filters[..i]) + Contribution(filters[i])
  {
    assert filters[..i + 1][..i] == filters[..i];
  }

  /** One pass of the filter loop of `build_query`: a filter without a column, with a falsy or
      all-values value, or with a list that cleans to nothing is skipped; a list becomes an
      `IN` over its clean values, a string an equality. */
  method AppendFilter(ghost before: seq<Clause>, sql: string, params: seq<string>, name: string, value: FilterValue)
    returns (sql': string, params': seq<string>)
    requires sql == Sql(before) && params == Params(before)
    ensures sql' == Sql(before + Contribution((name, value)))
    ensures params' == Params(before + Contribution((name, value)))
  {
    sql', params' := sql, params;
    assert before + [] == before;
    var column := ColumnFor(name);
    if column.None? {
      return;
    }
    if !Truthy(value) || value == Str(AllMarker) || value == List([AllMarker]) || value == List([]) {
      return;
    }
    match value {
      case List(vs) =>
        var clean := Clean(vs);
        if clean != [] {
          sql' := sql' + PredicateSql(ColumnIn(column.value, |clean|));
          params' := params' + clean;
          SqlSnoc(before, Clause(ColumnIn(column.value, |clean|), clean));
          ParamsSnoc(before, Clause(ColumnIn(column.value, |clean|), clean));
        }
      case Str(s) =>
        sql' := sql' + PredicateSql(ColumnEquals(column.value));
        params' := params' + [s];
        SqlSnoc(before, Clause(ColumnEquals(column.value), [s]));
        ParamsSnoc(before, Clause(ColumnEquals(column.value), [s]));
      case _ =>
    }
  }

  /** `build_query`: starts from the base text, adds the date range when both bounds are
      truthy, then for each filter in order appends its predicate and parameters. */
  method BuildQuery(filters: seq<(string, FilterValue)>, periodStart: Option<string>, periodEnd: Option<string>)
    returns (sql: string, params: seq<string>)
    ensures sql == Sql(QueryClauses(filters, periodStart, periodEnd))
    ensures params == Params(QueryClauses(filters, periodStart, periodEnd))
    ensures Count('?', sql) == |params|
  {
    sql := BaseSql;
    params := [];
    ghost var head := [Clause(DateNotNull, [])];
    BaseClauseText();
    if TruthyText(periodStart) && TruthyText(periodEnd) {
      var between := Clause(DateBetween, [periodStart.value, periodEnd.value]);
      sql := sql + PredicateSql(DateBetween);
      params := params + [periodStart.value, periodEnd.value];
      SqlSnoc(head, between);
      ParamsSnoc(head, between);
      head := head + [between];
    }
    assert head == [Clause(DateNotNull, [])] + PeriodClauses(periodStart, periodEnd);
    NoFiltersYet(head, filters);
    for i := 0 to |filters|
      invariant sql == Sql(head + FilterClauses(filters[..i]))
      invariant params == Params(head + FilterClauses(filters[..i]))
    {
      FilterClausesStep(head, filters, i);
      sql, params := AppendFilter(head + FilterClauses(filters[..i]), sql, params, filters[i].0, filters[i].1);
    }
    assert filters[..|filters|] == filters;
    PlaceholdersMatchParams(filters, periodStart, periodEnd);
  }

  /** A clause binds exactly as many parameters as its text has placeholders. */
  predicate WellFormed(c: Clause) {
    Count('?', PredicateSql(c.pred)) == |c.args|
  }

  lemma {:induction false} CountOfClauses(cs: seq<Clause>)
    requires forall i :: 0 <= i < |cs| ==> WellFormed(cs[i])
    ensures Count('?', Sql(cs)) == |Params(cs)|
  {
    if cs != [] {
      CountOfClauses(cs[..|cs| - 1]);
      CountAppend('?', Sql(cs[..|cs| - 1]), PredicateSql(cs[|cs| - 1].pred));
    }
  }

  lemma BaseSqlHasNoPlaceholder()
    ensures Count('?', BaseSql) == 0
  {
    SelectLinesHaveNoPlaceholder();
    ColumnLinesHaveNoPlaceholder();
    FromLineHasNoPlaceholder();
    WhereLinesHaveNoPlaceholder();
    CountAbsent('?', BaseSql);
  }

  lemma BetweenHasTwoPlaceholders()
    ensures Count('?', PredicateSql(DateBetween)) == 2
  {
    BetweenTextHasNoPlaceholder();
    CountAbsent('?', BetweenOpening);
    CountAbsent('?', AndKeyword);
    CountAppend('?', BetweenOpening, "?");
    CountAppend('?', BetweenOpening + "?", AndKeyword);
    CountAppend('?', BetweenOpening + "?" + AndKeyword, "?");
  }

  lemma BaseAndPeriodWellFormed(start: Option<string>, end: Option<string>)
    ensures WellFormed(Clause(DateNotNull, []))
    ensures forall c :: c in PeriodClauses(start, end) ==> WellFormed(c)
  {
    BaseSqlHasNoPlaceholder();
    if TruthyText(start) && TruthyText(end) {
      BetweenHasTwoPlaceholders();
      assert WellFormed(Clause(DateBetween, [start.value, end.value]));
    } else {
      assert PeriodClauses(start, end) == [];
    }
  }

  lemma ColumnInWellFormed(column: string, n: nat)
    requires '?' !in column
    ensures Count('?', PredicateSql(ColumnIn(column, n))) == n
  {
    var opening := " AND [" + column;
    CountAbsent('?', opening);
    CountAbsent('?', "] IN (");
    CountAbsent('?', ")");
    CountAppend('?', opening, "] IN (");
    CountAppend('?', opening + "] IN (", Placeholders(n));
    CountAppend('?', opening + "] IN (" + Placeholders(n), ")");
  }

  lemma ColumnEqualsWellFormed(column: string)
    requires '?' !in column
    ensures Count('?', PredicateSql(ColumnEquals(column))) == 1
  {
    var opening := " AND [" + column;
    CountAbsent('?', opening + "] = ");
    CountAppend('?', opening + "] = ", "?");
  }

  lemma FilterClauseWellFormed(name: string, value: FilterValue)
    ensures forall c :: c in Contribution((name, value)) ==> WellFormed(c)
  {
    match ColumnFor(name)
    case None =>
    case Some(column) =>
      forall n: nat ensures Count('?', PredicateSql(ColumnIn(column, n))) == n {
        ColumnInWellFormed(column, n);
      }
      ColumnEqualsWellFormed(column);
  }

  lemma {:induction false} FilterClausesWellFormed(filters: seq<(string, FilterValue)>)
    ensures forall c :: c in FilterClauses(filters) ==> WellFormed(c)
  {
    if filters != [] {
      FilterClausesWellFormed(filters[..|filters| - 1]);
      var last := filters[|filters| - 1];
      FilterClauseWellFormed(last.0, last.1);
    }
  }

  lemma WellFormedConcat(a: seq<Clause>, b: seq<Clause>)
    requires forall c :: c in a ==> WellFormed(c)
    requires forall c :: c in b ==> WellFormed(c)
    ensures forall i :: 0 <= i < |a + b| ==> WellFormed((a + b)[i])
  {
    forall i | 0 <= i < |a + b| ensures WellFormed((a + b)[i]) {
      if i < |a| {
        assert (a + b)[i] == a[i];
      } else {
        assert (a + b)[i] == b[i - |a|];
      }
    }
  }

  /** The query's `?` placeholders and its parameter list correspond one to one: every
      positional binding has its parameter. */
  lemma PlaceholdersMatchParams(filters: seq<(string, FilterValue)>, start: Option<string>, end: Option<string>)
    ensures Count('?', Sql(QueryClauses(filters, start, end))) == |Params(QueryClauses(filters, start, end))|
  {
    BaseAndPeriodWellFormed(start, end);
    FilterClausesWellFormed(filters);
    var head, tail := [Clause(DateNotNull, [])] + PeriodClauses(start, end), FilterClauses(filters);
    var cs := QueryClauses(filters, start, end);
    assert cs == head + tail;
    assert forall c :: c in head ==> c == Clause(DateNotNull, []) || c in PeriodClauses(start, end);
    WellFormedConcat(head, tail);
    CountOfClauses(cs);
  }

  /** A filter is skipped, contributing no predicate and no parameter, exactly when its label
      has no column, its value is falsy or the bare all-values marker, its list cleans to
      nothing (which covers `["(All)"]`), or it is neither a list nor a string. */
  lemma FilterSkipped(name: string, value: FilterValue)
    ensures Contribution((name, value)) == [] <==>
      ColumnFor(name).None? || !Truthy(value) || value == Str(AllMarker)
      || (value.List? && Clean(value.items) == []) || value.Other?
  {
    if value == List([AllMarker]) {
      assert Clean([AllMarker]) == [];
    }
  }

  /** A mapped filter whose list keeps some values yields one `IN` predicate over exactly the
      kept values, in their original order. */
  lemma ListFilterClause(name: string, values: seq<string>)
    requires ColumnFor(name).Some? && Clean(values) != []
    ensures Contribution((name, List(values)))
         == [Clause(ColumnIn(ColumnFor(name).value, |Clean(values)|), Clean(values))]
    ensures Count('?', PredicateSql(ColumnIn(ColumnFor(name).value, |Clean(values)|))) == |Clean(values)|
  {
    assert Clean([AllMarker]) == [];
    ColumnInWellFormed(ColumnFor(name).value, |Clean(values)|);
  }

  /** A mapped filter with a string other than `""` and the marker yields `[column] = ?` bound
      to that string. */
  lemma StringFilterClause(name: string, s: string)
    requires ColumnFor(name).Some? && s != "" && s != AllMarker
    ensures Contribution((name, Str(s))) == [Clause(ColumnEquals(ColumnFor(name).value), [s])]
    ensures Count('?', PredicateSql(ColumnEquals(ColumnFor(name).value))) == 1
  {
    ColumnEqualsWellFormed(ColumnFor(name).value);
  }

  /** Filter predicates are per-column only: no filter adds a date predicate. */
  lemma {:induction false} FilterClausesAreColumnPredicates(filters: seq<(string, FilterValue)>)
    ensures forall c :: c in FilterClauses(filters) ==> c.pred.ColumnIn? || c.pred.ColumnEquals?
  {
    if filters != [] {
      FilterClausesAreColumnPredicates(filters[..|filters| - 1]);
    }
  }

  /** The base predicate always comes first; a `BETWEEN ? AND ?` predicate is present iff both
      period bounds are truthy, and then it comes second. */
  lemma PeriodIffBothBounds(filters: seq<(string, FilterValue)>, start: Option<string>, end: Option<string>)
    ensures QueryClauses(filters, start, end)[0] == Clause(DateNotNull, [])
    ensures (exists c :: c in QueryClauses(filters, start, end) && c.pred == DateBetween)
        <==> TruthyText(start) && TruthyText(end)
    ensures TruthyText(start) && TruthyText(end) ==>
      QueryClauses(filters, start, end)[1] == Clause(DateBetween, [start.value, end.value])
  {
    var cs := QueryClauses(filters, start, end);
    var head := [Clause(DateNotNull, [])] + PeriodClauses(start, end);
    FilterClausesAreColumnPredicates(filters);
    if TruthyText(start) && TruthyText(end) {
      assert cs[1] in cs;
    } else {
      forall c | c in cs ensures c.pred != DateBetween {
        assert c in head || c in FilterClauses(filters);
      }
    }
  }

  /** The period's parameters are exactly `[start, end]`, in that order and ahead of every
      filter parameter, when both bounds are truthy; otherwise the parameters are the filters'
      alone. */
  lemma PeriodParams(filters: seq<(string, FilterValue)>, start: Option<string>, end: Option<string>)
    ensures TruthyText(start) && TruthyText(end) ==>
      Params(QueryClauses(filters, start, end)) == [start.value, end.value] + Params(FilterClauses(filters))
    ensures !(TruthyText(start) && TruthyText(end)) ==>
      Params(QueryClauses(filters, start, end)) == Params(FilterClauses(filters))
  {
    assert QueryClauses(filters, start, end) == [Clause(DateNotNull, [])] + PeriodClauses(start, end) + FilterClauses(filters);
    HeadParams(start, end, FilterClauses(filters));
  }

  lemma HeadParams(start: Option<string>, end: Option<string>, tail: seq<Clause>)
    ensures TruthyText(start) && TruthyText(end) ==>
      Params([Clause(DateNotNull, [])] + PeriodClauses(start, end) + tail) == [start.value, end.value] + Params(tail)
    ensures !(TruthyText(start) && TruthyText(end)) ==>
      Params([Clause(DateNotNull, [])] + PeriodClauses(start, end) + tail) == Params(tail)
  {
    var head := [Clause(DateNotNull, [])] + PeriodClauses(start, end);
    ParamsAppend(head, tail);
    BaseClauseText();
    if TruthyText(start) && TruthyText(end) {
      ParamsSnoc([Clause(DateNotNull, [])], Clause(DateBetween, [start.value, end.value]));
    }
  }

  /** Parameters follow predicate order: a filter's parameters sit between those of the filters
      before it and those of the filters after it. */
  lemma ParamsFollowFilterOrder(pre: seq<(string, FilterValue)>, name: string, value: FilterValue,
                                post: seq<(string, FilterValue)>)
    ensures Params(FilterClauses(pre + [(name, value)] + post))
         == Params(FilterClauses(pre)) + Params(Contribution((name, value))) + Params(FilterClauses(post))
  {
    FilterClausesAppend(pre + [(name, value)], post);
    FilterClausesAppend(pre, [(name, value)]);
    assert FilterClauses([(name, value)]) == Contribution((name, value)) by {
      assert [(name, value)][..0] == [];
    }
    ParamsAppend(FilterClauses(pre) + Contribution((name, value)), FilterClauses(post));
    ParamsAppend(FilterClauses(pre), Contribution((name, value)));
  }

  /** The filters add nothing to the query exactly when every one of them is skipped. */
  lemma {:induction false} NoFilterPredicates(filters: seq<(string, FilterValue)>)
    ensures FilterClauses(filters) == [] <==> forall i :: 0 <= i < |filters| ==> Contribution(filters[i]) == []
  {
    if filters != [] {
      var init := filters[..|filters| - 1];
      NoFilterPredicates(init);
      assert forall i :: 0 <= i < |init| ==> init[i] == filters[i];
    }
  }

  lemma TwoFilters(f: (string, FilterValue), g: (string, FilterValue))
    ensures FilterClauses([f, g]) == Contribution(f) + Contribution(g)
  {
    assert [f, g][..1] == [f] && [f][..0] == [];
    assert FilterClauses([f]) == [] + Contribution(f);
    assert FilterClauses([f, g]) == FilterClauses([f]) + Contribution(g);
  }

  lemma AllProjectsSkipped()
    ensures Contribution((ProjectIdentifierLabel, List([AllMarker]))) == []
  {
    assert Clean([AllMarker]) == [];
  }

  lemma OneInfraClause()
    ensures Contribution(("Redmine Infra", List(["INFRA1"]))) == [Clause(ColumnIn("redmine_infra", 1), ["INFRA1"])]
  {
    assert ColumnFor("Redmine Infra") == Some("redmine_infra");
    assert Clean(["INFRA1"]) == ["INFRA1"];
  }

  /** Two filters over a full period, the first skipped and the second contributing one
      clause: the base clause, the period clause, then that one clause. */
  lemma SkippedThenOne(skipped: (string, FilterValue), kept: (string, FilterValue), c: Clause,
                       start: string, end: string)
    requires Contribution(skipped) == [] && Contribution(kept) == [c]
    requires start != "" && end != ""
    ensures QueryClauses([skipped, kept], Some(start), Some(end))
         == [Clause(DateNotNull, []), Clause(DateBetween, [start, end]), c]
    ensures Params(QueryClauses([skipped, kept], Some(start), Some(end))) == [start, end] + c.args
  {
    TwoFilters(skipped, kept);
    PeriodParams([skipped, kept], Some(start), Some(end));
    ParamsSnoc([], c);
  }

  /** A request selecting every project and one infrastructure over January 2024: the project
      filter contributes nothing, the infrastructure filter one `IN (?)` bound to its value,
      after the two period bounds. */
  lemma OneInfraInJanuary()
    ensures QueryClauses([(ProjectIdentifierLabel, List([AllMarker])), ("Redmine Infra", List(["INFRA1"]))],
                         Some("2024-01-01"), Some("2024-01-31"))
         == [Clause(DateNotNull, []), Clause(DateBetween, ["2024-01-01", "2024-01-31"]),
             Clause(ColumnIn("redmine_infra", 1), ["INFRA1"])]
    ensures Params(QueryClauses([(ProjectIdentifierLabel, List([AllMarker])), ("Redmine Infra", List(["INFRA1"]))],
                                Some("2024-01-01"), Some("2024-01-31")))
         == ["2024-01-01", "2024-01-31", "INFRA1"]
  {
    AllProjectsSkipped();
    OneInfraClause();
    SkippedThenOne((ProjectIdentifierLabel, List([AllMarker])), ("Redmine Infra", List(["INFRA1"])),
                   Clause(ColumnIn("redmine_infra", 1), ["INFRA1"]), "2024-01-01", "2024-01-31");
  }
}
