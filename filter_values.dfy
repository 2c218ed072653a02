/** Filter values as they arrive in a request's JSON `filters` object, with Python's truthiness,
    and the "(All)" select-all marker. */
module FilterValues {
  import opened Wrappers

  /** The token a dashboard uses for "every value selected". */
  const AllMarker: string := "(All)"

  /** A JSON value under a filter label. `Other` is any other JSON value (number, boolean,
      object); it carries its own Python truthiness. */
  datatype FilterValue = Null | Str(s: string) | List(items: seq<string>) | Other(truthy: bool)

  /** Python's `bool(value)`. */
  predicate Truthy(v: FilterValue) {
    match v
    case Null => false
    case Str(s) => s != ""
    case List(xs) => xs != []
    case Other(t) => t
  }

  /** Python's `bool(x)` for an optional string (`None` and `""` are false). */
  predicate TruthyText(x: Option<string>) {
    x.Some? && x.value != ""
  }

  /** The element test `v and v != "(All)"`. */
  predicate Kept(x: string) {
    x != "" && x != AllMarker
  }

  /** `[v for v in values if v and v != "(All)"]`. */
  function Clean(values: seq<string>): (r: seq<string>)
    ensures forall x :: x in r <==> x in values && Kept(x)
    ensures |r| <= |values|
  {
    if values == [] then []
    else (if Kept(values[0]) then [values[0]] else []) + Clean(values[1..])
  }

  /** Cleaning distributes over concatenation, so the survivors keep their relative order. */
  lemma {:induction false} CleanAppend(a: seq<string>, b: seq<string>)
    ensures Clean(a + b) == Clean(a) + Clean(b)
  {
    if a == [] {
      assert a + b == b;
    } else {
      assert (a + b)[0] == a[0] && (a + b)[1..] == a[1..] + b;
      CleanAppend(a[1..], b);
    }
  }

  /** A list with nothing to remove is left exactly as it is; in particular cleaning twice is
      cleaning once. */
  lemma {:induction false} CleanKeepsCleanList(values: seq<string>)
    requires forall x :: x in values ==> Kept(x)
    ensures Clean(values) == values
  {
    if values != [] {
      assert values[0] in values;
      assert forall x :: x in values[1..] ==> x in values;
      CleanKeepsCleanList(values[1..]);
      assert values == [values[0]] + values[1..];
    }
  }

  lemma CleanIdempotent(values: seq<string>)
    ensures Clean(Clean(values)) == Clean(values)
  {
    CleanKeepsCleanList(Clean(values));
  }
}
