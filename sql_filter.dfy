/** The dynamic WHERE-clause building shared by the list endpoints: a
    sequence of conditions, some of them comparing a column with the next
    numbered placeholder (`$1`, `$2`, …), the rest fixed SQL text, joined
    with `AND`; and the values bound to the placeholders. */
module SqlFilter {
  import opened Wrappers
  import opened Text
  import opened Paginate

  /** One entry of `where_conditions`. */
  datatype Condition =
    | Compare(column: string, operator: string, index: nat)
    | Fixed(sql: string)

  /** A value bound to a placeholder, labelled with the column it is meant
      for. */
  datatype BindValue = TextValue(text: string) | BoolValue(flag: bool) | IntValue(number: int)
  datatype Bind = Bind(column: string, value: BindValue)

  /** The statements of one listing and the values bound to each. */
  datatype ListQueries = ListQueries(
    conditions: seq<Condition>,
    countSql: string,
    countBinds: seq<Bind>,
    selectSql: string,
    selectBinds: seq<Bind>)

  /** `format!("{column} {operator} ${index}")`, or the fixed text. */
  function Render(c: Condition): string
  {
    match c
    case Compare(column, operator, index) => column + " " + operator + " $" + NatToString(index)
    case Fixed(sql) => sql
  }

  /** The WHERE clause: empty without conditions, else `WHERE ` and the
      conditions joined with ` AND `. */
  function WhereClause(conditions: seq<Condition>): (s: string)
    ensures conditions == [] ==> s == ""
    ensures conditions != [] ==> |s| >= 6 && s[..6] == "WHERE "
  {
    if conditions == [] then ""
    else "WHERE " + Join(seq(|conditions|, i requires 0 <= i < |conditions| => Render(conditions[i])), " AND ")
  }

  /** The conditions that consume a placeholder, in order. */
  function Comparisons(conditions: seq<Condition>): (r: seq<Condition>)
    ensures |r| <= |conditions|
    ensures forall c :: c in r ==> c.Compare?
  {
    if conditions == [] then []
    else (if conditions[0].Compare? then [conditions[0]] else []) + Comparisons(conditions[1..])
  }

  lemma {:induction false} ComparisonsAppend(conditions: seq<Condition>, c: Condition)
    ensures Comparisons(conditions + [c]) == Comparisons(conditions) + (if c.Compare? then [c] else [])
  {
    if conditions != [] {
      assert (conditions + [c])[1..] == conditions[1..] + [c];
      ComparisonsAppend(conditions[1..], c);
    }
  }

  /** The placeholders are numbered `$1 … $n` in order, and the k-th of
      them compares the column the k-th bound value is meant for. */
  predicate Aligned(conditions: seq<Condition>, binds: seq<Bind>)
  {
    var placeholders := Comparisons(conditions);
    && |placeholders| == |binds|
    && forall i :: 0 <= i < |placeholders| ==> placeholders[i].index == i + 1 && placeholders[i].column == binds[i].column
  }

  /** Every numbered comparison uses `ILIKE` when its column is one of the
      pattern columns (those bound to `%value%`), and `=` otherwise. */
  predicate OperatorsByColumn(conditions: seq<Condition>, patternColumns: set<string>)
  {
    forall i :: 0 <= i < |conditions| && conditions[i].Compare? ==>
      conditions[i].operator == (if conditions[i].column in patternColumns then "ILIKE" else "=")
  }

  /** Pushing a comparison numbered one past the bound values so far, for
      the column of the next bound value, keeps the two aligned; pushing
      fixed text keeps them aligned without a value. */
  lemma PushComparison(conditions: seq<Condition>, binds: seq<Bind>, c: Condition, b: Bind)
    requires Aligned(conditions, binds)
    requires c.Compare? && c.index == |binds| + 1 && c.column == b.column
    ensures Aligned(conditions + [c], binds + [b])
  {
    ComparisonsAppend(conditions, c);
  }

  lemma PushFixed(conditions: seq<Condition>, binds: seq<Bind>, sql: string)
    requires Aligned(conditions, binds)
    ensures Aligned(conditions + [Fixed(sql)], binds)
  {
    ComparisonsAppend(conditions, Fixed(sql));
  }

  /** Fixed text has no operator to get wrong. */
  lemma PushFixedKeepsOperators(conditions: seq<Condition>, sql: string, patternColumns: set<string>)
    requires OperatorsByColumn(conditions, patternColumns)
    ensures OperatorsByColumn(conditions + [Fixed(sql)], patternColumns)
  {
  }

  /** The bound value an optional filter contributes, if it is present. */
  function OptionalBind(column: string, value: Option<BindValue>): (r: seq<Bind>)
    ensures |r| == (if value.Some? then 1 else 0)
  {
    if value.Some? then [Bind(column, value.value)] else []
  }

  /** The comparison an optional filter pushes, if it is present. */
  function OptionalCompare(column: string, operator: string, value: Option<BindValue>, index: nat): (r: seq<Condition>)
    ensures |r| == (if value.Some? then 1 else 0)
  {
    if value.Some? then [Compare(column, operator, index)] else []
  }

  /** One `if let Some(v) = …` step of a builder: when the filter is
      present, the counter moves to the next placeholder and a comparison
      with it is pushed, so the conditions stay aligned with the values the
      bind chain will attach. */
  method PushIfPresent(conditions: seq<Condition>, paramCount: nat, ghost binds: seq<Bind>,
                       ghost patternColumns: set<string>, column: string, operator: string, value: Option<BindValue>)
    returns (conditions': seq<Condition>, paramCount': nat, ghost binds': seq<Bind>)
    requires Aligned(conditions, binds) && paramCount == |binds|
    requires OperatorsByColumn(conditions, patternColumns)
    requires operator == (if column in patternColumns then "ILIKE" else "=")
    ensures Aligned(conditions', binds') && paramCount' == |binds'|
    ensures OperatorsByColumn(conditions', patternColumns)
    ensures binds' == binds + OptionalBind(column, value)
    ensures conditions' == conditions + OptionalCompare(column, operator, value, paramCount')
    ensures |conditions'| - |conditions| == paramCount' - paramCount
  {
    conditions', paramCount', binds' := conditions, paramCount, binds;
    if value.Some? {
      paramCount' := paramCount + 1;
      PushComparison(conditions, binds, Compare(column, operator, paramCount'), Bind(column, value.value));
      conditions' := conditions + [Compare(column, operator, paramCount')];
      binds' := binds + [Bind(column, value.value)];
    }
  }

  /** An `ILIKE` filter's value, `%value%`. */
  function Pattern(value: Option<string>): (r: Option<BindValue>)
    ensures r.Some? <==> value.Some?
  {
    if value.Some? then Some(TextValue(Contains(value.value))) else None
  }

  /** The gender filter of both list endpoints binds its raw value, except
      `"none"`, which is fixed SQL text. */
  function GenderValue(gender: Option<string>): (r: Option<BindValue>)
    ensures r.Some? <==> gender.Some? && gender.value != "none"
  {
    if gender.Some? && gender.value != "none" then Some(TextValue(gender.value)) else None
  }

  /** `%value%`, the pattern of an `ILIKE` filter. */
  function Contains(value: string): string
  {
    "%" + value + "%"
  }

  /** `match sort_order.to_lowercase() { "desc" => "DESC", _ => "ASC" }`. */
  function OrderDirection(sortOrder: string): (d: string)
    ensures d == "DESC" <==> ToLower(sortOrder) == "desc"
    ensures d == "DESC" || d == "ASC"
  {
    if ToLower(sortOrder) == "desc" then "DESC" else "ASC"
  }

  /** The default sort order lists oldest first. */
  lemma DefaultSortIsAscending()
    ensures OrderDirection(DefaultSortOrder()) == "ASC"
  {
  }

  /** The tail of the SELECT: the limit and the offset take the two
      placeholders after the filter's. */
  function PagingClause(paramCount: nat): string
  {
    "LIMIT $" + NatToString(paramCount + 1) + " OFFSET $" + NatToString(paramCount + 2)
  }

  /** The paged SELECT `get_all_employees` and `get_all_drivers` format. */
  function SelectQuery(columns: string, table: string, conditions: seq<Condition>, sortOrder: string,
                       paramCount: nat): string
  {
    "SELECT " + columns + " FROM \"" + table + "\" " + WhereClause(conditions)
      + " ORDER BY created_at " + OrderDirection(sortOrder) + " " + PagingClause(paramCount)
  }

  /** The COUNT query over the same filter. */
  function CountQuery(table: string, conditions: seq<Condition>): string
  {
    "SELECT COUNT(*) as count FROM \"" + table + "\" " + WhereClause(conditions)
  }
}
