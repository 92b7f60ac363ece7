/** The filtered, paged driver listing of `get_all_drivers`
    (`src/driver/services.rs`): nine filters that consume a numbered
    placeholder, and the gender, rest-document, verification and
    deactivation filters that add fixed SQL text. */
module DriverFilter {
  import opened Wrappers
  import opened SqlFilter
  import opened Paginate

  const DRIVERS_TABLE := "drivers"
  /** The longest filtered column, named once. */
  const ALLOW_REQUEST_COLUMN := "allow_request_professional_agreement"
  const DRIVER_COLUMNS :=
    "pk_driver_id, firstname, lastname, gender, email, phone_number, is_searchable, "
    + "allow_request_professional_agreement, language, rest_json, mail_preferences, created_at, "
    + "verified_at, last_login_at, deactivated_at"

  /** `GetAllDriversQuery`. */
  datatype GetAllDriversQuery = GetAllDriversQuery(
    page: u32,
    limit: u32,
    driverId: Option<string>,
    firstname: Option<string>,
    lastname: Option<string>,
    gender: Option<string>,
    email: Option<string>,
    phoneNumber: Option<string>,
    isSearchable: Option<bool>,
    allowRequestProfessionalAgreement: Option<bool>,
    language: Option<string>,
    restJson: Option<bool>,
    verified: Option<bool>,
    deactivated: Option<bool>,
    sortOrder: string)

  /** `GetAllDriversQuery::default`. */
  function DefaultDriversQuery(): (q: GetAllDriversQuery)
    ensures q.page == 1 && q.limit == 20 && q.sortOrder == "asc"
    ensures DriverFilterBinds(q) == [] && DriverFixedClauses(q) == []
  {
    GetAllDriversQuery(DefaultPage(), DefaultLimit(), None, None, None, None, None, None, None, None, None,
                       None, None, None, DefaultSortOrder())
  }

  function Raw(value: Option<string>): (r: Option<BindValue>)
    ensures r.Some? <==> value.Some?
  {
    if value.Some? then Some(TextValue(value.value)) else None
  }

  function Flag(value: Option<bool>): (r: Option<BindValue>)
    ensures r.Some? <==> value.Some?
  {
    if value.Some? then Some(BoolValue(value.value)) else None
  }

  /** The values the bind chain attaches to the filter's placeholders, in
      the order it attaches them. */
  function DriverFilterBinds(q: GetAllDriversQuery): seq<Bind>
  {
    LeadingBinds(q) + OptionalBind("gender", GenderValue(q.gender)) + ContactBinds(q) + PreferenceBinds(q)
  }

  /** The values of the filters before the gender filter. */
  function LeadingBinds(q: GetAllDriversQuery): seq<Bind>
  {
    OptionalBind("pk_driver_id", Raw(q.driverId))
    + OptionalBind("firstname", Pattern(q.firstname))
    + OptionalBind("lastname", Pattern(q.lastname))
  }

  /** The values of the e-mail and phone filters. */
  function ContactBinds(q: GetAllDriversQuery): seq<Bind>
  {
    OptionalBind("email", Pattern(q.email)) + OptionalBind("phone_number", Pattern(q.phoneNumber))
  }

  /** The values of the two flag filters and the language filter. */
  function PreferenceBinds(q: GetAllDriversQuery): seq<Bind>
  {
    OptionalBind("is_searchable", Flag(q.isSearchable))
    + OptionalBind(ALLOW_REQUEST_COLUMN, Flag(q.allowRequestProfessionalAgreement))
    + OptionalBind("language", Raw(q.language))
  }

  /** A yes/no filter's fixed clause, if the filter is present. */
  function FlagClause(flag: Option<bool>, whenTrue: string, whenFalse: string): (r: seq<Condition>)
    ensures |r| == (if flag.Some? then 1 else 0)
  {
    if flag.None? then [] else if flag.value then [Fixed(whenTrue)] else [Fixed(whenFalse)]
  }

  /** The three clauses pushed last, none of them with a placeholder; the
      rest document counts as absent when it is SQL `NULL` or JSON `null`. */
  function DriverFixedClauses(q: GetAllDriversQuery): seq<Condition>
  {
    FlagClause(q.restJson, "rest_json IS NOT NULL AND rest_json != 'null'", "(rest_json IS NULL OR rest_json = 'null')")
    + FlagClause(q.verified, "verified_at IS NOT NULL", "verified_at IS NULL")
    + FlagClause(q.deactivated, "deactivated_at IS NOT NULL", "deactivated_at IS NULL")
  }

  /** Pushing a present flag's clause keeps the conditions aligned. */
  method PushFlag(conditions: seq<Condition>, ghost binds: seq<Bind>, flag: Option<bool>, whenTrue: string, whenFalse: string)
    returns (conditions': seq<Condition>)
    requires Aligned(conditions, binds)
    ensures Aligned(conditions', binds)
    ensures conditions' == conditions + FlagClause(flag, whenTrue, whenFalse)
  {
    conditions' := conditions;
    if flag.Some? {
      var sql := if flag.value then whenTrue else whenFalse;
      PushFixed(conditions, binds, sql);
      conditions' := conditions + [Fixed(sql)];
    }
  }

  /** The columns compared with `ILIKE` against a `%value%` pattern; the
      id, gender, flags and language are compared with `=`. */
  const DRIVER_PATTERN_COLUMNS := {"firstname", "lastname", "email", "phone_number"}

  /** Which of the filtered columns are pattern columns. */
  lemma DriverPatternColumns()
    ensures "firstname" in DRIVER_PATTERN_COLUMNS && "lastname" in DRIVER_PATTERN_COLUMNS
    ensures "email" in DRIVER_PATTERN_COLUMNS && "phone_number" in DRIVER_PATTERN_COLUMNS
    ensures "pk_driver_id" !in DRIVER_PATTERN_COLUMNS && "gender" !in DRIVER_PATTERN_COLUMNS
    ensures "is_searchable" !in DRIVER_PATTERN_COLUMNS && "language" !in DRIVER_PATTERN_COLUMNS
    ensures ALLOW_REQUEST_COLUMN !in DRIVER_PATTERN_COLUMNS
  {
  }

  /** How many comparisons precede the gender filter's slot. */
  function LeadingFilterCount(q: GetAllDriversQuery): (n: nat)
    ensures n == |LeadingBinds(q)|
  {
    (if q.driverId.Some? then 1 else 0) + (if q.firstname.Some? then 1 else 0) + (if q.lastname.Some? then 1 else 0)
  }

  /** The field-filter part of the conditions: one numbered comparison per
      present placeholder filter, aligned with the values bound to them,
      with `ILIKE` on the pattern columns and `=` on the others, and
      `gender IS NULL` in the gender filter's slot. */
  predicate FieldConditions(q: GetAllDriversQuery, conditions: seq<Condition>)
  {
    && Aligned(conditions, DriverFilterBinds(q))
    && OperatorsByColumn(conditions, DRIVER_PATTERN_COLUMNS)
    && |conditions| == |DriverFilterBinds(q)| + (if q.gender == Some("none") then 1 else 0)
    && (q.gender == Some("none") ==>
          LeadingFilterCount(q) < |conditions| && conditions[LeadingFilterCount(q)] == Fixed("gender IS NULL"))
  }

  /** The WHERE conditions `get_all_drivers` builds for a query: the field
      filters, then the yes/no clauses, and nothing else. */
  predicate DriverConditions(q: GetAllDriversQuery, conditions: seq<Condition>)
  {
    && |conditions| >= |DriverFixedClauses(q)|
    && FieldConditions(q, conditions[..|conditions| - |DriverFixedClauses(q)|])
    && conditions[|conditions| - |DriverFixedClauses(q)|..] == DriverFixedClauses(q)
  }

  /** The e-mail and phone filters, pushed after `conditions`. */
  method PushContactFilters(q: GetAllDriversQuery, conditions: seq<Condition>, paramCount: nat, ghost binds: seq<Bind>)
    returns (conditions': seq<Condition>, paramCount': nat, ghost binds': seq<Bind>)
    requires Aligned(conditions, binds) && paramCount == |binds|
    requires OperatorsByColumn(conditions, DRIVER_PATTERN_COLUMNS)
    ensures Aligned(conditions', binds') && paramCount' == |binds'|
    ensures OperatorsByColumn(conditions', DRIVER_PATTERN_COLUMNS)
    ensures binds' == binds + ContactBinds(q)
    ensures |conditions'| - |conditions| == paramCount' - paramCount
    ensures conditions <= conditions'
  {
    DriverPatternColumns();
    conditions', paramCount', binds' := PushIfPresent(conditions, paramCount, binds, DRIVER_PATTERN_COLUMNS, "email", "ILIKE", Pattern(q.email));
    conditions', paramCount', binds' := PushIfPresent(conditions', paramCount', binds', DRIVER_PATTERN_COLUMNS, "phone_number", "ILIKE", Pattern(q.phoneNumber));
  }

  /** The two flag filters and the language filter, pushed after
      `conditions`. */
  method PushPreferenceFilters(q: GetAllDriversQuery, conditions: seq<Condition>, paramCount: nat, ghost binds: seq<Bind>)
    returns (conditions': seq<Condition>, paramCount': nat, ghost binds': seq<Bind>)
    requires Aligned(conditions, binds) && paramCount == |binds|
    requires OperatorsByColumn(conditions, DRIVER_PATTERN_COLUMNS)
    ensures Aligned(conditions', binds') && paramCount' == |binds'|
    ensures OperatorsByColumn(conditions', DRIVER_PATTERN_COLUMNS)
    ensures binds' == binds + PreferenceBinds(q)
    ensures |conditions'| - |conditions| == paramCount' - paramCount
    ensures conditions <= conditions'
  {
    DriverPatternColumns();
    conditions', paramCount', binds' := PushIfPresent(conditions, paramCount, binds, DRIVER_PATTERN_COLUMNS, "is_searchable", "=", Flag(q.isSearchable));
    conditions', paramCount', binds' := PushIfPresent(conditions', paramCount', binds', DRIVER_PATTERN_COLUMNS, ALLOW_REQUEST_COLUMN, "=",
                                                      Flag(q.allowRequestProfessionalAgreement));
    conditions', paramCount', binds' := PushIfPresent(conditions', paramCount', binds', DRIVER_PATTERN_COLUMNS, "language", "=", Raw(q.language));
  }

  /** The id and name filters, pushed first. */
  method PushLeadingFilters(q: GetAllDriversQuery) returns (conditions: seq<Condition>, paramCount: nat, ghost binds: seq<Bind>)
    ensures Aligned(conditions, binds) && OperatorsByColumn(conditions, DRIVER_PATTERN_COLUMNS)
    ensures binds == LeadingBinds(q)
    ensures |conditions| == paramCount == LeadingFilterCount(q)
  {
    DriverPatternColumns();
    conditions, paramCount, binds := [], 0, [];
    conditions, paramCount, binds := PushIfPresent(conditions, paramCount, binds, DRIVER_PATTERN_COLUMNS, "pk_driver_id", "=", Raw(q.driverId));
    conditions, paramCount, binds := PushIfPresent(conditions, paramCount, binds, DRIVER_PATTERN_COLUMNS, "firstname", "ILIKE", Pattern(q.firstname));
    conditions, paramCount, binds := PushIfPresent(conditions, paramCount, binds, DRIVER_PATTERN_COLUMNS, "lastname", "ILIKE", Pattern(q.lastname));
  }

  /** The gender filter, pushed after the id and name filters: `"none"`
      is the fixed `gender IS NULL`, any other value a numbered `=`. */
  method PushGenderFilter(q: GetAllDriversQuery, conditions: seq<Condition>, paramCount: nat, ghost binds: seq<Bind>)
    returns (conditions': seq<Condition>, paramCount': nat, ghost binds': seq<Bind>)
    requires Aligned(conditions, binds) && OperatorsByColumn(conditions, DRIVER_PATTERN_COLUMNS)
    requires |conditions| == paramCount == |binds| == LeadingFilterCount(q)
    ensures Aligned(conditions', binds') && OperatorsByColumn(conditions', DRIVER_PATTERN_COLUMNS)
    ensures binds' == binds + OptionalBind("gender", GenderValue(q.gender)) && paramCount' == |binds'|
    ensures |conditions'| == paramCount' + (if q.gender == Some("none") then 1 else 0)
    ensures q.gender == Some("none") ==>
      LeadingFilterCount(q) < |conditions'| && conditions'[LeadingFilterCount(q)] == Fixed("gender IS NULL")
  {
    DriverPatternColumns();
    conditions' := conditions;
    if q.gender.Some? && q.gender.value == "none" {
      PushFixed(conditions, binds, "gender IS NULL");
      PushFixedKeepsOperators(conditions, "gender IS NULL", DRIVER_PATTERN_COLUMNS);
      conditions' := conditions + [Fixed("gender IS NULL")];
    }
    ghost var genderDone := conditions';
    conditions', paramCount', binds' := PushIfPresent(conditions', paramCount, binds, DRIVER_PATTERN_COLUMNS, "gender", "=", GenderValue(q.gender));
    assert genderDone <= conditions';
  }

  /** The first part of `get_all_drivers`' WHERE conditions: the field
      filters, pushed field by field while `paramCount` numbers the
      placeholders. */
  method PushFieldFilters(q: GetAllDriversQuery) returns (conditions: seq<Condition>, paramCount: nat, ghost binds: seq<Bind>)
    ensures FieldConditions(q, conditions) && binds == DriverFilterBinds(q)
    ensures paramCount == |binds|
  {
    conditions, paramCount, binds := PushLeadingFilters(q);
    conditions, paramCount, binds := PushGenderFilter(q, conditions, paramCount, binds);
    ghost var genderDone := conditions;
    conditions, paramCount, binds := PushContactFilters(q, conditions, paramCount, binds);
    conditions, paramCount, binds := PushPreferenceFilters(q, conditions, paramCount, binds);
    if q.gender == Some("none") {
      assert conditions[LeadingFilterCount(q)] == genderDone[LeadingFilterCount(q)];
    }
  }

  /** The WHERE conditions of `get_all_drivers`: the field filters, then
      the three yes/no clauses. */
  method BuildDriverConditions(q: GetAllDriversQuery) returns (conditions: seq<Condition>, paramCount: nat)
    ensures DriverConditions(q, conditions) && Aligned(conditions, DriverFilterBinds(q))
    ensures paramCount == |DriverFilterBinds(q)|
  {
    ghost var binds;
    conditions, paramCount, binds := PushFieldFilters(q);
    ghost var filterPart := conditions;
    conditions := PushFlag(conditions, binds, q.restJson,
                           "rest_json IS NOT NULL AND rest_json != 'null'", "(rest_json IS NULL OR rest_json = 'null')");
    conditions := PushFlag(conditions, binds, q.verified, "verified_at IS NOT NULL", "verified_at IS NULL");
    conditions := PushFlag(conditions, binds, q.deactivated, "deactivated_at IS NOT NULL", "deactivated_at IS NULL");
    assert conditions == filterPart + DriverFixedClauses(q);
    assert conditions[..|conditions| - |DriverFixedClauses(q)|] == filterPart;
  }

  /** Whether the bind chains run: only the nine placeholder filters are
      examined, in both the COUNT and the SELECT. */
  predicate HasPlaceholderFilter(q: GetAllDriversQuery)
  {
    q.driverId.Some? || q.firstname.Some? || q.lastname.Some? || q.gender.Some? || q.email.Some?
    || q.phoneNumber.Some? || q.isSearchable.Some? || q.allowRequestProfessionalAgreement.Some?
    || q.language.Some?
  }

  /** The values bound to the COUNT query; both branches bind exactly the
      filter's values. */
  function DriverCountBinds(q: GetAllDriversQuery): (r: seq<Bind>)
    ensures r == DriverFilterBinds(q)
  {
    if HasPlaceholderFilter(q) then DriverFilterBinds(q) else []
  }

  /** The values bound to the SELECT; both branches put the limit and the
      offset right after the filter's values. */
  function DriverSelectBinds(q: GetAllDriversQuery, offset: u32): (r: seq<Bind>)
    ensures r == DriverFilterBinds(q) + [Bind("limit", IntValue(q.limit)), Bind("offset", IntValue(offset))]
  {
    var paging := [Bind("limit", IntValue(q.limit)), Bind("offset", IntValue(offset))];
    if HasPlaceholderFilter(q) then DriverFilterBinds(q) + paging else paging
  }

  /** The statements of `get_all_drivers`. */
  method GetAllDriversQueries(q: GetAllDriversQuery) returns (r: ListQueries)
    ensures DriverConditions(q, r.conditions) && Aligned(r.conditions, r.countBinds)
    ensures r.countBinds == DriverFilterBinds(q)
    ensures r.countSql == CountQuery(DRIVERS_TABLE, r.conditions)
    ensures r.selectSql == SelectQuery(DRIVER_COLUMNS, DRIVERS_TABLE, r.conditions, q.sortOrder, |DriverFilterBinds(q)|)
    ensures r.selectBinds == DriverFilterBinds(q) + [Bind("limit", IntValue(q.limit)), Bind("offset", IntValue(Offset(q.page, q.limit)))]
  {
    var offset := Offset(q.page, q.limit);
    var conditions, paramCount := BuildDriverConditions(q);
    var countSql := CountQuery(DRIVERS_TABLE, conditions);
    var selectSql := SelectQuery(DRIVER_COLUMNS, DRIVERS_TABLE, conditions, q.sortOrder, paramCount);
    return ListQueries(conditions, countSql, DriverCountBinds(q), selectSql, DriverSelectBinds(q, offset));
  }
}
