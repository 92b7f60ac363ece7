/** The filtered, paged employee listing of `get_all_employees`
    (`src/employee/services.rs`): the WHERE conditions with their numbered
    placeholders, the values bound to them, and the LIMIT/OFFSET tail. */
module EmployeeFilter {
  import opened Wrappers
  import opened EmployeeModels
  import opened SqlFilter
  import opened Paginate

  const EMPLOYEES_TABLE := "employees"
  const EMPLOYEE_COLUMNS :=
    "pk_employee_id, firstname, lastname, gender, personal_email, login_password_hash, phone_number, "
    + "professional_email, professional_email_password, created_at, last_login_at, deactivated_at"

  /** The values the bind chain attaches to the filter's placeholders, in
      the order it attaches them: `ILIKE` filters get `%value%`, the gender
      its raw value unless it is `"none"`. */
  function EmployeeFilterBinds(q: GetAllEmployeesQuery): seq<Bind>
  {
    OptionalBind("firstname", Pattern(q.firstname))
    + OptionalBind("lastname", Pattern(q.lastname))
    + OptionalBind("gender", GenderValue(q.gender))
    + OptionalBind("personal_email", Pattern(q.personalEmail))
    + OptionalBind("phone_number", Pattern(q.phoneNumber))
    + OptionalBind("professional_email", Pattern(q.professionalEmail))
  }

  /** The columns compared with `ILIKE` against a `%value%` pattern; the
      gender is compared with `=`. */
  const EMPLOYEE_PATTERN_COLUMNS := {"firstname", "lastname", "personal_email", "phone_number", "professional_email"}

  /** Which of the filtered columns are pattern columns. */
  lemma EmployeePatternColumns()
    ensures "firstname" in EMPLOYEE_PATTERN_COLUMNS && "lastname" in EMPLOYEE_PATTERN_COLUMNS
    ensures "personal_email" in EMPLOYEE_PATTERN_COLUMNS && "phone_number" in EMPLOYEE_PATTERN_COLUMNS
    ensures "professional_email" in EMPLOYEE_PATTERN_COLUMNS && "gender" !in EMPLOYEE_PATTERN_COLUMNS
  {
  }

  /** How many comparisons precede the gender filter's slot. */
  function NameFilterCount(q: GetAllEmployeesQuery): (n: nat)
    ensures n <= |EmployeeFilterBinds(q)|
  {
    (if q.firstname.Some? then 1 else 0) + (if q.lastname.Some? then 1 else 0)
  }

  /** The field-filter part of the conditions: one numbered comparison per
      present placeholder filter, aligned with the values bound to them,
      with `ILIKE` on the pattern columns and `=` on the gender, and
      `gender IS NULL` in the gender filter's slot. */
  predicate FieldConditions(q: GetAllEmployeesQuery, conditions: seq<Condition>)
  {
    && Aligned(conditions, EmployeeFilterBinds(q))
    && OperatorsByColumn(conditions, EMPLOYEE_PATTERN_COLUMNS)
    && |conditions| == |EmployeeFilterBinds(q)| + (if q.gender == Some("none") then 1 else 0)
    && (q.gender == Some("none") ==> conditions[NameFilterCount(q)] == Fixed("gender IS NULL"))
  }

  /** The deactivation filter's fixed clause, if the filter is present. */
  function DeactivatedClause(q: GetAllEmployeesQuery): (r: seq<Condition>)
    ensures |r| == (if q.deactivated.Some? then 1 else 0)
  {
    if q.deactivated.None? then []
    else if q.deactivated.value then [Fixed("deactivated_at IS NOT NULL")]
    else [Fixed("deactivated_at IS NULL")]
  }

  /** The WHERE conditions `get_all_employees` builds for a query: the
      field filters, then the deactivation clause, and nothing else. */
  predicate EmployeeConditions(q: GetAllEmployeesQuery, conditions: seq<Condition>)
  {
    && |conditions| >= |DeactivatedClause(q)|
    && FieldConditions(q, conditions[..|conditions| - |DeactivatedClause(q)|])
    && conditions[|conditions| - |DeactivatedClause(q)|..] == DeactivatedClause(q)
  }

  /** The field filters, pushed field by field while `paramCount` numbers
      the placeholders. */
  method PushFieldFilters(q: GetAllEmployeesQuery) returns (conditions: seq<Condition>, paramCount: nat, ghost binds: seq<Bind>)
    ensures FieldConditions(q, conditions) && binds == EmployeeFilterBinds(q)
    ensures paramCount == |binds|
  {
    EmployeePatternColumns();
    conditions, paramCount, binds := [], 0, [];
    conditions, paramCount, binds := PushIfPresent(conditions, paramCount, binds, EMPLOYEE_PATTERN_COLUMNS, "firstname", "ILIKE", Pattern(q.firstname));
    conditions, paramCount, binds := PushIfPresent(conditions, paramCount, binds, EMPLOYEE_PATTERN_COLUMNS, "lastname", "ILIKE", Pattern(q.lastname));
    assert binds == OptionalBind("firstname", Pattern(q.firstname)) + OptionalBind("lastname", Pattern(q.lastname));
    assert |conditions| == paramCount == NameFilterCount(q);
    var noneGender := q.gender.Some? && q.gender.value == "none";
    if noneGender {
      PushFixed(conditions, binds, "gender IS NULL");
      PushFixedKeepsOperators(conditions, "gender IS NULL", EMPLOYEE_PATTERN_COLUMNS);
      conditions := conditions + [Fixed("gender IS NULL")];
    }
    ghost var genderDone := conditions;
    conditions, paramCount, binds := PushIfPresent(conditions, paramCount, binds, EMPLOYEE_PATTERN_COLUMNS, "gender", "=", GenderValue(q.gender));
    conditions, paramCount, binds := PushIfPresent(conditions, paramCount, binds, EMPLOYEE_PATTERN_COLUMNS, "personal_email", "ILIKE", Pattern(q.personalEmail));
    conditions, paramCount, binds := PushIfPresent(conditions, paramCount, binds, EMPLOYEE_PATTERN_COLUMNS, "phone_number", "ILIKE", Pattern(q.phoneNumber));
    conditions, paramCount, binds := PushIfPresent(conditions, paramCount, binds, EMPLOYEE_PATTERN_COLUMNS, "professional_email", "ILIKE", Pattern(q.professionalEmail));
    assert |conditions| == paramCount + (if noneGender then 1 else 0);
    assert genderDone <= conditions;
  }

  /** The WHERE conditions of `get_all_employees`: the field filters, then
      the deactivation clause. */
  method BuildEmployeeConditions(q: GetAllEmployeesQuery) returns (conditions: seq<Condition>, paramCount: nat)
    ensures EmployeeConditions(q, conditions) && Aligned(conditions, EmployeeFilterBinds(q))
    ensures paramCount == |EmployeeFilterBinds(q)|
  {
    ghost var binds;
    conditions, paramCount, binds := PushFieldFilters(q);
    ghost var filterPart := conditions;
    if q.deactivated.Some? {
      var sql := if q.deactivated.value then "deactivated_at IS NOT NULL" else "deactivated_at IS NULL";
      PushFixed(conditions, binds, sql);
      conditions := conditions + [Fixed(sql)];
    }
    assert conditions == filterPart + DeactivatedClause(q);
    assert conditions[..|conditions| - |DeactivatedClause(q)|] == filterPart;
  }

  /** The values bound to the COUNT query: the filter's values when one of
      the placeholder filters (or the gender) is present, none otherwise.
      Both cases bind exactly the filter's values. */
  function EmployeeCountBinds(q: GetAllEmployeesQuery): (r: seq<Bind>)
    ensures r == EmployeeFilterBinds(q)
  {
    if q.firstname.Some? || q.lastname.Some? || q.gender.Some? || q.personalEmail.Some?
       || q.phoneNumber.Some? || q.professionalEmail.Some?
    then EmployeeFilterBinds(q)
    else []
  }

  /** The values bound to the SELECT: the filter's values when any filter
      is present, then the limit and the offset; the bare limit and offset
      otherwise.  Both cases put the limit and the offset right after the
      filter's values. */
  function EmployeeSelectBinds(q: GetAllEmployeesQuery, offset: u32): (r: seq<Bind>)
    ensures r == EmployeeFilterBinds(q) + [Bind("limit", IntValue(q.limit)), Bind("offset", IntValue(offset))]
  {
    var paging := [Bind("limit", IntValue(q.limit)), Bind("offset", IntValue(offset))];
    if q.firstname.Some? || q.lastname.Some? || q.gender.Some? || q.personalEmail.Some?
       || q.phoneNumber.Some? || q.professionalEmail.Some? || q.deactivated.Some?
    then EmployeeFilterBinds(q) + paging
    else paging
  }

  /** The statements of `get_all_employees`. */
  method GetAllEmployeesQueries(q: GetAllEmployeesQuery) returns (r: ListQueries)
    ensures EmployeeConditions(q, r.conditions) && Aligned(r.conditions, r.countBinds)
    ensures r.countBinds == EmployeeFilterBinds(q)
    ensures r.countSql == CountQuery(EMPLOYEES_TABLE, r.conditions)
    ensures r.selectSql == SelectQuery(EMPLOYEE_COLUMNS, EMPLOYEES_TABLE, r.conditions, q.sortOrder, |EmployeeFilterBinds(q)|)
    ensures r.selectBinds == EmployeeFilterBinds(q) + [Bind("limit", IntValue(q.limit)), Bind("offset", IntValue(Offset(q.page, q.limit)))]
  {
    var offset := Offset(q.page, q.limit);
    var conditions, paramCount := BuildEmployeeConditions(q);
    var countSql := CountQuery(EMPLOYEES_TABLE, conditions);
    var selectSql := SelectQuery(EMPLOYEE_COLUMNS, EMPLOYEES_TABLE, conditions, q.sortOrder, paramCount);
    return ListQueries(conditions, countSql, EmployeeCountBinds(q), selectSql, EmployeeSelectBinds(q, offset));
  }

  /** With no filter at all there is no WHERE clause and the limit and
      offset are `$1` and `$2`. */
  lemma DefaultListingIsUnfiltered()
    ensures EmployeeFilterBinds(DefaultEmployeesQuery()) == []
  {
  }
}
