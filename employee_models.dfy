/** Records and request shapes of `src/employee/models.rs`, the two
    string parsers of the authorization catalog, and the default employee
    list query. */
module EmployeeModels {
  import opened Wrappers
  import Paginate

  /** A row of the `employees` table.  The password hashes are left out. */
  datatype Employee = Employee(
    firstname: string,
    lastname: string,
    gender: Option<string>,
    personalEmail: string,
    phoneNumber: Option<string>,
    professionalEmail: string,
    createdAt: Instant,
    lastLoginAt: Option<Instant>,
    deactivatedAt: Option<Instant>)

  /** The narrow projection used inside accreditation and derogation
      responses. */
  datatype LightEmployee = LightEmployee(
    id: Uuid,
    firstname: string,
    lastname: string,
    gender: Option<string>,
    professionalEmail: string)

  function Light(id: Uuid, e: Employee): (l: LightEmployee)
    ensures l.id == id && l.professionalEmail == e.professionalEmail
  {
    LightEmployee(id, e.firstname, e.lastname, e.gender, e.professionalEmail)
  }

  datatype EntityType = DRIVER | EMPLOYEE

  datatype CrudType = C | R | U | D

  /** The spelling of each entity type in the catalog. */
  function EntityTypeName(t: EntityType): string
  {
    match t
    case DRIVER => "DRIVER"
    case EMPLOYEE => "EMPLOYEE"
  }

  function CrudTypeName(t: CrudType): string
  {
    match t
    case C => "C"
    case R => "R"
    case U => "U"
    case D => "D"
  }

  /** `EntityType::from_str`: exactly the two upper-case names; `None`
      stands for `Err(())`. */
  function ParseEntityType(s: string): (r: Option<EntityType>)
    ensures r == Some(DRIVER) <==> s == "DRIVER"
    ensures r == Some(EMPLOYEE) <==> s == "EMPLOYEE"
    ensures r.None? <==> s != "DRIVER" && s != "EMPLOYEE"
  {
    if s == "DRIVER" then Some(DRIVER)
    else if s == "EMPLOYEE" then Some(EMPLOYEE)
    else None
  }

  /** `CrudType::from_str`: exactly the four one-letter names. */
  function ParseCrudType(s: string): (r: Option<CrudType>)
    ensures r.None? <==> s !in {"C", "R", "U", "D"}
    ensures r.Some? ==> s == CrudTypeName(r.value)
  {
    if s == "C" then Some(C)
    else if s == "R" then Some(R)
    else if s == "U" then Some(U)
    else if s == "D" then Some(D)
    else None
  }

  /** Parsing a variant's own name gives back that variant. */
  lemma EntityTypeRoundTrip(t: EntityType)
    ensures ParseEntityType(EntityTypeName(t)) == Some(t)
  {
  }

  lemma CrudTypeRoundTrip(t: CrudType)
    ensures ParseCrudType(CrudTypeName(t)) == Some(t)
  {
  }

  /** Distinct accepted strings name distinct variants. */
  lemma ParseEntityTypeInjective(s1: string, s2: string)
    requires ParseEntityType(s1).Some? && ParseEntityType(s1) == ParseEntityType(s2)
    ensures s1 == s2
  {
  }

  lemma ParseCrudTypeInjective(s1: string, s2: string)
    requires ParseCrudType(s1).Some? && ParseCrudType(s1) == ParseCrudType(s2)
    ensures s1 == s2
  {
  }

  /** A permission of the catalog as the API returns it
      (`EmployeeAuthorization`); its id is the authorization-type id. */
  datatype EmployeeAuthorization = EmployeeAuthorization(
    id: int,
    featureCode: string,
    authorizationIndex: int,
    crudType: CrudType,
    description: string,
    categoryNameCode: string,
    categoryEntityType: EntityType,
    categoryIndex: int)

  /** A row of the joined authorization catalog before its two enumerations
      are parsed: the entity type is a string, the CRUD type a nullable
      string. */
  datatype AuthorizationRow = AuthorizationRow(
    featureCode: string,
    authorizationIndex: int,
    crudType: Option<string>,
    description: string,
    categoryNameCode: string,
    entityType: string,
    categoryIndex: int)

  /** `EmployeeLevel`: a lower `levelIndex` is more senior, and index 1 is
      the administrator tier. */
  datatype EmployeeLevel = EmployeeLevel(id: int, levelIndex: int, levelLabel: string)

  /** `EmployeeAccreditationRow` without its key: the recipient holds the
      level during `[startAt, endAt)`, for ever when `endAt` is absent. */
  datatype AccreditationRow = AccreditationRow(
    recipient: Uuid,
    levelId: int,
    grantor: Option<Uuid>,
    startAt: Instant,
    endAt: Option<Instant>,
    createdAt: Instant)

  /** `EmployeeDerogationRow` without its key: the recipient additionally
      holds one permission during `[startAt, endAt)`. */
  datatype DerogationRow = DerogationRow(
    recipient: Uuid,
    permission: int,
    grantor: Uuid,
    reason: Option<string>,
    startAt: Instant,
    endAt: Instant,
    createdAt: Instant)

  /** `EmployeeAccreditation`: a row with its references resolved. */
  datatype EmployeeAccreditation = EmployeeAccreditation(
    id: Uuid,
    recipient: LightEmployee,
    level: EmployeeLevel,
    grantor: Option<LightEmployee>,
    startAt: Instant,
    endAt: Option<Instant>,
    createdAt: Instant)

  /** `EmployeeDerogation`: a row with its references resolved. */
  datatype EmployeeDerogation = EmployeeDerogation(
    id: int,
    recipient: LightEmployee,
    authorization: EmployeeAuthorization,
    grantor: LightEmployee,
    reason: Option<string>,
    startAt: Instant,
    endAt: Instant,
    createdAt: Instant)

  datatype AssignAccreditationRequest = AssignAccreditationRequest(
    employeeId: Uuid, levelId: int, startAt: Instant, endAt: Option<Instant>)

  datatype UpdateAccreditationRequest = UpdateAccreditationRequest(
    levelId: int, startAt: Instant, endAt: Option<Instant>)

  datatype CreateDerogationRequest = CreateDerogationRequest(
    recipientId: Uuid, permission: int, reason: Option<string>, startAt: Instant, endAt: Instant)

  datatype GetAllEmployeesQuery = GetAllEmployeesQuery(
    page: Paginate.u32,
    limit: Paginate.u32,
    firstname: Option<string>,
    lastname: Option<string>,
    gender: Option<string>,
    personalEmail: Option<string>,
    phoneNumber: Option<string>,
    professionalEmail: Option<string>,
    deactivated: Option<bool>,
    sortOrder: string)

  /** `GetAllEmployeesQuery::default`: the default page and limit, no
      filter, ascending order. */
  function DefaultEmployeesQuery(): (q: GetAllEmployeesQuery)
    ensures q.page == 1 && q.limit == 20 && q.sortOrder == "asc"
    ensures q.firstname.None? && q.lastname.None? && q.gender.None?
    ensures q.personalEmail.None? && q.phoneNumber.None? && q.professionalEmail.None?
    ensures q.deactivated.None?
    ensures Paginate.CheckPagination(Paginate.PaginateQuery(q.page, q.limit)).Ok?
  {
    GetAllEmployeesQuery(Paginate.DefaultPage(), Paginate.DefaultLimit(), None, None, None,
                         None, None, None, None, Paginate.DefaultSortOrder())
  }
}
