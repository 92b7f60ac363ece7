/** The relational tables behind the employee, authorization and grant
    services, held in memory, and the by-id lookups of
    `src/employee/services.rs` with their error outcomes. */
module Store {
  import opened Wrappers
  import opened AppErrors
  import opened EmployeeModels

  /** A snapshot of every table the permission engine reads.  `links` is
      the `link_employee_authorization` table: level id to the
      authorization-type ids it confers. */
  datatype Tables = Tables(
    employees: map<Uuid, Employee>,
    levels: map<int, EmployeeLevel>,
    links: map<int, set<int>>,
    authorizations: map<int, AuthorizationRow>,
    accreditations: map<Uuid, AccreditationRow>,
    derogations: map<int, DerogationRow>)

  const EMPLOYEE_NOT_FOUND := NotFound("Employee not found", "EMPLOYEE_NOT_FOUND")
  const LEVEL_NOT_FOUND := NotFound("Level not found", "EMPLOYEE_LEVEL_NOT_FOUND")
  const ACCREDITATION_NOT_FOUND := NotFound("Accreditation not found", "ACCREDITATION_NOT_FOUND")
  const DEROGATION_NOT_FOUND := NotFound("Derogation not found", "DEROGATION_NOT_FOUND")
  const ENTITY_TYPE_NOT_FOUND := NotFound("Entity type not found", "ENTITY_TYPE_NOT_FOUND")
  const CRUD_TYPE_NOT_FOUND := NotFound("CRUD type not found", "CRUD_TYPE_NOT_FOUND")
  /** What `?` makes of sqlx's error when `fetch_one` finds no row. */
  const ROW_NOT_FOUND := Database("no rows returned by a query that expected to return at least one row")

  /** The foreign keys of the schema: every level row is stored under its
      own id, and every grant row references rows that exist. */
  ghost predicate Consistent(t: Tables)
  {
    && (forall id :: id in t.levels ==> t.levels[id].id == id)
    && (forall k :: k in t.accreditations ==>
          && t.accreditations[k].recipient in t.employees
          && t.accreditations[k].levelId in t.levels
          && (t.accreditations[k].grantor.Some? ==> t.accreditations[k].grantor.value in t.employees))
    && (forall k :: k in t.derogations ==>
          && t.derogations[k].recipient in t.employees
          && t.derogations[k].grantor in t.employees
          && t.derogations[k].permission in t.authorizations)
  }

  /** `get_light_employee_by_id`. */
  function GetLightEmployee(t: Tables, id: Uuid): (r: Result<LightEmployee>)
    ensures r.Ok? <==> id in t.employees
    ensures r.Ok? ==> r.value == Light(id, t.employees[id])
    ensures r.Err? ==> r.error == EMPLOYEE_NOT_FOUND
  {
    if id in t.employees then Ok(Light(id, t.employees[id])) else Err(EMPLOYEE_NOT_FOUND)
  }

  /** `get_employee_level_by_id`. */
  function GetLevelById(t: Tables, id: int): (r: Result<EmployeeLevel>)
    ensures r.Ok? <==> id in t.levels
    ensures r.Ok? ==> r.value == t.levels[id]
    ensures r.Err? ==> r.error == LEVEL_NOT_FOUND
  {
    if id in t.levels then Ok(t.levels[id]) else Err(LEVEL_NOT_FOUND)
  }

  /** `get_employee_authorization_by_type_id`: a missing row surfaces as a
      database error; a row whose entity type or CRUD type does not parse
      is `NotFound`. */
  function GetAuthorizationByTypeId(t: Tables, typeId: int): (r: Result<EmployeeAuthorization>)
    ensures typeId !in t.authorizations ==> r == Err(ROW_NOT_FOUND)
    ensures r.Ok? <==>
      && typeId in t.authorizations
      && ParseEntityType(t.authorizations[typeId].entityType).Some?
      && t.authorizations[typeId].crudType.Some?
      && ParseCrudType(t.authorizations[typeId].crudType.value).Some?
    ensures r.Ok? ==> r.value.id == typeId
  {
    if typeId !in t.authorizations then Err(ROW_NOT_FOUND)
    else
      var row := t.authorizations[typeId];
      match ParseEntityType(row.entityType)
      case None => Err(ENTITY_TYPE_NOT_FOUND)
      case Some(entity) =>
        if row.crudType.None? then Err(CRUD_TYPE_NOT_FOUND)
        else
          match ParseCrudType(row.crudType.value)
          case None => Err(CRUD_TYPE_NOT_FOUND)
          case Some(crud) =>
            Ok(EmployeeAuthorization(typeId, row.featureCode, row.authorizationIndex, crud,
                                     row.description, row.categoryNameCode, entity, row.categoryIndex))
  }

  /** `get_employee_accreditation_by_id`: the row with its recipient, level
      and grantor resolved. */
  function GetAccreditationById(t: Tables, id: Uuid): (r: Result<EmployeeAccreditation>)
    ensures id !in t.accreditations ==> r == Err(ACCREDITATION_NOT_FOUND)
    ensures Consistent(t) && id in t.accreditations ==> r.Ok?
    ensures r.Ok? ==> id in t.accreditations && r.value.id == id
    ensures r.Ok? ==> t.accreditations[id].levelId in t.levels
    ensures r.Ok? ==> r.value.level == t.levels[t.accreditations[id].levelId]
    ensures r.Ok? ==> r.value.recipient.id == t.accreditations[id].recipient
    ensures r.Ok? ==> r.value.startAt == t.accreditations[id].startAt && r.value.endAt == t.accreditations[id].endAt
    ensures r.Ok? ==> r.value.createdAt == t.accreditations[id].createdAt
    ensures r.Ok? ==> (r.value.grantor.Some? <==> t.accreditations[id].grantor.Some?)
    ensures r.Ok? && r.value.grantor.Some? ==> r.value.grantor.value.id == t.accreditations[id].grantor.value
  {
    if id !in t.accreditations then Err(ACCREDITATION_NOT_FOUND)
    else
      var row := t.accreditations[id];
      match GetLightEmployee(t, row.recipient)
      case Err(e) => Err(e)
      case Ok(recipient) =>
        match GetLevelById(t, row.levelId)
        case Err(e) => Err(e)
        case Ok(level) =>
          match row.grantor
          case None => Ok(EmployeeAccreditation(id, recipient, level, None, row.startAt, row.endAt, row.createdAt))
          case Some(g) =>
            match GetLightEmployee(t, g)
            case Err(e) => Err(e)
            case Ok(grantor) =>
              Ok(EmployeeAccreditation(id, recipient, level, Some(grantor), row.startAt, row.endAt, row.createdAt))
  }

  /** `get_employee_derogation_by_id`: the row with its recipient,
      authorization and grantor resolved. */
  function GetDerogationById(t: Tables, id: int): (r: Result<EmployeeDerogation>)
    ensures id !in t.derogations ==> r == Err(DEROGATION_NOT_FOUND)
    ensures r.Ok? ==> id in t.derogations && r.value.id == id
    ensures r.Ok? ==> r.value.authorization.id == t.derogations[id].permission
    ensures Consistent(t) && id in t.derogations ==>
      (r.Ok? <==> GetAuthorizationByTypeId(t, t.derogations[id].permission).Ok?)
  {
    if id !in t.derogations then Err(DEROGATION_NOT_FOUND)
    else
      var row := t.derogations[id];
      match GetLightEmployee(t, row.recipient)
      case Err(e) => Err(e)
      case Ok(recipient) =>
        match GetAuthorizationByTypeId(t, row.permission)
        case Err(e) => Err(e)
        case Ok(authorization) =>
          match GetLightEmployee(t, row.grantor)
          case Err(e) => Err(e)
          case Ok(grantor) =>
            Ok(EmployeeDerogation(id, recipient, authorization, grantor, row.reason,
                                  row.startAt, row.endAt, row.createdAt))
  }

  /** The database: the tables, and the next keys its sequences hand out
      (the accreditation key is a generated UUID, the derogation key a
      serial). */
  class Database {
    var employees: map<Uuid, Employee>
    var levels: map<int, EmployeeLevel>
    var links: map<int, set<int>>
    var authorizations: map<int, AuthorizationRow>
    var accreditations: map<Uuid, AccreditationRow>
    var derogations: map<int, DerogationRow>
    var nextAccreditationId: Uuid
    var nextDerogationId: int

    function T(): (t: Tables)
      reads this
    {
      Tables(employees, levels, links, authorizations, accreditations, derogations)
    }

    ghost predicate Valid()
      reads this
    {
      && Consistent(T())
      && (forall k :: k in accreditations ==> k < nextAccreditationId)
      && (forall k :: k in derogations ==> k < nextDerogationId)
    }

    constructor (t: Tables, nextAccreditationId: Uuid, nextDerogationId: int)
      requires Consistent(t)
      requires forall k :: k in t.accreditations ==> k < nextAccreditationId
      requires forall k :: k in t.derogations ==> k < nextDerogationId
      ensures Valid() && T() == t
      ensures this.nextAccreditationId == nextAccreditationId
      ensures this.nextDerogationId == nextDerogationId
    {
      employees, levels, links := t.employees, t.levels, t.links;
      authorizations, accreditations, derogations := t.authorizations, t.accreditations, t.derogations;
      this.nextAccreditationId := nextAccreditationId;
      this.nextDerogationId := nextDerogationId;
    }
  }
}
