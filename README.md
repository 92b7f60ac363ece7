# Plannify admin API — time-bounded permissions and delegation, in Dafny

This project models the core of the Plannify administration API. The API is a Rust
web service behind a truck-driver planning application. At its centre sits a
permission engine:

- An employee holds a **level** during an **accreditation** window `[start_at, end_at)`.
  The window is open-ended when `end_at` is absent.
- An employee may also hold single extra permissions through **derogations** over
  `[start_at, end_at)`.
- The permissions in effect at an instant are the union of the permissions of the
  levels active then and of the derogations active then.
- That list is cached per employee for 24 hours and embedded in the access token at
  login and at token refresh.
- Accreditations are assigned, updated and deleted, and derogations created and
  deleted, through chains of guards. The guards cover dates, seniority, overlapping
  windows and ownership of the permission. Each chain ends in one write.

Around this core the project also models:

- the route permission check;
- the catalog enumerations and their parsers;
- pagination and the token-expiry arithmetic;
- the error-to-HTTP mapping;
- the drivers' name normalisation, create/update/deactivate/reactivate operations and
  list-filter builder;
- the workday filters and creation.

The layout follows the source:

| file | module | source |
|---|---|---|
| `wrappers.dfy` | `Wrappers` | `Option`, instants (integer seconds) and ids (naturals) |
| `app_error.dfy` | `AppErrors` | `src/errors/app_error.rs` |
| `paginate.dfy` | `Paginate` | `src/models/paginate.rs` |
| `jwt.dfy` | `Jwt` | `src/models/jwt.rs` |
| `text.dfy` | `Text` | decimal formatting, `join`, ASCII case mapping |
| `employee_models.dfy` | `EmployeeModels` | `src/employee/models.rs` |
| `permission_guard.dfy` | `PermissionGuard` | `src/middleware/permissions.rs` |
| `store.dfy` | `Store` | the employee-side tables and their single-row lookups |
| `grant_rules.dfy` | `GrantRules` | date, seniority, activity and overlap rules of `src/employee/services.rs` |
| `auth_service.dfy` | `AuthServices` | `src/auth/services.rs` |
| `employee_service.dfy` | `EmployeeServices` | accreditation and derogation operations of `src/employee/services.rs` |
| `sql_filter.dfy` | `SqlFilter` | the numbered-placeholder WHERE builder shared by the list endpoints |
| `employee_filter.dfy` | `EmployeeFilter` | `get_all_employees` |
| `title_case.dfy` | `TitleCase` | `to_title_case` in `src/driver/services.rs` |
| `driver_service.dfy` | `DriverServices` | the driver operations of `src/driver/services.rs` |
| `driver_filter.dfy` | `DriverFilter` | `get_all_drivers` |
| `workday_service.dfy` | `WorkdayServices` | `src/workday/services.rs` |

The model has two kinds of member:

- **Stateful services are classes.**
  - `Store.Database` holds the relational tables as maps, plus counters standing in for
    generated keys.
  - `AuthServices.AuthService` holds the permission cache as a map from employee to
    entry and expiry instant.
  - `EmployeeServices.EmployeeService`, `DriverServices.DriverService` and
    `WorkdayServices.WorkdayService` work on those tables through methods with
    `modifies` clauses.
- **Each service method is proved against a pure outcome function** such as
  `AssignOutcome`, `ResolvePermissions` or `CreateDriverOutcome`. The properties the
  API promises are lemmas about those functions.

The clock (`Utc::now()` in Rust, `NOW()` in SQL) is an integer parameter `now`.

The level-lookup query takes "the first" active row with no ordering. The model
therefore returns *some* active level (`GrantRules.LevelAnswer`). `CurrentLevelUnique`
shows the answer is unique whenever the no-overlap invariant holds.

### Modelling decisions

- **Cache write failure.** A failure to write the permission cache makes the call
  return `Internal` (`src/auth/services.rs:183-184`).
- **Missing authorization type.** A missing authorization type in
  `get_employee_authorization_by_type_id` surfaces as a `Database` error (HTTP 500),
  because it is propagated with `?` (`src/employee/services.rs:344-371`).
- **Current level.** The current level is any active one; there is no tie-break.
- **Administrator exemption.** The exemption tests `level_index == 1`.
- **Error datatype drift.** `Forbidden` carries a code, as the services call it with
  two arguments, although `src/errors/app_error.rs:27` declares one. The response body
  of `Forbidden` still shows only the message.
- **Workday `NotFound`.** `create_workday` builds `NotFound` with a single argument;
  the model gives it the empty code.
- **Touching windows.** The overlap test uses closed comparisons, so an accreditation
  ending exactly when the requested one starts counts as overlapping
  (`GrantRules.TouchingWindowsConflict`, `EmployeeServices.AssignBackToBackConflicts`).
- **Page arithmetic.** `(page - 1) * limit` is computed on `u32` as a release build
  does, wrapping modulo 2^32 (`Paginate.Offset`); the handlers' bounds do not keep the
  product within 32 bits.
- **Refresh-token decoding.** Decoding uses the library's default validation, which
  refuses a token more than 60 s past its `exp`; between `exp` and `exp + 60` the
  service's own check answers "Refresh token expiré".
- **Missing driver flags.** `create_driver` binds the optional `is_searchable` and
  `allow_request_professional_agreement` flags directly into non-optional columns. An
  absent flag therefore makes the insert fail with a `Database` error.

## Model

| member | source | states |
|---|---|---|
| AppErrors.StatusAndMessage | src/errors/app_error.rs:41-51 | every error maps to 400, 403, 404, 409 or 500; a `Database` error's message is only "Database error", whatever its detail; `InsufficientPermissions` says "Insufficient permissions" |
| AppErrors.IntoResponse | src/errors/app_error.rs:41-84 | 409 iff `Conflict`, 404 iff `NotFound`, 403 iff `Forbidden`/`InsufficientPermissions`, 400 iff `Validation`/`BadRequest`/`Serialization`, 500 iff `Database`/`Internal`; the body's status equals the response status; `error_code` present exactly for `Conflict`, `NotFound`, `InsufficientPermissions`; `Conflict`/`NotFound` bodies carry their message and code; only `InsufficientPermissions` lists required permissions; a `Database` body says only "Database error" |
| AppErrors.DatabaseDetailNotExposed | src/errors/app_error.rs:42 | two database errors with different details produce identical responses |
| AppErrors.FromAnyhow | src/errors/app_error.rs:88-92 | any foreign error becomes `Internal`, answered with 500 |
| Paginate.CheckPagination | src/employee/handlers/accreditation_handlers.rs:15-20 | accepted iff page ≥ 1 and 1 ≤ limit ≤ `PAGINATE_MAX_LIMIT` (100); accepted queries pass unchanged; rejections are `Validation` |
| Paginate.DefaultQuery | src/models/paginate.rs:30-37 | the default query uses the default page and limit and passes the handlers' bounds |
| Paginate.DefaultPage | src/models/paginate.rs:16 | the default page is at least 1 |
| Paginate.DefaultLimit | src/models/paginate.rs:17 | the default limit lies within the handlers' bounds 1..100 |
| Paginate.LargePageWrapsAround | src/employee/services.rs:41 | page 42 949 674 with limit 100 passes the handlers' bounds, and its offset wraps around to 4 |
| Paginate.Offset | src/employee/services.rs:41 | `(page - 1) * limit` on `u32` as a release build computes it: for page ≥ 1 the product modulo 2^32, which is the product itself whenever it fits 32 bits |
| Paginate.ConsecutivePagesAdjacent | src/workday/services.rs:39 | while the offsets fit `u32`, page p + 1 starts exactly `limit` rows after page p: no row is skipped or repeated |
| Paginate.FirstPageStartsAtZero | src/workday/services.rs:39 | page 1 starts at offset 0 for every limit |
| Jwt.NewClaims | src/models/jwt.rs:42-53 | `iat` is the issue instant, `exp = iat + hours * 3600`; subject, e-mail, names and permissions are copied unchanged |
| Jwt.ValidWindow | src/models/jwt.rs:56-59 | a new claim is unexpired at `now` iff `now ≤ iat + hours * 3600` (still valid at `now == exp`) |
| Jwt.NotExpiredAtIssue | src/models/jwt.rs:42-59 | a claim made with a non-negative duration is not expired at its issue instant |
| Jwt.IsExpired | src/models/jwt.rs:56-59 | expired exactly when `now` is past `exp` (see `Jwt.ValidWindow`) |
| PermissionGuard.HasAll | src/middleware/permissions.rs:25-27 | true iff every required id is among the held ids |
| PermissionGuard.HasAllIsInclusion | src/middleware/permissions.rs:25-27 | the index-wise check holds iff every element of the requirement is an element of the held list, in both directions |
| PermissionGuard.RequirePermissions | src/middleware/permissions.rs:13-36 | no auth state: rejected with `Validation("Authentification requise")` before any check; the next handler runs iff every required id is held; every rejection is `Validation`, and a caller lacking a permission is told `Permissions insuffisantes. Permissions requises: <required>, Permissions actuelles: <held>` with both lists in `{:?}` form |
| PermissionGuard.DebugList | src/middleware/permissions.rs:30-33 | the `{:?}` rendering of an id list is bracketed, is `[]` exactly for the empty list, and shows a single id as `[<id>]` |
| PermissionGuard.InsufficientMessage | src/middleware/permissions.rs:30-33 | the rejection text starts with `Permissions insuffisantes. Permissions requises: ` followed by the bracketed required list, and ends with the bracketed held list |
| PermissionGuard.InsufficientMessageExample | src/middleware/permissions.rs:29-33 | required `[1, 2]` with `[1]` held is rejected with exactly `Permissions insuffisantes. Permissions requises: [1, 2], Permissions actuelles: [1]` |
| PermissionGuard.EmptyRequirementPasses | src/middleware/permissions.rs:25-27 | an empty requirement admits every authenticated caller |
| PermissionGuard.DecisionIgnoresOrderAndDuplicates | src/middleware/permissions.rs:25-27 | two requirement lists with the same elements get the same decision |
| PermissionGuard.MorePermissionsStillPass | src/middleware/permissions.rs:25-27 | a caller holding a superset of an admitted caller's permissions is admitted too |
| EmployeeModels.ParseEntityType | src/employee/models.rs:124-133 | accepts exactly `"DRIVER"` and `"EMPLOYEE"`, case-sensitively; every other string is an error |
| EmployeeModels.ParseCrudType | src/employee/models.rs:143-154 | accepts exactly `"C"`, `"R"`, `"U"`, `"D"`, each naming its variant; every other string is an error |
| EmployeeModels.EntityTypeRoundTrip | src/employee/models.rs:124-133 | parsing a variant's own name gives back that variant |
| EmployeeModels.CrudTypeRoundTrip | src/employee/models.rs:143-154 | parsing a variant's own name gives back that variant |
| EmployeeModels.ParseEntityTypeInjective | src/employee/models.rs:126-132 | two accepted strings that parse to the same variant are equal |
| EmployeeModels.ParseCrudTypeInjective | src/employee/models.rs:145-153 | two accepted strings that parse to the same variant are equal |
| EmployeeModels.DefaultEmployeesQuery | src/employee/models.rs:62-77 | page 1, limit 20, every filter absent, sort `"asc"`; the query passes the pagination bounds |
| Store.GetLightEmployee | src/employee/services.rs:221-232 | found iff the employee exists, then its light projection; otherwise `EMPLOYEE_NOT_FOUND` |
| Store.GetLevelById | src/employee/services.rs:446-465 | found iff the level exists, then that level; otherwise `EMPLOYEE_LEVEL_NOT_FOUND` |
| Store.GetAuthorizationByTypeId | src/employee/services.rs:344-371 | a missing type is a `Database` error; found iff the catalog row, its category and both enumerations resolve, and the result carries the requested id |
| Store.GetAccreditationById | src/employee/services.rs:709-741 | a missing row is `ACCREDITATION_NOT_FOUND`; in a consistent store an existing row always resolves, with its id, its recipient, its level, its window, its creation instant and its grantor (present exactly when the row has one) |
| Store.GetDerogationById | src/employee/services.rs:999-1035 | a missing row is `DEROGATION_NOT_FOUND`; a resolved derogation carries its id and its permission's type id |
| Store.Database.constructor | src/employee/services.rs:35-38 | a database over consistent tables whose key counters exceed every existing key |
| GrantRules.CheckDates | src/employee/services.rs:656-662 | accepted iff `start_at ≥ now − 300 s` and any `end_at` is strictly after `start_at`; the start check comes first; every refusal is `Validation` |
| GrantRules.MayAssignLevel | src/employee/services.rs:664-673 | the authority rule of assign and update: the target index must be below the grantor's unless the grantor's index is 1 (see `AssignForbiddenExactly`) |
| GrantRules.MayDeleteAccreditation | src/employee/services.rs:808-816 | delete needs a requester index strictly below the accreditation's, with no exemption (see `DeleteForbiddenExactly`) |
| GrantRules.InWindow | src/employee/services.rs:580-582 | the closed overlap test: the row starts no later than the window's end (if any) and ends no earlier than its start (or never) |
| GrantRules.AccreditationsInWindow | src/employee/services.rs:570-590 | the recipient's accreditations the overlap query returns (see `AssignConflictExactly`, `UpdateConflictExactly`) |
| GrantRules.InWindowSymmetric | src/employee/services.rs:580-582 | the overlap test is symmetric between an existing row and a requested window |
| GrantRules.TouchingWindowsConflict | src/employee/services.rs:580-582 | a window starting exactly where an existing one ends overlaps it, although the two are never active at the same instant |
| GrantRules.ActiveTogetherConflict | src/employee/services.rs:580-582 | two accreditations active at the same instant always overlap |
| GrantRules.SomeLevelAnswer | src/employee/services.rs:409-431 | a lookup answer always exists: some active level, or `NotFound` when none is active |
| GrantRules.CurrentLevelIsActive | src/employee/services.rs:412-428 | every candidate current level belongs to an accreditation of the employee active at `now` that names it |
| GrantRules.CurrentLevelUnique | src/employee/services.rs:409-431 | under the no-overlap invariant at most one level is current |
| GrantRules.LevelAnswerDeterministic | src/employee/services.rs:409-431 | under the no-overlap invariant the level lookup has a single possible answer |
| AuthServices.Minimum | src/auth/services.rs:172 | every non-empty set of ids has a least element |
| AuthServices.SortedIds | src/auth/services.rs:164-172 | the `UNION … ORDER BY` result: strictly ascending and holding exactly the set's elements |
| AuthServices.EffectivePermissions | src/auth/services.rs:153-172 | the union of the permissions of the levels and of the derogations active at `now` (see `NoActiveGrantNoPermission`, `DerogationContribution`) |
| AuthServices.ResolvePermissions | src/auth/services.rs:136-187 | only the employee's own entry may change, and only by being set to the returned list with a 24-hour expiry; every failure is `Internal` and leaves the cache as it was |
| AuthServices.CacheHitReturnsCachedList | src/auth/services.rs:141-146 | a live entry that parses as an id list is returned unchanged, whatever the tables say, and the cache is untouched |
| AuthServices.CacheMissRecomputes | src/auth/services.rs:143-185 | a missing, expired or unparseable entry is recomputed: the result is strictly ascending, holds exactly the effective permissions, and is cached for 86 400 s; a failed write gives `Internal` and leaves the cache as it was |
| AuthServices.ResolutionStableUntilExpiry | src/auth/services.rs:136-187 | until the entry expires, a later resolution returns the same list even if the grants changed |
| AuthServices.NoActiveGrantNoPermission | src/auth/services.rs:153-170 | with no accreditation or derogation active at `now` the effective set is empty |
| AuthServices.DerogationContribution | src/auth/services.rs:164-170 | adding a derogation adds exactly its permission to the recipient's effective set when active at `now`, and nothing otherwise |
| AuthServices.AuthService.GetEmployeePermissions | src/auth/services.rs:136-187 | the returned list and the new cache are those of the resolution function |
| AuthServices.AccessClaims | src/auth/services.rs:189-205 | the access claims carry the employee's id, professional e-mail, names and exactly the given permissions, are issued at `now`, expire `lifetime` seconds later and are unexpired when issued |
| AuthServices.AuthService.Login | src/auth/services.rs:42-87 | unknown or deactivated e-mail and wrong password both give `Validation`; an unreadable hash gives `Internal`; an active matching employee with the right password and a writable cache always gets claims, and the only failure left on that path is the cache write; on success the claims embed exactly the resolved list, belong to an active matching employee, expire the service's access-token lifetime after `now`, and the login instant is recorded; a failure changes no employee |
| AuthServices.AuthService.RefreshToken | src/auth/services.rs:89-134 | a token that does not decode, or is more than 60 s past its `exp`, gives "Refresh token invalide"; one past `exp` within those 60 s gives "Refresh token expiré"; a missing or deactivated employee gives `Validation`; every failure before the resolution leaves the cache; otherwise the new claims embed exactly the freshly resolved list |
| EmployeeServices.AssignOutcome | src/employee/services.rs:653-707 | a success passed the date, entity, authority and overlap guards, and returns the new id, recipient, level, grantor and window |
| EmployeeServices.UpdateOutcome | src/employee/services.rs:743-798 | a success passed the date, level and authority guards, the accreditation exists, no other accreditation of its recipient is in the window, and the result is that accreditation with the new level and the requested window, its creation instant unchanged |
| EmployeeServices.DeleteAccreditationOutcome | src/employee/services.rs:800-823 | a missing row is `ACCREDITATION_NOT_FOUND`; a success means the requester's level is known and strictly more senior than the accreditation's |
| EmployeeServices.CreateDerogationOutcome | src/employee/services.rs:1037-1090 | only the recipient's and the grantor's cache entries may change, none is dropped, and nothing changes when the cache cannot be written; a success passed the date guard and returns the new id, the recipient, the grantor, the reason and the window |
| EmployeeServices.DeleteDerogationOutcome | src/employee/services.rs:1092-1107 | only the requester's cache entry may change, none is dropped, and nothing changes when the cache cannot be written; a missing derogation is never deleted |
| EmployeeServices.DateGuardsComeFirst | src/employee/services.rs:656-662 | in assign, update and create-derogation, the result is `Validation` iff the start is over 5 minutes past or the end is not after the start (also 744-750, 1038-1044) |
| EmployeeServices.AssignForbiddenExactly | src/employee/services.rs:664-673 | past the date and entity checks, assign is `Forbidden` iff target level_index ≥ grantor level_index and the grantor's index is not 1 |
| EmployeeServices.UpdateForbiddenExactly | src/employee/services.rs:752-758 | the same authority rule for update |
| EmployeeServices.AssignConflictExactly | src/employee/services.rs:675-678 | past authority, assign is `Conflict` iff some accreditation of the recipient starts no later than the requested end (any start if open-ended) and ends no earlier than the requested start (or never); otherwise it succeeds |
| EmployeeServices.UpdateConflictExactly | src/employee/services.rs:760-766 | past authority, update of an existing accreditation is `Conflict` iff another accreditation of the same recipient is in the requested window (the updated one is ignored); otherwise it succeeds |
| EmployeeServices.AssignBackToBackConflicts | src/employee/services.rs:580-582 | a request starting exactly when an existing accreditation ends is refused with `Conflict` |
| EmployeeServices.AssignPreservesNoOverlap | src/employee/services.rs:653-707 | inserting the row of a successful assign keeps the no-overlap invariant |
| EmployeeServices.UpdateOverOwnWindowSucceeds | src/employee/services.rs:762-766 | re-saving an accreditation over its own window does not conflict with itself |
| EmployeeServices.UpdatePreservesNoOverlap | src/employee/services.rs:743-798 | a successful update keeps the no-overlap invariant |
| EmployeeServices.DeleteForbiddenExactly | src/employee/services.rs:800-823 | deleting an existing accreditation is `Forbidden` iff requester level_index ≥ the accreditation's level_index, and succeeds otherwise |
| EmployeeServices.DeletePreservesNoOverlap | src/employee/services.rs:808-816 | removing a row never creates an overlap |
| EmployeeServices.DerogationConflictPrecedesForbidden | src/employee/services.rs:1049-1078 | a recipient already holding the permission gives `Conflict` whatever the grantor holds; `Forbidden` means neither recipient nor grantor holds it |
| EmployeeServices.DerogationConflictOnFreshResolution | src/employee/services.rs:1049-1052 | on a cache miss, `Conflict` iff the permission is in the recipient's effective set at `now` |
| EmployeeServices.DerogationForbiddenExactly | src/employee/services.rs:1037-1090 | once the earlier guards pass, a grantor whose resolved list lacks the permission gets `Forbidden`, and one whose list holds it succeeds, in both directions |
| EmployeeServices.DerogationSuccessNeedsOwnership | src/employee/services.rs:1037-1090 | a successful create means the recipient lacked the permission, the grantor held it, and both employees and the permission exist |
| EmployeeServices.DeleteDerogationNeedsOwnership | src/employee/services.rs:1092-1107 | deleting a resolvable derogation succeeds iff the requester's resolved list holds its permission; otherwise `Forbidden` |
| EmployeeServices.EmployeeService.GetCurrentEmployeeLevel | src/employee/services.rs:409-431 | the answer is a level of an accreditation active at `now`, or `NotFound` when none is active |
| EmployeeServices.EmployeeService.AssignAccreditation | src/employee/services.rs:653-707 | the result is the assign outcome; on success exactly the new row is inserted; on failure nothing changes; no-overlap is preserved |
| EmployeeServices.EmployeeService.UpdateAccreditation | src/employee/services.rs:743-798 | the result is the update outcome; on success only that row changes (level and window); on failure nothing changes; no-overlap is preserved |
| EmployeeServices.EmployeeService.DeleteAccreditation | src/employee/services.rs:800-823 | the result is the delete outcome; on success exactly that row is removed and nothing else; on failure nothing changes |
| EmployeeServices.EmployeeService.CreateEmployeeDerogation | src/employee/services.rs:1037-1090 | the result and cache are the create outcome; on success exactly the new row is inserted; on failure no row is inserted |
| EmployeeServices.EmployeeService.DeleteEmployeeDerogation | src/employee/services.rs:1092-1107 | the result and cache are the delete outcome; on success exactly that row is removed; on failure nothing is removed |
| SqlFilter.WhereClause | src/employee/services.rs:89-95 | no conditions give an empty clause; otherwise it starts with `WHERE ` |
| SqlFilter.ComparisonsAppend | src/employee/services.rs:44-95 | appending a condition extends the placeholder-consuming subsequence by it exactly when it is a comparison |
| SqlFilter.PushComparison | src/employee/services.rs:47-50 | a comparison numbered one past the values bound so far, for the next value's column, keeps placeholders and values aligned |
| SqlFilter.PushFixed | src/employee/services.rs:57-59 | a fixed clause keeps placeholders and values aligned without consuming a number |
| SqlFilter.PushFixedKeepsOperators | src/employee/services.rs:57-59 | a fixed clause keeps every comparison's operator rule |
| SqlFilter.PushIfPresent | src/employee/services.rs:47-55 | an optional filter adds one comparison `$n+1` and one value when present, nothing when absent, keeps the alignment, and keeps `ILIKE` on pattern columns and `=` elsewhere |
| SqlFilter.OrderDirection | src/employee/services.rs:140-144 | `DESC` iff the lower-cased sort order is `"desc"`, otherwise `ASC` |
| SqlFilter.DefaultSortIsAscending | src/models/paginate.rs:18 | the default sort order lists rows in ascending creation order |
| SqlFilter.SelectQuery | src/employee/services.rs:146-153 | the paged SELECT: the WHERE clause, `ORDER BY created_at` with the direction, then `LIMIT $n+1 OFFSET $n+2` (see `GetAllEmployeesQueries`) |
| SqlFilter.CountQuery | src/employee/services.rs:97-101 | the COUNT over the same WHERE clause (see `GetAllEmployeesQueries`) |
| EmployeeFilter.PushFieldFilters | src/employee/services.rs:47-79 | the field filters in field order: placeholders `$1..$n` aligned with their values, `ILIKE` on names, e-mails and phone, `=` on gender; gender `"none"` puts `gender IS NULL` right after the name filters without consuming a number |
| EmployeeFilter.BuildEmployeeConditions | src/employee/services.rs:44-87 | the field filters as above, followed by exactly the `deactivated_at IS NOT NULL` / `IS NULL` clause when `deactivated` is given, and nothing else |
| EmployeeFilter.EmployeeCountBinds | src/employee/services.rs:103-136 | the count query binds exactly the filter values, in order |
| EmployeeFilter.EmployeeSelectBinds | src/employee/services.rs:156-192 | the select binds the filter values, then the limit and the offset |
| EmployeeFilter.GetAllEmployeesQueries | src/employee/services.rs:40-192 | both queries share the WHERE clause of the conditions above; the count binds exactly the filter values; the select ends `LIMIT $n+1 OFFSET $n+2` and binds the filter values, then the limit and the wrapped `u32` offset |
| EmployeeFilter.DefaultListingIsUnfiltered | src/employee/models.rs:62-77 | the default query binds no filter value |
| TitleCase.TrimStart | src/driver/services.rs:246 | removes exactly the leading whitespace |
| TitleCase.TrimEnd | src/driver/services.rs:246 | removes exactly the trailing whitespace |
| TitleCase.Split | src/driver/services.rs:247 | at least one piece, and no piece contains whitespace or `-` |
| TitleCase.ToTitleCase | src/driver/services.rs:245-259 | trim, split on whitespace and `-`, capitalise each piece, join with `-` (see `TitleCaseByCharacter`, `TitleCaseIdempotent`) |
| TitleCase.TitleCaseByCharacter | src/driver/services.rs:245-259 | the split/capitalise/join result equals the character-by-character reference: after a separator upper-case, elsewhere lower-case, every separator becomes `-` |
| TitleCase.TitleCharsAt | src/driver/services.rs:248-256 | the reference definition, character by character |
| TitleCase.SplitMapJoin | src/driver/services.rs:247-258 | capitalising the pieces and joining them with `-` equals the reference definition |
| TitleCase.TitleCaseLength | src/driver/services.rs:245-259 | the output is exactly as long as the trimmed input |
| TitleCase.TitleCharsHasNoWhitespace | src/driver/services.rs:245-259 | the output contains no whitespace |
| TitleCase.TitleCaseIdempotent | src/driver/services.rs:245-259 | title-casing a title-cased name changes nothing |
| TitleCase.DoubleBlankGivesEmptyPiece | src/driver/services.rs:245-259 | empty pieces stay empty: `"a  b"` becomes `"A--B"` |
| DriverServices.DriverById | src/driver/services.rs:229-243 | found iff the driver exists, then that row; otherwise `DRIVER_NOT_FOUND` |
| DriverServices.NewDriverRow | src/driver/services.rs:277-297 | the insert succeeds iff both flags are present; otherwise a `Database` error |
| DriverServices.NewDriverRowNormalised | src/driver/services.rs:284-287 | the stored row has title-cased names, the lower-cased e-mail, no deactivation and no last login |
| DriverServices.CreateDriverAsWritten | src/driver/services.rs:263-266 | a created driver's raw e-mail was not stored, and the row stores it lower-cased |
| DriverServices.CreateDriverOutcome | src/driver/services.rs:262-300 | the corrected create: a success means no stored driver has the lower-cased address, and the stored address is lower-cased |
| DriverServices.RawEmailCheckAdmitsDuplicate | src/driver/services.rs:262-300 | with `ann@fleet.io` stored, `Ann@fleet.io` passes the raw check and a second row with `ann@fleet.io` is created |
| DriverServices.CreateConflictExactly | src/driver/services.rs:263-266 | with the lower-cased check, `Conflict` iff a stored driver has the lower-cased address |
| DriverServices.LoweredEmailCheckRejectsCaseVariant | src/driver/services.rs:263-266 | the corrected check refuses `Ann@fleet.io` when `ann@fleet.io` is stored |
| DriverServices.CreatePreservesUniqueEmails | src/driver/services.rs:262-300 | a successful corrected create keeps stored e-mails unique |
| DriverServices.ApplyUpdate | src/driver/services.rs:303-373 | each present field is written (names title-cased, e-mail lower-cased, the rest as given); every absent field is unchanged, and so are creation, last-login and deactivation stamps |
| DriverServices.UpdateIdempotent | src/driver/services.rs:303-373 | applying the same update twice equals applying it once |
| DriverServices.UpdateKeepsNormalised | src/driver/services.rs:305-327 | an update keeps names title-cased and the e-mail lower-cased |
| DriverServices.Deactivate | src/driver/services.rs:376-394 | succeeds iff the driver exists and is not deactivated; otherwise `DRIVER_NOT_FOUND` or `DRIVER_ALREADY_DEACTIVATED` |
| DriverServices.Reactivate | src/driver/services.rs:396-414 | succeeds iff the driver exists and is deactivated; otherwise `DRIVER_NOT_FOUND` or `DRIVER_NOT_DEACTIVATED` |
| DriverServices.DeactivateChangesOnlyStamp | src/driver/services.rs:382-387 | deactivation sets that driver's `deactivated_at` to `now` and changes nothing else |
| DriverServices.DeactivateThenReactivate | src/driver/services.rs:376-414 | reactivating right after a deactivation restores the table exactly |
| DriverServices.DeactivateTwiceFails | src/driver/services.rs:376-394 | a second deactivation fails with `DRIVER_ALREADY_DEACTIVATED` |
| DriverServices.DriverService.GetDriverById | src/driver/services.rs:229-243 | found iff the driver exists, then that row; otherwise `DRIVER_NOT_FOUND` |
| DriverServices.DriverService.EmailExists | src/driver/services.rs:417-426 | true iff some stored driver has exactly that e-mail |
| DriverServices.DriverService.CreateDriver | src/driver/services.rs:262-300 | the result is the corrected create outcome; on success exactly one new row is stored under a fresh id and the id counter advances by one; on failure neither the rows nor the counter change |
| DriverServices.DriverService.UpdateDriver | src/driver/services.rs:303-373 | an existing driver's row becomes the field-by-field update and nothing else changes; the result is the re-read row or `DRIVER_NOT_FOUND` |
| DriverServices.DriverService.DeactivateDriver | src/driver/services.rs:376-394 | the result and the new table are those of `Deactivate` |
| DriverServices.DriverService.ReactivateDriver | src/driver/services.rs:396-414 | the result and the new table are those of `Reactivate` |
| DriverFilter.DefaultDriversQuery | src/driver/models.rs:123-143 | page 1, limit 20, sort `"asc"`, no value bound and no fixed clause |
| DriverFilter.PushFlag | src/driver/services.rs:74-96 | a present flag adds its fixed clause, an absent one nothing; alignment is kept |
| DriverFilter.PushLeadingFilters | src/driver/services.rs:25-39 | the id (`=`) and name (`ILIKE`) filters number their placeholders `$1..$k` aligned with their values, `k` being the number present |
| DriverFilter.PushGenderFilter | src/driver/services.rs:40-48 | after the id and name filters, gender `"none"` puts `gender IS NULL` in the next slot without a number; any other gender adds a numbered `=` comparison and its value |
| DriverFilter.PushContactFilters | src/driver/services.rs:49-57 | the e-mail and phone filters extend the conditions and the bound values in order with `ILIKE`, keeping alignment |
| DriverFilter.PushPreferenceFilters | src/driver/services.rs:59-72 | the two flag filters and the language filter extend the conditions and the bound values in order with `=`, keeping alignment |
| DriverFilter.PushFieldFilters | src/driver/services.rs:25-72 | the field filters in field order: placeholders `$1..$n` aligned with their values, `ILIKE` on names, e-mail and phone, `=` on id, gender, the two flags and language; gender `"none"` puts `gender IS NULL` right after the id and name filters without consuming a number |
| DriverFilter.BuildDriverConditions | src/driver/services.rs:21-104 | the field filters as above, followed by exactly the `rest_json`, `verified` and `deactivated` clauses of the present flags, in that order, without consuming numbers |
| DriverFilter.DriverCountBinds | src/driver/services.rs:112-155 | the count query binds exactly the filter values, in order |
| DriverFilter.DriverSelectBinds | src/driver/services.rs:175-223 | the select binds the filter values, then the limit and the offset |
| DriverFilter.GetAllDriversQueries | src/driver/services.rs:17-226 | both queries share the WHERE clause of the conditions above; the count binds exactly the filter values; the select ends `LIMIT $n+1 OFFSET $n+2` and binds the filter values, then the limit and the wrapped `u32` offset |
| WorkdayServices.DateLeTransitive | src/workday/services.rs:50 | the date order used by the period filter is transitive |
| WorkdayServices.DateClauseList | src/workday/services.rs:15-23 | one clause per present filter, month first, each naming its value |
| WorkdayServices.DateClauses | src/workday/services.rs:15-23 | the pushed clauses are exactly the month and year clauses, month first |
| WorkdayServices.WorkdaysWhereClause | src/workday/services.rs:15-26 | empty iff neither month nor year is given; otherwise `WHERE ` followed by the clauses joined with ` AND ` |
| WorkdayServices.DateClauseText | src/workday/services.rs:15-26 | the joined text for each of the three non-empty cases |
| WorkdayServices.MonthlyByDriverQuery | src/workday/services.rs:104-127 | the query always filters on the driver, appends the date clauses after ` AND `, and ends with `ORDER BY date DESC` |
| WorkdayServices.WorkdaysInPeriod | src/workday/services.rs:50-61 | the period filter selects rows from the table |
| WorkdayServices.PeriodIncludesBounds | src/workday/services.rs:50 | both bounds of the period are included |
| WorkdayServices.PeriodSplit | src/workday/services.rs:50 | two adjacent periods sharing a middle date together select the whole period |
| WorkdayServices.MonthYearIsPeriod | src/workday/services.rs:15-23 | a month and year filter selects the same dates as the period from day 1 to day 31 of that month |
| WorkdayServices.ListingBinds | src/workday/services.rs:37-39 | binds the limit, then the `u32` offset of the page |
| WorkdayServices.PeriodBinds | src/workday/services.rs:66-69 | binds both dates, then exactly the listing's limit and offset |
| WorkdayServices.ByDriverBinds | src/workday/services.rs:93-95 | binds the driver, then exactly the listing's limit and offset |
| WorkdayServices.CreateWorkdayOutcome | src/workday/services.rs:137-170 | succeeds iff the driver exists and no workday exists for that driver and date; the stored row is the request |
| WorkdayServices.CreateWorkdayPreservesConsistency | src/workday/services.rs:137-170 | a successful create keeps every workday attached to an existing driver under its own key |
| WorkdayServices.CreateWorkdayTwiceConflicts | src/workday/services.rs:151-167 | creating the same workday twice gives `Conflict` |
| WorkdayServices.WorkdayService.CreateWorkday | src/workday/services.rs:137-170 | the result is the create outcome; on success exactly that row is stored; otherwise nothing changes |

## Left out

- SQL execution and the connection pool: the tables are in-memory maps, and each list endpoint is modelled down to the SQL text and the bound values it produces, not the rows fetched.
- The list endpoints' per-row enrichment, which silently drops rows whose references fail to load: concurrent lookups, not modelled.
- Concurrency: each call is atomic and sequential, so the check-then-insert race between two assigns is out of scope; for the same reason the `rows_affected() == 0` paths of the deletes are unreachable and omitted.
- Redis connection errors on GET are treated like a cache miss; TTL eviction is modelled as an expiry instant on each entry.
- Password hashing (Argon2, bcrypt): the outcome of the comparison is a parameter (`PasswordCheck`); hashes are not stored in the model.
- JWT encoding, decoding and signatures: the refresh token's decoded claims are a parameter; only the expiry arithmetic is modelled. `src/auth/models.rs` is not part of this model.
- AuthServices.AuthService.Login: the access-token lifetime is an abstract number of seconds fixed when the service is built; the conversion from `access_token_duration_minutes` and the layout of the access claims belong to `src/auth/models.rs`, which is not part of this model, so the claims are assumed to follow `src/models/jwt.rs` (`iat` the issue instant, `exp` the expiry). The refresh token itself is not built.
- AuthServices.AuthService.RefreshToken: the refresh claims' `is_expired` is assumed to be `now > exp`, as in `src/models/jwt.rs`, since `src/auth/models.rs` is not part of this model.
- DriverServices.DriverService.CreateDriver: implements the corrected, lower-cased e-mail lookup (`CreateDriverOutcome`); the code as written looks up the raw address, which `CreateDriverAsWritten` models (see Findings).
- A database error on the current-level query is not modelled; the lookup answers a level or `NotFound`.
- The `ORDER BY` of the overlap-window query is not modelled: only the set of rows matters to the guards.
- Case mapping is ASCII-only: Rust's Unicode `to_uppercase`/`to_lowercase` can change a string's length, which the model does not capture.
- Dates are `(year, month, day)` triples with no calendar validity; workday times are seconds.
- `create_workday` refuses a second row for the same driver and date; the model assumes this is the unique key, and any other insert failure is not modelled.
- DriverServices.DriverService.UpdateDriver: writes the whole updated row at once, where the source issues one UPDATE per present field; a failure midway through those statements is not modelled.
- The check in the driver handler that an updated e-mail is not used by another driver (`email_exists_except_driver`) belongs to the handler and is not modelled.
- UUID parsing with `.expect`, the `validator` field constraints, routing, handlers, server bootstrap and CORS are library behaviour or wiring.
- The module tree does not register the route permission middleware under the name `permissions`; only its behaviour is modelled.
- Stale directories outside the module tree (`src/database`, `src/services`, `src/handlers`, `src/routes`) duplicate the services above and are not modelled.

## Findings

| source | as written | input that shows it | evidently intended | confidence | as-written member | corrected member |
|---|---|---|---|---|---|---|
| src/driver/services.rs:263-266 | `create_driver` looks the raw request e-mail up, but stores `email.to_lowercase()` (line 287) | stored driver `ann@fleet.io`, request e-mail `Ann@fleet.io`: the lookup finds nothing and a second row with `ann@fleet.io` is stored | look up the lower-cased address, so that stored e-mails stay unique | not executed; medium (a unique index on the column, if the schema has one, would turn the duplicate into a `Database` error instead) | DriverServices.CreateDriverAsWritten | DriverServices.CreateDriverOutcome |
