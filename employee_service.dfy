/** The accreditation and derogation operations of `EmployeeService`
    (`src/employee/services.rs`): each a chain of guards ending in a single
    write, specified by a pure outcome function over the tables. */
module EmployeeServices {
  import opened Wrappers
  import opened AppErrors
  import opened EmployeeModels
  import opened Store
  import opened GrantRules
  import opened AuthServices

  const HAS_ALREADY_AUTHORIZATION :=
    Conflict("The employee already has this authorization.", "HAS_ALREADY_AUTHORIZATION")
  const FORBIDDEN_ASSIGN_UNOWNED_AUTHORIZATION :=
    Forbidden("You can't assign a derogation authorization that you don't have.", "FORBIDDEN_ASSIGN_UNOWNED_AUTHORIZATION")
  const FORBIDDEN_DELETE_UNOWNED_AUTHORIZATION :=
    Forbidden("You can't delete a derogation that you don't have.", "FORBIDDEN_DELETE_UNOWNED_AUTHORIZATION")

  // ---------------------------------------------------------------------
  // Accreditations

  /** The row `assign_accreditation` inserts; `created_at` takes the
      database clock. */
  function AssignedRow(req: AssignAccreditationRequest, grantorId: Uuid, now: Instant): AccreditationRow
  {
    AccreditationRow(req.employeeId, req.levelId, Some(grantorId), req.startAt, req.endAt, now)
  }

  /** What `assign_accreditation` returns, given the answer the grantor's
      current-level lookup gives and the key the insert will generate. */
  function AssignOutcome(t: Tables, req: AssignAccreditationRequest, grantorId: Uuid, now: Instant,
                         grantorLevel: Result<EmployeeLevel>, newId: Uuid): (r: Result<EmployeeAccreditation>)
    ensures r.Ok? ==>
      && CheckDates(req.startAt, req.endAt, now).None?
      && req.employeeId in t.employees && req.levelId in t.levels && grantorId in t.employees
      && grantorLevel.Ok? && MayAssignLevel(t.levels[req.levelId].levelIndex, grantorLevel.value.levelIndex)
      && AccreditationsInWindow(t, req.employeeId, req.startAt, req.endAt) == {}
    ensures r.Ok? ==>
      && r.value.id == newId && r.value.recipient.id == req.employeeId && r.value.level == t.levels[req.levelId]
      && r.value.grantor.Some? && r.value.grantor.value.id == grantorId
      && r.value.startAt == req.startAt && r.value.endAt == req.endAt
  {
    if CheckDates(req.startAt, req.endAt, now).Some? then Err(CheckDates(req.startAt, req.endAt, now).value)
    else if req.employeeId !in t.employees then Err(EMPLOYEE_NOT_FOUND)
    else if req.levelId !in t.levels then Err(LEVEL_NOT_FOUND)
    else if grantorId !in t.employees then Err(EMPLOYEE_NOT_FOUND)
    else if grantorLevel.Err? then Err(grantorLevel.error)
    else if !MayAssignLevel(t.levels[req.levelId].levelIndex, grantorLevel.value.levelIndex) then
      Err(FORBIDDEN_ASSIGN_HIGHER_LEVEL)
    else if exists k :: k in AccreditationsInWindow(t, req.employeeId, req.startAt, req.endAt) then
      Err(ACCREDITATION_OVERLAP)
    else
      Ok(EmployeeAccreditation(newId, Light(req.employeeId, t.employees[req.employeeId]), t.levels[req.levelId],
                               Some(Light(grantorId, t.employees[grantorId])), req.startAt, req.endAt, now))
  }

  /** The row `update_accreditation` writes: new level and window, same
      recipient, grantor and creation instant. */
  function UpdatedRow(row: AccreditationRow, req: UpdateAccreditationRequest): AccreditationRow
  {
    row.(levelId := req.levelId, startAt := req.startAt, endAt := req.endAt)
  }

  function WithUpdatedAccreditation(t: Tables, accId: Uuid, req: UpdateAccreditationRequest): Tables
    requires accId in t.accreditations
  {
    t.(accreditations := t.accreditations[accId := UpdatedRow(t.accreditations[accId], req)])
  }

  /** What `update_accreditation` returns.  The authority rule compares the
      requested level with the grantor's; the grantor's existence is not
      checked; the overlap test ignores the accreditation being updated. */
  function UpdateOutcome(t: Tables, accId: Uuid, req: UpdateAccreditationRequest, now: Instant,
                         grantorLevel: Result<EmployeeLevel>): (r: Result<EmployeeAccreditation>)
    ensures r.Ok? ==>
      && CheckDates(req.startAt, req.endAt, now).None?
      && accId in t.accreditations && req.levelId in t.levels
      && grantorLevel.Ok? && MayAssignLevel(t.levels[req.levelId].levelIndex, grantorLevel.value.levelIndex)
      && AccreditationsInWindow(t, t.accreditations[accId].recipient, req.startAt, req.endAt) <= {accId}
    ensures r.Ok? ==>
      && r.value.id == accId && r.value.recipient.id == t.accreditations[accId].recipient
      && r.value.level == t.levels[req.levelId]
    ensures r.Ok? ==>
      && r.value.startAt == req.startAt && r.value.endAt == req.endAt
      && r.value.createdAt == t.accreditations[accId].createdAt
  {
    if CheckDates(req.startAt, req.endAt, now).Some? then Err(CheckDates(req.startAt, req.endAt, now).value)
    else if req.levelId !in t.levels then Err(LEVEL_NOT_FOUND)
    else if grantorLevel.Err? then Err(grantorLevel.error)
    else if !MayAssignLevel(t.levels[req.levelId].levelIndex, grantorLevel.value.levelIndex) then
      Err(FORBIDDEN_ASSIGN_HIGHER_LEVEL)
    else
      match GetAccreditationById(t, accId)
      case Err(e) => Err(e)
      case Ok(acc) =>
        if exists k :: k in AccreditationsInWindow(t, acc.recipient.id, req.startAt, req.endAt) && k != accId then
          Err(ACCREDITATION_OVERLAP)
        else
          GetAccreditationById(WithUpdatedAccreditation(t, accId, req), accId)
  }

  /** What `delete_accreditation` returns. */
  function DeleteAccreditationOutcome(t: Tables, accId: Uuid, requesterLevel: Result<EmployeeLevel>): (r: Result<()>)
    ensures accId !in t.accreditations ==> r == Err(ACCREDITATION_NOT_FOUND)
    ensures r.Ok? ==>
      && accId in t.accreditations && t.accreditations[accId].levelId in t.levels && requesterLevel.Ok?
      && MayDeleteAccreditation(requesterLevel.value.levelIndex, t.levels[t.accreditations[accId].levelId].levelIndex)
  {
    match GetAccreditationById(t, accId)
    case Err(e) => Err(e)
    case Ok(acc) =>
      if requesterLevel.Err? then Err(requesterLevel.error)
      else if !MayDeleteAccreditation(requesterLevel.value.levelIndex, acc.level.levelIndex) then
        Err(FORBIDDEN_DELETE_HIGHER_LEVEL)
      else Ok(())
  }

  // ---------------------------------------------------------------------
  // Derogations

  function DerogationRowOf(req: CreateDerogationRequest, grantorId: Uuid, now: Instant): DerogationRow
  {
    DerogationRow(req.recipientId, req.permission, grantorId, req.reason, req.startAt, req.endAt, now)
  }

  /** What `create_employee_derogation` returns and the permission cache it
      leaves: both resolutions go through the cache, so they may fill it
      even when the call fails later. */
  function CreateDerogationOutcome(t: Tables, cache: map<Uuid, CacheEntry>, req: CreateDerogationRequest,
                                   grantorId: Uuid, now: Instant, cacheWritable: bool, newId: int)
    : (r: (Result<EmployeeDerogation>, map<Uuid, CacheEntry>))
    ensures forall e :: e in cache && e != req.recipientId && e != grantorId ==> e in r.1 && r.1[e] == cache[e]
    ensures cache.Keys <= r.1.Keys
    ensures !cacheWritable ==> r.1 == cache
    ensures r.0.Ok? ==>
      && CheckDates(req.startAt, Some(req.endAt), now).None?
      && r.0.value.id == newId && r.0.value.recipient.id == req.recipientId && r.0.value.grantor.id == grantorId
      && r.0.value.startAt == req.startAt && r.0.value.endAt == req.endAt && r.0.value.reason == req.reason
  {
    if CheckDates(req.startAt, Some(req.endAt), now).Some? then
      (Err(CheckDates(req.startAt, Some(req.endAt), now).value), cache)
    else
      var (held, c1) := ResolvePermissions(cache, t, req.recipientId, now, cacheWritable);
      if held.Err? then (Err(held.error), c1)
      else if req.permission in held.value then (Err(HAS_ALREADY_AUTHORIZATION), c1)
      else if req.recipientId !in t.employees then (Err(EMPLOYEE_NOT_FOUND), c1)
      else
        match GetAuthorizationByTypeId(t, req.permission)
        case Err(e) => (Err(e), c1)
        case Ok(authorization) =>
          if grantorId !in t.employees then (Err(EMPLOYEE_NOT_FOUND), c1)
          else
            var (owned, c2) := ResolvePermissions(c1, t, grantorId, now, cacheWritable);
            if owned.Err? then (Err(owned.error), c2)
            else if req.permission !in owned.value then (Err(FORBIDDEN_ASSIGN_UNOWNED_AUTHORIZATION), c2)
            else
              (Ok(EmployeeDerogation(newId, Light(req.recipientId, t.employees[req.recipientId]), authorization,
                                     Light(grantorId, t.employees[grantorId]), req.reason,
                                     req.startAt, req.endAt, now)), c2)
  }

  /** What `delete_employee_derogation_by_id` returns and the cache it
      leaves: the requester's permissions are resolved first. */
  function DeleteDerogationOutcome(t: Tables, cache: map<Uuid, CacheEntry>, id: int, requesterId: Uuid,
                                   now: Instant, cacheWritable: bool): (r: (Result<()>, map<Uuid, CacheEntry>))
    ensures forall e :: e in cache && e != requesterId ==> e in r.1 && r.1[e] == cache[e]
    ensures cache.Keys <= r.1.Keys
    ensures !cacheWritable ==> r.1 == cache
    ensures r.0.Ok? ==> id in t.derogations
    ensures id !in t.derogations ==> r.0.Err?
  {
    var (held, c1) := ResolvePermissions(cache, t, requesterId, now, cacheWritable);
    if held.Err? then (Err(held.error), c1)
    else
      match GetDerogationById(t, id)
      case Err(e) => (Err(e), c1)
      case Ok(derogation) =>
        if derogation.authorization.id !in held.value then (Err(FORBIDDEN_DELETE_UNOWNED_AUTHORIZATION), c1)
        else (Ok(()), c1)
  }

  // ---------------------------------------------------------------------
  // Properties of the outcomes

  /** The date guards come first in assign, update and create-derogation,
      and they are the only source of `Validation` there. */
  lemma DateGuardsComeFirst(t: Tables, cache: map<Uuid, CacheEntry>, now: Instant, grantorId: Uuid,
                            grantorLevel: Result<EmployeeLevel>, assign: AssignAccreditationRequest,
                            accId: Uuid, update: UpdateAccreditationRequest, derogation: CreateDerogationRequest,
                            cacheWritable: bool, newAccreditation: Uuid, newDerogation: int)
    requires grantorLevel.Err? ==> grantorLevel.error == NO_CURRENT_LEVEL
    ensures var r := AssignOutcome(t, assign, grantorId, now, grantorLevel, newAccreditation);
      r.Err? && r.error.Validation? <==>
        assign.startAt < now - START_GRACE_SECONDS || (assign.endAt.Some? && assign.endAt.value <= assign.startAt)
    ensures var r := UpdateOutcome(t, accId, update, now, grantorLevel);
      r.Err? && r.error.Validation? <==>
        update.startAt < now - START_GRACE_SECONDS || (update.endAt.Some? && update.endAt.value <= update.startAt)
    ensures var r := CreateDerogationOutcome(t, cache, derogation, grantorId, now, cacheWritable, newDerogation).0;
      r.Err? && r.error.Validation? <==>
        derogation.startAt < now - START_GRACE_SECONDS || derogation.endAt <= derogation.startAt
  {
    AssignDateGuard(t, assign, grantorId, now, grantorLevel, newAccreditation);
    UpdateDateGuard(t, accId, update, now, grantorLevel);
    DerogationDateGuard(t, cache, derogation, grantorId, now, cacheWritable, newDerogation);
  }

  lemma AssignDateGuard(t: Tables, req: AssignAccreditationRequest, grantorId: Uuid, now: Instant,
                        grantorLevel: Result<EmployeeLevel>, newId: Uuid)
    requires grantorLevel.Err? ==> grantorLevel.error == NO_CURRENT_LEVEL
    ensures var r := AssignOutcome(t, req, grantorId, now, grantorLevel, newId);
      r.Err? && r.error.Validation? <==>
        req.startAt < now - START_GRACE_SECONDS || (req.endAt.Some? && req.endAt.value <= req.startAt)
  {
  }

  lemma UpdateDateGuard(t: Tables, accId: Uuid, req: UpdateAccreditationRequest, now: Instant,
                        grantorLevel: Result<EmployeeLevel>)
    requires grantorLevel.Err? ==> grantorLevel.error == NO_CURRENT_LEVEL
    ensures var r := UpdateOutcome(t, accId, req, now, grantorLevel);
      r.Err? && r.error.Validation? <==>
        req.startAt < now - START_GRACE_SECONDS || (req.endAt.Some? && req.endAt.value <= req.startAt)
  {
  }

  lemma DerogationDateGuard(t: Tables, cache: map<Uuid, CacheEntry>, req: CreateDerogationRequest, grantorId: Uuid,
                            now: Instant, cacheWritable: bool, newId: int)
    ensures var r := CreateDerogationOutcome(t, cache, req, grantorId, now, cacheWritable, newId).0;
      r.Err? && r.error.Validation? <==>
        req.startAt < now - START_GRACE_SECONDS || req.endAt <= req.startAt
  {
  }

  /** Once the dates and the entities check out, assign is `Forbidden`
      exactly when the target level's index is not below the grantor's and
      the grantor is not at the administrator tier. */
  lemma AssignForbiddenExactly(t: Tables, req: AssignAccreditationRequest, grantorId: Uuid, now: Instant,
                               grantorLevel: EmployeeLevel, newId: Uuid)
    requires CheckDates(req.startAt, req.endAt, now).None?
    requires req.employeeId in t.employees && req.levelId in t.levels && grantorId in t.employees
    ensures AssignOutcome(t, req, grantorId, now, Ok(grantorLevel), newId) == Err(FORBIDDEN_ASSIGN_HIGHER_LEVEL)
        <==> t.levels[req.levelId].levelIndex >= grantorLevel.levelIndex
             && grantorLevel.levelIndex != ADMINISTRATOR_LEVEL_INDEX
  {
  }

  /** The same rule for update. */
  lemma UpdateForbiddenExactly(t: Tables, accId: Uuid, req: UpdateAccreditationRequest, now: Instant,
                               grantorLevel: EmployeeLevel)
    requires CheckDates(req.startAt, req.endAt, now).None?
    requires req.levelId in t.levels
    ensures UpdateOutcome(t, accId, req, now, Ok(grantorLevel)) == Err(FORBIDDEN_ASSIGN_HIGHER_LEVEL)
        <==> t.levels[req.levelId].levelIndex >= grantorLevel.levelIndex
             && grantorLevel.levelIndex != ADMINISTRATOR_LEVEL_INDEX
  {
  }

  /** Past the authority rule, assign is a `Conflict` exactly when some
      accreditation of the recipient starts no later than the requested end
      (any start, if open-ended) and ends no earlier than the requested
      start (or never); otherwise it succeeds. */
  lemma AssignConflictExactly(t: Tables, req: AssignAccreditationRequest, grantorId: Uuid, now: Instant,
                              grantorLevel: EmployeeLevel, newId: Uuid)
    requires CheckDates(req.startAt, req.endAt, now).None?
    requires req.employeeId in t.employees && req.levelId in t.levels && grantorId in t.employees
    requires MayAssignLevel(t.levels[req.levelId].levelIndex, grantorLevel.levelIndex)
    ensures var r := AssignOutcome(t, req, grantorId, now, Ok(grantorLevel), newId);
      && (r == Err(ACCREDITATION_OVERLAP) <==>
            exists k :: k in t.accreditations && t.accreditations[k].recipient == req.employeeId
                        && (req.endAt.None? || t.accreditations[k].startAt <= req.endAt.value)
                        && (t.accreditations[k].endAt.None? || t.accreditations[k].endAt.value >= req.startAt))
      && (r.Err? ==> r == Err(ACCREDITATION_OVERLAP))
  {
    if exists k :: k in t.accreditations && t.accreditations[k].recipient == req.employeeId
                   && InWindow(t.accreditations[k], req.startAt, req.endAt) {
      var k :| k in t.accreditations && t.accreditations[k].recipient == req.employeeId
               && InWindow(t.accreditations[k], req.startAt, req.endAt);
      assert k in AccreditationsInWindow(t, req.employeeId, req.startAt, req.endAt);
    }
  }

  /** The same test for update, leaving out the accreditation being
      updated: past the authority rule, update of an existing accreditation
      is a `Conflict` exactly when another accreditation of the same
      recipient is in the requested window; otherwise it succeeds. */
  lemma UpdateConflictExactly(t: Tables, accId: Uuid, req: UpdateAccreditationRequest, now: Instant,
                              grantorLevel: EmployeeLevel)
    requires Consistent(t) && accId in t.accreditations
    requires CheckDates(req.startAt, req.endAt, now).None?
    requires req.levelId in t.levels
    requires MayAssignLevel(t.levels[req.levelId].levelIndex, grantorLevel.levelIndex)
    ensures var r := UpdateOutcome(t, accId, req, now, Ok(grantorLevel));
      && (r == Err(ACCREDITATION_OVERLAP) <==>
            exists k :: k in t.accreditations && k != accId
                        && t.accreditations[k].recipient == t.accreditations[accId].recipient
                        && (req.endAt.None? || t.accreditations[k].startAt <= req.endAt.value)
                        && (t.accreditations[k].endAt.None? || t.accreditations[k].endAt.value >= req.startAt))
      && (r.Err? ==> r == Err(ACCREDITATION_OVERLAP))
  {
    var recipient := t.accreditations[accId].recipient;
    if exists k :: k in t.accreditations && k != accId && t.accreditations[k].recipient == recipient
                   && InWindow(t.accreditations[k], req.startAt, req.endAt) {
      var k :| k in t.accreditations && k != accId && t.accreditations[k].recipient == recipient
               && InWindow(t.accreditations[k], req.startAt, req.endAt);
      assert k in AccreditationsInWindow(t, recipient, req.startAt, req.endAt);
    } else {
      var t' := WithUpdatedAccreditation(t, accId, req);
      assert Consistent(t');
    }
  }

  /** A request starting exactly when an existing accreditation of the
      recipient ends is refused, although the two would never be active at
      the same instant. */
  lemma {:induction false} AssignBackToBackConflicts(t: Tables, req: AssignAccreditationRequest, grantorId: Uuid,
                                                     now: Instant, grantorLevel: EmployeeLevel, newId: Uuid, k: Uuid)
    requires CheckDates(req.startAt, req.endAt, now).None?
    requires req.employeeId in t.employees && req.levelId in t.levels && grantorId in t.employees
    requires MayAssignLevel(t.levels[req.levelId].levelIndex, grantorLevel.levelIndex)
    requires k in t.accreditations && t.accreditations[k].recipient == req.employeeId
    requires t.accreditations[k].startAt <= req.startAt && t.accreditations[k].endAt == Some(req.startAt)
    ensures AssignOutcome(t, req, grantorId, now, Ok(grantorLevel), newId) == Err(ACCREDITATION_OVERLAP)
  {
    TouchingWindowsConflict(t.accreditations[k], req.startAt, req.endAt, now);
    assert k in AccreditationsInWindow(t, req.employeeId, req.startAt, req.endAt);
  }

  /** A successful assign keeps the no-overlap invariant. */
  lemma {:induction false} AssignPreservesNoOverlap(t: Tables, req: AssignAccreditationRequest, grantorId: Uuid,
                                                    now: Instant, grantorLevel: Result<EmployeeLevel>, newId: Uuid)
    requires NoOverlap(t) && newId !in t.accreditations
    requires AssignOutcome(t, req, grantorId, now, grantorLevel, newId).Ok?
    ensures NoOverlap(t.(accreditations := t.accreditations[newId := AssignedRow(req, grantorId, now)]))
  {
    var row := AssignedRow(req, grantorId, now);
    var t' := t.(accreditations := t.accreditations[newId := row]);
    forall k1, k2 | k1 in t'.accreditations && k2 in t'.accreditations && k1 != k2
                    && t'.accreditations[k1].recipient == t'.accreditations[k2].recipient
      ensures !InWindow(t'.accreditations[k1], t'.accreditations[k2].startAt, t'.accreditations[k2].endAt)
    {
      if k1 == newId {
        assert k2 !in AccreditationsInWindow(t, req.employeeId, req.startAt, req.endAt);
        InWindowSymmetric(row, t.accreditations[k2]);
      } else if k2 == newId {
        assert k1 !in AccreditationsInWindow(t, req.employeeId, req.startAt, req.endAt);
      }
    }
  }

  /** Re-saving an accreditation over its own window, under the
      no-overlap invariant, does not conflict with itself. */
  lemma {:induction false} UpdateOverOwnWindowSucceeds(t: Tables, accId: Uuid, req: UpdateAccreditationRequest,
                                                       now: Instant, grantorLevel: EmployeeLevel)
    requires Consistent(t) && NoOverlap(t)
    requires accId in t.accreditations
    requires req.startAt == t.accreditations[accId].startAt && req.endAt == t.accreditations[accId].endAt
    requires CheckDates(req.startAt, req.endAt, now).None?
    requires req.levelId in t.levels
    requires MayAssignLevel(t.levels[req.levelId].levelIndex, grantorLevel.levelIndex)
    ensures UpdateOutcome(t, accId, req, now, Ok(grantorLevel)).Ok?
  {
    var row := t.accreditations[accId];
    var t' := WithUpdatedAccreditation(t, accId, req);
    assert t'.accreditations[accId] == UpdatedRow(row, req);
  }

  /** A successful update keeps the no-overlap invariant. */
  lemma {:induction false} UpdatePreservesNoOverlap(t: Tables, accId: Uuid, req: UpdateAccreditationRequest,
                                                    now: Instant, grantorLevel: Result<EmployeeLevel>)
    requires NoOverlap(t)
    requires UpdateOutcome(t, accId, req, now, grantorLevel).Ok?
    ensures accId in t.accreditations && NoOverlap(WithUpdatedAccreditation(t, accId, req))
  {
    var row := t.accreditations[accId];
    var recipient := row.recipient;
    var newRow := UpdatedRow(row, req);
    var t' := WithUpdatedAccreditation(t, accId, req);
    forall k1, k2 | k1 in t'.accreditations && k2 in t'.accreditations && k1 != k2
                    && t'.accreditations[k1].recipient == t'.accreditations[k2].recipient
      ensures !InWindow(t'.accreditations[k1], t'.accreditations[k2].startAt, t'.accreditations[k2].endAt)
    {
      if k1 == accId {
        assert !(k2 in AccreditationsInWindow(t, recipient, req.startAt, req.endAt) && k2 != accId);
        InWindowSymmetric(newRow, t.accreditations[k2]);
      } else if k2 == accId {
        assert !(k1 in AccreditationsInWindow(t, recipient, req.startAt, req.endAt) && k1 != accId);
      }
    }
  }

  /** Delete of an existing accreditation, once the requester's level is
      known, is `Forbidden` exactly when the requester's index is not below
      the accreditation's level index, and succeeds otherwise. */
  lemma DeleteForbiddenExactly(t: Tables, accId: Uuid, requesterLevel: EmployeeLevel)
    requires Consistent(t) && accId in t.accreditations
    ensures var r := DeleteAccreditationOutcome(t, accId, Ok(requesterLevel));
      && (r == Err(FORBIDDEN_DELETE_HIGHER_LEVEL) <==>
            requesterLevel.levelIndex >= t.levels[t.accreditations[accId].levelId].levelIndex)
      && (r.Err? ==> r == Err(FORBIDDEN_DELETE_HIGHER_LEVEL))
  {
  }

  /** Removing rows never creates an overlap. */
  lemma DeletePreservesNoOverlap(t: Tables, accId: Uuid)
    requires NoOverlap(t)
    ensures NoOverlap(t.(accreditations := t.accreditations - {accId}))
  {
  }

  /** The recipient check comes before the grantor check: a recipient who
      already holds the permission gets `Conflict` whatever the grantor
      holds, and `Forbidden` means the recipient's list lacked it and the
      grantor's list lacked it too. */
  lemma DerogationConflictPrecedesForbidden(t: Tables, cache: map<Uuid, CacheEntry>, req: CreateDerogationRequest,
                                            grantorId: Uuid, now: Instant, cacheWritable: bool, newId: int)
    requires CheckDates(req.startAt, Some(req.endAt), now).None?
    ensures var (held, c1) := ResolvePermissions(cache, t, req.recipientId, now, cacheWritable);
      var r := CreateDerogationOutcome(t, cache, req, grantorId, now, cacheWritable, newId).0;
      && (held.Ok? && req.permission in held.value ==> r == Err(HAS_ALREADY_AUTHORIZATION))
      && (r == Err(FORBIDDEN_ASSIGN_UNOWNED_AUTHORIZATION) ==>
            && held.Ok? && req.permission !in held.value
            && var owned := ResolvePermissions(c1, t, grantorId, now, cacheWritable).0;
               owned.Ok? && req.permission !in owned.value)
  {
  }

  /** Once the dates pass, the recipient lacks the permission, both
      employees exist and the authorization is readable, the grantor's own
      resolved list decides: `Forbidden` exactly when it lacks the
      permission, success exactly when it holds it. */
  lemma DerogationForbiddenExactly(t: Tables, cache: map<Uuid, CacheEntry>, req: CreateDerogationRequest,
                                   grantorId: Uuid, now: Instant, cacheWritable: bool, newId: int)
    requires CheckDates(req.startAt, Some(req.endAt), now).None?
    requires var held := ResolvePermissions(cache, t, req.recipientId, now, cacheWritable).0;
      held.Ok? && req.permission !in held.value
    requires req.recipientId in t.employees && grantorId in t.employees
    requires GetAuthorizationByTypeId(t, req.permission).Ok?
    ensures var c1 := ResolvePermissions(cache, t, req.recipientId, now, cacheWritable).1;
      var owned := ResolvePermissions(c1, t, grantorId, now, cacheWritable).0;
      var r := CreateDerogationOutcome(t, cache, req, grantorId, now, cacheWritable, newId).0;
      owned.Ok? ==>
        && (r == Err(FORBIDDEN_ASSIGN_UNOWNED_AUTHORIZATION) <==> req.permission !in owned.value)
        && (r.Ok? <==> req.permission in owned.value)
  {
  }

  /** On a cache miss, the `Conflict` of create-derogation is decided by the
      recipient's effective permissions at `now`. */
  lemma {:induction false} DerogationConflictOnFreshResolution(t: Tables, cache: map<Uuid, CacheEntry>,
                                                               req: CreateDerogationRequest, grantorId: Uuid,
                                                               now: Instant, newId: int)
    requires CheckDates(req.startAt, Some(req.endAt), now).None?
    requires CachedIds(cache, req.recipientId, now).None?
    ensures CreateDerogationOutcome(t, cache, req, grantorId, now, true, newId).0 == Err(HAS_ALREADY_AUTHORIZATION)
        <==> req.permission in EffectivePermissions(t, req.recipientId, now)
  {
    CacheMissRecomputes(cache, t, req.recipientId, now, true);
  }

  /** A successful create-derogation needs a grantor whose resolved list
      holds the permission, and a recipient whose resolved list does not. */
  lemma DerogationSuccessNeedsOwnership(t: Tables, cache: map<Uuid, CacheEntry>, req: CreateDerogationRequest,
                                        grantorId: Uuid, now: Instant, cacheWritable: bool, newId: int)
    requires CreateDerogationOutcome(t, cache, req, grantorId, now, cacheWritable, newId).0.Ok?
    ensures var (held, c1) := ResolvePermissions(cache, t, req.recipientId, now, cacheWritable);
      && held.Ok? && req.permission !in held.value
      && var owned := ResolvePermissions(c1, t, grantorId, now, cacheWritable).0;
         owned.Ok? && req.permission in owned.value
    ensures req.recipientId in t.employees && grantorId in t.employees && req.permission in t.authorizations
  {
  }

  /** Delete-derogation succeeds only for a requester whose resolved list
      holds the derogation's permission. */
  lemma DeleteDerogationNeedsOwnership(t: Tables, cache: map<Uuid, CacheEntry>, id: int, requesterId: Uuid,
                                       now: Instant, cacheWritable: bool)
    requires Consistent(t) && id in t.derogations
    requires GetAuthorizationByTypeId(t, t.derogations[id].permission).Ok?
    ensures var (held, _) := ResolvePermissions(cache, t, requesterId, now, cacheWritable);
      var r := DeleteDerogationOutcome(t, cache, id, requesterId, now, cacheWritable).0;
      && (r.Ok? <==> held.Ok? && t.derogations[id].permission in held.value)
      && (held.Ok? && t.derogations[id].permission !in held.value ==> r == Err(FORBIDDEN_DELETE_UNOWNED_AUTHORIZATION))
  {
  }

  // ---------------------------------------------------------------------
  // The service

  /** `EmployeeService`: the grant operations over the database. */
  class EmployeeService {
    const db: Database

    constructor (db: Database)
      ensures this.db == db
    {
      this.db := db;
    }

    /** `get_current_employee_level_by_employee_id`: some level of an
        accreditation active at `now`, or `NotFound`. */
    method GetCurrentEmployeeLevel(employee: Uuid, now: Instant) returns (r: Result<EmployeeLevel>)
      ensures LevelAnswer(db.T(), employee, now, r)
    {
      var levels := CurrentLevels(db.T(), employee, now);
      if !(exists l :: l in levels) {
        return Err(NO_CURRENT_LEVEL);
      }
      var l :| l in levels;
      return Ok(l);
    }

    /** `assign_accreditation`.  `grantorLevel` is the answer the grantor's
        current-level lookup gave. */
    method AssignAccreditation(req: AssignAccreditationRequest, grantorId: Uuid, now: Instant)
      returns (r: Result<EmployeeAccreditation>, ghost grantorLevel: Result<EmployeeLevel>)
      requires db.Valid()
      modifies db
      ensures db.Valid()
      ensures LevelAnswer(old(db.T()), grantorId, now, grantorLevel)
      ensures r == AssignOutcome(old(db.T()), req, grantorId, now, grantorLevel, old(db.nextAccreditationId))
      ensures r.Ok? ==>
        && db.T() == old(db.T()).(accreditations := old(db.accreditations)[old(db.nextAccreditationId) := AssignedRow(req, grantorId, now)])
        && db.nextAccreditationId == old(db.nextAccreditationId) + 1
      ensures r.Err? ==> db.T() == old(db.T()) && db.nextAccreditationId == old(db.nextAccreditationId)
      ensures db.nextDerogationId == old(db.nextDerogationId)
      ensures old(NoOverlap(db.T())) ==> NoOverlap(db.T())
    {
      ghost var t0 := db.T();
      grantorLevel := SomeLevelAnswer(t0, grantorId, now);
      var dateError := CheckDates(req.startAt, req.endAt, now);
      if dateError.Some? {
        return Err(dateError.value), grantorLevel;
      }
      var recipient := GetLightEmployee(db.T(), req.employeeId);
      if recipient.Err? {
        return Err(recipient.error), grantorLevel;
      }
      var level := GetLevelById(db.T(), req.levelId);
      if level.Err? {
        return Err(level.error), grantorLevel;
      }
      var grantor := GetLightEmployee(db.T(), grantorId);
      if grantor.Err? {
        return Err(grantor.error), grantorLevel;
      }
      var grantorCurrent := GetCurrentEmployeeLevel(grantorId, now);
      grantorLevel := grantorCurrent;
      if grantorCurrent.Err? {
        return Err(grantorCurrent.error), grantorLevel;
      }
      if !MayAssignLevel(level.value.levelIndex, grantorCurrent.value.levelIndex) {
        return Err(FORBIDDEN_ASSIGN_HIGHER_LEVEL), grantorLevel;
      }
      var existing := AccreditationsInWindow(db.T(), req.employeeId, req.startAt, req.endAt);
      if exists k :: k in existing {
        return Err(ACCREDITATION_OVERLAP), grantorLevel;
      }
      var id := db.nextAccreditationId;
      db.accreditations := db.accreditations[id := AssignedRow(req, grantorId, now)];
      db.nextAccreditationId := id + 1;
      r := Ok(EmployeeAccreditation(id, recipient.value, level.value, Some(grantor.value),
                                    req.startAt, req.endAt, now));
      if NoOverlap(t0) {
        AssignPreservesNoOverlap(t0, req, grantorId, now, grantorLevel, id);
      }
    }

    /** `update_accreditation`. */
    method UpdateAccreditation(accId: Uuid, req: UpdateAccreditationRequest, grantorId: Uuid, now: Instant)
      returns (r: Result<EmployeeAccreditation>, ghost grantorLevel: Result<EmployeeLevel>)
      requires db.Valid()
      modifies db`accreditations
      ensures db.Valid()
      ensures LevelAnswer(old(db.T()), grantorId, now, grantorLevel)
      ensures r == UpdateOutcome(old(db.T()), accId, req, now, grantorLevel)
      ensures r.Ok? ==> accId in old(db.accreditations) && db.T() == WithUpdatedAccreditation(old(db.T()), accId, req)
      ensures r.Err? ==> db.T() == old(db.T())
      ensures old(NoOverlap(db.T())) ==> NoOverlap(db.T())
    {
      ghost var t0 := db.T();
      grantorLevel := SomeLevelAnswer(t0, grantorId, now);
      var dateError := CheckDates(req.startAt, req.endAt, now);
      if dateError.Some? {
        return Err(dateError.value), grantorLevel;
      }
      var level := GetLevelById(db.T(), req.levelId);
      if level.Err? {
        return Err(level.error), grantorLevel;
      }
      var grantorCurrent := GetCurrentEmployeeLevel(grantorId, now);
      grantorLevel := grantorCurrent;
      if grantorCurrent.Err? {
        return Err(grantorCurrent.error), grantorLevel;
      }
      if !MayAssignLevel(level.value.levelIndex, grantorCurrent.value.levelIndex) {
        return Err(FORBIDDEN_ASSIGN_HIGHER_LEVEL), grantorLevel;
      }
      var accreditation := GetAccreditationById(db.T(), accId);
      if accreditation.Err? {
        return Err(accreditation.error), grantorLevel;
      }
      var existing := AccreditationsInWindow(db.T(), accreditation.value.recipient.id, req.startAt, req.endAt);
      if exists k :: k in existing && k != accId {
        return Err(ACCREDITATION_OVERLAP), grantorLevel;
      }
      db.accreditations := db.accreditations[accId := UpdatedRow(db.accreditations[accId], req)];
      r := GetAccreditationById(db.T(), accId);
      if NoOverlap(t0) {
        UpdatePreservesNoOverlap(t0, accId, req, now, grantorLevel);
      }
    }

    /** `delete_accreditation`: removes exactly the one row. */
    method DeleteAccreditation(accId: Uuid, requesterId: Uuid, now: Instant)
      returns (r: Result<()>, ghost requesterLevel: Result<EmployeeLevel>)
      requires db.Valid()
      modifies db`accreditations
      ensures db.Valid()
      ensures LevelAnswer(old(db.T()), requesterId, now, requesterLevel)
      ensures r == DeleteAccreditationOutcome(old(db.T()), accId, requesterLevel)
      ensures r.Ok? ==> accId in old(db.accreditations) && db.accreditations == old(db.accreditations) - {accId}
      ensures r.Err? ==> db.accreditations == old(db.accreditations)
      ensures old(NoOverlap(db.T())) ==> NoOverlap(db.T())
    {
      ghost var t0 := db.T();
      requesterLevel := SomeLevelAnswer(t0, requesterId, now);
      var accreditation := GetAccreditationById(db.T(), accId);
      if accreditation.Err? {
        return Err(accreditation.error), requesterLevel;
      }
      var current := GetCurrentEmployeeLevel(requesterId, now);
      requesterLevel := current;
      if current.Err? {
        return Err(current.error), requesterLevel;
      }
      if !MayDeleteAccreditation(current.value.levelIndex, accreditation.value.level.levelIndex) {
        return Err(FORBIDDEN_DELETE_HIGHER_LEVEL), requesterLevel;
      }
      db.accreditations := db.accreditations - {accId};
      r := Ok(());
      if NoOverlap(t0) {
        DeletePreservesNoOverlap(t0, accId);
      }
    }

    /** `create_employee_derogation`, resolving permissions through the
        authentication service's cache. */
    method CreateEmployeeDerogation(auth: AuthService, req: CreateDerogationRequest, grantorId: Uuid,
                                    now: Instant, cacheWritable: bool)
      returns (r: Result<EmployeeDerogation>)
      requires auth.db == db && db.Valid()
      modifies db`derogations, db`nextDerogationId, auth`cache
      ensures db.Valid()
      ensures (r, auth.cache)
        == CreateDerogationOutcome(old(db.T()), old(auth.cache), req, grantorId, now, cacheWritable, old(db.nextDerogationId))
      ensures r.Ok? ==>
        && db.derogations == old(db.derogations)[old(db.nextDerogationId) := DerogationRowOf(req, grantorId, now)]
        && db.nextDerogationId == old(db.nextDerogationId) + 1
      ensures r.Err? ==> db.derogations == old(db.derogations) && db.nextDerogationId == old(db.nextDerogationId)
    {
      var dateError := CheckDates(req.startAt, Some(req.endAt), now);
      if dateError.Some? {
        return Err(dateError.value);
      }
      var held := auth.GetEmployeePermissions(req.recipientId, now, cacheWritable);
      if held.Err? {
        return Err(held.error);
      }
      if req.permission in held.value {
        return Err(HAS_ALREADY_AUTHORIZATION);
      }
      var recipient := GetLightEmployee(db.T(), req.recipientId);
      if recipient.Err? {
        return Err(recipient.error);
      }
      var authorization := GetAuthorizationByTypeId(db.T(), req.permission);
      if authorization.Err? {
        return Err(authorization.error);
      }
      var grantor := GetLightEmployee(db.T(), grantorId);
      if grantor.Err? {
        return Err(grantor.error);
      }
      var owned := auth.GetEmployeePermissions(grantorId, now, cacheWritable);
      if owned.Err? {
        return Err(owned.error);
      }
      if req.permission !in owned.value {
        return Err(FORBIDDEN_ASSIGN_UNOWNED_AUTHORIZATION);
      }
      var id := db.nextDerogationId;
      db.derogations := db.derogations[id := DerogationRowOf(req, grantorId, now)];
      db.nextDerogationId := id + 1;
      r := Ok(EmployeeDerogation(id, recipient.value, authorization.value, grantor.value, req.reason,
                                 req.startAt, req.endAt, now));
    }

    /** `delete_employee_derogation_by_id`: removes exactly the one row. */
    method DeleteEmployeeDerogation(auth: AuthService, id: int, requesterId: Uuid, now: Instant, cacheWritable: bool)
      returns (r: Result<()>)
      requires auth.db == db && db.Valid()
      modifies db`derogations, auth`cache
      ensures db.Valid()
      ensures (r, auth.cache) == DeleteDerogationOutcome(old(db.T()), old(auth.cache), id, requesterId, now, cacheWritable)
      ensures r.Ok? ==> id in old(db.derogations) && db.derogations == old(db.derogations) - {id}
      ensures r.Err? ==> db.derogations == old(db.derogations)
    {
      var held := auth.GetEmployeePermissions(requesterId, now, cacheWritable);
      if held.Err? {
        return Err(held.error);
      }
      var derogation := GetDerogationById(db.T(), id);
      if derogation.Err? {
        return Err(derogation.error);
      }
      if derogation.value.authorization.id !in held.value {
        return Err(FORBIDDEN_DELETE_UNOWNED_AUTHORIZATION);
      }
      db.derogations := db.derogations - {id};
      r := Ok(());
    }
  }
}
