/** The pure rules behind the accreditation and derogation operations of
    `src/employee/services.rs`: the date guards, the level authority rule,
    activity at an instant, the overlap window query and the current-level
    lookup. */
module GrantRules {
  import opened Wrappers
  import opened AppErrors
  import opened EmployeeModels
  import opened Store

  /** A grant may start at most five minutes in the past. */
  const START_GRACE_SECONDS := 300
  /** The administrator tier, exempt from the assignment authority rule. */
  const ADMINISTRATOR_LEVEL_INDEX := 1

  const START_IN_PAST := Validation("The start date must be in the future.")
  const END_NOT_AFTER_START := Validation("The end date must be after the start date.")
  const FORBIDDEN_ASSIGN_HIGHER_LEVEL :=
    Forbidden("You can't assign a higher or equal level than your own.", "FORBIDDEN_ASSIGN_HIGHER_LEVEL")
  const FORBIDDEN_DELETE_HIGHER_LEVEL :=
    Forbidden("You can't delete an accreditation with a higher or equal level than your own.", "FORBIDDEN_DELETE_HIGHER_LEVEL")
  const ACCREDITATION_OVERLAP :=
    Conflict("An accreditation already exists for this employee in the specified time range.",
             "ACCREDITATION_ALREADY_EXISTS_FOR_THIS_PERIOD")
  const NO_CURRENT_LEVEL := NotFound("No current employee level found", "EMPLOYEE_LEVEL_NOT_FOUND")

  /** The two date guards at the head of assign, update and
      create-derogation; the start guard comes first. */
  function CheckDates(startAt: Instant, endAt: Option<Instant>, now: Instant): (r: Option<AppError>)
    ensures r.None? <==> now - START_GRACE_SECONDS <= startAt && (endAt.Some? ==> startAt < endAt.value)
    ensures r.Some? ==> r.value.Validation?
    ensures startAt < now - START_GRACE_SECONDS ==> r == Some(START_IN_PAST)
    ensures r.Some? && now - START_GRACE_SECONDS <= startAt ==> r == Some(END_NOT_AFTER_START)
  {
    if startAt < now - START_GRACE_SECONDS then Some(START_IN_PAST)
    else if endAt.Some? && endAt.value <= startAt then Some(END_NOT_AFTER_START)
    else None
  }

  /** Assign and update refuse a target level whose index is not below the
      grantor's, unless the grantor is at the administrator tier. */
  predicate MayAssignLevel(targetIndex: int, grantorIndex: int)
  {
    !(targetIndex >= grantorIndex && grantorIndex != ADMINISTRATOR_LEVEL_INDEX)
  }

  /** Delete needs a requester strictly more senior (smaller index) than the
      accreditation's level; there is no administrator exemption. */
  predicate MayDeleteAccreditation(requesterIndex: int, accreditationIndex: int)
  {
    requesterIndex < accreditationIndex
  }

  /** The activity filter of the permission and current-level queries:
      started, and not yet ended (an absent end never comes). */
  predicate AccreditationActiveAt(a: AccreditationRow, now: Instant)
  {
    a.startAt <= now && (a.endAt.None? || now < a.endAt.value)
  }

  predicate DerogationActiveAt(d: DerogationRow, now: Instant)
  {
    d.startAt <= now < d.endAt
  }

  /** The row filter of `get_all_employee_accreditations_from`, with closed
      comparisons on both ends.  An absent `until` stands for the largest
      instant, which every start precedes. */
  predicate InWindow(a: AccreditationRow, from: Instant, until: Option<Instant>)
  {
    (until.None? || a.startAt <= until.value) && (a.endAt.None? || a.endAt.value >= from)
  }

  /** The keys of the recipient's accreditations the window query returns. */
  function AccreditationsInWindow(t: Tables, employee: Uuid, from: Instant, until: Option<Instant>): set<Uuid>
  {
    set k | k in t.accreditations && t.accreditations[k].recipient == employee
                                  && InWindow(t.accreditations[k], from, until)
  }

  /** The overlap test compares two windows the same way whichever of them
      is the stored row. */
  lemma InWindowSymmetric(a: AccreditationRow, b: AccreditationRow)
    ensures InWindow(a, b.startAt, b.endAt) <==> InWindow(b, a.startAt, a.endAt)
  {
  }

  /** Windows that merely touch (one ends when the other starts) conflict,
      although no instant is active in both. */
  lemma TouchingWindowsConflict(a: AccreditationRow, startAt: Instant, endAt: Option<Instant>, now: Instant)
    requires a.endAt == Some(startAt) && a.startAt <= startAt
    requires endAt.Some? ==> startAt < endAt.value
    ensures InWindow(a, startAt, endAt)
    ensures !(AccreditationActiveAt(a, now) && startAt <= now)
  {
  }

  /** Two accreditations active at the same instant are in each other's
      window, so the overlap test rejects them. */
  lemma ActiveTogetherConflict(a: AccreditationRow, b: AccreditationRow, now: Instant)
    requires AccreditationActiveAt(a, now) && AccreditationActiveAt(b, now)
    ensures InWindow(a, b.startAt, b.endAt)
  {
  }

  /** No two accreditations of one recipient are in each other's window:
      what the overlap guard of assign and update maintains. */
  ghost predicate NoOverlap(t: Tables)
  {
    forall k1, k2 :: k1 in t.accreditations && k2 in t.accreditations && k1 != k2
      && t.accreditations[k1].recipient == t.accreditations[k2].recipient
      ==> !InWindow(t.accreditations[k1], t.accreditations[k2].startAt, t.accreditations[k2].endAt)
  }

  /** The levels the current-level query can return: those of the
      employee's accreditations active at `now`, joined with the level
      table. */
  function CurrentLevels(t: Tables, employee: Uuid, now: Instant): set<EmployeeLevel>
  {
    set k | k in t.accreditations && t.accreditations[k].recipient == employee
                                  && AccreditationActiveAt(t.accreditations[k], now)
                                  && t.accreditations[k].levelId in t.levels
          :: t.levels[t.accreditations[k].levelId]
  }

  /** An answer `get_current_employee_level_by_employee_id` may give: the
      code takes the first row of an unordered query, so any current level,
      and `NotFound` exactly when there is none. */
  ghost predicate LevelAnswer(t: Tables, employee: Uuid, now: Instant, answer: Result<EmployeeLevel>)
  {
    && (answer.Err? <==> CurrentLevels(t, employee, now) == {})
    && (answer.Err? ==> answer.error == NO_CURRENT_LEVEL)
    && (answer.Ok? ==> answer.value in CurrentLevels(t, employee, now))
  }

  /** Some answer the lookup may give, to stand for the lookup on paths
      that return before making it. */
  ghost function SomeLevelAnswer(t: Tables, employee: Uuid, now: Instant): (answer: Result<EmployeeLevel>)
    ensures LevelAnswer(t, employee, now, answer)
  {
    if CurrentLevels(t, employee, now) == {} then Err(NO_CURRENT_LEVEL)
    else
      var l :| l in CurrentLevels(t, employee, now);
      Ok(l)
  }

  /** The current level is drawn only from accreditations active at `now`. */
  lemma CurrentLevelIsActive(t: Tables, employee: Uuid, now: Instant, l: EmployeeLevel)
    requires l in CurrentLevels(t, employee, now)
    ensures exists k :: k in t.accreditations && t.accreditations[k].recipient == employee
                        && AccreditationActiveAt(t.accreditations[k], now)
                        && t.accreditations[k].levelId in t.levels && t.levels[t.accreditations[k].levelId] == l
  {
  }

  /** When the overlap guard has held, an employee has at most one current
      level, so the untie-broken lookup is deterministic. */
  lemma {:induction false} CurrentLevelUnique(t: Tables, employee: Uuid, now: Instant, l1: EmployeeLevel, l2: EmployeeLevel)
    requires NoOverlap(t)
    requires l1 in CurrentLevels(t, employee, now) && l2 in CurrentLevels(t, employee, now)
    ensures l1 == l2
  {
    var k1 :| k1 in t.accreditations && t.accreditations[k1].recipient == employee
              && AccreditationActiveAt(t.accreditations[k1], now)
              && t.accreditations[k1].levelId in t.levels && t.levels[t.accreditations[k1].levelId] == l1;
    var k2 :| k2 in t.accreditations && t.accreditations[k2].recipient == employee
              && AccreditationActiveAt(t.accreditations[k2], now)
              && t.accreditations[k2].levelId in t.levels && t.levels[t.accreditations[k2].levelId] == l2;
    if k1 != k2 {
      ActiveTogetherConflict(t.accreditations[k1], t.accreditations[k2], now);
      assert false;
    }
  }

  lemma LevelAnswerDeterministic(t: Tables, employee: Uuid, now: Instant, a1: Result<EmployeeLevel>, a2: Result<EmployeeLevel>)
    requires NoOverlap(t)
    requires LevelAnswer(t, employee, now, a1) && LevelAnswer(t, employee, now, a2)
    ensures a1 == a2
  {
    if a1.Ok? && a2.Ok? {
      CurrentLevelUnique(t, employee, now, a1.value, a2.value);
    }
  }
}
