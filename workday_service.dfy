/** The workdays of `src/workday/services.rs`: the month/year filter text
    of the two listings that take it, the closed date range of the period
    listing, the page offsets, and the check-then-insert of
    `create_workday`. */
module WorkdayServices {
  import opened Wrappers
  import opened AppErrors
  import opened Text
  import opened Paginate
  import DriverServices

  /** A calendar date (`NaiveDate`), ordered year, then month, then day. */
  datatype Date = Date(year: int, month: int, day: int)

  predicate DateLe(a: Date, b: Date)
  {
    a.year < b.year
    || (a.year == b.year && a.month < b.month)
    || (a.year == b.year && a.month == b.month && a.day <= b.day)
  }

  lemma DateLeTransitive(a: Date, b: Date, c: Date)
    requires DateLe(a, b) && DateLe(b, c)
    ensures DateLe(a, c)
  {
  }

  /** A row of `workdays`; times of day are seconds since midnight. */
  datatype Workday = Workday(
    date: Date,
    driver: Uuid,
    startTime: int,
    endTime: Option<int>,
    restTime: int,
    overnightRest: bool)

  /** `GetAllWorkdaysQuery`. */
  datatype GetAllWorkdaysQuery = GetAllWorkdaysQuery(page: u32, limit: u32, month: Option<int>, year: Option<int>)

  /** `GetAllWorkdaysByPeriodQuery`. */
  datatype GetAllWorkdaysByPeriodQuery = GetAllWorkdaysByPeriodQuery(page: u32, limit: u32, startDate: Date, endDate: Date)

  /** A value bound to a placeholder of a workday query. */
  datatype WorkdayBind = DateBind(date: Date) | DriverBind(driver: Uuid) | NumberBind(number: int)

  const MONTH_CLAUSE_PREFIX := "EXTRACT(MONTH FROM date) = "
  const YEAR_CLAUSE_PREFIX := "EXTRACT(YEAR FROM date) = "
  const WORKDAY_COLUMNS := "fk_driver_id, date, start_time, end_time, rest_time, overnight_rest"
  const MONTHLY_BY_DRIVER_BASE :=
    "SELECT fk_driver_id, date, start_time, end_time, rest_time, overnight_rest FROM workdays WHERE fk_driver_id = $1"
  const WORKDAY_DRIVER_NOT_FOUND := NotFound("Driver not found", "")
  const WORKDAY_ALREADY_EXISTS := Conflict("A workday for this driver already exists", "WORKDAY_ALREADY_EXISTS")

  /** The meaning of the month and year clauses: an absent part does not
      filter. */
  predicate MatchesMonthYear(d: Date, month: Option<int>, year: Option<int>)
  {
    (month.None? || d.month == month.value) && (year.None? || d.year == year.value)
  }

  /** The clause list: the month clause, then the year clause, each only
      when its part is present. */
  function DateClauseList(month: Option<int>, year: Option<int>): (r: seq<string>)
    ensures |r| == (if month.Some? then 1 else 0) + (if year.Some? then 1 else 0)
    ensures month.Some? ==> r[0] == MONTH_CLAUSE_PREFIX + IntToString(month.value)
    ensures year.Some? ==> r[|r| - 1] == YEAR_CLAUSE_PREFIX + IntToString(year.value)
  {
    (if month.Some? then [MONTH_CLAUSE_PREFIX + IntToString(month.value)] else [])
    + (if year.Some? then [YEAR_CLAUSE_PREFIX + IntToString(year.value)] else [])
  }

  /** `where_list_request`, pushed clause by clause. */
  method DateClauses(month: Option<int>, year: Option<int>) returns (clauses: seq<string>)
    ensures clauses == DateClauseList(month, year)
  {
    clauses := [];
    if month.Some? {
      clauses := clauses + [MONTH_CLAUSE_PREFIX + IntToString(month.value)];
    }
    if year.Some? {
      clauses := clauses + [YEAR_CLAUSE_PREFIX + IntToString(year.value)];
    }
  }

  /** The WHERE clause of `get_all_workdays`: empty without month and
      year, else `WHERE ` and the clauses joined with ` AND `. */
  method WorkdaysWhereClause(month: Option<int>, year: Option<int>) returns (clause: string)
    ensures clause == "" <==> month.None? && year.None?
    ensures clause != "" ==> clause == "WHERE " + Join(DateClauseList(month, year), " AND ")
  {
    var clauses := DateClauses(month, year);
    clause := "";
    if month.Some? || year.Some? {
      clause := "WHERE " + Join(clauses, " AND ");
    }
  }

  /** The joined clauses: the month clause, then the year clause, with
      ` AND ` between them only when both are present. */
  lemma DateClauseText(month: Option<int>, year: Option<int>)
    ensures var text := Join(DateClauseList(month, year), " AND ");
            && (month.Some? && year.Some? ==>
                  text == MONTH_CLAUSE_PREFIX + IntToString(month.value) + " AND "
                          + YEAR_CLAUSE_PREFIX + IntToString(year.value))
            && (month.Some? && year.None? ==> text == MONTH_CLAUSE_PREFIX + IntToString(month.value))
            && (month.None? && year.Some? ==> text == YEAR_CLAUSE_PREFIX + IntToString(year.value))
            && (month.None? && year.None? ==> text == "")
  {
    if month.Some? && year.Some? {
      JoinPair(DateClauseList(month, year), " AND ");
    }
  }

  lemma JoinPair(pieces: seq<string>, sep: string)
    requires |pieces| == 2
    ensures Join(pieces, sep) == pieces[0] + sep + pieces[1]
  {
    assert pieces[1..] == [pieces[1]];
  }

  /** The query of `get_all_monthly_wordays_by_driver_id`, appended to the
      driver filter piece by piece. */
  method MonthlyByDriverQuery(month: Option<int>, year: Option<int>) returns (query: string)
    ensures month.None? && year.None? ==> query == MONTHLY_BY_DRIVER_BASE + " ORDER BY date DESC"
    ensures month.Some? || year.Some? ==>
      query == MONTHLY_BY_DRIVER_BASE + " AND " + Join(DateClauseList(month, year), " AND ") + " ORDER BY date DESC"
  {
    var clauses := DateClauses(month, year);
    var queryDate := if clauses == [] then "" else "AND " + Join(clauses, " AND ");
    query := MONTHLY_BY_DRIVER_BASE;
    if queryDate != "" {
      query := query + [' '];
      query := query + queryDate;
      SpaceBeforeAnd(MONTHLY_BY_DRIVER_BASE, Join(clauses, " AND "), " ORDER BY date DESC");
    }
    query := query + " ORDER BY date DESC";
  }

  /** Pushing a space and then `AND …` is appending ` AND …`. */
  lemma SpaceBeforeAnd(base: string, joined: string, tail: string)
    ensures base + [' '] + ("AND " + joined) + tail == base + " AND " + joined + tail
  {
    assert [' '] + ("AND " + joined) == " AND " + joined;
  }

  /** The closed date range of `get_all_workdays_by_period`. */
  predicate InPeriod(d: Date, startDate: Date, endDate: Date)
  {
    DateLe(startDate, d) && DateLe(d, endDate)
  }

  function WorkdaysInPeriod(rows: set<Workday>, startDate: Date, endDate: Date): (r: set<Workday>)
    ensures r <= rows
  {
    set w | w in rows && InPeriod(w.date, startDate, endDate)
  }

  /** Both bounds are included: a one-day period lists that day. */
  lemma PeriodIncludesBounds(w: Workday, startDate: Date, endDate: Date)
    requires DateLe(startDate, endDate)
    ensures (w.date == startDate || w.date == endDate) ==> InPeriod(w.date, startDate, endDate)
  {
  }

  /** Splitting a period at a day lists the same rows as the whole period,
      the splitting day in both halves. */
  lemma {:induction false} PeriodSplit(rows: set<Workday>, startDate: Date, mid: Date, endDate: Date)
    requires DateLe(startDate, mid) && DateLe(mid, endDate)
    ensures WorkdaysInPeriod(rows, startDate, mid) + WorkdaysInPeriod(rows, mid, endDate)
         == WorkdaysInPeriod(rows, startDate, endDate)
  {
    forall w | w in WorkdaysInPeriod(rows, startDate, mid)
      ensures w in WorkdaysInPeriod(rows, startDate, endDate)
    {
      DateLeTransitive(w.date, mid, endDate);
    }
    forall w | w in WorkdaysInPeriod(rows, mid, endDate)
      ensures w in WorkdaysInPeriod(rows, startDate, endDate)
    {
      DateLeTransitive(startDate, mid, w.date);
    }
  }

  /** For a real day of the month, the month and year clauses select
      exactly the period from the 1st to the 31st of that month. */
  lemma MonthYearIsPeriod(d: Date, month: int, year: int)
    requires 1 <= d.day <= 31
    ensures MatchesMonthYear(d, Some(month), Some(year)) <==> InPeriod(d, Date(year, month, 1), Date(year, month, 31))
  {
  }

  /** The values bound to each paged workday query: the filter's values
      first, then the limit and the offset, each at the placeholder its
      query names (`LIMIT $1 OFFSET $2`, `$3`/`$4`, `$2`/`$3`). */
  function ListingBinds(q: GetAllWorkdaysQuery): (r: seq<WorkdayBind>)
    ensures |r| == 2 && r[0] == NumberBind(q.limit) && r[1] == NumberBind(Offset(q.page, q.limit))
  {
    [NumberBind(q.limit), NumberBind(Offset(q.page, q.limit))]
  }

  function PeriodBinds(q: GetAllWorkdaysByPeriodQuery): (r: seq<WorkdayBind>)
    ensures |r| == 4 && r[..2] == [DateBind(q.startDate), DateBind(q.endDate)]
    ensures r[2..] == ListingBinds(GetAllWorkdaysQuery(q.page, q.limit, None, None))
  {
    [DateBind(q.startDate), DateBind(q.endDate), NumberBind(q.limit), NumberBind(Offset(q.page, q.limit))]
  }

  function ByDriverBinds(q: PaginateQuery, driver: Uuid): (r: seq<WorkdayBind>)
    ensures |r| == 3 && r[0] == DriverBind(driver)
    ensures r[1..] == ListingBinds(GetAllWorkdaysQuery(q.page, q.limit, None, None))
  {
    [DriverBind(driver), NumberBind(q.limit), NumberBind(Offset(q.page, q.limit))]
  }

  /** `create_workday` on the tables: the driver must exist, and the insert
      fails, reported as a conflict, when the driver already has a workday
      on that date. */
  function CreateWorkdayOutcome(drivers: set<Uuid>, workdays: map<(Uuid, Date), Workday>, req: Workday)
    : (r: Result<Workday>)
    ensures r.Ok? <==> req.driver in drivers && (req.driver, req.date) !in workdays
    ensures r.Ok? ==> r.value == req
  {
    if req.driver !in drivers then Err(WORKDAY_DRIVER_NOT_FOUND)
    else if (req.driver, req.date) in workdays then Err(WORKDAY_ALREADY_EXISTS)
    else Ok(req)
  }

  /** Every workday belongs to an existing driver and is keyed by its
      driver and date. */
  ghost predicate WorkdaysConsistent(drivers: set<Uuid>, workdays: map<(Uuid, Date), Workday>)
  {
    forall k :: k in workdays ==> workdays[k].driver == k.0 && workdays[k].date == k.1 && k.0 in drivers
  }

  lemma CreateWorkdayPreservesConsistency(drivers: set<Uuid>, workdays: map<(Uuid, Date), Workday>, req: Workday)
    requires WorkdaysConsistent(drivers, workdays)
    requires CreateWorkdayOutcome(drivers, workdays, req).Ok?
    ensures WorkdaysConsistent(drivers, workdays[(req.driver, req.date) := req])
  {
  }

  /** The same workday cannot be created twice. */
  lemma CreateWorkdayTwiceConflicts(drivers: set<Uuid>, workdays: map<(Uuid, Date), Workday>, req: Workday)
    requires CreateWorkdayOutcome(drivers, workdays, req).Ok?
    ensures CreateWorkdayOutcome(drivers, workdays[(req.driver, req.date) := req], req) == Err(WORKDAY_ALREADY_EXISTS)
  {
  }

  /** The workday table, next to the driver table it refers to. */
  class WorkdayService {
    const driverTable: DriverServices.DriverService
    var workdays: map<(Uuid, Date), Workday>

    constructor (driverTable: DriverServices.DriverService, workdays: map<(Uuid, Date), Workday>)
      ensures this.driverTable == driverTable && this.workdays == workdays
    {
      this.driverTable := driverTable;
      this.workdays := workdays;
    }

    method CreateWorkday(req: Workday) returns (r: Result<Workday>)
      modifies this`workdays
      ensures r == CreateWorkdayOutcome(driverTable.drivers.Keys, old(workdays), req)
      ensures workdays == if r.Ok? then old(workdays)[(req.driver, req.date) := req] else old(workdays)
    {
      var driver := driverTable.GetDriverById(req.driver);
      if driver.Err? {
        return Err(WORKDAY_DRIVER_NOT_FOUND);
      }
      if (req.driver, req.date) in workdays {
        return Err(WORKDAY_ALREADY_EXISTS);
      }
      workdays := workdays[(req.driver, req.date) := req];
      r := Ok(req);
    }
  }
}
