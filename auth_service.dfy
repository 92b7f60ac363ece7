/** Permission resolution with its cache, and the permission-embedding
    steps of login and token refresh (`src/auth/services.rs`). */
module AuthServices {
  import opened Wrappers
  import opened AppErrors
  import opened EmployeeModels
  import opened Store
  import opened GrantRules
  import opened Jwt

  /** The lifetime of a cached permission list: 24 hours. */
  const PERMISSIONS_TTL_SECONDS := 60 * 60 * 24
  const CACHE_WRITE_FAILED := Internal("Failed to cache permissions in Redis")
  const INVALID_CREDENTIALS := Validation("Invalid email or password")
  const PASSWORD_CHECK_FAILED := Internal("Invalid email or password")
  const REFRESH_TOKEN_INVALID := Validation("Refresh token invalide")
  const REFRESH_TOKEN_EXPIRED := Validation("Refresh token expiré")
  /** The clock skew `jsonwebtoken`'s default validation allows past
      `exp` before it refuses to decode a token. */
  const DECODE_LEEWAY_SECONDS := 60
  const EMPLOYEE_INACTIVE := Validation("Employé non trouvé ou désactivé")

  /** What the cache holds under an employee's key: a JSON integer list, or
      text that does not parse as one. */
  datatype CachedValue = IdList(ids: seq<int>) | Unparseable

  /** A cache entry and the instant its time-to-live runs out. */
  datatype CacheEntry = CacheEntry(value: CachedValue, expiresAt: Instant)

  /** The outcome of the password-hash comparison, an external library. */
  datatype PasswordCheck = Matches | Mismatch | HashUnreadable

  /** The claims of a refresh token whose signature checks out. */
  datatype RefreshClaims = RefreshClaims(sub: Uuid, exp: Instant)

  /** The authorization-type ids a level confers: its links that reach an
      existing authorization type. */
  function LevelPermissions(t: Tables, a: AccreditationRow): set<int>
  {
    if a.levelId in t.levels && a.levelId in t.links then
      set p | p in t.links[a.levelId] && p in t.authorizations
    else {}
  }

  /** The first half of the permission query: the permissions of the
      levels of the employee's accreditations active at `now`. */
  function LevelGrants(t: Tables, employee: Uuid, now: Instant): set<int>
  {
    set k, p | k in t.accreditations && t.accreditations[k].recipient == employee
               && AccreditationActiveAt(t.accreditations[k], now)
               && p in LevelPermissions(t, t.accreditations[k]) :: p
  }

  /** The second half: the permissions of the employee's derogations
      active at `now`. */
  function DerogationGrants(derogations: map<int, DerogationRow>, employee: Uuid, now: Instant): set<int>
  {
    set k | k in derogations && derogations[k].recipient == employee
            && DerogationActiveAt(derogations[k], now) :: derogations[k].permission
  }

  /** The set the permission query computes, the `UNION` of both halves. */
  function EffectivePermissions(t: Tables, employee: Uuid, now: Instant): set<int>
  {
    LevelGrants(t, employee, now) + DerogationGrants(t.derogations, employee, now)
  }

  predicate StrictlyAscending(s: seq<int>)
  {
    forall i, j :: 0 <= i < j < |s| ==> s[i] < s[j]
  }

  /** The least element of a set, found by descending through the
      elements below a given one. */
  lemma {:induction false} Minimum(s: set<int>, x: int) returns (m: int)
    requires x in s
    ensures m in s && forall y :: y in s ==> m <= y
    decreases s
  {
    if forall y :: y in s ==> x <= y {
      m := x;
    } else {
      var y :| y in s && y < x;
      var smaller := set z | z in s && z < x;
      assert smaller < s by {
        assert x in s && x !in smaller;
      }
      m := Minimum(smaller, y);
      forall z | z in s ensures m <= z {
        if z < x {
          assert z in smaller;
        }
      }
    }
  }

  lemma HasMinimum(s: set<int>, x: int)
    requires x in s
    ensures exists m :: m in s && forall y :: y in s ==> m <= y
  {
    var m := Minimum(s, x);
  }

  /** `UNION` then `ORDER BY`: the elements of a set, each once, in
      ascending order. */
  function SortedIds(s: set<int>): (r: seq<int>)
    ensures StrictlyAscending(r)
    ensures forall x :: x in r <==> x in s
    decreases s
  {
    if !(exists x :: x in s) then []
    else
      var x :| x in s;
      HasMinimum(s, x);
      var m :| m in s && forall y :: y in s ==> m <= y;
      [m] + SortedIds(s - {m})
  }

  /** The list a live cache entry yields, if it parses. */
  function CachedIds(cache: map<Uuid, CacheEntry>, employee: Uuid, now: Instant): Option<seq<int>>
  {
    if employee in cache && now < cache[employee].expiresAt && cache[employee].value.IdList? then
      Some(cache[employee].value.ids)
    else None
  }

  /** What `get_employee_permissions` returns and the cache it leaves:
      a parseable cached list as is; otherwise the recomputed list, cached
      for 24 hours, or `Internal` when the cache cannot be written. */
  function ResolvePermissions(cache: map<Uuid, CacheEntry>, t: Tables, employee: Uuid, now: Instant,
                              cacheWritable: bool): (r: (Result<seq<int>>, map<Uuid, CacheEntry>))
    ensures forall e :: e in cache && e != employee ==> e in r.1 && r.1[e] == cache[e]
    ensures cache.Keys <= r.1.Keys
    ensures r.0.Err? ==> r == (Err(CACHE_WRITE_FAILED), cache)
    ensures r.1 != cache ==> r.0.Ok? && r.1 == cache[employee := CacheEntry(IdList(r.0.value), now + PERMISSIONS_TTL_SECONDS)]
  {
    match CachedIds(cache, employee, now)
    case Some(ids) => (Ok(ids), cache)
    case None =>
      var ids := SortedIds(EffectivePermissions(t, employee, now));
      if cacheWritable then
        (Ok(ids), cache[employee := CacheEntry(IdList(ids), now + PERMISSIONS_TTL_SECONDS)])
      else
        (Err(CACHE_WRITE_FAILED), cache)
  }

  /** A live, parseable entry is returned unchanged, whatever the tables
      now say, and the cache is left as it was. */
  lemma CacheHitReturnsCachedList(cache: map<Uuid, CacheEntry>, t: Tables, employee: Uuid, now: Instant,
                                  cacheWritable: bool)
    requires employee in cache && now < cache[employee].expiresAt && cache[employee].value.IdList?
    ensures ResolvePermissions(cache, t, employee, now, cacheWritable) == (Ok(cache[employee].value.ids), cache)
  {
  }

  /** A missing, expired or unparseable entry is recomputed: the result
      lists exactly the effective permissions, strictly ascending, and is
      cached for 24 hours; if the write fails the call fails with
      `Internal` and the cache is unchanged. */
  lemma CacheMissRecomputes(cache: map<Uuid, CacheEntry>, t: Tables, employee: Uuid, now: Instant,
                            cacheWritable: bool)
    requires !(employee in cache && now < cache[employee].expiresAt && cache[employee].value.IdList?)
    ensures var (r, c) := ResolvePermissions(cache, t, employee, now, cacheWritable);
      && (cacheWritable ==>
            && r.Ok? && StrictlyAscending(r.value)
            && (forall p :: p in r.value <==> p in EffectivePermissions(t, employee, now))
            && c == cache[employee := CacheEntry(IdList(r.value), now + PERMISSIONS_TTL_SECONDS)])
      && (!cacheWritable ==> r == Err(CACHE_WRITE_FAILED) && c == cache)
  {
  }

  /** Until its entry expires, a second resolution returns the same list as
      the first, even if grants changed in between: the cache is never
      invalidated. */
  lemma ResolutionStableUntilExpiry(cache: map<Uuid, CacheEntry>, t1: Tables, t2: Tables, employee: Uuid,
                                    now1: Instant, now2: Instant, writable1: bool, writable2: bool)
    requires ResolvePermissions(cache, t1, employee, now1, writable1).0.Ok?
    requires now1 <= now2
    requires var c := ResolvePermissions(cache, t1, employee, now1, writable1).1;
      employee in c && now2 < c[employee].expiresAt
    ensures ResolvePermissions(ResolvePermissions(cache, t1, employee, now1, writable1).1, t2, employee, now2, writable2).0
         == ResolvePermissions(cache, t1, employee, now1, writable1).0
  {
  }

  /** Only grants active at `now` contribute: with none, the effective set
      is empty. */
  lemma NoActiveGrantNoPermission(t: Tables, employee: Uuid, now: Instant)
    requires forall k :: k in t.accreditations && t.accreditations[k].recipient == employee
               ==> !AccreditationActiveAt(t.accreditations[k], now)
    requires forall k :: k in t.derogations && t.derogations[k].recipient == employee
               ==> !DerogationActiveAt(t.derogations[k], now)
    ensures EffectivePermissions(t, employee, now) == {}
  {
  }

  /** Inserting a derogation active at `now` adds exactly its permission to
      the recipient's effective set; an inactive one adds nothing. */
  lemma {:induction false} DerogationContribution(t: Tables, k: int, d: DerogationRow, now: Instant)
    requires k !in t.derogations
    ensures var t' := t.(derogations := t.derogations[k := d]);
      EffectivePermissions(t', d.recipient, now)
        == EffectivePermissions(t, d.recipient, now) + (if DerogationActiveAt(d, now) then {d.permission} else {})
  {
    var t' := t.(derogations := t.derogations[k := d]);
    var e := d.recipient;
    assert LevelGrants(t', e, now) == LevelGrants(t, e, now) by {
      assert forall a :: LevelPermissions(t', a) == LevelPermissions(t, a);
    }
    var before := DerogationGrants(t.derogations, e, now);
    var after := DerogationGrants(t'.derogations, e, now);
    forall p | p in after ensures p in before || (DerogationActiveAt(d, now) && p == d.permission) {
      var k1 :| k1 in t'.derogations && t'.derogations[k1].recipient == e
                && DerogationActiveAt(t'.derogations[k1], now) && t'.derogations[k1].permission == p;
      if k1 != k {
        assert t.derogations[k1] == t'.derogations[k1];
      }
    }
    forall p | p in before ensures p in after {
      var k1 :| k1 in t.derogations && t.derogations[k1].recipient == e
                && DerogationActiveAt(t.derogations[k1], now) && t.derogations[k1].permission == p;
      assert t'.derogations[k1] == t.derogations[k1];
    }
    if DerogationActiveAt(d, now) {
      assert t'.derogations[k] == d;
      assert d.permission in after;
    }
  }

  /** The access-token claims `generate_access_token` builds for an
      employee and a permission list: issued at `now`, expiring `lifetime`
      seconds later. */
  function AccessClaims(id: Uuid, e: Employee, permissions: seq<int>, now: Instant, lifetime: nat): (c: Claims)
    ensures c.sub == id && c.email == e.professionalEmail && c.firstname == e.firstname && c.lastname == e.lastname
    ensures c.permissions == permissions
    ensures c.iat == now && c.exp == now + lifetime && !IsExpired(c, now)
  {
    Claims(id, e.professionalEmail, e.firstname, e.lastname, permissions, now + lifetime, now)
  }

  /** The employees a login with this e-mail can match: active ones with
      that professional address. */
  function LoginCandidates(employees: map<Uuid, Employee>, email: string): set<Uuid>
  {
    set id | id in employees && employees[id].professionalEmail == email && employees[id].deactivatedAt.None?
  }

  /** `AuthService`: the database and the permission cache it reads
      first. */
  class AuthService {
    const db: Database
    var cache: map<Uuid, CacheEntry>
    /** The access token's lifetime in seconds, derived from
        `access_token_duration_minutes` by the claims constructor of
        `src/auth/models.rs`, which is not part of this model. */
    const accessTokenLifetime: nat

    constructor (db: Database, accessTokenLifetime: nat)
      ensures this.db == db && this.accessTokenLifetime == accessTokenLifetime
      ensures cache == map[]
    {
      this.db := db;
      this.accessTokenLifetime := accessTokenLifetime;
      cache := map[];
    }

    /** `get_employee_permissions`: read the cache, else recompute and
        write back with a 24-hour time-to-live. */
    method GetEmployeePermissions(employee: Uuid, now: Instant, cacheWritable: bool) returns (r: Result<seq<int>>)
      modifies this`cache
      ensures (r, cache) == ResolvePermissions(old(cache), db.T(), employee, now, cacheWritable)
    {
      if employee in cache && now < cache[employee].expiresAt {
        match cache[employee].value
        case IdList(ids) =>
          return Ok(ids);
        case Unparseable =>
      }
      var ids := SortedIds(EffectivePermissions(db.T(), employee, now));
      if !cacheWritable {
        return Err(CACHE_WRITE_FAILED);
      }
      cache := cache[employee := CacheEntry(IdList(ids), now + PERMISSIONS_TTL_SECONDS)];
      return Ok(ids);
    }

    /** `login`: find the active employee by professional e-mail, check the
        password, resolve the permissions, record the login instant and
        issue claims embedding the resolved list. */
    method Login(email: string, password: PasswordCheck, now: Instant, cacheWritable: bool)
      returns (r: Result<Claims>)
      modifies this`cache, db`employees
      ensures LoginCandidates(old(db.employees), email) == {} ==> r == Err(INVALID_CREDENTIALS)
      ensures LoginCandidates(old(db.employees), email) != {} && password == Mismatch ==> r == Err(INVALID_CREDENTIALS)
      ensures LoginCandidates(old(db.employees), email) != {} && password == HashUnreadable ==> r == Err(PASSWORD_CHECK_FAILED)
      ensures LoginCandidates(old(db.employees), email) == {} || password != Matches ==> cache == old(cache)
      ensures r.Ok? ==>
        && password == Matches
        && r.value.sub in LoginCandidates(old(db.employees), email)
        && (Ok(r.value.permissions), cache) == ResolvePermissions(old(cache), old(db.T()), r.value.sub, now, cacheWritable)
        && r.value == AccessClaims(r.value.sub, old(db.employees)[r.value.sub], r.value.permissions, now, accessTokenLifetime)
        && db.employees == old(db.employees)[r.value.sub := old(db.employees)[r.value.sub].(lastLoginAt := Some(now))]
      ensures r.Err? ==> db.employees == old(db.employees)
      ensures LoginCandidates(old(db.employees), email) != {} && password == Matches && cacheWritable ==> r.Ok?
      ensures r.Err? && LoginCandidates(old(db.employees), email) != {} && password == Matches ==>
        r == Err(CACHE_WRITE_FAILED)
    {
      var candidates := LoginCandidates(db.employees, email);
      if candidates == {} {
        return Err(INVALID_CREDENTIALS);
      }
      var id :| id in candidates;
      match password
      case HashUnreadable =>
        return Err(PASSWORD_CHECK_FAILED);
      case Mismatch =>
        return Err(INVALID_CREDENTIALS);
      case Matches =>
      var permissions := GetEmployeePermissions(id, now, cacheWritable);
      if permissions.Err? {
        return Err(permissions.error);
      }
      var employee := db.employees[id];
      db.employees := db.employees[id := employee.(lastLoginAt := Some(now))];
      return Ok(AccessClaims(id, employee, permissions.value, now, accessTokenLifetime));
    }

    /** `refresh_token`: a decodable, unexpired refresh token of an
        existing, active employee yields fresh access claims embedding the
        freshly resolved permissions.  `decoded` holds the claims when the
        token's signature and format check out; decoding also refuses a
        token more than `DECODE_LEEWAY_SECONDS` past its `exp`, so the
        "expired" answer only covers the leeway itself. */
    method RefreshToken(decoded: Option<RefreshClaims>, now: Instant, cacheWritable: bool)
      returns (r: Result<Claims>)
      modifies this`cache
      ensures decoded.None? || now > decoded.value.exp + DECODE_LEEWAY_SECONDS ==>
        r == Err(REFRESH_TOKEN_INVALID) && cache == old(cache)
      ensures decoded.Some? && decoded.value.exp < now <= decoded.value.exp + DECODE_LEEWAY_SECONDS ==>
        r == Err(REFRESH_TOKEN_EXPIRED) && cache == old(cache)
      ensures decoded.Some? && now <= decoded.value.exp && decoded.value.sub !in LoginCandidatesById(db.employees) ==>
        r == Err(EMPLOYEE_INACTIVE) && cache == old(cache)
      ensures decoded.Some? && now <= decoded.value.exp && decoded.value.sub in LoginCandidatesById(db.employees) ==>
        var (resolved, c) := ResolvePermissions(old(cache), db.T(), decoded.value.sub, now, cacheWritable);
        && cache == c
        && (resolved.Err? ==> r == Err(resolved.error))
        && (resolved.Ok? ==> r == Ok(AccessClaims(decoded.value.sub, db.employees[decoded.value.sub],
                                                  resolved.value, now, accessTokenLifetime)))
    {
      if decoded.None? || now > decoded.value.exp + DECODE_LEEWAY_SECONDS {
        return Err(REFRESH_TOKEN_INVALID);
      }
      var claims := decoded.value;
      if now > claims.exp {
        return Err(REFRESH_TOKEN_EXPIRED);
      }
      if claims.sub !in db.employees || db.employees[claims.sub].deactivatedAt.Some? {
        return Err(EMPLOYEE_INACTIVE);
      }
      var permissions := GetEmployeePermissions(claims.sub, now, cacheWritable);
      if permissions.Err? {
        return Err(permissions.error);
      }
      return Ok(AccessClaims(claims.sub, db.employees[claims.sub], permissions.value, now, accessTokenLifetime));
    }
  }

  /** The employees a refresh token may name: existing and not
      deactivated. */
  function LoginCandidatesById(employees: map<Uuid, Employee>): set<Uuid>
  {
    set id | id in employees && employees[id].deactivatedAt.None?
  }
}
