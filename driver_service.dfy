/** The driver records of `src/driver/services.rs`: creation with its
    e-mail uniqueness check and name normalisation, the field-by-field
    update, and the deactivate/reactivate state machine, over an in-memory
    `drivers` table. */
module DriverServices {
  import opened Wrappers
  import opened AppErrors
  import opened Text
  import opened TitleCase

  /** A `serde_json::Value` as stored in `rest_json`: the JSON `null`
      document is told apart from every other document. */
  datatype JsonValue = JsonNull | JsonDocument(text: string)

  /** A row of the `drivers` table without its key; the password hash is
      left out. */
  datatype Driver = Driver(
    firstname: string,
    lastname: string,
    gender: Option<string>,
    email: string,
    phoneNumber: Option<string>,
    isSearchable: bool,
    allowRequestProfessionalAgreement: bool,
    language: string,
    restJson: Option<JsonValue>,
    mailPreferences: int,
    createdAt: Instant,
    verifiedAt: Option<Instant>,
    lastLoginAt: Option<Instant>,
    deactivatedAt: Option<Instant>)

  /** `CreateDriverRequest` without its password. */
  datatype CreateDriverRequest = CreateDriverRequest(
    firstname: string,
    lastname: string,
    gender: Option<string>,
    email: string,
    phoneNumber: Option<string>,
    isSearchable: Option<bool>,
    allowRequestProfessionalAgreement: Option<bool>,
    language: string)

  /** `UpdateDriverRequest`: every field optional, absent meaning "keep". */
  datatype UpdateDriverRequest = UpdateDriverRequest(
    firstname: Option<string>,
    lastname: Option<string>,
    gender: Option<string>,
    email: Option<string>,
    phoneNumber: Option<string>,
    isSearchable: Option<bool>,
    allowRequestProfessionalAgreement: Option<bool>,
    language: Option<string>,
    restJson: Option<JsonValue>,
    mailPreferences: Option<int>,
    verifiedAt: Option<Instant>)

  const DRIVER_NOT_FOUND := NotFound("Driver not found", "DRIVER_NOT_FOUND")
  const DRIVER_EMAIL_ALREADY_EXISTS :=
    Conflict("A driver with this email already exists", "DRIVER_EMAIL_ALREADY_EXISTS")
  const DRIVER_ALREADY_DEACTIVATED :=
    NotFound("Driver has already been deactivated", "DRIVER_ALREADY_DEACTIVATED")
  const DRIVER_NOT_DEACTIVATED := NotFound("Driver is not deactivated", "DRIVER_NOT_DEACTIVATED")
  /** The insert binds an absent flag as SQL `NULL` into a column that the
      non-optional `bool` of the returned row shows to be `NOT NULL`. */
  const NULL_FLAG_REJECTED := Database("null value in column violates not-null constraint")
  const DEFAULT_MAIL_PREFERENCES := 32

  /** `get_driver_by_id`. */
  function DriverById(drivers: map<Uuid, Driver>, id: Uuid): (r: Result<Driver>)
    ensures r.Ok? <==> id in drivers
    ensures r.Ok? ==> r.value == drivers[id]
    ensures r.Err? ==> r.error == DRIVER_NOT_FOUND
  {
    if id in drivers then Ok(drivers[id]) else Err(DRIVER_NOT_FOUND)
  }

  /** `email_exists`: an exact comparison with the stored address. */
  predicate EmailTaken(drivers: map<Uuid, Driver>, email: string)
  {
    exists id :: id in drivers && drivers[id].email == email
  }

  /** No two drivers share an e-mail address. */
  ghost predicate UniqueEmails(drivers: map<Uuid, Driver>)
  {
    forall a, b :: a in drivers && b in drivers && drivers[a].email == drivers[b].email ==> a == b
  }

  /** The stored form of names and addresses: names are title-cased and the
      address lower-cased, so normalising them again changes nothing. */
  predicate Normalised(d: Driver)
  {
    && ToTitleCase(d.firstname) == d.firstname
    && ToTitleCase(d.lastname) == d.lastname
    && ToLower(d.email) == d.email
  }

  /** The row the INSERT of `create_driver` stores. */
  function NewDriverRow(req: CreateDriverRequest, now: Instant): (r: Result<Driver>)
    ensures r.Ok? <==> req.isSearchable.Some? && req.allowRequestProfessionalAgreement.Some?
    ensures r.Err? ==> r.error == NULL_FLAG_REJECTED
  {
    if req.isSearchable.None? || req.allowRequestProfessionalAgreement.None? then Err(NULL_FLAG_REJECTED)
    else Ok(Driver(ToTitleCase(req.firstname), ToTitleCase(req.lastname), req.gender, ToLower(req.email),
                   req.phoneNumber, req.isSearchable.value, req.allowRequestProfessionalAgreement.value,
                   req.language, Some(JsonNull), DEFAULT_MAIL_PREFERENCES, now, None, None, None))
  }

  /** A created driver is stored in normal form, active, never verified nor
      logged in, with the JSON `null` rest document and the default mail
      preferences. */
  lemma NewDriverRowNormalised(req: CreateDriverRequest, now: Instant)
    requires NewDriverRow(req, now).Ok?
    ensures var d := NewDriverRow(req, now).value;
            && Normalised(d)
            && d.firstname == ToTitleCase(req.firstname) && d.lastname == ToTitleCase(req.lastname)
            && d.email == ToLower(req.email)
            && d.deactivatedAt.None? && d.verifiedAt.None? && d.lastLoginAt.None? && d.createdAt == now
            && d.restJson == Some(JsonNull) && d.mailPreferences == DEFAULT_MAIL_PREFERENCES
  {
    var d := NewDriverRow(req, now).value;
    assert d.firstname == ToTitleCase(req.firstname) && d.lastname == ToTitleCase(req.lastname);
    assert d.email == ToLower(req.email);
    TitleCaseIdempotent(req.firstname);
    TitleCaseIdempotent(req.lastname);
    ToLowerIdempotent(req.email);
    assert Normalised(d);
  }

  /** `create_driver` as written: the existence check compares the address
      as received, while the row stores it lower-cased. */
  function CreateDriverAsWritten(drivers: map<Uuid, Driver>, req: CreateDriverRequest, now: Instant): (r: Result<Driver>)
    ensures r.Ok? ==> !EmailTaken(drivers, req.email) && r.value.email == ToLower(req.email)
  {
    if EmailTaken(drivers, req.email) then Err(DRIVER_EMAIL_ALREADY_EXISTS) else NewDriverRow(req, now)
  }

  /** The raw check lets a second driver in under an address that differs
      from a stored one only in case, and both rows then carry the same
      address. */
  lemma RawEmailCheckAdmitsDuplicate(stored: Driver, req: CreateDriverRequest, now: Instant)
    requires stored.email == "ann@fleet.io" && req.email == "Ann@fleet.io"
    requires req.isSearchable.Some? && req.allowRequestProfessionalAgreement.Some?
    ensures var drivers := map[1 := stored];
            var r := CreateDriverAsWritten(drivers, req, now);
            && UniqueEmails(drivers)
            && r.Ok?
            && !UniqueEmails(drivers[2 := r.value])
  {
    var drivers := map[1 := stored];
    LowerAnnExample();
    assert !EmailTaken(drivers, req.email) by {
      assert stored.email[0] != req.email[0];
    }
    var t := drivers[2 := CreateDriverAsWritten(drivers, req, now).value];
    assert t[1].email == t[2].email;
  }

  /** The address of the two examples, lower-cased. */
  lemma LowerAnnExample()
    ensures ToLower("Ann@fleet.io") == "ann@fleet.io"
  {
    assert IsAsciiUpper('A') && ToLowerChar('A') == 'a';
  }

  /** `create_driver` with the existence check made on the address it
      stores. */
  function CreateDriverOutcome(drivers: map<Uuid, Driver>, req: CreateDriverRequest, now: Instant): (r: Result<Driver>)
    ensures r.Ok? ==> !EmailTaken(drivers, r.value.email) && r.value.email == ToLower(req.email)
  {
    if EmailTaken(drivers, ToLower(req.email)) then Err(DRIVER_EMAIL_ALREADY_EXISTS) else NewDriverRow(req, now)
  }

  /** Creation reports a conflict exactly when a driver already has the
      lower-cased address, and otherwise fails only on an absent flag. */
  lemma CreateConflictExactly(drivers: map<Uuid, Driver>, req: CreateDriverRequest, now: Instant)
    ensures CreateDriverOutcome(drivers, req, now) == Err(DRIVER_EMAIL_ALREADY_EXISTS)
        <==> EmailTaken(drivers, ToLower(req.email))
    ensures !EmailTaken(drivers, ToLower(req.email))
        ==> CreateDriverOutcome(drivers, req, now) == NewDriverRow(req, now)
  {
  }

  /** The corrected check refuses the request of
      `RawEmailCheckAdmitsDuplicate`. */
  lemma LoweredEmailCheckRejectsCaseVariant(stored: Driver, req: CreateDriverRequest, now: Instant)
    requires stored.email == "ann@fleet.io" && req.email == "Ann@fleet.io"
    ensures CreateDriverOutcome(map[1 := stored], req, now) == Err(DRIVER_EMAIL_ALREADY_EXISTS)
  {
    LowerAnnExample();
    assert map[1 := stored][1].email == ToLower(req.email);
  }

  /** With the corrected check, creation keeps addresses unique. */
  lemma CreatePreservesUniqueEmails(drivers: map<Uuid, Driver>, req: CreateDriverRequest, now: Instant, id: Uuid)
    requires UniqueEmails(drivers) && id !in drivers
    requires CreateDriverOutcome(drivers, req, now).Ok?
    ensures UniqueEmails(drivers[id := CreateDriverOutcome(drivers, req, now).value])
  {
  }

  /** A name field after an update: title-cased when present. */
  function NewName(value: Option<string>, current: string): string
  {
    if value.Some? then ToTitleCase(value.value) else current
  }

  /** The address after an update: lower-cased when present. */
  function NewEmail(value: Option<string>, current: string): string
  {
    if value.Some? then ToLower(value.value) else current
  }

  /** A nullable column after an update: only a present value is written,
      so an update never clears it. */
  function Replace<T>(value: Option<T>, current: Option<T>): Option<T>
  {
    if value.Some? then value else current
  }

  /** The row after `update_driver`'s statements: each present field is
      written, names title-cased and the address lower-cased. */
  function ApplyUpdate(d: Driver, u: UpdateDriverRequest): (r: Driver)
    ensures u.firstname.Some? ==> r.firstname == ToTitleCase(u.firstname.value)
    ensures u.lastname.Some? ==> r.lastname == ToTitleCase(u.lastname.value)
    ensures u.gender.Some? ==> r.gender == u.gender
    ensures u.email.Some? ==> r.email == ToLower(u.email.value)
    ensures u.phoneNumber.Some? ==> r.phoneNumber == u.phoneNumber
    ensures u.isSearchable.Some? ==> r.isSearchable == u.isSearchable.value
    ensures u.allowRequestProfessionalAgreement.Some?
        ==> r.allowRequestProfessionalAgreement == u.allowRequestProfessionalAgreement.value
    ensures u.language.Some? ==> r.language == u.language.value
    ensures u.restJson.Some? ==> r.restJson == u.restJson
    ensures u.mailPreferences.Some? ==> r.mailPreferences == u.mailPreferences.value
    ensures u.verifiedAt.Some? ==> r.verifiedAt == u.verifiedAt
    ensures u.firstname.None? ==> r.firstname == d.firstname
    ensures u.lastname.None? ==> r.lastname == d.lastname
    ensures u.gender.None? ==> r.gender == d.gender
    ensures u.email.None? ==> r.email == d.email
    ensures u.phoneNumber.None? ==> r.phoneNumber == d.phoneNumber
    ensures u.isSearchable.None? ==> r.isSearchable == d.isSearchable
    ensures u.allowRequestProfessionalAgreement.None?
        ==> r.allowRequestProfessionalAgreement == d.allowRequestProfessionalAgreement
    ensures u.language.None? ==> r.language == d.language
    ensures u.restJson.None? ==> r.restJson == d.restJson
    ensures u.mailPreferences.None? ==> r.mailPreferences == d.mailPreferences
    ensures u.verifiedAt.None? ==> r.verifiedAt == d.verifiedAt
    ensures r.createdAt == d.createdAt && r.lastLoginAt == d.lastLoginAt && r.deactivatedAt == d.deactivatedAt
  {
    Driver(
      NewName(u.firstname, d.firstname),
      NewName(u.lastname, d.lastname),
      Replace(u.gender, d.gender),
      NewEmail(u.email, d.email),
      Replace(u.phoneNumber, d.phoneNumber),
      u.isSearchable.GetOr(d.isSearchable),
      u.allowRequestProfessionalAgreement.GetOr(d.allowRequestProfessionalAgreement),
      u.language.GetOr(d.language),
      Replace(u.restJson, d.restJson),
      u.mailPreferences.GetOr(d.mailPreferences),
      d.createdAt,
      Replace(u.verifiedAt, d.verifiedAt),
      d.lastLoginAt,
      d.deactivatedAt)
  }

  /** Sending the same update twice has the effect of sending it once. */
  lemma UpdateIdempotent(d: Driver, u: UpdateDriverRequest)
    ensures ApplyUpdate(ApplyUpdate(d, u), u) == ApplyUpdate(d, u)
  {
    var once := ApplyUpdate(d, u);
    var twice := ApplyUpdate(once, u);
    NewNameTwice(u.firstname, d.firstname);
    NewNameTwice(u.lastname, d.lastname);
    NewEmailTwice(u.email, d.email);
    assert twice.firstname == once.firstname && twice.lastname == once.lastname && twice.email == once.email;
  }

  lemma NewNameTwice(value: Option<string>, current: string)
    ensures NewName(value, NewName(value, current)) == NewName(value, current)
  {
    if value.Some? { TitleCaseIdempotent(value.value); }
  }

  lemma NewEmailTwice(value: Option<string>, current: string)
    ensures NewEmail(value, NewEmail(value, current)) == NewEmail(value, current)
  {
    if value.Some? { ToLowerIdempotent(value.value); }
  }

  /** An update keeps a normalised row normalised. */
  lemma UpdateKeepsNormalised(d: Driver, u: UpdateDriverRequest)
    requires Normalised(d)
    ensures Normalised(ApplyUpdate(d, u))
  {
    if u.firstname.Some? { TitleCaseIdempotent(u.firstname.value); }
    if u.lastname.Some? { TitleCaseIdempotent(u.lastname.value); }
    if u.email.Some? { ToLowerIdempotent(u.email.value); }
  }

  /** `deactivate_driver`: the driver must exist and be active; it is then
      stamped with `now`. */
  function Deactivate(drivers: map<Uuid, Driver>, id: Uuid, now: Instant): (r: Result<map<Uuid, Driver>>)
    ensures r.Ok? <==> id in drivers && drivers[id].deactivatedAt.None?
    ensures r.Err? ==> r.error == (if id in drivers then DRIVER_ALREADY_DEACTIVATED else DRIVER_NOT_FOUND)
  {
    if id !in drivers then Err(DRIVER_NOT_FOUND)
    else if drivers[id].deactivatedAt.Some? then Err(DRIVER_ALREADY_DEACTIVATED)
    else Ok(drivers[id := drivers[id].(deactivatedAt := Some(now))])
  }

  /** `reactivate_driver`: the driver must exist and be deactivated; the
      stamp is then cleared. */
  function Reactivate(drivers: map<Uuid, Driver>, id: Uuid): (r: Result<map<Uuid, Driver>>)
    ensures r.Ok? <==> id in drivers && drivers[id].deactivatedAt.Some?
    ensures r.Err? ==> r.error == (if id in drivers then DRIVER_NOT_DEACTIVATED else DRIVER_NOT_FOUND)
  {
    if id !in drivers then Err(DRIVER_NOT_FOUND)
    else if drivers[id].deactivatedAt.None? then Err(DRIVER_NOT_DEACTIVATED)
    else Ok(drivers[id := drivers[id].(deactivatedAt := None)])
  }

  /** Deactivating touches only the one driver, and only its stamp. */
  lemma DeactivateChangesOnlyStamp(drivers: map<Uuid, Driver>, id: Uuid, now: Instant)
    requires Deactivate(drivers, id, now).Ok?
    ensures var t := Deactivate(drivers, id, now).value;
            && t.Keys == drivers.Keys
            && (forall k :: k in drivers && k != id ==> t[k] == drivers[k])
            && t[id].deactivatedAt == Some(now)
            && t[id].(deactivatedAt := None) == drivers[id]
  {
  }

  /** Reactivating a driver just deactivated gives back the table as it
      was. */
  lemma DeactivateThenReactivate(drivers: map<Uuid, Driver>, id: Uuid, now: Instant)
    requires Deactivate(drivers, id, now).Ok?
    ensures Reactivate(Deactivate(drivers, id, now).value, id) == Ok(drivers)
  {
    var t := Deactivate(drivers, id, now).value;
    assert t[id := t[id].(deactivatedAt := None)] == drivers;
  }

  /** A deactivated driver cannot be deactivated again until reactivated. */
  lemma DeactivateTwiceFails(drivers: map<Uuid, Driver>, id: Uuid, now: Instant, later: Instant)
    requires Deactivate(drivers, id, now).Ok?
    ensures Deactivate(Deactivate(drivers, id, now).value, id, later) == Err(DRIVER_ALREADY_DEACTIVATED)
  {
  }

  /** The driver table and the service operating on it. */
  class DriverService {
    var drivers: map<Uuid, Driver>
    /** The key the database hands to the next inserted driver. */
    var nextId: Uuid

    ghost predicate Valid()
      reads this
    {
      forall id :: id in drivers ==> id < nextId
    }

    constructor (drivers: map<Uuid, Driver>, nextId: Uuid)
      requires forall id :: id in drivers ==> id < nextId
      ensures Valid() && this.drivers == drivers && this.nextId == nextId
    {
      this.drivers := drivers;
      this.nextId := nextId;
    }

    method GetDriverById(id: Uuid) returns (r: Result<Driver>)
      ensures r.Ok? <==> id in drivers
      ensures r.Ok? ==> r.value == drivers[id]
      ensures r.Err? ==> r.error == DRIVER_NOT_FOUND
    {
      if id in drivers {
        r := Ok(drivers[id]);
      } else {
        r := Err(DRIVER_NOT_FOUND);
      }
    }

    method EmailExists(email: string) returns (b: bool)
      ensures b <==> exists id :: id in drivers && drivers[id].email == email
    {
      b := EmailTaken(drivers, email);
    }

    /** `create_driver`, with the existence check on the stored address. */
    method CreateDriver(req: CreateDriverRequest, now: Instant) returns (r: Result<Driver>, id: Uuid)
      requires Valid()
      modifies this
      ensures Valid()
      ensures r == CreateDriverOutcome(old(drivers), req, now)
      ensures r.Ok? ==> id == old(nextId) && id !in old(drivers) && drivers == old(drivers)[id := r.value]
      ensures r.Err? ==> drivers == old(drivers)
      ensures nextId == if r.Ok? then old(nextId) + 1 else old(nextId)
    {
      id := nextId;
      var exists_ := EmailExists(ToLower(req.email));
      if exists_ {
        assert EmailTaken(drivers, ToLower(req.email));
        return Err(DRIVER_EMAIL_ALREADY_EXISTS), id;
      }
      r := NewDriverRow(req, now);
      assert r == CreateDriverOutcome(drivers, req, now);
      if r.Ok? {
        drivers := drivers[id := r.value];
        nextId := nextId + 1;
      }
    }

    /** `update_driver`: one statement per present field, each a no-op when
        the driver does not exist, then the row read back. */
    method UpdateDriver(id: Uuid, u: UpdateDriverRequest) returns (r: Result<Driver>)
      modifies this`drivers
      ensures drivers == if id in old(drivers) then old(drivers)[id := ApplyUpdate(old(drivers)[id], u)] else old(drivers)
      ensures r == DriverById(drivers, id)
    {
      if id in drivers {
        var d := drivers[id];
        // One step per column, in the order of the statements; each keeps
        // the current value when its field is absent from the request.
        d := d.(firstname := NewName(u.firstname, d.firstname));
        d := d.(lastname := NewName(u.lastname, d.lastname));
        d := d.(gender := Replace(u.gender, d.gender));
        d := d.(email := NewEmail(u.email, d.email));
        d := d.(phoneNumber := Replace(u.phoneNumber, d.phoneNumber));
        d := d.(isSearchable := u.isSearchable.GetOr(d.isSearchable));
        d := d.(allowRequestProfessionalAgreement :=
                  u.allowRequestProfessionalAgreement.GetOr(d.allowRequestProfessionalAgreement));
        d := d.(language := u.language.GetOr(d.language));
        d := d.(restJson := Replace(u.restJson, d.restJson));
        d := d.(mailPreferences := u.mailPreferences.GetOr(d.mailPreferences));
        d := d.(verifiedAt := Replace(u.verifiedAt, d.verifiedAt));
        drivers := drivers[id := d];
      }
      r := GetDriverById(id);
    }

    method DeactivateDriver(id: Uuid, now: Instant) returns (r: Result<()>)
      modifies this`drivers
      ensures var o := Deactivate(old(drivers), id, now);
              && (o.Ok? ==> r.Ok? && drivers == o.value)
              && (o.Err? ==> r == Err(o.error) && drivers == old(drivers))
    {
      var found := GetDriverById(id);
      if found.Err? {
        return Err(found.error);
      }
      if found.value.deactivatedAt.Some? {
        return Err(DRIVER_ALREADY_DEACTIVATED);
      }
      drivers := drivers[id := found.value.(deactivatedAt := Some(now))];
      r := Ok(());
    }

    method ReactivateDriver(id: Uuid) returns (r: Result<()>)
      modifies this`drivers
      ensures var o := Reactivate(old(drivers), id);
              && (o.Ok? ==> r.Ok? && drivers == o.value)
              && (o.Err? ==> r == Err(o.error) && drivers == old(drivers))
    {
      var found := GetDriverById(id);
      if found.Err? {
        return Err(found.error);
      }
      if found.value.deactivatedAt.None? {
        return Err(DRIVER_NOT_DEACTIVATED);
      }
      drivers := drivers[id := found.value.(deactivatedAt := None)];
      r := Ok(());
    }
  }
}
