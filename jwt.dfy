/** The access-token claims of `src/models/jwt.rs`: issue and expiry
    arithmetic on whole-second timestamps. */
module Jwt {
  import opened Wrappers

  const SECONDS_PER_HOUR: int := 3600

  datatype Claims = Claims(
    sub: Uuid,
    email: string,
    firstname: string,
    lastname: string,
    permissions: seq<int>,
    exp: int,
    iat: int)

  /** `Claims::new`, with the clock reading `now` as a parameter. */
  function NewClaims(now: Instant, employeeId: Uuid, email: string, firstname: string,
                     lastname: string, permissions: seq<int>, expirationHours: int): (c: Claims)
    ensures c.iat == now && c.exp == now + expirationHours * SECONDS_PER_HOUR
    ensures c.sub == employeeId && c.email == email
    ensures c.firstname == firstname && c.lastname == lastname
    ensures c.permissions == permissions
  {
    Claims(employeeId, email, firstname, lastname, permissions,
           now + expirationHours * SECONDS_PER_HOUR, now)
  }

  /** `Claims::is_expired` at the instant `now`. */
  function IsExpired(c: Claims, now: Instant): (r: bool)
  {
    now > c.exp
  }

  /** A claim is valid exactly up to and including its `exp` second: it is
      valid at `now` iff `now` is at most `expirationHours` hours after
      issue. */
  lemma ValidWindow(issuedAt: Instant, employeeId: Uuid, email: string, firstname: string,
                    lastname: string, permissions: seq<int>, expirationHours: int, now: Instant)
    ensures var c := NewClaims(issuedAt, employeeId, email, firstname, lastname, permissions, expirationHours);
      !IsExpired(c, now) <==> now <= issuedAt + expirationHours * SECONDS_PER_HOUR
  {
  }

  /** A claim created with a non-negative duration is not expired at the
      instant it is issued. */
  lemma NotExpiredAtIssue(now: Instant, employeeId: Uuid, email: string, firstname: string,
                          lastname: string, permissions: seq<int>, expirationHours: int)
    requires expirationHours >= 0
    ensures !IsExpired(NewClaims(now, employeeId, email, firstname, lastname, permissions, expirationHours), now)
  {
  }
}
