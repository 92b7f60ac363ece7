/** Types shared by every module of the model: Rust's `Option`, and the
    identifiers and instants the services pass around. */
module Wrappers {

  datatype Option<+T> = None | Some(value: T) {

    function GetOr(default: T): (r: T)
      ensures Some? ==> r == value
      ensures None? ==> r == default
    {
      match this
      case Some(v) => v
      case None => default
    }
  }

  /** A UUID primary key, abstracted to a natural number. */
  type Uuid = nat

  /** An instant (`DateTime<Utc>`, SQL `NOW()`), as whole seconds since
      the Unix epoch. */
  type Instant = int
}
