/** What an isle reports to its callers (src/error.rs) and the small wrappers every module uses. */
module Errors {

  datatype Option<+T> = None | Some(value: T)

  function One(b: bool): nat { if b then 1 else 0 }

  /** A `rusqlite::Error`, as far as the isle looks inside it: is it SQLITE_INTERRUPT or not? */
  datatype DbError = Interrupted | OtherSql(code: int)

  datatype IsleError =
    | Sqlite(e: DbError)
    | Cancelled
    | Timeout
    | Closed
    | QueueFull
    | Panicked

  /** What a job hands back: any type of value, chosen by the closure. */
  type Value(!new, ==)

  datatype Answer = Ok(v: Value) | Err(e: IsleError)

  /** The error the isle promises never to show: a raw SQLITE_INTERRUPT. */
  predicate RawInterrupt(a: Answer) {
    a.Err? && a.e.Sqlite? && a.e.e.Interrupted?
  }

  predicate IsPanic(a: Answer) {
    a.Err? && a.e.Panicked?
  }
}
