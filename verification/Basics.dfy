/** What several modules share. */
module Basics {

  datatype Option<+T> = None | Some(value: T)

  const MAX_INT64: int := 0x7fff_ffff_ffff_ffff

  /** Statuses of the request log row. */
  const CLIENT_CLOSED := 499
  const BAD_GATEWAY := 502
}
