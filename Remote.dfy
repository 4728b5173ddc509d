/**
 * Outcomes of calls to the hosted database, which the services treat as a
 * best-effort mirror. The outcome of every call is an input of the model:
 * the network is not modelled, and any outcome may occur.
 */
module Remote {

  /** A `select` returning many rows: `{ data, error }` with either an error or the rows. */
  datatype Fetch<T> = FetchFailed | Rows(rows: seq<T>) {
    /** The `!error && data && data.length > 0` guard of every remote read fallback. */
    predicate HasRows() { Rows? && |rows| > 0 }
  }

  /**
   * A `select(...).single()`: a row, the "no rows" error (code PGRST116,
   * which some callers accept as "nothing there"), or any other failure.
   */
  datatype Single<T> = SingleFailed | NoRow | Row(value: T)

  /** The outcome of an insert, update, upsert or delete; the services log it and go on. */
  datatype Mirror = Mirrored | MirrorFailed
}
