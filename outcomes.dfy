/** The values the sync script passes between its steps: a normalised
    warehouse record, the ways a run can terminate early, and the outcome of
    fetching. */
module Outcomes {
  import opened Json

  datatype Option<T> = None | Some(value: T)

  /** A normalised warehouse record: the dict built for one upstream row. */
  type Record = map<string, Value>

  /** Why a run stops with a non-zero exit status. Every case is either a
      call of `fail` (which calls `sys.exit`) or an exception that nothing
      catches, so each one ends the process. */
  datatype Failure =
    | TokenEmpty                    // the API token is unset or empty
    | SupabaseConfigEmpty           // the database URL or service key is unset or empty
    | RequestRaised                 // the HTTP request itself raised (timeout, connection error)
    | ApiStatus(status: int, text: string)  // a non-200 status that is not retried
    | BodyNotJson                   // a 200 whose body does not decode as JSON
    | UnexpectedResponse(data: Value)       // a 200 whose JSON body is not a list
    | RowNotObject                  // a list element that is not a dict (it has no `get`)

  /** What fetching the warehouses produces: the normalised records, or the
      failure that ends the process. */
  datatype Outcome = Ok(records: seq<Record>) | Fail(reason: Failure)
}
