/**
 * The remote store as the services see it: each query resolves to a
 * `{ data, error, count }` response or throws.  What the store answers is
 * a parameter of every service operation; the calls an operation issues
 * are recorded where it matters whether it issued any.
 */
module Store {
  import opened Js
  import opened Text

  /** A row as the store returns it, or as a service sends it. */
  type Row = map<string, Value>

  /** The `data` of a list query: `null`, something that is not an array, or an array of rows. */
  datatype Data = NoData | NotArray | Rows(rows: seq<Row>)

  /** `select` over a table. */
  datatype ListResponse = ListResponse(data: Data, error: Option<Error>)

  /** `.single()` / `.maybeSingle()`: one row or `null`. */
  datatype SingleResponse = SingleResponse(data: Option<Row>, error: Option<Error>)

  /** `delete()`: the affected-row count, `null` when the store does not report one. */
  datatype CountResponse = CountResponse(count: Option<int>, error: Option<Error>)

  /** A batch `insert(...).select()`. */
  datatype InsertResponse = InsertResponse(data: Option<seq<Row>>, count: Option<nat>, error: Option<Error>)

  /**
   * What the 8-second timer a read path races its query against rejects
   * with; such a read path sees `Threw(QueryTimeout)` when the timer wins.
   */
  const QueryTimeout: Error := Error("Database query timeout", None)

  /** The Postgres error code of a foreign-key violation. */
  const ForeignKeyViolation: string := "23503"

  /** A write or keyed read a service issues. */
  datatype Call =
    | InsertRows(table: string, rows: seq<Row>)
    | UpdateRow(table: string, id: string, fields: Row)
    | FetchRow(table: string, id: string)
    | SelectByRestaurant(table: string, parsedId: int)
    | ReplaceCategories(restaurantId: string, categories: Value)

  /** The timer's message mentions "timeout", which every read path's catch looks for. */
  lemma QueryTimeoutMentionsTimeout()
    ensures Includes(QueryTimeout.message, "timeout")
  {
    IncludesAt(QueryTimeout.message, "timeout", 15);
  }
}
