/** The database rows the browser components read, reduced to the fields they
    use, and the outcome of one `select` on a table. */
module Records {
  import opened Values

  /** A row of the `assignments` table. A null `status` or `notes` is `None`. */
  datatype AssignmentRow = AssignmentRow(
    id: int,
    employeeId: string,
    productCode: string,
    startTime: string,
    endTime: string,
    status: Option<string>,
    notes: Option<string>)

  /** A row of the `employees` table (keyed by `employee_id`) or of the
      `products` table (keyed by `product_code`), reduced to its key and its
      `name`, which may be missing or null. */
  datatype NamedRow = NamedRow(key: string, name: Option<string>)

  /** What awaiting `supabase.from(t).select('*')` gives: `{ data, error }` with
      no error (where `data` may still be null), `{ error }` with the database's
      message, or a rejected promise carrying an exception's message. */
  datatype Query<T> =
    | Fetched(data: Option<seq<T>>)
    | DbError(dbMessage: string)
    | Rejected(exceptionMessage: string)

  /** `data || []` */
  function RowsOr<T>(data: Option<seq<T>>): (rows: seq<T>)
    ensures data.Some? ==> rows == data.value
    ensures data.None? ==> rows == []
  {
    data.GetOr([])
  }

  /** `s || fallback` on a string: an empty (or missing) string is replaced. */
  function OrElse(s: string, fallback: string): (r: string)
    ensures s != "" ==> r == s
    ensures s == "" ==> r == fallback
  {
    if s != "" then s else fallback
  }
}
