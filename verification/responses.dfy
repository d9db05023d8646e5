/** What the three API routes answer, and the store each leaves behind. */
module Responses {
  import opened Ledger

  /** Why a route answered 500: the schema refused the document on `save`
      (naming the offending paths), the database itself failed, or an
      unparseable date could not be formatted (`toISOString` throws a
      `RangeError` on an invalid `Date`). */
  datatype Failure = Rejected(paths: set<string>) | StorageFault | InvalidDate

  datatype Response =
    | Accepted                                   // 202 with an empty body
    | AmendmentPending                           // 202, amendment logged, no sale yet
    | SaleUpdated                                // 202, amendment logged and sale changed
    | TaxPosition(date: Timestamp, position: real) // 200
    | BadRequest(message: string)                // 400
    | ServerError(cause: Failure)                // 500

  /** A route's effect: the store after the request and the response sent. */
  datatype Reply = Reply(store: Store, response: Response)

  const InvalidEventType: string := "Invalid event type"
  const DateRequired: string := "Date query parameter is required"

  /** The HTTP status code each response is sent with. */
  function Status(r: Response): (code: int)
    ensures code == 202 <==> (r.Accepted? || r.AmendmentPending? || r.SaleUpdated?)
    ensures code == 200 <==> r.TaxPosition?
    ensures code == 400 <==> r.BadRequest?
    ensures code == 500 <==> r.ServerError?
  {
    match r
    case Accepted => 202
    case AmendmentPending => 202
    case SaleUpdated => 202
    case TaxPosition(_, _) => 200
    case BadRequest(_) => 400
    case ServerError(_) => 500
  }
}
