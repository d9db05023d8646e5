/** The POST handler of app/api/transactions/route.ts: dispatch on
    `eventType` and save the body as a sale or as a tax payment. */
module Transactions {
  import opened Ledger
  import opened Schemas
  import opened Responses

  /** Saving a validated record: a database fault leaves the store as it was. */
  function Save<T>(st: Store, checked: Checked<T>, saveOk: bool, add: T -> Store): Reply {
    match checked
    case Invalid(paths) => Reply(st, ServerError(Rejected(paths)))
    case Valid(v) => if saveOk then Reply(add(v), Accepted) else Reply(st, ServerError(StorageFault))
  }

  /** The handler. `saveOk` says whether the database `save` succeeds. */
  function Post(st: Store, body: RawEvent, saveOk: bool): (r: Reply)
    ensures r.store.amendments == st.amendments
    ensures body.eventType == Some(SalesType) ==>
      var v := ValidateSale(body);
      && r.store.payments == st.payments
      && (r.response == Accepted <==> v.Valid? && saveOk)
      && (r.response == Accepted ==> r.store.sales == st.sales + [v.value])
      && (v.Invalid? ==> r.response == ServerError(Rejected(v.paths)))
    ensures body.eventType == Some(TaxPaymentType) ==>
      var v := ValidatePayment(body);
      && r.store.sales == st.sales
      && (r.response == Accepted <==> v.Valid? && saveOk)
      && (r.response == Accepted ==> r.store.payments == st.payments + [v.value])
      && (v.Invalid? ==> r.response == ServerError(Rejected(v.paths)))
    ensures body.eventType != Some(SalesType) && body.eventType != Some(TaxPaymentType) ==>
      r == Reply(st, BadRequest(InvalidEventType))
    ensures !saveOk
            && ((body.eventType == Some(SalesType) && ValidateSale(body).Valid?)
                || (body.eventType == Some(TaxPaymentType) && ValidatePayment(body).Valid?)) ==>
      r == Reply(st, ServerError(StorageFault))
    ensures r.response != Accepted ==> r.store == st
    ensures r.response.Accepted? || r.response.BadRequest? || r.response.ServerError?
    ensures Status(r.response) == 202 || Status(r.response) == 400 || Status(r.response) == 500
  {
    if body.eventType == Some(SalesType) then
      Save(st, ValidateSale(body), saveOk, (s: Sale) => st.(sales := st.sales + [s]))
    else if body.eventType == Some(TaxPaymentType) then
      Save(st, ValidatePayment(body), saveOk, (p: Payment) => st.(payments := st.payments + [p]))
    else
      Reply(st, BadRequest(InvalidEventType))
  }

  /** Exactly one collection grows by one record on 202, and none on any
      other answer. */
  lemma PostGrowsOneCollection(st: Store, body: RawEvent, saveOk: bool)
    ensures var r := Post(st, body, saveOk);
      |r.store.sales| + |r.store.payments| ==
        |st.sales| + |st.payments| + (if r.response == Accepted then 1 else 0)
  {
  }

  /** Every record the handler stores is one its schema accepts. */
  lemma PostKeepsWellFormed(st: Store, body: RawEvent, saveOk: bool)
    requires WellFormed(st)
    ensures WellFormed(Post(st, body, saveOk).store)
  {
  }
}
