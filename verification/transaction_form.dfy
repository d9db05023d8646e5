/** The client form of app/transactions/page.tsx: the zod schema that
    guards submission, the payload `handleSubmit` builds, `removeItem`, and
    the clamp on the tax-rate input. */
module TransactionForm {
  import opened Ledger
  import opened Schemas
  import opened Responses
  import Transactions

  /** The form's state. `date` is `None` until a day is picked. */
  datatype Form = Form(eventType: string, amount: real, date: Option<Timestamp>, items: seq<Item>, invoiceId: string)

  /** `TransactionData` as sent; `None` is an `undefined` field, and a `None`
      date is the empty string, which `Date.parse` refuses. */
  datatype Payload = Payload(
    eventType: string,
    date: Option<Timestamp>,
    invoiceId: Option<string>,
    items: Option<seq<Item>>,
    amount: Option<real>)

  /** The item object schema: a non-empty id, a non-negative cost, and a
      rate between 0 and 1 inclusive. */
  predicate ItemValid(it: Item) {
    |it.itemId| >= 1 && it.cost >= 0.0 && 0.0 <= it.taxRate && it.taxRate <= 1.0
  }

  predicate KnownEventType(t: string) {
    t == SalesType || t == TaxPaymentType
  }

  /** `TransactionDataSchema.parse` succeeds: the object schema and both
      refinements. A TAX_PAYMENT needs nothing beyond its type and date. */
  predicate Accepts(p: Payload) {
    && KnownEventType(p.eventType)
    && p.date.Some?
    && (p.items.Some? ==> forall i :: 0 <= i < |p.items.value| ==> ItemValid(p.items.value[i]))
    && (p.eventType == SalesType ==> p.items.Some? && |p.items.value| > 0)
    && (p.eventType == SalesType ==> p.invoiceId.Some? && |p.invoiceId.value| > 0)
  }

  /** The payload `handleSubmit` builds from the form. */
  function BuildPayload(f: Form): (p: Payload)
    ensures p.eventType == f.eventType && p.date == f.date
    ensures p.invoiceId.Some? <==> f.eventType == SalesType
    ensures p.items.Some? <==> f.eventType == SalesType
    ensures p.amount.Some? <==> f.eventType == TaxPaymentType
    ensures p.invoiceId.Some? ==> p.invoiceId.value == f.invoiceId
    ensures p.items.Some? ==> p.items.value == f.items
    ensures p.amount.Some? ==> p.amount.value == f.amount
  {
    var sales := f.eventType == SalesType;
    Payload(
      f.eventType,
      f.date,
      if sales then Some(f.invoiceId) else None,
      if sales then Some(f.items) else None,
      if f.eventType == TaxPaymentType then Some(f.amount) else None)
  }

  datatype Submission = Posted(payload: Payload) | Blocked

  /** `handleSubmit`: post the payload when the schema accepts it. A sale
      goes out only with an invoice and at least one valid line; a payment
      goes out with any amount, negative included. */
  function Submit(f: Form): (s: Submission)
    ensures s.Posted? <==>
      && KnownEventType(f.eventType)
      && f.date.Some?
      && (f.eventType == SalesType ==>
            && |f.invoiceId| > 0
            && |f.items| > 0
            && forall i :: 0 <= i < |f.items| ==> ItemValid(f.items[i]))
    ensures s.Posted? ==> s.payload.eventType == f.eventType && s.payload.date == f.date
    ensures s.Posted? ==> s.payload == BuildPayload(f)
  {
    var p := BuildPayload(f);
    if Accepts(p) then Posted(p) else Blocked
  }

  /** The JSON body the server receives: `undefined` fields are dropped. */
  function RequestBody(p: Payload): RawEvent {
    RawEvent(
      Some(p.eventType),
      if p.date.Some? then At(p.date.value) else Missing,
      p.invoiceId,
      match p.items
        case None => None
        case Some(items) => Some(seq(|items|, i requires 0 <= i < |items| => ItemBody(items[i]))),
      p.amount)
  }

  /** Whatever the form lets through, the transactions route stores. */
  lemma SubmittedFormIsStored(f: Form, st: Store)
    requires Submit(f).Posted?
    ensures Transactions.Post(st, RequestBody(Submit(f).payload), true).response == Accepted
  {
  }

  /** The client schema does not ask a TAX_PAYMENT for an amount, though the
      stored schema does; `handleSubmit` always sets one, so a form never
      sends such a payload. */
  lemma PaymentAmountOnlyCheckedByServer(t: Timestamp)
    ensures var p := Payload(TaxPaymentType, Some(t), None, None, None);
      Accepts(p) && ValidatePayment(RequestBody(p)) == Invalid({"amount"})
  {
  }

  /** The rate bounds are inclusive: 0 and 1 pass, anything outside fails. */
  lemma RateBounds(id: string, cost: real, rate: real)
    requires |id| > 0 && cost >= 0.0
    ensures ItemValid(Item(id, cost, 0.0)) && ItemValid(Item(id, cost, 1.0))
    ensures ItemValid(Item(id, cost, rate)) <==> 0.0 <= rate <= 1.0
  {
  }

  function Min(a: real, b: real): real {
    if a <= b then a else b
  }

  function Max(a: real, b: real): real {
    if a >= b then a else b
  }

  /** The tax-rate input handler: `Math.min(1, Math.max(0, x))`. */
  function ClampRate(x: real): (r: real)
    ensures 0.0 <= r <= 1.0
    ensures 0.0 <= x <= 1.0 ==> r == x
    ensures x < 0.0 ==> r == 0.0
    ensures x > 1.0 ==> r == 1.0
  {
    Min(1.0, Max(0.0, x))
  }

  lemma ClampRateIdempotent(x: real)
    ensures ClampRate(ClampRate(x)) == ClampRate(x)
  {
  }

  /** `removeItem`: `filter((_, i) => i !== index)`, one element at a time
      from the back. An index outside the list removes nothing. */
  function RemoveItem<T>(xs: seq<T>, index: int): (r: seq<T>)
    ensures 0 <= index < |xs| ==> r == xs[..index] + xs[index + 1..]
    ensures !(0 <= index < |xs|) ==> r == xs
    decreases |xs|
  {
    if |xs| == 0 then []
    else
      var n := |xs| - 1;
      var kept := RemoveItem(xs[..n], index);
      if n == index then kept
      else
        var r := kept + [xs[n]];
        assert 0 <= index < n ==> xs[..n][..index] == xs[..index] && xs[..n][index + 1..] + [xs[n]] == xs[index + 1..];
        assert !(0 <= index < |xs|) ==> xs[..n] + [xs[n]] == xs;
        r
  }

  /** `removeItem` of a valid index shortens the list by one and keeps the
      other lines in order. */
  lemma RemoveItemKeepsOthers<T>(xs: seq<T>, index: int)
    requires 0 <= index < |xs|
    ensures var r := RemoveItem(xs, index);
      && |r| == |xs| - 1
      && (forall j :: 0 <= j < index ==> r[j] == xs[j])
      && (forall j :: index <= j < |r| ==> r[j] == xs[j + 1])
  {
  }
}
