/** The three mongoose schemas (models/saleEvent.ts,
    models/taxPaymentEvent.ts, models/saleAmendmentEvent.ts): which request
    bodies `save` accepts, and the record each accepted body becomes. */
module Schemas {
  import opened Ledger

  /** JSON fields as they arrive; `None` is an absent (or null) field. */
  datatype RawItem = RawItem(itemId: Option<string>, cost: Option<real>, taxRate: Option<real>)

  /** The body of a POST to the transactions route. */
  datatype RawEvent = RawEvent(
    eventType: Option<string>,
    date: DateInput,
    invoiceId: Option<string>,
    items: Option<seq<RawItem>>,
    amount: Option<real>)

  /** The body of a PATCH to the sale route. */
  datatype RawAmendment = RawAmendment(
    date: DateInput,
    invoiceId: Option<string>,
    itemId: Option<string>,
    cost: Option<real>,
    taxRate: Option<real>)

  /** A schema's verdict: the stored record, or the paths that failed. */
  datatype Checked<+T> = Valid(value: T) | Invalid(paths: set<string>)

  /** Mongoose's `required` on a String path: present and not empty. */
  predicate HasText(s: Option<string>) {
    s.Some? && |s.value| > 0
  }

  /** `itemSchema`: all three fields are required, none is range checked. */
  predicate ItemComplete(r: RawItem) {
    HasText(r.itemId) && r.cost.Some? && r.taxRate.Some?
  }

  predicate ItemsComplete(items: Option<seq<RawItem>>) {
    items.Some? ==> forall i :: 0 <= i < |items.value| ==> ItemComplete(items.value[i])
  }

  function ToItem(r: RawItem): Item
    requires ItemComplete(r)
  {
    Item(r.itemId.value, r.cost.value, r.taxRate.value)
  }

  /** The item list a sale document stores: an absent list is the empty one. */
  function ToItems(items: Option<seq<RawItem>>): (r: seq<Item>)
    requires ItemsComplete(items)
    ensures items.None? ==> r == []
    ensures items.Some? ==> |r| == |items.value|
    ensures items.Some? ==> forall i :: 0 <= i < |r| ==>
      && Some(r[i].itemId) == items.value[i].itemId
      && Some(r[i].cost) == items.value[i].cost
      && Some(r[i].taxRate) == items.value[i].taxRate
  {
    if items.None? then [] else seq(|items.value|, i requires 0 <= i < |items.value| => ToItem(items.value[i]))
  }

  function Fails(ok: bool, path: string): set<string> {
    if ok then {} else {path}
  }

  /** `saleEventSchema`: eventType is "SALES", date and invoiceId are present,
      every item is complete. Items may be absent or empty, and nothing
      makes invoiceId unique. */
  function ValidateSale(e: RawEvent): (c: Checked<Sale>)
    ensures c.Valid? <==>
      && e.eventType == Some(SalesType)
      && e.date.At?
      && HasText(e.invoiceId)
      && ItemsComplete(e.items)
    ensures c.Invalid? ==> ("invoiceId" in c.paths <==> !HasText(e.invoiceId))
    ensures c.Invalid? ==> ("date" in c.paths <==> !e.date.At?)
    ensures c.Invalid? ==> ("eventType" in c.paths <==> e.eventType != Some(SalesType))
    ensures c.Invalid? ==> ("items" in c.paths <==> !ItemsComplete(e.items))
    ensures c.Invalid? ==> c.paths <= {"eventType", "date", "invoiceId", "items"}
    ensures c.Valid? ==>
      && Some(c.value.invoiceId) == e.invoiceId
      && e.date == At(c.value.date)
      && (e.items.None? ==> c.value.items == [])
      && (e.items.Some? ==> |c.value.items| == |e.items.value|)
      && (e.items.Some? ==> forall i :: 0 <= i < |c.value.items| ==>
            && Some(c.value.items[i].itemId) == e.items.value[i].itemId
            && Some(c.value.items[i].cost) == e.items.value[i].cost
            && Some(c.value.items[i].taxRate) == e.items.value[i].taxRate)
  {
    var paths :=
      Fails(e.eventType == Some(SalesType), "eventType")
      + Fails(e.date.At?, "date")
      + Fails(HasText(e.invoiceId), "invoiceId")
      + Fails(ItemsComplete(e.items), "items");
    if paths == {} then
      Valid(Sale(e.date.t, e.invoiceId.value, ToItems(e.items)))
    else
      Invalid(paths)
  }

  /** `taxPaymentEventSchema`: eventType is "TAX_PAYMENT", date and amount are
      present; the amount may be any number, negative included. */
  function ValidatePayment(e: RawEvent): (c: Checked<Payment>)
    ensures c.Valid? <==> e.eventType == Some(TaxPaymentType) && e.date.At? && e.amount.Some?
    ensures c.Invalid? ==> ("amount" in c.paths <==> e.amount.None?)
    ensures c.Invalid? ==> ("date" in c.paths <==> !e.date.At?)
    ensures c.Invalid? ==> ("eventType" in c.paths <==> e.eventType != Some(TaxPaymentType))
    ensures c.Invalid? ==> c.paths <= {"eventType", "date", "amount"}
    ensures c.Valid? ==> Some(c.value.amount) == e.amount && e.date == At(c.value.date)
  {
    var paths :=
      Fails(e.eventType == Some(TaxPaymentType), "eventType")
      + Fails(e.date.At?, "date")
      + Fails(e.amount.Some?, "amount");
    if paths == {} then Valid(Payment(e.date.t, e.amount.value)) else Invalid(paths)
  }

  /** `SaleAmendmentEventSchema`: every field is required; cost and taxRate
      carry no range constraint. */
  function ValidateAmendment(r: RawAmendment): (c: Checked<Amendment>)
    ensures c.Valid? <==>
      r.date.At? && HasText(r.invoiceId) && HasText(r.itemId) && r.cost.Some? && r.taxRate.Some?
    ensures c.Invalid? ==> ("date" in c.paths <==> !r.date.At?)
    ensures c.Invalid? ==> ("invoiceId" in c.paths <==> !HasText(r.invoiceId))
    ensures c.Invalid? ==> ("itemId" in c.paths <==> !HasText(r.itemId))
    ensures c.Invalid? ==> ("cost" in c.paths <==> r.cost.None?)
    ensures c.Invalid? ==> ("taxRate" in c.paths <==> r.taxRate.None?)
    ensures c.Invalid? ==> c.paths <= {"date", "invoiceId", "itemId", "cost", "taxRate"}
    ensures c.Valid? ==>
      && r.date == At(c.value.date)
      && r.invoiceId == Some(c.value.invoiceId)
      && r.itemId == Some(c.value.itemId)
      && r.cost == Some(c.value.cost)
      && r.taxRate == Some(c.value.taxRate)
  {
    var paths :=
      Fails(r.date.At?, "date")
      + Fails(HasText(r.invoiceId), "invoiceId")
      + Fails(HasText(r.itemId), "itemId")
      + Fails(r.cost.Some?, "cost")
      + Fails(r.taxRate.Some?, "taxRate");
    if paths == {} then
      Valid(Amendment(r.date.t, r.invoiceId.value, r.itemId.value, r.cost.value, r.taxRate.value))
    else
      Invalid(paths)
  }

  // What every stored record satisfies, because it passed its schema.

  predicate StoredItem(it: Item) {
    |it.itemId| > 0
  }

  predicate StoredSale(s: Sale) {
    |s.invoiceId| > 0 && forall i :: 0 <= i < |s.items| ==> StoredItem(s.items[i])
  }

  predicate StoredAmendment(a: Amendment) {
    |a.invoiceId| > 0 && |a.itemId| > 0
  }

  /** Every record in the store is one its schema accepts. */
  predicate WellFormed(st: Store) {
    && (forall i :: 0 <= i < |st.sales| ==> StoredSale(st.sales[i]))
    && (forall i :: 0 <= i < |st.amendments| ==> StoredAmendment(st.amendments[i]))
  }

  // The documents as they are read back, as request bodies.

  function ItemBody(it: Item): RawItem {
    RawItem(Some(it.itemId), Some(it.cost), Some(it.taxRate))
  }

  function SaleBody(s: Sale): RawEvent {
    RawEvent(Some(SalesType), At(s.date), Some(s.invoiceId),
             Some(seq(|s.items|, i requires 0 <= i < |s.items| => ItemBody(s.items[i]))), None)
  }

  function PaymentBody(p: Payment): RawEvent {
    RawEvent(Some(TaxPaymentType), At(p.date), None, None, Some(p.amount))
  }

  function AmendmentBody(a: Amendment): RawAmendment {
    RawAmendment(At(a.date), Some(a.invoiceId), Some(a.itemId), Some(a.cost), Some(a.taxRate))
  }

  /** The sale schema accepts exactly the sales it stores: a valid sale
      re-submitted is stored unchanged, and every accepted body yields a
      record satisfying `StoredSale`. */
  lemma SaleRoundTrip(s: Sale)
    ensures ValidateSale(SaleBody(s)) == Valid(s) <==> StoredSale(s)
  {
    var c := ValidateSale(SaleBody(s));
    if StoredSale(s) {
      assert c.Valid?;
      assert c.value.items == s.items;
    } else if |s.invoiceId| > 0 {
      var k :| 0 <= k < |s.items| && !StoredItem(s.items[k]);
      assert !ItemComplete(SaleBody(s).items.value[k]);
    }
  }

  lemma ValidSaleIsStored(e: RawEvent)
    requires ValidateSale(e).Valid?
    ensures StoredSale(ValidateSale(e).value)
  {
  }

  lemma PaymentRoundTrip(p: Payment)
    ensures ValidatePayment(PaymentBody(p)) == Valid(p)
  {
  }

  lemma AmendmentRoundTrip(a: Amendment)
    ensures ValidateAmendment(AmendmentBody(a)) == Valid(a) <==> StoredAmendment(a)
  {
  }

  /** A sale body without an invoice is refused, and the refusal names
      `invoiceId`. */
  lemma SaleWithoutInvoiceRejected(date: Timestamp, item: RawItem)
    requires ItemComplete(item)
    ensures ValidateSale(RawEvent(Some(SalesType), At(date), None, Some([item]), None)) == Invalid({"invoiceId"})
  {
  }
}
