/** The event ledger of the tax service: the three stored event kinds and
    the store that holds them, one sequence per collection. */
module Ledger {

  datatype Option<+T> = None | Some(value: T)

  /** Milliseconds since the epoch, as JavaScript's `Date` holds them. */
  type Timestamp = int

  /** A date field as it arrives in a request body: absent (or null, or the
      empty string), a string `Date` cannot parse, or a parsed instant. */
  datatype DateInput = Missing | Unparseable | At(t: Timestamp)

  /** One line of a sale. `cost` is in pennies; neither number is range
      checked by the stored schema. */
  datatype Item = Item(itemId: string, cost: real, taxRate: real)

  /** A stored sale event; its `eventType` is always "SALES". */
  datatype Sale = Sale(date: Timestamp, invoiceId: string, items: seq<Item>)

  /** A stored tax payment event; its `eventType` is always "TAX_PAYMENT". */
  datatype Payment = Payment(date: Timestamp, amount: real)

  /** A logged correction of one line of one sale. */
  datatype Amendment = Amendment(date: Timestamp, invoiceId: string, itemId: string, cost: real, taxRate: real)

  /** The three collections of the database, in insertion order. */
  datatype Store = Store(sales: seq<Sale>, payments: seq<Payment>, amendments: seq<Amendment>)

  const SalesType: string := "SALES"
  const TaxPaymentType: string := "TAX_PAYMENT"

  const EmptyStore: Store := Store([], [], [])

  /** `k` is the index of the first item of `items` whose id is `itemId`. */
  predicate IsFirstItem(items: seq<Item>, itemId: string, k: int) {
    && 0 <= k < |items|
    && items[k].itemId == itemId
    && forall j :: 0 <= j < k ==> items[j].itemId != itemId
  }

  predicate HasItem(items: seq<Item>, itemId: string) {
    exists j :: 0 <= j < |items| && items[j].itemId == itemId
  }

  /** `k` is the index of the first sale of `sales` with invoice `invoiceId`. */
  predicate IsFirstSale(sales: seq<Sale>, invoiceId: string, k: int) {
    && 0 <= k < |sales|
    && sales[k].invoiceId == invoiceId
    && forall j :: 0 <= j < k ==> sales[j].invoiceId != invoiceId
  }

  predicate HasSale(sales: seq<Sale>, invoiceId: string) {
    exists j :: 0 <= j < |sales| && sales[j].invoiceId == invoiceId
  }
}
