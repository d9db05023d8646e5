# Tax service ledger — a Dafny model

The tax service records three kinds of event: sales (an invoice with
lines of cost and tax rate), tax payments, and sale amendments (a correction
to one line of one invoice). It answers one query: the tax position as of a
date. That is the tax on every line of every sale dated up to then, minus
every payment dated up to then.

This project models the server routes and schemas that do this, plus the
client form that feeds them. The store is three sequences in insertion
order. Each route is a pure function from a store and a request to a new
store and a response.

- `Ledger` (`ledger.dfy`): the records `Item`, `Sale`, `Payment`,
  `Amendment` and the `Store`. Timestamps are integers (milliseconds). A
  request date is `DateInput`: missing, unparseable, or an instant.
- `Responses` (`responses.dfy`): the answers of the routes (202 accepted,
  202 amendment pending, 202 sale updated, 200 position, 400, 500) and
  `Reply` = new store + response.
- `Schemas` (`schemas.dfy`): the three mongoose schemas. Each one decides
  whether `save` accepts a body. If it does, the result is the stored record.
  If not, the result is the set of failing paths.
- `SaleAmendment` (`sale_amendment.dfy`): the PATCH handler of the sale
  route. It logs the amendment, finds the first sale with the invoice, and
  overwrites or appends the line.
- `TaxPosition` (`tax_position.dfy`): the GET handler, the folds it
  computes, and the handler's loops written out as a method.
- `Transactions` (`transactions.dfy`): the POST handler's dispatch on
  `eventType`.
- `TransactionForm` (`transaction_form.dfy`): the client zod schema, the
  payload `handleSubmit` builds, `removeItem`, and the tax-rate clamp.
- `LedgerLaws` (`ledger_laws.dfy`): how the routes combine through the
  store, plus worked examples.

Parameters stand in for everything outside the code. The current time is
`now`. Whether each database call succeeds is a boolean (`saveOk`, `readOk`,
and `Io` for the three calls of the sale route). Parsing dates from strings
is abstracted into `DateInput`.

Two conventions come from the database library rather than from the
repository's files:
- a `required` String path refuses the empty string as well as an absent
  value;
- an absent array path (`items`) is stored as the empty list.

A schema failure at `save` is thrown and caught by the route's
`try`/`catch`, so the client sees it as a 500, not a 400. The model says so:
`ServerError(Rejected(paths))`.

## Behaviour worth knowing

- Nothing replays logged amendments when a sale is recorded later. The
  transactions route never reads the amendment log
  (`LedgerLaws.PostIgnoresAmendments`, `LedgerLaws.AmendmentBeforeSaleExample`).
- The position is never rounded. It is the exact sum of `cost × taxRate`
  minus the exact sum of amounts.
- The server checks neither that a payment amount is ≥ 0, nor that a sale
  has at least one line, nor that a rate is within [0, 1]. Only the client
  form checks lines and rates, and it does not check the amount either.
- An amendment stays logged when the later lookup or sale update fails. The
  route is not all-or-nothing.
- `findOne` updates only the first sale with an invoice. Invoices are not
  unique. Within that sale only the first line with the item id is touched,
  and item ids are not unique either.

## Model

| member | source | states |
|---|---|---|
| Schemas.ValidateSale | models/saleEvent.ts:3-14 | a sale body is accepted iff eventType is "SALES", a date is given, invoiceId is non-empty and every item has id, cost and rate; each failing field is named; an absent item list is stored as empty, and an empty one is accepted; the stored sale carries the body's invoiceId, date and each line's id, cost and rate exactly |
| Schemas.ValidatePayment | models/taxPaymentEvent.ts:3-17 | a payment body is accepted iff eventType is "TAX_PAYMENT", a date is given and an amount is present (any sign); each failing field is named; the stored amount is the body's |
| Schemas.ValidateAmendment | models/saleAmendmentEvent.ts:11-17 | an amendment is accepted iff date, invoiceId, itemId, cost and taxRate are all present, with no range check on cost or rate; each missing field is named |
| Schemas.SaleRoundTrip | models/saleEvent.ts:3-14 | a stored sale re-submitted validates to itself exactly when its invoice and line ids are non-empty |
| Schemas.ValidSaleIsStored | models/saleEvent.ts:4-12 | every sale the schema accepts has a non-empty invoice and non-empty line ids |
| Schemas.PaymentRoundTrip | tests/transactions.test.ts:47-56 | a stored payment re-submitted validates to itself, amount unchanged |
| Schemas.AmendmentRoundTrip | models/saleAmendmentEvent.ts:11-17 | a logged amendment re-submitted validates to itself exactly when its invoice and item ids are non-empty |
| Schemas.SaleWithoutInvoiceRejected | tests/transactions.test.ts:59-72 | a sale body without invoiceId is refused, naming only `invoiceId` |
| SaleAmendment.FindItem | app/api/sale/route.ts:41 | the result is the index of the first line with the id, and there is none exactly when no line has it |
| SaleAmendment.FindSale | app/api/sale/route.ts:30 | the result is the index of the first sale with the invoice, and there is none exactly when no sale has it |
| SaleAmendment.MergeItems | app/api/sale/route.ts:40-55 | if a line has the id, the first such line gets the amendment's cost and rate, the length is kept and every other line is unchanged; otherwise the new line is appended after the unchanged prior lines; either way the first line with the id carries the amendment's values |
| SaleAmendment.MergeOverwrites | app/api/sale/route.ts:51-55 | when a line has the id, the merge replaces exactly the first such line by one with the amendment's id, cost and rate |
| SaleAmendment.MergeIdempotent | app/api/sale/route.ts:41-55 | merging the same amendment twice gives the same lines as merging it once |
| SaleAmendment.Resolve | app/api/sale/route.ts:20-26 | a missing date becomes `now`; a given date and every other field are kept |
| SaleAmendment.Patch | app/api/sale/route.ts:18-63 | a schema or logging failure answers 500 with the store unchanged; once logged, the amendment is appended to the log whatever follows; "pending" iff no sale has the invoice, with sales unchanged; "updated" iff a sale has it and every call succeeds, and then exactly the first such sale has its lines merged; payments never change |
| SaleAmendment.PatchUpdatesSale | app/api/sale/route.ts:40-60 | after "sale updated" the first sale with the invoice keeps its invoiceId and date and holds a line with the amendment's id, cost and rate; all other sales are untouched |
| SaleAmendment.MergeKeepsStored | app/api/sale/route.ts:40-55 | merging an amendment with a non-empty item id into a sale whose lines all have ids leaves every line with an id and the invoice unchanged |
| SaleAmendment.PatchKeepsWellFormed | app/api/sale/route.ts:20-58 | if every stored record satisfies its schema before the call, it still does after |
| SaleAmendment.PatchTwiceSameSales | app/api/sale/route.ts:30-58 | sending the same amendment twice leaves the same sales as sending it once |
| TaxPosition.Get | app/api/tax-position/route.ts:9-57 | a missing or empty date answers 400 and nothing else does; a failed read answers 500; a date that cannot be parsed answers 500, because the invalid date cannot be formatted at line 49 inside the `try`; otherwise 200 with the date and sales tax minus payments as of that date; the status is 500 exactly in the failure cases |
| TaxPosition.SalesTaxIsFlatSum | app/api/tax-position/route.ts:28-35 | the sales total equals the sum of `cost × taxRate` over the flattened list of lines of every included sale; a sale with no lines adds nothing |
| TaxPosition.LaterSaleIgnored | app/api/tax-position/route.ts:25 | adding a sale dated after `asOf` leaves the position unchanged |
| TaxPosition.LaterPaymentIgnored | app/api/tax-position/route.ts:26 | adding a payment dated after `asOf` leaves the position unchanged |
| TaxPosition.PaymentLowersPosition | app/api/tax-position/route.ts:37-45 | adding a payment dated up to `asOf` lowers the position by exactly its amount |
| TaxPosition.SaleNeverLowers | app/api/tax-position/route.ts:28-45 | adding a sale whose lines have cost ≥ 0 and rate ≥ 0 never lowers the position, and if it is included it raises it by exactly its tax |
| TaxPosition.SalesTaxMonotone | app/api/tax-position/route.ts:25-35 | with non-negative lines, the sales tax as of a later date is at least that as of an earlier one |
| TaxPosition.ComputePosition | app/api/tax-position/route.ts:28-45 | the handler's accumulating loops compute exactly the included sales tax minus the included payments |
| Transactions.Post | app/api/transactions/route.ts:17-33 | "SALES" appends exactly the validated sale and leaves payments alone; "TAX_PAYMENT" appends exactly the validated payment and leaves sales alone; any other type answers 400 "Invalid event type" with the store unchanged; a schema failure answers 500 naming the failing paths, and a database fault on a valid body answers 500 with the store unchanged; 202 otherwise; the status is always 202, 400 or 500; the amendment log never changes |
| Transactions.PostGrowsOneCollection | app/api/transactions/route.ts:18-28 | on 202 exactly one record is added across sales and payments, and none on any other answer |
| Transactions.PostKeepsWellFormed | app/api/transactions/route.ts:18-23 | if every stored record satisfies its schema before the call, it still does after |
| TransactionForm.BuildPayload | app/transactions/page.tsx:137-143 | invoiceId and items are sent iff the type is SALES, and amount iff it is TAX_PAYMENT, each with the form's value |
| TransactionForm.Submit | app/transactions/page.tsx:35-79 | a form is posted iff its type is SALES or TAX_PAYMENT, a date is picked, and, for a sale, the invoice is non-empty and there is at least one line, each with an id, cost ≥ 0 and 0 ≤ rate ≤ 1; a payment's amount is not checked; what is posted is exactly the payload built from the form |
| TransactionForm.SubmittedFormIsStored | app/transactions/page.tsx:133-148 | every payload the form posts is accepted by the transactions route when the database is up |
| TransactionForm.PaymentAmountOnlyCheckedByServer | app/transactions/page.tsx:54 | the client schema accepts a TAX_PAYMENT without an amount, and the payment schema refuses it, naming only `amount` |
| TransactionForm.RateBounds | app/transactions/page.tsx:44-51 | a line with an id and non-negative cost is valid iff 0 ≤ rate ≤ 1; rates 0 and 1 are accepted |
| TransactionForm.ClampRate | app/transactions/page.tsx:285-288 | the clamped rate is in [0, 1], equals the input on [0, 1], and is 0 below and 1 above |
| TransactionForm.ClampRateIdempotent | app/transactions/page.tsx:285-288 | clamping twice gives the same rate as clamping once |
| TransactionForm.RemoveItem | app/transactions/page.tsx:164-166 | a valid index removes exactly that element: the result is the prefix before it followed by the suffix after it; any other index leaves the list unchanged |
| TransactionForm.RemoveItemKeepsOthers | app/transactions/page.tsx:164-166 | removing a valid index shortens the list by one and keeps the other elements in order |
| LedgerLaws.MergeTaxOverwrite | app/api/sale/route.ts:51-55 | overwriting a line changes the sale's tax by the new line's `cost × taxRate` minus the old line's |
| LedgerLaws.MergeTaxAppend | app/api/sale/route.ts:43-50 | appending a line adds its `cost × taxRate` to the sale's tax |
| LedgerLaws.PatchMovesPosition | app/api/sale/route.ts:40-60 | a valid amendment for an invoice on file answers "sale updated" when every call succeeds, and the position changes by the change in that sale's tax if the sale is dated up to `asOf`, and not at all otherwise |
| LedgerLaws.PatchOtherwiseKeepsPosition | app/api/sale/route.ts:27-38 | any other outcome of the amendment route leaves the position unchanged, since the log is never part of it |
| LedgerLaws.PostIgnoresAmendments | app/api/transactions/route.ts:18-20 | recording a sale gives the same response and stored sales whatever the amendment log holds, and leaves the log as it was |
| LedgerLaws.SaleThenPaymentExample | app/api/tax-position/route.ts:28-45 | a sale of 1000 at rate 0.20 and a payment of 100 give a position of 100 |
| LedgerLaws.AmendmentBeforeSaleExample | app/api/sale/route.ts:30-38 | an amendment before its sale answers "pending" and is logged; the sale recorded later keeps its submitted cost of 400 |
| LedgerLaws.AmendmentAddsMissingLineExample | app/api/sale/route.ts:43-50 | an undated amendment for a line the sale lacks appends that line, and the log records `now` as its date |

## Left out

- Database plumbing: the connection cache in lib/mongodb.ts, `mongoose.connect`
  in each route, and the documents' `_id` fields. Each database call is one
  boolean for success or failure.
- HTTP and JSON: request parsing, response objects and message bodies. An
  error message is a `Failure` value, not text.
- Type casting by the database library: the amendment page posts numbers as
  strings, and the library would cast them. The model takes request fields
  as already typed. A value that cannot be cast is not modelled.
- Date parsing: `Date.parse` and `new Date(...)` are abstracted by
  `DateInput`. `date || new Date()` also treats a numeric date of 0 as
  missing; the model does not.
- JavaScript numbers: costs, rates and amounts are exact reals. There is no
  floating-point rounding, NaN or infinity. NaN would pass through
  `ClampRate` in the source.
- Schemas.ValidateSale: a line that fails its schema is reported under the
  path `items`, not `items.<index>.<field>` as the library does.
- TransactionForm.Submit: the field-by-field error messages shown on the
  form, and zod's rule that a type error stops the refinements, are not
  modelled. Only accept/refuse is.
- Concurrency: the read-modify-write on a sale in the sale route can lose a
  concurrent update. Each request is modelled as one atomic step.
- `findOne` order: the first sale in insertion order is taken as the
  database's natural order.
- UI: React components, the add-item button, alerts, layout, the sidebar,
  the £/100 display of the position page, and app/amend-sale/page.tsx,
  which forwards raw form strings unchecked.
- Build and test configuration: jest.config.ts, next.config.ts.
