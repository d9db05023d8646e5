/** The GET handler of app/api/tax-position/route.ts: the tax owed on every
    sale dated on or before `asOf`, minus every payment dated on or before
    it. Products and sums are exact; the handler rounds nothing. */
module TaxPosition {
  import opened Ledger
  import opened Responses

  function ItemTax(it: Item): real {
    it.cost * it.taxRate
  }

  /** The tax on a list of lines, summed in list order. */
  function ItemsTax(items: seq<Item>): real
    decreases |items|
  {
    if |items| == 0 then 0.0 else ItemsTax(items[..|items| - 1]) + ItemTax(items[|items| - 1])
  }

  predicate Included(date: Timestamp, asOf: Timestamp) {
    date <= asOf
  }

  /** What one sale adds to the position as of `asOf`. */
  function SaleTax(s: Sale, asOf: Timestamp): real {
    if Included(s.date, asOf) then ItemsTax(s.items) else 0.0
  }

  /** `totalSalesTax`: the tax on every line of every sale dated up to `asOf`. */
  function SalesTax(sales: seq<Sale>, asOf: Timestamp): real
    decreases |sales|
  {
    if |sales| == 0 then 0.0 else SalesTax(sales[..|sales| - 1], asOf) + SaleTax(sales[|sales| - 1], asOf)
  }

  function PaymentAmount(p: Payment, asOf: Timestamp): real {
    if Included(p.date, asOf) then p.amount else 0.0
  }

  /** `totalTaxPayments`: the amounts of every payment dated up to `asOf`. */
  function Paid(payments: seq<Payment>, asOf: Timestamp): real
    decreases |payments|
  {
    if |payments| == 0 then 0.0 else Paid(payments[..|payments| - 1], asOf) + PaymentAmount(payments[|payments| - 1], asOf)
  }

  /** `taxPosition`: positive is tax owed, negative is overpaid. */
  function Position(st: Store, asOf: Timestamp): real {
    SalesTax(st.sales, asOf) - Paid(st.payments, asOf)
  }

  /** The handler: no date parameter answers 400 before anything is read;
      a failed read answers 500; a date `new Date` cannot parse answers 500
      too, since the invalid date is refused by the query or, at the latest,
      by `toISOString` inside the `try`; otherwise 200 with the position. */
  function Get(st: Store, date: DateInput, readOk: bool): (r: Response)
    ensures date.Missing? <==> r == BadRequest(DateRequired)
    ensures r.TaxPosition? <==> date.At? && readOk
    ensures r.TaxPosition? ==>
      r.date == date.t && r.position == SalesTax(st.sales, r.date) - Paid(st.payments, r.date)
    ensures !date.Missing? && !readOk ==> r == ServerError(StorageFault)
    ensures date.Unparseable? && readOk <==> r == ServerError(InvalidDate)
    ensures Status(r) == 500 <==> !date.Missing? && !(date.At? && readOk)
  {
    match date
    case Missing => BadRequest(DateRequired)
    case Unparseable => if readOk then ServerError(InvalidDate) else ServerError(StorageFault)
    case At(asOf) => if readOk then TaxPosition(asOf, Position(st, asOf)) else ServerError(StorageFault)
  }

  // Sums split over concatenation.

  lemma {:induction false} ItemsTaxAppend(xs: seq<Item>, ys: seq<Item>)
    ensures ItemsTax(xs + ys) == ItemsTax(xs) + ItemsTax(ys)
    decreases |ys|
  {
    if |ys| > 0 {
      var ys' := ys[..|ys| - 1];
      assert (xs + ys)[..|xs + ys| - 1] == xs + ys';
      ItemsTaxAppend(xs, ys');
    } else {
      assert xs + ys == xs;
    }
  }

  lemma {:induction false} SalesTaxAppend(xs: seq<Sale>, ys: seq<Sale>, asOf: Timestamp)
    ensures SalesTax(xs + ys, asOf) == SalesTax(xs, asOf) + SalesTax(ys, asOf)
    decreases |ys|
  {
    if |ys| > 0 {
      var ys' := ys[..|ys| - 1];
      assert (xs + ys)[..|xs + ys| - 1] == xs + ys';
      SalesTaxAppend(xs, ys', asOf);
    } else {
      assert xs + ys == xs;
    }
  }

  lemma {:induction false} PaidAppend(xs: seq<Payment>, ys: seq<Payment>, asOf: Timestamp)
    ensures Paid(xs + ys, asOf) == Paid(xs, asOf) + Paid(ys, asOf)
    decreases |ys|
  {
    if |ys| > 0 {
      var ys' := ys[..|ys| - 1];
      assert (xs + ys)[..|xs + ys| - 1] == xs + ys';
      PaidAppend(xs, ys', asOf);
    } else {
      assert xs + ys == xs;
    }
  }

  // An independent reading of the sales total: flatten, then sum.

  /** Every line of every sale dated up to `asOf`, sale by sale. */
  function IncludedItems(sales: seq<Sale>, asOf: Timestamp): seq<Item>
    decreases |sales|
  {
    if |sales| == 0 then []
    else if Included(sales[0].date, asOf) then sales[0].items + IncludedItems(sales[1..], asOf)
    else IncludedItems(sales[1..], asOf)
  }

  /** The sales total is the tax on the flattened list of included lines. */
  lemma {:induction false} SalesTaxIsFlatSum(sales: seq<Sale>, asOf: Timestamp)
    ensures SalesTax(sales, asOf) == ItemsTax(IncludedItems(sales, asOf))
    decreases |sales|
  {
    if |sales| == 0 {
    } else {
      SalesTaxIsFlatSum(sales[1..], asOf);
      assert sales == [sales[0]] + sales[1..];
      SalesTaxAppend([sales[0]], sales[1..], asOf);
      assert SalesTax([sales[0]], asOf) == SaleTax(sales[0], asOf);
      if Included(sales[0].date, asOf) {
        ItemsTaxAppend(sales[0].items, IncludedItems(sales[1..], asOf));
      }
    }
  }

  // How the position responds to the ledger growing.

  /** A sale dated after `asOf` does not move the position. */
  lemma LaterSaleIgnored(st: Store, s: Sale, asOf: Timestamp)
    requires s.date > asOf
    ensures Position(st.(sales := st.sales + [s]), asOf) == Position(st, asOf)
  {
  }

  /** A payment dated after `asOf` does not move the position. */
  lemma LaterPaymentIgnored(st: Store, p: Payment, asOf: Timestamp)
    requires p.date > asOf
    ensures Position(st.(payments := st.payments + [p]), asOf) == Position(st, asOf)
  {
  }

  /** A payment dated up to `asOf` lowers the position by exactly its amount. */
  lemma PaymentLowersPosition(st: Store, p: Payment, asOf: Timestamp)
    requires p.date <= asOf
    ensures Position(st.(payments := st.payments + [p]), asOf) == Position(st, asOf) - p.amount
  {
  }

  predicate NonNegativeItems(items: seq<Item>) {
    forall i :: 0 <= i < |items| ==> items[i].cost >= 0.0 && items[i].taxRate >= 0.0
  }

  lemma {:induction false} ItemsTaxNonNegative(items: seq<Item>)
    requires NonNegativeItems(items)
    ensures ItemsTax(items) >= 0.0
    decreases |items|
  {
    if |items| > 0 {
      ItemsTaxNonNegative(items[..|items| - 1]);
      var last := items[|items| - 1];
      assert last.cost >= 0.0 && last.taxRate >= 0.0;
      assert last.cost * last.taxRate >= 0.0;
    }
  }

  /** A sale whose lines all have non-negative cost and rate never lowers
      the position; dated after `asOf`, it leaves it unchanged. */
  lemma SaleNeverLowers(st: Store, s: Sale, asOf: Timestamp)
    requires NonNegativeItems(s.items)
    ensures Position(st.(sales := st.sales + [s]), asOf) >= Position(st, asOf)
    ensures s.date <= asOf ==> Position(st.(sales := st.sales + [s]), asOf) == Position(st, asOf) + ItemsTax(s.items)
  {
    assert (st.sales + [s])[..|st.sales|] == st.sales;
    ItemsTaxNonNegative(s.items);
  }

  /** With non-negative sales, the tax owed never falls as `asOf` advances. */
  lemma {:induction false} SalesTaxMonotone(sales: seq<Sale>, t1: Timestamp, t2: Timestamp)
    requires t1 <= t2
    requires forall i :: 0 <= i < |sales| ==> NonNegativeItems(sales[i].items)
    ensures SalesTax(sales, t1) <= SalesTax(sales, t2)
    decreases |sales|
  {
    if |sales| > 0 {
      SalesTaxMonotone(sales[..|sales| - 1], t1, t2);
      ItemsTaxNonNegative(sales[|sales| - 1].items);
    }
  }

  // How the position responds to one sale changing in place.

  lemma {:induction false} ItemsTaxUpdate(items: seq<Item>, k: int, x: Item)
    requires 0 <= k < |items|
    ensures ItemsTax(items[k := x]) == ItemsTax(items) - ItemTax(items[k]) + ItemTax(x)
    decreases |items|
  {
    var n := |items| - 1;
    if k < n {
      assert items[k := x][..n] == items[..n][k := x];
      ItemsTaxUpdate(items[..n], k, x);
    } else {
      assert items[k := x][..n] == items[..n];
    }
  }

  lemma {:induction false} SalesTaxUpdate(sales: seq<Sale>, k: int, s: Sale, asOf: Timestamp)
    requires 0 <= k < |sales|
    ensures SalesTax(sales[k := s], asOf) == SalesTax(sales, asOf) - SaleTax(sales[k], asOf) + SaleTax(s, asOf)
    decreases |sales|
  {
    var n := |sales| - 1;
    if k < n {
      assert sales[k := s][..n] == sales[..n][k := s];
      SalesTaxUpdate(sales[..n], k, s, asOf);
    } else {
      assert sales[k := s][..n] == sales[..n];
    }
  }

  /** The loop of the handler, as written: two nested `forEach` loops over
      the included sales and their lines, then one over the payments. */
  method ComputePosition(st: Store, asOf: Timestamp) returns (taxPosition: real)
    ensures taxPosition == SalesTax(st.sales, asOf) - Paid(st.payments, asOf)
  {
    var totalSalesTax := 0.0;
    var i := 0;
    while i < |st.sales|
      invariant 0 <= i <= |st.sales|
      invariant totalSalesTax == SalesTax(st.sales[..i], asOf)
    {
      var sale := st.sales[i];
      assert st.sales[..i + 1][..i] == st.sales[..i];
      if Included(sale.date, asOf) {
        var saleTax := 0.0;
        var j := 0;
        while j < |sale.items|
          invariant 0 <= j <= |sale.items|
          invariant saleTax == ItemsTax(sale.items[..j])
        {
          assert sale.items[..j + 1][..j] == sale.items[..j];
          saleTax := saleTax + sale.items[j].cost * sale.items[j].taxRate;
          j := j + 1;
        }
        assert sale.items[..j] == sale.items;
        totalSalesTax := totalSalesTax + saleTax;
      }
      i := i + 1;
    }
    assert st.sales[..i] == st.sales;
    var totalTaxPayments := 0.0;
    var p := 0;
    while p < |st.payments|
      invariant 0 <= p <= |st.payments|
      invariant totalTaxPayments == Paid(st.payments[..p], asOf)
    {
      assert st.payments[..p + 1][..p] == st.payments[..p];
      if Included(st.payments[p].date, asOf) {
        totalTaxPayments := totalTaxPayments + st.payments[p].amount;
      }
      p := p + 1;
    }
    assert st.payments[..p] == st.payments;
    taxPosition := totalSalesTax - totalTaxPayments;
  }
}
