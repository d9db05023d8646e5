/** How the three routes interact through the store: what an amendment does
    to the tax position, what recording a sale does with earlier amendments,
    and worked examples. */
module LedgerLaws {
  import opened Ledger
  import opened Schemas
  import opened Responses
  import opened SaleAmendment
  import opened TaxPosition
  import Transactions

  /** An amendment that overwrites line `k` moves the sale's tax by the
      difference between the new line and the one it replaces. */
  lemma MergeTaxOverwrite(items: seq<Item>, a: Amendment, k: int)
    requires IsFirstItem(items, a.itemId, k)
    ensures ItemsTax(MergeItems(items, a)) == ItemsTax(items) - ItemTax(items[k]) + ItemTax(NewItem(a))
  {
    MergeOverwrites(items, a, k);
    ItemsTaxUpdate(items, k, NewItem(a));
  }

  /** An amendment that adds a line adds that line's tax. */
  lemma MergeTaxAppend(items: seq<Item>, a: Amendment)
    requires !HasItem(items, a.itemId)
    ensures ItemsTax(MergeItems(items, a)) == ItemsTax(items) + ItemTax(NewItem(a))
  {
  }

  /** A valid amendment for an invoice on file answers "sale updated" when
      the database is up, and changes the position as of `asOf` by the
      change in that sale's tax when the sale is dated up to `asOf`, and not
      at all otherwise. The amendment log itself is never read. */
  lemma PatchMovesPosition(st: Store, body: RawAmendment, now: Timestamp, k: int, asOf: Timestamp)
    requires ValidateAmendment(Resolve(body, now)).Valid?
    requires IsFirstSale(st.sales, body.invoiceId.value, k)
    ensures var a := ValidateAmendment(Resolve(body, now)).value;
      var r := Patch(st, body, now, Io(true, true, true));
      && r.response == SaleUpdated
      && Position(r.store, asOf) ==
           Position(st, asOf)
           + (if st.sales[k].date <= asOf then ItemsTax(MergeItems(st.sales[k].items, a)) - ItemsTax(st.sales[k].items) else 0.0)
  {
    var a := ValidateAmendment(Resolve(body, now)).value;
    var s := st.sales[k];
    SalesTaxUpdate(st.sales, k, s.(items := MergeItems(s.items, a)), asOf);
  }

  /** Any other outcome of the amendment route leaves the position as it was. */
  lemma PatchOtherwiseKeepsPosition(st: Store, body: RawAmendment, now: Timestamp, io: Io, asOf: Timestamp)
    requires !Patch(st, body, now, io).response.SaleUpdated?
    ensures Position(Patch(st, body, now, io).store, asOf) == Position(st, asOf)
  {
  }

  /** Recording a sale neither reads nor changes the amendment log: the
      stored sale is the one submitted, whatever amendments are on file. */
  lemma PostIgnoresAmendments(st: Store, log: seq<Amendment>, body: RawEvent, saveOk: bool)
    ensures var r := Transactions.Post(st, body, saveOk);
      var r' := Transactions.Post(st.(amendments := log), body, saveOk);
      && r'.store == r.store.(amendments := log)
      && r'.response == r.response
  {
  }

  // Worked examples. Timestamps are milliseconds since the epoch.

  const Jan1: Timestamp := 1704067200000   // 2024-01-01T00:00:00Z
  const Jan2: Timestamp := 1704153600000   // 2024-01-02T00:00:00Z

  /** A sale of 1000 pence at 20% and a payment of 100 leave 100 owed. */
  lemma SaleThenPaymentExample()
    ensures var st := Store([Sale(Jan1, "INV-1", [Item("A", 1000.0, 0.20)])], [Payment(Jan2, 100.0)], []);
      Get(st, At(Jan2), true) == TaxPosition(Jan2, 100.0)
  {
    var st := Store([Sale(Jan1, "INV-1", [Item("A", 1000.0, 0.20)])], [Payment(Jan2, 100.0)], []);
    assert st.sales[..0] == [] && st.payments[..0] == [];
    assert st.sales[0].items[..0] == [];
    assert ItemsTax(st.sales[0].items) == 200.0;
    assert SalesTax(st.sales, Jan2) == 200.0;
    assert Paid(st.payments, Jan2) == 100.0;
  }

  /** An amendment sent before its sale is logged and answered "pending";
      the sale recorded later keeps the cost it was submitted with, since
      nothing replays the logged amendment. */
  lemma AmendmentBeforeSaleExample(now: Timestamp)
    ensures var amend := RawAmendment(At(Jan1), Some("INV-2"), Some("B"), Some(500.0), Some(0.10));
      var r1 := Patch(EmptyStore, amend, now, Io(true, true, true));
      var saleBody := RawEvent(Some(SalesType), At(Jan2), Some("INV-2"),
                               Some([RawItem(Some("B"), Some(400.0), Some(0.10))]), None);
      var r2 := Transactions.Post(r1.store, saleBody, true);
      && r1.response == AmendmentPending
      && |r1.store.amendments| == 1
      && r2.response == Accepted
      && r2.store.sales == [Sale(Jan2, "INV-2", [Item("B", 400.0, 0.10)])]
  {
    var saleBody := RawEvent(Some(SalesType), At(Jan2), Some("INV-2"),
                             Some([RawItem(Some("B"), Some(400.0), Some(0.10))]), None);
    assert ValidateSale(saleBody).value.items == [Item("B", 400.0, 0.10)];
  }

  /** An amendment naming a line the sale lacks adds it at the end. */
  lemma AmendmentAddsMissingLineExample(now: Timestamp)
    ensures var st := Store([Sale(Jan1, "INV-3", [Item("A", 1000.0, 0.20)])], [], []);
      var amend := RawAmendment(Missing, Some("INV-3"), Some("C"), Some(300.0), Some(0.05));
      var r := Patch(st, amend, now, Io(true, true, true));
      && r.response == SaleUpdated
      && r.store.sales == [Sale(Jan1, "INV-3", [Item("A", 1000.0, 0.20), Item("C", 300.0, 0.05)])]
      && r.store.amendments == [Amendment(now, "INV-3", "C", 300.0, 0.05)]
  {
    var st := Store([Sale(Jan1, "INV-3", [Item("A", 1000.0, 0.20)])], [], []);
    var amend := RawAmendment(Missing, Some("INV-3"), Some("C"), Some(300.0), Some(0.05));
    var a := Amendment(now, "INV-3", "C", 300.0, 0.05);
    assert ValidateAmendment(Resolve(amend, now)) == Valid(a);
    assert !HasItem(st.sales[0].items, "C");
    assert FindSale(st.sales, "INV-3") == Some(0);
    assert MergeItems(st.sales[0].items, a) == [Item("A", 1000.0, 0.20), Item("C", 300.0, 0.05)];
  }
}
