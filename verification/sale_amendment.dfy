/** The PATCH handler of app/api/sale/route.ts: log an amendment, then
    overwrite (or add) the matching line of the first sale with the same
    invoice. */
module SaleAmendment {
  import opened Ledger
  import opened Schemas
  import opened Responses

  /** `items.find(i => i.itemId === itemId)`: the first line with that id. */
  function FindItem(items: seq<Item>, itemId: string): (k: Option<nat>)
    ensures k.Some? ==> IsFirstItem(items, itemId, k.value)
    ensures k.None? <==> !HasItem(items, itemId)
  {
    if |items| == 0 then None
    else if items[0].itemId == itemId then Some(0)
    else match FindItem(items[1..], itemId)
      case None => None
      case Some(j) => Some(j + 1)
  }

  /** `SaleEvent.findOne({ invoiceId })`: the first stored sale with that
      invoice, in insertion order. */
  function FindSale(sales: seq<Sale>, invoiceId: string): (k: Option<nat>)
    ensures k.Some? ==> IsFirstSale(sales, invoiceId, k.value)
    ensures k.None? <==> !HasSale(sales, invoiceId)
  {
    if |sales| == 0 then None
    else if sales[0].invoiceId == invoiceId then Some(0)
    else match FindSale(sales[1..], invoiceId)
      case None => None
      case Some(j) => Some(j + 1)
  }

  function NewItem(a: Amendment): Item {
    Item(a.itemId, a.cost, a.taxRate)
  }

  /** The item list after an amendment: the first line with the amendment's
      id takes its cost and taxRate; with no such line, one is appended. */
  function MergeItems(items: seq<Item>, a: Amendment): (r: seq<Item>)
    ensures forall k :: IsFirstItem(items, a.itemId, k) ==>
      && |r| == |items|
      && r[k] == NewItem(a)
      && forall j :: 0 <= j < |items| && j != k ==> r[j] == items[j]
    ensures !HasItem(items, a.itemId) ==>
      && |r| == |items| + 1
      && r[..|items|] == items
      && r[|items|] == NewItem(a)
    ensures exists k :: IsFirstItem(r, a.itemId, k) && r[k] == NewItem(a)
  {
    match FindItem(items, a.itemId)
    case Some(k) =>
      var r := items[k := items[k].(cost := a.cost, taxRate := a.taxRate)];
      assert IsFirstItem(r, a.itemId, k);
      r
    case None =>
      var r := items + [NewItem(a)];
      assert IsFirstItem(r, a.itemId, |items|);
      r
  }

  /** With a line to overwrite, the merge is a single in-place update. */
  lemma MergeOverwrites(items: seq<Item>, a: Amendment, k: int)
    requires IsFirstItem(items, a.itemId, k)
    ensures MergeItems(items, a) == items[k := NewItem(a)]
  {
  }

  /** Applying the same amendment twice leaves the same lines as applying
      it once. */
  lemma MergeIdempotent(items: seq<Item>, a: Amendment)
    ensures MergeItems(MergeItems(items, a), a) == MergeItems(items, a)
  {
  }

  /** The document the handler builds: `date || new Date()`. */
  function Resolve(body: RawAmendment, now: Timestamp): (doc: RawAmendment)
    ensures body.date.Missing? ==> doc.date == At(now)
    ensures !body.date.Missing? ==> doc.date == body.date
    ensures doc.(date := body.date) == body
  {
    if body.date.Missing? then body.(date := At(now)) else body
  }

  /** Which of the handler's three database calls succeed: the amendment
      `save`, the sale `findOne`, and the sale `save`. */
  datatype Io = Io(logOk: bool, lookupOk: bool, updateOk: bool)

  /** The PATCH handler. A schema failure or a database fault answers 500;
      once the amendment is logged it stays logged, whatever follows. */
  function Patch(st: Store, body: RawAmendment, now: Timestamp, io: Io): (r: Reply)
    ensures r.store.payments == st.payments
    ensures var v := ValidateAmendment(Resolve(body, now));
      && (v.Invalid? ==> r == Reply(st, ServerError(Rejected(v.paths))))
      && (v.Valid? && !io.logOk ==> r == Reply(st, ServerError(StorageFault)))
      && (v.Valid? && io.logOk ==> r.store.amendments == st.amendments + [v.value])
      && (r.response.AmendmentPending? <==> v.Valid? && io.logOk && io.lookupOk && !HasSale(st.sales, v.value.invoiceId))
      && (r.response.SaleUpdated? <==> v.Valid? && io.logOk && io.lookupOk && io.updateOk && HasSale(st.sales, v.value.invoiceId))
      && (r.response.SaleUpdated? ==> forall k :: IsFirstSale(st.sales, v.value.invoiceId, k) ==>
            r.store.sales == st.sales[k := st.sales[k].(items := MergeItems(st.sales[k].items, v.value))])
    ensures !r.response.SaleUpdated? ==> r.store.sales == st.sales
    ensures r.response.AmendmentPending? || r.response.SaleUpdated? || r.response.ServerError?
    ensures Status(r.response) == 202 || Status(r.response) == 500
  {
    match ValidateAmendment(Resolve(body, now))
    case Invalid(paths) => Reply(st, ServerError(Rejected(paths)))
    case Valid(a) =>
      if !io.logOk then Reply(st, ServerError(StorageFault))
      else
        var logged := st.(amendments := st.amendments + [a]);
        if !io.lookupOk then Reply(logged, ServerError(StorageFault))
        else match FindSale(st.sales, a.invoiceId)
          case None => Reply(logged, AmendmentPending)
          case Some(k) =>
            var sale := st.sales[k];
            var updated := sale.(items := MergeItems(sale.items, a));
            if !io.updateOk then Reply(logged, ServerError(StorageFault))
            else Reply(logged.(sales := st.sales[k := updated]), SaleUpdated)
  }

  /** On "sale updated", the first sale with the invoice now carries a line
      with the amendment's id, cost and taxRate, keeps its invoiceId and
      date, and every other sale is untouched. */
  lemma PatchUpdatesSale(st: Store, body: RawAmendment, now: Timestamp, io: Io, k: int)
    requires Patch(st, body, now, io).response.SaleUpdated?
    requires IsFirstSale(st.sales, body.invoiceId.value, k)
    ensures var r := Patch(st, body, now, io).store;
      && |r.sales| == |st.sales|
      && r.sales[k].invoiceId == st.sales[k].invoiceId
      && r.sales[k].date == st.sales[k].date
      && (exists j :: 0 <= j < |r.sales[k].items|
            && r.sales[k].items[j] == Item(body.itemId.value, body.cost.value, body.taxRate.value))
      && (forall i :: 0 <= i < |st.sales| && i != k ==> r.sales[i] == st.sales[i])
  {
  }

  /** Merging an amendment with a non-empty item id into a sale whose lines
      all have ids gives a sale whose lines all have ids. */
  lemma MergeKeepsStored(s: Sale, a: Amendment)
    requires StoredSale(s) && StoredAmendment(a)
    ensures StoredSale(s.(items := MergeItems(s.items, a)))
  {
    var merged := MergeItems(s.items, a);
    forall i | 0 <= i < |merged| ensures StoredItem(merged[i]) {
      if HasItem(s.items, a.itemId) {
        var f := FindItem(s.items, a.itemId).value;
        assert i != f ==> merged[i] == s.items[i];
      } else {
        assert i < |s.items| ==> merged[i] == merged[..|s.items|][i];
      }
    }
  }

  /** Every record the handler stores is one its schema accepts. */
  lemma PatchKeepsWellFormed(st: Store, body: RawAmendment, now: Timestamp, io: Io)
    requires WellFormed(st)
    ensures WellFormed(Patch(st, body, now, io).store)
  {
    var r := Patch(st, body, now, io).store;
    match ValidateAmendment(Resolve(body, now))
    case Invalid(_) =>
      assert r == st;
    case Valid(a) =>
      assert StoredAmendment(a);
      assert r.sales == st.sales || r.amendments == st.amendments + [a];
      assert forall i :: 0 <= i < |r.amendments| ==> StoredAmendment(r.amendments[i]);
      if r.sales != st.sales {
        var k := FindSale(st.sales, a.invoiceId).value;
        MergeKeepsStored(st.sales[k], a);
        assert r.sales == st.sales[k := st.sales[k].(items := MergeItems(st.sales[k].items, a))];
      }
  }

  /** Sending the same amendment twice leaves the same sales as sending it
      once; only the amendment log grows a second time. */
  lemma PatchTwiceSameSales(st: Store, body: RawAmendment, now: Timestamp)
    ensures var once := Patch(st, body, now, Io(true, true, true)).store;
      Patch(once, body, now, Io(true, true, true)).store.sales == once.sales
  {
    var io := Io(true, true, true);
    var v := ValidateAmendment(Resolve(body, now));
    var once := Patch(st, body, now, io).store;
    if v.Valid? && HasSale(st.sales, v.value.invoiceId) {
      var a := v.value;
      var k := FindSale(st.sales, a.invoiceId).value;
      assert once.sales[k].items == MergeItems(st.sales[k].items, a);
      assert IsFirstSale(once.sales, a.invoiceId, k);
      MergeIdempotent(st.sales[k].items, a);
      var k2 := FindSale(once.sales, a.invoiceId).value;
      assert k2 == k;
    }
  }
}
