/** The sale reducers of app/context/AppContext.tsx: `addSale`, `updateSale` and `deleteSale`.
    A sale whose status is `Selesai` or absent holds its items out of product stock; a
    `Pre-Order` does not. Each reducer walks the sale's items with `forEach`, so each is a
    method proved equal to a specification function (`SaleAdded`, `SaleUpdated`, `SaleDeleted`).
    The property that ties them together is conservation: for every product, its stock plus
    what the completed sales hold of it never changes. */
module SalesFlow {
  import opened Seqs
  import opened Entities
  import opened Stock

  /** `Partial<Sale>` without the id. A present optional field may itself be `undefined`. */
  datatype SalePatch = SalePatch(
    customerName: Option<string>, date: Option<string>, items: Option<seq<SaleItem>>,
    totalPrice: Option<real>, paymentMethod: Option<string>, status: Option<Option<SaleStatus>>,
    source: Option<Option<string>>, deliveryDate: Option<Option<string>>)

  /** `{ ...s, ...updates }` */
  function MergeSale(s: Sale, q: SalePatch): Sale
  {
    s.(customerName := q.customerName.GetOr(s.customerName), date := q.date.GetOr(s.date),
       items := q.items.GetOr(s.items), totalPrice := q.totalPrice.GetOr(s.totalPrice),
       paymentMethod := q.paymentMethod.GetOr(s.paymentMethod), status := q.status.GetOr(s.status),
       source := q.source.GetOr(s.source), deliveryDate := q.deliveryDate.GetOr(s.deliveryDate))
  }

  /** `updates.status !== undefined ? updates.status : existingSale.status`: the status
      updateSale decides stock by (an explicit `undefined` falls back to the existing status). */
  function NewStatus(existing: Sale, q: SalePatch): Option<SaleStatus>
  {
    if q.status.Some? && q.status.value.Some? then q.status.value else existing.status
  }

  /** What a sale holds of product `pid`: its quantity of it when completed, nothing otherwise. */
  function Share(s: Sale, pid: Id): int
  {
    if IsCompleted(s.status) then ItemsQty(s.items, pid) else 0
  }

  /** What all completed sales together hold of product `pid`. */
  function Committed(ss: seq<Sale>, pid: Id): int
  {
    if ss == [] then 0 else Share(ss[0], pid) + Committed(ss[1..], pid)
  }

  /** The product list with a sale's items taken out when the sale counts as completed. */
  function Deduct(ps: seq<Product>, items: seq<SaleItem>, status: Option<SaleStatus>): seq<Product>
  {
    if IsCompleted(status) then ApplyItems(ps, items, Debit) else ps
  }

  /** The product list with a sale's items put back when the sale counted as completed. */
  function Restore(ps: seq<Product>, items: seq<SaleItem>, status: Option<SaleStatus>): seq<Product>
  {
    if IsCompleted(status) then ApplyItems(ps, items, Credit) else ps
  }

  /** The state after addSale (specification of the method AddSale). */
  function SaleAdded(prev: AppState, sale: Sale, newId: Id): AppState
  {
    prev.(sales := prev.sales + [sale.(id := newId)],
          products := Deduct(prev.products, sale.items, sale.status))
  }

  /** `sales.map(s => s.id === id ? { ...s, ...updates } : s)` */
  function MergedSales(ss: seq<Sale>, id: Id, q: SalePatch): seq<Sale>
  {
    seq(|ss|, k requires 0 <= k < |ss| => if ss[k].id == id then MergeSale(ss[k], q) else ss[k])
  }

  /** The state after updateSale (specification of the method UpdateSale). */
  function SaleUpdated(prev: AppState, id: Id, q: SalePatch): (next: AppState)
    ensures FindSale(prev.sales, id).None? ==> next == prev
  {
    match FindSale(prev.sales, id)
    case None => prev
    case Some(existing) =>
      var restored := Restore(prev.products, existing.items, existing.status);
      prev.(sales := MergedSales(prev.sales, id, q),
            products := Deduct(restored, q.items.GetOr(existing.items), NewStatus(existing, q)))
  }

  /** The state after deleteSale (specification of the method DeleteSale). */
  function SaleDeleted(prev: AppState, id: Id): (next: AppState)
    ensures FindSale(prev.sales, id).None? ==> next == prev
  {
    match FindSale(prev.sales, id)
    case None => prev
    case Some(existing) =>
      prev.(sales := Filter(prev.sales, (s: Sale) => s.id != id),
            products := Restore(prev.products, existing.items, existing.status))
  }

  /** The `forEach` over a sale's items: moves each item's product by its quantity. */
  method MoveItems(products: seq<Product>, items: seq<SaleItem>, sign: Sign) returns (updatedProducts: seq<Product>)
    ensures updatedProducts == ApplyItems(products, items, sign)
  {
    updatedProducts := products;
    var i := 0;
    while i < |items|
      invariant 0 <= i <= |items|
      invariant updatedProducts == ApplyItems(products, items[..i], sign)
    {
      var item := items[i];
      ApplyItemsStep(products, items, i, sign);
      if sign == Debit {
        updatedProducts := AdjustProduct(updatedProducts, item.productId, -item.quantity);
      } else {
        updatedProducts := AdjustProduct(updatedProducts, item.productId, item.quantity);
      }
      i := i + 1;
    }
    assert items[..i] == items;
  }

  /** addSale */
  method AddSale(prev: AppState, sale: Sale, newId: Id) returns (next: AppState)
    ensures next == SaleAdded(prev, sale, newId)
  {
    var updatedProducts := prev.products;
    CompletedCases(sale.status);
    if sale.status == Some(Selesai) || sale.status.None? {
      updatedProducts := MoveItems(prev.products, sale.items, Debit);
    }
    next := prev.(sales := prev.sales + [sale.(id := newId)], products := updatedProducts);
  }

  /** updateSale */
  method UpdateSale(prev: AppState, id: Id, updates: SalePatch) returns (next: AppState)
    ensures next == SaleUpdated(prev, id, updates)
  {
    var found := FindSale(prev.sales, id);
    if found.None? {
      return prev;
    }
    var existingSale := found.value;
    var updatedProducts := prev.products;
    CompletedCases(existingSale.status);
    if existingSale.status == Some(Selesai) || existingSale.status.None? {
      updatedProducts := MoveItems(updatedProducts, existingSale.items, Credit);
    }
    var newStatus := if updates.status.Some? && updates.status.value.Some? then updates.status.value
                     else existingSale.status;
    var newItems := if updates.items.Some? then updates.items.value else existingSale.items;
    CompletedCases(newStatus);
    if newStatus == Some(Selesai) || newStatus.None? {
      updatedProducts := MoveItems(updatedProducts, newItems, Debit);
    }
    next := prev.(sales := MergedSales(prev.sales, id, updates), products := updatedProducts);
  }

  /** deleteSale */
  method DeleteSale(prev: AppState, id: Id) returns (next: AppState)
    ensures next == SaleDeleted(prev, id)
  {
    var found := FindSale(prev.sales, id);
    if found.None? {
      return prev;
    }
    var existingSale := found.value;
    var updatedProducts := prev.products;
    CompletedCases(existingSale.status);
    if existingSale.status == Some(Selesai) || existingSale.status.None? {
      updatedProducts := MoveItems(updatedProducts, existingSale.items, Credit);
    }
    next := prev.(sales := Filter(prev.sales, (s: Sale) => s.id != id), products := updatedProducts);
  }

  /** Taking out a completed sale's items moves each product by its quantity in the sale. */
  lemma {:induction false} DeductAt(ps: seq<Product>, items: seq<SaleItem>, status: Option<SaleStatus>, k: int)
    requires 0 <= k < |ps|
    ensures |Deduct(ps, items, status)| == |ps|
    ensures Deduct(ps, items, status)[k]
         == ps[k].(stock := ps[k].stock - (if IsCompleted(status) then ItemsQty(items, ps[k].id) else 0))
  {
    ApplyItemsAt(ps, items, Debit, k);
  }

  lemma {:induction false} RestoreAt(ps: seq<Product>, items: seq<SaleItem>, status: Option<SaleStatus>, k: int)
    requires 0 <= k < |ps|
    ensures |Restore(ps, items, status)| == |ps|
    ensures Restore(ps, items, status)[k]
         == ps[k].(stock := ps[k].stock + (if IsCompleted(status) then ItemsQty(items, ps[k].id) else 0))
  {
    ApplyItemsAt(ps, items, Credit, k);
  }

  /** What addSale does to stock: a completed sale takes each product down by its quantity in
      the sale; a pre-order changes no stock. */
  lemma SaleAddedEffect(prev: AppState, sale: Sale, newId: Id)
    ensures var next := SaleAdded(prev, sale, newId);
      && next.sales == prev.sales + [sale.(id := newId)]
      && |next.products| == |prev.products|
      && (forall k :: 0 <= k < |prev.products| ==>
            next.products[k] == prev.products[k].(stock := prev.products[k].stock
                                  - (if IsCompleted(sale.status) then ItemsQty(sale.items, prev.products[k].id) else 0)))
      && (sale.status == Some(PreOrder) ==> next.products == prev.products)
  {
    forall k | 0 <= k < |prev.products|
      ensures SaleAdded(prev, sale, newId).products[k]
           == prev.products[k].(stock := prev.products[k].stock
                - (if IsCompleted(sale.status) then ItemsQty(sale.items, prev.products[k].id) else 0))
    {
      DeductAt(prev.products, sale.items, sale.status, k);
    }
  }

  /** What updateSale does to stock: the existing sale's share is put back and the edited sale's
      share is taken out, on every product at once. */
  lemma SaleUpdatedEffect(prev: AppState, id: Id, q: SalePatch)
    requires FindSale(prev.sales, id).Some?
    ensures var existing := FindSale(prev.sales, id).value;
      var next := SaleUpdated(prev, id, q);
      && |next.products| == |prev.products|
      && (forall k :: 0 <= k < |prev.products| ==>
            next.products[k] == prev.products[k].(stock := prev.products[k].stock
              + (if IsCompleted(existing.status) then ItemsQty(existing.items, prev.products[k].id) else 0)
              - (if IsCompleted(NewStatus(existing, q)) then ItemsQty(q.items.GetOr(existing.items), prev.products[k].id) else 0)))
      && |next.sales| == |prev.sales|
      && (forall k :: 0 <= k < |prev.sales| ==>
            next.sales[k] == if prev.sales[k].id == id then MergeSale(prev.sales[k], q) else prev.sales[k])
  {
    var existing := FindSale(prev.sales, id).value;
    var restored := Restore(prev.products, existing.items, existing.status);
    forall k | 0 <= k < |prev.products|
      ensures SaleUpdated(prev, id, q).products[k]
           == prev.products[k].(stock := prev.products[k].stock
              + (if IsCompleted(existing.status) then ItemsQty(existing.items, prev.products[k].id) else 0)
              - (if IsCompleted(NewStatus(existing, q)) then ItemsQty(q.items.GetOr(existing.items), prev.products[k].id) else 0))
    {
      RestoreAt(prev.products, existing.items, existing.status, k);
      DeductAt(restored, q.items.GetOr(existing.items), NewStatus(existing, q), k);
    }
  }

  /** What deleteSale does to stock: a completed sale's items go back; a pre-order's do not. */
  lemma SaleDeletedEffect(prev: AppState, id: Id)
    requires FindSale(prev.sales, id).Some?
    ensures var existing := FindSale(prev.sales, id).value;
      var next := SaleDeleted(prev, id);
      && |next.products| == |prev.products|
      && (forall k :: 0 <= k < |prev.products| ==>
            next.products[k] == prev.products[k].(stock := prev.products[k].stock
              + (if IsCompleted(existing.status) then ItemsQty(existing.items, prev.products[k].id) else 0)))
      && (forall k :: 0 <= k < |next.sales| ==> next.sales[k].id != id)
      && (forall k :: 0 <= k < |prev.sales| && prev.sales[k].id != id ==> prev.sales[k] in next.sales)
      && next.(sales := prev.sales, products := prev.products) == prev
  {
    var existing := FindSale(prev.sales, id).value;
    FilterMembers(prev.sales, (s: Sale) => s.id != id);
    forall k | 0 <= k < |prev.products|
      ensures SaleDeleted(prev, id).products[k]
           == prev.products[k].(stock := prev.products[k].stock
              + (if IsCompleted(existing.status) then ItemsQty(existing.items, prev.products[k].id) else 0))
    {
      RestoreAt(prev.products, existing.items, existing.status, k);
    }
  }

  /** The 'complete' action on a pre-order (`updateSale(id, { status: 'Selesai' })`) takes its
      items out of stock once; completing it a second time changes no stock. */
  lemma CompletePreOrder(prev: AppState, id: Id, q: SalePatch)
    requires FindSale(prev.sales, id).Some? && FindSale(prev.sales, id).value.status == Some(PreOrder)
    requires q == SalePatch(None, None, None, None, None, Some(Some(Selesai)), None, None)
    ensures var existing := FindSale(prev.sales, id).value;
      var once := SaleUpdated(prev, id, q);
      && |once.products| == |prev.products|
      && (forall k :: 0 <= k < |prev.products| ==>
            once.products[k].stock == prev.products[k].stock - ItemsQty(existing.items, prev.products[k].id))
      && SaleUpdated(once, id, q).products == once.products
  {
    var existing := FindSale(prev.sales, id).value;
    SaleUpdatedEffect(prev, id, q);
    var once := SaleUpdated(prev, id, q);
    var merged := MergeSale(existing, q);
    FindMerged(prev.sales, id, q);
    assert FindSale(once.sales, id) == Some(merged);
    SaleUpdatedEffect(once, id, q);
    var twice := SaleUpdated(once, id, q);
    assert |twice.products| == |once.products|;
    forall k | 0 <= k < |once.products| ensures twice.products[k] == once.products[k] {
    }
  }

  /** Editing a sale's details without touching its status or items changes no stock. */
  lemma EditDetailsKeepsStock(prev: AppState, id: Id, q: SalePatch)
    requires q.status.None? && q.items.None?
    ensures SaleUpdated(prev, id, q).products == prev.products
  {
    if FindSale(prev.sales, id).Some? {
      SaleUpdatedEffect(prev, id, q);
      var next := SaleUpdated(prev, id, q);
      assert |next.products| == |prev.products|;
      forall k | 0 <= k < |prev.products| ensures next.products[k] == prev.products[k] {
      }
    }
  }

  /** After the merge, `find` by the same id returns the merged sale. */
  lemma FindMerged(ss: seq<Sale>, id: Id, q: SalePatch)
    requires FindSale(ss, id).Some?
    ensures FindSale(MergedSales(ss, id, q), id) == Some(MergeSale(FindSale(ss, id).value, q))
  {
    var p := (s: Sale) => s.id == id;
    var i := FindIndex(ss, p).value;
    var merged := MergedSales(ss, id, q);
    assert p(merged[i]);
    var j := FindIndex(merged, p).value;
    assert merged[j].id == ss[j].id;
    assert !(j < i);
    assert !(i < j);
  }

  /** Adding a sale and deleting it again restores the state, when the new id was unused. */
  lemma AddThenDeleteSale(prev: AppState, sale: Sale, newId: Id)
    requires forall k :: 0 <= k < |prev.sales| ==> prev.sales[k].id != newId
    ensures SaleDeleted(SaleAdded(prev, sale, newId), newId) == prev
  {
    var s' := sale.(id := newId);
    FindAppended(prev.sales, s', (s: Sale) => s.id == newId);
    var keep := (s: Sale) => s.id != newId;
    FilterConcat(prev.sales, [s'], keep);
    FilterKeepsAll(prev.sales, keep);
    FilterSingleton(s', keep);
    ItemsRoundTrip(prev.products, sale.items, Debit);
  }

  lemma {:induction false} CommittedConcat(a: seq<Sale>, b: seq<Sale>, pid: Id)
    ensures Committed(a + b, pid) == Committed(a, pid) + Committed(b, pid)
  {
    if a == [] {
      assert a + b == b;
    } else {
      assert (a + b)[1..] == a[1..] + b;
      CommittedConcat(a[1..], b, pid);
    }
  }

  /** Removing the one sale with `id` removes exactly its share. */
  lemma {:induction false} CommittedRemove(ss: seq<Sale>, id: Id, pid: Id)
    requires UniqueSaleIds(ss)
    requires FindSale(ss, id).Some?
    ensures Committed(Filter(ss, (s: Sale) => s.id != id), pid) + Share(FindSale(ss, id).value, pid)
         == Committed(ss, pid)
  {
    var keep := (s: Sale) => s.id != id;
    if ss[0].id == id {
      assert FindIndex(ss, (s: Sale) => s.id == id) == Some(0);
      forall k | 0 <= k < |ss[1..]| ensures keep(ss[1..][k]) {
        assert ss[1..][k] == ss[k + 1];
      }
      FilterKeepsAll(ss[1..], keep);
      assert Filter(ss, keep) == [] + Filter(ss[1..], keep);
      assert Filter(ss, keep) == ss[1..];
      assert FindSale(ss, id) == Some(ss[0]);
      assert Committed(ss, pid) == Share(ss[0], pid) + Committed(ss[1..], pid);
    } else {
      assert FindSale(ss[1..], id) == FindSale(ss, id);
      CommittedRemove(ss[1..], id, pid);
    }
  }

  /** Merging a patch into the one sale with `id` trades its existing share for the merged one. */
  lemma {:induction false} CommittedMerge(ss: seq<Sale>, id: Id, q: SalePatch, pid: Id)
    requires UniqueSaleIds(ss)
    requires FindSale(ss, id).Some?
    ensures var existing := FindSale(ss, id).value;
      Committed(MergedSales(ss, id, q), pid) + Share(existing, pid) == Committed(ss, pid) + Share(MergeSale(existing, q), pid)
  {
    var merged := MergedSales(ss, id, q);
    assert merged[1..] == MergedSales(ss[1..], id, q);
    if ss[0].id == id {
      assert FindIndex(ss, (s: Sale) => s.id == id) == Some(0);
      assert MergedSales(ss[1..], id, q) == ss[1..];
    } else {
      assert FindSale(ss[1..], id) == FindSale(ss, id);
      CommittedMerge(ss[1..], id, q, pid);
    }
  }

  /** For each product, its stock plus what completed sales hold of it. */
  function Accounted(s: AppState, k: int): int
    requires 0 <= k < |s.products|
  {
    s.products[k].stock + Committed(s.sales, s.products[k].id)
  }

  /** addSale conserves every product's stock plus committed quantity. */
  lemma AddSaleConserves(prev: AppState, sale: Sale, newId: Id)
    ensures var next := SaleAdded(prev, sale, newId);
      |next.products| == |prev.products| &&
      forall k :: 0 <= k < |prev.products| ==> Accounted(next, k) == Accounted(prev, k)
  {
    SaleAddedEffect(prev, sale, newId);
    var next := SaleAdded(prev, sale, newId);
    forall k | 0 <= k < |prev.products| ensures Accounted(next, k) == Accounted(prev, k) {
      var pid := prev.products[k].id;
      CommittedConcat(prev.sales, [sale.(id := newId)], pid);
      assert [sale.(id := newId)][1..] == [];
    }
  }

  /** deleteSale conserves every product's stock plus committed quantity. */
  lemma DeleteSaleConserves(prev: AppState, id: Id)
    requires UniqueSaleIds(prev.sales)
    ensures var next := SaleDeleted(prev, id);
      |next.products| == |prev.products| &&
      forall k :: 0 <= k < |prev.products| ==> Accounted(next, k) == Accounted(prev, k)
  {
    if FindSale(prev.sales, id).Some? {
      SaleDeletedEffect(prev, id);
      var next := SaleDeleted(prev, id);
      forall k | 0 <= k < |prev.products| ensures Accounted(next, k) == Accounted(prev, k) {
        CommittedRemove(prev.sales, id, prev.products[k].id);
      }
    }
  }

  /** updateSale conserves every product's stock plus committed quantity, as long as the patch
      does not carry an explicit `status: undefined` (the application never sends one). */
  lemma UpdateSaleConserves(prev: AppState, id: Id, q: SalePatch)
    requires UniqueSaleIds(prev.sales)
    requires q.status != Some(None)
    ensures var next := SaleUpdated(prev, id, q);
      |next.products| == |prev.products| &&
      forall k :: 0 <= k < |prev.products| ==> Accounted(next, k) == Accounted(prev, k)
  {
    if FindSale(prev.sales, id).Some? {
      SaleUpdatedEffect(prev, id, q);
      var next := SaleUpdated(prev, id, q);
      forall k | 0 <= k < |prev.products| ensures Accounted(next, k) == Accounted(prev, k) {
        CommittedMerge(prev.sales, id, q, prev.products[k].id);
      }
    }
  }

  /** Why the condition above is needed: an explicit `status: undefined` on a pre-order keeps
      the stock (the existing status decides) but stores a status that counts as completed, so the
      sale's items are counted as sold without ever leaving stock. */
  lemma UndefinedStatusDesync()
    ensures var item := SaleItem("p", 1, 1.0, None);
      var sale := Sale("s", "c", "d", [item], 1.0, "Cash", Some(PreOrder), None, None);
      var prev := AppState([], [], [Product("p", "P", 1.0, None, 5, None)], [], [], [sale], [],
                           AppSettings("a", None, None));
      var next := SaleUpdated(prev, "s", SalePatch(None, None, None, None, None, Some(None), None, None));
      next.products == prev.products && Accounted(next, 0) == Accounted(prev, 0) + 1
  {
    var item := SaleItem("p", 1, 1.0, None);
    var sale := Sale("s", "c", "d", [item], 1.0, "Cash", Some(PreOrder), None, None);
    var prev := AppState([], [], [Product("p", "P", 1.0, None, 5, None)], [], [], [sale], [],
                         AppSettings("a", None, None));
    var q := SalePatch(None, None, None, None, None, Some(None), None, None);
    assert FindIndex(prev.sales, (s: Sale) => s.id == "s") == Some(0);
    var next := SaleUpdated(prev, "s", q);
    assert next.sales == [MergeSale(sale, q)];
    assert ItemsQty([item], "p") == 1 by {
      assert [item][..0] == [];
    }
    assert Committed(next.sales, "p") == 1 by {
      assert next.sales[1..] == [];
    }
    assert Committed(prev.sales, "p") == 0 by {
      assert prev.sales[1..] == [];
    }
  }
}
