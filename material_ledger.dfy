/** The material half of the reducers in app/context/AppContext.tsx: `addMaterial`,
    `updateMaterial`, `deleteMaterial`, `addMaterialTransaction` and `deleteMaterialTransaction`.
    Each takes the previous state and returns the next one, as `setState(prev => ...)` does;
    `generateId` is the parameter `newId`. */
module MaterialLedger {
  import opened Seqs
  import opened Entities
  import opened Stock

  /** `Partial<Material>` as the material form sends it: a present field overwrites the old value. */
  datatype MaterialPatch = MaterialPatch(
    name: Option<string>, unit: Option<string>, pricePerUnit: Option<real>,
    stock: Option<real>, minStock: Option<real>)

  /** `{ ...m, ...patch }` */
  function PatchMaterial(m: Material, p: MaterialPatch): Material
  {
    m.(name := p.name.GetOr(m.name), unit := p.unit.GetOr(m.unit),
       pricePerUnit := p.pricePerUnit.GetOr(m.pricePerUnit), stock := p.stock.GetOr(m.stock),
       minStock := p.minStock.GetOr(m.minStock))
  }

  function MaterialIds(ms: seq<Material>): set<Id>
  {
    set m | m in ms :: m.id
  }

  /** Every transaction and every recipe line names a material that exists. */
  predicate RefsIntact(s: AppState)
  {
    && (forall k :: 0 <= k < |s.materialTransactions| ==>
          s.materialTransactions[k].materialId in MaterialIds(s.materials))
    && (forall k, j :: 0 <= k < |s.recipes| && 0 <= j < |s.recipes[k].items| ==>
          s.recipes[k].items[j].materialId in MaterialIds(s.materials))
  }

  /** `id` is not used by any material, and nothing refers to it. */
  predicate MaterialIdUnused(s: AppState, id: Id)
  {
    && (forall k :: 0 <= k < |s.materials| ==> s.materials[k].id != id)
    && (forall k :: 0 <= k < |s.materialTransactions| ==> s.materialTransactions[k].materialId != id)
    && (forall k, j :: 0 <= k < |s.recipes| && 0 <= j < |s.recipes[k].items| ==>
          s.recipes[k].items[j].materialId != id)
  }

  /** addMaterial: appends the material under a new id. */
  function AddMaterial(prev: AppState, m: Material, newId: Id): (next: AppState)
    ensures next.materials == prev.materials + [m.(id := newId)]
    ensures next.(materials := prev.materials) == prev
  {
    prev.(materials := prev.materials + [m.(id := newId)])
  }

  /** updateMaterial: patches every material carrying `id`; ids, order and all other lists are kept. */
  function UpdateMaterial(prev: AppState, id: Id, patch: MaterialPatch): (next: AppState)
    ensures |next.materials| == |prev.materials|
    ensures forall k :: 0 <= k < |prev.materials| ==> next.materials[k].id == prev.materials[k].id
    ensures forall k :: 0 <= k < |prev.materials| && prev.materials[k].id == id ==>
              next.materials[k] == PatchMaterial(prev.materials[k], patch)
    ensures forall k :: 0 <= k < |prev.materials| && prev.materials[k].id != id ==>
              next.materials[k] == prev.materials[k]
    ensures next.(materials := prev.materials) == prev
  {
    prev.(materials := seq(|prev.materials|, k requires 0 <= k < |prev.materials| =>
      if prev.materials[k].id == id then PatchMaterial(prev.materials[k], patch) else prev.materials[k]))
  }

  /** Saving the same edit twice is the same as saving it once. */
  lemma UpdateMaterialIdempotent(s: AppState, id: Id, patch: MaterialPatch)
    ensures UpdateMaterial(UpdateMaterial(s, id, patch), id, patch) == UpdateMaterial(s, id, patch)
  {
    var once := UpdateMaterial(s, id, patch);
    var twice := UpdateMaterial(once, id, patch);
    assert twice.materials == once.materials;
  }

  /** A recipe without its lines for material `id`: every other line stays. */
  function StripMaterial(r: Recipe, id: Id): (stripped: Recipe)
    ensures forall j :: 0 <= j < |stripped.items| ==>
              stripped.items[j].materialId != id && stripped.items[j] in r.items
    ensures forall j :: 0 <= j < |r.items| && r.items[j].materialId != id ==>
              r.items[j] in stripped.items
    ensures stripped == r.(items := stripped.items)
  {
    FilterMembers(r.items, (it: RecipeItem) => it.materialId != id);
    r.(items := Filter(r.items, (it: RecipeItem) => it.materialId != id))
  }

  /** deleteMaterial: removes the material, every transaction on it, and its lines from every
      recipe; the recipes themselves all stay, even one left with no lines. */
  function DeleteMaterial(prev: AppState, id: Id): (next: AppState)
    ensures forall k :: 0 <= k < |next.materials| ==>
              next.materials[k].id != id && next.materials[k] in prev.materials
    ensures forall k :: 0 <= k < |prev.materials| && prev.materials[k].id != id ==>
              prev.materials[k] in next.materials
    ensures forall k :: 0 <= k < |next.materialTransactions| ==>
              next.materialTransactions[k].materialId != id &&
              next.materialTransactions[k] in prev.materialTransactions
    ensures forall k :: 0 <= k < |prev.materialTransactions| && prev.materialTransactions[k].materialId != id ==>
              prev.materialTransactions[k] in next.materialTransactions
    ensures |next.recipes| == |prev.recipes|
    ensures forall k :: 0 <= k < |prev.recipes| ==>
              next.recipes[k] == prev.recipes[k].(items := next.recipes[k].items)
    ensures forall k, j :: 0 <= k < |next.recipes| && 0 <= j < |next.recipes[k].items| ==>
              next.recipes[k].items[j].materialId != id &&
              next.recipes[k].items[j] in prev.recipes[k].items
    ensures forall k, j :: 0 <= k < |prev.recipes| && 0 <= j < |prev.recipes[k].items| &&
                           prev.recipes[k].items[j].materialId != id ==>
              prev.recipes[k].items[j] in next.recipes[k].items
    ensures next.(materials := prev.materials, materialTransactions := prev.materialTransactions,
                  recipes := prev.recipes) == prev
  {
    FilterMembers(prev.materials, (m: Material) => m.id != id);
    FilterMembers(prev.materialTransactions, (t: MaterialTransaction) => t.materialId != id);
    prev.(materials := Filter(prev.materials, (m: Material) => m.id != id),
          materialTransactions := Filter(prev.materialTransactions, (t: MaterialTransaction) => t.materialId != id),
          recipes := seq(|prev.recipes|, k requires 0 <= k < |prev.recipes| => StripMaterial(prev.recipes[k], id)))
  }

  /** The cascade keeps the state free of dangling material references. */
  lemma DeleteMaterialKeepsRefsIntact(prev: AppState, id: Id)
    requires RefsIntact(prev)
    ensures RefsIntact(DeleteMaterial(prev, id))
  {
    var next := DeleteMaterial(prev, id);
    forall k | 0 <= k < |next.materialTransactions|
      ensures next.materialTransactions[k].materialId in MaterialIds(next.materials)
    {
      var t := next.materialTransactions[k];
      var i :| 0 <= i < |prev.materialTransactions| && prev.materialTransactions[i] == t;
      var m :| m in prev.materials && m.id == t.materialId;
      var j :| 0 <= j < |prev.materials| && prev.materials[j] == m;
      assert m in next.materials;
    }
    forall k, j | 0 <= k < |next.recipes| && 0 <= j < |next.recipes[k].items|
      ensures next.recipes[k].items[j].materialId in MaterialIds(next.materials)
    {
      var it := next.recipes[k].items[j];
      var i :| 0 <= i < |prev.recipes[k].items| && prev.recipes[k].items[i] == it;
      var m :| m in prev.materials && m.id == it.materialId;
      var n :| 0 <= n < |prev.materials| && prev.materials[n] == m;
      assert m in next.materials;
    }
  }

  /** Adding a material and deleting it again restores the state, when the new id was unused. */
  lemma AddThenDeleteMaterial(prev: AppState, m: Material, newId: Id)
    requires MaterialIdUnused(prev, newId)
    ensures DeleteMaterial(AddMaterial(prev, m, newId), newId) == prev
  {
    var mid := AddMaterial(prev, m, newId);
    var next := DeleteMaterial(mid, newId);
    var p := (x: Material) => x.id != newId;
    FilterConcat(prev.materials, [m.(id := newId)], p);
    FilterKeepsAll(prev.materials, p);
    FilterSingleton(m.(id := newId), p);
    FilterKeepsAll(prev.materialTransactions, (t: MaterialTransaction) => t.materialId != newId);
    forall k | 0 <= k < |prev.recipes| ensures next.recipes[k] == prev.recipes[k] {
      FilterKeepsAll(prev.recipes[k].items, (it: RecipeItem) => it.materialId != newId);
    }
  }

  /** The signed stock effect of a transaction: `+quantity` for `in`, `-quantity` for `out`. */
  function TxDelta(t: MaterialTransaction): real
  {
    if t.txType == In then t.quantity else -t.quantity
  }

  /** addMaterialTransaction: logs the transaction under a new id and moves the stock of the
      material it names (no lower bound); every other material and list is unchanged. */
  function AddMaterialTransaction(prev: AppState, t: MaterialTransaction, newId: Id): (next: AppState)
    ensures next.materialTransactions == prev.materialTransactions + [t.(id := newId)]
    ensures |next.materials| == |prev.materials|
    ensures forall k :: 0 <= k < |prev.materials| ==>
              next.materials[k] == if prev.materials[k].id == t.materialId
                                   then prev.materials[k].(stock := prev.materials[k].stock + TxDelta(t))
                                   else prev.materials[k]
    ensures next.(materials := prev.materials, materialTransactions := prev.materialTransactions) == prev
  {
    prev.(materialTransactions := prev.materialTransactions + [t.(id := newId)],
          materials := AdjustMaterial(prev.materials, t.materialId, TxDelta(t)))
  }

  /** deleteMaterialTransaction: applies the inverse stock effect of the first transaction
      carrying `id` and removes every record with that id; an unknown id leaves the state as it was. */
  function DeleteMaterialTransaction(prev: AppState, id: Id): (next: AppState)
    ensures FindTransaction(prev.materialTransactions, id).None? ==> next == prev
    ensures FindTransaction(prev.materialTransactions, id).Some? ==>
              var t := FindTransaction(prev.materialTransactions, id).value;
              |next.materials| == |prev.materials| &&
              forall k :: 0 <= k < |prev.materials| ==>
                next.materials[k] == if prev.materials[k].id == t.materialId
                                     then prev.materials[k].(stock := prev.materials[k].stock - TxDelta(t))
                                     else prev.materials[k]
    ensures forall k :: 0 <= k < |next.materialTransactions| ==>
              next.materialTransactions[k].id != id && next.materialTransactions[k] in prev.materialTransactions
    ensures forall k :: 0 <= k < |prev.materialTransactions| && prev.materialTransactions[k].id != id ==>
              prev.materialTransactions[k] in next.materialTransactions
    ensures next.(materials := prev.materials, materialTransactions := prev.materialTransactions) == prev
  {
    FilterMembers(prev.materialTransactions, (x: MaterialTransaction) => x.id != id);
    match FindTransaction(prev.materialTransactions, id)
    case None => prev
    case Some(t) =>
      prev.(materialTransactions := Filter(prev.materialTransactions, (x: MaterialTransaction) => x.id != id),
            materials := AdjustMaterial(prev.materials, t.materialId, -TxDelta(t)))
  }

  /** A movement appended under a fresh id is the one deleteMaterialTransaction finds and drops. */
  lemma {:induction false} RemoveFreshTransaction(ts: seq<MaterialTransaction>, t: MaterialTransaction, id: Id)
    requires t.id == id
    requires forall k :: 0 <= k < |ts| ==> ts[k].id != id
    ensures FindTransaction(ts + [t], id) == Some(t)
    ensures Filter(ts + [t], (x: MaterialTransaction) => x.id != id) == ts
  {
    FindAppended(ts, t, (x: MaterialTransaction) => x.id == id);
    var keep := (x: MaterialTransaction) => x.id != id;
    FilterConcat(ts, [t], keep);
    FilterKeepsAll(ts, keep);
    FilterSingleton(t, keep);
  }

  /** Recording a movement and then deleting it restores every stock and the log exactly. */
  lemma AddThenDeleteTransaction(prev: AppState, t: MaterialTransaction, newId: Id)
    requires forall k :: 0 <= k < |prev.materialTransactions| ==> prev.materialTransactions[k].id != newId
    ensures DeleteMaterialTransaction(AddMaterialTransaction(prev, t, newId), newId) == prev
  {
    var t' := t.(id := newId);
    var mid := AddMaterialTransaction(prev, t, newId);
    assert mid == prev.(materialTransactions := prev.materialTransactions + [t'],
                        materials := AdjustMaterial(prev.materials, t.materialId, TxDelta(t)));
    RemoveFreshTransaction(prev.materialTransactions, t', newId);
    var next := DeleteMaterialTransaction(mid, newId);
    assert next == mid.(materialTransactions := prev.materialTransactions,
                        materials := AdjustMaterial(mid.materials, t.materialId, -TxDelta(t)));
    AdjustMaterialRoundTrip(prev.materials, t.materialId, TxDelta(t));
  }
}
