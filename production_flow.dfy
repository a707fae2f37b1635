/** The production workflow of app/context/AppContext.tsx: `addProduction` credits the product,
    debits every recipe material by its requirement and logs one `out` transaction per recipe
    line; `deleteProduction` reverses the product credit, credits the materials back using the
    product's CURRENT recipe, and drops the log entries it recognises by date and note prefix.
    Both run `forEach` loops that reassign the material list, so both are methods, each proved
    equal to a specification function (`ProductionAdded`, `ProductionDeleted`) about which the
    properties are proved. `generateId` is the oracle `gen`: `gen(0)` names the production and
    `gen(k + 1)` the transaction of recipe line `k`. */
module ProductionFlow {
  import opened Seqs
  import opened Entities
  import opened Stock
  import opened Text

  /** `Produksi ${quantity}x` */
  function NotePrefix(quantity: int): string
  {
    "Produksi " + IntText(quantity) + "x"
  }

  /** `Produksi ${quantity}x ${product?.name}`: a missing product renders as "undefined". */
  function ProductionNote(quantity: int, productName: Option<string>): (r: string)
    ensures StartsWith(r, NotePrefix(quantity))
  {
    PrefixOfConcat(NotePrefix(quantity), " " + productName.GetOr("undefined"));
    NotePrefix(quantity) + " " + productName.GetOr("undefined")
  }

  function ProductName(ps: seq<Product>, id: Id): Option<string>
  {
    match FindProduct(ps, id)
    case Some(p) => Some(p.name)
    case None => None
  }

  /** The test deleteProduction uses to recognise the log of a run of `quantity` on `date`. */
  predicate LinkedTo(t: MaterialTransaction, date: string, quantity: int)
  {
    t.date == date && StartsWith(t.note, NotePrefix(quantity))
  }

  /** The `out` transactions a run logs, one per recipe line, in recipe order. */
  function RunTransactions(items: seq<RecipeItem>, mult: real, date: string, note: string, gen: nat -> Id)
    : seq<MaterialTransaction>
  {
    seq(|items|, k requires 0 <= k < |items| =>
      MaterialTransaction(gen(k + 1), items[k].materialId, Out, Needed(items[k], mult), date, note))
  }

  /** One more turn of the loop in addProduction logs the next line's transaction. */
  lemma RunTransactionsStep(items: seq<RecipeItem>, i: int, mult: real, date: string, note: string, gen: nat -> Id)
    requires 0 <= i < |items|
    ensures RunTransactions(items[..i + 1], mult, date, note, gen)
         == RunTransactions(items[..i], mult, date, note, gen)
            + [MaterialTransaction(gen(i + 1), items[i].materialId, Out, Needed(items[i], mult), date, note)]
  {
    var a := RunTransactions(items[..i + 1], mult, date, note, gen);
    var b := RunTransactions(items[..i], mult, date, note, gen)
             + [MaterialTransaction(gen(i + 1), items[i].materialId, Out, Needed(items[i], mult), date, note)];
    assert |a| == |b|;
    forall k | 0 <= k < |a| ensures a[k] == b[k] {
    }
  }

  /** What a run of `quantity` units of `productId` takes from material `id` under the recipe
      the product has in `recipes` (nothing when it has none). */
  function RunDemand(recipes: seq<Recipe>, productId: Id, quantity: int, id: Id): real
  {
    match FindRecipe(recipes, productId)
    case None => 0.0
    case Some(r) => Demand(r.items, id, Multiplier(quantity, r.recipeYield))
  }

  /** The state after addProduction (specification of the method AddProduction). */
  function ProductionAdded(prev: AppState, p: Production, gen: nat -> Id): AppState
  {
    var productions := prev.productions + [p.(id := gen(0))];
    var products := AdjustProduct(prev.products, p.productId, p.quantity);
    match FindRecipe(prev.recipes, p.productId)
    case None => prev.(productions := productions, products := products)
    case Some(r) =>
      var mult := Multiplier(p.quantity, r.recipeYield);
      var note := ProductionNote(p.quantity, ProductName(prev.products, p.productId));
      prev.(productions := productions, products := products,
            materials := ApplyRecipe(prev.materials, r.items, mult, Debit),
            materialTransactions := prev.materialTransactions + RunTransactions(r.items, mult, p.date, note, gen))
  }

  /** The `forEach` over the recipe lines in addProduction: debits each line's requirement and
      logs an `out` transaction for it. */
  method ConsumeRecipe(materials: seq<Material>, items: seq<RecipeItem>, multiplier: real, date: string,
                       note: string, gen: nat -> Id)
    returns (updatedMaterials: seq<Material>, newTransactions: seq<MaterialTransaction>)
    ensures updatedMaterials == ApplyRecipe(materials, items, multiplier, Debit)
    ensures newTransactions == RunTransactions(items, multiplier, date, note, gen)
  {
    updatedMaterials := materials;
    newTransactions := [];
    var i := 0;
    while i < |items|
      invariant 0 <= i <= |items|
      invariant updatedMaterials == ApplyRecipe(materials, items[..i], multiplier, Debit)
      invariant newTransactions == RunTransactions(items[..i], multiplier, date, note, gen)
    {
      var item := items[i];
      var totalNeeded := item.quantity * multiplier;
      ApplyRecipeStep(materials, items, i, multiplier, Debit);
      RunTransactionsStep(items, i, multiplier, date, note, gen);
      assert Needed(items[i], multiplier) == totalNeeded;
      assert Signed(Debit, Needed(items[i], multiplier)) == -totalNeeded;
      updatedMaterials := AdjustMaterial(updatedMaterials, item.materialId, -totalNeeded);
      newTransactions := newTransactions + [MaterialTransaction(gen(i + 1), item.materialId, Out, totalNeeded, date, note)];
      i := i + 1;
    }
    assert items[..i] == items;
  }

  /** addProduction. No stock-sufficiency check is made here. */
  method AddProduction(prev: AppState, production: Production, gen: nat -> Id) returns (next: AppState)
    ensures next == ProductionAdded(prev, production, gen)
  {
    var newProduction := production.(id := gen(0));
    var updatedProducts := AdjustProduct(prev.products, production.productId, production.quantity);
    var recipe := FindRecipe(prev.recipes, production.productId);
    var updatedMaterials := prev.materials;
    var newTransactions: seq<MaterialTransaction> := [];
    if recipe.Some? {
      var multiplier := Multiplier(production.quantity, recipe.value.recipeYield);
      var note := ProductionNote(production.quantity, ProductName(prev.products, production.productId));
      updatedMaterials, newTransactions :=
        ConsumeRecipe(prev.materials, recipe.value.items, multiplier, production.date, note, gen);
    } else {
      assert prev.materialTransactions + newTransactions == prev.materialTransactions;
    }
    next := prev.(productions := prev.productions + [newProduction], products := updatedProducts,
                  materials := updatedMaterials,
                  materialTransactions := prev.materialTransactions + newTransactions);
  }

  /** What addProduction does: the product gains `quantity`, every material loses exactly what
      the recipe demands of it (nothing without a recipe), and the log grows by one `out` entry
      per recipe line, dated with the run and recognisable by deleteProduction. */
  lemma ProductionAddedEffect(prev: AppState, p: Production, gen: nat -> Id)
    ensures var next := ProductionAdded(prev, p, gen);
      && next.productions == prev.productions + [p.(id := gen(0))]
      && |next.products| == |prev.products|
      && (forall k :: 0 <= k < |prev.products| ==>
            next.products[k] == if prev.products[k].id == p.productId
                                then prev.products[k].(stock := prev.products[k].stock + p.quantity)
                                else prev.products[k])
      && |next.materials| == |prev.materials|
      && (forall k :: 0 <= k < |prev.materials| ==>
            next.materials[k] == prev.materials[k].(stock := prev.materials[k].stock
                                   - RunDemand(prev.recipes, p.productId, p.quantity, prev.materials[k].id)))
      && next.materialTransactions[..|prev.materialTransactions|] == prev.materialTransactions
      && |next.materialTransactions| - |prev.materialTransactions|
         == (match FindRecipe(prev.recipes, p.productId) case None => 0 case Some(r) => |r.items|)
      && (forall k :: |prev.materialTransactions| <= k < |next.materialTransactions| ==>
            var t := next.materialTransactions[k];
            t.txType == Out && LinkedTo(t, p.date, p.quantity))
      && next.(productions := prev.productions, products := prev.products, materials := prev.materials,
               materialTransactions := prev.materialTransactions) == prev
  {
    var next := ProductionAdded(prev, p, gen);
    match FindRecipe(prev.recipes, p.productId)
    case None =>
      assert next.materialTransactions == prev.materialTransactions;
    case Some(r) =>
      var mult := Multiplier(p.quantity, r.recipeYield);
      forall k | 0 <= k < |prev.materials|
        ensures next.materials[k] == prev.materials[k].(stock := prev.materials[k].stock
                                       - RunDemand(prev.recipes, p.productId, p.quantity, prev.materials[k].id))
      {
        ApplyRecipeAt(prev.materials, r.items, mult, Debit, k);
      }
  }

  /** The state after deleteProduction (specification of the method DeleteProduction). */
  function ProductionDeleted(prev: AppState, id: Id): (next: AppState)
    ensures FindProduction(prev.productions, id).None? ==> next == prev
  {
    match FindProduction(prev.productions, id)
    case None => prev
    case Some(p) =>
      var materials := match FindRecipe(prev.recipes, p.productId)
        case None => prev.materials
        case Some(r) => ApplyRecipe(prev.materials, r.items, Multiplier(p.quantity, r.recipeYield), Credit);
      prev.(productions := Filter(prev.productions, (x: Production) => x.id != id),
            products := AdjustProduct(prev.products, p.productId, -p.quantity),
            materials := materials,
            materialTransactions := Filter(prev.materialTransactions,
                                           (t: MaterialTransaction) => !LinkedTo(t, p.date, p.quantity)))
  }

  /** The `forEach` over the recipe lines in deleteProduction: credits each line's requirement back. */
  method RestoreRecipe(materials: seq<Material>, items: seq<RecipeItem>, multiplier: real)
    returns (updatedMaterials: seq<Material>)
    ensures updatedMaterials == ApplyRecipe(materials, items, multiplier, Credit)
  {
    updatedMaterials := materials;
    var i := 0;
    while i < |items|
      invariant 0 <= i <= |items|
      invariant updatedMaterials == ApplyRecipe(materials, items[..i], multiplier, Credit)
    {
      var item := items[i];
      var totalNeeded := item.quantity * multiplier;
      ApplyRecipeStep(materials, items, i, multiplier, Credit);
      assert Signed(Credit, Needed(items[i], multiplier)) == totalNeeded;
      updatedMaterials := AdjustMaterial(updatedMaterials, item.materialId, totalNeeded);
      i := i + 1;
    }
    assert items[..i] == items;
  }

  /** deleteProduction */
  method DeleteProduction(prev: AppState, id: Id) returns (next: AppState)
    ensures next == ProductionDeleted(prev, id)
  {
    var production := FindProduction(prev.productions, id);
    if production.None? {
      return prev;
    }
    var p := production.value;
    assert production == Some(p);
    var updatedProducts := AdjustProduct(prev.products, p.productId, -p.quantity);
    var recipe := FindRecipe(prev.recipes, p.productId);
    var updatedMaterials := prev.materials;
    if recipe.Some? {
      var multiplier := Multiplier(p.quantity, recipe.value.recipeYield);
      updatedMaterials := RestoreRecipe(prev.materials, recipe.value.items, multiplier);
    }
    var updatedTransactions := Filter(prev.materialTransactions,
                                      (t: MaterialTransaction) => !LinkedTo(t, p.date, p.quantity));
    next := prev.(productions := Filter(prev.productions, (x: Production) => x.id != id),
                  products := updatedProducts, materials := updatedMaterials,
                  materialTransactions := updatedTransactions);
  }

  /** What deleteProduction does to stock: the product loses the run's quantity and every
      material gets back what the product's recipe demands NOW, which is the amount taken by
      addProduction only if the recipe has not been edited since. Every log entry with the
      run's date and note prefix goes, including those of another run of the same quantity
      on the same date. */
  lemma ProductionDeletedEffect(prev: AppState, id: Id)
    requires FindProduction(prev.productions, id).Some?
    ensures var p := FindProduction(prev.productions, id).value;
      var next := ProductionDeleted(prev, id);
      && |next.products| == |prev.products|
      && (forall k :: 0 <= k < |prev.products| ==>
            next.products[k] == if prev.products[k].id == p.productId
                                then prev.products[k].(stock := prev.products[k].stock - p.quantity)
                                else prev.products[k])
      && |next.materials| == |prev.materials|
      && (forall k :: 0 <= k < |prev.materials| ==>
            next.materials[k] == prev.materials[k].(stock := prev.materials[k].stock
                                   + RunDemand(prev.recipes, p.productId, p.quantity, prev.materials[k].id)))
      && (forall k :: 0 <= k < |next.materialTransactions| ==>
            !LinkedTo(next.materialTransactions[k], p.date, p.quantity))
      && (forall k :: 0 <= k < |prev.materialTransactions| && !LinkedTo(prev.materialTransactions[k], p.date, p.quantity) ==>
            prev.materialTransactions[k] in next.materialTransactions)
      && (forall k :: 0 <= k < |next.productions| ==> next.productions[k].id != id)
      && (forall k :: 0 <= k < |prev.productions| && prev.productions[k].id != id ==>
            prev.productions[k] in next.productions)
      && next.(productions := prev.productions, products := prev.products, materials := prev.materials,
               materialTransactions := prev.materialTransactions) == prev
  {
    var p := FindProduction(prev.productions, id).value;
    var next := ProductionDeleted(prev, id);
    FilterMembers(prev.productions, (x: Production) => x.id != id);
    FilterMembers(prev.materialTransactions, (t: MaterialTransaction) => !LinkedTo(t, p.date, p.quantity));
    match FindRecipe(prev.recipes, p.productId)
    case None =>
    case Some(r) =>
      forall k | 0 <= k < |prev.materials|
        ensures next.materials[k] == prev.materials[k].(stock := prev.materials[k].stock
                                       + RunDemand(prev.recipes, p.productId, p.quantity, prev.materials[k].id))
      {
        ApplyRecipeAt(prev.materials, r.items, Multiplier(p.quantity, r.recipeYield), Credit, k);
      }
  }

  /** The production appended under a fresh id is the one deleteProduction finds and removes. */
  lemma {:induction false} RemoveFreshProduction(ps: seq<Production>, np: Production)
    requires forall k :: 0 <= k < |ps| ==> ps[k].id != np.id
    ensures FindProduction(ps + [np], np.id) == Some(np)
    ensures Filter(ps + [np], (x: Production) => x.id != np.id) == ps
  {
    FindAppended(ps, np, (x: Production) => x.id == np.id);
    var keep := (x: Production) => x.id != np.id;
    FilterConcat(ps, [np], keep);
    FilterKeepsAll(ps, keep);
    FilterSingleton(np, keep);
  }

  /** A run's own log entries are exactly the ones deleteProduction drops, when no earlier entry
      looks like them. */
  lemma {:induction false} RemoveRunLog(log: seq<MaterialTransaction>, items: seq<RecipeItem>, mult: real, p: Production,
                     note: string, gen: nat -> Id)
    requires StartsWith(note, NotePrefix(p.quantity))
    requires forall k :: 0 <= k < |log| ==> !LinkedTo(log[k], p.date, p.quantity)
    ensures Filter(log + RunTransactions(items, mult, p.date, note, gen),
                   (t: MaterialTransaction) => !LinkedTo(t, p.date, p.quantity)) == log
  {
    var run := RunTransactions(items, mult, p.date, note, gen);
    var unlinked := (t: MaterialTransaction) => !LinkedTo(t, p.date, p.quantity);
    FilterConcat(log, run, unlinked);
    FilterKeepsAll(log, unlinked);
    FilterDropsAll(run, unlinked);
  }

  /** With a fresh production id, no earlier log entry that looks like this run's, and the recipe
      unchanged in between, deleting a production right after adding it restores the state. */
  lemma AddThenDeleteProduction(prev: AppState, p: Production, gen: nat -> Id)
    requires forall k :: 0 <= k < |prev.productions| ==> prev.productions[k].id != gen(0)
    requires forall k :: 0 <= k < |prev.materialTransactions| ==>
               !LinkedTo(prev.materialTransactions[k], p.date, p.quantity)
    ensures ProductionDeleted(ProductionAdded(prev, p, gen), gen(0)) == prev
  {
    var np := p.(id := gen(0));
    var mid := ProductionAdded(prev, p, gen);
    assert mid.productions == prev.productions + [np];
    assert mid.recipes == prev.recipes;
    RemoveFreshProduction(prev.productions, np);
    var next := ProductionDeleted(mid, gen(0));
    assert next.productions == prev.productions;
    AdjustProductRoundTrip(prev.products, p.productId, p.quantity);
    assert next.products == prev.products;
    var unlinked := (t: MaterialTransaction) => !LinkedTo(t, p.date, p.quantity);
    match FindRecipe(prev.recipes, p.productId)
    case None =>
      FilterKeepsAll(prev.materialTransactions, unlinked);
      assert next.materialTransactions == prev.materialTransactions;
      assert next.materials == prev.materials;
    case Some(r) =>
      var mult := Multiplier(p.quantity, r.recipeYield);
      var note := ProductionNote(p.quantity, ProductName(prev.products, p.productId));
      assert mid.materials == ApplyRecipe(prev.materials, r.items, mult, Debit);
      assert mid.materialTransactions == prev.materialTransactions + RunTransactions(r.items, mult, p.date, note, gen);
      assert FindRecipe(mid.recipes, p.productId) == Some(r);
      RecipeRoundTrip(prev.materials, r.items, mult, Debit);
      assert next.materials == prev.materials;
      RemoveRunLog(prev.materialTransactions, r.items, mult, p, note, gen);
      assert next.materialTransactions == prev.materialTransactions;
  }
}
