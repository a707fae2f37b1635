/** The production form of app/produksi/page.tsx: for the selected product and quantity it walks
    the product's recipe, works out what each line needs (`item.quantity * quantity / (yield || 1)`),
    what it costs, and whether the stock suffices (`canProduce`), then `handleAddProduction`
    submits a production carrying the total cost and the cost per unit (HPP). */
module ProductionPage {
  import opened Seqs
  import opened Entities
  import opened Stock
  import opened ProductionFlow

  /** One entry of `materialsNeeded`. */
  datatype Requirement = Requirement(
    name: string, needed: real, unit: string, stock: real, isEnough: bool, cost: real)

  /** What the form computes: `totalCost`, `canProduce` and `materialsNeeded`. */
  datatype Plan = Plan(totalCost: real, canProduce: bool, materialsNeeded: seq<Requirement>)

  /** The entry for one recipe line whose material `m` exists. */
  function Line(m: Material, item: RecipeItem, mult: real): Requirement
  {
    var needed := Needed(item, mult);
    Requirement(m.name, needed, m.unit, m.stock, m.stock >= needed, needed * m.pricePerUnit)
  }

  /** One turn of the loop over the recipe lines: a line whose material no longer exists is
      skipped, any other adds its cost, may clear `canProduce`, and is listed. */
  function AddLine(acc: Plan, ms: seq<Material>, item: RecipeItem, mult: real): Plan
  {
    match FindMaterial(ms, item.materialId)
    case None => acc
    case Some(m) =>
      var l := Line(m, item, mult);
      Plan(acc.totalCost + l.cost, acc.canProduce && l.isEnough, acc.materialsNeeded + [l])
  }

  /** The loop over the recipe lines, one line after another. */
  function PlanLines(ms: seq<Material>, items: seq<RecipeItem>, mult: real): Plan
    decreases |items|
  {
    if items == [] then Plan(0.0, true, [])
    else AddLine(PlanLines(ms, items[..|items| - 1], mult), ms, items[|items| - 1], mult)
  }

  /** What the form shows for `quantity` units of `productId` (nothing to check without a recipe). */
  function PlanFor(s: AppState, productId: Id, quantity: int): Plan
  {
    match FindRecipe(s.recipes, productId)
    case None => Plan(0.0, true, [])
    case Some(r) => PlanLines(s.materials, r.items, Multiplier(quantity, r.recipeYield))
  }

  /** One more turn of the requirements loop handles recipe line `i`. */
  lemma {:induction false} PlanLinesStep(ms: seq<Material>, items: seq<RecipeItem>, i: int, mult: real)
    requires 0 <= i < |items|
    ensures PlanLines(ms, items[..i + 1], mult) == AddLine(PlanLines(ms, items[..i], mult), ms, items[i], mult)
  {
    assert items[..i + 1][..i] == items[..i];
  }

  /** The requirements loop at the top of the production page: with no recipe for the product
      there is nothing to check, otherwise the recipe's lines are walked in order. */
  method PlanProduction(s: AppState, productId: Id, quantity: int)
    returns (totalCost: real, canProduce: bool, materialsNeeded: seq<Requirement>)
    ensures Plan(totalCost, canProduce, materialsNeeded) == PlanFor(s, productId, quantity)
  {
    totalCost := 0.0;
    canProduce := true;
    materialsNeeded := [];
    var selectedRecipe := FindRecipe(s.recipes, productId);
    if selectedRecipe.Some? {
      var multiplier := Multiplier(quantity, selectedRecipe.value.recipeYield);
      totalCost, canProduce, materialsNeeded := WalkRecipe(s.materials, selectedRecipe.value.items, multiplier);
    }
  }

  /** The `forEach` over the recipe lines: each line whose material exists adds its cost to
      `totalCost`, clears `canProduce` when the stock falls short, and is listed. */
  method WalkRecipe(ms: seq<Material>, items: seq<RecipeItem>, multiplier: real)
    returns (totalCost: real, canProduce: bool, materialsNeeded: seq<Requirement>)
    ensures Plan(totalCost, canProduce, materialsNeeded) == PlanLines(ms, items, multiplier)
  {
    totalCost := 0.0;
    canProduce := true;
    materialsNeeded := [];
    var i := 0;
    while i < |items|
      invariant 0 <= i <= |items|
      invariant Plan(totalCost, canProduce, materialsNeeded) == PlanLines(ms, items[..i], multiplier)
    {
      var item := items[i];
      ghost var acc := Plan(totalCost, canProduce, materialsNeeded);
      var material := FindMaterial(ms, item.materialId);
      if material.Some? {
        var m := material.value;
        var totalNeeded := Needed(item, multiplier);
        var cost := totalNeeded * m.pricePerUnit;
        totalCost := totalCost + cost;
        var isEnough := m.stock >= totalNeeded;
        assert Line(m, item, multiplier) == Requirement(m.name, totalNeeded, m.unit, m.stock, isEnough, cost);
        if !isEnough {
          canProduce := false;
        }
        materialsNeeded := materialsNeeded + [Requirement(m.name, totalNeeded, m.unit, m.stock, isEnough, cost)];
      }
      assert Plan(totalCost, canProduce, materialsNeeded) == AddLine(acc, ms, item, multiplier);
      PlanLinesStep(ms, items, i, multiplier);
      i := i + 1;
    }
    assert items[..i] == items;
  }

  /** `canProduce` holds exactly when every recipe line whose material exists finds enough stock. */
  lemma {:induction false} CanProduceIff(ms: seq<Material>, items: seq<RecipeItem>, mult: real)
    ensures PlanLines(ms, items, mult).canProduce <==>
            forall j :: 0 <= j < |items| && FindMaterial(ms, items[j].materialId).Some? ==>
              FindMaterial(ms, items[j].materialId).value.stock >= Needed(items[j], mult)
    decreases |items|
  {
    if items != [] {
      var init := items[..|items| - 1];
      CanProduceIff(ms, init, mult);
      assert forall j :: 0 <= j < |init| ==> init[j] == items[j];
    }
  }

  /** What one recipe line contributes to the total cost: its requirement at the material's
      price, or nothing when the material no longer exists. */
  function LineCost(ms: seq<Material>, item: RecipeItem, mult: real): real
  {
    match FindMaterial(ms, item.materialId)
    case None => 0.0
    case Some(m) => Needed(item, mult) * m.pricePerUnit
  }

  /** The total is the sum of the line costs, missing materials counting zero; it is also the
      sum of the costs listed in `materialsNeeded`, and each listed entry is flagged enough
      exactly when its stock covers its requirement. */
  lemma {:induction false} PlanTotals(ms: seq<Material>, items: seq<RecipeItem>, mult: real)
    ensures var pl := PlanLines(ms, items, mult);
      && pl.totalCost == Sum(items, (it: RecipeItem) => LineCost(ms, it, mult))
      && pl.totalCost == Sum(pl.materialsNeeded, (l: Requirement) => l.cost)
      && |pl.materialsNeeded| <= |items|
      && (forall i :: 0 <= i < |pl.materialsNeeded| ==>
            (pl.materialsNeeded[i].isEnough <==> pl.materialsNeeded[i].stock >= pl.materialsNeeded[i].needed))
      && (pl.canProduce <==> forall i :: 0 <= i < |pl.materialsNeeded| ==> pl.materialsNeeded[i].isEnough)
  {
    PlanCostIsLineSum(ms, items, mult);
    PlanCostIsListedSum(ms, items, mult);
    PlanFlags(ms, items, mult);
  }

  /** The total cost is the sum of the line costs, a missing material counting zero. */
  lemma {:induction false} PlanCostIsLineSum(ms: seq<Material>, items: seq<RecipeItem>, mult: real)
    ensures PlanLines(ms, items, mult).totalCost == Sum(items, (it: RecipeItem) => LineCost(ms, it, mult))
    decreases |items|
  {
    if items != [] {
      var init := items[..|items| - 1];
      var last := items[|items| - 1];
      PlanCostIsLineSum(ms, init, mult);
      assert items == init + [last];
      SumConcat(init, [last], (it: RecipeItem) => LineCost(ms, it, mult));
      assert [last][1..] == [];
    }
  }

  /** The total cost is the sum of the costs listed in `materialsNeeded`, which has at most one
      entry per recipe line. */
  lemma {:induction false} PlanCostIsListedSum(ms: seq<Material>, items: seq<RecipeItem>, mult: real)
    ensures var pl := PlanLines(ms, items, mult);
      pl.totalCost == Sum(pl.materialsNeeded, (l: Requirement) => l.cost) && |pl.materialsNeeded| <= |items|
    decreases |items|
  {
    if items != [] {
      var init := items[..|items| - 1];
      var last := items[|items| - 1];
      PlanCostIsListedSum(ms, init, mult);
      var acc := PlanLines(ms, init, mult);
      match FindMaterial(ms, last.materialId)
      case None =>
      case Some(m) =>
        var l := Line(m, last, mult);
        SumConcat(acc.materialsNeeded, [l], (x: Requirement) => x.cost);
        assert [l][1..] == [];
    }
  }

  /** Each listed entry is flagged enough exactly when its stock covers its requirement, and
      `canProduce` holds exactly when every listed entry is enough. */
  lemma {:induction false} PlanFlags(ms: seq<Material>, items: seq<RecipeItem>, mult: real)
    ensures var pl := PlanLines(ms, items, mult);
      && (forall i :: 0 <= i < |pl.materialsNeeded| ==>
            (pl.materialsNeeded[i].isEnough <==> pl.materialsNeeded[i].stock >= pl.materialsNeeded[i].needed))
      && (pl.canProduce <==> forall i :: 0 <= i < |pl.materialsNeeded| ==> pl.materialsNeeded[i].isEnough)
    decreases |items|
  {
    if items != [] {
      var init := items[..|items| - 1];
      var last := items[|items| - 1];
      PlanFlags(ms, init, mult);
      var acc := PlanLines(ms, init, mult);
      match FindMaterial(ms, last.materialId)
      case None =>
      case Some(m) =>
        var l := Line(m, last, mult);
        var needs := acc.materialsNeeded + [l];
        assert forall i :: 0 <= i < |acc.materialsNeeded| ==> needs[i] == acc.materialsNeeded[i];
        assert needs[|acc.materialsNeeded|] == l;
    }
  }

  /** The submit button: `disabled={!canProduce || !selectedRecipe}`. */
  predicate SubmitEnabled(s: AppState, productId: Id, quantity: int)
  {
    PlanFor(s, productId, quantity).canProduce && FindRecipe(s.recipes, productId).Some?
  }

  /** Without a recipe nothing is checked, so `canProduce` stays true; only the recipe half of
      the button's condition keeps such a production from being submitted. */
  lemma NoRecipeStillCanProduce(s: AppState, productId: Id, quantity: int)
    requires FindRecipe(s.recipes, productId).None?
    ensures PlanFor(s, productId, quantity) == Plan(0.0, true, [])
    ensures !SubmitEnabled(s, productId, quantity)
  {
  }

  /** handleAddProduction: nothing without a selected product or with `canProduce` false;
      otherwise the production to record, stamped `now`, with `costPerUnit = totalCost / quantity`.
      The id is left empty; addProduction assigns one. The quantity input is `required min="1"`. */
  function HandleAddProduction(s: AppState, productId: Id, quantity: int, now: string): (r: Option<Production>)
    requires quantity >= 1
    ensures r.Some? <==> productId != "" && PlanFor(s, productId, quantity).canProduce
    ensures r.Some? ==>
              && r.value.productId == productId && r.value.quantity == quantity && r.value.date == now
              && r.value.totalCost == PlanFor(s, productId, quantity).totalCost
              && r.value.costPerUnit * quantity as real == r.value.totalCost
  {
    var plan := PlanFor(s, productId, quantity);
    if productId == "" || !plan.canProduce then None
    else Some(Production("", productId, quantity, now, plan.totalCost, plan.totalCost / quantity as real))
  }

  /** No two materials share an id. */
  predicate UniqueMaterialIds(ms: seq<Material>)
  {
    forall i, j :: 0 <= i < j < |ms| ==> ms[i].id != ms[j].id
  }

  /** No material is listed on two lines of a recipe. */
  predicate DistinctLines(items: seq<RecipeItem>)
  {
    forall a, b :: 0 <= a < b < |items| ==> items[a].materialId != items[b].materialId
  }

  lemma FindUniqueMaterial(ms: seq<Material>, k: int)
    requires UniqueMaterialIds(ms) && 0 <= k < |ms|
    ensures FindMaterial(ms, ms[k].id) == Some(ms[k])
  {
    var i := FindIndex(ms, (m: Material) => m.id == ms[k].id);
    assert i.Some?;
  }

  /** The amount the form shows for a recipe line is the amount addProduction takes from that
      line's material, when the recipe lists each material once. */
  lemma ShownIsDeducted(s: AppState, p: Production, gen: nat -> Id, j: int, k: int)
    requires UniqueMaterialIds(s.materials)
    requires FindRecipe(s.recipes, p.productId).Some?
    requires var r := FindRecipe(s.recipes, p.productId).value;
      DistinctLines(r.items) && 0 <= j < |r.items| && 0 <= k < |s.materials| &&
      s.materials[k].id == r.items[j].materialId
    ensures var r := FindRecipe(s.recipes, p.productId).value;
      var mult := Multiplier(p.quantity, r.recipeYield);
      s.materials[k].stock - ProductionAdded(s, p, gen).materials[k].stock == Line(s.materials[k], r.items[j], mult).needed
  {
    var r := FindRecipe(s.recipes, p.productId).value;
    ProductionAddedEffect(s, p, gen);
    DemandSingle(r.items, j, Multiplier(p.quantity, r.recipeYield));
  }

  /** The gate works: a production the form accepts leaves no material that had non-negative
      stock below zero, when material ids are unique and the recipe lists each material once. */
  lemma GateKeepsStockNonNegative(s: AppState, p: Production, gen: nat -> Id)
    requires UniqueMaterialIds(s.materials)
    requires FindRecipe(s.recipes, p.productId).Some? ==> DistinctLines(FindRecipe(s.recipes, p.productId).value.items)
    requires PlanFor(s, p.productId, p.quantity).canProduce
    ensures var next := ProductionAdded(s, p, gen);
      |next.materials| == |s.materials| &&
      forall k :: 0 <= k < |s.materials| && s.materials[k].stock >= 0.0 ==> next.materials[k].stock >= 0.0
  {
    ProductionAddedEffect(s, p, gen);
    var next := ProductionAdded(s, p, gen);
    match FindRecipe(s.recipes, p.productId)
    case None =>
    case Some(r) =>
      var mult := Multiplier(p.quantity, r.recipeYield);
      CanProduceIff(s.materials, r.items, mult);
      forall k | 0 <= k < |s.materials| && s.materials[k].stock >= 0.0
        ensures next.materials[k].stock >= 0.0
      {
        var id := s.materials[k].id;
        FindUniqueMaterial(s.materials, k);
        if j :| 0 <= j < |r.items| && r.items[j].materialId == id {
          DemandSingle(r.items, j, mult);
        } else {
          DemandAbsent(r.items, id, mult);
        }
      }
  }
}
