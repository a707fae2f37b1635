/** Stock arithmetic shared by the reducers of app/context/AppContext.tsx: moving one material's
    or one product's stock by a delta (the `map` over the whole list that every reducer writes),
    the recipe requirement `item.quantity * quantity / (yield || 1)`, and the `forEach` loops
    that apply a whole recipe or a whole list of sale items one entry at a time. */
module Stock {
  import opened Seqs
  import opened Entities

  /** Whether a loop takes stock out (`stock - x`) or puts it back (`stock + x`). */
  datatype Sign = Debit | Credit {
    function Flip(): Sign {
      if this == Debit then Credit else Debit
    }
  }

  function Signed(sign: Sign, x: real): real
  {
    if sign == Debit then -x else x
  }

  function SignedInt(sign: Sign, x: int): int
  {
    if sign == Debit then -x else x
  }

  /** `materials.map(m => m.id === id ? { ...m, stock: m.stock + delta } : m)` */
  function AdjustMaterial(ms: seq<Material>, id: Id, delta: real): seq<Material>
  {
    seq(|ms|, k requires 0 <= k < |ms| =>
      if ms[k].id == id then ms[k].(stock := ms[k].stock + delta) else ms[k])
  }

  /** `products.map(p => p.id === id ? { ...p, stock: p.stock + delta } : p)` */
  function AdjustProduct(ps: seq<Product>, id: Id, delta: int): seq<Product>
  {
    seq(|ps|, k requires 0 <= k < |ps| =>
      if ps[k].id == id then ps[k].(stock := ps[k].stock + delta) else ps[k])
  }

  /** Moving a stock and moving it back restores the list exactly. */
  lemma AdjustMaterialRoundTrip(ms: seq<Material>, id: Id, delta: real)
    ensures AdjustMaterial(AdjustMaterial(ms, id, delta), id, -delta) == ms
  {
    var r := AdjustMaterial(AdjustMaterial(ms, id, delta), id, -delta);
    assert |r| == |ms|;
    forall k | 0 <= k < |ms| ensures r[k] == ms[k] {
    }
  }

  lemma AdjustProductRoundTrip(ps: seq<Product>, id: Id, delta: int)
    ensures AdjustProduct(AdjustProduct(ps, id, delta), id, -delta) == ps
  {
    var r := AdjustProduct(AdjustProduct(ps, id, delta), id, -delta);
    assert |r| == |ps|;
    forall k | 0 <= k < |ps| ensures r[k] == ps[k] {
    }
  }

  /** `yield || 1`: a zero yield counts as one. */
  function YieldOrOne(y: real): (r: real)
    ensures r != 0.0
    ensures y != 0.0 ==> r == y
  {
    if y == 0.0 then 1.0 else y
  }

  /** `quantity / (recipe.yield || 1)`: how many recipe batches a run of `quantity` units takes. */
  function Multiplier(quantity: int, recipeYield: real): real
  {
    quantity as real / YieldOrOne(recipeYield)
  }

  /** `item.quantity * multiplier`: what one recipe line needs for the run. */
  function Needed(item: RecipeItem, mult: real): real
  {
    item.quantity * mult
  }

  /** `items.forEach(item => materials = materials.map(...stock ∓ needed...))`, item after item. */
  function ApplyRecipe(ms: seq<Material>, items: seq<RecipeItem>, mult: real, sign: Sign): (r: seq<Material>)
    ensures |r| == |ms|
    decreases |items|
  {
    if items == [] then ms
    else
      var last := items[|items| - 1];
      AdjustMaterial(ApplyRecipe(ms, items[..|items| - 1], mult, sign), last.materialId, Signed(sign, Needed(last, mult)))
  }

  /** One more turn of the recipe loop: the next line's requirement is applied on top. */
  lemma {:induction false} ApplyRecipeStep(ms: seq<Material>, items: seq<RecipeItem>, i: int, mult: real, sign: Sign)
    requires 0 <= i < |items|
    ensures ApplyRecipe(ms, items[..i + 1], mult, sign)
         == AdjustMaterial(ApplyRecipe(ms, items[..i], mult, sign), items[i].materialId, Signed(sign, Needed(items[i], mult)))
  {
    assert items[..i + 1][..i] == items[..i];
  }

  /** The total a recipe needs of material `id` (a material listed twice is counted twice). */
  function Demand(items: seq<RecipeItem>, id: Id, mult: real): real
    decreases |items|
  {
    if items == [] then 0.0
    else
      var last := items[|items| - 1];
      Demand(items[..|items| - 1], id, mult) + (if last.materialId == id then Needed(last, mult) else 0.0)
  }

  /** Applying a recipe moves each material by exactly its total demand and touches nothing else. */
  lemma {:induction false} ApplyRecipeAt(ms: seq<Material>, items: seq<RecipeItem>, mult: real, sign: Sign, k: int)
    requires 0 <= k < |ms|
    ensures |ApplyRecipe(ms, items, mult, sign)| == |ms|
    ensures ApplyRecipe(ms, items, mult, sign)[k]
         == ms[k].(stock := ms[k].stock + Signed(sign, Demand(items, ms[k].id, mult)))
    decreases |items|
  {
    if items != [] {
      ApplyRecipeAt(ms, items[..|items| - 1], mult, sign, k);
    }
  }

  /** A recipe whose lines never name `id` leaves that material alone. */
  lemma {:induction false} DemandAbsent(items: seq<RecipeItem>, id: Id, mult: real)
    requires forall j :: 0 <= j < |items| ==> items[j].materialId != id
    ensures Demand(items, id, mult) == 0.0
    decreases |items|
  {
    if items != [] {
      DemandAbsent(items[..|items| - 1], id, mult);
    }
  }

  /** With every material listed at most once, the demand for a listed material is its one line. */
  lemma {:induction false} DemandSingle(items: seq<RecipeItem>, j: int, mult: real)
    requires 0 <= j < |items|
    requires forall a, b :: 0 <= a < b < |items| ==> items[a].materialId != items[b].materialId
    ensures Demand(items, items[j].materialId, mult) == Needed(items[j], mult)
    decreases |items|
  {
    var init := items[..|items| - 1];
    if j == |items| - 1 {
      DemandAbsent(init, items[j].materialId, mult);
    } else {
      DemandSingle(init, j, mult);
    }
  }

  /** Taking a recipe's materials out and putting them back (or the reverse) restores every stock. */
  lemma {:induction false} RecipeRoundTrip(ms: seq<Material>, items: seq<RecipeItem>, mult: real, sign: Sign)
    ensures ApplyRecipe(ApplyRecipe(ms, items, mult, sign), items, mult, sign.Flip()) == ms
  {
    var mid := ApplyRecipe(ms, items, mult, sign);
    var r := ApplyRecipe(mid, items, mult, sign.Flip());
    forall k | 0 <= k < |ms| ensures r[k] == ms[k] {
      ApplyRecipeAt(ms, items, mult, sign, k);
      ApplyRecipeAt(mid, items, mult, sign.Flip(), k);
    }
  }

  /** `items.forEach(item => products = products.map(...stock ∓ item.quantity...))`, item after item. */
  function ApplyItems(ps: seq<Product>, items: seq<SaleItem>, sign: Sign): (r: seq<Product>)
    ensures |r| == |ps|
    decreases |items|
  {
    if items == [] then ps
    else
      var last := items[|items| - 1];
      AdjustProduct(ApplyItems(ps, items[..|items| - 1], sign), last.productId, SignedInt(sign, last.quantity))
  }

  /** One more turn of the sale-item loop. */
  lemma {:induction false} ApplyItemsStep(ps: seq<Product>, items: seq<SaleItem>, i: int, sign: Sign)
    requires 0 <= i < |items|
    ensures ApplyItems(ps, items[..i + 1], sign)
         == AdjustProduct(ApplyItems(ps, items[..i], sign), items[i].productId, SignedInt(sign, items[i].quantity))
  {
    assert items[..i + 1][..i] == items[..i];
  }

  /** How many units of product `id` a list of sale items holds, over all its lines. */
  function ItemsQty(items: seq<SaleItem>, id: Id): int
    decreases |items|
  {
    if items == [] then 0
    else
      var last := items[|items| - 1];
      ItemsQty(items[..|items| - 1], id) + (if last.productId == id then last.quantity else 0)
  }

  /** Applying sale items moves each product by exactly its quantity in the items. */
  lemma {:induction false} ApplyItemsAt(ps: seq<Product>, items: seq<SaleItem>, sign: Sign, k: int)
    requires 0 <= k < |ps|
    ensures ApplyItems(ps, items, sign)[k] == ps[k].(stock := ps[k].stock + SignedInt(sign, ItemsQty(items, ps[k].id)))
    decreases |items|
  {
    if items != [] {
      ApplyItemsAt(ps, items[..|items| - 1], sign, k);
    }
  }

  /** Taking sale items out of stock and putting them back (or the reverse) restores every stock. */
  lemma {:induction false} ItemsRoundTrip(ps: seq<Product>, items: seq<SaleItem>, sign: Sign)
    ensures ApplyItems(ApplyItems(ps, items, sign), items, sign.Flip()) == ps
  {
    var mid := ApplyItems(ps, items, sign);
    var r := ApplyItems(mid, items, sign.Flip());
    forall k | 0 <= k < |ps| ensures r[k] == ps[k] {
      ApplyItemsAt(ps, items, sign, k);
      ApplyItemsAt(mid, items, sign.Flip(), k);
    }
  }
}
