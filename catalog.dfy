/** The product and recipe reducers of app/context/AppContext.tsx: `addProduct`, `updateProduct`,
    `deleteProduct` and `updateRecipe` (an upsert: a product has at most one recipe). */
module Catalog {
  import opened Seqs
  import opened Entities

  /** `Partial<Product>` without the id; an optional field may be present but `undefined`. */
  datatype ProductPatch = ProductPatch(
    name: Option<string>, price: Option<real>, wholesalePrices: Option<Option<seq<ProductPrice>>>,
    stock: Option<int>, imageUrl: Option<Option<string>>)

  /** `{ ...p, ...patch }` */
  function PatchProduct(p: Product, q: ProductPatch): Product
  {
    p.(name := q.name.GetOr(p.name), price := q.price.GetOr(p.price),
       wholesalePrices := q.wholesalePrices.GetOr(p.wholesalePrices), stock := q.stock.GetOr(p.stock),
       imageUrl := q.imageUrl.GetOr(p.imageUrl))
  }

  /** addProduct: appends the product under a new id. */
  function AddProduct(prev: AppState, p: Product, newId: Id): (next: AppState)
    ensures next.products == prev.products + [p.(id := newId)]
    ensures next.(products := prev.products) == prev
  {
    prev.(products := prev.products + [p.(id := newId)])
  }

  /** updateProduct: patches every product carrying `id`; ids, order and all other lists are kept. */
  function UpdateProduct(prev: AppState, id: Id, patch: ProductPatch): (next: AppState)
    ensures |next.products| == |prev.products|
    ensures forall k :: 0 <= k < |prev.products| ==> next.products[k].id == prev.products[k].id
    ensures forall k :: 0 <= k < |prev.products| && prev.products[k].id == id ==>
              next.products[k] == PatchProduct(prev.products[k], patch)
    ensures forall k :: 0 <= k < |prev.products| && prev.products[k].id != id ==>
              next.products[k] == prev.products[k]
    ensures next.(products := prev.products) == prev
  {
    prev.(products := seq(|prev.products|, k requires 0 <= k < |prev.products| =>
      if prev.products[k].id == id then PatchProduct(prev.products[k], patch) else prev.products[k]))
  }

  lemma UpdateProductIdempotent(s: AppState, id: Id, patch: ProductPatch)
    ensures UpdateProduct(UpdateProduct(s, id, patch), id, patch) == UpdateProduct(s, id, patch)
  {
    var once := UpdateProduct(s, id, patch);
    assert UpdateProduct(once, id, patch).products == once.products;
  }

  /** Looking a product up after `updateProduct` finds the patched product; an id no product
      carries stays unknown. */
  lemma UpdateThenFindProduct(s: AppState, id: Id, patch: ProductPatch)
    ensures FindProduct(UpdateProduct(s, id, patch).products, id)
         == match FindProduct(s.products, id)
            case None => None
            case Some(p) => Some(PatchProduct(p, patch))
  {
    var next := UpdateProduct(s, id, patch).products;
    var found := (x: Product) => x.id == id;
    match FindIndex(s.products, found)
    case None =>
      assert FindIndex(next, found) == None;
    case Some(i) =>
      assert found(next[i]);
      assert FindIndex(next, found) == Some(i);
  }

  /** deleteProduct: removes the product and its recipe; sales and productions that name it stay. */
  function DeleteProduct(prev: AppState, id: Id): (next: AppState)
    ensures forall k :: 0 <= k < |next.products| ==> next.products[k].id != id && next.products[k] in prev.products
    ensures forall k :: 0 <= k < |prev.products| && prev.products[k].id != id ==> prev.products[k] in next.products
    ensures forall k :: 0 <= k < |next.recipes| ==> next.recipes[k].productId != id && next.recipes[k] in prev.recipes
    ensures forall k :: 0 <= k < |prev.recipes| && prev.recipes[k].productId != id ==> prev.recipes[k] in next.recipes
    ensures next.(products := prev.products, recipes := prev.recipes) == prev
  {
    FilterMembers(prev.products, (p: Product) => p.id != id);
    FilterMembers(prev.recipes, (r: Recipe) => r.productId != id);
    prev.(products := Filter(prev.products, (p: Product) => p.id != id),
          recipes := Filter(prev.recipes, (r: Recipe) => r.productId != id))
  }

  /** Adding a product and deleting it again restores the state, when the new id was unused. */
  lemma AddThenDeleteProduct(prev: AppState, p: Product, newId: Id)
    requires forall k :: 0 <= k < |prev.products| ==> prev.products[k].id != newId
    requires forall k :: 0 <= k < |prev.recipes| ==> prev.recipes[k].productId != newId
    ensures DeleteProduct(AddProduct(prev, p, newId), newId) == prev
  {
    var f := (x: Product) => x.id != newId;
    FilterConcat(prev.products, [p.(id := newId)], f);
    FilterKeepsAll(prev.products, f);
    FilterSingleton(p.(id := newId), f);
    FilterKeepsAll(prev.recipes, (r: Recipe) => r.productId != newId);
  }

  /** The recipe invariant: no two recipes belong to the same product. */
  predicate AtMostOneRecipe(rs: seq<Recipe>)
  {
    forall i, j :: 0 <= i < j < |rs| ==> rs[i].productId != rs[j].productId
  }

  /** updateRecipe: if the product has a recipe, its lines and yield are replaced and its id kept;
      otherwise exactly one new recipe is appended. Recipes of other products are untouched. */
  function UpdateRecipe(prev: AppState, productId: Id, items: seq<RecipeItem>, recipeYield: real, newId: Id): (next: AppState)
    ensures FindRecipe(prev.recipes, productId).Some? ==>
              && |next.recipes| == |prev.recipes|
              && FindRecipe(next.recipes, productId)
                 == Some(FindRecipe(prev.recipes, productId).value.(items := items, recipeYield := recipeYield))
    ensures FindRecipe(prev.recipes, productId).None? ==>
              next.recipes == prev.recipes + [Recipe(newId, productId, recipeYield, items)]
    ensures forall k :: 0 <= k < |prev.recipes| ==>
              next.recipes[k].id == prev.recipes[k].id && next.recipes[k].productId == prev.recipes[k].productId
    ensures forall k :: 0 <= k < |prev.recipes| && prev.recipes[k].productId != productId ==>
              next.recipes[k] == prev.recipes[k]
    ensures next.(recipes := prev.recipes) == prev
  {
    var rs := prev.recipes;
    match FindRecipe(rs, productId)
    case Some(_) =>
      var next := prev.(recipes := seq(|rs|, k requires 0 <= k < |rs| =>
        if rs[k].productId == productId then rs[k].(items := items, recipeYield := recipeYield) else rs[k]));
      SameFirstRecipe(rs, next.recipes, productId, items, recipeYield);
      next
    case None =>
      prev.(recipes := rs + [Recipe(newId, productId, recipeYield, items)])
  }

  /** Replacing the lines of a product's recipes in place does not change which recipe `find` returns. */
  lemma SameFirstRecipe(rs: seq<Recipe>, rs': seq<Recipe>, productId: Id, items: seq<RecipeItem>, recipeYield: real)
    requires |rs'| == |rs|
    requires forall k :: 0 <= k < |rs| ==>
               rs'[k] == if rs[k].productId == productId then rs[k].(items := items, recipeYield := recipeYield) else rs[k]
    requires FindRecipe(rs, productId).Some?
    ensures FindRecipe(rs', productId) == Some(FindRecipe(rs, productId).value.(items := items, recipeYield := recipeYield))
  {
    var p := (r: Recipe) => r.productId == productId;
    var i := FindIndex(rs, p);
    var i' := FindIndex(rs', p);
    assert i.Some?;
    assert p(rs'[i.value]);
    assert i'.Some?;
  }

  /** The upsert keeps the at-most-one-recipe-per-product invariant. */
  lemma UpdateRecipeKeepsAtMostOne(prev: AppState, productId: Id, items: seq<RecipeItem>, recipeYield: real, newId: Id)
    requires AtMostOneRecipe(prev.recipes)
    ensures AtMostOneRecipe(UpdateRecipe(prev, productId, items, recipeYield, newId).recipes)
  {
    var next := UpdateRecipe(prev, productId, items, recipeYield, newId);
    if FindRecipe(prev.recipes, productId).None? {
      forall i, j | 0 <= i < j < |next.recipes| ensures next.recipes[i].productId != next.recipes[j].productId {
        if j == |prev.recipes| {
          assert next.recipes[i] == prev.recipes[i];
          assert !((r: Recipe) => r.productId == productId)(prev.recipes[i]);
        }
      }
    }
  }
}
