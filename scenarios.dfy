/** Three worked examples of the engine on concrete data: a manual stock movement and its
    deletion, a production run of a one-line recipe, and a pre-order that is later completed. */
module Scenarios {
  import opened Seqs
  import opened Entities
  import opened Stock
  import opened MaterialLedger
  import opened ProductionFlow
  import opened ProductionPage
  import opened SalesFlow

  const Tepung := Material("m1", "Tepung", "gram", 12.0, 5000.0, 1000.0)
  const Nastar := Product("p1", "Nastar", 85000.0, None, 10, None)
  const NastarRecipe := Recipe("r1", "p1", 1.0, [RecipeItem("m1", 250.0)])
  const Settings := AppSettings("Nastar", None, None)

  function Shop(): AppState
  {
    AppState([Tepung], [], [Nastar], [NastarRecipe], [], [], [], Settings)
  }

  /** Tepung at 5000: `in` 2000 gives 7000, `out` 500 gives 6500, deleting the `out` gives 7000. */
  lemma StockMovementScenario()
    ensures var s1 := AddMaterialTransaction(Shop(), MaterialTransaction("", "m1", In, 2000.0, "d1", ""), "t1");
      var s2 := AddMaterialTransaction(s1, MaterialTransaction("", "m1", Out, 500.0, "d2", "test"), "t2");
      var s3 := DeleteMaterialTransaction(s2, "t2");
      && s1.materials[0].stock == 7000.0
      && s2.materials[0].stock == 6500.0
      && s3.materials[0].stock == 7000.0
      && s3.materialTransactions == s1.materialTransactions
  {
    var s1 := AddMaterialTransaction(Shop(), MaterialTransaction("", "m1", In, 2000.0, "d1", ""), "t1");
    assert s1.materialTransactions[0].id == "t1";
    AddThenDeleteTransaction(s1, MaterialTransaction("", "m1", Out, 500.0, "d2", "test"), "t2");
  }

  /** Two Nastar with a yield of 1 and 250 Tepung a piece need 500 Tepung costing 6000; the
      form submits that cost at 3000 per unit, and recording it takes 500 from Tepung and adds 2
      to Nastar. */
  lemma ProductionScenario(gen: nat -> Id)
    ensures PlanFor(Shop(), "p1", 2).materialsNeeded == [Requirement("Tepung", 500.0, "gram", 5000.0, true, 6000.0)]
    ensures PlanFor(Shop(), "p1", 2).totalCost == 6000.0
    ensures HandleAddProduction(Shop(), "p1", 2, "d1") == Some(Production("", "p1", 2, "d1", 6000.0, 3000.0))
    ensures var next := ProductionAdded(Shop(), Production("", "p1", 2, "d1", 6000.0, 3000.0), gen);
      next.materials[0].stock == 4500.0 && next.products[0].stock == 12
  {
    var s := Shop();
    assert FindRecipe(s.recipes, "p1") == Some(NastarRecipe) by {
      FindAppended([], NastarRecipe, (r: Recipe) => r.productId == "p1");
      assert [] + [NastarRecipe] == s.recipes;
    }
    assert FindMaterial(s.materials, "m1") == Some(Tepung) by {
      FindAppended([], Tepung, (m: Material) => m.id == "m1");
      assert [] + [Tepung] == s.materials;
    }
    var items := NastarRecipe.items;
    assert items[..0] == [];
    assert PlanLines(s.materials, items, 2.0) == Plan(6000.0, true, [Requirement("Tepung", 500.0, "gram", 5000.0, true, 6000.0)]);
    var p := Production("", "p1", 2, "d1", 6000.0, 3000.0);
    ProductionAddedEffect(s, p, gen);
    DemandSingle(items, 0, 2.0);
  }

  /** A pre-order of three Nastar leaves the stock at 10; completing it takes it to 7, and
      completing it again leaves it at 7. */
  lemma PreOrderScenario()
    ensures var sale := Sale("", "Bu Ani", "d1", [SaleItem("p1", 3, 85000.0, None)], 255000.0, "Tunai",
                             Some(PreOrder), None, None);
      var complete := SalePatch(None, None, None, None, None, Some(Some(Selesai)), None, None);
      var s1 := SaleAdded(Shop(), sale, "s1");
      var s2 := SaleUpdated(s1, "s1", complete);
      && s1.products[0].stock == 10
      && s2.products[0].stock == 7
      && SaleUpdated(s2, "s1", complete).products[0].stock == 7
  {
    var sale := Sale("", "Bu Ani", "d1", [SaleItem("p1", 3, 85000.0, None)], 255000.0, "Tunai",
                     Some(PreOrder), None, None);
    var complete := SalePatch(None, None, None, None, None, Some(Some(Selesai)), None, None);
    var s1 := SaleAdded(Shop(), sale, "s1");
    SaleAddedEffect(Shop(), sale, "s1");
    assert FindSale(s1.sales, "s1") == Some(sale.(id := "s1")) by {
      FindAppended([], sale.(id := "s1"), (x: Sale) => x.id == "s1");
      assert [] + [sale.(id := "s1")] == s1.sales;
    }
    CompletePreOrder(s1, "s1", complete);
    assert ItemsQty(sale.items, "p1") == 3;
  }
}
