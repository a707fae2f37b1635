/** The records held by the application state (app/context/AppContext.tsx, types and `AppState`),
    and the look-ups the reducers and pages perform on them. */
module Entities {
  import opened Seqs

  /** Identifiers are opaque strings produced by `generateId`. */
  type Id = string

  datatype TxType = In | Out

  datatype Material = Material(
    id: Id, name: string, unit: string, pricePerUnit: real, stock: real, minStock: real)

  datatype MaterialTransaction = MaterialTransaction(
    id: Id, materialId: Id, txType: TxType, quantity: real, date: string, note: string)

  datatype ProductPrice = ProductPrice(name: string, price: real)

  /** Finished goods are counted in whole units. */
  datatype Product = Product(
    id: Id, name: string, price: real, wholesalePrices: Option<seq<ProductPrice>>,
    stock: int, imageUrl: Option<string>)

  datatype RecipeItem = RecipeItem(materialId: Id, quantity: real)

  datatype Recipe = Recipe(id: Id, productId: Id, recipeYield: real, items: seq<RecipeItem>)

  /** A production run; `totalCost` and `costPerUnit` are the figures shown when it was recorded. */
  datatype Production = Production(
    id: Id, productId: Id, quantity: int, date: string, totalCost: real, costPerUnit: real)

  datatype SaleItem = SaleItem(productId: Id, quantity: int, price: real, priceName: Option<string>)

  datatype SaleStatus = Selesai | PreOrder

  datatype Sale = Sale(
    id: Id, customerName: string, date: string, items: seq<SaleItem>, totalPrice: real,
    paymentMethod: string, status: Option<SaleStatus>, source: Option<string>,
    deliveryDate: Option<string>)

  datatype Expense = Expense(id: Id, date: string, category: string, amount: real, note: string)

  datatype AppSettings = AppSettings(appName: string, appTagline: Option<string>, appIconUrl: Option<string>)

  datatype AppState = AppState(
    materials: seq<Material>,
    materialTransactions: seq<MaterialTransaction>,
    products: seq<Product>,
    recipes: seq<Recipe>,
    productions: seq<Production>,
    sales: seq<Sale>,
    expenses: seq<Expense>,
    appSettings: AppSettings)

  /** `status === 'Selesai' || !status`: the sale's items are taken out of product stock. */
  predicate IsCompleted(status: Option<SaleStatus>)
  {
    status != Some(PreOrder)
  }

  /** The two spellings of the test agree: completed means `Selesai` or no status at all. */
  lemma CompletedCases(status: Option<SaleStatus>)
    ensures IsCompleted(status) <==> status == Some(Selesai) || status.None?
  {
    match status
    case None =>
    case Some(st) => assert st == Selesai || st == PreOrder;
  }

  function FindMaterial(ms: seq<Material>, id: Id): Option<Material>
  {
    Find(ms, (m: Material) => m.id == id)
  }

  function FindProduct(ps: seq<Product>, id: Id): Option<Product>
  {
    Find(ps, (p: Product) => p.id == id)
  }

  /** The recipe of a product: `recipes.find(r => r.productId === productId)`. */
  function FindRecipe(rs: seq<Recipe>, productId: Id): Option<Recipe>
  {
    Find(rs, (r: Recipe) => r.productId == productId)
  }

  function FindTransaction(ts: seq<MaterialTransaction>, id: Id): Option<MaterialTransaction>
  {
    Find(ts, (t: MaterialTransaction) => t.id == id)
  }

  function FindProduction(ps: seq<Production>, id: Id): Option<Production>
  {
    Find(ps, (p: Production) => p.id == id)
  }

  function FindSale(ss: seq<Sale>, id: Id): Option<Sale>
  {
    Find(ss, (s: Sale) => s.id == id)
  }

  /** No two sales share an id (what a fresh `generateId` gives). */
  predicate UniqueSaleIds(ss: seq<Sale>)
  {
    forall i, j :: 0 <= i < j < |ss| ==> ss[i].id != ss[j].id
  }
}
