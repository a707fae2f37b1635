# Nastar UMKM inventory and costing engine, in Dafny

This project models the state-transition engine of a small-bakery management app and proves properties of it. The app tracks:

- raw materials (bahan baku) and their stock movements;
- products and their recipes;
- production runs and the material they consume (HPP, cost of goods);
- sales, including pre-orders;
- expenses and app settings.

All of this lives in one `AppState` record held by `app/context/AppContext.tsx`. Every command there is a `setState(prev => next)` reducer:

- A reducer built from one `map`, `filter` or spread is a Dafny `function` from the old state to the new one.
- A reducer that walks a list with `forEach` is a Dafny `method` with a `while` loop, proved equal to a specification function. This covers `addProduction`, `deleteProduction`, `addSale`, `updateSale` and `deleteSale`.
- The properties are lemmas about those specification functions:
  - round trips: add then delete restores the state;
  - conservation of stock plus committed sales;
  - cascade on material deletion;
  - the exact stock effect of every command.

The pages that call the engine are modelled too:

- `app/produksi/page.tsx`: requirements, cost and the "can produce" gate;
- `app/penjualan/page.tsx`: the cart and the sale form;
- `app/bahan-baku/page.tsx`: material forms, filters and history;
- `app/produk/page.tsx`: period totals and profit;
- `app/page.tsx`: the dashboard.

The pages' loops are methods as well, and their aggregates are functions. Each is tied to the engine by lemmas, such as:

- the amount the production form shows is the amount `addProduction` deducts;
- the dashboard's profit is the finance page's profit for the month.

Modules, one per file:

- `Seqs`, `Text`: `find`/`filter`/`reduce`, and ASCII lower-case substring search;
- `Entities`: the record types;
- `Stock`: stock adjustments shared by the reducers;
- `MaterialLedger`, `Catalog`, `Bookkeeping`, `ProductionFlow`, `SalesFlow`: the reducers;
- `ProductionPage`, `SalesPage`, `MaterialsPage`, `FinancePage`, `Dashboard`: the pages;
- `Scenarios`: three worked examples on concrete data.

Numbers:

- Material stock, prices, costs, recipe quantities and yields are `real`.
- Product stock and sale or production quantities are `int`; the forms only produce whole units there.

`generateId()` is a parameter:

- `newId`, or `gen: nat -> Id` for `addProduction`, where `gen(0)` is the production and `gen(k + 1)` the log entry of recipe line `k`.
- Freshness of the id is a precondition of the round-trip lemmas only.

The date-fns calendar tests (`isToday`, `isThisWeek`, `isThisMonth`) are a parameter `Calendar`.

Where the code and the written description of the system disagree, the model follows the code:

- `addProduction` accepts a product without a recipe. The product stock rises and no material moves.
- `addProduction` does not check stock again; only the production form's `canProduce` gate does.
- Completing a pre-order does not check stock.
- No command rejects a non-positive quantity or yield. `yield || 1` only replaces a zero yield.

## Model

| member | source | states |
|---|---|---|
| Entities.CompletedCases | app/context/AppContext.tsx:444 | a sale moves stock exactly when its status is `Selesai` or absent |
| Stock.YieldOrOne | app/context/AppContext.tsx:411 | `yield \|\| 1` is never zero and is the yield itself whenever that is non-zero |
| Stock.AdjustMaterialRoundTrip | app/context/AppContext.tsx:321-327 | moving a material's stock by d and then by -d restores every material |
| Stock.AdjustProductRoundTrip | app/context/AppContext.tsx:401-403 | moving a product's stock by d and then by -d restores every product |
| Stock.ApplyRecipeAt | app/context/AppContext.tsx:412-416 | after the recipe walk, material k has moved by exactly its total demand over all recipe lines, signed |
| Stock.DemandSingle | app/context/AppContext.tsx:411-413 | a material listed once in a recipe is needed `item.quantity * multiplier` |
| Stock.DemandAbsent | app/context/AppContext.tsx:412-416 | a material the recipe does not list is not moved |
| Stock.RecipeRoundTrip | app/context/AppContext.tsx:534-541 | restoring what a recipe consumed, at the same multiplier, gives back every material |
| Stock.ApplyItemsAt | app/context/AppContext.tsx:445-449 | after walking a sale's items, product k has moved by the total quantity of its lines, signed |
| Stock.ItemsRoundTrip | app/context/AppContext.tsx:505-509 | putting back a sale's items after deducting them gives back every product |
| Text.Lower | app/bahan-baku/page.tsx:81 | `toLowerCase` keeps the length and lowers each character |
| Text.EmptyQueryMatches | app/bahan-baku/page.tsx:81 | an empty search matches every name |
| Text.PrefixOfConcat | app/context/AppContext.tsx:547 | a string starts with any prefix it was built from |
| Text.IntText | app/context/AppContext.tsx:545 | a quantity renders as a non-empty decimal numeral |
| ProductionFlow.ProductionNote | app/context/AppContext.tsx:423 | every production log note starts with `Produksi {quantity}x`, even for a missing product (`undefined`) |
| MaterialLedger.AddMaterial | app/context/AppContext.tsx:292-297 | the material is appended under the new id and nothing else changes |
| MaterialLedger.UpdateMaterial | app/context/AppContext.tsx:299-304 | every material carrying the id becomes `{ ...m, ...patch }`: each field the patch names is replaced and the others kept; every other material, the order, the ids and the other lists are kept |
| MaterialLedger.UpdateMaterialIdempotent | app/context/AppContext.tsx:299-304 | applying the same material patch twice equals applying it once |
| MaterialLedger.DeleteMaterial | app/context/AppContext.tsx:306-316 | the material and every transaction naming it are gone and all others are kept; every recipe survives in place with its other fields, and its lines are exactly its old lines that do not name the material |
| MaterialLedger.DeleteMaterialKeepsRefsIntact | app/context/AppContext.tsx:306-316 | if every transaction and recipe line names an existing material before the delete, this still holds after it |
| MaterialLedger.AddThenDeleteMaterial | app/context/AppContext.tsx:292-316 | adding a material under an unused id and deleting it restores the whole state |
| MaterialLedger.AddMaterialTransaction | app/context/AppContext.tsx:318-334 | the transaction is logged under the new id; its material moves by +quantity (`in`) or -quantity (`out`) with no lower bound; nothing else changes |
| MaterialLedger.DeleteMaterialTransaction | app/context/AppContext.tsx:336-356 | an unknown id leaves the state unchanged; otherwise the material of the first transaction with the id moves by the inverse of its effect (-quantity for `in`, +quantity for `out`) and every other material is kept; no transaction with the id remains and every other one is kept; only materials and the log change |
| MaterialLedger.AddThenDeleteTransaction | app/context/AppContext.tsx:318-356 | recording a movement under a fresh id and deleting it restores every stock and the log exactly |
| Catalog.AddProduct | app/context/AppContext.tsx:358-363 | the product is appended under the new id and nothing else changes |
| Catalog.UpdateProduct | app/context/AppContext.tsx:365-370 | every product carrying the id becomes `{ ...p, ...patch }`; every other product, the order, the ids and the other lists are kept |
| Catalog.UpdateThenFindProduct | app/context/AppContext.tsx:365-370 | after the update, looking the product up finds the old product overlaid with the patch; an unknown id stays unknown |
| Catalog.UpdateProductIdempotent | app/context/AppContext.tsx:365-370 | applying the same product patch twice equals applying it once |
| Catalog.DeleteProduct | app/context/AppContext.tsx:372-378 | the product and its recipes are gone and every other product and recipe is kept |
| Catalog.AddThenDeleteProduct | app/context/AppContext.tsx:358-378 | adding a product under an unused id and deleting it restores the state |
| Catalog.UpdateRecipe | app/context/AppContext.tsx:380-394 | an existing recipe for the product gets the new items and yield in place (same id); otherwise one recipe is appended; other recipes are kept |
| Catalog.SameFirstRecipe | app/context/AppContext.tsx:382-387 | after the in-place upsert, looking up the product finds the same recipe, carrying the new items and yield |
| Catalog.UpdateRecipeKeepsAtMostOne | app/context/AppContext.tsx:380-394 | the upsert keeps at most one recipe per product |
| Bookkeeping.AddExpense | app/context/AppContext.tsx:560-565 | the expense is appended under the new id and nothing else changes |
| Bookkeeping.UpdateExpense | app/context/AppContext.tsx:567-572 | every expense carrying the id becomes `{ ...e, ...patch }`; every other expense, the order, the ids and the other lists are kept |
| Bookkeeping.UpdateExpenseIdempotent | app/context/AppContext.tsx:567-572 | applying the same expense patch twice equals applying it once |
| Bookkeeping.DeleteExpense | app/context/AppContext.tsx:574-579 | no expense with the id remains and all others are kept |
| Bookkeeping.AddThenDeleteExpense | app/context/AppContext.tsx:560-579 | adding an expense under an unused id and deleting it restores the state |
| Bookkeeping.UpdateSettings | app/context/AppContext.tsx:285-290 | each settings field present in the patch (even as `undefined`) replaces the old one; absent fields and every other list are kept |
| ProductionFlow.ConsumeRecipe | app/context/AppContext.tsx:410-426 | the forEach loop leaves the materials debited by the recipe and logs one `out` entry per recipe line, in order |
| ProductionFlow.AddProduction | app/context/AppContext.tsx:396-436 | the reducer's result is the specified production state |
| ProductionFlow.ProductionAddedEffect | app/context/AppContext.tsx:396-436 | the production is appended; its product gains `quantity`; each material loses its demand under the current recipe (nothing without a recipe); the old log is a prefix and one `out` entry per recipe line follows, each dated with the production and carrying the `Produksi {q}x` note; nothing else changes |
| ProductionFlow.ProductionDeleted | app/context/AppContext.tsx:522-523 | an unknown production id leaves the state unchanged |
| ProductionFlow.RestoreRecipe | app/context/AppContext.tsx:534-541 | the reverting loop credits every material with the recipe's demand |
| ProductionFlow.DeleteProduction | app/context/AppContext.tsx:520-558 | the reducer's result is the specified deletion state |
| ProductionFlow.ProductionDeletedEffect | app/context/AppContext.tsx:520-558 | the product loses `quantity`; each material regains its demand under the current recipe; no log entry with the same date and `Produksi {q}x` prefix remains, and every other entry is kept; no production with the id remains and every other production is kept; sales, recipes, expenses and settings are unchanged |
| ProductionFlow.RemoveRunLog | app/context/AppContext.tsx:545-548 | the date and note-prefix filter removes exactly the entries one run logged, when no earlier entry matches them |
| ProductionFlow.AddThenDeleteProduction | app/context/AppContext.tsx:396-558 | with a fresh id, an unchanged recipe and no earlier matching log entry, recording a production and deleting it restores the whole state |
| SalesFlow.SaleUpdated | app/context/AppContext.tsx:462-463 | updating an unknown sale leaves the state unchanged |
| SalesFlow.SaleDeleted | app/context/AppContext.tsx:498-499 | deleting an unknown sale leaves the state unchanged |
| SalesFlow.MoveItems | app/context/AppContext.tsx:445-449 | the forEach over the items moves each product by its signed total in the items |
| SalesFlow.AddSale | app/context/AppContext.tsx:438-458 | the reducer's result is the specified state after the sale |
| SalesFlow.UpdateSale | app/context/AppContext.tsx:460-494 | the reducer's result is the specified updated state |
| SalesFlow.DeleteSale | app/context/AppContext.tsx:496-518 | the reducer's result is the specified state after deletion |
| SalesFlow.SaleAddedEffect | app/context/AppContext.tsx:438-458 | the sale is appended; a completed sale takes each product down by its quantity in the sale; a pre-order changes no stock |
| SalesFlow.SaleUpdatedEffect | app/context/AppContext.tsx:460-494 | each product gets back the old sale's quantity (if it was completed) and loses the new items' quantity (if the resulting status is completed); only that sale is merged with the patch |
| SalesFlow.SaleDeletedEffect | app/context/AppContext.tsx:496-518 | a completed sale's items go back to stock and a pre-order's do not; no sale with the id remains and every other sale is kept; only sales and products change |
| SalesFlow.CompletePreOrder | app/context/AppContext.tsx:460-494 | completing a pre-order takes its items out of stock once; completing it again changes no stock |
| SalesFlow.EditDetailsKeepsStock | app/context/AppContext.tsx:477-486 | an edit that touches neither status nor items leaves every product stock unchanged |
| SalesFlow.FindMerged | app/context/AppContext.tsx:490 | after the merge, looking the sale up finds the old sale overlaid with the patch |
| SalesFlow.AddThenDeleteSale | app/context/AppContext.tsx:438-518 | recording a sale under a fresh id and deleting it restores every stock and the sales list |
| SalesFlow.CommittedConcat | app/context/AppContext.tsx:444-449 | the quantity of a product committed by completed sales adds up over concatenated lists |
| SalesFlow.CommittedRemove | app/context/AppContext.tsx:514 | with unique ids, removing a sale lowers each product's committed quantity by exactly that sale's share |
| SalesFlow.CommittedMerge | app/context/AppContext.tsx:490 | with unique ids, merging a patch into one sale changes committed quantities by that sale's new share minus its old one |
| SalesFlow.AddSaleConserves | app/context/AppContext.tsx:438-458 | every product's stock plus the quantity committed by completed sales is unchanged by addSale |
| SalesFlow.DeleteSaleConserves | app/context/AppContext.tsx:496-518 | the same total is unchanged by deleteSale when sale ids are unique |
| SalesFlow.UpdateSaleConserves | app/context/AppContext.tsx:460-494 | the same total is unchanged by updateSale when ids are unique and the patch does not carry an explicit `status: undefined` |
| SalesFlow.UndefinedStatusDesync | app/context/AppContext.tsx:477-490 | an explicit `status: undefined` on a pre-order keeps stock but stores a completed-looking sale: the total grows by the sale's quantity |
| ProductionPage.PlanProduction | app/produksi/page.tsx:20-49 | with no recipe for the product nothing is checked; otherwise the requirements loop yields the specified total cost, `canProduce` and requirement list |
| ProductionPage.WalkRecipe | app/produksi/page.tsx:30-48 | the `forEach` over the recipe lines yields the total cost, `canProduce` and requirement list of the line-by-line specification |
| ProductionPage.CanProduceIff | app/produksi/page.tsx:31-39 | `canProduce` holds exactly when every recipe line whose material exists finds stock at least `item.quantity * quantity / (yield \|\| 1)` |
| ProductionPage.PlanTotals | app/produksi/page.tsx:31-47 | the total cost is the sum of requirement times price over lines whose material exists (missing ones count 0), and equals the sum of listed costs; an entry is enough iff stock covers it; `canProduce` iff every entry is enough |
| ProductionPage.PlanCostIsLineSum | app/produksi/page.tsx:30-35 | the total cost is the sum over recipe lines of requirement times price, a line whose material is missing counting zero |
| ProductionPage.PlanCostIsListedSum | app/produksi/page.tsx:34-47 | the total cost equals the sum of the costs listed in `materialsNeeded`, which has at most one entry per recipe line |
| ProductionPage.PlanFlags | app/produksi/page.tsx:37-38 | each listed entry is enough exactly when the material's stock covers the amount needed; `canProduce` holds exactly when every listed entry is enough |
| ProductionPage.NoRecipeStillCanProduce | app/produksi/page.tsx:262 | without a recipe nothing is checked and `canProduce` stays true, yet submission stays disabled |
| ProductionPage.HandleAddProduction | app/produksi/page.tsx:53-67 | a production is submitted iff a product is selected and `canProduce` holds; it carries the plan's total cost and `costPerUnit * quantity == totalCost` |
| ProductionPage.FindUniqueMaterial | app/produksi/page.tsx:30 | with unique ids, the lookup of a material's id finds that material |
| ProductionPage.ShownIsDeducted | app/produksi/page.tsx:30-34 | the amount the form shows for a recipe line is the amount addProduction deducts from that material |
| ProductionPage.GateKeepsStockNonNegative | app/produksi/page.tsx:37-39 | a production the form accepts leaves no material with non-negative stock below zero |
| SalesPage.CartTotal | app/penjualan/page.tsx:118 | a cart with no negative price or quantity totals at least zero |
| SalesPage.AddToCart | app/penjualan/page.tsx:81-98 | the cart after addToCart is the one `CartAddedCases` and `CartAddedEffect` describe |
| SalesPage.CartAddedEffect | app/penjualan/page.tsx:81-98 | an unknown product leaves the cart unchanged; any change is one unit more of the product in one line, raising the total by that line's price; under Pre-Order a listed product is always added |
| SalesPage.CartAddedCases | app/penjualan/page.tsx:85-96 | if a line for the product at that price name exists, only that line gains one unit, and the `Selesai` guard refuses exactly when it already holds the whole stock; otherwise one line of one unit priced `price ?? product.price` is appended, and the `Selesai` guard refuses exactly when the stock is 0 or less |
| SalesPage.IncrementLine | app/penjualan/page.tsx:89-91 | one more unit on a line raises the cart total by its price and the product's quantity by one |
| SalesPage.AppendLine | app/penjualan/page.tsx:94 | a new line of one unit raises the total by its price and the product's quantity by one |
| SalesPage.CartTotalUpdate | app/penjualan/page.tsx:118 | setting a line's quantity changes the cart total by price times the difference |
| SalesPage.CartTotalAppend | app/penjualan/page.tsx:118 | appending a line adds its value to the cart total |
| SalesPage.ItemsQtyUpdate | app/penjualan/page.tsx:100-110 | setting a line's quantity changes its product's cart quantity by the difference |
| SalesPage.ItemsQtyAppend | app/penjualan/page.tsx:94 | appending a line adds its quantity to its product's cart quantity |
| SalesPage.CartAddedKeepsLinesWithinStock | app/penjualan/page.tsx:87-94 | under `Selesai`, addToCart keeps every line's quantity within its product's stock |
| SalesPage.PerLineGuardOversells | app/penjualan/page.tsx:86-94 | a cart of 'Normal' and 'Grosir' lines of a product with one unit passes the per-line guard but holds two units |
| SalesPage.CartAddedPerProductNoOversell | app/penjualan/page.tsx:86-94 | with the guard counting the product's units over the whole cart, a cart that does not oversell never starts to |
| SalesPage.PerProductAddsOne | app/penjualan/page.tsx:86-94 | when the whole-cart guard lets one more unit in, the cart that results does not oversell |
| SalesPage.IncrementNoOversell | app/penjualan/page.tsx:89-91 | one more unit on a line below stock keeps the cart within stock |
| SalesPage.AppendNoOversell | app/penjualan/page.tsx:94 | a new one-unit line of a product below stock keeps the cart within stock |
| SalesPage.UpdateCartQuantity | app/penjualan/page.tsx:100-110 | the cart after updateCartQuantity is the one `CartQuantitySetEffect` describes |
| SalesPage.CartQuantitySetEffect | app/penjualan/page.tsx:100-110 | an index outside the cart, a missing product, a quantity below 1, or under `Selesai` a quantity above the stock changes nothing; otherwise the line takes the new quantity; the other lines are always kept, the total moves by price times the difference, and under `Selesai` lines stay within stock |
| SalesPage.RemoveFromCart | app/penjualan/page.tsx:112-116 | `splice(index, 1)` drops exactly the line at the normalised start (negative indices count from the end), shifts the rest and lowers the total by its value; an out-of-range start keeps the cart |
| SalesPage.HandleAddSale | app/penjualan/page.tsx:30-63 | an empty cart sends nothing; otherwise the sale carries the cart, its total, the form's customer or 'Pelanggan Umum' when it is empty, the form's status, payment method and source, and the form's delivery date for Pre-Order (explicitly none otherwise); it is added stamped now, or sent as an update of the sale being edited that keeps the old date |
| SalesPage.FormUpdateConserves | app/penjualan/page.tsx:36-45 | an edit sent by the sale form keeps every product's stock plus committed quantity |
| MaterialsPage.HandleAddMaterial | app/bahan-baku/page.tsx:36-46 | with a material being edited all five form fields overwrite it; otherwise the form is appended as a new material |
| MaterialsPage.HandleAddTransaction | app/bahan-baku/page.tsx:66-78 | without a selected material nothing changes; otherwise one movement stamped now is logged and moves that material's stock by ±quantity |
| MaterialsPage.FilteredMaterials | app/bahan-baku/page.tsx:80-84 | exactly the materials whose name contains the search (case-insensitively) and that pass the stock filter are listed |
| MaterialsPage.StockFiltersPartition | app/bahan-baku/page.tsx:82 | 'aman' and 'menipis' split the searched list; 'all' with an empty search lists every material |
| MaterialsPage.FilterNested | app/bahan-baku/page.tsx:80-84 | filtering by search and then by stock is filtering by both |
| MaterialsPage.Badge | app/bahan-baku/page.tsx:171 | the `Menipis` badge shows exactly for materials the 'menipis' filter keeps, and never for 'aman' ones |
| MaterialsPage.MaterialLabel | app/bahan-baku/page.tsx:88 | a transaction whose material is gone is labelled 'Bahan Dihapus'; a label is never empty |
| MaterialsPage.FilteredTransactions | app/bahan-baku/page.tsx:86-92 | exactly the transactions whose label or non-empty note contains the search and whose type passes the filter are listed |
| MaterialsPage.TransactionFilters | app/bahan-baku/page.tsx:90 | the 'in' and 'out' filters keep only that type; 'all' with an empty search shows the whole history |
| FinancePage.PeriodSales | app/produk/page.tsx:60 | exactly the sales dated in the period are kept |
| FinancePage.PeriodProductions | app/produk/page.tsx:61 | exactly the productions dated in the period are kept |
| FinancePage.PeriodExpenses | app/produk/page.tsx:62 | exactly the expenses dated in the period are kept |
| FinancePage.TotalRevenue | app/produk/page.tsx:65 | with no negative sale, the period's revenue lies between zero and the revenue of all time |
| FinancePage.TotalMaterialCost | app/produk/page.tsx:66 | with no negative cost, the period's material cost lies between zero and all productions' cost |
| FinancePage.TotalOtherExpenses | app/produk/page.tsx:67 | with no negative amount, the period's other expenses lie between zero and all expenses |
| FinancePage.TotalExpense | app/produk/page.tsx:69 | with no negative cost, the total expense is at least each of its two parts and at most all costs ever recorded |
| FinancePage.NetProfit | app/produk/page.tsx:70 | with no negative cost, net profit never exceeds the period's revenue; with no negative sale either, it lies between minus all recorded costs and all revenue |
| FinancePage.AllPeriodCountsEverything | app/produk/page.tsx:52-67 | with 'all', revenue, material cost and other expenses sum every record |
| FinancePage.SumFilteredAppend | app/produk/page.tsx:60-67 | appending a record adds its amount to a period total iff it is in the period |
| FinancePage.SaleCountsAsRevenue | app/produk/page.tsx:60-70 | a recorded sale, pre-order or not, adds its whole price to its period's revenue and net profit and no expense |
| FinancePage.ProductionCountsAsExpense | app/produk/page.tsx:61-70 | a recorded production adds its total cost to its period's expenses, lowers net profit by it and adds no revenue |
| FinancePage.ExpenseCountsAsExpense | app/produk/page.tsx:62-69 | a recorded expense adds its amount to its period's expenses and no revenue |
| FinancePage.SearchedExpenses | app/produk/page.tsx:86-89 | exactly the period's expenses whose category or non-empty note contains the search are listed |
| FinancePage.EmptySearchShowsPeriod | app/produk/page.tsx:86-89 | an empty search lists every expense of the period |
| FinancePage.HandleAddExpense | app/produk/page.tsx:24-37 | editing overwrites category, amount and note and keeps the date; otherwise a new expense stamped now is appended |
| Dashboard.LowStock | app/page.tsx:12 | exactly the materials with `stock <= minStock` are listed |
| Dashboard.LowStockIsMenipis | app/page.tsx:12 | the dashboard's low-stock list is the material page's 'menipis' list, and each entry carries the badge |
| Dashboard.TotalProducts | app/page.tsx:13 | with no negative stock, `totalProducts` is at least zero and at least each product's stock |
| Dashboard.TodayRevenue | app/page.tsx:15-16 | with no negative sale, today's revenue lies between zero and all revenue |
| Dashboard.MonthRevenue | app/page.tsx:18-19 | with no negative sale, this month's revenue lies between zero and all revenue |
| Dashboard.MonthExpenses | app/page.tsx:21-22 | with no negative amount, this month's expenses lie between zero and all expenses |
| Dashboard.MonthProductionCost | app/page.tsx:24-25 | with no negative cost, this month's production cost lies between zero and all productions' cost |
| Dashboard.EstimatedProfit | app/page.tsx:27 | with no negative cost, the estimated profit never exceeds this month's revenue; with no negative sale either, it is at least minus all recorded costs |
| Dashboard.AdjustProductTotal | app/page.tsx:13 | moving a product's stock by d moves `totalProducts` by d per product carrying that id |
| Dashboard.ProductionRaisesTotalProducts | app/page.tsx:13 | a production of a product listed once raises `totalProducts` by its quantity |
| Dashboard.DashboardAgreesWithFinance | app/page.tsx:15-27 | today's revenue is the finance page's 'today' revenue; the estimated profit is its 'month' net profit |
| Dashboard.RecentSales | app/page.tsx:128 | at most five sales are shown, the newest first: entry k is the k-th sale from the end |
| Scenarios.StockMovementScenario | app/context/AppContext.tsx:318-356 | Tepung at 5000: `in` 2000 gives 7000, `out` 500 gives 6500, deleting the `out` gives 7000 |
| Scenarios.ProductionScenario | app/produksi/page.tsx:24-67 | two Nastar at yield 1 need 500 Tepung costing 6000, submitted at 3000 per unit; recording takes Tepung to 4500 and Nastar to 12 |
| Scenarios.PreOrderScenario | app/context/AppContext.tsx:438-494 | a pre-order of 3 leaves stock at 10; completing it gives 7; completing it again leaves 7 |

## Left out

- Persistence and authentication are not part of this model: the localStorage and Firestore loading and sync, login and logout. Each command is modelled as the pure reducer it hands to `setState`.
- `generateId()` is random. It is a parameter, and its freshness is a precondition of the round-trip lemmas only.
- JavaScript numbers are IEEE doubles. The model uses exact `real` and `int`, so rounding, `NaN` and `Infinity` are not modelled. In particular, `parseInt` of an empty quantity field in `updateCartQuantity` gives `NaN`. Both `NaN < 1` and `NaN > product.stock` are false, so the page stores `quantity: NaN` in the cart line. The model's quantity is always an integer and does not capture that line.
- `toLowerCase` is modelled on ASCII letters only; Unicode case mapping is not modelled.
- The date-fns tests `isToday`, `isThisWeek` (weeks start on Monday) and `isThisMonth` read the clock, so they are the parameter `Calendar`. The finance page parses dates with `parseISO` and the dashboard with `new Date`. Both are read through the same calendar, as they agree on the ISO strings the app stores.
- Currency and date formatting, charts, modals, navigation and the settings page are presentation only and are not modelled.
- A `disabled` attribute or `required`/`min` on an input is browser-side validation. The production quantity's `min="1"` is the precondition `quantity >= 1` of `ProductionPage.HandleAddProduction`.
- `openEditModal` on the sales and finance pages only copies a record into form state, so it is not modelled.
- `SalesFlow.SalePatch` cannot express an explicit `items: undefined`. The sale form never sends one.
- SalesFlow.UpdateSaleConserves: excludes a patch with an explicit `status: undefined`. The reducer then deducts using the old status but stores the status as undefined, and `SalesFlow.UndefinedStatusDesync` shows the resulting mismatch. The sale form always sends a status.
- SalesFlow.DeleteSaleConserves: assumes unique sale ids. With duplicates, `filter` removes every copy while only the first copy's items are restored.
- ProductionFlow.AddThenDeleteProduction: assumes the recipe is unchanged and that no earlier log entry has the same date and `Produksi {q}x` prefix. `deleteProduction` reverts with the current recipe and matches log entries by date and note text, so otherwise the round trip is not exact.
- ProductionPage.GateKeepsStockNonNegative: assumes unique material ids and a recipe that lists each material once. With repeated lines the form checks each line alone, while `addProduction` deducts them all.
- Dashboard.ProductionRaisesTotalProducts: assumes the product id occurs exactly once. `Dashboard.AdjustProductTotal` gives the general count.

## Findings

| source | as written | input that shows it | evidently intended | confidence | as-written member | corrected member |
|---|---|---|---|---|---|---|
| app/penjualan/page.tsx:86-94 | under `Selesai`, `addToCart` compares only the one cart line's quantity (or, for a new line, nothing but `stock <= 0`) with the product's stock | a product with stock 1: add it at 'Normal', then at 'Grosir'. Each line holds 1, so each check passes, and the cart holds 2 units of a product with 1 in stock | compare the product's units over the whole cart with its stock, so a `Selesai` sale never oversells | not executed | SalesPage.PerLineGuardOversells | SalesPage.CartAddedPerProductNoOversell |
