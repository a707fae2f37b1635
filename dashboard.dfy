/** The dashboard app/page.tsx: the low-stock list, the number of products in stock, today's
    and this month's revenue, the estimated monthly profit, and the five most recent sales. */
module Dashboard {
  import opened Seqs
  import opened Text
  import opened Entities
  import opened Stock
  import opened MaterialsPage
  import opened ProductionFlow
  import opened FinancePage

  /** `lowStockMaterials` */
  function LowStock(ms: seq<Material>): (r: seq<Material>)
    ensures forall k :: 0 <= k < |r| ==> r[k] in ms && r[k].stock <= r[k].minStock
    ensures forall k :: 0 <= k < |ms| && ms[k].stock <= ms[k].minStock ==> ms[k] in r
  {
    FilterMembers(ms, (m: Material) => m.stock <= m.minStock);
    Filter(ms, (m: Material) => m.stock <= m.minStock)
  }

  /** The dashboard's low-stock list is the material page's 'menipis' list with an empty search,
      and each of its entries carries the 'Menipis' badge. */
  lemma LowStockIsMenipis(ms: seq<Material>)
    ensures LowStock(ms) == FilteredMaterials(ms, "", "menipis")
    ensures forall k :: 0 <= k < |LowStock(ms)| ==> Badge(LowStock(ms)[k])
  {
    forall k | 0 <= k < |ms| ensures Matches(ms[k].name, "") {
      EmptyQueryMatches(ms[k].name);
    }
    FilterSameOn(ms, (m: Material) => m.stock <= m.minStock,
                 (m: Material) => Matches(m.name, "") && StockMatches(m, "menipis"));
  }

  function ProductStock(p: Product): int
  {
    p.stock
  }

  /** `totalProducts`: the stock of every product added up. With no negative stock the total is
      not negative and covers every single product's stock. */
  function TotalProducts(ps: seq<Product>): (r: int)
    ensures (forall k :: 0 <= k < |ps| ==> ps[k].stock >= 0) ==>
              r >= 0 && forall k :: 0 <= k < |ps| ==> ps[k].stock <= r
  {
    SumIntBounds(ps, ProductStock);
    SumInt(ps, ProductStock)
  }

  /** How many products carry `id`. */
  function Occurrences(ps: seq<Product>, id: Id): nat
  {
    if ps == [] then 0 else (if ps[0].id == id then 1 else 0) + Occurrences(ps[1..], id)
  }

  /** The induction behind `AdjustProductTotal`, on the bare sum. */
  lemma {:induction false} AdjustProductSum(ps: seq<Product>, id: Id, delta: int)
    ensures SumInt(AdjustProduct(ps, id, delta), ProductStock) == SumInt(ps, ProductStock) + delta * Occurrences(ps, id)
  {
    if ps != [] {
      assert AdjustProduct(ps, id, delta)[1..] == AdjustProduct(ps[1..], id, delta);
      AdjustProductSum(ps[1..], id, delta);
    }
  }

  /** Moving the stock of `id` by `delta` moves the total by `delta` per product carrying `id`. */
  lemma {:induction false} AdjustProductTotal(ps: seq<Product>, id: Id, delta: int)
    ensures TotalProducts(AdjustProduct(ps, id, delta)) == TotalProducts(ps) + delta * Occurrences(ps, id)
  {
    AdjustProductSum(ps, id, delta);
  }

  /** A production of a listed product (ids unique) raises the stock total by its quantity. */
  lemma ProductionRaisesTotalProducts(s: AppState, p: Production, gen: nat -> Id)
    requires Occurrences(s.products, p.productId) == 1
    ensures TotalProducts(ProductionAdded(s, p, gen).products) == TotalProducts(s.products) + p.quantity
  {
    ProductionAddedEffect(s, p, gen);
    var next := ProductionAdded(s, p, gen);
    assert next.products == AdjustProduct(s.products, p.productId, p.quantity);
    AdjustProductTotal(s.products, p.productId, p.quantity);
  }

  /** `todayRevenue`: between zero and the revenue of all time when no sale is negative. */
  function TodayRevenue(s: AppState, cal: Calendar): (r: real)
    ensures SalesNonNegative(s) ==> 0.0 <= r <= Sum(s.sales, (x: Sale) => x.totalPrice)
  {
    SumFilterBounds(s.sales, (x: Sale) => cal(Today, x.date), (x: Sale) => x.totalPrice);
    Sum(Filter(s.sales, (x: Sale) => cal(Today, x.date)), (x: Sale) => x.totalPrice)
  }

  /** `thisMonthRevenue` */
  function MonthRevenue(s: AppState, cal: Calendar): (r: real)
    ensures SalesNonNegative(s) ==> 0.0 <= r <= Sum(s.sales, (x: Sale) => x.totalPrice)
  {
    SumFilterBounds(s.sales, (x: Sale) => cal(Month, x.date), (x: Sale) => x.totalPrice);
    Sum(Filter(s.sales, (x: Sale) => cal(Month, x.date)), (x: Sale) => x.totalPrice)
  }

  /** `thisMonthExpenseTotal` */
  function MonthExpenses(s: AppState, cal: Calendar): (r: real)
    ensures CostsNonNegative(s) ==> 0.0 <= r <= Sum(s.expenses, (x: Expense) => x.amount)
  {
    SumFilterBounds(s.expenses, (x: Expense) => cal(Month, x.date), (x: Expense) => x.amount);
    Sum(Filter(s.expenses, (x: Expense) => cal(Month, x.date)), (x: Expense) => x.amount)
  }

  /** `thisMonthProductionCost` */
  function MonthProductionCost(s: AppState, cal: Calendar): (r: real)
    ensures CostsNonNegative(s) ==> 0.0 <= r <= Sum(s.productions, (x: Production) => x.totalCost)
  {
    SumFilterBounds(s.productions, (x: Production) => cal(Month, x.date), (x: Production) => x.totalCost);
    Sum(Filter(s.productions, (x: Production) => cal(Month, x.date)), (x: Production) => x.totalCost)
  }

  /** `estimatedProfit`: this month's revenue less its expenses and production cost; never above
      the month's revenue, never below minus all the costs ever recorded. */
  function EstimatedProfit(s: AppState, cal: Calendar): (r: real)
    ensures CostsNonNegative(s) ==> r <= MonthRevenue(s, cal)
    ensures SalesNonNegative(s) && CostsNonNegative(s) ==> -AllTimeCosts(s) <= r
  {
    MonthRevenue(s, cal) - MonthExpenses(s, cal) - MonthProductionCost(s, cal)
  }

  /** The dashboard agrees with the finance page: today's revenue is the finance page's revenue
      for 'today', and the estimated profit is its net profit for 'month'. */
  lemma DashboardAgreesWithFinance(s: AppState, cal: Calendar)
    ensures TodayRevenue(s, cal) == TotalRevenue(s, cal, Today)
    ensures EstimatedProfit(s, cal) == NetProfit(s, cal, Month)
  {
    FilterSameOn(s.sales, (x: Sale) => cal(Today, x.date), (x: Sale) => InPeriod(cal, Today, x.date));
    FilterSameOn(s.sales, (x: Sale) => cal(Month, x.date), (x: Sale) => InPeriod(cal, Month, x.date));
    FilterSameOn(s.expenses, (x: Expense) => cal(Month, x.date), (x: Expense) => InPeriod(cal, Month, x.date));
    FilterSameOn(s.productions, (x: Production) => cal(Month, x.date), (x: Production) => InPeriod(cal, Month, x.date));
  }

  /** `sales.slice(-5).reverse()`: the last five sales (all of them when there are fewer),
      newest first. */
  function RecentSales(ss: seq<Sale>): (r: seq<Sale>)
    ensures |r| == if |ss| < 5 then |ss| else 5
    ensures forall k :: 0 <= k < |r| ==> r[k] == ss[|ss| - 1 - k]
  {
    var start := if |ss| < 5 then 0 else |ss| - 5;
    Reverse(ss[start..])
  }
}
