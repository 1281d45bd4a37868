/** The farmer-facing reports (controllers/farmerController.js): the sales
    report's period and totals, the inventory query and its summary, the
    review query and its rating statistics, and the performance score with
    its level and recommendations.

    Query results arrive as rows; a column the SQL may leave NULL is an
    Option. The clock and the grouped sales queries are not modelled: their
    rows are inputs. */
module FarmerController {
  import opened Numeric
  import opened Seqs
  import opened Tables
  import opened Query

  /** `x || 0` on a numeric column: NULL (and 0 itself) reads as 0. */
  function OrZero(x: Option<real>): (r: real)
    ensures x.None? ==> r == 0.0
    ensures x.Some? ==> r == x.value
  {
    if x.Some? then x.value else 0.0
  }

  function IntOrZero(x: Option<int>): (r: int)
    ensures x.None? ==> r == 0
    ensures x.Some? ==> r == x.value
  {
    if x.Some? then x.value else 0
  }

  // getFarmerSalesReport

  /** The look-back window of the sales report in days: 7 for "weekly", 365
      for "yearly", and 30 for "monthly", for an absent period (which defaults
      to "monthly") and for any other text. */
  function PeriodDays(period: Option<string>): (days: nat)
    ensures days == 7 <==> period == Some("weekly")
    ensures days == 365 <==> period == Some("yearly")
    ensures days == 30 <==> !(period == Some("weekly") || period == Some("yearly"))
  {
    var p := if period.Some? then period.value else "monthly";
    if p == "weekly" then 7
    else if p == "monthly" then 30
    else if p == "yearly" then 365
    else 30
  }

  /** A row of the per-day sales query; its SUM and COUNT columns may be NULL. */
  datatype DailySales = DailySales(totalOrders: Option<int>, totalSales: Option<real>)

  /** A row of the per-product sales query. */
  datatype ProductSales = ProductSales(quantitySold: Option<int>)

  datatype SalesSummary = SalesSummary(totalSales: real, totalOrders: int, totalItemsSold: int)

  function DaySales(d: DailySales): real { OrZero(d.totalSales) }
  function DayOrders(d: DailySales): int { IntOrZero(d.totalOrders) }
  function ItemsSold(p: ProductSales): int { IntOrZero(p.quantitySold) }

  /** The report's summary: the three column totals, a NULL cell counting 0,
      and all three 0 over no rows. A single row contributes its cells (0 for
      NULL); with SalesSummaryAppend, this fixes the totals of any rows. */
  function SummarizeSales(daily: seq<DailySales>, products: seq<ProductSales>): (s: SalesSummary)
    ensures daily == [] ==> s.totalSales == 0.0 && s.totalOrders == 0
    ensures products == [] ==> s.totalItemsSold == 0
    ensures |daily| == 1 ==> s.totalSales == (if daily[0].totalSales.Some? then daily[0].totalSales.value else 0.0)
    ensures |daily| == 1 ==> s.totalOrders == (if daily[0].totalOrders.Some? then daily[0].totalOrders.value else 0)
    ensures |products| == 1 ==> s.totalItemsSold == (if products[0].quantitySold.Some? then products[0].quantitySold.value else 0)
  {
    assert |daily| == 1 ==> Sum(daily, DaySales) == DaySales(daily[0]) && SumInt(daily, DayOrders) == DayOrders(daily[0]) by {
      if |daily| == 1 {
        SumOne(daily, DaySales);
        SumIntOne(daily, DayOrders);
      }
    }
    assert |products| == 1 ==> SumInt(products, ItemsSold) == ItemsSold(products[0]) by {
      if |products| == 1 {
        SumIntOne(products, ItemsSold);
      }
    }
    SalesSummary(Sum(daily, DaySales), SumInt(daily, DayOrders), SumInt(products, ItemsSold))
  }

  /** The summary of two spans of rows is the sum of their summaries: each
      row counts once, whatever the grouping of the report. */
  lemma SalesSummaryAppend(d1: seq<DailySales>, d2: seq<DailySales>, p1: seq<ProductSales>, p2: seq<ProductSales>)
    ensures SummarizeSales(d1 + d2, p1 + p2).totalSales == SummarizeSales(d1, p1).totalSales + SummarizeSales(d2, p2).totalSales
    ensures SummarizeSales(d1 + d2, p1 + p2).totalOrders == SummarizeSales(d1, p1).totalOrders + SummarizeSales(d2, p2).totalOrders
    ensures SummarizeSales(d1 + d2, p1 + p2).totalItemsSold == SummarizeSales(d1, p1).totalItemsSold + SummarizeSales(d2, p2).totalItemsSold
  {
    SumAppend(d1, d2, DaySales);
    SumIntAppend(d1, d2, DayOrders);
    SumIntAppend(p1, p2, ItemsSold);
  }

  /** A day whose cells are all NULL adds nothing to the totals. */
  lemma NullDayAddsNothing(daily: seq<DailySales>, products: seq<ProductSales>)
    ensures SummarizeSales(daily + [DailySales(None, None)], products) == SummarizeSales(daily, products)
  {
    SumAppend(daily, [DailySales(None, None)], DaySales);
    SumIntAppend(daily, [DailySales(None, None)], DayOrders);
  }

  // getFarmerInventory

  /** The columns of the inventory query's WHERE clause for one product. */
  function InventoryRow(p: Product): Row
  {
    map[FarmerId := Number(p.farmerId as real), Category := Text(p.category), Status := Text(p.status.Name())]
  }

  /** The farmer's products, narrowed by the optional category and status
      texts (None stands for an absent or empty query-string value). */
  predicate InventoryFilterHolds(farmerId: nat, category: Option<string>, status: Option<string>, p: Product)
  {
    && p.farmerId == farmerId
    && (category.Some? ==> p.category == category.value)
    && (status.Some? ==> p.status.Name() == status.value)
  }

  /** The parameter assembly of the inventory query: the farmer is `$1`, and
      each present filter appends one condition with the next placeholder. */
  method BuildInventoryQuery(farmerId: nat, category: Option<string>, status: Option<string>)
    returns (conds: seq<Condition>, values: seq<Param>)
    ensures Numbered(conds, values, 1)
    ensures |conds| >= 1 && conds[0] == Condition(FarmerId, Eq, 1) && values[0] == Number(farmerId as real)
    ensures forall p :: Selects(conds, values, InventoryRow(p)) <==> InventoryFilterHolds(farmerId, category, status, p)
  {
    ghost var clauses := InventoryClauses(farmerId, category, status);
    NoClauses(clauses);
    conds, values := [Condition(FarmerId, Eq, 1)], [Number(farmerId as real)];
    var paramIndex := 2;
    AppendClause(clauses, 0, [], [], conds, values);
    ghost var before, beforeValues := conds, values;
    if category.Some? {
      conds, values := Push(conds, values, Condition(Category, Eq, paramIndex), Text(category.value));
      paramIndex := paramIndex + 1;
    }
    AppendClause(clauses, 1, before, beforeValues, conds, values);
    before, beforeValues := conds, values;
    if status.Some? {
      conds, values := Push(conds, values, Condition(Status, Eq, paramIndex), Text(status.value));
      paramIndex := paramIndex + 1;
    }
    AppendClause(clauses, 2, before, beforeValues, conds, values);
    InventoryClausesMeaning(farmerId, category, status);
  }

  /** The inventory query's conditions in the order it appends them. */
  function InventoryClauses(farmerId: nat, category: Option<string>, status: Option<string>): seq<Option<Clause>>
  {
    [ Some((FarmerId, Eq, Number(farmerId as real))),
      if category.Some? then Some((Category, Eq, Text(category.value))) else None,
      if status.Some? then Some((Status, Eq, Text(status.value))) else None ]
  }

  /** Read on a product's row, the conditions say what the filters mean. */
  lemma InventoryClausesMeaning(farmerId: nat, category: Option<string>, status: Option<string>)
    ensures forall p :: (FirstClauses(InventoryClauses(farmerId, category, status), 3, InventoryRow(p))
      <==> InventoryFilterHolds(farmerId, category, status, p))
  {
    var clauses := InventoryClauses(farmerId, category, status);
    forall p ensures FirstClauses(clauses, 3, InventoryRow(p)) <==> InventoryFilterHolds(farmerId, category, status, p) {
      if FirstClauses(clauses, 3, InventoryRow(p)) {
        assert clauses[0].Some?;
        assert category.Some? ==> clauses[1].Some?;
        assert status.Some? ==> clauses[2].Some?;
      }
    }
  }

  /** One inventory row: the product with its aggregates. The LEFT JOINs with
      order items, feedback and views multiply rows, but COUNT(DISTINCT ...)
      and AVG are unaffected by a uniform multiplication, so the aggregates
      are the plain per-product ones. */
  datatype InventoryItem = InventoryItem(product: Product, timesSold: nat, averageRating: real, viewCount: nat)

  /** The inventory query's rows, in table order (ORDER BY of a caller-chosen
      column is not modelled). */
  function Inventory(products: seq<Product>, items: seq<OrderItem>, feedback: seq<Feedback>, views: Views,
                     farmerId: nat, category: Option<string>, status: Option<string>): (r: seq<InventoryItem>)
    ensures |r| == Count(products, (p: Product) => InventoryFilterHolds(farmerId, category, status, p))
    ensures forall i :: 0 <= i < |r| ==> r[i].product in products && InventoryFilterHolds(farmerId, category, status, r[i].product)
    ensures forall i :: 0 <= i < |products| && InventoryFilterHolds(farmerId, category, status, products[i]) ==>
      exists j :: 0 <= j < |r| && r[j].product == products[i]
    ensures forall i :: 0 <= i < |r| ==>
      && r[i].timesSold == PurchaseCount(items, r[i].product.productId)
      && r[i].averageRating == MeanOrZero(RatingsOf(feedback, r[i].product.productId))
      && r[i].viewCount == ViewCount(views, r[i].product.productId)
  {
    var keep := (p: Product) => InventoryFilterHolds(farmerId, category, status, p);
    var item := (p: Product) =>
      InventoryItem(p, PurchaseCount(items, p.productId), MeanOrZero(RatingsOf(feedback, p.productId)), ViewCount(views, p.productId));
    var r := MapKeys(Filter(products, keep), item);
    assert forall i :: 0 <= i < |products| && InventoryFilterHolds(farmerId, category, status, products[i]) ==>
      exists j :: 0 <= j < |r| && r[j].product == products[i] by {
      forall i | 0 <= i < |products| && InventoryFilterHolds(farmerId, category, status, products[i])
        ensures exists j :: 0 <= j < |r| && r[j].product == products[i]
      {
        assert item(products[i]) in r;
      }
    }
    r
  }

  predicate IsAvailable(it: InventoryItem) { it.product.status == Available }
  predicate OutOfStock(it: InventoryItem) { it.product.quantity == 0 }
  predicate LowStock(it: InventoryItem) { 0 < it.product.quantity < 10 }
  function StockValue(it: InventoryItem): real { it.product.price * it.product.quantity as real }

  datatype InventorySummary = InventorySummary(
    totalProducts: nat,
    totalAvailable: nat,
    totalOutOfStock: nat,
    totalLowStock: nat,
    totalValue: real)

  /** The summary over the inventory rows: no product is both out of stock and
      low on stock, so the two counts together never exceed the total. A
      single row counts 1 in each filter it passes and adds price * quantity;
      with InventorySummaryAppend, this fixes the summary of any rows. */
  function SummarizeInventory(rows: seq<InventoryItem>): (s: InventorySummary)
    ensures s.totalProducts == |rows|
    ensures s.totalAvailable <= s.totalProducts
    ensures s.totalOutOfStock + s.totalLowStock <= s.totalProducts
    ensures s.totalOutOfStock == 0 <==> forall i :: 0 <= i < |rows| ==> rows[i].product.quantity != 0
    ensures rows == [] ==> s.totalAvailable == 0 && s.totalValue == 0.0
    ensures |rows| == 1 ==>
      && s.totalAvailable == (if rows[0].product.status == Available then 1 else 0)
      && s.totalOutOfStock == (if rows[0].product.quantity == 0 then 1 else 0)
      && s.totalLowStock == (if 0 < rows[0].product.quantity < 10 then 1 else 0)
      && s.totalValue == rows[0].product.price * rows[0].product.quantity as real
  {
    CountDisjoint(rows, OutOfStock, LowStock);
    assert |rows| == 1 ==>
      && Count(rows, IsAvailable) == (if IsAvailable(rows[0]) then 1 else 0)
      && Count(rows, OutOfStock) == (if OutOfStock(rows[0]) then 1 else 0)
      && Count(rows, LowStock) == (if LowStock(rows[0]) then 1 else 0)
      && Sum(rows, StockValue) == StockValue(rows[0]) by {
      if |rows| == 1 {
        CountCons(rows, IsAvailable);
        CountCons(rows, OutOfStock);
        CountCons(rows, LowStock);
        SumOne(rows, StockValue);
      }
    }
    InventorySummary(|rows|, Count(rows, IsAvailable), Count(rows, OutOfStock), Count(rows, LowStock), Sum(rows, StockValue))
  }

  /** Every count and the stock value add up row by row. */
  lemma InventorySummaryAppend(a: seq<InventoryItem>, b: seq<InventoryItem>)
    ensures SummarizeInventory(a + b).totalProducts == SummarizeInventory(a).totalProducts + SummarizeInventory(b).totalProducts
    ensures SummarizeInventory(a + b).totalAvailable == SummarizeInventory(a).totalAvailable + SummarizeInventory(b).totalAvailable
    ensures SummarizeInventory(a + b).totalOutOfStock == SummarizeInventory(a).totalOutOfStock + SummarizeInventory(b).totalOutOfStock
    ensures SummarizeInventory(a + b).totalLowStock == SummarizeInventory(a).totalLowStock + SummarizeInventory(b).totalLowStock
    ensures SummarizeInventory(a + b).totalValue == SummarizeInventory(a).totalValue + SummarizeInventory(b).totalValue
  {
    FilterAppend(a, b, IsAvailable);
    FilterAppend(a, b, OutOfStock);
    FilterAppend(a, b, LowStock);
    SumAppend(a, b, StockValue);
  }

  /** With no negative price or quantity, the stock value is not negative. */
  lemma InventoryValueNonNegative(rows: seq<InventoryItem>)
    requires forall i :: 0 <= i < |rows| ==> rows[i].product.price >= 0.0 && rows[i].product.quantity >= 0
    ensures SummarizeInventory(rows).totalValue >= 0.0
  {
    forall x | x in rows ensures StockValue(x) >= 0.0 {
      var i :| 0 <= i < |rows| && rows[i] == x;
    }
    SumNonNegative(rows, StockValue);
  }

  // getFarmerCustomerReviews

  /** A review row: the feedback with the product it is about. */
  datatype Review = Review(feedback: Feedback, product: Product)

  function ReviewRow(r: Review): Row
  {
    map[FarmerId := Number(r.product.farmerId as real), Rating := Number(r.feedback.rating as real),
        ProductId := Number(r.product.productId as real)]
  }

  /** The farmer's reviews, narrowed by a lowest rating (inclusive) and by one
      product; both values are the integers parsed from the query string. */
  predicate ReviewFilterHolds(farmerId: nat, minRating: Option<int>, productId: Option<int>, r: Review)
  {
    && r.product.farmerId == farmerId
    && (minRating.Some? ==> r.feedback.rating >= minRating.value)
    && (productId.Some? ==> r.product.productId == productId.value)
  }

  /** The parameter assembly of the review query: the farmer is `$1`, then
      the lowest rating and the product, each when present. */
  method BuildReviewQuery(farmerId: nat, minRating: Option<int>, productId: Option<int>)
    returns (conds: seq<Condition>, values: seq<Param>)
    ensures Numbered(conds, values, 1)
    ensures |conds| >= 1 && conds[0] == Condition(FarmerId, Eq, 1) && values[0] == Number(farmerId as real)
    ensures forall r :: Selects(conds, values, ReviewRow(r)) <==> ReviewFilterHolds(farmerId, minRating, productId, r)
  {
    ghost var clauses := ReviewClauses(farmerId, minRating, productId);
    NoClauses(clauses);
    conds, values := [Condition(FarmerId, Eq, 1)], [Number(farmerId as real)];
    var paramIndex := 2;
    AppendClause(clauses, 0, [], [], conds, values);
    ghost var before, beforeValues := conds, values;
    if minRating.Some? {
      conds, values := Push(conds, values, Condition(Rating, AtLeast, paramIndex), Number(minRating.value as real));
      paramIndex := paramIndex + 1;
    }
    AppendClause(clauses, 1, before, beforeValues, conds, values);
    before, beforeValues := conds, values;
    if productId.Some? {
      conds, values := Push(conds, values, Condition(ProductId, Eq, paramIndex), Number(productId.value as real));
      paramIndex := paramIndex + 1;
    }
    AppendClause(clauses, 2, before, beforeValues, conds, values);
    ReviewClausesMeaning(farmerId, minRating, productId);
  }

  /** The review query's conditions in the order it appends them. */
  function ReviewClauses(farmerId: nat, minRating: Option<int>, productId: Option<int>): seq<Option<Clause>>
  {
    [ Some((FarmerId, Eq, Number(farmerId as real))),
      if minRating.Some? then Some((Rating, AtLeast, Number(minRating.value as real))) else None,
      if productId.Some? then Some((ProductId, Eq, Number(productId.value as real))) else None ]
  }

  /** Read on a review's row, the conditions say what the filters mean. */
  lemma ReviewClausesMeaning(farmerId: nat, minRating: Option<int>, productId: Option<int>)
    ensures forall r :: (FirstClauses(ReviewClauses(farmerId, minRating, productId), 3, ReviewRow(r))
      <==> ReviewFilterHolds(farmerId, minRating, productId, r))
  {
    var clauses := ReviewClauses(farmerId, minRating, productId);
    forall r ensures FirstClauses(clauses, 3, ReviewRow(r)) <==> ReviewFilterHolds(farmerId, minRating, productId, r) {
      if FirstClauses(clauses, 3, ReviewRow(r)) {
        assert clauses[0].Some?;
        assert minRating.Some? ==> clauses[1].Some?;
        assert productId.Some? ==> clauses[2].Some?;
      }
    }
  }

  /** The number of ratings equal to `star` (`ratings.filter(r => r === star).length`). */
  function Stars(ratings: seq<int>, star: int): (n: nat)
    ensures n <= |ratings|
    ensures n == |ratings| <==> forall i :: 0 <= i < |ratings| ==> ratings[i] == star
  {
    if ratings == [] then 0
    else
      var rest := Stars(ratings[1..], star);
      assert forall i :: 1 <= i < |ratings| ==> ratings[i] == ratings[1..][i - 1];
      (if ratings[0] == star then 1 else 0) + rest
  }

  datatype RatingStats = RatingStats(average: real, total: nat, distribution: map<int, nat>)

  /** The rating statistics of the returned reviews: the mean to one decimal
      (0 over no reviews), the number of reviews, and one bucket per star. */
  function RatingStatsOf(ratings: seq<int>): (s: RatingStats)
    ensures ratings == [] ==> s.average == 0.0
    ensures ratings != [] ==> s.average == Round1(MeanOrZero(ratings))
    ensures s.total == |ratings|
    ensures s.distribution.Keys == {1, 2, 3, 4, 5}
    ensures forall k :: k in s.distribution ==> s.distribution[k] == Stars(ratings, k) <= s.total
  {
    RatingStats(AverageStars(ratings), |ratings|, Distribution(ratings))
  }

  /** The mean rating to one decimal, 0 over no reviews. */
  function AverageStars(ratings: seq<int>): (a: real)
    ensures ratings == [] ==> a == 0.0
    ensures ratings != [] ==> a == Round1(MeanOrZero(ratings))
  {
    if |ratings| > 0 then Round1(MeanOrZero(ratings)) else 0.0
  }

  /** One bucket per star, 1 to 5. */
  function Distribution(ratings: seq<int>): (d: map<int, nat>)
    ensures d.Keys == {1, 2, 3, 4, 5}
    ensures forall k :: k in d ==> d[k] == Stars(ratings, k) <= |ratings|
  {
    map star | star in {5, 4, 3, 2, 1} :: Stars(ratings, star)
  }

  ghost predicate ValidStars(ratings: seq<int>)
  {
    forall i :: 0 <= i < |ratings| ==> 1 <= ratings[i] <= 5
  }

  /** When every rating is a whole star from 1 to 5, the buckets add up to the total. */
  lemma {:induction false} DistributionSumsToTotal(ratings: seq<int>)
    requires ValidStars(ratings)
    ensures Stars(ratings, 1) + Stars(ratings, 2) + Stars(ratings, 3) + Stars(ratings, 4) + Stars(ratings, 5) == |ratings|
  {
    if ratings != [] {
      DistributionSumsToTotal(ratings[1..]);
    }
  }

  /** With whole stars, the reported average lies between 1 and 5. */
  lemma RatingAverageBounds(ratings: seq<int>)
    requires ValidStars(ratings) && ratings != []
    ensures 1.0 <= RatingStatsOf(ratings).average <= 5.0
  {
    var m := MeanOrZero(ratings);
    Round1Monotone(1.0, m);
    Round1Monotone(m, 5.0);
    Round1OnGrid(10);
    Round1OnGrid(50);
  }

  // getFarmerPerformanceMetrics and its helpers

  /** The week-over-week growth of sales in percent, from weekly totals newest
      first: 0 with fewer than two weeks or with no sales in the previous
      week, else the change relative to the previous week. */
  function GrowthRate(weeklySales: seq<Option<real>>): (g: real)
    ensures |weeklySales| < 2 ==> g == 0.0
    ensures |weeklySales| >= 2 && OrZero(weeklySales[1]) == 0.0 ==> g == 0.0
    ensures |weeklySales| >= 2 && OrZero(weeklySales[1]) != 0.0 ==>
      g * OrZero(weeklySales[1]) == (OrZero(weeklySales[0]) - OrZero(weeklySales[1])) * 100.0
  {
    if |weeklySales| < 2 then 0.0
    else
      var recent := OrZero(weeklySales[0]);
      var previous := OrZero(weeklySales[1]);
      if previous == 0.0 then 0.0
      else (recent - previous) / previous * 100.0
  }

  /** After a week with sales, growth is positive exactly when sales rose and
      negative exactly when they fell. */
  lemma GrowthSign(weeklySales: seq<Option<real>>)
    requires |weeklySales| >= 2 && OrZero(weeklySales[1]) > 0.0
    ensures GrowthRate(weeklySales) > 0.0 <==> OrZero(weeklySales[0]) > OrZero(weeklySales[1])
    ensures GrowthRate(weeklySales) < 0.0 <==> OrZero(weeklySales[0]) < OrZero(weeklySales[1])
  {
    var g := GrowthRate(weeklySales);
    var prev := OrZero(weeklySales[1]);
    var d := OrZero(weeklySales[0]) - prev;
    assert g * prev == d * 100.0;
    if g > 0.0 { assert g * prev > 0.0; }
    if g < 0.0 { assert g * prev < 0.0; }
    if g == 0.0 { assert d == 0.0; }
  }

  lemma GrowthExamples()
    ensures GrowthRate([Some(100.0), Some(50.0)]) == 100.0
    ensures GrowthRate([Some(50.0), Some(100.0)]) == -50.0
    ensures GrowthRate([Some(100.0), None]) == 0.0
    ensures GrowthRate([Some(100.0)]) == 0.0
  {
  }

  datatype Level = Excellent | Good | Average | NeedsImprovement | Poor
  {
    function Name(): string
    {
      match this
      case Excellent => "EXCELLENT"
      case Good => "GOOD"
      case Average => "AVERAGE"
      case NeedsImprovement => "NEEDS IMPROVEMENT"
      case Poor => "POOR"
    }

    /** Poor is 0, Excellent 4. */
    function Rank(): nat
    {
      match this
      case Poor => 0
      case NeedsImprovement => 1
      case Average => 2
      case Good => 3
      case Excellent => 4
    }
  }

  /** The five bands of the overall score, lower bounds inclusive. */
  function PerformanceLevel(score: real): (l: Level)
    ensures l == Excellent <==> score >= 80.0
    ensures l == Good <==> 70.0 <= score < 80.0
    ensures l == Average <==> 60.0 <= score < 70.0
    ensures l == NeedsImprovement <==> 50.0 <= score < 60.0
    ensures l == Poor <==> score < 50.0
  {
    if score >= 80.0 then Excellent
    else if score >= 70.0 then Good
    else if score >= 60.0 then Average
    else if score >= 50.0 then NeedsImprovement
    else Poor
  }

  /** A higher score never lands in a lower band. */
  lemma PerformanceLevelMonotone(x: real, y: real)
    requires x <= y
    ensures PerformanceLevel(x).Rank() <= PerformanceLevel(y).Rank()
  {
  }

  /** The four figures the score and the recommendations are computed from. */
  datatype Metrics = Metrics(fulfillmentRate: real, avgRating: real, responseTime: real, salesGrowth: real)

  datatype Area = OrderFulfillment | CustomerSatisfaction | ResponseTime | SalesGrowth
  {
    function Index(): nat
    {
      match this
      case OrderFulfillment => 0
      case CustomerSatisfaction => 1
      case ResponseTime => 2
      case SalesGrowth => 3
    }

    /** The area as the response names it. */
    function Label(): string
    {
      match this
      case OrderFulfillment => "Order Fulfillment"
      case CustomerSatisfaction => "Customer Satisfaction"
      case ResponseTime => "Response Time"
      case SalesGrowth => "Sales Growth"
    }

    /** The suggestion the response gives for the area. */
    function Suggestion(): string
    {
      match this
      case OrderFulfillment => "Improve delivery time and order accuracy"
      case CustomerSatisfaction => "Check feedback and improve product quality"
      case ResponseTime => "Respond to orders and messages faster"
      case SalesGrowth => "Consider promotional offers or new products"
    }
  }

  datatype Priority = High | Medium

  /** A recommendation; its text is its area's Label() and Suggestion(). */
  datatype Recommendation = Recommendation(area: Area, priority: Priority)

  /** The checks, in the order the recommendations are emitted. */
  const Areas: seq<Area> := [OrderFulfillment, CustomerSatisfaction, ResponseTime, SalesGrowth]

  /** When each area calls for a recommendation. */
  predicate Fires(a: Area, m: Metrics)
  {
    match a
    case OrderFulfillment => m.fulfillmentRate < 90.0
    case CustomerSatisfaction => m.avgRating < 4.0
    case ResponseTime => m.responseTime > 12.0
    case SalesGrowth => m.salesGrowth < 0.0
  }

  /** The recommendation each area gives. */
  function Advice(a: Area): (r: Recommendation)
    ensures r.area == a
    ensures r.priority == High <==> a.Index() < 2
  {
    match a
    case OrderFulfillment => Recommendation(a, High)
    case CustomerSatisfaction => Recommendation(a, High)
    case ResponseTime => Recommendation(a, Medium)
    case SalesGrowth => Recommendation(a, Medium)
  }

  /** The advice of one check, if it fires. */
  function Check(a: Area, m: Metrics): seq<Recommendation>
  {
    if Fires(a, m) then [Advice(a)] else []
  }

  /** The recommendations of the checks that fire, in checklist order. */
  function Triggered(areas: seq<Area>, m: Metrics): seq<Recommendation>
  {
    if areas == [] then []
    else Check(areas[0], m) + Triggered(areas[1..], m)
  }

  /** generatePerformanceRecommendations: runs the four checks in turn and
      pushes the advice of each one that fires. */
  method GenerateRecommendations(m: Metrics) returns (recs: seq<Recommendation>)
    ensures recs == Triggered(Areas, m)
  {
    recs := [];
    if m.fulfillmentRate < 90.0 {
      recs := recs + [Recommendation(OrderFulfillment, High)];
    }
    ghost var first := recs;
    assert first == Check(OrderFulfillment, m);
    if m.avgRating < 4.0 {
      recs := recs + [Recommendation(CustomerSatisfaction, High)];
    }
    ghost var second := recs;
    assert second == first + Check(CustomerSatisfaction, m);
    if m.responseTime > 12.0 {
      recs := recs + [Recommendation(ResponseTime, Medium)];
    }
    ghost var third := recs;
    assert third == second + Check(ResponseTime, m);
    if m.salesGrowth < 0.0 {
      recs := recs + [Recommendation(SalesGrowth, Medium)];
    }
    assert recs == third + Check(SalesGrowth, m);
    ChecklistIsTriggered(m);
  }

  /** The four checks in turn give the recommendations of the checklist. */
  lemma ChecklistIsTriggered(m: Metrics)
    ensures Triggered(Areas, m)
      == Check(OrderFulfillment, m) + Check(CustomerSatisfaction, m) + Check(ResponseTime, m) + Check(SalesGrowth, m)
  {
    var a, b, c, d := Check(OrderFulfillment, m), Check(CustomerSatisfaction, m), Check(ResponseTime, m), Check(SalesGrowth, m);
    TriggeredFour(OrderFulfillment, CustomerSatisfaction, ResponseTime, SalesGrowth, m);
    assert a + (b + (c + d)) == a + b + c + d;
  }

  lemma TriggeredFour(a: Area, b: Area, c: Area, d: Area, m: Metrics)
    ensures Triggered([a, b, c, d], m) == Check(a, m) + (Check(b, m) + (Check(c, m) + Check(d, m)))
  {
    TriggeredCons(d, [], m);
    assert Triggered([d], m) == Check(d, m) by {
      assert [d] == [d] + [];
    }
    TriggeredCons(c, [d], m);
    assert [c, d] == [c] + [d];
    TriggeredCons(b, [c, d], m);
    assert [b, c, d] == [b] + [c, d];
    TriggeredCons(a, [b, c, d], m);
    assert [a, b, c, d] == [a] + [b, c, d];
  }

  lemma TriggeredCons(a: Area, rest: seq<Area>, m: Metrics)
    ensures Triggered([a] + rest, m) == Check(a, m) + Triggered(rest, m)
  {
    assert ([a] + rest)[1..] == rest;
  }

  lemma {:induction false} TriggeredAppend(a: seq<Area>, b: seq<Area>, m: Metrics)
    ensures Triggered(a + b, m) == Triggered(a, m) + Triggered(b, m)
  {
    if a == [] {
      assert a + b == b;
    } else {
      assert (a + b)[0] == a[0];
      assert (a + b)[1..] == a[1..] + b;
      TriggeredAppend(a[1..], b, m);
    }
  }

  /** Running the checks one more step adds that check's advice, if it fires. */
  lemma TriggeredStep(k: nat, m: Metrics)
    requires k < |Areas|
    ensures Triggered(Areas[..k + 1], m) == Triggered(Areas[..k], m) + (if Fires(Areas[k], m) then [Advice(Areas[k])] else [])
  {
    assert Areas[..k + 1] == Areas[..k] + [Areas[k]];
    TriggeredAppend(Areas[..k], [Areas[k]], m);
    assert [Areas[k]][1..] == [];
  }

  /** One recommendation per check that fires, so never more than the checks. */
  lemma {:induction false} TriggeredCount(areas: seq<Area>, m: Metrics)
    ensures |Triggered(areas, m)| == Count(areas, (a: Area) => Fires(a, m))
    ensures |Triggered(areas, m)| <= |areas|
  {
    if areas != [] {
      CountCons(areas, (a: Area) => Fires(a, m));
      TriggeredCount(areas[1..], m);
    }
  }

  /** An area is recommended exactly when its check fires, with its advice. */
  lemma {:induction false} TriggeredMembers(areas: seq<Area>, m: Metrics, a: Area)
    ensures Advice(a) in Triggered(areas, m) <==> a in areas && Fires(a, m)
    ensures forall i :: 0 <= i < |Triggered(areas, m)| ==> Triggered(areas, m)[i] == Advice(Triggered(areas, m)[i].area)
  {
    if areas != [] {
      TriggeredMembers(areas[1..], m, a);
      var head := if Fires(areas[0], m) then [Advice(areas[0])] else [];
      assert Triggered(areas, m) == head + Triggered(areas[1..], m);
      assert a in areas <==> a == areas[0] || a in areas[1..];
      if Advice(a) in head {
        assert Advice(a) == Advice(areas[0]);
        assert a == areas[0];
      }
    }
  }

  /** Recommendations in strictly increasing checklist order. */
  ghost predicate InChecklistOrder(rs: seq<Recommendation>)
  {
    forall i, j :: 0 <= i < j < |rs| ==> rs[i].area.Index() < rs[j].area.Index()
  }

  /** The checks run in strictly increasing order. */
  ghost predicate AscendingAreas(areas: seq<Area>)
  {
    forall i, j :: 0 <= i < j < |areas| ==> areas[i].Index() < areas[j].Index()
  }

  /** The recommendations come in the fixed order of the checks. */
  lemma {:induction false} TriggeredOrdered(areas: seq<Area>, m: Metrics)
    requires AscendingAreas(areas)
    ensures InChecklistOrder(Triggered(areas, m))
    ensures forall r :: r in Triggered(areas, m) ==> r.area in areas
  {
    if areas != [] {
      var rest := Triggered(areas[1..], m);
      assert AscendingAreas(areas[1..]);
      TriggeredOrdered(areas[1..], m);
      if Fires(areas[0], m) {
        assert Triggered(areas, m) == [Advice(areas[0])] + rest;
        forall r | r in rest ensures areas[0].Index() < r.area.Index() {
          var k :| 0 <= k < |areas[1..]| && areas[1..][k] == r.area;
          assert areas[k + 1] == r.area;
        }
        ConsInOrder(Advice(areas[0]), rest);
      } else {
        assert Triggered(areas, m) == rest;
      }
    }
  }

  /** A recommendation ranked before all of an ordered list may go in front. */
  lemma ConsInOrder(r: Recommendation, rest: seq<Recommendation>)
    requires InChecklistOrder(rest)
    requires forall x :: x in rest ==> r.area.Index() < x.area.Index()
    ensures InChecklistOrder([r] + rest)
  {
    var t := [r] + rest;
    forall i, j | 0 <= i < j < |t| ensures t[i].area.Index() < t[j].area.Index() {
      assert t[j] == rest[j - 1];
      if i > 0 {
        assert t[i] == rest[i - 1];
      }
    }
  }

  /** The checklist runs every area once, in increasing order. */
  lemma ChecklistShape()
    ensures |Areas| == 4 && AscendingAreas(Areas)
    ensures forall a: Area :: a in Areas
  {
    forall a: Area ensures a in Areas {
      assert Areas[a.Index()] == a;
    }
    forall i, j | 0 <= i < j < |Areas| ensures Areas[i].Index() < Areas[j].Index() {
      assert Areas[i].Index() == i && Areas[j].Index() == j;
    }
  }

  /** The recommendations of the handler: at most four, one per firing check,
      HIGH exactly for fulfillment and satisfaction, in checklist order. */
  lemma RecommendationsFacts(m: Metrics)
    ensures |Triggered(Areas, m)| <= 4
    ensures forall a :: Advice(a) in Triggered(Areas, m) <==> Fires(a, m)
    ensures InChecklistOrder(Triggered(Areas, m))
  {
    ChecklistShape();
    TriggeredCount(Areas, m);
    TriggeredOrdered(Areas, m);
    forall a ensures Advice(a) in Triggered(Areas, m) <==> Fires(a, m) {
      TriggeredMembers(Areas, m, a);
    }
  }

  /** `x || d` on a number read from a query: a missing value, and 0 itself,
      read as the default d. */
  function OrDefault(x: Option<real>, d: real): (r: real)
    ensures x.None? ==> r == d
    ensures x.Some? && x.value != 0.0 ==> r == x.value
    ensures x == Some(0.0) ==> r == d
  {
    if x.Some? && x.value != 0.0 then x.value else d
  }

  predicate IsDelivered(o: Order) { o.status == Delivered }

  function FarmerOrders(orders: seq<Order>, farmerId: nat): (r: seq<Order>)
    ensures forall i :: 0 <= i < |r| ==> r[i] in orders && r[i].farmerId == farmerId
    ensures forall o :: o in orders && o.farmerId == farmerId ==> o in r
  {
    FilterMembers(orders, (o: Order) => o.farmerId == farmerId);
    Filter(orders, (o: Order) => o.farmerId == farmerId)
  }

  /** The DELIVERED row's percentage of the order-fulfillment query (the
      group's share of the farmer's orders, rounded to two decimals), or 0
      when the farmer has no delivered order and so no such row. */
  function FulfillmentRate(orders: seq<Order>, farmerId: nat): (r: real)
    ensures 0.0 <= r <= 100.0
    ensures Count(FarmerOrders(orders, farmerId), IsDelivered) == 0 ==> r == 0.0
    ensures Count(FarmerOrders(orders, farmerId), IsDelivered) > 0 ==>
      r == Round2(Count(FarmerOrders(orders, farmerId), IsDelivered) as real * 100.0 / |FarmerOrders(orders, farmerId)| as real)
    ensures FarmerOrders(orders, farmerId) != [] && Count(FarmerOrders(orders, farmerId), IsDelivered) == |FarmerOrders(orders, farmerId)| ==> r == 100.0
  {
    var mine := FarmerOrders(orders, farmerId);
    var delivered := Count(mine, IsDelivered);
    if delivered == 0 then 0.0
    else
      var share := delivered as real * 100.0 / |mine| as real;
      SharePercent(delivered, |mine|);
      Round2Monotone(share, 100.0);
      Round2OnGrid(10000);
      Round2(share)
  }

  lemma SharePercent(part: nat, whole: nat)
    requires 0 < part <= whole
    ensures 0.0 < part as real * 100.0 / whole as real <= 100.0
    ensures part == whole ==> part as real * 100.0 / whole as real == 100.0
  {
    var w := whole as real;
    var q := part as real * 100.0 / w;
    assert q * w == part as real * 100.0;
    assert part as real * 100.0 <= w * 100.0;

  }

  /** The customer-satisfaction figure: the mean of the ratings left on the
      farmer's products (feedback JOIN products), rounded to two decimals, and
      0 when there is no such rating (AVG is NULL). */
  function SatisfactionRating(feedback: seq<Feedback>, products: seq<Product>, farmerId: nat): (r: real)
    ensures FarmerRatings(feedback, products, farmerId) == [] ==> r == 0.0
    ensures FarmerRatings(feedback, products, farmerId) != [] ==> r == Round2(MeanOrZero(FarmerRatings(feedback, products, farmerId)))
    ensures FarmerRatings(feedback, products, farmerId) != [] && ValidStars(FarmerRatings(feedback, products, farmerId)) ==> 1.0 <= r <= 5.0
  {
    var ratings := FarmerRatings(feedback, products, farmerId);
    if ratings == [] then 0.0
    else
      Round2StarBounds(MeanOrZero(ratings));
      Round2(MeanOrZero(ratings))
  }

  lemma Round2StarBounds(m: real)
    ensures 1.0 <= m <= 5.0 ==> 1.0 <= Round2(m) <= 5.0
  {
    if 1.0 <= m <= 5.0 {
      Round2Monotone(1.0, m);
      Round2Monotone(m, 5.0);
      Round2OnGrid(100);
      Round2OnGrid(500);
    }
  }

  /** The ratings left on products of the farmer, one per feedback row whose
      product the farmer owns, in table order. */
  function FarmerRatings(feedback: seq<Feedback>, products: seq<Product>, farmerId: nat): (r: seq<int>)
    ensures |r| == Count(feedback, (f: Feedback) => OwnedBy(products, f.productId, farmerId))
    ensures forall x :: x in r <==> exists f :: f in feedback && OwnedBy(products, f.productId, farmerId) && f.rating == x
  {
    if feedback == [] then []
    else
      var rest := FarmerRatings(feedback[1..], products, farmerId);
      CountCons(feedback, (f: Feedback) => OwnedBy(products, f.productId, farmerId));
      assert forall f :: f in feedback <==> f == feedback[0] || f in feedback[1..] by {
        assert feedback == [feedback[0]] + feedback[1..];
      }
      if OwnedBy(products, feedback[0].productId, farmerId) then [feedback[0].rating] + rest
      else rest
  }

  predicate OwnedBy(products: seq<Product>, productId: nat, farmerId: nat)
  {
    exists i :: 0 <= i < |products| && products[i].productId == productId && products[i].farmerId == farmerId
  }

  predicate Answered(o: Order) { o.status != Pending && o.updatedAt.Some? }

  function ResponseSeconds(o: Order): real
  {
    if o.updatedAt.Some? then (o.updatedAt.value - o.orderDate) as real else 0.0
  }

  /** The response-time query: the mean of updated_at - order_date in hours
      over the farmer's orders that have left PENDING and carry an update
      time; None (SQL NULL) when there is no such order. */
  function ResponseHours(orders: seq<Order>, farmerId: nat): (h: Option<real>)
    ensures h.None? <==> forall i :: 0 <= i < |FarmerOrders(orders, farmerId)| ==> !Answered(FarmerOrders(orders, farmerId)[i])
    ensures h.Some? ==> IsMeanHours(h.value, Sum(AnsweredOrders(orders, farmerId), ResponseSeconds), |AnsweredOrders(orders, farmerId)|)
  {
    var answered := AnsweredOrders(orders, farmerId);
    if answered == [] then
      None
    else
      var total := Sum(answered, ResponseSeconds);
      var hours := total / |answered| as real / 3600.0;
      MeanTimes(total, |answered|, hours);
      Some(hours)
  }

  /** The farmer's orders that have left PENDING and carry an update time. */
  function AnsweredOrders(orders: seq<Order>, farmerId: nat): (r: seq<Order>)
    ensures forall o :: o in r <==> o in orders && o.farmerId == farmerId && Answered(o)
    ensures r == [] <==> forall i :: 0 <= i < |FarmerOrders(orders, farmerId)| ==> !Answered(FarmerOrders(orders, farmerId)[i])
  {
    var mine := FarmerOrders(orders, farmerId);
    FilterMembers(orders, (o: Order) => o.farmerId == farmerId);
    FilterMembers(mine, Answered);
    var r := Filter(mine, Answered);
    assert r != [] ==> exists i :: 0 <= i < |mine| && Answered(mine[i]) by {
      if r != [] {
        assert r[0] in mine;
      }
    }
    r
  }

  /** `hours` is the mean of n durations in seconds that add up to `total`. */
  predicate IsMeanHours(hours: real, total: real, n: nat)
  {
    hours * 3600.0 * n as real == total
  }

  lemma MeanTimes(total: real, n: nat, hours: real)
    requires n > 0 && hours == total / n as real / 3600.0
    ensures IsMeanHours(hours, total, n)
  {
  }

  /** The four figures of the performance score, each with its default:
      fulfillment 0, rating 0, response time 24 hours, growth from the weekly
      sales totals (newest first). */
  function PerformanceInputs(orders: seq<Order>, feedback: seq<Feedback>, products: seq<Product>,
                             weeklySales: seq<Option<real>>, farmerId: nat): (m: Metrics)
    ensures m.fulfillmentRate == FulfillmentRate(orders, farmerId) && 0.0 <= m.fulfillmentRate <= 100.0
    ensures m.avgRating == SatisfactionRating(feedback, products, farmerId)
    ensures m.responseTime == OrDefault(ResponseHours(orders, farmerId), 24.0)
    ensures ResponseHours(orders, farmerId).None? ==> m.responseTime == 24.0
    ensures m.salesGrowth == GrowthRate(weeklySales)
  {
    Metrics(
      OrDefault(Some(FulfillmentRate(orders, farmerId)), 0.0),
      OrDefault(Some(SatisfactionRating(feedback, products, farmerId)), 0.0),
      OrDefault(ResponseHours(orders, farmerId), 24.0),
      GrowthRate(weeklySales))
  }

  /** The weighted sum before rounding: 30% fulfillment, 30% rating on a
      100-point scale, 20% response (24 hours or more earns nothing), 20%
      growth. */
  function WeightedScore(m: Metrics): real
  {
    m.fulfillmentRate * 0.3
    + m.avgRating * 20.0 * 0.3
    + (24.0 - Min(m.responseTime, 24.0)) * 0.2
    + m.salesGrowth * 0.2
  }

  /** The overall score: the weighted sum to one decimal. */
  function OverallScore(m: Metrics): (s: real)
    ensures WeightedScore(m) - 0.05 <= s <= WeightedScore(m) + 0.05
    ensures (s * 10.0).Floor as real == s * 10.0
  {
    Round1(WeightedScore(m))
  }

  /** Figures in their ranges (a percentage, a star mean, a non-negative
      time) earn at most 30 + 30 + 4.8 = 64.8 points before growth: without
      growth no farmer reaches GOOD (70). */
  lemma WeightedScoreBounds(m: Metrics)
    requires 0.0 <= m.fulfillmentRate <= 100.0 && 0.0 <= m.avgRating <= 5.0 && m.responseTime >= 0.0
    ensures m.salesGrowth * 0.2 <= WeightedScore(m) <= 64.8 + m.salesGrowth * 0.2
    ensures m.salesGrowth <= 0.0 ==> PerformanceLevel(OverallScore(m)).Rank() <= Average.Rank()
  {
    ResponseTermBounds(m.responseTime);
    if m.salesGrowth <= 0.0 {
      Round1Monotone(WeightedScore(m), 64.8);
      Round1OnGrid(648);
    }
  }

  /** A non-negative response time earns between 0 and 4.8 points. */
  lemma ResponseTermBounds(hours: real)
    requires hours >= 0.0
    ensures 0.0 <= (24.0 - Min(hours, 24.0)) * 0.2 <= 4.8
  {
  }

  /** Better figures never lower the score: more fulfillment, rating or
      growth, or a shorter response time. */
  lemma OverallScoreMonotone(a: Metrics, b: Metrics)
    requires a.fulfillmentRate <= b.fulfillmentRate && a.avgRating <= b.avgRating
    requires b.responseTime <= a.responseTime && a.salesGrowth <= b.salesGrowth
    ensures OverallScore(a) <= OverallScore(b)
  {
    assert Min(b.responseTime, 24.0) <= Min(a.responseTime, 24.0);
    Round1Monotone(WeightedScore(a), WeightedScore(b));
  }

  /** The default figures score 0 and rank POOR. */
  lemma DefaultFiguresPerformance()
    ensures OverallScore(Metrics(0.0, 0.0, 24.0, 0.0)) == 0.0
    ensures PerformanceLevel(OverallScore(Metrics(0.0, 0.0, 24.0, 0.0))) == Poor
  {
    DefaultOverallScore();
  }

  lemma DefaultOverallScore()
    ensures OverallScore(Metrics(0.0, 0.0, 24.0, 0.0)) == 0.0
  {
    DefaultWeightedScore();
    Round1Zero();
  }

  lemma DefaultWeightedScore()
    ensures WeightedScore(Metrics(0.0, 0.0, 24.0, 0.0)) == 0.0
  {
  }

  lemma Round1Zero()
    ensures Round1(0.0) == 0.0
  {
    Round1OnGrid(0);
  }

  /** The default figures draw three recommendations: fulfillment,
      satisfaction and response time. */
  lemma DefaultFiguresAdvice()
    ensures Triggered(Areas, Metrics(0.0, 0.0, 24.0, 0.0)) == [Advice(OrderFulfillment), Advice(CustomerSatisfaction), Advice(ResponseTime)]
  {
    var m := Metrics(0.0, 0.0, 24.0, 0.0);
    ChecklistIsTriggered(m);
    assert Check(OrderFulfillment, m) == [Advice(OrderFulfillment)];
    assert Check(CustomerSatisfaction, m) == [Advice(CustomerSatisfaction)];
    assert Check(ResponseTime, m) == [Advice(ResponseTime)];
    assert Check(SalesGrowth, m) == [];
  }

  /** Growth is not capped, so the score is not confined to 0..100: 1000%
      growth alone gives 200. */
  lemma OverallScoreUnbounded()
    ensures OverallScore(Metrics(0.0, 0.0, 24.0, 1000.0)) == 200.0
  {
    Round1OnGrid(2000);
  }

  /** The performance report: the figures, the score, its level and the
      recommendations. */
  datatype PerformanceReport = PerformanceReport(metrics: Metrics, overall: real, level: Level, recommendations: seq<Recommendation>)

  /** getFarmerPerformanceMetrics from the query results on: the score's
      level is read from the rounded score, and the recommendations from the
      unrounded figures. */
  method PerformanceMetrics(orders: seq<Order>, feedback: seq<Feedback>, products: seq<Product>,
                            weeklySales: seq<Option<real>>, farmerId: nat)
    returns (report: PerformanceReport)
    ensures report.metrics == PerformanceInputs(orders, feedback, products, weeklySales, farmerId)
    ensures report.overall == OverallScore(report.metrics)
    ensures report.level == PerformanceLevel(report.overall)
    ensures report.recommendations == Triggered(Areas, report.metrics)
  {
    var m := PerformanceInputs(orders, feedback, products, weeklySales, farmerId);
    var overall := OverallScore(m);
    var recs := GenerateRecommendations(m);
    report := PerformanceReport(m, overall, PerformanceLevel(overall), recs);
  }
}
