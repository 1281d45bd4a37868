# Digital Farmers Market: market-intelligence core

A Dafny model of the scoring, ranking and bookkeeping core of the Digital
Farmers Market backend. The model covers four parts:

- **The farmer controller** (`controllers/farmerController.js`):
  - the sales-report period and its totals;
  - the inventory and review filter builders with their `$n` placeholders;
  - the inventory summary and the rating statistics;
  - the week-over-week growth rate;
  - the weighted overall performance score and its five-band level;
  - the four performance recommendations.
- **The recommendation controller** (`controllers/recommendationController.js`):
  - the demand analysis (price-trend indicator, PENDING-only unmet demand, rounded weighted score, descending order);
  - the recently-viewed, similar and trending lists of the personalised recommendations.
- **The recommendation model** (`models/recommendationModel.js`):
  - the market insights, with the per-product demand score and the category figures joined by category;
  - the customer preferences, with the popularity score, the zero-viewer filter and LIMIT 10;
  - the seasonal recommendations, with the `(m % 12) + 1` month window.
- **The product model** (`models/productModel.js`):
  - a `ProductStore` object whose `products` and `product_views` tables change in place: the view upsert and the soft delete;
  - the listing filter builder;
  - the farmer catalogue;
  - the `UPDATE ... SET key = $(i+2)` statement.

Conventions shared by the modules:

- The database tables are in-memory values:
  - `seq<Product>`, `seq<Order>`, `seq<OrderItem>` and `seq<Feedback>`;
  - `product_views` as a map keyed by its upsert key (customer, product).
- Scores and prices are exact `real`s. `ROUND(x, 2)` and `toFixed(1)` are one explicit half-away-from-zero rounding step (module `Numeric`).
- `ORDER BY key DESC` is a stable descending sort, and `LIMIT n` is a prefix (module `Ranking`).
- A handler's parameterised WHERE clause is a list of typed conditions whose placeholders index the value list (module `Query`).
- Clock readings are inputs: the current month, `now`, and `since` for "the last 7 days".

Modules:

| file | module | models |
|---|---|---|
| numeric.dfy | Numeric | ROUND(_, 2) and toFixed(1) |
| seqs.dfy | Seqs | filters, counts, sums, GROUP BY keys |
| ranking.dfy | Ranking | ORDER BY ... DESC, LIMIT |
| tables.dfy | Tables | table rows and per-product aggregates |
| query.dfy | Query | `$n` placeholders and WHERE conditions |
| farmer.dfy | FarmerController | controllers/farmerController.js |
| demand.dfy | RecommendationController | controllers/recommendationController.js |
| insights.dfy | RecommendationModel | models/recommendationModel.js |
| products.dfy | ProductModel | models/productModel.js |

## Model

| member | source | states |
|---|---|---|
| FarmerController.PeriodDays | controllers/farmerController.js:110-125 | 'weekly' gives 7 days and 'yearly' 365; every other value and an absent period give 30, both directions |
| FarmerController.SummarizeSales | controllers/farmerController.js:171-175 | with no rows the sales, order and item totals are 0; a single row contributes its own cell, a NULL cell as 0 (with SalesSummaryAppend this fixes every total as the sum of the rows) |
| FarmerController.SalesSummaryAppend | controllers/farmerController.js:171-175 | each of the three totals is additive over a split of the rows (a sum over the rows) |
| FarmerController.NullDayAddsNothing | controllers/farmerController.js:172-173 | a day whose total_sales and total_orders are NULL counts as 0 and leaves the summary unchanged |
| FarmerController.BuildInventoryQuery | controllers/farmerController.js:193-219 | `$1` is the farmer id; each present filter adds one condition whose placeholder is the new value count; the WHERE clause selects a product iff it is the farmer's and matches the given category and status |
| FarmerController.InventoryClausesMeaning | controllers/farmerController.js:206-219 | the farmer, category and status conditions, read on a product row, hold iff the filters hold |
| FarmerController.Inventory | controllers/farmerController.js:193-221 | exactly the farmer's products that match the filters, one row per matching product (the row count is the number of matches), each with its purchase count, average rating (0 without feedback) and view count |
| FarmerController.SummarizeInventory | controllers/farmerController.js:226-234 | total is the row count; with one row, available counts it iff AVAILABLE, out-of-stock iff quantity 0, low-stock iff quantity in 1..9, and the value is price times quantity (with InventorySummaryAppend, every figure is the sum over the rows); out-of-stock is 0 iff no row has quantity 0; available, and out-of-stock plus low-stock, never exceed the total |
| FarmerController.InventorySummaryAppend | controllers/farmerController.js:226-234 | each of the five figures (total, available, out-of-stock, low-stock, value) is additive over a split of the rows |
| FarmerController.InventoryValueNonNegative | controllers/farmerController.js:231-233 | with non-negative prices and quantities, total_value is non-negative |
| FarmerController.BuildReviewQuery | controllers/farmerController.js:256-285 | `$1` is the farmer id; placeholders stay consecutive with the value count; the WHERE clause selects a review iff it is on the farmer's product, meets the minimum rating and matches the product filter |
| FarmerController.ReviewClausesMeaning | controllers/farmerController.js:272-285 | the three conditions, read on a review row, hold iff the review filters hold |
| FarmerController.Stars | controllers/farmerController.js:297-303 | a distribution bucket never counts more ratings than there are, and counts all of them iff every rating is that star |
| FarmerController.RatingStatsOf | controllers/farmerController.js:292-304 | the average is 0 with no reviews and otherwise the mean rating rounded to one decimal; total is the number of reviews; the distribution has exactly the keys 1..5 and bucket k holds the number of ratings equal to k |
| FarmerController.DistributionSumsToTotal | controllers/farmerController.js:297-303 | when every rating is in 1..5, the five buckets add up to total |
| FarmerController.RatingAverageBounds | controllers/farmerController.js:294-295 | with at least one rating, all in 1..5, the average lies in [1, 5] |
| FarmerController.GrowthRate | controllers/farmerController.js:417-423 | 0 with fewer than two weeks or a previous week of 0 (a missing weekly_sales reads as 0); otherwise rate times previous equals (recent - previous) times 100 |
| FarmerController.GrowthSign | controllers/farmerController.js:421-422 | against a positive previous week, growth is positive iff sales rose and negative iff they fell |
| FarmerController.GrowthExamples | controllers/farmerController.js:417-423 | [100, 50] gives 100; [50, 100] gives -50; a missing previous week or a single week gives 0 |
| FarmerController.PerformanceLevel | controllers/farmerController.js:425-431 | each of the five bands holds exactly on its score interval (>= 80, [70, 80), [60, 70), [50, 60), < 50) |
| FarmerController.PerformanceLevelMonotone | controllers/farmerController.js:425-431 | a higher score never gives a lower band |
| FarmerController.Advice | controllers/farmerController.js:436-466 | each recommendation names its own area; it is HIGH priority exactly for fulfillment and satisfaction |
| FarmerController.GenerateRecommendations | controllers/farmerController.js:433-469 | the pushed list equals the triggered checks in checklist order |
| FarmerController.ChecklistIsTriggered | controllers/farmerController.js:436-466 | the checklist's result is the concatenation of the four checks in order |
| FarmerController.TriggeredFour | controllers/farmerController.js:436-466 | four checks in a row contribute their outputs in order |
| FarmerController.TriggeredCons | controllers/farmerController.js:436-466 | the first check's output comes before the rest's |
| FarmerController.TriggeredAppend | controllers/farmerController.js:436-466 | running two checklists one after the other gives their outputs concatenated |
| FarmerController.TriggeredStep | controllers/farmerController.js:436-466 | after check k, the list grows by that area's advice exactly when its condition fires |
| FarmerController.TriggeredCount | controllers/farmerController.js:433-469 | the number of recommendations equals the number of true conditions, never more than the number of checks |
| FarmerController.TriggeredMembers | controllers/farmerController.js:433-469 | an area's advice is present iff the area is checked and its condition fires; every entry is its area's advice |
| FarmerController.TriggeredOrdered | controllers/farmerController.js:433-469 | checks in ascending order give recommendations in that order, each from a checked area |
| FarmerController.ConsInOrder | controllers/farmerController.js:433-469 | an entry placed before later areas keeps the list in checklist order |
| FarmerController.ChecklistShape | controllers/farmerController.js:436-466 | the checklist holds all four areas, once each, in order |
| FarmerController.RecommendationsFacts | controllers/farmerController.js:433-469 | at most 4 recommendations; an area's advice is present iff its condition fires; the entries come in checklist order |
| FarmerController.OrDefault | controllers/farmerController.js:388-390 | JavaScript's or-default: the default when the value is missing or 0, the value otherwise |
| FarmerController.FarmerOrders | controllers/farmerController.js:333 | exactly the farmer's orders |
| FarmerController.FulfillmentRate | controllers/farmerController.js:327-335 | with some DELIVERED order, ROUND(100 delivered / farmer's orders, 2); 0 without one (the `|| 0` default); always in [0, 100], and 100 when every order of the farmer is delivered |
| FarmerController.SharePercent | controllers/farmerController.js:331 | a positive part of a whole is a percentage in (0, 100], and 100 exactly for the whole |
| FarmerController.SatisfactionRating | controllers/farmerController.js:344-351 | over the ratings of feedback on the farmer's products: 0 without any, otherwise ROUND(mean, 2), which lies in [1, 5] when every rating is 1..5 |
| FarmerController.FarmerRatings | controllers/farmerController.js:348-350 | one rating per feedback row whose product belongs to the farmer, and a value is present iff such a row carries it |
| FarmerController.Round2StarBounds | controllers/farmerController.js:346 | ROUND(_, 2) keeps a star average within [1, 5] |
| FarmerController.ResponseHours | controllers/farmerController.js:336-343 | no value (NULL) exactly when none of the farmer's orders is answered (not PENDING, updated_at set); otherwise hours times 3600 times the answered count equals the total response seconds, so the value is their mean in hours |
| FarmerController.AnsweredOrders | controllers/farmerController.js:340-342 | exactly the farmer's orders that are not PENDING and have updated_at, empty iff none of the farmer's orders is answered |
| FarmerController.PerformanceInputs | controllers/farmerController.js:387-392 | fulfillment is FulfillmentRate (in [0, 100]); the rating is SatisfactionRating over feedback on the farmer's products; the response time is ResponseHours or 24 through `||`; growth is GrowthRate of the weekly sales |
| FarmerController.OverallScore | controllers/farmerController.js:394-399 | within 0.05 of 0.3 fulfillment + 0.3 (20 rating) + 0.2 (24 - min(response, 24)) + 0.2 growth, and on the one-decimal grid |
| FarmerController.WeightedScoreBounds | controllers/farmerController.js:394-398 | for figures in range, the unrounded weighted sum lies between 0.2 growth and 64.8 + 0.2 growth, so without growth a farmer is at best AVERAGE |
| FarmerController.ResponseTermBounds | controllers/farmerController.js:397 | the response term always lies in [0, 4.8] |
| FarmerController.OverallScoreMonotone | controllers/farmerController.js:394-399 | better fulfillment, rating, growth or a faster response never lowers the overall score |
| FarmerController.DefaultFiguresPerformance | controllers/farmerController.js:388-399 | a farmer without data (fulfillment 0, rating 0, response 24) scores 0.0 and is POOR |
| FarmerController.DefaultFiguresAdvice | controllers/farmerController.js:433-469 | a farmer without data gets the fulfillment, satisfaction and response-time advice, and no sales advice |
| FarmerController.OverallScoreUnbounded | controllers/farmerController.js:394-399 | the score is not capped at 100: growth 1000 alone gives 200.0 |
| FarmerController.PerformanceMetrics | controllers/farmerController.js:386-408 | from the orders, the feedback, the products and the weekly sales: the metrics are PerformanceInputs, with their overall score, that score's level and the triggered recommendations |
| RecommendationController.PriceTrend | controllers/recommendationController.js:139-142 | 1.0 iff the product has at least one order item, 0.5 iff it has none |
| RecommendationController.DemandScore | controllers/recommendationController.js:154-159 | with a price trend of at least 0.5, the score is never below 0.15 |
| RecommendationController.DemandFloor | controllers/recommendationController.js:154-159 | ROUND(_, 2) keeps a value of at least 0.15 at least 0.15 |
| RecommendationController.ReportedWeightsAreUsed | controllers/recommendationController.js:154-172 | the score is round2 of the reported weights 0.4/0.3/0.3 applied to its three inputs, and the weights sum to 1.0 |
| RecommendationController.DemandScoreMonotone | controllers/recommendationController.js:154-159 | more views, a higher trend or more unmet demand never lower the score |
| RecommendationController.DemandScoreExamples | controllers/recommendationController.js:154-159 | (10, 1.0, 2) gives 4.90; a product with no views and no orders gives 0.15, not 0 |
| RecommendationController.UnmetDemand | controllers/recommendationController.js:143 | the PENDING item count never exceeds the product's purchase count |
| RecommendationController.UnmetDemandAsWritten | controllers/recommendationController.js:143-147 | the count the query returns (each PENDING item once per view row) is never below the PENDING item count, and equals it when the product has at most one view |
| RecommendationController.UnmetDemandFanOut | controllers/recommendationController.js:143-147 | the query as written never undercounts, and equals the true count iff the product has at most one view or nothing is pending |
| RecommendationController.UnmetDemandCounterexample | controllers/recommendationController.js:143-147 | one pending item and two viewers: counted as 2 where there is 1 |
| RecommendationController.DemandMetrics | controllers/recommendationController.js:133-159 | a product's row carries its view count, the price trend of its purchase count, its PENDING item count (the intended count, see Findings) and the score of those three, which is at least 0.15 |
| RecommendationController.DemandRows | controllers/recommendationController.js:145-149 | exactly the farmer's AVAILABLE products, one row each (the row count is the number of such products), each with its own metrics (intended unmet count) |
| RecommendationController.DemandAnalysis | controllers/recommendationController.js:133-161 | exactly the farmer's AVAILABLE products, one row each (row count equals their number), with their metrics (intended unmet count), highest demand first |
| RecommendationController.ViewedBy | controllers/recommendationController.js:58-62 | exactly the products the customer viewed, one row per viewed product (the row count is their number), each with that view's viewed_at |
| RecommendationController.RecentlyViewed | controllers/recommendationController.js:58-65 | min(10, views) of the customer's views, each a distinct one of them, newest first; all of them when there are at most 10 |
| RecommendationController.RecentlyViewedNewestFirst | controllers/recommendationController.js:63-64 | no view left out is newer than one kept |
| RecommendationController.SimilarCandidates | controllers/recommendationController.js:68-81 | exactly the AVAILABLE products in a viewed category that the customer has not viewed and whose farmer has a farmers row, one row each |
| RecommendationController.SimilarSelectionProperties | controllers/recommendationController.js:68-84 | any random pick of at most 5 candidates is AVAILABLE, in a viewed category, not yet viewed and of a farmer with a farmers row |
| RecommendationController.SimilarSelectionExists | controllers/recommendationController.js:82-83 | a valid pick always exists, so the relational specification is satisfiable |
| RecommendationController.TrendCandidates | controllers/recommendationController.js:87-99 | exactly the AVAILABLE products of farmers with a farmers row viewed since the cut-off, one row each, with its views since the cut-off and its purchases of all time |
| RecommendationController.Trending | controllers/recommendationController.js:87-102 | min(5, candidates) of the recently active products, each a distinct candidate, in descending 0.6 views + 0.4 purchases |
| RecommendationController.TrendingKeepsBest | controllers/recommendationController.js:100-101 | no product left out scores higher than one kept |
| RecommendationModel.CopiesMean | models/recommendationModel.js:14-20 | repeating every rating the same number of times (the join fan-out) does not change their mean |
| RecommendationModel.InsightAverageAsQueried | models/recommendationModel.js:14-20 | the avg_rating of the joined rows equals the plain average of the product's ratings, 0 without feedback |
| RecommendationModel.CategoryTrend | models/recommendationModel.js:24-34 | a category has figures iff some AVAILABLE product is listed in it; then the listings count those products, the average price is their price sum over that count, and the farmer count is the number of distinct farmers, between 1 and the listings |
| RecommendationModel.CategoryTrendIgnoresUnavailable | models/recommendationModel.js:32 | adding a product that is not AVAILABLE leaves every category's figures unchanged |
| RecommendationModel.Listed | models/recommendationModel.js:31-32 | exactly the AVAILABLE products of the category, one entry per product row |
| RecommendationModel.DistinctFarmers | models/recommendationModel.js:30 | COUNT(DISTINCT farmer_id) of a list is the size of the set of its farmer ids |
| RecommendationModel.UnmetDemand | models/recommendationModel.js:15-19 | the PENDING or NO_STOCK item count never exceeds the purchase count |
| RecommendationModel.UnmetDemandSplits | models/recommendationModel.js:15-19 | unmet demand is the PENDING items plus the NO_STOCK items, and no other status counts |
| RecommendationModel.UnmetDemandAsWritten | models/recommendationModel.js:15-20 | the sum the query returns (each unmet item once per view and rating row pair) is never below the PENDING or NO_STOCK item count |
| RecommendationModel.UnmetDemandAsWrittenFanOut | models/recommendationModel.js:15-20 | the query as written never undercounts, and is exact iff the product has at most one view and at most one rating, or nothing is unmet |
| RecommendationModel.UnmetDemandAsWrittenCounterexample | models/recommendationModel.js:15-20 | one pending item, one view and two ratings: counted as 2 where there is 1 |
| RecommendationModel.FanOut | models/recommendationModel.js:15-20 | u rows repeated by two joins of widths v, f >= 1 never shrink, and stay u rows iff neither join repeats or u is 0 |
| RecommendationModel.MarketDemandScore | models/recommendationModel.js:39-45 | non-negative for a non-negative rating |
| RecommendationModel.MarketDemandScoreMonotone | models/recommendationModel.js:39-45 | more views, purchases, rating or unmet demand never lower the score |
| RecommendationModel.MarketDemandScoreExamples | models/recommendationModel.js:39-45 | no activity scores 0; (10 views, 4 purchases, 4.5, 1 unmet) scores 5.60 |
| RecommendationModel.InsightMarketFigures | models/recommendationModel.js:37-47 | market price is NULL iff no AVAILABLE product is in the category; otherwise it is the AVG price of those products, and competition is their number of distinct farmers, at least 1 |
| RecommendationModel.InsightOf | models/recommendationModel.js:7-47 | a product's row carries its view and purchase counts, its mean rating (0 without feedback), its PENDING or NO_STOCK item count (the intended count, see Findings) within the purchases, and market figures that are both present or both NULL |
| RecommendationModel.InsightRows | models/recommendationModel.js:7-23 | one row per product of the farmer, each carrying its own figures (intended unmet count) |
| RecommendationModel.MarketInsights | models/recommendationModel.js:4-51 | one row per product of the farmer with its own figures (intended unmet count) and its category's, highest demand score first |
| RecommendationModel.AvailableProducts | models/recommendationModel.js:72 | exactly the AVAILABLE products |
| RecommendationModel.Popularity | models/recommendationModel.js:62-67 | non-negative for a non-negative rating |
| RecommendationModel.PopularityMonotone | models/recommendationModel.js:62-67 | more viewers, purchases or rating never lower the popularity |
| RecommendationModel.PopularityExample | models/recommendationModel.js:62-67 | (3 viewers, 2 purchases, 4.5) scores 2.65 |
| RecommendationModel.GroupRatings | models/recommendationModel.js:61 | the ratings averaged for a (category, name) group: a value is present iff some AVAILABLE product of the group has feedback with that rating (each repeated once per view and item row, as the joins produce) |
| RecommendationModel.PreferenceOf | models/recommendationModel.js:56-73 | a group's row carries its key; unique_viewers is the number of distinct customers who viewed one of its products (positive iff some view matches); total_purchases is the number of order items of its products; avg_rating averages GroupRatings |
| RecommendationModel.PreferenceCandidates | models/recommendationModel.js:56-74 | every group of AVAILABLE products by (category, name) with a viewer is in, and only those, each exactly once, with its own figures |
| RecommendationModel.PreferenceRowsDistinct | models/recommendationModel.js:71-73 | GROUP BY gives distinct keys distinct rows, since each row carries its (category, name) |
| RecommendationModel.CustomerPreferences | models/recommendationModel.js:53-79 | at most 10 groups, exactly 10 when there are that many, all of them when there are fewer; each one of the viewed groups, none twice; most popular first |
| RecommendationModel.PreferencesHaveViewers | models/recommendationModel.js:74 | every group returned has at least one viewer (HAVING COUNT(DISTINCT customer) > 0) |
| RecommendationModel.PreferencesKeepMostPopular | models/recommendationModel.js:75-76 | no group left out by LIMIT 10 is more popular than one kept |
| RecommendationModel.NextMonth | models/recommendationModel.js:99 | the next month is in 1..12: m + 1 before December, 1 in December |
| RecommendationModel.KeysInWindow | models/recommendationModel.js:94 | a group is kept iff its harvest month is in the window |
| RecommendationModel.SeasonalCandidates | models/recommendationModel.js:85-94 | every (category, month) group of harvested AVAILABLE products in the window is in, and only those, each with at least one listing |
| RecommendationModel.SeasonalGroups | models/recommendationModel.js:85-95 | the groups in the window, most listings first |
| RecommendationModel.DecemberWindowEmpty | models/recommendationModel.js:94-99 | as written, December's BETWEEN 12 AND 1 selects nothing, whatever the products |
| RecommendationModel.SeasonalAsWritten | models/recommendationModel.js:84-99 | as written: every group whose harvest month lies in BETWEEN m AND (m % 12) + 1, and only those, each once and as its own row, most listings first |
| RecommendationModel.Seasonal | models/recommendationModel.js:81-100 | exactly the groups harvested in the current or the next month, each once and each the group's own row (listings and price), most listings first, including December to January |
| RecommendationModel.SeasonalAgreesBeforeDecember | models/recommendationModel.js:94-99 | for January to November the query as written returns exactly the intended groups |
| RecommendationModel.DecemberCounterexample | models/recommendationModel.js:94-99 | a mango harvested in January is missed in December as written, and shown by the intended window |
| ProductModel.Upsert | models/productModel.js:81-89 | afterwards the pair has exactly one row with the new timestamp; an existing row keeps its view_id; every other pair is unchanged |
| ProductModel.UpsertViewCount | models/productModel.js:81-89 | a product's view count grows by 1 on a customer's first view and not on later ones; other products' counts do not move |
| ProductModel.UpsertTwice | models/productModel.js:85-86 | recording the same view twice leaves one row with the first view_id and the last timestamp |
| ProductModel.ProductStore.RecordProductView | models/productModel.js:81-89 | the views table becomes the upsert of the pair with the drawn view_id; the serial advances on every call, also when the pair exists; products do not change; the store stays valid |
| ProductModel.SoftDelete | models/productModel.js:76-79 | every row is kept; the deleted product's row only turns UNAVAILABLE; all other rows are unchanged |
| ProductModel.ProductStore.Delete | models/productModel.js:76-79 | the products table becomes its soft delete; the views do not change |
| ProductModel.FindByFarmer | models/productModel.js:14-17 | exactly the farmer's AVAILABLE products, one row each (row count equals their number), newest first |
| ProductModel.DeletedLeavesCatalogue | models/productModel.js:76-79 | after a soft delete, the product is in no farmer's catalogue |
| ProductModel.BuildListingQuery | models/productModel.js:38-63 | placeholders run $1..$k with k the value count; the WHERE clause selects a listing iff every present filter holds |
| ProductModel.ListingClausesMeaning | models/productModel.js:41-63 | category and barangay are equality filters; min and max price are inclusive bounds; an absent filter constrains nothing |
| ProductModel.Joined | models/productModel.js:32-35 | a product appears with its farmer's barangay exactly when the farmer has a user row |
| ProductModel.JoinedListingCount | models/productModel.js:30-67 | filtering the joined rows leaves exactly one row per AVAILABLE, joining product that passes the filters |
| ProductModel.ListProducts | models/productModel.js:30-67 | exactly the AVAILABLE products whose farmer has a user row, each with that farmer's barangay, that pass the filters, one row per such product, newest first |
| ProductModel.BuildUpdate | models/productModel.js:69-74 | an error iff updateData is empty (an empty SET list) |
| ProductModel.UpdatePlaceholders | models/productModel.js:70-73 | $1 is the product id; the i-th key is bound to $(i+2), which holds that key's value |
| ProductModel.ExecuteUpdate | models/productModel.js:70-73 | the database rejects the statement iff a SET column is not a products column or is assigned twice (an unknown column reported as such) |
| ProductModel.UpdateMeansData | models/productModel.js:70-73 | the statement is rejected iff some key of updateData is not a products column (or repeats); otherwise executing it sets every key to its own value |
| Query.PushCondition | controllers/farmerController.js:206-219 | appending a condition and its value leaves the earlier conditions' meaning unchanged |
| Query.AppendClause | models/productModel.js:41-63 | an absent filter adds nothing; a present one adds one condition with the next placeholder and one value; the WHERE clause then means the first n + 1 filters |
| Query.Push | models/productModel.js:42-44 | one condition and one value are appended, keeping placeholders consecutive with the value count |
| Tables.MeanOrZero | models/recommendationModel.js:14 | COALESCE(AVG(rating), 0): 0 with no rating, in [1, 5] for 1..5 star ratings |
| Tables.ItemsInStatusWithinPurchases | models/recommendationModel.js:13-15 | items counted in any status set are among the product's purchases |
| Tables.JoinWidth | models/recommendationModel.js:17-20 | a LEFT JOIN yields at least one row per product, and exactly n rows when n match |
| Tables.Repeated | models/recommendationModel.js:17-20 | repeated rows outnumber the originals unless nothing is repeated or there is nothing to repeat |
| Numeric.HalfAway | models/recommendationModel.js:39-45 | the nearest integer, with a tie going away from zero |
| Numeric.Round2 | models/recommendationModel.js:39-45 | ROUND(x, 2) is within 0.005 of x, on the two-decimal grid, and non-negative for non-negative x |
| Numeric.Round1 | controllers/farmerController.js:399 | toFixed(1) is within 0.05 of x, on the one-decimal grid, and non-negative for non-negative x |
| Numeric.Round2OnGrid | models/recommendationModel.js:39-45 | a value that already has two decimals is left unchanged |
| Numeric.Round1OnGrid | controllers/farmerController.js:399 | a value that already has one decimal is left unchanged |
| Numeric.Round2Monotone | models/recommendationModel.js:48 | rounding never reverses the order of two scores |
| Numeric.Round1Monotone | controllers/farmerController.js:399 | rounding never reverses the order of two scores |
| Ranking.SortDesc | models/recommendationModel.js:48 | ORDER BY DESC gives a descending permutation of the rows that keeps the order of equal keys |
| Ranking.TopN | models/recommendationModel.js:75-76 | ORDER BY DESC LIMIT n gives min(n, rows) rows, descending, taken from the input; all of them when there are at most n |
| Ranking.TopNCutsLowest | models/recommendationModel.js:75-76 | no row that LIMIT cut off ranks above a row it kept |

## Left out

- `controllers/authController.js` and `controllers/productController.js` are not part of this model. They hold password hashing, token signing and HTTP glue over the product model.
- The dashboard and profile-update handlers (controllers/farmerController.js:5-100) are not modelled. They are SQL pass-through with no scoring logic.
- HTTP is not modelled:
  - request parsing;
  - the 403 "not a registered farmer" checks;
  - the 500 error responses;
  - the JSON response shapes.
- The `db` client is not modelled. Both controllers use it without importing it. Every query is modelled by its meaning over in-memory tables.
- The performance handler calls the helpers through `this.` (controllers/farmerController.js:391,406,408), which does not reach the module's helpers at run time. The model calls them as plain functions.
- Concurrency is not modelled: `Promise.all` and concurrent upserts. Each request is one sequential computation.
- `ORDER BY RANDOM()` in the similar-products query is not modelled as a choice. RecommendationController.SimilarSelectionProperties specifies any pick by membership and size only.
- Clock readings are parameters:
  - `CURRENT_DATE - INTERVAL '7 days'` is `since`;
  - `CURRENT_TIMESTAMP` is `now`;
  - `new Date().getMonth() + 1` is the month `m`.
- IEEE floating point is not modelled: `parseFloat`, `parseInt` and the string `toFixed` returns. Values are exact reals, and rounding is one explicit step.
- The grouped sales-report queries, the weekly sales_trend buckets (DATE_TRUNC) and the top_products query are not modelled. Their result rows are inputs to the summaries and the growth rate.
- FarmerController.Inventory: returns rows in table order. The interpolated `ORDER BY ${sortBy} ${sortOrder}` is not modelled.
- The reviews list's `ORDER BY f.created_at DESC` is not modelled. The model keeps the WHERE clause it builds and the rating statistics.
- `create` and `findById` of the product model are not modelled. They are single-row SQL pass-through.
- Ranking.SortDesc: rows with equal scores keep their input order. SQL leaves that order unspecified, so the model fixes one admissible order.
- FarmerController.ResponseHours: the average response is over answered orders in table order. EXTRACT(EPOCH ...) is seconds on the model's one clock.
- FarmerController.OverallScore: is not capped at 100, as in the source (see OverallScoreUnbounded); the level bands take that score as is.
- FarmerController.Advice: recommendation texts are fixed per area and are not compared character by character.
- RecommendationModel.PreferenceCandidates: the average rating of a group is taken, as written, over the join's repeated rating rows (GroupRatings); its bounds are not stated separately.
- RecommendationController.DemandAnalysis: the rows (DemandRows, DemandMetrics) carry the intended PENDING item count and the demand_score computed from it. The query as written returns the fan-out count of controllers/recommendationController.js:143-147, which is RecommendationController.UnmetDemandAsWritten. The two agree when the product has at most one view (see Findings).
- RecommendationModel.MarketInsights: the rows (InsightRows, InsightOf) carry the intended PENDING or NO_STOCK item count and the demand_score computed from it. The query as written returns the fan-out sum of models/recommendationModel.js:15-20, which is RecommendationModel.UnmetDemandAsWritten. The two agree when there is at most one view and at most one rating (see Findings).
- FarmerController.PerformanceInputs: the response time is read through `||` as a number, so an average of exactly 0 hours becomes 24. A driver that returns EXTRACT's numeric result as text (PostgreSQL 14 and later with node-postgres) yields the truthy "0.000000", which keeps 0; the model follows the numeric reading.
- The similar-products query (controllers/recommendationController.js:69-83) combines SELECT DISTINCT with ORDER BY RANDOM(), which PostgreSQL rejects because an ORDER BY expression of a SELECT DISTINCT must appear in the select list. RecommendationController.SimilarSelectionProperties gives the intended result: any pick of up to 5 candidates, as many as there are when fewer.
- The trending query orders by `(view_count * 0.6 + purchase_count * 0.4)` (controllers/recommendationController.js:100). PostgreSQL resolves output-column names only as a bare ORDER BY item, not inside an expression, so as written the query fails unless the joined tables have such columns. RecommendationController.Trending gives the intended order.
- ProductModel.UpdateMeansData: the keys of updateData are interpolated into the SQL text unchecked (the product handler passes the request body as is). The model treats each key as a column name: an unknown column is rejected (ExecuteUpdate), but a key that carries SQL text of its own, which changes the statement, is not modelled.
- RecommendationController.SimilarCandidates and RecommendationController.Trending: the `f.farm_name` column that the JOIN with farmers adds to each row is not carried; the join's effect on which products appear is modelled by the set of farmer ids.
- ProductModel.ProductStore.RecordProductView: the CUSTOMER-role check of the calling handler is not modelled; any customer id is accepted.

## Findings

| source | as written | input that shows it | evidently intended | confidence | as-written member | corrected member |
|---|---|---|---|---|---|---|
| controllers/recommendationController.js:143-147 | unmet demand is a COUNT of the PENDING rows of a LEFT JOIN with product_views, so each pending item is counted once per view | one PENDING order item and two customers who viewed the product: unmet_demand 2 instead of 1 | count each PENDING item of the product once | not executed | RecommendationController.UnmetDemandCounterexample | RecommendationController.UnmetDemand |
| models/recommendationModel.js:15-20 | unmet demand is a SUM over the rows of LEFT JOINs with product_views and feedback, so each unmet item is counted once per view and rating pair | one PENDING order item, one view and two ratings: unmet_demand 2 instead of 1 | count each PENDING or NO_STOCK item once | not executed | RecommendationModel.UnmetDemandAsWrittenCounterexample | RecommendationModel.UnmetDemand |
| models/recommendationModel.js:94-99 | the window is `BETWEEN m AND (m % 12) + 1`, which is `BETWEEN 12 AND 1` in December and selects nothing | month 12 and an AVAILABLE product harvested in January: no row | harvests of the current month or the next, December then January | not executed | RecommendationModel.DecemberCounterexample | RecommendationModel.Seasonal |
