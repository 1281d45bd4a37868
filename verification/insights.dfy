/** The recommendation store's three read queries
    (models/recommendationModel.js): the market insights of a farmer's
    products, the customers' preferred product groups, and the listings of
    the current and the next harvest month.

    Each query is modelled over the in-memory tables. Where the query's LEFT
    JOINs repeat rows, the model states what the repetition does to each
    aggregate: COUNT(DISTINCT ...) is unaffected, AVG over a uniformly
    repeated product is unaffected, and SUM is multiplied. */
module RecommendationModel {
  import opened Numeric
  import opened Seqs
  import opened Ranking
  import opened Tables

  // Rows repeated by the joins

  /** w copies of xs, one after the other: the ratings of a product as its
      joined rows carry them. */
  function Copies(xs: seq<int>, w: nat): seq<int>
  {
    if w == 0 then [] else xs + Copies(xs, w - 1)
  }

  lemma {:induction false} SumIntsAppend(a: seq<int>, b: seq<int>)
    ensures SumInts(a + b) == SumInts(a) + SumInts(b)
  {
    if a == [] {
      assert a + b == b;
    } else {
      assert (a + b)[0] == a[0];
      assert (a + b)[1..] == a[1..] + b;
      SumIntsAppend(a[1..], b);
    }
  }

  /** w copies hold w times the rows and w times their total. */
  lemma {:induction false} CopiesTotals(xs: seq<int>, w: nat)
    ensures |Copies(xs, w)| == w * |xs|
    ensures SumInts(Copies(xs, w)) == w * SumInts(xs)
  {
    if w > 0 {
      CopiesTotals(xs, w - 1);
      SumIntsAppend(xs, Copies(xs, w - 1));
      assert w * |xs| == |xs| + (w - 1) * |xs|;
      assert w * SumInts(xs) == SumInts(xs) + (w - 1) * SumInts(xs);
    }
  }

  /** Scaling a total and its row count alike leaves the quotient unchanged. */
  lemma ScaledQuotient(total: real, n: real, w: real, scaledTotal: real, scaledN: real)
    requires n > 0.0 && w > 0.0
    requires scaledTotal == w * total && scaledN == w * n
    ensures scaledTotal / scaledN == total / n
  {
    var q := total / n;
    var r := scaledTotal / scaledN;
    assert q * n == total;
    assert r * scaledN == scaledTotal;
    assert (r - q) * (w * n) == 0.0;
    assert w * n > 0.0;
  }

  /** Repeating every rating the same number of times leaves AVG unchanged. */
  lemma CopiesMean(xs: seq<int>, w: nat)
    requires w >= 1
    ensures MeanOrZero(Copies(xs, w)) == MeanOrZero(xs)
  {
    if xs == [] {
      CopiesTotals(xs, w);
    } else {
      CopiesNonEmpty(xs, w);
      MeanOfRows(xs);
      MeanOfRows(Copies(xs, w));
      CopiesQuotient(xs, w);
    }
  }

  /** Total over count is the same for w copies as for one. */
  lemma CopiesQuotient(xs: seq<int>, w: nat)
    requires w >= 1 && xs != []
    ensures SumInts(Copies(xs, w)) as real / |Copies(xs, w)| as real == SumInts(xs) as real / |xs| as real
  {
    CopiesTotals(xs, w);
    ScaledMean(SumInts(xs), |xs|, w, SumInts(Copies(xs, w)), |Copies(xs, w)|);
  }

  /** The same for whole totals and counts, read as reals. */
  lemma ScaledMean(total: int, n: int, w: int, scaledTotal: int, scaledN: int)
    requires n > 0 && w > 0
    requires scaledTotal == w * total && scaledN == w * n
    ensures scaledTotal as real / scaledN as real == total as real / n as real
  {
    assert scaledTotal as real == w as real * total as real;
    assert scaledN as real == w as real * n as real;
    ScaledQuotient(total as real, n as real, w as real, scaledTotal as real, scaledN as real);
  }

  /** At least one copy of some ratings holds a rating. */
  lemma CopiesNonEmpty(xs: seq<int>, w: nat)
    requires w >= 1 && xs != []
    ensures Copies(xs, w) != []
  {
    assert Copies(xs, w) == xs + Copies(xs, w - 1);
  }

  /** AVG over at least one rating is the total over the count. */
  lemma MeanOfRows(xs: seq<int>)
    requires xs != []
    ensures MeanOrZero(xs) == SumInts(xs) as real / |xs| as real
  {
  }

  /** The number of joined rows that carry each rating of a product: one per
      view row times one per order-item row (a single NULL row when there are
      none). */
  function RowWidth(views: Views, items: seq<OrderItem>, productId: nat): nat
  {
    JoinWidth(ViewCount(views, productId)) * JoinWidth(PurchaseCount(items, productId))
  }

  // getMarketInsights: market_trends

  /** A category's figures over the AVAILABLE listings. */
  datatype MarketTrend = MarketTrend(avgPrice: real, totalListings: nat, totalAvailable: int, farmersCount: nat)

  predicate ListedIn(p: Product, category: string)
  {
    p.status == Available && p.category == category
  }

  function Price(p: Product): real { p.price }
  function FarmerOf(p: Product): int { p.farmerId }

  /** The category's AVAILABLE listings, in table order. */
  function Listed(products: seq<Product>, category: string): (r: seq<Product>)
    ensures forall p :: p in r <==> p in products && ListedIn(p, category)
    ensures |r| == Count(products, (p: Product) => ListedIn(p, category))
  {
    FilterMembers(products, (p: Product) => ListedIn(p, category));
    Filter(products, (p: Product) => ListedIn(p, category))
  }

  /** A category has no listing exactly when no product is listed in it. */
  lemma NoneListed(products: seq<Product>, category: string)
    ensures Listed(products, category) == [] <==> forall i :: 0 <= i < |products| ==> !ListedIn(products[i], category)
  {
    var listed := Listed(products, category);
    if listed != [] {
      assert listed[0] in listed;
    }
    forall i | 0 <= i < |products| && ListedIn(products[i], category) ensures listed != [] {
      assert products[i] in listed;
    }
  }

  /** COUNT(DISTINCT farmer_id) over the listings. */
  lemma DistinctFarmers(listed: seq<Product>)
    ensures |DistinctKeys(listed, FarmerOf)| == |set p | p in listed :: FarmerOf(p)|
  {
    var r := DistinctKeys(listed, FarmerOf);
    var farmers := set p | p in listed :: FarmerOf(p);
    var ks := set k | k in r;
    assert farmers == ks by {
      forall k | k in r ensures k in (set p | p in listed :: FarmerOf(p)) {
        var j :| 0 <= j < |r| && r[j] == k;
        var i :| 0 <= i < |listed| && FarmerOf(listed[i]) == r[j];
        assert listed[i] in listed;
      }
      forall p | p in listed ensures FarmerOf(p) in r {
        var i :| 0 <= i < |listed| && listed[i] == p;
      }
    }
    DistinctCard(r);
    assert |ks| == |r|;
  }

  /** The market_trends row of one category, None when it has no AVAILABLE
      listing (the LEFT JOIN then yields NULL market figures). */
  function CategoryTrend(products: seq<Product>, category: string): (t: Option<MarketTrend>)
    ensures t.None? <==> forall i :: 0 <= i < |products| ==> !ListedIn(products[i], category)
    ensures t.Some? ==> t.value.totalListings == Count(products, (p: Product) => ListedIn(p, category))
    ensures t.Some? ==> t.value.avgPrice == Sum(Listed(products, category), Price) / t.value.totalListings as real
    ensures t.Some? ==> t.value.farmersCount == |set p | p in Listed(products, category) :: FarmerOf(p)|
    ensures t.Some? ==> 1 <= t.value.farmersCount <= t.value.totalListings
  {
    var listed := Listed(products, category);
    NoneListed(products, category);
    if listed == [] then None
    else
      var farmers := DistinctKeys(listed, FarmerOf);
      assert listed[0].farmerId in farmers;
      DistinctFarmers(listed);
      Some(MarketTrend(Sum(listed, Price) / |listed| as real, |listed|,
        SumInt(listed, (p: Product) => p.quantity), |farmers|))
  }

  /** A listing that is not AVAILABLE changes no category's figures. */
  lemma CategoryTrendIgnoresUnavailable(products: seq<Product>, p: Product, category: string)
    requires p.status != Available
    ensures CategoryTrend(products + [p], category) == CategoryTrend(products, category)
  {
    var listedIn := (q: Product) => ListedIn(q, category);
    FilterAppend(products, [p], listedIn);
    assert [p][1..] == [];
    assert Filter([p], listedIn) == [];
    assert Filter(products + [p], listedIn) == Filter(products, listedIn);
  }

  // getMarketInsights: product_analysis and the score

  /** The order statuses that count as unmet demand. */
  const UnmetStatuses: set<OrderStatus> := {Pending, NoStock}

  /** The unmet demand the score means: the product's order items whose order
      is PENDING or NO_STOCK. */
  function UnmetDemand(items: seq<OrderItem>, orders: seq<Order>, productId: nat): (n: nat)
    ensures n <= PurchaseCount(items, productId)
  {
    ItemsInStatusWithinPurchases(items, orders, productId, UnmetStatuses);
    ItemsInStatus(items, orders, productId, UnmetStatuses)
  }

  /** Unmet demand is the PENDING items plus the NO_STOCK items. */
  lemma {:induction false} UnmetDemandSplits(items: seq<OrderItem>, orders: seq<Order>, productId: nat)
    ensures UnmetDemand(items, orders, productId)
      == ItemsInStatus(items, orders, productId, {Pending}) + ItemsInStatus(items, orders, productId, {NoStock})
  {
    if items != [] {
      CountCons(items, (it: OrderItem) => it.productId == productId && InStatus(StatusOf(orders, it.orderId), UnmetStatuses));
      CountCons(items, (it: OrderItem) => it.productId == productId && InStatus(StatusOf(orders, it.orderId), {Pending}));
      CountCons(items, (it: OrderItem) => it.productId == productId && InStatus(StatusOf(orders, it.orderId), {NoStock}));
      UnmetDemandSplits(items[1..], orders, productId);
    }
  }

  /** SUM(CASE ... IN ('PENDING', 'NO_STOCK') THEN 1 ...) as written: every
      unmet item row is repeated once per view row and once per feedback row
      of the product. */
  function UnmetDemandAsWritten(views: Views, items: seq<OrderItem>, orders: seq<Order>, feedback: seq<Feedback>,
                                productId: nat): (n: nat)
    ensures n >= ItemsInStatus(items, orders, productId, UnmetStatuses)
  {
    FanOut(JoinWidth(ViewCount(views, productId)), JoinWidth(|RatingsOf(feedback, productId)|),
      ItemsInStatus(items, orders, productId, UnmetStatuses));
    JoinWidth(ViewCount(views, productId)) * JoinWidth(|RatingsOf(feedback, productId)|)
      * ItemsInStatus(items, orders, productId, UnmetStatuses)
  }

  /** The sum as written overcounts unless the product has at most one view
      and at most one review, or no unmet demand. */
  lemma UnmetDemandAsWrittenFanOut(views: Views, items: seq<OrderItem>, orders: seq<Order>, feedback: seq<Feedback>,
                                   productId: nat)
    ensures UnmetDemandAsWritten(views, items, orders, feedback, productId) >= UnmetDemand(items, orders, productId)
    ensures UnmetDemandAsWritten(views, items, orders, feedback, productId) == UnmetDemand(items, orders, productId)
      <==> (ViewCount(views, productId) <= 1 && |RatingsOf(feedback, productId)| <= 1)
           || UnmetDemand(items, orders, productId) == 0
  {
    var v := JoinWidth(ViewCount(views, productId));
    var f := JoinWidth(|RatingsOf(feedback, productId)|);
    var u := UnmetDemand(items, orders, productId);
    FanOut(v, f, u);
    assert v == 1 <==> ViewCount(views, productId) <= 1;
    assert f == 1 <==> |RatingsOf(feedback, productId)| <= 1;
  }

  /** Each of u rows repeated v times by one join and f times by another:
      never fewer than u, and exactly u only when neither join repeats or
      there is nothing to repeat. */
  lemma FanOut(v: nat, f: nat, u: nat)
    requires v >= 1 && f >= 1
    ensures (v * f) * u >= u
    ensures (v * f) * u == u <==> (v == 1 && f == 1) || u == 0
  {
    Repeated(v, f);
    Repeated(v * f, u);
    assert v * f == 1 <==> v == 1 && f == 1;
  }

  /** One pending order of product 1, with one view and two reviews: the
      query as written reports 2 unmet orders where there is 1. */
  lemma UnmetDemandAsWrittenCounterexample()
    ensures UnmetDemandAsWritten(map[ViewKey(1, 1) := ViewEntry(1, 0)], [OrderItem(1, 1, 1, 1, 10.0)],
      [Order(1, 1, Pending, 0, None, 10.0)], [Feedback(1, 1, 1, 5, 0), Feedback(2, 1, 2, 4, 0)], 1) == 2
    ensures UnmetDemand([OrderItem(1, 1, 1, 1, 10.0)], [Order(1, 1, Pending, 0, None, 10.0)], 1) == 1
  {
    var views := map[ViewKey(1, 1) := ViewEntry(1, 0)];
    assert (set k | k in views && k.productId == 1) == {ViewKey(1, 1)};
    var feedback := [Feedback(1, 1, 1, 5, 0), Feedback(2, 1, 2, 4, 0)];
    assert RatingsOf(feedback, 1) == [5, 4] by {
      assert feedback[1..] == [Feedback(2, 1, 2, 4, 0)];
      assert feedback[1..][1..] == [];
    }
    var items := [OrderItem(1, 1, 1, 1, 10.0)];
    var orders := [Order(1, 1, Pending, 0, None, 10.0)];
    assert StatusOf(orders, 1) == Some(Pending);
    assert ItemsInStatus(items, orders, 1, UnmetStatuses) == 1 by {
      CountCons(items, (it: OrderItem) => it.productId == 1 && InStatus(StatusOf(orders, it.orderId), UnmetStatuses));
    }
  }

  /** The market demand score: 0.3 per view, 0.4 per purchase, 0.2 times the
      average rating and 0.1 per unmet order, rounded to two decimals. */
  function MarketDemandScore(views: nat, purchases: nat, avgRating: real, unmet: nat): (s: real)
    ensures avgRating >= 0.0 ==> s >= 0.0
  {
    Round2(views as real * 0.3 + purchases as real * 0.4 + avgRating * 0.2 + unmet as real * 0.1)
  }

  /** More views, purchases, rating or unmet demand never lower the score. */
  lemma MarketDemandScoreMonotone(v1: nat, p1: nat, a1: real, u1: nat, v2: nat, p2: nat, a2: real, u2: nat)
    requires v1 <= v2 && p1 <= p2 && a1 <= a2 && u1 <= u2
    ensures MarketDemandScore(v1, p1, a1, u1) <= MarketDemandScore(v2, p2, a2, u2)
  {
    Round2Monotone(v1 as real * 0.3 + p1 as real * 0.4 + a1 * 0.2 + u1 as real * 0.1,
                   v2 as real * 0.3 + p2 as real * 0.4 + a2 * 0.2 + u2 as real * 0.1);
  }

  /** A product nobody viewed, bought or rated scores 0; ten views, four
      purchases, an average of 4.5 and one unmet order score 5.60. */
  lemma MarketDemandScoreExamples()
    ensures MarketDemandScore(0, 0, 0.0, 0) == 0.0
    ensures MarketDemandScore(10, 4, 4.5, 1) == 5.6
  {
    Round2OnGrid(0);
    Round2OnGrid(560);
    assert 5.6 == 560 as real / 100.0;
  }

  /** One row of the market insights; demand_score is derived from the row's
      other columns. */
  datatype Insight = Insight(
    product: Product,
    viewCount: nat,
    purchaseCount: nat,
    avgRating: real,
    unmetDemand: nat,
    marketAvgPrice: Option<real>,
    marketCompetition: Option<nat>)
  {
    function DemandScore(): real
    {
      MarketDemandScore(viewCount, purchaseCount, avgRating, unmetDemand)
    }
  }

  function DemandScoreOf(i: Insight): real { i.DemandScore() }

  /** The insight of one product: its own counts (distinct views, distinct
      order items, the mean rating, which the join's repetition leaves
      unchanged, and the intended unmet count), and the figures of its
      category joined by category name. */
  function InsightOf(products: seq<Product>, views: Views, items: seq<OrderItem>, orders: seq<Order>,
                     feedback: seq<Feedback>, p: Product): (r: Insight)
    ensures r.product == p
    ensures r.viewCount == ViewCount(views, p.productId)
    ensures r.purchaseCount == PurchaseCount(items, p.productId)
    ensures r.avgRating == MeanOrZero(RatingsOf(feedback, p.productId))
    ensures r.unmetDemand == UnmetDemand(items, orders, p.productId) <= r.purchaseCount
    ensures r.marketAvgPrice.None? <==> r.marketCompetition.None?
  {
    var v := ViewCount(views, p.productId);
    var bought := PurchaseCount(items, p.productId);
    var avg := MeanOrZero(RatingsOf(feedback, p.productId));
    var unmet := UnmetDemand(items, orders, p.productId);
    var trend := CategoryTrend(products, p.category);
    Insight(p, v, bought, avg, unmet,
      if trend.Some? then Some(trend.value.avgPrice) else None,
      if trend.Some? then Some(trend.value.farmersCount) else None)
  }

  /** COALESCE(AVG(f.rating), 0) over the product's joined rows is the plain
      mean of its ratings, as every rating is repeated equally often. */
  lemma InsightAverageAsQueried(views: Views, items: seq<OrderItem>, feedback: seq<Feedback>, productId: nat)
    ensures MeanOrZero(Copies(RatingsOf(feedback, productId), RowWidth(views, items, productId)))
      == MeanOrZero(RatingsOf(feedback, productId))
  {
    var a := JoinWidth(ViewCount(views, productId));
    var b := JoinWidth(PurchaseCount(items, productId));
    Repeated(a, b);
    CopiesMean(RatingsOf(feedback, productId), a * b);
  }

  /** The market figures of an insight are absent exactly when its category
      has no AVAILABLE listing; otherwise they are the category's AVG(price)
      and COUNT(DISTINCT farmer_id), and the competition counts at least one
      farmer. */
  lemma InsightMarketFigures(products: seq<Product>, views: Views, items: seq<OrderItem>, orders: seq<Order>,
                             feedback: seq<Feedback>, p: Product)
    ensures InsightOf(products, views, items, orders, feedback, p).marketAvgPrice.None?
      <==> forall i :: 0 <= i < |products| ==> !ListedIn(products[i], p.category)
    ensures InsightOf(products, views, items, orders, feedback, p).marketAvgPrice.Some? ==>
      InsightOf(products, views, items, orders, feedback, p).marketAvgPrice.value
        == Sum(Listed(products, p.category), Price) / |Listed(products, p.category)| as real
    ensures InsightOf(products, views, items, orders, feedback, p).marketCompetition.Some? ==>
      InsightOf(products, views, items, orders, feedback, p).marketCompetition.value
        == |set q | q in Listed(products, p.category) :: FarmerOf(q)| >= 1
  {
    var t := CategoryTrend(products, p.category);
    assert t.Some? ==> t.value.totalListings == |Listed(products, p.category)|;
  }

  /** The unsorted rows of product_analysis: one per product of the farmer. */
  function InsightRows(products: seq<Product>, views: Views, items: seq<OrderItem>, orders: seq<Order>,
                       feedback: seq<Feedback>, farmerId: nat): (r: seq<Insight>)
    ensures |r| == Count(products, (p: Product) => p.farmerId == farmerId)
    ensures forall x :: x in r ==>
      x.product in products && x.product.farmerId == farmerId && x == InsightOf(products, views, items, orders, feedback, x.product)
    ensures forall p :: p in products && p.farmerId == farmerId ==> InsightOf(products, views, items, orders, feedback, p) in r
  {
    var mine := Filter(products, (p: Product) => p.farmerId == farmerId);
    var r := seq(|mine|, i requires 0 <= i < |mine| => InsightOf(products, views, items, orders, feedback, mine[i]));
    InsightRowsMembers(products, views, items, orders, feedback, farmerId, r);
    InsightRowsComplete(products, views, items, orders, feedback, farmerId, r);
    r
  }

  /** Every row is the insight of one of the farmer's products. */
  lemma InsightRowsMembers(products: seq<Product>, views: Views, items: seq<OrderItem>, orders: seq<Order>,
                           feedback: seq<Feedback>, farmerId: nat, r: seq<Insight>)
    requires |r| == |Filter(products, (p: Product) => p.farmerId == farmerId)|
    requires forall i :: 0 <= i < |r| ==>
      r[i] == InsightOf(products, views, items, orders, feedback, Filter(products, (p: Product) => p.farmerId == farmerId)[i])
    ensures forall x :: x in r ==>
      x.product in products && x.product.farmerId == farmerId && x == InsightOf(products, views, items, orders, feedback, x.product)
  {
    var mine := Filter(products, (p: Product) => p.farmerId == farmerId);
    forall x | x in r
      ensures x.product in products && x.product.farmerId == farmerId
        && x == InsightOf(products, views, items, orders, feedback, x.product)
    {
      var j :| 0 <= j < |r| && r[j] == x;
      assert x.product == mine[j];
    }
  }

  /** Every product of the farmer has its row. */
  lemma InsightRowsComplete(products: seq<Product>, views: Views, items: seq<OrderItem>, orders: seq<Order>,
                            feedback: seq<Feedback>, farmerId: nat, r: seq<Insight>)
    requires |r| == |Filter(products, (p: Product) => p.farmerId == farmerId)|
    requires forall i :: 0 <= i < |r| ==>
      r[i] == InsightOf(products, views, items, orders, feedback, Filter(products, (p: Product) => p.farmerId == farmerId)[i])
    ensures forall p :: p in products && p.farmerId == farmerId ==> InsightOf(products, views, items, orders, feedback, p) in r
  {
    var mine := Filter(products, (p: Product) => p.farmerId == farmerId);
    forall p | p in products && p.farmerId == farmerId
      ensures InsightOf(products, views, items, orders, feedback, p) in r
    {
      var i :| 0 <= i < |products| && products[i] == p;
      var j :| 0 <= j < |mine| && mine[j] == p;
      assert r[j] == InsightOf(products, views, items, orders, feedback, p);
    }
  }

  /** getMarketInsights: one row per product of the farmer, highest demand
      score first. */
  function MarketInsights(products: seq<Product>, views: Views, items: seq<OrderItem>, orders: seq<Order>,
                          feedback: seq<Feedback>, farmerId: nat): (r: seq<Insight>)
    ensures SortedDesc(r, DemandScoreOf)
    ensures |r| == Count(products, (p: Product) => p.farmerId == farmerId)
    ensures forall x :: x in r ==>
      x.product in products && x.product.farmerId == farmerId && x == InsightOf(products, views, items, orders, feedback, x.product)
    ensures forall p :: p in products && p.farmerId == farmerId ==> InsightOf(products, views, items, orders, feedback, p) in r
  {
    var rows := InsightRows(products, views, items, orders, feedback, farmerId);
    SortDescMembers(rows, DemandScoreOf);
    SortDesc(rows, DemandScoreOf)
  }

  // getCustomerPreferences

  /** The group key: category and product name. */
  function PreferenceKey(p: Product): (string, string) { (p.category, p.name) }

  /** WHERE p.status = 'AVAILABLE'. */
  function AvailableProducts(products: seq<Product>): (r: seq<Product>)
    ensures forall p :: p in r <==> p in products && p.status == Available
  {
    var available := (p: Product) => p.status == Available;
    FilterMembers(products, available);
    Filter(products, available)
  }

  /** The ids of the products in one group. */
  function GroupIds(avail: seq<Product>, key: (string, string)): set<nat>
  {
    set p | p in avail && PreferenceKey(p) == key :: p.productId
  }

  /** The ratings of a group as its joined rows carry them: each product's
      ratings once per view row and order-item row of that product. */
  function GroupRatings(avail: seq<Product>, views: Views, items: seq<OrderItem>, feedback: seq<Feedback>,
                        key: (string, string)): (r: seq<int>)
    ensures forall x :: x in r <==> exists p :: p in avail && PreferenceKey(p) == key && x in RatingsOf(feedback, p.productId)
  {
    if avail == [] then []
    else
      var p := avail[0];
      var head := if PreferenceKey(p) == key then Copies(RatingsOf(feedback, p.productId), RowWidth(views, items, p.productId)) else [];
      var rest := GroupRatings(avail[1..], views, items, feedback, key);
      RowWidthPositive(views, items, p.productId);
      CopiesMembers(RatingsOf(feedback, p.productId), RowWidth(views, items, p.productId));
      assert forall q :: q in avail <==> q == p || q in avail[1..] by {
        assert avail == [p] + avail[1..];
      }
      head + rest
  }

  /** Every rating row of a product appears at least once in the join. */
  lemma RowWidthPositive(views: Views, items: seq<OrderItem>, productId: nat)
    ensures RowWidth(views, items, productId) >= 1
  {
    Repeated(JoinWidth(ViewCount(views, productId)), JoinWidth(PurchaseCount(items, productId)));
  }

  /** At least one copy of some ratings holds exactly those ratings. */
  lemma {:induction false} CopiesMembers(xs: seq<int>, w: nat)
    requires w >= 1
    ensures forall x :: x in Copies(xs, w) <==> x in xs
  {
    if w > 1 {
      CopiesMembers(xs, w - 1);
    } else {
      assert Copies(xs, w) == xs + [];
    }
  }

  /** The popularity score: 0.4 per distinct viewer, 0.5 per purchase and 0.1
      times the average rating, rounded to two decimals. */
  function Popularity(viewers: nat, purchases: nat, avgRating: real): (s: real)
    ensures avgRating >= 0.0 ==> s >= 0.0
  {
    Round2(viewers as real * 0.4 + purchases as real * 0.5 + avgRating * 0.1)
  }

  /** More viewers, purchases or rating never lower the popularity. */
  lemma PopularityMonotone(v1: nat, p1: nat, a1: real, v2: nat, p2: nat, a2: real)
    requires v1 <= v2 && p1 <= p2 && a1 <= a2
    ensures Popularity(v1, p1, a1) <= Popularity(v2, p2, a2)
  {
    Round2Monotone(v1 as real * 0.4 + p1 as real * 0.5 + a1 * 0.1, v2 as real * 0.4 + p2 as real * 0.5 + a2 * 0.1);
  }

  /** Three viewers, two purchases and an average of 4.5 give 2.65. */
  lemma PopularityExample()
    ensures Popularity(3, 2, 4.5) == 2.65
  {
    Round2OnGrid(265);
    assert 2.65 == 265 as real / 100.0;
  }

  /** One row of the preferences; popularity_score is derived from the row's
      other columns. */
  datatype Preference = Preference(
    category: string,
    productName: string,
    uniqueViewers: nat,
    totalPurchases: nat,
    avgRating: real)
  {
    function PopularityScore(): real
    {
      Popularity(uniqueViewers, totalPurchases, avgRating)
    }
  }

  function PopularityOf(x: Preference): real { x.PopularityScore() }

  /** The row of one group: its key, its distinct viewers
      (COUNT(DISTINCT customer_id), positive exactly when some product of the
      group was viewed), its order items (COUNT(DISTINCT order_item_id) over
      the group's products) and the average over the ratings the join
      carries. */
  function PreferenceOf(avail: seq<Product>, views: Views, items: seq<OrderItem>, feedback: seq<Feedback>,
                        key: (string, string)): (r: Preference)
    ensures r.category == key.0 && r.productName == key.1
    ensures r.uniqueViewers == ViewerCount(views, GroupIds(avail, key))
    ensures r.uniqueViewers > 0 <==> exists k :: k in views && k.productId in GroupIds(avail, key)
    ensures r.totalPurchases == Count(items, (it: OrderItem) => it.productId in GroupIds(avail, key))
    ensures r.totalPurchases <= |items|
    ensures r.avgRating == MeanOrZero(GroupRatings(avail, views, items, feedback, key))
  {
    ViewersPositive(views, GroupIds(avail, key));
    var ids := GroupIds(avail, key);
    var viewers := ViewerCount(views, ids);
    var bought := Count(items, (it: OrderItem) => it.productId in GroupIds(avail, key));
    var avg := MeanOrZero(GroupRatings(avail, views, items, feedback, key));
    Preference(key.0, key.1, viewers, bought, avg)
  }

  /** COUNT(DISTINCT customer_id) is positive exactly when some view matches. */
  lemma ViewersPositive(views: Views, ids: set<nat>)
    ensures ViewerCount(views, ids) > 0 <==> exists k :: k in views && k.productId in ids
  {
    var viewers := set k | k in views && k.productId in ids :: k.customerId;
    if exists k :: k in views && k.productId in ids {
      var k :| k in views && k.productId in ids;
      assert k.customerId in viewers;
    }
    if |viewers| > 0 {
      var c :| c in viewers;
    }
  }

  /** The row of the group of product p. */
  function GroupOf(products: seq<Product>, views: Views, items: seq<OrderItem>, feedback: seq<Feedback>, p: Product): Preference
  {
    PreferenceOf(AvailableProducts(products), views, items, feedback, PreferenceKey(p))
  }

  /** The groups of AVAILABLE products that somebody viewed (the HAVING
      clause), before ORDER BY and LIMIT. */
  function PreferenceCandidates(products: seq<Product>, views: Views, items: seq<OrderItem>, feedback: seq<Feedback>)
    : (r: seq<Preference>)
    ensures forall x :: x in r ==>
      x.uniqueViewers > 0
      && x == PreferenceOf(AvailableProducts(products), views, items, feedback, (x.category, x.productName))
      && exists i :: 0 <= i < |products| && products[i].status == Available
                     && PreferenceKey(products[i]) == (x.category, x.productName)
    ensures forall p :: p in products && p.status == Available && GroupOf(products, views, items, feedback, p).uniqueViewers > 0 ==>
      GroupOf(products, views, items, feedback, p) in r
    ensures forall x :: multiset(r)[x] <= 1
  {
    var avail := AvailableProducts(products);
    var keys := DistinctKeys(avail, PreferenceKey);
    var rows := MapKeys(keys, (k: (string, string)) => PreferenceOf(avail, views, items, feedback, k));
    var viewed := (q: Preference) => q.uniqueViewers > 0;
    FilterMembers(rows, viewed);
    PreferenceRowsMembers(products, views, items, feedback, keys, Filter(rows, viewed));
    PreferenceRowsComplete(products, views, items, feedback, keys, rows);
    PreferenceRowsDistinct(avail, views, items, feedback, keys, rows);
    FilterDistinct(rows, viewed);
    forall x ensures multiset(Filter(rows, viewed))[x] <= 1 {
      DistinctMultiplicity(Filter(rows, viewed), x);
    }
    Filter(rows, viewed)
  }

  /** GROUP BY yields each group once: the rows of distinct keys are distinct,
      since every row carries its key. */
  lemma PreferenceRowsDistinct(avail: seq<Product>, views: Views, items: seq<OrderItem>, feedback: seq<Feedback>,
                               keys: seq<(string, string)>, rows: seq<Preference>)
    requires forall i, j :: 0 <= i < j < |keys| ==> keys[i] != keys[j]
    requires |rows| == |keys|
    requires forall i :: 0 <= i < |keys| ==> rows[i] == PreferenceOf(avail, views, items, feedback, keys[i])
    ensures forall i, j :: 0 <= i < j < |rows| ==> rows[i] != rows[j]
  {
    forall i, j | 0 <= i < j < |rows| ensures rows[i] != rows[j] {
      assert (rows[i].category, rows[i].productName) == keys[i];
      assert (rows[j].category, rows[j].productName) == keys[j];
    }
  }

  /** Every row of a viewed group is the row of its key, and the key is that
      of an AVAILABLE product. */
  lemma PreferenceRowsMembers(products: seq<Product>, views: Views, items: seq<OrderItem>, feedback: seq<Feedback>,
                              keys: seq<(string, string)>, r: seq<Preference>)
    requires keys == DistinctKeys(AvailableProducts(products), PreferenceKey)
    requires forall x :: x in r ==>
      x.uniqueViewers > 0 && exists k :: k in keys && x == PreferenceOf(AvailableProducts(products), views, items, feedback, k)
    ensures forall x :: x in r ==>
      x.uniqueViewers > 0
      && x == PreferenceOf(AvailableProducts(products), views, items, feedback, (x.category, x.productName))
      && exists i :: 0 <= i < |products| && products[i].status == Available
                     && PreferenceKey(products[i]) == (x.category, x.productName)
  {
    KeysFromAvailable(products);
    forall x | x in r
      ensures x == PreferenceOf(AvailableProducts(products), views, items, feedback, (x.category, x.productName))
    {
      var k :| k in keys && x == PreferenceOf(AvailableProducts(products), views, items, feedback, k);
    }
  }

  /** Every AVAILABLE product's group has its row. */
  lemma PreferenceRowsComplete(products: seq<Product>, views: Views, items: seq<OrderItem>, feedback: seq<Feedback>,
                               keys: seq<(string, string)>, rows: seq<Preference>)
    requires keys == DistinctKeys(AvailableProducts(products), PreferenceKey)
    requires forall k :: k in keys ==> PreferenceOf(AvailableProducts(products), views, items, feedback, k) in rows
    ensures forall p :: p in products && p.status == Available ==> GroupOf(products, views, items, feedback, p) in rows
  {
    KeysOfAvailable(products);
  }

  /** Every AVAILABLE product's key is one of the group keys. */
  lemma KeysOfAvailable(products: seq<Product>)
    ensures forall p :: p in products && p.status == Available ==>
      PreferenceKey(p) in DistinctKeys(AvailableProducts(products), PreferenceKey)
  {
    var avail := AvailableProducts(products);
    forall p | p in products && p.status == Available
      ensures PreferenceKey(p) in DistinctKeys(avail, PreferenceKey)
    {
      var a :| 0 <= a < |avail| && avail[a] == p;
    }
  }

  /** Every group key is the key of an AVAILABLE product. */
  lemma KeysFromAvailable(products: seq<Product>)
    ensures forall k :: k in DistinctKeys(AvailableProducts(products), PreferenceKey) ==>
      exists i :: 0 <= i < |products| && products[i].status == Available && PreferenceKey(products[i]) == k
  {
    var avail := AvailableProducts(products);
    var keys := DistinctKeys(avail, PreferenceKey);
    forall k | k in keys
      ensures exists i :: 0 <= i < |products| && products[i].status == Available && PreferenceKey(products[i]) == k
    {
      var j :| 0 <= j < |keys| && keys[j] == k;
      var a :| 0 <= a < |avail| && PreferenceKey(avail[a]) == k;
      assert avail[a] in products;
      var i :| 0 <= i < |products| && products[i] == avail[a];
    }
  }

  /** getCustomerPreferences: the ten most popular viewed groups, most
      popular first. */
  function CustomerPreferences(products: seq<Product>, views: Views, items: seq<OrderItem>, feedback: seq<Feedback>)
    : (r: seq<Preference>)
    ensures |r| <= 10
    ensures |PreferenceCandidates(products, views, items, feedback)| >= 10 ==> |r| == 10
    ensures |PreferenceCandidates(products, views, items, feedback)| <= 10 ==>
      multiset(r) == multiset(PreferenceCandidates(products, views, items, feedback))
    ensures SortedDesc(r, PopularityOf)
    ensures forall i :: 0 <= i < |r| ==> r[i] in PreferenceCandidates(products, views, items, feedback)
    ensures forall x :: multiset(r)[x] <= 1
  {
    TopN(PreferenceCandidates(products, views, items, feedback), PopularityOf, 10)
  }

  /** HAVING COUNT(DISTINCT pv.customer_id) > 0: every group returned has a
      viewer. */
  lemma PreferencesHaveViewers(products: seq<Product>, views: Views, items: seq<OrderItem>, feedback: seq<Feedback>)
    ensures forall x :: x in CustomerPreferences(products, views, items, feedback) ==> x.uniqueViewers > 0
  {
    var c := PreferenceCandidates(products, views, items, feedback);
    var r := CustomerPreferences(products, views, items, feedback);
    forall x | x in r ensures x.uniqueViewers > 0 {
      var i :| 0 <= i < |r| && r[i] == x;
      assert x in c;
    }
  }

  /** A viewed group left out of the ten is no more popular than any kept. */
  lemma PreferencesKeepMostPopular(products: seq<Product>, views: Views, items: seq<OrderItem>, feedback: seq<Feedback>,
                                   x: Preference, y: Preference)
    requires x in CustomerPreferences(products, views, items, feedback)
    requires y in PreferenceCandidates(products, views, items, feedback)
    requires y !in CustomerPreferences(products, views, items, feedback)
    ensures PopularityOf(y) <= PopularityOf(x)
  {
    TopNCutsLowest(PreferenceCandidates(products, views, items, feedback), PopularityOf, 10, x, y);
  }

  // getSeasonalRecommendations

  /** The month after m on the 1..12 calendar. */
  function NextMonth(m: int): (n: int)
    requires 1 <= m <= 12
    ensures 1 <= n <= 12
    ensures m < 12 ==> n == m + 1
    ensures m == 12 ==> n == 1
  {
    (m % 12) + 1
  }

  /** AVAILABLE with a harvest date. */
  predicate Harvested(p: Product)
  {
    p.status == Available && p.harvestMonth.Some?
  }

  /** The group key: category and harvest month. */
  function HarvestKey(p: Product): (string, int)
  {
    (p.category, if p.harvestMonth.Some? then p.harvestMonth.value else 0)
  }

  datatype SeasonalRow = SeasonalRow(category: string, totalListings: nat, avgPrice: real, harvestMonth: int)

  function ListingsOf(r: SeasonalRow): real { r.totalListings as real }

  /** The row of one (category, harvest month) group. */
  function SeasonalRowOf(products: seq<Product>, key: (string, int)): SeasonalRow
  {
    var members := Filter(products, (p: Product) => Harvested(p) && HarvestKey(p) == key);
    SeasonalRow(key.0, |members|,
      if members == [] then 0.0 else Sum(members, (p: Product) => p.price) / |members| as real, key.1)
  }

  /** The group keys whose month the window admits (the HAVING clause). */
  function KeysInWindow(keys: seq<(string, int)>, window: int -> bool): (r: seq<(string, int)>)
    ensures forall k :: k in r <==> k in keys && window(k.1)
    ensures (forall i, j :: 0 <= i < j < |keys| ==> keys[i] != keys[j]) ==> forall i, j :: 0 <= i < j < |r| ==> r[i] != r[j]
  {
    if keys == [] then []
    else
      var rest := KeysInWindow(keys[1..], window);
      assert (forall i, j :: 0 <= i < j < |keys| ==> keys[i] != keys[j]) ==> keys[0] !in rest && forall i, j :: 0 <= i < j < |keys[1..]| ==> keys[1..][i] != keys[1..][j] by {
        if forall i, j :: 0 <= i < j < |keys| ==> keys[i] != keys[j] {
          forall i, j | 0 <= i < j < |keys[1..]| ensures keys[1..][i] != keys[1..][j] {
            assert keys[1..][i] == keys[i + 1] && keys[1..][j] == keys[j + 1];
          }
          forall j | 0 <= j < |keys[1..]| ensures keys[1..][j] != keys[0] {
            assert keys[1..][j] == keys[j + 1];
          }
        }
      }
      (if window(keys[0].1) then [keys[0]] else []) + rest
  }

  /** Two windows that admit the same months keep the same groups. */
  lemma {:induction false} KeysInSameWindow(keys: seq<(string, int)>, w1: int -> bool, w2: int -> bool)
    requires forall m :: w1(m) == w2(m)
    ensures KeysInWindow(keys, w1) == KeysInWindow(keys, w2)
  {
    if keys != [] {
      KeysInSameWindow(keys[1..], w1, w2);
    }
  }

  /** A window that admits no month keeps no group. */
  lemma {:induction false} KeysInEmptyWindow(keys: seq<(string, int)>, window: int -> bool)
    requires forall m :: !window(m)
    ensures KeysInWindow(keys, window) == []
  {
    if keys != [] {
      KeysInEmptyWindow(keys[1..], window);
    }
  }

  /** The groups of harvested listings whose month the window admits, before
      ORDER BY. */
  function SeasonalCandidates(products: seq<Product>, window: int -> bool): (r: seq<SeasonalRow>)
    ensures forall x :: x in r ==>
      window(x.harvestMonth) && x == SeasonalRowOf(products, (x.category, x.harvestMonth)) && x.totalListings >= 1
    ensures forall p :: p in products && Harvested(p) && window(p.harvestMonth.value) ==>
      SeasonalRowOf(products, HarvestKey(p)) in r
    ensures forall i, j :: 0 <= i < j < |r| ==> r[i] != r[j]
  {
    var keys := KeysInWindow(DistinctKeys(Filter(products, Harvested), HarvestKey), window);
    var r := seq(|keys|, i requires 0 <= i < |keys| => SeasonalRowOf(products, keys[i]));
    assert forall i, j :: 0 <= i < j < |r| ==> r[i] != r[j] by {
      forall i, j | 0 <= i < j < |r| ensures r[i] != r[j] {
        assert keys[i] != keys[j];
        assert (r[i].category, r[i].harvestMonth) == keys[i];
      }
    }
    SeasonalMembers(products, window, keys, r);
    SeasonalComplete(products, window, keys, r);
    r
  }

  lemma SeasonalMembers(products: seq<Product>, window: int -> bool, keys: seq<(string, int)>, r: seq<SeasonalRow>)
    requires forall k :: k in keys <==> k in DistinctKeys(Filter(products, Harvested), HarvestKey) && window(k.1)
    requires |r| == |keys| && forall i :: 0 <= i < |r| ==> r[i] == SeasonalRowOf(products, keys[i])
    ensures forall x :: x in r ==>
      window(x.harvestMonth) && x == SeasonalRowOf(products, (x.category, x.harvestMonth)) && x.totalListings >= 1
  {
    var harvested := Filter(products, Harvested);
    forall x | x in r
      ensures window(x.harvestMonth) && x == SeasonalRowOf(products, (x.category, x.harvestMonth)) && x.totalListings >= 1
    {
      var j :| 0 <= j < |r| && r[j] == x;
      assert keys[j] in keys;
      var key := keys[j];
      assert key in DistinctKeys(harvested, HarvestKey);
      var k :| 0 <= k < |DistinctKeys(harvested, HarvestKey)| && DistinctKeys(harvested, HarvestKey)[k] == key;
      var a :| 0 <= a < |harvested| && HarvestKey(harvested[a]) == key;
      assert harvested[a] in products && Harvested(harvested[a]);
      var i :| 0 <= i < |products| && products[i] == harvested[a];
      assert products[i] in Filter(products, (p: Product) => Harvested(p) && HarvestKey(p) == key);
    }
  }

  lemma SeasonalComplete(products: seq<Product>, window: int -> bool, keys: seq<(string, int)>, r: seq<SeasonalRow>)
    requires forall k :: k in keys <==> k in DistinctKeys(Filter(products, Harvested), HarvestKey) && window(k.1)
    requires |r| == |keys| && forall i :: 0 <= i < |r| ==> r[i] == SeasonalRowOf(products, keys[i])
    ensures forall p :: p in products && Harvested(p) && window(p.harvestMonth.value) ==>
      SeasonalRowOf(products, HarvestKey(p)) in r
  {
    var harvested := Filter(products, Harvested);
    FilterMembers(products, Harvested);
    forall p | p in products && Harvested(p) && window(p.harvestMonth.value)
      ensures SeasonalRowOf(products, HarvestKey(p)) in r
    {
      var a :| 0 <= a < |harvested| && harvested[a] == p;
      assert HarvestKey(p) in keys;
      var j :| 0 <= j < |keys| && keys[j] == HarvestKey(p);
      assert r[j] == SeasonalRowOf(products, HarvestKey(p));
    }
  }

  /** The seasonal groups of a window, most listings first. */
  function SeasonalGroups(products: seq<Product>, window: int -> bool): (r: seq<SeasonalRow>)
    ensures SortedDesc(r, ListingsOf)
    ensures forall x :: x in r ==>
      window(x.harvestMonth) && x == SeasonalRowOf(products, (x.category, x.harvestMonth)) && x.totalListings >= 1
    ensures forall p :: p in products && Harvested(p) && window(p.harvestMonth.value) ==>
      SeasonalRowOf(products, HarvestKey(p)) in r
    ensures forall x :: multiset(r)[x] <= 1
  {
    var c := SeasonalCandidates(products, window);
    SortDescMembers(c, ListingsOf);
    forall x ensures multiset(c)[x] <= 1 {
      DistinctMultiplicity(c, x);
    }
    SortDesc(c, ListingsOf)
  }

  /** getSeasonalRecommendations as written: HAVING month BETWEEN m AND the
      next month, an inclusive range from the smaller bound up. */
  function SeasonalAsWritten(products: seq<Product>, m: int): (r: seq<SeasonalRow>)
    requires 1 <= m <= 12
    ensures SortedDesc(r, ListingsOf)
    ensures forall x :: x in r ==> m <= x.harvestMonth <= NextMonth(m) && x == SeasonalRowOf(products, (x.category, x.harvestMonth))
    ensures forall x :: multiset(r)[x] <= 1
    ensures forall p :: p in products && Harvested(p) && m <= p.harvestMonth.value <= NextMonth(m) ==>
      SeasonalRowOf(products, HarvestKey(p)) in r
  {
    var next := NextMonth(m);
    SeasonalGroups(products, (h: int) => m <= h <= next)
  }

  /** In December the range is BETWEEN 12 AND 1, which no month satisfies: the
      query as written recommends nothing, whatever is harvested. */
  lemma DecemberWindowEmpty(products: seq<Product>)
    ensures SeasonalAsWritten(products, 12) == []
  {
    var m := 12;
    var next := NextMonth(m);
    var written := (h: int) => m <= h <= next;
    KeysInEmptyWindow(DistinctKeys(Filter(products, Harvested), HarvestKey), written);
    assert SeasonalCandidates(products, written) == [];
  }

  /** The listings of the current and the next harvest month, most listings
      first; December is followed by January. */
  function Seasonal(products: seq<Product>, m: int): (r: seq<SeasonalRow>)
    requires 1 <= m <= 12
    ensures SortedDesc(r, ListingsOf)
    ensures forall x :: x in r ==>
      && (x.harvestMonth == m || x.harvestMonth == NextMonth(m))
      && x == SeasonalRowOf(products, (x.category, x.harvestMonth))
      && x.totalListings >= 1
    ensures forall x :: multiset(r)[x] <= 1
    ensures forall p :: p in products && Harvested(p) && (p.harvestMonth.value == m || p.harvestMonth.value == NextMonth(m)) ==>
      SeasonalRowOf(products, HarvestKey(p)) in r
  {
    var next := NextMonth(m);
    SeasonalGroups(products, (h: int) => h == m || h == next)
  }

  /** Before December the range as written is exactly the two months. */
  lemma SeasonalAgreesBeforeDecember(products: seq<Product>, m: int)
    requires 1 <= m < 12
    ensures SeasonalAsWritten(products, m) == Seasonal(products, m)
  {
    var next := NextMonth(m);
    var written := (h: int) => m <= h <= next;
    var intended := (h: int) => h == m || h == next;
    KeysInSameWindow(DistinctKeys(Filter(products, Harvested), HarvestKey), written, intended);
    assert SeasonalCandidates(products, written) == SeasonalCandidates(products, intended);
  }

  /** A January harvest in December: the query as written shows nothing, the
      two-month window shows its group. */
  lemma DecemberCounterexample()
    ensures SeasonalAsWritten([Product(1, 1, "Mango", "Fruit", 50.0, 10, Available, Some(1), 0)], 12) == []
    ensures SeasonalRowOf([Product(1, 1, "Mango", "Fruit", 50.0, 10, Available, Some(1), 0)], ("Fruit", 1))
      in Seasonal([Product(1, 1, "Mango", "Fruit", 50.0, 10, Available, Some(1), 0)], 12)
  {
    var products := [Product(1, 1, "Mango", "Fruit", 50.0, 10, Available, Some(1), 0)];
    DecemberWindowEmpty(products);
    assert products[0] in products && HarvestKey(products[0]) == ("Fruit", 1);
  }
}
