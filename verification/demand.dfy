/** The recommendation handlers (controllers/recommendationController.js):
    the demand analysis of a farmer's listings and the three lists of the
    personalised recommendations (recently viewed, similar, trending).

    The queries are modelled over the in-memory tables; the clock is an
    input (the timestamp that CURRENT_DATE - 7 days denotes). */
module RecommendationController {
  import opened Numeric
  import opened Seqs
  import opened Ranking
  import opened Tables

  // getDemandAnalysis

  /** The price-trend indicator: 1.0 for a product that has been ordered at
      least once, 0.5 otherwise. */
  function PriceTrend(purchases: nat): (t: real)
    ensures t == 1.0 <==> purchases > 0
    ensures t == 0.5 <==> purchases == 0
  {
    if purchases > 0 then 1.0 else 0.5
  }

  /** The demand score: 0.4 per viewer, 0.3 times the price trend and 0.3 per
      unmet order, rounded to two decimals. */
  function DemandScore(frequency: nat, priceTrend: real, unmetDemand: nat): (s: real)
    ensures priceTrend >= 0.5 ==> s >= 0.15
  {
    DemandFloor(frequency as real * 0.4 + priceTrend * 0.3 + unmetDemand as real * 0.3);
    Round2(frequency as real * 0.4 + priceTrend * 0.3 + unmetDemand as real * 0.3)
  }

  lemma DemandFloor(x: real)
    ensures x >= 0.15 ==> Round2(x) >= 0.15
  {
    if x >= 0.15 {
      Round2Monotone(0.15, x);
      Round2OnGrid(15);
    }
  }

  /** The weights the handler reports next to the analysis. */
  datatype Weights = Weights(frequency: real, priceTrend: real, unmetDemand: real)

  const ReportedWeights: Weights := Weights(0.4, 0.3, 0.3)

  /** The reported weights are the ones the score uses, and they add up to 1. */
  lemma ReportedWeightsAreUsed(frequency: nat, priceTrend: real, unmetDemand: nat)
    ensures DemandScore(frequency, priceTrend, unmetDemand)
      == Round2(ReportedWeights.frequency * frequency as real + ReportedWeights.priceTrend * priceTrend
                + ReportedWeights.unmetDemand * unmetDemand as real)
    ensures ReportedWeights.frequency + ReportedWeights.priceTrend + ReportedWeights.unmetDemand == 1.0
  {
  }

  /** More viewers, a rising price trend or more unmet orders never lower the score. */
  lemma DemandScoreMonotone(f1: nat, t1: real, u1: nat, f2: nat, t2: real, u2: nat)
    requires f1 <= f2 && t1 <= t2 && u1 <= u2
    ensures DemandScore(f1, t1, u1) <= DemandScore(f2, t2, u2)
  {
    Round2Monotone(f1 as real * 0.4 + t1 * 0.3 + u1 as real * 0.3, f2 as real * 0.4 + t2 * 0.3 + u2 as real * 0.3);
  }

  /** Ten viewers, some order and two unmet orders score 4.90; a product no
      one has viewed or ordered still scores 0.15, not 0. */
  lemma DemandScoreExamples()
    ensures DemandScore(10, PriceTrend(1), 2) == 4.9
    ensures DemandScore(0, PriceTrend(0), 0) == 0.15
  {
    Round2OnGrid(490);
    Round2OnGrid(15);
    assert 4.9 == 490 as real / 100.0;
    assert 0.15 == 15 as real / 100.0;
  }

  /** The unmet demand of the query as written: the LEFT JOIN with the
      product's views repeats every order-item row once per view, and the
      COUNT of PENDING rows counts every repetition. */
  function UnmetDemandAsWritten(views: Views, items: seq<OrderItem>, orders: seq<Order>, productId: nat): (n: nat)
    ensures n >= ItemsInStatus(items, orders, productId, {Pending})
    ensures ViewCount(views, productId) <= 1 ==> n == ItemsInStatus(items, orders, productId, {Pending})
  {
    Repeated(JoinWidth(ViewCount(views, productId)), ItemsInStatus(items, orders, productId, {Pending}));
    JoinWidth(ViewCount(views, productId)) * ItemsInStatus(items, orders, productId, {Pending})
  }

  /** The unmet demand the score means: the product's order items whose
      order is PENDING. */
  function UnmetDemand(items: seq<OrderItem>, orders: seq<Order>, productId: nat): (n: nat)
    ensures n <= PurchaseCount(items, productId)
  {
    ItemsInStatusWithinPurchases(items, orders, productId, {Pending});
    ItemsInStatus(items, orders, productId, {Pending})
  }

  /** The query as written multiplies the unmet demand by the number of views:
      it agrees with the intended count only for a product with at most one
      view or no pending order. */
  lemma UnmetDemandFanOut(views: Views, items: seq<OrderItem>, orders: seq<Order>, productId: nat)
    ensures UnmetDemandAsWritten(views, items, orders, productId) >= UnmetDemand(items, orders, productId)
    ensures UnmetDemandAsWritten(views, items, orders, productId) == UnmetDemand(items, orders, productId)
      <==> ViewCount(views, productId) <= 1 || UnmetDemand(items, orders, productId) == 0
  {
    var w := JoinWidth(ViewCount(views, productId));
    var u := UnmetDemand(items, orders, productId);
    assert UnmetDemandAsWritten(views, items, orders, productId) == w * u;
    Repeated(w, u);
  }

  /** Two customers viewed product 1 and one pending order holds it: the
      query as written reports 2 unmet orders where there is 1. */
  lemma UnmetDemandCounterexample()
    ensures UnmetDemandAsWritten(map[ViewKey(1, 1) := ViewEntry(1, 0), ViewKey(2, 1) := ViewEntry(2, 0)],
      [OrderItem(1, 1, 1, 1, 10.0)], [Order(1, 1, Pending, 0, None, 10.0)], 1) == 2
    ensures UnmetDemand([OrderItem(1, 1, 1, 1, 10.0)], [Order(1, 1, Pending, 0, None, 10.0)], 1) == 1
  {
    var views := map[ViewKey(1, 1) := ViewEntry(1, 0), ViewKey(2, 1) := ViewEntry(2, 0)];
    assert (set k | k in views && k.productId == 1) == {ViewKey(1, 1), ViewKey(2, 1)};
    var items := [OrderItem(1, 1, 1, 1, 10.0)];
    var orders := [Order(1, 1, Pending, 0, None, 10.0)];
    assert StatusOf(orders, 1) == Some(Pending);
    CountCons(items, (it: OrderItem) => it.productId == 1 && InStatus(StatusOf(orders, it.orderId), {Pending}));
    assert items[1..] == [];
  }

  /** One row of the analysis: the product with its three metrics and score. */
  datatype DemandRow = DemandRow(product: Product, frequency: nat, priceTrend: real, unmetDemand: nat, demandScore: real)

  function DemandOf(row: DemandRow): real { row.demandScore }

  /** One product's analysis row: its viewers, its price trend, its pending
      order items (the intended count, not the fanned-out one) and the score
      of the three. */
  function DemandMetrics(p: Product, views: Views, items: seq<OrderItem>, orders: seq<Order>): (row: DemandRow)
    ensures row.product == p
    ensures row.frequency == ViewCount(views, p.productId)
    ensures row.priceTrend == PriceTrend(PurchaseCount(items, p.productId))
    ensures row.unmetDemand == UnmetDemand(items, orders, p.productId)
    ensures row.demandScore == DemandScore(row.frequency, row.priceTrend, row.unmetDemand)
    ensures row.demandScore >= 0.15
  {
    var frequency := ViewCount(views, p.productId);
    var priceTrend := PriceTrend(PurchaseCount(items, p.productId));
    var unmet := UnmetDemand(items, orders, p.productId);
    DemandRow(p, frequency, priceTrend, unmet, DemandScore(frequency, priceTrend, unmet))
  }

  predicate OwnListing(p: Product, farmerId: nat) { p.farmerId == farmerId && p.status == Available }

  /** The analysis: one row per AVAILABLE product of the farmer, highest
      demand first. */
  function DemandAnalysis(products: seq<Product>, views: Views, items: seq<OrderItem>, orders: seq<Order>, farmerId: nat): (r: seq<DemandRow>)
    ensures |r| == Count(products, (p: Product) => OwnListing(p, farmerId))
    ensures SortedDesc(r, DemandOf)
    ensures forall i :: 0 <= i < |r| ==> r[i].product in products && OwnListing(r[i].product, farmerId)
    ensures forall i :: 0 <= i < |r| ==> r[i] == DemandMetrics(r[i].product, views, items, orders)
    ensures forall i :: 0 <= i < |products| && OwnListing(products[i], farmerId) ==>
      DemandMetrics(products[i], views, items, orders) in r
  {
    var rows := DemandRows(products, views, items, orders, farmerId);
    SortDescMembers(rows, DemandOf);
    SortDesc(rows, DemandOf)
  }

  /** The analysis rows before ORDER BY, in table order. */
  function DemandRows(products: seq<Product>, views: Views, items: seq<OrderItem>, orders: seq<Order>, farmerId: nat): (rows: seq<DemandRow>)
    ensures |rows| == Count(products, (p: Product) => OwnListing(p, farmerId))
    ensures forall x :: x in rows ==> (x.product in products && OwnListing(x.product, farmerId)
      && x == DemandMetrics(x.product, views, items, orders))
    ensures forall i :: 0 <= i < |products| && OwnListing(products[i], farmerId) ==>
      DemandMetrics(products[i], views, items, orders) in rows
  {
    var own := (p: Product) => OwnListing(p, farmerId);
    var metrics := (p: Product) => DemandMetrics(p, views, items, orders);
    FilterMembers(products, own);
    var rows := MapKeys(Filter(products, own), metrics);
    assert forall x :: x in rows ==> (x.product in products && OwnListing(x.product, farmerId)
      && x == DemandMetrics(x.product, views, items, orders)) by {
      forall x | x in rows
        ensures x.product in products && OwnListing(x.product, farmerId) && x == DemandMetrics(x.product, views, items, orders)
      {
        var p :| p in Filter(products, own) && x == metrics(p);
      }
    }
    rows
  }

  // getPersonalizedRecommendations: recently viewed

  /** A product the customer viewed, with the time of the latest view. */
  datatype Viewed = Viewed(product: Product, viewedAt: int)

  function ViewedAt(v: Viewed): real { v.viewedAt as real }

  /** The customer's view rows joined with their products. */
  function ViewedBy(products: seq<Product>, views: Views, customerId: nat): (r: seq<Viewed>)
    ensures |r| == Count(products, (p: Product) => ViewKey(customerId, p.productId) in views)
    ensures forall i :: 0 <= i < |r| ==> (r[i].product in products
      && ViewKey(customerId, r[i].product.productId) in views
      && views[ViewKey(customerId, r[i].product.productId)].viewedAt == r[i].viewedAt)
    ensures forall i :: 0 <= i < |products| && ViewKey(customerId, products[i].productId) in views ==>
      Viewed(products[i], views[ViewKey(customerId, products[i].productId)].viewedAt) in r
  {
    if products == [] then []
    else
      var p := products[0];
      var key := ViewKey(customerId, p.productId);
      var rest := ViewedBy(products[1..], views, customerId);
      var r := if key in views then [Viewed(p, views[key].viewedAt)] + rest else rest;
      assert forall i :: 1 <= i < |products| ==> products[i] == products[1..][i - 1];
      CountCons(products, (p: Product) => ViewKey(customerId, p.productId) in views);
      r
  }

  /** The ten most recently viewed products, newest first. */
  function RecentlyViewed(products: seq<Product>, views: Views, customerId: nat): (r: seq<Viewed>)
    ensures |r| == if |ViewedBy(products, views, customerId)| <= 10 then |ViewedBy(products, views, customerId)| else 10
    ensures SortedDesc(r, ViewedAt)
    ensures multiset(r) <= multiset(ViewedBy(products, views, customerId))
    ensures forall i :: 0 <= i < |r| ==> r[i] in ViewedBy(products, views, customerId)
    ensures |ViewedBy(products, views, customerId)| <= 10 ==> multiset(r) == multiset(ViewedBy(products, views, customerId))
  {
    TopN(ViewedBy(products, views, customerId), ViewedAt, 10)
  }

  /** A viewed product that did not make the list was viewed no later than
      every product on it. */
  lemma RecentlyViewedNewestFirst(products: seq<Product>, views: Views, customerId: nat, x: Viewed, y: Viewed)
    requires x in RecentlyViewed(products, views, customerId)
    requires y in ViewedBy(products, views, customerId) && y !in RecentlyViewed(products, views, customerId)
    ensures y.viewedAt <= x.viewedAt
  {
    TopNCutsLowest(ViewedBy(products, views, customerId), ViewedAt, 10, x, y);
  }

  // getPersonalizedRecommendations: similar products

  /** The categories of the products the customer has viewed. */
  function ViewedCategories(products: seq<Product>, views: Views, customerId: nat): set<string>
  {
    set i | 0 <= i < |products| && ViewKey(customerId, products[i].productId) in views :: products[i].category
  }

  /** An AVAILABLE product in a viewed category that the customer has not
      viewed, whose farmer has a farmers row (the JOIN with farmers; farmerIds
      is that table's set of farmer_id values). */
  predicate IsSimilar(p: Product, categories: set<string>, views: Views, customerId: nat, farmerIds: set<nat>)
  {
    p.status == Available && p.category in categories && ViewKey(customerId, p.productId) !in views
    && p.farmerId in farmerIds
  }

  function SimilarCandidates(products: seq<Product>, views: Views, customerId: nat, farmerIds: set<nat>): (r: seq<Product>)
    ensures |r| == Count(products, (p: Product) => IsSimilar(p, ViewedCategories(products, views, customerId), views, customerId, farmerIds))
    ensures forall i :: 0 <= i < |r| ==> r[i] in products && IsSimilar(r[i], ViewedCategories(products, views, customerId), views, customerId, farmerIds)
    ensures forall i :: 0 <= i < |products| && IsSimilar(products[i], ViewedCategories(products, views, customerId), views, customerId, farmerIds) ==> products[i] in r
  {
    Filter(products, (p: Product) => IsSimilar(p, ViewedCategories(products, views, customerId), views, customerId, farmerIds))
  }

  /** ORDER BY RANDOM() LIMIT 5: any five of the candidates (all of them when
      there are fewer), each at most as often as it is a candidate. */
  ghost predicate IsSimilarSelection(r: seq<Product>, candidates: seq<Product>)
  {
    && |r| == (if |candidates| <= 5 then |candidates| else 5)
    && multiset(r) <= multiset(candidates)
  }

  /** Whatever the random order picks: at most five products, all AVAILABLE,
      each in a category the customer viewed, none viewed already. */
  lemma SimilarSelectionProperties(products: seq<Product>, views: Views, customerId: nat, farmerIds: set<nat>, r: seq<Product>)
    requires IsSimilarSelection(r, SimilarCandidates(products, views, customerId, farmerIds))
    ensures |r| <= 5
    ensures forall i :: 0 <= i < |r| ==> (r[i] in products
      && r[i].status == Available
      && r[i].category in ViewedCategories(products, views, customerId)
      && ViewKey(customerId, r[i].productId) !in views
      && r[i].farmerId in farmerIds)
  {
    var c := SimilarCandidates(products, views, customerId, farmerIds);
    forall i | 0 <= i < |r| ensures r[i] in c {
      assert r[i] in multiset(r);
    }
  }

  /** The random order always has a choice: the first five candidates are one. */
  lemma SimilarSelectionExists(candidates: seq<Product>)
    ensures IsSimilarSelection(Take(candidates, 5), candidates)
  {
    var r := Take(candidates, 5);
    assert candidates == r + candidates[|r|..];
    assert multiset(candidates) == multiset(r) + multiset(candidates[|r|..]);
  }

  // getPersonalizedRecommendations: trending

  /** A trending candidate: views counted over the last seven days only,
      order items over all time. */
  datatype TrendRow = TrendRow(product: Product, viewCount: nat, purchaseCount: nat)

  function TrendScore(r: TrendRow): real
  {
    r.viewCount as real * 0.6 + r.purchaseCount as real * 0.4
  }

  /** AVAILABLE, with a farmers row (the JOIN with farmers), and viewed after
      `since`: the condition on the view time in WHERE drops the products the
      LEFT JOIN gave no recent view. */
  predicate RecentlyActive(p: Product, views: Views, since: int, farmerIds: set<nat>)
  {
    p.status == Available && p.farmerId in farmerIds && ViewCountAfter(views, p.productId, since) > 0
  }

  /** The trending row of a product: its views since `since` and its
      purchases. */
  function TrendRowOf(p: Product, views: Views, items: seq<OrderItem>, since: int): TrendRow
  {
    TrendRow(p, ViewCountAfter(views, p.productId, since), PurchaseCount(items, p.productId))
  }

  function TrendCandidates(products: seq<Product>, views: Views, items: seq<OrderItem>, since: int, farmerIds: set<nat>): (r: seq<TrendRow>)
    ensures |r| == Count(products, (p: Product) => RecentlyActive(p, views, since, farmerIds))
    ensures forall t :: t in r ==>
      t.product in products && RecentlyActive(t.product, views, since, farmerIds) && t == TrendRowOf(t.product, views, items, since)
    ensures forall i :: 0 <= i < |products| && RecentlyActive(products[i], views, since, farmerIds) ==>
      TrendRowOf(products[i], views, items, since) in r
  {
    var active := (p: Product) => RecentlyActive(p, views, since, farmerIds);
    var row := (p: Product) => TrendRowOf(p, views, items, since);
    FilterMembers(products, active);
    var r := MapKeys(Filter(products, active), row);
    assert forall t :: t in r ==>
      t.product in products && RecentlyActive(t.product, views, since, farmerIds) && t == TrendRowOf(t.product, views, items, since) by {
      forall t | t in r
        ensures t.product in products && RecentlyActive(t.product, views, since, farmerIds) && t == TrendRowOf(t.product, views, items, since)
      {
        var p :| p in Filter(products, active) && t == row(p);
      }
    }
    r
  }

  /** The five trending products, highest 0.6 * views + 0.4 * purchases first. */
  function Trending(products: seq<Product>, views: Views, items: seq<OrderItem>, since: int, farmerIds: set<nat>): (r: seq<TrendRow>)
    ensures |r| == if |TrendCandidates(products, views, items, since, farmerIds)| <= 5 then |TrendCandidates(products, views, items, since, farmerIds)| else 5
    ensures SortedDesc(r, TrendScore)
    ensures multiset(r) <= multiset(TrendCandidates(products, views, items, since, farmerIds))
    ensures forall i :: 0 <= i < |r| ==> r[i] in TrendCandidates(products, views, items, since, farmerIds)
    ensures forall i :: 0 <= i < |r| ==> RecentlyActive(r[i].product, views, since, farmerIds)
  {
    var c := TrendCandidates(products, views, items, since, farmerIds);
    TopN(c, TrendScore, 5)
  }

  /** A candidate left off the trending list scores no higher than any on it. */
  lemma TrendingKeepsBest(products: seq<Product>, views: Views, items: seq<OrderItem>, since: int, farmerIds: set<nat>, x: TrendRow, y: TrendRow)
    requires x in Trending(products, views, items, since, farmerIds)
    requires y in TrendCandidates(products, views, items, since, farmerIds) && y !in Trending(products, views, items, since, farmerIds)
    ensures TrendScore(y) <= TrendScore(x)
  {
    TopNCutsLowest(TrendCandidates(products, views, items, since, farmerIds), TrendScore, 5, x, y);
  }
}
