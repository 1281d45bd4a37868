/** The signal store's tables as in-memory values, and the per-product
    aggregates the scoring queries take from them.

    Conventions shared by every query model:
    - product_views has one row per (customer_id, product_id) (its upsert key),
      so it is a map from that pair to the row's view_id and viewed_at; counting
      DISTINCT view_id counts keys, and DISTINCT customer_id counts customers;
    - order_item_id and order_id are primary keys, so COUNT(DISTINCT
      oi.order_item_id) is the number of matching item rows;
    - timestamps are seconds on one clock; calendar months are 1..12. */
module Tables {
  import opened Numeric
  import opened Seqs

  datatype Option<T> = None | Some(value: T)

  datatype Result<T, E> = Ok(value: T) | Err(error: E)

  datatype ProductStatus = Available | Unavailable
  {
    /** The text stored in products.status. */
    function Name(): string
    {
      match this
      case Available => "AVAILABLE"
      case Unavailable => "UNAVAILABLE"
    }
  }

  datatype OrderStatus = Pending | NoStock | Delivered | OtherStatus(name: string)

  datatype Product = Product(
    productId: nat,
    farmerId: nat,
    name: string,
    category: string,
    price: real,
    quantity: int,
    status: ProductStatus,
    harvestMonth: Option<int>,  // EXTRACT(MONTH FROM harvest_date), None when harvest_date is NULL
    createdAt: int)

  datatype ViewKey = ViewKey(customerId: nat, productId: nat)
  datatype ViewEntry = ViewEntry(viewId: nat, viewedAt: int)
  type Views = map<ViewKey, ViewEntry>

  datatype Order = Order(
    orderId: nat,
    farmerId: nat,
    status: OrderStatus,
    orderDate: int,
    updatedAt: Option<int>,
    totalAmount: real)

  datatype OrderItem = OrderItem(orderItemId: nat, orderId: nat, productId: nat, quantity: int, price: real)

  datatype Feedback = Feedback(feedbackId: nat, productId: nat, customerId: nat, rating: int, createdAt: int)

  /** COUNT(DISTINCT pv.view_id) of one product. */
  function ViewCount(views: Views, productId: nat): nat
  {
    |set k | k in views && k.productId == productId|
  }

  /** The same count restricted to views newer than `since`. */
  function ViewCountAfter(views: Views, productId: nat, since: int): nat
  {
    |set k | k in views && k.productId == productId && views[k].viewedAt > since|
  }

  /** COUNT(DISTINCT pv.customer_id) over a group of products. */
  function ViewerCount(views: Views, productIds: set<nat>): nat
  {
    |set k | k in views && k.productId in productIds :: k.customerId|
  }

  /** COUNT(DISTINCT oi.order_item_id) of one product. */
  function PurchaseCount(items: seq<OrderItem>, productId: nat): nat
  {
    Count(items, (it: OrderItem) => it.productId == productId)
  }

  /** The status of an order, None when no order has that id (a LEFT JOIN miss). */
  function StatusOf(orders: seq<Order>, orderId: nat): Option<OrderStatus>
  {
    if orders == [] then None
    else if orders[0].orderId == orderId then Some(orders[0].status)
    else StatusOf(orders[1..], orderId)
  }

  /** The number of order items of one product whose order is in one of the
      given statuses: the status set is an explicit parameter. */
  function ItemsInStatus(items: seq<OrderItem>, orders: seq<Order>, productId: nat, statuses: set<OrderStatus>): nat
  {
    Count(items, (it: OrderItem) => it.productId == productId && InStatus(StatusOf(orders, it.orderId), statuses))
  }

  /** Items in a set of order statuses are among the product's purchases. */
  lemma {:induction false} ItemsInStatusWithinPurchases(items: seq<OrderItem>, orders: seq<Order>, productId: nat,
                                                        statuses: set<OrderStatus>)
    ensures ItemsInStatus(items, orders, productId, statuses) <= PurchaseCount(items, productId)
  {
    if items != [] {
      CountCons(items, (it: OrderItem) => it.productId == productId && InStatus(StatusOf(orders, it.orderId), statuses));
      CountCons(items, (it: OrderItem) => it.productId == productId);
      ItemsInStatusWithinPurchases(items[1..], orders, productId, statuses);
    }
  }

  predicate InStatus(s: Option<OrderStatus>, statuses: set<OrderStatus>)
  {
    s.Some? && s.value in statuses
  }

  /** The ratings left on one product, in table order. */
  function RatingsOf(feedback: seq<Feedback>, productId: nat): seq<int>
  {
    if feedback == [] then []
    else if feedback[0].productId == productId then [feedback[0].rating] + RatingsOf(feedback[1..], productId)
    else RatingsOf(feedback[1..], productId)
  }

  function SumInts(xs: seq<int>): int
  {
    if xs == [] then 0 else xs[0] + SumInts(xs[1..])
  }

  /** COALESCE(AVG(rating), 0): the mean, and 0 rather than NULL when there is
      no rating at all. */
  function MeanOrZero(xs: seq<int>): (m: real)
    ensures xs == [] ==> m == 0.0
    ensures xs != [] ==> m * |xs| as real == SumInts(xs) as real
    ensures (forall i :: 0 <= i < |xs| ==> 1 <= xs[i] <= 5) && xs != [] ==> 1.0 <= m <= 5.0
  {
    if xs == [] then 0.0
    else
      StarsBounds(xs);
      var m := SumInts(xs) as real / |xs| as real;
      MeanBounds(SumInts(xs) as real, |xs| as real);
      m
  }

  lemma MeanBounds(total: real, n: real)
    requires n > 0.0
    ensures n <= total <= 5.0 * n ==> 1.0 <= total / n <= 5.0
  {
    var q := total / n;
    assert q * n == total;
    if q < 1.0 {
      assert q * n < n;
    }
    if q > 5.0 {
      assert q * n > 5.0 * n;
    }
  }

  lemma {:induction false} StarsBounds(xs: seq<int>)
    ensures (forall i :: 0 <= i < |xs| ==> 1 <= xs[i] <= 5) ==> |xs| <= SumInts(xs) <= 5 * |xs|
  {
    if xs != [] {
      StarsBounds(xs[1..]);
    }
  }

  /** The number of rows a LEFT JOIN produces for one outer row that matches
      n inner rows: n of them, or a single NULL-extended row when n = 0. */
  function JoinWidth(n: nat): (w: nat)
    ensures w >= 1 && w >= n
    ensures n > 0 ==> w == n
  {
    Max(1, n)
  }

  /** Repeating each of u rows w >= 1 times yields u rows exactly when nothing
      is repeated or there is nothing to repeat, and never fewer. */
  lemma Repeated(w: nat, u: nat)
    requires w >= 1
    ensures w * u >= u
    ensures w * u == u <==> w == 1 || u == 0
  {
    if w > 1 && u > 0 {
      var k: nat := w - 1;
      assert w * u == u + k * u;
      assert k * u >= 1;
    }
  }
}
