/** The product store (models/productModel.js): the products and product_views
    tables as the state of one object, the view upsert and the soft delete that
    change it in place, and the listing, farmer-catalogue and update-statement
    queries that read it. */
module ProductModel {
  import opened Seqs
  import opened Ranking
  import opened Tables
  import opened Query

  /** The view_id serial: every id handed out so far is below the next one, and
      no two view rows share an id. */
  ghost predicate ViewIdsValid(views: Views, nextViewId: nat)
  {
    && (forall k :: k in views ==> views[k].viewId < nextViewId)
    && (forall k1, k2 :: k1 in views && k2 in views && k1 != k2 ==> views[k1].viewId != views[k2].viewId)
  }

  /** INSERT INTO product_views ... ON CONFLICT (customer_id, product_id)
      DO UPDATE SET viewed_at = now: the pair's row afterwards carries `now`;
      an existing row keeps its view_id, a new one takes the serial value the
      insert drew; no other row changes. */
  function Upsert(views: Views, key: ViewKey, now: int, nextViewId: nat): (v: Views)
    ensures v.Keys == views.Keys + {key}
    ensures v[key].viewedAt == now
    ensures v[key].viewId == if key in views then views[key].viewId else nextViewId
    ensures forall k :: k in views && k != key ==> v[k] == views[k]
  {
    if key in views then views[key := views[key].(viewedAt := now)]
    else views[key := ViewEntry(nextViewId, now)]
  }

  /** Recording a view adds one to the product's view count the first time the
      customer views it, and nothing on later visits; other products' counts do
      not move. */
  lemma UpsertViewCount(views: Views, key: ViewKey, now: int, nextViewId: nat, productId: nat)
    ensures ViewCount(Upsert(views, key, now, nextViewId), productId)
         == ViewCount(views, productId) + if key !in views && key.productId == productId then 1 else 0
  {
    var e := Upsert(views, key, now, nextViewId)[key];
    assert Upsert(views, key, now, nextViewId) == views[key := e];
    ViewCountStore(views, key, e, productId);
  }

  lemma ViewCountStore(views: Views, key: ViewKey, e: ViewEntry, productId: nat)
    ensures ViewCount(views[key := e], productId)
         == ViewCount(views, productId) + if key !in views && key.productId == productId then 1 else 0
  {
    var before := set k | k in views && k.productId == productId;
    var after := set k | k in views[key := e] && k.productId == productId;
    if key !in views && key.productId == productId {
      assert after == before + {key};
    } else {
      assert after == before;
    }
  }

  /** Recording the same view twice leaves what a single recording at the
      second time leaves: one row for the pair, with the first call's view_id
      and the second call's timestamp. */
  lemma UpsertTwice(views: Views, key: ViewKey, t1: int, t2: int, nextViewId: nat, laterViewId: nat)
    ensures Upsert(Upsert(views, key, t1, nextViewId), key, t2, laterViewId) == Upsert(views, key, t2, nextViewId)
  {
    var once := Upsert(views, key, t2, nextViewId);
    var twice := Upsert(Upsert(views, key, t1, nextViewId), key, t2, laterViewId);
    assert twice.Keys == once.Keys;
    forall k | k in once ensures twice[k] == once[k] {}
  }

  /** UPDATE products SET status = 'UNAVAILABLE' WHERE product_id = id: a
      soft delete keeps every row; the deleted product's row differs only in
      its status, which becomes UNAVAILABLE; every other row is unchanged. */
  function SoftDelete(products: seq<Product>, productId: nat): (r: seq<Product>)
    ensures |r| == |products|
    ensures forall i :: 0 <= i < |products| && products[i].productId != productId ==> r[i] == products[i]
    ensures forall i :: 0 <= i < |products| && products[i].productId == productId ==>
      r[i] == products[i].(status := Unavailable)
  {
    seq(|products|, i requires 0 <= i < |products| =>
      if products[i].productId == productId then products[i].(status := Unavailable) else products[i])
  }

  /** FindByFarmer's row order: created_at DESC. */
  function CreatedAt(p: Product): real { p.createdAt as real }

  predicate FarmerListing(farmerId: nat, p: Product)
  {
    p.farmerId == farmerId && p.status == Available
  }

  /** SELECT * FROM products WHERE farmer_id = $1 AND status = 'AVAILABLE'
      ORDER BY created_at DESC. */
  function FindByFarmer(products: seq<Product>, farmerId: nat): (r: seq<Product>)
    ensures |r| == Count(products, (p: Product) => FarmerListing(farmerId, p))
    ensures forall i :: 0 <= i < |r| ==> r[i] in products && FarmerListing(farmerId, r[i])
    ensures forall p :: p in products && FarmerListing(farmerId, p) ==> p in r
    ensures SortedDesc(r, CreatedAt)
  {
    var mine := Filter(products, (p: Product) => FarmerListing(farmerId, p));
    SortDesc(mine, CreatedAt)
  }

  /** After a soft delete the product is no longer in its farmer's catalogue. */
  lemma DeletedLeavesCatalogue(products: seq<Product>, productId: nat, farmerId: nat)
    ensures forall p :: p in FindByFarmer(SoftDelete(products, productId), farmerId) ==> p.productId != productId
  {
  }

  class ProductStore {
    var products: seq<Product>
    var views: Views
    var nextViewId: nat

    ghost predicate Valid()
      reads this
    {
      ViewIdsValid(views, nextViewId)
    }

    constructor ()
      ensures Valid()
      ensures products == [] && views == map[] && nextViewId == 1
    {
      products := [];
      views := map[];
      nextViewId := 1;
    }

    /** recordProductView(customer_id, product_id), at time `now`. The
        INSERT evaluates the view_id serial default before ON CONFLICT decides
        between insert and update, so every call consumes one serial value,
        and a repeated view leaves a gap in the ids. */
    method RecordProductView(customerId: nat, productId: nat, now: int)
      requires Valid()
      modifies this
      ensures Valid()
      ensures views == Upsert(old(views), ViewKey(customerId, productId), now, old(nextViewId))
      ensures nextViewId == old(nextViewId) + 1
      ensures products == old(products)
    {
      var key := ViewKey(customerId, productId);
      var drawn := nextViewId;
      nextViewId := nextViewId + 1;
      if key in views {
        views := views[key := views[key].(viewedAt := now)];
      } else {
        views := views[key := ViewEntry(drawn, now)];
      }
    }

    /** delete(product_id): a soft delete. */
    method Delete(productId: nat)
      requires Valid()
      modifies this
      ensures Valid()
      ensures products == SoftDelete(old(products), productId)
      ensures views == old(views) && nextViewId == old(nextViewId)
    {
      products := SoftDelete(products, productId);
    }
  }

  // getAllProducts

  /** The listing's optional filters; None stands for a query-string value that
      is absent or empty (falsy). */
  datatype ListingFilters = ListingFilters(
    category: Option<string>,
    barangay: Option<string>,
    minPrice: Option<real>,
    maxPrice: Option<real>)

  /** A listing row: the product with its farmer's barangay (users.barangay). */
  datatype Listing = Listing(product: Product, barangay: string)

  function ListingRow(l: Listing): Row
  {
    map[Category := Text(l.product.category), Barangay := Text(l.barangay), Price := Number(l.product.price)]
  }

  /** What the filters mean: equality on category and barangay, inclusive
      bounds on price, and no constraint for an absent filter. */
  predicate ListingFilterHolds(f: ListingFilters, l: Listing)
  {
    && (f.category.Some? ==> l.product.category == f.category.value)
    && (f.barangay.Some? ==> l.barangay == f.barangay.value)
    && (f.minPrice.Some? ==> l.product.price >= f.minPrice.value)
    && (f.maxPrice.Some? ==> l.product.price <= f.maxPrice.value)
  }

  /** The parameter assembly of getAllProducts: each present filter appends one
      condition with the next placeholder and pushes one value. */
  method BuildListingQuery(f: ListingFilters) returns (conds: seq<Condition>, values: seq<Param>)
    ensures Numbered(conds, values, 1)
    ensures forall l :: Selects(conds, values, ListingRow(l)) <==> ListingFilterHolds(f, l)
  {
    conds, values := [], [];
    var paramIndex := 1;
    ghost var clauses := ListingClauses(f);
    NoClauses(clauses);
    ghost var before, beforeValues := conds, values;
    if f.category.Some? {
      conds, values := Push(conds, values, Condition(Category, Eq, paramIndex), Text(f.category.value));
      paramIndex := paramIndex + 1;
    }
    AppendClause(clauses, 0, before, beforeValues, conds, values);
    before, beforeValues := conds, values;
    if f.barangay.Some? {
      conds, values := Push(conds, values, Condition(Barangay, Eq, paramIndex), Text(f.barangay.value));
      paramIndex := paramIndex + 1;
    }
    AppendClause(clauses, 1, before, beforeValues, conds, values);
    before, beforeValues := conds, values;
    if f.minPrice.Some? {
      conds, values := Push(conds, values, Condition(Price, AtLeast, paramIndex), Number(f.minPrice.value));
      paramIndex := paramIndex + 1;
    }
    AppendClause(clauses, 2, before, beforeValues, conds, values);
    before, beforeValues := conds, values;
    if f.maxPrice.Some? {
      conds, values := Push(conds, values, Condition(Price, AtMost, paramIndex), Number(f.maxPrice.value));
      paramIndex := paramIndex + 1;
    }
    AppendClause(clauses, 3, before, beforeValues, conds, values);
    ListingClausesMeaning(f);
  }

  /** The listing's filters in the order the query appends them. */
  function ListingClauses(f: ListingFilters): seq<Option<Clause>>
  {
    [ if f.category.Some? then Some((Category, Eq, Text(f.category.value))) else None,
      if f.barangay.Some? then Some((Barangay, Eq, Text(f.barangay.value))) else None,
      if f.minPrice.Some? then Some((Price, AtLeast, Number(f.minPrice.value))) else None,
      if f.maxPrice.Some? then Some((Price, AtMost, Number(f.maxPrice.value))) else None ]
  }

  /** Read on a listing row, the four conditions say what the filters mean. */
  lemma ListingClausesMeaning(f: ListingFilters)
    ensures forall l :: FirstClauses(ListingClauses(f), 4, ListingRow(l)) <==> ListingFilterHolds(f, l)
  {
    var clauses := ListingClauses(f);
    forall l ensures FirstClauses(clauses, 4, ListingRow(l)) <==> ListingFilterHolds(f, l) {
      if FirstClauses(clauses, 4, ListingRow(l)) {
        assert f.category.Some? ==> clauses[0].Some?;
        assert f.barangay.Some? ==> clauses[1].Some?;
        assert f.minPrice.Some? ==> clauses[2].Some?;
        assert f.maxPrice.Some? ==> clauses[3].Some?;
      }
    }
  }

  /** The listing getAllProducts returns: AVAILABLE products of farmers with a
      user account (the joins), kept by the filters, newest first. */
  function ListProducts(products: seq<Product>, barangayOf: map<nat, string>, f: ListingFilters): (r: seq<Listing>)
    ensures |r| == Count(products, (p: Product) => Listable(barangayOf, f, p))
    ensures forall i :: 0 <= i < |r| ==> r[i].product in products && r[i].product.status == Available
    ensures forall i :: 0 <= i < |r| ==>
      r[i].product.farmerId in barangayOf && r[i].barangay == barangayOf[r[i].product.farmerId]
    ensures forall i :: 0 <= i < |r| ==> ListingFilterHolds(f, r[i])
    ensures forall p :: (p in products && p.status == Available && p.farmerId in barangayOf
      && ListingFilterHolds(f, Listing(p, barangayOf[p.farmerId]))) ==> Listing(p, barangayOf[p.farmerId]) in r
    ensures SortedDesc(r, ListingCreatedAt)
  {
    var joined := Joined(products, barangayOf);
    var keep := (l: Listing) => l.product.status == Available && ListingFilterHolds(f, l);
    FilterMembers(joined, keep);
    SortDescMembers(Filter(joined, keep), ListingCreatedAt);
    JoinedListingCount(products, barangayOf, f);
    SortDesc(Filter(joined, keep), ListingCreatedAt)
  }

  /** A product is listed once: it is AVAILABLE, its farmer joins, and the
      joined row passes the filters. */
  predicate Listable(barangayOf: map<nat, string>, f: ListingFilters, p: Product)
  {
    p.status == Available && p.farmerId in barangayOf && ListingFilterHolds(f, Listing(p, barangayOf[p.farmerId]))
  }

  /** The join yields one row per joining product, so filtering the joined
      rows keeps exactly one row per listable product. */
  lemma {:induction false} JoinedListingCount(products: seq<Product>, barangayOf: map<nat, string>, f: ListingFilters)
    ensures |Filter(Joined(products, barangayOf), (l: Listing) => l.product.status == Available && ListingFilterHolds(f, l))|
      == Count(products, (p: Product) => Listable(barangayOf, f, p))
  {
    var keep := (l: Listing) => l.product.status == Available && ListingFilterHolds(f, l);
    if products != [] {
      var rest := Joined(products[1..], barangayOf);
      JoinedListingCount(products[1..], barangayOf, f);
      CountCons(products, (p: Product) => Listable(barangayOf, f, p));
      if products[0].farmerId in barangayOf {
        var l := Listing(products[0], barangayOf[products[0].farmerId]);
        assert Joined(products, barangayOf) == [l] + rest;
        FilterAppend([l], rest, keep);
        assert Filter([l], keep) == if keep(l) then [l] else [];
      }
    }
  }

  function ListingCreatedAt(l: Listing): real { l.product.createdAt as real }

  /** products JOIN farmers JOIN users: a product whose farmer has no user row
      drops out. */
  function Joined(products: seq<Product>, barangayOf: map<nat, string>): (r: seq<Listing>)
    ensures forall i :: 0 <= i < |r| ==>
      (r[i].product in products && r[i].product.farmerId in barangayOf && r[i].barangay == barangayOf[r[i].product.farmerId])
    ensures forall p :: p in products && p.farmerId in barangayOf ==> Listing(p, barangayOf[p.farmerId]) in r
  {
    if products == [] then []
    else
      var rest := Joined(products[1..], barangayOf);
      assert forall p :: p in products[1..] ==> p in products;
      if products[0].farmerId in barangayOf then [Listing(products[0], barangayOf[products[0].farmerId])] + rest
      else rest
  }

  // update

  datatype Assignment = Assignment(column: string, placeholder: nat)

  /** UPDATE products SET <assignments> WHERE product_id = $1, with its
      parameter list. */
  datatype UpdateStatement = UpdateStatement(assignments: seq<Assignment>, params: seq<Param>)

  /** An empty updateData joins to an empty SET list, which the database
      rejects as a syntax error. When the statement runs, a SET column that
      the products table does not have, or a column assigned twice, makes the
      database reject the statement as well. */
  datatype UpdateError = EmptySetList | UnknownColumn | RepeatedColumn

  /** update(product_id, updateData), with updateData's entries in key order. */
  function BuildUpdate(productId: nat, data: seq<(string, Param)>): (r: Result<UpdateStatement, UpdateError>)
    ensures r.Err? <==> data == []
  {
    if data == [] then Err(EmptySetList)
    else
      Ok(UpdateStatement(
        seq(|data|, i requires 0 <= i < |data| => Assignment(data[i].0, i + 2)),
        [Number(productId as real)] + seq(|data|, i requires 0 <= i < |data| => data[i].1)))
  }

  /** The statement's placeholders: `$1` is the product id, and the i-th key
      (from 0) is bound to `$(i+2)`, which holds that key's value. */
  lemma UpdatePlaceholders(productId: nat, data: seq<(string, Param)>)
    requires data != []
    ensures var s := BuildUpdate(productId, data).value;
      && |s.assignments| == |data|
      && |s.params| == |data| + 1
      && s.params[0] == Number(productId as real)
      && forall i :: 0 <= i < |data| ==>
           s.assignments[i].column == data[i].0 && 2 <= s.assignments[i].placeholder <= |s.params|
           && s.params[s.assignments[i].placeholder - 1] == data[i].1
  {
  }

  /** The SET list's effect on a row, read through the parameter list. */
  function ApplySet(row: map<string, Param>, assignments: seq<Assignment>, params: seq<Param>): map<string, Param>
    decreases |assignments|
  {
    if assignments == [] then row
    else
      var a := assignments[0];
      var row' := if 1 <= a.placeholder <= |params| then row[a.column := params[a.placeholder - 1]] else row;
      ApplySet(row', assignments[1..], params)
  }

  /** The database running the statement on a row whose keys are the
      products table's columns: a SET list that names a column the row does
      not have, or names one column twice, is rejected and changes nothing;
      otherwise the SET list is applied. */
  function ExecuteUpdate(row: map<string, Param>, s: UpdateStatement): (r: Result<map<string, Param>, UpdateError>)
    ensures r.Err? <==>
      ((exists i :: 0 <= i < |s.assignments| && s.assignments[i].column !in row)
       || (exists i, j :: 0 <= i < j < |s.assignments| && s.assignments[i].column == s.assignments[j].column))
    ensures r.Err? && (exists i :: 0 <= i < |s.assignments| && s.assignments[i].column !in row) ==> r.error == UnknownColumn
  {
    if exists i :: 0 <= i < |s.assignments| && s.assignments[i].column !in row then Err(UnknownColumn)
    else if exists i, j :: 0 <= i < j < |s.assignments| && s.assignments[i].column == s.assignments[j].column then Err(RepeatedColumn)
    else Ok(ApplySet(row, s.assignments, s.params))
  }

  /** The effect intended by updateData: each key takes its value. */
  function ApplyData(row: map<string, Param>, data: seq<(string, Param)>): map<string, Param>
    decreases |data|
  {
    if data == [] then row else ApplyData(row[data[0].0 := data[0].1], data[1..])
  }

  /** Executing the assembled statement on a products row: it is rejected
      exactly when some key of updateData is not a column of the row (or a
      key repeats), and otherwise it sets every key to its own value, because
      the placeholder numbering lines the values up with the keys. */
  lemma UpdateMeansData(row: map<string, Param>, productId: nat, data: seq<(string, Param)>)
    requires data != []
    ensures var s := BuildUpdate(productId, data).value;
      && (ExecuteUpdate(row, s).Err? <==>
            ((exists i :: 0 <= i < |data| && data[i].0 !in row)
             || (exists i, j :: 0 <= i < j < |data| && data[i].0 == data[j].0)))
      && ((exists i :: 0 <= i < |data| && data[i].0 !in row) ==> ExecuteUpdate(row, s) == Err(UnknownColumn))
      && (ExecuteUpdate(row, s).Ok? ==> ExecuteUpdate(row, s).value == ApplyData(row, data))
  {
    var s := BuildUpdate(productId, data).value;
    assert forall i :: 0 <= i < |data| ==> s.assignments[i].column == data[i].0;
    ApplySetSuffix(row, productId, data, 0);
    assert s.assignments[0..] == s.assignments && data[0..] == data;
  }

  lemma {:induction false} ApplySetSuffix(row: map<string, Param>, productId: nat, data: seq<(string, Param)>, n: nat)
    requires data != [] && n <= |data|
    ensures var s := BuildUpdate(productId, data).value;
      ApplySet(row, s.assignments[n..], s.params) == ApplyData(row, data[n..])
    decreases |data| - n
  {
    var s := BuildUpdate(productId, data).value;
    if n < |data| {
      assert s.assignments[n..][0] == Assignment(data[n].0, n + 2);
      assert s.params[n + 1] == data[n].1;
      assert s.assignments[n..][1..] == s.assignments[n + 1..];
      assert data[n..][0] == data[n] && data[n..][1..] == data[n + 1..];
      ApplySetSuffix(row[data[n].0 := data[n].1], productId, data, n + 1);
    }
  }
}
